/** components/CareCalendar.tsx: the persisted operation date and the
    projection of the care schedule onto calendar days. Dates are day
    numbers (days since some fixed epoch). */
module CareCalendar {
  import opened Wrappers
  import opened Types
  import opened Constants

  /** A calendar date, as a day number. */
  type Day = int

  /** What the calendar renders for one task. */
  datatype TaskView = TaskView(task: CareTask, date: Day, isToday: bool)

  /** The view of one task: its date is `day - 1` days after the operation
      date, and it is "today" when that date is today's. */
  function ViewOf(opDate: Day, today: Day, task: CareTask): TaskView
  {
    var date := opDate + task.day - 1;
    TaskView(task, date, date == today)
  }

  /** The schedule mapped to task views, in schedule order. */
  function Project(opDate: Day, today: Day, schedule: seq<CareTask>): (views: seq<TaskView>)
    ensures |views| == |schedule|
    ensures forall i | 0 <= i < |schedule| :: views[i] == ViewOf(opDate, today, schedule[i])
  {
    if schedule == [] then []
    else [ViewOf(opDate, today, schedule[0])] + Project(opDate, today, schedule[1..])
  }

  /** Each view keeps its task, falls `day - 1` days after the operation
      date (so a day-1 task falls on the operation date itself) and is
      flagged today exactly when its date is today. */
  lemma ProjectedDates(opDate: Day, today: Day, schedule: seq<CareTask>, i: nat)
    requires i < |schedule|
    ensures Project(opDate, today, schedule)[i].task == schedule[i]
    ensures Project(opDate, today, schedule)[i].date == opDate + schedule[i].day - 1
    ensures schedule[i].day == 1 ==> Project(opDate, today, schedule)[i].date == opDate
    ensures Project(opDate, today, schedule)[i].isToday <==> Project(opDate, today, schedule)[i].date == today
  {
  }

  /** With strictly increasing days the projected dates strictly increase
      in schedule order, so at most one task is flagged today. */
  lemma AtMostOneToday(opDate: Day, today: Day, schedule: seq<CareTask>)
    requires StrictlyIncreasingDays(schedule)
    ensures forall i, j | 0 <= i < j < |schedule| ::
      Project(opDate, today, schedule)[i].date < Project(opDate, today, schedule)[j].date
    ensures forall i, j | 0 <= i < |schedule| && 0 <= j < |schedule|
      && Project(opDate, today, schedule)[i].isToday && Project(opDate, today, schedule)[j].isToday :: i == j
  {
  }

  /** On the fourteen-day schedule the entry at index `i` falls `i` days
      after the operation date, at most one task is flagged today, and one
      is exactly when today is one of the fourteen days starting on the
      operation date. */
  lemma CareScheduleToday(opDate: Day, today: Day)
    ensures forall i | 0 <= i < |CARE_SCHEDULE| :: Project(opDate, today, CARE_SCHEDULE)[i].date == opDate + i
    ensures forall i, j | 0 <= i < |CARE_SCHEDULE| && 0 <= j < |CARE_SCHEDULE|
      && Project(opDate, today, CARE_SCHEDULE)[i].isToday && Project(opDate, today, CARE_SCHEDULE)[j].isToday :: i == j
    ensures (exists i | 0 <= i < |CARE_SCHEDULE| :: Project(opDate, today, CARE_SCHEDULE)[i].isToday)
      <==> opDate <= today < opDate + 14
  {
    ScheduleDays();
    ScheduleStrictlyIncreasing();
    AtMostOneToday(opDate, today, CARE_SCHEDULE);
    var views := Project(opDate, today, CARE_SCHEDULE);
    if opDate <= today < opDate + 14 {
      assert views[today - opDate].isToday;
    }
  }

  /** The calendar's state: the chosen operation date and the single
      `localStorage` entry that keeps it across sessions. */
  class Calendar {
    var opDate: Option<Day>
    var stored: Option<Day>

    /** The storage effect has caught up with the state: a chosen date is
        the stored one. */
    ghost predicate Valid()
      reads this
    {
      opDate.Some? ==> stored == opDate
    }

    /** Mounting reads the stored date, if any; the storage effect then
        writes back the same value. */
    constructor (saved: Option<Day>)
      ensures Valid()
      ensures opDate == saved && stored == saved
    {
      opDate := saved;
      stored := saved;
    }

    /** The storage effect: writes the date only when one is chosen. */
    method Persist()
      modifies this
      ensures opDate == old(opDate)
      ensures stored == (if opDate.Some? then opDate else old(stored))
    {
      if opDate.Some? {
        stored := opDate;
      }
    }

    /** The date input's change handler; `value` is `None` for an empty
        input value, which leaves the date as it was. */
    method HandleDateChange(value: Option<Day>)
      requires Valid()
      modifies this
      ensures Valid()
      ensures opDate == (if value.Some? then value else old(opDate))
      ensures stored == (if value.Some? then value else old(stored))
    {
      if value.Some? {
        opDate := value;
        Persist();
      }
    }

    /** The reset button: forgets the date in the view; the storage effect
        skips a null date, so the stored date stays. */
    method Reset()
      requires Valid()
      modifies this
      ensures Valid()
      ensures opDate == None && stored == old(stored)
    {
      opDate := None;
      Persist();
    }

    /** A reload of the view: the mount initializer reads the stored date
        again. Since the storage effect keeps a chosen date stored, a
        reload brings back the date chosen before it; after a reset it
        brings back the date stored before the reset. */
    method Remount()
      modifies this
      ensures Valid()
      ensures opDate == old(stored) && stored == old(stored)
      ensures old(Valid()) && old(opDate).Some? ==> opDate == old(opDate)
    {
      opDate := stored;
    }

    /** What the calendar lists for today's date: nothing before a date
        is chosen, otherwise the fourteen scheduled tasks in order, the one
        at index `i` dated `i` days after the operation date and flagged
        exactly when that date is today. */
    function Schedule(today: Day): (views: seq<TaskView>)
      reads this
      ensures opDate.None? ==> views == []
      ensures opDate.Some? ==> views == Project(opDate.value, today, CARE_SCHEDULE)
      ensures opDate.Some? ==> |views| == |CARE_SCHEDULE| == 14
      ensures opDate.Some? ==> forall i | 0 <= i < |views| ::
        views[i] == TaskView(CARE_SCHEDULE[i], opDate.value + i, opDate.value + i == today)
    {
      ScheduleDays();
      match opDate
      case Some(d) => Project(d, today, CARE_SCHEDULE)
      case None => []
    }
  }
}
