/** constants.ts: the fixed fourteen-day care schedule. */
module Constants {
  import opened Types

  /** `CARE_SCHEDULE`, in the order the calendar lists it. */
  const CARE_SCHEDULE: seq<CareTask> := [
    CareTask(1, "Operasyon Sonrası İlk Gün",
      "Dinlenin ve başınızı yüksekte tutun. Size verilen ilaçları düzenli kullanın. Ekim alanına dokunmaktan kaçının.",
      " bandages"),
    CareTask(2, "Kontrol ve Pansuman",
      "Klinikte ilk kontrolünüz yapılacak. Uyku pozisyonunuza dikkat etmeye devam edin. Bol su için.",
      "🩺"),
    CareTask(3, "İlk Yıkama Zamanı",
      "Klinikte veya gösterildiği şekilde ilk yıkamanızı yapın. Özel losyon ve şampuanı nazikçe kullanın.",
      "🧼"),
    CareTask(4, "Günlük Yıkama Rutini",
      "Her gün bir kez, gösterildiği şekilde yıkamaya devam edin. Kabuklanmaların yumuşamasına yardımcı olur.",
      "🚿"),
    CareTask(5, "Hafif Ödem ve Kaşıntı",
      "Alnınızda hafif ödem olabilir, normaldir. Kaşıntı iyileşme belirtisidir, ancak kaşımaktan kaçının.",
      "😊"),
    CareTask(6, "Günlük Aktivitelere Dönüş",
      "Ağır sporlar hariç hafif tempolu yürüyüş gibi aktivitelere başlayabilirsiniz. Yıkama rutininizi aksatmayın.",
      "🚶"),
    CareTask(7, "Kabuklanma Yoğunlaşabilir",
      "Kabuklar daha belirgin hale gelebilir. Yıkama sırasında nazik masaj hareketleriyle dökülmelerine yardımcı olun.",
      "🩹"),
    CareTask(8, "Hassasiyet Devam Ediyor",
      "Ekim ve donör bölgedeki hassasiyet devam edebilir. Güneşten ve travmalardan korunun.",
      "❤️‍🩹"),
    CareTask(9, "Yıkama Rutinine Devam",
      "Kabukların tamamen dökülmesi için nazik yıkama çok önemlidir. Sabırlı olun.",
      "🚿"),
    CareTask(10, "Kabukların Dökülme Süreci",
      "Kabukların büyük bir kısmı bu güne kadar dökülmüş olmalı. Dökülmeyenler için zorlamayın.",
      "✨"),
    CareTask(11, "Normal Görünüme Yaklaşma",
      "Kızarıklık azalmaya başlar ve kafa deriniz daha normal bir görünüme kavuşur.",
      "👍"),
    CareTask(12, "Donör Bölgenin İyileşmesi",
      "Donör bölge büyük ölçüde iyileşmiş olmalı. Hafif kaşıntı devam edebilir.",
      "👌"),
    CareTask(13, "Son Kontroller",
      "Yıkama rutininin son günleri. Kafa derinizin temiz ve kabuksuz olduğundan emin olun.",
      "📋"),
    CareTask(14, "Hassas Dönem Sonu",
      "İlk 14 günlük kritik süreç tamamlandı. Artık normal yıkama düzenine geçebilirsiniz. Şok dökülme başlayabilir, endişelenmeyin.",
      "🎉")
  ]

  /** Days strictly increase along a schedule. */
  predicate StrictlyIncreasingDays(schedule: seq<CareTask>)
  {
    forall i, j | 0 <= i < j < |schedule| :: schedule[i].day < schedule[j].day
  }

  /** The schedule has fourteen entries and the entry at index `i` is for
      day `i + 1`; so its days lie in 1..14. */
  lemma ScheduleDays()
    ensures |CARE_SCHEDULE| == 14
    ensures forall i | 0 <= i < |CARE_SCHEDULE| :: CARE_SCHEDULE[i].day == i + 1
    ensures forall i | 0 <= i < |CARE_SCHEDULE| :: 1 <= CARE_SCHEDULE[i].day <= 14
  {
  }

  /** The days of the schedule strictly increase, hence are distinct: the
      calendar uses the day as each rendered entry's key. */
  lemma ScheduleStrictlyIncreasing()
    ensures StrictlyIncreasingDays(CARE_SCHEDULE)
  {
    ScheduleDays();
  }
}
