/** components/AiCoachChat.tsx: the chat view's transcript, input field and
    loading flag, and the four handlers that change them. Each handler runs
    as one atomic sequence of steps for a given outcome of the remote call;
    the ghost log `shown` records every transcript the handler hands to
    `setMessages`, so the intermediate states of a turn are part of each
    handler's contract. */
module AiCoachChat {
  import opened Wrappers
  import opened Types
  import opened JsString
  import opened GeminiService

  const GREETING_TRIGGER := "Merhaba"
  const GREETING_APOLOGY := "Merhaba, size yardımcı olurken bir sorunla karşılaştım. Lütfen daha sonra tekrar deneyin."
  const SEND_APOLOGY := "Üzgünüm, bir hata oluştu. Lütfen tekrar deneyin."
  const COMPLEX_PLACEHOLDER := "Karmaşık sorunuzu düşünüyorum..."
  const COMPLEX_APOLOGY := "Üzgünüm, karmaşık sorunuzu işlerken bir hata oluştu."
  const WEB_PLACEHOLDER := "Web'de arama yapıyorum..."
  const WEB_APOLOGY := "Üzgünüm, web'de arama yaparken bir hata oluştu."

  /** How a streamed chat request settled: `sendMessageStream` rejected
      before yielding a stream, or the stream delivered `chunks` (their
      `text` fields) in order and then either ended or broke off. */
  datatype StreamReply = Refused | Streamed(chunks: seq<string>, broken: bool)

  /** `modelResponse` after `modelResponse += chunk.text` for each chunk. */
  function Concat(chunks: seq<string>): string
  {
    if chunks == [] then "" else Concat(chunks[..|chunks| - 1]) + chunks[|chunks| - 1]
  }

  /** The accumulated text splits at any chunk boundary: what is shown after
      `i` chunks is extended by exactly the later chunks, in arrival order. */
  lemma {:induction false} ConcatSplit(chunks: seq<string>, i: nat)
    requires i <= |chunks|
    ensures Concat(chunks) == Concat(chunks[..i]) + Concat(chunks[i..])
  {
    if i < |chunks| {
      var n := |chunks| - 1;
      ConcatSplit(chunks[..n], i);
      assert chunks[..n][..i] == chunks[..i];
      assert chunks[i..][..|chunks[i..]| - 1] == chunks[..n][i..];
    } else {
      assert chunks[..i] == chunks;
    }
  }

  /** The shown answer only grows: after `i` chunks it is a prefix of the
      answer after `j >= i` chunks. */
  lemma ConcatMonotone(chunks: seq<string>, i: nat, j: nat)
    requires i <= j <= |chunks|
    ensures Concat(chunks[..i]) <= Concat(chunks[..j])
  {
    ConcatSplit(chunks[..j], i);
    assert chunks[..j][..i] == chunks[..i];
  }

  /** The chunks "Mer" and "haba" show "Mer", then "Merhaba". */
  lemma StreamExample(base: seq<ChatMessage>)
    ensures Frames(base, ["Mer", "haba"])
      == [base + [TextMessage(Model, "Mer")], base + [TextMessage(Model, "Merhaba")]]
  {
    var chunks := ["Mer", "haba"];
    assert chunks[..1] == ["Mer"] && ["Mer"][..0] == [];
    assert Concat(["Mer"]) == "Mer";
    assert chunks[..2] == chunks;
    assert Concat(chunks) == "Mer" + "haba" == "Merhaba";
    FrameAt(base, chunks, 0);
    FrameAt(base, chunks, 1);
  }

  /** The transcripts shown while a stream is read: after each chunk, `base`
      followed by one model message holding the text so far. */
  function Frames(base: seq<ChatMessage>, chunks: seq<string>): seq<seq<ChatMessage>>
  {
    if chunks == [] then []
    else Frames(base, chunks[..|chunks| - 1]) + [base + [TextMessage(Model, Concat(chunks))]]
  }

  /** After `k + 1` chunks the transcript is `base` and then a model message
      whose text is the first `k + 1` chunk texts concatenated in order. */
  lemma {:induction false} FrameAt(base: seq<ChatMessage>, chunks: seq<string>, k: nat)
    requires k < |chunks|
    ensures |Frames(base, chunks)| == |chunks|
    ensures Frames(base, chunks)[k] == base + [TextMessage(Model, Concat(chunks[..k + 1]))]
  {
    var n := |chunks| - 1;
    if k < n {
      FrameAt(base, chunks[..n], k);
      assert chunks[..n][..k + 1] == chunks[..k + 1];
    } else {
      assert chunks[..k + 1] == chunks;
      if n > 0 {
        FrameAt(base, chunks[..n], n - 1);
      }
    }
  }

  /** The model message a streamed turn ends with: the whole answer, or
      `apology` when the request was refused or the stream broke off. */
  function StreamResult(reply: StreamReply, apology: string): (m: ChatMessage)
    ensures m.role == Model && m.sources == None && |m.parts| == 1
    ensures reply.Streamed? && !reply.broken ==> m.parts[0].text == Concat(reply.chunks)
    ensures reply.Refused? || reply.broken ==> m.parts[0].text == apology
  {
    match reply
    case Refused => TextMessage(Model, apology)
    case Streamed(chunks, broken) =>
      if broken then TextMessage(Model, apology) else TextMessage(Model, Concat(chunks))
  }

  /** The transcript of the chat view. */
  class CoachChat {
    var messages: seq<ChatMessage>
    var input: string
    var isLoading: bool
    /** Every transcript passed to `setMessages`, oldest first. */
    ghost var shown: seq<seq<ChatMessage>>

    /** The view's initial state. */
    constructor ()
      ensures messages == [] && input == "" && !isLoading && shown == []
    {
      messages := [];
      input := "";
      isLoading := false;
      shown := [];
    }

    /** The input field's change handler. */
    method SetInput(value: string)
      modifies this
      ensures input == value
      ensures messages == old(messages) && isLoading == old(isLoading) && shown == old(shown)
    {
      input := value;
    }

    /** `setMessages(ms)`. */
    method Show(ms: seq<ChatMessage>)
      modifies this
      ensures messages == ms && shown == old(shown) + [ms]
      ensures input == old(input) && isLoading == old(isLoading)
    {
      messages := ms;
      shown := shown + [ms];
    }

    /** The synchronous start shared by the three user-triggered handlers:
        refuse a blank input or a second request while one is in flight;
        otherwise append the trimmed input once as a user message, clear the
        input and raise the loading flag. `prior` is the transcript before
        the append. */
    method StartTurn() returns (go: bool, question: string, prior: seq<ChatMessage>)
      modifies this
      ensures go == (Trim(old(input)) != [] && !old(isLoading))
      ensures !go ==> unchanged(this)
      ensures go ==> && question == Trim(old(input)) && prior == old(messages)
                     && messages == prior + [TextMessage(User, question)]
                     && shown == old(shown) + [messages]
                     && input == "" && isLoading
    {
      question := Trim(input);
      prior := messages;
      if question == [] || isLoading {
        return false, question, prior;
      }
      go := true;
      Show(prior + [TextMessage(User, question)]);
      input := "";
      isLoading := true;
    }

    /** Reads a stream into the last message of the transcript: each chunk
        replaces it with `base` plus the running concatenation. */
    method ReadStream(base: seq<ChatMessage>, chunks: seq<string>)
      modifies this
      ensures messages == (if chunks == [] then old(messages) else base + [TextMessage(Model, Concat(chunks))])
      ensures shown == old(shown) + Frames(base, chunks)
      ensures input == old(input) && isLoading == old(isLoading)
    {
      var modelResponse := "";
      var i := 0;
      while i < |chunks|
        invariant 0 <= i <= |chunks|
        invariant modelResponse == Concat(chunks[..i])
        invariant messages == (if i == 0 then old(messages) else base + [TextMessage(Model, modelResponse)])
        invariant shown == old(shown) + Frames(base, chunks[..i])
        invariant input == old(input) && isLoading == old(isLoading)
      {
        modelResponse := modelResponse + chunks[i];
        assert chunks[..i + 1][..i] == chunks[..i];
        Show(base + [TextMessage(Model, modelResponse)]);
        i := i + 1;
      }
      assert chunks[..i] == chunks;
    }

    /** `handleInitialMessage`: clears the transcript and streams the
        greeting into a single model message (no placeholder is shown
        first); a refused request or a broken stream leaves just the
        greeting apology. An empty, unbroken stream leaves the transcript
        empty. The loading flag is down afterwards on every path. */
    method HandleInitialMessage(gw: Gateway, reply: StreamReply)
      modifies this, gw, gw.chat
      ensures !isLoading && input == old(input)
      ensures gw.chat != null && gw.chat.history == []
      ensures old(gw.chat) != null ==> gw.chat == old(gw.chat)
      ensures gw.chat.sent == (if old(gw.chat) == null then [] else old(gw.chat.sent)) + [SentMessage([], GREETING_TRIGGER)]
      ensures messages == (if reply.Streamed? && !reply.broken && reply.chunks == [] then []
                           else [StreamResult(reply, GREETING_APOLOGY)])
      ensures reply.Refused? ==> shown == old(shown) + [[], [TextMessage(Model, GREETING_APOLOGY)]]
      ensures reply.Streamed? ==>
        shown == old(shown) + [[]] + Frames([], reply.chunks)
                 + (if reply.broken then [[TextMessage(Model, GREETING_APOLOGY)]] else [])
    {
      isLoading := true;
      Show([]);
      gw.GetChatResponseStream([], GREETING_TRIGGER);
      match reply {
      case Refused =>
        Show([TextMessage(Model, GREETING_APOLOGY)]);
      case Streamed(chunks, broken) =>
        ReadStream([], chunks);
        if broken {
          Show([TextMessage(Model, GREETING_APOLOGY)]);
        }
      }
      isLoading := false;
    }

    /** The part of `handleSend` after the user message is in place: sends
        `question` with the transcript `prior` from before the user message
        as history, shows an empty model message, then replaces it with the
        running concatenation of the chunks; a refused request or a broken
        stream ends in the fixed apology instead, after the user message. */
    method FinishSend(gw: Gateway, prior: seq<ChatMessage>, question: string, reply: StreamReply)
      modifies this, gw, gw.chat
      ensures var base := prior + [TextMessage(User, question)];
        && input == old(input) && !isLoading
        && messages == base + [StreamResult(reply, SEND_APOLOGY)]
        && (reply.Refused? ==> shown == old(shown) + [base + [TextMessage(Model, SEND_APOLOGY)]])
        && (reply.Streamed? ==>
              shown == old(shown) + [base + [TextMessage(Model, "")]] + Frames(base, reply.chunks)
                       + (if reply.broken then [base + [TextMessage(Model, SEND_APOLOGY)]] else []))
      ensures gw.chat != null && gw.chat.history == prior
      ensures old(gw.chat) != null ==> gw.chat == old(gw.chat)
      ensures gw.chat.sent == (if old(gw.chat) == null then [] else old(gw.chat.sent)) + [SentMessage(prior, question)]
      ensures messages == AfterTurns(prior, [Turn(question, StreamResult(reply, SEND_APOLOGY))])
    {
      AfterOneTurn(prior, Turn(question, StreamResult(reply, SEND_APOLOGY)));
      var base := prior + [TextMessage(User, question)];
      gw.GetChatResponseStream(prior, question);
      match reply {
      case Refused =>
        Show(base + [TextMessage(Model, SEND_APOLOGY)]);
      case Streamed(chunks, broken) =>
        Show(base + [TextMessage(Model, "")]);
        ReadStream(base, chunks);
        if broken {
          Show(base + [TextMessage(Model, SEND_APOLOGY)]);
        }
      }
      isLoading := false;
    }

    /** `handleSend`: `StartTurn`, then, when it went ahead, `FinishSend`
        with the transcript from before the user message as history. */
    method HandleSend(gw: Gateway, reply: StreamReply)
      modifies this, gw, gw.chat
      ensures Trim(old(input)) == [] || old(isLoading) ==>
        unchanged(this) && unchanged(gw) && (old(gw.chat) != null ==> unchanged(old(gw.chat)))
      ensures Trim(old(input)) != [] && !old(isLoading) ==>
        var base := old(messages) + [TextMessage(User, Trim(old(input)))];
        && input == "" && !isLoading
        && gw.chat != null && gw.chat.history == old(messages)
        && (old(gw.chat) != null ==> gw.chat == old(gw.chat))
        && gw.chat.sent == (if old(gw.chat) == null then [] else old(gw.chat.sent)) + [SentMessage(old(messages), Trim(old(input)))]
        && messages == base + [StreamResult(reply, SEND_APOLOGY)]
        && messages == AfterTurns(old(messages), [Turn(Trim(old(input)), StreamResult(reply, SEND_APOLOGY))])
        && (reply.Refused? ==> shown == old(shown) + [base] + [base + [TextMessage(Model, SEND_APOLOGY)]])
        && (reply.Streamed? ==>
              shown == old(shown) + [base] + [base + [TextMessage(Model, "")]] + Frames(base, reply.chunks)
                       + (if reply.broken then [base + [TextMessage(Model, SEND_APOLOGY)]] else []))
    {
      var go, question, prior := StartTurn();
      if go {
        FinishSend(gw, prior, question, reply);
      }
    }

    /** `handleComplexQuery`: after `StartTurn`, shows the fixed "thinking"
        placeholder, then replaces it with the answer, or with the fixed
        apology when the request rejects. */
    method HandleComplexQuery(reply: Reply<string>)
      modifies this
      ensures Trim(old(input)) == [] || old(isLoading) ==> unchanged(this)
      ensures Trim(old(input)) != [] && !old(isLoading) ==>
        var base := old(messages) + [TextMessage(User, Trim(old(input)))];
        var answer := if reply.Resolved? then reply.value else COMPLEX_APOLOGY;
        && input == "" && !isLoading
        && messages == base + [TextMessage(Model, answer)]
        && shown == old(shown) + [base] + [base + [TextMessage(Model, COMPLEX_PLACEHOLDER)]] + [messages]
    {
      var go, question, prior := StartTurn();
      if !go {
        return;
      }
      var base := prior + [TextMessage(User, question)];
      Show(base + [TextMessage(Model, COMPLEX_PLACEHOLDER)]);
      match reply {
      case Resolved(text) =>
        Show(base + [TextMessage(Model, text)]);
      case Rejected =>
        Show(base + [TextMessage(Model, COMPLEX_APOLOGY)]);
      }
      isLoading := false;
    }

    /** `handleWebSearch`: after `StartTurn`, shows the fixed "searching"
        placeholder, then replaces it with the answer carrying its filtered
        grounding sources, or with the fixed apology (without sources) when
        the request rejects. */
    method HandleWebSearch(reply: Reply<GenerateContentResponse>)
      modifies this
      ensures Trim(old(input)) == [] || old(isLoading) ==> unchanged(this)
      ensures Trim(old(input)) != [] && !old(isLoading) ==>
        var base := old(messages) + [TextMessage(User, Trim(old(input)))];
        var answer := if reply.Resolved?
                      then ChatMessage(Model, [TextPart(reply.value.text)], Some(Sources(reply.value)))
                      else TextMessage(Model, WEB_APOLOGY);
        && input == "" && !isLoading
        && messages == base + [answer]
        && shown == old(shown) + [base] + [base + [TextMessage(Model, WEB_PLACEHOLDER)]] + [messages]
    {
      var go, question, prior := StartTurn();
      if !go {
        return;
      }
      var base := prior + [TextMessage(User, question)];
      Show(base + [TextMessage(Model, WEB_PLACEHOLDER)]);
      match reply {
      case Resolved(response) =>
        var web := GetWebResponse(response);
        Show(base + [ChatMessage(Model, [TextPart(web.text)], Some(web.sources))]);
      case Rejected =>
        Show(base + [TextMessage(Model, WEB_APOLOGY)]);
      }
      isLoading := false;
    }
  }

  // ---------------------------------------------------------------------
  // Conversations built from completed turns
  // ---------------------------------------------------------------------

  /** Consecutive messages of `ms` come from different roles. */
  predicate Alternates(ms: seq<ChatMessage>)
  {
    forall i | 0 <= i < |ms| - 1 :: ms[i].role != ms[i + 1].role
  }

  /** A completed user turn: the trimmed question and the model message
      that ended it. */
  datatype Turn = Turn(question: string, answer: ChatMessage)

  /** The transcript after the given turns complete one after the other,
      each appending its user message and then its final model message. */
  function AfterTurns(ms: seq<ChatMessage>, turns: seq<Turn>): seq<ChatMessage>
    decreases |turns|
  {
    if turns == [] then ms
    else AfterTurns(ms + [TextMessage(User, turns[0].question), turns[0].answer], turns[1..])
  }

  /** A single turn appends its user message and its answer. */
  lemma AfterOneTurn(ms: seq<ChatMessage>, t: Turn)
    ensures AfterTurns(ms, [t]) == ms + [TextMessage(User, t.question), t.answer]
  {
    assert [t][1..] == [];
  }

  /** Completing one more turn appends exactly that turn's user message and
      answer to the transcript the earlier turns left. */
  lemma {:induction false} AfterTurnsSnoc(ms: seq<ChatMessage>, turns: seq<Turn>, t: Turn)
    ensures AfterTurns(ms, turns + [t]) == AfterTurns(ms, turns) + [TextMessage(User, t.question), t.answer]
    decreases |turns|
  {
    if turns == [] {
      assert turns + [t] == [t];
      AfterOneTurn(ms, t);
    } else {
      var next := ms + [TextMessage(User, turns[0].question), turns[0].answer];
      assert (turns + [t])[0] == turns[0];
      assert (turns + [t])[1..] == turns[1..] + [t];
      AfterTurnsSnoc(next, turns[1..], t);
    }
  }

  /** N completed turns add exactly 2N messages; starting from a transcript
      that alternates and ends with a model message (the greeting, say),
      the roles keep alternating user, model. */
  lemma {:induction false} TurnsAlternate(ms: seq<ChatMessage>, turns: seq<Turn>)
    requires Alternates(ms) && (ms == [] || ms[|ms| - 1].role == Model)
    requires forall k | 0 <= k < |turns| :: turns[k].answer.role == Model
    ensures |AfterTurns(ms, turns)| == |ms| + 2 * |turns|
    ensures Alternates(AfterTurns(ms, turns))
    ensures AfterTurns(ms, turns)[..|ms|] == ms
    ensures forall k | 0 <= k < |turns| ::
      AfterTurns(ms, turns)[|ms| + 2 * k].role == User && AfterTurns(ms, turns)[|ms| + 2 * k + 1].role == Model
    decreases |turns|
  {
    if turns != [] {
      var next := ms + [TextMessage(User, turns[0].question), turns[0].answer];
      TurnsAlternate(next, turns[1..]);
      var all := AfterTurns(ms, turns);
      assert all == AfterTurns(next, turns[1..]);
      assert all[..|ms|] == next[..|next|][..|ms|];
      forall k | 0 <= k < |turns|
        ensures all[|ms| + 2 * k].role == User && all[|ms| + 2 * k + 1].role == Model
      {
        if k > 0 {
          assert |ms| + 2 * k == |next| + 2 * (k - 1);
        } else {
          assert all[..|next|] == next;
        }
      }
    }
  }
}
