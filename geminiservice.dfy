/** services/geminiService.ts: what the gateway does locally around the
    generative-AI calls. The calls themselves are outside the model; their
    responses arrive as values of the response datatypes below. */
module GeminiService {
  import opened Wrappers
  import opened Types

  /** The slice of the SDK's response shape the gateway reads; every
      field the SDK may omit is an `Option`. */
  datatype Blob = Blob(mimeType: Option<string>, data: Option<string>)
  datatype Part = Part(text: Option<string>, inlineData: Option<Blob>)
  datatype Content = Content(parts: Option<seq<Part>>)
  datatype WebRef = WebRef(uri: Option<string>, title: Option<string>)
  datatype GroundingChunk = GroundingChunk(web: Option<WebRef>)
  datatype GroundingMetadata = GroundingMetadata(groundingChunks: Option<seq<GroundingChunk>>)
  datatype Candidate = Candidate(content: Option<Content>, groundingMetadata: Option<GroundingMetadata>)
  datatype GenerateContentResponse = GenerateContentResponse(text: string, candidates: Option<seq<Candidate>>)

  /** The `image` argument of `analyzeImage` and `editImage`; `data` is
      absent when the file's data URL had no comma. */
  datatype InlineImage = InlineImage(mimeType: string, data: Option<string>)

  /** What `getWebResponse` resolves with. */
  datatype WebResponse = WebResponse(text: string, sources: seq<Source>)

  /** `response.candidates?.[0]`. */
  function FirstCandidate(response: GenerateContentResponse): Option<Candidate>
  {
    match response.candidates
    case Some(cs) => if |cs| > 0 then Some(cs[0]) else None
    case None => None
  }

  /** `response.candidates?.[0]?.content?.parts ?? []`. */
  function ResponseParts(response: GenerateContentResponse): seq<Part>
  {
    match FirstCandidate(response)
    case Some(Candidate(Some(Content(Some(parts))), _)) => parts
    case _ => []
  }

  /** `response.candidates?.[0]?.groundingMetadata?.groundingChunks`. */
  function GroundingChunks(response: GenerateContentResponse): Option<seq<GroundingChunk>>
  {
    match FirstCandidate(response)
    case Some(Candidate(_, Some(GroundingMetadata(chunks)))) => chunks
    case _ => None
  }

  // ---------------------------------------------------------------------
  // Grounding sources (getWebResponse)
  // ---------------------------------------------------------------------

  /** The object `{ uri: chunk.web?.uri, title: chunk.web?.title }` the map
      step builds from one grounding chunk. */
  datatype SourceEntry = SourceEntry(uri: Option<string>, title: Option<string>)

  function ToEntry(chunk: GroundingChunk): SourceEntry
  {
    match chunk.web
    case Some(w) => SourceEntry(w.uri, w.title)
    case None => SourceEntry(None, None)
  }

  function ToEntries(chunks: seq<GroundingChunk>): (es: seq<SourceEntry>)
    ensures |es| == |chunks|
    ensures forall k | 0 <= k < |chunks| :: es[k] == ToEntry(chunks[k])
  {
    if chunks == [] then [] else [ToEntry(chunks[0])] + ToEntries(chunks[1..])
  }

  /** JavaScript truthiness of an optional string: present and non-empty. */
  predicate Truthy(o: Option<string>)
  {
    o.Some? && o.value != ""
  }

  /** An entry that passes the filter `s => s.uri && s.title`. */
  predicate Kept(e: SourceEntry)
  {
    Truthy(e.uri) && Truthy(e.title)
  }

  /** Whether the source `s` is what the entry `e` becomes. */
  predicate Matches(s: Source, e: SourceEntry)
  {
    e.uri == Some(s.uri) && e.title == Some(s.title)
  }

  /** The filter step: the kept entries, in order, as sources. */
  function KeepTruthy(es: seq<SourceEntry>): (r: seq<Source>)
    ensures forall k | 0 <= k < |r| :: r[k].uri != "" && r[k].title != ""
    ensures |r| <= |es|
  {
    if es == [] then []
    else if Kept(es[0]) then [Source(es[0].uri.value, es[0].title.value)] + KeepTruthy(es[1..])
    else KeepTruthy(es[1..])
  }

  /** The sources a web answer carries: the grounding chunks mapped to
      `{uri, title}` and filtered to those with a non-empty uri and title;
      no grounding chunks at all gives the empty list (the `|| []`). */
  function Sources(response: GenerateContentResponse): (r: seq<Source>)
    ensures forall k | 0 <= k < |r| :: r[k].uri != "" && r[k].title != ""
    ensures GroundingChunks(response).None? ==> r == []
  {
    match GroundingChunks(response)
    case Some(chunks) => KeepTruthy(ToEntries(chunks))
    case None => []
  }

  /** `getWebResponse`, given the response the SDK resolved with: the
      response's text as it is, with the filtered sources, so everything
      `SourcesFromChunks` says about those holds of the answer: every
      chunk with a non-empty uri and title is carried, in order. */
  function GetWebResponse(response: GenerateContentResponse): (r: WebResponse)
    ensures r.text == response.text
    ensures r.sources == Sources(response)
    ensures forall k | 0 <= k < |r.sources| :: r.sources[k].uri != "" && r.sources[k].title != ""
    ensures GroundingChunks(response).None? ==> r.sources == []
    ensures GroundingChunks(response).Some? ==> Embeds(r.sources, ToEntries(GroundingChunks(response).value))
    ensures GroundingChunks(response).Some? ==>
      forall k | 0 <= k < |GroundingChunks(response).value| && Kept(ToEntry(GroundingChunks(response).value[k])) ::
        Source(ToEntry(GroundingChunks(response).value[k]).uri.value, ToEntry(GroundingChunks(response).value[k]).title.value)
          in r.sources
  {
    match GroundingChunks(response)
    case Some(chunks) =>
      SourcesFromChunks(response);
      WebResponse(response.text, Sources(response))
    case None => WebResponse(response.text, [])
  }

  /** `r` is an order-preserving selection of entries of `es`: each source
      matches a distinct entry, and later sources match later entries. */
  predicate Embeds(r: seq<Source>, es: seq<SourceEntry>)
    decreases |es|
  {
    if r == [] then true
    else if es == [] then false
    else (Matches(r[0], es[0]) && Embeds(r[1..], es[1..])) || Embeds(r, es[1..])
  }

  /** The filter neither reorders nor duplicates: its result embeds in its
      input in order. */
  lemma {:induction false} KeepTruthyEmbeds(es: seq<SourceEntry>)
    ensures Embeds(KeepTruthy(es), es)
  {
    if es != [] {
      KeepTruthyEmbeds(es[1..]);
      var r := KeepTruthy(es);
      if Kept(es[0]) {
        assert r[1..] == KeepTruthy(es[1..]);
      }
    }
  }

  /** The filter drops nothing it should keep: every entry with a
      non-empty uri and title is in the result. */
  lemma {:induction false} KeepTruthyComplete(es: seq<SourceEntry>, k: nat)
    requires k < |es| && Kept(es[k])
    ensures Source(es[k].uri.value, es[k].title.value) in KeepTruthy(es)
  {
    if k > 0 {
      KeepTruthyComplete(es[1..], k - 1);
    }
  }

  /** The filter works entry by entry: filtering two lists one after the
      other gives the same sources as filtering them joined. */
  lemma {:induction false} KeepTruthyAppend(es: seq<SourceEntry>, fs: seq<SourceEntry>)
    ensures KeepTruthy(es + fs) == KeepTruthy(es) + KeepTruthy(fs)
  {
    if es == [] {
      assert es + fs == fs;
    } else {
      assert (es + fs)[0] == es[0];
      assert (es + fs)[1..] == es[1..] + fs;
      KeepTruthyAppend(es[1..], fs);
    }
  }

  /** The sources one entry adds: its own `{uri, title}` once when it is
      kept, nothing otherwise. */
  function Contribution(e: SourceEntry): seq<Source>
  {
    if Kept(e) then [Source(e.uri.value, e.title.value)] else []
  }

  /** Extending the entries by entry `k` extends the result by exactly that
      entry's contribution, so every kept entry, duplicates included, gives
      one source, in its place. */
  lemma KeepTruthyPrefix(es: seq<SourceEntry>, k: nat)
    requires k < |es|
    ensures KeepTruthy(es[..k + 1]) == KeepTruthy(es[..k]) + Contribution(es[k])
  {
    assert es[..k + 1] == es[..k] + [es[k]];
    KeepTruthyAppend(es[..k], [es[k]]);
    assert [es[k]][1..] == [];
  }

  /** Every source a web answer carries is one of the grounding chunks, in
      the service's order; every chunk with a non-empty uri and title is
      carried; and going through the chunks one at a time, each adds
      exactly its own contribution, so identical chunks are all kept. */
  lemma SourcesFromChunks(response: GenerateContentResponse)
    requires GroundingChunks(response).Some?
    ensures Embeds(Sources(response), ToEntries(GroundingChunks(response).value))
    ensures forall k | 0 <= k < |GroundingChunks(response).value| && Kept(ToEntry(GroundingChunks(response).value[k])) ::
      Source(ToEntry(GroundingChunks(response).value[k]).uri.value, ToEntry(GroundingChunks(response).value[k]).title.value)
        in Sources(response)
    ensures Sources(response) == KeepTruthy(ToEntries(GroundingChunks(response).value))
    ensures forall k | 0 <= k < |GroundingChunks(response).value| ::
      KeepTruthy(ToEntries(GroundingChunks(response).value)[..k + 1])
        == KeepTruthy(ToEntries(GroundingChunks(response).value)[..k]) + Contribution(ToEntry(GroundingChunks(response).value[k]))
  {
    var es := ToEntries(GroundingChunks(response).value);
    KeepTruthyEmbeds(es);
    forall k | 0 <= k < |es| && Kept(es[k])
      ensures Source(es[k].uri.value, es[k].title.value) in KeepTruthy(es)
    {
      KeepTruthyComplete(es, k);
    }
    forall k | 0 <= k < |es|
      ensures KeepTruthy(es[..k + 1]) == KeepTruthy(es[..k]) + Contribution(es[k])
    {
      KeepTruthyPrefix(es, k);
    }
  }

  /** Two identical well-formed chunks give two identical sources. */
  lemma DuplicateChunksKept()
    ensures KeepTruthy([SourceEntry(Some("u"), Some("t")), SourceEntry(Some("u"), Some("t"))])
      == [Source("u", "t"), Source("u", "t")]
  {
  }

  /** Of `{a, ""}`, `{"", b}` and `{c, d}` only `{c, d}` survives. */
  lemma SourceFilterExample()
    ensures KeepTruthy([SourceEntry(Some("a"), Some("")), SourceEntry(Some(""), Some("b")),
                        SourceEntry(Some("c"), Some("d"))]) == [Source("c", "d")]
  {
  }

  // ---------------------------------------------------------------------
  // Image editing (editImage)
  // ---------------------------------------------------------------------

  /** Part `i` is the first part that carries inline data. */
  predicate FirstWithInlineData(parts: seq<Part>, i: int)
  {
    && 0 <= i < |parts|
    && parts[i].inlineData.Some?
    && forall j | 0 <= j < i :: parts[j].inlineData.None?
  }

  /** The data of the first part that carries inline data, if any. */
  function FirstInlineData(parts: seq<Part>): Option<string>
  {
    if parts == [] then None
    else if parts[0].inlineData.Some? then parts[0].inlineData.value.data
    else FirstInlineData(parts[1..])
  }

  /** `FirstInlineData` picks the first part with inline data and ignores
      every later part; with no such part it is absent. */
  lemma {:induction false} FirstInlineDataIsFirst(parts: seq<Part>)
    ensures forall i | FirstWithInlineData(parts, i) :: FirstInlineData(parts) == parts[i].inlineData.value.data
    ensures (forall i | 0 <= i < |parts| :: parts[i].inlineData.None?) ==> FirstInlineData(parts) == None
  {
    if parts != [] && parts[0].inlineData.None? {
      FirstInlineDataIsFirst(parts[1..]);
      forall i | FirstWithInlineData(parts, i)
        ensures FirstInlineData(parts) == parts[i].inlineData.value.data
      {
        assert FirstWithInlineData(parts[1..], i - 1);
      }
    }
  }

  /** What `editImage` resolves with, given the SDK's response: the data of
      the first part that has inline data (absent when that part's data is),
      or `null` when no part has any, including when there are no
      candidates, content or parts. */
  method EditImage(response: GenerateContentResponse) returns (result: Option<string>)
    ensures result == FirstInlineData(ResponseParts(response))
  {
    var parts := ResponseParts(response);
    var i := 0;
    while i < |parts|
      invariant 0 <= i <= |parts|
      invariant FirstInlineData(parts[i..]) == FirstInlineData(parts)
    {
      if parts[i].inlineData.Some? {
        return parts[i].inlineData.value.data;
      }
      assert parts[i..][1..] == parts[i + 1..];
      i := i + 1;
    }
    return None;
  }

  // ---------------------------------------------------------------------
  // The chat session (getChatSession, getChatResponseStream)
  // ---------------------------------------------------------------------

  /** One call to `sendMessageStream`: the history the session held when
      it was made, and the message. */
  datatype SentMessage = SentMessage(history: seq<ChatMessage>, message: string)

  /** The SDK's conversational session object. */
  class ChatSession {
    /** The prior turns the session sends with the next message. */
    var history: seq<ChatMessage>
    /** The calls made to `sendMessageStream`, in order. */
    ghost var sent: seq<SentMessage>

    constructor ()
      ensures history == [] && sent == []
    {
      history := [];
      sent := [];
    }
  }

  /** The module-level state of the gateway: the `chat` variable. */
  class Gateway {
    var chat: ChatSession?

    /** At module load no session exists yet. */
    constructor ()
      ensures chat == null
    {
      chat := null;
    }

    /** `getChatSession`: creates a session only while `chat` is null and
        hands back the stored one from then on. */
    method GetChatSession() returns (session: ChatSession)
      modifies this
      ensures old(chat) == null ==> fresh(session) && session.history == [] && session.sent == []
      ensures old(chat) != null ==> session == old(chat)
      ensures chat == session
    {
      if chat == null {
        chat := new ChatSession();
      }
      session := chat;
    }

    /** `getChatResponseStream`: overwrites the session's history with the
        given one, then sends the new message. The stream it returns comes
        from the SDK and is not part of this model. */
    method GetChatResponseStream(history: seq<ChatMessage>, newMessage: string)
      modifies this, chat
      ensures chat != null && chat.history == history
      ensures chat.sent == (if old(chat) == null then [] else old(chat.sent)) + [SentMessage(history, newMessage)]
      ensures old(chat) == null ==> fresh(chat)
      ensures old(chat) != null ==> chat == old(chat)
    {
      var session := GetChatSession();
      session.history := history;
      session.sent := session.sent + [SentMessage(history, newMessage)];
    }
  }
}
