/** The question page: the form action that validates a question and lists the
    related notes, and the browser-side reducer that assembles the streamed
    answer from "chat" messages. */
module NotesQna {
  import opened Wrappers
  import opened JsValues
  import opened ChatServer
  import opened ApiSse

  // ---------------------------------------------------------------------------
  // The form action
  // ---------------------------------------------------------------------------

  /** A form field as `formData.get` returns it when present. */
  datatype FormEntry = TextEntry(text: string) | FileEntry(name: string)

  datatype FieldErrors = FieldErrors(question: string, title: Option<string>)

  /** `{id: note.metadata.id, title: note.metadata.title}`; `None` is `undefined`. */
  datatype RelatedNote = RelatedNote(id: Option<Json>, title: Option<Json>)

  /** The JSON body and status the action answers with; `None` is `null`. */
  datatype ActionData = ActionData(status: nat, question: Option<string>,
                                   related: Option<seq<RelatedNote>>, errors: Option<FieldErrors>)

  const QuestionRequired: string := "Question is required"

  /** The question the action goes on with, or `None` when it rejects the form. */
  function AcceptedQuestion(entry: Option<FormEntry>): (q: Option<string>)
    ensures q.Some? <==> entry.Some? && entry.value.TextEntry? && |entry.value.text| > 0
    ensures q.Some? ==> q.value == entry.value.text
  {
    match entry
    case Some(TextEntry(text)) => if |text| == 0 then None else Some(text)
    case _ => None
  }

  /** The 400 answer to a missing, non-text or empty question. */
  function Rejected(): (r: ActionData)
    ensures r.status == 400 && r.question.None? && r.related.None?
    ensures r.errors == Some(FieldErrors("Question is required", None))
  {
    ActionData(400, None, None, Some(FieldErrors(QuestionRequired, None)))
  }

  /** `related.map(note => ({id: note.metadata.id, title: note.metadata.title}))`. */
  function RelatedNotes(sources: seq<Document>): (r: seq<RelatedNote>)
    ensures |r| == |sources|
    ensures forall i :: 0 <= i < |sources| ==>
              r[i].id == Field(sources[i].metadata, "id") && r[i].title == Field(sources[i].metadata, "title")
  {
    if sources == [] then []
    else [RelatedNote(Field(sources[0].metadata, "id"), Field(sources[0].metadata, "title"))]
         + RelatedNotes(sources[1..])
  }

  /** The answer to an accepted question, given the sources the search returned. */
  function Answered(question: string, sources: seq<Document>): (r: ActionData)
    ensures r.status == 200 && r.question == Some(question) && r.errors.None?
    ensures r.related == Some(RelatedNotes(sources))
  {
    ActionData(200, Some(question), Some(RelatedNotes(sources)), None)
  }

  /** The related notes of an answer are the searched notes' own ids and titles,
      one for one and in ranking order, and all of them belong to the asker. */
  lemma RelatedNotesOfSearch(store: seq<Document>, question: string, userId: string,
                             similarity: (string, string) -> real)
    requires AllNoteMetadata(store)
    ensures var hits := SimilaritySearch(store, question, 5, userId, similarity);
      var related := RelatedNotes(hits);
      && |related| == |hits| <= 5
      && forall i :: 0 <= i < |hits| ==>
           && IsNoteMetadata(hits[i].metadata)
           && related[i].id == Some(hits[i].metadata["id"])
           && related[i].title == Some(hits[i].metadata["title"])
           && related[i].id.value.JString?
           && IsOwnedBy(hits[i].metadata, userId)
  {
    var hits := SimilaritySearch(store, question, 5, userId, similarity);
    assert forall i :: 0 <= i < |hits| ==> hits[i] in hits;
  }

  /** The route's `action`: validate, ask, answer. `trace` stands for the
      generation callbacks that `askQuestion` sets going, and `embeddingFails`
      for its search rejecting; the action then rejects too (`None`). */
  method Action(store: VectorStore, bus: ChatBus, entry: Option<FormEntry>, userId: string,
                similarity: (string, string) -> real, trace: seq<LlmCallback>, embeddingFails: bool)
    returns (data: Option<ActionData>)
    requires store.Valid()
    modifies bus
    ensures AcceptedQuestion(entry).None? ==> data == Some(Rejected()) && bus.published == old(bus.published)
    ensures AcceptedQuestion(entry).Some? && embeddingFails ==> data.None? && bus.published == old(bus.published)
    ensures AcceptedQuestion(entry).Some? && !embeddingFails ==>
              && data == Some(Answered(entry.value.text,
                                       SimilaritySearch(store.memoryVectors, entry.value.text, 5, userId, similarity)))
              && bus.published == old(bus.published) + Events(trace, userId)
              && |data.value.related.value| <= 5
              && forall r :: r in data.value.related.value ==> r.id.Some? && r.id.value.JString?
  {
    var question := AcceptedQuestion(entry);
    if question.None? {
      return Some(Rejected());
    }
    var sources := AskQuestion(store, bus, question.value, userId, similarity, trace, embeddingFails);
    if sources.None? {
      return None;
    }
    RelatedNotesOfSearch(store.memoryVectors, question.value, userId, similarity);
    var related := RelatedNotes(sources.value);
    assert forall r :: r in related ==> r.id.Some? && r.id.value.JString? by {
      forall r | r in related
        ensures r.id.Some? && r.id.value.JString?
      {
        var i :| 0 <= i < |related| && related[i] == r;
      }
    }
    data := Some(Answered(question.value, sources.value));
  }

  // ---------------------------------------------------------------------------
  // The type guard
  // ---------------------------------------------------------------------------

  /** `isChatSseResponse`: a non-null object whose `type` is the string "start",
      "end" or "token". */
  predicate IsChatSseResponse(resp: Json)
    ensures IsChatSseResponse(resp) ==>
              resp.JObject? && "type" in resp.fields
              && resp.fields["type"] in [JString("start"), JString("end"), JString("token")]
  {
    var ty := Prop(resp, "type");
    resp != JNull && resp.JObject? && ty.Some? && ty.value.JString?
    && ty.value.str in ["start", "end", "token"]
  }

  /** Of the four published kinds, the guard admits all but error events. */
  lemma GuardAdmitsAllButErrors(e: ChatResponse)
    ensures IsChatSseResponse(EventToJson(e)) <==> !e.Error?
  {
    var ty := Prop(EventToJson(e), "type");
    match e
    case Token(_, _) => assert ty == Some(JString("token"));
    case Start(_) => assert ty == Some(JString("start"));
    case End(_) => assert ty == Some(JString("end"));
    case Error(_, _) =>
      assert ty == Some(JString("error"));
      assert "error" !in ["start", "end", "token"];
  }

  // ---------------------------------------------------------------------------
  // The answer reducer
  // ---------------------------------------------------------------------------

  /** The `bot` state of the page. */
  datatype BotState = BotState(isResponding: bool, response: string)

  /** A parsed value the guard admits as a "start" event. */
  predicate IsStart(json: Json)
  {
    IsChatSseResponse(json) && json.fields["type"] == JString("start")
  }

  /** `updateResponses` on the outcome of `JSON.parse(message.data)`; `None` is a
      parse failure, which the handler catches. */
  function Step(s: BotState, parsed: Option<Json>): (r: BotState)
    // a start begins a fresh answer; anything else keeps the answer's text and may only extend it
    ensures parsed.Some? && IsStart(parsed.value) ==> r == BotState(true, "")
    ensures !(parsed.Some? && IsStart(parsed.value)) ==> s.response <= r.response
    ensures r.isResponding != s.isResponding ==> r == BotState(true, "") || r == BotState(false, s.response)
  {
    match parsed
    case None => s
    case Some(json) =>
      if !IsChatSseResponse(json) then s
      else
        var ty := json.fields["type"].str;
        if ty == "start" then BotState(true, "")
        else if ty == "token" then BotState(s.isResponding, s.response + OptionalToJsString(Prop(json, "text")))
        else BotState(false, s.response)
  }

  /** Messages that do not parse, and parsed values the guard refuses, change nothing. */
  lemma RefusedMessagesChangeNothing(s: BotState, json: Json)
    ensures Step(s, None) == s
    ensures !IsChatSseResponse(json) ==> Step(s, Some(json)) == s
  {
  }

  /** A message the "chat" listener handles as the start of an answer. */
  predicate StartsAnswer(m: SseMessage)
  {
    m.event == "chat" && IsStart(m.data)
  }

  /** The listener registered for "chat": other event names never reach it. */
  function Deliver(s: BotState, m: SseMessage): (r: BotState)
    ensures m.event != "chat" ==> r == s
    ensures StartsAnswer(m) ==> r == BotState(true, "")
    ensures !StartsAnswer(m) ==> s.response <= r.response
  {
    if m.event == "chat" then Step(s, Some(m.data)) else s
  }

  /** What each published event does to the state when it arrives: start
      clears the answer and marks it in progress, a token appends its text, end
      marks it finished, and an error is ignored. */
  lemma ChatEventEffects(s: BotState, e: ChatResponse)
    ensures e.Start? ==> Deliver(s, ChatMessage(e)) == BotState(true, "")
    ensures e.Token? ==> Deliver(s, ChatMessage(e)) == BotState(s.isResponding, s.response + e.text)
    ensures e.End? ==> Deliver(s, ChatMessage(e)) == BotState(false, s.response)
    ensures e.Error? ==> Deliver(s, ChatMessage(e)) == s
  {
    GuardAdmitsAllButErrors(e);
    var j := EventToJson(e);
    if e.Token? {
      assert Prop(j, "text") == Some(JString(e.text));
    }
  }

  /** The state after the listener has seen `msgs`, oldest first. */
  function Replay(s: BotState, msgs: seq<SseMessage>): (r: BotState)
    // messages under other event names leave the page as it was
    ensures (forall i :: 0 <= i < |msgs| ==> msgs[i].event != "chat") ==> r == s
    // without a start message the answer keeps its text and only grows
    ensures (forall i :: 0 <= i < |msgs| ==> !StartsAnswer(msgs[i])) ==> s.response <= r.response
  {
    if msgs == [] then s else Deliver(Replay(s, msgs[..|msgs| - 1]), msgs[|msgs| - 1])
  }

  lemma {:induction false} ReplayAppend(s: BotState, a: seq<SseMessage>, b: seq<SseMessage>)
    ensures Replay(s, a + b) == Replay(Replay(s, a), b)
  {
    if b == [] {
      assert a + b == a;
    } else {
      var n := |b| - 1;
      calc {
        Replay(s, a + b);
        { assert (a + b)[..|a + b| - 1] == a + b[..n]; }
        Deliver(Replay(s, a + b[..n]), b[n]);
        { ReplayAppend(s, a, b[..n]); }
        Deliver(Replay(Replay(s, a), b[..n]), b[n]);
      }
    }
  }

  /** The texts joined together. */
  function Concat(texts: seq<string>): string
  {
    if texts == [] then "" else Concat(texts[..|texts| - 1]) + texts[|texts| - 1]
  }

  /** The messages of a run of token events. */
  function TokenMessages(texts: seq<string>, userId: string): (ms: seq<SseMessage>)
    ensures |ms| == |texts|
    ensures forall i :: 0 <= i < |texts| ==> ms[i] == ChatMessage(Token(texts[i], userId))
  {
    seq(|texts|, i requires 0 <= i < |texts| => ChatMessage(Token(texts[i], userId)))
  }

  /** Tokens append their texts in arrival order and leave the flag alone. */
  lemma {:induction false} ReplayTokens(s: BotState, texts: seq<string>, userId: string)
    ensures Replay(s, TokenMessages(texts, userId)) == BotState(s.isResponding, s.response + Concat(texts))
  {
    var ms := TokenMessages(texts, userId);
    if texts != [] {
      var n := |texts| - 1;
      assert ms[..n] == TokenMessages(texts[..n], userId);
      ReplayTokens(s, texts[..n], userId);
      var before := Replay(s, ms[..n]);
      assert before == BotState(s.isResponding, s.response + Concat(texts[..n]));
      assert Replay(s, ms) == Deliver(before, ms[n]);
      ChatEventEffects(before, Token(texts[n], userId));
      assert Concat(texts) == Concat(texts[..n]) + texts[n];
    } else {
      assert ms == [];
    }
  }

  /** From any state, start, tokens t1..tn and end leave the answer t1+...+tn,
      no longer in progress. */
  lemma StartTokensEnd(s: BotState, texts: seq<string>, userId: string)
    ensures Replay(s, [ChatMessage(Start(userId))] + TokenMessages(texts, userId) + [ChatMessage(End(userId))])
            == BotState(false, Concat(texts))
  {
    var start := [ChatMessage(Start(userId))];
    var tokens := TokenMessages(texts, userId);
    ReplayAppend(s, start + tokens, [ChatMessage(End(userId))]);
    ReplayAppend(s, start, tokens);
    assert Replay(s, start) == Deliver(Replay(s, []), ChatMessage(Start(userId)));
    ChatEventEffects(s, Start(userId));
    ReplayTokens(BotState(true, ""), texts, userId);
    var before := Replay(s, start + tokens);
    assert Replay(before, [ChatMessage(End(userId))]) == Deliver(Replay(before, []), ChatMessage(End(userId)));
    ChatEventEffects(before, End(userId));
  }

  /** The page's `bot` state, updated in place by `setBot`. */
  class Bot {
    var isResponding: bool
    var response: string

    /** `useState({isResponding: false, response: ""})`. */
    constructor()
      ensures isResponding == false && response == ""
    {
      isResponding := false;
      response := "";
    }

    function State(): BotState
      reads this
    {
      BotState(isResponding, response)
    }

    /** `updateResponses` for one message whose data parsed as `parsed`. */
    method UpdateResponses(parsed: Option<Json>)
      modifies this
      ensures State() == Step(old(State()), parsed)
    {
      if parsed.None? || !IsChatSseResponse(parsed.value) {
        return;
      }
      var json := parsed.value;
      var ty := json.fields["type"].str;
      if ty == "start" {
        response, isResponding := "", true;
      } else if ty == "token" {
        response := response + OptionalToJsString(Prop(json, "text"));
      } else if ty == "end" {
        isResponding := false;
      }
    }

    /** The event source delivering `msgs`, one after another, to the "chat" listener. */
    method Listen(msgs: seq<SseMessage>)
      modifies this
      ensures State() == Replay(old(State()), msgs)
    {
      var i := 0;
      while i < |msgs|
        invariant 0 <= i <= |msgs|
        invariant State() == Replay(old(State()), msgs[..i])
      {
        if msgs[i].event == "chat" {
          UpdateResponses(Some(msgs[i].data));
        }
        assert msgs[..i + 1][..i] == msgs[..i];
        i := i + 1;
      }
      assert msgs[..i] == msgs;
    }
  }
}
