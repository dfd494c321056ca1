/** Properties of the whole path from the generation callbacks of one request,
    through the shared subject and one user's event stream, to the answer shown
    on that user's page. */
module Pipeline {
  import opened ChatServer
  import opened ApiSse
  import opened NotesQna

  /** A user's page depends only on that user's own events: any two histories
      with the same own events, whatever else other users published in between,
      leave the page in the same state. */
  lemma PageSeesOnlyOwnEvents(s: BotState, h1: seq<ChatResponse>, h2: seq<ChatResponse>, userId: string)
    requires OwnEvents(h1, userId) == OwnEvents(h2, userId)
    ensures Forward(h1, userId) == Forward(h2, userId)
    ensures Replay(s, Forward(h1, userId)) == Replay(s, Forward(h2, userId))
  {
    ForwardIsFilterThenMap(h1, userId);
    ForwardIsFilterThenMap(h2, userId);
  }

  /** The token callbacks that stream `texts`. */
  function TokenRun(texts: seq<string>): (trace: seq<LlmCallback>)
    ensures |trace| == |texts|
    ensures forall i :: 0 <= i < |texts| ==> trace[i] == LlmNewToken(texts[i])
  {
    seq(|texts|, i requires 0 <= i < |texts| => LlmNewToken(texts[i]))
  }

  /** The callbacks of a generation that starts, streams `texts` and ends. */
  function CompletedRun(texts: seq<string>): seq<LlmCallback>
  {
    [LlmStart] + TokenRun(texts) + [LlmEnd]
  }

  lemma EventsAppend(a: seq<LlmCallback>, b: seq<LlmCallback>, userId: string)
    ensures Events(a + b, userId) == Events(a, userId) + Events(b, userId)
  {
    assert forall i :: 0 <= i < |a + b| ==> Events(a + b, userId)[i] == (Events(a, userId) + Events(b, userId))[i];
  }

  /** The token callbacks of a request reach its user as token messages, in order. */
  lemma ForwardTokenRun(texts: seq<string>, userId: string)
    ensures Forward(Events(TokenRun(texts), userId), userId) == TokenMessages(texts, userId)
  {
    var es := Events(TokenRun(texts), userId);
    EventsCarryRequester(TokenRun(texts), userId);
    AllOwn(es, userId);
    ForwardIsFilterThenMap(es, userId);
  }

  /** The messages a completed generation for `userId` sends to that user. */
  lemma CompletedRunMessages(texts: seq<string>, userId: string)
    ensures Forward(Events(CompletedRun(texts), userId), userId)
            == [ChatMessage(Start(userId))] + TokenMessages(texts, userId) + [ChatMessage(End(userId))]
  {
    var tokens := TokenRun(texts);
    var es := Events(tokens, userId);
    EventsAppend([LlmStart] + tokens, [LlmEnd], userId);
    EventsAppend([LlmStart], tokens, userId);
    assert Events([LlmStart], userId) == [Start(userId)];
    assert Events([LlmEnd], userId) == [End(userId)];
    assert Events(CompletedRun(texts), userId) == [Start(userId)] + es + [End(userId)];
    ForwardDistributes([Start(userId)] + es, [End(userId)], userId);
    ForwardDistributes([Start(userId)], es, userId);
    OneOwnEvent(Start(userId));
    OneOwnEvent(End(userId));
    ForwardTokenRun(texts, userId);
  }

  lemma OneOwnEvent(e: ChatResponse)
    ensures Forward([e], e.userId) == [ChatMessage(e)]
  {
    assert [e][1..] == [];
  }

  /** A history made only of one user's events passes the filter whole. */
  lemma {:induction false} AllOwn(es: seq<ChatResponse>, userId: string)
    requires forall e :: e in es ==> e.userId == userId
    ensures OwnEvents(es, userId) == es
  {
    if es != [] {
      AllOwn(es[1..], userId);
    }
  }

  /** Whatever other users' requests publish around it, a completed generation
      for a user leaves that user's page showing the concatenated tokens, no
      longer in progress. */
  lemma AnswerArrivesWhole(s: BotState, history: seq<ChatResponse>, texts: seq<string>, userId: string)
    requires OwnEvents(history, userId) == Events(CompletedRun(texts), userId)
    ensures Replay(s, Forward(history, userId)) == BotState(false, Concat(texts))
  {
    var run := Events(CompletedRun(texts), userId);
    EventsCarryRequester(CompletedRun(texts), userId);
    AllOwn(run, userId);
    PageSeesOnlyOwnEvents(s, history, run, userId);
    CompletedRunMessages(texts, userId);
    StartTokensEnd(s, texts, userId);
  }

  /** A failed generation shows no error: the page keeps what the start and the
      tokens before the failure built, and stays in progress. */
  lemma FailedRunLeavesPageResponding(s: BotState, texts: seq<string>, e: Thrown, userId: string)
    ensures Replay(s, Forward(Events([LlmStart] + TokenRun(texts) + [LlmError(e)], userId), userId))
            == BotState(true, Concat(texts))
  {
    var tokens := TokenRun(texts);
    var es := Events(tokens, userId);
    var failure := Error(ErrorMessage(e), userId);
    EventsAppend([LlmStart] + tokens, [LlmError(e)], userId);
    EventsAppend([LlmStart], tokens, userId);
    assert Events([LlmStart], userId) == [Start(userId)];
    assert Events([LlmError(e)], userId) == [failure];
    ForwardDistributes([Start(userId)] + es, [failure], userId);
    ForwardDistributes([Start(userId)], es, userId);
    OneOwnEvent(Start(userId));
    OneOwnEvent(failure);
    ForwardTokenRun(texts, userId);
    var start := [ChatMessage(Start(userId))];
    var toks := TokenMessages(texts, userId);
    var err := [ChatMessage(Error(ErrorMessage(e), userId))];
    ReplayAppend(s, start + toks, err);
    ReplayAppend(s, start, toks);
    assert Replay(s, start) == Deliver(Replay(s, []), ChatMessage(Start(userId)));
    ChatEventEffects(s, Start(userId));
    ReplayTokens(BotState(true, ""), texts, userId);
    var before := Replay(s, start + toks);
    assert Replay(before, err) == Deliver(Replay(before, []), err[0]);
    ChatEventEffects(before, Error(ErrorMessage(e), userId));
  }

  /** No record passes the owner filter for a user who owns none. */
  lemma {:induction false} NobodyElsesRecords(records: seq<Document>, userId: string)
    requires forall d :: d in records ==> !IsOwnedBy(d.metadata, userId)
    ensures OwnedRecords(records, userId) == []
  {
    if records != [] {
      assert records[0] in records;
      NobodyElsesRecords(records[1..], userId);
    }
  }

  /** A user with no records in the index gets no sources, however the
      question ranks against other users' notes. */
  lemma StrangerGetsNoSources(records: seq<Document>, question: string, userId: string,
                              similarity: (string, string) -> real)
    requires forall d :: d in records ==> !IsOwnedBy(d.metadata, userId)
    ensures SimilaritySearch(records, question, 5, userId, similarity) == []
  {
    NobodyElsesRecords(records, userId);
  }
}
