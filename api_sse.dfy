/** The server-sent-events route: each signed-in subscriber receives, as "chat"
    messages, exactly the chat events published for its own user id. */
module ApiSse {
  import opened Wrappers
  import opened JsValues
  import opened ChatServer

  /** One message `send` pushes down the stream. The data is the JSON value
      of the event: serialising and parsing it back is taken as lossless. */
  datatype SseMessage = SseMessage(event: string, data: Json)

  /** The JSON object an event serialises to: its `type` tag and its fields. */
  function EventToJson(e: ChatResponse): (j: Json)
    ensures j.JObject? && "type" in j.fields && j.fields["type"].JString?
    ensures "userId" in j.fields && j.fields["userId"] == JString(e.userId)
  {
    match e
    case Token(text, userId) =>
      JObject(map["type" := JString("token"), "text" := JString(text), "userId" := JString(userId)])
    case Start(userId) =>
      JObject(map["type" := JString("start"), "userId" := JString(userId)])
    case End(userId) =>
      JObject(map["type" := JString("end"), "userId" := JString(userId)])
    case Error(error, userId) =>
      JObject(map["type" := JString("error"), "error" := JString(error), "userId" := JString(userId)])
  }

  /** Reads a JSON value back as a `ChatResponse` of the declared shapes. */
  function DecodeEvent(j: Json): Option<ChatResponse>
  {
    var ty := Prop(j, "type");
    var owner := Prop(j, "userId");
    if ty.None? || !ty.value.JString? || owner.None? || !owner.value.JString? then None
    else
      var userId := owner.value.str;
      if ty.value.str == "start" then Some(Start(userId))
      else if ty.value.str == "end" then Some(End(userId))
      else if ty.value.str == "token" then
        var text := Prop(j, "text");
        if text.Some? && text.value.JString? then Some(Token(text.value.str, userId)) else None
      else if ty.value.str == "error" then
        var error := Prop(j, "error");
        if error.Some? && error.value.JString? then Some(Error(error.value.str, userId)) else None
      else None
  }

  /** Serialising an event loses nothing: the JSON reads back as the event. */
  lemma DecodeEncode(e: ChatResponse)
    ensures DecodeEvent(EventToJson(e)) == Some(e)
  {
    var j := EventToJson(e);
    assert Prop(j, "userId") == Some(JString(e.userId));
    match e
    case Token(text, _) =>
      assert Prop(j, "type") == Some(JString("token"));
      assert Prop(j, "text") == Some(JString(text));
    case Start(_) =>
      assert Prop(j, "type") == Some(JString("start"));
    case End(_) =>
      assert Prop(j, "type") == Some(JString("end"));
    case Error(error, _) =>
      assert Prop(j, "type") == Some(JString("error"));
      assert Prop(j, "error") == Some(JString(error));
  }

  /** Distinct events never serialise alike. */
  lemma EventToJsonInjective(a: ChatResponse, b: ChatResponse)
    ensures EventToJson(a) == EventToJson(b) ==> a == b
  {
    DecodeEncode(a);
    DecodeEncode(b);
  }

  /** The `map` step: `{event: "chat", data: JSON.stringify(evt)}`. */
  function ChatMessage(e: ChatResponse): (m: SseMessage)
    ensures m.event == "chat" && DecodeEvent(m.data) == Some(e)
  {
    DecodeEncode(e);
    SseMessage("chat", EventToJson(e))
  }

  /** The events that the `filter` step lets through for `userId`, in order. */
  function OwnEvents(events: seq<ChatResponse>, userId: string): (r: seq<ChatResponse>)
    ensures forall e :: e in r <==> e in events && e.userId == userId
  {
    if events == [] then []
    else if events[0].userId == userId then [events[0]] + OwnEvents(events[1..], userId)
    else OwnEvents(events[1..], userId)
  }

  /** The subscription pipeline `filter(evt.userId === userId)`, `map`, `tap(send)`,
      applied to the events pushed onto the subject while it is subscribed:
      the messages sent, in sending order. */
  function Forward(events: seq<ChatResponse>, userId: string): (sent: seq<SseMessage>)
    ensures |sent| <= |events|
    // soundness: every message comes from an event of this user
    ensures forall m :: m in sent ==>
              m.event == "chat" && exists e :: e in events && e.userId == userId && m.data == EventToJson(e)
    // completeness: every event of this user is sent
    ensures forall e :: e in events && e.userId == userId ==> ChatMessage(e) in sent
  {
    if events == [] then []
    else if events[0].userId == userId then [ChatMessage(events[0])] + Forward(events[1..], userId)
    else Forward(events[1..], userId)
  }

  /** The pipeline sends one message per own event, in the events' order. */
  lemma {:induction false} ForwardIsFilterThenMap(events: seq<ChatResponse>, userId: string)
    ensures |Forward(events, userId)| == |OwnEvents(events, userId)|
    ensures forall i :: 0 <= i < |Forward(events, userId)| ==>
              Forward(events, userId)[i] == ChatMessage(OwnEvents(events, userId)[i])
  {
    if events != [] {
      ForwardIsFilterThenMap(events[1..], userId);
      if events[0].userId == userId {
        var sent, own := Forward(events, userId), OwnEvents(events, userId);
        forall i | 0 < i < |sent|
          ensures sent[i] == ChatMessage(own[i])
        {
          assert sent[i] == Forward(events[1..], userId)[i - 1];
          assert own[i] == OwnEvents(events[1..], userId)[i - 1];
        }
      }
    }
  }

  /** Events published later are sent later: the stream of one subscription
      splits along the event history. */
  lemma {:induction false} ForwardDistributes(a: seq<ChatResponse>, b: seq<ChatResponse>, userId: string)
    ensures Forward(a + b, userId) == Forward(a, userId) + Forward(b, userId)
  {
    if a == [] {
      assert a + b == b;
    } else {
      assert (a + b)[1..] == a[1..] + b;
      ForwardDistributes(a[1..], b, userId);
    }
  }

  /** Another user's event sends nothing, wherever it falls in the history. */
  lemma OtherUsersEventsSendNothing(a: seq<ChatResponse>, e: ChatResponse, b: seq<ChatResponse>, userId: string)
    requires e.userId != userId
    ensures Forward(a + [e] + b, userId) == Forward(a + b, userId)
  {
    ForwardDistributes(a + [e], b, userId);
    ForwardDistributes(a, [e], userId);
    ForwardDistributes(a, b, userId);
  }

  /** Every message a subscriber receives reads back as an event of its own. */
  lemma ReceivedEventsAreOwn(events: seq<ChatResponse>, userId: string)
    ensures forall m :: m in Forward(events, userId) ==>
              DecodeEvent(m.data).Some?
              && DecodeEvent(m.data).value in events
              && DecodeEvent(m.data).value.userId == userId
  {
    forall m | m in Forward(events, userId)
      ensures DecodeEvent(m.data).Some? && DecodeEvent(m.data).value in events
      ensures DecodeEvent(m.data).value.userId == userId
    {
      var e :| e in events && e.userId == userId && m.data == EventToJson(e);
      DecodeEncode(e);
    }
  }

  /** Two different users never receive the same message from one history. */
  lemma TwoUsersIsolated(events: seq<ChatResponse>, alice: string, bob: string)
    requires alice != bob
    ensures forall m :: m in Forward(events, alice) ==> m !in Forward(events, bob)
  {
    ReceivedEventsAreOwn(events, alice);
    ReceivedEventsAreOwn(events, bob);
  }
}
