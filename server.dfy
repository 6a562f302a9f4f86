/** The WebSocket relay: the handler run for every message on a connection.
    It keeps nothing between messages, so it is a function of the message
    and of how the completion endpoint answers. */
module Server {
  import opened Js
  import opened Completions
  import Chat

  const PingType := "ping-socket"
  const PongType := "pong-socket"
  const AskType := "ask-doubt"
  const ResponseType := "receive-response"
  const AliveMessage := "Connection Alive!"

  /** An outgoing frame `{ type, payload: { message } }`, before
      `JSON.stringify`. */
  function Frame(frameType: string, message: Value): Value {
    Obj(map["type" := Str(frameType), "payload" := Obj(map["message" := message])])
  }

  /** The frames sent in reply to one incoming message. `parsed` is what
      `JSON.parse` made of the raw data (a failure when it threw). Every
      exception is caught and logged, so a failing step just sends nothing:
      unparseable data, a `null` message, an `ask-doubt` without a payload,
      or a `null` context. */
  function HandleMessage(parsed: Result<Value>, endpoint: ChatRequest -> Completion): (frames: seq<Value>)
    ensures |frames| <= 1
    ensures frames != [] ==> parsed.Ok? && !Nullish(parsed.value)
  {
    match parsed
    case Fail(_) => []
    case Ok(data) =>
      if Nullish(data) then []
      else
        var frameType, payload := Member(data, "type"), Member(data, "payload");
        var pong := if frameType == Str(PingType) then [Frame(PongType, Str(AliveMessage))] else [];
        var answer :=
          if frameType != Str(AskType) then []
          else match Get(payload, "message")
            case Fail(_) => []
            case Ok(message) =>
              match Chat.GetChatResponse(message, Member(payload, "context"), endpoint)
              case Fail(_) => []
              case Ok(aiResponse) => [Frame(ResponseType, aiResponse)];
        pong + answer
  }

  /** A frame whose type is `ping-socket` gets exactly one pong, whatever
      its payload and whatever the endpoint would do. */
  lemma PingGetsPong(data: Value, endpoint: ChatRequest -> Completion)
    requires data.Obj? && Member(data, "type") == Str(PingType)
    ensures HandleMessage(Ok(data), endpoint) == [Frame(PongType, Str(AliveMessage))]
  {
  }

  /** An `ask-doubt` frame with a payload and a non-null context gets exactly
      one `receive-response` frame carrying the chat answer, which is the
      apology when the endpoint fails. */
  lemma AskGetsAnswer(data: Value, endpoint: ChatRequest -> Completion)
    requires data.Obj? && Member(data, "type") == Str(AskType)
    requires !Nullish(Member(data, "payload"))
    requires !Member(Member(data, "payload"), "context").Null?
    ensures var payload := Member(data, "payload");
      var answer := Chat.GetChatResponse(Member(payload, "message"), Member(payload, "context"), endpoint);
      answer.Ok? && HandleMessage(Ok(data), endpoint) == [Frame(ResponseType, answer.value)]
  {
  }

  /** An `ask-doubt` whose payload is missing or null, or whose context is
      null, throws inside the handler: nothing is sent. */
  lemma AskWithoutPayloadSilent(data: Value, endpoint: ChatRequest -> Completion)
    requires data.Obj? && Member(data, "type") == Str(AskType)
    requires Nullish(Member(data, "payload")) || Member(Member(data, "payload"), "context").Null?
    ensures HandleMessage(Ok(data), endpoint) == []
  {
  }

  /** Frames of any other type are ignored. */
  lemma OtherTypesSilent(data: Value, endpoint: ChatRequest -> Completion)
    requires Member(data, "type") != Str(PingType) && Member(data, "type") != Str(AskType)
    ensures HandleMessage(Ok(data), endpoint) == []
  {
  }

  /** Data `JSON.parse` rejects is ignored. */
  lemma UnparseableSilent(error: string, endpoint: ChatRequest -> Completion)
    ensures HandleMessage(Fail(error), endpoint) == []
  {
  }

  /** Only the reply to the chat request can influence the output: for any
      frame other than an `ask-doubt`, the endpoint does not matter. */
  lemma EndpointOnlyForDoubts(parsed: Result<Value>, e1: ChatRequest -> Completion, e2: ChatRequest -> Completion)
    requires parsed.Ok? ==> Member(parsed.value, "type") != Str(AskType)
    ensures HandleMessage(parsed, e1) == HandleMessage(parsed, e2)
  {
  }
}
