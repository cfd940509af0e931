/**
 * The HTTP layer's own logic: reading the chat, shell and file request
 * bodies (a missing or falsy required field is a 400), and the event-stream
 * body of the chat endpoint, whose frames depend only on what
 * `process_chat_message` answered.
 */
module Routers {
  import opened Wrappers
  import opened Errors
  import opened Json
  import opened Text
  import opened ValueObjects
  import Sse
  import opened Infrastructure
  import opened Application

  /** The three values `chat_with_session` reads from the body before streaming. */
  datatype ChatRequest = ChatRequest(message: Json, timestamp: Json, eventId: Json)

  const MessageRequired := HttpException(400, "Message is required")

  /** `request.get(key, default)` on the decoded body. */
  function Field(request: seq<(string, Json)>, key: string, default: Json): Json {
    if Get(request, key).Some? then Get(request, key).value else default
  }

  /**
   * `chat_with_session` up to the stream: the message (default ""), the
   * timestamp (default the current epoch second, read before the check) and
   * the event id (default None); a falsy message is refused with 400.
   */
  function ParseChatRequest(request: seq<(string, Json)>, now: DateTime): (r: Result<ChatRequest, Exc>)
    ensures r.Err? ==> r.error == MessageRequired
    ensures r.Ok? ==> Get(request, "message") == Some(r.value.message) && Truthy(r.value.message)
    ensures r.Ok? && Get(request, "timestamp").None? ==> r.value.timestamp == JInt(now.epochSeconds)
    ensures r.Ok? && Get(request, "event_id").None? ==> r.value.eventId == JNull
  {
    var message := Field(request, "message", JString(""));
    var timestamp := Field(request, "timestamp", JInt(now.epochSeconds));
    var eventId := Field(request, "event_id", JNull);
    if !Truthy(message) then Err(MessageRequired)
    else Ok(ChatRequest(message, timestamp, eventId))
  }

  /** A body is refused exactly when its message is absent, or is null, false, 0, "", [] or {}. */
  lemma ChatRequestRefused(request: seq<(string, Json)>, now: DateTime)
    ensures ParseChatRequest(request, now).Err? <==>
              || Get(request, "message").None?
              || Get(request, "message").value in {JNull, JBool(false), JInt(0), JString(""), JArray([]), JObject([])}
  {
  }

  /** A non-blank text message passes the check, whatever else the body holds. */
  lemma ChatRequestAccepted(request: seq<(string, Json)>, now: DateTime, text: string)
    requires Get(request, "message") == Some(JString(text)) && text != []
    ensures ParseChatRequest(request, now).Ok?
    ensures ParseChatRequest(request, now).value.message == JString(text)
  {
  }

  /**
   * The events `generate_stream` yields for the outcome of
   * `process_chat_message` (an envelope, or the exception it raised).
   */
  function ChatPayloads(outcome: Result<Envelope, Exc>): (r: seq<(string, Json)>)
    ensures |r| == 1 || |r| == 2
    ensures |r| == 1 <==> r[0].0 == "error"
    ensures |r| == 2 ==> r[0].0 == "message" && r[1] == ("done", JObject([("completed", JBool(true))]))
    ensures outcome.Err? ==> r == [("error", JObject([("error", JString(Str(outcome.error)))]))]
    ensures outcome.Ok? && outcome.value.code != 0 ==> r == [("error", EnvelopeJson(outcome.value))]
  {
    if outcome.Err? then [("error", JObject([("error", JString(Str(outcome.error)))]))]
    else if outcome.value.code != 0 then [("error", EnvelopeJson(outcome.value))]
    else
      match Subscript(outcome.value.data, "response")
      case Ok(response) =>
        [("message", JObject([("content", response)])), ("done", JObject([("completed", JBool(true))]))]
      case Err(e) => [("error", JObject([("error", JString(Str(e)))]))]
  }

  /** The body of the chat response. */
  function ChatStream(outcome: Result<Envelope, Exc>): string {
    Sse.Stream(Frames(ChatPayloads(outcome)))
  }

  /** A client reading the body receives exactly the events `ChatPayloads` lists, in order. */
  lemma ChatStreamParses(outcome: Result<Envelope, Exc>)
    ensures Sse.Parse(ChatStream(outcome)) == Frames(ChatPayloads(outcome))
  {
    var ps := ChatPayloads(outcome);
    FramesWellFormed(ps);
    Sse.ParseStream(Frames(ps));
  }

  /** An envelope with a non-zero code is sent back whole, as the one error event. */
  lemma ChatStreamOfFailure(env: Envelope)
    requires env.code != 0
    ensures Sse.Parse(ChatStream(Ok(env))) == [Sse.Event("error", Dumps(EnvelopeJson(env)))]
  {
    ChatStreamParses(Ok(env));
  }

  /** A raised exception becomes one error event carrying its text. */
  lemma ChatStreamOfException(e: Exc)
    ensures Sse.Parse(ChatStream(Err(e))) == [Sse.Event("error", Dumps(JObject([("error", JString(Str(e)))])))]
  {
    ChatStreamParses(Err(e));
  }

  /**
   * The chat endpoint over `process_chat_message` on a found session: a text
   * the session accepts streams the reply as one message event, then the
   * done event; any other text streams one error event carrying the 500.
   */
  lemma ChatStreamOfChat(sid: ConversationId, text: string, userRandom: seq<nat>, replyRandom: seq<nat>, now: DateTime)
    requires IsNibbles(userRandom) && IsNibbles(replyRandom)
    ensures var answer := ChatOutcome(sid, text, userRandom, replyRandom, now).0;
            && (!IsBlank(text) && |text| <= MaxContentLength - 117 ==>
                  Sse.Parse(ChatStream(Ok(answer)))
                  == [Sse.Event("message", Dumps(JObject([("content", JString(AiResponse(text)))]))),
                      Sse.Event("done", Dumps(JObject([("completed", JBool(true))])))])
            && (IsBlank(text) || |text| > MaxContentLength - 117 ==>
                  Sse.Parse(ChatStream(Ok(answer))) == [Sse.Event("error", Dumps(EnvelopeJson(answer)))])
  {
    ChatOutcomeSpec(sid, text, userRandom, replyRandom, now);
    var answer := ChatOutcome(sid, text, userRandom, replyRandom, now).0;
    ChatStreamParses(Ok(answer));
    if answer.code == 0 {
      GetAt(answer.data.members, 0);
    }
  }

  /** `view_shell_session`'s check: the `shell_session_id` must be present and truthy. */
  function ShellRequest(request: seq<(string, Json)>): (r: Result<Json, Exc>)
    ensures r.Err? <==> !Truthy(Field(request, "shell_session_id", JString("")))
    ensures r.Err? ==> r.error == HttpException(400, "shell_session_id is required")
    ensures r.Ok? ==> Get(request, "shell_session_id") == Some(r.value)
  {
    var id := Field(request, "shell_session_id", JString(""));
    if !Truthy(id) then Err(HttpException(400, "shell_session_id is required")) else Ok(id)
  }

  /** `view_file_content`'s check: the `file` must be present and truthy. */
  function FileRequest(request: seq<(string, Json)>): (r: Result<Json, Exc>)
    ensures r.Err? <==> !Truthy(Field(request, "file", JString("")))
    ensures r.Err? ==> r.error == HttpException(400, "file path is required")
    ensures r.Ok? ==> Get(request, "file") == Some(r.value)
  {
    var path := Field(request, "file", JString(""));
    if !Truthy(path) then Err(HttpException(400, "file path is required")) else Ok(path)
  }

  /** Without the field, both endpoints answer 400 before any service is called. */
  lemma MissingFieldIs400(request: seq<(string, Json)>)
    ensures Get(request, "shell_session_id").None? ==> ShellRequest(request) == Err(HttpException(400, "shell_session_id is required"))
    ensures Get(request, "file").None? ==> FileRequest(request) == Err(HttpException(400, "file path is required"))
  {
  }
}
