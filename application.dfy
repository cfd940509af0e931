/**
 * The application services: every call answers with a `{code, msg, data}`
 * envelope, code 0 for success, 404 for an unknown session or shell session
 * and 500, with the exception's text after a fixed prefix, for anything raised
 * on the way.
 */
module Application {
  import opened Wrappers
  import opened Errors
  import opened Json
  import opened Text
  import opened ValueObjects
  import opened Entities
  import opened Infrastructure

  datatype Envelope = Envelope(code: int, msg: string, data: Json)

  function Success(data: Json): Envelope {
    Envelope(0, "success", data)
  }

  const SessionNotFound := Envelope(404, "Session not found", JNull)

  /** `{"code": 500, "msg": f"{prefix}{str(e)}", "data": None}`. */
  function Failure(prefix: string, e: Exc): Envelope {
    Envelope(500, prefix + Str(e), JNull)
  }

  /** The envelope as the dict the routers and query handlers receive. */
  function EnvelopeJson(r: Envelope): Json {
    JObject([("code", JInt(r.code)), ("msg", JString(r.msg)), ("data", r.data)])
  }

  // ---------------------------------------------------------------------------
  // Finding a session by the id a client sent.
  // ---------------------------------------------------------------------------

  /**
   * `get_session(ConversationId(session_id))`: an empty id raises before the
   * service is asked; otherwise the cache, then the repository.
   */
  method Lookup(service: ConversationRepositoryService, sessionId: string, now: DateTime)
    returns (r: Result<Option<ConversationSession>, Exc>)
    modifies service
    ensures sessionId == [] ==> r == Err(ValueError("ConversationId cannot be empty")) && service.cache == old(service.cache)
    ensures sessionId in old(service.cache) ==> r == Ok(Some(old(service.cache)[sessionId])) && service.cache == old(service.cache)
    ensures sessionId != [] && sessionId !in old(service.cache) && sessionId !in service.repository.records ==>
              r == Ok(None) && service.cache == old(service.cache)
    ensures sessionId != [] && sessionId !in old(service.cache) && sessionId in service.repository.records ==>
              && (r.Ok? <==> Reload(service.repository.records[sessionId], now).Ok?)
              && (r.Err? ==> r.error == Reload(service.repository.records[sessionId], now).error)
              && (r.Ok? ==> r.value.Some? && fresh(r.value.value) && service.cache == old(service.cache)[sessionId := r.value.value])
              && (r.Ok? ==> Encode(r.value.value) == Reload(service.repository.records[sessionId], now).value)
    ensures r.Ok? && r.value.Some? ==> sessionId in service.cache && service.cache[sessionId] == r.value.value
    ensures CacheAfterFind(old(service.cache), service.cache, sessionId, service.repository.records, now)
    ensures forall k :: k in old(service.cache) ==> unchanged(old(service.cache)[k])
    ensures var found := Find(sessionId, sessionId in old(service.cache), service.repository.records, now);
            && (r.Err? <==> found.Raised?) && (r.Err? ==> r.error == found.error)
            && (r == Ok(None) <==> found == Missing)
    ensures r.Ok? && r.value.Some? && sessionId !in old(service.cache) ==>
              && r.value.value.sessionId == service.repository.records[sessionId].sessionId
              && EncodeMessages(r.value.value.messages) == Reload(service.repository.records[sessionId], now).value.messages
  {
    var id := MakeConversationId(sessionId);
    if id.Err? {
      return Err(id.error);
    }
    r := service.GetSession(id.value, now);
  }

  // ---------------------------------------------------------------------------
  // How sessions and events are shown.
  // ---------------------------------------------------------------------------

  function EventJson(e: Event): Json {
    JObject([("event_id", JString(e.eventId)), ("event_type", JString(e.eventType)),
             ("data", JObject(e.data)), ("timestamp", JString(e.timestamp.value.iso))])
  }

  /** The `"events"` list of `get_session`, each timestamp written as its ISO text. */
  function EventsJson(events: seq<Event>): (r: seq<Json>)
    ensures |r| == |events|
    ensures forall i :: 0 <= i < |events| ==> r[i] == EventJson(events[i])
  {
    seq(|events|, i requires 0 <= i < |events| => EventJson(events[i]))
  }

  const IsoformatError := AttributeError("'Timestamp' object has no attribute 'isoformat'")

  /**
   * The `"events"` list as `get_session` writes it: `event.timestamp.isoformat()`
   * is asked of the `Timestamp` wrapper, which has no such method, so any
   * event at all makes the call raise.
   */
  function EventsAsWritten(events: seq<Event>): (r: Result<seq<Json>, Exc>)
    ensures r.Ok? <==> events == []
  {
    if events == [] then Ok([]) else Err(IsoformatError)
  }

  /** The `"data"` of a successful `get_session`. */
  function SessionData(s: ConversationSession): Json
    reads s
  {
    JObject([("session_id", JString(s.sessionId)), ("title", JString(s.title)),
             ("events", JArray(EventsJson(s.events)))])
  }

  /**
   * The two readings agree exactly on the sessions without events; on any
   * other session the code as written answers 500 where the evident intent
   * lists every event with its ISO time.
   */
  lemma IsoformatFinding(events: seq<Event>)
    ensures events == [] ==> EventsAsWritten(events) == Ok(EventsJson(events))
    ensures events != [] ==> EventsAsWritten(events) == Err(IsoformatError) && |EventsJson(events)| == |events|
  {
  }

  /** The six keys of a `list_sessions` entry. */
  function SummaryMembers(id: string, title: string, latestContent: string, latestAt: int, status: string, unread: int): seq<(string, Json)> {
    [("session_id", JString(id)), ("title", JString(title)),
     ("latest_message", JString(latestContent)), ("latest_message_at", JInt(latestAt)),
     ("status", JString(status)), ("unread_message_count", JInt(unread))]
  }

  /** One `list_sessions` entry: an empty latest message and time 0 for a session without messages. */
  function Summary(s: ConversationSession): Json
    reads s
  {
    var latest := s.LatestMessage();
    JObject(SummaryMembers(s.sessionId, s.title,
                           if latest.Some? then latest.value.content else "",
                           if latest.Some? then latest.value.timestamp.value.epochSeconds else 0,
                           s.status, s.unreadMessageCount))
  }

  /** The same entry read off a stored record. */
  function RecordSummary(rec: SessionRecord): Json {
    var ms := rec.messages;
    JObject(SummaryMembers(rec.sessionId, rec.title,
                           if ms == [] then "" else ms[|ms| - 1].content,
                           if ms == [] then 0 else ms[|ms| - 1].timestamp.epochSeconds,
                           rec.status, rec.unreadMessageCount))
  }

  /** A session's entry depends only on what `save_session` would store for it. */
  lemma SummaryOfRecord(s: ConversationSession)
    ensures Summary(s) == RecordSummary(Encode(s))
  {
    var ms := s.messages;
    if ms != [] {
      assert Encode(s).messages[|ms| - 1] == EncodeMessage(ms[|ms| - 1]);
    }
  }

  function Summaries(sessions: seq<ConversationSession>): (r: seq<Json>)
    reads sessions
    ensures |r| == |sessions|
    ensures forall i :: 0 <= i < |sessions| ==> r[i] == Summary(sessions[i])
  {
    seq(|sessions|, i requires 0 <= i < |sessions| reads sessions => Summary(sessions[i]))
  }

  lemma SummaryMembersLatest(id: string, title: string, latestContent: string, latestAt: int, status: string, unread: int)
    ensures var ms := SummaryMembers(id, title, latestContent, latestAt, status, unread);
            && Get(ms, "latest_message") == Some(JString(latestContent))
            && Get(ms, "latest_message_at") == Some(JInt(latestAt))
  {
    var ms := SummaryMembers(id, title, latestContent, latestAt, status, unread);
    assert ms[0].0 == "session_id" && ms[1].0 == "title" && ms[2].0 == "latest_message";
    GetAt(ms, 2);
    GetAt(ms, 3);
  }

  /**
   * A summary's latest message is empty exactly when the session has no
   * messages (content is never blank), and then its time is 0; otherwise both
   * come from the last message.
   */
  lemma SummaryLatest(s: ConversationSession)
    ensures Get(Summary(s).members, "latest_message") == Some(JString("")) <==> s.messages == []
    ensures s.messages == [] ==> Get(Summary(s).members, "latest_message_at") == Some(JInt(0))
    ensures s.messages != [] ==>
              && Get(Summary(s).members, "latest_message") == Some(JString(s.messages[|s.messages| - 1].content))
              && Get(Summary(s).members, "latest_message_at") == Some(JInt(s.messages[|s.messages| - 1].timestamp.value.epochSeconds))
  {
    var latest := s.LatestMessage();
    SummaryMembersLatest(s.sessionId, s.title,
                         if latest.Some? then latest.value.content else "",
                         if latest.Some? then latest.value.timestamp.value.epochSeconds else 0,
                         s.status, s.unreadMessageCount);
    if latest.Some? {
      var text := latest.value.content;
      assert IsContent(text) && IsBlank([]);
    }
  }

  /** The reply `_generate_ai_response` makes up: the user's text inside a fixed sentence. */
  function AiResponse(message: string): (r: string)
    ensures |r| == |message| + 117
  {
    ReplyOpening + message + ReplyClosing
  }

  const ReplyOpening := "I understand you said: '"
  const ReplyClosing := "'. How can I help you with tools like shell commands, file operations, or browser automation?"

  /** The reply quotes the user's text whole, right after the 24-character opening. */
  lemma AiResponseQuotes(message: string)
    ensures AiResponse(message)[24..24 + |message|] == message
  {
    assert |ReplyOpening| == 24;
    assert AiResponse(message) == ReplyOpening + message + ReplyClosing;
  }

  /** The reply is a valid `Content` exactly when the user's text leaves it room: 9883 characters at most. */
  lemma AiResponseContent(message: string)
    ensures MakeContent(AiResponse(message)).Ok? <==> |message| <= MaxContentLength - 117
  {
    var r := AiResponse(message);
    assert r[0] == 'I' && !IsSpace(r[0]);
    assert !IsBlank(r);
  }

  /** A user text that passes as content but whose reply is too long: the chat fails after storing it. */
  lemma AssistantTooLong(message: string)
    requires !IsBlank(message) && MaxContentLength - 117 < |message| <= MaxContentLength
    ensures MakeContent(message).Ok?
    ensures MakeContent(AiResponse(message)) == Err(ValueError("Content too long"))
  {
    AiResponseContent(message);
    var r := AiResponse(message);
    assert r[0] == 'I' && !IsSpace(r[0]);
    assert !IsBlank(r);
  }

  /**
   * What a chat does to a found session: the answer, and the messages appended
   * (the user's, then the assistant's; a failure keeps what was added before it).
   */
  function ChatOutcome(sid: ConversationId, message: string, userRandom: seq<nat>, replyRandom: seq<nat>,
                       now: DateTime): (Envelope, seq<Message>)
    requires IsNibbles(userRandom) && IsNibbles(replyRandom)
  {
    var user := NewMessage(sid, "user", message, None, userRandom, now);
    if user.Err? then (Failure("Failed to process chat: ", user.error), [])
    else
      var reply := NewMessage(sid, "assistant", AiResponse(message), None, replyRandom, now);
      if reply.Err? then (Failure("Failed to process chat: ", reply.error), [user.value])
      else (Success(JObject([("response", JString(AiResponse(message))), ("message_id", JString(reply.value.messageId))])),
            [user.value, reply.value])
  }

  /**
   * A chat succeeds exactly when the text is valid content with room for the
   * reply; it then appends the user's text and the reply, which quotes it, in
   * that order. A text that is not content appends nothing.
   */
  lemma ChatOutcomeSpec(sid: ConversationId, message: string, userRandom: seq<nat>, replyRandom: seq<nat>, now: DateTime)
    requires IsNibbles(userRandom) && IsNibbles(replyRandom)
    ensures var (answer, added) := ChatOutcome(sid, message, userRandom, replyRandom, now);
            && (answer.code == 0 <==> !IsBlank(message) && |message| <= MaxContentLength - 117)
            && (answer.code != 0 ==> answer.code == 500 && answer.data == JNull)
            && (answer.code == 0 ==>
                  && |added| == 2 && added[0].role == "user" && added[0].content == message
                  && added[1].role == "assistant" && added[1].content == AiResponse(message)
                  && answer.data == JObject([("response", JString(AiResponse(message))), ("message_id", JString(added[1].messageId))]))
            && (IsBlank(message) || |message| > MaxContentLength ==> added == [])
  {
    AiResponseContent(message);
    var user := NewMessage(sid, "user", message, None, userRandom, now);
    var reply := NewMessage(sid, "assistant", AiResponse(message), None, replyRandom, now);
    assert user.Ok? <==> MakeContent(message).Ok?;
    assert reply.Ok? <==> MakeContent(AiResponse(message)).Ok?;
  }

  /** A chat answers 0 or 500, never 404. */
  lemma ChatOutcomeCode(sid: ConversationId, message: string, userRandom: seq<nat>, replyRandom: seq<nat>, now: DateTime)
    requires IsNibbles(userRandom) && IsNibbles(replyRandom)
    ensures ChatOutcome(sid, message, userRandom, replyRandom, now).0.code in {0, 500}
  {
  }

  /** A text of 9884 to 10000 visible characters is stored, then the chat fails on the reply's length. */
  lemma ChatTooLongKeepsUserMessage(sid: ConversationId, message: string, userRandom: seq<nat>, replyRandom: seq<nat>, now: DateTime)
    requires IsNibbles(userRandom) && IsNibbles(replyRandom)
    requires !IsBlank(message) && MaxContentLength - 117 < |message| <= MaxContentLength
    ensures var (answer, added) := ChatOutcome(sid, message, userRandom, replyRandom, now);
            && answer == Failure("Failed to process chat: ", ValueError("Content too long"))
            && |added| == 1 && added[0].role == "user" && added[0].content == message
  {
    AssistantTooLong(message);
    var user := NewMessage(sid, "user", message, None, userRandom, now);
    var reply := NewMessage(sid, "assistant", AiResponse(message), None, replyRandom, now);
    assert user.Ok?;
    assert reply == Err(ValueError("Content too long"));
    assert ChatOutcome(sid, message, userRandom, replyRandom, now) == (Failure("Failed to process chat: ", reply.error), [user.value]);
  }

  /** `ChatOutcome` case by case, in the terms `Chat` works with. */
  lemma ChatSteps(sid: ConversationId, message: string, userRandom: seq<nat>, replyRandom: seq<nat>, now: DateTime)
    requires IsNibbles(userRandom) && IsNibbles(replyRandom)
    ensures var user := NewMessage(sid, "user", message, None, userRandom, now);
            var reply := NewMessage(sid, "assistant", AiResponse(message), None, replyRandom, now);
            var outcome := ChatOutcome(sid, message, userRandom, replyRandom, now);
            && (user.Err? ==> outcome.0 == Failure("Failed to process chat: ", user.error) && outcome.1 == [])
            && (user.Ok? && reply.Err? ==> outcome.0 == Failure("Failed to process chat: ", reply.error) && outcome.1 == [user.value])
            && (user.Ok? && reply.Ok? ==>
                  && outcome.0 == Success(JObject([("response", JString(AiResponse(message))), ("message_id", JString(reply.value.messageId))]))
                  && outcome.1 == [user.value, reply.value])
  {
  }

  /** `process_chat_message` answers the lookup's error, the 404, or the chat on the session found. */
  lemma ChatAnswerOf(sessionId: string, sid: ConversationId, message: string, userRandom: seq<nat>, replyRandom: seq<nat>,
                     now: DateTime, cached: bool, records: map<string, SessionRecord>, r: Envelope)
    requires IsNibbles(userRandom) && IsNibbles(replyRandom)
    requires Find(sessionId, cached, records, now).Raised? ==>
               r == Failure("Failed to process chat: ", Find(sessionId, cached, records, now).error)
    requires Find(sessionId, cached, records, now) == Missing ==> r == SessionNotFound
    requires Find(sessionId, cached, records, now).Present? ==> r == ChatOutcome(sid, message, userRandom, replyRandom, now).0
    ensures r == ChatAnswer(sessionId, message, userRandom, replyRandom, now, cached, records)
  {
    if Find(sessionId, cached, records, now).Present? {
      ChatAnswerAnySession(sid, sessionId, message, userRandom, replyRandom, now);
    }
  }

  /** The answer and the messages of a chat, step by step, are those of `ChatOutcome`. */
  lemma ChatResult(sid: ConversationId, message: string, userRandom: seq<nat>, replyRandom: seq<nat>, now: DateTime,
                   user: Result<Message, Exc>, reply: Result<Message, Exc>, before: seq<Message>, after: seq<Message>, r: Envelope)
    requires IsNibbles(userRandom) && IsNibbles(replyRandom)
    requires user == NewMessage(sid, "user", message, None, userRandom, now)
    requires reply == NewMessage(sid, "assistant", AiResponse(message), None, replyRandom, now)
    requires user.Err? ==> r == Failure("Failed to process chat: ", user.error) && after == before
    requires user.Ok? && reply.Err? ==> r == Failure("Failed to process chat: ", reply.error) && after == before + [user.value]
    requires user.Ok? && reply.Ok? ==>
               && r == Success(JObject([("response", JString(AiResponse(message))), ("message_id", JString(reply.value.messageId))]))
               && after == before + [user.value] + [reply.value]
    ensures r == ChatOutcome(sid, message, userRandom, replyRandom, now).0
    ensures after == before + ChatOutcome(sid, message, userRandom, replyRandom, now).1
  {
    ChatSteps(sid, message, userRandom, replyRandom, now);
    if user.Ok? && reply.Ok? {
      AppendTwo(before, user.value, reply.value);
    }
  }

  /** The chat's answer does not depend on the id of the session it runs on. */
  lemma ChatAnswerAnySession(sid: ConversationId, other: ConversationId, message: string,
                             userRandom: seq<nat>, replyRandom: seq<nat>, now: DateTime)
    requires IsNibbles(userRandom) && IsNibbles(replyRandom)
    ensures ChatOutcome(sid, message, userRandom, replyRandom, now).0 == ChatOutcome(other, message, userRandom, replyRandom, now).0
  {
    ChatSteps(sid, message, userRandom, replyRandom, now);
    ChatSteps(other, message, userRandom, replyRandom, now);
  }

  lemma AppendTwo<T>(xs: seq<T>, a: T, b: T)
    ensures xs + [a] + [b] == xs + [a, b]
  {
  }

  // ---------------------------------------------------------------------------
  // What each service call answers, read off the cache and the stored records.
  // ---------------------------------------------------------------------------

  /** What `get_session(ConversationId(session_id))` comes to for a handler. */
  datatype Found = Raised(error: Exc) | Missing | Present

  /**
   * An empty id raises; a cached id is found; otherwise the stored record is
   * reloaded, raising its first validation error, or there is none.
   */
  function Find(sessionId: string, cached: bool, records: map<string, SessionRecord>, now: DateTime): (r: Found)
    ensures r == Missing <==> sessionId != [] && !cached && sessionId !in records
    ensures r.Present? <==> sessionId != [] && (cached || (sessionId in records && Reload(records[sessionId], now).Ok?))
    ensures !r.Raised? ==> sessionId != []
  {
    if sessionId == [] then Raised(ValueError("ConversationId cannot be empty"))
    else if cached then Present
    else if sessionId !in records then Missing
    else if Reload(records[sessionId], now).Err? then Raised(Reload(records[sessionId], now).error)
    else Present
  }

  /**
   * The cache once `get_session` has looked the id up: a session reloaded
   * from its record is added under its id; otherwise, a cached id included,
   * nothing changes.
   */
  predicate CacheAfterFind(before: map<ConversationId, ConversationSession>, after: map<ConversationId, ConversationSession>,
                           sessionId: string, records: map<string, SessionRecord>, now: DateTime)
  {
    if sessionId !in before && Find(sessionId, false, records, now).Present? then
      sessionId in after && after == before[sessionId := after[sessionId]]
    else
      after == before
  }

  /**
   * A lookup only adds to the cache: every cached session stays, and a
   * session it found is answered from the cache by the next lookup.
   */
  lemma CacheOnlyGrows(before: map<ConversationId, ConversationSession>, after: map<ConversationId, ConversationSession>,
                       sessionId: string, records: map<string, SessionRecord>, now: DateTime, later: DateTime)
    requires CacheAfterFind(before, after, sessionId, records, now)
    ensures forall k :: k in before ==> k in after && after[k] == before[k]
    ensures Find(sessionId, sessionId in before, records, now).Present? ==> Find(sessionId, sessionId in after, records, later) == Present
    ensures after.Keys <= before.Keys + {sessionId}
  {
  }

  /** `stop_session`: 404 for no session, and for a found one the refused status. */
  function StopAnswer(sessionId: string, cached: bool, records: map<string, SessionRecord>, now: DateTime): (r: Envelope)
    ensures r.code != 0
    ensures r.code == 404 <==> Find(sessionId, cached, records, now) == Missing
  {
    match Find(sessionId, cached, records, now)
    case Raised(e) => Failure("Failed to stop session: ", e)
    case Missing => SessionNotFound
    case Present => Failure("Failed to stop session: ", StatusError)
  }

  /** `process_chat_message`: 404 for no session, otherwise the chat's own answer. */
  function ChatAnswer(sessionId: string, message: string, userRandom: seq<nat>, replyRandom: seq<nat>, now: DateTime,
                      cached: bool, records: map<string, SessionRecord>): (r: Envelope)
    requires IsNibbles(userRandom) && IsNibbles(replyRandom)
    ensures r.code == 404 <==> Find(sessionId, cached, records, now) == Missing
    ensures r.code == 0 ==> Find(sessionId, cached, records, now).Present? && !IsBlank(message) && |message| <= MaxContentLength - 117
  {
    match Find(sessionId, cached, records, now)
    case Raised(e) => Failure("Failed to process chat: ", e)
    case Missing => SessionNotFound
    case Present =>
      ChatOutcomeSpec(sessionId, message, userRandom, replyRandom, now);
      ChatOutcome(sessionId, message, userRandom, replyRandom, now).0
  }

  /** The reply of `view_file_content` once the session is found. */
  function FileReply(filePath: string, toolReply: seq<(string, Json)>): Envelope {
    Success(JObject([("content", if Get(toolReply, "content").Some? then Get(toolReply, "content").value else JString("")),
                     ("file", JString(filePath))]))
  }

  /** `view_file_content`: 404 for no session, otherwise the tool's content next to the path. */
  function ViewFileAnswer(sessionId: string, filePath: string, toolReply: seq<(string, Json)>, now: DateTime,
                          cached: bool, records: map<string, SessionRecord>): (r: Envelope)
    ensures r.code == 404 <==> Find(sessionId, cached, records, now) == Missing
    ensures r.code == 0 <==> Find(sessionId, cached, records, now).Present?
    ensures r.code == 0 ==> Subscript(r.data, "file") == Ok(JString(filePath))
  {
    match Find(sessionId, cached, records, now)
    case Raised(e) => Failure("Failed to view file: ", e)
    case Missing => SessionNotFound
    case Present =>
      GetAt(FileReply(filePath, toolReply).data.members, 1);
      FileReply(filePath, toolReply)
  }

  /** The search loop of `view_shell_session` over shell records: the position of the first with the id. */
  function FirstShell(shells: seq<ShellRecord>, shellSessionId: string): (r: Option<nat>)
    ensures r.None? <==> forall i :: 0 <= i < |shells| ==> shells[i].shellSessionId != shellSessionId
    ensures r.Some? ==> r.value < |shells| && shells[r.value].shellSessionId == shellSessionId
    ensures r.Some? ==> forall i :: 0 <= i < r.value ==> shells[i].shellSessionId != shellSessionId
  {
    if shells == [] then None
    else if shells[0].shellSessionId == shellSessionId then Some(0)
    else
      match FirstShell(shells[1..], shellSessionId)
      case None => None
      case Some(k) => Some(k + 1)
  }

  /** The reply of `view_shell_session` once the session's shells are known. */
  function ShellReply(shells: seq<ShellRecord>, shellSessionId: string): (r: Envelope)
    ensures r.code == 0 || r == Envelope(404, "Shell session not found", JNull)
    ensures r == Envelope(404, "Shell session not found", JNull) <==>
              forall i :: 0 <= i < |shells| ==> shells[i].shellSessionId != shellSessionId
    ensures r.code == 0 ==>
              exists i :: && 0 <= i < |shells| && shells[i].shellSessionId == shellSessionId
                          && (forall j :: 0 <= j < i ==> shells[j].shellSessionId != shellSessionId)
                          && r == Success(JObject([("output", JString(LatestOutputOf(shells[i].console))),
                                                   ("session_id", JString(shellSessionId)),
                                                   ("console", JArray(ConsoleJson(shells[i].console)))]))
  {
    match FirstShell(shells, shellSessionId)
    case None => Envelope(404, "Shell session not found", JNull)
    case Some(k) =>
      var shell := shells[k];
      Success(JObject([("output", JString(LatestOutputOf(shell.console))), ("session_id", JString(shell.shellSessionId)),
                       ("console", JArray(ConsoleJson(shell.console)))]))
  }

  /**
   * `view_shell_session`: 404 for no session; otherwise the search of the
   * cached session's shells, or of the shells its record restores unchanged.
   */
  function ViewShellAnswer(sessionId: string, shellSessionId: string, now: DateTime,
                           cachedShells: Option<seq<ShellRecord>>, records: map<string, SessionRecord>): (r: Envelope)
    ensures r == SessionNotFound <==> Find(sessionId, cachedShells.Some?, records, now) == Missing
    ensures Find(sessionId, cachedShells.Some?, records, now).Raised? ==>
              r == Failure("Failed to view shell session: ", Find(sessionId, cachedShells.Some?, records, now).error)
    ensures Find(sessionId, cachedShells.Some?, records, now).Present? && cachedShells.Some? ==>
              r == ShellReply(cachedShells.value, shellSessionId)
    ensures Find(sessionId, cachedShells.Some?, records, now).Present? && cachedShells.None? ==>
              r == ShellReply(records[sessionId].shellSessions, shellSessionId)
  {
    match Find(sessionId, cachedShells.Some?, records, now)
    case Raised(e) => Failure("Failed to view shell session: ", e)
    case Missing => SessionNotFound
    case Present =>
      ShellReply(if cachedShells.Some? then cachedShells.value else Reload(records[sessionId], now).value.shellSessions,
                 shellSessionId)
  }

  /** An event dict as `get_session` writes it, read off the stored event. */
  function EventRecordJson(e: EventRecord): Json {
    JObject([("event_id", JString(e.eventId)), ("event_type", JString(e.eventType)),
             ("data", JObject(e.data)), ("timestamp", JString(e.timestamp.iso))])
  }

  /** The `"data"` of a successful `get_session`, read off the stored record. */
  function RecordData(rec: SessionRecord): Json {
    JObject([("session_id", JString(rec.sessionId)), ("title", JString(rec.title)),
             ("events", JArray(seq(|rec.events|, i requires 0 <= i < |rec.events| => EventRecordJson(rec.events[i]))))])
  }

  /** What `get_session` shows of a session is what its saved record holds. */
  lemma SessionDataOfRecord(s: ConversationSession)
    ensures SessionData(s) == RecordData(Encode(s))
  {
    var rec := Encode(s);
    assert EventsJson(s.events) == seq(|rec.events|, i requires 0 <= i < |rec.events| => EventRecordJson(rec.events[i]));
  }

  /** `get_session` on a stored, uncached session: the data of the reloaded record, or its error. */
  function GetSessionOfRecord(rec: SessionRecord, now: DateTime): (r: Envelope)
    ensures r.code == 0 <==> Reload(rec, now).Ok?
    ensures r.code == 0 ==> r.data == RecordData(Reload(rec, now).value)
  {
    match Reload(rec, now)
    case Ok(loaded) => Success(RecordData(loaded))
    case Err(e) => Failure("Failed to get session: ", e)
  }

  /** `list_sessions`: one summary per listed record, in order, or the listing's error. */
  function ListAnswer(listed: Result<seq<SessionRecord>, Exc>): (r: Envelope)
    ensures r.code == 0 <==> listed.Ok?
    ensures listed.Ok? ==> Subscript(r.data, "sessions") == Ok(JArray(seq(|listed.value|, i requires 0 <= i < |listed.value| => RecordSummary(listed.value[i]))))
  {
    if listed.Err? then Failure("Failed to list sessions: ", listed.error)
    else
      var items := seq(|listed.value|, i requires 0 <= i < |listed.value| => RecordSummary(listed.value[i]));
      GetAt([("sessions", JArray(items))], 0);
      Success(JObject([("sessions", JArray(items))]))
  }

  // ---------------------------------------------------------------------------
  // ConversationApplicationService.
  // ---------------------------------------------------------------------------

  class ConversationApplicationService {
    const conversations: ConversationRepositoryService
    const events: EventManagementService

    ghost predicate Valid()
      reads conversations.repository, events
    {
      conversations.repository.Valid() && events.Valid()
    }

    constructor (conversations: ConversationRepositoryService, events: EventManagementService)
      ensures this.conversations == conversations && this.events == events
    {
      this.conversations := conversations;
      this.events := events;
    }

    /**
     * `create_session`: the new session is saved and its id returned. The
     * "session_created" event is refused by `add_event` (it is not one of the
     * seven event types), which `create_event` turns into False, so the
     * session is saved without it.
     */
    method CreateSession(title: string, random: seq<nat>, eventRandom: seq<nat>, now: DateTime) returns (r: Envelope)
      requires Valid() && IsNibbles(random) && IsNibbles(eventRandom)
      modifies conversations.repository
      ensures Valid()
      ensures r == Success(JObject([("session_id", JString(GenerateConversationId(random)))]))
      ensures var id := GenerateConversationId(random);
              && id in conversations.repository.records
              && (forall k :: k != id ==> (k in conversations.repository.records <==> k in old(conversations.repository.records)))
              && conversations.repository.records[id].title == title
              && conversations.repository.records[id].status == "pending"
              && conversations.repository.records[id].events == []
      ensures var id := GenerateConversationId(random);
              conversations.repository.records == old(conversations.repository.records)[id := conversations.repository.records[id]]
    {
      var session := conversations.CreateSession(title, random, now);
      var ok, _ := events.CreateEvent(session, "session_created", [("title", JString(title))], eventRandom, now, {});
      r := Success(JObject([("session_id", JString(session.sessionId))]));
    }

    /**
     * `get_session` with its timestamps written as ISO text: 500 for an empty
     * id or a stored session that cannot be loaded, 404 for an unknown one,
     * otherwise the id, title and events of the (cached) session.
     */
    method GetSession(sessionId: string, now: DateTime) returns (r: Envelope)
      modifies conversations
      ensures sessionId == [] ==> r == Failure("Failed to get session: ", ValueError("ConversationId cannot be empty"))
      ensures sessionId in old(conversations.cache) ==> r == Success(SessionData(old(conversations.cache)[sessionId]))
      ensures r.code == 404 <==> sessionId != [] && sessionId !in old(conversations.cache) && sessionId !in conversations.repository.records
      ensures r.code == 404 ==> r == SessionNotFound
      ensures sessionId != [] && sessionId !in old(conversations.cache) && sessionId in conversations.repository.records ==>
                r == GetSessionOfRecord(conversations.repository.records[sessionId], now)
      ensures r.code == 0 ==> sessionId in conversations.cache && r == Success(SessionData(conversations.cache[sessionId]))
      ensures CacheAfterFind(old(conversations.cache), conversations.cache, sessionId, conversations.repository.records, now)
      ensures r.code in {0, 404, 500}
    {
      var found := Lookup(conversations, sessionId, now);
      if found.Err? {
        return Failure("Failed to get session: ", found.error);
      }
      if found.value.None? {
        return SessionNotFound;
      }
      SessionDataOfRecord(found.value.value);
      r := Success(SessionData(found.value.value));
    }

    /** `list_sessions`: one summary per listed session, in the repository's order. */
    method ListSessions(now: DateTime) returns (r: Envelope)
      requires Valid()
      ensures r == ListAnswer(ListSpec(conversations.repository.records, conversations.repository.order, now))
    {
      var sessions := conversations.ListSessions(now);
      if sessions.Err? {
        return Failure("Failed to list sessions: ", sessions.error);
      }
      var list := SummaryList(sessions.value);
      forall i | 0 <= i < |list|
        ensures list[i] == RecordSummary(Encode(sessions.value[i]))
      {
        SummaryOfRecord(sessions.value[i]);
      }
      ghost var listed := ListSpec(conversations.repository.records, conversations.repository.order, now).value;
      assert list == seq(|listed|, i requires 0 <= i < |listed| => RecordSummary(listed[i]));
      r := Success(JObject([("sessions", JArray(list))]));
    }

    /** `delete_session`: 404 when the repository had no such record, else success with no data. */
    method DeleteSession(sessionId: string) returns (r: Envelope)
      requires Valid()
      modifies conversations, conversations.repository
      ensures Valid()
      ensures sessionId == [] ==> r == Failure("Failed to delete session: ", ValueError("ConversationId cannot be empty"))
      ensures sessionId == [] ==> unchanged(conversations.repository) && conversations.cache == old(conversations.cache)
      ensures sessionId != [] ==> conversations.cache == old(conversations.cache) - {sessionId}
      ensures sessionId != [] ==> conversations.repository.records == old(conversations.repository.records) - {sessionId}
      ensures sessionId != [] && sessionId in old(conversations.repository.records) ==> r == Success(JNull)
      ensures sessionId != [] && sessionId !in old(conversations.repository.records) ==> r == SessionNotFound
    {
      var id := MakeConversationId(sessionId);
      if id.Err? {
        return Failure("Failed to delete session: ", id.error);
      }
      var success := conversations.DeleteSession(id.value);
      if !success {
        return SessionNotFound;
      }
      r := Success(JNull);
    }

    /**
     * `stop_session`: 404 for an unknown session; for a known one
     * `update_status("stopped")` raises, since "stopped" is not a status, so
     * the answer is always an error and the status is never changed.
     */
    method StopSession(sessionId: string, now: DateTime) returns (r: Envelope)
      modifies conversations, conversations.cache.Values
      ensures r == StopAnswer(sessionId, sessionId in old(conversations.cache), conversations.repository.records, now)
      ensures sessionId in old(conversations.cache) ==>
                old(conversations.cache)[sessionId].status == old(conversations.cache[sessionId].status)
      ensures conversations.repository.records == old(conversations.repository.records)
      ensures CacheAfterFind(old(conversations.cache), conversations.cache, sessionId, conversations.repository.records, now)
      ensures forall k :: k in old(conversations.cache) ==> unchanged(old(conversations.cache)[k])
      ensures sessionId !in old(conversations.cache) && Find(sessionId, false, conversations.repository.records, now).Present? ==>
                && fresh(conversations.cache[sessionId])
                && Encode(conversations.cache[sessionId]) == Reload(conversations.repository.records[sessionId], now).value
    {
      var found := Lookup(conversations, sessionId, now);
      if found.Err? {
        return Failure("Failed to stop session: ", found.error);
      }
      if found.value.None? {
        return SessionNotFound;
      }
      StoppedIsNoStatus();
      label Found:
      var failure := found.value.value.UpdateStatus("stopped", now);
      assert unchanged@Found(found.value.value);
      r := Failure("Failed to stop session: ", failure.value);
    }

    /**
     * `process_chat_message`, once the session is found: the user message is
     * added, the "message_received" event is refused (and ignored), then the
     * reply is added as the assistant message.
     */
    method Chat(session: ConversationSession, message: string, timestamp: int, eventId: Option<string>,
                userRandom: seq<nat>, eventRandom: seq<nat>, replyRandom: seq<nat>, now: DateTime) returns (r: Envelope)
      requires Valid() && IsNibbles(userRandom) && IsNibbles(eventRandom) && IsNibbles(replyRandom)
      modifies session`messages, session`events, session`lastUpdated
      ensures r == ChatOutcome(session.sessionId, message, userRandom, replyRandom, now).0
      ensures session.messages == old(session.messages) + ChatOutcome(session.sessionId, message, userRandom, replyRandom, now).1
      ensures session.events == old(session.events)
    {
      ghost var before := session.messages;
      ghost var reply := NewMessage(session.sessionId, "assistant", AiResponse(message), None, replyRandom, now);
      var user := session.AddMessage("user", message, None, userRandom, now);
      if user.Err? {
        r := Failure("Failed to process chat: ", user.error);
      } else {
        r := Reply(session, message, timestamp, eventId, eventRandom, replyRandom, now);
      }
      ChatResult(session.sessionId, message, userRandom, replyRandom, now, user, reply, before, session.messages, r);
    }

    /** The rest of a chat once the user's message is stored: the refused event, then the reply. */
    method Reply(session: ConversationSession, message: string, timestamp: int, eventId: Option<string>,
                 eventRandom: seq<nat>, replyRandom: seq<nat>, now: DateTime) returns (r: Envelope)
      requires Valid() && IsNibbles(eventRandom) && IsNibbles(replyRandom)
      modifies session`messages, session`events, session`lastUpdated
      ensures var reply := NewMessage(session.sessionId, "assistant", AiResponse(message), None, replyRandom, now);
              && (reply.Err? ==> r == Failure("Failed to process chat: ", reply.error) && session.messages == old(session.messages))
              && (reply.Ok? ==> r == Success(JObject([("response", JString(AiResponse(message))), ("message_id", JString(reply.value.messageId))])))
              && (reply.Ok? ==> session.messages == old(session.messages) + [reply.value])
      ensures session.events == old(session.events)
    {
      NotifyReceived(session, message, timestamp, eventId, eventRandom, now);
      var response := AiResponse(message);
      var reply := session.AddMessage("assistant", response, None, replyRandom, now);
      if reply.Err? {
        return Failure("Failed to process chat: ", reply.error);
      }
      r := Success(JObject([("response", JString(response)), ("message_id", JString(reply.value.messageId))]));
    }

    /**
     * The "message_received" event of `process_chat_message`: not one of the
     * seven event types, so `add_event` refuses it and nothing is recorded.
     */
    method NotifyReceived(session: ConversationSession, message: string, timestamp: int, eventId: Option<string>,
                          eventRandom: seq<nat>, now: DateTime)
      requires Valid() && IsNibbles(eventRandom)
      modifies session`events, session`lastUpdated
      ensures session.events == old(session.events) && session.lastUpdated == old(session.lastUpdated)
    {
      var data := [("message", JString(message)), ("timestamp", JInt(timestamp)),
                   ("event_id", if eventId.Some? then JString(eventId.value) else JNull)];
      assert |"message_received"| == 16;
      var ok, _ := events.CreateEvent(session, "message_received", data, eventRandom, now, {});
    }

    /** `process_chat_message`: the session lookup, then `Chat` on the session found. */
    method ProcessChatMessage(sessionId: string, message: string, timestamp: int, eventId: Option<string>,
                              userRandom: seq<nat>, eventRandom: seq<nat>, replyRandom: seq<nat>, now: DateTime)
      returns (r: Envelope)
      requires Valid() && IsNibbles(userRandom) && IsNibbles(eventRandom) && IsNibbles(replyRandom)
      modifies conversations, conversations.cache.Values
      ensures r == ChatAnswer(sessionId, message, userRandom, replyRandom, now, sessionId in old(conversations.cache),
                              conversations.repository.records)
      ensures r.code == 0 ==> sessionId in conversations.cache
      ensures CacheAfterFind(old(conversations.cache), conversations.cache, sessionId, conversations.repository.records, now)
      ensures forall k :: k in old(conversations.cache) && (sessionId !in old(conversations.cache) ||
                                                           old(conversations.cache)[k] != old(conversations.cache)[sessionId]) ==>
                unchanged(old(conversations.cache)[k])
      ensures sessionId !in old(conversations.cache) && Find(sessionId, false, conversations.repository.records, now).Present? ==>
                var rec := conversations.repository.records[sessionId];
                var s := conversations.cache[sessionId];
                && fresh(s)
                && EncodeMessages(s.messages)
                   == Reload(rec, now).value.messages
                      + EncodeMessages(ChatOutcome(rec.sessionId, message, userRandom, replyRandom, now).1)
      ensures sessionId in old(conversations.cache) ==>
                var s := old(conversations.cache)[sessionId];
                var outcome := ChatOutcome(s.sessionId, message, userRandom, replyRandom, now);
                r == outcome.0 && s.messages == old(s.messages) + outcome.1
    {
      ghost var cached := sessionId in conversations.cache;
      var found := Lookup(conversations, sessionId, now);
      ghost var sid: ConversationId := "0";
      if found.Err? {
        r := Failure("Failed to process chat: ", found.error);
      } else if found.value.None? {
        r := SessionNotFound;
      } else {
        var session := found.value.value;
        sid := session.sessionId;
        ghost var before := session.messages;
        r := Chat(session, message, timestamp, eventId, userRandom, eventRandom, replyRandom, now);
        EncodeMessagesAppend(before, ChatOutcome(sid, message, userRandom, replyRandom, now).1);
      }
      ChatAnswerOf(sessionId, sid, message, userRandom, replyRandom, now, cached, conversations.repository.records, r);
    }
  }

  /** The summary loop of `list_sessions`. */
  method SummaryList(sessions: seq<ConversationSession>) returns (list: seq<Json>)
    ensures list == Summaries(sessions)
  {
    list := [];
    var i := 0;
    while i < |sessions|
      invariant 0 <= i <= |sessions|
      invariant list == Summaries(sessions[..i])
    {
      list := list + [Summary(sessions[i])];
      assert sessions[..i + 1][..i] == sessions[..i];
      i := i + 1;
    }
    assert sessions[..i] == sessions;
  }

  // ---------------------------------------------------------------------------
  // ShellApplicationService and FileApplicationService.
  // ---------------------------------------------------------------------------

  function ConsoleJson(console: seq<ConsoleEntry>): (r: seq<Json>)
    ensures |r| == |console|
  {
    seq(|console|, i requires 0 <= i < |console| =>
      JObject([("ps1", JString(console[i].ps1)), ("command", JString(console[i].command)),
               ("output", JString(console[i].output))]))
  }

  /** The search loop of `view_shell_session`: the position of the first shell with the id. */
  method FindShell(shells: seq<ShellSession>, shellSessionId: string) returns (r: Option<nat>)
    ensures r.None? <==> forall i :: 0 <= i < |shells| ==> shells[i].shellSessionId != shellSessionId
    ensures r.Some? ==> r.value < |shells| && shells[r.value].shellSessionId == shellSessionId
    ensures r.Some? ==> forall i :: 0 <= i < r.value ==> shells[i].shellSessionId != shellSessionId
  {
    var i := 0;
    while i < |shells|
      invariant 0 <= i <= |shells|
      invariant forall j :: 0 <= j < i ==> shells[j].shellSessionId != shellSessionId
    {
      if shells[i].shellSessionId == shellSessionId {
        return Some(i);
      }
      i := i + 1;
    }
    return None;
  }

  /** The loop over a session's shells finds the shell `FirstShell` finds over their records. */
  lemma FindShellAgrees(shells: seq<ShellSession>, shellSessionId: string, k: Option<nat>)
    requires k.None? <==> forall i :: 0 <= i < |shells| ==> shells[i].shellSessionId != shellSessionId
    requires k.Some? ==> k.value < |shells| && shells[k.value].shellSessionId == shellSessionId
    requires k.Some? ==> forall i :: 0 <= i < k.value ==> shells[i].shellSessionId != shellSessionId
    ensures k == FirstShell(EncodeShells(shells), shellSessionId)
    ensures k.Some? ==> EncodeShells(shells)[k.value].console == shells[k.value].console
  {
    var recs := EncodeShells(shells);
    EncodeShellsAt(shells);
    assert forall i :: 0 <= i < |recs| ==> recs[i].shellSessionId == shells[i].shellSessionId;
    var first := FirstShell(recs, shellSessionId);
    if k.Some? {
      assert first.Some?;
      assert !(first.value < k.value) && !(k.value < first.value);
      assert recs[k.value].console == shells[k.value].console;
    }
  }

  class ShellApplicationService {
    const conversations: ConversationRepositoryService

    constructor (conversations: ConversationRepositoryService)
      ensures this.conversations == conversations
    {
      this.conversations := conversations;
    }

    /**
     * `view_shell_session`: 404 "Shell session not found" when no shell of
     * the session has the id; otherwise the first such shell's latest output,
     * id and console.
     */
    method ViewShellSession(sessionId: string, shellSessionId: string, now: DateTime) returns (r: Envelope)
      modifies conversations
      ensures r == ViewShellAnswer(sessionId, shellSessionId, now,
                                   if sessionId in old(conversations.cache)
                                   then Some(EncodeShells(old(conversations.cache)[sessionId].shellSessions)) else None,
                                   conversations.repository.records)
      ensures CacheAfterFind(old(conversations.cache), conversations.cache, sessionId, conversations.repository.records, now)
      ensures sessionId == [] ==> r == Failure("Failed to view shell session: ", ValueError("ConversationId cannot be empty"))
      ensures r == SessionNotFound <==> sessionId != [] && sessionId !in old(conversations.cache) && sessionId !in conversations.repository.records
      ensures sessionId in old(conversations.cache) ==>
                var shells := old(conversations.cache)[sessionId].shellSessions;
                && ((forall i :: 0 <= i < |shells| ==> shells[i].shellSessionId != shellSessionId) <==>
                      r == Envelope(404, "Shell session not found", JNull))
                && (r.code == 0 ==>
                      exists i :: && 0 <= i < |shells| && shells[i].shellSessionId == shellSessionId
                                  && (forall j :: 0 <= j < i ==> shells[j].shellSessionId != shellSessionId)
                                  && r == Success(JObject([("output", JString(shells[i].LatestOutput())),
                                                           ("session_id", JString(shellSessionId)),
                                                           ("console", JArray(ConsoleJson(shells[i].console)))])))
    {
      var found := Lookup(conversations, sessionId, now);
      if found.Err? {
        return Failure("Failed to view shell session: ", found.error);
      }
      if found.value.None? {
        return SessionNotFound;
      }
      var shells := found.value.value.shellSessions;
      var k := FindShell(shells, shellSessionId);
      FindShellAgrees(shells, shellSessionId, k);
      if k.None? {
        return Envelope(404, "Shell session not found", JNull);
      }
      var shell := shells[k.value];
      r := Success(JObject([("output", JString(shell.LatestOutput())), ("session_id", JString(shell.shellSessionId)),
                            ("console", JArray(ConsoleJson(shell.console)))]));
    }
  }

  class FileApplicationService {
    const conversations: ConversationRepositoryService

    constructor (conversations: ConversationRepositoryService)
      ensures this.conversations == conversations
    {
      this.conversations := conversations;
    }

    /**
     * `view_file_content`: for a found session, the `"content"` of the tool's
     * reply (`""` when it has none) next to the path asked for. The reply of
     * `read_file` is a parameter.
     */
    method ViewFileContent(sessionId: string, filePath: string, toolReply: seq<(string, Json)>, now: DateTime)
      returns (r: Envelope)
      modifies conversations
      ensures r == ViewFileAnswer(sessionId, filePath, toolReply, now, sessionId in old(conversations.cache),
                                  conversations.repository.records)
      ensures CacheAfterFind(old(conversations.cache), conversations.cache, sessionId, conversations.repository.records, now)
    {
      var found := Lookup(conversations, sessionId, now);
      if found.Err? {
        return Failure("Failed to view file: ", found.error);
      }
      if found.value.None? {
        return SessionNotFound;
      }
      r := FileReply(filePath, toolReply);
    }
  }
}
