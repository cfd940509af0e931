/**
 * Domain events: every subclass constructor derives its `event_id`, its
 * `event_type` and its `data` dict from its arguments and hands them to the
 * base dataclass, whose `__post_init__` refuses an empty id. The clock and
 * Python's per-process string `hash()` are parameters.
 */
module DomainEvents {
  import opened Text
  import opened Wrappers
  import opened Errors
  import opened Json
  import opened ValueObjects

  datatype DomainEvent = DomainEvent(
    eventId: string,
    sessionId: ConversationId,
    eventType: string,
    timestamp: DateTime,
    data: seq<(string, Json)>)

  /** The base dataclass: any id but the empty one is accepted. */
  function MakeDomainEvent(eventId: string, sessionId: ConversationId, eventType: string,
                           timestamp: DateTime, data: seq<(string, Json)>): (r: Result<DomainEvent, Exc>)
    ensures r.Ok? <==> eventId != []
    ensures r.Err? ==> r.error == ValueError("Event ID cannot be empty")
    ensures r.Ok? ==> r.value == DomainEvent(eventId, sessionId, eventType, timestamp, data)
  {
    if eventId == [] then Err(ValueError("Event ID cannot be empty"))
    else Ok(DomainEvent(eventId, sessionId, eventType, timestamp, data))
  }

  /** Python's `None` for an optional string argument. */
  function OptString(s: Option<string>): Json {
    if s.Some? then JString(s.value) else JNull
  }

  function OptDict(d: Option<seq<(string, Json)>>): Json {
    if d.Some? then JObject(d.value) else JNull
  }

  function SessionCreated(sessionId: ConversationId, title: string, now: DateTime): (r: Result<DomainEvent, Exc>)
    ensures r.Ok? && r.value.sessionId == sessionId && r.value.timestamp == now
    ensures r.value.eventId == "session_created_" + sessionId
    ensures r.value.eventType == "session_created"
    ensures Get(r.value.data, "title") == Some(JString(title))
  {
    MakeDomainEvent("session_created_" + sessionId, sessionId, "session_created", now,
                    [("title", JString(title))])
  }

  function MessageReceived(sessionId: ConversationId, messageId: MessageId, content: string, role: string,
                           now: DateTime): (r: Result<DomainEvent, Exc>)
    ensures r.Ok? && r.value.sessionId == sessionId && r.value.timestamp == now
    ensures r.value.eventId == "message_received_" + messageId
    ensures r.value.eventType == "message_received"
    ensures Get(r.value.data, "message_id") == Some(JString(messageId))
    ensures Get(r.value.data, "content") == Some(JString(content))
    ensures Get(r.value.data, "role") == Some(JString(role))
  {
    var data := [("message_id", JString(messageId)), ("content", JString(content)), ("role", JString(role))];
    GetAt(data, 2);
    MakeDomainEvent("message_received_" + messageId, sessionId, "message_received", now, data)
  }

  function MessageSent(sessionId: ConversationId, messageId: MessageId, content: string,
                       now: DateTime): (r: Result<DomainEvent, Exc>)
    ensures r.Ok? && r.value.sessionId == sessionId && r.value.timestamp == now
    ensures r.value.eventId == "message_sent_" + messageId
    ensures r.value.eventType == "message_sent"
    ensures Get(r.value.data, "message_id") == Some(JString(messageId))
    ensures Get(r.value.data, "content") == Some(JString(content))
    ensures Get(r.value.data, "role") == None
  {
    MakeDomainEvent("message_sent_" + messageId, sessionId, "message_sent", now,
                    [("message_id", JString(messageId)), ("content", JString(content))])
  }

  function ToolInvoked(sessionId: ConversationId, toolName: string, parameters: seq<(string, Json)>,
                       result: Option<seq<(string, Json)>>, now: DateTime): (r: Result<DomainEvent, Exc>)
    ensures r.Ok? && r.value.sessionId == sessionId && r.value.timestamp == now
    ensures r.value.eventId == "tool_invoked_" + sessionId + "_" + toolName
    ensures r.value.eventType == "tool_invoked"
    ensures Get(r.value.data, "tool_name") == Some(JString(toolName))
    ensures Get(r.value.data, "parameters") == Some(JObject(parameters))
    ensures Get(r.value.data, "result") == Some(OptDict(result))
  {
    var data := [("tool_name", JString(toolName)), ("parameters", JObject(parameters)), ("result", OptDict(result))];
    GetAt(data, 2);
    MakeDomainEvent("tool_invoked_" + sessionId + "_" + toolName, sessionId, "tool_invoked", now, data)
  }

  /** `hashOf` is `hash(command)`, which Python salts per process. */
  function ShellCommandExecuted(sessionId: ConversationId, command: string, output: string, exitCode: int,
                                hashOf: int, now: DateTime): (r: Result<DomainEvent, Exc>)
    ensures r.Ok? && r.value.sessionId == sessionId && r.value.timestamp == now
    ensures r.value.eventId == "shell_executed_" + sessionId + "_" + IntToString(hashOf)
    ensures r.value.eventType == "shell_executed"
    ensures Get(r.value.data, "command") == Some(JString(command))
    ensures Get(r.value.data, "output") == Some(JString(output))
    ensures Get(r.value.data, "exit_code") == Some(JInt(exitCode))
  {
    var data := [("command", JString(command)), ("output", JString(output)), ("exit_code", JInt(exitCode))];
    GetAt(data, 2);
    MakeDomainEvent("shell_executed_" + sessionId + "_" + IntToString(hashOf), sessionId, "shell_executed", now, data)
  }

  /** `hashOf` is `hash(file_path)`. */
  function FileOperationDone(sessionId: ConversationId, filePath: string, operationType: string,
                             content: Option<string>, hashOf: int, now: DateTime): (r: Result<DomainEvent, Exc>)
    ensures r.Ok? && r.value.sessionId == sessionId && r.value.timestamp == now
    ensures r.value.eventId == "file_op_" + sessionId + "_" + operationType + "_" + IntToString(hashOf)
    ensures r.value.eventType == "file_operation"
    ensures Get(r.value.data, "file_path") == Some(JString(filePath))
    ensures Get(r.value.data, "operation_type") == Some(JString(operationType))
    ensures Get(r.value.data, "content") == Some(OptString(content))
  {
    var data := [("file_path", JString(filePath)), ("operation_type", JString(operationType)),
                 ("content", OptString(content))];
    GetAt(data, 2);
    MakeDomainEvent("file_op_" + sessionId + "_" + operationType + "_" + IntToString(hashOf), sessionId,
                    "file_operation", now, data)
  }

  function SessionStatusChanged(sessionId: ConversationId, oldStatus: string, newStatus: string,
                                now: DateTime): (r: Result<DomainEvent, Exc>)
    ensures r.Ok? && r.value.sessionId == sessionId && r.value.timestamp == now
    ensures r.value.eventId == "status_changed_" + sessionId + "_" + newStatus
    ensures r.value.eventType == "status_changed"
    ensures Get(r.value.data, "old_status") == Some(JString(oldStatus))
    ensures Get(r.value.data, "new_status") == Some(JString(newStatus))
  {
    MakeDomainEvent("status_changed_" + sessionId + "_" + newStatus, sessionId, "status_changed", now,
                    [("old_status", JString(oldStatus)), ("new_status", JString(newStatus))])
  }

  /** `errorType` defaults to "general" at the call sites; `hashOf` is `hash(error_message)`. */
  function ErrorOccurred(sessionId: ConversationId, errorMessage: string, errorType: string,
                         hashOf: int, now: DateTime): (r: Result<DomainEvent, Exc>)
    ensures r.Ok? && r.value.sessionId == sessionId && r.value.timestamp == now
    ensures r.value.eventId == "error_" + sessionId + "_" + IntToString(hashOf)
    ensures r.value.eventType == "error"
    ensures Get(r.value.data, "error_message") == Some(JString(errorMessage))
    ensures Get(r.value.data, "error_type") == Some(JString(errorType))
  {
    MakeDomainEvent("error_" + sessionId + "_" + IntToString(hashOf), sessionId, "error", now,
                    [("error_message", JString(errorMessage)), ("error_type", JString(errorType))])
  }

  // ---------------------------------------------------------------------------
  // What the derived ids tell apart.
  // ---------------------------------------------------------------------------

  lemma PrefixCancel(p: string, a: string, b: string)
    requires p + a == p + b
    ensures a == b
  {
    assert a == (p + a)[|p|..];
    assert b == (p + b)[|p|..];
  }

  /** Two received-message events share an id only when they carry the same message id. */
  lemma MessageReceivedIdsDistinct(sid1: ConversationId, sid2: ConversationId, m1: MessageId, m2: MessageId,
                                   c1: string, c2: string, role1: string, role2: string, t1: DateTime, t2: DateTime)
    requires MessageReceived(sid1, m1, c1, role1, t1).value.eventId == MessageReceived(sid2, m2, c2, role2, t2).value.eventId
    ensures m1 == m2
  {
    PrefixCancel("message_received_", m1, m2);
  }

  /** A received-message id and a sent-message id never coincide. */
  lemma ReceivedNeverSent(sid1: ConversationId, sid2: ConversationId, m1: MessageId, m2: MessageId,
                          c1: string, c2: string, role: string, t1: DateTime, t2: DateTime)
    ensures MessageReceived(sid1, m1, c1, role, t1).value.eventId != MessageSent(sid2, m2, c2, t2).value.eventId
  {
    var p, q := "message_received_", "message_sent_";
    var a, b := MessageReceived(sid1, m1, c1, role, t1).value.eventId, MessageSent(sid2, m2, c2, t2).value.eventId;
    assert a == p + m1 && b == q + m2;
    assert a[8] == p[8] == 'r';
    assert b[8] == q[8] == 's';
  }

  /**
   * The tool-invoked id joins the session id and the tool name with "_", so
   * two different invocations can share one id: session "a_b" with tool "c"
   * and session "a" with tool "b_c", or any other split of the same text.
   */
  lemma ToolInvokedIdsCollide(a: ConversationId, b: string, c: string, parameters: seq<(string, Json)>,
                              result: Option<seq<(string, Json)>>, t: DateTime)
    ensures ToolInvoked(a + "_" + b, c, parameters, result, t).value.eventId
            == ToolInvoked(a, b + "_" + c, parameters, result, t).value.eventId
  {
    var p := "tool_invoked_";
    calc {
      ToolInvoked(a + "_" + b, c, parameters, result, t).value.eventId;
      p + (a + "_" + b) + "_" + c;
      { assert p + (a + "_" + b) + "_" + c == p + a + "_" + b + "_" + c; }
      p + a + "_" + (b + "_" + c);
      ToolInvoked(a, b + "_" + c, parameters, result, t).value.eventId;
    }
  }
}
