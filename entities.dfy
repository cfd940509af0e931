/**
 * The conversation aggregate. `ConversationSession` and `ShellSession` are
 * mutable dataclasses whose methods append to their lists and reassign their
 * fields, so they are classes here; `Message`, `Event` and `FileOperation` are
 * never changed after construction, so they are values whose constructors
 * check what their `__post_init__` checks. The clock and the random bytes of
 * `uuid4` are parameters.
 */
module Entities {
  import opened Wrappers
  import opened Errors
  import opened Json
  import opened ValueObjects

  // ---------------------------------------------------------------------------
  // Values.
  // ---------------------------------------------------------------------------

  /**
   * A message. Its `__post_init__` only tests that the conversation id is
   * truthy, which a `ConversationId` object always is.
   */
  datatype Message = Message(
    messageId: string,
    conversationId: ConversationId,
    role: Role,
    content: Content,
    timestamp: Timestamp,
    metadata: seq<(string, Json)>)

  const EventTypes: seq<string> := ["message", "title", "plan", "step", "tool", "error", "done"]

  type EventType = s: string | s in EventTypes witness "message"

  const EventTypeError := ValueError("Event type must be one of: ['message', 'title', 'plan', 'step', 'tool', 'error', 'done']")

  datatype Event = Event(
    eventId: string,
    sessionId: ConversationId,
    eventType: EventType,
    data: seq<(string, Json)>,
    timestamp: Timestamp)

  /** `Event(...)`: only the seven real-time event types are accepted. */
  function MakeEvent(eventId: string, sessionId: ConversationId, eventType: string,
                     data: seq<(string, Json)>, timestamp: Timestamp): (r: Result<Event, Exc>)
    ensures r.Ok? <==> eventType in {"message", "title", "plan", "step", "tool", "error", "done"}
    ensures r.Err? ==> r.error == EventTypeError
    ensures r.Ok? ==> r.value.eventId == eventId && r.value.eventType == eventType && r.value.data == data
  {
    if eventType in EventTypes then Ok(Event(eventId, sessionId, eventType, data, timestamp))
    else Err(EventTypeError)
  }

  const OperationTypes: seq<string> := ["read", "write", "delete"]

  type OperationType = s: string | s in OperationTypes witness "read"

  const OperationTypeError := ValueError("Operation type must be one of: ['read', 'write', 'delete']")

  datatype FileOperation = FileOperation(
    filePath: FilePath,
    conversationId: ConversationId,
    operationType: OperationType,
    content: Option<string>,
    timestamp: Timestamp)

  /**
   * `FileOperation(file_path=FilePath(p), ...)`: the path is checked first (it
   * is built as an argument), then the operation type, which must be read,
   * write or delete.
   */
  function MakeFileOperation(filePath: string, conversationId: ConversationId, operationType: string,
                             content: Option<string>, now: DateTime): (r: Result<FileOperation, Exc>)
    ensures r.Ok? <==> MakeFilePath(filePath).Ok? && operationType in {"read", "write", "delete"}
    ensures MakeFilePath(filePath).Err? ==> r == Err(MakeFilePath(filePath).error)
    ensures MakeFilePath(filePath).Ok? && operationType !in {"read", "write", "delete"} ==> r == Err(OperationTypeError)
    ensures r.Ok? ==> r.value.filePath == filePath && r.value.operationType == operationType && r.value.content == content
  {
    var path :- MakeFilePath(filePath);
    if operationType in OperationTypes then Ok(FileOperation(path, conversationId, operationType, content, Timestamp(now)))
    else Err(OperationTypeError)
  }

  /** One entry of a shell console: the `{"ps1", "command", "output"}` dict. */
  datatype ConsoleEntry = ConsoleEntry(ps1: string, command: string, output: string)

  /** `get_latest_output()` of a shell: the output of its last console entry, `""` for none. */
  function LatestOutputOf(console: seq<ConsoleEntry>): (r: string)
    ensures console != [] ==> r == console[|console| - 1].output
    ensures console == [] ==> r == ""
  {
    if console == [] then "" else console[|console| - 1].output
  }

  /** `str(MessageId(v))`: the dataclass repr, which `add_event` uses as the event id. */
  function MessageIdRepr(id: MessageId): (r: string)
    ensures |r| == |id| + 19
  {
    "MessageId(value='" + id + "')"
  }

  /**
   * The message `add_message` builds: the role is checked before the content,
   * and a falsy metadata argument becomes `{}`.
   */
  function NewMessage(conversationId: ConversationId, role: string, content: string,
                      metadata: Option<seq<(string, Json)>>, random: seq<nat>, now: DateTime): (r: Result<Message, Exc>)
    requires IsNibbles(random)
    ensures r.Ok? <==> MakeRole(role).Ok? && MakeContent(content).Ok?
    ensures MakeRole(role).Err? ==> r == Err(RoleError)
    ensures MakeRole(role).Ok? && MakeContent(content).Err? ==> r == Err(MakeContent(content).error)
    ensures r.Ok? ==> r.value.role == role && r.value.content == content
    ensures r.Ok? ==> r.value.conversationId == conversationId && r.value.timestamp == Timestamp(now)
    ensures r.Ok? ==> r.value.metadata == (if metadata.Some? then metadata.value else [])
    ensures r.Ok? ==> r.value.messageId == Uuid4(random)
  {
    var id := GenerateMessageId(random);
    var validRole :- MakeRole(role);
    var validContent :- MakeContent(content);
    Ok(Message(id, conversationId, validRole, validContent, Timestamp(now),
               if metadata.Some? then metadata.value else []))
  }

  // ---------------------------------------------------------------------------
  // Shell sessions.
  // ---------------------------------------------------------------------------

  class ShellSession {
    const shellSessionId: string
    const conversationId: ConversationId
    var sessionId: Option<string>
    var console: seq<ConsoleEntry>
    var createdAt: Timestamp
    var lastUpdated: Timestamp

    /** `ShellSession(shell_session_id, conversation_id)`: an empty console, both times now. */
    constructor New(shellSessionId: string, conversationId: ConversationId, now: DateTime)
      ensures this.shellSessionId == shellSessionId && this.conversationId == conversationId
      ensures sessionId == None && console == []
      ensures createdAt == Timestamp(now) && lastUpdated == Timestamp(now)
    {
      this.shellSessionId := shellSessionId;
      this.conversationId := conversationId;
      sessionId := None;
      console := [];
      createdAt := Timestamp(now);
      lastUpdated := Timestamp(now);
    }

    /** The keyword form the repository uses, with both times given. */
    constructor Restore(shellSessionId: string, conversationId: ConversationId, createdAt: Timestamp, lastUpdated: Timestamp)
      ensures this.shellSessionId == shellSessionId && this.conversationId == conversationId
      ensures sessionId == None && console == []
      ensures this.createdAt == createdAt && this.lastUpdated == lastUpdated
    {
      this.shellSessionId := shellSessionId;
      this.conversationId := conversationId;
      sessionId := None;
      console := [];
      this.createdAt := createdAt;
      this.lastUpdated := lastUpdated;
    }

    /** The output of the last console entry, or "" for an empty console. */
    function LatestOutput(): (r: string)
      reads this
      ensures console == [] ==> r == ""
      ensures console != [] ==> r == console[|console| - 1].output
    {
      LatestOutputOf(console)
    }

    /** Appends one entry; its output becomes the latest output. */
    method AddConsoleEntry(ps1: string, command: string, output: string, now: DateTime)
      modifies this`console, this`lastUpdated
      ensures console == old(console) + [ConsoleEntry(ps1, command, output)]
      ensures LatestOutput() == output
      ensures lastUpdated == Timestamp(now)
    {
      console := console + [ConsoleEntry(ps1, command, output)];
      lastUpdated := Timestamp(now);
    }
  }

  // ---------------------------------------------------------------------------
  // The aggregate root.
  // ---------------------------------------------------------------------------

  class ConversationSession {
    const sessionId: ConversationId
    var title: string
    var userId: Option<UserId>
    var messages: seq<Message>
    var events: seq<Event>
    var status: Status
    var shellSessions: seq<ShellSession>
    var fileOperations: seq<FileOperation>
    var createdAt: Timestamp
    var lastUpdated: Timestamp
    var unreadMessageCount: int

    /** `ConversationSession(session_id, title)`: pending, nothing read or unread yet. */
    constructor New(sessionId: ConversationId, title: string, now: DateTime)
      ensures this.sessionId == sessionId && this.title == title && userId == None
      ensures messages == [] && events == [] && shellSessions == [] && fileOperations == []
      ensures status == "pending" && unreadMessageCount == 0
      ensures createdAt == Timestamp(now) && lastUpdated == Timestamp(now)
    {
      this.sessionId := sessionId;
      this.title := title;
      userId := None;
      messages := [];
      events := [];
      status := "pending";
      shellSessions := [];
      fileOperations := [];
      createdAt := Timestamp(now);
      lastUpdated := Timestamp(now);
      unreadMessageCount := 0;
    }

    /** The keyword form the repository uses when it rebuilds a session. */
    constructor Restore(sessionId: ConversationId, title: string, status: Status, unreadMessageCount: int, now: DateTime)
      ensures this.sessionId == sessionId && this.title == title && userId == None
      ensures messages == [] && events == [] && shellSessions == [] && fileOperations == []
      ensures this.status == status && this.unreadMessageCount == unreadMessageCount
      ensures createdAt == Timestamp(now) && lastUpdated == Timestamp(now)
    {
      this.sessionId := sessionId;
      this.title := title;
      userId := None;
      messages := [];
      events := [];
      this.status := status;
      shellSessions := [];
      fileOperations := [];
      createdAt := Timestamp(now);
      lastUpdated := Timestamp(now);
      this.unreadMessageCount := unreadMessageCount;
    }

    /**
     * `add_message`: on success exactly one message is appended and returned;
     * a rejected role or content raises before anything changes.
     */
    method AddMessage(role: string, content: string, metadata: Option<seq<(string, Json)>>,
                      random: seq<nat>, now: DateTime) returns (r: Result<Message, Exc>)
      requires IsNibbles(random)
      modifies this`messages, this`lastUpdated
      ensures r == NewMessage(sessionId, role, content, metadata, random, now)
      ensures r.Ok? ==> messages == old(messages) + [r.value] && lastUpdated == Timestamp(now)
      ensures r.Err? ==> messages == old(messages) && lastUpdated == old(lastUpdated)
    {
      r := NewMessage(sessionId, role, content, metadata, random, now);
      if r.Ok? {
        messages := messages + [r.value];
        lastUpdated := Timestamp(now);
      }
    }

    /**
     * `add_event`: the id is the repr of a fresh `MessageId`; a type outside
     * the seven real-time types raises and leaves the events unchanged.
     */
    method AddEvent(eventType: string, data: seq<(string, Json)>, random: seq<nat>, now: DateTime)
      returns (r: Result<Event, Exc>)
      requires IsNibbles(random)
      modifies this`events, this`lastUpdated
      ensures r == MakeEvent(MessageIdRepr(GenerateMessageId(random)), sessionId, eventType, data, Timestamp(now))
      ensures r.Ok? ==> events == old(events) + [r.value] && lastUpdated == Timestamp(now)
      ensures r.Err? ==> events == old(events) && lastUpdated == old(lastUpdated)
    {
      r := MakeEvent(MessageIdRepr(GenerateMessageId(random)), sessionId, eventType, data, Timestamp(now));
      if r.Ok? {
        events := events + [r.value];
        lastUpdated := Timestamp(now);
      }
    }

    /** `create_shell_session`: a new, empty shell is appended and returned. */
    method CreateShellSession(shellSessionId: string, now: DateTime) returns (shell: ShellSession)
      modifies this`shellSessions, this`lastUpdated
      ensures fresh(shell) && shellSessions == old(shellSessions) + [shell]
      ensures shell.shellSessionId == shellSessionId && shell.conversationId == sessionId
      ensures shell.console == [] && shell.sessionId == None
      ensures shell.createdAt == Timestamp(now) && shell.lastUpdated == Timestamp(now)
      ensures lastUpdated == Timestamp(now)
    {
      shell := new ShellSession.New(shellSessionId, sessionId, now);
      shellSessions := shellSessions + [shell];
      lastUpdated := Timestamp(now);
    }

    /** `add_file_operation`: appends the operation unless its path or type is refused. */
    method AddFileOperation(filePath: string, operationType: string, content: Option<string>, now: DateTime)
      returns (r: Result<FileOperation, Exc>)
      modifies this`fileOperations, this`lastUpdated
      ensures r == MakeFileOperation(filePath, sessionId, operationType, content, now)
      ensures r.Ok? ==> fileOperations == old(fileOperations) + [r.value] && lastUpdated == Timestamp(now)
      ensures r.Err? ==> fileOperations == old(fileOperations) && lastUpdated == old(lastUpdated)
    {
      r := MakeFileOperation(filePath, sessionId, operationType, content, now);
      if r.Ok? {
        fileOperations := fileOperations + [r.value];
        lastUpdated := Timestamp(now);
      }
    }

    /** `get_latest_message`: None exactly when there are no messages, else the last one. */
    function LatestMessage(): (r: Option<Message>)
      reads this
      ensures r.None? <==> messages == []
      ensures r.Some? ==> r.value == messages[|messages| - 1]
    {
      if messages == [] then None else Some(messages[|messages| - 1])
    }

    /** `update_status`: a refused status raises and leaves the status as it was. */
    method UpdateStatus(newStatus: string, now: DateTime) returns (failure: Option<Exc>)
      modifies this`status, this`lastUpdated
      ensures failure.None? <==> MakeStatus(newStatus).Ok?
      ensures failure.Some? ==> failure.value == StatusError
      ensures status == (if failure.None? then newStatus else old(status))
      ensures lastUpdated == (if failure.None? then Timestamp(now) else old(lastUpdated))
    {
      var s := MakeStatus(newStatus);
      if s.Ok? {
        status := s.value;
        lastUpdated := Timestamp(now);
        failure := None;
      } else {
        failure := Some(s.error);
      }
    }

    method IncrementUnreadCount()
      modifies this`unreadMessageCount
      ensures unreadMessageCount == old(unreadMessageCount) + 1
    {
      unreadMessageCount := unreadMessageCount + 1;
    }

    method ClearUnreadCount()
      modifies this`unreadMessageCount
      ensures unreadMessageCount == 0
    {
      unreadMessageCount := 0;
    }
  }
}
