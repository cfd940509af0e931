/**
 * The command side: seven command classes, their handlers, and the bus that
 * sends a command to the handler registered for its exact class. Five
 * handlers delegate to an application service with the command's fields; the
 * shell and write handlers answer with a fixed envelope and call nothing.
 */
module CommandHandlers {
  import opened Wrappers
  import opened Errors
  import opened Json
  import opened ValueObjects
  import opened Entities
  import opened Infrastructure
  import opened Application

  datatype Command =
    | CreateSessionCommand(title: string)
    | DeleteSessionCommand(sessionId: string)
    | StopSessionCommand(sessionId: string)
    | SendMessageCommand(sessionId: string, message: string, timestamp: int, eventId: Option<string>)
    | ExecuteShellCommandCommand(sessionId: string, command: string)
    | ReadFileCommand(sessionId: string, filePath: string)
    | WriteFileCommand(sessionId: string, filePath: string, content: string)

  const DefaultTitle := "New Conversation"

  /** `CreateSessionCommand(title=...)`, the argument being optional. */
  function NewCreateSessionCommand(title: Option<string>): (c: Command)
    ensures c.CreateSessionCommand?
    ensures c.title == if title.Some? then title.value else DefaultTitle
  {
    CreateSessionCommand(if title.Some? then title.value else DefaultTitle)
  }

  /** `SendMessageCommand(...)` with `event_id` left out. */
  function NewSendMessageCommand(sessionId: string, message: string, timestamp: int): (c: Command)
    ensures c.SendMessageCommand? && c.eventId.None?
    ensures c.sessionId == sessionId && c.message == message && c.timestamp == timestamp
  {
    SendMessageCommand(sessionId, message, timestamp, None)
  }

  /** `type(command)`, the key of the handler table. */
  datatype CommandType = CreateSessionType | DeleteSessionType | StopSessionType | SendMessageType
                       | ExecuteShellCommandType | ReadFileType | WriteFileType

  function TypeOf(c: Command): CommandType {
    match c
    case CreateSessionCommand(_) => CreateSessionType
    case DeleteSessionCommand(_) => DeleteSessionType
    case StopSessionCommand(_) => StopSessionType
    case SendMessageCommand(_, _, _, _) => SendMessageType
    case ExecuteShellCommandCommand(_, _) => ExecuteShellCommandType
    case ReadFileCommand(_, _) => ReadFileType
    case WriteFileCommand(_, _, _) => WriteFileType
  }

  function ClassName(t: CommandType): string {
    match t
    case CreateSessionType => "CreateSessionCommand"
    case DeleteSessionType => "DeleteSessionCommand"
    case StopSessionType => "StopSessionCommand"
    case SendMessageType => "SendMessageCommand"
    case ExecuteShellCommandType => "ExecuteShellCommandCommand"
    case ReadFileType => "ReadFileCommand"
    case WriteFileType => "WriteFileCommand"
  }

  /** `str(type(command))`. */
  function TypeRepr(t: CommandType): string {
    "<class 'app.application.command_handlers." + ClassName(t) + "'>"
  }

  /** The error of reading attribute `name` on a command that has no such attribute. */
  function NoAttribute(c: Command, name: string): Exc {
    AttributeError("'" + ClassName(TypeOf(c)) + "' object has no attribute '" + name + "'")
  }

  // The attribute reads a handler makes; each fails on a command of a class without it.

  function TitleOf(c: Command): (r: Result<string, Exc>)
    ensures r.Ok? <==> c.CreateSessionCommand?
    ensures r.Ok? ==> r.value == c.title
  {
    if c.CreateSessionCommand? then Ok(c.title) else Err(NoAttribute(c, "title"))
  }

  function SessionIdOf(c: Command): (r: Result<string, Exc>)
    ensures r.Ok? <==> !c.CreateSessionCommand?
    ensures r.Ok? ==> r.value == c.sessionId
  {
    if c.CreateSessionCommand? then Err(NoAttribute(c, "session_id")) else Ok(c.sessionId)
  }

  function MessageOf(c: Command): (r: Result<(string, int, Option<string>), Exc>)
    ensures r.Ok? <==> c.SendMessageCommand?
    ensures r.Ok? ==> r.value == (c.message, c.timestamp, c.eventId)
  {
    if c.SendMessageCommand? then Ok((c.message, c.timestamp, c.eventId)) else Err(NoAttribute(c, "message"))
  }

  function CommandTextOf(c: Command): (r: Result<string, Exc>)
    ensures r.Ok? <==> c.ExecuteShellCommandCommand?
    ensures r.Ok? ==> r.value == c.command
  {
    if c.ExecuteShellCommandCommand? then Ok(c.command) else Err(NoAttribute(c, "command"))
  }

  function FilePathOf(c: Command): (r: Result<string, Exc>)
    ensures r.Ok? <==> c.ReadFileCommand? || c.WriteFileCommand?
    ensures r.Ok? ==> r.value == c.filePath
  {
    if c.ReadFileCommand? || c.WriteFileCommand? then Ok(c.filePath) else Err(NoAttribute(c, "file_path"))
  }

  function ContentOf(c: Command): (r: Result<string, Exc>)
    ensures r.Ok? <==> c.WriteFileCommand?
    ensures r.Ok? ==> r.value == c.content
  {
    if c.WriteFileCommand? then Ok(c.content) else Err(NoAttribute(c, "content"))
  }

  /** The handler classes. */
  datatype HandlerKind = CreateSessionHandler | DeleteSessionHandler | StopSessionHandler | SendMessageHandler
                       | ExecuteShellCommandHandler | ReadFileHandler | WriteFileHandler

  function NativeHandler(t: CommandType): HandlerKind {
    match t
    case CreateSessionType => CreateSessionHandler
    case DeleteSessionType => DeleteSessionHandler
    case StopSessionType => StopSessionHandler
    case SendMessageType => SendMessageHandler
    case ExecuteShellCommandType => ExecuteShellCommandHandler
    case ReadFileType => ReadFileHandler
    case WriteFileType => WriteFileHandler
  }

  /** What a handler does with a command: call a service, or answer by itself. */
  datatype Action =
    | CallCreateSession(title: string)
    | CallDeleteSession(sessionId: string)
    | CallStopSession(sessionId: string)
    | CallProcessChat(sessionId: string, message: string, timestamp: int, eventId: Option<string>)
    | CallViewFile(sessionId: string, filePath: string)
    | Reply(envelope: Envelope)

  /** The shell handler's answer: no command is run. */
  function ShellReply(command: string): Envelope {
    Success(JObject([("command", JString(command)), ("output", JString("Executing: " + command)), ("exit_code", JInt(0))]))
  }

  /** The write handler's answer: no file is written. */
  function WriteReply(filePath: string, content: string): Envelope {
    Success(JObject([("file", JString(filePath)), ("content", JString(content))]))
  }

  /** `handler.handle(command)` up to the service call, attributes read in the handler's order. */
  function HandlerAction(kind: HandlerKind, c: Command): Result<Action, Exc> {
    match kind
    case CreateSessionHandler =>
      var title :- TitleOf(c);
      Ok(CallCreateSession(title))
    case DeleteSessionHandler =>
      var id :- SessionIdOf(c);
      Ok(CallDeleteSession(id))
    case StopSessionHandler =>
      var id :- SessionIdOf(c);
      Ok(CallStopSession(id))
    case SendMessageHandler =>
      var id :- SessionIdOf(c);
      var fields :- MessageOf(c);
      Ok(CallProcessChat(id, fields.0, fields.1, fields.2))
    case ExecuteShellCommandHandler =>
      var command :- CommandTextOf(c);
      Ok(Reply(ShellReply(command)))
    case ReadFileHandler =>
      var id :- SessionIdOf(c);
      var path :- FilePathOf(c);
      Ok(CallViewFile(id, path))
    case WriteFileHandler =>
      var path :- FilePathOf(c);
      var content :- ContentOf(c);
      Ok(Reply(WriteReply(path, content)))
  }

  /**
   * Each handler, given a command of its own class, passes the command's
   * fields to its service unchanged; the shell and write handlers answer
   * with code 0 and call no service.
   */
  lemma NativeHandlerAction(c: Command)
    ensures var a := HandlerAction(NativeHandler(TypeOf(c)), c);
            && a.Ok?
            && (c.CreateSessionCommand? ==> a.value == CallCreateSession(c.title))
            && (c.DeleteSessionCommand? ==> a.value == CallDeleteSession(c.sessionId))
            && (c.StopSessionCommand? ==> a.value == CallStopSession(c.sessionId))
            && (c.SendMessageCommand? ==> a.value == CallProcessChat(c.sessionId, c.message, c.timestamp, c.eventId))
            && (c.ReadFileCommand? ==> a.value == CallViewFile(c.sessionId, c.filePath))
            && (c.ExecuteShellCommandCommand? || c.WriteFileCommand? ==> a.value.Reply? && a.value.envelope.code == 0)
  {
  }

  /** The shell reply echoes the command, reports its output as "Executing: " and the command, and exit code 0. */
  lemma ShellReplyFields(command: string)
    ensures var r := ShellReply(command);
            && r.code == 0 && r.msg == "success" && r.data.JObject?
            && Get(r.data.members, "command") == Some(JString(command))
            && Get(r.data.members, "exit_code") == Some(JInt(0))
            && Get(r.data.members, "output").Some? && Get(r.data.members, "output").value.JString?
            && var output := Get(r.data.members, "output").value.s;
               |output| == |command| + 11 && output[..11] == "Executing: " && output[11..] == command
  {
    var members := ShellReply(command).data.members;
    GetAt(members, 1);
    GetAt(members, 2);
  }

  /** The write reply echoes the path and the content. */
  lemma WriteReplyFields(filePath: string, content: string)
    ensures var r := WriteReply(filePath, content);
            && r.code == 0 && r.data.JObject?
            && Get(r.data.members, "file") == Some(JString(filePath))
            && Get(r.data.members, "content") == Some(JString(content))
  {
    GetAt(WriteReply(filePath, content).data.members, 1);
  }

  class CommandBus {
    var handlers: map<CommandType, HandlerKind>

    constructor ()
      ensures handlers == map[]
    {
      handlers := map[];
    }

    /** `register_handler`: a later registration for a type replaces the earlier one. */
    method RegisterHandler(t: CommandType, handler: HandlerKind)
      modifies this
      ensures handlers == old(handlers)[t := handler]
    {
      handlers := handlers[t := handler];
    }

    /** The handler `send` picks: the one registered for the command's exact type. */
    function Dispatch(c: Command): (r: Result<HandlerKind, Exc>)
      reads this
      ensures TypeOf(c) in handlers ==> r == Ok(handlers[TypeOf(c)])
      ensures TypeOf(c) !in handlers ==> r == Err(ValueError("No handler registered for command type: " + TypeRepr(TypeOf(c))))
    {
      if TypeOf(c) in handlers then Ok(handlers[TypeOf(c)])
      else Err(ValueError("No handler registered for command type: " + TypeRepr(TypeOf(c))))
    }

    /** `Dispatch` and `HandlerAction` together: what `send` does with the command. */
    function Plan(c: Command): (r: Result<Action, Exc>)
      reads this
    {
      var kind :- Dispatch(c);
      HandlerAction(kind, c)
    }

    /**
     * `send`: the handler's answer, which is the service's answer unchanged
     * for a delegating handler. No handler catches, so a dispatch or
     * attribute error is raised to the caller. The uuid and clock inputs of
     * the services are parameters.
     */
    method Send(c: Command, app: ConversationApplicationService, files: FileApplicationService,
                random: seq<nat>, eventRandom: seq<nat>, replyRandom: seq<nat>,
                toolReply: seq<(string, Json)>, now: DateTime)
      returns (r: Result<Envelope, Exc>)
      requires app.Valid() && IsNibbles(random) && IsNibbles(eventRandom) && IsNibbles(replyRandom)
      modifies app.conversations, app.conversations.repository, app.conversations.cache.Values, files.conversations
      ensures Plan(c).Err? ==> r == Err(Plan(c).error)
      ensures Plan(c).Ok? ==>
                r == Ok(ActionAnswer(Plan(c).value, random, replyRandom, toolReply, now,
                                     old(app.conversations.repository.records), old(app.conversations.cache).Keys,
                                     old(files.conversations.repository.records), old(files.conversations.cache).Keys))
      ensures Plan(c).Err? ==> app.conversations.repository.records == old(app.conversations.repository.records)
                               && app.conversations.cache == old(app.conversations.cache)
      ensures Plan(c).Ok? ==> RecordsAfter(Plan(c).value, random, old(app.conversations.repository.records),
                                           app.conversations.repository.records)
      ensures Plan(c).Ok? && !Plan(c).value.CallViewFile? ==>
                CacheAfter(Plan(c).value, old(app.conversations.cache), app.conversations.cache,
                           old(app.conversations.repository.records), now)
      ensures Plan(c).Ok? && Plan(c).value.CallViewFile? ==>
                CacheAfterFind(old(files.conversations.cache), files.conversations.cache, Plan(c).value.sessionId,
                               old(files.conversations.repository.records), now)
    {
      var kind := Dispatch(c);
      if kind.Err? {
        return Err(kind.error);
      }
      var action := HandlerAction(kind.value, c);
      if action.Err? {
        return Err(action.error);
      }
      var answer := Perform(action.value, app, files, random, eventRandom, replyRandom, toolReply, now);
      r := Ok(answer);
    }
  }

  /**
   * The answer to an action, read off the stores before the call: a reply is
   * returned as it is, a new session's id is the generated one, a delete
   * answers by whether the record existed, and a stop, a chat or a file read
   * answers as its service does for the session it finds. The file read
   * goes through the file service's own repository and cache.
   */
  function ActionAnswer(a: Action, random: seq<nat>, replyRandom: seq<nat>, toolReply: seq<(string, Json)>, now: DateTime,
                        records: map<string, SessionRecord>, cached: set<string>,
                        fileRecords: map<string, SessionRecord>, fileCached: set<string>): (r: Envelope)
    requires IsNibbles(random) && IsNibbles(replyRandom)
    ensures a.CallStopSession? ==> r.code != 0
    ensures a.CallDeleteSession? ==> (r.code == 404 <==> a.sessionId != [] && a.sessionId !in records)
    ensures a.CallStopSession? || a.CallProcessChat? ==>
              (r.code == 404 <==> a.sessionId != [] && a.sessionId !in cached && a.sessionId !in records)
    ensures a.CallViewFile? ==> (r.code == 404 <==> a.sessionId != [] && a.sessionId !in fileCached && a.sessionId !in fileRecords)
  {
    match a
    case CallCreateSession(_) => Success(JObject([("session_id", JString(GenerateConversationId(random)))]))
    case CallDeleteSession(id) =>
      if id == [] then Failure("Failed to delete session: ", ValueError("ConversationId cannot be empty"))
      else if id in records then Success(JNull)
      else SessionNotFound
    case CallStopSession(id) => StopAnswer(id, id in cached, records, now)
    case CallProcessChat(id, message, _, _) => ChatAnswer(id, message, random, replyRandom, now, id in cached, records)
    case CallViewFile(id, path) => ViewFileAnswer(id, path, toolReply, now, id in fileCached, fileRecords)
    case Reply(envelope) => envelope
  }

  /**
   * The stored records after an action: a new session's pending record is
   * saved under the generated id, a delete removes the id, and nothing else
   * writes to the store (a stop is refused before its save).
   */
  predicate RecordsAfter(a: Action, random: seq<nat>, before: map<string, SessionRecord>, after: map<string, SessionRecord>)
    requires IsNibbles(random)
  {
    match a
    case CallCreateSession(title) =>
      var id := GenerateConversationId(random);
      && id in after && after == before[id := after[id]]
      && after[id].title == title && after[id].status == "pending" && after[id].events == []
    case CallDeleteSession(id) => if id == [] then after == before else after == before - {id}
    case _ => after == before
  }

  /**
   * The conversation cache after an action other than a file read: a delete
   * drops the id, a stop or a chat keeps the session its lookup reloaded,
   * and nothing else touches it.
   */
  predicate CacheAfter(a: Action, before: map<ConversationId, ConversationSession>, after: map<ConversationId, ConversationSession>,
                       records: map<string, SessionRecord>, now: DateTime)
  {
    match a
    case CallDeleteSession(id) => if id == [] then after == before else after == before - {id}
    case CallStopSession(id) => CacheAfterFind(before, after, id, records, now)
    case CallProcessChat(id, _, _, _) => CacheAfterFind(before, after, id, records, now)
    case _ => after == before
  }

  /** The service call an action stands for. */
  method Perform(a: Action, app: ConversationApplicationService, files: FileApplicationService,
                 random: seq<nat>, eventRandom: seq<nat>, replyRandom: seq<nat>,
                 toolReply: seq<(string, Json)>, now: DateTime)
    returns (answer: Envelope)
    requires app.Valid() && IsNibbles(random) && IsNibbles(eventRandom) && IsNibbles(replyRandom)
    modifies app.conversations, app.conversations.repository, app.conversations.cache.Values, files.conversations
    ensures answer == ActionAnswer(a, random, replyRandom, toolReply, now,
                                   old(app.conversations.repository.records), old(app.conversations.cache).Keys,
                                   old(files.conversations.repository.records), old(files.conversations.cache).Keys)
    ensures RecordsAfter(a, random, old(app.conversations.repository.records), app.conversations.repository.records)
    ensures !a.CallViewFile? ==>
              CacheAfter(a, old(app.conversations.cache), app.conversations.cache, old(app.conversations.repository.records), now)
    ensures a.CallViewFile? ==>
              CacheAfterFind(old(files.conversations.cache), files.conversations.cache, a.sessionId,
                             old(files.conversations.repository.records), now)
    ensures a.CallViewFile? && files.conversations != app.conversations ==> app.conversations.cache == old(app.conversations.cache)
  {
    match a {
      case CallCreateSession(title) =>
        answer := app.CreateSession(title, random, eventRandom, now);
      case CallDeleteSession(id) =>
        answer := app.DeleteSession(id);
      case CallStopSession(id) =>
        answer := app.StopSession(id, now);
      case CallProcessChat(id, message, timestamp, eventId) =>
        answer := app.ProcessChatMessage(id, message, timestamp, eventId, random, eventRandom, replyRandom, now);
      case CallViewFile(id, path) =>
        answer := files.ViewFileContent(id, path, toolReply, now);
      case Reply(envelope) =>
        answer := envelope;
    }
  }
}
