# Sheikh conversation backend, modelled in Dafny

This project models the conversation core of the Sheikh backend. That core is a FastAPI
service. It keeps chat sessions with their messages, real-time events, shell consoles and
file operations, persists them in a JSON file, and answers every call with a
`{code, msg, data}` envelope. Around that core the project also models:

- the deterministic parts of the AI-provider service;
- the load-testing client.

Each Dafny module follows one source file:

| module | source file | form |
|---|---|---|
| `ValueObjects` | `backend/app/domain/value_objects.py` | subset types and constructor functions that return `Result` with the exact `ValueError` text |
| `Entities` | `backend/app/domain/entities.py` | `ConversationSession` and `ShellSession` are classes whose methods append and reassign; `Message`, `Event` and `FileOperation` are values |
| `DomainEvents` | `backend/app/domain/events.py` | pure builders of id, type and data |
| `Infrastructure` | `backend/app/infrastructure/services.py` | the repository (a map from session id to stored record, plus key order), the caching conversation service, the event service with its per-type handler lists, and the canned stream |
| `Application` | `backend/app/application/services.py` | envelope logic, session summaries, the chat, the shell and file views |
| `CommandHandlers` | `backend/app/application/command_handlers/__init__.py` | exact-type dispatch table and delegating handlers |
| `QueryHandlers` | `backend/app/application/query_handlers.py` | exact-type dispatch table, delegating handlers and the history projection |
| `Routers` | `backend/app/interfaces/api/routers.py` | request checks and the event-stream body of the chat route |
| `AiService` | `backend/app/services/ai_service.py` | provider dispatch and error rewrapping, generation-config keys, multi-modal part flattening, health and listings |
| `LoadTest` | `load_test.py` | URL joining, request classification, counters, error tally and verdict |

Five helper modules carry what Python gives for free:

- `Wrappers`: `Option` and `Result`.
- `Text`: `str.strip`, `isspace`, `startswith`, `upper` and `str(int)`.
- `Errors`: exception values and their `str()`.
- `Json`: Python truthiness, `dict.get` and `json.dumps`.
- `Sse`: the `text/event-stream` frame format. Its parser follows section 9.2 (Server-sent events) of the WHATWG HTML Living Standard. The lemma `Sse.ParseStream` proves that a client reads back exactly the frames that were written.

The model replaces nondeterminism with parameters:

- The clock is a `now: DateTime` parameter.
- The random bytes of `uuid.uuid4()` are 32 hexadecimal nibbles (`random: seq<nat>`).
- Python's per-process `hash()` is an `int` parameter.
- Whether the Google SDK is installed, and what the SDK answers, are parameters.
- The HTTP transport of the load tester is a parameter: a status code, or the text of an exception.

## Model

| member | source | states |
|---|---|---|
| ValueObjects.MakeMessageId | backend/app/domain/value_objects.py:29-31 | accepted exactly when non-empty, keeping the value; otherwise `ValueError("MessageId cannot be empty")` |
| ValueObjects.MakeConversationId | backend/app/domain/value_objects.py:44-46 | accepted exactly when non-empty; otherwise `ValueError("ConversationId cannot be empty")` |
| ValueObjects.MakeUserId | backend/app/domain/value_objects.py:59-61 | accepted exactly when non-empty; otherwise `ValueError("UserId cannot be empty")` |
| ValueObjects.Uuid4 | backend/app/domain/value_objects.py:36 | `str(uuid4())` is 36 characters, with dashes at 8, 13, 18 and 23, version digit 4 at 14, and variant digit 8, 9, a or b at 19 |
| ValueObjects.GenerateMessageId | backend/app/domain/value_objects.py:33-36 | a generated id is 36 characters and passes the MessageId check |
| ValueObjects.GenerateConversationId | backend/app/domain/value_objects.py:48-51 | a generated id is 36 characters and passes the ConversationId check |
| ValueObjects.MakeContent | backend/app/domain/value_objects.py:69-74 | accepted exactly when not blank and at most 10000 characters; blank gives "Content cannot be empty"; longer gives "Content too long" |
| ValueObjects.MakeRole | backend/app/domain/value_objects.py:82-85 | accepted exactly for "user", "assistant" and "system" |
| ValueObjects.MakeCommand | backend/app/domain/value_objects.py:104-106 | accepted exactly when not empty or blank; otherwise "Command cannot be empty" |
| ValueObjects.MakeFilePath | backend/app/domain/value_objects.py:114-116 | accepted exactly when not empty or blank; otherwise "FilePath cannot be empty" |
| ValueObjects.MakeUrl | backend/app/domain/value_objects.py:124-126 | accepted exactly when the text starts with "http://" or "https://" |
| ValueObjects.MakeStatus | backend/app/domain/value_objects.py:134-137 | accepted exactly for pending, running, completed, failed and cancelled |
| ValueObjects.StoppedIsNoStatus | backend/app/domain/value_objects.py:134-137 | "stopped" is refused as a status |
| Entities.MakeEvent | backend/app/domain/entities.py:38-41 | an event is built exactly for the seven real-time types, keeping id, type and data; otherwise the fixed `ValueError` |
| Entities.MakeFileOperation | backend/app/domain/entities.py:80-83 | built exactly when the path is not blank and the type is read, write or delete; the path is checked first |
| Entities.NewMessage | backend/app/domain/entities.py:103-110 | built exactly when role and content are valid, role checked first; it carries that role, content, session id, time, a fresh uuid id, and metadata defaulting to `{}` |
| Entities.ShellSession.New | backend/app/domain/entities.py:44-52 | a new shell has an empty console, no session id, and both times set to now |
| Entities.ShellSession.Restore | backend/app/infrastructure/services.py:137-142 | the keyword form sets the given id, conversation and times, with an empty console |
| Entities.ShellSession.LatestOutput | backend/app/domain/entities.py:64-68 | "" for an empty console, else the last entry's output |
| Entities.ShellSession.AddConsoleEntry | backend/app/domain/entities.py:54-62 | appends exactly one entry, whose output becomes the latest output; the update time is now |
| Entities.ConversationSession.New | backend/app/domain/entities.py:86-99 | a new session is pending, with unread count 0 and every list empty |
| Entities.ConversationSession.Restore | backend/app/infrastructure/services.py:101-106 | the keyword form keeps the given id, title, status and unread count, with every list empty |
| Entities.ConversationSession.AddMessage | backend/app/domain/entities.py:101-113 | on success exactly one message, the one returned, is appended; a refused role or content leaves messages and time unchanged |
| Entities.ConversationSession.AddEvent | backend/app/domain/entities.py:115-126 | the event id is the repr of a fresh MessageId; a refused type leaves events unchanged; otherwise the event is appended |
| Entities.ConversationSession.CreateShellSession | backend/app/domain/entities.py:128-136 | a fresh empty shell of this session is appended and returned |
| Entities.ConversationSession.AddFileOperation | backend/app/domain/entities.py:138-148 | appends the operation unless its path or type is refused, in which case nothing changes |
| Entities.ConversationSession.LatestMessage | backend/app/domain/entities.py:150-154 | None exactly when there are no messages, else the last one |
| Entities.ConversationSession.UpdateStatus | backend/app/domain/entities.py:156-159 | a valid status is set with the time; a refused one raises the status error and leaves status and time unchanged |
| Entities.ConversationSession.IncrementUnreadCount | backend/app/domain/entities.py:161-163 | the count grows by exactly one |
| Entities.ConversationSession.ClearUnreadCount | backend/app/domain/entities.py:165-167 | the count becomes 0 |
| DomainEvents.MakeDomainEvent | backend/app/domain/events.py:20-22 | built exactly when the id is non-empty; otherwise "Event ID cannot be empty" |
| DomainEvents.SessionCreated | backend/app/domain/events.py:30-38 | always built, with id "session_created_" + session id, type "session_created" and data title |
| DomainEvents.MessageReceived | backend/app/domain/events.py:47-60 | always built, with id "message_received_" + message id, and data holding message_id, content and role |
| DomainEvents.MessageSent | backend/app/domain/events.py:68-79 | always built, with id "message_sent_" + message id, and data holding message_id and content but no role |
| DomainEvents.ToolInvoked | backend/app/domain/events.py:89-103 | always built, with id "tool_invoked_" + session + "_" + tool, and data holding tool_name, parameters and result (None when absent) |
| DomainEvents.ShellCommandExecuted | backend/app/domain/events.py:113-127 | always built, with id "shell_executed_" + session + "_" + the command's hash, and data holding command, output and exit_code |
| DomainEvents.FileOperationDone | backend/app/domain/events.py:137-151 | always built, with id "file_op_" + session + "_" + type + "_" + the path's hash, and data holding path, type and content |
| DomainEvents.SessionStatusChanged | backend/app/domain/events.py:160-172 | always built, with id "status_changed_" + session + "_" + new status, and data holding old and new status |
| DomainEvents.ErrorOccurred | backend/app/domain/events.py:181-193 | always built, with id "error_" + session + "_" + the message's hash, and data holding message and error type |
| DomainEvents.MessageReceivedIdsDistinct | backend/app/domain/events.py:49 | two received-message events share an id only if they carry the same message id |
| DomainEvents.ReceivedNeverSent | backend/app/domain/events.py:49-70 | a received-message id never equals a sent-message id |
| DomainEvents.ToolInvokedIdsCollide | backend/app/domain/events.py:91 | session "a_b" with tool "c" and session "a" with tool "b_c" get the same tool-invoked id |
| Infrastructure.DecodeMessage | backend/app/infrastructure/services.py:113-120 | a stored message loads exactly when its role and content pass their checks, and then encodes back to the same record |
| Infrastructure.DecodeEvent | backend/app/infrastructure/services.py:126-132 | a stored event loads exactly when its type is one of the seven, and then encodes back to the same record |
| Infrastructure.EncodeSaveable | backend/app/infrastructure/services.py:39-86 | every record `save_session` writes has a valid id, status, roles, contents and event types |
| Infrastructure.DecodeMessagesEncoded | backend/app/infrastructure/services.py:109-121 | saved messages all load again, and in the same order |
| Infrastructure.DecodeEventsEncoded | backend/app/infrastructure/services.py:125-133 | saved events all load again, and in the same order |
| Infrastructure.ReloadRoundTrip | backend/app/infrastructure/services.py:91-146 | loading a saved record gives back id, title, status, unread count, messages, events and shells; file operations come back empty and both times become the load time |
| Infrastructure.ListEntry | backend/app/infrastructure/services.py:167-170 | one stored record contributes at most one session to the listing |
| Infrastructure.LoadMessages | backend/app/infrastructure/services.py:109-121 | the append loop yields exactly the decoded messages, or the first error |
| Infrastructure.LoadEvents | backend/app/infrastructure/services.py:125-133 | the append loop yields exactly the decoded events, or the first error |
| Infrastructure.RestoreShells | backend/app/infrastructure/services.py:136-144 | the shells rebuilt are fresh objects and encode back to the stored shell records, in order |
| Infrastructure.FileConversationRepository.constructor | backend/app/infrastructure/services.py:25-37 | a fresh store holds no sessions |
| Infrastructure.EncodeMessagesAppend | backend/app/infrastructure/services.py:46-55 | messages appended to a session are written after the ones it had |
| Infrastructure.FileConversationRepository.SaveSession | backend/app/infrastructure/services.py:39-89 | the record is written under the session id, replacing an earlier one in place; every other id keeps its record |
| Infrastructure.FileConversationRepository.LoadSession | backend/app/infrastructure/services.py:91-146 | None for an unknown id; otherwise a fresh session whose record is the reloaded one, or the first validation error |
| Infrastructure.FileConversationRepository.DeleteSession | backend/app/infrastructure/services.py:148-160 | False and no change for an unknown id; otherwise exactly that key is removed, the order of the rest kept |
| Infrastructure.FileConversationRepository.LoadEntry | backend/app/infrastructure/services.py:167-170 | one turn of the listing loop agrees with `ListEntry` |
| Infrastructure.FileConversationRepository.ListSessions | backend/app/infrastructure/services.py:162-172 | one fresh session per stored record, in insertion order, each encoding to its listed record; or the first error |
| Infrastructure.ConversationRepositoryService.constructor | backend/app/infrastructure/services.py:184-186 | the cache starts empty |
| Infrastructure.ConversationRepositoryService.CreateSession | backend/app/infrastructure/services.py:188-197 | a pending session under a generated id is saved; only that record changes, and nothing is cached |
| Infrastructure.ConversationRepositoryService.GetSession | backend/app/infrastructure/services.py:199-209 | a cached id returns the cached object and leaves the cache alone; on a miss only a found session is cached |
| Infrastructure.ConversationRepositoryService.ListSessions | backend/app/infrastructure/services.py:211-213 | the repository's listing, with the cache neither read nor filled |
| Infrastructure.ConversationRepositoryService.DeleteSession | backend/app/infrastructure/services.py:215-221 | the cache entry goes whatever the repository answers; the answer is whether the record existed |
| Infrastructure.ConversationRepositoryService.StopSession | backend/app/infrastructure/services.py:223-231 | False for an unknown id; for a known id the status error is raised and nothing is saved; it never answers True; every cached session keeps all its fields, and a session reloaded before the error stays cached under its id, encoding to its reloaded record |
| Infrastructure.InvocationsPrefix | backend/app/infrastructure/services.py:427-429 | the handlers awaited are a prefix of the registered ones: all of them when none raises, otherwise up to and including the first that raises |
| Infrastructure.EventManagementService.constructor | backend/app/infrastructure/services.py:417-418 | no handler is registered |
| Infrastructure.EventManagementService.HandlersFor | backend/app/infrastructure/services.py:427-428 | the handler list for a type is its registrations in order |
| Infrastructure.EventManagementService.RegisterEventHandler | backend/app/infrastructure/services.py:442-446 | appends to that type's list; every other type keeps its list |
| Infrastructure.EventManagementService.CreateEvent | backend/app/infrastructure/services.py:420-435 | a refused event gives False with no handler called and the events unchanged; otherwise the event is appended, the handlers are awaited in order until one raises, and the answer is True exactly when none raises |
| Infrastructure.Notify | backend/app/infrastructure/services.py:427-429 | the handler loop awaits exactly `Invocations`, and succeeds exactly when no handler raises |
| Infrastructure.StreamPayloads | backend/app/infrastructure/services.py:389-411 | seven events: a processing message, the four steps in order, the reply echoing the message, then done |
| Infrastructure.StreamConversationParses | backend/app/infrastructure/services.py:389-411 | a client parsing the body receives exactly those seven events, whatever the message |
| Application.Lookup | backend/app/application/services.py:66-67 | an empty id raises before the lookup; otherwise the cache, then the repository; it raises, finds nothing or finds a session exactly as `Find` says, a reloaded session carries its record's id and messages, and every cached session keeps all its fields |
| Application.EventsJson | backend/app/application/services.py:82-90 | one dict per event, in order, with the ISO time text |
| Application.EventsAsWritten | backend/app/application/services.py:87 | as written, the events list is produced only for a session without events |
| Application.IsoformatFinding | backend/app/application/services.py:82-90 | as written and as intended agree exactly on sessions without events |
| Application.SummaryOfRecord | backend/app/application/services.py:105-122 | a session's summary depends only on the record `save_session` would store for it |
| Application.SummaryLatest | backend/app/application/services.py:107-113 | latest_message is "" exactly when there are no messages, and then latest_message_at is 0; otherwise both come from the last message |
| Application.SummaryList | backend/app/application/services.py:105-122 | the loop yields one summary per session, in order |
| Application.AiResponse | backend/app/application/services.py:237-240 | the reply is 117 characters longer than the user's text |
| Application.AiResponseQuotes | backend/app/application/services.py:240 | the reply quotes the user's text whole, right after the opening |
| Application.AiResponseContent | backend/app/application/services.py:220 | the reply is valid content exactly when the user's text has at most 9883 characters |
| Application.AssistantTooLong | backend/app/application/services.py:205-220 | a text of 9884 to 10000 visible characters passes as content, but its reply is "Content too long" |
| Application.ChatOutcomeSpec | backend/app/application/services.py:204-235 | a chat succeeds exactly for non-blank text of at most 9883 characters, appending the user's message and then the quoting reply; any failure is a 500 with no data |
| Application.ChatOutcomeCode | backend/app/application/services.py:204-235 | a chat on a found session answers 0 or 500 |
| Application.ChatTooLongKeepsUserMessage | backend/app/application/services.py:204-235 | when the reply is too long, the user's message stays appended and the answer is the 500 |
| Application.ChatAnswerAnySession | backend/app/application/services.py:204-229 | the chat's answer does not depend on the id of the session it runs on |
| Application.Find | backend/app/application/services.py:193-201 | a lookup finds nothing exactly for a non-empty id neither cached nor stored; it finds a session exactly for a cached id or a stored record that reloads; otherwise it raises |
| Application.CacheOnlyGrows | backend/app/infrastructure/services.py:199-209 | a lookup keeps every cached session, adds at most the id looked up, and a session it found is answered from the cache by the next lookup |
| Application.StopAnswer | backend/app/application/services.py:163-189 | never code 0; 404 exactly when no session is found |
| Application.ChatAnswer | backend/app/application/services.py:191-235 | 404 exactly when no session is found; code 0 only for a found session and a non-blank text of at most 9883 characters |
| Application.ViewFileAnswer | backend/app/application/services.py:301-330 | 404 exactly when no session is found; code 0 exactly when one is, and then the "file" is the path asked for |
| Application.FirstShell | backend/app/application/services.py:263-268 | over any list of shell records: None exactly when no record has the id, otherwise the position of the first one that has it |
| Application.ShellReply | backend/app/application/services.py:263-289 | over any list of shell records: 404 "Shell session not found" exactly when no record has the id; otherwise code 0 with the latest output, the id and the console of the first record that has it |
| Application.ViewShellAnswer | backend/app/application/services.py:250-291 | 404 "Session not found" exactly when no session is found; the lookup's 500 when it raises; for a cached session the search of its shells, and for a reloaded one the search of the shell records stored with it |
| Application.FindShellAgrees | backend/app/application/services.py:263-268 | the loop over a session's shells stops at the record `FirstShell` finds in their saved records, with the same console |
| Infrastructure.EncodeShellsAt | backend/app/infrastructure/services.py:65-73 | the record written for each shell holds that shell's id, console and times |
| Application.SessionDataOfRecord | backend/app/application/services.py:82-90 | what `get_session` shows of a session equals what its saved record holds |
| Application.GetSessionOfRecord | backend/app/application/services.py:65-90 | on a stored, uncached session: code 0 exactly when the record reloads, and then the data of the reloaded record |
| Application.ListAnswer | backend/app/application/services.py:105-136 | code 0 exactly when the listing succeeds, and then "sessions" holds one record summary per listed session, in order |
| Application.ConversationApplicationService.constructor | backend/app/application/services.py:29-37 | keeps the conversation and event services |
| Application.ConversationApplicationService.CreateSession | backend/app/application/services.py:39-61 | code 0 with the generated session id; the record is saved pending, without events, and no other record changes |
| Application.ConversationApplicationService.GetSession | backend/app/application/services.py:63-98 | 500 for an empty id or an unloadable record; 404 exactly for an unknown id; a cached session gives its id, title and events, and an uncached stored one the data of its reloaded record (events written with the corrected ISO text, see Findings); only a reloaded session is added to the cache |
| Application.ConversationApplicationService.ListSessions | backend/app/application/services.py:100-136 | the answer is `ListAnswer` of the repository listing: one summary per stored session, in insertion order, or the 500 of the listing's error |
| Application.ConversationApplicationService.DeleteSession | backend/app/application/services.py:138-161 | 404 when no record existed, code 0 when one was removed, 500 for an empty id |
| Application.ConversationApplicationService.StopSession | backend/app/application/services.py:163-189 | the answer is `StopAnswer` of the session it finds, so never code 0; every cached session keeps all its fields (status and update time included) and nothing is saved; a reloaded session is added to the cache (`CacheAfterFind`), encoding to its reloaded record |
| Application.ConversationApplicationService.Chat | backend/app/application/services.py:204-235 | the answer and the appended messages are those of `ChatOutcome`; the events are unchanged |
| Application.ConversationApplicationService.Reply | backend/app/application/services.py:207-229 | once the user's message is stored, the reply is appended and returned with its id, or the 500 leaves the messages unchanged |
| Application.ConversationApplicationService.NotifyReceived | backend/app/application/services.py:208-214 | the "message_received" event is refused, so the events and the time are unchanged |
| Application.ConversationApplicationService.ProcessChatMessage | backend/app/application/services.py:191-235 | the answer is `ChatAnswer` of the session it finds, cached or reloaded; a cached session gets the chat's messages appended; a reloaded session is added to the cache, holding its reloaded messages followed by the chat's; every other cached session object keeps all its fields |
| Application.FindShell | backend/app/application/services.py:263-268 | the position of the first shell with the id, or None exactly when no shell has it |
| Application.ShellApplicationService.constructor | backend/app/application/services.py:246-248 | keeps the conversation service |
| Application.ShellApplicationService.ViewShellSession | backend/app/application/services.py:250-291 | the answer is `ViewShellAnswer` over the cached session's shells, or over the records of a reloaded one; for a cached session, 404 "Shell session not found" exactly when no shell has the id, otherwise the first such shell's latest output, id and console; a reloaded session is added to the cache |
| Application.FileApplicationService.constructor | backend/app/application/services.py:297-299 | keeps the conversation service |
| Application.FileApplicationService.ViewFileContent | backend/app/application/services.py:301-330 | the answer is `ViewFileAnswer` of the session it finds: the tool's "content" ("" when absent) next to the path asked for, 404 for no session, or the 500 of the lookup; a reloaded session is added to the cache |
| CommandHandlers.NewCreateSessionCommand | backend/app/application/command_handlers/__init__.py:23-24 | the title defaults to "New Conversation" |
| CommandHandlers.NewSendMessageCommand | backend/app/application/command_handlers/__init__.py:44-48 | the fields are kept, and the event id defaults to None |
| CommandHandlers.TitleOf | backend/app/application/command_handlers/__init__.py:93 | `command.title` succeeds exactly on a create-session command |
| CommandHandlers.SessionIdOf | backend/app/application/command_handlers/__init__.py:104 | `command.session_id` succeeds on every command class except create-session |
| CommandHandlers.MessageOf | backend/app/application/command_handlers/__init__.py:126-131 | message, timestamp and event id are read exactly from a send-message command |
| CommandHandlers.CommandTextOf | backend/app/application/command_handlers/__init__.py:147-148 | `command.command` succeeds exactly on a shell command |
| CommandHandlers.FilePathOf | backend/app/application/command_handlers/__init__.py:162 | `command.file_path` succeeds exactly on read-file and write-file commands |
| CommandHandlers.ContentOf | backend/app/application/command_handlers/__init__.py:179 | `command.content` succeeds exactly on a write-file command |
| CommandHandlers.NativeHandlerAction | backend/app/application/command_handlers/__init__.py:91-181 | each handler passes its own command's fields to its service unchanged; the shell and write handlers answer code 0 and call nothing |
| CommandHandlers.ShellReplyFields | backend/app/application/command_handlers/__init__.py:140-151 | the shell reply echoes the command, with output "Executing: " + command and exit code 0 |
| CommandHandlers.WriteReplyFields | backend/app/application/command_handlers/__init__.py:171-181 | the write reply echoes the path and the content with code 0 |
| CommandHandlers.CommandBus.constructor | backend/app/application/command_handlers/__init__.py:187-188 | no handler is registered |
| CommandHandlers.CommandBus.RegisterHandler | backend/app/application/command_handlers/__init__.py:190-192 | a later registration for a type replaces the earlier one |
| CommandHandlers.CommandBus.Dispatch | backend/app/application/command_handlers/__init__.py:196-201 | the handler registered for the exact type, or `ValueError` naming the type |
| CommandHandlers.CommandBus.Send | backend/app/application/command_handlers/__init__.py:194-202 | a dispatch or attribute error propagates; otherwise the answer is `ActionAnswer` of the planned action over the stores as they were before the call, and the records and cache change as `RecordsAfter` and `CacheAfter` say; a refused command changes neither |
| CommandHandlers.ActionAnswer | backend/app/application/command_handlers/__init__.py:91-181 | a stop never answers 0; a delete answers 404 exactly for a non-empty id not stored; a stop or chat exactly for a non-empty id neither cached nor stored; a file read the same over the file service's stores |
| CommandHandlers.Perform | backend/app/application/command_handlers/__init__.py:91-181 | each handler's service call answers exactly `ActionAnswer`: the create, delete, stop, chat and file-read answers of the services, or the canned reply; a create saves one pending record under the generated id and changes no other, a delete removes the id from the records and the cache, every other action leaves the records as they were, and a stop, chat or file read caches only the session it reloaded |
| QueryHandlers.SessionIdOf | backend/app/application/query_handlers.py:61 | `query.session_id` fails exactly on a list query |
| QueryHandlers.HandlerCall | backend/app/application/query_handlers.py:59-72 | the list handler lists; every other handler asks `get_session` with the query's id |
| QueryHandlers.NativeHandlerPassesThrough | backend/app/application/query_handlers.py:59-114 | each handler, given its own query type, passes the session id through unchanged |
| QueryHandlers.EventsResponse | backend/app/application/query_handlers.py:83-102 | a non-zero code is passed on unchanged; otherwise the events are re-wrapped in a code-0 envelope |
| QueryHandlers.HistoryResponse | backend/app/application/query_handlers.py:111-145 | a non-zero code is passed on unchanged |
| QueryHandlers.Respond | backend/app/application/query_handlers.py:75-145 | after a non-zero code the answer is unchanged; after a 0 it is 0 or 500 |
| QueryHandlers.HistoryEntryOf | backend/app/application/query_handlers.py:123-129 | a received message maps to a "user" entry and a sent one to an "assistant" entry, with content ("" if absent) and time; other events map to nothing |
| QueryHandlers.HistoryEntriesAppend | backend/app/application/query_handlers.py:121-129 | the projection keeps order: the entries of two runs are those of each, one after the other |
| QueryHandlers.HistoryEntriesBound | backend/app/application/query_handlers.py:121-129 | there are never more entries than events |
| QueryHandlers.HistoryOfSessionEvents | backend/app/application/query_handlers.py:121-129 | the events of a session are never of a message type, so their history is empty |
| QueryHandlers.HistoryOfSession | backend/app/application/query_handlers.py:111-139 | the history of a found session is its id, its title and no messages |
| QueryHandlers.EventsOfSession | backend/app/application/query_handlers.py:83-96 | the events of a found session are passed on unchanged |
| QueryHandlers.AsWrittenQueries | backend/app/application/query_handlers.py:83-145 | as written, `get_session` answers the 500 of the timestamp for a session with events, and the events and history handlers pass it on; without events it equals the corrected answer |
| QueryHandlers.QueryBus.constructor | backend/app/application/query_handlers.py:151-152 | no handler is registered |
| QueryHandlers.QueryBus.RegisterHandler | backend/app/application/query_handlers.py:154-156 | a later registration for a type replaces the earlier one |
| QueryHandlers.QueryBus.Dispatch | backend/app/application/query_handlers.py:160-165 | the handler registered for the exact type, or `ValueError` naming the type |
| QueryHandlers.QueryBus.Ask | backend/app/application/query_handlers.py:158-165 | dispatch errors propagate; an attribute error propagates from the get handler and becomes a 500 in the events and history handlers; a list query answers `ListAnswer` of the repository listing; a get-type query answers, after `Respond`, the 500 of an empty id, the data of a cached session, the data or error of a reloaded record, or 404 exactly for an unknown session; only a get-type query can add to the cache, and only the session it reloaded |
| Routers.ParseChatRequest | backend/app/interfaces/api/routers.py:113-119 | a falsy message is the 400 "Message is required"; the timestamp defaults to now and the event id to None |
| Routers.ChatRequestRefused | backend/app/interfaces/api/routers.py:114-119 | refused exactly when the message is absent, null, false, 0, "", [] or {} |
| Routers.ChatRequestAccepted | backend/app/interfaces/api/routers.py:114-119 | a non-empty text message is accepted as it is |
| Routers.ChatPayloads | backend/app/interfaces/api/routers.py:121-141 | one error event for an exception or a non-zero code (carrying the envelope); otherwise a message event, then done |
| Routers.ChatStreamParses | backend/app/interfaces/api/routers.py:121-141 | a client reading the body receives exactly those events, in order |
| Routers.ChatStreamOfFailure | backend/app/interfaces/api/routers.py:129-131 | a non-zero code gives exactly one error event carrying the whole envelope |
| Routers.ChatStreamOfException | backend/app/interfaces/api/routers.py:140-141 | an exception gives exactly one error event carrying its text |
| Routers.ChatStreamOfChat | backend/app/interfaces/api/routers.py:121-138 | on a found session, a text that fits streams the reply and then done; any other text streams the one error event |
| Routers.ShellRequest | backend/app/interfaces/api/routers.py:161-164 | a falsy `shell_session_id` is the 400 "shell_session_id is required" |
| Routers.FileRequest | backend/app/interfaces/api/routers.py:176-179 | a falsy `file` is the 400 "file path is required" |
| Routers.MissingFieldIs400 | backend/app/interfaces/api/routers.py:161-179 | a missing field gives the 400 before any service is called |
| AiService.DefaultRequest | backend/app/services/ai_service.py:29-38 | an `AIRequest` with only a prompt has provider google, model gemini-3-pro-preview, no max tokens, thinking on and tools off |
| AiService.BuildGenerationConfig | backend/app/services/ai_service.py:112-154 | the dict updates build exactly `GenerationConfig` |
| AiService.GenerationConfigKeys | backend/app/services/ai_service.py:112-154 | temperature, top_p and top_k come first; max_output_tokens is present exactly when max_tokens is truthy; tools and tool_config are present exactly when tools and thinking are both on |
| AiService.GenerateWithGoogle | backend/app/services/ai_service.py:103-174 | 503 without the SDK, 500 with the SDK's error, otherwise the text result |
| AiService.GenerateWithOpenAi | backend/app/services/ai_service.py:176-179 | always the 503 "OpenAI provider not yet implemented" |
| AiService.GenerateTextOutcome | backend/app/services/ai_service.py:90-101 | succeeds exactly for provider google with the SDK answering; every failure is a 500 "Text generation failed: ..." |
| AiService.GenerateTextOpenAi | backend/app/services/ai_service.py:95-101 | the OpenAI 503 comes back inside a 500 |
| AiService.GenerateTextWithoutSdk | backend/app/services/ai_service.py:93-106 | without the SDK, the Google 503 comes back inside a 500 |
| AiService.GenerateTextUnsupported | backend/app/services/ai_service.py:97-101 | any other provider is refused by name, inside a 500 |
| AiService.CollectListParts | backend/app/services/ai_service.py:317-322 | the inner loop yields exactly `ListParts`, or the first lookup error |
| AiService.CollectContentParts | backend/app/services/ai_service.py:311-322 | the message loop yields exactly `ContentParts`, or the first lookup error |
| AiService.NonUserMessageAddsNothing | backend/app/services/ai_service.py:313 | a message whose role is not "user" adds nothing |
| AiService.StringContentAddedWhole | backend/app/services/ai_service.py:314-315 | a user message with string content adds exactly that string |
| AiService.PartTextOf | backend/app/services/ai_service.py:318-322 | a text part adds its text; a file part or any other part adds nothing |
| AiService.ContentPartsAppend | backend/app/services/ai_service.py:311-322 | the parts of two runs of messages are those of the first, then those of the second |
| AiService.NoUserNoParts | backend/app/services/ai_service.py:312-313 | a conversation with no user message yields no parts |
| AiService.MultiModalChat | backend/app/services/ai_service.py:305-336 | without the SDK a 500 for the undefined `genai`; a lookup or SDK error is a 500; otherwise the result echoes the messages |
| AiService.Health | backend/app/services/ai_service.py:416-424 | the single key "status"; google is up exactly when the SDK is installed and its key is non-empty, openai exactly when its key is non-empty, and overall follows the SDK |
| AiService.ProviderCountsMatchModels | backend/app/services/ai_service.py:381-414 | each provider's model count equals the length of its model list |
| LoadTest.MakeRequest | load_test.py:31-70 | success exactly for a 2xx or 3xx status; an error text exactly when there is no status; an unsupported method fails with no status |
| LoadTest.ErrorStatusHasNoText | load_test.py:52-57 | a request answered with an error status is a failure that carries no error text |
| LoadTest.LoadTester.constructor | load_test.py:17-29 | trailing slashes are stripped from the base; every counter starts at zero |
| LoadTest.LoadTester.RequestUrlJoin | load_test.py:33 | the URL is the base (not ending in "/"), exactly one "/", then the endpoint without leading slashes |
| LoadTest.LoadTester.RecordResult | load_test.py:96-106 | total grows by one, and so does exactly one of successful and failed; the time is always recorded; the error only on failure; total = successful + failed is kept |
| LoadTest.LoadTester.PrintResults | load_test.py:132-185 | division by zero with no requests; otherwise the top-error lines and the verdict of `ReportOf` |
| LoadTest.TallyErrors | load_test.py:169-171 | the tally loop builds exactly `Tally` |
| LoadTest.TallyCounts | load_test.py:169-171 | the tally lists each distinct error once, with its number of occurrences |
| LoadTest.SortDescendingSpec | load_test.py:173 | the sort is a permutation of the tally, by descending count |
| LoadTest.TopErrorsSpec | load_test.py:173 | at most five entries, all from the tally, by descending count; no entry left out has a larger count than the last one listed |
| LoadTest.ErrorLinesAsWritten | load_test.py:173-174 | as written, printing fails exactly when a listed error is None |
| LoadTest.ErrorLines | load_test.py:173-174 | one line per listed error: its count, then its first 100 characters |
| LoadTest.ErrorLinesAgree | load_test.py:173-174 | without None errors the corrected lines equal the lines as written |
| LoadTest.NoneErrorBreaksReport | load_test.py:104 | one failure by status code alone makes the report as written raise |
| LoadTest.VerdictOf | load_test.py:177-185 | division by zero exactly when there are no requests; otherwise the thresholds 95, 90 and 80 by cross-multiplication |
| LoadTest.VerdictMonotone | load_test.py:177-185 | more successes never give a worse verdict; all successes pass and none fail |
| LoadTest.ReportOf | load_test.py:147-185 | division by zero with no requests; otherwise the verdict of the success rate |

## Left out

- JSON file I/O of the repository is not modelled: `aiofiles`, `mkdir`, `json.dumps` to the file and `json.loads` from it. The file is the dict it holds: `records` plus the key `order`.
- `isoformat()` and `fromisoformat()` are taken to invert each other. A `DateTime` carries its ISO text and its epoch second together.
- `Timestamp.now()` (`datetime.utcnow()`), `uuid.uuid4()` and Python's salted `hash()` are parameters, not values the model computes.
- Application.ConversationApplicationService.GetSession: follows the corrected reading of services.py:87 (`EventsJson`, see Findings). As written, any session with events answers 500; `Application.IsoformatFinding` and `QueryHandlers.AsWrittenQueries` state that behaviour.
- QueryHandlers.HistoryOfSession: stated over the corrected `get_session` data. As written, a session with events reaches the history handler as a 500, which it passes on (`QueryHandlers.AsWrittenQueries`).
- QueryHandlers.EventsOfSession: stated over the corrected `get_session` data. As written, the events of a session that has any never reach the handler; the 500 is passed on instead (`QueryHandlers.AsWrittenQueries`).
- QueryHandlers.QueryBus.Ask: its get-type answers rest on the corrected `get_session`. As written, a session with events answers 500, as `QueryHandlers.AsWrittenQueries` states.
- LoadTest.LoadTester.PrintResults: returns the report with the corrected `ErrorLines` (see Findings). As written, a `None` error among the top five raises `TypeError` before the verdict is printed, as `LoadTest.ErrorLinesAsWritten` and `LoadTest.NoneErrorBreaksReport` state.
- Routers.ParseChatRequest: the default timestamp is stated as the true epoch second. `int(datetime.utcnow().timestamp())` reads the naive UTC time as local time, so on a host not at UTC the value is shifted by its offset.
- Routers.ShellRequest: any truthy `shell_session_id` passes, but the shell services take text. A truthy non-string id, such as `1` or `true`, equals no shell's id, so the search finds nothing and the answer is 404 "Shell session not found". A truthy non-string `file` in `Routers.FileRequest` is passed to the file tool and echoed as the "file". Both paths are not modelled, since `Application.ViewShellAnswer` and `Application.ViewFileAnswer` take the id and the path as text.
- Routers.ChatRequestRefused: the `Json` values have no number with a fraction. So `0.0`, which Python treats as falsy, is not modelled. A body with `"message": 0.0` is a 400 the model cannot express, and so is `"shell_session_id": 0.0` or `"file": 0.0` in `Routers.ShellRequest` and `Routers.FileRequest`. The "exactly" of the refused list holds over the modelled values only.
- Application.ConversationApplicationService.ListSessions: `latest_message_at` is the stored epoch second. Python reads a naive UTC datetime as local time, so the real value is shifted by the host's offset from UTC.
- The routers build a new repository, cache and service for every request. The model shares one service, so a cache can hold sessions from an earlier call. With a fresh service, every request starts from an empty cache.
- The chat route passes any JSON message to `process_chat_message`. The model follows only text messages from there, in `Routers.ChatStreamOfChat`. A non-string message makes `Content` raise on `.strip()`, and that path is not modelled.
- The 500 answer of `create_session` is not modelled: saving cannot fail once file I/O is left out.
- Event handlers are handler identities. Which of them raise is a parameter (`failing`). What they do is not modelled, and the `print` of `create_event` is not modelled.
- `get_session_events` of the event service is a stub that returns an empty list. It is not modelled.
- The extra attributes each domain event subclass sets (`title`, `message_content`, and so on) are not modelled. They repeat the constructor arguments.
- `OpenAIIntegrationService` and `ShellToolService` are not modelled: they are calls to an external API, subprocesses and filesystem I/O. `view_file_content` receives `read_file`'s reply as a parameter.
- The VNC websocket echo loop of the routers is network I/O and is not modelled.
- `analyze_file`, `analyze_code`, `web_search` and `generate_image` of the AI service are not modelled: each is one SDK call, with a 503 or 500 rewrap like `generate_text`'s.
- `usage` and `safety_ratings` in the Google result are not modelled, and neither are the safety settings. `genai.configure` at start-up only logs.
- Temperature values are kept as an uninterpreted `Option<real>`. No float arithmetic is modelled.
- The load tester's `user_simulation`, `run_load_test`, `main` and `save_results` are not modelled: they are timing, concurrency and file output. Nor are the response-time statistics: mean, median, min, max and the 95th percentile.
- `LoadTest.LoadTester.PrintResults` computes the verdict from whole counts by cross-multiplication. It does not model the float success rate or the printing.
- `Text.Upper` upper-cases ASCII letters only. Python's `str.upper` also maps other scripts, which matters only for the method name in `make_request`.
- LoadTest.TopErrorsSpec does not state how ties are ordered. Python's sort is stable, and `SortDescending` also inserts after equal counts, but no lemma says so.
- In `stop_session` of the conversation service, the save and the cache update after `update_status("stopped")` can never run, because that call always raises. The model has no member for them.
- Infrastructure.FileConversationRepository.SaveSession: writes `Encode(s)` for every session. In the source, `load_session` keeps each stored `message_id` as a plain `str` (backend/app/infrastructure/services.py:114), and `save_session` reads `msg.message_id.value` (services.py:48). So saving a reloaded session that has messages raises `AttributeError: 'str' object has no attribute 'value'` before anything is written. No caller in the model saves a reloaded session: `stop_session` raises before its save.
- `query_handlers.py` imports the application services with `from ...application.services import ...` (backend/app/application/query_handlers.py:8). From the package `app.application`, three dots reach above `app`, so as written that module, and `routers.py` which imports it, cannot be imported. The model assumes the evident `from .services import ...`.
- `entities.py` imports its value objects with `from ..value_objects import ...`. That relative import points one package too high. The model assumes the evident `from .value_objects import ...`.
- When a handler reads an attribute the command does not have, the `AttributeError` text follows Python's wording. So does the `TypeError` text of slicing `None`. Both wordings are modelled as constants.
- `HTTPException` is printed as "status: detail", which is Starlette's `str()`. `generate_text`'s rewrap relies on it.

## Findings

| source | as written | input that shows it | evidently intended | confidence | as-written member | corrected member |
|---|---|---|---|---|---|---|
| backend/app/application/services.py:87 | `event.timestamp.isoformat()` is called on the `Timestamp` wrapper, which has no such method, so `get_session` answers 500 for any session with events | a session with one "message" event | `event.timestamp.value.isoformat()`, listing every event with its ISO time | high; not executed | Application.IsoformatFinding | Application.EventsJson |
| load_test.py:174 | `error[:100]` on an error recorded as `None`, which is every failure by HTTP status, raises `TypeError` while the report is printed | one request answered with status 500 | print `None` as "None", like the f-string would | high; not executed | LoadTest.NoneErrorBreaksReport | LoadTest.ErrorLinesAgree |
