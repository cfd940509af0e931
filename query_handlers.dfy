/**
 * The query side: four query classes, their handlers, and the bus that
 * dispatches a query to the handler registered for its exact class. The
 * history and events handlers post-process the `get_session` envelope as the
 * dict it is, so their lookups can raise like Python's.
 */
module QueryHandlers {
  import opened Wrappers
  import opened Errors
  import opened Json
  import opened ValueObjects
  import opened Entities
  import opened Infrastructure
  import opened Application

  datatype Query =
    | GetSessionQuery(sessionId: string)
    | ListSessionsQuery
    | GetSessionEventsQuery(sessionId: string)
    | GetSessionHistoryQuery(sessionId: string)

  /** `type(query)`, the key of the handler table. */
  datatype QueryType = GetSessionType | ListSessionsType | GetSessionEventsType | GetSessionHistoryType

  function TypeOf(q: Query): QueryType {
    match q
    case GetSessionQuery(_) => GetSessionType
    case ListSessionsQuery => ListSessionsType
    case GetSessionEventsQuery(_) => GetSessionEventsType
    case GetSessionHistoryQuery(_) => GetSessionHistoryType
  }

  function ClassName(t: QueryType): string {
    match t
    case GetSessionType => "GetSessionQuery"
    case ListSessionsType => "ListSessionsQuery"
    case GetSessionEventsType => "GetSessionEventsQuery"
    case GetSessionHistoryType => "GetSessionHistoryQuery"
  }

  /** `str(type(query))`. */
  function TypeRepr(t: QueryType): string {
    "<class 'app.application.query_handlers." + ClassName(t) + "'>"
  }

  /** `query.session_id`: a list query has no such attribute. */
  function SessionIdOf(q: Query): (r: Result<string, Exc>)
    ensures r.Ok? <==> !q.ListSessionsQuery?
    ensures r.Ok? ==> r.value == q.sessionId
  {
    if q.ListSessionsQuery? then Err(AttributeError("'ListSessionsQuery' object has no attribute 'session_id'"))
    else Ok(q.sessionId)
  }

  /** The handler classes; which one is registered for a type is up to the caller. */
  datatype HandlerKind = GetSessionHandler | ListSessionsHandler | GetSessionEventsHandler | GetSessionHistoryHandler

  /** The service call a handler makes for a query. */
  datatype ServiceCall = CallGetSession(sessionId: string) | CallListSessions

  function HandlerCall(kind: HandlerKind, q: Query): (r: Result<ServiceCall, Exc>)
    ensures kind == ListSessionsHandler ==> r == Ok(CallListSessions)
    ensures kind != ListSessionsHandler ==> (r.Ok? <==> !q.ListSessionsQuery?)
    ensures kind != ListSessionsHandler && r.Ok? ==> r == Ok(CallGetSession(q.sessionId))
  {
    if kind == ListSessionsHandler then Ok(CallListSessions)
    else
      var id :- SessionIdOf(q);
      Ok(CallGetSession(id))
  }

  /** The handler that answers a query of each type when registered for it. */
  function NativeHandler(t: QueryType): HandlerKind {
    match t
    case GetSessionType => GetSessionHandler
    case ListSessionsType => ListSessionsHandler
    case GetSessionEventsType => GetSessionEventsHandler
    case GetSessionHistoryType => GetSessionHistoryHandler
  }

  /** Each handler, given its own query type, passes the session id through unchanged. */
  lemma NativeHandlerPassesThrough(q: Query)
    ensures HandlerCall(NativeHandler(TypeOf(q)), q) == if q.ListSessionsQuery? then Ok(CallListSessions) else Ok(CallGetSession(q.sessionId))
  {
  }

  // ---------------------------------------------------------------------------
  // Post-processing of the `get_session` envelope.
  // ---------------------------------------------------------------------------

  /**
   * `GetSessionEventsQueryHandler.handle` after the call: a non-zero code is
   * passed on as it is, otherwise the `"events"` of the data is wrapped again.
   */
  function EventsResponse(env: Envelope): (r: Envelope)
    ensures env.code != 0 ==> r == env
    ensures env.code == 0 && env.data.JObject? && Get(env.data.members, "events").Some? ==>
              r == Success(JObject([("events", Get(env.data.members, "events").value)]))
  {
    if env.code != 0 then env
    else
      match Subscript(env.data, "events")
      case Ok(events) => Success(JObject([("events", events)]))
      case Err(e) => Failure("Failed to get session events: ", e)
  }

  /** One history entry of an event dict, or nothing for an event of another type. */
  function HistoryEntry(event: Json): Result<seq<Json>, Exc> {
    var eventType :- Subscript(event, "event_type");
    if eventType == JString("message_received") || eventType == JString("message_sent") then
      var data :- Subscript(event, "data");
      var content :- GetOr(data, "content", JString(""));
      var timestamp :- GetOr(event, "timestamp", JString(""));
      Ok([JObject([("role", JString(if eventType == JString("message_received") then "user" else "assistant")),
                   ("content", content), ("timestamp", timestamp)])])
    else Ok([])
  }

  /** The message loop of the history handler: entries in event order; the first error stops it. */
  function HistoryEntries(events: seq<Json>): Result<seq<Json>, Exc> {
    if events == [] then Ok([])
    else
      var head :- HistoryEntry(events[0]);
      var tail :- HistoryEntries(events[1..]);
      Ok(head + tail)
  }

  /** `GetSessionHistoryQueryHandler.handle` after the call. */
  function HistoryResponse(env: Envelope): (r: Envelope)
    ensures env.code != 0 ==> r == env
  {
    if env.code != 0 then env
    else
      var body: Result<Envelope, Exc> :=
        var session := env.data;
        var events :- Subscript(session, "events");
        var items :- Iterate(events);
        var messages :- HistoryEntries(items);
        var sessionId :- Subscript(session, "session_id");
        var title :- Subscript(session, "title");
        Ok(Success(JObject([("session_id", sessionId), ("title", title), ("messages", JArray(messages))])));
      if body.Ok? then body.value else Failure("Failed to get session history: ", body.error)
  }

  /** What the handler registered as `kind` answers once the service answered `env`. */
  function Respond(kind: HandlerKind, env: Envelope): (r: Envelope)
    ensures env.code != 0 ==> r == env
    ensures env.code == 0 ==> r.code == 0 || r.code == 500
  {
    match kind
    case GetSessionEventsHandler => EventsResponse(env)
    case GetSessionHistoryHandler => HistoryResponse(env)
    case _ => env
  }

  // ---------------------------------------------------------------------------
  // What the projection keeps.
  // ---------------------------------------------------------------------------

  /** A well-formed event dict: the shape `get_session` writes. */
  function EventDict(eventType: string, data: seq<(string, Json)>, timestamp: string): Json {
    JObject([("event_id", JString("")), ("event_type", JString(eventType)), ("data", JObject(data)),
             ("timestamp", JString(timestamp))])
  }

  /**
   * A message event becomes one entry, "user" for a received message and
   * "assistant" for a sent one, with its data's content ("" when it has none)
   * and its time; any other event becomes nothing.
   */
  lemma HistoryEntryOf(eventId: string, eventType: string, data: seq<(string, Json)>, timestamp: string)
    ensures var event := JObject([("event_id", JString(eventId)), ("event_type", JString(eventType)),
                                  ("data", JObject(data)), ("timestamp", JString(timestamp))]);
            var content := if Get(data, "content").Some? then Get(data, "content").value else JString("");
            && (eventType == "message_received" ==>
                  HistoryEntry(event) == Ok([JObject([("role", JString("user")), ("content", content), ("timestamp", JString(timestamp))])]))
            && (eventType == "message_sent" ==>
                  HistoryEntry(event) == Ok([JObject([("role", JString("assistant")), ("content", content), ("timestamp", JString(timestamp))])]))
            && (eventType != "message_received" && eventType != "message_sent" ==> HistoryEntry(event) == Ok([]))
  {
    var members := [("event_id", JString(eventId)), ("event_type", JString(eventType)),
                    ("data", JObject(data)), ("timestamp", JString(timestamp))];
    GetAt(members, 1);
    GetAt(members, 2);
    GetAt(members, 3);
  }

  /** The projection keeps order: the entries of two runs of events are those of each, one after the other. */
  lemma {:induction false} HistoryEntriesAppend(a: seq<Json>, b: seq<Json>)
    requires HistoryEntries(a).Ok? && HistoryEntries(b).Ok?
    ensures HistoryEntries(a + b) == Ok(HistoryEntries(a).value + HistoryEntries(b).value)
  {
    if a == [] {
      assert a + b == b;
      assert HistoryEntries(a).value + HistoryEntries(b).value == HistoryEntries(b).value;
    } else {
      assert (a + b)[0] == a[0] && (a + b)[1..] == a[1..] + b;
      HistoryEntriesAppend(a[1..], b);
      var head := HistoryEntry(a[0]).value;
      assert head + (HistoryEntries(a[1..]).value + HistoryEntries(b).value)
          == head + HistoryEntries(a[1..]).value + HistoryEntries(b).value;
    }
  }

  /** Each entry comes from one event, so there are never more entries than events. */
  lemma {:induction false} HistoryEntriesBound(events: seq<Json>)
    requires HistoryEntries(events).Ok?
    ensures |HistoryEntries(events).value| <= |events|
  {
    if events != [] {
      HistoryEntriesBound(events[1..]);
    }
  }

  /**
   * A session's own events never have a message type (only the seven
   * real-time types are accepted), so the history of any session read
   * through `get_session` is empty.
   */
  lemma {:induction false} HistoryOfSessionEvents(events: seq<Event>)
    ensures HistoryEntries(EventsJson(events)) == Ok([])
  {
    if events != [] {
      var e := events[0];
      assert e.eventType in EventTypes;
      HistoryEntryOf(e.eventId, e.eventType, e.data, e.timestamp.value.iso);
      var js := EventsJson(events);
      assert js[0] == EventJson(e);
      assert HistoryEntry(js[0]) == Ok([]);
      assert js[1..] == EventsJson(events[1..]);
      HistoryOfSessionEvents(events[1..]);
      var none: seq<Json> := [];
      assert none + none == none;
      assert HistoryEntries(js) == Ok(none);
    } else {
      assert EventsJson(events) == [];
    }
  }

  lemma SessionDataFields(s: ConversationSession)
    ensures Subscript(SessionData(s), "events") == Ok(JArray(EventsJson(s.events)))
    ensures Subscript(SessionData(s), "session_id") == Ok(JString(s.sessionId))
    ensures Subscript(SessionData(s), "title") == Ok(JString(s.title))
  {
    var members := SessionData(s).members;
    GetAt(members, 0);
    GetAt(members, 1);
    GetAt(members, 2);
  }

  /** The history of a session `get_session` found: its id, its title and no messages. */
  lemma HistoryOfSession(s: ConversationSession)
    ensures HistoryResponse(Success(SessionData(s)))
         == Success(JObject([("session_id", JString(s.sessionId)), ("title", JString(s.title)), ("messages", JArray([]))]))
  {
    SessionDataFields(s);
    HistoryOfSessionEvents(s.events);
  }

  /** The events of a session `get_session` found, passed on unchanged. */
  lemma EventsOfSession(s: ConversationSession)
    ensures EventsResponse(Success(SessionData(s))) == Success(JObject([("events", JArray(EventsJson(s.events)))]))
  {
    SessionDataFields(s);
  }

  /**
   * `get_session` as written answers 500 for a session with events (the
   * timestamp of its events cannot be written), and the events and history
   * handlers pass that 500 on; without events both readings agree.
   */
  lemma AsWrittenQueries(s: ConversationSession)
    ensures var asWritten := if EventsAsWritten(s.events).Ok? then Success(SessionData(s))
                             else Failure("Failed to get session: ", EventsAsWritten(s.events).error);
            && (s.events != [] ==>
                  && asWritten == Failure("Failed to get session: ", IsoformatError)
                  && EventsResponse(asWritten) == asWritten && HistoryResponse(asWritten) == asWritten)
            && (s.events == [] ==> asWritten == Success(SessionData(s)))
  {
    IsoformatFinding(s.events);
  }

  // ---------------------------------------------------------------------------
  // The bus.
  // ---------------------------------------------------------------------------

  class QueryBus {
    var handlers: map<QueryType, HandlerKind>

    constructor ()
      ensures handlers == map[]
    {
      handlers := map[];
    }

    /** `register_handler`: a later registration for a type replaces the earlier one. */
    method RegisterHandler(t: QueryType, handler: HandlerKind)
      modifies this
      ensures handlers == old(handlers)[t := handler]
    {
      handlers := handlers[t := handler];
    }

    /** The handler `ask` picks: the one registered for the query's exact type. */
    function Dispatch(q: Query): (r: Result<HandlerKind, Exc>)
      reads this
      ensures TypeOf(q) in handlers ==> r == Ok(handlers[TypeOf(q)])
      ensures TypeOf(q) !in handlers ==> r == Err(ValueError("No handler registered for query type: " + TypeRepr(TypeOf(q))))
    {
      if TypeOf(q) in handlers then Ok(handlers[TypeOf(q)])
      else Err(ValueError("No handler registered for query type: " + TypeRepr(TypeOf(q))))
    }

    /**
     * `ask`: dispatch, then the handler's service call, then its
     * post-processing. The get and list handlers let an exception through;
     * the events and history handlers turn it into a 500 envelope.
     */
    method Ask(q: Query, app: ConversationApplicationService, now: DateTime) returns (r: Result<Envelope, Exc>)
      requires app.Valid()
      modifies app.conversations
      ensures Dispatch(q).Err? ==> r == Err(Dispatch(q).error)
      ensures Dispatch(q).Ok? && HandlerCall(Dispatch(q).value, q).Err? ==>
                var e := HandlerCall(Dispatch(q).value, q).error;
                r == match Dispatch(q).value
                     case GetSessionEventsHandler => Ok(Failure("Failed to get session events: ", e))
                     case GetSessionHistoryHandler => Ok(Failure("Failed to get session history: ", e))
                     case _ => Err(e)
      ensures Dispatch(q).Ok? && HandlerCall(Dispatch(q).value, q) == Ok(CallListSessions) ==>
                r == Ok(ListAnswer(ListSpec(app.conversations.repository.records, app.conversations.repository.order, now)))
      ensures Dispatch(q).Ok? && HandlerCall(Dispatch(q).value, q).Ok? && HandlerCall(Dispatch(q).value, q).value.CallGetSession? ==>
                var id := HandlerCall(Dispatch(q).value, q).value.sessionId;
                var records := app.conversations.repository.records;
                && r.Ok?
                && (id == [] ==> r.value == Failure("Failed to get session: ", ValueError("ConversationId cannot be empty")))
                && (id in old(app.conversations.cache) ==>
                      r.value == Respond(Dispatch(q).value, Success(SessionData(old(app.conversations.cache)[id]))))
                && (id != [] && id !in old(app.conversations.cache) && id in records ==>
                      r.value == Respond(Dispatch(q).value, GetSessionOfRecord(records[id], now)))
                && (r.value.code == 404 <==> id != [] && id !in old(app.conversations.cache) && id !in records)
      ensures Dispatch(q).Ok? && HandlerCall(Dispatch(q).value, q).Ok? && HandlerCall(Dispatch(q).value, q).value.CallGetSession? ==>
                CacheAfterFind(old(app.conversations.cache), app.conversations.cache,
                               HandlerCall(Dispatch(q).value, q).value.sessionId, app.conversations.repository.records, now)
      ensures !(Dispatch(q).Ok? && HandlerCall(Dispatch(q).value, q).Ok? && HandlerCall(Dispatch(q).value, q).value.CallGetSession?) ==>
                app.conversations.cache == old(app.conversations.cache)
    {
      var kind := Dispatch(q);
      if kind.Err? {
        return Err(kind.error);
      }
      var call := HandlerCall(kind.value, q);
      if call.Err? {
        var e := call.error;
        match kind.value
        case GetSessionEventsHandler => return Ok(Failure("Failed to get session events: ", e));
        case GetSessionHistoryHandler => return Ok(Failure("Failed to get session history: ", e));
        case _ => return Err(e);
      }
      var answer: Envelope;
      if call.value.CallListSessions? {
        answer := app.ListSessions(now);
      } else {
        answer := app.GetSession(call.value.sessionId, now);
      }
      r := Ok(Respond(kind.value, answer));
    }
  }
}
