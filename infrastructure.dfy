/**
 * The infrastructure layer: the file repository (its JSON file is modelled
 * as the dict it holds, a map from session id to record in insertion order),
 * the caching conversation service, the event service with its per-type
 * handler lists, and the canned stream of `stream_conversation`.
 */
module Infrastructure {
  import opened Wrappers
  import opened Errors
  import opened Json
  import opened ValueObjects
  import opened Entities
  import Sse

  // ---------------------------------------------------------------------------
  // What `save_session` writes for one session.
  // ---------------------------------------------------------------------------

  /** Timestamps are written with `isoformat()` and read back with `fromisoformat()`, which invert each other. */
  datatype MessageRecord = MessageRecord(messageId: string, role: string, content: string,
                                         timestamp: DateTime, metadata: seq<(string, Json)>)
  datatype EventRecord = EventRecord(eventId: string, eventType: string, data: seq<(string, Json)>, timestamp: DateTime)
  datatype ShellRecord = ShellRecord(shellSessionId: string, console: seq<ConsoleEntry>,
                                     createdAt: DateTime, lastUpdated: DateTime)
  datatype FileOperationRecord = FileOperationRecord(filePath: string, operationType: string,
                                                     content: Option<string>, timestamp: DateTime)
  datatype SessionRecord = SessionRecord(
    sessionId: string,
    title: string,
    status: string,
    messages: seq<MessageRecord>,
    events: seq<EventRecord>,
    shellSessions: seq<ShellRecord>,
    fileOperations: seq<FileOperationRecord>,
    createdAt: DateTime,
    lastUpdated: DateTime,
    unreadMessageCount: int)

  function EncodeMessage(m: Message): MessageRecord {
    MessageRecord(m.messageId, m.role, m.content, m.timestamp.value, m.metadata)
  }

  function EncodeMessages(ms: seq<Message>): (r: seq<MessageRecord>)
    ensures |r| == |ms|
    ensures forall i :: 0 <= i < |ms| ==> r[i] == EncodeMessage(ms[i])
  {
    if ms == [] then [] else [EncodeMessage(ms[0])] + EncodeMessages(ms[1..])
  }

  /** Messages appended to a session are written after the ones it had. */
  lemma EncodeMessagesAppend(a: seq<Message>, b: seq<Message>)
    ensures EncodeMessages(a + b) == EncodeMessages(a) + EncodeMessages(b)
  {
    var whole, parts := EncodeMessages(a + b), EncodeMessages(a) + EncodeMessages(b);
    forall i | 0 <= i < |whole|
      ensures whole[i] == parts[i]
    {
      if i < |a| {
        assert (a + b)[i] == a[i];
      } else {
        assert (a + b)[i] == b[i - |a|];
      }
    }
  }

  function EncodeEvent(e: Event): EventRecord {
    EventRecord(e.eventId, e.eventType, e.data, e.timestamp.value)
  }

  function EncodeEvents(es: seq<Event>): (r: seq<EventRecord>)
    ensures |r| == |es|
    ensures forall i :: 0 <= i < |es| ==> r[i] == EncodeEvent(es[i])
  {
    if es == [] then [] else [EncodeEvent(es[0])] + EncodeEvents(es[1..])
  }

  function EncodeShells(shells: seq<ShellSession>): (r: seq<ShellRecord>)
    reads shells
    ensures |r| == |shells|
  {
    if shells == [] then []
    else
      var sh := shells[0];
      [ShellRecord(sh.shellSessionId, sh.console, sh.createdAt.value, sh.lastUpdated.value)] + EncodeShells(shells[1..])
  }

  function EncodeFileOperations(ops: seq<FileOperation>): (r: seq<FileOperationRecord>)
    ensures |r| == |ops|
  {
    if ops == [] then []
    else
      var op := ops[0];
      [FileOperationRecord(op.filePath, op.operationType, op.content, op.timestamp.value)] + EncodeFileOperations(ops[1..])
  }

  /** The record `save_session` stores for a session. */
  function Encode(s: ConversationSession): SessionRecord
    reads s, s.shellSessions
  {
    SessionRecord(s.sessionId, s.title, s.status, EncodeMessages(s.messages), EncodeEvents(s.events),
                  EncodeShells(s.shellSessions), EncodeFileOperations(s.fileOperations),
                  s.createdAt.value, s.lastUpdated.value, s.unreadMessageCount)
  }

  // ---------------------------------------------------------------------------
  // What `load_session` rebuilds from a record.
  // ---------------------------------------------------------------------------

  /** `Message(message_id=..., role=Role(...), content=Content(...), ...)`: role first, then content. */
  function DecodeMessage(sid: ConversationId, m: MessageRecord): (r: Result<Message, Exc>)
    ensures r.Ok? <==> MakeRole(m.role).Ok? && MakeContent(m.content).Ok?
    ensures r.Ok? ==> EncodeMessage(r.value) == m
  {
    var role :- MakeRole(m.role);
    var content :- MakeContent(m.content);
    Ok(Message(m.messageId, sid, role, content, Timestamp(m.timestamp), m.metadata))
  }

  /** The messages of a record, in order; the first one refused stops the load. */
  function DecodeMessages(sid: ConversationId, ms: seq<MessageRecord>): Result<seq<Message>, Exc> {
    if ms == [] then Ok([])
    else
      var head :- DecodeMessage(sid, ms[0]);
      var tail :- DecodeMessages(sid, ms[1..]);
      Ok([head] + tail)
  }

  function DecodeEvent(sid: ConversationId, e: EventRecord): (r: Result<Event, Exc>)
    ensures r.Ok? <==> e.eventType in EventTypes
    ensures r.Ok? ==> EncodeEvent(r.value) == e
  {
    MakeEvent(e.eventId, sid, e.eventType, e.data, Timestamp(e.timestamp))
  }

  function DecodeEvents(sid: ConversationId, es: seq<EventRecord>): Result<seq<Event>, Exc> {
    if es == [] then Ok([])
    else
      var head :- DecodeEvent(sid, es[0]);
      var tail :- DecodeEvents(sid, es[1..]);
      Ok([head] + tail)
  }

  /**
   * The record of the session `load_session` rebuilds: the id, then the
   * status, then every message and every event is checked again; the shell
   * consoles and times are restored, the file operations are not, and the
   * session's own times are those of the load.
   */
  function Reload(rec: SessionRecord, now: DateTime): Result<SessionRecord, Exc> {
    var sid :- MakeConversationId(rec.sessionId);
    var status :- MakeStatus(rec.status);
    var messages :- DecodeMessages(sid, rec.messages);
    var events :- DecodeEvents(sid, rec.events);
    Ok(SessionRecord(sid, rec.title, status, EncodeMessages(messages), EncodeEvents(events),
                     rec.shellSessions, [], now, now, rec.unreadMessageCount))
  }

  /** What every record written by `save_session` satisfies. */
  predicate Saveable(rec: SessionRecord) {
    && rec.sessionId != []
    && rec.status in ValidStatuses
    && (forall i :: 0 <= i < |rec.messages| ==> rec.messages[i].role in ValidRoles && IsContent(rec.messages[i].content))
    && (forall i :: 0 <= i < |rec.events| ==> rec.events[i].eventType in EventTypes)
  }

  lemma EncodeSaveable(s: ConversationSession)
    ensures Saveable(Encode(s))
  {
    var rec := Encode(s);
    assert forall i :: 0 <= i < |rec.messages| ==> rec.messages[i] == EncodeMessage(s.messages[i]);
    assert forall i :: 0 <= i < |rec.events| ==> rec.events[i] == EncodeEvent(s.events[i]);
  }

  lemma {:induction false} DecodeMessagesEncoded(sid: ConversationId, ms: seq<MessageRecord>)
    requires forall i :: 0 <= i < |ms| ==> ms[i].role in ValidRoles && IsContent(ms[i].content)
    ensures DecodeMessages(sid, ms).Ok? && EncodeMessages(DecodeMessages(sid, ms).value) == ms
  {
    if ms != [] {
      DecodeMessagesEncoded(sid, ms[1..]);
      var head := DecodeMessage(sid, ms[0]);
      assert head.Ok?;
      var tail := DecodeMessages(sid, ms[1..]).value;
      assert DecodeMessages(sid, ms).value == [head.value] + tail;
      assert EncodeMessages([head.value] + tail) == [EncodeMessage(head.value)] + EncodeMessages(tail);
    }
  }

  lemma {:induction false} DecodeEventsEncoded(sid: ConversationId, es: seq<EventRecord>)
    requires forall i :: 0 <= i < |es| ==> es[i].eventType in EventTypes
    ensures DecodeEvents(sid, es).Ok? && EncodeEvents(DecodeEvents(sid, es).value) == es
  {
    if es != [] {
      DecodeEventsEncoded(sid, es[1..]);
      var head := DecodeEvent(sid, es[0]);
      var tail := DecodeEvents(sid, es[1..]).value;
      assert DecodeEvents(sid, es).value == [head.value] + tail;
      assert EncodeEvents([head.value] + tail) == [EncodeEvent(head.value)] + EncodeEvents(tail);
    }
  }

  /**
   * Loading what was saved gives back the same id, title, status, unread count,
   * messages, events and shell sessions; the file operations come back empty
   * and both session times become the time of the load.
   */
  lemma ReloadRoundTrip(rec: SessionRecord, now: DateTime)
    requires Saveable(rec)
    ensures Reload(rec, now) == Ok(rec.(fileOperations := [], createdAt := now, lastUpdated := now))
  {
    DecodeMessagesEncoded(rec.sessionId, rec.messages);
    DecodeEventsEncoded(rec.sessionId, rec.events);
  }

  /** `Ok(prefix + rest)` when `rest` loaded, otherwise the error that stopped it. */
  function PrependOk<T>(prefix: seq<T>, rest: Result<seq<T>, Exc>): Result<seq<T>, Exc> {
    if rest.Ok? then Ok(prefix + rest.value) else rest
  }

  /**
   * What `list_sessions` makes of one stored record, as records: it is
   * loaded again through the id written inside it (an empty inner id
   * raises, an inner id with no record is skipped).
   */
  function ListEntry(records: map<string, SessionRecord>, key: string, now: DateTime): (r: Result<seq<SessionRecord>, Exc>)
    requires key in records
    ensures r.Ok? ==> |r.value| <= 1
  {
    var inner := records[key].sessionId;
    var _ :- MakeConversationId(inner);
    if inner !in records then Ok([])
    else
      var loaded :- Reload(records[inner], now);
      Ok([loaded])
  }

  /** The entries of `keys[from..]` in order; the first error stops the listing. */
  function ListFrom(records: map<string, SessionRecord>, keys: seq<string>, from: nat, now: DateTime): Result<seq<SessionRecord>, Exc>
    requires forall k :: k in keys ==> k in records
    decreases |keys| - from
  {
    if from >= |keys| then Ok([])
    else
      var head :- ListEntry(records, keys[from], now);
      PrependOk(head, ListFrom(records, keys, from + 1, now))
  }

  /** The sessions `list_sessions` returns, as records. */
  function ListSpec(records: map<string, SessionRecord>, keys: seq<string>, now: DateTime): Result<seq<SessionRecord>, Exc>
    requires forall k :: k in keys ==> k in records
  {
    ListFrom(records, keys, 0, now)
  }

  /** The message loop of `load_session`: each record is rebuilt and appended, in order. */
  method LoadMessages(sid: ConversationId, ms: seq<MessageRecord>) returns (r: Result<seq<Message>, Exc>)
    ensures r == DecodeMessages(sid, ms)
  {
    var loaded: seq<Message> := [];
    var i := 0;
    assert ms[0..] == ms;
    PrependNil(DecodeMessages(sid, ms));
    while i < |ms|
      invariant 0 <= i <= |ms|
      invariant DecodeMessages(sid, ms) == PrependOk(loaded, DecodeMessages(sid, ms[i..]))
    {
      assert ms[i..][0] == ms[i] && ms[i..][1..] == ms[i + 1..];
      DecodeMessagesUnfold(sid, ms[i..]);
      var m := DecodeMessage(sid, ms[i]);
      if m.Err? {
        return Err(m.error);
      }
      PrependAssoc(loaded, [m.value], DecodeMessages(sid, ms[i + 1..]));
      loaded := loaded + [m.value];
      i := i + 1;
    }
    assert ms[i..] == [] && loaded + [] == loaded;
    r := Ok(loaded);
  }

  /** The event loop of `load_session`. */
  method LoadEvents(sid: ConversationId, es: seq<EventRecord>) returns (r: Result<seq<Event>, Exc>)
    ensures r == DecodeEvents(sid, es)
  {
    var loaded: seq<Event> := [];
    var i := 0;
    assert es[0..] == es;
    PrependNil(DecodeEvents(sid, es));
    while i < |es|
      invariant 0 <= i <= |es|
      invariant DecodeEvents(sid, es) == PrependOk(loaded, DecodeEvents(sid, es[i..]))
    {
      assert es[i..][0] == es[i] && es[i..][1..] == es[i + 1..];
      DecodeEventsUnfold(sid, es[i..]);
      var e := DecodeEvent(sid, es[i]);
      if e.Err? {
        return Err(e.error);
      }
      PrependAssoc(loaded, [e.value], DecodeEvents(sid, es[i + 1..]));
      loaded := loaded + [e.value];
      i := i + 1;
    }
    assert es[i..] == [] && loaded + [] == loaded;
    r := Ok(loaded);
  }

  /** The shell loop of `load_session`: a new shell per record, its console and times restored. */
  method RestoreShells(sid: ConversationId, records: seq<ShellRecord>) returns (shells: seq<ShellSession>)
    ensures EncodeShells(shells) == records
    ensures forall sh :: sh in shells ==> fresh(sh)
  {
    shells := [];
    var k := 0;
    while k < |records|
      invariant 0 <= k <= |records|
      invariant EncodeShells(shells) == records[..k]
      invariant forall sh :: sh in shells ==> fresh(sh)
    {
      var data := records[k];
      var shell := new ShellSession.Restore(data.shellSessionId, sid, Timestamp(data.createdAt), Timestamp(data.lastUpdated));
      shell.console := data.console;
      EncodeShellsAppend(shells, shell);
      shells := shells + [shell];
      assert records[..k + 1] == records[..k] + [data];
      k := k + 1;
    }
    assert records[..k] == records;
  }

  lemma PrependNil<T>(rest: Result<seq<T>, Exc>)
    ensures PrependOk([], rest) == rest
  {
    if rest.Ok? {
      assert [] + rest.value == rest.value;
    }
  }

  lemma PrependAssoc<T>(a: seq<T>, b: seq<T>, rest: Result<seq<T>, Exc>)
    ensures PrependOk(a, PrependOk(b, rest)) == PrependOk(a + b, rest)
  {
    if rest.Ok? {
      assert a + (b + rest.value) == a + b + rest.value;
    }
  }

  lemma DecodeMessagesUnfold(sid: ConversationId, ms: seq<MessageRecord>)
    requires ms != []
    ensures DecodeMessage(sid, ms[0]).Err? ==> DecodeMessages(sid, ms) == Err(DecodeMessage(sid, ms[0]).error)
    ensures DecodeMessage(sid, ms[0]).Ok? ==>
              DecodeMessages(sid, ms) == PrependOk([DecodeMessage(sid, ms[0]).value], DecodeMessages(sid, ms[1..]))
  {
  }

  lemma DecodeEventsUnfold(sid: ConversationId, es: seq<EventRecord>)
    requires es != []
    ensures DecodeEvent(sid, es[0]).Err? ==> DecodeEvents(sid, es) == Err(DecodeEvent(sid, es[0]).error)
    ensures DecodeEvent(sid, es[0]).Ok? ==>
              DecodeEvents(sid, es) == PrependOk([DecodeEvent(sid, es[0]).value], DecodeEvents(sid, es[1..]))
  {
  }

  // ---------------------------------------------------------------------------
  // The repository.
  // ---------------------------------------------------------------------------

  class FileConversationRepository {
    /** The keys of the sessions dict, in insertion order. */
    var order: seq<string>
    var records: map<string, SessionRecord>

    ghost predicate Valid()
      reads this
    {
      && (forall k :: k in records <==> k in order)
      && (forall i, j :: 0 <= i < j < |order| ==> order[i] != order[j])
    }

    /** A fresh data directory holds `{}`. */
    constructor ()
      ensures Valid() && order == [] && records == map[]
    {
      order := [];
      records := map[];
    }

    /**
     * `save_session`: the record is written under the session id, replacing
     * any earlier one in place; every other id keeps its record.
     */
    method SaveSession(s: ConversationSession)
      requires Valid()
      modifies this
      ensures Valid()
      ensures records == old(records)[s.sessionId := Encode(s)]
      ensures order == if s.sessionId in old(records) then old(order) else old(order) + [s.sessionId]
    {
      if s.sessionId !in records {
        order := order + [s.sessionId];
      }
      records := records[s.sessionId := Encode(s)];
    }

    /**
     * `load_session`: None for an unknown id; otherwise a new session whose
     * record is `Reload` of the stored one, or the error of the first value
     * that is refused on the way.
     */
    method LoadSession(id: string, now: DateTime) returns (r: Result<Option<ConversationSession>, Exc>)
      ensures id !in records ==> r == Ok(None)
      ensures id in records ==> (r.Ok? <==> Reload(records[id], now).Ok?)
      ensures id in records && r.Err? ==> r.error == Reload(records[id], now).error
      ensures id in records && r.Ok? ==> r.value.Some? && fresh(r.value.value)
      ensures id in records && r.Ok? ==> Encode(r.value.value) == Reload(records[id], now).value
      ensures r.Ok? && r.value.Some? ==> forall sh :: sh in r.value.value.shellSessions ==> fresh(sh)
    {
      if id !in records {
        return Ok(None);
      }
      var rec := records[id];
      var sidResult := MakeConversationId(rec.sessionId);
      if sidResult.Err? {
        return Err(sidResult.error);
      }
      var sid := sidResult.value;
      var statusResult := MakeStatus(rec.status);
      if statusResult.Err? {
        return Err(statusResult.error);
      }
      var messages := LoadMessages(sid, rec.messages);
      if messages.Err? {
        return Err(messages.error);
      }
      var events := LoadEvents(sid, rec.events);
      if events.Err? {
        return Err(events.error);
      }
      var shells := RestoreShells(sid, rec.shellSessions);
      var session := new ConversationSession.Restore(sid, rec.title, statusResult.value, rec.unreadMessageCount, now);
      session.messages := messages.value;
      session.events := events.value;
      session.shellSessions := shells;
      r := Ok(Some(session));
    }

    /** `delete_session`: False and no change for an unknown id, else exactly that key goes. */
    method DeleteSession(id: string) returns (found: bool)
      requires Valid()
      modifies this
      ensures Valid()
      ensures found == (id in old(records))
      ensures records == old(records) - {id}
      ensures !found ==> order == old(order)
      ensures found ==> exists i :: 0 <= i < |old(order)| && old(order)[i] == id && order == old(order)[..i] + old(order)[i + 1..]
    {
      found := id in records;
      if !found {
        return;
      }
      var i := IndexOf(order, id);
      order := order[..i] + order[i + 1..];
      records := records - {id};
      forall a, b | 0 <= a < b < |order| ensures order[a] != order[b] {
        var a', b' := if a < i then a else a + 1, if b < i then b else b + 1;
        assert order[a] == old(order)[a'] && order[b] == old(order)[b'];
      }
      forall k ensures k in records <==> k in order {
        if k in order {
          var p :| 0 <= p < |order| && order[p] == k;
          assert k == old(order)[if p < i then p else p + 1];
        }
        if k in old(order) && k != id {
          var p :| 0 <= p < |old(order)| && old(order)[p] == k;
          assert p != i;
          assert k == order[if p < i then p else p - 1];
        }
      }
    }

    /** One turn of the `list_sessions` loop. */
    method LoadEntry(key: string, now: DateTime) returns (r: Result<seq<ConversationSession>, Exc>)
      requires key in records
      ensures r.Err? <==> ListEntry(records, key, now).Err?
      ensures r.Err? ==> r.error == ListEntry(records, key, now).error
      ensures r.Ok? ==> |r.value| == |ListEntry(records, key, now).value| <= 1
      ensures r.Ok? && r.value != [] ==> fresh(r.value[0]) && Encode(r.value[0]) == ListEntry(records, key, now).value[0]
    {
      var inner := records[key].sessionId;
      var sid := MakeConversationId(inner);
      if sid.Err? {
        return Err(sid.error);
      }
      var one := LoadSession(inner, now);
      if one.Err? {
        return Err(one.error);
      }
      if one.value.Some? {
        return Ok([one.value.value]);
      }
      return Ok([]);
    }

    /** `list_sessions`: one freshly loaded session per stored record, in order. */
    method ListSessions(now: DateTime) returns (r: Result<seq<ConversationSession>, Exc>)
      requires Valid()
      ensures r.Ok? <==> ListSpec(records, order, now).Ok?
      ensures r.Err? ==> r.error == ListSpec(records, order, now).error
      ensures r.Ok? ==> |r.value| == |ListSpec(records, order, now).value|
      ensures r.Ok? ==> forall i :: 0 <= i < |r.value| ==> fresh(r.value[i])
      ensures r.Ok? ==> forall i :: 0 <= i < |r.value| ==> Encode(r.value[i]) == ListSpec(records, order, now).value[i]
    {
      var sessions: seq<ConversationSession> := [];
      ghost var loaded: seq<SessionRecord> := [];
      var i := 0;
      PrependNil(ListSpec(records, order, now));
      while i < |order|
        invariant 0 <= i <= |order|
        invariant |sessions| == |loaded|
        invariant forall j :: 0 <= j < |sessions| ==> fresh(sessions[j]) && Encode(sessions[j]) == loaded[j]
        invariant ListSpec(records, order, now) == PrependOk(loaded, ListFrom(records, order, i, now))
      {
        label Step:
        var entry := LoadEntry(order[i], now);
        EncodesKept@Step(sessions);
        if entry.Err? {
          return Err(entry.error);
        }
        ghost var head := ListEntry(records, order[i], now).value;
        PrependAssoc(loaded, head, ListFrom(records, order, i + 1, now));
        if entry.value != [] {
          sessions := sessions + [entry.value[0]];
          loaded := loaded + [head[0]];
        } else {
          assert loaded + head == loaded;
        }
        i := i + 1;
      }
      assert loaded + [] == loaded;
      r := Ok(sessions);
    }
  }

  /** A call that allocates but changes nothing leaves the records of existing sessions as they were. */
  twostate lemma EncodesKept(sessions: seq<ConversationSession>)
    requires forall j :: 0 <= j < |sessions| ==> unchanged(sessions[j]) && unchanged(sessions[j].shellSessions)
    ensures forall j :: 0 <= j < |sessions| ==> Encode(sessions[j]) == old(Encode(sessions[j]))
  {
  }

  lemma EncodeShellsAppend(shells: seq<ShellSession>, sh: ShellSession)
    ensures EncodeShells(shells + [sh])
         == EncodeShells(shells) + [ShellRecord(sh.shellSessionId, sh.console, sh.createdAt.value, sh.lastUpdated.value)]
  {
    if shells != [] {
      assert (shells + [sh])[1..] == shells[1..] + [sh];
      EncodeShellsAppend(shells[1..], sh);
    }
  }

  /** The record written for each shell holds that shell's id, console and times. */
  lemma {:induction false} EncodeShellsAt(shells: seq<ShellSession>)
    ensures forall i :: 0 <= i < |shells| ==>
              EncodeShells(shells)[i]
              == ShellRecord(shells[i].shellSessionId, shells[i].console, shells[i].createdAt.value, shells[i].lastUpdated.value)
  {
    if shells != [] {
      EncodeShellsAt(shells[1..]);
    }
  }

  /** The position of `x` in a list that holds it. */
  method IndexOf(xs: seq<string>, x: string) returns (i: nat)
    requires x in xs
    ensures i < |xs| && xs[i] == x
    ensures forall j :: 0 <= j < i ==> xs[j] != x
  {
    i := 0;
    while xs[i] != x
      invariant i < |xs|
      invariant forall j :: 0 <= j < i ==> xs[j] != x
      invariant x in xs[i..]
      decreases |xs| - i
    {
      assert xs[i..] == [xs[i]] + xs[i + 1..];
      i := i + 1;
    }
  }

  // ---------------------------------------------------------------------------
  // The conversation service: the repository behind a read-through cache.
  // ---------------------------------------------------------------------------

  class ConversationRepositoryService {
    const repository: FileConversationRepository
    /** `_sessions_cache`: session objects by id, handed out as they are. */
    var cache: map<ConversationId, ConversationSession>

    constructor (repository: FileConversationRepository)
      ensures this.repository == repository && cache == map[]
    {
      this.repository := repository;
      cache := map[];
    }

    /** `create_session`: a new pending session under a fresh id, saved at once and not cached. */
    method CreateSession(title: string, random: seq<nat>, now: DateTime) returns (session: ConversationSession)
      requires IsNibbles(random) && repository.Valid()
      modifies repository
      ensures fresh(session) && repository.Valid()
      ensures session.sessionId == GenerateConversationId(random) && session.title == title
      ensures session.status == "pending" && session.messages == [] && session.events == [] && session.unreadMessageCount == 0
      ensures repository.records == old(repository.records)[session.sessionId := Encode(session)]
      ensures session.sessionId in repository.order
    {
      session := new ConversationSession.New(GenerateConversationId(random), title, now);
      repository.SaveSession(session);
    }

    /**
     * `get_session`: a cached id gives the cached object and leaves the cache
     * alone; otherwise the repository is asked and only a found session is cached.
     */
    method GetSession(id: ConversationId, now: DateTime) returns (r: Result<Option<ConversationSession>, Exc>)
      modifies this
      ensures id in old(cache) ==> r == Ok(Some(old(cache)[id])) && cache == old(cache)
      ensures id !in old(cache) && id !in repository.records ==> r == Ok(None) && cache == old(cache)
      ensures id !in old(cache) && id in repository.records ==>
                && (r.Ok? <==> Reload(repository.records[id], now).Ok?)
                && (r.Err? ==> r.error == Reload(repository.records[id], now).error && cache == old(cache))
                && (r.Ok? ==> r.value.Some? && fresh(r.value.value) && cache == old(cache)[id := r.value.value])
                && (r.Ok? ==> Encode(r.value.value) == Reload(repository.records[id], now).value)
    {
      if id in cache {
        return Ok(Some(cache[id]));
      }
      r := repository.LoadSession(id, now);
      if r.Ok? && r.value.Some? {
        cache := cache[id := r.value.value];
      }
    }

    /** `list_sessions`: straight to the repository, the cache neither read nor filled. */
    method ListSessions(now: DateTime) returns (r: Result<seq<ConversationSession>, Exc>)
      requires repository.Valid()
      ensures r.Ok? <==> ListSpec(repository.records, repository.order, now).Ok?
      ensures r.Err? ==> r.error == ListSpec(repository.records, repository.order, now).error
      ensures r.Ok? ==> |r.value| == |ListSpec(repository.records, repository.order, now).value|
      ensures r.Ok? ==> forall i :: 0 <= i < |r.value| ==> fresh(r.value[i])
      ensures r.Ok? ==> forall i :: 0 <= i < |r.value| ==> Encode(r.value[i]) == ListSpec(repository.records, repository.order, now).value[i]
    {
      r := repository.ListSessions(now);
    }

    /** `delete_session`: the cache entry goes first, whatever the repository then answers. */
    method DeleteSession(id: ConversationId) returns (found: bool)
      requires repository.Valid()
      modifies this, repository
      ensures repository.Valid()
      ensures cache == old(cache) - {id}
      ensures found == (id in old(repository.records))
      ensures repository.records == old(repository.records) - {id}
    {
      cache := cache - {id};
      found := repository.DeleteSession(id);
    }

    /**
     * `stop_session`: False for an unknown id. For a known one the status
     * "stopped" is refused, so the `ValueError` propagates: the session's
     * state is unchanged, nothing is saved, and the only trace left is the
     * cache entry `get_session` may have added.
     */
    method StopSession(id: ConversationId, now: DateTime) returns (r: Result<bool, Exc>)
      modifies this, cache.Values
      ensures repository.records == old(repository.records)
      ensures id !in old(cache) && id !in repository.records ==> r == Ok(false) && cache == old(cache)
      ensures id in old(cache) ==> r == Err(StatusError) && cache == old(cache)
      ensures id in old(cache) ==> old(cache)[id].status == old(cache[id].status)
      ensures id !in old(cache) && id in repository.records ==>
                r == Err(if Reload(repository.records[id], now).Ok? then StatusError
                         else Reload(repository.records[id], now).error)
      ensures r != Ok(true)
      ensures forall k :: k in old(cache) ==> unchanged(old(cache)[k])
      ensures id !in old(cache) && id in repository.records && Reload(repository.records[id], now).Ok? ==>
                && id in cache && cache == old(cache)[id := cache[id]] && fresh(cache[id])
                && Encode(cache[id]) == Reload(repository.records[id], now).value
      ensures id !in old(cache) && id in repository.records && Reload(repository.records[id], now).Err? ==> cache == old(cache)
    {
      var found := GetSession(id, now);
      if found.Err? {
        return Err(found.error);
      }
      if found.value.None? {
        return Ok(false);
      }
      var session := found.value.value;
      StoppedIsNoStatus();
      label Found:
      var failure := session.UpdateStatus("stopped", now);
      assert unchanged@Found(session);
      return Err(failure.value);
    }
  }

  // ---------------------------------------------------------------------------
  // The event service: handlers registered per event type.
  // ---------------------------------------------------------------------------

  /** A registered handler, by identity; which handlers raise is a parameter of each emission. */
  type HandlerId = nat

  /** The handlers registered for `eventType` by `registrations`, in registration order. */
  function Registered(registrations: seq<(string, HandlerId)>, eventType: string): (r: seq<HandlerId>)
    ensures |r| <= |registrations|
  {
    if registrations == [] then []
    else
      var last := registrations[|registrations| - 1];
      Registered(registrations[..|registrations| - 1], eventType) + (if last.0 == eventType then [last.1] else [])
  }

  /**
   * The handlers an emission awaits: all of them in order, up to and including
   * the first that raises, which ends the loop.
   */
  function Invocations(hs: seq<HandlerId>, failing: set<HandlerId>): seq<HandlerId> {
    if hs == [] then []
    else if hs[0] in failing then [hs[0]]
    else [hs[0]] + Invocations(hs[1..], failing)
  }

  /**
   * The handlers awaited are a prefix of the registered ones: all of them when
   * none raises, otherwise exactly those up to the first that raises.
   */
  lemma {:induction false} InvocationsPrefix(hs: seq<HandlerId>, failing: set<HandlerId>)
    ensures var r := Invocations(hs, failing);
            && |r| <= |hs| && r == hs[..|r|]
            && (forall i :: 0 <= i < |r| - 1 ==> r[i] !in failing)
            && ((forall h :: h in hs ==> h !in failing) ==> r == hs)
            && ((exists h :: h in hs && h in failing) ==> r != [] && r[|r| - 1] in failing)
  {
    if hs != [] && hs[0] !in failing {
      InvocationsPrefix(hs[1..], failing);
      var rest := Invocations(hs[1..], failing);
      assert hs[1..][..|rest|] == rest;
      assert hs == [hs[0]] + hs[1..];
      assert forall i :: 1 <= i < |hs| ==> hs[i] == hs[1..][i - 1];
    }
  }

  lemma InvocationsUnfold(hs: seq<HandlerId>, failing: set<HandlerId>)
    requires hs != []
    ensures hs[0] in failing ==> Invocations(hs, failing) == [hs[0]]
    ensures hs[0] !in failing ==> Invocations(hs, failing) == [hs[0]] + Invocations(hs[1..], failing)
  {
  }

  class EventManagementService {
    /** `event_handlers`: event type to the handlers registered for it. */
    var handlers: map<string, seq<HandlerId>>
    /** Every registration so far, in order; the dict is their projection. */
    ghost var registrations: seq<(string, HandlerId)>

    ghost predicate Valid()
      reads this
    {
      && (forall t :: t in handlers ==> handlers[t] == Registered(registrations, t))
      && (forall t :: t !in handlers ==> Registered(registrations, t) == [])
    }

    constructor ()
      ensures Valid() && handlers == map[] && registrations == []
    {
      handlers := map[];
      registrations := [];
    }

    /** The handlers for a type, `[]` when none was registered. */
    function HandlersFor(eventType: string): (r: seq<HandlerId>)
      reads this
      requires Valid()
      ensures r == Registered(registrations, eventType)
    {
      if eventType in handlers then handlers[eventType] else []
    }

    /** `register_event_handler`: appended to its type's list; every other type keeps its list. */
    method RegisterEventHandler(eventType: string, handler: HandlerId)
      requires Valid()
      modifies this
      ensures Valid()
      ensures registrations == old(registrations) + [(eventType, handler)]
      ensures HandlersFor(eventType) == old(HandlersFor(eventType)) + [handler]
      ensures forall t :: t != eventType ==> HandlersFor(t) == old(HandlersFor(t))
    {
      var list := if eventType in handlers then handlers[eventType] else [];
      handlers := handlers[eventType := list + [handler]];
      registrations := registrations + [(eventType, handler)];
      assert registrations[..|registrations| - 1] == old(registrations);
    }

    /**
     * `create_event`: the event is added to the session, then its type's
     * handlers are awaited in order. Any exception, from `add_event` or from a
     * handler, is caught and gives False; a handler that raises leaves the
     * event in the session.
     */
    method CreateEvent(session: ConversationSession, eventType: string, data: seq<(string, Json)>,
                       random: seq<nat>, now: DateTime, failing: set<HandlerId>)
      returns (ok: bool, invoked: seq<HandlerId>)
      requires Valid() && IsNibbles(random)
      modifies session`events, session`lastUpdated
      ensures var e := MakeEvent(MessageIdRepr(GenerateMessageId(random)), session.sessionId, eventType, data, Timestamp(now));
              && (e.Err? ==> !ok && invoked == [] && session.events == old(session.events))
              && (e.Err? ==> session.lastUpdated == old(session.lastUpdated))
              && (e.Ok? ==> session.events == old(session.events) + [e.value] && session.lastUpdated == Timestamp(now))
              && (e.Ok? ==> invoked == Invocations(HandlersFor(eventType), failing))
              && (e.Ok? ==> (ok <==> forall h :: h in HandlersFor(eventType) ==> h !in failing))
    {
      var added := session.AddEvent(eventType, data, random, now);
      if added.Err? {
        return false, [];
      }
      ok, invoked := Notify(HandlersFor(eventType), failing);
    }
  }

  /** The handler loop of `create_event`: each handler awaited in turn until one raises. */
  method Notify(hs: seq<HandlerId>, failing: set<HandlerId>) returns (ok: bool, invoked: seq<HandlerId>)
    ensures invoked == Invocations(hs, failing)
    ensures ok <==> forall h :: h in hs ==> h !in failing
  {
    invoked := [];
    var i := 0;
    assert hs[0..] == hs && [] + Invocations(hs, failing) == Invocations(hs, failing);
    while i < |hs|
      invariant 0 <= i <= |hs|
      invariant forall j :: 0 <= j < i ==> hs[j] !in failing
      invariant Invocations(hs, failing) == invoked + Invocations(hs[i..], failing)
    {
      InvocationsUnfold(hs[i..], failing);
      assert hs[i..][0] == hs[i] && hs[i..][1..] == hs[i + 1..];
      invoked := invoked + [hs[i]];
      if hs[i] in failing {
        return false, invoked;
      }
      i := i + 1;
    }
    assert hs[i..] == [];
    return true, invoked;
  }

  // ---------------------------------------------------------------------------
  // The canned stream of `stream_conversation`.
  // ---------------------------------------------------------------------------

  const Steps: seq<string> := ["Analyzing your request...", "Identifying relevant tools...",
                               "Executing commands...", "Generating response..."]

  function StreamReply(message: string): string {
    "I received your message: '" + message + "'. This is a streaming response."
  }

  /** `f"event: {name}\ndata: {json.dumps(payload)}\n\n"`, frame by frame. */
  function Frames(payloads: seq<(string, Json)>): (r: seq<Sse.Event>)
    ensures |r| == |payloads|
    ensures forall i :: 0 <= i < |r| ==> r[i] == Sse.Event(payloads[i].0, Dumps(payloads[i].1))
  {
    seq(|payloads|, i requires 0 <= i < |payloads| => Sse.Event(payloads[i].0, Dumps(payloads[i].1)))
  }

  /** JSON payloads never break the framing: `json.dumps` writes no line break. */
  lemma FramesWellFormed(payloads: seq<(string, Json)>)
    requires forall i :: 0 <= i < |payloads| ==> payloads[i].0 != [] && Sse.NoLineBreak(payloads[i].0)
    ensures forall i :: 0 <= i < |payloads| ==> Sse.WellFormed(Frames(payloads)[i])
  {
    forall i | 0 <= i < |payloads| ensures Sse.WellFormed(Frames(payloads)[i]) {
      var d := Dumps(payloads[i].1);
      assert forall k :: 0 <= k < |d| ==> ' ' <= d[k];
    }
  }

  /** The event names and payloads `stream_conversation` yields, in order. */
  function StreamPayloads(message: string): (r: seq<(string, Json)>)
    ensures |r| == 7
    ensures r[0] == ("message", JObject([("content", JString("Processing your message..."))]))
    ensures forall i :: 1 <= i <= 4 ==> r[i] == ("step", JObject([("step", JString(Steps[i - 1]))]))
    ensures r[5] == ("message", JObject([("content", JString(StreamReply(message)))]))
    ensures r[6] == ("done", JObject([("completed", JBool(true))]))
  {
    [("message", JObject([("content", JString("Processing your message..."))]))]
    + seq(4, i requires 0 <= i < 4 => ("step", JObject([("step", JString(Steps[i]))])))
    + [("message", JObject([("content", JString(StreamReply(message)))])),
       ("done", JObject([("completed", JBool(true))]))]
  }

  /** The response body of `stream_conversation`. */
  function StreamConversation(message: string): string {
    Sse.Stream(Frames(StreamPayloads(message)))
  }

  /**
   * A client reading the body dispatches exactly the seven events, in order:
   * whatever the message, the JSON payloads cannot break the framing.
   */
  lemma StreamConversationParses(message: string)
    ensures Sse.Parse(StreamConversation(message)) == Frames(StreamPayloads(message))
  {
    var ps := StreamPayloads(message);
    assert forall i :: 0 <= i < |ps| ==> ps[i].0 in {"message", "step", "done"};
    FramesWellFormed(ps);
    Sse.ParseStream(Frames(ps));
  }
}
