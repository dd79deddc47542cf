/** What one scope's calls can do to another's data: nothing, exactly if the two scopes are apart. */
module CacheIsolation {
  import opened Common
  import opened Sorting
  import opened CacheKeys
  import opened Caches

  // ---- lists ----

  lemma {:induction false} FilterAppend<T>(p: T -> bool, a: seq<T>, b: seq<T>)
    ensures Filter(p, a + b) == Filter(p, a) + Filter(p, b)
  {
    if b == [] {
      assert a + b == a;
    } else {
      FilterAppend(p, a, b[..|b| - 1]);
      assert (a + b)[..|a + b| - 1] == a + b[..|b| - 1];
    }
  }

  lemma {:induction false} FilterNone<T>(p: T -> bool, s: seq<T>)
    requires forall x | x in s :: !p(x)
    ensures Filter(p, s) == []
  {
    if s != [] {
      FilterNone(p, s[..|s| - 1]);
      assert s[|s| - 1] in s;
    }
  }

  lemma FilterOne<T>(p: T -> bool, x: T)
    ensures Filter(p, [x]) == if p(x) then [x] else []
  {
    assert [x][..0] == [];
  }

  lemma {:induction false} FilterTwice<T>(p: T -> bool, q: T -> bool, r: T -> bool, s: seq<T>)
    requires forall x | x in s :: r(x) <==> p(x) && q(x)
    ensures Filter(p, Filter(q, s)) == Filter(r, s)
  {
    if s != [] {
      var last := s[|s| - 1];
      assert last in s;
      FilterTwice(p, q, r, s[..|s| - 1]);
      FilterAppend(p, Filter(q, s[..|s| - 1]), [last]);
      FilterOne(p, last);
    }
  }

  // ---- what one scope can see ----

  function MessageRows(db: Db, s: string, room: string): seq<MessageRow> { Filter(InRoom(K(s, room)), db.messages) }

  function OutboxRows(db: Db, s: string): seq<OutboxRow> { Filter(Keyed(K(s, "outbox")), db.outbox) }

  /** Not only what the scope's adapter reads: every key under the scope, whatever it is for. */
  ghost predicate SameMem(m: Store, m': Store, s: string) {
    && MemVersion(m', s) == MemVersion(m, s)
    && (forall x :: K(s, x) in m' <==> K(s, x) in m)
    && (forall x :: K(s, x) in m ==> K(s, x) in m' && m'[K(s, x)] == m[K(s, x)])
  }

  ghost predicate SameDb(db: Db, db': Db, s: string) {
    && DbVersion(db', s) == DbVersion(db, s) && DbRooms(db', s) == DbRooms(db, s)
    && (forall room :: MessageRows(db', s, room) == MessageRows(db, s, room))
    && OutboxRows(db', s) == OutboxRows(db, s)
  }

  // ---- the map ----

  /** Only keys of the scope `c`, its version key among them, changed. */
  ghost predicate OnlyWithin(m: Store, m': Store, c: string) {
    forall k | k != VersionKey(c) && !StartsWith(k, c + ":") ::
      (k in m' <==> k in m) && (k in m ==> k in m' && m'[k] == m[k])
  }

  lemma WithinIsApart(m: Store, m': Store, c: string, s: string)
    requires OnlyWithin(m, m', c) && Apart(c, s)
    ensures SameMem(m, m', s)
  {
    VersionKeyIsApart(s, c, "");
    VersionKeyIsApart(c, s, "");
    forall x ensures K(s, x) != VersionKey(c) && !StartsWith(K(s, x), c + ":") {
      VersionKeyIsApart(c, s, x);
      KeysDiffer(s, x, c, "");
    }
  }

  lemma PutWithin(m: Store, m': Store, c: string, x: string, v: Value)
    requires OnlyWithin(m, m', c)
    ensures OnlyWithin(m, m'[K(c, x) := v], c) && OnlyWithin(m, m' - {K(c, x)}, c)
  {
    KeyStarts(c, x);
  }

  lemma CallStaysWithin(m: Store, c: Call)
    ensures OnlyWithin(m, MemCall(m, c), c.scope)
  {
    var m' := MemCheck(m, c.scope, c.version);
    assert OnlyWithin(m, m', c.scope);
    match c.op {
      case SaveRooms(items) => PutWithin(m, m', c.scope, "rooms", Rooms(items));
      case SaveMessages(room, ms) => PutWithin(m, m', c.scope, MsgSuffix(room), Messages(Newest(ms, c.limit)));
      case SaveOutbox(records) => PutWithin(m, m', c.scope, "outbox", Outbox(records));
      case DeleteRoom(room) => DeleteStaysWithin(m, m', c.scope, room);
      case ClearAll =>
      case Load =>
    }
  }

  lemma DeleteStaysWithin(m: Store, m': Store, c: string, roomId: string)
    requires OnlyWithin(m, m', c)
    ensures OnlyWithin(m, MemDeleteRoom(m', c, roomId), c)
  {
    PutWithin(m, m', c, MsgSuffix(roomId), Rooms([]));
    KeyStarts(c, "rooms");
    KeyStarts(c, "outbox");
  }

  lemma MemIsolated(m: Store, c: Call, s: string)
    requires Apart(c.scope, s)
    ensures SameMem(m, MemCall(m, c), s)
  {
    CallStaysWithin(m, c);
    WithinIsApart(m, MemCall(m, c), c.scope, s);
  }

  /** Clearing a scope clears every scope nested in it. */
  lemma ClearReachesInside(m: Store, a: string, b: string, x: string)
    requires StartsWith(b + ":", a + ":")
    ensures K(b, x) !in MemClear(m, a)
  {
    KeyStarts(b, x);
    assert K(b, x)[..|a| + 1] == K(b, x)[..|b| + 1][..|a| + 1] == a + ":";
  }

  /** No call in one scope ever touches a key of another, exactly if they are apart. */
  lemma IsolationIff(a: string, b: string)
    requires a != b
    ensures (forall m, c: Call | c.scope == a :: SameMem(m, MemCall(m, c), b)) <==> Apart(a, b)
  {
    KeysMeetIff(a, b);
    if Apart(a, b) {
      forall m, c: Call | c.scope == a ensures SameMem(m, MemCall(m, c), b) {
        MemIsolated(m, c, b);
      }
    } else {
      var x, y :| K(a, x) == K(b, y);
      var m := map[K(b, y) := Rooms([])];
      var c := Call(a, 0, 1, ClearAll);
      KeyStarts(a, x);
      assert MemCall(m, c) == MemClear(m, a);
      assert !SameMem(m, MemCall(m, c), b);
    }
  }

  // ---- the tables ----

  predicate WellKeyed(r: MessageRow) { r.k == MessageKey(r.room, r.message) && r.seqNo == r.message.seqNo }

  ghost predicate AllKeyed(t: seq<MessageRow>) { forall r | r in t :: WellKeyed(r) }

  /** The key of a row of the scope starts with the scope. */
  lemma RowInScope(s: string, room: string, m: CachedMessage)
    ensures MessageKey(K(s, room), m) == K(s, room + ":" + Dec(m.seqNo) + ":" + m.id)
  {
  }

  lemma RowsOfScopesDiffer(r: MessageRow, s: string, room: string, x: MessageRow, c: string, room': string)
    requires Apart(s, c) && WellKeyed(r) && WellKeyed(x) && r.room == K(s, room) && x.room == K(c, room')
    ensures r.k != x.k && r.room != x.room
  {
    RowInScope(s, room, r.message);
    RowInScope(c, room', x.message);
    KeysDiffer(s, room + ":" + Dec(r.message.seqNo) + ":" + r.message.id, c, room' + ":" + Dec(x.message.seqNo) + ":" + x.message.id);
    KeysDiffer(s, room, c, room');
  }

  lemma KeyedApart(k: string, s: string, c: string)
    requires Apart(c, s) && StartsWith(k, K(s, "outbox"))
    ensures !StartsWith(k, K(c, "outbox"))
  {
    var rest := k[|K(s, "outbox")|..];
    assert k == K(s, "outbox" + rest);
    KeysDiffer(s, "outbox" + rest, c, "outbox");
  }

  lemma {:induction false} PutKeepsKeyed(t: seq<MessageRow>, rows: seq<MessageRow>)
    requires AllKeyed(t) && AllKeyed(rows)
    ensures AllKeyed(PutMessages(t, rows))
  {
    if rows != [] {
      var n := |rows| - 1;
      assert rows[n] in rows && forall r | r in rows[..n] :: r in rows;
      PutKeepsKeyed(t, rows[..n]);
      FilterMembers((x: MessageRow) => x.k != rows[n].k, PutMessages(t, rows[..n]));
    }
  }

  lemma {:induction false} PutLeavesRoom(t: seq<MessageRow>, rows: seq<MessageRow>, s: string, room: string, c: string, room': string)
    requires Apart(c, s) && AllKeyed(t) && AllKeyed(rows) && forall r | r in rows :: r.room == K(c, room')
    ensures Filter(InRoom(K(s, room)), PutMessages(t, rows)) == Filter(InRoom(K(s, room)), t)
  {
    if rows != [] {
      var n := |rows| - 1;
      var last := rows[n];
      var key := K(s, room);
      assert last in rows && forall r | r in rows[..n] :: r in rows;
      PutLeavesRoom(t, rows[..n], s, room, c, room');
      PutKeepsKeyed(t, rows[..n]);
      var t' := PutMessages(t, rows[..n]);
      forall x | x in t' && x.room == key ensures x.k != last.k && last.room != key {
        RowsOfScopesDiffer(x, s, room, last, c, room');
      }
      KeysDiffer(s, room, c, room');
      FilterTwice(InRoom(key), (x: MessageRow) => x.k != last.k, InRoom(key), t');
      FilterAppend(InRoom(key), Filter((x: MessageRow) => x.k != last.k, t'), [last]);
      FilterOne(InRoom(key), last);
    }
  }

  lemma {:induction false} PutLeavesOutbox(t: seq<OutboxRow>, rows: seq<OutboxRow>, s: string, c: string)
    requires Apart(c, s) && forall r | r in rows :: StartsWith(r.k, K(c, "outbox"))
    ensures Filter(Keyed(K(s, "outbox")), PutRecords(t, rows)) == Filter(Keyed(K(s, "outbox")), t)
  {
    if rows != [] {
      var n := |rows| - 1;
      var last := rows[n];
      var prefix := K(s, "outbox");
      assert last in rows && forall r | r in rows[..n] :: r in rows;
      PutLeavesOutbox(t, rows[..n], s, c);
      var t' := PutRecords(t, rows[..n]);
      forall x: OutboxRow | StartsWith(x.k, prefix) ensures x.k != last.k { KeyedApart(x.k, s, c); }
      FilterTwice(Keyed(prefix), (x: OutboxRow) => x.k != last.k, Keyed(prefix), t');
      FilterAppend(Keyed(prefix), Filter((x: OutboxRow) => x.k != last.k, t'), [last]);
      FilterOne(Keyed(prefix), last);
    }
  }

  lemma ClearIsolated(db: Db, c: string, s: string)
    requires Apart(c, s)
    ensures SameDb(db, DbClear(db, c), s)
  {
    VersionKeyIsApart(c, s, "");
    forall room ensures MessageRows(DbClear(db, c), s, room) == MessageRows(db, s, room) {
      KeysDiffer(s, room, c, "");
      FilterTwice(InRoom(K(s, room)), OutOfScope(c), InRoom(K(s, room)), db.messages);
    }
    forall r: OutboxRow | StartsWith(r.k, K(s, "outbox")) ensures !StartsWith(r.k, K(c, "outbox")) { KeyedApart(r.k, s, c); }
    FilterTwice(Keyed(K(s, "outbox")), NotKeyed(K(c, "outbox")), Keyed(K(s, "outbox")), db.outbox);
    assert c != s;
  }

  lemma CheckIsolated(db: Db, c: string, version: int, s: string)
    requires Apart(c, s)
    ensures SameDb(db, DbCheck(db, c, version), s)
  {
    VersionKeyIsApart(c, s, "");
    ClearIsolated(db, c, s);
  }

  lemma SaveMessagesIsolated(db: Db, c: string, roomId: string, ms: seq<CachedMessage>, limit: nat, s: string)
    requires Apart(c, s) && AllKeyed(db.messages)
    ensures SameDb(db, DbSaveMessages(db, c, roomId, ms, limit), s)
  {
    var key := K(c, roomId);
    var kept, rows := Filter(NotInRoom(key), db.messages), Map(RowOf(key), Newest(ms, limit));
    FilterMembers(NotInRoom(key), db.messages);
    forall room ensures MessageRows(DbSaveMessages(db, c, roomId, ms, limit), s, room) == MessageRows(db, s, room) {
      PutLeavesRoom(kept, rows, s, room, c, roomId);
      KeysDiffer(s, room, c, roomId);
      FilterTwice(InRoom(K(s, room)), NotInRoom(key), InRoom(K(s, room)), db.messages);
    }
  }

  lemma SaveOutboxIsolated(db: Db, c: string, records: seq<OutboxRecord>, s: string)
    requires Apart(c, s)
    ensures SameDb(db, DbSaveOutbox(db, c, records), s)
  {
    var prefix, prefix' := K(c, "outbox"), K(s, "outbox");
    var rows := Map(RecordRow(prefix), records);
    RecordsAreKeyed(prefix, records);
    PutLeavesOutbox(Filter(NotKeyed(prefix), db.outbox), rows, s, c);
    forall r: OutboxRow | StartsWith(r.k, prefix') ensures !StartsWith(r.k, prefix) { KeyedApart(r.k, s, c); }
    FilterTwice(Keyed(prefix'), NotKeyed(prefix), Keyed(prefix'), db.outbox);
    assert forall room :: MessageRows(DbSaveOutbox(db, c, records), s, room) == MessageRows(db, s, room);
  }

  lemma RecordsAreKeyed(prefix: string, records: seq<OutboxRecord>)
    ensures forall r | r in Map(RecordRow(prefix), records) :: StartsWith(r.k, prefix)
  {
    var rows := Map(RecordRow(prefix), records);
    forall i | 0 <= i < |rows| ensures StartsWith(rows[i].k, prefix) {
      assert rows[i].k == prefix + (":" + records[i].id);
    }
  }

  lemma DeleteRoomIsolated(db: Db, c: string, roomId: string, s: string)
    requires Apart(c, s)
    ensures SameDb(db, DbDeleteRoom(db, c, roomId), s)
  {
    var dead := DeadKeys(db.outbox, K(c, "outbox"), roomId);
    forall r: OutboxRow | StartsWith(r.k, K(s, "outbox")) ensures r.k !in dead { KeyedApart(r.k, s, c); }
    FilterTwice(Keyed(K(s, "outbox")), NotAmong(dead), Keyed(K(s, "outbox")), db.outbox);
    forall room ensures MessageRows(DbDeleteRoom(db, c, roomId), s, room) == MessageRows(db, s, room) {
      KeysDiffer(s, room, c, roomId);
      FilterTwice(InRoom(K(s, room)), NotInRoom(K(c, roomId)), InRoom(K(s, room)), db.messages);
    }
    assert c != s;
  }

  lemma SameDbChains(a: Db, b: Db, c: Db, s: string)
    requires SameDb(a, b, s) && SameDb(b, c, s)
    ensures SameDb(a, c, s)
  {
    forall room ensures MessageRows(c, s, room) == MessageRows(a, s, room) {
      assert MessageRows(b, s, room) == MessageRows(a, s, room);
    }
  }

  lemma CheckKeepsKeyed(db: Db, c: string, version: int)
    requires AllKeyed(db.messages)
    ensures AllKeyed(DbCheck(db, c, version).messages) && AllKeyed(DbClear(db, c).messages)
  {
    FilterMembers(OutOfScope(c), db.messages);
  }

  /** Whatever the ids of its rooms, messages and entries, a call leaves a scope that is apart from its own as it was. */
  lemma DbIsolated(db: Db, c: Call, s: string)
    requires AllKeyed(db.messages) && Apart(c.scope, s)
    ensures SameDb(db, DbCall(db, c), s)
  {
    CheckIsolated(db, c.scope, c.version, s);
    CheckKeepsKeyed(db, c.scope, c.version);
    var db' := DbCheck(db, c.scope, c.version);
    match c.op {
      case SaveRooms(items) =>
        assert c.scope != s;
        assert forall room :: MessageRows(DbCall(db, c), s, room) == MessageRows(db', s, room);
        SameDbChains(db, db', DbCall(db, c), s);
      case SaveMessages(room, ms) =>
        SaveMessagesIsolated(db', c.scope, room, ms, c.limit, s);
        SameDbChains(db, db', DbCall(db, c), s);
      case SaveOutbox(records) =>
        SaveOutboxIsolated(db', c.scope, records, s);
        SameDbChains(db, db', DbCall(db, c), s);
      case DeleteRoom(room) =>
        DeleteRoomIsolated(db', c.scope, room, s);
        SameDbChains(db, db', DbCall(db, c), s);
      case ClearAll => ClearIsolated(db, c.scope, s);
      case Load =>
    }
  }

  lemma CallKeepsKeyed(db: Db, c: Call)
    requires AllKeyed(db.messages)
    ensures AllKeyed(DbCall(db, c).messages)
  {
    CheckKeepsKeyed(db, c.scope, c.version);
    var db' := DbCheck(db, c.scope, c.version);
    match c.op {
      case SaveMessages(room, ms) =>
        FilterMembers(NotInRoom(K(c.scope, room)), db'.messages);
        PutKeepsKeyed(Filter(NotInRoom(K(c.scope, room)), db'.messages), Map(RowOf(K(c.scope, room)), Newest(ms, c.limit)));
      case DeleteRoom(room) => FilterMembers(NotInRoom(K(c.scope, room)), db'.messages);
      case _ =>
    }
  }

  // ---- runs ----

  function MemRun(calls: seq<Call>): Store {
    if calls == [] then map[] else MemCall(MemRun(calls[..|calls| - 1]), calls[|calls| - 1])
  }

  function DbRun(calls: seq<Call>): Db {
    if calls == [] then Db(map[], [], [], map[]) else DbCall(DbRun(calls[..|calls| - 1]), calls[|calls| - 1])
  }

  lemma {:induction false} RunKeepsKeyed(calls: seq<Call>)
    ensures AllKeyed(DbRun(calls).messages)
  {
    if calls != [] {
      RunKeepsKeyed(calls[..|calls| - 1]);
      CallKeepsKeyed(DbRun(calls[..|calls| - 1]), calls[|calls| - 1]);
    }
  }

  /** After any calls at all, a call in one scope changes nothing that any load of a scope apart from it returns. */
  lemma ScopesAreIsolated(calls: seq<Call>, c: Call, s: string, room: string)
    requires Apart(c.scope, s)
    ensures var m, db := MemRun(calls), DbRun(calls);
            var m', db' := MemCall(m, c), DbCall(db, c);
            && MemRooms(m', s) == MemRooms(m, s) && DbRooms(db', s) == DbRooms(db, s)
            && MemMessages(m', s, room) == MemMessages(m, s, room) && DbMessages(db', s, room) == DbMessages(db, s, room)
            && MemOutbox(m', s) == MemOutbox(m, s) && DbOutbox(db', s) == DbOutbox(db, s)
            && (forall v :: MemOk(m', s, v) == MemOk(m, s, v) && DbOk(db', s, v) == DbOk(db, s, v))
  {
    MemIsolated(MemRun(calls), c, s);
    RunKeepsKeyed(calls);
    DbIsolated(DbRun(calls), c, s);
    SameLoads(MemRun(calls), MemCall(MemRun(calls), c), s, room, DbRun(calls), DbCall(DbRun(calls), c));
  }

  lemma SameLoads(m: Store, m': Store, s: string, room: string, db: Db, db': Db)
    requires SameMem(m, m', s) && SameDb(db, db', s)
    ensures MemRooms(m', s) == MemRooms(m, s) && DbRooms(db', s) == DbRooms(db, s)
    ensures MemMessages(m', s, room) == MemMessages(m, s, room) && DbMessages(db', s, room) == DbMessages(db, s, room)
    ensures MemOutbox(m', s) == MemOutbox(m, s) && DbOutbox(db', s) == DbOutbox(db, s)
    ensures forall v :: MemOk(m', s, v) == MemOk(m, s, v) && DbOk(db', s, v) == DbOk(db, s, v)
  {
    assert MessageRows(db', s, room) == MessageRows(db, s, room);
  }

  /** A wipe of one scope takes the rows of a scope nested in it along, in the tables as in the map. */
  lemma WipeReachesInside(calls: seq<Call>, a: string, b: string, room: string, version: int, limit: nat)
    requires StartsWith(b + ":", a + ":")
    ensures var c := Call(a, version, limit, ClearAll);
            MemMessages(MemCall(MemRun(calls), c), b, room) == None && DbMessages(DbCall(DbRun(calls), c), b, room) == None
  {
    ClearReachesInside(MemRun(calls), a, b, MsgSuffix(room));
    var db := DbRun(calls);
    KeyStarts(b, room);
    assert StartsWith(K(b, room), a + ":") by {
      assert K(b, room)[..|a| + 1] == K(b, room)[..|b| + 1][..|a| + 1];
    }
    FilterMembers(OutOfScope(a), db.messages);
    FilterNone(InRoom(K(b, room)), DbClear(db, a).messages);
  }

  /** One message saved in an empty database. */
  lemma OneRowSaved(a: string, x: string, m: CachedMessage)
    ensures DbRun([Call(a, 0, 0, SaveMessages(x, [m]))]).messages == [MessageRow(MessageKey(K(a, x), m), K(a, x), m.seqNo, m)]
  {
    var c := Call(a, 0, 0, SaveMessages(x, [m]));
    assert [c][..0] == [];
    assert DbRun([c]) == DbCall(DbRun([]), c);
    assert Newest([m], 0) == [m] by {
      assert [m][..0] == [];
      assert SortStable(BySeqNo, []) == [];
    }
    var row := RowOf(K(a, x))(m);
    assert Map(RowOf(K(a, x)), [m]) == [row];
    assert PutMessages([], [row]) == [row] by {
      assert [row][..0] == [];
    }
    assert Filter(NotInRoom(K(a, x)), []) == [];
  }

  /** The tables keep scopes apart under the same condition as the map: after any calls, exactly if they are apart. */
  lemma TableIsolationIff(a: string, b: string)
    requires a != b
    ensures (forall calls, c: Call | c.scope == a :: SameDb(DbRun(calls), DbCall(DbRun(calls), c), b)) <==> Apart(a, b)
  {
    KeysMeetIff(a, b);
    if Apart(a, b) {
      forall calls, c: Call | c.scope == a ensures SameDb(DbRun(calls), DbCall(DbRun(calls), c), b) {
        RunKeepsKeyed(calls);
        DbIsolated(DbRun(calls), c, b);
      }
    } else {
      var x, y :| K(a, x) == K(b, y);
      SharedRoomIsCleared(a, x, b, y);
    }
  }

  /** A room key of both scopes: what one saves the other sees, and clearing the one takes it away. */
  lemma SharedRoomIsCleared(a: string, x: string, b: string, y: string)
    requires K(a, x) == K(b, y)
    ensures exists calls, c: Call | c.scope == a :: !SameDb(DbRun(calls), DbCall(DbRun(calls), c), b)
  {
    var m := CachedMessage("", 0, "");
    var calls := [Call(a, 0, 0, SaveMessages(x, [m]))];
    var c := Call(a, 0, 0, ClearAll);
    var db := DbRun(calls);
    OneRowSaved(a, x, m);
    FilterOne(InRoom(K(b, y)), db.messages[0]);
    KeyStarts(a, x);
    FilterMembers(OutOfScope(a), db.messages);
    FilterNone(InRoom(K(b, y)), DbClear(db, a).messages);
    assert MessageRows(db, b, y) != MessageRows(DbCall(db, c), b, y);
  }
}
