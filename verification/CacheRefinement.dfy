/** The tables behave like the map, and one scope never sees another. */
module CacheRefinement {
  import opened Common
  import opened Sorting
  import opened CacheKeys
  import opened Caches
  import opened CacheIsolation

  lemma {:induction false} FilterMap<A, B>(p: B -> bool, f: A -> B, q: A -> bool, s: seq<A>)
    requires forall x | x in s :: p(f(x)) == q(x)
    ensures Filter(p, Map(f, s)) == Map(f, Filter(q, s))
  {
    if s != [] {
      var n := |s| - 1;
      assert s[n] in s;
      FilterMap(p, f, q, s[..n]);
      assert Map(f, s)[..n] == Map(f, s[..n]);
    }
  }

  // ---- where rows may lie ----

  /** Scopes that are apart, and rooms that do not mix: exactly those whose keys cannot meet. */
  datatype Places = Places(scopes: set<string>, rooms: set<string>)
  {
    ghost predicate Separate() {
      && (forall a, b | a in scopes && b in scopes && a != b :: Apart(a, b))
      && (forall r, r' | r in rooms && r' in rooms && r != r' :: !Mixed(r, r'))
    }
  }

  ghost predicate Placed(r: MessageRow, p: Places) {
    exists s, room | s in p.scopes && room in p.rooms :: r.room == K(s, room)
  }

  ghost predicate Well(db: Db, p: Places) {
    && AllKeyed(db.messages) && (forall r | r in db.messages :: Placed(r, p))
    && (forall i, j | 0 <= i < j < |db.outbox| :: db.outbox[i].k != db.outbox[j].k)
  }

  /** Ids without colons are separate. */
  lemma ColonFreeIdsAreSeparate(p: Places)
    requires forall s | s in p.scopes :: exists u, w | ColonFree(u) && ColonFree(w) :: s == ScopeKey(u, w)
    requires forall r | r in p.rooms :: ColonFree(r)
    ensures p.Separate()
  {
    forall a, b | a in p.scopes && b in p.scopes && a != b ensures Apart(a, b) {
      var u1, w1 :| ColonFree(u1) && ColonFree(w1) && a == ScopeKey(u1, w1);
      var u2, w2 :| ColonFree(u2) && ColonFree(w2) && b == ScopeKey(u2, w2);
      ColonFreeScopesAreApart(u1, w1, u2, w2);
    }
    forall r, r' | r in p.rooms && r' in p.rooms && r != r' ensures !Mixed(r, r') { ColonFreeNeverMix(r, r'); }
  }

  lemma PlacesDoNotMix(p: Places, s: string, room: string, s': string, room': string)
    requires p.Separate() && s in p.scopes && s' in p.scopes && room in p.rooms && room' in p.rooms && (s != s' || room != room')
    ensures !Mixed(K(s, room), K(s', room'))
  {
    if s == s' {
      MixedInScope(s, room, room');
    } else {
      ApartNeverMix(s, room, s', room');
    }
  }

  lemma RowsOfRoomsDiffer(p: Places, x: MessageRow, c: string, room: string, m: CachedMessage)
    requires p.Separate() && Placed(x, p) && WellKeyed(x) && c in p.scopes && room in p.rooms && x.room != K(c, room)
    ensures x.k != MessageKey(K(c, room), m)
  {
    var s, r :| s in p.scopes && r in p.rooms && x.room == K(s, r);
    PlacesDoNotMix(p, s, r, c, room);
    PlacesDoNotMix(p, c, room, s, r);
    if x.k == MessageKey(K(c, room), m) {
      assert RowKey(x.room, x.message.seqNo, x.message.id) == RowKey(K(c, room), m.seqNo, m.id);
      RowKeysMeetIff(x.room, K(c, room));
    }
  }

  ghost predicate DistinctMessages(ms: seq<CachedMessage>) {
    forall i, j | 0 <= i < j < |ms| :: ms[i].id != ms[j].id && ms[i].seqNo != ms[j].seqNo
  }

  ghost predicate DistinctRecords(es: seq<OutboxRecord>) {
    forall i, j | 0 <= i < j < |es| :: es[i].id != es[j].id
  }

  lemma {:induction false} PutFreshMessages(t: seq<MessageRow>, rows: seq<MessageRow>)
    requires forall x, y | x in t && y in rows :: x.k != y.k
    requires forall i, j | 0 <= i < j < |rows| :: rows[i].k != rows[j].k
    ensures PutMessages(t, rows) == t + rows
  {
    if rows == [] {
      assert t + rows == t;
    } else {
      var n := |rows| - 1;
      PutFreshMessages(t, rows[..n]);
      FilterAll((x: MessageRow) => x.k != rows[n].k, t + rows[..n]);
      assert t + rows[..n] + [rows[n]] == t + rows;
    }
  }

  lemma {:induction false} PutFreshRecords(t: seq<OutboxRow>, rows: seq<OutboxRow>)
    requires forall x, y | x in t && y in rows :: x.k != y.k
    requires forall i, j | 0 <= i < j < |rows| :: rows[i].k != rows[j].k
    ensures PutRecords(t, rows) == t + rows
  {
    if rows == [] {
      assert t + rows == t;
    } else {
      var n := |rows| - 1;
      PutFreshRecords(t, rows[..n]);
      FilterAll((x: OutboxRow) => x.k != rows[n].k, t + rows[..n]);
      assert t + rows[..n] + [rows[n]] == t + rows;
    }
  }

  lemma LastDistinct(s: seq<CachedMessage>, last: CachedMessage)
    requires DistinctMessages(s) && forall y | y in s :: y.id != last.id && y.seqNo != last.seqNo
    ensures DistinctMessages(s + [last])
  {
  }

  lemma {:induction false} InsertDistinct(s: seq<CachedMessage>, x: CachedMessage)
    requires DistinctMessages(s) && forall y | y in s :: y.id != x.id && y.seqNo != x.seqNo
    ensures DistinctMessages(InsertStable(BySeqNo, s, x))
  {
    if s != [] && !BySeqNo(s[|s| - 1], x) {
      var init, last := s[..|s| - 1], s[|s| - 1];
      InsertDistinct(init, x);
      InsertMembers(BySeqNo, init, x);
      assert last in s;
      forall y | y in init ensures y.id != last.id && y.seqNo != last.seqNo {
        var i :| 0 <= i < |init| && s[i] == y;
      }
      LastDistinct(InsertStable(BySeqNo, init, x), last);
    }
  }

  lemma {:induction false} SortDistinct(s: seq<CachedMessage>)
    requires DistinctMessages(s)
    ensures DistinctMessages(SortStable(BySeqNo, s))
  {
    if s != [] {
      var init, last := s[..|s| - 1], s[|s| - 1];
      SortDistinct(init);
      SortPermutes(BySeqNo, init);
      SameMembers(SortStable(BySeqNo, init), init);
      InsertDistinct(SortStable(BySeqNo, init), last);
    }
  }

  lemma BySeqNoIsTotal()
    ensures TotalPreorder(BySeqNo)
  {
  }

  lemma TailOfSorted(s: seq<CachedMessage>, k: nat)
    requires SortedBy(BySeqNo, s) && DistinctMessages(s) && k <= |s|
    ensures DistinctMessages(s[k..]) && SortedBy(BySeqNo, s[k..])
    ensures forall m | m in s[k..] :: m in s
    ensures forall m, kept | m in s && m !in s[k..] && kept in s[k..] :: m.seqNo < kept.seqNo
  {
    forall m, kept | m in s && m !in s[k..] && kept in s[k..] ensures m.seqNo < kept.seqNo {
      var i :| 0 <= i < |s| && s[i] == m;
      var j :| k <= j < |s| && s[j] == kept;
      forall l | k <= l < |s| ensures s[l] in s[k..] { assert s[l] == s[k..][l - k]; }
      assert BySeqNo(s[i], s[j]);
    }
  }

  /** What a save keeps: sorted, of distinct messages, no more than the limit, and none newer was dropped. */
  lemma NewestIsTheTop(ms: seq<CachedMessage>, limit: nat)
    requires DistinctMessages(ms)
    ensures var r := Newest(ms, limit);
            && DistinctMessages(r) && SortedBy(BySeqNo, r)
            && (limit > 0 ==> |r| == if |ms| < limit then |ms| else limit)
            && (limit == 0 ==> |r| == |ms|)
            && (forall m | m in r :: m in ms)
            && (forall m, kept | m in ms && m !in r && kept in r :: m.seqNo < kept.seqNo)
  {
    var sorted := SortStable(BySeqNo, ms);
    BySeqNoIsTotal();
    SortSorts(BySeqNo, ms);
    SortPermutes(BySeqNo, ms);
    SameMembers(sorted, ms);
    SortDistinct(ms);
    var k := |sorted| - |Newest(ms, limit)|;
    assert Newest(ms, limit) == sorted[k..];
    TailOfSorted(sorted, k);
  }

  // ---- one save ----

  lemma SavedMessages(p: Places, db: Db, c: string, room: string, ms: seq<CachedMessage>, limit: nat)
    requires p.Separate() && Well(db, p) && c in p.scopes && room in p.rooms && DistinctMessages(ms)
    ensures var key := K(c, room);
            DbSaveMessages(db, c, room, ms, limit) ==
            db.(messages := Filter(NotInRoom(key), db.messages) + Map(RowOf(key), Newest(ms, limit)))
    ensures Well(DbSaveMessages(db, c, room, ms, limit), p)
  {
    var key := K(c, room);
    var kept := Filter(NotInRoom(key), db.messages);
    var rows := Map(RowOf(key), Newest(ms, limit));
    NewestIsTheTop(ms, limit);
    FilterMembers(NotInRoom(key), db.messages);
    forall x, y | x in kept && y in rows ensures x.k != y.k {
      RowsOfRoomsDiffer(p, x, c, room, y.message);
    }
    forall i, j | 0 <= i < j < |rows| ensures rows[i].k != rows[j].k {
      if rows[i].k == rows[j].k {
        RowKeysOfOneRoom(key, rows[i].message.seqNo, rows[i].message.id, rows[j].message.seqNo, rows[j].message.id);
      }
    }
    PutFreshMessages(kept, rows);
    PutKeepsKeyed(kept, rows);
  }

  lemma RoomAfterSave(db: Db, c: string, room: string, rows: seq<CachedMessage>, room': string)
    ensures var key := K(c, room);
            var db' := db.(messages := Filter(NotInRoom(key), db.messages) + Map(RowOf(key), rows));
            MessageRows(db', c, room') == if room' == room then Map(RowOf(key), rows) else MessageRows(db, c, room')
  {
    var key, key' := K(c, room), K(c, room');
    var kept, added := Filter(NotInRoom(key), db.messages), Map(RowOf(key), rows);
    FilterAppend(InRoom(key'), kept, added);
    FilterMembers(NotInRoom(key), db.messages);
    if room' == room {
      FilterNone(InRoom(key), kept);
      FilterAll(InRoom(key), added);
    } else {
      KeysOfOneScope(c, room, room');
      FilterTwice(InRoom(key'), NotInRoom(key), InRoom(key'), db.messages);
      FilterNone(InRoom(key'), added);
    }
  }

  lemma RecordKeysDiffer(prefix: string, a: OutboxRecord, b: OutboxRecord)
    requires a.id != b.id
    ensures RecordRow(prefix)(a).k != RecordRow(prefix)(b).k
  {
    assert (prefix + ":" + a.id)[|prefix| + 1..] == a.id;
    assert (prefix + ":" + b.id)[|prefix| + 1..] == b.id;
  }

  lemma SavedOutbox(p: Places, db: Db, c: string, records: seq<OutboxRecord>)
    requires Well(db, p) && DistinctRecords(records)
    ensures var prefix := K(c, "outbox");
            DbSaveOutbox(db, c, records) ==
            db.(outbox := Filter(NotKeyed(prefix), db.outbox) + Map(RecordRow(prefix), records))
    ensures Well(DbSaveOutbox(db, c, records), p)
  {
    var prefix := K(c, "outbox");
    var kept := Filter(NotKeyed(prefix), db.outbox);
    var rows := Map(RecordRow(prefix), records);
    FilterMembers(NotKeyed(prefix), db.outbox);
    RecordsAreKeyed(prefix, records);
    forall i, j | 0 <= i < j < |rows| ensures rows[i].k != rows[j].k {
      RecordKeysDiffer(prefix, records[i], records[j]);
    }
    PutFreshRecords(kept, rows);
    FilterSorted((a: OutboxRow, b: OutboxRow) => a.k != b.k, NotKeyed(prefix), db.outbox);
  }

  lemma OutboxAfterSave(db: Db, c: string, records: seq<OutboxRecord>)
    ensures var prefix := K(c, "outbox");
            var db' := db.(outbox := Filter(NotKeyed(prefix), db.outbox) + Map(RecordRow(prefix), records));
            OutboxRows(db', c) == Map(RecordRow(prefix), records)
  {
    var prefix := K(c, "outbox");
    var kept, added := Filter(NotKeyed(prefix), db.outbox), Map(RecordRow(prefix), records);
    FilterAppend(Keyed(prefix), kept, added);
    FilterMembers(NotKeyed(prefix), db.outbox);
    RecordsAreKeyed(prefix, records);
    FilterNone(Keyed(prefix), kept);
    FilterAll(Keyed(prefix), added);
  }

  // ---- deleting a room ----

  function AliveRow(roomId: string): OutboxRow -> bool { (r: OutboxRow) => r.record.roomId != roomId }

  function KeyedAlive(prefix: string, roomId: string): OutboxRow -> bool {
    (r: OutboxRow) => StartsWith(r.k, prefix) && r.record.roomId != roomId
  }

  lemma OutboxAfterDelete(p: Places, db: Db, c: string, roomId: string)
    requires Well(db, p)
    ensures OutboxRows(DbDeleteRoom(db, c, roomId), c) == Filter(AliveRow(roomId), OutboxRows(db, c))
  {
    var prefix := K(c, "outbox");
    var dead := DeadKeys(db.outbox, prefix, roomId);
    forall r | r in db.outbox ensures r.k in dead <==> StartsWith(r.k, prefix) && r.record.roomId == roomId {
      if r.k in dead {
        var d :| d in db.outbox && StartsWith(d.k, prefix) && d.record.roomId == roomId && d.k == r.k;
        SameKeySameRow(p, db, d, r);
      }
    }
    FilterTwice(Keyed(prefix), NotAmong(dead), KeyedAlive(prefix, roomId), db.outbox);
    FilterTwice(AliveRow(roomId), Keyed(prefix), KeyedAlive(prefix, roomId), db.outbox);
  }

  lemma SameKeySameRow(p: Places, db: Db, a: OutboxRow, b: OutboxRow)
    requires Well(db, p) && a in db.outbox && b in db.outbox && a.k == b.k
    ensures a == b
  {
    var i :| 0 <= i < |db.outbox| && db.outbox[i] == a;
    var j :| 0 <= j < |db.outbox| && db.outbox[j] == b;
    assert i == j;
  }

  lemma RoomAfterDelete(db: Db, c: string, roomId: string, room: string)
    ensures MessageRows(DbDeleteRoom(db, c, roomId), c, room) == if room == roomId then [] else MessageRows(db, c, room)
  {
    var key, key' := K(c, roomId), K(c, room);
    FilterMembers(NotInRoom(key), db.messages);
    if room == roomId {
      FilterNone(InRoom(key), Filter(NotInRoom(key), db.messages));
    } else {
      KeysOfOneScope(c, roomId, room);
      FilterTwice(InRoom(key'), NotInRoom(key), InRoom(key'), db.messages);
    }
  }

  // ---- agreement of the two stores on one scope ----

  /** Equal stamps and room lists; equal message lists, sorted; the same queued records in some order. Empty equals absent. */
  ghost predicate Agree(m: Store, db: Db, s: string) {
    && MemVersion(m, s) == (match DbVersion(db, s) case None => None case Some(v) => Some(Version(v)))
    && MemRooms(m, s) == DbRooms(db, s) && AgreeOnMessages(m, db, s)
    && MemOutbox(m, s).GetOr([]) == Map(RecordOf(), OutboxRows(db, s))
  }

  ghost predicate AgreeOnRoom(m: Store, db: Db, s: string, room: string) {
    && MemMessages(m, s, room).GetOr([]) == Map(MessageOf(), MessageRows(db, s, room))
    && SortedBy(BySeqNo, MemMessages(m, s, room).GetOr([]))
  }

  ghost predicate AgreeOnMessages(m: Store, db: Db, s: string) { forall room :: AgreeOnRoom(m, db, s, room) }

  lemma MessagesKept(m: Store, m': Store, db: Db, db': Db, s: string)
    requires AgreeOnMessages(m, db, s)
    requires forall room :: MemMessages(m', s, room) == MemMessages(m, s, room) && MessageRows(db', s, room) == MessageRows(db, s, room)
    ensures AgreeOnMessages(m', db', s)
  {
    forall room ensures AgreeOnRoom(m', db', s, room) { assert AgreeOnRoom(m, db, s, room); }
  }

  ghost predicate Related(m: Store, db: Db, p: Places) {
    Well(db, p) && forall s | s in p.scopes :: Agree(m, db, s)
  }

  /** A call in one of the places, whose rows have distinct ids and seqs. */
  ghost predicate Fair(c: Call, p: Places) {
    && c.scope in p.scopes
    && match c.op
       case SaveMessages(room, ms) => room in p.rooms && DistinctMessages(ms)
       case SaveOutbox(records) => DistinctRecords(records)
       case _ => true
  }

  lemma SuffixesDiffer(room: string)
    ensures MsgSuffix(room) != "rooms" && MsgSuffix(room) != "outbox"
  {
    assert MsgSuffix(room)[0] == 'm';
  }

  lemma KeysOfOneScope(s: string, x: string, y: string)
    ensures K(s, x) == K(s, y) <==> x == y
  {
    assert K(s, x)[|s| + 1..] == x && K(s, y)[|s| + 1..] == y;
  }

  lemma FrameAgrees(m: Store, m': Store, db: Db, db': Db, s: string)
    requires Agree(m, db, s) && SameMem(m, m', s) && SameDb(db, db', s)
    ensures Agree(m', db', s)
  {
    forall room
      ensures MemMessages(m', s, room) == MemMessages(m, s, room) && MessageRows(db', s, room) == MessageRows(db, s, room)
    {
    }
    MessagesKept(m, m', db, db', s);
  }

  lemma ClearAgrees(m: Store, db: Db, c: string)
    ensures Agree(MemClear(m, c), DbClear(db, c), c)
  {
    var m', db' := MemClear(m, c), DbClear(db, c);
    forall x ensures K(c, x) !in m' { assert StartsWith(K(c, x), c + ":"); }
    FilterMembers(OutOfScope(c), db.messages);
    forall room ensures MessageRows(db', c, room) == [] {
      assert StartsWith(K(c, room), c + ":");
      FilterNone(InRoom(K(c, room)), db'.messages);
    }
    FilterMembers(NotKeyed(K(c, "outbox")), db.outbox);
    FilterNone(Keyed(K(c, "outbox")), db'.outbox);
  }

  lemma WellClear(p: Places, db: Db, c: string)
    requires Well(db, p)
    ensures Well(DbClear(db, c), p)
  {
    FilterMembers(OutOfScope(c), db.messages);
    FilterSorted((a: OutboxRow, b: OutboxRow) => a.k != b.k, NotKeyed(K(c, "outbox")), db.outbox);
  }

  lemma StampAgrees(m: Store, db: Db, c: string, version: int)
    requires Agree(m, db, c)
    ensures Agree(m[VersionKey(c) := Version(version)], db.(meta := db.meta[VersionKey(c) := version]), c)
  {
    forall x ensures K(c, x) != VersionKey(c) { VersionKeyIsApart(c, c, x); }
    var m' := m[VersionKey(c) := Version(version)];
    MessagesKept(m, m', db, db.(meta := db.meta[VersionKey(c) := version]), c);
  }

  lemma CheckAgrees(p: Places, m: Store, db: Db, c: string, version: int)
    requires Agree(m, db, c) && Well(db, p)
    ensures Agree(MemCheck(m, c, version), DbCheck(db, c, version), c) && Well(DbCheck(db, c, version), p)
    ensures MemOk(m, c, version) == DbOk(db, c, version)
  {
    if DbVersion(db, c).None? {
      StampAgrees(m, db, c, version);
    } else if DbVersion(db, c).value != version {
      ClearAgrees(m, db, c);
      WellClear(p, db, c);
      StampAgrees(MemClear(m, c), DbClear(db, c), c, version);
    }
  }

  /** A write to one key of the scope leaves the scope's other keys alone. */
  lemma PutLeavesOthers(m: Store, c: string, x: string, v: Value)
    ensures var m' := m[K(c, x) := v];
            && MemVersion(m', c) == MemVersion(m, c)
            && (x != "rooms" ==> MemRooms(m', c) == MemRooms(m, c))
            && (x != "outbox" ==> MemOutbox(m', c) == MemOutbox(m, c))
            && (forall room | MsgSuffix(room) != x :: MemMessages(m', c, room) == MemMessages(m, c, room))
  {
    VersionKeyIsApart(c, c, x);
    KeysOfOneScope(c, "rooms", x);
    KeysOfOneScope(c, "outbox", x);
    forall room ensures K(c, MsgSuffix(room)) == K(c, x) <==> MsgSuffix(room) == x { KeysOfOneScope(c, MsgSuffix(room), x); }
  }

  lemma SaveRoomsAgrees(m: Store, db: Db, c: string, items: seq<RoomItem>)
    requires Agree(m, db, c)
    ensures Agree(m[K(c, "rooms") := Rooms(items)], db.(rooms := db.rooms[c := items]), c)
  {
    var m', db' := m[K(c, "rooms") := Rooms(items)], db.(rooms := db.rooms[c := items]);
    PutLeavesOthers(m, c, "rooms", Rooms(items));
    forall room ensures MemMessages(m', c, room) == MemMessages(m, c, room) { SuffixesDiffer(room); }
    MessagesKept(m, m', db, db', c);
  }

  lemma SaveMessagesAgrees(p: Places, m: Store, db: Db, c: string, roomId: string, ms: seq<CachedMessage>, limit: nat)
    requires p.Separate() && c in p.scopes && roomId in p.rooms
    requires Agree(m, db, c) && Well(db, p) && DistinctMessages(ms)
    ensures Agree(m[K(c, MsgSuffix(roomId)) := Messages(Newest(ms, limit))], DbSaveMessages(db, c, roomId, ms, limit), c)
  {
    var newest := Newest(ms, limit);
    SuffixesDiffer(roomId);
    PutLeavesOthers(m, c, MsgSuffix(roomId), Messages(newest));
    SavedMessages(p, db, c, roomId, ms, limit);
    NewestIsTheTop(ms, limit);
    SavedRoomsAgree(m, db, c, roomId, newest);
  }

  lemma SavedRoomsAgree(m: Store, db: Db, c: string, roomId: string, newest: seq<CachedMessage>)
    requires AgreeOnMessages(m, db, c) && SortedBy(BySeqNo, newest)
    ensures var key := K(c, roomId);
            AgreeOnMessages(m[K(c, MsgSuffix(roomId)) := Messages(newest)],
                            db.(messages := Filter(NotInRoom(key), db.messages) + Map(RowOf(key), newest)), c)
  {
    var key := K(c, roomId);
    var m' := m[K(c, MsgSuffix(roomId)) := Messages(newest)];
    var db' := db.(messages := Filter(NotInRoom(key), db.messages) + Map(RowOf(key), newest));
    forall room ensures AgreeOnRoom(m', db', c, room) {
      SavedRoomAgrees(m, db, c, roomId, newest, room);
    }
  }

  lemma SavedRoomAgrees(m: Store, db: Db, c: string, roomId: string, newest: seq<CachedMessage>, room: string)
    requires AgreeOnMessages(m, db, c) && SortedBy(BySeqNo, newest)
    ensures var key := K(c, roomId);
            AgreeOnRoom(m[K(c, MsgSuffix(roomId)) := Messages(newest)],
                        db.(messages := Filter(NotInRoom(key), db.messages) + Map(RowOf(key), newest)), c, room)
  {
    PutLeavesOthers(m, c, MsgSuffix(roomId), Messages(newest));
    RoomAfterSave(db, c, roomId, newest, room);
    assert AgreeOnRoom(m, db, c, room);
    if room == roomId {
      assert Map(MessageOf(), Map(RowOf(K(c, room)), newest)) == newest;
    } else {
      assert MsgSuffix(room)[4..] == room && MsgSuffix(roomId)[4..] == roomId;
    }
  }

  lemma SaveOutboxAgrees(p: Places, m: Store, db: Db, c: string, records: seq<OutboxRecord>)
    requires Agree(m, db, c) && Well(db, p) && DistinctRecords(records)
    ensures Agree(m[K(c, "outbox") := Outbox(records)], DbSaveOutbox(db, c, records), c)
  {
    var m', db' := m[K(c, "outbox") := Outbox(records)], DbSaveOutbox(db, c, records);
    PutLeavesOthers(m, c, "outbox", Outbox(records));
    SavedOutbox(p, db, c, records);
    OutboxAfterSave(db, c, records);
    RecordsComeBack(K(c, "outbox"), records);
    forall room ensures MemMessages(m', c, room) == MemMessages(m, c, room) { SuffixesDiffer(room); }
    MessagesKept(m, m', db, db', c);
  }

  lemma RecordsComeBack(prefix: string, records: seq<OutboxRecord>)
    ensures Map(RecordOf(), Map(RecordRow(prefix), records)) == records
  {
  }

  lemma MemRoomAfterDelete(m: Store, c: string, roomId: string, room: string)
    ensures MemMessages(MemDeleteRoom(m, c, roomId), c, room) == if room == roomId then None else MemMessages(m, c, room)
  {
    SuffixesDiffer(room);
    KeysOfOneScope(c, MsgSuffix(room), "rooms");
    KeysOfOneScope(c, MsgSuffix(room), "outbox");
    KeysOfOneScope(c, MsgSuffix(room), MsgSuffix(roomId));
    assert MsgSuffix(room)[4..] == room && MsgSuffix(roomId)[4..] == roomId;
  }

  lemma MemAfterDelete(m: Store, c: string, roomId: string)
    ensures var m' := MemDeleteRoom(m, c, roomId);
            && MemVersion(m', c) == MemVersion(m, c)
            && MemRooms(m', c) == (if MemRooms(m, c).Some? then Some(Filter(KeepRooms(roomId), MemRooms(m, c).value)) else None)
            && MemOutbox(m', c) == (if MemOutbox(m, c).Some? then Some(Filter(KeepRecords(roomId), MemOutbox(m, c).value)) else None)
  {
    SuffixesDiffer(roomId);
    KeysOfOneScope(c, MsgSuffix(roomId), "rooms");
    KeysOfOneScope(c, MsgSuffix(roomId), "outbox");
    KeysOfOneScope(c, "rooms", "outbox");
    VersionKeyIsApart(c, c, MsgSuffix(roomId));
    VersionKeyIsApart(c, c, "rooms");
    VersionKeyIsApart(c, c, "outbox");
  }

  lemma DeleteAgrees(p: Places, m: Store, db: Db, c: string, roomId: string)
    requires Agree(m, db, c) && Well(db, p)
    ensures Agree(MemDeleteRoom(m, c, roomId), DbDeleteRoom(db, c, roomId), c)
  {
    MemAfterDelete(m, c, roomId);
    OutboxAfterDelete(p, db, c, roomId);
    FilterMap(KeepRecords(roomId), RecordOf(), AliveRow(roomId), OutboxRows(db, c));
    assert Filter(KeepRecords(roomId), []) == [];
    DeleteAgreesOnMessages(m, db, c, roomId);
  }

  lemma DeleteAgreesOnMessages(m: Store, db: Db, c: string, roomId: string)
    requires AgreeOnMessages(m, db, c)
    ensures AgreeOnMessages(MemDeleteRoom(m, c, roomId), DbDeleteRoom(db, c, roomId), c)
  {
    forall room ensures AgreeOnRoom(MemDeleteRoom(m, c, roomId), DbDeleteRoom(db, c, roomId), c, room) {
      assert AgreeOnRoom(m, db, c, room);
      MemRoomAfterDelete(m, c, roomId, room);
      RoomAfterDelete(db, c, roomId, room);
    }
  }

  lemma WellDelete(p: Places, db: Db, c: string, roomId: string)
    requires Well(db, p)
    ensures Well(DbDeleteRoom(db, c, roomId), p)
  {
    FilterMembers(NotInRoom(K(c, roomId)), db.messages);
    FilterSorted((a: OutboxRow, b: OutboxRow) => a.k != b.k, NotAmong(DeadKeys(db.outbox, K(c, "outbox"), roomId)), db.outbox);
  }

  /** A call keeps its own scope in agreement. */
  lemma CallAgrees(p: Places, m: Store, db: Db, c: Call)
    requires p.Separate() && Fair(c, p) && Agree(m, db, c.scope) && Well(db, p)
    ensures Agree(MemCall(m, c), DbCall(db, c), c.scope) && Well(DbCall(db, c), p)
  {
    CheckAgrees(p, m, db, c.scope, c.version);
    var m', db' := MemCheck(m, c.scope, c.version), DbCheck(db, c.scope, c.version);
    match c.op {
      case SaveRooms(items) => SaveRoomsAgrees(m', db', c.scope, items);
      case SaveMessages(room, ms) =>
        SaveMessagesAgrees(p, m', db', c.scope, room, ms, c.limit);
        SavedMessages(p, db', c.scope, room, ms, c.limit);
      case SaveOutbox(records) =>
        SaveOutboxAgrees(p, m', db', c.scope, records);
        SavedOutbox(p, db', c.scope, records);
      case DeleteRoom(room) =>
        DeleteAgrees(p, m', db', c.scope, room);
        WellDelete(p, db', c.scope, room);
      case ClearAll =>
        ClearAgrees(m, db, c.scope);
        WellClear(p, db, c.scope);
      case Load =>
    }
  }

  lemma CallRelated(p: Places, m: Store, db: Db, c: Call)
    requires p.Separate() && Fair(c, p) && Related(m, db, p)
    ensures Related(MemCall(m, c), DbCall(db, c), p)
  {
    CallAgrees(p, m, db, c);
    forall s | s in p.scopes ensures Agree(MemCall(m, c), DbCall(db, c), s) {
      if s != c.scope {
        MemIsolated(m, c, s);
        DbIsolated(db, c, s);
        FrameAgrees(m, MemCall(m, c), db, DbCall(db, c), s);
      }
    }
  }

  lemma {:induction false} RunRelated(p: Places, calls: seq<Call>)
    requires p.Separate() && forall c | c in calls :: Fair(c, p)
    ensures Related(MemRun(calls), DbRun(calls), p)
  {
    if calls != [] {
      var n := |calls| - 1;
      assert calls == calls[..n] + [calls[n]];
      RunRelated(p, calls[..n]);
      CallRelated(p, MemRun(calls[..n]), DbRun(calls[..n]), calls[n]);
    }
  }

  lemma {:induction false} SortFollowsMap(rows: seq<MessageRow>)
    requires forall r | r in rows :: r.seqNo == r.message.seqNo
    requires SortedBy(BySeqNo, Map(MessageOf(), rows))
    ensures SortStable(ByRowSeq, rows) == rows
  {
    var ms := Map(MessageOf(), rows);
    forall i, j | 0 <= i < j < |rows| ensures ByRowSeq(rows[i], rows[j]) {
      assert BySeqNo(ms[i], ms[j]) && rows[i] in rows && rows[j] in rows;
    }
    SortOfSorted(ByRowSeq, rows);
  }

  /**
    * The tables refine the map: after any calls by adapters of any scopes, versions and limits, what each scope loads is
    * the same from both, up to empty against null, and to order for the outbox.
    */
  lemma TablesRefineTheMap(p: Places, calls: seq<Call>, s: string, room: string)
    requires p.Separate() && (forall c | c in calls :: Fair(c, p)) && s in p.scopes
    ensures var m, db := MemRun(calls), DbRun(calls);
            && MemRooms(m, s) == DbRooms(db, s)
            && MemMessages(m, s, room).GetOr([]) == DbMessages(db, s, room).GetOr([])
            && multiset(MemOutbox(m, s).GetOr([])) == multiset(DbOutbox(db, s).GetOr([]))
            && (forall version :: MemOk(m, s, version) == DbOk(db, s, version))
  {
    RunRelated(p, calls);
    AgreeingLoads(p, MemRun(calls), DbRun(calls), s, room);
  }

  lemma AgreeingLoads(p: Places, m: Store, db: Db, s: string, room: string)
    requires Well(db, p) && Agree(m, db, s)
    ensures MemRooms(m, s) == DbRooms(db, s)
    ensures MemMessages(m, s, room).GetOr([]) == DbMessages(db, s, room).GetOr([])
    ensures multiset(MemOutbox(m, s).GetOr([])) == multiset(DbOutbox(db, s).GetOr([]))
    ensures forall version :: MemOk(m, s, version) == DbOk(db, s, version)
  {
    assert AgreeOnRoom(m, db, s, room);
    FilterMembers(InRoom(K(s, room)), db.messages);
    SortFollowsMap(MessageRows(db, s, room));
    MapPermutes(OutboxRows(db, s));
  }

  lemma {:induction false} InsertedRecords(rows: seq<OutboxRow>, x: OutboxRow)
    ensures multiset(Map(RecordOf(), InsertStable(ByRowOrder, rows, x))) == multiset(Map(RecordOf(), rows)) + multiset{x.record}
  {
    var r := InsertStable(ByRowOrder, rows, x);
    if rows == [] || ByRowOrder(rows[|rows| - 1], x) {
      assert Map(RecordOf(), r) == Map(RecordOf(), rows) + [x.record];
    } else {
      var init, last := rows[..|rows| - 1], rows[|rows| - 1];
      InsertedRecords(init, x);
      assert Map(RecordOf(), rows) == Map(RecordOf(), init) + [last.record];
      assert Map(RecordOf(), r) == Map(RecordOf(), InsertStable(ByRowOrder, init, x)) + [last.record];
    }
  }

  lemma {:induction false} MapPermutes(rows: seq<OutboxRow>)
    ensures multiset(Map(RecordOf(), SortStable(ByRowOrder, rows))) == multiset(Map(RecordOf(), rows))
  {
    if rows != [] {
      var init, last := rows[..|rows| - 1], rows[|rows| - 1];
      MapPermutes(init);
      InsertedRecords(SortStable(ByRowOrder, init), last);
      assert Map(RecordOf(), rows) == Map(RecordOf(), init) + [last.record];
    }
  }

  /** A load under another schema version finds nothing, now or afterwards: the scope was wiped and restamped. */
  lemma MismatchWipes(p: Places, calls: seq<Call>, c: Call, room: string)
    requires p.Separate() && (forall d | d in calls :: Fair(d, p)) && c.scope in p.scopes && c.op.Load?
    requires !DbOk(DbRun(calls), c.scope, c.version)
    ensures var s, m, db := c.scope, MemRun(calls), DbRun(calls);
            var m', db' := MemCall(m, c), DbCall(db, c);
            && !MemOk(m, s, c.version) && MemOk(m', s, c.version) && DbOk(db', s, c.version)
            && MemRooms(m', s) == None && DbRooms(db', s) == None
            && MemMessages(m', s, room).GetOr([]) == [] && DbMessages(db', s, room) == None
            && MemOutbox(m', s).GetOr([]) == [] && DbOutbox(db', s) == None
  {
    RunRelated(p, calls);
    var s, m, db := c.scope, MemRun(calls), DbRun(calls);
    CheckAgrees(p, m, db, s, c.version);
    WipedAndStamped(m, db, c, room);
    EmptyOnBothSides(MemCall(m, c), DbCall(db, c), s, room);
  }

  lemma WipedAndStamped(m: Store, db: Db, c: Call, room: string)
    requires c.op.Load? && !DbOk(db, c.scope, c.version) && !MemOk(m, c.scope, c.version)
    ensures MemOk(MemCall(m, c), c.scope, c.version)
    ensures var s, db' := c.scope, DbCall(db, c);
            DbOk(db', s, c.version) && DbRooms(db', s) == None && MessageRows(db', s, room) == [] && OutboxRows(db', s) == []
  {
    EmptyAfterClear(db, c.scope, room);
  }

  lemma EmptyOnBothSides(m: Store, db: Db, s: string, room: string)
    requires Agree(m, db, s)
    requires DbRooms(db, s) == None && MessageRows(db, s, room) == [] && OutboxRows(db, s) == []
    ensures MemRooms(m, s) == None
    ensures MemMessages(m, s, room).GetOr([]) == [] && DbMessages(db, s, room) == None
    ensures MemOutbox(m, s).GetOr([]) == [] && DbOutbox(db, s) == None
  {
    assert AgreeOnRoom(m, db, s, room);
  }

  lemma EmptyAfterClear(db: Db, s: string, room: string)
    ensures DbRooms(DbClear(db, s), s) == None && MessageRows(DbClear(db, s), s, room) == [] && OutboxRows(DbClear(db, s), s) == []
  {
    FilterMembers(OutOfScope(s), db.messages);
    assert StartsWith(K(s, room), s + ":");
    FilterNone(InRoom(K(s, room)), DbClear(db, s).messages);
    FilterMembers(NotKeyed(K(s, "outbox")), db.outbox);
    FilterNone(Keyed(K(s, "outbox")), DbClear(db, s).outbox);
  }

  /** What a save leaves is what the next load returns: the newest messages up to its limit, in order, and nothing else. */
  lemma LoadReturnsTheNewest(p: Places, calls: seq<Call>, c: Call)
    requires p.Separate() && (forall d | d in calls :: Fair(d, p)) && Fair(c, p) && c.op.SaveMessages?
    ensures var db := DbCall(DbRun(calls), c);
            DbOk(db, c.scope, c.version) && DbMessages(db, c.scope, c.op.roomId).GetOr([]) == Newest(c.op.messages, c.limit)
  {
    RunRelated(p, calls);
    CallRelated(p, MemRun(calls), DbRun(calls), c);
    SavedThenLoaded(p, MemRun(calls), DbRun(calls), c);
  }

  lemma SavedThenLoaded(p: Places, m: Store, db: Db, c: Call)
    requires c.op.SaveMessages? && c.scope in p.scopes && Related(MemCall(m, c), DbCall(db, c), p)
    ensures DbOk(DbCall(db, c), c.scope, c.version)
    ensures DbMessages(DbCall(db, c), c.scope, c.op.roomId).GetOr([]) == Newest(c.op.messages, c.limit)
  {
    var m', db' := MemCall(m, c), DbCall(db, c);
    assert MemMessages(m', c.scope, c.op.roomId) == Some(Newest(c.op.messages, c.limit));
    AgreeingLoads(p, m', db', c.scope, c.op.roomId);
  }

  /** A limit of zero keeps everything: `slice(-0)` cuts nothing off. */
  lemma LimitZeroKeepsAll(ms: seq<CachedMessage>)
    ensures multiset(Newest(ms, 0)) == multiset(ms)
  {
    SortPermutes(BySeqNo, ms);
  }
}
