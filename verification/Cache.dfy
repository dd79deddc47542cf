/** The two local caches: the in-memory reference map, and the row-per-message tables of IndexedDB. */
module Caches {
  import opened Common
  import opened Sorting
  import opened CacheKeys

  datatype RoomItem = RoomItem(roomId: string, rest: string)

  datatype CachedMessage = CachedMessage(id: string, seqNo: nat, rest: string)

  datatype OutboxRecord = OutboxRecord(id: string, order: int, roomId: string, rest: string)

  predicate BySeqNo(a: CachedMessage, b: CachedMessage) { a.seqNo <= b.seqNo }

  predicate ByRowSeq(a: MessageRow, b: MessageRow) { a.seqNo <= b.seqNo }

  predicate ByRowOrder(a: OutboxRow, b: OutboxRow) { a.order <= b.order }

  /** `slice(-limit)`; note that `slice(-0)` is the whole array. */
  function Newest(ms: seq<CachedMessage>, limit: nat): seq<CachedMessage> {
    var sorted := SortStable(BySeqNo, ms);
    if limit == 0 || |sorted| <= limit then sorted else sorted[|sorted| - limit..]
  }

  // ---- the memory adapter ----

  datatype Value =
    | Rooms(rooms: seq<RoomItem>)
    | Messages(messages: seq<CachedMessage>)
    | Outbox(records: seq<OutboxRecord>)
    | Version(version: int)

  type Store = map<string, Value>

  function MsgSuffix(roomId: string): string { "msg:" + roomId }

  function MemVersion(s: Store, scope: string): Option<Value> {
    if VersionKey(scope) in s then Some(s[VersionKey(scope)]) else None
  }

  function MemClear(s: Store, scope: string): Store {
    map k | k in s && k != VersionKey(scope) && !StartsWith(k, scope + ":") :: s[k]
  }

  /** The schema guard: stamp an unstamped scope, wipe and restamp an outdated one. */
  function MemCheck(s: Store, scope: string, version: int): Store {
    match MemVersion(s, scope)
    case None => s[VersionKey(scope) := Version(version)]
    case Some(v) => if v == Version(version) then s else MemClear(s, scope)[VersionKey(scope) := Version(version)]
  }

  predicate MemOk(s: Store, scope: string, version: int) {
    MemVersion(s, scope).None? || MemVersion(s, scope).value == Version(version)
  }

  function MemRooms(s: Store, scope: string): Option<seq<RoomItem>> {
    if K(scope, "rooms") in s && s[K(scope, "rooms")].Rooms? then Some(s[K(scope, "rooms")].rooms) else None
  }

  function MemMessages(s: Store, scope: string, roomId: string): Option<seq<CachedMessage>> {
    var k := K(scope, MsgSuffix(roomId));
    if k in s && s[k].Messages? then Some(s[k].messages) else None
  }

  function MemOutbox(s: Store, scope: string): Option<seq<OutboxRecord>> {
    if K(scope, "outbox") in s && s[K(scope, "outbox")].Outbox? then Some(s[K(scope, "outbox")].records) else None
  }

  function KeepRooms(roomId: string): RoomItem -> bool { (r: RoomItem) => r.roomId != roomId }

  function KeepRecords(roomId: string): OutboxRecord -> bool { (r: OutboxRecord) => r.roomId != roomId }

  function MemDeleteRoom(s: Store, scope: string, roomId: string): Store {
    var s1 := s - {K(scope, MsgSuffix(roomId))};
    var s2 := if MemRooms(s1, scope).Some?
              then s1[K(scope, "rooms") := Rooms(Filter(KeepRooms(roomId), MemRooms(s1, scope).value))] else s1;
    if MemOutbox(s2, scope).Some?
    then s2[K(scope, "outbox") := Outbox(Filter(KeepRecords(roomId), MemOutbox(s2, scope).value))] else s2
  }

  // ---- the tables ----

  datatype MessageRow = MessageRow(k: string, room: string, seqNo: nat, message: CachedMessage)

  datatype OutboxRow = OutboxRow(k: string, order: int, record: OutboxRecord)

  /** Tables with a primary key `k`; a table's rows are listed in some order, which no load depends on. */
  datatype Db = Db(rooms: map<string, seq<RoomItem>>, messages: seq<MessageRow>, outbox: seq<OutboxRow>, meta: map<string, int>)

  function MessageKey(room: string, m: CachedMessage): string { RowKey(room, m.seqNo, m.id) }

  function RowOf(room: string): CachedMessage -> MessageRow {
    (m: CachedMessage) => MessageRow(MessageKey(room, m), room, m.seqNo, m)
  }

  function RecordRow(prefix: string): OutboxRecord -> OutboxRow {
    (e: OutboxRecord) => OutboxRow(prefix + ":" + e.id, e.order, e)
  }

  function InRoom(room: string): MessageRow -> bool { (r: MessageRow) => r.room == room }

  function NotInRoom(room: string): MessageRow -> bool { (r: MessageRow) => r.room != room }

  function OutOfScope(scope: string): MessageRow -> bool { (r: MessageRow) => !StartsWith(r.room, scope + ":") }

  function Keyed(prefix: string): OutboxRow -> bool { (r: OutboxRow) => StartsWith(r.k, prefix) }

  function NotKeyed(prefix: string): OutboxRow -> bool { (r: OutboxRow) => !StartsWith(r.k, prefix) }

  /** `bulkPut`: a row replaces the one with its key. */
  function PutMessages(t: seq<MessageRow>, rows: seq<MessageRow>): seq<MessageRow> {
    if rows == [] then t
    else
      var r := rows[|rows| - 1];
      Filter((x: MessageRow) => x.k != r.k, PutMessages(t, rows[..|rows| - 1])) + [r]
  }

  function PutRecords(t: seq<OutboxRow>, rows: seq<OutboxRow>): seq<OutboxRow> {
    if rows == [] then t
    else
      var r := rows[|rows| - 1];
      Filter((x: OutboxRow) => x.k != r.k, PutRecords(t, rows[..|rows| - 1])) + [r]
  }

  function DbClear(db: Db, scope: string): Db {
    Db(db.rooms - {scope}, Filter(OutOfScope(scope), db.messages), Filter(NotKeyed(K(scope, "outbox")), db.outbox),
       db.meta - {VersionKey(scope)})
  }

  function DbVersion(db: Db, scope: string): Option<int> {
    if VersionKey(scope) in db.meta then Some(db.meta[VersionKey(scope)]) else None
  }

  function DbCheck(db: Db, scope: string, version: int): Db {
    match DbVersion(db, scope)
    case None => db.(meta := db.meta[VersionKey(scope) := version])
    case Some(v) =>
      if v == version then db
      else var wiped := DbClear(db, scope); wiped.(meta := wiped.meta[VersionKey(scope) := version])
  }

  predicate DbOk(db: Db, scope: string, version: int) {
    DbVersion(db, scope).None? || DbVersion(db, scope).value == version
  }

  function DbSaveMessages(db: Db, scope: string, roomId: string, ms: seq<CachedMessage>, limit: nat): Db {
    var room := K(scope, roomId);
    db.(messages := PutMessages(Filter(NotInRoom(room), db.messages), Map(RowOf(room), Newest(ms, limit))))
  }

  function DbSaveOutbox(db: Db, scope: string, records: seq<OutboxRecord>): Db {
    var prefix := K(scope, "outbox");
    db.(outbox := PutRecords(Filter(NotKeyed(prefix), db.outbox), Map(RecordRow(prefix), records)))
  }

  /** The keys to bulk-delete: this scope's rows of the room. */
  function DeadKeys(t: seq<OutboxRow>, prefix: string, roomId: string): set<string> {
    set r | r in t && StartsWith(r.k, prefix) && r.record.roomId == roomId :: r.k
  }

  function NotAmong(keys: set<string>): OutboxRow -> bool { (r: OutboxRow) => r.k !in keys }

  function DbDeleteRoom(db: Db, scope: string, roomId: string): Db {
    Db(if scope in db.rooms then db.rooms[scope := Filter(KeepRooms(roomId), db.rooms[scope])] else db.rooms,
       Filter(NotInRoom(K(scope, roomId)), db.messages),
       Filter(NotAmong(DeadKeys(db.outbox, K(scope, "outbox"), roomId)), db.outbox),
       db.meta)
  }

  function DbRooms(db: Db, scope: string): Option<seq<RoomItem>> {
    if scope in db.rooms then Some(db.rooms[scope]) else None
  }

  function MessageOf(): MessageRow -> CachedMessage { (r: MessageRow) => r.message }

  function RecordOf(): OutboxRow -> OutboxRecord { (r: OutboxRow) => r.record }

  function DbMessages(db: Db, scope: string, roomId: string): Option<seq<CachedMessage>> {
    var rows := SortStable(ByRowSeq, Filter(InRoom(K(scope, roomId)), db.messages));
    if rows == [] then None else Some(Map(MessageOf(), rows))
  }

  function DbOutbox(db: Db, scope: string): Option<seq<OutboxRecord>> {
    var rows := SortStable(ByRowOrder, Filter(Keyed(K(scope, "outbox")), db.outbox));
    if rows == [] then None else Some(Map(RecordOf(), rows))
  }

  // ---- operations, as calls on an adapter with its scope, schema version and message limit ----

  datatype Op =
    | SaveRooms(items: seq<RoomItem>)
    | SaveMessages(roomId: string, messages: seq<CachedMessage>)
    | SaveOutbox(records: seq<OutboxRecord>)
    | DeleteRoom(roomId: string)
    | ClearAll
    | Load

  datatype Call = Call(scope: string, version: int, limit: nat, op: Op)

  function MemCall(s: Store, c: Call): Store {
    var s' := MemCheck(s, c.scope, c.version);
    match c.op
    case SaveRooms(items) => s'[K(c.scope, "rooms") := Rooms(items)]
    case SaveMessages(room, ms) => s'[K(c.scope, MsgSuffix(room)) := Messages(Newest(ms, c.limit))]
    case SaveOutbox(records) => s'[K(c.scope, "outbox") := Outbox(records)]
    case DeleteRoom(room) => MemDeleteRoom(s', c.scope, room)
    case ClearAll => MemClear(s, c.scope)
    case Load => s'
  }

  function DbCall(db: Db, c: Call): Db {
    var db' := DbCheck(db, c.scope, c.version);
    match c.op
    case SaveRooms(items) => db'.(rooms := db'.rooms[c.scope := items])
    case SaveMessages(room, ms) => DbSaveMessages(db', c.scope, room, ms, c.limit)
    case SaveOutbox(records) => DbSaveOutbox(db', c.scope, records)
    case DeleteRoom(room) => DbDeleteRoom(db', c.scope, room)
    case ClearAll => DbClear(db, c.scope)
    case Load => db'
  }

  // ---- the adapters ----

  /** The `Map` that adapters of different scopes may share. */
  class Backing {
    var m: Store

    constructor ()
      ensures m == map[]
    {
      m := map[];
    }
  }

  class MemoryCacheAdapter {
    const store: Backing
    const scope: string
    const messageLimit: nat
    const schemaVersion: int

    constructor (store: Backing, scope: string, messageLimit: nat, schemaVersion: int)
      ensures this.store == store && this.scope == scope
      ensures this.messageLimit == messageLimit && this.schemaVersion == schemaVersion
    {
      this.store, this.scope, this.messageLimit, this.schemaVersion := store, scope, messageLimit, schemaVersion;
    }

    method Wipe()
      modifies store
      ensures store.m == MemClear(old(store.m), scope)
    {
      var todo := store.m.Keys;
      ghost var before := store.m;
      while todo != {}
        invariant todo <= before.Keys
        invariant store.m.Keys <= before.Keys && forall k | k in store.m :: store.m[k] == before[k]
        invariant forall k | k in before ::
          k in store.m <==> k in todo || (k != VersionKey(scope) && !StartsWith(k, scope + ":"))
        decreases todo
      {
        var key :| key in todo;
        todo := todo - {key};
        if key == VersionKey(scope) || StartsWith(key, scope + ":") {
          store.m := store.m - {key};
        }
      }
    }

    method Check() returns (ok: bool)
      modifies store
      ensures ok == MemOk(old(store.m), scope, schemaVersion) && store.m == MemCheck(old(store.m), scope, schemaVersion)
    {
      ok := true;
      if VersionKey(scope) in store.m {
        if store.m[VersionKey(scope)] == Version(schemaVersion) {
          return;
        }
        Wipe();
        ok := false;
      }
      store.m := store.m[VersionKey(scope) := Version(schemaVersion)];
    }

    method StoreRooms(items: seq<RoomItem>)
      modifies store
      ensures store.m == MemCall(old(store.m), Call(scope, schemaVersion, messageLimit, SaveRooms(items)))
    {
      var _ := Check();
      store.m := store.m[K(scope, "rooms") := Rooms(items)];
    }

    method StoreMessages(roomId: string, ms: seq<CachedMessage>)
      modifies store
      ensures store.m == MemCall(old(store.m), Call(scope, schemaVersion, messageLimit, SaveMessages(roomId, ms)))
    {
      var _ := Check();
      store.m := store.m[K(scope, MsgSuffix(roomId)) := Messages(Newest(ms, messageLimit))];
    }

    method StoreOutbox(records: seq<OutboxRecord>)
      modifies store
      ensures store.m == MemCall(old(store.m), Call(scope, schemaVersion, messageLimit, SaveOutbox(records)))
    {
      var _ := Check();
      store.m := store.m[K(scope, "outbox") := Outbox(records)];
    }

    method LoadMessages(roomId: string) returns (ms: Option<seq<CachedMessage>>)
      modifies store
      ensures store.m == MemCall(old(store.m), Call(scope, schemaVersion, messageLimit, Load))
      ensures ms == if MemOk(old(store.m), scope, schemaVersion) then MemMessages(store.m, scope, roomId) else None
    {
      var ok := Check();
      if !ok {
        return None;
      }
      ms := MemMessages(store.m, scope, roomId);
    }

    method PurgeRoom(roomId: string)
      modifies store
      ensures store.m == MemCall(old(store.m), Call(scope, schemaVersion, messageLimit, DeleteRoom(roomId)))
    {
      var _ := Check();
      store.m := store.m - {K(scope, MsgSuffix(roomId))};
      var rooms := MemRooms(store.m, scope);
      if rooms.Some? {
        store.m := store.m[K(scope, "rooms") := Rooms(Filter(KeepRooms(roomId), rooms.value))];
      }
      var outbox := MemOutbox(store.m, scope);
      if outbox.Some? {
        store.m := store.m[K(scope, "outbox") := Outbox(Filter(KeepRecords(roomId), outbox.value))];
      }
    }
  }

  /** The IndexedDB tables, shared by the adapters of every scope. */
  class CacheDb {
    var rooms: map<string, seq<RoomItem>>
    var messages: seq<MessageRow>
    var outbox: seq<OutboxRow>
    var meta: map<string, int>

    function Model(): Db
      reads this
    {
      Db(rooms, messages, outbox, meta)
    }

    constructor ()
      ensures Model() == Db(map[], [], [], map[])
    {
      rooms, messages, outbox, meta := map[], [], [], map[];
    }
  }

  class DexieCacheAdapter {
    const db: CacheDb
    const scope: string
    const messageLimit: nat
    const schemaVersion: int

    constructor (db: CacheDb, scope: string, messageLimit: nat, schemaVersion: int)
      ensures this.db == db && this.scope == scope
      ensures this.messageLimit == messageLimit && this.schemaVersion == schemaVersion
    {
      this.db, this.scope, this.messageLimit, this.schemaVersion := db, scope, messageLimit, schemaVersion;
    }

    method Wipe()
      modifies db
      ensures db.Model() == DbCall(old(db.Model()), Call(scope, schemaVersion, messageLimit, ClearAll))
    {
      db.rooms := db.rooms - {scope};
      db.messages := Filter(OutOfScope(scope), db.messages);
      db.outbox := Filter(NotKeyed(K(scope, "outbox")), db.outbox);
      db.meta := db.meta - {VersionKey(scope)};
    }

    method Check() returns (ok: bool)
      modifies db
      ensures ok == DbOk(old(db.Model()), scope, schemaVersion)
      ensures db.Model() == DbCheck(old(db.Model()), scope, schemaVersion)
    {
      ok := true;
      if VersionKey(scope) in db.meta {
        if db.meta[VersionKey(scope)] == schemaVersion {
          return;
        }
        Wipe();
        ok := false;
      }
      db.meta := db.meta[VersionKey(scope) := schemaVersion];
    }

    method StoreRooms(items: seq<RoomItem>)
      modifies db
      ensures db.Model() == DbCall(old(db.Model()), Call(scope, schemaVersion, messageLimit, SaveRooms(items)))
    {
      var _ := Check();
      db.rooms := db.rooms[scope := items];
    }

    method StoreMessages(roomId: string, ms: seq<CachedMessage>)
      modifies db
      ensures db.Model() == DbCall(old(db.Model()), Call(scope, schemaVersion, messageLimit, SaveMessages(roomId, ms)))
    {
      var _ := Check();
      var room := K(scope, roomId);
      var newest := Newest(ms, messageLimit);
      db.messages := Filter(NotInRoom(room), db.messages);
      db.messages := PutMessages(db.messages, Map(RowOf(room), newest));
    }

    method StoreOutbox(records: seq<OutboxRecord>)
      modifies db
      ensures db.Model() == DbCall(old(db.Model()), Call(scope, schemaVersion, messageLimit, SaveOutbox(records)))
    {
      var _ := Check();
      var prefix := K(scope, "outbox");
      db.outbox := Filter(NotKeyed(prefix), db.outbox);
      db.outbox := PutRecords(db.outbox, Map(RecordRow(prefix), records));
    }

    method LoadMessages(roomId: string) returns (ms: Option<seq<CachedMessage>>)
      modifies db
      ensures db.Model() == DbCall(old(db.Model()), Call(scope, schemaVersion, messageLimit, Load))
      ensures ms == if DbOk(old(db.Model()), scope, schemaVersion) then DbMessages(db.Model(), scope, roomId) else None
    {
      var ok := Check();
      if !ok {
        return None;
      }
      var rows := SortStable(ByRowSeq, Filter(InRoom(K(scope, roomId)), db.messages));
      ms := if |rows| == 0 then None else Some(Map(MessageOf(), rows));
    }

    method LoadOutbox() returns (records: Option<seq<OutboxRecord>>)
      modifies db
      ensures db.Model() == DbCall(old(db.Model()), Call(scope, schemaVersion, messageLimit, Load))
      ensures records == if DbOk(old(db.Model()), scope, schemaVersion) then DbOutbox(db.Model(), scope) else None
    {
      var ok := Check();
      if !ok {
        return None;
      }
      var rows := SortStable(ByRowOrder, Filter(Keyed(K(scope, "outbox")), db.outbox));
      records := if |rows| == 0 then None else Some(Map(RecordOf(), rows));
    }

    method PurgeRoom(roomId: string)
      modifies db
      ensures db.Model() == DbCall(old(db.Model()), Call(scope, schemaVersion, messageLimit, DeleteRoom(roomId)))
    {
      var _ := Check();
      db.messages := Filter(NotInRoom(K(scope, roomId)), db.messages);
      if scope in db.rooms {
        db.rooms := db.rooms[scope := Filter(KeepRooms(roomId), db.rooms[scope])];
      }
      DeleteRecords(DeadKeys(db.outbox, K(scope, "outbox"), roomId));
    }

    method DeleteRecords(dead: set<string>)
      modifies db`outbox
      ensures db.outbox == Filter(NotAmong(dead), old(db.outbox))
    {
      if dead != {} {
        db.outbox := Filter(NotAmong(dead), db.outbox);
      } else {
        FilterAll(NotAmong(dead), db.outbox);
      }
    }
  }
}
