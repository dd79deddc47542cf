/** Catching the loaded window up with the server, page by page, while live events keep arriving. */
module RoomSyncs {
  import opened Common
  import opened Messages
  import opened MessageTable
  import opened MessageStores
  import opened StoreRuns
  import opened StoreIdentity

  const PAGE_LIMIT: nat := 100

  datatype Page = Page(messages: seq<Message>, hasMoreAfter: bool)

  /** What the server's history looks like while we catch up: gapless, and identified row by row. */
  ghost predicate GaplessLog(log: seq<Message>, who: string -> Identity) {
    && Sound(log, who) && FixesSeqs(who)
    && (forall i | 0 <= i < |log| :: log[i].seqNo == log[0].seqNo + i)
    && (log != [] ==> log[0].seqNo >= 0)
  }

  /** The rows above a cursor, of a log in ascending order. */
  function Above(log: seq<Message>, after: int): (rest: seq<Message>)
    ensures |rest| <= |log| && rest == log[|log| - |rest|..]
    ensures forall i | 0 <= i < |log| - |rest| :: log[i].seqNo <= after
    ensures rest != [] ==> rest[0].seqNo > after
  {
    if log == [] || log[0].seqNo > after then log
    else
      var rest := Above(log[1..], after);
      assert forall i | 1 <= i < |log| :: log[i] == log[1..][i - 1];
      rest
  }

  /** The history endpoint: ascending above a cursor, or the latest rows without one. */
  function FetchPage(log: seq<Message>, after: Option<int>): Page {
    match after
    case None => Page(if |log| > PAGE_LIMIT then log[|log| - PAGE_LIMIT..] else log, false)
    case Some(a) =>
      var rest := Above(log, a);
      if |rest| > PAGE_LIMIT then Page(rest[..PAGE_LIMIT], true) else Page(rest, false)
  }

  /**
    * `log` is every message the room ever gets; `now` is the log as one request reads it: its first messages, with
    * whatever content they have by then.
    */
  ghost predicate ReadOf(now: seq<Message>, log: seq<Message>, who: string -> Identity) {
    GaplessLog(now, who) && |now| <= |log| && forall i | 0 <= i < |now| :: now[i].id == log[i].id
  }

  /**
    * Live traffic that may land while a page is on its way: copies of log rows at or above some floor. A replacing
    * page has distinct client ids, and a confirm carries the client id it confirms.
    */
  ghost predicate Live(e: Event, log: seq<Message>, floor: int, who: string -> Identity) {
    && (e.Replaced? ==> OnePerClient(e.page))
    && (e.Confirmed? ==> e.message.clientMessageId == Some(e.clientId))
    && forall m | m in e.Copies() :: Identified(m, who) && HasId(log, m.id) && floor <= m.seqNo
  }

  /** A replacing page holds the stretch that is covered so far. */
  ghost predicate Spares(e: Event, log: seq<Message>, head: int, upTo: int) {
    e.Replaced? ==> Covers(e.page, log, head, upTo)
  }

  /** Every loaded row is a row of the log at or above the floor. */
  ghost predicate Within(rows: Rows, log: seq<Message>, floor: int, who: string -> Identity) {
    Sound(rows, who) && FixesSeqs(who) && forall r | r in rows :: HasId(log, r.id) && floor <= r.seqNo
  }

  ghost predicate Keeps(rows: Rows, rows': Rows) { forall id :: HasId(rows, id) ==> HasId(rows', id) }

  ghost predicate Covers(rows: Rows, log: seq<Message>, head: int, upTo: int) {
    forall m | m in log && head <= m.seqNo <= upTo :: HasId(rows, m.id)
  }

  lemma WriteWithin(rows: Rows, m: Message, log: seq<Message>, floor: int, who: string -> Identity)
    requires Within(rows, log, floor, who) && Sound(log, who)
    requires Identified(m, who) && HasId(log, m.id) && floor <= m.seqNo
    ensures Within(SetRow(rows, m), log, floor, who)
    ensures forall id :: HasId(SetRow(rows, m), id) <==> id == m.id || HasId(rows, id)
  {
    forall i | 0 <= i < |rows| && m.clientMessageId.Some? && rows[i].clientMessageId == m.clientMessageId
      ensures rows[i].id == m.id
    {
      assert rows[i] in rows;
      var a, b := Lookup(log, rows[i].id).value, Lookup(log, m.id).value;
      assert Identified(a, who) && Identified(b, who) && Identified(rows[i], who);
    }
    WriteKeepsSound(rows, m, who);
    SetRowFacts(rows, m);
    var rows' := SetRow(rows, m);
    forall id ensures HasId(rows', id) <==> id == m.id || HasId(rows, id) {
      if HasId(rows', id) { assert Lookup(rows', id).value in rows'; }
      assert m in rows';
      if HasId(rows, id) && id != m.id { assert Lookup(rows, id).value in rows'; }
    }
  }

  /** A copy from the log is never mistaken for a duplicate: inserting it loads it and unloads nothing. */
  lemma InsertWithin(s: Store, m: Message, t: Option<int>, log: seq<Message>, floor: int, who: string -> Identity)
    requires Within(s.rows, log, floor, who) && Sound(log, who)
    requires Identified(m, who) && HasId(log, m.id) && floor <= m.seqNo
    ensures Within(Insert(s, m, t).rows, log, floor, who)
    ensures forall id :: HasId(Insert(s, m, t).rows, id) <==> id == m.id || HasId(s.rows, id)
  {
    var row := InsertWrites(s, m, t, who);
    if !HasId(s.rows, m.id) {
      NoTwin(s.rows, m, log, floor, who);
    }
    WriteWithin(s.rows, row.value, log, floor, who);
  }

  lemma NoTwin(rows: Rows, m: Message, log: seq<Message>, floor: int, who: string -> Identity)
    requires Within(rows, log, floor, who) && Sound(log, who)
    requires Identified(m, who) && HasId(log, m.id) && !HasId(rows, m.id)
    ensures m.clientMessageId.None? || !HasClientId(rows, m.clientMessageId.value)
  {
    forall i | 0 <= i < |rows| ensures m.clientMessageId.None? || rows[i].clientMessageId != m.clientMessageId {
      assert rows[i] in rows && rows[i].id != m.id;
      OtherClient(log, rows[i], m, who);
    }
  }

  lemma {:induction false} InsertAllWithin(s: Store, ms: seq<Message>, t: Option<int>, log: seq<Message>, floor: int, who: string -> Identity)
    requires Within(s.rows, log, floor, who) && Sound(log, who)
    requires forall m | m in ms :: Identified(m, who) && HasId(log, m.id) && floor <= m.seqNo
    ensures Within(InsertAll(s, ms, t).rows, log, floor, who)
    ensures forall id :: HasId(InsertAll(s, ms, t).rows, id) <==> HasId(ms, id) || HasId(s.rows, id)
  {
    if ms != [] {
      var n := |ms| - 1;
      var s1 := InsertAll(s, ms[..n], t);
      InsertAllWithin(s, ms[..n], t, log, floor, who);
      InsertWithin(s1, ms[n], t, log, floor, who);
      forall id ensures HasId(ms, id) <==> id == ms[n].id || HasId(ms[..n], id) { HasIdSplits(ms, id); }
    }
  }

  lemma HasIdSplits(ms: seq<Message>, id: string)
    requires ms != []
    ensures HasId(ms, id) <==> id == ms[|ms| - 1].id || HasId(ms[..|ms| - 1], id)
  {
    assert forall i | 0 <= i < |ms| - 1 :: ms[..|ms| - 1][i] == ms[i];
  }

  /** A replacing page becomes the window, id by id. */
  lemma ReplaceWithin(s: Store, page: seq<Message>, t: Option<int>, log: seq<Message>, floor: int, who: string -> Identity)
    requires Within(s.rows, log, floor, who) && OnePerClient(page)
    requires forall m | m in page :: Identified(m, who) && HasId(log, m.id) && floor <= m.seqNo
    ensures var rows := Replace(s, page, t).rows;
            Within(rows, log, floor, who) && forall id :: HasId(rows, id) <==> HasId(page, id)
  {
    ReplaceRowsIsThePage(s, page, t, who);
    ReplaceKeepsSound(s, page, t, who);
    var rows := ReplaceRows(s, page, t).rows;
    forall r | r in rows ensures HasId(log, r.id) && floor <= r.seqNo {
      assert HasId(rows, r.id) && Identified(r, who);
      var p := Lookup(page, r.id).value;
      assert Identified(p, who);
    }
  }

  /** Coverage survives a replacement exactly if the page holds the covered stretch. */
  lemma ReplacementSparesIff(s: Store, page: seq<Message>, t: Option<int>, log: seq<Message>, floor: int, head: int, upTo: int,
                             who: string -> Identity)
    requires Within(s.rows, log, floor, who) && Live(Replaced(page, t), log, floor, who)
    ensures Covers(Replace(s, page, t).rows, log, head, upTo) <==> Spares(Replaced(page, t), log, head, upTo)
  {
    ReplaceWithin(s, page, t, log, floor, who);
    if Spares(Replaced(page, t), log, head, upTo) {
      assert Covers(page, log, head, upTo);
    }
    if Covers(Replace(s, page, t).rows, log, head, upTo) {
      assert Covers(page, log, head, upTo);
    }
  }

  /** The row a confirm takes out is the one it puts back. */
  lemma ConfirmWithin(s: Store, c: string, m: Message, t: Option<int>, log: seq<Message>, floor: int, who: string -> Identity)
    requires Within(s.rows, log, floor, who) && Sound(log, who)
    requires Identified(m, who) && HasId(log, m.id) && floor <= m.seqNo && m.clientMessageId == Some(c)
    ensures var rows := ConfirmClientMessage(s, c, m, t).rows; Within(rows, log, floor, who) && Keeps(s.rows, rows)
  {
    var s1 := s.(rows := DeleteFirstWithClientId(s.rows, c));
    DeleteFirstKeepsIds(s.rows, c);
    AddOneWithin(s1, m, t, log, floor, who);
    forall id | HasId(s.rows, id) && id != m.id ensures HasId(s1.rows, id) {
      StaysConfirmed(s.rows, c, m, id, log, floor, who);
    }
  }

  lemma AddOneWithin(s: Store, m: Message, t: Option<int>, log: seq<Message>, floor: int, who: string -> Identity)
    requires Within(s.rows, log, floor, who) && Sound(log, who)
    requires Identified(m, who) && HasId(log, m.id) && floor <= m.seqNo
    ensures var rows := Add(s, [m], t).rows; Within(rows, log, floor, who) && Keeps(s.rows, rows) && HasId(rows, m.id)
  {
    assert [m][0] == m && HasId([m], m.id);
    InsertAllWithin(s, [m], t, log, floor, who);
  }

  /** A row under another client id than the confirmed one is not the row taken out. */
  lemma StaysConfirmed(rows: Rows, c: string, m: Message, id: string, log: seq<Message>, floor: int, who: string -> Identity)
    requires Within(rows, log, floor, who) && Sound(log, who)
    requires Identified(m, who) && HasId(log, m.id) && m.clientMessageId == Some(c) && HasId(rows, id) && id != m.id
    ensures HasId(DeleteFirstWithClientId(rows, c), id)
  {
    var i :| 0 <= i < |rows| && rows[i].id == id;
    assert rows[i] in rows;
    OtherClient(log, rows[i], m, who);
    RestStays(rows, c, i);
  }

  lemma OtherClient(log: seq<Message>, r: Message, m: Message, who: string -> Identity)
    requires Sound(log, who) && HasId(log, r.id) && HasId(log, m.id) && Identified(r, who) && Identified(m, who) && r.id != m.id
    ensures m.clientMessageId.Some? ==> r.clientMessageId != m.clientMessageId
  {
    var a, b := Lookup(log, r.id).value, Lookup(log, m.id).value;
    assert Identified(a, who) && Identified(b, who);
  }

  lemma RestStays(rows: Rows, c: string, i: nat)
    requires i < |rows| && rows[i].clientMessageId != Some(c)
    ensures HasId(DeleteFirstWithClientId(rows, c), rows[i].id)
  {
    var rows' := DeleteFirstWithClientId(rows, c);
    if HasClientId(rows, c) {
      var k := FirstWithClientId(rows, c).value;
      var j := if i < k then i else i - 1;
      assert rows'[j] == rows[i];
    }
  }

  lemma LiveStepWithin(s: Store, e: Event, log: seq<Message>, floor: int, head: int, upTo: int, who: string -> Identity)
    requires Consistent(s) && Within(s.rows, log, floor, who) && Sound(log, who) && Live(e, log, floor, who)
    requires Spares(e, log, head, upTo)
    ensures Consistent(Step(s, e)) && Within(Step(s, e).rows, log, floor, who)
    ensures Covers(s.rows, log, head, upTo) ==> Covers(Step(s, e).rows, log, head, upTo)
  {
    StepIsConsistent(s, e);
    if e.Replaced? {
      ReplaceWithin(s, e.page, e.fetchedAt, log, floor, who);
      ReplacementSparesIff(s, e.page, e.fetchedAt, log, floor, head, upTo, who);
    } else {
      LiveStepKeeps(s, e, log, floor, who);
    }
  }

  lemma LiveStepKeeps(s: Store, e: Event, log: seq<Message>, floor: int, who: string -> Identity)
    requires Within(s.rows, log, floor, who) && Sound(log, who) && Live(e, log, floor, who) && !e.Replaced?
    ensures Within(Step(s, e).rows, log, floor, who) && Keeps(s.rows, Step(s, e).rows)
  {
    if e.PageMerged? || e.Added? || e.Filled? {
      LiveMergeWithin(s, e, log, floor, who);
    } else if e.Confirmed? {
      ConfirmWithin(s, e.clientId, e.message, e.fetchedAt, log, floor, who);
    } else {
      LivePatchWithin(s, e, log, floor, who);
    }
  }

  lemma LiveMergeWithin(s: Store, e: Event, log: seq<Message>, floor: int, who: string -> Identity)
    requires Within(s.rows, log, floor, who) && Sound(log, who) && Live(e, log, floor, who) && (e.PageMerged? || e.Added? || e.Filled?)
    ensures Within(Step(s, e).rows, log, floor, who) && Keeps(s.rows, Step(s, e).rows)
  {
    match e {
      case PageMerged(page, t) => InsertAllWithin(s, page, t, log, floor, who);
      case Added(batch, t) => AddWithin(s, batch, t, log, floor, who);
      case Filled(page, t) => AddWithin(s.(timerArmed := false), page, t, log, floor, who);
    }
  }

  lemma LivePatchWithin(s: Store, e: Event, log: seq<Message>, floor: int, who: string -> Identity)
    requires Within(s.rows, log, floor, who) && Sound(log, who) && Live(e, log, floor, who) && !(e.PageMerged? || e.Added? || e.Filled? || e.Confirmed? || e.Replaced?)
    ensures Within(Step(s, e).rows, log, floor, who) && Keeps(s.rows, Step(s, e).rows)
  {
    if e.Deleted? {
      MarkDeletedWithin(s, e.id, e.at, e.reason, log, floor, who);
    } else if e.ReactionsSet? {
      SetReactionsWithin(s, e.id, e.counts, e.mine, e.now, log, floor, who);
    } else if e.SendersRefreshed? {
      RefreshWithin(s, e.senders, log, floor, who);
    } else {
      QuietKeepsRows(s, e);
    }
  }

  lemma RefreshWithin(s: Store, senders: seq<Option<UserStub>>, log: seq<Message>, floor: int, who: string -> Identity)
    requires Within(s.rows, log, floor, who)
    ensures Within(UpdateSenders(s, senders).rows, log, floor, who) && Keeps(s.rows, UpdateSenders(s, senders).rows)
  {
    RestampWithin(s.rows, FreshStubs(senders), log, floor, who);
  }

  lemma AddWithin(s: Store, ms: seq<Message>, t: Option<int>, log: seq<Message>, floor: int, who: string -> Identity)
    requires Within(s.rows, log, floor, who) && Sound(log, who)
    requires forall m | m in ms :: Identified(m, who) && HasId(log, m.id) && floor <= m.seqNo
    ensures Within(Add(s, ms, t).rows, log, floor, who) && Keeps(s.rows, Add(s, ms, t).rows)
  {
    InsertAllWithin(s, ms, t, log, floor, who);
  }

  /** A row is written over by one with the same identity. */
  lemma OverwriteWithin(rows: Rows, m: Message, m': Message, log: seq<Message>, floor: int, who: string -> Identity)
    requires Within(rows, log, floor, who) && Sound(log, who) && m in rows
    requires m'.id == m.id && m'.seqNo == m.seqNo && m'.clientMessageId == m.clientMessageId
    ensures Within(SetRow(rows, m'), log, floor, who) && Keeps(rows, SetRow(rows, m'))
  {
    assert Identified(m, who);
    WriteWithin(rows, m', log, floor, who);
  }

  lemma MarkDeletedWithin(s: Store, id: string, at: Timestamp, reason: string, log: seq<Message>, floor: int, who: string -> Identity)
    requires Within(s.rows, log, floor, who) && Sound(log, who)
    ensures var rows' := MarkDeleted(s, id, at, reason).rows; Within(rows', log, floor, who) && Keeps(s.rows, rows')
  {
    var found := Lookup(s.rows, id);
    if found.Some? {
      var m' := Tombstone(found.value, at, reason);
      OverwriteWithin(s.rows, found.value, m', log, floor, who);
      RecomputeKeepsRows(Write(s, m', true), 0);
    }
  }

  lemma RecomputeKeepsRows(s: Store, prepended: nat)
    ensures Recompute(s, prepended).rows == s.rows
  {
  }

  function Reacted(m: Message, counts: seq<ReactionCount>, mine: Option<Option<string>>): Message {
    m.(reactions := Some(counts), myReaction := mine.Or(m.myReaction))
  }

  lemma SetReactionsRows(s: Store, id: string, counts: seq<ReactionCount>, mine: Option<Option<string>>, now: int)
    ensures SetReactions(s, id, counts, mine, now).rows ==
            match Lookup(s.rows, id)
            case None => s.rows
            case Some(m) => if m.Deleted() then s.rows else SetRow(s.rows, Reacted(m, counts, mine))
  {
    var found := Lookup(s.rows, id);
    if found.Some? && !found.value.Deleted() {
      RecomputeKeepsRows(Write(s.(touched := s.touched[id := now]), Reacted(found.value, counts, mine), true), 0);
    }
  }

  lemma SetReactionsWithin(s: Store, id: string, counts: seq<ReactionCount>, mine: Option<Option<string>>, now: int,
                           log: seq<Message>, floor: int, who: string -> Identity)
    requires Within(s.rows, log, floor, who) && Sound(log, who)
    ensures var rows' := SetReactions(s, id, counts, mine, now).rows; Within(rows', log, floor, who) && Keeps(s.rows, rows')
  {
    SetReactionsRows(s, id, counts, mine, now);
    var found := Lookup(s.rows, id);
    if found.Some? && !found.value.Deleted() {
      OverwriteWithin(s.rows, found.value, Reacted(found.value, counts, mine), log, floor, who);
    }
  }

  lemma RestampWithin(rows: Rows, stubs: map<string, UserStub>, log: seq<Message>, floor: int, who: string -> Identity)
    requires Within(rows, log, floor, who)
    ensures Within(RestampAll(rows, stubs), log, floor, who) && Keeps(rows, RestampAll(rows, stubs))
  {
    RestampKeepsSound(rows, stubs, who);
    RestampKeepsIds(rows, stubs);
    var rows' := RestampAll(rows, stubs);
    forall r | r in rows' ensures HasId(log, r.id) && floor <= r.seqNo {
      var i :| 0 <= i < |rows'| && rows'[i] == r;
      assert rows[i] in rows;
    }
  }

  lemma RestampKeepsIds(rows: Rows, stubs: map<string, UserStub>)
    ensures Keeps(rows, RestampAll(rows, stubs))
  {
    var rows' := RestampAll(rows, stubs);
    forall id | HasId(rows, id) ensures HasId(rows', id) {
      var i :| 0 <= i < |rows| && rows[i].id == id;
      assert rows'[i].id == id;
    }
  }

  /** Where a log row stands, by its seq. */
  lemma SeqIsIndex(log: seq<Message>, m: Message, who: string -> Identity) returns (i: nat)
    requires GaplessLog(log, who) && HasId(log, m.id) && Identified(m, who)
    ensures i < |log| && log[i].id == m.id && log[i].seqNo == m.seqNo && m.seqNo == log[0].seqNo + i
  {
    var l := Lookup(log, m.id).value;
    i :| 0 <= i < |log| && log[i] == l;
    assert Identified(l, who);
  }

  lemma SameSeqs(now: seq<Message>, log: seq<Message>, i: nat, who: string -> Identity)
    requires GaplessLog(log, who) && ReadOf(now, log, who) && i < |now|
    ensures now[i].seqNo == log[i].seqNo && now[0].seqNo == log[0].seqNo
  {
    assert now[i] in now && log[i] in log && now[0] in now && log[0] in log;
  }

  /** A gap flagged over a window that holds all of `now` lies behind it, in what came later. */
  lemma GapIsBehind(s: Store, now: seq<Message>, log: seq<Message>, head: int, m: Message, who: string -> Identity)
    requires Consistent(s) && Within(s.rows, log, head, who) && GaplessLog(log, who) && ReadOf(now, log, who)
    requires forall x | x in now && head <= x.seqNo :: HasId(s.rows, x.id)
    requires s.view.needsFill.Some? && m in now
    ensures m.seqNo <= s.view.needsFill.value.afterSeq
  {
    SortedFacts(s.rows);
    var sorted, n := Sorted(s.rows), |s.view.messages|;
    var last := sorted[n - 1];
    assert s.view.messages[n - 1] == last && last in sorted;
    var a := last.seqNo;
    var ia := SeqIsIndex(log, last, who);
    if m.seqNo > a {
      var j :| 0 <= j < |now| && now[j] == m;
      SameSeqs(now, log, j, who);
      var next := now[ia + 1];
      assert next in now && next.seqNo == a + 1;
      var p := Lookup(s.rows, next.id).value;
      assert Identified(p, who) && Identified(next, who);
      NotBetween(sorted, n, p);
    }
  }

  /** And if nothing came later, nothing is flagged. */
  lemma FullWindowHasNoGap(s: Store, now: seq<Message>, log: seq<Message>, head: int, who: string -> Identity)
    requires Consistent(s) && Within(s.rows, log, head, who) && GaplessLog(log, who) && ReadOf(now, log, who)
    requires forall x | x in now && head <= x.seqNo :: HasId(s.rows, x.id)
    requires |now| == |log|
    ensures s.view.needsFill == None
  {
    if s.view.needsFill.Some? {
      SortedFacts(s.rows);
      var sorted, n := Sorted(s.rows), |s.view.messages|;
      assert sorted[n] in sorted;
      var i := SeqIsIndex(log, sorted[n], who);
      SameSeqs(now, log, i, who);
      GapIsBehind(s, now, log, head, now[i], who);
    }
  }

  /** Dispatch one live event to the store. */
  method Perform(store: MessageStore, e: Event)
    modifies store
    ensures store.Model() == Step(old(store.Model()), e)
  {
    if e.Replaced? || e.PageMerged? || e.Added? || e.Confirmed? || e.Filled? {
      PerformMerge(store, e);
    } else {
      PerformPatch(store, e);
    }
  }

  method PerformMerge(store: MessageStore, e: Event)
    requires e.Replaced? || e.PageMerged? || e.Added? || e.Confirmed? || e.Filled?
    modifies store
    ensures store.Model() == Step(old(store.Model()), e)
  {
    match e {
      case Replaced(page, t) => var _ := store.ReplaceAll(page, t);
      case PageMerged(page, t) => store.MergeHistoryPage(page, t);
      case Added(batch, t) => var _ := store.AddMessages(batch, t);
      case Confirmed(c, m, t) => store.Confirm(c, m, t);
      case Filled(page, t) => store.DeliverFill(page, t);
    }
  }

  method PerformPatch(store: MessageStore, e: Event)
    requires !(e.Replaced? || e.PageMerged? || e.Added? || e.Confirmed? || e.Filled?)
    modifies store
    ensures store.Model() == Step(old(store.Model()), e)
  {
    match e {
      case Deleted(id, at, reason) => store.MarkRowDeleted(id, at, reason);
      case ReactionsSet(id, counts, mine, now) => store.OverwriteReactions(id, counts, mine, now);
      case SendersRefreshed(senders) => store.RestampSenders(senders);
      case ReactionBegun(id) => var _ := store.TryBeginReaction(id);
      case ReactionDirtied(id, counts) => store.MarkDirty(id, counts);
      case ReactionEnded(id) => var _ := store.FinishReaction(id);
      case TimerFired => store.FillTimerFired();
      case Disposed => store.Dispose();
    }
  }

  /** The live events of one await, in order. */
  method Interfere(store: MessageStore, events: seq<Event>, ghost log: seq<Message>, ghost floor: int, ghost head: int, ghost upTo: int,
                   ghost who: string -> Identity)
    requires Consistent(store.Model()) && Within(store.byId, log, floor, who) && Sound(log, who)
    requires forall e | e in events :: Live(e, log, floor, who) && Spares(e, log, head, upTo)
    modifies store
    ensures Consistent(store.Model()) && Within(store.byId, log, floor, who)
    ensures old(Covers(store.byId, log, head, upTo)) ==> Covers(store.byId, log, head, upTo)
  {
    for i := 0 to |events|
      invariant Consistent(store.Model()) && Within(store.byId, log, floor, who)
      invariant old(Covers(store.byId, log, head, upTo)) ==> Covers(store.byId, log, head, upTo)
    {
      LiveStepWithin(store.Model(), events[i], log, floor, head, upTo, who);
      Perform(store, events[i]);
    }
  }

  /**
    * The environment of one refresh, per page: the log as the server reads it for that page, the traffic during the
    * await, which may depend on the cursor, the clock, whether the view is still active before asking and after the answer, and whether the request fails.
    */
  datatype Schedule = Schedule(
    log: nat -> seq<Message>, traffic: (nat, Option<int>) -> seq<Event>, clock: nat -> int,
    activeBefore: nat -> bool, activeAfter: nat -> bool, fails: nat -> bool)

  /** The page is the slice of the log from position `k`, the first above the cursor; full exactly if it promises more. */
  ghost predicate SliceAt(page: Page, log: seq<Message>, after: int, k: nat) {
    && k + |page.messages| <= |log| && page.messages == log[k..k + |page.messages|]
    && (forall i | 0 <= i < k :: log[i].seqNo <= after)
    && (k < |log| ==> log[k].seqNo > after)
    && (page.hasMoreAfter ==> |page.messages| == PAGE_LIMIT && k + PAGE_LIMIT < |log|)
    && (!page.hasMoreAfter ==> k + |page.messages| == |log|)
  }

  lemma PageIsSlice(log: seq<Message>, after: int) returns (k: nat)
    ensures SliceAt(FetchPage(log, Some(after)), log, after, k)
  {
    k := |log| - |Above(log, after)|;
  }

  ghost predicate Consecutive(log: seq<Message>) {
    forall i | 0 <= i < |log| :: log[i].seqNo == log[0].seqNo + i
  }

  lemma PageRows(page: Page, log: seq<Message>, after: int, k: nat, head: int)
    requires Consecutive(log) && SliceAt(page, log, after, k) && head <= after + 1
    ensures forall m | m in page.messages :: m in log && HasId(log, m.id) && head <= m.seqNo
  {
    forall m | m in page.messages ensures m in log && HasId(log, m.id) && head <= m.seqNo {
      var i :| 0 <= i < |page.messages| && page.messages[i] == m;
      assert m == log[k + i] && log[k + i].seqNo >= log[k].seqNo;
    }
  }

  lemma PageReach(page: Page, log: seq<Message>, after: int, k: nat, m: Message)
    requires Consecutive(log) && SliceAt(page, log, after, k) && m in log && after < m.seqNo
    requires !page.hasMoreAfter || (page.messages != [] && m.seqNo <= page.messages[|page.messages| - 1].seqNo)
    ensures HasId(page.messages, m.id)
  {
    SliceReaches(log, k, page.messages, after, m);
  }

  lemma SliceReaches(log: seq<Message>, k: nat, page: seq<Message>, after: int, m: Message)
    requires Consecutive(log) && k + |page| <= |log| && page == log[k..k + |page|] && m in log && after < m.seqNo
    requires forall i | 0 <= i < k :: log[i].seqNo <= after
    requires k + |page| == |log| || (page != [] && m.seqNo <= page[|page| - 1].seqNo)
    ensures HasId(page, m.id)
  {
    var j :| 0 <= j < |log| && log[j] == m;
    assert k <= j;
    if page != [] {
      assert page[|page| - 1] == log[k + |page| - 1];
    }
    SliceHas(log, k, page, j);
  }

  lemma SliceHas(log: seq<Message>, k: nat, page: seq<Message>, j: nat)
    requires k + |page| <= |log| && page == log[k..k + |page|] && k <= j < k + |page|
    ensures HasId(page, log[j].id)
  {
    assert page[j - k] == log[j];
  }

  lemma PageProgress(page: Page, log: seq<Message>, after: int, k: nat)
    requires Consecutive(log) && SliceAt(page, log, after, k) && page.hasMoreAfter
    ensures page.messages != [] && log != []
    ensures after < page.messages[|page.messages| - 1].seqNo < log[|log| - 1].seqNo
  {
    assert page.messages[|page.messages| - 1] == log[k + PAGE_LIMIT - 1];
    assert log[k + PAGE_LIMIT - 1].seqNo >= log[k].seqNo > after;
  }

  /** The lowest seq loaded. */
  ghost predicate HeadOf(rows: Rows, head: int) { (forall r | r in rows :: head <= r.seqNo) && exists r | r in rows :: r.seqNo == head }

  lemma HeadIsShown(s: Store, head: int)
    requires Consistent(s) && HeadOf(s.rows, head)
    ensures s.view.messages != [] && s.view.messages[0].seqNo == head
  {
    SortedFacts(s.rows);
    var sorted := Sorted(s.rows);
    var r :| r in s.rows && r.seqNo == head;
    assert r in sorted;
    var i :| 0 <= i < |sorted| && sorted[i] == r;
    Ordered(sorted, 0, i);
    assert sorted[0] in s.rows && s.view.messages[0] == sorted[0];
  }

  lemma StartCovers(rows: Rows, log: seq<Message>, floor: int, head: int, who: string -> Identity)
    requires GaplessLog(log, who) && Within(rows, log, floor, who) && exists r | r in rows :: r.seqNo == head
    ensures Covers(rows, log, head, Max(0, head - 1))
  {
    var r :| r in rows && r.seqNo == head;
    var l := Lookup(log, r.id).value;
    assert Identified(r, who) && Identified(l, who);
    assert HasId(rows, r.id);
    forall m | m in log && head <= m.seqNo <= Max(0, head - 1) ensures HasId(rows, m.id) {
      assert m.seqNo == l.seqNo;
      var i, j :| 0 <= i < |log| && 0 <= j < |log| && log[i] == m && log[j] == l;
      assert i == j;
    }
  }

  lemma ReadRows(now: seq<Message>, log: seq<Message>, who: string -> Identity)
    requires ReadOf(now, log, who)
    ensures forall id :: HasId(now, id) ==> HasId(log, id)
  {
    forall id | HasId(now, id) ensures HasId(log, id) {
      var i :| 0 <= i < |now| && now[i].id == id;
      assert log[i].id == id;
    }
  }

  /** A merged page extends the covered range to its last row, or to the end of what the request read if it was the last page. */
  lemma PageExtendsCover(s: Store, page: Page, t: Option<int>, now: seq<Message>, log: seq<Message>, floor: int, head: int, after: int,
                         who: string -> Identity)
    requires GaplessLog(log, who) && ReadOf(now, log, who) && Within(s.rows, log, floor, who) && floor <= head <= after + 1
    requires Covers(s.rows, log, head, after) && page == FetchPage(now, Some(after))
    ensures var rows := InsertAll(s, page.messages, t).rows;
            && Within(rows, log, floor, who)
            && (page.hasMoreAfter ==>
                  && Gains(page, log, after)
                  && Covers(rows, log, head, page.messages[|page.messages| - 1].seqNo))
            && (!page.hasMoreAfter ==> LoadsAll(rows, now, head))
  {
    var k := PageIsSlice(now, after);
    PageRows(page, now, after, k, head);
    ReadRows(now, log, who);
    InsertAllWithin(s, page.messages, t, log, floor, who);
    var rows := InsertAll(s, page.messages, t).rows;
    if page.hasMoreAfter {
      PageProgress(page, now, after, k);
      SameSeqs(now, log, |now| - 1, who);
      PageCovers(s.rows, rows, page, now, log, head, after, k, who);
    } else {
      LastPageLoads(s.rows, rows, page, now, log, head, after, k, who);
    }
  }

  lemma PageCovers(before: Rows, rows: Rows, page: Page, now: seq<Message>, log: seq<Message>, head: int, after: int, k: nat, who: string -> Identity)
    requires GaplessLog(log, who) && ReadOf(now, log, who) && Covers(before, log, head, after) && Keeps(before, rows)
    requires SliceAt(page, now, after, k) && page.hasMoreAfter && Keeps(page.messages, rows)
    ensures Covers(rows, log, head, page.messages[|page.messages| - 1].seqNo)
  {
    var last := page.messages[|page.messages| - 1];
    assert last == now[k + |page.messages| - 1] && last in now;
    forall m | m in log && head <= m.seqNo <= last.seqNo ensures HasId(rows, m.id) {
      if m.seqNo <= after {
        assert HasId(before, m.id);
      } else {
        var x := CopyInRead(now, log, m, last, who);
        PageReach(page, now, after, k, x);
      }
    }
  }

  lemma LastPageLoads(before: Rows, rows: Rows, page: Page, now: seq<Message>, log: seq<Message>, head: int, after: int, k: nat, who: string -> Identity)
    requires GaplessLog(log, who) && ReadOf(now, log, who) && Covers(before, log, head, after) && Keeps(before, rows)
    requires SliceAt(page, now, after, k) && !page.hasMoreAfter && Keeps(page.messages, rows)
    ensures LoadsAll(rows, now, head)
  {
    forall m | m in now && head <= m.seqNo ensures HasId(rows, m.id) {
      if m.seqNo <= after {
        CoveredInRead(before, now, log, head, after, m, who);
      } else {
        PageReach(page, now, after, k, m);
      }
    }
  }

  /** All of `now` from the head on is loaded. */
  ghost predicate LoadsAll(rows: Rows, now: seq<Message>, head: int) {
    forall m | m in now && head <= m.seqNo :: HasId(rows, m.id)
  }

  /** What lies at or below a row that was read was read too. */
  lemma CopyInRead(now: seq<Message>, log: seq<Message>, m: Message, last: Message, who: string -> Identity) returns (x: Message)
    requires GaplessLog(log, who) && ReadOf(now, log, who) && m in log && last in now && m.seqNo <= last.seqNo
    ensures x in now && x.id == m.id && x.seqNo == m.seqNo
  {
    var j :| 0 <= j < |log| && log[j] == m;
    var k :| 0 <= k < |now| && now[k] == last;
    SameSeqs(now, log, k, who);
    SameSeqs(now, log, j, who);
    x := now[j];
  }

  lemma CoveredInRead(rows: Rows, now: seq<Message>, log: seq<Message>, head: int, after: int, m: Message, who: string -> Identity)
    requires GaplessLog(log, who) && ReadOf(now, log, who) && m in now && Covers(rows, log, head, after) && head <= m.seqNo <= after
    ensures HasId(rows, m.id)
  {
    var i :| 0 <= i < |now| && now[i] == m;
    SameSeqs(now, log, i, who);
    assert log[i] in log;
  }

  /** What every request finds: a sound window of log rows that holds all of them from the head it began with up to the cursor. */
  ghost predicate AtCursor(s: Store, log: seq<Message>, floor: int, head: int, after: int, who: string -> Identity) {
    Consistent(s) && Within(s.rows, log, floor, who) && floor <= head <= after + 1 && Covers(s.rows, log, head, after)
  }

  /** A gap, if one is flagged, lies behind all of `now`, and there is none if nothing came after it. */
  ghost predicate NoGapIn(s: Store, now: seq<Message>, log: seq<Message>) {
    && (s.view.needsFill.Some? ==> forall m | m in now :: m.seqNo <= s.view.needsFill.value.afterSeq)
    && (|now| == |log| ==> s.view.needsFill == None)
  }

  /** All of `now` from the head on is loaded; and if no row below the head came in, no gap is flagged in it. */
  ghost predicate CaughtUp(s: Store, now: seq<Message>, log: seq<Message>, floor: int, head: int) {
    LoadsAll(s.rows, now, head) && (floor == head ==> NoGapIn(s, now, log))
  }

  /** The page ends strictly further on than it began, and still short of the newest row. */
  predicate Gains(page: Page, log: seq<Message>, after: int) {
    && log != [] && page.messages != []
    && after < page.messages[|page.messages| - 1].seqNo < log[|log| - 1].seqNo
  }

  lemma MergePageRows(s: Store, ms: seq<Message>, t: Option<int>)
    ensures MergePage(s, ms, t).rows == InsertAll(s, ms, t).rows
  {
    RecomputeKeepsRows(InsertAll(s, ms, t).(seeded := true), 0);
  }

  lemma Settled(s: Store, now: seq<Message>, log: seq<Message>, head: int, who: string -> Identity)
    requires Consistent(s) && Within(s.rows, log, head, who) && GaplessLog(log, who) && ReadOf(now, log, who)
    requires LoadsAll(s.rows, now, head)
    ensures NoGapIn(s, now, log)
  {
    forall m | m in now && s.view.needsFill.Some? ensures m.seqNo <= s.view.needsFill.value.afterSeq {
      GapIsBehind(s, now, log, head, m, who);
    }
    if |now| == |log| {
      FullWindowHasNoGap(s, now, log, head, who);
    }
  }

  /** The same for a window that may have been empty, and so has no cursor yet. */
  ghost predicate Holds(s: Store, log: seq<Message>, floor: int, head: int, after: Option<int>, who: string -> Identity) {
    Consistent(s) && Within(s.rows, log, floor, who) && (after.Some? ==> AtCursor(s, log, floor, head, after.value, who))
  }

  /** The page is merged: the cursor gained ground, or everything that was read is loaded. */
  ghost predicate Merged(s: Store, page: Page, now: seq<Message>, log: seq<Message>, floor: int, head: int, after: int,
                         who: string -> Identity) {
    && Consistent(s) && Within(s.rows, log, floor, who)
    && (page.hasMoreAfter ==>
          && Gains(page, log, after)
          && AtCursor(s, log, floor, head, page.messages[|page.messages| - 1].seqNo, who))
    && (!page.hasMoreAfter ==> CaughtUp(s, now, log, floor, head))
  }

  /** What merging the next page achieves: progress while there is more; at the end, all that was read, and no gap in it. */
  lemma PageSettles(s: Store, page: Page, t: Option<int>, now: seq<Message>, log: seq<Message>, floor: int, head: int, after: int,
                    who: string -> Identity)
    requires GaplessLog(log, who) && ReadOf(now, log, who) && AtCursor(s, log, floor, head, after, who)
    requires page == FetchPage(now, Some(after))
    ensures Merged(MergePage(s, page.messages, t), page, now, log, floor, head, after, who)
  {
    PageExtendsCover(s, page, t, now, log, floor, head, after, who);
    MergePageIsConsistent(s, page.messages, t);
    MergePageRows(s, page.messages, t);
    if !page.hasMoreAfter && floor == head {
      Settled(MergePage(s, page.messages, t), now, log, head, who);
    }
  }

  lemma StartsAtCursor(s: Store, log: seq<Message>, floor: int, head: int, who: string -> Identity)
    requires GaplessLog(log, who) && Consistent(s) && Within(s.rows, log, floor, who) && floor <= head && HeadOf(s.rows, head)
    ensures s.view.messages != [] && s.view.messages[0].seqNo == head
    ensures AtCursor(s, log, floor, head, Max(0, head - 1), who)
  {
    HeadIsShown(s, head);
    StartCovers(s.rows, log, floor, head, who);
  }

  /** When the loop ends: no more to come, or a page that does not move the cursor. */
  predicate Stops(page: Page, after: Option<int>) {
    || !page.hasMoreAfter || page.messages == []
    || (after.Some? && page.messages[|page.messages| - 1].seqNo <= after.value)
  }

  /** It ends only when everything that was read is loaded; otherwise the next request finds a cursor further on. */
  lemma GoesOn(s: Store, page: Page, now: seq<Message>, log: seq<Message>, floor: int, head: int, after: int, who: string -> Identity)
    requires Merged(s, page, now, log, floor, head, after, who)
    ensures Stops(page, Some(after)) ==> CaughtUp(s, now, log, floor, head)
    ensures !Stops(page, Some(after)) ==>
              Gains(page, log, after) && Holds(s, log, floor, head, Some(page.messages[|page.messages| - 1].seqNo), who)
  {
  }

  /** Live traffic while a page above `after` is on its way. */
  ghost predicate Admitted(e: Event, log: seq<Message>, floor: int, head: int, after: Option<int>, who: string -> Identity) {
    Live(e, log, floor, who) && Spares(e, log, head, after.GetOr(head - 1))
  }

  class RoomSync {
    const store: MessageStore

    constructor (store: MessageStore)
      ensures this.store == store
    {
      this.store := store;
    }

    /**
      * Fetch forward from just below the window's head until the server has no more. The log grows while this runs,
      * and between asking for a page and merging it any live traffic may change the store; a page that replaces the
      * window must hold what is covered so far. `last` is the last request.
      */
    method Run(schedule: Schedule, ghost log: seq<Message>, ghost floor: int, ghost head: int, ghost who: string -> Identity)
      returns (finished: bool, last: nat)
      requires GaplessLog(log, who) && forall k :: ReadOf(schedule.log(k), log, who)
      requires Consistent(store.Model()) && Within(store.byId, log, floor, who) && floor <= head
      requires store.byId != [] ==> HeadOf(store.byId, head)
      requires forall k, after, e | e in schedule.traffic(k, after) :: Admitted(e, log, floor, head, after, who)
      modifies store
      ensures (forall k :: schedule.activeBefore(k) && schedule.activeAfter(k) && !schedule.fails(k)) ==> finished
      ensures finished && old(store.byId) != [] ==> CaughtUp(store.Model(), schedule.log(last), log, floor, head)
    {
      ghost var loaded := store.byId != [];
      var shown := store.state.messages;
      var after: Option<int> := if shown == [] then None else Some(Max(0, shown[0].seqNo - 1));
      if loaded {
        StartsAtCursor(store.Model(), log, floor, head, who);
      }
      last := 0;
      while schedule.activeBefore(last)
        invariant Holds(store.Model(), log, floor, head, after, who)
        invariant loaded == after.Some? && (!loaded ==> last == 0)
        decreases if after.Some? && log != [] then log[|log| - 1].seqNo - after.value else 0
      {
        if schedule.fails(last) {
          return false, last;
        }
        var page := FetchPage(schedule.log(last), after);
        var active := MergeOnePage(schedule, last, page, log, floor, head, after, who);
        if !active {
          return false, last;
        }
        if loaded {
          GoesOn(store.Model(), page, schedule.log(last), log, floor, head, after.value, who);
        }
        if Stops(page, after) {
          return true, last;
        }
        after := Some(page.messages[|page.messages| - 1].seqNo);
        last := last + 1;
      }
      return false, last;
    }

    /** The await of one page, and its merge if the view is still active after it. */
    method MergeOnePage(schedule: Schedule, k: nat, page: Page,
                        ghost log: seq<Message>, ghost floor: int, ghost head: int, after: Option<int>, ghost who: string -> Identity)
      returns (active: bool)
      requires GaplessLog(log, who) && ReadOf(schedule.log(k), log, who) && page == FetchPage(schedule.log(k), after)
      requires Holds(store.Model(), log, floor, head, after, who)
      requires forall e | e in schedule.traffic(k, after) :: Admitted(e, log, floor, head, after, who)
      modifies store
      ensures active == schedule.activeAfter(k)
      ensures active && after.Some? ==> Merged(store.Model(), page, schedule.log(k), log, floor, head, after.value, who)
    {
      var startedAt := schedule.clock(k);
      Interfere(store, schedule.traffic(k, after), log, floor, head, after.GetOr(head - 1), who);
      if !schedule.activeAfter(k) {
        return false;
      }
      ghost var s := store.Model();
      store.MergeHistoryPage(page.messages, Some(startedAt));
      if after.Some? {
        PageSettles(s, page, Some(startedAt), schedule.log(k), log, floor, head, after.value, who);
      }
      active := true;
    }
  }
}
