/** Guarantees that need stable identities: one row per logical message, and no unflagged hole. */
module StoreIdentity {
  import opened Common
  import opened Sorting
  import opened Messages
  import opened MessageTable
  import opened MessageStores
  import opened StoreRuns

  /** What an id fixes for good, on the server and for an optimistic copy alike: its client id, and its seq if one is given. */
  datatype Identity = Identity(seqNo: Option<int>, clientId: Option<string>)

  predicate Identified(m: Message, who: string -> Identity) {
    who(m.id).clientId == m.clientMessageId && (who(m.id).seqNo.Some? ==> who(m.id).seqNo.value == m.seqNo)
  }

  /** Every id fixes its seq too. One row per client id does not need it; the absence of holes does. */
  ghost predicate FixesSeqs(who: string -> Identity) { forall id :: who(id).seqNo.Some? }

  ghost predicate AllIdentified(ms: seq<Message>, who: string -> Identity) {
    forall m | m in ms :: Identified(m, who)
  }

  ghost predicate OnePerClient(ms: seq<Message>) {
    forall a, b | a in ms && b in ms && a.clientMessageId.Some? && a.clientMessageId == b.clientMessageId :: a.id == b.id
  }

  ghost predicate Sound(rows: Rows, who: string -> Identity) {
    UniqueIds(rows) && AllIdentified(rows, who) && OnePerClient(rows)
  }

  lemma WriteKeepsSound(rows: Rows, m: Message, who: string -> Identity)
    requires Sound(rows, who) && Identified(m, who)
    requires HasId(rows, m.id) || m.clientMessageId.None? || !HasClientId(rows, m.clientMessageId.value)
    ensures Sound(SetRow(rows, m), who)
  {
    SetRowFacts(rows, m);
    forall b | b in rows && b.id != m.id && m.clientMessageId.Some? ensures b.clientMessageId != m.clientMessageId {
      if HasId(rows, m.id) {
        var r := Lookup(rows, m.id).value;
        assert Identified(r, who);
      }
    }
  }

  lemma MergeKeepsIdentity(previous: Message, m: Message, keep: bool, who: string -> Identity)
    requires previous.id == m.id && Identified(previous, who) && Identified(m, who)
    ensures var r := MergeExisting(previous, m, keep);
            r.id == m.id && Identified(r, who)
  {
  }

  /** An insert writes one identified row, or drops a second delivery of a row known under its client id. */
  lemma InsertWrites(s: Store, m: Message, t: Option<int>, who: string -> Identity) returns (row: Option<Message>)
    requires AllIdentified(s.rows, who) && Identified(m, who)
    ensures match row
            case Some(r) =>
              && Insert(s, m, t).rows == SetRow(s.rows, r) && Identified(r, who) && r.id == m.id
              && (HasId(s.rows, m.id) || m.clientMessageId.None? || !HasClientId(s.rows, m.clientMessageId.value))
            case None =>
              && Insert(s, m, t).rows == s.rows && !HasId(s.rows, m.id)
              && m.clientMessageId.Some? && HasClientId(s.rows, m.clientMessageId.value)
  {
    var found := Lookup(s.rows, m.id);
    if found.Some? {
      var keep := KeepsSummary(s, m.id, t);
      MergeKeepsIdentity(found.value, m, keep, who);
      row := Some(MergeExisting(found.value, m, keep));
    } else if m.clientMessageId.Some? && HasClientId(s.rows, m.clientMessageId.value) {
      row := None;
    } else {
      row := Some(m);
    }
  }

  lemma InsertKeepsSound(s: Store, m: Message, t: Option<int>, who: string -> Identity)
    requires Sound(s.rows, who) && Identified(m, who)
    ensures Sound(Insert(s, m, t).rows, who)
  {
    var row := InsertWrites(s, m, t, who);
    if row.Some? {
      WriteKeepsSound(s.rows, row.value, who);
    }
  }

  lemma {:induction false} InsertAllKeepsSound(s: Store, ms: seq<Message>, t: Option<int>, who: string -> Identity)
    requires Sound(s.rows, who) && AllIdentified(ms, who)
    ensures Sound(InsertAll(s, ms, t).rows, who)
  {
    if ms != [] {
      var n := |ms| - 1;
      InsertAllKeepsSound(s, ms[..n], t, who);
      InsertKeepsSound(InsertAll(s, ms[..n], t), ms[n], t, who);
    }
  }

  ghost predicate IsThePage(rows: Rows, page: seq<Message>, who: string -> Identity) {
    UniqueIds(rows) && AllIdentified(rows, who) && forall id :: HasId(rows, id) <==> HasId(page, id)
  }

  /** A replacing page is the new table, id by id. */
  lemma {:induction false} ReplaceRowsIsThePage(s: Store, page: seq<Message>, t: Option<int>, who: string -> Identity)
    requires UniqueIds(s.rows) && AllIdentified(s.rows, who) && AllIdentified(page, who)
    ensures IsThePage(ReplaceRows(s, page, t).rows, page, who)
  {
    if page != [] {
      var n := |page| - 1;
      var s1 := ReplaceRows(s, page[..n], t);
      ReplaceRowsIsThePage(s, page[..n], t, who);
      var row := ReplaceOneWrites(s1, s.rows, page[n], t, who);
      WriteExtendsThePage(s1.rows, row, page, who);
    }
  }

  lemma ReplaceOneWrites(s: Store, previous: Rows, m: Message, t: Option<int>, who: string -> Identity) returns (row: Message)
    requires AllIdentified(previous, who) && Identified(m, who)
    ensures ReplaceOne(s, previous, m, t).rows == SetRow(s.rows, row) && Identified(row, who) && row.id == m.id
  {
    var before := Lookup(previous, m.id);
    if before.Some? {
      var keep := KeepsSummary(s, m.id, t);
      MergeKeepsIdentity(before.value, m, keep, who);
      row := MergeExisting(before.value, m, keep);
    } else {
      row := m;
    }
  }

  lemma WriteExtendsThePage(rows: Rows, row: Message, page: seq<Message>, who: string -> Identity)
    requires 0 < |page| && IsThePage(rows, page[..|page| - 1], who)
    requires Identified(row, who) && row.id == page[|page| - 1].id
    ensures IsThePage(SetRow(rows, row), page, who)
  {
    SetRowFacts(rows, row);
    var rows' := SetRow(rows, row);
    assert row in rows';
    SameIds(rows, page[..|page| - 1], rows', page, row.id);
  }

  lemma SameIds(rows: Rows, page: seq<Message>, rows': Rows, page': seq<Message>, added: string)
    requires forall id :: HasId(rows, id) <==> HasId(page, id)
    requires |page'| == |page| + 1 && page'[..|page|] == page && page'[|page|].id == added
    requires forall x :: x in rows' ==> x.id == added || x in rows
    requires HasId(rows', added) && forall x :: x in rows && x.id != added ==> x in rows'
    ensures forall id :: HasId(rows', id) <==> HasId(page', id)
  {
    forall id ensures HasId(rows', id) <==> HasId(page', id) {
      assert page'[|page|].id == added;
      assert forall i | 0 <= i < |page| :: page'[i] == page[i];
      assert HasId(page', id) <==> id == added || HasId(page, id);
      if HasId(rows', id) && id != added {
        assert Lookup(rows', id).value in rows;
      }
      if HasId(rows, id) && id != added {
        assert Lookup(rows, id).value in rows';
      }
    }
  }

  lemma ReplaceKeepsSound(s: Store, page: seq<Message>, t: Option<int>, who: string -> Identity)
    requires Sound(s.rows, who) && AllIdentified(page, who) && OnePerClient(page)
    ensures Sound(ReplaceRows(s, page, t).rows, who)
  {
    ReplaceRowsIsThePage(s, page, t, who);
    var rows := ReplaceRows(s, page, t).rows;
    forall a, b | a in rows && b in rows && a.clientMessageId.Some? && a.clientMessageId == b.clientMessageId
      ensures a.id == b.id
    {
      var pa, pb := Lookup(page, a.id).value, Lookup(page, b.id).value;
      assert Identified(a, who) && Identified(pa, who) && Identified(b, who) && Identified(pb, who);
    }
  }

  lemma RestampKeepsSound(rows: Rows, stubs: map<string, UserStub>, who: string -> Identity)
    requires Sound(rows, who)
    ensures Sound(RestampAll(rows, stubs), who)
  {
    RestampKeepsIds(rows, stubs);
    var rows' := RestampAll(rows, stubs);
    forall m' | m' in rows' ensures exists m | m in rows :: m'.id == m.id && m'.seqNo == m.seqNo && m'.clientMessageId == m.clientMessageId {
      var i :| 0 <= i < |rows'| && rows'[i] == m';
      assert rows[i] in rows;
    }
  }

  lemma OverwriteKeepsSound(s: Store, m: Message, m': Message, who: string -> Identity)
    requires Sound(s.rows, who) && m in s.rows
    requires m'.id == m.id && m'.seqNo == m.seqNo && m'.clientMessageId == m.clientMessageId
    ensures Sound(Write(s, m', true).rows, who)
  {
    assert Identified(m, who);
    WriteKeepsSound(s.rows, m', who);
  }

  predicate Admissible(e: Event, who: string -> Identity) {
    && (forall m | m in e.Copies() :: Identified(m, who))
    && (e.Replaced? ==> forall a, b | a in e.page && b in e.page
                          && a.clientMessageId.Some? && a.clientMessageId == b.clientMessageId :: a.id == b.id)
  }

  lemma ConfirmKeepsSound(s: Store, c: string, m: Message, t: Option<int>, who: string -> Identity)
    requires Sound(s.rows, who) && Identified(m, who)
    ensures Sound(ConfirmClientMessage(s, c, m, t).rows, who)
  {
    var s1 := s.(rows := DeleteFirstWithClientId(s.rows, c));
    DeleteFirstKeepsIds(s.rows, c);
    AddKeepsSound(s1, [m], t, who);
  }

  lemma AddKeepsSound(s: Store, ms: seq<Message>, t: Option<int>, who: string -> Identity)
    requires Sound(s.rows, who) && AllIdentified(ms, who)
    ensures Sound(Add(s, ms, t).rows, who)
  {
    InsertAllKeepsSound(s, ms, t, who);
  }

  lemma MarkDeletedKeepsSound(s: Store, id: string, at: Timestamp, reason: string, who: string -> Identity)
    requires Sound(s.rows, who)
    ensures Sound(MarkDeleted(s, id, at, reason).rows, who)
  {
    var found := Lookup(s.rows, id);
    if found.Some? {
      OverwriteKeepsSound(s, found.value, Tombstone(found.value, at, reason), who);
    }
  }

  lemma SetReactionsKeepsSound(s: Store, id: string, counts: seq<ReactionCount>, mine: Option<Option<string>>, now: int,
                               who: string -> Identity)
    requires Sound(s.rows, who)
    ensures Sound(SetReactions(s, id, counts, mine, now).rows, who)
  {
    var found := Lookup(s.rows, id);
    if found.Some? && !found.value.Deleted() {
      var m := found.value;
      OverwriteKeepsSound(s.(touched := s.touched[id := now]), m,
                          m.(reactions := Some(counts), myReaction := mine.Or(m.myReaction)), who);
    }
  }

  lemma LocalStepKeepsSound(s: Store, e: Event, who: string -> Identity)
    requires Sound(s.rows, who)
    requires !(e.Replaced? || e.PageMerged? || e.Added? || e.Filled? || e.Confirmed?)
    ensures Sound(Step(s, e).rows, who)
  {
    match e {
      case Deleted(id, at, reason) => MarkDeletedKeepsSound(s, id, at, reason, who);
      case ReactionsSet(id, counts, mine, now) => SetReactionsKeepsSound(s, id, counts, mine, now, who);
      case SendersRefreshed(senders) => RestampKeepsSound(s.rows, FreshStubs(senders), who);
      case _ =>
    }
  }

  lemma CopyStepKeepsSound(s: Store, e: Event, who: string -> Identity)
    requires Sound(s.rows, who) && Admissible(e, who)
    requires e.Replaced? || e.PageMerged? || e.Added? || e.Filled? || e.Confirmed?
    ensures Sound(Step(s, e).rows, who)
  {
    match e {
      case Replaced(page, t) => ReplaceKeepsSound(s, page, t, who);
      case PageMerged(page, t) => InsertAllKeepsSound(s, page, t, who);
      case Added(batch, t) => AddKeepsSound(s, batch, t, who);
      case Filled(page, t) => AddKeepsSound(s.(timerArmed := false), page, t, who);
      case Confirmed(c, m, t) => ConfirmKeepsSound(s, c, m, t, who);
    }
  }

  lemma StepKeepsSound(s: Store, e: Event, who: string -> Identity)
    requires Sound(s.rows, who) && Admissible(e, who)
    ensures Sound(Step(s, e).rows, who)
  {
    if e.Replaced? || e.PageMerged? || e.Added? || e.Filled? || e.Confirmed? {
      CopyStepKeepsSound(s, e, who);
    } else {
      LocalStepKeepsSound(s, e, who);
    }
  }

  /** Whatever the order of optimistic copy, realtime echo and REST pages, no two rows share a client id. */
  lemma {:induction false} OneRowPerMessage(roomId: string, es: seq<Event>, who: string -> Identity)
    requires forall i | 0 <= i < |es| :: Admissible(es[i], who)
    ensures Sound(Run(Empty(roomId), es).rows, who)
  {
    if es != [] {
      var n := |es| - 1;
      OneRowPerMessage(roomId, es[..n], who);
      StepKeepsSound(Run(Empty(roomId), es[..n]), es[n], who);
    }
  }

  /** Confirming leaves the confirmed copy, as it came, as the only row of its client id. */
  lemma ConfirmLeavesTheConfirmed(s: Store, c: string, m: Message, t: Option<int>, who: string -> Identity)
    requires Sound(s.rows, who) && Identified(m, who) && m.clientMessageId == Some(c)
    ensures var rows := ConfirmClientMessage(s, c, m, t).rows;
            m in rows && forall r | r in rows && r.clientMessageId == Some(c) :: r == m
  {
    var rows := DeleteFirstWithClientId(s.rows, c);
    DeletingFreesTheClientId(s.rows, c, who);
    DeleteFirstKeepsIds(s.rows, c);
    forall i | 0 <= i < |rows| ensures rows[i].id != m.id {
      assert rows[i] in rows && Identified(rows[i], who);
    }
    SetRowFacts(rows, m);
    AddOneNew(s.(rows := rows), m, t);
  }

  lemma DeletingFreesTheClientId(rows: Rows, c: string, who: string -> Identity)
    requires Sound(rows, who)
    ensures !HasClientId(DeleteFirstWithClientId(rows, c), c)
  {
    var rows' := DeleteFirstWithClientId(rows, c);
    if HasClientId(rows, c) {
      var k := FirstWithClientId(rows, c).value;
      forall i | 0 <= i < |rows'| ensures rows'[i].clientMessageId != Some(c) {
        var j := if i < k then i else i + 1;
        assert rows'[i] == rows[j] && rows[j] in rows && rows[k] in rows;
        assert rows[j].id != rows[k].id;
      }
    }
  }

  lemma AddOneNew(s: Store, m: Message, t: Option<int>)
    requires !HasId(s.rows, m.id) && (m.clientMessageId.None? || !HasClientId(s.rows, m.clientMessageId.value))
    ensures Add(s, [m], t).rows == SetRow(s.rows, m)
  {
    assert [m][..0] == [];
    assert InsertAll(s, [], t) == s;
    assert InsertAll(s, [m], t) == Insert(s, m, t);
  }

  // ---- no unflagged hole ----

  /** The row is the head, or has a row right below it. */
  ghost predicate Supported(ms: seq<Message>, m: Message) {
    (exists p | p in ms :: p.seqNo == m.seqNo - 1) || (forall p | p in ms :: m.seqNo <= p.seqNo)
  }

  ghost predicate Contiguous(ms: seq<Message>) {
    forall m {:trigger Supported(ms, m)} | m in ms :: Supported(ms, m)
  }

  lemma ContiguousSortsWithoutJump(rows: Rows)
    requires Contiguous(rows)
    ensures NoJump(Sorted(rows))
  {
    SortedFacts(rows);
    var sorted := Sorted(rows);
    forall i, j | 0 <= i < j < |sorted| && j == i + 1 ensures sorted[j].seqNo <= sorted[i].seqNo + 1 {
      NeighboursTouch(rows, sorted, i);
    }
  }

  lemma NeighboursTouch(rows: Rows, sorted: Rows, i: nat)
    requires Contiguous(rows) && SortedBy(BySeq, sorted) && i + 1 < |sorted| && forall m :: m in sorted <==> m in rows
    ensures sorted[i + 1].seqNo <= sorted[i].seqNo + 1
  {
    var m := sorted[i + 1];
    assert m in sorted && sorted[i] in sorted && Supported(rows, m);
    if p :| p in rows && p.seqNo == m.seqNo - 1 {
      NotBetween(sorted, i + 1, p);
    }
  }

  /** No row of a sorted list lies strictly between two neighbours. */
  lemma NotBetween(sorted: Rows, n: nat, p: Message)
    requires SortedBy(BySeq, sorted) && 0 < n < |sorted| && p in sorted
    ensures p.seqNo <= sorted[n - 1].seqNo || sorted[n].seqNo <= p.seqNo
  {
    var q :| 0 <= q < |sorted| && sorted[q] == p;
    if q < n {
      Ordered(sorted, q, n - 1);
    } else {
      Ordered(sorted, n, q);
    }
  }

  lemma Ordered(sorted: Rows, i: nat, j: nat)
    requires SortedBy(BySeq, sorted) && i <= j < |sorted|
    ensures sorted[i].seqNo <= sorted[j].seqNo
  {
    assert i < j ==> BySeq(sorted[i], sorted[j]);
  }

  /** A seeded window that has not timed out shows no hole: a hole is either flagged or not there. */
  ghost predicate Tight(s: Store) {
    s.seeded && !s.view.fillTimedOut ==> NoJump(s.view.messages)
  }

  lemma RecomputeIsTight(s: Store, prepended: nat)
    ensures Tight(Recompute(s, prepended))
  {
    var sorted := Sorted(s.rows);
    assert sorted[..|sorted|] == sorted;
  }

  lemma ReplaceIsTight(s: Store, page: seq<Message>, t: Option<int>, who: string -> Identity)
    requires UniqueIds(s.rows) && AllIdentified(s.rows, who) && AllIdentified(page, who) && FixesSeqs(who) && Contiguous(page)
    ensures Tight(Replace(s, page, t))
  {
    ReplaceRowsIsThePage(s, page, t, who);
    var rows := ReplaceRows(s, page, t).rows;
    SamePageIsContiguous(rows, page, who);
    ContiguousSortsWithoutJump(rows);
  }

  lemma SamePageIsContiguous(rows: Rows, page: seq<Message>, who: string -> Identity)
    requires IsThePage(rows, page, who) && AllIdentified(page, who) && FixesSeqs(who) && Contiguous(page)
    ensures Contiguous(rows)
  {
    forall m | m in rows ensures Supported(rows, m) {
      var q := SameSeq(rows, page, m, who);
      assert Supported(page, q);
      if p :| p in page && p.seqNo == q.seqNo - 1 {
        var r := SameSeq(page, rows, p, who);
      } else {
        forall r | r in rows ensures m.seqNo <= r.seqNo {
          var p := SameSeq(rows, page, r, who);
        }
      }
    }
  }

  lemma SameSeq(a: seq<Message>, b: seq<Message>, m: Message, who: string -> Identity) returns (p: Message)
    requires AllIdentified(a, who) && AllIdentified(b, who) && FixesSeqs(who) && m in a && (HasId(a, m.id) ==> HasId(b, m.id))
    ensures p in b && p.seqNo == m.seqNo
  {
    assert HasId(a, m.id);
    p := Lookup(b, m.id).value;
    assert Identified(p, who) && Identified(m, who);
  }

  lemma MarkDeletedIsTight(s: Store, id: string, at: Timestamp, reason: string)
    requires Tight(s)
    ensures Tight(MarkDeleted(s, id, at, reason))
  {
    if HasId(s.rows, id) {
      RecomputeIsTight(Write(s, Tombstone(Lookup(s.rows, id).value, at, reason), true), 0);
    }
  }

  lemma SetReactionsIsTight(s: Store, id: string, counts: seq<ReactionCount>, mine: Option<Option<string>>, now: int)
    requires Tight(s)
    ensures Tight(SetReactions(s, id, counts, mine, now))
  {
    if HasId(s.rows, id) {
      var m := Lookup(s.rows, id).value;
      RecomputeIsTight(Write(s.(touched := s.touched[id := now]),
                             m.(reactions := Some(counts), myReaction := mine.Or(m.myReaction)), true), 0);
    }
  }

  lemma MergePageIsTight(s: Store, page: seq<Message>, t: Option<int>)
    ensures Tight(MergePage(s, page, t))
  {
    RecomputeIsTight(InsertAll(s, page, t).(seeded := true), 0);
  }

  lemma UpdateSendersIsTight(s: Store, senders: seq<Option<UserStub>>)
    requires Consistent(s) && Tight(s)
    ensures Tight(UpdateSenders(s, senders))
  {
    RestampStoreIsConsistent(s, FreshStubs(senders));
  }

  lemma PatchStepIsTight(s: Store, e: Event)
    requires Consistent(s) && Tight(s) && (e.Deleted? || e.ReactionsSet? || e.SendersRefreshed?)
    ensures Tight(Step(s, e))
  {
    match e {
      case Deleted(id, at, reason) => MarkDeletedIsTight(s, id, at, reason);
      case ReactionsSet(id, counts, mine, now) => SetReactionsIsTight(s, id, counts, mine, now);
      case SendersRefreshed(senders) => UpdateSendersIsTight(s, senders);
    }
  }

  lemma AddStepIsTight(s: Store, e: Event)
    requires e.PageMerged? || e.Added? || e.Filled? || e.Confirmed?
    ensures Tight(Step(s, e))
  {
    match e {
      case PageMerged(page, t) => MergePageIsTight(s, page, t);
      case Added(batch, t) => AddIsTight(s, batch, t);
      case Filled(page, t) => AddIsTight(s.(timerArmed := false), page, t);
      case Confirmed(c, m, t) => AddIsTight(s.(rows := DeleteFirstWithClientId(s.rows, c)), [m], t);
    }
  }

  lemma FlagStepIsTight(s: Store, e: Event)
    requires Tight(s) && (e.ReactionBegun? || e.ReactionDirtied? || e.ReactionEnded? || e.TimerFired? || e.Disposed?)
    ensures Tight(Step(s, e))
  {
  }

  lemma StepIsTight(s: Store, e: Event, who: string -> Identity)
    requires Consistent(s) && AllIdentified(s.rows, who) && FixesSeqs(who) && Tight(s) && Admissible(e, who)
    requires e.Replaced? ==> Contiguous(e.page)
    ensures Tight(Step(s, e))
  {
    if e.Replaced? {
      ReplaceIsTight(s, e.page, e.fetchedAt, who);
    } else if e.PageMerged? || e.Added? || e.Filled? || e.Confirmed? {
      AddStepIsTight(s, e);
    } else if e.Deleted? || e.ReactionsSet? || e.SendersRefreshed? {
      PatchStepIsTight(s, e);
    } else {
      FlagStepIsTight(s, e);
    }
  }

  lemma AddIsTight(s: Store, ms: seq<Message>, t: Option<int>)
    ensures Tight(Add(s, ms, t))
  {
    var s' := InsertAll(s, ms, t);
    RecomputeIsTight(s', Prepended(s.rows, s'.rows));
  }

  /** With contiguous initial pages, a run never shows a hole it has not flagged or timed out on. */
  lemma {:induction false} NoUnflaggedHole(roomId: string, es: seq<Event>, who: string -> Identity)
    requires FixesSeqs(who)
    requires forall i | 0 <= i < |es| :: Admissible(es[i], who) && (es[i].Replaced? ==> Contiguous(es[i].page))
    ensures Tight(Run(Empty(roomId), es))
  {
    if es != [] {
      var n := |es| - 1;
      NoUnflaggedHole(roomId, es[..n], who);
      RunsAreConsistent(roomId, es[..n]);
      OneRowPerMessage(roomId, es[..n], who);
      StepIsTight(Run(Empty(roomId), es[..n]), es[n], who);
    }
  }
}
