/** What one run can do to one row: its rank, its reaction summary and the version that stands for that summary. */
module StoreRows {
  import opened Common
  import opened Messages
  import opened MessageTable
  import opened MessageStores
  import opened StoreRuns

  /** One row as the store sees it, loaded or not, with its reaction version and whether a request is in flight. */
  datatype Track = Track(row: Option<Message>, version: nat, pending: bool)

  function TrackOf(s: Store, id: string): Track {
    Track(Lookup(s.rows, id), s.Version(id), id in s.pending)
  }

  /** The same, for copies fetched at `t`: protected also from a page asked for before our last write of the summary. */
  function TrackAt(s: Store, id: string, t: Option<int>): Track {
    TrackOf(s, id).(pending := KeepsSummary(s, id, t))
  }

  /** The same summary, or a tombstone that lost its own. */
  predicate SameOrCleared(m: Message, m': Message) {
    && m.Deleted() == m'.Deleted()
    && (SummaryOf(m') == SummaryOf(m) || (m'.Deleted() && SummaryOf(m') == NO_SUMMARY))
  }

  /** The version never goes back, and standing still means the row was there, as live as now, with this very summary. */
  predicate VersionTells(t: Track, t': Track) {
    && t.version <= t'.version
    && (t'.row.Some? && t.version == t'.version ==> t.row.Some? && SameOrCleared(t.row.value, t'.row.value))
  }

  predicate RankKept(t: Track, t': Track) {
    t.row.Some? && t'.row.Some? ==> RankLe(t.row.value, t'.row.value)
  }

  /** While its summary is protected, a row that is still live shows the summary it showed before. */
  predicate SummaryKept(t: Track, t': Track) {
    t.pending && t.row.Some? && t'.row.Some? && !t'.row.value.Deleted() ==>
      SummaryOf(t.row.value) == SummaryOf(t'.row.value)
  }

  predicate Merged(t: Track, t': Track) {
    && t'.pending == t.pending
    && VersionTells(t, t') && RankKept(t, t') && SummaryKept(t, t')
  }

  predicate Changed(t: Track, t': Track) {
    VersionTells(t, t') && RankKept(t, t')
  }

  lemma LookupAfterSet(rows: Rows, m: Message, id: string)
    requires UniqueIds(rows)
    ensures Lookup(SetRow(rows, m), id) == if id == m.id then Some(m) else Lookup(rows, id)
  {
    SetRowFacts(rows, m);
    var r := SetRow(rows, m);
    if id == m.id {
      LookupIsTheRow(r, m);
    } else if HasId(rows, id) {
      LookupIsTheRow(r, Lookup(rows, id).value);
    } else {
      assert !HasId(r, id);
    }
  }

  /** What an incoming copy does to a loaded row. */
  function AbsorbTrack(t: Track, previous: Message, m: Message, keep: bool): Track {
    t.(row := Some(MergeExisting(previous, m, keep)),
       version := t.version + if MergeBumps(previous, m, keep) then 1 else 0)
  }

  lemma WriteOnRow(s: Store, m: Message, bump: bool, id: string)
    requires UniqueIds(s.rows)
    ensures TrackOf(Write(s, m, bump), id) ==
            if id == m.id then TrackOf(s, id).(row := Some(m), version := s.Version(id) + if bump then 1 else 0)
            else TrackOf(s, id)
  {
    LookupAfterSet(s.rows, m, id);
  }

  lemma AbsorbOnRow(s: Store, previous: Message, m: Message, t: Option<int>, id: string)
    requires UniqueIds(s.rows) && previous.id == m.id
    ensures TrackOf(Absorb(s, previous, m, t), id) ==
            if id == m.id then AbsorbTrack(TrackOf(s, id), previous, m, KeepsSummary(s, id, t)) else TrackOf(s, id)
  {
    var keep := KeepsSummary(s, m.id, t);
    WriteOnRow(s, MergeExisting(previous, m, keep), MergeBumps(previous, m, keep), id);
  }

  /** Writing and absorbing leave every row's protection alone. */
  lemma WriteAt(s: Store, m: Message, bump: bool, id: string, t: Option<int>)
    requires UniqueIds(s.rows)
    ensures TrackAt(Write(s, m, bump), id, t) ==
            if id == m.id then TrackAt(s, id, t).(row := Some(m), version := s.Version(id) + if bump then 1 else 0)
            else TrackAt(s, id, t)
  {
    WriteOnRow(s, m, bump, id);
  }

  lemma AbsorbAt(s: Store, previous: Message, m: Message, t: Option<int>, id: string)
    requires UniqueIds(s.rows) && previous.id == m.id
    ensures TrackAt(Absorb(s, previous, m, t), id, t) ==
            if id == m.id then AbsorbTrack(TrackAt(s, id, t), previous, m, KeepsSummary(s, id, t)) else TrackAt(s, id, t)
  {
    AbsorbOnRow(s, previous, m, t, id);
  }

  lemma NewIsMerged(t: Track, m: Message)
    requires t.row.None?
    ensures Merged(t, t.(row := Some(m), version := t.version + 1))
  {
  }

  lemma SameIsMerged(t: Track)
    ensures Merged(t, t)
  {
  }

  lemma AbsorbedIsMerged(t: Track, previous: Message, m: Message, keep: bool)
    requires t.row == Some(previous) && (t.pending ==> keep)
    ensures Merged(t, AbsorbTrack(t, previous, m, keep))
  {
    if !MergeBumps(previous, m, keep) {
      UnbumpedMergeKeepsSummary(previous, m, keep);
    }
  }

  lemma InsertOnRow(s: Store, m: Message, t: Option<int>, id: string)
    requires UniqueIds(s.rows)
    ensures Merged(TrackAt(s, id, t), TrackAt(Insert(s, m, t), id, t))
    ensures TrackAt(s, id, t).row.Some? ==> TrackAt(Insert(s, m, t), id, t).row.Some?
  {
    var found := Lookup(s.rows, m.id);
    SameIsMerged(TrackAt(s, id, t));
    if found.Some? {
      AbsorbAt(s, found.value, m, t, id);
      if id == m.id {
        AbsorbedIsMerged(TrackAt(s, id, t), found.value, m, KeepsSummary(s, id, t));
      }
    } else {
      InsertNewAt(s, m, t, id);
    }
  }

  lemma InsertNewAt(s: Store, m: Message, t: Option<int>, id: string)
    requires UniqueIds(s.rows) && !HasId(s.rows, m.id)
    ensures Merged(TrackAt(s, id, t), TrackAt(Insert(s, m, t), id, t))
    ensures TrackAt(s, id, t).row.Some? ==> TrackAt(Insert(s, m, t), id, t).row.Some?
  {
    WriteAt(s, m, true, id, t);
    SameIsMerged(TrackAt(s, id, t));
    if id == m.id {
      NewIsMerged(TrackAt(s, id, t), m);
    }
  }

  lemma MergedComposes(a: Track, b: Track, c: Track)
    requires Merged(a, b) && Merged(b, c) && (a.row.Some? ==> b.row.Some?)
    ensures Merged(a, c)
  {
  }

  lemma {:induction false} InsertAllOnRow(s: Store, ms: seq<Message>, t: Option<int>, id: string)
    requires UniqueIds(s.rows)
    ensures Merged(TrackAt(s, id, t), TrackAt(InsertAll(s, ms, t), id, t))
    ensures TrackAt(s, id, t).row.Some? ==> TrackAt(InsertAll(s, ms, t), id, t).row.Some?
  {
    if ms != [] {
      var n := |ms| - 1;
      var s1 := InsertAll(s, ms[..n], t);
      InsertAllOnRow(s, ms[..n], t, id);
      InsertAllKeepsIds(s, ms[..n], t);
      InsertOnRow(s1, ms[n], t, id);
      MergedComposes(TrackAt(s, id, t), TrackAt(s1, id, t), TrackAt(Insert(s1, ms[n], t), id, t));
    }
  }

  lemma {:induction false} ReplaceOnRow(s: Store, page: seq<Message>, t: Option<int>, id: string)
    requires UniqueIds(s.rows)
    ensures Merged(TrackAt(s, id, t), TrackAt(ReplaceRows(s, page, t), id, t))
  {
    if page != [] {
      var n := |page| - 1;
      var s1 := ReplaceRows(s, page[..n], t);
      ReplaceOnRow(s, page[..n], t, id);
      ReplaceRowsKeepsIds(s, page[..n], t);
      ReplaceOneOnRow(s, s1, page[n], t, id);
    }
  }

  /** A row of the page is merged with the row loaded before the page, whatever the page did to it so far. */
  lemma ReplaceOneOnRow(s: Store, s1: Store, m: Message, t: Option<int>, id: string)
    requires UniqueIds(s1.rows) && s1.pending == s.pending && s1.touched == s.touched
    requires Merged(TrackAt(s, id, t), TrackAt(s1, id, t))
    ensures Merged(TrackAt(s, id, t), TrackAt(ReplaceOne(s1, s.rows, m, t), id, t))
  {
    var before := Lookup(s.rows, m.id);
    if before.Some? {
      AbsorbAt(s1, before.value, m, t, id);
      if id == m.id {
        AbsorbedOver(TrackAt(s, id, t), TrackAt(s1, id, t), before.value, m, KeepsSummary(s1, id, t));
      }
    } else {
      WriteAt(s1, m, true, id, t);
      if id == m.id {
        NewOver(TrackAt(s, id, t), TrackAt(s1, id, t), m);
      }
    }
  }

  lemma AbsorbedOver(t: Track, t1: Track, previous: Message, m: Message, keep: bool)
    requires t.row == Some(previous) && (t.pending ==> keep) && Merged(t, t1)
    ensures Merged(t, AbsorbTrack(t1, previous, m, keep))
  {
    AbsorbedIsMerged(t, previous, m, keep);
  }

  lemma NewOver(t: Track, t1: Track, m: Message)
    requires t.row.None? && Merged(t, t1)
    ensures Merged(t, t1.(row := Some(m), version := t1.version + 1))
  {
  }

  lemma DeleteFirstOnRow(s: Store, c: string, id: string)
    requires UniqueIds(s.rows)
    ensures var t, t' := TrackOf(s, id), TrackOf(s.(rows := DeleteFirstWithClientId(s.rows, c)), id);
            t' == t || t' == t.(row := None)
  {
    var rows := DeleteFirstWithClientId(s.rows, c);
    DeleteFirstKeepsIds(s.rows, c);
    if HasId(rows, id) {
      LookupIsTheRow(s.rows, Lookup(rows, id).value);
    }
  }

  lemma ConfirmOnRow(s: Store, c: string, m: Message, t: Option<int>, id: string)
    requires UniqueIds(s.rows)
    ensures var s' := ConfirmClientMessage(s, c, m, t);
            VersionTells(TrackOf(s, id), TrackOf(s', id))
  {
    var s1 := s.(rows := DeleteFirstWithClientId(s.rows, c));
    DeleteFirstOnRow(s, c, id);
    DeleteFirstKeepsIds(s.rows, c);
    InsertAllOnRow(s1, [m], t, id);
    AddOnRow(s1, [m], t, id);
  }

  lemma RecomputeOnRow(s: Store, prepended: nat, id: string)
    ensures TrackOf(Recompute(s, prepended), id) == TrackOf(s, id)
  {
  }

  lemma AddOnRow(s: Store, ms: seq<Message>, t: Option<int>, id: string)
    requires UniqueIds(s.rows)
    ensures TrackOf(Add(s, ms, t), id) == TrackOf(InsertAll(s, ms, t), id)
  {
  }

  lemma SetReactionsOnRow(s: Store, id0: string, counts: seq<ReactionCount>, mine: Option<Option<string>>, now: int, id: string)
    requires UniqueIds(s.rows)
    ensures Changed(TrackOf(s, id), TrackOf(SetReactions(s, id0, counts, mine, now), id))
  {
    var found := Lookup(s.rows, id0);
    if found.Some? && !found.value.Deleted() {
      var m := found.value;
      var m' := m.(reactions := Some(counts), myReaction := mine.Or(m.myReaction));
      var s1 := s.(touched := s.touched[id0 := now]);
      WriteOnRow(s1, m', true, id);
      RecomputeOnRow(Write(s1, m', true), 0, id);
    }
  }

  lemma MarkDeletedOnRow(s: Store, id0: string, at: Timestamp, reason: string, id: string)
    requires UniqueIds(s.rows)
    ensures Changed(TrackOf(s, id), TrackOf(MarkDeleted(s, id0, at, reason), id))
  {
    var found := Lookup(s.rows, id0);
    if found.Some? {
      var m' := Tombstone(found.value, at, reason);
      WriteOnRow(s, m', true, id);
      RecomputeOnRow(Write(s, m', true), 0, id);
    }
  }

  lemma RestampStoreOnRow(s: Store, stubs: map<string, UserStub>, id: string)
    requires UniqueIds(s.rows)
    ensures Changed(TrackOf(s, id), TrackOf(RestampStore(s, stubs), id))
  {
    RestampedTrack(s, stubs, id);
    RestampedTells(TrackOf(s, id), stubs);
  }

  function RestampTrack(t: Track, stubs: map<string, UserStub>): Track {
    match t.row
    case None => t
    case Some(m) => t.(row := Some(Restamp(m, stubs)))
  }

  lemma RestampedTrack(s: Store, stubs: map<string, UserStub>, id: string)
    requires UniqueIds(s.rows)
    ensures TrackOf(RestampStore(s, stubs), id) == RestampTrack(TrackOf(s, id), stubs)
  {
    RestampedRow(s.rows, stubs, id);
  }

  lemma RestampedRow(rows: Rows, stubs: map<string, UserStub>, id: string)
    requires UniqueIds(rows)
    ensures Lookup(RestampAll(rows, stubs), id) ==
            match Lookup(rows, id) case None => None case Some(m) => Some(Restamp(m, stubs))
  {
    var found := Lookup(rows, id);
    if found.Some? {
      RestampedLookup(rows, found.value, stubs);
    } else {
      assert forall i | 0 <= i < |rows| :: RestampAll(rows, stubs)[i].id == rows[i].id;
      assert !HasId(RestampAll(rows, stubs), id);
    }
  }

  lemma RestampedTells(t: Track, stubs: map<string, UserStub>)
    ensures Changed(t, RestampTrack(t, stubs))
  {
    if t.row.Some? {
      RestampIsQuiet(t.row.value, stubs);
    }
  }

  lemma RestampIsQuiet(m: Message, stubs: map<string, UserStub>)
    ensures var m' := Restamp(m, stubs);
            m' == m.(sender := m'.sender)
  {
  }

  lemma RecomputeAt(s: Store, prepended: nat, id: string, t: Option<int>)
    ensures TrackAt(Recompute(s, prepended), id, t) == TrackAt(s, id, t) && Recompute(s, prepended).pending == s.pending
  {
  }

  lemma AddAt(s: Store, ms: seq<Message>, t: Option<int>, id: string)
    requires UniqueIds(s.rows)
    ensures Merged(TrackAt(s, id, t), TrackAt(Add(s, ms, t), id, t)) && Add(s, ms, t).pending == s.pending
  {
    InsertAllOnRow(s, ms, t, id);
    InsertAllKeepsIds(s, ms, t);
    var s' := InsertAll(s, ms, t);
    RecomputeAt(s', Prepended(s.rows, s'.rows), id, t);
  }

  lemma FillAt(s: Store, ms: seq<Message>, t: Option<int>, id: string)
    requires UniqueIds(s.rows)
    ensures Merged(TrackAt(s, id, t), TrackAt(FillDelivered(s, ms, t), id, t)) && FillDelivered(s, ms, t).pending == s.pending
  {
    AddAt(s.(timerArmed := false), ms, t, id);
  }

  lemma MergePageAt(s: Store, ms: seq<Message>, t: Option<int>, id: string)
    requires UniqueIds(s.rows)
    ensures Merged(TrackAt(s, id, t), TrackAt(MergePage(s, ms, t), id, t)) && MergePage(s, ms, t).pending == s.pending
  {
    InsertAllOnRow(s, ms, t, id);
    InsertAllKeepsIds(s, ms, t);
    SeededAt(InsertAll(s, ms, t), id, t);
  }

  lemma SeededAt(s: Store, id: string, t: Option<int>)
    ensures var s' := Recompute(s.(seeded := true), 0); TrackAt(s', id, t) == TrackAt(s, id, t) && s'.pending == s.pending
  {
    RecomputeAt(s.(seeded := true), 0, id, t);
  }

  lemma ReplaceAt(s: Store, page: seq<Message>, t: Option<int>, id: string)
    requires UniqueIds(s.rows)
    ensures Merged(TrackAt(s, id, t), TrackAt(Replace(s, page, t), id, t)) && Replace(s, page, t).pending == s.pending
  {
    ReplaceOnRow(s, page, t, id);
    ReplaceRowsKeepsIds(s, page, t);
    assert TrackAt(Replace(s, page, t), id, t) == TrackAt(ReplaceRows(s, page, t), id, t);
  }

  lemma MergeStepAt(s: Store, e: Event, id: string)
    requires UniqueIds(s.rows) && IsMerge(e)
    ensures Merged(TrackAt(s, id, e.fetchedAt), TrackAt(Step(s, e), id, e.fetchedAt))
    ensures Step(s, e).pending == s.pending
  {
    match e {
      case Replaced(page, t) => ReplaceAt(s, page, t, id);
      case PageMerged(page, t) => MergePageAt(s, page, t, id);
      case Added(batch, t) => AddAt(s, batch, t, id);
      case Filled(page, t) => FillAt(s, page, t, id);
    }
  }

  lemma MergeStepOnRow(s: Store, e: Event, id: string)
    requires UniqueIds(s.rows) && IsMerge(e)
    ensures Merged(TrackOf(s, id), TrackOf(Step(s, e), id))
  {
    MergeStepAt(s, e, id);
  }

  predicate IsMerge(e: Event) {
    e.Replaced? || e.PageMerged? || e.Added? || e.Filled?
  }

  /** What one event may do to a row; only a confirm may lower its rank. */
  predicate Moved(t: Track, t': Track, confirmed: bool) {
    VersionTells(t, t') && (!confirmed ==> RankKept(t, t'))
  }

  lemma CopyStepOnRow(s: Store, e: Event, id: string)
    requires UniqueIds(s.rows) && (IsMerge(e) || e.Confirmed?)
    ensures Moved(TrackOf(s, id), TrackOf(Step(s, e), id), e.Confirmed?)
  {
    if e.Confirmed? {
      ConfirmOnRow(s, e.clientId, e.message, e.fetchedAt, id);
    } else {
      MergeStepOnRow(s, e, id);
    }
  }

  lemma UpdateSendersOnRow(s: Store, senders: seq<Option<UserStub>>, id: string)
    requires UniqueIds(s.rows)
    ensures Changed(TrackOf(s, id), TrackOf(UpdateSenders(s, senders), id))
  {
    RestampStoreOnRow(s, FreshStubs(senders), id);
  }

  lemma PatchStepOnRow(s: Store, e: Event, id: string)
    requires UniqueIds(s.rows) && (e.Deleted? || e.ReactionsSet?)
    ensures Changed(TrackOf(s, id), TrackOf(Step(s, e), id))
  {
    match e {
      case Deleted(id0, at, reason) => MarkDeletedOnRow(s, id0, at, reason, id);
      case ReactionsSet(id0, counts, mine, now) => SetReactionsOnRow(s, id0, counts, mine, now, id);
    }
  }

  lemma QuietIsMoved(t: Track, t': Track)
    requires t'.row == t.row && t'.version == t.version
    ensures Moved(t, t', false)
  {
  }

  /** One event on one row. Confirming an optimistic copy is the only event that may lower a rank. */
  lemma StepOnRow(s: Store, e: Event, id: string)
    requires UniqueIds(s.rows)
    ensures Moved(TrackOf(s, id), TrackOf(Step(s, e), id), e.Confirmed?)
  {
    if IsMerge(e) || e.Confirmed? {
      CopyStepOnRow(s, e, id);
    } else if e.Deleted? || e.ReactionsSet? {
      PatchStepOnRow(s, e, id);
    } else if e.SendersRefreshed? {
      UpdateSendersOnRow(s, e.senders, id);
    } else {
      QuietStepOnRow(s, e, id);
      QuietIsMoved(TrackOf(s, id), TrackOf(Step(s, e), id));
    }
  }

  lemma TimeoutOnRow(s: Store, id: string)
    ensures TrackOf(FillTimeout(s), id) == TrackOf(s, id)
  {
  }

  lemma QuietStepOnRow(s: Store, e: Event, id: string)
    requires e.ReactionBegun? || e.ReactionDirtied? || e.ReactionEnded? || e.TimerFired? || e.Disposed?
    ensures var t, t' := TrackOf(s, id), TrackOf(Step(s, e), id); t'.row == t.row && t'.version == t.version
  {
    if e.TimerFired? {
      TimeoutOnRow(s, id);
    } else if e.ReactionDirtied? {
      DirtyOnRow(s, e.id, e.counts, id);
    } else {
      FlagOnRow(s, e, id);
    }
  }

  lemma FlagOnRow(s: Store, e: Event, id: string)
    requires e.ReactionBegun? || e.ReactionEnded? || e.Disposed?
    ensures var s' := Step(s, e); s'.rows == s.rows && s'.Version(id) == s.Version(id)
  {
  }

  lemma DirtyOnRow(s: Store, id0: string, counts: seq<ReactionCount>, id: string)
    ensures TrackOf(MarkReactionDirty(s, id0, counts), id) == TrackOf(s, id)
  {
  }

  /**
    * Equal versions at two points of a run mean that a live row shows the same summary at both, even if it was
    * unloaded in between; a tombstone shows the same one or none any more.
    */
  lemma {:induction false} VersionIdentifiesSummary(s: Store, es: seq<Event>, id: string)
    requires Consistent(s)
    ensures VersionTells(TrackOf(s, id), TrackOf(Run(s, es), id))
    ensures Consistent(Run(s, es))
  {
    if es != [] {
      var n := |es| - 1;
      VersionIdentifiesSummary(s, es[..n], id);
      StepOnRow(Run(s, es[..n]), es[n], id);
      StepIsConsistent(Run(s, es[..n]), es[n]);
    }
  }

  /** A row that stays loaded never falls back to an older edit and is never undeleted. */
  lemma {:induction false} RankNeverDrops(s: Store, es: seq<Event>, id: string)
    requires Consistent(s)
    requires forall e | e in es :: !e.Confirmed?
    requires forall k | 0 <= k <= |es| :: TrackOf(Run(s, es[..k]), id).row.Some?
    ensures TrackOf(s, id).row.Some? && TrackOf(Run(s, es), id).row.Some?
    ensures RankLe(TrackOf(s, id).row.value, TrackOf(Run(s, es), id).row.value)
  {
    assert es[..|es|] == es && es[..0] == [];
    if es != [] {
      var n := |es| - 1;
      assert es[n] in es;
      forall k | 0 <= k <= n ensures es[..n][..k] == es[..k] { }
      RankNeverDrops(s, es[..n], id);
      VersionIdentifiesSummary(s, es[..n], id);
      StepOnRow(Run(s, es[..n]), es[n], id);
    } else {
      assert TrackOf(Run(s, es[..0]), id).row.Some?;
    }
  }

  /** No page or broadcast touches the optimistic summary of a live row while its request is in flight. */
  lemma PendingReactionIsProtected(s: Store, e: Event, id: string)
    requires Consistent(s) && IsMerge(e)
    ensures SummaryKept(TrackOf(s, id), TrackOf(Step(s, e), id))
  {
    MergeStepOnRow(s, e, id);
  }

  /** A page asked for before the last local write of a live row's summary does not bring the older summary back. */
  lemma RacedPageKeepsNewerSummary(s: Store, e: Event, id: string)
    requires Consistent(s) && IsMerge(e)
    requires e.fetchedAt.Some? && id in s.touched && e.fetchedAt.value <= s.touched[id]
    ensures var row, row' := Lookup(s.rows, id), Lookup(Step(s, e).rows, id);
            row.Some? && row'.Some? && !row'.value.Deleted() ==> SummaryOf(row'.value) == SummaryOf(row.value)
  {
    MergeStepAt(s, e, id);
  }

  /** The version is to be trusted about this row: while it stands still, so does the summary. */
  ghost predicate Told(s: Store, es: seq<Event>, id: string) {
    var t, t' := TrackOf(s, id), TrackOf(Run(s, es), id);
    t.row.Some? && t'.row.Some? && t.version == t'.version ==> SummaryOf(t.row.value) == SummaryOf(t'.row.value)
  }

  /** A tombstone delivered again loses its summary while its version stands still. */
  lemma RedeliveryClears(s: Store, m: Message)
    requires Consistent(s) && Lookup(s.rows, m.id) == Some(m) && m.Deleted()
    ensures var t := TrackOf(Step(s, Added([m], None)), m.id);
            t.version == s.Version(m.id) && t.row.Some? && SummaryOf(t.row.value) == NO_SUMMARY
  {
    AddOfOne(s, m);
    AbsorbOnRow(s, m, m, None, m.id);
    ClearedTrack(TrackOf(s, m.id), m, KeepsSummary(s, m.id, None));
  }

  lemma AddOfOne(s: Store, m: Message)
    requires UniqueIds(s.rows)
    ensures TrackOf(Add(s, [m], None), m.id) == TrackOf(Insert(s, m, None), m.id)
  {
    InsertAllOfOne(s, m);
    AddOnRow(s, [m], None, m.id);
  }

  lemma InsertAllOfOne(s: Store, m: Message)
    ensures InsertAll(s, [m], None) == Insert(s, m, None)
  {
    assert [m][..0] == [];
  }

  lemma ClearedTrack(t: Track, m: Message, keep: bool)
    requires t.row == Some(m) && m.Deleted()
    ensures var t' := AbsorbTrack(t, m, m, keep);
            t'.version == t.version && t'.row.Some? && SummaryOf(t'.row.value) == NO_SUMMARY
  {
  }

  /** The version tells for every run that follows, exactly unless the row is a tombstone that carries a summary. */
  lemma VersionTellsIff(s: Store, id: string)
    requires Consistent(s) && HasId(s.rows, id)
    ensures var m := Lookup(s.rows, id).value;
            (forall es :: Told(s, es, id)) <==> !(m.Deleted() && SummaryOf(m) != NO_SUMMARY)
  {
    var m := Lookup(s.rows, id).value;
    if m.Deleted() && SummaryOf(m) != NO_SUMMARY {
      var es := [Added([m], None)];
      assert es[..0] == [];
      assert Run(s, es) == Step(Run(s, []), es[0]);
      RedeliveryClears(s, m);
      assert !Told(s, es, id);
    } else {
      forall es ensures Told(s, es, id) {
        VersionIdentifiesSummary(s, es, id);
      }
    }
  }

  /** Such a tombstone need only be delivered: the first copy is loaded as it comes. */
  lemma DirtyTombstoneFoolsTheVersion(m: Message)
    requires m.Deleted() && m.clientMessageId.None? && SummaryOf(m) != NO_SUMMARY
    ensures var s := Step(Empty("r"), Added([m], None));
            Consistent(s) && Lookup(s.rows, m.id) == Some(m) && exists es :: !Told(s, es, m.id)
  {
    FirstCopyIsLoaded(m);
    VersionTellsIff(Add(Empty("r"), [m], None), m.id);
  }

  lemma FirstCopyIsLoaded(m: Message)
    requires m.clientMessageId.None?
    ensures var s := Add(Empty("r"), [m], None); Consistent(s) && Lookup(s.rows, m.id) == Some(m)
  {
    var e := Empty("r");
    AddIsConsistent(e, [m], None);
    InsertAllOfOne(e, m);
    AddOnRow(e, [m], None, m.id);
    WriteOnRow(e, m, true, m.id);
  }
}
