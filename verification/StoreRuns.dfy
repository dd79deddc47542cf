/** What every run of the message store keeps, whatever the order of pages, events, taps and timer ticks. */
module StoreRuns {
  import opened Common
  import opened Sorting
  import opened Messages
  import opened MessageTable
  import opened MessageStores

  datatype Event =
    | Replaced(page: seq<Message>, fetchedAt: Option<int>)
    | PageMerged(page: seq<Message>, fetchedAt: Option<int>)
    | Added(batch: seq<Message>, fetchedAt: Option<int>)
    | Confirmed(clientId: string, message: Message, fetchedAt: Option<int>)
    | Filled(page: seq<Message>, fetchedAt: Option<int>)
    | Deleted(id: string, at: Timestamp, reason: string)
    | ReactionsSet(id: string, counts: seq<ReactionCount>, mine: Option<Option<string>>, now: int)
    | SendersRefreshed(senders: seq<Option<UserStub>>)
    | ReactionBegun(id: string)
    | ReactionDirtied(id: string, counts: seq<ReactionCount>)
    | ReactionEnded(id: string)
    | TimerFired
    | Disposed
  {
    /** The copies of messages this event brings in. */
    function Copies(): seq<Message> {
      match this
      case Replaced(page, _) => page
      case PageMerged(page, _) => page
      case Added(batch, _) => batch
      case Confirmed(_, message, _) => [message]
      case Filled(page, _) => page
      case _ => []
    }
  }

  function Step(s: Store, e: Event): Store {
    match e
    case Replaced(page, t) => Replace(s, page, t)
    case PageMerged(page, t) => MergePage(s, page, t)
    case Added(batch, t) => Add(s, batch, t)
    case Confirmed(c, m, t) => ConfirmClientMessage(s, c, m, t)
    case Filled(page, t) => FillDelivered(s, page, t)
    case Deleted(id, at, reason) => MarkDeleted(s, id, at, reason)
    case ReactionsSet(id, counts, mine, now) => SetReactions(s, id, counts, mine, now)
    case SendersRefreshed(senders) => UpdateSenders(s, senders)
    case ReactionBegun(id) => BeginReaction(s, id)
    case ReactionDirtied(id, counts) => MarkReactionDirty(s, id, counts)
    case ReactionEnded(id) => EndReaction(s, id)
    case TimerFired => FillTimeout(s)
    case Disposed => s.(timerArmed := false)
  }

  function Run(s: Store, es: seq<Event>): Store {
    if es == [] then s else Step(Run(s, es[..|es| - 1]), es[|es| - 1])
  }

  // ---- the window ----

  /** A flagged gap is the one right behind the shown run, which itself has no jump. */
  ghost predicate FlagsGap(v: View, sorted: Rows, roomId: string) {
    var n := |v.messages|;
    && 0 < n < |sorted| && NoJump(v.messages) && !v.fillTimedOut
    && v.needsFill == Some(Gap(roomId, v.messages[n - 1].seqNo, sorted[n].seqNo))
    && sorted[n].seqNo > v.messages[n - 1].seqNo + 1
  }

  /** The view is a prefix of the sorted rows; rows are withheld exactly while a gap is flagged. */
  ghost predicate Window(v: View, sorted: Rows, seeded: bool, roomId: string) {
    && v.messages <= sorted
    && if v.needsFill.Some? then seeded && FlagsGap(v, sorted, roomId) else v.messages == sorted
  }

  ghost predicate Consistent(s: Store) {
    && UniqueIds(s.rows)
    && Window(s.view, Sorted(s.rows), s.seeded, s.roomId)
    && (s.timerArmed ==> s.view.needsFill.Some?)
  }

  ghost predicate TimerFollowsGap(s: Store) {
    s.timerArmed <==> s.view.needsFill.Some?
  }

  lemma {:induction false} InsertAllKeepsIds(s: Store, ms: seq<Message>, fetchedAt: Option<int>)
    requires UniqueIds(s.rows)
    ensures var s' := InsertAll(s, ms, fetchedAt);
            UniqueIds(s'.rows) && OnlyRows(s, s')
  {
    if ms != [] {
      InsertAllKeepsIds(s, ms[..|ms| - 1], fetchedAt);
      InsertKeepsIds(InsertAll(s, ms[..|ms| - 1], fetchedAt), ms[|ms| - 1], fetchedAt);
    }
  }

  /** A write touches the table and the versions only, and keeps ids unique. */
  ghost predicate OnlyRows(s: Store, s': Store) {
    s' == s.(rows := s'.rows, versions := s'.versions)
  }

  lemma WriteKeepsIds(s: Store, m: Message, bump: bool)
    requires UniqueIds(s.rows)
    ensures UniqueIds(Write(s, m, bump).rows) && OnlyRows(s, Write(s, m, bump))
  {
    SetRowFacts(s.rows, m);
  }

  lemma AbsorbKeepsIds(s: Store, previous: Message, m: Message, fetchedAt: Option<int>)
    requires UniqueIds(s.rows)
    ensures var s' := Absorb(s, previous, m, fetchedAt); UniqueIds(s'.rows) && OnlyRows(s, s')
  {
    var keep := KeepsSummary(s, m.id, fetchedAt);
    WriteKeepsIds(s, MergeExisting(previous, m, keep), MergeBumps(previous, m, keep));
  }

  lemma InsertKeepsIds(s: Store, m: Message, fetchedAt: Option<int>)
    requires UniqueIds(s.rows)
    ensures var s' := Insert(s, m, fetchedAt);
            UniqueIds(s'.rows) && OnlyRows(s, s')
  {
    match Lookup(s.rows, m.id)
    case None => WriteKeepsIds(s, m, true);
    case Some(p) => AbsorbKeepsIds(s, p, m, fetchedAt);
  }

  lemma {:induction false} ReplaceRowsKeepsIds(s: Store, page: seq<Message>, fetchedAt: Option<int>)
    ensures var s' := ReplaceRows(s, page, fetchedAt);
            UniqueIds(s'.rows) && OnlyRows(s, s')
  {
    if page != [] {
      var m := page[|page| - 1];
      ReplaceRowsKeepsIds(s, page[..|page| - 1], fetchedAt);
      var s1 := ReplaceRows(s, page[..|page| - 1], fetchedAt);
      match Lookup(s.rows, m.id)
      case None => WriteKeepsIds(s1, m, true);
      case Some(p) => AbsorbKeepsIds(s1, p, m, fetchedAt);
    }
  }

  lemma DeleteFirstKeepsIds(rows: Rows, c: string)
    requires UniqueIds(rows)
    ensures UniqueIds(DeleteFirstWithClientId(rows, c))
    ensures forall m :: m in DeleteFirstWithClientId(rows, c) ==> m in rows
  {
  }

  lemma RecomputeIsConsistent(s: Store, prepended: nat)
    requires UniqueIds(s.rows)
    ensures Consistent(Recompute(s, prepended)) && TimerFollowsGap(Recompute(s, prepended))
  {
    var sorted := Sorted(s.rows);
    var cut := Cut(sorted);
    if s.seeded && cut < |sorted| {
      CutIsAWindow(sorted, cut, s.roomId, prepended);
    }
  }

  lemma CutIsAWindow(sorted: Rows, cut: nat, roomId: string, prepended: nat)
    requires cut == Cut(sorted) && cut < |sorted|
    ensures Window(View(sorted[..cut], Some(Gap(roomId, sorted[cut - 1].seqNo, sorted[cut].seqNo)), false, prepended), sorted, true, roomId)
  {
    assert sorted[..cut][cut - 1] == sorted[cut - 1];
  }

  /** The prepend count is where the row that used to be first now stands in the sorted list, so the viewport can stay on it. */
  lemma PrependedIsTheOldHead(before: Rows, after: Rows)
    requires before != []
    ensures var h, p, sorted := HeadSeq(before).value, Prepended(before, after), Sorted(after);
            && p <= |sorted|
            && (forall i | 0 <= i < p :: sorted[i].seqNo < h) && (forall i | p <= i < |sorted| :: sorted[i].seqNo >= h)
  {
    var h := HeadSeq(before).value;
    NothingBelow(before, h);
    CountOfSorted(after, h);
    SortedFacts(after);
    CountSplitsSorted(Sorted(after), h);
  }

  /** Restamping is a map over the rows that leaves ids and seqs alone. */
  lemma RestampedSort(rows: Rows, stubs: map<string, UserStub>)
    ensures Sorted(RestampAll(rows, stubs)) == RestampAll(Sorted(rows), stubs)
  {
    var f := (m: Message) => Restamp(m, stubs);
    assert RestampAll(rows, stubs) == Map(f, rows);
    assert RestampAll(Sorted(rows), stubs) == Map(f, Sorted(rows));
    SortCommutesWithMap(BySeq, f, rows);
  }

  lemma RestampKeepsIds(rows: Rows, stubs: map<string, UserStub>)
    requires UniqueIds(rows)
    ensures UniqueIds(RestampAll(rows, stubs))
  {
  }

  lemma RestampedLookup(rows: Rows, m: Message, stubs: map<string, UserStub>)
    requires UniqueIds(rows) && m in rows
    ensures Lookup(RestampAll(rows, stubs), m.id) == Some(Restamp(m, stubs))
  {
    RestampKeepsIds(rows, stubs);
    var k :| 0 <= k < |rows| && rows[k] == m;
    assert RestampAll(rows, stubs)[k] == Restamp(m, stubs);
    LookupIsTheRow(RestampAll(rows, stubs), Restamp(m, stubs));
  }

  lemma RestampedShown(rows: Rows, shown: seq<Message>, stubs: map<string, UserStub>)
    requires UniqueIds(rows) && forall m | m in shown :: m in rows
    ensures RefreshFrom(RestampAll(rows, stubs), shown) == RestampAll(shown, stubs)
  {
    var rows' := RestampAll(rows, stubs);
    forall m | m in shown ensures Lookup(rows', m.id) == Some(Restamp(m, stubs)) {
      RestampedLookup(rows, m, stubs);
    }
  }

  lemma RestampedWindow(v: View, sorted: Rows, seeded: bool, roomId: string, stubs: map<string, UserStub>)
    requires Window(v, sorted, seeded, roomId)
    ensures Window(v.(messages := RestampAll(v.messages, stubs)), RestampAll(sorted, stubs), seeded, roomId)
    ensures NoJump(v.messages) ==> NoJump(RestampAll(v.messages, stubs))
  {
  }

  lemma RestampStoreIsConsistent(s: Store, stubs: map<string, UserStub>)
    requires Consistent(s)
    ensures Consistent(RestampStore(s, stubs))
    ensures NoJump(s.view.messages) ==> NoJump(RestampStore(s, stubs).view.messages)
  {
    RestampKeepsIds(s.rows, stubs);
    RestampedSort(s.rows, stubs);
    SortedFacts(s.rows);
    RestampedShown(s.rows, s.view.messages, stubs);
    RestampedWindow(s.view, Sorted(s.rows), s.seeded, s.roomId, stubs);
  }

  lemma AddIsConsistent(s: Store, ms: seq<Message>, t: Option<int>)
    requires UniqueIds(s.rows)
    ensures Consistent(Add(s, ms, t)) && TimerFollowsGap(Add(s, ms, t))
  {
    InsertAllKeepsIds(s, ms, t);
    var s' := InsertAll(s, ms, t);
    RecomputeIsConsistent(s', Prepended(s.rows, s'.rows));
  }

  lemma ReplaceIsConsistent(s: Store, page: seq<Message>, t: Option<int>)
    ensures Consistent(Replace(s, page, t)) && TimerFollowsGap(Replace(s, page, t))
  {
    ReplaceRowsKeepsIds(s, page, t);
  }

  lemma TimeoutIsConsistent(s: Store)
    requires Consistent(s)
    ensures Consistent(FillTimeout(s)) && (TimerFollowsGap(s) ==> TimerFollowsGap(FillTimeout(s)))
  {
  }

  lemma OverwriteIsConsistent(s: Store, m: Message)
    requires UniqueIds(s.rows)
    ensures Consistent(Recompute(Write(s, m, true), 0)) && TimerFollowsGap(Recompute(Write(s, m, true), 0))
  {
    SetRowFacts(s.rows, m);
    RecomputeIsConsistent(Write(s, m, true), 0);
  }

  lemma MergePageIsConsistent(s: Store, page: seq<Message>, t: Option<int>)
    requires UniqueIds(s.rows)
    ensures Consistent(MergePage(s, page, t)) && TimerFollowsGap(MergePage(s, page, t))
  {
    InsertAllKeepsIds(s, page, t);
    RecomputeIsConsistent(InsertAll(s, page, t).(seeded := true), 0);
  }

  lemma ConfirmIsConsistent(s: Store, c: string, m: Message, t: Option<int>)
    requires UniqueIds(s.rows)
    ensures Consistent(ConfirmClientMessage(s, c, m, t)) && TimerFollowsGap(ConfirmClientMessage(s, c, m, t))
  {
    DeleteFirstKeepsIds(s.rows, c);
    AddIsConsistent(s.(rows := DeleteFirstWithClientId(s.rows, c)), [m], t);
  }

  lemma MarkDeletedIsConsistent(s: Store, id: string, at: Timestamp, reason: string)
    requires Consistent(s)
    ensures Consistent(MarkDeleted(s, id, at, reason))
    ensures TimerFollowsGap(s) ==> TimerFollowsGap(MarkDeleted(s, id, at, reason))
  {
    if HasId(s.rows, id) {
      OverwriteIsConsistent(s, Tombstone(Lookup(s.rows, id).value, at, reason));
    }
  }

  lemma SetReactionsIsConsistent(s: Store, id: string, counts: seq<ReactionCount>, mine: Option<Option<string>>, now: int)
    requires Consistent(s)
    ensures Consistent(SetReactions(s, id, counts, mine, now))
    ensures TimerFollowsGap(s) ==> TimerFollowsGap(SetReactions(s, id, counts, mine, now))
  {
    if HasId(s.rows, id) {
      var m := Lookup(s.rows, id).value;
      OverwriteIsConsistent(s.(touched := s.touched[id := now]),
                            m.(reactions := Some(counts), myReaction := mine.Or(m.myReaction)));
    }
  }

  lemma CopyStepIsConsistent(s: Store, e: Event)
    requires Consistent(s) && (e.Replaced? || e.PageMerged? || e.Added? || e.Confirmed? || e.Filled?)
    ensures Consistent(Step(s, e))
    ensures TimerFollowsGap(s) ==> TimerFollowsGap(Step(s, e))
  {
    match e {
      case Replaced(page, t) => ReplaceIsConsistent(s, page, t);
      case PageMerged(page, t) => MergePageIsConsistent(s, page, t);
      case Added(batch, t) => AddIsConsistent(s, batch, t);
      case Confirmed(c, m, t) => ConfirmIsConsistent(s, c, m, t);
      case Filled(page, t) => AddIsConsistent(s.(timerArmed := false), page, t);
    }
  }

  lemma UpdateSendersIsConsistent(s: Store, senders: seq<Option<UserStub>>)
    requires Consistent(s)
    ensures Consistent(UpdateSenders(s, senders))
    ensures TimerFollowsGap(s) ==> TimerFollowsGap(UpdateSenders(s, senders))
  {
    RestampStoreIsConsistent(s, FreshStubs(senders));
  }

  lemma PatchStepIsConsistent(s: Store, e: Event)
    requires Consistent(s) && (e.Deleted? || e.ReactionsSet?)
    ensures Consistent(Step(s, e))
    ensures TimerFollowsGap(s) ==> TimerFollowsGap(Step(s, e))
  {
    match e {
      case Deleted(id, at, reason) => MarkDeletedIsConsistent(s, id, at, reason);
      case ReactionsSet(id, counts, mine, now) => SetReactionsIsConsistent(s, id, counts, mine, now);
    }
  }

  lemma RefreshStepIsConsistent(s: Store, e: Event)
    requires Consistent(s) && (e.SendersRefreshed? || e.TimerFired?)
    ensures Consistent(Step(s, e))
    ensures TimerFollowsGap(s) ==> TimerFollowsGap(Step(s, e))
  {
    match e {
      case SendersRefreshed(senders) => UpdateSendersIsConsistent(s, senders);
      case TimerFired => TimeoutIsConsistent(s);
    }
  }

  /** No row changes by bookkeeping, by the timer or by disposal. */
  lemma QuietKeepsRows(s: Store, e: Event)
    requires e.ReactionBegun? || e.ReactionDirtied? || e.ReactionEnded? || e.TimerFired? || e.Disposed?
    ensures Step(s, e).rows == s.rows
  {
  }

  /** Reaction bookkeeping and disposal leave the rows and the window alone. */
  lemma FlagStepIsConsistent(s: Store, e: Event)
    requires Consistent(s) && (e.ReactionBegun? || e.ReactionDirtied? || e.ReactionEnded? || e.Disposed?)
    ensures Consistent(Step(s, e))
    ensures TimerFollowsGap(s) && !e.Disposed? ==> TimerFollowsGap(Step(s, e))
  {
    match e {
      case ReactionBegun(_) =>
      case ReactionDirtied(_, _) =>
      case ReactionEnded(_) =>
      case Disposed =>
    }
  }

  lemma StepIsConsistent(s: Store, e: Event)
    requires Consistent(s)
    ensures Consistent(Step(s, e))
    ensures TimerFollowsGap(s) && !e.Disposed? ==> TimerFollowsGap(Step(s, e))
  {
    if e.Replaced? || e.PageMerged? || e.Added? || e.Confirmed? || e.Filled? {
      CopyStepIsConsistent(s, e);
    } else if e.Deleted? || e.ReactionsSet? {
      PatchStepIsConsistent(s, e);
    } else if e.SendersRefreshed? || e.TimerFired? {
      RefreshStepIsConsistent(s, e);
    } else {
      FlagStepIsConsistent(s, e);
    }
  }

  /** Every state a run reaches is consistent; until `dispose`, the timer is armed exactly while a gap is flagged. */
  lemma {:induction false} RunsAreConsistent(roomId: string, es: seq<Event>)
    ensures Consistent(Run(Empty(roomId), es))
    ensures (forall e | e in es :: !e.Disposed?) ==> TimerFollowsGap(Run(Empty(roomId), es))
  {
    if es != [] {
      RunsAreConsistent(roomId, es[..|es| - 1]);
      StepIsConsistent(Run(Empty(roomId), es[..|es| - 1]), es[|es| - 1]);
    }
  }
}
