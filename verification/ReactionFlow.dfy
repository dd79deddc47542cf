/** A tap on a reaction chip across its awaits: optimistic write, settlement, and the versioned refetch. */
module ReactionFlow {
  import opened Common
  import opened Messages
  import opened MessageTable
  import opened MessageStores
  import opened StoreRuns
  import opened StoreRows
  import opened Reactions

  /** What a tap remembers until its request settles. */
  datatype Attempt = Attempt(previous: Summary, next: Summary)

  /** The reaction version at which a refetch was asked for. */
  datatype Ticket = Ticket(version: nat)

  /** The synchronous part of a tap, up to the request: `None` when the tap is dropped. */
  function TapEvents(s: Store, id: string, raw: string, now: int): seq<Event> {
    match Lookup(s.rows, id)
    case None => []
    case Some(m) =>
      if m.Deleted() || id in s.pending then []
      else
        var next := Toggle(SummaryOf(m), Emoji.Canonical(raw));
        [ReactionBegun(id), ReactionsSet(id, next.counts, Some(next.mine), now)]
  }

  method Tap(store: MessageStore, id: string, raw: string, now: int) returns (attempt: Option<Attempt>)
    modifies store
    ensures store.Model() == Run(old(store.Model()), TapEvents(old(store.Model()), id, raw, now))
    ensures attempt.Some? <==> TapEvents(old(store.Model()), id, raw, now) != []
    ensures attempt.Some? ==>
              var before := SummaryOf(Lookup(old(store.Model()).rows, id).value);
              attempt.value == Attempt(before, Toggle(before, Emoji.Canonical(raw)))
  {
    RunOfNone(store.Model());
    var emoji := Emoji.Canonical(raw);
    var found := Lookup(store.byId, id);
    if found.None? || found.value.Deleted() {
      return None;
    }
    if id in store.reactionPending {
      return None;
    }
    var previous := SummaryOf(found.value);
    var next := ToggleReaction(previous, emoji);
    ShowOptimistic(store, id, next, now);
    attempt := Some(Attempt(previous, next));
  }

  /** Take the flag and show what the tap will make of the row. */
  method ShowOptimistic(store: MessageStore, id: string, next: Summary, now: int)
    modifies store
    ensures store.Model() == Run(old(store.Model()), [ReactionBegun(id), ReactionsSet(id, next.counts, Some(next.mine), now)])
  {
    RunOfTwo(store.Model(), ReactionBegun(id), ReactionsSet(id, next.counts, Some(next.mine), now));
    var _ := store.TryBeginReaction(id);
    store.OverwriteReactions(id, next.counts, Some(next.mine), now);
  }

  lemma RunOfNone(s: Store)
    ensures Run(s, []) == s
  {
  }

  lemma RunOfTwo(s: Store, a: Event, b: Event)
    ensures Run(s, [a, b]) == Step(Step(s, a), b)
  {
    assert [a, b][..1] == [a] && [a][..0] == [];
    assert Run(s, [a]) == Step(Run(s, []), a);
  }

  /** The request succeeded: reconcile with the response; refetch if a withheld event says otherwise. */
  method Settle(store: MessageStore, id: string, response: Summary, now: int) returns (refetch: bool)
    modifies store
    ensures store.Model() == Step(Step(old(store.Model()), ReactionEnded(id)),
                                  ReactionsSet(id, SortReactions(response.counts), Some(response.mine), now))
    ensures refetch <==> id in old(store.Model()).dirty
                         && exists w | w in old(store.Model()).dirty[id] :: w != SortReactions(response.counts)
  {
    var withheld := store.FinishReaction(id);
    var settled := SortReactions(response.counts);
    store.OverwriteReactions(id, settled, Some(response.mine), now);
    refetch := withheld.Some? && exists w | w in withheld.value :: w != settled;
  }

  /** The request failed: roll back; refetch if anything was withheld meanwhile. */
  method RollBack(store: MessageStore, id: string, attempt: Attempt, now: int) returns (refetch: bool)
    modifies store
    ensures store.Model() == Step(Step(old(store.Model()), ReactionEnded(id)),
                                  ReactionsSet(id, attempt.previous.counts, Some(attempt.previous.mine), now))
    ensures refetch <==> id in old(store.Model()).dirty
  {
    var withheld := store.FinishReaction(id);
    store.OverwriteReactions(id, attempt.previous.counts, Some(attempt.previous.mine), now);
    refetch := withheld.Some?;
  }

  /** An event about this row: withheld while our own request is in flight, applied otherwise. */
  method ApplyReactionsChanged(store: MessageStore, id: string, counts: Counts, mine: Option<Option<string>>, now: int)
    modifies store
    ensures store.Model() == Step(old(store.Model()),
              if id in old(store.Model()).pending then ReactionDirtied(id, SortReactions(counts))
              else ReactionsSet(id, SortReactions(counts), mine, now))
  {
    if id in store.reactionPending {
      store.MarkDirty(id, SortReactions(counts));
    } else {
      store.OverwriteReactions(id, SortReactions(counts), mine, now);
    }
  }

  method BeginRefetch(store: MessageStore, id: string) returns (ticket: Option<Ticket>)
    ensures ticket == if id in store.Model().pending then None else Some(Ticket(store.Model().Version(id)))
  {
    if id in store.reactionPending {
      return None;
    }
    ticket := Some(Ticket(if id in store.reactionVersions then store.reactionVersions[id] else 0));
  }

  predicate TicketStands(s: Store, id: string, ticket: Ticket) {
    s.Version(id) == ticket.version && id !in s.pending
  }

  method FinishRefetch(store: MessageStore, id: string, ticket: Ticket, counts: Counts, now: int)
    modifies store
    ensures store.Model() == if TicketStands(old(store.Model()), id, ticket)
                             then Step(old(store.Model()), ReactionsSet(id, SortReactions(counts), None, now))
                             else old(store.Model())
  {
    var version := if id in store.reactionVersions then store.reactionVersions[id] else 0;
    if version == ticket.version && id !in store.reactionPending {
      store.OverwriteReactions(id, SortReactions(counts), None, now);
    }
  }

  /** A refetched snapshot is written to a live row only over the very summary that was showing when the refetch began. */
  lemma SnapshotOverwritesNothingNewer(s: Store, es: seq<Event>, id: string)
    requires Consistent(s) && TicketStands(Run(s, es), id, Ticket(s.Version(id)))
    requires var r := TrackOf(Run(s, es), id).row; r.Some? && !r.value.Deleted()
    ensures var before, after := TrackOf(s, id).row, TrackOf(Run(s, es), id).row;
            before.Some? && !before.value.Deleted() && SummaryOf(before.value) == SummaryOf(after.value)
  {
    VersionIdentifiesSummary(s, es, id);
    StandingStill(TrackOf(s, id), TrackOf(Run(s, es), id));
  }

  lemma StandingStill(t: Track, t': Track)
    requires VersionTells(t, t') && t.version == t'.version && t'.row.Some? && !t'.row.value.Deleted()
    ensures t.row.Some? && !t.row.value.Deleted() && SummaryOf(t.row.value) == SummaryOf(t'.row.value)
  {
  }

  /** Any summary write on the live row while the refetch is out voids the ticket, even one that restores the old counts. */
  lemma WriteVoidsTicket(s: Store, before: seq<Event>, write: Event, after: seq<Event>, id: string)
    requires Consistent(s)
    requires write.ReactionsSet? && write.id == id
    requires var r := TrackOf(Run(s, before), id).row; r.Some? && !r.value.Deleted()
    ensures !TicketStands(Run(Step(Run(s, before), write), after), id, Ticket(s.Version(id)))
  {
    var s1 := Run(s, before);
    VersionIdentifiesSummary(s, before, id);
    StepOnRow(s1, write, id);
    StepIsConsistent(s1, write);
    WriteBumps(s1, id, write.counts, write.mine, write.now);
    VersionIdentifiesSummary(Step(s1, write), after, id);
  }

  lemma WriteBumps(s: Store, id: string, counts: Counts, mine: Option<Option<string>>, now: int)
    requires var r := Lookup(s.rows, id); r.Some? && !r.value.Deleted()
    ensures SetReactions(s, id, counts, mine, now).Version(id) == s.Version(id) + 1
  {
  }

  /**
    * Traffic that can reach the store while a tap on `id` is in flight: everything but the tap's own settlement and
    * writes, and a confirm that takes this very row for its optimistic copy.
    */
  predicate DuringFlight(s: Store, e: Event, id: string) {
    match e
    case ReactionBegun(id0) => id0 != id
    case ReactionEnded(id0) => id0 != id
    case ReactionsSet(id0, _, _, _) => id0 != id
    case Confirmed(c, _, _) => !TakesRow(s, c, id)
    case _ => true
  }

  predicate TakesRow(s: Store, c: string, id: string) {
    var k := FirstWithClientId(s.rows, c);
    k.Some? && s.rows[k.value].id == id
  }

  lemma FlightStep(s: Store, e: Event, id: string)
    requires Consistent(s) && id in s.pending && DuringFlight(s, e, id)
    ensures id in Step(s, e).pending && SummaryKept(TrackOf(s, id), TrackOf(Step(s, e), id))
    ensures RankKept(TrackOf(s, id), TrackOf(Step(s, e), id))
  {
    if e.Confirmed? {
      ConfirmElsewhere(s, e.clientId, e.message, e.fetchedAt, id);
    } else {
      StepOnRow(s, e, id);
      UnconfirmedFlightStep(s, e, id);
    }
  }

  lemma UnconfirmedFlightStep(s: Store, e: Event, id: string)
    requires Consistent(s) && id in s.pending && DuringFlight(s, e, id) && !e.Confirmed?
    ensures id in Step(s, e).pending && SummaryKept(TrackOf(s, id), TrackOf(Step(s, e), id))
  {
    match e {
      case SendersRefreshed(senders) => RefreshKeepsSummary(s, senders, id);
      case ReactionsSet(id0, counts, mine, now) => SetReactionsElsewhere(s, id0, counts, mine, now, id);
      case Deleted(id0, at, reason) => MarkDeletedKeepsSummary(s, id0, at, reason, id);
      case _ => FlightStepOnRow(s, e, id);
    }
  }

  lemma FlightStepOnRow(s: Store, e: Event, id: string)
    requires Consistent(s) && id in s.pending && DuringFlight(s, e, id)
    requires !e.SendersRefreshed? && !e.ReactionsSet? && !e.Deleted? && !e.Confirmed?
    ensures id in Step(s, e).pending && SummaryKept(TrackOf(s, id), TrackOf(Step(s, e), id))
  {
    if IsMerge(e) {
      MergeStepOnRow(s, e, id);
    } else {
      QuietStepOnRow(s, e, id);
    }
  }

  /** A delete of this row makes it a tombstone; of another, it does not touch this one. */
  lemma MarkDeletedKeepsSummary(s: Store, id0: string, at: Timestamp, reason: string, id: string)
    requires UniqueIds(s.rows)
    ensures MarkDeleted(s, id0, at, reason).pending == s.pending
    ensures SummaryKept(TrackOf(s, id), TrackOf(MarkDeleted(s, id0, at, reason), id))
  {
    var found := Lookup(s.rows, id0);
    if found.Some? {
      var m' := Tombstone(found.value, at, reason);
      WriteOnRow(s, m', true, id);
      RecomputeOnRow(Write(s, m', true), 0, id);
    }
  }

  /** A confirm that takes another row, or none, is an add as far as this row is concerned. */
  lemma ConfirmElsewhere(s: Store, c: string, m: Message, t: Option<int>, id: string)
    requires Consistent(s) && !TakesRow(s, c, id)
    ensures var s' := ConfirmClientMessage(s, c, m, t);
            Merged(TrackOf(s, id), TrackOf(s', id)) && s'.pending == s.pending
  {
    var s1 := s.(rows := DeleteFirstWithClientId(s.rows, c));
    DeleteFirstKeepsIds(s.rows, c);
    StaysAfterDelete(s.rows, c, id);
    AddAt(s1, [m], t, id);
    MergedAtIsMerged(s1, Add(s1, [m], t), id, t);
  }

  lemma StaysAfterDelete(rows: Rows, c: string, id: string)
    requires UniqueIds(rows)
    requires var k := FirstWithClientId(rows, c); k.Some? ==> rows[k.value].id != id
    ensures Lookup(DeleteFirstWithClientId(rows, c), id) == Lookup(rows, id)
  {
    DeleteFirstKeepsIds(rows, c);
    var k := FirstWithClientId(rows, c);
    if k.Some? {
      RemovedLookup(rows, k.value, id);
    }
  }

  lemma RemovedLookup(rows: Rows, k: nat, id: string)
    requires UniqueIds(rows) && k < |rows| && rows[k].id != id && UniqueIds(rows[..k] + rows[k + 1..])
    ensures Lookup(rows[..k] + rows[k + 1..], id) == Lookup(rows, id)
  {
    var rest := rows[..k] + rows[k + 1..];
    if HasId(rows, id) {
      var i :| 0 <= i < |rows| && rows[i].id == id;
      assert rest[if i < k then i else i - 1] == rows[i];
      LookupIsTheRow(rest, rows[i]);
      LookupIsTheRow(rows, rows[i]);
    }
  }

  lemma MergedAtIsMerged(s: Store, s': Store, id: string, t: Option<int>)
    requires Merged(TrackAt(s, id, t), TrackAt(s', id, t)) && s'.pending == s.pending
    ensures Merged(TrackOf(s, id), TrackOf(s', id))
  {
  }

  lemma SetReactionsElsewhere(s: Store, id0: string, counts: Counts, mine: Option<Option<string>>, now: int, id: string)
    requires UniqueIds(s.rows) && id != id0
    ensures TrackOf(SetReactions(s, id0, counts, mine, now), id) == TrackOf(s, id)
  {
    var found := Lookup(s.rows, id0);
    if found.Some? && !found.value.Deleted() {
      var m' := found.value.(reactions := Some(counts), myReaction := mine.Or(found.value.myReaction));
      var s1 := s.(touched := s.touched[id0 := now]);
      WriteOnRow(s1, m', true, id);
      RecomputeOnRow(Write(s1, m', true), 0, id);
    }
  }

  lemma RefreshKeepsSummary(s: Store, senders: seq<Option<UserStub>>, id: string)
    requires UniqueIds(s.rows)
    ensures SummaryKept(TrackOf(s, id), TrackOf(UpdateSenders(s, senders), id)) && UpdateSenders(s, senders).pending == s.pending
  {
    RestampKeepsSummary(s, FreshStubs(senders), id);
  }

  lemma RestampKeepsSummary(s: Store, stubs: map<string, UserStub>, id: string)
    requires UniqueIds(s.rows)
    ensures SummaryKept(TrackOf(s, id), TrackOf(RestampStore(s, stubs), id))
  {
    var found := Lookup(s.rows, id);
    if found.Some? {
      RestampedLookup(s.rows, found.value, stubs);
      RestampIsQuiet(found.value, stubs);
    }
  }

  /** A run during which the tap stays in flight and its row stays loaded. */
  ghost predicate Flying(s: Store, es: seq<Event>, id: string) {
    && TrackOf(Run(s, es), id).row.Some?
    && (es != [] ==> Flying(s, es[..|es| - 1], id) && DuringFlight(Run(s, es[..|es| - 1]), es[|es| - 1], id))
  }

  /** From the tap to its settlement a row that stays loaded and live keeps showing the optimistic summary. */
  lemma {:induction false} OptimisticSummaryHolds(s: Store, es: seq<Event>, id: string)
    requires Consistent(s) && id in s.pending && Flying(s, es, id)
    ensures id in Run(s, es).pending
    ensures SummaryKept(TrackOf(s, id), TrackOf(Run(s, es), id))
  {
    if es != [] {
      var n := |es| - 1;
      OptimisticSummaryHolds(s, es[..n], id);
      VersionIdentifiesSummary(s, es[..n], id);
      FlightContinues(TrackOf(s, id), Run(s, es[..n]), es[n], id);
    }
  }

  lemma FlightContinues(t0: Track, s: Store, e: Event, id: string)
    requires Consistent(s) && id in s.pending && DuringFlight(s, e, id)
    requires TrackOf(s, id).row.Some? && SummaryKept(t0, TrackOf(s, id))
    ensures id in Step(s, e).pending && SummaryKept(t0, TrackOf(Step(s, e), id))
  {
    FlightStep(s, e, id);
    KeptChains(t0, TrackOf(s, id), TrackOf(Step(s, e), id));
  }

  lemma KeptChains(t0: Track, t1: Track, t2: Track)
    requires SummaryKept(t0, t1) && SummaryKept(t1, t2) && t1.pending && t1.row.Some? && RankKept(t1, t2)
    ensures SummaryKept(t0, t2)
  {
  }
}
