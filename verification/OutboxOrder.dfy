/** What the sender sees: one call at a time, each room strictly in enqueue order, resends under the same client id. */
module OutboxOrder {
  import opened Common
  import opened Sorting
  import opened Outboxes
  import opened OutboxRuns

  // ---- one flush at a time ----

  /** The `flushing` flag is up exactly while one flush is suspended somewhere, and only that flush's writes are its own. */
  ghost predicate Flow(b: Box) {
    && (b.flushing <==> b.flight != NoFlight)
    && (forall p | 0 <= p < |b.writes| && b.writes[p].waiter.ForMark? :: b.flight.SavingMark?)
    && (forall p | 0 <= p < |b.writes| && b.writes[p].waiter.ForResult? :: b.flight.SavingResult?)
    && (forall p, q | 0 <= p < q < |b.writes| :: !(b.writes[p].waiter.ForMark? && b.writes[q].waiter.ForMark?))
    && (forall p, q | 0 <= p < q < |b.writes| :: !(b.writes[p].waiter.ForResult? && b.writes[q].waiter.ForResult?))
    && (b.disposed ==> !b.online && !b.timer)
  }

  lemma PickNextFlow(b: Box)
    requires Flow(b.(flushing := b.flight != NoFlight)) && !b.flight.SavingMark? && !b.flight.SavingResult? && b.flushing
    ensures Flow(PickNext(b))
  {
  }

  lemma FlushFlow(b: Box)
    requires Flow(b)
    ensures Flow(FlushBegin(b))
    ensures b.flight != NoFlight ==> FlushBegin(b) == b
  {
    if !(b.disposed || !b.hasSender || !b.online || b.flushing) {
      PickNextFlow(b.(flushing := true));
    }
  }

  lemma SaveFlow(b: Box, ok: bool)
    requires Flow(b) && b.writes != []
    ensures Flow(SaveDone(b, ok))
  {
    var b' := SaveDone(b, ok);
    assert b'.writes == b.writes[1..];
    assert forall k | 0 <= k < |b'.writes| :: b'.writes[k] == b.writes[k + 1];
  }

  /** A write that is not the flush's own changes nothing here; the flush's own is queued by the flush alone. */
  lemma PersistFlow(b: Box, waiter: Waiter)
    requires Flow(b)
    requires waiter.ForMark? ==> b.flight.SavingMark? && forall p | 0 <= p < |b.writes| :: !b.writes[p].waiter.ForMark?
    requires waiter.ForResult? ==> b.flight.SavingResult? && forall p | 0 <= p < |b.writes| :: !b.writes[p].waiter.ForResult?
    ensures Flow(Persist(b, waiter))
  {
  }

  lemma RetryFlow(b: Box, id: nat)
    requires Flow(b)
    ensures Flow(Retry(b, id)) && Retry(b, id).flight == b.flight
  {
    var found := Find(b.entries, id);
    if found.Some? && found.value.status == Failed {
      PersistFlow(b.(entries := Patch(b.entries, id, Pending, 0, None, found.value.hold)), ForFollowUp);
    }
  }

  lemma AfterSendFlow(b: Box, max: nat, result: SendResult)
    requires Flow(b) && b.flight.AtSender?
    ensures Flow(AfterSend(b, max, result))
  {
    if !b.disposed {
      var e := b.flight.entry;
      PersistFlow(b.(entries := Outcome(b.entries, e, max, result), timer := b.timer || BacksOff(e, max, result),
                     flight := SavingResult), ForResult);
    }
  }

  lemma EnqueueFlow(b: Box, id: nat, d: Draft, now: int)
    requires Flow(b) && !b.disposed
    ensures Flow(Enqueue(b, id, d.roomId, d.clientMessageId, d.payload, now))
  {
  }

  lemma EditFlow(b: Box, e: Event)
    requires Flow(b) && Edits(e)
    ensures Flow(EditStep(b, e)) && EditStep(b, e).flight == b.flight
  {
    match e {
      case EnqueueResumed(id) => SettleFlow(b, id);
      case Retried(id) => RetryFlow(b, id);
      case Removed(id) => PersistFlow(b.(entries := Without(b.entries, id)), ForFollowUp);
      case RoomRemoved(room) => PersistFlow(b.(entries := WithoutRoom(b.entries, room)), ForOther);
      case WasDisposed =>
    }
  }

  lemma SettleFlow(b: Box, id: nat)
    requires Flow(b)
    ensures id in b.settled ==> Flow(EnqueueSettled(b, id)) && EnqueueSettled(b, id).flight == b.flight
  {
  }

  lemma FlushStepFlow(b: Box, e: Event)
    requires Flow(b) && Flushes(e)
    ensures Flow(FlushStep(b, e))
    ensures b.flight != NoFlight && !e.ResultResumed? ==> FlushStep(b, e).flight == b.flight
  {
    match e {
      case WentOnline(online) => if !b.disposed && online { FlushFlow(b.(online := true)); }
      case SenderSet => FlushFlow(b.(hasSender := true));
      case Flushed => FlushFlow(b);
      case TimerTicked => FlushFlow(b.(timer := false, entries := Unheld(b.entries)));
      case ResultResumed => if b.flight.ResultSaved? { ResultFlow(b); }
    }
  }

  lemma ResultFlow(b: Box)
    requires Flow(b) && b.flight.ResultSaved?
    ensures Flow(AfterResult(b))
  {
    if b.flight.ok {
      PickNextFlow(b);
    }
  }

  lemma ProgressFlow(b: Box, max: nat, e: Event)
    requires Flow(b) && Progresses(e)
    ensures Flow(ProgressStep(b, max, e))
  {
    match e {
      case Saved(ok) => if b.writes != [] { SaveFlow(b, ok); }
      case MarkResumed =>
      case Answered(result) => if b.flight.AtSender? { AfterSendFlow(b, max, result); }
    }
  }

  lemma CrashFlow(w: World, max: nat, hasSender: bool)
    ensures Flow(Step(w, max, Crashed(hasSender)).box)
  {
    CrashRestoresDisk(w, max, hasSender);
  }

  lemma StepFlow(w: World, max: nat, e: Event)
    requires Flow(w.box)
    ensures Flow(Step(w, max, e).box)
  {
    if e.Crashed? {
      CrashFlow(w, max, e.hasSender);
    } else if e.Enqueued? {
      if !w.box.disposed { EnqueueFlow(w.box, w.nextId, e.draft, e.now); }
    } else if Edits(e) {
      EditFlow(w.box, e);
    } else if Flushes(e) {
      FlushStepFlow(w.box, e);
    } else {
      ProgressFlow(w.box, max, e);
    }
  }

  // ---- lists that stay in enqueue order ----

  /** The part of an entry that never changes. */
  function Key(e: Entry): Entry {
    e.(status := Pending, attempts := 0, lastError := None, hold := false)
  }

  /** What every list of entries is measured against. */
  datatype Frame = Frame(drafts: map<nat, Draft>, nextId: nat, clock: int, sends: seq<Sent>)

  function FrameOf(w: World): Frame { Frame(w.history.drafts, w.nextId, w.clock, w.history.sends) }

  predicate Before(a: Entry, b: Entry) {
    a.id < b.id && a.order < b.order && a.createdAt <= b.createdAt
  }

  ghost predicate Lined(l: Entries) {
    forall i, j | 0 <= i < j < |l| :: Before(l[i], l[j])
  }

  /** No entry of the room was enqueued before `id`. */
  ghost predicate From(l: Entries, room: string, id: nat) {
    forall e | e in l && e.roomId == room :: id <= e.id
  }

  ghost predicate Fits(e: Entry, f: Frame) {
    && e.id < f.nextId && e.createdAt <= f.clock
    && e.id in f.drafts && f.drafts[e.id] == DraftOf(e)
    && forall s | s in f.sends && s.draft.roomId == e.roomId :: s.id <= e.id
  }

  ghost predicate Orderly(l: Entries, f: Frame) {
    Lined(l) && forall e | e in l :: Fits(e, f)
  }

  ghost predicate SameKeys(l: Entries, l': Entries) {
    |l'| == |l| && forall i | 0 <= i < |l| :: Key(l'[i]) == Key(l[i])
  }

  lemma SameKeysStay(l: Entries, l': Entries, f: Frame)
    requires SameKeys(l, l') && Orderly(l, f)
    ensures Orderly(l', f)
  {
    forall e' | e' in l' ensures Fits(e', f) {
      var i :| 0 <= i < |l'| && l'[i] == e';
      assert l[i] in l && Key(l'[i]) == Key(l[i]);
      KeyDecides(l[i], e', f);
    }
    forall i, j | 0 <= i < j < |l'| ensures Before(l'[i], l'[j]) {
      assert Before(l[i], l[j]) && Key(l'[i]) == Key(l[i]) && Key(l'[j]) == Key(l[j]);
      KeyParts(l[i], l'[i]);
      KeyParts(l[j], l'[j]);
    }
  }

  lemma KeyParts(a: Entry, b: Entry)
    requires Key(a) == Key(b)
    ensures a.id == b.id && a.order == b.order && a.createdAt == b.createdAt && a.roomId == b.roomId && DraftOf(a) == DraftOf(b)
  {
    assert Key(a).id == a.id && Key(a).order == a.order && Key(a).createdAt == a.createdAt && DraftOf(Key(a)) == DraftOf(a);
    assert Key(b).id == b.id && Key(b).order == b.order && Key(b).createdAt == b.createdAt && DraftOf(Key(b)) == DraftOf(b);
  }

  lemma KeyDecides(a: Entry, b: Entry, f: Frame)
    requires Key(a) == Key(b) && Fits(a, f)
    ensures Fits(b, f)
  {
    KeyParts(a, b);
  }

  lemma SameKeysFrom(l: Entries, l': Entries, room: string, id: nat)
    requires SameKeys(l, l') && From(l, room, id)
    ensures From(l', room, id)
  {
    forall e' | e' in l' && e'.roomId == room ensures id <= e'.id {
      var i :| 0 <= i < |l'| && l'[i] == e';
      KeyParts(l[i], e');
      assert l[i] in l;
    }
  }

  lemma FilterOrderly(p: Entry -> bool, l: Entries, f: Frame)
    requires Orderly(l, f)
    ensures Orderly(Filter(p, l), f)
  {
    FilterMembers(p, l);
    FilterSorted(Before, p, l);
  }

  lemma WidenedFrame(l: Entries, f: Frame, f': Frame)
    requires Orderly(l, f) && f.nextId <= f'.nextId && f.clock <= f'.clock && f'.sends == f.sends
    requires forall id | id in f.drafts :: id in f'.drafts && f'.drafts[id] == f.drafts[id]
    ensures Orderly(l, f')
  {
  }

  /** In enqueue order the sort does nothing, so the queue's head is the oldest ready head of a room. */
  lemma LinedIsSorted(l: Entries)
    requires Lined(l)
    ensures SortStable(ByOrder, l) == l
  {
    forall i, j | 0 <= i < j < |l| ensures ByOrder(l[i], l[j]) {
      assert Before(l[i], l[j]);
    }
    SortOfSorted(ByOrder, l);
  }

  lemma FirstOfPrefix(s: Entries, n: nat, k: nat)
    requires k < n <= |s|
    ensures s[..n][k] == s[k] && (FirstOfRoom(s[..n], k) <==> FirstOfRoom(s, k))
  {
    assert forall i | 0 <= i < k :: s[..n][i] == s[i];
  }

  ghost predicate HeadAt(s: Entries, n: nat, e: Entry) {
    n < |s| && s[n] == e && FirstOfRoom(s, n) && Ready(e)
  }

  lemma {:induction false} ReadyHeadsMembers(s: Entries, e: Entry)
    ensures e in ReadyHeads(s) <==> exists n: nat :: HeadAt(s, n, e)
  {
    if s != [] {
      var n := |s| - 1;
      ReadyHeadsMembers(s[..n], e);
      forall k: nat | k < n ensures HeadAt(s[..n], k, e) <==> HeadAt(s, k, e) { FirstOfPrefix(s, n, k); }
      assert e in ReadyHeads(s) <==> e in ReadyHeads(s[..n]) || HeadAt(s, n, e);
    }
  }

  lemma FirstMeansOldest(l: Entries, n: nat)
    requires Lined(l) && n < |l|
    ensures FirstOfRoom(l, n) <==> From(l, l[n].roomId, l[n].id)
  {
    if From(l, l[n].roomId, l[n].id) {
      forall i | 0 <= i < n ensures l[i].roomId != l[n].roomId {
        assert Before(l[i], l[n]) && l[i] in l;
      }
    }
    if FirstOfRoom(l, n) {
      forall x | x in l && x.roomId == l[n].roomId ensures l[n].id <= x.id {
        var k :| 0 <= k < |l| && l[k] == x;
        assert k >= n;
        assert n < k ==> Before(l[n], l[k]);
      }
    }
  }

  /** The queue offers exactly the ready entries that no earlier entry of their own room precedes; other rooms never matter. */
  lemma QueueIsReadyHeads(l: Entries, e: Entry)
    requires Lined(l)
    ensures e in PendingQueue(l) <==> e in l && Ready(e) && From(l, e.roomId, e.id)
  {
    LinedIsSorted(l);
    ReadyHeadsMembers(l, e);
    if e in l && Ready(e) && From(l, e.roomId, e.id) {
      var n :| 0 <= n < |l| && l[n] == e;
      FirstMeansOldest(l, n);
      assert HeadAt(l, n, e);
    }
    if n: nat :| HeadAt(l, n, e) {
      FirstMeansOldest(l, n);
    }
  }

  // ---- the invariant ----

  ghost predicate SnapshotsFrom(writes: seq<Write>, p: int, room: string, id: nat) {
    forall k | 0 <= p <= k < |writes| :: From(writes[k].snapshot, room, id)
  }

  /**
    * The entry in flight heads its room. Once its mark is being saved, every snapshot from that one on agrees;
    * once the mark is saved, so does the disk.
    */
  ghost predicate FlightHeads(b: Box, disk: Entries, f: Frame) {
    b.flight.Holds() ==>
      var x := b.flight.entry;
      && Fits(x, f)
      && From(b.entries, x.roomId, x.id)
      && (b.flight.SavingMark? ==>
            forall p | 0 <= p < |b.writes| && b.writes[p].waiter.ForMark? :: SnapshotsFrom(b.writes, p, x.roomId, x.id))
      && ((b.flight.AtSender? || (b.flight.MarkSaved? && b.flight.ok)) ==>
            SnapshotsFrom(b.writes, 0, x.roomId, x.id) && From(disk, x.roomId, x.id))
  }

  ghost predicate Lists(b: Box, disk: Entries, f: Frame) {
    && Orderly(b.entries, f) && Orderly(disk, f)
    && (forall k | 0 <= k < |b.writes| :: Orderly(b.writes[k].snapshot, f))
    && (forall e | e in b.entries :: e.order < b.nextOrder)
  }

  ghost predicate InOrder(b: Box, disk: Entries, f: Frame) {
    Flow(b) && Lists(b, disk, f) && FlightHeads(b, disk, f)
  }

  /** Replacing the list by one with the same keys, or with fewer entries, disturbs nothing. */
  ghost predicate Tamer(l: Entries, l': Entries) {
    SameKeys(l, l') || exists p: Entry -> bool :: l' == Filter(p, l)
  }

  lemma TamerStays(l: Entries, l': Entries, f: Frame, n: int)
    requires Tamer(l, l') && Orderly(l, f) && forall e | e in l :: e.order < n
    ensures Orderly(l', f)
    ensures forall room, id | From(l, room, id) :: From(l', room, id)
    ensures forall e | e in l' :: e.order < n
  {
    if SameKeys(l, l') {
      SameKeysStay(l, l', f);
      forall room, id | From(l, room, id) ensures From(l', room, id) { SameKeysFrom(l, l', room, id); }
      forall e' | e' in l' ensures e'.order < n {
        var i :| 0 <= i < |l'| && l'[i] == e';
        KeyParts(l[i], e');
        assert l[i] in l;
      }
    } else {
      var p: Entry -> bool :| l' == Filter(p, l);
      FilterOrderly(p, l, f);
      FilterMembers(p, l);
    }
  }

  lemma PatchTamer(l: Entries, x: nat, status: Status, attempts: nat, err: Option<string>, hold: bool)
    ensures Tamer(l, Patch(l, x, status, attempts, err, hold))
  {
    assert SameKeys(l, Patch(l, x, status, attempts, err, hold));
  }

  /** Swap in a tamer list. */
  lemma EntriesChange(b: Box, l: Entries, disk: Entries, f: Frame)
    requires Lists(b, disk, f) && FlightHeads(b, disk, f) && Tamer(b.entries, l)
    ensures Lists(b.(entries := l), disk, f) && FlightHeads(b.(entries := l), disk, f)
  {
    TamerStays(b.entries, l, f, b.nextOrder);
  }

  /** Queue the current list; a mark's own snapshot is the first to carry the new head. */
  lemma PersistOrder(b: Box, waiter: Waiter, disk: Entries, f: Frame)
    requires Lists(b, disk, f) && FlightHeads(b, disk, f)
    requires waiter.ForMark? ==> b.flight.SavingMark? && forall p | 0 <= p < |b.writes| :: !b.writes[p].waiter.ForMark?
    ensures Lists(Persist(b, waiter), disk, f) && FlightHeads(Persist(b, waiter), disk, f)
  {
    if !b.disposed {
      var b' := Persist(b, waiter);
      var n := |b.writes|;
      var snapshot := Unheld(b.entries);
      assert SameKeys(b.entries, snapshot);
      SameKeysStay(b.entries, snapshot, f);
      assert b'.writes[n].snapshot == snapshot && forall k | 0 <= k < n :: b'.writes[k] == b.writes[k];
      if b.flight.Holds() {
        var x := b.flight.entry;
        SameKeysFrom(b.entries, snapshot, x.roomId, x.id);
        forall p | 0 <= p <= n && (p < n ==> SnapshotsFrom(b.writes, p, x.roomId, x.id))
          ensures SnapshotsFrom(b'.writes, p, x.roomId, x.id)
        {
        }
      }
    }
  }

  lemma PickNextOrder(b: Box, disk: Entries, f: Frame)
    requires Lists(b, disk, f) && forall p | 0 <= p < |b.writes| :: !b.writes[p].waiter.ForMark?
    ensures Lists(PickNext(b), disk, f) && FlightHeads(PickNext(b), disk, f)
  {
    var queue := PendingQueue(b.entries);
    if queue != [] && b.online && b.hasSender && !b.disposed {
      var e := queue[0];
      QueueIsReadyHeads(b.entries, e);
      assert e in b.entries;
      var marked := Patch(b.entries, e.id, Sending, e.attempts, e.lastError, e.hold);
      PatchTamer(b.entries, e.id, Sending, e.attempts, e.lastError, e.hold);
      TamerStays(b.entries, marked, f, b.nextOrder);
      var x := e.(status := Sending);
      assert Key(x) == Key(e);
      KeyDecides(e, x, f);
      var b1 := b.(entries := marked, flight := SavingMark(x));
      PersistOrder(b1, ForMark, disk, f);
    }
  }

  lemma FlushOrder(b: Box, disk: Entries, f: Frame)
    requires InOrder(b, disk, f)
    ensures InOrder(FlushBegin(b), disk, f)
  {
    FlushFlow(b);
    if !(b.disposed || !b.hasSender || !b.online || b.flushing) {
      PickNextOrder(b.(flushing := true), disk, f);
    }
  }

  /** The oldest snapshot becomes the disk. */
  lemma ShiftFrom(writes: seq<Write>, p: nat, room: string, id: nat)
    requires writes != [] && SnapshotsFrom(writes, p + 1, room, id)
    ensures SnapshotsFrom(writes[1..], p, room, id)
  {
    assert forall k | 0 <= k < |writes[1..]| :: writes[1..][k] == writes[k + 1];
  }

  lemma SaveLists(b: Box, ok: bool, disk: Entries, f: Frame)
    requires Lists(b, disk, f) && b.writes != []
    ensures Lists(SaveDone(b, ok), if ok then b.writes[0].snapshot else disk, f)
  {
    SaveDoneShape(b, ok);
    assert forall k | 0 <= k < |b.writes[1..]| :: b.writes[1..][k] == b.writes[k + 1];
  }

  lemma SaveFlight(b: Box, ok: bool)
    requires b.writes != []
    ensures var b' := SaveDone(b, ok);
            b'.flight == match b.writes[0].waiter
                         case ForMark => if b.flight.SavingMark? then MarkSaved(b.flight.entry, ok) else b.flight
                         case ForResult => if b.flight.SavingResult? then ResultSaved(ok) else b.flight
                         case _ => b.flight
  {
  }

  lemma SaveKeepsHold(b: Box, ok: bool)
    requires b.writes != []
    ensures var f := SaveDone(b, ok).flight; f.Holds() == b.flight.Holds() && (f.Holds() ==> f.entry == b.flight.entry)
  {
    SaveFlight(b, ok);
  }

  lemma SaveHeads(b: Box, ok: bool, disk: Entries, f: Frame)
    requires FlightHeads(b, disk, f) && b.writes != []
    ensures FlightHeads(SaveDone(b, ok), if ok then b.writes[0].snapshot else disk, f)
  {
    SaveDoneShape(b, ok);
    SaveFlight(b, ok);
    if b.flight.Holds() {
      var x := b.flight.entry;
      var rest := b.writes[1..];
      forall p: nat | p < |rest| && SnapshotsFrom(b.writes, p + 1, x.roomId, x.id) ensures SnapshotsFrom(rest, p, x.roomId, x.id) {
        ShiftFrom(b.writes, p, x.roomId, x.id);
      }
      assert forall p | 0 <= p < |rest| :: rest[p] == b.writes[p + 1];
      if SnapshotsFrom(b.writes, 0, x.roomId, x.id) {
        ShiftFrom(b.writes, 0, x.roomId, x.id);
        assert From(b.writes[0].snapshot, x.roomId, x.id);
      }
    }
  }

  lemma SaveOrder(b: Box, ok: bool, disk: Entries, f: Frame)
    requires InOrder(b, disk, f) && b.writes != []
    ensures InOrder(SaveDone(b, ok), if ok then b.writes[0].snapshot else disk, f)
  {
    SaveFlow(b, ok);
    SaveLists(b, ok, disk, f);
    SaveHeads(b, ok, disk, f);
  }

  lemma CrashOrder(w: World, max: nat, hasSender: bool)
    requires Lists(w.box, w.disk, FrameOf(w))
    ensures InOrder(Step(w, max, Crashed(hasSender)).box, w.disk, FrameOf(w))
  {
    CrashRestoresDisk(w, max, hasSender);
    RevivedOrder(w.disk, FrameOf(w));
  }

  lemma RevivedOrder(disk: Entries, f: Frame)
    requires Orderly(disk, f)
    ensures Orderly(Revive(disk), f)
    ensures forall e | e in Revive(disk) :: e.order <= MaxOrder(disk)
  {
    assert SameKeys(disk, Revive(disk));
    SameKeysStay(disk, Revive(disk), f);
    ReviveOrder(disk);
    MaxOrderIsMax(Revive(disk));
  }

  lemma {:induction false} MaxOrderIsMax(l: Entries)
    ensures forall e | e in l :: e.order <= MaxOrder(l)
  {
    if l != [] {
      MaxOrderIsMax(l[..|l| - 1]);
      assert l == l[..|l| - 1] + [l[|l| - 1]];
    }
  }

  /** Every send so far is on record with its own draft, under an id already drawn. */
  ghost predicate OnRecord(f: Frame) {
    && (forall id | id in f.drafts :: id < f.nextId)
    && forall s | s in f.sends :: s.id in f.drafts && f.drafts[s.id] == s.draft
  }

  lemma EnqueueOrder(b: Box, d: Draft, now: int, disk: Entries, f: Frame)
    requires InOrder(b, disk, f) && OnRecord(f) && !b.disposed && f.clock <= now
    ensures InOrder(Enqueue(b, f.nextId, d.roomId, d.clientMessageId, d.payload, now), disk,
                    Frame(f.drafts[f.nextId := d], f.nextId + 1, now, f.sends))
  {
    var f' := Frame(f.drafts[f.nextId := d], f.nextId + 1, now, f.sends);
    var e := Entry(f.nextId, b.nextOrder, Pending, d.roomId, d.clientMessageId, d.payload, 0, None, now, false);
    assert Fits(e, f');
    WidenedLists(b, disk, f, f');
    var b1 := b.(entries := b.entries + [e], nextOrder := b.nextOrder + 1);
    assert Lists(b1, disk, f') by {
      forall x | x in b1.entries ensures Fits(x, f') && x.order < b1.nextOrder { assert x in b.entries || x == e; }
      forall i, j | 0 <= i < j < |b1.entries| ensures Before(b1.entries[i], b1.entries[j]) { assert b1.entries[i] in b.entries; }
    }
    PersistOrder(b1, ForEnqueue(f.nextId), disk, f');
    EnqueueFlow(b, f.nextId, d, now);
  }

  lemma WidenedLists(b: Box, disk: Entries, f: Frame, f': Frame)
    requires Lists(b, disk, f) && FlightHeads(b, disk, f)
    requires f.nextId < f'.nextId && f.clock <= f'.clock && f'.sends == f.sends
    requires forall id | id in f.drafts :: id in f'.drafts && f'.drafts[id] == f.drafts[id]
    ensures Lists(b, disk, f') && FlightHeads(b, disk, f')
  {
    forall k | 0 <= k < |b.writes| ensures Orderly(b.writes[k].snapshot, f') { WidenedFrame(b.writes[k].snapshot, f, f'); }
  }

  lemma RetryOrder(b: Box, id: nat, disk: Entries, f: Frame)
    requires InOrder(b, disk, f)
    ensures InOrder(Retry(b, id), disk, f)
  {
    RetryFlow(b, id);
    var found := Find(b.entries, id);
    if found.Some? && found.value.status == Failed {
      PatchTamer(b.entries, id, Pending, 0, None, found.value.hold);
      EntriesThenPersist(b, Patch(b.entries, id, Pending, 0, None, found.value.hold), ForFollowUp, disk, f);
    }
  }

  lemma EntriesThenPersist(b: Box, l: Entries, waiter: Waiter, disk: Entries, f: Frame)
    requires InOrder(b, disk, f) && Tamer(b.entries, l) && (waiter.ForFollowUp? || waiter.ForOther?)
    ensures InOrder(Persist(b.(entries := l), waiter), disk, f)
  {
    EntriesChange(b, l, disk, f);
    PersistOrder(b.(entries := l), waiter, disk, f);
    PersistFlow(b.(entries := l), waiter);
  }

  lemma RemoveOrder(b: Box, id: nat, disk: Entries, f: Frame)
    requires InOrder(b, disk, f)
    ensures InOrder(Remove(b, id), disk, f)
  {
    assert Tamer(b.entries, Without(b.entries, id));
    EntriesThenPersist(b, Without(b.entries, id), ForFollowUp, disk, f);
  }

  lemma RemoveRoomOrder(b: Box, room: string, disk: Entries, f: Frame)
    requires InOrder(b, disk, f)
    ensures InOrder(RemoveRoom(b, room), disk, f)
  {
    assert Tamer(b.entries, WithoutRoom(b.entries, room));
    EntriesThenPersist(b, WithoutRoom(b.entries, room), ForOther, disk, f);
  }

  lemma TimerOrder(b: Box, disk: Entries, f: Frame)
    requires InOrder(b, disk, f)
    ensures InOrder(TimerFired(b), disk, f)
  {
    assert SameKeys(b.entries, Unheld(b.entries));
    EntriesChange(b, Unheld(b.entries), disk, f);
    if b.timer {
      FlushOrder(b.(timer := false, entries := Unheld(b.entries)), disk, f);
    }
  }

  lemma OutcomeTamer(l: Entries, e: Entry, max: nat, result: SendResult)
    ensures Tamer(l, Outcome(l, e, max, result))
  {
    match result {
      case Delivered => assert Tamer(l, Without(l, e.id));
      case Refused(error) => PatchTamer(l, e.id, Failed, e.attempts, Some(error), e.hold);
      case Unreachable(error) =>
        var again := BacksOff(e, max, result);
        PatchTamer(l, e.id, if again then Pending else Failed, e.attempts + 1, Some(error), again || e.hold);
    }
  }

  lemma AnswerOrder(b: Box, max: nat, result: SendResult, disk: Entries, f: Frame)
    requires InOrder(b, disk, f) && b.flight.AtSender?
    ensures InOrder(AfterSend(b, max, result), disk, f)
  {
    AfterSendFlow(b, max, result);
    if !b.disposed {
      var e := b.flight.entry;
      var l := Outcome(b.entries, e, max, result);
      OutcomeTamer(b.entries, e, max, result);
      EntriesChange(b, l, disk, f);
      PersistOrder(b.(entries := l, timer := b.timer || BacksOff(e, max, result), flight := SavingResult), ForResult, disk, f);
    }
  }

  lemma SettleOrder(b: Box, id: nat, disk: Entries, f: Frame)
    requires InOrder(b, disk, f) && id in b.settled
    ensures InOrder(EnqueueSettled(b, id), disk, f)
  {
    SettleFlow(b, id);
    var l := Without(b.entries, id);
    assert Tamer(b.entries, l);
    EntriesChange(b, l, disk, f);
    var b1 := if b.settled[id] then b else b.(entries := l);
    SettledChange(b1, b.settled - {id}, disk, f);
  }

  lemma SettledChange(b: Box, settled: map<nat, bool>, disk: Entries, f: Frame)
    requires Lists(b, disk, f) && FlightHeads(b, disk, f)
    ensures Lists(b.(settled := settled), disk, f) && FlightHeads(b.(settled := settled), disk, f)
  {
  }

  /** The call goes out: from now on, nothing older of that room is in the list, in a queued snapshot or on disk. */
  lemma MarkOrder(b: Box, disk: Entries, f: Frame)
    requires InOrder(b, disk, f) && b.flight.MarkSaved? && b.flight.ok && !b.disposed
    ensures var x := b.flight.entry;
            InOrder(AfterMark(b), disk, f.(sends := f.sends + [Sent(x.id, DraftOf(x))]))
  {
    var x := b.flight.entry;
    var f' := f.(sends := f.sends + [Sent(x.id, DraftOf(x))]);
    forall l, e | e in l && Orderly(l, f) && From(l, x.roomId, x.id) ensures Fits(e, f') {
    }
    assert forall l | Orderly(l, f) && From(l, x.roomId, x.id) :: Orderly(l, f');
    assert Lists(b, disk, f');
  }

  // ---- runs ----

  /** Sends of one room go up in enqueue order; a repeat of an id is a resend of the same draft. */
  ghost predicate SendsFollow(sends: seq<Sent>) {
    forall i, j | 0 <= i < j < |sends| ::
      && (sends[i].draft.roomId == sends[j].draft.roomId ==> sends[i].id <= sends[j].id)
      && (sends[i].id == sends[j].id ==> sends[i].draft == sends[j].draft)
  }

  ghost predicate Sequenced(w: World) {
    InOrder(w.box, w.disk, FrameOf(w)) && OnRecord(FrameOf(w)) && SendsFollow(w.history.sends)
  }

  predicate OnTime(w: World, e: Event) { e.Enqueued? ==> w.clock <= e.now }

  lemma MarkStepOrder(w: World, max: nat)
    requires Sequenced(w)
    ensures Sequenced(Step(w, max, MarkResumed))
  {
    var b := w.box;
    if b.flight.MarkSaved? && b.flight.ok && !b.disposed {
      MarkOrder(b, w.disk, FrameOf(w));
      SendFollows(FrameOf(w), b.flight.entry);
      var f' := FrameOf(w).(sends := w.history.sends + [Sent(b.flight.entry.id, DraftOf(b.flight.entry))]);
      assert FrameOf(Step(w, max, MarkResumed)) == f';
    }
  }

  lemma SendFollows(f: Frame, x: Entry)
    requires Fits(x, f) && OnRecord(f) && SendsFollow(f.sends)
    ensures var f' := f.(sends := f.sends + [Sent(x.id, DraftOf(x))]); OnRecord(f') && SendsFollow(f'.sends)
  {
    var sends := f.sends + [Sent(x.id, DraftOf(x))];
    forall i, j | 0 <= i < j < |sends|
      ensures sends[i].draft.roomId == sends[j].draft.roomId ==> sends[i].id <= sends[j].id
      ensures sends[i].id == sends[j].id ==> sends[i].draft == sends[j].draft
    {
      assert sends[i] in f.sends;
    }
  }

  lemma EditOrder(b: Box, e: Event, disk: Entries, f: Frame)
    requires InOrder(b, disk, f) && Edits(e)
    ensures InOrder(EditStep(b, e), disk, f)
  {
    match e {
      case EnqueueResumed(id) => if id in b.settled { SettleOrder(b, id, disk, f); }
      case Retried(id) => RetryOrder(b, id, disk, f);
      case Removed(id) => RemoveOrder(b, id, disk, f);
      case RoomRemoved(room) => RemoveRoomOrder(b, room, disk, f);
      case WasDisposed => DisposeOrder(b, disk, f);
    }
  }

  lemma DisposeOrder(b: Box, disk: Entries, f: Frame)
    requires InOrder(b, disk, f)
    ensures InOrder(Dispose(b), disk, f)
  {
  }

  lemma ResultOrder(b: Box, disk: Entries, f: Frame)
    requires InOrder(b, disk, f) && b.flight.ResultSaved?
    ensures InOrder(AfterResult(b), disk, f)
  {
    if b.flight.ok {
      PickNextFlow(b);
      PickNextOrder(b, disk, f);
    }
  }

  lemma FlushStepOrder(b: Box, e: Event, disk: Entries, f: Frame)
    requires InOrder(b, disk, f) && Flushes(e)
    ensures InOrder(FlushStep(b, e), disk, f)
  {
    match e {
      case WentOnline(online) => OnlineOrder(b, online, disk, f);
      case SenderSet => SenderOrder(b, disk, f);
      case Flushed => FlushOrder(b, disk, f);
      case TimerTicked => TimerOrder(b, disk, f);
      case ResultResumed => if b.flight.ResultSaved? { ResultOrder(b, disk, f); }
    }
  }

  lemma OnlineOrder(b: Box, online: bool, disk: Entries, f: Frame)
    requires InOrder(b, disk, f)
    ensures InOrder(SetOnline(b, online), disk, f)
  {
    if !b.disposed && online {
      FlushOrder(b.(online := true), disk, f);
    }
  }

  lemma SenderOrder(b: Box, disk: Entries, f: Frame)
    requires InOrder(b, disk, f)
    ensures InOrder(SetSender(b), disk, f)
  {
    FlushOrder(b.(hasSender := true), disk, f);
  }

  predicate OffRecord(e: Event) { !(e.Crashed? || e.Enqueued? || e.Saved? || e.MarkResumed?) }

  lemma OffRecordStep(w: World, max: nat, e: Event)
    requires OffRecord(e)
    ensures Step(w, max, e).disk == w.disk && FrameOf(Step(w, max, e)) == FrameOf(w)
    ensures Step(w, max, e).box == BoxStep(w.box, max, e) && Step(w, max, e).history.stranded == w.history.stranded
  {
  }

  lemma OffRecordOrder(w: World, max: nat, e: Event)
    requires Sequenced(w) && OffRecord(e)
    ensures Sequenced(Step(w, max, e))
  {
    OffRecordStep(w, max, e);
    if Edits(e) {
      EditOrder(w.box, e, w.disk, FrameOf(w));
    } else if Flushes(e) {
      FlushStepOrder(w.box, e, w.disk, FrameOf(w));
    } else if w.box.flight.AtSender? {
      AnswerOrder(w.box, max, e.result, w.disk, FrameOf(w));
    }
  }

  lemma CrashStepOrder(w: World, max: nat, hasSender: bool)
    requires Sequenced(w)
    ensures Sequenced(Step(w, max, Crashed(hasSender)))
  {
    CrashOrder(w, max, hasSender);
  }

  lemma EnqueueStepOrder(w: World, max: nat, d: Draft, now: int)
    requires Sequenced(w) && w.clock <= now
    ensures Sequenced(Step(w, max, Enqueued(d, now)))
  {
    if !w.box.disposed {
      EnqueueOrder(w.box, d, now, w.disk, FrameOf(w));
      DraftedOnRecord(FrameOf(w), d, now);
    }
  }

  lemma DraftedOnRecord(f: Frame, d: Draft, now: int)
    requires OnRecord(f)
    ensures OnRecord(Frame(f.drafts[f.nextId := d], f.nextId + 1, now, f.sends))
  {
  }

  lemma SaveStepOrder(w: World, max: nat, ok: bool)
    requires Sequenced(w)
    ensures Sequenced(Step(w, max, Saved(ok)))
  {
    if w.box.writes != [] {
      SavedStep(w, ok, max);
      SaveOrder(w.box, ok, w.disk, FrameOf(w));
    }
  }

  lemma StepOrder(w: World, max: nat, e: Event)
    requires Sequenced(w) && OnTime(w, e)
    ensures Sequenced(Step(w, max, e))
  {
    match e {
      case Crashed(hasSender) => CrashStepOrder(w, max, hasSender);
      case Enqueued(d, now) => EnqueueStepOrder(w, max, d, now);
      case Saved(ok) => SaveStepOrder(w, max, ok);
      case MarkResumed => MarkStepOrder(w, max);
      case _ => OffRecordOrder(w, max, e);
    }
  }

  /** The local clock starts at zero and never goes back between two enqueues. */
  predicate ClockNeverGoesBack(es: seq<Event>) {
    && (forall i | 0 <= i < |es| && es[i].Enqueued? :: 0 <= es[i].now)
    && (forall i, j | 0 <= i < j < |es| && es[i].Enqueued? && es[j].Enqueued? :: es[i].now <= es[j].now)
  }

  lemma {:induction false} ClockIsAnEarlierNow(hasSender: bool, max: nat, es: seq<Event>)
    ensures var clock := Run(Start(hasSender), max, es).clock;
            clock == 0 || exists i | 0 <= i < |es| :: es[i].Enqueued? && es[i].now == clock
  {
    if es != [] {
      var n := |es| - 1;
      ClockIsAnEarlierNow(hasSender, max, es[..n]);
      assert forall i | 0 <= i < n :: es[..n][i] == es[i];
      ClockStep(Run(Start(hasSender), max, es[..n]), max, es[n]);
    }
  }

  lemma ClockStep(w: World, max: nat, e: Event)
    ensures Step(w, max, e).clock == w.clock || (e.Enqueued? && Step(w, max, e).clock == e.now)
  {
  }

  lemma {:induction false} RunOrder(hasSender: bool, max: nat, es: seq<Event>)
    requires ClockNeverGoesBack(es)
    ensures Sequenced(Run(Start(hasSender), max, es))
  {
    if es != [] {
      var n := |es| - 1;
      RunOrder(hasSender, max, es[..n]);
      ClockIsAnEarlierNow(hasSender, max, es[..n]);
      StepOrder(Run(Start(hasSender), max, es[..n]), max, es[n]);
    }
  }

  lemma {:induction false} RunFlow(hasSender: bool, max: nat, es: seq<Event>)
    ensures Flow(Run(Start(hasSender), max, es).box)
  {
    if es != [] {
      RunFlow(hasSender, max, es[..|es| - 1]);
      StepFlow(Run(Start(hasSender), max, es[..|es| - 1]), max, es[|es| - 1]);
    }
  }

  /**
    * At most one call is outstanding: until a suspended flush is resumed by its own event, or the process dies,
    * no step starts another one or takes its place.
    */
  lemma OneCallAtATime(hasSender: bool, max: nat, es: seq<Event>, e: Event)
    requires var b := Run(Start(hasSender), max, es).box;
             && !e.Crashed? && !e.Answered? && b.flight != NoFlight
             && (b.flight.AtSender? || !(e.Saved? || e.MarkResumed? || e.ResultResumed?))
    ensures var w := Run(Start(hasSender), max, es);
            Step(w, max, e).box.flight == w.box.flight && Step(w, max, e).history.sends == w.history.sends
  {
    RunFlow(hasSender, max, es);
    FlightStands(Run(Start(hasSender), max, es), max, e);
  }

  lemma FlightStands(w: World, max: nat, e: Event)
    requires Flow(w.box) && w.box.flight != NoFlight && !e.Crashed? && !e.Answered?
    requires w.box.flight.AtSender? || !(e.Saved? || e.MarkResumed? || e.ResultResumed?)
    ensures Step(w, max, e).box.flight == w.box.flight && Step(w, max, e).history.sends == w.history.sends
  {
    if e.Enqueued? {
    } else if Edits(e) {
      EditFlow(w.box, e);
    } else if Flushes(e) {
      FlushStepFlow(w.box, e);
    } else if e.Saved? && w.box.writes != [] {
      SaveFlight(w.box, e.ok);
    }
  }

  /** An entry being marked or sent is the oldest of its room still in the queue. */
  lemma OnlyHeadsAreSent(hasSender: bool, max: nat, es: seq<Event>, e: Entry)
    requires ClockNeverGoesBack(es)
    ensures var b := Run(Start(hasSender), max, es).box;
            b.flight.Holds() && e in b.entries && e.roomId == b.flight.entry.roomId ==> b.flight.entry.id <= e.id
  {
    RunOrder(hasSender, max, es);
  }

  /** Each room's sends follow its enqueues over the whole run, crashes included, and a resend repeats its draft. */
  lemma SendsFollowEnqueues(hasSender: bool, max: nat, es: seq<Event>, i: nat, j: nat)
    requires ClockNeverGoesBack(es)
    ensures var h := Run(Start(hasSender), max, es).history;
            i < j < |h.sends| ==>
              && (h.sends[i].draft.roomId == h.sends[j].draft.roomId ==> h.sends[i].id <= h.sends[j].id)
              && (h.sends[i].id == h.sends[j].id ==> h.sends[i].draft == h.sends[j].draft)
              && h.sends[j].id in h.drafts && h.drafts[h.sends[j].id] == h.sends[j].draft
  {
    RunOrder(hasSender, max, es);
    var h := Run(Start(hasSender), max, es).history;
    assert i < j < |h.sends| ==> h.sends[j] in h.sends;
  }

  /** A failed or held head blocks its own room and no other. */
  lemma FailedHeadBlocksItsRoomOnly(hasSender: bool, max: nat, es: seq<Event>, head: Entry, x: Entry)
    requires ClockNeverGoesBack(es)
    requires var l := Run(Start(hasSender), max, es).box.entries; head in l && x in l && !Ready(head)
    ensures var l := Run(Start(hasSender), max, es).box.entries;
            && (x.roomId == head.roomId && head.id < x.id ==> x !in PendingQueue(l))
            && (x.roomId != head.roomId && Ready(x) && From(l, x.roomId, x.id) ==> x in PendingQueue(l))
  {
    RunOrder(hasSender, max, es);
    QueueIsReadyHeads(Run(Start(hasSender), max, es).box.entries, x);
  }
}
