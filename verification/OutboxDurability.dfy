/** Once `enqueue` has resolved, nothing short of delivery or removal loses the entry: no crash, no failed save. */
module OutboxDurability {
  import opened Common
  import opened Outboxes
  import opened OutboxRuns

  /** Every queued snapshot from position `p` on holds the entry. */
  ghost predicate QueuedFrom(writes: seq<Write>, p: int, id: nat) {
    forall k | 0 <= p <= k < |writes| :: HasEntry(writes[k].snapshot, id)
  }

  /** The entry is on disk, and neither the live list nor any queued snapshot forgets it. */
  ghost predicate Safe(entries: Entries, disk: Entries, writes: seq<Write>, id: nat) {
    HasEntry(entries, id) && HasEntry(disk, id) && QueuedFrom(writes, 0, id)
  }

  /** The write that carries this entry's own enqueue is followed only by snapshots that hold it. */
  ghost predicate Underway(entries: Entries, writes: seq<Write>, id: nat) {
    forall p | 0 <= p < |writes| && writes[p].waiter == ForEnqueue(id) :: QueuedFrom(writes, p, id) && HasEntry(entries, id)
  }

  ghost predicate Promised(b: Box, h: History, id: nat) {
    id in h.resolved || (id in b.settled && b.settled[id])
  }

  ghost predicate Gone(h: History, id: nat) { id in h.delivered || id in h.dropped }

  /** A still wanted entry that was promised is safe; one still being saved is on its way. */
  ghost predicate Kept(w: World, id: nat) {
    !Gone(w.history, id) ==>
      && (Promised(w.box, w.history, id) ==> Safe(w.box.entries, w.disk, w.box.writes, id))
      && Underway(w.box.entries, w.box.writes, id)
  }

  /** An enqueue is first a queued write, then settled, then resolved; never two of these, and never twice. */
  ghost predicate Booked(w: World, id: nat) {
    var b, h := w.box, w.history;
    && (id in h.resolved ==> id !in b.settled)
    && (forall p | 0 <= p < |b.writes| && b.writes[p].waiter == ForEnqueue(id) ::
          id !in h.resolved && id !in b.settled && id < w.nextId)
    && (forall p, q | 0 <= p < q < |b.writes| :: b.writes[p].waiter != ForEnqueue(id) || b.writes[q].waiter != ForEnqueue(id))
    && (id in h.resolved || id in b.settled ==> id < w.nextId)
  }

  /** At most one write is queued behind the old ones, and it carries no enqueue. */
  ghost predicate Appends(b: Box, b': Box) {
    && b'.settled == b.settled
    && |b.writes| <= |b'.writes| <= |b.writes| + 1 && b'.writes[..|b.writes|] == b.writes
    && (|b'.writes| > |b.writes| ==> !b'.writes[|b.writes|].waiter.ForEnqueue?)
  }

  /** For an id that stays: still listed if it was, and in the appended snapshot if listed. */
  ghost predicate Passes(b: Box, b': Box, id: nat) {
    && Appends(b, b')
    && (HasEntry(b.entries, id) ==> HasEntry(b'.entries, id))
    && (|b'.writes| > |b.writes| && HasEntry(b'.entries, id) ==> HasEntry(b'.writes[|b.writes|].snapshot, id))
  }

  ghost predicate SameBooks(w: World, w': World) {
    w'.disk == w.disk && w'.nextId == w.nextId && w'.history.resolved == w.history.resolved
  }

  lemma AppendsKeepsBooked(w: World, w': World, id: nat)
    requires Booked(w, id) && Appends(w.box, w'.box) && SameBooks(w, w')
    ensures Booked(w', id)
  {
    assert forall k | 0 <= k < |w.box.writes| :: w'.box.writes[k] == w.box.writes[k];
  }

  lemma PassesKeeps(w: World, w': World, id: nat)
    requires Kept(w, id) && !Gone(w.history, id) && Passes(w.box, w'.box, id) && SameBooks(w, w')
    ensures Kept(w', id)
  {
    assert forall k | 0 <= k < |w.box.writes| :: w'.box.writes[k] == w.box.writes[k];
  }

  lemma PersistPasses(b: Box, waiter: Waiter, id: nat)
    requires !waiter.ForEnqueue?
    ensures Passes(b, Persist(b, waiter), id)
  {
    UnheldHas(b.entries, id);
  }

  lemma PatchHas(entries: Entries, x: nat, status: Status, attempts: nat, err: Option<string>, hold: bool, id: nat)
    ensures HasEntry(Patch(entries, x, status, attempts, err, hold), id) <==> HasEntry(entries, id)
  {
    var r := Patch(entries, x, status, attempts, err, hold);
    assert forall i | 0 <= i < |entries| :: r[i].id == entries[i].id;
  }

  lemma PickNextPasses(b: Box, id: nat)
    ensures Passes(b, PickNext(b), id)
  {
    var queue := PendingQueue(b.entries);
    if queue != [] && b.online && b.hasSender && !b.disposed {
      var e := queue[0];
      var marked := Patch(b.entries, e.id, Sending, e.attempts, e.lastError, e.hold);
      PatchHas(b.entries, e.id, Sending, e.attempts, e.lastError, e.hold, id);
      PersistPasses(b.(entries := marked, flight := SavingMark(e.(status := Sending))), ForMark, id);
    }
  }

  lemma FlushPasses(b: Box, id: nat)
    ensures Passes(b, FlushBegin(b), id)
  {
    PickNextPasses(b.(flushing := true), id);
  }

  lemma OutcomeHas(entries: Entries, e: Entry, max: nat, result: SendResult, id: nat)
    requires !(result.Delivered? && e.id == id)
    ensures HasEntry(Outcome(entries, e, max, result), id) <==> HasEntry(entries, id)
  {
    if result.Delivered? {
      WithoutHas(entries, e.id, id);
    } else {
      var r := Outcome(entries, e, max, result);
      assert forall i | 0 <= i < |entries| :: r[i].id == entries[i].id;
    }
  }

  lemma AfterSendPasses(b: Box, max: nat, result: SendResult, id: nat)
    requires b.flight.AtSender? && !(result.Delivered? && b.flight.entry.id == id)
    ensures Passes(b, AfterSend(b, max, result), id)
  {
    if !b.disposed {
      var e := b.flight.entry;
      OutcomeHas(b.entries, e, max, result, id);
      PersistPasses(b.(entries := Outcome(b.entries, e, max, result), timer := b.timer || BacksOff(e, max, result),
                       flight := SavingResult), ForResult, id);
    }
  }

  lemma RetryPasses(b: Box, x: nat, id: nat)
    ensures Passes(b, Retry(b, x), id)
  {
    var found := Find(b.entries, x);
    if found.Some? && found.value.status == Failed {
      var hold := found.value.hold;
      PatchHas(b.entries, x, Pending, 0, None, hold, id);
      PersistPasses(b.(entries := Patch(b.entries, x, Pending, 0, None, hold)), ForFollowUp, id);
    }
  }

  lemma RemovePasses(b: Box, x: nat, id: nat)
    requires id != x
    ensures Passes(b, Remove(b, x), id)
  {
    WithoutHas(b.entries, x, id);
    PersistPasses(b.(entries := Without(b.entries, x)), ForFollowUp, id);
  }

  lemma RemoveRoomPasses(b: Box, room: string, id: nat)
    requires id !in IdsOfRoom(b.entries, room)
    ensures Passes(b, RemoveRoom(b, room), id)
  {
    WithoutRoomHas(b.entries, room, id);
    PersistPasses(b.(entries := WithoutRoom(b.entries, room)), ForOther, id);
  }

  lemma TimerPasses(b: Box, id: nat)
    ensures Passes(b, TimerFired(b), id)
  {
    assert forall i | 0 <= i < |b.entries| :: Unheld(b.entries)[i].id == b.entries[i].id;
    FlushPasses(b.(timer := false, entries := Unheld(b.entries)), id);
  }

  /** Steps that neither enqueue, settle, save nor crash, for an id they do not take out. */
  predicate Ordinary(e: Event) {
    !(e.Crashed? || e.Enqueued? || e.EnqueueResumed? || e.Saved?)
  }

  lemma EditPasses(b: Box, e: Event, id: nat)
    requires Edits(e) && !e.EnqueueResumed?
    requires (e.Removed? ==> e.id != id) && (e.RoomRemoved? ==> id !in IdsOfRoom(b.entries, e.room))
    ensures Passes(b, EditStep(b, e), id)
  {
    match e {
      case Retried(x) => RetryPasses(b, x, id);
      case Removed(x) => RemovePasses(b, x, id);
      case RoomRemoved(room) => RemoveRoomPasses(b, room, id);
      case WasDisposed =>
    }
  }

  lemma EditAppends(b: Box, e: Event)
    requires Edits(e) && !e.EnqueueResumed?
    ensures Appends(b, EditStep(b, e))
  {
    match e {
      case Retried(x) => RetryPasses(b, x, 0);
      case Removed(x) => PersistPasses(b.(entries := Without(b.entries, x)), ForFollowUp, 0);
      case RoomRemoved(room) => PersistPasses(b.(entries := WithoutRoom(b.entries, room)), ForOther, 0);
      case WasDisposed =>
    }
  }

  lemma FlushStepPasses(b: Box, e: Event, id: nat)
    requires Flushes(e)
    ensures Passes(b, FlushStep(b, e), id)
  {
    match e {
      case WentOnline(online) => if !b.disposed && online { FlushPasses(b.(online := true), id); }
      case SenderSet => FlushPasses(b.(hasSender := true), id);
      case Flushed => FlushPasses(b, id);
      case TimerTicked => TimerPasses(b, id);
      case ResultResumed => if b.flight.ResultSaved? { PickNextPasses(b, id); }
    }
  }

  lemma ProgressPasses(b: Box, max: nat, e: Event, id: nat)
    requires e.MarkResumed? || e.Answered?
    requires e.Answered? && e.result.Delivered? && b.flight.AtSender? ==> b.flight.entry.id != id
    ensures Passes(b, ProgressStep(b, max, e), id)
  {
    if e.Answered? && b.flight.AtSender? {
      AfterSendPasses(b, max, e.result, id);
    }
  }

  lemma ProgressAppends(b: Box, max: nat, e: Event)
    requires e.MarkResumed? || e.Answered?
    ensures Appends(b, ProgressStep(b, max, e))
  {
    if e.Answered? && b.flight.AtSender? {
      AfterSendAppends(b, max, e.result);
    }
  }

  lemma OrdinaryStepPasses(w: World, max: nat, e: Event, id: nat)
    requires Ordinary(e) && !Gone(Step(w, max, e).history, id)
    ensures Passes(w.box, Step(w, max, e).box, id)
  {
    assert !Gone(Noted(w.box, w.history, e), id);
    if Edits(e) {
      EditPasses(w.box, e, id);
    } else if Flushes(e) {
      FlushStepPasses(w.box, e, id);
    } else {
      ProgressPasses(w.box, max, e, id);
    }
  }

  lemma OrdinaryStepAppends(w: World, max: nat, e: Event)
    requires Ordinary(e)
    ensures Appends(w.box, Step(w, max, e).box) && SameBooks(w, Step(w, max, e))
  {
    if Edits(e) {
      EditAppends(w.box, e);
    } else if Flushes(e) {
      FlushStepPasses(w.box, e, 0);
    } else {
      ProgressAppends(w.box, max, e);
    }
  }

  lemma AfterSendAppends(b: Box, max: nat, result: SendResult)
    requires b.flight.AtSender?
    ensures Appends(b, AfterSend(b, max, result))
  {
    if !b.disposed {
      var e := b.flight.entry;
      PersistPasses(b.(entries := Outcome(b.entries, e, max, result), timer := b.timer || BacksOff(e, max, result),
                       flight := SavingResult), ForResult, 0);
    }
  }

  lemma CrashKeeps(w: World, max: nat, hasSender: bool, id: nat)
    requires Kept(w, id) && Booked(w, id)
    ensures Kept(Step(w, max, Crashed(hasSender)), id) && Booked(Step(w, max, Crashed(hasSender)), id)
  {
    CrashRestoresDisk(w, max, hasSender);
    ReviveHas(w.disk, id);
  }

  lemma EnqueueKeeps(w: World, d: Draft, now: int, max: nat, id: nat)
    requires Kept(w, id) && Booked(w, id) && !w.box.disposed
    ensures Kept(Step(w, max, Enqueued(d, now)), id) && Booked(Step(w, max, Enqueued(d, now)), id)
  {
    EnqueueBooks(w, Step(w, max, Enqueued(d, now)), Unheld(Step(w, max, Enqueued(d, now)).box.entries), id);
    EnqueueHolds(w.box, Step(w, max, Enqueued(d, now)).box, w.nextId, id);
    if !Gone(w.history, id) {
      EnqueueUnderway(w.box, Step(w, max, Enqueued(d, now)).box, w.nextId, w.disk, id);
    }
  }

  lemma EnqueueBooks(w: World, w': World, snapshot: Entries, id: nat)
    requires Booked(w, id) && w'.box.writes == w.box.writes + [Write(snapshot, ForEnqueue(w.nextId))]
    requires w'.box.settled == w.box.settled && w'.history.resolved == w.history.resolved && w'.nextId == w.nextId + 1
    ensures Booked(w', id)
  {
    assert forall k | 0 <= k < |w.box.writes| :: w'.box.writes[k] == w.box.writes[k];
  }

  lemma EnqueueHolds(b: Box, b': Box, n: nat, id: nat)
    requires |b'.entries| == |b.entries| + 1 && b'.entries[..|b.entries|] == b.entries && b'.entries[|b.entries|].id == n
    ensures HasEntry(b.entries, id) || id == n ==> HasEntry(b'.entries, id)
  {
    assert forall i | 0 <= i < |b.entries| :: b'.entries[i] == b.entries[i];
  }

  lemma EnqueueUnderway(b: Box, b': Box, n: nat, disk: Entries, id: nat)
    requires b'.writes == b.writes + [Write(Unheld(b'.entries), ForEnqueue(n))]
    requires HasEntry(b.entries, id) || id == n ==> HasEntry(b'.entries, id)
    requires Underway(b.entries, b.writes, id)
    ensures Underway(b'.entries, b'.writes, id)
    ensures Safe(b.entries, disk, b.writes, id) ==> Safe(b'.entries, disk, b'.writes, id)
  {
    UnheldHas(b'.entries, id);
    assert forall k | 0 <= k < |b.writes| :: b'.writes[k] == b.writes[k];
  }

  lemma ResumeKeeps(w: World, x: nat, max: nat, id: nat)
    requires Kept(w, id) && Booked(w, id) && x in w.box.settled
    ensures Kept(Step(w, max, EnqueueResumed(x)), id)
  {
    var w' := Step(w, max, EnqueueResumed(x));
    if !w.box.settled[x] {
      WithoutHas(w.box.entries, x, id);
      TakenOutKeeps(w, w', x, id);
    }
  }

  /** The failed enqueue of `x` takes `x` out; nobody was promised that one. */
  lemma TakenOutKeeps(w: World, w': World, x: nat, id: nat)
    requires Kept(w, id) && Booked(w, id) && x in w.box.settled && !w.box.settled[x]
    requires w'.history == w.history && w'.disk == w.disk && w'.box.writes == w.box.writes
    requires w'.box.settled == w.box.settled - {x}
    requires HasEntry(w'.box.entries, id) <==> id != x && HasEntry(w.box.entries, id)
    ensures Kept(w', id)
  {
  }

  lemma ResumeBooks(w: World, x: nat, max: nat, id: nat)
    requires Booked(w, id) && x in w.box.settled
    ensures Booked(Step(w, max, EnqueueResumed(x)), id)
  {
    ResumedBooks(w, Step(w, max, EnqueueResumed(x)), x, id);
  }

  lemma ResumedBooks(w: World, w': World, x: nat, id: nat)
    requires Booked(w, id) && x in w.box.settled && w'.nextId == w.nextId
    requires w'.box.writes == w.box.writes && w'.box.settled == w.box.settled - {x}
    requires w'.history.resolved == w.history.resolved + if w.box.settled[x] then {x} else {}
    ensures Booked(w', id)
  {
  }

  /** One write leaves the queue: what was behind it still holds, and its own snapshot is now the disk. */
  lemma ShiftKeeps(entries: Entries, disk: Entries, writes: seq<Write>, ok: bool, id: nat)
    requires writes != [] && Underway(entries, writes, id)
    ensures Underway(entries, writes[1..], id)
    ensures Safe(entries, disk, writes, id) ==>
              Safe(entries, if ok then writes[0].snapshot else disk, writes[1..], id)
    ensures ok && writes[0].waiter == ForEnqueue(id) ==> Safe(entries, writes[0].snapshot, writes[1..], id)
  {
    var rest := writes[1..];
    assert forall k | 0 <= k < |rest| :: rest[k] == writes[k + 1];
    forall p | 0 <= p < |rest| && rest[p].waiter == ForEnqueue(id) ensures QueuedFrom(rest, p, id) && HasEntry(entries, id) {
      assert QueuedFrom(writes, p + 1, id);
    }
    if writes[0].waiter == ForEnqueue(id) {
      assert QueuedFrom(writes, 0, id);
    }
  }

  lemma SaveKeeps(w: World, ok: bool, max: nat, id: nat)
    requires Kept(w, id) && Booked(w, id) && w.box.writes != []
    ensures Kept(Step(w, max, Saved(ok)), id) && Booked(Step(w, max, Saved(ok)), id)
  {
    SavedStep(w, ok, max);
    SaveDoneShape(w.box, ok);
    var w' := Step(w, max, Saved(ok));
    ShiftBooks(w, w', ok, id);
    if !Gone(w.history, id) {
      ShiftKeeps(w.box.entries, w.disk, w.box.writes, ok, id);
    }
  }

  lemma ShiftBooks(w: World, w': World, ok: bool, id: nat)
    requires Booked(w, id) && w.box.writes != [] && w'.box.writes == w.box.writes[1..]
    requires w'.history == w.history && w'.nextId == w.nextId
    requires w'.box.settled == match w.box.writes[0].waiter
                               case ForEnqueue(x) => w.box.settled[x := ok]
                               case _ => w.box.settled
    ensures Booked(w', id)
  {
    assert forall k | 0 <= k < |w'.box.writes| :: w'.box.writes[k] == w.box.writes[k + 1];
  }

  lemma StepKeepsOne(w: World, max: nat, e: Event, id: nat)
    requires Kept(w, id) && Booked(w, id)
    ensures Kept(Step(w, max, e), id) && Booked(Step(w, max, e), id)
  {
    match e {
      case Crashed(hasSender) => CrashKeeps(w, max, hasSender, id);
      case Enqueued(d, now) => if !w.box.disposed { EnqueueKeeps(w, d, now, max, id); }
      case EnqueueResumed(x) => 
        if x in w.box.settled {
          ResumeBooks(w, x, max, id);
          ResumeKeeps(w, x, max, id);
        }
      case Saved(ok) =>
        if w.box.writes != [] { SaveKeeps(w, ok, max, id); }
      case _ => OrdinaryStepKeeps(w, max, e, id);
    }
  }

  lemma OrdinaryStepKeeps(w: World, max: nat, e: Event, id: nat)
    requires Ordinary(e) && Kept(w, id) && Booked(w, id)
    ensures Kept(Step(w, max, e), id) && Booked(Step(w, max, e), id)
  {
    var w' := Step(w, max, e);
    OrdinaryStepAppends(w, max, e);
    AppendsKeepsBooked(w, w', id);
    if !Gone(w'.history, id) {
      OrdinaryStepPasses(w, max, e, id);
      HistoryGrows(w, max, e);
      PassesKeeps(w, w', id);
    }
  }

  lemma HistoryGrows(w: World, max: nat, e: Event)
    ensures var h, h' := w.history, Step(w, max, e).history;
            h.delivered <= h'.delivered && h.dropped <= h'.dropped && h.resolved <= h'.resolved
  {
  }

  lemma {:induction false} RunKeeps(hasSender: bool, max: nat, es: seq<Event>, id: nat)
    ensures Kept(Run(Start(hasSender), max, es), id) && Booked(Run(Start(hasSender), max, es), id)
  {
    if es != [] {
      RunKeeps(hasSender, max, es[..|es| - 1], id);
      StepKeepsOne(Run(Start(hasSender), max, es[..|es| - 1]), max, es[|es| - 1], id);
    }
  }

  /**
    * Durability: at every point of every run, crashes and failed saves included, an entry whose enqueue
    * resolved is in the last completed snapshot, unless the sender accepted it or it was removed.
    */
  lemma ResolvedEntriesSurvive(hasSender: bool, max: nat, es: seq<Event>, id: nat)
    requires id in Run(Start(hasSender), max, es).history.resolved
    ensures var w := Run(Start(hasSender), max, es);
            || id in w.history.delivered
            || id in w.history.dropped
            || (HasEntry(w.disk, id) && HasEntry(Step(w, max, Crashed(hasSender)).box.entries, id))
  {
    RunKeeps(hasSender, max, es, id);
    var w := Run(Start(hasSender), max, es);
    CrashRestoresDisk(w, max, hasSender);
    ReviveHas(w.disk, id);
  }
}
