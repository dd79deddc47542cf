/** Nothing is lost track of, and the work left is bounded: the retry budget over whole runs. */
module OutboxHealth {
  import opened Common
  import opened Sorting
  import opened Outboxes
  import opened OutboxRuns
  import opened OutboxOrder

  /** A non-failed entry has budget left; every id was drawn. */
  predicate Sane(e: Entry, max: nat, n: nat) { (e.status != Failed ==> e.attempts < max) && e.id < n }

  /** Ids rise along the list, so no id is listed twice; this needs no clock. */
  ghost predicate Rising(l: Entries) { forall i, j | 0 <= i < j < |l| :: l[i].id < l[j].id }

  ghost predicate AllSane(l: Entries, max: nat, n: nat) { Rising(l) && forall e | e in l :: Sane(e, max, n) }

  /** What is written never carries the backoff flag. */
  ghost predicate AllSaved(l: Entries, max: nat, n: nat) { Rising(l) && forall e | e in l :: Sane(e, max, n) && !e.hold }

  ghost predicate Carries(f: Flight, id: nat) { f.Holds() && f.entry.id == id }

  /** A held entry waits for a timer that is armed; a sending one is in flight, or else its mark was lost, and conversely. */
  ghost predicate Calm(e: Entry, b: Box, stranded: set<nat>) {
    && (e.hold ==> e.status == Pending && (b.timer || b.disposed))
    && (e.status == Sending ==> Carries(b.flight, e.id) || e.id in stranded || b.disposed)
    && (e.id in stranded ==> e.status == Sending && !Carries(b.flight, e.id))
  }

  /** The listed entry is still the object in flight. */
  predicate Twin(e: Entry, x: Entry) {
    e.id == x.id ==> e.status == Sending && e.attempts == x.attempts && !e.hold
  }

  ghost predicate Health(b: Box, disk: Entries, n: nat, stranded: set<nat>, max: nat) {
    && AllSane(b.entries, max, n) && AllSaved(disk, max, n)
    && (forall k | 0 <= k < |b.writes| :: AllSaved(b.writes[k].snapshot, max, n))
    && (forall e | e in b.entries :: Calm(e, b, stranded)) && (forall i | i in stranded :: i < n)
    && (b.flight.Holds() ==>
          && Sane(b.flight.entry, max, n) && b.flight.entry.status == Sending && !b.flight.entry.hold
          && forall e | e in b.entries :: Twin(e, b.flight.entry))
  }

  lemma FilterRising(p: Entry -> bool, l: Entries)
    requires Rising(l)
    ensures Rising(Filter(p, l))
  {
    FilterSorted((a: Entry, b: Entry) => a.id < b.id, p, l);
  }

  lemma PatchMembers(l: Entries, x: nat, status: Status, attempts: nat, err: Option<string>, hold: bool, e': Entry) returns (e: Entry)
    requires e' in Patch(l, x, status, attempts, err, hold)
    ensures e in l && e' == if e.id == x then e.(status := status, attempts := attempts, lastError := err, hold := hold) else e
  {
    var r := Patch(l, x, status, attempts, err, hold);
    var i :| 0 <= i < |r| && r[i] == e';
    e := l[i];
  }

  lemma PersistHealth(b: Box, waiter: Waiter, disk: Entries, n: nat, stranded: set<nat>, max: nat)
    requires Health(b, disk, n, stranded, max)
    ensures Health(Persist(b, waiter), disk, n, stranded, max)
  {
    var snapshot := Unheld(b.entries);
    forall e' | e' in snapshot ensures Sane(e', max, n) && !e'.hold {
      var i :| 0 <= i < |snapshot| && snapshot[i] == e';
      assert b.entries[i] in b.entries;
    }
  }

  lemma MarkedHealth(b: Box, e: Entry, disk: Entries, n: nat, stranded: set<nat>, max: nat)
    requires Health(b, disk, n, stranded, max) && !b.flight.Holds() && e in b.entries && Ready(e)
    ensures Health(b.(entries := Patch(b.entries, e.id, Sending, e.attempts, e.lastError, e.hold),
                      flight := SavingMark(e.(status := Sending))), disk, n, stranded, max)
  {
    var marked := Patch(b.entries, e.id, Sending, e.attempts, e.lastError, e.hold);
    var b1 := b.(entries := marked, flight := SavingMark(e.(status := Sending)));
    assert Calm(e, b, stranded);
    forall e' | e' in marked ensures Sane(e', max, n) && Calm(e', b1, stranded) && Twin(e', e) {
      var y := PatchMembers(b.entries, e.id, Sending, e.attempts, e.lastError, e.hold, e');
      assert Calm(y, b, stranded);
    }
  }

  lemma PickNextHealth(b: Box, disk: Entries, n: nat, stranded: set<nat>, max: nat)
    requires Health(b, disk, n, stranded, max) && !b.flight.Holds()
    ensures Health(PickNext(b), disk, n, stranded, max)
  {
    var queue := PendingQueue(b.entries);
    if queue != [] && b.online && b.hasSender && !b.disposed {
      var e := queue[0];
      QueueIsListed(b.entries, e);
      MarkedHealth(b, e, disk, n, stranded, max);
      PersistHealth(b.(entries := Patch(b.entries, e.id, Sending, e.attempts, e.lastError, e.hold),
                       flight := SavingMark(e.(status := Sending))), ForMark, disk, n, stranded, max);
    } else {
      LandHealth(b, disk, n, stranded, max);
    }
  }

  lemma LandHealth(b: Box, disk: Entries, n: nat, stranded: set<nat>, max: nat)
    requires Health(b, disk, n, stranded, max) && !b.flight.Holds()
    ensures Health(Land(b), disk, n, stranded, max)
  {
    forall e | e in b.entries ensures Calm(e, Land(b), stranded) { assert Calm(e, b, stranded); }
  }

  lemma QueueIsListed(l: Entries, e: Entry)
    requires e in PendingQueue(l)
    ensures e in l && Ready(e)
  {
    ReadyHeadsMembers(SortStable(ByOrder, l), e);
    SortPermutes(ByOrder, l);
    SameMembers(SortStable(ByOrder, l), l);
  }

  lemma FlushHealth(b: Box, disk: Entries, n: nat, stranded: set<nat>, max: nat)
    requires Health(b, disk, n, stranded, max) && Flow(b)
    ensures Health(FlushBegin(b), disk, n, stranded, max)
  {
    if !(b.disposed || !b.hasSender || !b.online || b.flushing) {
      PickNextHealth(b.(flushing := true), disk, n, stranded, max);
    }
  }

  lemma SaveHealth(b: Box, ok: bool, disk: Entries, n: nat, stranded: set<nat>, max: nat)
    requires Health(b, disk, n, stranded, max) && b.writes != []
    ensures Health(SaveDone(b, ok), if ok then b.writes[0].snapshot else disk, n, stranded, max)
  {
    SaveDoneShape(b, ok);
    SaveKeepsHold(b, ok);
    var b' := SaveDone(b, ok);
    assert forall k | 0 <= k < |b'.writes| :: b'.writes[k] == b.writes[k + 1];
    forall e | e in b.entries ensures Calm(e, b', stranded) { StillCalm(e, b, b', stranded); }
  }

  lemma StillCalm(e: Entry, b: Box, b': Box, stranded: set<nat>)
    requires Calm(e, b, stranded) && b'.timer == b.timer && b'.disposed == b.disposed
    requires b'.flight.Holds() == b.flight.Holds() && (b.flight.Holds() ==> b'.flight.entry == b.flight.entry)
    ensures Calm(e, b', stranded)
  {
  }

  lemma RevivedSane(l: Entries, max: nat, n: nat)
    requires AllSaved(l, max, n) && max > 0
    ensures AllSaved(Revive(l), max, n)
  {
    forall e' | e' in Revive(l) ensures Sane(e', max, n) && !e'.hold {
      var i :| 0 <= i < |l| && Revive(l)[i] == e';
      assert l[i] in l;
    }
  }

  lemma FreshHealth(l: Entries, next: int, hasSender: bool, disk: Entries, n: nat, max: nat)
    requires AllSaved(l, max, n) && AllSaved(disk, max, n) && forall e | e in l :: e.status != Sending
    ensures Health(NewBox(hasSender).(entries := l, nextOrder := next), disk, n, {}, max)
  {
  }

  lemma CrashHealth(w: World, max: nat, hasSender: bool)
    requires AllSaved(w.disk, max, w.nextId) && max > 0
    ensures Health(Step(w, max, Crashed(hasSender)).box, w.disk, w.nextId, {}, max)
    ensures Step(w, max, Crashed(hasSender)).history.stranded == {}
  {
    CrashRestoresDisk(w, max, hasSender);
    RevivedSane(w.disk, max, w.nextId);
    var b := Step(w, max, Crashed(hasSender)).box;
    FreshHealth(b.entries, b.nextOrder, hasSender, w.disk, w.nextId, max);
  }

  /** Taking entries out harms nothing. */
  lemma FewerHealth(b: Box, l: Entries, disk: Entries, n: nat, stranded: set<nat>, max: nat)
    requires Health(b, disk, n, stranded, max) && Rising(l) && forall e | e in l :: e in b.entries
    ensures Health(b.(entries := l), disk, n, stranded, max)
  {
    forall e | e in l ensures Calm(e, b.(entries := l), stranded) {
      assert Calm(e, b, stranded);
    }
  }

  lemma SettleHealth(b: Box, id: nat, disk: Entries, n: nat, stranded: set<nat>, max: nat)
    requires Health(b, disk, n, stranded, max) && id in b.settled
    ensures Health(EnqueueSettled(b, id), disk, n, stranded, max)
  {
    FilterMembers((e: Entry) => e.id != id, b.entries);
    FilterRising((e: Entry) => e.id != id, b.entries);
    var b1 := b.(settled := b.settled - {id});
    assert forall e | e in b.entries :: Calm(e, b, stranded) ==> Calm(e, b1, stranded);
    FewerHealth(b1, Without(b.entries, id), disk, n, stranded, max);
  }

  lemma RemoveHealth(b: Box, id: nat, disk: Entries, n: nat, stranded: set<nat>, max: nat)
    requires Health(b, disk, n, stranded, max)
    ensures Health(Remove(b, id), disk, n, stranded, max)
  {
    FilterMembers((e: Entry) => e.id != id, b.entries);
    FilterRising((e: Entry) => e.id != id, b.entries);
    FewerHealth(b, Without(b.entries, id), disk, n, stranded, max);
    PersistHealth(b.(entries := Without(b.entries, id)), ForFollowUp, disk, n, stranded, max);
  }

  lemma RemoveRoomHealth(b: Box, room: string, disk: Entries, n: nat, stranded: set<nat>, max: nat)
    requires Health(b, disk, n, stranded, max)
    ensures Health(RemoveRoom(b, room), disk, n, stranded, max)
  {
    FilterMembers((e: Entry) => e.roomId != room, b.entries);
    FilterRising((e: Entry) => e.roomId != room, b.entries);
    FewerHealth(b, WithoutRoom(b.entries, room), disk, n, stranded, max);
    PersistHealth(b.(entries := WithoutRoom(b.entries, room)), ForOther, disk, n, stranded, max);
  }

  /** Only a failed entry is retried, so never the one in flight. */
  lemma RetryHealth(b: Box, id: nat, disk: Entries, n: nat, stranded: set<nat>, max: nat)
    requires Health(b, disk, n, stranded, max) && max > 0
    ensures Health(Retry(b, id), disk, n, stranded, max)
  {
    var found := Find(b.entries, id);
    if found.Some? && found.value.status == Failed {
      var hold := found.value.hold;
      var l := Patch(b.entries, id, Pending, 0, None, hold);
      var b1 := b.(entries := l);
      assert Calm(found.value, b, stranded) && !hold;
      forall e' | e' in l
        ensures Sane(e', max, n) && Calm(e', b1, stranded) && (b.flight.Holds() ==> Twin(e', b.flight.entry))
      {
        var y := PatchMembers(b.entries, id, Pending, 0, None, hold, e');
        assert Calm(y, b, stranded);
        assert b.flight.Holds() ==> Twin(found.value, b.flight.entry) && Twin(y, b.flight.entry);
      }
      PersistHealth(b1, ForFollowUp, disk, n, stranded, max);
    }
  }

  lemma MoreIds(b: Box, disk: Entries, n: nat, stranded: set<nat>, max: nat)
    requires Health(b, disk, n, stranded, max)
    ensures Health(b, disk, n + 1, stranded, max)
  {
  }

  lemma AppendHealth(b: Box, e: Entry, disk: Entries, n: nat, stranded: set<nat>, max: nat)
    requires Health(b, disk, n, stranded, max) && e.id == n && e.status == Pending && e.attempts < max && !e.hold
    ensures Health(b.(entries := b.entries + [e], nextOrder := b.nextOrder + 1), disk, n + 1, stranded, max)
  {
    MoreIds(b, disk, n, stranded, max);
    var b1 := b.(entries := b.entries + [e], nextOrder := b.nextOrder + 1);
    forall x | x in b1.entries ensures x in b.entries || x == e {}
    forall x | x in b.entries ensures Calm(x, b1, stranded) { assert Calm(x, b, stranded); }
    forall i | 0 <= i < |b.entries| ensures b1.entries[i].id < n { assert b1.entries[i] in b.entries; }
  }

  lemma EnqueueHealth(b: Box, d: Draft, now: int, disk: Entries, n: nat, stranded: set<nat>, max: nat)
    requires Health(b, disk, n, stranded, max) && max > 0 && !b.disposed
    ensures Health(Enqueue(b, n, d.roomId, d.clientMessageId, d.payload, now), disk, n + 1, stranded, max)
  {
    var e := Entry(n, b.nextOrder, Pending, d.roomId, d.clientMessageId, d.payload, 0, None, now, false);
    AppendHealth(b, e, disk, n, stranded, max);
    PersistHealth(b.(entries := b.entries + [e], nextOrder := b.nextOrder + 1), ForEnqueue(n), disk, n + 1, stranded, max);
  }

  lemma ReleaseHealth(b: Box, disk: Entries, n: nat, stranded: set<nat>, max: nat)
    requires Health(b, disk, n, stranded, max)
    ensures Health(b.(timer := false, entries := Unheld(b.entries)), disk, n, stranded, max)
  {
    var l := Unheld(b.entries);
    var b1 := b.(timer := false, entries := l);
    forall e' | e' in l
      ensures Sane(e', max, n) && Calm(e', b1, stranded) && (b.flight.Holds() ==> Twin(e', b.flight.entry))
    {
      var i :| 0 <= i < |l| && l[i] == e';
      assert b.entries[i] in b.entries && Calm(b.entries[i], b, stranded);
    }
  }

  lemma TimerHealth(b: Box, disk: Entries, n: nat, stranded: set<nat>, max: nat)
    requires Health(b, disk, n, stranded, max) && Flow(b)
    ensures Health(TimerFired(b), disk, n, stranded, max)
  {
    if b.timer {
      ReleaseHealth(b, disk, n, stranded, max);
      FlushHealth(b.(timer := false, entries := Unheld(b.entries)), disk, n, stranded, max);
    }
  }

  /** A failed save of the mark, or a dispose, abandons the entry where it is. */
  lemma MarkHealth(b: Box, disk: Entries, n: nat, stranded: set<nat>, max: nat)
    requires Health(b, disk, n, stranded, max) && b.flight.MarkSaved?
    ensures Health(AfterMark(b), disk, n, if b.flight.ok then stranded else stranded + {b.flight.entry.id}, max)
  {
    var stranded' := if b.flight.ok then stranded else stranded + {b.flight.entry.id};
    forall e | e in b.entries ensures Calm(e, AfterMark(b), stranded') {
      assert Calm(e, b, stranded);
    }
  }

  lemma OutcomeMembers(b: Box, max: nat, result: SendResult, n: nat, stranded: set<nat>, e': Entry) returns (e: Entry)
    requires b.flight.AtSender? && e' in Outcome(b.entries, b.flight.entry, max, result)
    ensures var x := b.flight.entry;
            && e in b.entries && (e.id != x.id ==> e' == e)
            && (e.id == x.id ==>
                  && !result.Delivered?
                  && e'.attempts == x.attempts + (if result.Unreachable? then 1 else 0)
                  && e'.hold == (x.hold || BacksOff(x, max, result))
                  && e'.status == (if BacksOff(x, max, result) then Pending else Failed) && e'.id == e.id)
  {
    var x := b.flight.entry;
    match result {
      case Delivered =>
        FilterMembers((y: Entry) => y.id != x.id, b.entries);
        e := e';
      case Refused(error) =>
        e := PatchMembers(b.entries, x.id, Failed, x.attempts, Some(error), x.hold, e');
      case Unreachable(error) =>
        var again := BacksOff(x, max, result);
        e := PatchMembers(b.entries, x.id, if again then Pending else Failed, x.attempts + 1, Some(error), again || x.hold, e');
    }
  }

  /** The answer applied to the list, before it is written. */
  lemma AnsweredHealth(b: Box, max: nat, result: SendResult, disk: Entries, n: nat, stranded: set<nat>)
    requires Health(b, disk, n, stranded, max) && b.flight.AtSender?
    ensures var x := b.flight.entry;
            Health(b.(entries := Outcome(b.entries, x, max, result), timer := b.timer || BacksOff(x, max, result),
                      flight := SavingResult), disk, n, stranded, max)
  {
    var x := b.flight.entry;
    var l := Outcome(b.entries, x, max, result);
    var b1 := b.(entries := l, timer := b.timer || BacksOff(x, max, result), flight := SavingResult);
    forall e' | e' in l ensures Sane(e', max, n) && Calm(e', b1, stranded) {
      var e := OutcomeMembers(b, max, result, n, stranded, e');
      assert Calm(e, b, stranded) && Sane(e, max, n);
    }
    OutcomeRising(b.entries, x, max, result);
  }

  lemma OutcomeRising(l: Entries, x: Entry, max: nat, result: SendResult)
    requires Rising(l)
    ensures Rising(Outcome(l, x, max, result))
  {
    FilterRising((e: Entry) => e.id != x.id, l);
  }

  lemma AnswerHealth(b: Box, max: nat, result: SendResult, disk: Entries, n: nat, stranded: set<nat>)
    requires Health(b, disk, n, stranded, max) && b.flight.AtSender?
    ensures Health(AfterSend(b, max, result), disk, n, stranded, max)
  {
    if b.disposed {
      forall e | e in b.entries ensures Calm(e, Land(b), stranded) { assert Calm(e, b, stranded); }
    } else {
      var x := b.flight.entry;
      AnsweredHealth(b, max, result, disk, n, stranded);
      PersistHealth(b.(entries := Outcome(b.entries, x, max, result), timer := b.timer || BacksOff(x, max, result),
                       flight := SavingResult), ForResult, disk, n, stranded, max);
    }
  }

  lemma DisposeHealth(b: Box, disk: Entries, n: nat, stranded: set<nat>, max: nat)
    requires Health(b, disk, n, stranded, max)
    ensures Health(Dispose(b), disk, n, stranded, max)
  {
    forall e | e in b.entries ensures Calm(e, Dispose(b), stranded) { assert Calm(e, b, stranded); }
  }

  ghost predicate Healthy(w: World, max: nat) {
    Flow(w.box) && Health(w.box, w.disk, w.nextId, w.history.stranded, max)
  }

  /** Going online or getting a sender changes no entry's standing. */
  lemma SwitchHealth(b: Box, b': Box, disk: Entries, n: nat, stranded: set<nat>, max: nat)
    requires Health(b, disk, n, stranded, max) && b' == b.(online := b'.online, hasSender := b'.hasSender)
    ensures Health(b', disk, n, stranded, max)
  {
    forall e | e in b.entries ensures Calm(e, b', stranded) { assert Calm(e, b, stranded); }
  }

  lemma OnlineHealth(b: Box, online: bool, disk: Entries, n: nat, stranded: set<nat>, max: nat)
    requires Health(b, disk, n, stranded, max) && Flow(b)
    ensures Health(SetOnline(b, online), disk, n, stranded, max)
  {
    if !b.disposed {
      SwitchHealth(b, b.(online := online), disk, n, stranded, max);
      if online { FlushHealth(b.(online := true), disk, n, stranded, max); }
    }
  }

  lemma SenderHealth(b: Box, disk: Entries, n: nat, stranded: set<nat>, max: nat)
    requires Health(b, disk, n, stranded, max) && Flow(b)
    ensures Health(SetSender(b), disk, n, stranded, max)
  {
    SwitchHealth(b, b.(hasSender := true), disk, n, stranded, max);
    FlushHealth(b.(hasSender := true), disk, n, stranded, max);
  }

  lemma ResultHealth(b: Box, disk: Entries, n: nat, stranded: set<nat>, max: nat)
    requires Health(b, disk, n, stranded, max) && b.flight.ResultSaved?
    ensures Health(AfterResult(b), disk, n, stranded, max)
  {
    if b.flight.ok {
      PickNextHealth(b, disk, n, stranded, max);
    } else {
      LandHealth(b, disk, n, stranded, max);
    }
  }

  lemma EditHealth(b: Box, e: Event, disk: Entries, n: nat, stranded: set<nat>, max: nat)
    requires Health(b, disk, n, stranded, max) && max > 0 && Edits(e)
    ensures Health(EditStep(b, e), disk, n, stranded, max)
  {
    match e {
      case EnqueueResumed(id) => if id in b.settled { SettleHealth(b, id, disk, n, stranded, max); }
      case Retried(id) => RetryHealth(b, id, disk, n, stranded, max);
      case Removed(id) => RemoveHealth(b, id, disk, n, stranded, max);
      case RoomRemoved(room) => RemoveRoomHealth(b, room, disk, n, stranded, max);
      case WasDisposed => DisposeHealth(b, disk, n, stranded, max);
    }
  }

  lemma FlushStepHealth(b: Box, e: Event, disk: Entries, n: nat, stranded: set<nat>, max: nat)
    requires Health(b, disk, n, stranded, max) && Flow(b) && Flushes(e)
    ensures Health(FlushStep(b, e), disk, n, stranded, max)
  {
    match e {
      case WentOnline(online) => OnlineHealth(b, online, disk, n, stranded, max);
      case SenderSet => SenderHealth(b, disk, n, stranded, max);
      case Flushed => FlushHealth(b, disk, n, stranded, max);
      case TimerTicked => TimerHealth(b, disk, n, stranded, max);
      case ResultResumed => if b.flight.ResultSaved? { ResultHealth(b, disk, n, stranded, max); }
    }
  }

  lemma OffRecordHealth(w: World, max: nat, e: Event)
    requires Healthy(w, max) && max > 0 && OffRecord(e)
    ensures Health(Step(w, max, e).box, Step(w, max, e).disk, Step(w, max, e).nextId, Step(w, max, e).history.stranded, max)
  {
    OffRecordStep(w, max, e);
    var b := w.box;
    if Edits(e) {
      EditHealth(b, e, w.disk, w.nextId, w.history.stranded, max);
    } else if Flushes(e) {
      FlushStepHealth(b, e, w.disk, w.nextId, w.history.stranded, max);
    } else if b.flight.AtSender? {
      AnswerHealth(b, max, e.result, w.disk, w.nextId, w.history.stranded);
    }
  }

  lemma SaveStepHealth(w: World, max: nat, ok: bool)
    requires Healthy(w, max)
    ensures Healthy(Step(w, max, Saved(ok)), max)
  {
    if w.box.writes != [] {
      SavedStep(w, ok, max);
      SaveFlow(w.box, ok);
      SaveHealth(w.box, ok, w.disk, w.nextId, w.history.stranded, max);
    }
  }

  lemma MarkStepHealth(w: World, max: nat)
    requires Healthy(w, max)
    ensures Healthy(Step(w, max, MarkResumed), max)
  {
    StepFlow(w, max, MarkResumed);
    if w.box.flight.MarkSaved? {
      MarkHealth(w.box, w.disk, w.nextId, w.history.stranded, max);
    }
  }

  lemma EnqueueStepHealth(w: World, max: nat, d: Draft, now: int)
    requires Healthy(w, max) && max > 0
    ensures Healthy(Step(w, max, Enqueued(d, now)), max)
  {
    if !w.box.disposed {
      EnqueueFlow(w.box, w.nextId, d, now);
      EnqueueHealth(w.box, d, now, w.disk, w.nextId, w.history.stranded, max);
    }
  }

  lemma StepHealth(w: World, max: nat, e: Event)
    requires Healthy(w, max) && max > 0
    ensures Healthy(Step(w, max, e), max)
  {
    match e {
      case Crashed(hasSender) =>
        CrashFlow(w, max, hasSender);
        CrashHealth(w, max, hasSender);
      case Enqueued(d, now) => EnqueueStepHealth(w, max, d, now);
      case Saved(ok) => SaveStepHealth(w, max, ok);
      case MarkResumed => MarkStepHealth(w, max);
      case _ =>
        StepFlow(w, max, e);
        OffRecordHealth(w, max, e);
    }
  }

  lemma {:induction false} RunHealth(hasSender: bool, max: nat, es: seq<Event>)
    requires max > 0
    ensures Healthy(Run(Start(hasSender), max, es), max)
  {
    if es != [] {
      RunHealth(hasSender, max, es[..|es| - 1]);
      StepHealth(Run(Start(hasSender), max, es[..|es| - 1]), max, es[|es| - 1]);
    }
  }

  /**
    * Until it is disposed, the outbox accounts for every entry: a held one has its timer coming, whatever may still
    * be sent has budget left, and an entry is `sending` outside the running flush exactly if the save of its mark
    * failed in this session.
    */
  lemma EveryEntryIsAccountedFor(hasSender: bool, max: nat, es: seq<Event>, e: Entry)
    requires max > 0
    requires var b := Run(Start(hasSender), max, es).box; !b.disposed && e in b.entries
    ensures var w := Run(Start(hasSender), max, es);
            && (e.hold ==> e.status == Pending && w.box.timer)
            && (e.status == Sending && !Carries(w.box.flight, e.id) <==> e.id in w.history.stranded)
            && (e.status != Failed ==> e.attempts < max)
  {
    RunHealth(hasSender, max, es);
    var w := Run(Start(hasSender), max, es);
    assert Calm(e, w.box, w.history.stranded);
  }
}
