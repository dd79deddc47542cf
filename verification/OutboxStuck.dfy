/** The one way an entry gets stuck: the save of its `sending` mark fails. */
module OutboxStuck {
  import opened Common
  import opened Sorting
  import opened Outboxes
  import opened OutboxRuns
  import opened OutboxOrder
  import opened OutboxHealth

  /** `x` heads its room, is marked as being sent, and no flush is sending it or anything else of the room. */
  ghost predicate Stuck(b: Box, x: Entry) {
    && x in b.entries && x.status == Sending && !x.hold && From(b.entries, x.roomId, x.id) && Rising(b.entries)
    && (b.flight.Holds() ==> b.flight.entry.roomId != x.roomId && b.flight.entry.id != x.id)
  }

  /** The save of a mark fails: the flush gives up, and the entry it was about to send is stuck. */
  lemma FailedMarkSaveSticks(hasSender: bool, max: nat, es: seq<Event>, x: Entry)
    requires max > 0 && ClockNeverGoesBack(es)
    requires var b := Run(Start(hasSender), max, es).box;
             b.flight.MarkSaved? && !b.flight.ok && x in b.entries && x.id == b.flight.entry.id && x.roomId == b.flight.entry.roomId
    ensures Stuck(Step(Run(Start(hasSender), max, es), max, MarkResumed).box, x)
  {
    RunOrder(hasSender, max, es);
    RunHealth(hasSender, max, es);
    var w := Run(Start(hasSender), max, es);
    assert Step(w, max, MarkResumed).box == AfterMark(w.box);
    AbandonedMarkSticks(w, max, x);
  }

  lemma AbandonedMarkSticks(w: World, max: nat, x: Entry)
    requires Sequenced(w) && Healthy(w, max)
    requires var b := w.box;
             b.flight.MarkSaved? && !b.flight.ok && x in b.entries && x.id == b.flight.entry.id && x.roomId == b.flight.entry.roomId
    ensures Stuck(AfterMark(w.box), x)
  {
    assert Twin(x, w.box.flight.entry);
  }

  /** What can free a stuck entry: taking it out, a new session, or the failed save of its own enqueue. */
  predicate MayFree(e: Event, x: Entry) {
    e.Crashed? || e == Removed(x.id) || e == RoomRemoved(x.roomId) || e == EnqueueResumed(x.id)
  }

  lemma FilterStuck(b: Box, p: Entry -> bool, x: Entry)
    requires Stuck(b, x) && p(x)
    ensures Stuck(b.(entries := Filter(p, b.entries)), x)
  {
    FilterMembers(p, b.entries);
    FilterRising(p, b.entries);
  }

  /** A list in which only the entries with another id were touched, keys unchanged. */
  lemma PatchStuck(b: Box, l: Entries, x: Entry)
    requires Stuck(b, x) && SameKeys(b.entries, l)
    requires forall i | 0 <= i < |l| && l[i].id == x.id :: l[i] == b.entries[i]
    ensures Stuck(b.(entries := l), x)
  {
    var k :| 0 <= k < |b.entries| && b.entries[k] == x;
    KeyParts(b.entries[k], l[k]);
    assert l[k] in l && l[k] == x;
    SameKeysFrom(b.entries, l, x.roomId, x.id);
    forall i, j | 0 <= i < j < |l| ensures l[i].id < l[j].id {
      KeyParts(b.entries[i], l[i]);
      KeyParts(b.entries[j], l[j]);
    }
  }

  lemma OnlyOne(l: Entries, x: Entry, y: Entry)
    requires Rising(l) && x in l && y in l && x.id == y.id
    ensures x == y
  {
    var i :| 0 <= i < |l| && l[i] == x;
    var j :| 0 <= j < |l| && l[j] == y;
    assert i == j;
  }

  lemma PickNextStuck(b: Box, x: Entry)
    requires Stuck(b, x) && Lined(b.entries)
    ensures Stuck(PickNext(b), x)
  {
    var queue := PendingQueue(b.entries);
    if queue != [] && b.online && b.hasSender && !b.disposed {
      var e := queue[0];
      QueueIsReadyHeads(b.entries, e);
      if e.roomId == x.roomId || e.id == x.id {
        assert e.id == x.id;
        OnlyOne(b.entries, x, e);
        assert false;
      }
      var marked := Patch(b.entries, e.id, Sending, e.attempts, e.lastError, e.hold);
      PatchStuck(b, marked, x);
    }
  }

  lemma FlushStuck(b: Box, x: Entry)
    requires Stuck(b, x) && Lined(b.entries)
    ensures Stuck(FlushBegin(b), x)
  {
    if !(b.disposed || !b.hasSender || !b.online || b.flushing) {
      PickNextStuck(b.(flushing := true), x);
    }
  }

  lemma RetryStuck(b: Box, id: nat, x: Entry)
    requires Stuck(b, x)
    ensures Stuck(Retry(b, id), x)
  {
    var found := Find(b.entries, id);
    if found.Some? && found.value.status == Failed {
      OtherFailed(b, found.value, x);
      PatchOtherStuck(b, id, Pending, 0, None, found.value.hold, x);
    }
  }

  lemma OtherFailed(b: Box, y: Entry, x: Entry)
    requires Stuck(b, x) && y in b.entries && y.status == Failed
    ensures y.id != x.id
  {
    if y.id == x.id {
      OnlyOne(b.entries, x, y);
    }
  }

  lemma PatchOtherStuck(b: Box, id: nat, status: Status, attempts: nat, err: Option<string>, hold: bool, x: Entry)
    requires Stuck(b, x) && id != x.id
    ensures Stuck(b.(entries := Patch(b.entries, id, status, attempts, err, hold)), x)
  {
    var l := Patch(b.entries, id, status, attempts, err, hold);
    assert SameKeys(b.entries, l);
    PatchStuck(b, l, x);
  }

  lemma OutcomeStuck(b: Box, max: nat, result: SendResult, x: Entry)
    requires Stuck(b, x) && b.flight.AtSender?
    ensures Stuck(b.(entries := Outcome(b.entries, b.flight.entry, max, result)), x)
  {
    var y := b.flight.entry;
    if result.Delivered? {
      FilterStuck(b, (e: Entry) => e.id != y.id, x);
    } else {
      var l := Outcome(b.entries, y, max, result);
      assert SameKeys(b.entries, l);
      PatchStuck(b, l, x);
    }
  }

  lemma EnqueueStuck(b: Box, id: nat, d: Draft, now: int, x: Entry)
    requires Stuck(b, x) && !b.disposed && forall e | e in b.entries :: e.id < id
    ensures Stuck(Enqueue(b, id, d.roomId, d.clientMessageId, d.payload, now), x)
  {
    var b' := Enqueue(b, id, d.roomId, d.clientMessageId, d.payload, now);
    assert forall i | 0 <= i < |b.entries| :: b'.entries[i] in b.entries;
  }

  lemma TimerStuck(b: Box, x: Entry)
    requires Stuck(b, x) && Lined(b.entries)
    ensures Stuck(TimerFired(b), x)
  {
    if b.timer {
      var l := Unheld(b.entries);
      assert SameKeys(b.entries, l);
      forall i | 0 <= i < |l| && l[i].id == x.id ensures l[i] == b.entries[i] {
        OnlyOne(b.entries, x, b.entries[i]);
      }
      PatchStuck(b, l, x);
      LinedAgain(b.entries, l);
      FlushStuck(b.(timer := false, entries := l), x);
    }
  }

  lemma LinedAgain(l: Entries, l': Entries)
    requires Lined(l) && SameKeys(l, l')
    ensures Lined(l')
  {
    forall i, j | 0 <= i < j < |l'| ensures Before(l'[i], l'[j]) {
      KeyParts(l[i], l'[i]);
      KeyParts(l[j], l'[j]);
    }
  }

  lemma EditStuck(b: Box, e: Event, x: Entry)
    requires Stuck(b, x) && !MayFree(e, x) && Edits(e)
    ensures Stuck(EditStep(b, e), x)
  {
    match e {
      case EnqueueResumed(id) => if id in b.settled { SettleStuck(b, id, x); }
      case Retried(id) => RetryStuck(b, id, x);
      case Removed(id) => FilterStuck(b, (y: Entry) => y.id != id, x);
      case RoomRemoved(room) => FilterStuck(b, (y: Entry) => y.roomId != room, x);
      case WasDisposed =>
    }
  }

  lemma SettleStuck(b: Box, id: nat, x: Entry)
    requires Stuck(b, x) && id != x.id && id in b.settled
    ensures Stuck(EnqueueSettled(b, id), x)
  {
    FilterStuck(b, (y: Entry) => y.id != id, x);
    assert EnqueueSettled(b, id) ==
           (if b.settled[id] then b else b.(entries := Without(b.entries, id))).(settled := b.settled - {id});
  }

  lemma FlushStepStuck(b: Box, e: Event, x: Entry)
    requires Stuck(b, x) && Lined(b.entries) && Flushes(e)
    ensures Stuck(FlushStep(b, e), x)
  {
    match e {
      case WentOnline(online) => if !b.disposed && online { FlushStuck(b.(online := true), x); }
      case SenderSet => FlushStuck(b.(hasSender := true), x);
      case Flushed => FlushStuck(b, x);
      case TimerTicked => TimerStuck(b, x);
      case ResultResumed => if b.flight.ResultSaved? && b.flight.ok { PickNextStuck(b, x); }
    }
  }

  lemma ProgressStuck(b: Box, max: nat, e: Event, x: Entry)
    requires Stuck(b, x) && Progresses(e)
    ensures Stuck(ProgressStep(b, max, e), x)
  {
    match e {
      case Saved(ok) =>
        if b.writes != [] {
          SaveDoneShape(b, ok);
          SaveFlight(b, ok);
        }
      case MarkResumed =>
      case Answered(result) => if b.flight.AtSender? { OutcomeStuck(b, max, result, x); }
    }
  }

  lemma StepStuck(w: World, max: nat, e: Event, x: Entry)
    requires Sequenced(w) && Stuck(w.box, x) && !MayFree(e, x)
    ensures Stuck(Step(w, max, e).box, x)
  {
    if e.Enqueued? {
      if !w.box.disposed { EnqueueStuck(w.box, w.nextId, e.draft, e.now, x); }
    } else if Edits(e) {
      EditStuck(w.box, e, x);
    } else if Flushes(e) {
      FlushStepStuck(w.box, e, x);
    } else {
      ProgressStuck(w.box, max, e, x);
    }
  }

  /** Only sends for other rooms were added. */
  ghost predicate RoomSilent(sends: seq<Sent>, sends': seq<Sent>, room: string) {
    |sends| <= |sends'| && forall i | |sends| <= i < |sends'| :: sends'[i].draft.roomId != room
  }

  lemma StepSends(w: World, max: nat, e: Event, x: Entry, sends: seq<Sent>)
    requires Stuck(w.box, x) && RoomSilent(sends, w.history.sends, x.roomId)
    ensures RoomSilent(sends, Step(w, max, e).history.sends, x.roomId)
  {
  }

  /** Every enqueue happens no earlier, by the local clock, than the one before it. */
  ghost predicate Punctual(w: World, max: nat, es: seq<Event>) {
    es == [] || (Punctual(w, max, es[..|es| - 1]) && OnTime(Run(w, max, es[..|es| - 1]), es[|es| - 1]))
  }

  /** A stuck entry stays `sending` and keeps its whole room unsent, until it is taken out or the session ends. */
  lemma {:induction false} StuckStaysStuck(w: World, max: nat, es: seq<Event>, x: Entry)
    requires Sequenced(w) && Punctual(w, max, es)
    requires Stuck(w.box, x) && forall e | e in es :: !MayFree(e, x)
    ensures Sequenced(Run(w, max, es)) && Stuck(Run(w, max, es).box, x)
    ensures RoomSilent(w.history.sends, Run(w, max, es).history.sends, x.roomId)
  {
    if es != [] {
      var init, last := es[..|es| - 1], es[|es| - 1];
      assert es == init + [last];
      StuckStaysStuck(w, max, init, x);
      StepOrder(Run(w, max, init), max, last);
      StepStuck(Run(w, max, init), max, last, x);
      StepSends(Run(w, max, init), max, last, x, w.history.sends);
    }
  }

  function FirstEntry(d: Draft): Entry {
    Entry(0, 1, Pending, d.roomId, d.clientMessageId, d.payload, 0, None, 0, false)
  }

  /** The world with the first message queued, before its write is answered. */
  lemma FirstEntryWritten(d: Draft, max: nat)
    ensures var w := Step(Step(Start(true), max, WentOnline(true)), max, Enqueued(d, 0));
            w.box == NewBox(true).(online := true, entries := [FirstEntry(d)], nextOrder := 2,
                                   writes := [Write([FirstEntry(d)], ForEnqueue(0))])
  {
    NothingToFlush();
    var w := Step(Start(true), max, WentOnline(true));
    assert w.box == BoxStep(NewBox(true), max, WentOnline(true)) == SetOnline(NewBox(true), true);
    FirstEnqueue(d);
  }

  lemma FirstEnqueue(d: Draft)
    ensures Enqueue(NewBox(true).(online := true), 0, d.roomId, d.clientMessageId, d.payload, 0) ==
            NewBox(true).(online := true, entries := [FirstEntry(d)], nextOrder := 2,
                          writes := [Write([FirstEntry(d)], ForEnqueue(0))])
  {
    var e := FirstEntry(d);
    assert [] + [e] == [e];
    assert Unheld([e]) == [e];
    assert [] + [Write([e], ForEnqueue(0))] == [Write([e], ForEnqueue(0))];
  }

  lemma FirstEntryQueued(d: Draft, max: nat)
    ensures var w := Step(Step(Step(Start(true), max, WentOnline(true)), max, Enqueued(d, 0)), max, Saved(true));
            w.box == NewBox(true).(online := true, entries := [FirstEntry(d)], nextOrder := 2, settled := map[0 := true])
  {
    FirstEntryWritten(d, max);
    var w := Step(Step(Start(true), max, WentOnline(true)), max, Enqueued(d, 0));
    SavedStep(w, true, max);
    FirstSaved(w.box, FirstEntry(d));
  }

  lemma FirstSaved(b: Box, e: Entry)
    requires b.writes == [Write([e], ForEnqueue(0))] && b.settled == map[]
    ensures SaveDone(b, true) == b.(writes := [], settled := map[0 := true])
  {
    assert b.writes[1..] == [];
  }

  lemma NothingToFlush()
    ensures SetOnline(NewBox(true), true) == NewBox(true).(online := true)
  {
  }

  lemma FirstEntryMarked(b: Box, e: Entry)
    requires b == NewBox(true).(online := true, entries := [e], nextOrder := 2, settled := b.settled) && Ready(e)
    ensures var marked := e.(status := Sending);
            FlushBegin(b) == b.(entries := [marked], flushing := true, flight := SavingMark(marked),
                                writes := [Write(Unheld([marked]), ForMark)])
  {
    QueueIsReadyHeads([e], e);
    assert PendingQueue([e])[0] == e by {
      QueueIsListed([e], PendingQueue([e])[0]);
    }
    assert Patch([e], e.id, Sending, e.attempts, e.lastError, e.hold) == [e.(status := Sending)];
  }

  lemma MarkSaveFails(w: World, max: nat, x: Entry)
    requires w.box.writes != [] && w.box.writes[0].waiter.ForMark? && w.box.flight == SavingMark(x) && !w.box.disposed
    ensures var b := Step(Step(w, max, Saved(false)), max, MarkResumed).box; b.entries == w.box.entries && b.flight == NoFlight
  {
    SavedStep(w, false, max);
    SaveDoneShape(w.box, false);
    SaveFlight(w.box, false);
  }

  lemma FlushedStep(w: World, max: nat)
    ensures Step(w, max, Flushed).box == FlushBegin(w.box)
  {
    assert BoxStep(w.box, max, Flushed) == FlushStep(w.box, Flushed);
  }

  lemma AloneIsStuck(b: Box, x: Entry)
    requires b.entries == [x] && x.status == Sending && !x.hold && b.flight == NoFlight
    ensures Stuck(b, x)
  {
  }

  /** One queued entry, one flush whose save fails. */
  lemma FailedFlushSticks(w: World, max: nat, e: Entry)
    requires w.box == NewBox(true).(online := true, entries := [e], nextOrder := 2, settled := w.box.settled) && Ready(e)
    ensures var b := Step(Step(Step(w, max, Flushed), max, Saved(false)), max, MarkResumed).box;
            var x := e.(status := Sending);
            b.entries == [x] && Stuck(b, x) && b.flight == NoFlight
  {
    var x := e.(status := Sending);
    FlushedStep(w, max);
    FirstEntryMarked(w.box, e);
    MarkSaveFails(Step(w, max, Flushed), max, x);
    AloneIsStuck(Step(Step(Step(w, max, Flushed), max, Saved(false)), max, MarkResumed).box, x);
  }

  /** Six steps that get there: one message, one failed write. */
  lemma OneFailedWriteIsEnough(d: Draft, max: nat)
    ensures var w0 := Step(Step(Start(true), max, WentOnline(true)), max, Enqueued(d, 0));
            var w1 := Step(Step(w0, max, Saved(true)), max, Flushed);
            var w2 := Step(Step(w1, max, Saved(false)), max, MarkResumed);
            |w2.box.entries| == 1 && Stuck(w2.box, w2.box.entries[0]) && w2.box.flight == NoFlight
  {
    FirstEntryQueued(d, max);
    FailedFlushSticks(Step(Step(Step(Start(true), max, WentOnline(true)), max, Enqueued(d, 0)), max, Saved(true)),
                      max, FirstEntry(d));
  }
}
