/** Nothing that could be sent is forgotten: what wakes a flush, and the failed writes after which nothing does. */
module OutboxRest {
  import opened Common
  import opened Sorting
  import opened Outboxes
  import opened OutboxRuns
  import opened OutboxOrder
  import opened OutboxHealth
  import opened OutboxClock

  /** Something could be sent now, and no flush is at it. */
  predicate Idle(b: Box) { b.online && b.hasSender && !b.disposed && !b.flushing && PendingQueue(b.entries) != [] }

  /** A call that flushes when it comes back waits for one of these writes. */
  predicate CallWaits(writes: seq<Write>) { exists w | w in writes :: w.waiter.ForEnqueue? || w.waiter.ForFollowUp? }

  /** A call that flushes when it comes back is still out. */
  predicate CallOut(b: Box) { b.settled != map[] || CallWaits(b.writes) }

  /** `owed` counts the calls that are back and have yet to flush. */
  predicate Due(b: Box, owed: nat) { owed > 0 || b.timer || CallOut(b) }

  predicate Forgotten(b: Box, owed: nat) { Idle(b) && !Due(b, owed) }

  /** A call comes back with its write done, so its own `flush()` is next. */
  predicate ComesBack(b: Box, e: Event) {
    || (e.EnqueueResumed? && e.id in b.settled && b.settled[e.id])
    || (e.Saved? && e.ok && b.writes != [] && b.writes[0].waiter.ForFollowUp?)
  }

  /** A failed write is reported to the flush or the call that waited for it, which then flushes no more. */
  predicate GivesUp(b: Box, e: Event) {
    || (e.MarkResumed? && b.flight.MarkSaved? && !b.flight.ok)
    || (e.ResultResumed? && b.flight.ResultSaved? && !b.flight.ok)
    || (e.EnqueueResumed? && e.id in b.settled && !b.settled[e.id])
    || (e.Saved? && !e.ok && b.writes != [] && b.writes[0].waiter.ForFollowUp?)
  }

  /** One flush discharges at most one of the calls that owe one. */
  function OwedAfter(b: Box, owed: nat, e: Event): nat {
    if e.Crashed? then 0 else if ComesBack(b, e) then owed + 1 else if e.Flushed? && owed > 0 then owed - 1 else owed
  }

  function Owed(hasSender: bool, max: nat, es: seq<Event>): nat {
    if es == [] then 0
    else OwedAfter(Run(Start(hasSender), max, es[..|es| - 1]).box, Owed(hasSender, max, es[..|es| - 1]), es[|es| - 1])
  }

  ghost predicate ForgottenAt(hasSender: bool, max: nat, es: seq<Event>) {
    Forgotten(Run(Start(hasSender), max, es).box, Owed(hasSender, max, es))
  }

  // ---- one step ----

  lemma PickNextTakesUp(b: Box)
    requires b.flushing
    ensures !Idle(PickNext(b))
  {
  }

  lemma FlushTakesUp(b: Box)
    ensures !Idle(FlushBegin(b))
  {
    if !(b.disposed || !b.hasSender || !b.online || b.flushing) {
      PickNextTakesUp(b.(flushing := true));
    }
  }

  lemma FlushStepTakesUp(b: Box, e: Event, owed: nat)
    requires Flow(b) && Flushes(e) && !GivesUp(b, e) && !Forgotten(b, owed)
    ensures !Forgotten(FlushStep(b, e), OwedAfter(b, owed, e))
  {
    match e {
      case WentOnline(online) => FlushTakesUp(b.(online := true));
      case SenderSet => FlushTakesUp(b.(hasSender := true));
      case Flushed => FlushTakesUp(b);
      case TimerTicked => FlushTakesUp(b.(timer := false, entries := Unheld(b.entries)));
      case ResultResumed => if b.flight.ResultSaved? { PickNextTakesUp(b); }
    }
  }

  lemma PersistIsOut(b: Box, waiter: Waiter)
    requires !b.disposed && (waiter.ForEnqueue? || waiter.ForFollowUp?)
    ensures CallOut(Persist(b, waiter))
  {
    var b' := Persist(b, waiter);
    assert b'.writes[|b.writes|].waiter == waiter;
    assert b'.writes[|b.writes|] in b'.writes;
  }

  /** Taking a room away makes nothing ready elsewhere. */
  lemma RoomRemovalReadiesNothing(b: Box, room: string)
    requires Ranked(b.entries) && PendingQueue(WithoutRoom(b.entries, room)) != []
    ensures PendingQueue(b.entries) != []
  {
    var l := WithoutRoom(b.entries, room);
    var e := PendingQueue(l)[0];
    FilterMembers((y: Entry) => y.roomId != room, b.entries);
    QueuedIsLeast(l, e);
    forall y | y in b.entries && y.roomId == e.roomId ensures ByOrder(e, y) { assert y in l; }
    QueueIsLeast(b.entries, e);
  }

  lemma RoomRemovedTakesUp(b: Box, room: string, owed: nat)
    requires Ranked(b.entries) && !Forgotten(b, owed)
    ensures !Forgotten(RemoveRoom(b, room), owed)
  {
    var b' := RemoveRoom(b, room);
    if Idle(b') {
      RoomRemovalReadiesNothing(b, room);
      assert forall w | w in b.writes :: w in b'.writes;
    }
  }

  lemma RetriedTakesUp(b: Box, id: nat, owed: nat)
    requires !Forgotten(b, owed)
    ensures !Forgotten(Retry(b, id), owed)
  {
    var found := Find(b.entries, id);
    if found.Some? && found.value.status == Failed && !b.disposed {
      PersistIsOut(b.(entries := Patch(b.entries, id, Pending, 0, None, found.value.hold)), ForFollowUp);
    }
  }

  lemma RemovedTakesUp(b: Box, id: nat, owed: nat)
    ensures !Forgotten(Remove(b, id), owed)
  {
    if !b.disposed {
      PersistIsOut(b.(entries := Without(b.entries, id)), ForFollowUp);
    }
  }

  lemma ResumedTakesUp(b: Box, id: nat, owed: nat)
    requires !GivesUp(b, EnqueueResumed(id)) && !Forgotten(b, owed)
    ensures !Forgotten(EditStep(b, EnqueueResumed(id)), OwedAfter(b, owed, EnqueueResumed(id)))
  {
  }

  lemma EditTakesUp(b: Box, e: Event, owed: nat)
    requires Ranked(b.entries) && Edits(e) && !GivesUp(b, e) && !Forgotten(b, owed)
    ensures !Forgotten(EditStep(b, e), OwedAfter(b, owed, e))
  {
    if e.EnqueueResumed? {
      ResumedTakesUp(b, e.id, owed);
    } else if e.Retried? {
      RetriedTakesUp(b, e.id, owed);
    } else if e.Removed? {
      RemovedTakesUp(b, e.id, owed);
    } else if e.RoomRemoved? {
      RoomRemovedTakesUp(b, e.room, owed);
    }
  }

  /** A write that is done leaves its caller either still to come back or owing a flush. */
  lemma SavedTakesUp(b: Box, ok: bool, owed: nat)
    requires Flow(b) && b.writes != [] && !GivesUp(b, Saved(ok)) && !Forgotten(b, owed)
    ensures !Forgotten(SaveDone(b, ok), OwedAfter(b, owed, Saved(ok)))
  {
    var b' := SaveDone(b, ok);
    var waiter := b.writes[0].waiter;
    assert b'.flushing == b.flushing && b'.entries == b.entries;
    if Idle(b') && !b.timer && owed == 0 {
      assert CallOut(b);
      if waiter.ForEnqueue? {
        assert waiter.id in b'.settled;
      } else if b.settled == map[] && !waiter.ForFollowUp? {
        var w :| w in b.writes && (w.waiter.ForEnqueue? || w.waiter.ForFollowUp?);
        var k :| 0 <= k < |b.writes| && b.writes[k] == w;
        assert b'.writes[k - 1] == w;
      }
    }
  }

  lemma ProgressTakesUp(b: Box, max: nat, e: Event, owed: nat)
    requires Flow(b) && Progresses(e) && !GivesUp(b, e) && !Forgotten(b, owed)
    ensures !Forgotten(ProgressStep(b, max, e), OwedAfter(b, owed, e))
  {
    match e {
      case Saved(ok) => if b.writes != [] { SavedTakesUp(b, ok, owed); }
      case MarkResumed =>
      case Answered(result) => if b.flight.AtSender? { AnswerTakesUp(b, max, result); }
    }
  }

  lemma AnswerTakesUp(b: Box, max: nat, result: SendResult)
    requires Flow(b) && b.flight.AtSender?
    ensures !Idle(AfterSend(b, max, result))
  {
  }

  lemma EnqueuedTakesUp(b: Box, id: nat, d: Draft, now: int, owed: nat)
    requires !b.disposed
    ensures !Forgotten(Enqueue(b, id, d.roomId, d.clientMessageId, d.payload, now), owed)
  {
    var e := Entry(id, b.nextOrder, Pending, d.roomId, d.clientMessageId, d.payload, 0, None, now, false);
    PersistIsOut(b.(entries := b.entries + [e], nextOrder := b.nextOrder + 1), ForEnqueue(id));
  }

  /** Only a failed write that is given up on can leave something ready with nothing to wake a flush. */
  lemma StepTakesUp(w: World, max: nat, e: Event, owed: nat)
    requires Flow(w.box) && Numbered(w.box, w.disk) && !GivesUp(w.box, e) && !Forgotten(w.box, owed)
    ensures !Forgotten(Step(w, max, e).box, OwedAfter(w.box, owed, e))
  {
    if e.Crashed? {
      CrashRestoresDisk(w, max, e.hasSender);
    } else if e.Enqueued? {
      if !w.box.disposed { EnqueuedTakesUp(w.box, w.nextId, e.draft, e.now, owed); }
    } else if Edits(e) {
      EditTakesUp(w.box, e, owed);
    } else if Flushes(e) {
      FlushStepTakesUp(w.box, e, owed);
    } else {
      ProgressTakesUp(w.box, max, e, owed);
    }
  }

  // ---- runs ----

  /**
    * What giving a failed write up must find to leave something forgotten: the outbox could send, no timer, owed flush
    * or other call will make it, and the queue the step leaves behind is not empty.
    */
  predicate Exposes(b: Box, e: Event, owed: nat) {
    && b.online && b.hasSender && !b.disposed && !b.timer && owed == 0
    && match e
       case MarkResumed => !CallOut(b) && PendingQueue(b.entries) != []
       case ResultResumed => !CallOut(b) && PendingQueue(b.entries) != []
       case EnqueueResumed(id) =>
         !b.flushing && b.settled - {id} == map[] && !CallWaits(b.writes) && PendingQueue(Without(b.entries, id)) != []
       case Saved(_) =>
         && !b.flushing && b.settled == map[] && b.writes != [] && !CallWaits(b.writes[1..])
         && PendingQueue(b.entries) != []
       case _ => false
  }

  /** What puts it right: a flush, a call that will flush, an outbox that may not send, or nothing ready any more. */
  predicate PutsRight(b: Box, e: Event) {
    match e
    case Crashed(_) => true
    case Enqueued(_, _) => true
    case Removed(_) => true
    case WasDisposed => true
    case WentOnline(_) => true
    case SenderSet => true
    case Flushed => true
    case Retried(id) => var found := Find(b.entries, id); found.Some? && found.value.status == Failed
    case RoomRemoved(room) => PendingQueue(WithoutRoom(b.entries, room)) == []
    case _ => false
  }

  /** A failed write given up on leaves something forgotten exactly if it exposes it. */
  lemma GivingUpForgetsIff(w: World, max: nat, e: Event, owed: nat)
    requires Flow(w.box) && GivesUp(w.box, e)
    ensures Forgotten(Step(w, max, e).box, OwedAfter(w.box, owed, e)) <==> Exposes(w.box, e, owed)
  {
    match e {
      case MarkResumed => assert BoxStep(w.box, max, e) == Land(w.box);
      case ResultResumed => assert BoxStep(w.box, max, e) == Land(w.box);
      case EnqueueResumed(id) => assert BoxStep(w.box, max, e) == EnqueueSettled(w.box, id);
      case Saved(ok) => assert BoxStep(w.box, max, e) == SaveDone(w.box, ok);
    }
  }

  /** While something is forgotten nothing is left to give up, and a step ends it exactly if it puts it right. */
  lemma PutRightIff(w: World, max: nat, e: Event, owed: nat)
    requires Flow(w.box) && Forgotten(w.box, owed)
    ensures owed == 0 && !GivesUp(w.box, e)
    ensures Forgotten(Step(w, max, e).box, OwedAfter(w.box, owed, e)) <==> !PutsRight(w.box, e)
  {
    NothingToGiveUp(w.box, e);
    if !Wakes(e) {
      ForgottenStaysOne(w, max, e);
    } else if e.Crashed? {
      CrashRestoresDisk(w, max, e.hasSender);
    } else if e.Enqueued? {
      EnqueuedTakesUp(w.box, w.nextId, e.draft, e.now, owed);
    } else if Edits(e) {
      EditPutsRight(w.box, e);
    } else {
      FlushPutsRight(w.box, e);
    }
  }

  lemma NothingToGiveUp(b: Box, e: Event)
    requires Flow(b) && Idle(b) && !CallOut(b)
    ensures !GivesUp(b, e) && !ComesBack(b, e)
  {
    if b.writes != [] {
      assert b.writes[0] in b.writes;
    }
  }

  lemma EditPutsRight(b: Box, e: Event)
    requires Forgotten(b, 0) && (e.Retried? || e.Removed? || e.RoomRemoved? || e.WasDisposed?)
    ensures Forgotten(EditStep(b, e), 0) <==> !PutsRight(b, e)
  {
    if e.Removed? {
      RemovedTakesUp(b, e.id, 0);
    } else if e.Retried? {
      RetryPutsRight(b, e.id);
    } else if e.RoomRemoved? {
      RoomPutsRight(b, e.room);
    }
  }

  lemma RetryPutsRight(b: Box, id: nat)
    requires Forgotten(b, 0)
    ensures Forgotten(Retry(b, id), 0) <==> !PutsRight(b, Retried(id))
  {
    var found := Find(b.entries, id);
    if found.Some? && found.value.status == Failed {
      PersistIsOut(b.(entries := Patch(b.entries, id, Pending, 0, None, found.value.hold)), ForFollowUp);
    } else {
      assert Retry(b, id) == b;
    }
  }

  lemma RoomPutsRight(b: Box, room: string)
    requires Forgotten(b, 0)
    ensures Forgotten(RemoveRoom(b, room), 0) <==> !PutsRight(b, RoomRemoved(room))
  {
    var b' := RemoveRoom(b, room);
    assert b'.writes == b.writes + [Write(Unheld(b'.entries), ForOther)];
    assert !CallWaits(b'.writes);
  }

  lemma FlushPutsRight(b: Box, e: Event)
    requires Forgotten(b, 0) && (e.WentOnline? || e.SenderSet? || e.Flushed?)
    ensures !Idle(FlushStep(b, e))
  {
    FlushTakesUp(b.(online := true));
    FlushTakesUp(b.(hasSender := true));
    FlushTakesUp(b);
  }

  /** A failed write was given up on and exposed something, and no step since has put that right. */
  predicate NeverPutRight(hasSender: bool, max: nat, es: seq<Event>) {
    && es != []
    && var init, last := es[..|es| - 1], es[|es| - 1];
       var b := Run(Start(hasSender), max, init).box;
       if NeverPutRight(hasSender, max, init) then !PutsRight(b, last)
       else GivesUp(b, last) && Exposes(b, last, Owed(hasSender, max, init))
  }

  /**
    * Online, with a sender and not disposed, nothing ready is without a flush, a timer, or a call that will flush;
    * exactly unless a failed write was given up on that exposed it, and no step has put that right since.
    */
  lemma {:induction false} NothingIsForgottenUnless(hasSender: bool, max: nat, es: seq<Event>)
    ensures ForgottenAt(hasSender, max, es) <==> NeverPutRight(hasSender, max, es)
  {
    if es != [] {
      var init, last := es[..|es| - 1], es[|es| - 1];
      var w := Run(Start(hasSender), max, init);
      var owed := Owed(hasSender, max, init);
      NothingIsForgottenUnless(hasSender, max, init);
      RunFlow(hasSender, max, init);
      RunNumbered(hasSender, max, init);
      if Forgotten(w.box, owed) {
        PutRightIff(w, max, last, owed);
      } else if GivesUp(w.box, last) {
        GivingUpForgetsIff(w, max, last, owed);
      } else {
        StepTakesUp(w, max, last, owed);
      }
    }
  }

  /** Everything that may put it right: work, a change of the outbox's standing, or an end. */
  predicate Wakes(e: Event) {
    || e.Crashed? || e.Enqueued? || e.Retried? || e.Removed? || e.RoomRemoved? || e.WasDisposed?
    || e.WentOnline? || e.SenderSet? || e.Flushed?
  }

  /** Nothing else does: no write, no answer and no timer comes to help. */
  lemma {:induction false} ForgottenStays(w: World, max: nat, es: seq<Event>)
    requires Flow(w.box) && Forgotten(w.box, 0) && forall e | e in es :: !Wakes(e)
    ensures Flow(Run(w, max, es).box) && Forgotten(Run(w, max, es).box, 0)
    ensures Run(w, max, es).box.entries == w.box.entries && Run(w, max, es).history.sends == w.history.sends
  {
    if es != [] {
      var n := |es| - 1;
      assert es[n] in es;
      ForgottenStays(w, max, es[..n]);
      ForgottenStaysOne(Run(w, max, es[..n]), max, es[n]);
    }
  }

  lemma ForgottenStaysOne(w: World, max: nat, e: Event)
    requires Flow(w.box) && Forgotten(w.box, 0) && !Wakes(e)
    ensures var w' := Step(w, max, e);
            Flow(w'.box) && Forgotten(w'.box, 0) && w'.box.entries == w.box.entries && w'.history.sends == w.history.sends
  {
    StepFlow(w, max, e);
    if e.Saved? && w.box.writes != [] {
      SavedForgets(w.box, e.ok);
    } else {
      assert BoxStep(w.box, max, e) == w.box;
    }
  }

  lemma SavedForgets(b: Box, ok: bool)
    requires Flow(b) && b.writes != [] && Forgotten(b, 0)
    ensures Forgotten(SaveDone(b, ok), 0)
  {
    var b' := SaveDone(b, ok);
    assert b.writes[0] in b.writes;
    assert forall w | w in b'.writes :: w in b.writes;
  }

  // ---- at rest ----

  /** No write of this session was given up on. */
  predicate AllWell(hasSender: bool, max: nat, es: seq<Event>) {
    || es == [] || es[|es| - 1].Crashed?
    || (AllWell(hasSender, max, es[..|es| - 1])
        && !GivesUp(Run(Start(hasSender), max, es[..|es| - 1]).box, es[|es| - 1]))
  }

  lemma {:induction false} AllWellForgetsNothing(hasSender: bool, max: nat, es: seq<Event>)
    requires AllWell(hasSender, max, es)
    ensures !NeverPutRight(hasSender, max, es) && Run(Start(hasSender), max, es).history.stranded == {}
  {
    if es != [] && !es[|es| - 1].Crashed? {
      AllWellForgetsNothing(hasSender, max, es[..|es| - 1]);
      NothingStrands(Run(Start(hasSender), max, es[..|es| - 1]), max, es[|es| - 1]);
    }
  }

  lemma NothingStrands(w: World, max: nat, e: Event)
    requires w.history.stranded == {} && !GivesUp(w.box, e)
    ensures Step(w, max, e).history.stranded == {}
  {
    if e.MarkResumed? && w.box.flight.MarkSaved? {
      assert NotedMark(w.box, w.history).stranded == {};
    }
  }

  /** The first entry of a room, by time and number. */
  lemma {:induction false} RoomHasAFirst(l: Entries, n: nat, e: Entry) returns (x: Entry)
    requires n <= |l| && e in l[..n]
    ensures x in l[..n] && x.roomId == e.roomId && Least(l[..n], x)
  {
    var last := l[n - 1];
    assert l[..n] == l[..n - 1] + [last];
    if y :| y in l[..n - 1] && y.roomId == e.roomId {
      x := RoomHasAFirst(l, n - 1, y);
      if last.roomId == e.roomId && !ByOrder(x, last) {
        x := last;
      }
    } else {
      x := last;
    }
  }

  /** Able to send, and nothing under way, due or owed. */
  predicate AtRest(b: Box, owed: nat) { b.online && b.hasSender && !b.disposed && !b.flushing && !Due(b, owed) }

  /** The first entry of every room has failed for good. */
  ghost predicate FirstsFailed(l: Entries) { forall x | x in l && Least(l, x) :: x.status == Failed }

  ghost predicate NoFirstStranded(l: Entries, stranded: set<nat>) { forall x | x in l && Least(l, x) :: x.id !in stranded }

  /**
    * At rest all work is done, that is, every room that still lists something is headed by an entry that has failed for
    * good; exactly unless something was exposed and never put right, or the write of a head's mark failed this session.
    */
  lemma RestMeansDoneIff(hasSender: bool, max: nat, es: seq<Event>)
    requires max > 0 && AtRest(Run(Start(hasSender), max, es).box, Owed(hasSender, max, es))
    ensures var w := Run(Start(hasSender), max, es);
            FirstsFailed(w.box.entries) <==>
            !NeverPutRight(hasSender, max, es) && NoFirstStranded(w.box.entries, w.history.stranded)
  {
    var w := Run(Start(hasSender), max, es);
    var l := w.box.entries;
    NothingIsForgottenUnless(hasSender, max, es);
    RunNumbered(hasSender, max, es);
    RunFlow(hasSender, max, es);
    forall x | x in l && Least(l, x)
      ensures x.status == Failed || x.id in w.history.stranded || x in PendingQueue(l)
      ensures x.id in w.history.stranded ==> x.status != Failed
    {
      EveryEntryIsAccountedFor(hasSender, max, es, x);
      QueueIsLeast(l, x);
    }
    if PendingQueue(l) != [] {
      QueuedIsLeast(l, PendingQueue(l)[0]);
    }
  }

  /** So in a session without such a failure whatever is still listed has failed for good, or waits behind one that has. */
  lemma RestMeansDone(hasSender: bool, max: nat, es: seq<Event>, e: Entry) returns (x: Entry)
    requires max > 0 && AllWell(hasSender, max, es)
    requires var b := Run(Start(hasSender), max, es).box; e in b.entries && AtRest(b, Owed(hasSender, max, es))
    ensures var l := Run(Start(hasSender), max, es).box.entries;
            x in l && x.roomId == e.roomId && x.status == Failed && Least(l, x)
  {
    var l := Run(Start(hasSender), max, es).box.entries;
    assert l[..|l|] == l;
    x := RoomHasAFirst(l, |l|, e);
    AllWellForgetsNothing(hasSender, max, es);
    RestMeansDoneIff(hasSender, max, es);
  }

  // ---- one failed write is enough ----

  /** Offline, with a sender, and nothing under way. */
  predicate AtRestOffline(b: Box) {
    && !b.online && b.hasSender && !b.disposed && !b.flushing && b.flight == NoFlight && !b.timer
    && b.writes == [] && b.settled == map[]
  }

  function MarkedList(b: Box, x: Entry): Entries { Patch(b.entries, x.id, Sending, x.attempts, x.lastError, x.hold) }

  lemma OnlineMarks(b: Box, x: Entry)
    requires AtRestOffline(b) && PendingQueue(b.entries) != [] && x == PendingQueue(b.entries)[0]
    ensures SetOnline(b, true) ==
            b.(online := true, flushing := true, entries := MarkedList(b, x), flight := SavingMark(x.(status := Sending)),
               writes := [Write(Unheld(MarkedList(b, x)), ForMark)])
  {
    assert [] + [Write(Unheld(MarkedList(b, x)), ForMark)] == [Write(Unheld(MarkedList(b, x)), ForMark)];
  }

  lemma LastWriteDone(b: Box, w: Write, ok: bool)
    requires b.writes == [w] && !w.waiter.ForEnqueue?
    ensures SaveDone(b, ok) == b.(writes := [], flight := Awaited(b.flight, w.waiter, ok))
  {
    assert b.writes[1..] == [];
  }

  /** A delivered entry leaves the list; then the write of the shorter list fails. */
  lemma DeliveredThenFails(b: Box, max: nat, x: Entry)
    requires b.flight == AtSender(x) && !b.disposed && b.writes == []
    ensures var b1 := SaveDone(AfterSend(b, max, Delivered), false);
            b1.flight.ResultSaved? && AfterResult(b1) == b.(entries := Without(b.entries, x.id), flushing := false, flight := NoFlight)
  {
    var b0 := AfterSend(b, max, Delivered);
    var w := Write(Unheld(b0.entries), ForResult);
    assert b0.writes == [w];
    LastWriteDone(b0, w, false);
  }

  /** The first of another room is still ready once the marked entry is gone. */
  lemma OtherStaysReady(b: Box, x: Entry, y: Entry)
    requires Ranked(b.entries) && y in PendingQueue(b.entries) && y.id != x.id
    ensures y in PendingQueue(Without(MarkedList(b, x), x.id))
  {
    var marked := MarkedList(b, x);
    var l := Without(marked, x.id);
    PatchFollows(b.entries, x.id, Sending, x.attempts, x.lastError, x.hold);
    FilterFollows(marked, (e: Entry) => e.id != x.id);
    FilterMembers((e: Entry) => e.id != x.id, marked);
    QueuedIsLeast(b.entries, y);
    var i :| 0 <= i < |b.entries| && b.entries[i] == y;
    assert marked[i] == y;
    forall z | z in l && z.roomId == y.roomId ensures ByOrder(y, z) {
      var z0 :| z0 in b.entries && Key(z0) == Key(z);
      KeyParts(z0, z);
    }
    QueueIsLeast(l, y);
  }

  lemma OneMore(hasSender: bool, max: nat, es: seq<Event>, e: Event)
    ensures Run(Start(hasSender), max, es + [e]) == Step(Run(Start(hasSender), max, es), max, e)
    ensures Owed(hasSender, max, es + [e]) == OwedAfter(Run(Start(hasSender), max, es).box, Owed(hasSender, max, es), e)
  {
    assert (es + [e])[..|es|] == es;
  }

  /** What a run has come to: its box, and what is owed. */
  ghost predicate Reaches(hasSender: bool, max: nat, es: seq<Event>, b: Box) {
    Run(Start(hasSender), max, es).box == b && Owed(hasSender, max, es) == 0
  }

  lemma ReachesNext(hasSender: bool, max: nat, es: seq<Event>, b: Box, e: Event)
    requires Reaches(hasSender, max, es, b) && !e.Crashed? && !e.Enqueued? && !ComesBack(b, e)
    ensures Reaches(hasSender, max, es + [e], BoxStep(b, max, e))
  {
    OneMore(hasSender, max, es, e);
  }

  lemma Goes(hasSender: bool, max: nat, es: seq<Event>, b: Box, x: Entry) returns (at: Box)
    requires Reaches(hasSender, max, es, b) && AtRestOffline(b) && PendingQueue(b.entries) != [] && x == PendingQueue(b.entries)[0]
    ensures at == b.(online := true, flushing := true, entries := MarkedList(b, x), flight := AtSender(x.(status := Sending)))
    ensures Reaches(hasSender, max, es + [WentOnline(true)] + [Saved(true)] + [MarkResumed], at)
  {
    OnlineMarks(b, x);
    ReachesNext(hasSender, max, es, b, WentOnline(true));
    var b1 := SetOnline(b, true);
    LastWriteDone(b1, b1.writes[0], true);
    SaveReaches(hasSender, max, es + [WentOnline(true)], b1, true);
    at := AfterMark(SaveDone(b1, true));
    ReachesNext(hasSender, max, es + [WentOnline(true)] + [Saved(true)], SaveDone(b1, true), MarkResumed);
  }

  lemma AnswerReaches(hasSender: bool, max: nat, es: seq<Event>, b: Box, result: SendResult)
    requires Reaches(hasSender, max, es, b) && b.flight.AtSender?
    ensures Reaches(hasSender, max, es + [Answered(result)], AfterSend(b, max, result))
  {
    ReachesNext(hasSender, max, es, b, Answered(result));
  }

  lemma SaveReaches(hasSender: bool, max: nat, es: seq<Event>, b: Box, ok: bool)
    requires Reaches(hasSender, max, es, b) && b.writes != [] && !b.writes[0].waiter.ForFollowUp?
    ensures Reaches(hasSender, max, es + [Saved(ok)], SaveDone(b, ok))
  {
    ReachesNext(hasSender, max, es, b, Saved(ok));
  }

  lemma ResultReaches(hasSender: bool, max: nat, es: seq<Event>, b: Box)
    requires Reaches(hasSender, max, es, b) && b.flight.ResultSaved?
    ensures Reaches(hasSender, max, es + [ResultResumed], AfterResult(b))
  {
    ReachesNext(hasSender, max, es, b, ResultResumed);
  }

  lemma ComesToNothing(hasSender: bool, max: nat, es: seq<Event>, b: Box, x: Entry)
    requires Reaches(hasSender, max, es, b) && b.flight == AtSender(x) && !b.disposed && b.writes == []
    ensures Reaches(hasSender, max, es + [Answered(Delivered)] + [Saved(false)] + [ResultResumed],
                    b.(entries := Without(b.entries, x.id), flushing := false, flight := NoFlight))
  {
    var b1 := AfterSend(b, max, Delivered);
    assert b1.writes == [Write(Unheld(b1.entries), ForResult)];
    AnswerReaches(hasSender, max, es, b, Delivered);
    SaveReaches(hasSender, max, es + [Answered(Delivered)], b1, false);
    DeliveredThenFails(b, max, x);
    ResultReaches(hasSender, max, es + [Answered(Delivered)] + [Saved(false)], SaveDone(b1, false));
  }

  /** From any rest with two rooms waiting: go online, deliver one, fail the write that follows, and the other room is forgotten. */
  lemma OneFailedWriteForgets(hasSender: bool, max: nat, es: seq<Event>, y: Entry)
    requires AtRestOffline(Run(Start(hasSender), max, es).box) && Owed(hasSender, max, es) == 0
    requires var queue := PendingQueue(Run(Start(hasSender), max, es).box.entries); y in queue && y.id != queue[0].id
    ensures ForgottenAt(hasSender, max, es + [WentOnline(true)] + [Saved(true)] + [MarkResumed]
                                        + [Answered(Delivered)] + [Saved(false)] + [ResultResumed])
  {
    var b := Run(Start(hasSender), max, es).box;
    var x := PendingQueue(b.entries)[0];
    RunNumbered(hasSender, max, es);
    var at := Goes(hasSender, max, es, b, x);
    ComesToNothing(hasSender, max, es + [WentOnline(true)] + [Saved(true)] + [MarkResumed], at, x.(status := Sending));
    OtherStaysReady(b, x, y);
  }
}
