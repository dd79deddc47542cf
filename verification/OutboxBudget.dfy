/** How much work is left: a bound on all further calls of the sender. */
module OutboxBudget {
  import opened Sorting
  import opened Outboxes
  import opened OutboxRuns
  import opened OutboxOrder
  import opened OutboxHealth

  function Left(e: Entry, max: nat): int { if e.status == Failed then 0 else max - e.attempts }

  function Budget(l: Entries, max: nat): int {
    if l == [] then 0 else Budget(l[..|l| - 1], max) + Left(l[|l| - 1], max)
  }

  ghost predicate Solvent(l: Entries, max: nat) { forall e | e in l :: Left(e, max) >= 0 }

  lemma SaneIsSolvent(l: Entries, max: nat, n: nat)
    requires AllSane(l, max, n)
    ensures Solvent(l, max)
  {
  }

  lemma {:induction false} BudgetIsPositive(l: Entries, max: nat)
    requires Solvent(l, max)
    ensures Budget(l, max) >= 0
    ensures forall e | e in l :: Left(e, max) <= Budget(l, max)
  {
    if l != [] {
      BudgetIsPositive(l[..|l| - 1], max);
      assert l == l[..|l| - 1] + [l[|l| - 1]];
    }
  }

  /** Taking out an entry with budget left costs at least one. */
  lemma {:induction false} FilterBudget(p: Entry -> bool, l: Entries, max: nat)
    requires Solvent(l, max)
    ensures Budget(Filter(p, l), max) <= Budget(l, max)
    ensures (exists e | e in l :: !p(e) && Left(e, max) > 0) ==> Budget(Filter(p, l), max) < Budget(l, max)
  {
    if l != [] {
      var n := |l| - 1;
      FilterBudget(p, l[..n], max);
      assert l == l[..n] + [l[n]];
      if p(l[n]) {
        assert Filter(p, l)[..|Filter(p, l)| - 1] == Filter(p, l[..n]);
      }
    }
  }

  ghost predicate Cheaper(l: Entries, l': Entries, max: nat) {
    |l'| == |l| && forall i | 0 <= i < |l| :: Left(l'[i], max) <= Left(l[i], max)
  }

  lemma {:induction false} CheaperBudget(l: Entries, l': Entries, max: nat)
    requires Cheaper(l, l', max)
    ensures Budget(l', max) <= Budget(l, max)
    ensures (exists i | 0 <= i < |l| :: Left(l'[i], max) < Left(l[i], max)) ==> Budget(l', max) < Budget(l, max)
  {
    if l != [] {
      CheaperBudget(l[..|l| - 1], l'[..|l| - 1], max);
    }
  }

  /**
    * What can still be sent: the budget, plus a call about to go out for an entry that has meanwhile been removed,
    * minus the call already out for an entry whose budget it has yet to spend.
    */
  ghost function Remaining(b: Box, max: nat): int {
    if b.disposed then 0
    else Budget(b.entries, max)
         + (if (b.flight.SavingMark? || b.flight.MarkSaved?) && !HasEntry(b.entries, b.flight.entry.id) then 1 else 0)
         - (if b.flight.AtSender? && HasEntry(b.entries, b.flight.entry.id) then 1 else 0)
  }

  lemma RemainingIsPositive(w: World, max: nat)
    requires Healthy(w, max)
    ensures Remaining(w.box, max) >= 0
  {
    var b := w.box;
    SaneIsSolvent(b.entries, max, w.nextId);
    BudgetIsPositive(b.entries, max);
    if b.flight.AtSender? && HasEntry(b.entries, b.flight.entry.id) {
      var i :| 0 <= i < |b.entries| && b.entries[i].id == b.flight.entry.id;
      assert b.entries[i] in b.entries && Twin(b.entries[i], b.flight.entry) && Sane(b.entries[i], max, w.nextId);
    }
  }

  lemma PersistRemaining(b: Box, waiter: Waiter, max: nat)
    ensures Remaining(Persist(b, waiter), max) == Remaining(b, max)
  {
  }

  lemma PickNextRemaining(b: Box, disk: Entries, n: nat, stranded: set<nat>, max: nat)
    requires Health(b, disk, n, stranded, max) && !b.flight.Holds()
    ensures Remaining(PickNext(b), max) <= Remaining(b, max)
  {
    var queue := PendingQueue(b.entries);
    if queue != [] && b.online && b.hasSender && !b.disposed {
      var e := queue[0];
      QueueIsListed(b.entries, e);
      var marked := Patch(b.entries, e.id, Sending, e.attempts, e.lastError, e.hold);
      var k :| 0 <= k < |b.entries| && b.entries[k] == e;
      forall i | 0 <= i < |b.entries| ensures Left(marked[i], max) <= Left(b.entries[i], max) {
        assert i != k ==> b.entries[i].id != e.id;
      }
      CheaperBudget(b.entries, marked, max);
      assert marked[k].id == e.id;
      PersistRemaining(b.(entries := marked, flight := SavingMark(e.(status := Sending))), ForMark, max);
    }
  }

  lemma FlushRemaining(b: Box, disk: Entries, n: nat, stranded: set<nat>, max: nat)
    requires Health(b, disk, n, stranded, max) && Flow(b)
    ensures Remaining(FlushBegin(b), max) <= Remaining(b, max)
  {
    if !(b.disposed || !b.hasSender || !b.online || b.flushing) {
      PickNextRemaining(b.(flushing := true), disk, n, stranded, max);
    }
  }

  /** An entry taken out while its call is out, or about to go out, had budget to lose. */
  lemma FilterRemaining(b: Box, p: Entry -> bool, disk: Entries, n: nat, stranded: set<nat>, max: nat)
    requires Health(b, disk, n, stranded, max)
    ensures Remaining(b.(entries := Filter(p, b.entries)), max) <= Remaining(b, max)
  {
    SaneIsSolvent(b.entries, max, n);
    FilterBudget(p, b.entries, max);
    if b.flight.Holds() {
      FilteredHas(p, b.entries, b.flight.entry.id);
      if HasEntry(b.entries, b.flight.entry.id) && !HasEntry(Filter(p, b.entries), b.flight.entry.id) {
        TakenOutHadBudget(b, p, disk, n, stranded, max);
      }
    }
  }

  lemma FilteredHas(p: Entry -> bool, l: Entries, id: nat)
    ensures HasEntry(Filter(p, l), id) ==> HasEntry(l, id)
  {
    FilterMembers(p, l);
    HasIsMembership(l, id);
    HasIsMembership(Filter(p, l), id);
  }

  /** The entry of a call that is out, or about to go out, has budget left while it is listed. */
  lemma TakenOutHadBudget(b: Box, p: Entry -> bool, disk: Entries, n: nat, stranded: set<nat>, max: nat)
    requires Health(b, disk, n, stranded, max) && b.flight.Holds()
    requires HasEntry(b.entries, b.flight.entry.id) && !HasEntry(Filter(p, b.entries), b.flight.entry.id)
    ensures exists e | e in b.entries :: !p(e) && Left(e, max) > 0
  {
    var id := b.flight.entry.id;
    FilterMembers(p, b.entries);
    HasIsMembership(b.entries, id);
    HasIsMembership(Filter(p, b.entries), id);
    var e :| e in b.entries && e.id == id;
    assert Twin(e, b.flight.entry) && Sane(e, max, n) && !p(e);
  }

  lemma AnswerSpends(b: Box, result: SendResult, disk: Entries, n: nat, stranded: set<nat>, max: nat)
    requires Health(b, disk, n, stranded, max) && b.flight.AtSender?
    ensures Budget(Outcome(b.entries, b.flight.entry, max, result), max) <= Budget(b.entries, max)
    ensures HasEntry(b.entries, b.flight.entry.id) ==>
              Budget(Outcome(b.entries, b.flight.entry, max, result), max) < Budget(b.entries, max)
  {
    var x := b.flight.entry;
    var l := Outcome(b.entries, x, max, result);
    if result.Delivered? {
      FilterBudget((e: Entry) => e.id != x.id, b.entries, max);
      if HasEntry(b.entries, x.id) {
        var k :| 0 <= k < |b.entries| && b.entries[k].id == x.id;
        assert b.entries[k] in b.entries && Twin(b.entries[k], x);
      }
    } else {
      forall i | 0 <= i < |b.entries|
        ensures Left(l[i], max) <= Left(b.entries[i], max)
        ensures b.entries[i].id == x.id ==> Left(l[i], max) < Left(b.entries[i], max)
      {
        assert b.entries[i] in b.entries && Twin(b.entries[i], x) && Sane(b.entries[i], max, n);
      }
      CheaperBudget(b.entries, l, max);
    }
  }

  lemma AnswerRemaining(b: Box, result: SendResult, disk: Entries, n: nat, stranded: set<nat>, max: nat)
    requires Health(b, disk, n, stranded, max) && b.flight.AtSender?
    ensures Remaining(AfterSend(b, max, result), max) <= Remaining(b, max)
  {
    if !b.disposed {
      AnswerSpends(b, result, disk, n, stranded, max);
    }
  }

  lemma ReleaseRemaining(b: Box, max: nat)
    ensures Remaining(b.(timer := false, entries := Unheld(b.entries)), max) <= Remaining(b, max)
  {
    var l := Unheld(b.entries);
    CheaperBudget(b.entries, l, max);
    if b.flight.Holds() {
      var id := b.flight.entry.id;
      assert forall i | 0 <= i < |l| :: l[i].id == b.entries[i].id;
      assert HasEntry(l, id) <==> HasEntry(b.entries, id);
    }
  }

  lemma SettleRemaining(b: Box, id: nat, disk: Entries, n: nat, stranded: set<nat>, max: nat)
    requires Health(b, disk, n, stranded, max) && id in b.settled
    ensures Remaining(EnqueueSettled(b, id), max) <= Remaining(b, max)
  {
    FilterRemaining(b, (e: Entry) => e.id != id, disk, n, stranded, max);
    assert EnqueueSettled(b, id) ==
           (if b.settled[id] then b else b.(entries := Without(b.entries, id))).(settled := b.settled - {id});
  }

  lemma RemoveRemaining(b: Box, id: nat, disk: Entries, n: nat, stranded: set<nat>, max: nat)
    requires Health(b, disk, n, stranded, max)
    ensures Remaining(Remove(b, id), max) <= Remaining(b, max)
  {
    FilterRemaining(b, (e: Entry) => e.id != id, disk, n, stranded, max);
    PersistRemaining(b.(entries := Without(b.entries, id)), ForFollowUp, max);
  }

  lemma RemoveRoomRemaining(b: Box, room: string, disk: Entries, n: nat, stranded: set<nat>, max: nat)
    requires Health(b, disk, n, stranded, max)
    ensures Remaining(RemoveRoom(b, room), max) <= Remaining(b, max)
  {
    FilterRemaining(b, (e: Entry) => e.roomId != room, disk, n, stranded, max);
    PersistRemaining(b.(entries := WithoutRoom(b.entries, room)), ForOther, max);
  }

  /** Everything but a new enqueue, a manual retry, or a new session. */
  predicate NoNewWork(e: Event) { !(e.Enqueued? || e.Retried? || e.Crashed?) }

  lemma EditRemaining(w: World, max: nat, e: Event)
    requires Healthy(w, max) && Edits(e) && !e.Retried?
    ensures Remaining(EditStep(w.box, e), max) <= Remaining(w.box, max)
  {
    var b, n, stranded := w.box, w.nextId, w.history.stranded;
    match e {
      case EnqueueResumed(id) => if id in b.settled { SettleRemaining(b, id, w.disk, n, stranded, max); }
      case Removed(id) => RemoveRemaining(b, id, w.disk, n, stranded, max);
      case RoomRemoved(room) => RemoveRoomRemaining(b, room, w.disk, n, stranded, max);
      case WasDisposed => RemainingIsPositive(w, max);
    }
  }

  lemma ResultRemaining(b: Box, disk: Entries, n: nat, stranded: set<nat>, max: nat)
    requires Health(b, disk, n, stranded, max) && b.flight.ResultSaved?
    ensures Remaining(AfterResult(b), max) <= Remaining(b, max)
  {
    if b.flight.ok {
      PickNextRemaining(b, disk, n, stranded, max);
    }
  }

  lemma OnlineRemaining(b: Box, online: bool, disk: Entries, n: nat, stranded: set<nat>, max: nat)
    requires Health(b, disk, n, stranded, max) && Flow(b)
    ensures Remaining(SetOnline(b, online), max) <= Remaining(b, max)
  {
    if !b.disposed {
      SwitchHealth(b, b.(online := online), disk, n, stranded, max);
      if online { FlushRemaining(b.(online := true), disk, n, stranded, max); }
    }
  }

  lemma SenderRemaining(b: Box, disk: Entries, n: nat, stranded: set<nat>, max: nat)
    requires Health(b, disk, n, stranded, max) && Flow(b)
    ensures Remaining(SetSender(b), max) <= Remaining(b, max)
  {
    SwitchHealth(b, b.(hasSender := true), disk, n, stranded, max);
    FlushRemaining(b.(hasSender := true), disk, n, stranded, max);
  }

  lemma FlushStepRemaining(b: Box, e: Event, disk: Entries, n: nat, stranded: set<nat>, max: nat)
    requires Health(b, disk, n, stranded, max) && Flow(b) && Flushes(e)
    ensures Remaining(FlushStep(b, e), max) <= Remaining(b, max)
  {
    match e {
      case WentOnline(online) => OnlineRemaining(b, online, disk, n, stranded, max);
      case SenderSet => SenderRemaining(b, disk, n, stranded, max);
      case Flushed => FlushRemaining(b, disk, n, stranded, max);
      case TimerTicked => if b.timer { TimerRemaining(b, disk, n, stranded, max); }
      case ResultResumed => if b.flight.ResultSaved? { ResultRemaining(b, disk, n, stranded, max); }
    }
  }

  lemma TimerRemaining(b: Box, disk: Entries, n: nat, stranded: set<nat>, max: nat)
    requires Health(b, disk, n, stranded, max) && Flow(b) && b.timer
    ensures Remaining(TimerFired(b), max) <= Remaining(b, max)
  {
    var b1 := b.(timer := false, entries := Unheld(b.entries));
    ReleaseRemaining(b, max);
    ReleaseHealth(b, disk, n, stranded, max);
    FlushRemaining(b1, disk, n, stranded, max);
  }

  lemma SaveRemaining(b: Box, ok: bool, max: nat)
    requires b.writes != []
    ensures Remaining(SaveDone(b, ok), max) == Remaining(b, max)
  {
    SaveDoneShape(b, ok);
    SaveFlight(b, ok);
  }

  lemma MarkRemaining(w: World, max: nat)
    requires Healthy(w, max)
    ensures var w' := Step(w, max, MarkResumed);
            |w'.history.sends| + Remaining(w'.box, max) <= |w.history.sends| + Remaining(w.box, max)
  {
    RemainingIsPositive(w, max);
  }

  lemma SaveStepRemaining(w: World, max: nat, ok: bool)
    ensures var w' := Step(w, max, Saved(ok));
            w'.history.sends == w.history.sends && Remaining(w'.box, max) == Remaining(w.box, max)
  {
    if w.box.writes != [] {
      SavedStep(w, ok, max);
      SaveRemaining(w.box, ok, max);
    }
  }

  lemma OffRecordRemaining(w: World, max: nat, e: Event)
    requires Healthy(w, max) && NoNewWork(e) && OffRecord(e)
    ensures Step(w, max, e).history.sends == w.history.sends && Remaining(Step(w, max, e).box, max) <= Remaining(w.box, max)
  {
    OffRecordStep(w, max, e);
    if Edits(e) {
      EditRemaining(w, max, e);
    } else if Flushes(e) {
      FlushStepRemaining(w.box, e, w.disk, w.nextId, w.history.stranded, max);
    } else if w.box.flight.AtSender? {
      AnswerRemaining(w.box, e.result, w.disk, w.nextId, w.history.stranded, max);
    }
  }

  /** Calls already out plus calls still possible: never more after a step than before it. */
  lemma StepRemaining(w: World, max: nat, e: Event)
    requires Healthy(w, max) && NoNewWork(e)
    ensures var w' := Step(w, max, e);
            |w'.history.sends| + Remaining(w'.box, max) <= |w.history.sends| + Remaining(w.box, max)
  {
    match e {
      case Saved(ok) => SaveStepRemaining(w, max, ok);
      case MarkResumed => MarkRemaining(w, max);
      case _ => OffRecordRemaining(w, max, e);
    }
  }

  lemma {:induction false} RunRemaining(w: World, max: nat, es: seq<Event>)
    requires Healthy(w, max) && max > 0 && forall e | e in es :: NoNewWork(e)
    ensures var w' := Run(w, max, es);
            && Healthy(w', max)
            && |w'.history.sends| + Remaining(w'.box, max) <= |w.history.sends| + Remaining(w.box, max)
  {
    if es != [] {
      var n := |es| - 1;
      assert es == es[..n] + [es[n]];
      RunRemaining(w, max, es[..n]);
      StepHealth(Run(w, max, es[..n]), max, es[n]);
      StepRemaining(Run(w, max, es[..n]), max, es[n]);
    }
  }

  /**
    * From any reachable point, as long as nothing is enqueued, manually retried or restarted, at most
    * `Remaining` further calls reach the sender, whatever else happens and however each of them ends.
    */
  lemma WorkIsBounded(hasSender: bool, max: nat, before: seq<Event>, after: seq<Event>)
    requires max > 0 && forall e | e in after :: NoNewWork(e)
    ensures var w := Run(Start(hasSender), max, before);
            |Run(w, max, after).history.sends| <= |w.history.sends| + Remaining(w.box, max)
  {
    var w := Run(Start(hasSender), max, before);
    RunHealth(hasSender, max, before);
    RunRemaining(w, max, after);
    RemainingIsPositive(Run(w, max, after), max);
  }

  /** And each answer for an entry still queued strictly spends from the budget. */
  lemma EveryAnswerSpends(hasSender: bool, max: nat, es: seq<Event>, result: SendResult)
    requires max > 0
    requires var b := Run(Start(hasSender), max, es).box;
             !b.disposed && b.flight.AtSender? && HasEntry(b.entries, b.flight.entry.id)
    ensures var w := Run(Start(hasSender), max, es);
            0 <= Budget(Step(w, max, Answered(result)).box.entries, max) < Budget(w.box.entries, max)
  {
    RunHealth(hasSender, max, es);
    var w := Run(Start(hasSender), max, es);
    AnswerSpends(w.box, result, w.disk, w.nextId, w.history.stranded, max);
    StepHealth(w, max, Answered(result));
    var w' := Step(w, max, Answered(result));
    SaneIsSolvent(w'.box.entries, max, w'.nextId);
    BudgetIsPositive(w'.box.entries, max);
  }
}
