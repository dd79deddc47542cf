/** What holds of the order of sends whatever the local clock does. */
module OutboxClock {
  import opened Common
  import opened Sorting
  import opened Outboxes
  import opened OutboxRuns
  import opened OutboxOrder
  import opened OutboxHealth

  /** Order numbers rise along the list; they are drawn by the outbox itself, so no clock is involved. */
  ghost predicate Ranked(l: Entries) { forall i, j | 0 <= i < j < |l| :: l[i].order < l[j].order }

  /** No entry of the room sorts before `x`. */
  ghost predicate Least(l: Entries, x: Entry) { forall y | y in l && y.roomId == x.roomId :: ByOrder(x, y) }

  lemma SortedLeast(l: Entries, n: nat)
    requires n < |SortStable(ByOrder, l)| && FirstOfRoom(SortStable(ByOrder, l), n)
    ensures Least(l, SortStable(ByOrder, l)[n])
  {
    var s := SortStable(ByOrder, l);
    SortSorts(ByOrder, l);
    SortPermutes(ByOrder, l);
    SameMembers(s, l);
    forall y | y in l && y.roomId == s[n].roomId ensures ByOrder(s[n], y) {
      var k :| 0 <= k < |s| && s[k] == y;
      assert k >= n;
    }
  }

  lemma QueuedIsLeast(l: Entries, e: Entry)
    requires e in PendingQueue(l)
    ensures e in l && Ready(e) && Least(l, e)
  {
    QueueIsListed(l, e);
    ReadyHeadsMembers(SortStable(ByOrder, l), e);
    var n: nat :| HeadAt(SortStable(ByOrder, l), n, e);
    SortedLeast(l, n);
  }

  lemma RankTells(l: Entries, a: Entry, b: Entry)
    requires Ranked(l) && a in l && b in l && ByOrder(a, b) && ByOrder(b, a)
    ensures a == b
  {
    var i :| 0 <= i < |l| && l[i] == a;
    var j :| 0 <= j < |l| && l[j] == b;
  }

  /** The queue offers exactly the ready entries that come first in their room; nothing is assumed of the clock. */
  lemma QueueIsLeast(l: Entries, e: Entry)
    requires Ranked(l)
    ensures e in PendingQueue(l) <==> e in l && Ready(e) && Least(l, e)
  {
    if e in PendingQueue(l) {
      QueuedIsLeast(l, e);
    }
    if e in l && Ready(e) && Least(l, e) {
      var s := SortStable(ByOrder, l);
      SortPermutes(ByOrder, l);
      SameMembers(s, l);
      var k :| 0 <= k < |s| && s[k] == e;
      var n := FirstInRoom(s, k);
      SortedLeast(l, n);
      RankTells(l, e, s[n]);
      assert HeadAt(s, n, e);
      ReadyHeadsMembers(s, e);
    }
  }

  lemma {:induction false} FirstInRoom(s: Entries, k: nat) returns (n: nat)
    requires k < |s|
    ensures n <= k && s[n].roomId == s[k].roomId && FirstOfRoom(s, n)
  {
    n := k;
    if i: nat :| i < k && s[i].roomId == s[k].roomId {
      n := FirstInRoom(s, i);
    }
  }

  // ---- what a step does to the lists ----

  /** Every entry of the second list is one of the first, up to its status. */
  ghost predicate Drawn(l: Entries, l': Entries) {
    forall y' | y' in l' :: exists y | y in l :: Key(y) == Key(y')
  }

  ghost predicate Follows(l: Entries, l': Entries) { Drawn(l, l') && (Ranked(l) ==> Ranked(l')) }

  lemma SameKeysFollow(l: Entries, l': Entries)
    requires SameKeys(l, l')
    ensures Follows(l, l')
  {
    forall y' | y' in l' ensures exists y | y in l :: Key(y) == Key(y') {
      var i :| 0 <= i < |l'| && l'[i] == y';
      assert l[i] in l && Key(l[i]) == Key(y');
    }
    forall i, j | 0 <= i < j < |l'| && Ranked(l) ensures l'[i].order < l'[j].order {
      KeyParts(l[i], l'[i]);
      KeyParts(l[j], l'[j]);
    }
  }

  lemma FilterFollows(l: Entries, p: Entry -> bool)
    ensures Follows(l, Filter(p, l))
  {
    FilterMembers(p, l);
    forall y' | y' in Filter(p, l) ensures exists y | y in l :: Key(y) == Key(y') {
      assert y' in l && Key(y') == Key(y');
    }
    if Ranked(l) {
      FilterSorted((a: Entry, b: Entry) => a.order < b.order, p, l);
    }
  }

  lemma SameFollows(l: Entries)
    ensures Follows(l, l)
  {
    SameKeysFollow(l, l);
  }

  lemma FollowsOn(l: Entries, l1: Entries, l2: Entries)
    requires Follows(l, l1) && Follows(l1, l2)
    ensures Follows(l, l2)
  {
    forall y2 | y2 in l2 ensures exists y | y in l :: Key(y) == Key(y2) {
      var y1 :| y1 in l1 && Key(y1) == Key(y2);
      var y :| y in l && Key(y) == Key(y1);
    }
  }

  lemma PatchFollows(l: Entries, x: nat, status: Status, attempts: nat, err: Option<string>, hold: bool)
    ensures Follows(l, Patch(l, x, status, attempts, err, hold))
  {
    assert SameKeys(l, Patch(l, x, status, attempts, err, hold));
    SameKeysFollow(l, Patch(l, x, status, attempts, err, hold));
  }

  lemma UnheldFollows(l: Entries)
    ensures Follows(l, Unheld(l))
  {
    assert SameKeys(l, Unheld(l));
    SameKeysFollow(l, Unheld(l));
  }

  /** The list follows from the old one, and so does every snapshot queued meanwhile. */
  ghost predicate Proceeds(b: Box, b': Box) {
    && Follows(b.entries, b'.entries) && b'.nextOrder == b.nextOrder
    && forall w | w in b'.writes :: w in b.writes || Follows(b.entries, w.snapshot)
  }

  lemma StillProceeds(b: Box, b': Box)
    requires b'.entries == b.entries && b'.nextOrder == b.nextOrder && forall w | w in b'.writes :: w in b.writes
    ensures Proceeds(b, b')
  {
    SameFollows(b.entries);
  }

  lemma PersistProceeds(b: Box, b1: Box, waiter: Waiter)
    requires Follows(b.entries, b1.entries) && b1.nextOrder == b.nextOrder && b1.writes == b.writes
    ensures Proceeds(b, Persist(b1, waiter))
  {
    UnheldFollows(b1.entries);
    FollowsOn(b.entries, b1.entries, Unheld(b1.entries));
  }

  lemma PickNextProceeds(b: Box)
    ensures Proceeds(b, PickNext(b))
  {
    var queue := PendingQueue(b.entries);
    if queue != [] && b.online && b.hasSender && !b.disposed {
      var e := queue[0];
      var marked := Patch(b.entries, e.id, Sending, e.attempts, e.lastError, e.hold);
      PatchFollows(b.entries, e.id, Sending, e.attempts, e.lastError, e.hold);
      PersistProceeds(b, b.(entries := marked, flight := SavingMark(e.(status := Sending))), ForMark);
    } else {
      StillProceeds(b, Land(b));
    }
  }

  lemma FlushProceeds(b: Box, b1: Box)
    requires b1.entries == b.entries && b1.nextOrder == b.nextOrder && b1.writes == b.writes
    ensures Proceeds(b, FlushBegin(b1))
  {
    PickNextProceeds(b1.(flushing := true));
    StillProceeds(b, b1);
  }

  lemma TimerProceeds(b: Box)
    ensures Proceeds(b, TimerFired(b))
  {
    StillProceeds(b, b);
    if b.timer {
      var b1 := b.(timer := false, entries := Unheld(b.entries));
      UnheldFollows(b.entries);
      FlushProceeds(b1, b1);
      ProceedsOn(b, b1, FlushBegin(b1));
    }
  }

  lemma ProceedsOn(b: Box, b1: Box, b2: Box)
    requires Follows(b.entries, b1.entries) && b1.nextOrder == b.nextOrder && b1.writes == b.writes && Proceeds(b1, b2)
    ensures Proceeds(b, b2)
  {
    FollowsOn(b.entries, b1.entries, b2.entries);
    forall w | w in b2.writes && w !in b.writes ensures Follows(b.entries, w.snapshot) {
      FollowsOn(b.entries, b1.entries, w.snapshot);
    }
  }

  lemma RetryProceeds(b: Box, id: nat)
    ensures Proceeds(b, Retry(b, id))
  {
    var found := Find(b.entries, id);
    if found.Some? && found.value.status == Failed {
      var b1 := b.(entries := Patch(b.entries, id, Pending, 0, None, found.value.hold));
      PatchFollows(b.entries, id, Pending, 0, None, found.value.hold);
      PersistProceeds(b, b1, ForFollowUp);
      assert Retry(b, id) == Persist(b1, ForFollowUp);
    } else {
      assert Retry(b, id) == b;
      StillProceeds(b, b);
    }
  }

  lemma EditProceeds(b: Box, e: Event)
    requires Edits(e)
    ensures Proceeds(b, EditStep(b, e))
  {
    match e {
      case EnqueueResumed(id) => SettleProceeds(b, id);
      case Retried(id) => RetryProceeds(b, id);
      case Removed(id) =>
        FilterFollows(b.entries, (y: Entry) => y.id != id);
        PersistProceeds(b, b.(entries := Without(b.entries, id)), ForFollowUp);
      case RoomRemoved(room) =>
        FilterFollows(b.entries, (y: Entry) => y.roomId != room);
        PersistProceeds(b, b.(entries := WithoutRoom(b.entries, room)), ForOther);
      case WasDisposed => StillProceeds(b, Dispose(b));
    }
  }

  lemma SettleProceeds(b: Box, id: nat)
    ensures Proceeds(b, b) && (id in b.settled ==> Proceeds(b, EnqueueSettled(b, id)))
  {
    StillProceeds(b, b);
    FilterFollows(b.entries, (y: Entry) => y.id != id);
    SameFollows(b.entries);
  }

  lemma FlushStepProceeds(b: Box, e: Event)
    requires Flushes(e)
    ensures Proceeds(b, FlushStep(b, e))
  {
    StillProceeds(b, b);
    match e {
      case WentOnline(online) => FlushProceeds(b, b.(online := true)); StillProceeds(b, b.(online := false));
      case SenderSet => FlushProceeds(b, b.(hasSender := true)); StillProceeds(b, b.(hasSender := true));
      case Flushed => FlushProceeds(b, b);
      case TimerTicked => TimerProceeds(b);
      case ResultResumed => ResultProceeds(b);
    }
  }

  lemma ResultProceeds(b: Box)
    ensures b.flight.ResultSaved? ==> Proceeds(b, AfterResult(b))
  {
    PickNextProceeds(b);
    StillProceeds(b, Land(b));
  }

  lemma OutcomeFollows(l: Entries, e: Entry, max: nat, result: SendResult)
    ensures Follows(l, Outcome(l, e, max, result))
  {
    match result {
      case Delivered => FilterFollows(l, (y: Entry) => y.id != e.id);
      case Refused(error) => PatchFollows(l, e.id, Failed, e.attempts, Some(error), e.hold);
      case Unreachable(error) =>
        var again := BacksOff(e, max, result);
        PatchFollows(l, e.id, if again then Pending else Failed, e.attempts + 1, Some(error), again || e.hold);
    }
  }

  lemma AnswerProceeds(b: Box, max: nat, result: SendResult)
    requires b.flight.AtSender?
    ensures Proceeds(b, AfterSend(b, max, result))
  {
    StillProceeds(b, Land(b));
    if !b.disposed {
      var e := b.flight.entry;
      OutcomeFollows(b.entries, e, max, result);
      PersistProceeds(b, b.(entries := Outcome(b.entries, e, max, result), timer := b.timer || BacksOff(e, max, result),
                            flight := SavingResult), ForResult);
    }
  }

  lemma ProgressProceeds(b: Box, max: nat, e: Event)
    requires Progresses(e)
    ensures Proceeds(b, ProgressStep(b, max, e))
  {
    StillProceeds(b, b);
    match e {
      case Saved(ok) => if b.writes != [] { StillProceeds(b, SaveDone(b, ok)); }
      case MarkResumed => if b.flight.MarkSaved? { StillProceeds(b, AfterMark(b)); }
      case Answered(result) => if b.flight.AtSender? { AnswerProceeds(b, max, result); }
    }
  }

  lemma BoxProceeds(b: Box, max: nat, e: Event)
    requires !e.Crashed? && !e.Enqueued?
    ensures Proceeds(b, BoxStep(b, max, e))
  {
    if Edits(e) {
      EditProceeds(b, e);
    } else if Flushes(e) {
      FlushStepProceeds(b, e);
    } else {
      ProgressProceeds(b, max, e);
    }
  }

  // ---- numbers ----

  /** Every list is in the order of its numbers, and the next number is above those in use. */
  ghost predicate Numbered(b: Box, disk: Entries) {
    && Ranked(b.entries) && (forall e | e in b.entries :: e.order < b.nextOrder)
    && Ranked(disk) && forall w | w in b.writes :: Ranked(w.snapshot)
  }

  lemma ProceedingStaysNumbered(b: Box, b': Box, disk: Entries, disk': Entries)
    requires Numbered(b, disk) && Proceeds(b, b') && (disk' == disk || (b.writes != [] && disk' == b.writes[0].snapshot))
    ensures Numbered(b', disk')
  {
    forall e' | e' in b'.entries ensures e'.order < b'.nextOrder {
      var e :| e in b.entries && Key(e) == Key(e');
      KeyParts(e, e');
    }
    if b.writes != [] {
      assert b.writes[0] in b.writes;
    }
  }

  lemma EnqueueNumbered(b: Box, id: nat, d: Draft, now: int, disk: Entries)
    requires Numbered(b, disk) && !b.disposed
    ensures Numbered(Enqueue(b, id, d.roomId, d.clientMessageId, d.payload, now), disk)
  {
    var b' := Enqueue(b, id, d.roomId, d.clientMessageId, d.payload, now);
    forall i | 0 <= i < |b.entries| ensures b'.entries[i].order < b.nextOrder { assert b'.entries[i] in b.entries; }
    UnheldFollows(b'.entries);
  }

  lemma CrashNumbered(w: World, max: nat, hasSender: bool)
    requires Ranked(w.disk)
    ensures Numbered(Step(w, max, Crashed(hasSender)).box, w.disk)
  {
    CrashRestoresDisk(w, max, hasSender);
    assert SameKeys(w.disk, Revive(w.disk));
    SameKeysFollow(w.disk, Revive(w.disk));
    MaxOrderBounds(Revive(w.disk));
    ReviveOrder(w.disk);
  }

  lemma {:induction false} MaxOrderBounds(l: Entries)
    ensures forall e | e in l :: e.order <= MaxOrder(l)
  {
    if l != [] {
      MaxOrderBounds(l[..|l| - 1]);
      assert l == l[..|l| - 1] + [l[|l| - 1]];
    }
  }

  lemma StepNumbered(w: World, max: nat, e: Event)
    requires Numbered(w.box, w.disk)
    ensures Numbered(Step(w, max, e).box, Step(w, max, e).disk)
  {
    if e.Crashed? {
      CrashNumbered(w, max, e.hasSender);
    } else if e.Enqueued? {
      if !w.box.disposed { EnqueueNumbered(w.box, w.nextId, e.draft, e.now, w.disk); }
    } else {
      BoxProceeds(w.box, max, e);
      ProceedingStaysNumbered(w.box, BoxStep(w.box, max, e), w.disk, DiskAfter(w, e));
    }
  }

  lemma {:induction false} RunNumbered(hasSender: bool, max: nat, es: seq<Event>)
    ensures var w := Run(Start(hasSender), max, es); Numbered(w.box, w.disk)
  {
    if es != [] {
      RunNumbered(hasSender, max, es[..|es| - 1]);
      StepNumbered(Run(Start(hasSender), max, es[..|es| - 1]), max, es[|es| - 1]);
    }
  }

  // ---- what is sent ----

  /** How many enqueues there had been when the entry in flight was marked. */
  function MarkedAt(hasSender: bool, max: nat, es: seq<Event>): nat {
    if es == [] then 0
    else
      var before := Run(Start(hasSender), max, es[..|es| - 1]);
      if before.box.flight.Holds() then MarkedAt(hasSender, max, es[..|es| - 1]) else before.nextId
  }

  /** Of the entries of its room that were there when it was marked, the one in flight comes first. */
  ghost predicate LeastInFlight(b: Box, marked: nat) {
    b.flight.Holds() ==>
      forall y | y in b.entries && y.roomId == b.flight.entry.roomId && y.id < marked :: ByOrder(b.flight.entry, y)
  }

  lemma LeastStays(b: Box, b': Box, marked: nat)
    requires LeastInFlight(b, marked) && b.flight.Holds() && Drawn(b.entries, b'.entries)
    requires b'.flight.Holds() ==> b'.flight.entry == b.flight.entry
    ensures LeastInFlight(b', marked)
  {
    if b'.flight.Holds() {
      forall y' | y' in b'.entries && y'.roomId == b'.flight.entry.roomId && y'.id < marked ensures ByOrder(b'.flight.entry, y') {
        var y :| y in b.entries && Key(y) == Key(y');
        KeyParts(y, y');
      }
    }
  }

  /** Whatever is marked was first of its room. */
  lemma MarkedIsLeast(b: Box, marked: nat)
    requires !b.flight.Holds()
    ensures LeastInFlight(PickNext(b), marked)
  {
    var queue := PendingQueue(b.entries);
    if queue != [] && b.online && b.hasSender && !b.disposed {
      var e := queue[0];
      QueuedIsLeast(b.entries, e);
      PatchFollows(b.entries, e.id, Sending, e.attempts, e.lastError, e.hold);
      forall y' | y' in PickNext(b).entries && y'.roomId == e.roomId ensures ByOrder(e, y') {
        var y :| y in b.entries && Key(y) == Key(y');
        KeyParts(y, y');
      }
    }
  }

  lemma FlushedIsLeast(b: Box, marked: nat)
    requires !b.flight.Holds()
    ensures LeastInFlight(FlushBegin(b), marked)
  {
    MarkedIsLeast(b.(flushing := true), marked);
  }

  lemma FlushStepIsLeast(b: Box, e: Event, marked: nat)
    requires Flushes(e) && !b.flight.Holds()
    ensures LeastInFlight(FlushStep(b, e), marked)
  {
    match e {
      case WentOnline(online) => FlushedIsLeast(b.(online := true), marked);
      case SenderSet => FlushedIsLeast(b.(hasSender := true), marked);
      case Flushed => FlushedIsLeast(b, marked);
      case TimerTicked => FlushedIsLeast(b.(timer := false, entries := Unheld(b.entries)), marked);
      case ResultResumed => MarkedIsLeast(b, marked);
    }
  }

  lemma NothingMarked(b: Box, max: nat, e: Event)
    requires !e.Crashed? && !e.Enqueued? && !Flushes(e) && !b.flight.Holds()
    ensures !BoxStep(b, max, e).flight.Holds()
  {
    if e.Retried? {
      var found := Find(b.entries, e.id);
    }
  }

  lemma SameEntryHeld(b: Box, max: nat, e: Event)
    requires Flow(b) && b.flight.Holds() && !e.Crashed? && !e.Enqueued?
    ensures var f := BoxStep(b, max, e).flight; f.Holds() ==> f.entry == b.flight.entry
  {
    if Edits(e) {
      EditFlow(b, e);
    } else if Flushes(e) {
      FlushStepFlow(b, e);
    } else {
      HeldProgress(b, max, e);
    }
  }

  lemma HeldProgress(b: Box, max: nat, e: Event)
    requires Progresses(e) && b.flight.Holds()
    ensures var f := ProgressStep(b, max, e).flight; f.Holds() ==> f.entry == b.flight.entry
  {
    if e.Answered? && b.flight.AtSender? && !b.disposed {
      assert AfterSend(b, max, e.result).flight == SavingResult;
    }
  }

  lemma EnqueueKeepsLeast(b: Box, n: nat, d: Draft, now: int, marked: nat)
    requires !b.disposed && LeastInFlight(b, marked) && marked <= n
    ensures LeastInFlight(Enqueue(b, n, d.roomId, d.clientMessageId, d.payload, now), marked)
  {
  }

  lemma StepKeepsLeast(w: World, max: nat, e: Event, marked: nat)
    requires Flow(w.box) && LeastInFlight(w.box, marked) && marked <= w.nextId
    ensures LeastInFlight(Step(w, max, e).box, if w.box.flight.Holds() then marked else w.nextId)
  {
    if e.Crashed? {
      CrashRestoresDisk(w, max, e.hasSender);
    } else if e.Enqueued? {
      if !w.box.disposed { EnqueueKeepsLeast(w.box, w.nextId, e.draft, e.now, marked); }
    } else if w.box.flight.Holds() {
      BoxProceeds(w.box, max, e);
      SameEntryHeld(w.box, max, e);
      LeastStays(w.box, BoxStep(w.box, max, e), marked);
    } else if Flushes(e) {
      FlushStepIsLeast(w.box, e, w.nextId);
    } else {
      NothingMarked(w.box, max, e);
    }
  }

  lemma IdsOnlyRise(w: World, max: nat, e: Event)
    ensures w.nextId <= Step(w, max, e).nextId
  {
  }

  lemma {:induction false} RunKeepsLeast(hasSender: bool, max: nat, es: seq<Event>)
    ensures var w := Run(Start(hasSender), max, es);
            Flow(w.box) && LeastInFlight(w.box, MarkedAt(hasSender, max, es)) && MarkedAt(hasSender, max, es) <= w.nextId
  {
    if es != [] {
      var n := |es| - 1;
      var w := Run(Start(hasSender), max, es[..n]);
      RunKeepsLeast(hasSender, max, es[..n]);
      StepKeepsLeast(w, max, es[n], MarkedAt(hasSender, max, es[..n]));
      StepFlow(w, max, es[n]);
      IdsOnlyRise(w, max, es[n]);
    }
  }

  /**
    * Whatever the clock does, at every point of every run: the entry being marked or sent comes first, by time and
    * number, of all entries of its room that were queued when it was marked.
    */
  lemma TheFirstIsSent(hasSender: bool, max: nat, es: seq<Event>, y: Entry)
    requires var b := Run(Start(hasSender), max, es).box;
             b.flight.Holds() && y in b.entries && y.roomId == b.flight.entry.roomId && y.id < MarkedAt(hasSender, max, es)
    ensures ByOrder(Run(Start(hasSender), max, es).box.flight.entry, y)
  {
    RunKeepsLeast(hasSender, max, es);
  }

  /** And nothing else is offered: in every state a run reaches, the queue is exactly the ready firsts of their rooms. */
  lemma ReachedQueueIsLeast(hasSender: bool, max: nat, es: seq<Event>, e: Entry)
    ensures var l := Run(Start(hasSender), max, es).box.entries;
            e in PendingQueue(l) <==> e in l && Ready(e) && Least(l, e)
  {
    RunNumbered(hasSender, max, es);
    QueueIsLeast(Run(Start(hasSender), max, es).box.entries, e);
  }
}
