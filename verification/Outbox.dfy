/** The offline outbox: every stretch of code between two awaits is one step on its state. */
module Outboxes {
  import opened Common
  import opened Sorting

  datatype Status = Pending | Sending | Failed

  /**
    * `id` stands for the random id: ids are drawn once, in enqueue order, and never collide. `payload` is the
    * rest of the draft. `hold` is the in-memory backoff flag and is never persisted.
    */
  datatype Entry = Entry(
    id: nat, order: int, status: Status, roomId: string, clientMessageId: string, payload: string,
    attempts: nat, lastError: Option<string>, createdAt: int, hold: bool)

  type Entries = seq<Entry>

  datatype SendResult = Delivered | Refused(error: string) | Unreachable(error: string)

  /** Who waits for a queued write to finish; a follow-up is a call that flushes once its own write is done. */
  datatype Waiter = ForEnqueue(id: nat) | ForMark | ForResult | ForFollowUp | ForOther

  datatype Write = Write(snapshot: Entries, waiter: Waiter)

  /** Where the running `flush()` is suspended; the entry is the object it holds on to. */
  datatype Flight =
    | NoFlight
    | SavingMark(entry: Entry)
    | MarkSaved(entry: Entry, ok: bool)
    | AtSender(entry: Entry)
    | SavingResult
    | ResultSaved(ok: bool)
  {
    predicate Holds() { SavingMark? || MarkSaved? || AtSender? }
  }

  /** `settled`: enqueues whose own write is done but whose caller has not resumed yet. */
  datatype Box = Box(
    entries: Entries, nextOrder: int, online: bool, disposed: bool, hasSender: bool,
    flushing: bool, timer: bool, flight: Flight, writes: seq<Write>, settled: map<nat, bool>)

  function NewBox(hasSender: bool): Box {
    Box([], 1, false, false, hasSender, false, false, NoFlight, [], map[])
  }

  predicate ByOrder(a: Entry, b: Entry) {
    if a.createdAt == b.createdAt then a.order <= b.order else a.createdAt < b.createdAt
  }

  predicate Ready(e: Entry) { e.status == Pending && !e.hold }

  predicate FirstOfRoom(s: Entries, n: nat)
    requires n < |s|
  {
    forall i | 0 <= i < n :: s[i].roomId != s[n].roomId
  }

  /** One walk over the ordered entries: the first of each room blocks the rest, and counts if it is ready. */
  function ReadyHeads(s: Entries): Entries {
    if s == [] then []
    else
      var n := |s| - 1;
      ReadyHeads(s[..n]) + if FirstOfRoom(s, n) && Ready(s[n]) then [s[n]] else []
  }

  function PendingQueue(entries: Entries): Entries { ReadyHeads(SortStable(ByOrder, entries)) }

  function Unheld(entries: Entries): Entries { Map((e: Entry) => e.(hold := false), entries) }

  function Without(entries: Entries, id: nat): Entries { Filter((e: Entry) => e.id != id, entries) }

  function WithoutRoom(entries: Entries, room: string): Entries { Filter((e: Entry) => e.roomId != room, entries) }

  /** Mutate the object with this id, wherever it still is in the list. */
  function Patch(entries: Entries, id: nat, status: Status, attempts: nat, lastError: Option<string>, hold: bool): Entries {
    Map((e: Entry) => if e.id == id then e.(status := status, attempts := attempts, lastError := lastError, hold := hold) else e,
        entries)
  }

  function Persist(b: Box, waiter: Waiter): Box {
    if b.disposed then b else b.(writes := b.writes + [Write(Unheld(b.entries), waiter)])
  }

  function Land(b: Box): Box { b.(flushing := false, flight := NoFlight) }

  /** The top of the flush loop: mark the first ready head and save the mark, or stop. */
  function PickNext(b: Box): Box {
    var queue := PendingQueue(b.entries);
    if queue != [] && b.online && b.hasSender && !b.disposed then
      var e := queue[0];
      var marked := Patch(b.entries, e.id, Sending, e.attempts, e.lastError, e.hold);
      Persist(b.(entries := marked, flight := SavingMark(e.(status := Sending))), ForMark)
    else
      Land(b)
  }

  function FlushBegin(b: Box): Box {
    if b.disposed || !b.hasSender || !b.online || b.flushing then b else PickNext(b.(flushing := true))
  }

  function AfterMark(b: Box): Box
    requires b.flight.MarkSaved?
  {
    if !b.flight.ok || b.disposed then Land(b) else b.(flight := AtSender(b.flight.entry))
  }

  predicate BacksOff(e: Entry, max: nat, result: SendResult) { result.Unreachable? && e.attempts + 1 < max }

  /** What an answer does to the list: gone, held for the backoff timer, or failed. */
  function Outcome(entries: Entries, e: Entry, max: nat, result: SendResult): Entries {
    match result
    case Delivered => Without(entries, e.id)
    case Refused(error) => Patch(entries, e.id, Failed, e.attempts, Some(error), e.hold)
    case Unreachable(error) =>
      var again := BacksOff(e, max, result);
      Patch(entries, e.id, if again then Pending else Failed, e.attempts + 1, Some(error), again || e.hold)
  }

  function AfterSend(b: Box, max: nat, result: SendResult): Box
    requires b.flight.AtSender?
  {
    if b.disposed then Land(b)
    else
      var e := b.flight.entry;
      Persist(b.(entries := Outcome(b.entries, e, max, result), timer := b.timer || BacksOff(e, max, result),
                 flight := SavingResult), ForResult)
  }

  function AfterResult(b: Box): Box
    requires b.flight.ResultSaved?
  {
    if b.flight.ok then PickNext(b) else Land(b)
  }

  /** How a write's outcome reaches the flush that waits for it. */
  function Awaited(f: Flight, waiter: Waiter, ok: bool): Flight {
    if waiter.ForMark? && f.SavingMark? then MarkSaved(f.entry, ok)
    else if waiter.ForResult? && f.SavingResult? then ResultSaved(ok)
    else f
  }

  /** The oldest queued write finished; its waiter learns how. */
  function SaveDone(b: Box, ok: bool): Box
    requires b.writes != []
  {
    var waiter := b.writes[0].waiter;
    b.(writes := b.writes[1..],
       settled := if waiter.ForEnqueue? then b.settled[waiter.id := ok] else b.settled,
       flight := Awaited(b.flight, waiter, ok))
  }

  function Enqueue(b: Box, id: nat, room: string, clientId: string, payload: string, now: int): Box
    requires !b.disposed
  {
    var e := Entry(id, b.nextOrder, Pending, room, clientId, payload, 0, None, now, false);
    Persist(b.(entries := b.entries + [e], nextOrder := b.nextOrder + 1), ForEnqueue(id))
  }

  /** The caller of `enqueue` resumes: a failed save takes the entry back out. */
  function EnqueueSettled(b: Box, id: nat): Box
    requires id in b.settled
  {
    var b' := b.(settled := b.settled - {id});
    if b.settled[id] then b' else b'.(entries := Without(b.entries, id))
  }

  predicate HasEntry(entries: Entries, id: nat) { exists i | 0 <= i < |entries| :: entries[i].id == id }

  function Find(entries: Entries, id: nat): (r: Option<Entry>)
    ensures r.Some? <==> HasEntry(entries, id)
    ensures r.Some? ==> r.value in entries && r.value.id == id
  {
    FindFrom(entries, id, 0)
  }

  function FindFrom(entries: Entries, id: nat, i: nat): (r: Option<Entry>)
    requires i <= |entries|
    ensures r.Some? <==> exists j | i <= j < |entries| :: entries[j].id == id
    ensures r.Some? ==> r.value in entries && r.value.id == id
    decreases |entries| - i
  {
    if i == |entries| then None else if entries[i].id == id then Some(entries[i]) else FindFrom(entries, id, i + 1)
  }

  function Retry(b: Box, id: nat): Box {
    match Find(b.entries, id)
    case Some(e) =>
      if e.status == Failed
      then Persist(b.(entries := Patch(b.entries, id, Pending, 0, None, e.hold)), ForFollowUp)
      else b
    case None => b
  }

  function Remove(b: Box, id: nat): Box {
    Persist(b.(entries := Without(b.entries, id)), ForFollowUp)
  }

  function RemoveRoom(b: Box, room: string): Box {
    Persist(b.(entries := WithoutRoom(b.entries, room)), ForOther)
  }

  function SetOnline(b: Box, online: bool): Box {
    if b.disposed then b else if online then FlushBegin(b.(online := true)) else b.(online := false)
  }

  function SetSender(b: Box): Box {
    var b' := b.(hasSender := true);
    if b.online then FlushBegin(b') else b'
  }

  function TimerFired(b: Box): Box {
    if b.timer then FlushBegin(b.(timer := false, entries := Unheld(b.entries))) else b
  }

  function Dispose(b: Box): Box { b.(disposed := true, online := false, timer := false) }

  function MaxOrder(entries: Entries): int {
    if entries == [] then 0 else Max(MaxOrder(entries[..|entries| - 1]), entries[|entries| - 1].order)
  }

  function Revive(entries: Entries): Entries {
    Map((e: Entry) => if e.status == Sending then e.(status := Pending) else e, entries)
  }

  function NotYetHere(entries: Entries, loaded: Entries): Entries {
    Filter((e: Entry) => !HasEntry(entries, e.id), loaded)
  }

  /** Hydrate from the last session's rows; rows already here win. */
  function Restore(b: Box, loaded: Entries): Box {
    if b.disposed then b
    else
      var entries := Revive(NotYetHere(b.entries, loaded)) + b.entries;
      var b' := b.(entries := entries, nextOrder := MaxOrder(entries) + 1);
      if b.online then FlushBegin(b') else b'
  }

  class Outbox {
    const maxAttempts: nat
    var entries: Entries
    var nextOrder: int
    var online: bool
    var disposed: bool
    var hasSender: bool
    var flushing: bool
    var retryTimer: bool
    var flight: Flight
    var writes: seq<Write>
    var settled: map<nat, bool>

    function Model(): Box
      reads this
    {
      Box(entries, nextOrder, online, disposed, hasSender, flushing, retryTimer, flight, writes, settled)
    }

    constructor (hasSender: bool, maxAttempts: nat)
      ensures Model() == NewBox(hasSender) && this.maxAttempts == maxAttempts
    {
      this.maxAttempts := maxAttempts;
      entries, nextOrder, online, disposed := [], 1, false, false;
      this.hasSender := hasSender;
      flushing, retryTimer, flight, writes, settled := false, false, NoFlight, [], map[];
    }

    method PersistNow(waiter: Waiter)
      modifies this`writes
      ensures Model() == Persist(old(Model()), waiter)
    {
      if disposed {
        return;
      }
      writes := writes + [Write(Unheld(entries), waiter)];
    }

    method CollectQueue() returns (queue: Entries)
      ensures queue == PendingQueue(entries)
    {
      var sorted := SortStable(ByOrder, entries);
      var blocked: set<string> := {};
      queue := [];
      for i := 0 to |sorted|
        invariant queue == ReadyHeads(sorted[..i])
        invariant forall r :: r in blocked <==> exists j | 0 <= j < i :: sorted[j].roomId == r
      {
        assert sorted[..i + 1][..i] == sorted[..i];
        if sorted[i].roomId !in blocked {
          blocked := blocked + {sorted[i].roomId};
          if sorted[i].status == Pending && !sorted[i].hold {
            queue := queue + [sorted[i]];
          }
        }
      }
      assert sorted[..|sorted|] == sorted;
    }

    method MarkNext()
      modifies this
      ensures Model() == PickNext(old(Model()))
    {
      var queue := CollectQueue();
      if queue != [] && online && hasSender && !disposed {
        var e := queue[0];
        entries := Patch(entries, e.id, Sending, e.attempts, e.lastError, e.hold);
        flight := SavingMark(e.(status := Sending));
        PersistNow(ForMark);
      } else {
        flushing, flight := false, NoFlight;
      }
    }

    method Flush()
      modifies this
      ensures Model() == FlushBegin(old(Model()))
    {
      if disposed || !hasSender || !online || flushing {
        return;
      }
      flushing := true;
      MarkNext();
    }

    method ResumeAfterMark()
      requires flight.MarkSaved?
      modifies this
      ensures Model() == AfterMark(old(Model()))
    {
      if !flight.ok || disposed {
        flushing, flight := false, NoFlight;
      } else {
        flight := AtSender(flight.entry);
      }
    }

    method ResumeAfterSend(result: SendResult)
      requires flight.AtSender?
      modifies this
      ensures Model() == AfterSend(old(Model()), maxAttempts, result)
    {
      if disposed {
        flushing, flight := false, NoFlight;
        return;
      }
      var e := flight.entry;
      match result {
        case Delivered =>
          entries := Without(entries, e.id);
        case Unreachable(error) =>
          if e.attempts + 1 >= maxAttempts {
            entries := Patch(entries, e.id, Failed, e.attempts + 1, Some(error), e.hold);
          } else {
            entries := Patch(entries, e.id, Pending, e.attempts + 1, Some(error), true);
            retryTimer := true;
          }
        case Refused(error) =>
          entries := Patch(entries, e.id, Failed, e.attempts, Some(error), e.hold);
      }
      flight := SavingResult;
      PersistNow(ForResult);
    }

    method ResumeAfterResult()
      requires flight.ResultSaved?
      modifies this
      ensures Model() == AfterResult(old(Model()))
    {
      if flight.ok {
        MarkNext();
      } else {
        flushing, flight := false, NoFlight;
      }
    }

    /** The write-behind chain advances by one: the oldest snapshot has reached the cache, or failed to. */
    method WriteSettled(ok: bool) returns (snapshot: Entries)
      requires writes != []
      modifies this
      ensures Model() == SaveDone(old(Model()), ok) && snapshot == old(writes[0].snapshot)
    {
      var w := writes[0];
      writes := writes[1..];
      match w.waiter {
        case ForEnqueue(id) => settled := settled[id := ok];
        case ForMark => if flight.SavingMark? { flight := MarkSaved(flight.entry, ok); }
        case ForResult => if flight.SavingResult? { flight := ResultSaved(ok); }
        case ForFollowUp =>
        case ForOther =>
      }
      snapshot := w.snapshot;
    }

    method EnqueueDraft(id: nat, room: string, clientId: string, payload: string, now: int) returns (accepted: bool)
      modifies this
      ensures accepted == !old(disposed)
      ensures Model() == if accepted then Enqueue(old(Model()), id, room, clientId, payload, now) else old(Model())
    {
      if disposed {
        return false;
      }
      var e := Entry(id, nextOrder, Pending, room, clientId, payload, 0, None, now, false);
      nextOrder := nextOrder + 1;
      entries := entries + [e];
      PersistNow(ForEnqueue(id));
      accepted := true;
    }

    method ResumeEnqueue(id: nat) returns (resolved: bool)
      requires id in settled
      modifies this
      ensures resolved == old(settled[id]) && Model() == EnqueueSettled(old(Model()), id)
    {
      resolved := settled[id];
      settled := settled - {id};
      if !resolved {
        entries := Without(entries, id);
      }
    }

    method RetryEntry(id: nat)
      modifies this
      ensures Model() == Retry(old(Model()), id)
    {
      var found := Find(entries, id);
      if found.None? || found.value.status != Failed {
        return;
      }
      entries := Patch(entries, id, Pending, 0, None, found.value.hold);
      PersistNow(ForFollowUp);
    }

    method RemoveEntry(id: nat)
      modifies this
      ensures Model() == Remove(old(Model()), id)
    {
      entries := Without(entries, id);
      PersistNow(ForFollowUp);
    }

    method RemoveRoomEntries(room: string)
      modifies this
      ensures Model() == RemoveRoom(old(Model()), room)
    {
      entries := WithoutRoom(entries, room);
      PersistNow(ForOther);
    }

    method GoOnline(isOnline: bool)
      modifies this
      ensures Model() == SetOnline(old(Model()), isOnline)
    {
      if disposed {
        return;
      }
      online := isOnline;
      if isOnline {
        Flush();
      }
    }

    method InstallSender()
      modifies this
      ensures Model() == SetSender(old(Model()))
    {
      hasSender := true;
      if online {
        Flush();
      }
    }

    method RetryTimerFired()
      requires retryTimer
      modifies this
      ensures Model() == TimerFired(old(Model()))
    {
      retryTimer := false;
      var n := |entries|;
      for i := 0 to n
        invariant |entries| == n == |old(entries)| && Model() == old(Model()).(timer := false, entries := entries)
        invariant forall j | 0 <= j < i :: entries[j] == old(entries)[j].(hold := false)
        invariant forall j | i <= j < n :: entries[j] == old(entries)[j]
      {
        entries := entries[i := entries[i].(hold := false)];
      }
      assert entries == Unheld(old(entries));
      Flush();
    }

    method DisposeNow()
      modifies this
      ensures Model() == Dispose(old(Model()))
    {
      disposed, online, retryTimer := true, false, false;
    }

    method RestoreFrom(loaded: Entries)
      modifies this
      ensures Model() == Restore(old(Model()), loaded)
    {
      if disposed {
        return;
      }
      entries := Revive(NotYetHere(entries, loaded)) + entries;
      nextOrder := MaxOrder(entries) + 1;
      if online {
        Flush();
      }
    }
  }
}
