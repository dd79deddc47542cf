/** The outbox in its world: the cache below it, crashes, and a record of what was promised and sent. */
module OutboxRuns {
  import opened Sorting
  import opened Outboxes

  datatype Draft = Draft(roomId: string, clientMessageId: string, payload: string)

  datatype Sent = Sent(id: nat, draft: Draft)

  /**
    * `resolved`: enqueues that returned to their caller. `delivered`: the sender answered ok. `dropped`: removed
    * by the user or with their room. `stranded`: their mark could not be saved, this session.
    */
  datatype History = History(
    sends: seq<Sent>, drafts: map<nat, Draft>,
    resolved: set<nat>, delivered: set<nat>, dropped: set<nat>, stranded: set<nat>)

  /** `disk` is the last completed `saveOutbox` snapshot. */
  datatype World = World(box: Box, disk: Entries, nextId: nat, clock: int, history: History)

  datatype Event =
    | Crashed(hasSender: bool)
    | Enqueued(draft: Draft, now: int)
    | EnqueueResumed(id: nat)
    | Retried(id: nat)
    | Removed(id: nat)
    | RoomRemoved(room: string)
    | WentOnline(online: bool)
    | SenderSet
    | Flushed
    | TimerTicked
    | Saved(ok: bool)
    | MarkResumed
    | Answered(result: SendResult)
    | ResultResumed
    | WasDisposed

  function Start(hasSender: bool): World {
    World(NewBox(hasSender), [], 0, 0, History([], map[], {}, {}, {}, {}))
  }

  function DraftOf(e: Entry): Draft { Draft(e.roomId, e.clientMessageId, e.payload) }

  function IdsOfRoom(entries: Entries, room: string): set<nat> {
    set e | e in entries && e.roomId == room :: e.id
  }

  /** Events that take entries out, put one back to work, or end the outbox. */
  predicate Edits(e: Event) { e.EnqueueResumed? || e.Retried? || e.Removed? || e.RoomRemoved? || e.WasDisposed? }

  function EditStep(b: Box, e: Event): Box
    requires Edits(e)
  {
    match e
    case EnqueueResumed(id) => if id in b.settled then EnqueueSettled(b, id) else b
    case Retried(id) => Retry(b, id)
    case Removed(id) => Remove(b, id)
    case RoomRemoved(room) => RemoveRoom(b, room)
    case WasDisposed => Dispose(b)
  }

  /** Events that may start the next send. */
  predicate Flushes(e: Event) { e.WentOnline? || e.SenderSet? || e.Flushed? || e.TimerTicked? || e.ResultResumed? }

  function FlushStep(b: Box, e: Event): Box
    requires Flushes(e)
  {
    match e
    case WentOnline(online) => SetOnline(b, online)
    case SenderSet => SetSender(b)
    case Flushed => FlushBegin(b)
    case TimerTicked => TimerFired(b)
    case ResultResumed => if b.flight.ResultSaved? then AfterResult(b) else b
  }

  /** Events that a suspended flush, or the write behind it, is waiting for. */
  predicate Progresses(e: Event) { e.Saved? || e.MarkResumed? || e.Answered? }

  function ProgressStep(b: Box, max: nat, e: Event): Box
    requires Progresses(e)
  {
    match e
    case Saved(ok) => if b.writes == [] then b else SaveDone(b, ok)
    case MarkResumed => if b.flight.MarkSaved? then AfterMark(b) else b
    case Answered(result) => if b.flight.AtSender? then AfterSend(b, max, result) else b
  }

  function BoxStep(b: Box, max: nat, e: Event): Box
    requires !e.Crashed? && !e.Enqueued?
  {
    if Edits(e) then EditStep(b, e) else if Flushes(e) then FlushStep(b, e) else ProgressStep(b, max, e)
  }

  /** The mark's own outcome: the call goes out, or the entry is stranded, or the outbox was disposed. */
  function NotedMark(b: Box, h: History): History
    requires b.flight.MarkSaved?
  {
    var x := b.flight.entry;
    if AfterMark(b).flight.AtSender? then h.(sends := h.sends + [Sent(x.id, DraftOf(x))])
    else if !b.flight.ok then h.(stranded := h.stranded + {x.id})
    else h
  }

  function Noted(b: Box, h: History, e: Event): History {
    match e
    case EnqueueResumed(id) => if id in b.settled && b.settled[id] then h.(resolved := h.resolved + {id}) else h
    case Removed(id) => h.(dropped := h.dropped + {id})
    case RoomRemoved(room) => h.(dropped := h.dropped + IdsOfRoom(b.entries, room))
    case MarkResumed => if b.flight.MarkSaved? then NotedMark(b, h) else h
    case Answered(result) =>
      if b.flight.AtSender? && result.Delivered? then h.(delivered := h.delivered + {b.flight.entry.id}) else h
    case _ => h
  }

  function DiskAfter(w: World, e: Event): Entries {
    if e.Saved? && e.ok && w.box.writes != [] then w.box.writes[0].snapshot else w.disk
  }

  /** One step; an event whose moment has not come leaves the world as it is. */
  function Step(w: World, max: nat, e: Event): World {
    var b := w.box;
    var h := w.history;
    if e.Crashed? then w.(box := Restore(NewBox(e.hasSender), w.disk), history := h.(stranded := {}))
    else if e.Enqueued? then
      if b.disposed then w
      else w.(box := Enqueue(b, w.nextId, e.draft.roomId, e.draft.clientMessageId, e.draft.payload, e.now),
              nextId := w.nextId + 1, clock := e.now,
              history := h.(drafts := h.drafts[w.nextId := e.draft]))
    else w.(box := BoxStep(b, max, e), disk := DiskAfter(w, e), history := Noted(b, h, e))
  }

  function Run(w: World, max: nat, es: seq<Event>): World {
    if es == [] then w else Step(Run(w, max, es[..|es| - 1]), max, es[|es| - 1])
  }

  // ---- lists ----

  lemma UnheldHas(entries: Entries, id: nat)
    ensures HasEntry(Unheld(entries), id) <==> HasEntry(entries, id)
  {
    assert forall i | 0 <= i < |entries| :: Unheld(entries)[i].id == entries[i].id;
  }

  lemma HasIsMembership(entries: Entries, id: nat)
    ensures HasEntry(entries, id) <==> exists e | e in entries :: e.id == id
  {
    if HasEntry(entries, id) {
      var i :| 0 <= i < |entries| && entries[i].id == id;
      assert entries[i] in entries;
    }
  }

  lemma FilterHas(p: Entry -> bool, entries: Entries, id: nat)
    requires forall e | e in entries && e.id == id :: p(e)
    ensures HasEntry(Filter(p, entries), id) <==> HasEntry(entries, id)
  {
    FilterMembers(p, entries);
    HasIsMembership(entries, id);
    HasIsMembership(Filter(p, entries), id);
  }

  lemma WithoutHas(entries: Entries, gone: nat, id: nat)
    ensures HasEntry(Without(entries, gone), id) <==> id != gone && HasEntry(entries, id)
  {
    FilterMembers((e: Entry) => e.id != gone, entries);
    HasIsMembership(entries, id);
    HasIsMembership(Without(entries, gone), id);
  }

  lemma WithoutRoomHas(entries: Entries, room: string, id: nat)
    requires id !in IdsOfRoom(entries, room)
    ensures HasEntry(WithoutRoom(entries, room), id) <==> HasEntry(entries, id)
  {
    forall e | e in entries && e.id == id ensures e.roomId != room {
      assert e.roomId == room ==> e.id in IdsOfRoom(entries, room);
    }
    FilterHas((e: Entry) => e.roomId != room, entries, id);
  }

  lemma ReviveHas(entries: Entries, id: nat)
    ensures HasEntry(Revive(entries), id) <==> HasEntry(entries, id)
  {
    assert forall i | 0 <= i < |entries| :: Revive(entries)[i].id == entries[i].id;
  }

  lemma FreshBoxTakesAll(loaded: Entries)
    ensures NotYetHere([], loaded) == loaded
  {
    FilterAll((e: Entry) => !HasEntry([], e.id), loaded);
  }

  lemma SaveDoneShape(b: Box, ok: bool)
    requires b.writes != []
    ensures var b' := SaveDone(b, ok);
            && b'.entries == b.entries && b'.writes == b.writes[1..]
            && b'.settled == match b.writes[0].waiter
                             case ForEnqueue(x) => b.settled[x := ok]
                             case _ => b.settled
  {
  }

  lemma SavedStep(w: World, ok: bool, max: nat)
    requires w.box.writes != []
    ensures Step(w, max, Saved(ok)) ==
            w.(box := SaveDone(w.box, ok), disk := if ok then w.box.writes[0].snapshot else w.disk)
  {
    assert BoxStep(w.box, max, Saved(ok)) == ProgressStep(w.box, max, Saved(ok));
  }

  /** A new session starts from the last completed snapshot, with every interrupted send back to pending. */
  lemma CrashRestoresDisk(w: World, max: nat, hasSender: bool)
    ensures var b := Step(w, max, Crashed(hasSender)).box;
            && b.entries == Revive(w.disk) && b.nextOrder == MaxOrder(w.disk) + 1
            && b == NewBox(hasSender).(entries := b.entries, nextOrder := b.nextOrder)
            && forall e | e in b.entries :: e.status != Sending
  {
    FreshBoxTakesAll(w.disk);
    assert Revive(w.disk) + [] == Revive(w.disk);
    ReviveOrder(w.disk);
  }

  lemma {:induction false} ReviveOrder(entries: Entries)
    ensures MaxOrder(Revive(entries)) == MaxOrder(entries)
  {
    if entries != [] {
      ReviveOrder(entries[..|entries| - 1]);
      assert Revive(entries)[..|entries| - 1] == Revive(entries[..|entries| - 1]);
    }
  }
}
