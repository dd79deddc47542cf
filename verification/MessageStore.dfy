/** The per-room message window: its state, what each mutator does to it, and the class that does it. */
module MessageStores {
  import opened Common
  import opened Sorting
  import opened Messages
  import opened MessageTable

  datatype Gap = Gap(roomId: string, afterSeq: int, beforeSeq: int)

  datatype View = View(messages: seq<Message>, needsFill: Option<Gap>, fillTimedOut: bool, prependCount: nat)

  datatype Store = Store(
    roomId: string, rows: Rows, seeded: bool, view: View, timerArmed: bool,
    pending: set<string>, dirty: map<string, seq<seq<ReactionCount>>>,
    touched: map<string, int>, versions: map<string, nat>)
  {
    function Version(id: string): nat {
      if id in versions then versions[id] else 0
    }
  }

  function Empty(roomId: string): Store {
    Store(roomId, [], false, View([], None, false, 0), false, {}, map[], map[], map[])
  }

  function Bump(s: Store, id: string): Store {
    s.(versions := s.versions[id := s.Version(id) + 1])
  }

  /** The summary of an incoming copy is not taken: our request is in flight, or the page predates our last write. */
  predicate KeepsSummary(s: Store, id: string, fetchedAt: Option<int>) {
    || id in s.pending
    || (fetchedAt.Some? && id in s.touched && fetchedAt.value <= s.touched[id])
  }

  /** Write one row; `bump` when the write is a summary write. */
  function Write(s: Store, m: Message, bump: bool): Store {
    var s' := s.(rows := SetRow(s.rows, m));
    if bump then Bump(s', m.id) else s'
  }

  function Absorb(s: Store, previous: Message, message: Message, fetchedAt: Option<int>): Store {
    var keep := KeepsSummary(s, message.id, fetchedAt);
    Write(s, MergeExisting(previous, message, keep), MergeBumps(previous, message, keep))
  }

  function Insert(s: Store, m: Message, fetchedAt: Option<int>): Store {
    match Lookup(s.rows, m.id)
    case Some(previous) => Absorb(s, previous, m, fetchedAt)
    case None =>
      if m.clientMessageId.Some? && HasClientId(s.rows, m.clientMessageId.value)
      then s
      else Write(s, m, true)
  }

  function InsertAll(s: Store, ms: seq<Message>, fetchedAt: Option<int>): Store {
    if ms == [] then s else Insert(InsertAll(s, ms[..|ms| - 1], fetchedAt), ms[|ms| - 1], fetchedAt)
  }

  function Recompute(s: Store, prepended: nat): Store {
    var sorted := Sorted(s.rows);
    var cut := Cut(sorted);
    if s.seeded && cut < |sorted|
    then s.(view := View(sorted[..cut], Some(Gap(s.roomId, sorted[cut - 1].seqNo, sorted[cut].seqNo)), false, prepended),
            timerArmed := true)
    else s.(view := View(sorted, None, false, prepended), timerArmed := false)
  }

  /** How many rows now come before the row that used to be first. */
  function Prepended(before: Rows, after: Rows): nat {
    var head := HeadSeq(before);
    var m, n := CountBelow(before, head), CountBelow(after, head);
    if n > m then n - m else 0
  }

  function Add(s: Store, ms: seq<Message>, fetchedAt: Option<int>): Store {
    var s' := InsertAll(s, ms, fetchedAt);
    Recompute(s', Prepended(s.rows, s'.rows))
  }

  function MergePage(s: Store, ms: seq<Message>, fetchedAt: Option<int>): Store {
    Recompute(InsertAll(s, ms, fetchedAt).(seeded := true), 0)
  }

  function ConfirmClientMessage(s: Store, c: string, confirmed: Message, fetchedAt: Option<int>): Store {
    Add(s.(rows := DeleteFirstWithClientId(s.rows, c)), [confirmed], fetchedAt)
  }

  function FillDelivered(s: Store, ms: seq<Message>, fetchedAt: Option<int>): Store {
    Add(s.(timerArmed := false), ms, fetchedAt)
  }

  /** One row of a stubs page: `previous` is the table as it was before the page replaced it. */
  function ReplaceOne(s: Store, previous: Rows, m: Message, fetchedAt: Option<int>): Store {
    match Lookup(previous, m.id)
    case None => Write(s, m, true)
    case Some(before) => Absorb(s, before, m, fetchedAt)
  }

  function ReplaceRows(s: Store, page: seq<Message>, fetchedAt: Option<int>): Store {
    if page == [] then s.(rows := [])
    else ReplaceOne(ReplaceRows(s, page[..|page| - 1], fetchedAt), s.rows, page[|page| - 1], fetchedAt)
  }

  function Replace(s: Store, page: seq<Message>, fetchedAt: Option<int>): Store {
    var s' := ReplaceRows(s, page, fetchedAt);
    s'.(seeded := true, timerArmed := false, view := View(Sorted(s'.rows), None, false, 0))
  }

  function Tombstone(m: Message, deletedAt: Timestamp, reason: string): Message {
    m.(body := None, attachments := [], reactions := Some([]), myReaction := Some(None),
       deletedAt := Some(deletedAt), deleteReason := Some(reason))
  }

  function MarkDeleted(s: Store, id: string, deletedAt: Timestamp, reason: string): Store {
    match Lookup(s.rows, id)
    case None => s
    case Some(m) => Recompute(Write(s, Tombstone(m, deletedAt, reason), true), 0)
  }

  /** `mine == None` is the omitted argument: the viewer's own pick stays. */
  function SetReactions(s: Store, id: string, counts: seq<ReactionCount>, mine: Option<Option<string>>, now: int): Store {
    match Lookup(s.rows, id)
    case None => s
    case Some(m) =>
      if m.Deleted() then s
      else
        var m' := m.(reactions := Some(counts), myReaction := mine.Or(m.myReaction));
        Recompute(Write(s.(touched := s.touched[id := now]), m', true), 0)
  }

  function FreshStubs(senders: seq<Option<UserStub>>): map<string, UserStub> {
    if senders == [] then map[]
    else
      var rest := FreshStubs(senders[..|senders| - 1]);
      match senders[|senders| - 1]
      case None => rest
      case Some(u) => rest[u.id := u]
  }

  function AvatarPart(u: UserStub): (Option<string>, Option<string>, Option<string>) {
    match u.avatar
    case Some(Some(a)) => (Some(a.sm), Some(a.md), a.animated)
    case _ => (None, None, None)
  }

  predicate SameStub(a: UserStub, b: UserStub) {
    && a.displayName == b.displayName && a.username == b.username
    && a.avatarAttachmentId == b.avatarAttachmentId
    && AvatarPart(a) == AvatarPart(b)
  }

  predicate NeedsRestamp(m: Message, stubs: map<string, UserStub>) {
    m.senderId in stubs && m.sender.Some? && !SameStub(m.sender.value, stubs[m.senderId])
  }

  function Restamp(m: Message, stubs: map<string, UserStub>): Message {
    if !NeedsRestamp(m, stubs) then m
    else
      var next := stubs[m.senderId];
      m.(sender := Some(next.(avatar := next.avatar.Or(m.sender.value.avatar))))
  }

  function RestampAll(rows: Rows, stubs: map<string, UserStub>): Rows {
    Map(m => Restamp(m, stubs), rows)
  }

  function RefreshFrom(rows: Rows, shown: seq<Message>): seq<Message> {
    Map((m: Message) => Lookup(rows, m.id).GetOr(m), shown)
  }

  function RestampStore(s: Store, stubs: map<string, UserStub>): Store {
    var rows := RestampAll(s.rows, stubs);
    s.(rows := rows, view := s.view.(messages := RefreshFrom(rows, s.view.messages)))
  }

  function UpdateSenders(s: Store, senders: seq<Option<UserStub>>): Store {
    var stubs := FreshStubs(senders);
    if forall m | m in s.rows :: !NeedsRestamp(m, stubs) then s else RestampStore(s, stubs)
  }

  function FillTimeout(s: Store): Store {
    if s.timerArmed
    then s.(timerArmed := false, view := View(Sorted(s.rows), None, true, 0))
    else s
  }

  function BeginReaction(s: Store, id: string): Store {
    s.(pending := s.pending + {id})
  }

  function MarkReactionDirty(s: Store, id: string, snapshot: seq<ReactionCount>): Store {
    if id !in s.pending then s
    else s.(dirty := s.dirty[id := (if id in s.dirty then s.dirty[id] else []) + [snapshot]])
  }

  function EndReaction(s: Store, id: string): Store {
    s.(pending := s.pending - {id}, dirty := s.dirty - {id})
  }

  class MessageStore {
    const roomId: string
    var byId: Rows
    var seeded: bool
    var state: View
    var fillTimer: bool
    var reactionPending: set<string>
    var reactionDirty: map<string, seq<seq<ReactionCount>>>
    var reactionTouched: map<string, int>
    var reactionVersions: map<string, nat>

    function Model(): Store
      reads this
    {
      Store(roomId, byId, seeded, state, fillTimer, reactionPending, reactionDirty, reactionTouched, reactionVersions)
    }

    constructor (roomId: string)
      ensures Model() == Empty(roomId)
    {
      this.roomId := roomId;
      byId, seeded, state, fillTimer := [], false, View([], None, false, 0), false;
      reactionPending, reactionDirty, reactionTouched, reactionVersions := {}, map[], map[], map[];
    }

    method BumpReactionVersion(id: string)
      modifies this`reactionVersions
      ensures Model() == Bump(old(Model()), id)
    {
      var version := if id in reactionVersions then reactionVersions[id] else 0;
      reactionVersions := reactionVersions[id := version + 1];
    }

    /** The merge of one loaded row; bumps the version as a side effect, as `mergeExisting` does. */
    method MergeRow(previous: Message, message: Message, fetchedAt: Option<int>) returns (merged: Message)
      modifies this`reactionVersions
      ensures var keep := KeepsSummary(old(Model()), message.id, fetchedAt);
              && merged == MergeExisting(previous, message, keep)
              && Model() == if MergeBumps(previous, message, keep) then Bump(old(Model()), message.id) else old(Model())
    {
      if previous.Deleted() && !message.Deleted() {
        return previous;
      }
      if message.Deleted() {
        if !previous.Deleted() {
          BumpReactionVersion(message.id);
        }
        return Spread(previous, message).(reactions := Some([]), myReaction := Some(None));
      }
      if previous.editCount > message.editCount {
        return previous;
      }
      var staleSummary := fetchedAt.Some? && message.id in reactionTouched && fetchedAt.value <= reactionTouched[message.id];
      if message.id in reactionPending || staleSummary {
        return Spread(previous, message).(reactions := previous.reactions, myReaction := previous.myReaction);
      }
      if message.reactions.Some? || message.myReaction.Some? {
        BumpReactionVersion(message.id);
      }
      return Spread(previous, message);
    }

    method WriteRow(m: Message)
      modifies this`byId, this`reactionVersions
      ensures Model() == Write(old(Model()), m, true)
    {
      byId := SetRow(byId, m);
      BumpReactionVersion(m.id);
    }

    method InsertOne(message: Message, fetchedAt: Option<int>)
      modifies this`byId, this`reactionVersions
      ensures Model() == Insert(old(Model()), message, fetchedAt)
    {
      var previous := Lookup(byId, message.id);
      if previous.Some? {
        var merged := MergeRow(previous.value, message, fetchedAt);
        byId := SetRow(byId, merged);
        return;
      }
      if message.clientMessageId.Some? {
        for i := 0 to |byId|
          invariant forall j | 0 <= j < i :: byId[j].clientMessageId != message.clientMessageId
        {
          if byId[i].clientMessageId == message.clientMessageId {
            return;
          }
        }
      }
      WriteRow(message);
    }

    method InsertEach(messages: seq<Message>, fetchedAt: Option<int>)
      modifies this`byId, this`reactionVersions
      ensures Model() == InsertAll(old(Model()), messages, fetchedAt)
    {
      for i := 0 to |messages|
        invariant Model() == InsertAll(old(Model()), messages[..i], fetchedAt)
      {
        assert messages[..i + 1][..i] == messages[..i];
        InsertOne(messages[i], fetchedAt);
      }
      assert messages[..|messages|] == messages;
    }

    /** The contiguous run from the head ends at the first skip. */
    method FirstSkip(sorted: Rows) returns (cut: nat)
      ensures cut == Cut(sorted)
    {
      var i := 1;
      while i < |sorted|
        invariant 1 <= i && (sorted != [] ==> i <= |sorted| && NoJump(sorted[..i]) && CutFrom(sorted, 1) == CutFrom(sorted, i))
      {
        if sorted[i].seqNo > sorted[i - 1].seqNo + 1 {
          return i;
        }
        i := i + 1;
      }
      cut := |sorted|;
    }

    /** Publish the contiguous run from the head and arm the fill timer if anything is withheld. */
    method RecomputeView(prepended: nat)
      modifies this`state, this`fillTimer
      ensures Model() == Recompute(old(Model()), prepended)
    {
      var sorted := Sorted(byId);
      if seeded {
        var cut := FirstSkip(sorted);
        if cut < |sorted| {
          var gap := Gap(roomId, sorted[cut - 1].seqNo, sorted[cut].seqNo);
          state := View(sorted[..cut], Some(gap), false, prepended);
          fillTimer := true;
          return;
        }
      }
      fillTimer := false;
      state := View(sorted, None, false, prepended);
    }

    method AddMessages(incoming: seq<Message>, fetchedAt: Option<int>) returns (view: View)
      modifies this
      ensures Model() == Add(old(Model()), incoming, fetchedAt) && view == state
    {
      var headSeq := HeadSeq(byId);
      var before := CountBelow(byId, headSeq);
      InsertEach(incoming, fetchedAt);
      var after := CountBelow(byId, headSeq);
      RecomputeView(if after > before then after - before else 0);
      view := state;
    }

    method MergeHistoryPage(messages: seq<Message>, fetchedAt: Option<int>)
      modifies this
      ensures Model() == MergePage(old(Model()), messages, fetchedAt)
    {
      InsertEach(messages, fetchedAt);
      seeded := true;
      RecomputeView(0);
    }

    method Confirm(clientMessageId: string, confirmed: Message, fetchedAt: Option<int>)
      modifies this
      ensures Model() == ConfirmClientMessage(old(Model()), clientMessageId, confirmed, fetchedAt)
    {
      var optimistic := FirstWithClientId(byId, clientMessageId);
      if optimistic.Some? {
        byId := byId[..optimistic.value] + byId[optimistic.value + 1..];
      }
      var _ := AddMessages([confirmed], fetchedAt);
    }

    method DeliverFill(messages: seq<Message>, fetchedAt: Option<int>)
      modifies this
      ensures Model() == FillDelivered(old(Model()), messages, fetchedAt)
    {
      fillTimer := false;
      var _ := AddMessages(messages, fetchedAt);
    }

    method ReplaceRow(previous: Rows, message: Message, fetchedAt: Option<int>)
      modifies this`byId, this`reactionVersions
      ensures Model() == ReplaceOne(old(Model()), previous, message, fetchedAt)
    {
      var before := Lookup(previous, message.id);
      if before.None? {
        WriteRow(message);
      } else {
        var merged := MergeRow(before.value, message, fetchedAt);
        byId := SetRow(byId, merged);
      }
    }

    method ReplaceAll(messages: seq<Message>, fetchedAt: Option<int>) returns (view: View)
      modifies this
      ensures Model() == Replace(old(Model()), messages, fetchedAt) && view == state
    {
      var previous := byId;
      byId := [];
      for i := 0 to |messages|
        invariant Model() == ReplaceRows(old(Model()), messages[..i], fetchedAt)
      {
        assert messages[..i + 1][..i] == messages[..i];
        ReplaceRow(previous, messages[i], fetchedAt);
      }
      assert messages[..|messages|] == messages;
      seeded := true;
      fillTimer := false;
      state := View(Sorted(byId), None, false, 0);
      view := state;
    }

    method MarkRowDeleted(id: string, deletedAt: Timestamp, reason: string)
      modifies this
      ensures Model() == MarkDeleted(old(Model()), id, deletedAt, reason)
    {
      var existing := Lookup(byId, id);
      if existing.Some? {
        WriteRow(Tombstone(existing.value, deletedAt, reason));
        RecomputeView(0);
      }
    }

    method OverwriteReactions(id: string, counts: seq<ReactionCount>, mine: Option<Option<string>>, now: int)
      modifies this
      ensures Model() == SetReactions(old(Model()), id, counts, mine, now)
    {
      var existing := Lookup(byId, id);
      if existing.None? || existing.value.Deleted() {
        return;
      }
      reactionTouched := reactionTouched[id := now];
      WriteRow(existing.value.(reactions := Some(counts), myReaction := mine.Or(existing.value.myReaction)));
      RecomputeView(0);
    }

    method CollectStubs(senders: seq<Option<UserStub>>) returns (stubs: map<string, UserStub>)
      ensures stubs == FreshStubs(senders)
    {
      stubs := map[];
      for i := 0 to |senders|
        invariant stubs == FreshStubs(senders[..i])
      {
        assert senders[..i + 1][..i] == senders[..i];
        if senders[i].Some? {
          stubs := stubs[senders[i].value.id := senders[i].value];
        }
      }
      assert senders[..|senders|] == senders;
    }

    method RestampSenders(senders: seq<Option<UserStub>>)
      modifies this
      ensures Model() == UpdateSenders(old(Model()), senders)
    {
      var stubs := CollectStubs(senders);
      if stubs == map[] {
        assert RestampAll(byId, stubs) == byId;
        return;
      }
      var changed := RestampRows(stubs);
      if !changed {
        return;
      }
      state := state.(messages := RefreshFrom(byId, state.messages));
    }

    /** The pass over the loaded rows. */
    method RestampRows(stubs: map<string, UserStub>) returns (changed: bool)
      modifies this`byId
      ensures byId == RestampAll(old(byId), stubs) && (changed <==> exists m | m in old(byId) :: NeedsRestamp(m, stubs))
    {
      var rows := byId;
      changed := false;
      for i := 0 to |rows|
        invariant |byId| == |rows|
        invariant forall j | 0 <= j < i :: byId[j] == Restamp(rows[j], stubs)
        invariant forall j | i <= j < |rows| :: byId[j] == rows[j]
        invariant changed <==> exists j | 0 <= j < i :: NeedsRestamp(rows[j], stubs)
      {
        if NeedsRestamp(rows[i], stubs) {
          byId := byId[i := Restamp(rows[i], stubs)];
          changed := true;
        }
      }
      assert byId == RestampAll(rows, stubs);
      assert (exists m | m in rows :: NeedsRestamp(m, stubs)) <==> (exists j | 0 <= j < |rows| :: NeedsRestamp(rows[j], stubs));
    }

    method FillTimerFired()
      modifies this
      ensures Model() == FillTimeout(old(Model()))
    {
      if fillTimer {
        fillTimer := false;
        state := View(Sorted(byId), None, true, 0);
      }
    }

    method Dispose()
      modifies this`fillTimer
      ensures Model() == old(Model()).(timerArmed := false)
    {
      fillTimer := false;
    }

    method TryBeginReaction(id: string) returns (begun: bool)
      modifies this`reactionPending
      ensures begun == (id !in old(Model()).pending)
      ensures Model() == BeginReaction(old(Model()), id)
    {
      begun := id !in reactionPending;
      reactionPending := reactionPending + {id};
    }

    method MarkDirty(id: string, snapshot: seq<ReactionCount>)
      modifies this`reactionDirty
      ensures Model() == MarkReactionDirty(old(Model()), id, snapshot)
    {
      if id in reactionPending {
        reactionDirty := reactionDirty[id := (if id in reactionDirty then reactionDirty[id] else []) + [snapshot]];
      }
    }

    method FinishReaction(id: string) returns (withheld: Option<seq<seq<ReactionCount>>>)
      modifies this`reactionPending, this`reactionDirty
      ensures withheld == if id in old(Model()).dirty then Some(old(Model()).dirty[id]) else None
      ensures Model() == EndReaction(old(Model()), id)
    {
      reactionPending := reactionPending - {id};
      withheld := if id in reactionDirty then Some(reactionDirty[id]) else None;
      reactionDirty := reactionDirty - {id};
    }
  }
}
