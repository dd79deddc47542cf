/** Message rows and the one rule by which a loaded row absorbs an incoming copy of itself. */
module Messages {
  import opened Common

  /** ISO timestamps; never the empty string, so presence and JavaScript truthiness coincide. */
  type Timestamp = s: string | s != "" witness "0"

  datatype ReactionCount = ReactionCount(emoji: string, count: int)

  datatype UserAvatar = UserAvatar(sm: string, md: string, animated: Option<string>)

  /** `avatar` is optional and nullable: absent, present-null or present. */
  datatype UserStub = UserStub(
    id: string, username: string, displayName: string,
    avatarAttachmentId: Option<string>, avatar: Option<Option<UserAvatar>>)

  /**
    * `forwardedFrom`, `reactions` and `myReaction` may be absent from a payload; every other
    * field is always present. `rest` stands for the remaining always-present fields.
    */
  datatype Message = Message(
    id: string, seqNo: int, senderId: string, sender: Option<UserStub>, body: Option<string>,
    clientMessageId: Option<string>, editCount: int, editedAt: Option<Timestamp>,
    deletedAt: Option<Timestamp>, deleteReason: Option<string>, attachments: seq<string>, rest: string,
    forwardedFrom: Option<Option<string>>,
    reactions: Option<seq<ReactionCount>>, myReaction: Option<Option<string>>)
  {
    predicate Deleted() { deletedAt.Some? }
  }

  /** What a viewer sees of a reaction summary: an absent key reads as empty. */
  datatype Summary = Summary(counts: seq<ReactionCount>, mine: Option<string>)

  const NO_SUMMARY := Summary([], None)

  function SummaryOf(m: Message): Summary {
    Summary(m.reactions.GetOr([]), m.myReaction.GetOr(None))
  }

  /** `{...previous, ...message}` */
  function Spread(previous: Message, message: Message): Message {
    message.(forwardedFrom := message.forwardedFrom.Or(previous.forwardedFrom),
             reactions := message.reactions.Or(previous.reactions),
             myReaction := message.myReaction.Or(previous.myReaction))
  }

  /** `keepSummary`: a reaction request is in flight, or the page was fetched before the local summary write. */
  function MergeExisting(previous: Message, message: Message, keepSummary: bool): Message {
    if previous.Deleted() && !message.Deleted() then
      previous
    else if message.Deleted() then
      Spread(previous, message).(reactions := Some([]), myReaction := Some(None))
    else if previous.editCount > message.editCount then
      previous
    else if keepSummary then
      Spread(previous, message).(reactions := previous.reactions, myReaction := previous.myReaction)
    else
      Spread(previous, message)
  }

  /** Whether that merge bumps the row's reaction version. */
  predicate MergeBumps(previous: Message, message: Message, keepSummary: bool) {
    if message.Deleted() then
      !previous.Deleted()
    else
      && !previous.Deleted()
      && previous.editCount <= message.editCount
      && !keepSummary
      && (message.reactions.Some? || message.myReaction.Some?)
  }

  /** A merge that leaves the version alone leaves the summary alone, except on a tombstone that still carried one. */
  lemma UnbumpedMergeKeepsSummary(previous: Message, message: Message, keepSummary: bool)
    requires !MergeBumps(previous, message, keepSummary)
    ensures SummaryOf(MergeExisting(previous, message, keepSummary)) == SummaryOf(previous)
            <==> !(previous.Deleted() && message.Deleted() && SummaryOf(previous) != NO_SUMMARY)
  {
    var merged := MergeExisting(previous, message, keepSummary);
    if message.Deleted() {
      assert SummaryOf(merged) == NO_SUMMARY;
    }
  }

  // ---- convergence of server copies ----

  /** A tombstone outranks every edit; live copies rank by edit count. */
  predicate RankLe(a: Message, b: Message) {
    b.Deleted() || (!a.Deleted() && a.editCount <= b.editCount)
  }

  /** No copy of the list outranks this one. */
  ghost predicate Top(copies: seq<Message>, m: Message) {
    m in copies && forall c | c in copies :: RankLe(c, m)
  }

  /** Every field but the optional keys and the sender's profile stub. */
  function Content(m: Message): Message {
    m.(sender := None, forwardedFrom := None, reactions := None, myReaction := None)
  }

  /** Live copies with one edit count carry one body. Their signed URLs and reply snippets may differ. */
  ghost predicate AgreeOnBody(copies: seq<Message>) {
    forall a, b | a in copies && b in copies && !a.Deleted() && !b.Deleted() && a.editCount == b.editCount :: a.body == b.body
  }

  ghost predicate SameCopies(a: seq<Message>, b: seq<Message>) {
    forall m :: m in a <==> m in b
  }

  /** Absorb copies one after another, each with its own summary-freshness verdict. */
  function FoldCopies(copies: seq<Message>, keeps: seq<bool>): Message
    requires 0 < |copies| == |keeps|
  {
    var n := |copies| - 1;
    if n == 0 then copies[0] else MergeExisting(FoldCopies(copies[..n], keeps[..n]), copies[n], keeps[n])
  }

  lemma MergeNeverLowersRank(previous: Message, message: Message, keepSummary: bool)
    ensures RankLe(previous, MergeExisting(previous, message, keepSummary))
    ensures RankLe(message, MergeExisting(previous, message, keepSummary))
  {
  }

  /** The incoming copy's content is taken exactly if nothing loaded outranks it. */
  lemma MergeTakesContent(previous: Message, message: Message, keepSummary: bool)
    ensures Content(MergeExisting(previous, message, keepSummary)) ==
            if RankLe(previous, message) then Content(message) else Content(previous)
  {
  }

  lemma ContentKeepsRank(a: Message, b: Message)
    requires Content(a) == Content(b)
    ensures a.Deleted() == b.Deleted() && a.editCount == b.editCount && a.body == b.body
  {
    assert Content(a).deletedAt == a.deletedAt && Content(b).deletedAt == b.deletedAt;
    assert Content(a).editCount == a.editCount && Content(b).editCount == b.editCount;
    assert Content(a).body == a.body && Content(b).body == b.body;
  }

  /** The fold carries, field by field, the content of the last copy that no copy outranks. */
  lemma {:induction false} FoldIsTheLastTop(copies: seq<Message>, keeps: seq<bool>) returns (k: nat)
    requires 0 < |copies| == |keeps|
    ensures k < |copies| && Top(copies, copies[k])
    ensures forall j | k < j < |copies| :: !Top(copies, copies[j])
    ensures Content(FoldCopies(copies, keeps)) == Content(copies[k])
  {
    var n := |copies| - 1;
    if n == 0 {
      k := 0;
    } else {
      k := FoldIsTheLastTop(copies[..n], keeps[..n]);
      var before := FoldCopies(copies[..n], keeps[..n]);
      ContentKeepsRank(before, copies[k]);
      MergeTakesContent(before, copies[n], keeps[n]);
      k := LastTopOfOneMore(copies, k);
    }
  }

  lemma LastTopOfOneMore(copies: seq<Message>, before: nat) returns (k: nat)
    requires |copies| > 1 && before < |copies| - 1 && Top(copies[..|copies| - 1], copies[before])
    requires forall j | before < j < |copies| - 1 :: !Top(copies[..|copies| - 1], copies[j])
    ensures k == if RankLe(copies[before], copies[|copies| - 1]) then |copies| - 1 else before
    ensures Top(copies, copies[k]) && forall j | k < j < |copies| :: !Top(copies, copies[j])
  {
    var n := |copies| - 1;
    assert copies == copies[..n] + [copies[n]];
    k := if RankLe(copies[before], copies[n]) then n else before;
    forall j | before < j < n ensures !Top(copies, copies[j]) {
      assert copies[..n][j] == copies[j];
      var c :| c in copies[..n] && !RankLe(c, copies[j]);
      assert c in copies;
    }
  }

  /** Tombstoned if any copy was; otherwise the edit with the highest count wins. */
  lemma MergeOutcome(copies: seq<Message>, keeps: seq<bool>)
    requires 0 < |copies| == |keeps|
    ensures var r := FoldCopies(copies, keeps);
            && (r.Deleted() <==> exists c | c in copies :: c.Deleted())
            && (!r.Deleted() ==> forall c | c in copies :: c.editCount <= r.editCount)
            && exists c | c in copies :: c.body == r.body && c.editCount == r.editCount && c.Deleted() == r.Deleted()
  {
    var k := FoldIsTheLastTop(copies, keeps);
    ContentKeepsRank(FoldCopies(copies, keeps), copies[k]);
    assert copies[k] in copies;
  }

  /**
    * Any arrival order, with any repeats, of the same server copies ends in the same state of the message:
    * deleted or not, and if not, the same body and edit count.
    */
  lemma MergeConverges(a: seq<Message>, aKeeps: seq<bool>, b: seq<Message>, bKeeps: seq<bool>)
    requires 0 < |a| == |aKeeps| && 0 < |b| == |bKeeps|
    requires SameCopies(a, b) && AgreeOnBody(a)
    ensures var x, y := FoldCopies(a, aKeeps), FoldCopies(b, bKeeps);
            && x.Deleted() == y.Deleted()
            && (!x.Deleted() ==> x.body == y.body && x.editCount == y.editCount)
  {
    var i := FoldIsTheLastTop(a, aKeeps);
    var j := FoldIsTheLastTop(b, bKeeps);
    ContentKeepsRank(FoldCopies(a, aKeeps), a[i]);
    ContentKeepsRank(FoldCopies(b, bKeeps), b[j]);
    assert RankLe(a[i], b[j]) && RankLe(b[j], a[i]);
  }

  /** Some other arrival of the same copies, with whatever verdicts, ends in other content. */
  ghost predicate Diverges(copies: seq<Message>, keeps: seq<bool>)
    requires 0 < |copies| == |keeps|
  {
    exists b, bKeeps | 0 < |b| == |bKeeps| && SameCopies(copies, b) ::
      Content(FoldCopies(b, bKeeps)) != Content(FoldCopies(copies, keeps))
  }

  /** The remaining fields converge exactly if the copies of the top rank agree on them. */
  lemma ContentConvergesIff(copies: seq<Message>, keeps: seq<bool>)
    requires 0 < |copies| == |keeps|
    ensures !Diverges(copies, keeps) <==>
            forall x, y | Top(copies, x) && Top(copies, y) :: Content(x) == Content(y)
  {
    var k := FoldIsTheLastTop(copies, keeps);
    if forall x, y | Top(copies, x) && Top(copies, y) :: Content(x) == Content(y) {
      forall b, bKeeps | 0 < |b| == |bKeeps| && SameCopies(copies, b)
        ensures Content(FoldCopies(b, bKeeps)) == Content(FoldCopies(copies, keeps))
      {
        var j := FoldIsTheLastTop(b, bKeeps);
        assert Top(copies, b[j]);
      }
    } else {
      var x, y :| Top(copies, x) && Top(copies, y) && Content(x) != Content(y);
      var z := if Content(x) == Content(copies[k]) then y else x;
      RedeliveredLast(copies, keeps, z);
    }
  }

  lemma RedeliveredLast(copies: seq<Message>, keeps: seq<bool>, z: Message)
    requires 0 < |copies| == |keeps| && Top(copies, z) && Content(z) != Content(FoldCopies(copies, keeps))
    ensures Diverges(copies, keeps)
  {
    var k := FoldIsTheLastTop(copies, keeps);
    ContentKeepsRank(FoldCopies(copies, keeps), copies[k]);
    FoldOfOneMore(copies, keeps, z);
    assert SameCopies(copies, copies + [z]);
  }

  lemma FoldOfOneMore(copies: seq<Message>, keeps: seq<bool>, z: Message)
    requires 0 < |copies| == |keeps| && RankLe(FoldCopies(copies, keeps), z)
    ensures Content(FoldCopies(copies + [z], keeps + [false])) == Content(z)
  {
    var b, bKeeps := copies + [z], keeps + [false];
    assert b[..|copies|] == copies && bKeeps[..|copies|] == keeps;
    MergeTakesContent(FoldCopies(copies, keeps), z, false);
  }

  /** Two fetches of one version, the later with re-signed attachments: the order of arrival decides which it keeps. */
  lemma RefetchedAttachmentsDiverge(m: Message, signed: seq<string>)
    requires !m.Deleted() && signed != m.attachments
    ensures var n := m.(attachments := signed);
            && FoldCopies([m, n], [false, false]).attachments == signed
            && FoldCopies([n, m], [false, false]).attachments == m.attachments
  {
    var n := m.(attachments := signed);
    assert [m, n][..1] == [m] && [n, m][..1] == [n] && [false, false][..1] == [false];
    assert FoldCopies([m, n], [false, false]) == MergeExisting(m, n, false);
    assert FoldCopies([n, m], [false, false]) == MergeExisting(n, m, false);
  }
}
