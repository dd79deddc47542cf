/** Reaction summaries: the canonical order, and the optimistic toggle with its exact effect on every count. */
module Reactions {
  import opened Common
  import opened Sorting
  import opened Messages
  import opened Emoji

  type Counts = seq<ReactionCount>

  /** Count descending, emoji ascending. */
  predicate ChipLe(x: ReactionCount, y: ReactionCount) {
    if x.count != y.count then x.count > y.count else EmojiLe(x.emoji, y.emoji)
  }

  function SortReactions(counts: Counts): Counts { SortStable(ChipLe, counts) }

  lemma ChipOrderIsTotal()
    ensures TotalPreorder(ChipLe) && Antisymmetric(ChipLe)
  {
    EmojiOrderIsTotal();
    forall x, y ensures ChipLe(x, y) || ChipLe(y, x) {
      assert EmojiLe(x.emoji, y.emoji) || EmojiLe(y.emoji, x.emoji);
    }
    forall x, y, z | ChipLe(x, y) && ChipLe(y, z) ensures ChipLe(x, z) {
      assert EmojiLe(x.emoji, y.emoji) && EmojiLe(y.emoji, z.emoji) ==> EmojiLe(x.emoji, z.emoji);
    }
    forall x, y | ChipLe(x, y) && ChipLe(y, x) ensures x == y {
      assert EmojiLe(x.emoji, y.emoji) && EmojiLe(y.emoji, x.emoji);
    }
  }

  /** Chips never reshuffle: every arrangement of the same counts sorts to one list. */
  lemma SortIsCanonical(a: Counts, b: Counts)
    requires multiset(a) == multiset(b)
    ensures SortReactions(a) == SortReactions(b)
  {
    ChipOrderIsTotal();
    SortSorts(ChipLe, a);
    SortSorts(ChipLe, b);
    SortPermutes(ChipLe, a);
    SortPermutes(ChipLe, b);
    SortedIsUnique(ChipLe, SortReactions(a), SortReactions(b));
  }

  // ---- the counts as a map from emoji, in insertion order ----

  ghost predicate Distinct(counts: Counts) {
    forall i, j | 0 <= i < j < |counts| :: counts[i].emoji != counts[j].emoji
  }

  predicate HasEmoji(counts: Counts, e: string) {
    exists i | 0 <= i < |counts| :: counts[i].emoji == e
  }

  function GetCount(counts: Counts, e: string): (r: Option<int>)
    ensures r.Some? <==> HasEmoji(counts, e)
    ensures r.Some? ==> ReactionCount(e, r.value) in counts
  {
    GetCountFrom(counts, e, 0)
  }

  function GetCountFrom(counts: Counts, e: string, i: nat): (r: Option<int>)
    requires i <= |counts|
    ensures r.Some? <==> exists j | i <= j < |counts| :: counts[j].emoji == e
    ensures r.Some? ==> ReactionCount(e, r.value) in counts
    decreases |counts| - i
  {
    if i == |counts| then None
    else if counts[i].emoji == e then
      assert counts[i] == ReactionCount(e, counts[i].count);
      Some(counts[i].count)
    else GetCountFrom(counts, e, i + 1)
  }

  function SetCount(counts: Counts, e: string, n: int): Counts {
    if HasEmoji(counts, e)
    then seq(|counts|, i requires 0 <= i < |counts| => if counts[i].emoji == e then ReactionCount(e, n) else counts[i])
    else counts + [ReactionCount(e, n)]
  }

  function DeleteEmoji(counts: Counts, e: string): Counts {
    if counts == [] then []
    else
      var n := |counts| - 1;
      var rest := DeleteEmoji(counts[..n], e);
      if counts[n].emoji == e then rest else rest + [counts[n]]
  }

  /** In a list without repeated emoji, reading a count and being listed are the same. */
  lemma GetCountIsMembership(counts: Counts, e: string, n: int)
    requires Distinct(counts)
    ensures GetCount(counts, e) == Some(n) <==> ReactionCount(e, n) in counts
  {
  }

  lemma SetCountFacts(counts: Counts, e: string, n: int)
    requires Distinct(counts)
    ensures Distinct(SetCount(counts, e, n))
    ensures forall x :: GetCount(SetCount(counts, e, n), x) == if x == e then Some(n) else GetCount(counts, x)
  {
    var r := SetCount(counts, e, n);
    forall x ensures GetCount(r, x) == if x == e then Some(n) else GetCount(counts, x) {
      if x == e {
        var i := if HasEmoji(counts, e) then var i :| 0 <= i < |counts| && counts[i].emoji == e; i else |counts|;
        assert r[i] == ReactionCount(e, n);
        GetCountIsMembership(r, e, n);
      } else if HasEmoji(counts, x) {
        var i :| 0 <= i < |counts| && counts[i].emoji == x;
        assert r[i] == counts[i] == ReactionCount(x, counts[i].count);
        GetCountIsMembership(r, x, counts[i].count);
        GetCountIsMembership(counts, x, counts[i].count);
      } else {
        assert !HasEmoji(r, x);
      }
    }
  }

  lemma {:induction false} DeleteMembers(counts: Counts, e: string)
    ensures forall c :: c in DeleteEmoji(counts, e) <==> c in counts && c.emoji != e
  {
    if counts != [] {
      var n := |counts| - 1;
      DeleteMembers(counts[..n], e);
      assert counts == counts[..n] + [counts[n]];
    }
  }

  lemma {:induction false} DeleteKeepsDistinct(counts: Counts, e: string)
    requires Distinct(counts)
    ensures Distinct(DeleteEmoji(counts, e))
  {
    if counts != [] {
      var n := |counts| - 1;
      DeleteKeepsDistinct(counts[..n], e);
      DeleteMembers(counts[..n], e);
      forall c | c in DeleteEmoji(counts[..n], e) ensures c.emoji != counts[n].emoji {
        var i :| 0 <= i < n && counts[i] == c;
      }
    }
  }

  lemma DeleteFacts(counts: Counts, e: string)
    requires Distinct(counts)
    ensures Distinct(DeleteEmoji(counts, e))
    ensures forall x :: GetCount(DeleteEmoji(counts, e), x) == if x == e then None else GetCount(counts, x)
  {
    DeleteKeepsDistinct(counts, e);
    DeleteMembers(counts, e);
    var r := DeleteEmoji(counts, e);
    forall x ensures GetCount(r, x) == if x == e then None else GetCount(counts, x) {
      if GetCount(r, x).Some? {
        GetCountIsMembership(counts, x, GetCount(r, x).value);
      } else if x != e && GetCount(counts, x).Some? {
        GetCountIsMembership(r, x, GetCount(counts, x).value);
      }
    }
  }

  function BuildCounts(counts: Counts): Counts {
    if counts == [] then []
    else
      var last := counts[|counts| - 1];
      SetCount(BuildCounts(counts[..|counts| - 1]), last.emoji, last.count)
  }

  lemma {:induction false} BuildOfDistinct(counts: Counts)
    requires Distinct(counts)
    ensures BuildCounts(counts) == counts
  {
    if counts != [] {
      var n := |counts| - 1;
      var init, last := counts[..n], counts[n];
      forall i | 0 <= i < n ensures init[i] == counts[i] {}
      BuildOfDistinct(init);
      assert !HasEmoji(init, last.emoji);
      assert SetCount(init, last.emoji, last.count) == init + [last];
      assert counts == init + [last];
    }
  }

  // ---- the toggle ----

  /** Take one vote away from `mine`; a pick that was not counted at all just disappears. */
  function Withdraw(counts: Counts, mine: Option<string>): Counts {
    match mine
    case None => counts
    case Some(e) =>
      var left := GetCount(counts, e).GetOr(1) - 1;
      if left > 0 then SetCount(counts, e, left) else DeleteEmoji(counts, e)
  }

  function Vote(counts: Counts, next: Option<string>): Counts {
    match next
    case None => counts
    case Some(e) => SetCount(counts, e, GetCount(counts, e).GetOr(0) + 1)
  }

  function NextPick(mine: Option<string>, raw: string): Option<string> {
    if mine == Some(Canonical(raw)) then None else Some(Canonical(raw))
  }

  function Toggle(s: Summary, raw: string): Summary {
    var next := NextPick(s.mine, raw);
    Summary(SortReactions(Vote(Withdraw(BuildCounts(s.counts), s.mine), next)), next)
  }

  method CountReactions(reactions: Counts) returns (counts: Counts)
    ensures counts == BuildCounts(reactions)
  {
    counts := [];
    for i := 0 to |reactions|
      invariant counts == BuildCounts(reactions[..i])
    {
      assert reactions[..i + 1][..i] == reactions[..i];
      counts := SetCount(counts, reactions[i].emoji, reactions[i].count);
    }
    assert reactions[..|reactions|] == reactions;
  }

  method TakeBack(counts: Counts, mine: Option<string>) returns (r: Counts)
    ensures r == Withdraw(counts, mine)
  {
    r := counts;
    if mine.Some? {
      var count := GetCount(counts, mine.value);
      var left := count.GetOr(1) - 1;
      if left > 0 {
        r := SetCount(counts, mine.value, left);
      } else {
        r := DeleteEmoji(counts, mine.value);
      }
    }
  }

  method Cast(counts: Counts, next: Option<string>) returns (r: Counts)
    ensures r == Vote(counts, next)
  {
    r := counts;
    if next.Some? {
      r := SetCount(counts, next.value, GetCount(counts, next.value).GetOr(0) + 1);
    }
  }

  method ToggleReaction(s: Summary, raw: string) returns (r: Summary)
    ensures r == Toggle(s, raw)
  {
    var emoji := Canonical(raw);
    var counts := CountReactions(s.counts);
    counts := TakeBack(counts, s.mine);
    var next := if s.mine == Some(emoji) then None else Some(emoji);
    counts := Cast(counts, next);
    r := Summary(SortReactions(counts), next);
  }

  /** What the server keeps true of a summary: distinct chips, no empty chip, and the viewer's pick among them. */
  ghost predicate Coherent(s: Summary) {
    && Distinct(s.counts)
    && (forall c | c in s.counts :: c.count >= 1)
    && (s.mine.Some? ==> HasEmoji(s.counts, s.mine.value))
  }

  /** Votes for one emoji; none when there is no chip. */
  function Votes(counts: Counts, e: string): int { GetCount(counts, e).GetOr(0) }

  function One(pick: Option<string>, e: string): int { if pick == Some(e) then 1 else 0 }

  lemma {:induction false} DistinctHasNoRepeats(counts: Counts)
    requires Distinct(counts)
    ensures forall c | c in counts :: multiset(counts)[c] == 1
  {
    if counts != [] {
      var n := |counts| - 1;
      DistinctHasNoRepeats(counts[..n]);
      assert counts == counts[..n] + [counts[n]];
      assert counts[n] !in counts[..n];
    }
  }

  lemma RepeatIsCounted(r: Counts, i: nat, j: nat)
    requires i < j < |r| && r[i] == r[j]
    ensures multiset(r)[r[i]] >= 2
  {
    assert r == r[..j] + r[j..] && r[i] in r[..j] && r[j] in r[j..];
    assert multiset(r) == multiset(r[..j]) + multiset(r[j..]);
  }

  lemma SortKeepsCounts(counts: Counts)
    requires Distinct(counts)
    ensures Distinct(SortReactions(counts))
    ensures forall e :: GetCount(SortReactions(counts), e) == GetCount(counts, e)
  {
    var r := SortReactions(counts);
    SortPermutes(ChipLe, counts);
    SameMembers(r, counts);
    DistinctHasNoRepeats(counts);
    forall i, j | 0 <= i < j < |r| ensures r[i].emoji != r[j].emoji {
      assert r[i] in counts && r[j] in counts;
      assert r[i] != r[j] by {
        if r[i] == r[j] { RepeatIsCounted(r, i, j); }
      }
    }
    forall e ensures GetCount(r, e) == GetCount(counts, e) {
      if GetCount(r, e).Some? {
        GetCountIsMembership(counts, e, GetCount(r, e).value);
      } else if GetCount(counts, e).Some? {
        GetCountIsMembership(r, e, GetCount(counts, e).value);
      }
    }
  }

  /** One toggle moves exactly one vote: off the old pick, onto the new one, and nothing else changes. */
  lemma ToggleMovesOneVote(s: Summary, raw: string)
    requires Coherent(s)
    ensures var r := Toggle(s, raw);
            && Coherent(r)
            && r.mine == NextPick(s.mine, raw)
            && forall e :: Votes(r.counts, e) == Votes(s.counts, e) - One(s.mine, e) + One(r.mine, e)
  {
    BuildOfDistinct(s.counts);
    var next := NextPick(s.mine, raw);
    var w := Withdraw(s.counts, s.mine);
    WithdrawFacts(s.counts, s.mine);
    var v := Vote(w, next);
    VoteFacts(w, next);
    SortKeepsCounts(v);
    var r := SortReactions(v);
    PositiveVotes(v, r);
    assert next.Some? ==> GetCount(r, next.value) == GetCount(v, next.value);
    forall e ensures Votes(r, e) == Votes(s.counts, e) - One(s.mine, e) + One(next, e) {
      assert GetCount(r, e) == GetCount(v, e);
    }
  }

  lemma PositiveVotes(v: Counts, r: Counts)
    requires Distinct(v) && Distinct(r) && (forall e :: GetCount(r, e) == GetCount(v, e))
    requires forall c | c in v :: c.count >= 1
    ensures forall c | c in r :: c.count >= 1
  {
    forall c | c in r ensures c.count >= 1 {
      GetCountIsMembership(r, c.emoji, c.count);
      GetCountIsMembership(v, c.emoji, c.count);
      assert ReactionCount(c.emoji, c.count) == c;
    }
  }

  lemma WithdrawFacts(counts: Counts, mine: Option<string>)
    requires Distinct(counts) && (forall c | c in counts :: c.count >= 1)
    requires mine.Some? ==> HasEmoji(counts, mine.value)
    ensures var w := Withdraw(counts, mine);
            && Distinct(w) && (forall c | c in w :: c.count >= 1)
            && forall e :: Votes(w, e) == Votes(counts, e) - One(mine, e)
  {
    if mine.Some? {
      var left := GetCount(counts, mine.value).GetOr(1) - 1;
      SetCountFacts(counts, mine.value, left);
      DeleteFacts(counts, mine.value);
      DeleteMembers(counts, mine.value);
      SetMembers(counts, mine.value, left);
      assert ReactionCount(mine.value, left + 1) in counts;
    }
  }

  lemma SetMembers(counts: Counts, e: string, n: int)
    ensures forall c | c in SetCount(counts, e, n) :: c == ReactionCount(e, n) || c in counts
  {
  }

  lemma VoteFacts(counts: Counts, next: Option<string>)
    requires Distinct(counts) && (forall c | c in counts :: c.count >= 1)
    ensures var v := Vote(counts, next);
            && Distinct(v) && (forall c | c in v :: c.count >= 1)
            && (next.Some? ==> HasEmoji(v, next.value))
            && forall e :: Votes(v, e) == Votes(counts, e) + One(next, e)
  {
    if next.Some? {
      var n := GetCount(counts, next.value).GetOr(0) + 1;
      SetCountFacts(counts, next.value, n);
      SetMembers(counts, next.value, n);
      assert GetCount(Vote(counts, next), next.value) == Some(n);
    }
  }

  function Total(counts: Counts): int {
    if counts == [] then 0 else Total(counts[..|counts| - 1]) + counts[|counts| - 1].count
  }

  lemma TotalOfAppend(counts: Counts, c: ReactionCount)
    ensures Total(counts + [c]) == Total(counts) + c.count
  {
    assert (counts + [c])[..|counts|] == counts;
  }

  lemma {:induction false} TotalOfInsert(s: Counts, x: ReactionCount)
    ensures Total(InsertStable(ChipLe, s, x)) == Total(s) + x.count
  {
    if s == [] || ChipLe(s[|s| - 1], x) {
      TotalOfAppend(s, x);
    } else {
      TotalOfInsert(s[..|s| - 1], x);
      TotalOfAppend(InsertStable(ChipLe, s[..|s| - 1], x), s[|s| - 1]);
    }
  }

  lemma {:induction false} TotalOfSort(s: Counts)
    ensures Total(SortReactions(s)) == Total(s)
  {
    if s != [] {
      TotalOfSort(s[..|s| - 1]);
      TotalOfInsert(SortReactions(s[..|s| - 1]), s[|s| - 1]);
    }
  }

  lemma VotesOfAppend(counts: Counts, last: ReactionCount, e: string)
    requires Distinct(counts + [last])
    ensures Votes(counts + [last], e) == if last.emoji == e then last.count else Votes(counts, e)
    ensures last.emoji == e ==> !HasEmoji(counts, e)
  {
    var all := counts + [last];
    forall i | 0 <= i < |counts| ensures counts[i].emoji != last.emoji {
      assert all[i] == counts[i] && all[|counts|] == last;
    }
    assert last == all[|counts|] && ReactionCount(last.emoji, last.count) == last;
    GetCountIsMembership(all, last.emoji, last.count);
    if last.emoji != e {
      if GetCount(counts, e).Some? {
        GetCountIsMembership(all, e, GetCount(counts, e).value);
      } else {
        assert !HasEmoji(all, e);
      }
    }
  }

  lemma SetOfAppend(init: Counts, last: ReactionCount, e: string, n: int)
    requires Distinct(init + [last]) && HasEmoji(init + [last], e)
    ensures last.emoji == e ==> SetCount(init + [last], e, n) == init + [ReactionCount(e, n)]
    ensures last.emoji != e ==> HasEmoji(init, e) && SetCount(init + [last], e, n) == SetCount(init, e, n) + [last]
  {
    var counts := init + [last];
    if last.emoji == e {
      forall i | 0 <= i < |init| ensures init[i].emoji != e { assert counts[i] == init[i]; }
    } else {
      var k :| 0 <= k < |counts| && counts[k].emoji == e;
      assert init[k].emoji == e;
    }
  }

  lemma {:induction false} TotalOfSet(counts: Counts, e: string, n: int)
    requires Distinct(counts)
    ensures Total(SetCount(counts, e, n)) == Total(counts) - Votes(counts, e) + n
  {
    if counts == [] || !HasEmoji(counts, e) {
      TotalOfAppend(counts, ReactionCount(e, n));
    } else {
      var init, last := counts[..|counts| - 1], counts[|counts| - 1];
      assert counts == init + [last];
      VotesOfAppend(init, last, e);
      SetOfAppend(init, last, e, n);
      if last.emoji == e {
        TotalOfAppend(init, ReactionCount(e, n));
      } else {
        TotalOfSet(init, e, n);
        TotalOfAppend(SetCount(init, e, n), last);
      }
    }
  }

  lemma {:induction false} TotalOfDelete(counts: Counts, e: string)
    requires Distinct(counts)
    ensures Total(DeleteEmoji(counts, e)) == Total(counts) - Votes(counts, e)
  {
    if counts != [] {
      var init, last := counts[..|counts| - 1], counts[|counts| - 1];
      assert counts == init + [last];
      VotesOfAppend(init, last, e);
      TotalOfDelete(init, e);
      TotalOfAppend(DeleteEmoji(init, e), last);
    }
  }

  /** The total moves by exactly (a new pick is made) minus (an old pick was there). */
  lemma ToggleMovesTotal(s: Summary, raw: string)
    requires Coherent(s)
    ensures var r := Toggle(s, raw);
            Total(r.counts) == Total(s.counts) + (if r.mine.Some? then 1 else 0) - (if s.mine.Some? then 1 else 0)
  {
    BuildOfDistinct(s.counts);
    var next := NextPick(s.mine, raw);
    var w := Withdraw(s.counts, s.mine);
    WithdrawFacts(s.counts, s.mine);
    if s.mine.Some? {
      TotalOfSet(s.counts, s.mine.value, Votes(s.counts, s.mine.value) - 1);
      TotalOfDelete(s.counts, s.mine.value);
      PresentVotes(s.counts, s.mine.value);
    }
    if next.Some? {
      TotalOfSet(w, next.value, Votes(w, next.value) + 1);
    }
    TotalOfSort(Vote(w, next));
  }

  /** Two coherent, sorted summaries with the same votes everywhere are the same list. */
  lemma SortedVotesDetermineChips(a: Counts, b: Counts)
    requires Distinct(a) && Distinct(b)
    requires (forall c | c in a :: c.count >= 1) && (forall c | c in b :: c.count >= 1)
    requires forall e :: Votes(a, e) == Votes(b, e)
    ensures multiset(a) == multiset(b)
    ensures SortReactions(a) == SortReactions(b)
  {
    forall c ensures c in a <==> c in b {
      assert ReactionCount(c.emoji, c.count) == c;
      GetCountIsMembership(a, c.emoji, c.count);
      GetCountIsMembership(b, c.emoji, c.count);
      assert Votes(a, c.emoji) == Votes(b, c.emoji);
      PresentVotes(a, c.emoji);
      PresentVotes(b, c.emoji);
    }
    DistinctHasNoRepeats(a);
    DistinctHasNoRepeats(b);
    forall c ensures multiset(a)[c] == multiset(b)[c] {
      if c !in a {
        assert c !in multiset(a) && c !in multiset(b);
      }
    }
    SortIsCanonical(a, b);
  }

  lemma PresentVotes(a: Counts, e: string)
    requires forall c | c in a :: c.count >= 1
    ensures Votes(a, e) >= 1 <==> GetCount(a, e).Some?
  {
  }

  /** Toggling back to the pick one started from restores the summary exactly. */
  lemma ToggleBackRestores(s: Summary, raw: string)
    requires Coherent(s) && SortReactions(s.counts) == s.counts
    requires s.mine.Some? ==> Canonical(s.mine.value) == s.mine.value
    ensures var back := if s.mine.Some? then s.mine.value else raw;
            Toggle(Toggle(s, raw), back) == s
  {
    var back := if s.mine.Some? then s.mine.value else raw;
    var r := Toggle(s, raw);
    var q := Toggle(r, back);
    BackAgain(s, raw, back);
    SortedVotesDetermineChips(q.counts, s.counts);
    ToggleIsSorted(r, back);
  }

  lemma BackAgain(s: Summary, raw: string, back: string)
    requires Coherent(s) && (s.mine.Some? ==> back == s.mine.value && Canonical(back) == back) && (s.mine.None? ==> back == raw)
    ensures var q := Toggle(Toggle(s, raw), back);
            Coherent(q) && q.mine == s.mine && forall e :: Votes(q.counts, e) == Votes(s.counts, e)
  {
    var r := Toggle(s, raw);
    ToggleMovesOneVote(s, raw);
    ToggleMovesOneVote(r, back);
  }

  lemma ToggleIsSorted(s: Summary, raw: string)
    ensures SortReactions(Toggle(s, raw).counts) == Toggle(s, raw).counts
  {
    var v := Vote(Withdraw(BuildCounts(s.counts), s.mine), NextPick(s.mine, raw));
    ChipOrderIsTotal();
    SortSorts(ChipLe, v);
    SortOfSorted(ChipLe, SortReactions(v));
  }
}
