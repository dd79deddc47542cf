/** The loaded rows of one room as a JavaScript `Map`: insertion-ordered, one row per id. */
module MessageTable {
  import opened Common
  import opened Sorting
  import opened Messages

  type Rows = seq<Message>

  ghost predicate UniqueIds(rows: Rows) {
    forall i, j | 0 <= i < j < |rows| :: rows[i].id != rows[j].id
  }

  predicate HasId(rows: Rows, id: string) {
    exists i | 0 <= i < |rows| :: rows[i].id == id
  }

  /** `map.get` */
  function Lookup(rows: Rows, id: string): (r: Option<Message>)
    ensures r.Some? <==> HasId(rows, id)
    ensures r.Some? ==> r.value in rows && r.value.id == id
  {
    LookupFrom(rows, id, 0)
  }

  function LookupFrom(rows: Rows, id: string, i: nat): (r: Option<Message>)
    requires i <= |rows|
    ensures r.Some? <==> exists j | i <= j < |rows| :: rows[j].id == id
    ensures r.Some? ==> r.value in rows && r.value.id == id
    decreases |rows| - i
  {
    if i == |rows| then None
    else if rows[i].id == id then Some(rows[i])
    else LookupFrom(rows, id, i + 1)
  }

  /** `map.set`: a known id keeps its place, a new one goes to the end. */
  function SetRow(rows: Rows, m: Message): Rows {
    if HasId(rows, m.id)
    then seq(|rows|, i requires 0 <= i < |rows| => if rows[i].id == m.id then m else rows[i])
    else rows + [m]
  }

  predicate HasClientId(rows: Rows, c: string) {
    exists i | 0 <= i < |rows| :: rows[i].clientMessageId == Some(c)
  }

  /** `[...values()].find(m => m.client_message_id === c)` */
  function FirstWithClientId(rows: Rows, c: string): (r: Option<nat>)
    ensures r.Some? <==> HasClientId(rows, c)
    ensures r.Some? ==> r.value < |rows| && rows[r.value].clientMessageId == Some(c)
    ensures r.Some? ==> forall i | 0 <= i < r.value :: rows[i].clientMessageId != Some(c)
  {
    if rows == [] then None
    else
      var n := |rows| - 1;
      var earlier := FirstWithClientId(rows[..n], c);
      assert forall i | 0 <= i < n :: rows[i] == rows[..n][i];
      if earlier.Some? then earlier
      else if rows[n].clientMessageId == Some(c) then Some(n)
      else None
  }

  function DeleteFirstWithClientId(rows: Rows, c: string): Rows {
    match FirstWithClientId(rows, c)
    case None => rows
    case Some(i) => rows[..i] + rows[i + 1..]
  }

  predicate BySeq(a: Message, b: Message) { a.seqNo <= b.seqNo }

  function Sorted(rows: Rows): Rows { SortStable(BySeq, rows) }

  ghost predicate NoJump(s: Rows) {
    forall i, j | 0 <= i < j < |s| && j == i + 1 :: s[j].seqNo <= s[i].seqNo + 1
  }

  /** Where the contiguous run from the head ends. */
  function Cut(s: Rows): (cut: nat)
    ensures cut <= |s|
    ensures NoJump(s[..cut])
    ensures cut < |s| ==> cut >= 1 && s[cut].seqNo > s[cut - 1].seqNo + 1
  {
    CutFrom(s, if s == [] then 0 else 1)
  }

  function CutFrom(s: Rows, i: nat): (cut: nat)
    requires i <= |s| && (i == 0 ==> s == [])
    requires NoJump(s[..i])
    ensures i <= cut <= |s|
    ensures NoJump(s[..cut])
    ensures cut < |s| ==> cut >= 1 && s[cut].seqNo > s[cut - 1].seqNo + 1
    decreases |s| - i
  {
    if i == |s| || s[i].seqNo > s[i - 1].seqNo + 1 then i else CutFrom(s, i + 1)
  }

  /** The smallest loaded seq; `None` is the `Infinity` of an empty table. */
  function HeadSeq(rows: Rows): (r: Option<int>)
    ensures r.None? <==> rows == []
    ensures r.Some? ==> (forall m | m in rows :: r.value <= m.seqNo) && exists m | m in rows :: m.seqNo == r.value
  {
    if rows == [] then None
    else
      var n := |rows| - 1;
      assert rows == rows[..n] + [rows[n]];
      match HeadSeq(rows[..n])
      case None => assert rows[n] in rows; Some(rows[n].seqNo)
      case Some(h) =>
        assert rows[n] in rows;
        Some(Min(h, rows[n].seqNo))
  }

  function CountBelow(rows: Rows, head: Option<int>): nat {
    if rows == [] then 0
    else
      var n := |rows| - 1;
      CountBelow(rows[..n], head) + if head.None? || rows[n].seqNo < head.value then 1 else 0
  }

  lemma SortedFacts(rows: Rows)
    ensures |Sorted(rows)| == |rows|
    ensures SortedBy(BySeq, Sorted(rows))
    ensures forall m :: m in Sorted(rows) <==> m in rows
  {
    SortSorts(BySeq, rows);
    SortPermutes(BySeq, rows);
    SameMembers(Sorted(rows), rows);
  }

  lemma LookupIsTheRow(rows: Rows, m: Message)
    requires UniqueIds(rows) && m in rows
    ensures Lookup(rows, m.id) == Some(m)
  {
    assert HasId(rows, m.id);
  }

  lemma SetRowFacts(rows: Rows, m: Message)
    requires UniqueIds(rows)
    ensures UniqueIds(SetRow(rows, m))
    ensures forall x :: x in SetRow(rows, m) <==> x == m || (x in rows && x.id != m.id)
  {
    var r := SetRow(rows, m);
    forall x ensures x in r <==> x == m || (x in rows && x.id != m.id) {
      if x in rows && x.id != m.id {
        var i :| 0 <= i < |rows| && rows[i] == x;
        assert r[i] == x;
      }
      if HasId(rows, m.id) {
        var i :| 0 <= i < |rows| && rows[i].id == m.id;
        assert r[i] == m;
      }
    }
  }

  lemma {:induction false} NothingBelow(rows: Rows, h: int)
    requires forall r | r in rows :: h <= r.seqNo
    ensures CountBelow(rows, Some(h)) == 0
  {
    if rows != [] {
      var n := |rows| - 1;
      assert rows[n] in rows && forall r | r in rows[..n] :: r in rows;
      NothingBelow(rows[..n], h);
    }
  }

  lemma {:induction false} CountOfInsert(rows: Rows, x: Message, h: int)
    ensures CountBelow(InsertStable(BySeq, rows, x), Some(h)) == CountBelow(rows, Some(h)) + if x.seqNo < h then 1 else 0
  {
    if rows != [] && !BySeq(rows[|rows| - 1], x) {
      CountOfInsert(rows[..|rows| - 1], x, h);
    }
  }

  lemma {:induction false} CountOfSorted(rows: Rows, h: int)
    ensures CountBelow(Sorted(rows), Some(h)) == CountBelow(rows, Some(h))
  {
    if rows != [] {
      CountOfSorted(rows[..|rows| - 1], h);
      CountOfInsert(Sorted(rows[..|rows| - 1]), rows[|rows| - 1], h);
    }
  }

  lemma {:induction false} CountSplitsSorted(sorted: Rows, h: int)
    requires SortedBy(BySeq, sorted)
    ensures var p := CountBelow(sorted, Some(h));
            && p <= |sorted|
            && (forall i | 0 <= i < p :: sorted[i].seqNo < h) && (forall i | p <= i < |sorted| :: sorted[i].seqNo >= h)
  {
    if sorted != [] {
      var n := |sorted| - 1;
      CountSplitsSorted(sorted[..n], h);
      assert forall i | 0 <= i < n :: sorted[..n][i] == sorted[i] && BySeq(sorted[i], sorted[n]);
    }
  }
}
