/** Shared vocabulary: optional values and the stable sort of JavaScript's `Array.prototype.sort`. */
module Common {
  datatype Option<T> = None | Some(value: T) {
    function GetOr(default: T): T {
      if Some? then value else default
    }

    /** The `a ?? b` and `{...previous, ...next}` rule: a present value wins. */
    function Or(other: Option<T>): Option<T> {
      if Some? then this else other
    }
  }

  function Max(a: int, b: int): int { if a < b then b else a }

  function Min(a: int, b: int): int { if a < b then a else b }
}

/** A stable insertion sort by a comparison, standing for the engine's built-in stable sort. */
module Sorting {
  ghost predicate TotalPreorder<T(!new)>(le: (T, T) -> bool) {
    && (forall x, y :: le(x, y) || le(y, x))
    && (forall x, y, z :: le(x, y) && le(y, z) ==> le(x, z))
  }

  ghost predicate Antisymmetric<T(!new)>(le: (T, T) -> bool) {
    forall x, y :: le(x, y) && le(y, x) ==> x == y
  }

  ghost predicate SortedBy<T>(le: (T, T) -> bool, s: seq<T>) {
    forall i, j | 0 <= i < j < |s| :: le(s[i], s[j])
  }

  /** Insert `x` behind every element that is not greater than it. */
  function InsertStable<T>(le: (T, T) -> bool, s: seq<T>, x: T): (r: seq<T>)
    ensures |r| == |s| + 1
  {
    if s == [] || le(s[|s| - 1], x) then s + [x]
    else InsertStable(le, s[..|s| - 1], x) + [s[|s| - 1]]
  }

  function SortStable<T>(le: (T, T) -> bool, s: seq<T>): (r: seq<T>)
    ensures |r| == |s|
  {
    if s == [] then [] else InsertStable(le, SortStable(le, s[..|s| - 1]), s[|s| - 1])
  }

  lemma {:induction false} InsertPermutes<T>(le: (T, T) -> bool, s: seq<T>, x: T)
    ensures multiset(InsertStable(le, s, x)) == multiset(s) + multiset{x}
  {
    if s != [] && !le(s[|s| - 1], x) {
      InsertPermutes(le, s[..|s| - 1], x);
      assert s == s[..|s| - 1] + [s[|s| - 1]];
    }
  }

  lemma {:induction false} SortPermutes<T>(le: (T, T) -> bool, s: seq<T>)
    ensures multiset(SortStable(le, s)) == multiset(s)
  {
    if s != [] {
      SortPermutes(le, s[..|s| - 1]);
      InsertPermutes(le, SortStable(le, s[..|s| - 1]), s[|s| - 1]);
      assert s == s[..|s| - 1] + [s[|s| - 1]];
    }
  }

  lemma {:induction false} InsertMembers<T(!new)>(le: (T, T) -> bool, s: seq<T>, x: T)
    ensures forall y :: y in InsertStable(le, s, x) <==> y in s || y == x
  {
    if s != [] && !le(s[|s| - 1], x) {
      InsertMembers(le, s[..|s| - 1], x);
      assert s == s[..|s| - 1] + [s[|s| - 1]];
    }
  }

  lemma {:induction false} InsertKeepsSorted<T(!new)>(le: (T, T) -> bool, s: seq<T>, x: T)
    requires TotalPreorder(le) && SortedBy(le, s)
    ensures SortedBy(le, InsertStable(le, s, x))
  {
    if s != [] && !le(s[|s| - 1], x) {
      var init, last := s[..|s| - 1], s[|s| - 1];
      InsertKeepsSorted(le, init, x);
      InsertMembers(le, init, x);
      forall y | y in init ensures le(y, last) {
        var i :| 0 <= i < |init| && s[i] == y;
      }
    }
  }

  lemma {:induction false} SortSorts<T(!new)>(le: (T, T) -> bool, s: seq<T>)
    requires TotalPreorder(le)
    ensures SortedBy(le, SortStable(le, s))
  {
    if s != [] {
      SortSorts(le, s[..|s| - 1]);
      InsertKeepsSorted(le, SortStable(le, s[..|s| - 1]), s[|s| - 1]);
    }
  }

  lemma SameMembers<T>(a: seq<T>, b: seq<T>)
    requires multiset(a) == multiset(b)
    ensures forall x :: x in a <==> x in b
  {
    forall x ensures x in a <==> x in b {
      assert x in a <==> x in multiset(a);
      assert x in b <==> x in multiset(b);
    }
  }

  /** Stability in its simplest form: a list already in order is returned as it is. */
  lemma {:induction false} SortOfSorted<T(!new)>(le: (T, T) -> bool, s: seq<T>)
    requires SortedBy(le, s)
    ensures SortStable(le, s) == s
  {
    if s != [] {
      SortOfSorted(le, s[..|s| - 1]);
    }
  }

  function Map<A, B>(f: A -> B, s: seq<A>): (r: seq<B>)
    ensures |r| == |s| && forall i | 0 <= i < |s| :: r[i] == f(s[i])
  {
    seq(|s|, i requires 0 <= i < |s| => f(s[i]))
  }

  function Filter<T>(p: T -> bool, s: seq<T>): (r: seq<T>)
    ensures |r| <= |s|
  {
    if s == [] then []
    else
      var rest := Filter(p, s[..|s| - 1]);
      if p(s[|s| - 1]) then rest + [s[|s| - 1]] else rest
  }

  lemma {:induction false} FilterMembers<T(!new)>(p: T -> bool, s: seq<T>)
    ensures forall x :: x in Filter(p, s) <==> x in s && p(x)
  {
    if s != [] {
      FilterMembers(p, s[..|s| - 1]);
      assert s == s[..|s| - 1] + [s[|s| - 1]];
    }
  }

  /** Whatever holds of every ordered pair of a list holds of every ordered pair of a part of it. */
  lemma {:induction false} FilterSorted<T(!new)>(le: (T, T) -> bool, p: T -> bool, s: seq<T>)
    requires SortedBy(le, s)
    ensures SortedBy(le, Filter(p, s))
  {
    if s != [] {
      var n := |s| - 1;
      FilterSorted(le, p, s[..n]);
      FilterMembers(p, s[..n]);
      forall x | x in s[..n] ensures le(x, s[n]) {
        var i :| 0 <= i < n && s[i] == x;
      }
      var rest := Filter(p, s[..n]);
      forall i | 0 <= i < |rest| ensures le(rest[i], s[n]) {
        assert rest[i] in rest;
      }
    }
  }

  lemma {:induction false} FilterAll<T>(p: T -> bool, s: seq<T>)
    requires forall x | x in s :: p(x)
    ensures Filter(p, s) == s
  {
    if s != [] {
      FilterAll(p, s[..|s| - 1]);
      assert s[|s| - 1] in s;
    }
  }

  lemma {:induction false} InsertCommutesWithMap<T(!new)>(le: (T, T) -> bool, f: T -> T, s: seq<T>, x: T)
    requires forall a, b :: le(f(a), f(b)) == le(a, b)
    ensures InsertStable(le, Map(f, s), f(x)) == Map(f, InsertStable(le, s, x))
  {
    if s != [] {
      assert Map(f, s)[..|s| - 1] == Map(f, s[..|s| - 1]);
      InsertCommutesWithMap(le, f, s[..|s| - 1], x);
    }
  }

  /** Restamping rows without touching what they are ordered by commutes with sorting. */
  lemma {:induction false} SortCommutesWithMap<T(!new)>(le: (T, T) -> bool, f: T -> T, s: seq<T>)
    requires forall a, b :: le(f(a), f(b)) == le(a, b)
    ensures SortStable(le, Map(f, s)) == Map(f, SortStable(le, s))
  {
    if s != [] {
      assert Map(f, s)[..|s| - 1] == Map(f, s[..|s| - 1]);
      SortCommutesWithMap(le, f, s[..|s| - 1]);
      InsertCommutesWithMap(le, f, SortStable(le, s[..|s| - 1]), s[|s| - 1]);
    }
  }

  /** Under a total order two sorted arrangements of the same elements are the same list. */
  lemma {:induction false} SortedIsUnique<T(!new)>(le: (T, T) -> bool, a: seq<T>, b: seq<T>)
    requires TotalPreorder(le) && Antisymmetric(le)
    requires SortedBy(le, a) && SortedBy(le, b) && multiset(a) == multiset(b)
    ensures a == b
  {
    assert |multiset(a)| == |a| && |multiset(b)| == |b|;
    if a != [] {
      SameMembers(a, b);
      HeadIsLeast(le, a, b[0]);
      HeadIsLeast(le, b, a[0]);
      assert a[0] == b[0];
      TailMultiset(a);
      TailMultiset(b);
      SortedIsUnique(le, a[1..], b[1..]);
      assert a == [a[0]] + a[1..] && b == [b[0]] + b[1..];
    }
  }

  lemma HeadIsLeast<T(!new)>(le: (T, T) -> bool, s: seq<T>, x: T)
    requires TotalPreorder(le) && SortedBy(le, s) && x in s
    ensures le(s[0], x)
  {
    var i :| 0 <= i < |s| && s[i] == x;
  }

  lemma TailMultiset<T>(s: seq<T>)
    requires s != []
    ensures multiset(s[1..]) == multiset(s) - multiset{s[0]}
  {
    assert s == [s[0]] + s[1..];
  }
}
