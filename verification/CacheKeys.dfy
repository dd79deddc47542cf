/** Scoped string keys: what keeps one user's workspace, and one room, apart from another inside one store. */
module CacheKeys {
  function Colons(s: string): nat {
    if s == "" then 0 else (if s[0] == ':' then 1 else 0) + Colons(s[1..])
  }

  predicate ColonFree(s: string) { Colons(s) == 0 }

  function ScopeKey(userId: string, workspaceId: string): string { userId + ":" + workspaceId }

  function K(scope: string, suffix: string): string { scope + ":" + suffix }

  function VersionKey(scope: string): string { scope + "@version" }

  predicate StartsWith(s: string, prefix: string) { prefix <= s }

  /** Neither of two scopes, with its colon, begins the other. */
  predicate Apart(a: string, b: string) {
    !StartsWith(b + ":", a + ":") && !StartsWith(a + ":", b + ":")
  }

  // ---- when keys of two scopes meet ----

  lemma PrefixesCompare(s: string, p: string, q: string)
    requires StartsWith(s, p) && StartsWith(s, q)
    ensures |p| <= |q| ==> StartsWith(q, p)
  {
    if |p| <= |q| {
      assert q[..|p|] == s[..|q|][..|p|] == s[..|p|];
    }
  }

  lemma KeyStarts(scope: string, suffix: string)
    ensures StartsWith(K(scope, suffix), scope + ":")
  {
    assert K(scope, suffix)[..|scope| + 1] == scope + ":";
  }

  /** Two scopes have a key in common exactly if they are not apart. */
  lemma KeysMeetIff(a: string, b: string)
    ensures (exists x, y :: K(a, x) == K(b, y)) <==> !Apart(a, b)
  {
    if x, y :| K(a, x) == K(b, y) {
      KeyStarts(a, x);
      KeyStarts(b, y);
      PrefixesCompare(K(a, x), a + ":", b + ":");
      PrefixesCompare(K(a, x), b + ":", a + ":");
    }
    if StartsWith(b + ":", a + ":") {
      assert K(a, (b + ":")[|a| + 1..]) == K(b, "");
    }
    if StartsWith(a + ":", b + ":") {
      assert K(b, (a + ":")[|b| + 1..]) == K(a, "");
    }
  }

  /** Two scopes share one key exactly if they are the same, or a colon in one's ids lets the ids be cut differently. */
  lemma ScopeKeysMeetIff(u1: string, w1: string, u2: string, w2: string)
    ensures ScopeKey(u1, w1) == ScopeKey(u2, w2) <==>
            || (u1 == u2 && w1 == w2)
            || (exists t :: u2 == u1 + ":" + t && w1 == t + ":" + w2)
            || (exists t :: u1 == u2 + ":" + t && w2 == t + ":" + w1)
  {
    if ScopeKey(u1, w1) == ScopeKey(u2, w2) {
      if |u1| < |u2| {
        CutsDiffer(u1, w1, u2, w2);
      } else if |u2| < |u1| {
        CutsDiffer(u2, w2, u1, w1);
      } else {
        assert u1 == ScopeKey(u1, w1)[..|u1|] && u2 == ScopeKey(u1, w1)[..|u1|];
        assert w1 == ScopeKey(u1, w1)[|u1| + 1..] && w2 == ScopeKey(u1, w1)[|u1| + 1..];
      }
    }
    if t :| u2 == u1 + ":" + t && w1 == t + ":" + w2 {
      assert ScopeKey(u1, w1) == u1 + ":" + t + ":" + w2;
    }
    if t :| u1 == u2 + ":" + t && w2 == t + ":" + w1 {
      assert ScopeKey(u2, w2) == u2 + ":" + t + ":" + w1;
    }
  }

  lemma CutsDiffer(u1: string, w1: string, u2: string, w2: string)
    requires ScopeKey(u1, w1) == ScopeKey(u2, w2) && |u1| < |u2|
    ensures exists t :: u2 == u1 + ":" + t && w1 == t + ":" + w2
  {
    var key := ScopeKey(u1, w1);
    var t := u2[|u1| + 1..];
    assert u2 == key[..|u2|] && u1 == key[..|u1|] && key[|u1|] == ':';
    assert u2 == u1 + ":" + t;
    assert w1 == key[|u1| + 1..] && key[|u1| + 1..] == t + ":" + w2;
  }

  /** So user ids without colons are enough to tell scope keys apart. */
  lemma ColonFreeUsersTell(u1: string, w1: string, u2: string, w2: string)
    requires ColonFree(u1) && ColonFree(u2) && ScopeKey(u1, w1) == ScopeKey(u2, w2)
    ensures u1 == u2 && w1 == w2
  {
    SplitIsUnique(u1, w1, u2, w2);
  }

  lemma ColonsCollide()
    ensures ScopeKey("a:b", "c") == ScopeKey("a", "b:c")
  {
  }

  /** But two scope keys may differ and still not be apart: one then lies inside the other. */
  lemma NestedScopes()
    ensures ScopeKey("u", "w") != ScopeKey("u", "w:z") && !Apart(ScopeKey("u", "w"), ScopeKey("u", "w:z"))
  {
    assert ScopeKey("u", "w:z") + ":" == ScopeKey("u", "w") + ":" + "z:";
    KeyStarts(ScopeKey("u", "w"), "z:");
    assert K(ScopeKey("u", "w"), "z:") == ScopeKey("u", "w:z") + ":";
  }

  // ---- ids without colons ----

  lemma {:induction false} ColonsConcat(a: string, b: string)
    ensures Colons(a + b) == Colons(a) + Colons(b)
  {
    if a == "" {
      assert a + b == b;
    } else {
      ColonsConcat(a[1..], b);
      assert (a + b)[1..] == a[1..] + b;
    }
  }

  /** A key splits in one way only at the colon that follows a part with a known number of colons. */
  lemma {:induction false} SplitIsUnique(p: string, x: string, q: string, y: string)
    requires Colons(p) == Colons(q) && p + ":" + x == q + ":" + y
    ensures p == q && x == y
  {
    if p == "" || q == "" {
      assert p == "" ==> (p + ":" + x)[0] == ':';
      assert q == "" ==> (q + ":" + y)[0] == ':';
      assert p == q;
      assert x == (p + ":" + x)[1..] && y == (q + ":" + y)[1..];
    } else {
      assert (p + ":" + x)[0] == p[0] && (q + ":" + y)[0] == q[0];
      assert (p + ":" + x)[1..] == p[1..] + ":" + x && (q + ":" + y)[1..] == q[1..] + ":" + y;
      SplitIsUnique(p[1..], x, q[1..], y);
    }
  }

  lemma EqualColonsAreApart(a: string, b: string)
    requires Colons(a) == Colons(b) && a != b
    ensures Apart(a, b)
  {
    if StartsWith(b + ":", a + ":") {
      assert a + ":" + (b + ":")[|a| + 1..] == b + ":" + "";
      SplitIsUnique(a, (b + ":")[|a| + 1..], b, "");
    }
    if StartsWith(a + ":", b + ":") {
      assert b + ":" + (a + ":")[|b| + 1..] == a + ":" + "";
      SplitIsUnique(b, (a + ":")[|b| + 1..], a, "");
    }
  }

  /** Ids without colons put different scopes apart. */
  lemma ColonFreeScopesAreApart(u1: string, w1: string, u2: string, w2: string)
    requires ColonFree(u1) && ColonFree(w1) && ColonFree(u2) && ColonFree(w2) && (u1 != u2 || w1 != w2)
    ensures Apart(ScopeKey(u1, w1), ScopeKey(u2, w2))
  {
    ColonsConcat(u1 + ":", w1);
    ColonsConcat(u1, ":");
    ColonsConcat(u2 + ":", w2);
    ColonsConcat(u2, ":");
    if ScopeKey(u1, w1) == ScopeKey(u2, w2) {
      ColonFreeUsersTell(u1, w1, u2, w2);
    }
    EqualColonsAreApart(ScopeKey(u1, w1), ScopeKey(u2, w2));
  }

  // ---- scopes that are apart ----

  /** A key under one scope is never under another. */
  lemma KeysDiffer(a: string, x: string, b: string, y: string)
    requires Apart(a, b)
    ensures K(a, x) != K(b, y) && !StartsWith(K(a, x), b + ":") && !StartsWith(K(a, x), K(b, y))
  {
    KeyStarts(a, x);
    KeyStarts(b, y);
    if StartsWith(K(a, x), b + ":") {
      PrefixesCompare(K(a, x), a + ":", b + ":");
      PrefixesCompare(K(a, x), b + ":", a + ":");
    }
    if StartsWith(K(a, x), K(b, y)) {
      assert StartsWith(K(a, x), b + ":");
    }
  }

  lemma ColonAt(s: string, p: string)
    requires StartsWith(s, p + ":")
    ensures |p| < |s| && s[|p|] == ':'
  {
    assert s[|p|] == (p + ":")[|p|];
  }

  lemma VersionSuffix(a: string)
    ensures forall i | |a| <= i < |VersionKey(a)| :: VersionKey(a)[i] != ':'
  {
    forall i | |a| <= i < |VersionKey(a)| ensures VersionKey(a)[i] != ':' {
      assert VersionKey(a)[i] == "@version"[i - |a|];
    }
  }

  /** A scope's version key is under no scope's prefix. */
  lemma VersionKeyIsApart(a: string, b: string, x: string)
    requires a == b || Apart(a, b)
    ensures VersionKey(a) != K(b, x) && !StartsWith(VersionKey(a), b + ":")
    ensures VersionKey(a) == VersionKey(b) ==> a == b
  {
    KeyStarts(b, x);
    var k := VersionKey(a);
    assert StartsWith(k, a);
    if StartsWith(k, b + ":") {
      PrefixesCompare(k, b + ":", a);
      ColonAt(k, b);
      VersionSuffix(a);
    }
    if VersionKey(a) == VersionKey(b) {
      assert |a| == |b|;
      assert VersionKey(a)[..|a|] == a && VersionKey(b)[..|b|] == b;
    }
  }

  // ---- keys of message rows ----

  function Dec(n: nat): string {
    if n < 10 then [Digit(n)] else Dec(n / 10) + [Digit(n % 10)]
  }

  function Digit(d: nat): (c: char)
    requires d < 10
    ensures c != ':'
  {
    '0' + d as char
  }

  lemma {:induction false} DecHasNoColon(n: nat)
    ensures ColonFree(Dec(n)) && forall i | 0 <= i < |Dec(n)| :: Dec(n)[i] != ':'
  {
    if n < 10 {
      assert Dec(n)[1..] == "";
    } else {
      DecHasNoColon(n / 10);
      ColonsConcat(Dec(n / 10), [Digit(n % 10)]);
      assert [Digit(n % 10)][1..] == "";
    }
  }

  /** The key of a row: its room's key, its seq and its message's id. */
  function RowKey(room: string, seqNo: nat, id: string): string { room + ":" + Dec(seqNo) + ":" + id }

  /** One room's key, with a seq behind it, begins the other's: some of their rows share a key. */
  ghost predicate Mixed(p: string, q: string) {
    exists n: nat :: StartsWith(q + ":", p + ":" + Dec(n) + ":")
  }

  /** Rows of two different rooms can share a key exactly if one room's key goes on from the other's with a number. */
  lemma RowKeysMeetIff(p: string, q: string)
    requires p != q
    ensures (exists m: nat, x, n: nat, y :: RowKey(p, m, x) == RowKey(q, n, y)) <==> Mixed(p, q) || Mixed(q, p)
  {
    if m: nat, x, n: nat, y :| RowKey(p, m, x) == RowKey(q, n, y) {
      if |p| <= |q| {
        RowsMeetMixes(p, m, x, q, n, y);
      } else {
        RowsMeetMixes(q, n, y, p, m, x);
      }
    }
    if Mixed(p, q) {
      var m, x, n, y := MixedRowsMeet(p, q);
    }
    if Mixed(q, p) {
      var n, y, m, x := MixedRowsMeet(q, p);
    }
  }

  lemma RowsMeetMixes(p: string, m: nat, x: string, q: string, n: nat, y: string)
    requires p != q && |p| <= |q| && RowKey(p, m, x) == RowKey(q, n, y)
    ensures Mixed(p, q)
  {
    var key := RowKey(p, m, x);
    var head := p + ":" + Dec(m) + ":";
    assert key[..|head|] == head && key[..|p|] == p;
    assert key[..|q| + 1] == q + ":" && key[..|q|] == q;
    DecHasNoColon(m);
    forall i | |p| < i < |head| - 1 ensures key[i] != ':' {
      assert key[i] == head[i] == Dec(m)[i - |p| - 1];
    }
    PrefixesCompare(key, head, q + ":");
    ColonAt(key, q);
  }

  lemma MixedRowsMeet(p: string, q: string) returns (m: nat, x: string, n: nat, y: string)
    requires Mixed(p, q)
    ensures RowKey(p, m, x) == RowKey(q, n, y)
  {
    m :| StartsWith(q + ":", p + ":" + Dec(m) + ":");
    n, y := 0, "";
    var head := p + ":" + Dec(m) + ":";
    x := RowKey(q, n, y)[|head|..];
    assert RowKey(q, n, y)[..|q| + 1] == q + ":";
    assert RowKey(q, n, y)[..|head|] == head;
  }

  lemma RowKeysOfOneRoom(room: string, m: nat, x: string, n: nat, y: string)
    requires RowKey(room, m, x) == RowKey(room, n, y)
    ensures x == y
  {
    assert RowKey(room, m, x)[|room| + 1..] == Dec(m) + ":" + x;
    assert RowKey(room, n, y)[|room| + 1..] == Dec(n) + ":" + y;
    DecHasNoColon(m);
    DecHasNoColon(n);
    SplitIsUnique(Dec(m), x, Dec(n), y);
  }

  /** A room's key starts with its scope's, so what goes on from it goes on inside the scope. */
  lemma MixedInScope(scope: string, r: string, r': string)
    ensures Mixed(K(scope, r), K(scope, r')) <==> Mixed(r, r')
  {
    forall n: nat ensures StartsWith(K(scope, r') + ":", K(scope, r) + ":" + Dec(n) + ":") <==> StartsWith(r' + ":", r + ":" + Dec(n) + ":") {
      assert K(scope, r') + ":" == (scope + ":") + (r' + ":");
      assert K(scope, r) + ":" + Dec(n) + ":" == (scope + ":") + (r + ":" + Dec(n) + ":");
      CommonStart(scope + ":", r' + ":", r + ":" + Dec(n) + ":");
    }
  }

  lemma CommonStart(c: string, s: string, p: string)
    ensures StartsWith(c + s, c + p) <==> StartsWith(s, p)
  {
    if StartsWith(c + s, c + p) {
      assert (c + s)[|c|..|c| + |p|] == p && (c + s)[|c|..] == s;
    }
    if StartsWith(s, p) {
      assert (c + s)[..|c| + |p|] == c + p;
    }
  }

  /** Rooms of scopes that are apart never mix. */
  lemma ApartNeverMix(a: string, r: string, b: string, r': string)
    requires Apart(a, b)
    ensures !Mixed(K(a, r), K(b, r'))
  {
    if n: nat :| StartsWith(K(b, r') + ":", K(a, r) + ":" + Dec(n) + ":") {
      assert K(a, r) + ":" + Dec(n) + ":" == K(a, r + ":" + Dec(n) + ":");
      assert K(b, r') + ":" == K(b, r' + ":");
      KeysDiffer(b, r' + ":", a, r + ":" + Dec(n) + ":");
    }
  }

  /** Rooms whose ids hold no colon never mix. */
  lemma ColonFreeNeverMix(r: string, r': string)
    requires ColonFree(r) && ColonFree(r')
    ensures !Mixed(r, r')
  {
    if n: nat :| StartsWith(r' + ":", r + ":" + Dec(n) + ":") {
      var head := r + ":" + Dec(n) + ":";
      var rest := (r' + ":")[|head|..];
      assert r' + ":" == head + rest;
      ColonsConcat(r + ":" + Dec(n), ":");
      ColonsConcat(r + ":", Dec(n));
      ColonsConcat(r, ":");
      ColonsConcat(head, rest);
      ColonsConcat(r', ":");
    }
  }
}
