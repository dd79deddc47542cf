/** Code-point order on emoji, its agreement with the server's byte order, and the canonical stored form. */
module Emoji {
  import opened Common
  import opened Sorting

  /** Sign-exact specification of the comparison: first differing code point, then length. */
  function CompareEmoji(a: string, b: string): int {
    if a == [] || b == [] then |a| - |b|
    else if a[0] != b[0] then a[0] as int - b[0] as int
    else CompareEmoji(a[1..], b[1..])
  }

  method ComparePoints(a: string, b: string) returns (d: int)
    ensures d == CompareEmoji(a, b)
  {
    var i := 0;
    while i < Min(|a|, |b|)
      invariant 0 <= i <= |a| && i <= |b|
      invariant CompareEmoji(a, b) == CompareEmoji(a[i..], b[i..])
    {
      d := a[i] as int - b[i] as int;
      if d != 0 {
        return;
      }
      assert a[i..][1..] == a[i + 1..] && b[i..][1..] == b[i + 1..];
      i := i + 1;
    }
    d := |a| - |b|;
  }

  predicate EmojiLe(a: string, b: string) { CompareEmoji(a, b) <= 0 }

  lemma {:induction false} CompareIsAntisymmetric(a: string, b: string)
    ensures CompareEmoji(a, b) == -CompareEmoji(b, a)
    ensures CompareEmoji(a, b) == 0 <==> a == b
  {
    if a != [] && b != [] && a[0] == b[0] {
      CompareIsAntisymmetric(a[1..], b[1..]);
      assert a == [a[0]] + a[1..] && b == [b[0]] + b[1..];
    }
  }

  lemma {:induction false} CompareIsTransitive(a: string, b: string, c: string)
    requires EmojiLe(a, b) && EmojiLe(b, c)
    ensures EmojiLe(a, c)
  {
    if a != [] && b != [] && c != [] && a[0] == b[0] == c[0] {
      CompareIsTransitive(a[1..], b[1..], c[1..]);
    }
  }

  lemma EmojiOrderIsTotal()
    ensures TotalPreorder(EmojiLe) && Antisymmetric(EmojiLe)
  {
    forall a, b ensures EmojiLe(a, b) || EmojiLe(b, a) { CompareIsAntisymmetric(a, b); }
    forall a, b, c | EmojiLe(a, b) && EmojiLe(b, c) ensures EmojiLe(a, c) { CompareIsTransitive(a, b, c); }
    forall a, b | EmojiLe(a, b) && EmojiLe(b, a) ensures a == b { CompareIsAntisymmetric(a, b); }
  }

  // ---- the server compares UTF-8 bytes ----

  /** UTF-8, section 3 of RFC 3629. */
  function EncodeChar(c: char): seq<int> {
    var n := c as int;
    if n < 0x80 then [n]
    else if n < 0x800 then [0xC0 + n / 0x40, 0x80 + n % 0x40]
    else if n < 0x10000 then [0xE0 + n / 0x1000, 0x80 + n / 0x40 % 0x40, 0x80 + n % 0x40]
    else [0xF0 + n / 0x40000, 0x80 + n / 0x1000 % 0x40, 0x80 + n / 0x40 % 0x40, 0x80 + n % 0x40]
  }

  function Utf8(s: string): seq<int> {
    if s == [] then [] else EncodeChar(s[0]) + Utf8(s[1..])
  }

  /** `strcmp` on byte strings. */
  function CompareBytes(a: seq<int>, b: seq<int>): int {
    if a == [] || b == [] then |a| - |b|
    else if a[0] != b[0] then a[0] - b[0]
    else CompareBytes(a[1..], b[1..])
  }

  lemma {:induction false} CommonPrefixCancels(p: seq<int>, a: seq<int>, b: seq<int>)
    ensures CompareBytes(p + a, p + b) == CompareBytes(a, b)
  {
    if p == [] {
      assert p + a == a && p + b == b;
    } else {
      CommonPrefixCancels(p[1..], a, b);
      assert (p + a)[1..] == p[1..] + a && (p + b)[1..] == p[1..] + b;
    }
  }

  lemma SmallerByteDecides(a: seq<int>, b: seq<int>, i: nat)
    requires i < |a| && i < |b| && a[..i] == b[..i] && a[i] < b[i]
    ensures CompareBytes(a, b) < 0
  {
    assert a == a[..i] + a[i..] && b == a[..i] + b[i..];
    CommonPrefixCancels(a[..i], a[i..], b[i..]);
  }

  function EncodedLength(n: int): nat {
    if n < 0x80 then 1 else if n < 0x800 then 2 else if n < 0x10000 then 3 else 4
  }

  lemma LeadByteGrowsWithLength(c: char, d: char)
    requires EncodedLength(c as int) < EncodedLength(d as int)
    ensures EncodeChar(c)[0] < EncodeChar(d)[0]
  {
  }

  /** The lexicographically first differing base-64 digit of two numbers m < n. */
  lemma FirstDigit3(m: nat, n: nat)
    requires m < n
    ensures m / 0x1000 < n / 0x1000
            || (m / 0x1000 == n / 0x1000 && m / 0x40 % 0x40 < n / 0x40 % 0x40)
            || (m / 0x1000 == n / 0x1000 && m / 0x40 % 0x40 == n / 0x40 % 0x40 && m % 0x40 < n % 0x40)
  {
    assert m / 0x1000 == m / 0x40 / 0x40 && n / 0x1000 == n / 0x40 / 0x40;
  }

  lemma FirstDigit4(m: nat, n: nat)
    requires m < n
    ensures m / 0x40000 < n / 0x40000
            || (m / 0x40000 == n / 0x40000 && m / 0x1000 % 0x40 < n / 0x1000 % 0x40)
            || (m / 0x40000 == n / 0x40000 && m / 0x1000 == n / 0x1000)
  {
    assert m / 0x40000 == m / 0x1000 / 0x40 && n / 0x40000 == n / 0x1000 / 0x40;
    assert m / 0x1000 <= n / 0x1000;
  }

  lemma OrderedThree(c: char, d: char) returns (i: nat)
    requires c < d && 0x800 <= c as int && (d as int) < 0x10000
    ensures var x, y := EncodeChar(c), EncodeChar(d); i < 3 && x[..i] == y[..i] && x[i] < y[i]
  {
    var m, n := c as int, d as int;
    FirstDigit3(m, n);
    i := if m / 0x1000 < n / 0x1000 then 0 else if m / 0x40 % 0x40 < n / 0x40 % 0x40 then 1 else 2;
  }

  lemma OrderedFour(c: char, d: char) returns (i: nat)
    requires c < d && 0x10000 <= c as int
    ensures var x, y := EncodeChar(c), EncodeChar(d); i < 4 && x[..i] == y[..i] && x[i] < y[i]
  {
    var m, n := c as int, d as int;
    FirstDigit4(m, n);
    if m / 0x1000 == n / 0x1000 {
      FirstDigit3(m, n);
      i := if m / 0x40 % 0x40 < n / 0x40 % 0x40 then 2 else 3;
    } else {
      i := if m / 0x40000 < n / 0x40000 then 0 else 1;
    }
  }

  /** A smaller code point has a smaller byte inside both encodings: encodings are ordered and prefix-free. */
  lemma EncodingsAreOrdered(c: char, d: char) returns (i: nat)
    requires c < d
    ensures var x, y := EncodeChar(c), EncodeChar(d);
            i < |x| && i < |y| && x[..i] == y[..i] && x[i] < y[i]
  {
    var m, n := c as int, d as int;
    if EncodedLength(m) < EncodedLength(n) {
      LeadByteGrowsWithLength(c, d);
      i := 0;
    } else if n < 0x80 {
      i := 0;
    } else if n < 0x800 {
      i := if m / 0x40 != n / 0x40 then 0 else 1;
    } else if n < 0x10000 {
      i := OrderedThree(c, d);
    } else {
      i := OrderedFour(c, d);
    }
  }

  lemma SmallerCharDecides(a: string, b: string)
    requires a != [] && b != [] && a[0] < b[0]
    ensures CompareBytes(Utf8(a), Utf8(b)) < 0
  {
    var i := EncodingsAreOrdered(a[0], b[0]);
    SmallerByteDecides(Utf8(a), Utf8(b), i);
  }

  lemma {:induction false} CompareBytesFlips(a: seq<int>, b: seq<int>)
    ensures CompareBytes(a, b) == -CompareBytes(b, a)
  {
    if a != [] && b != [] && a[0] == b[0] {
      CompareBytesFlips(a[1..], b[1..]);
    }
  }

  /** Client and server order emoji alike: code-point order is the order of the UTF-8 bytes. */
  lemma {:induction false} CodePointOrderIsByteOrder(a: string, b: string)
    ensures CompareEmoji(a, b) < 0 <==> CompareBytes(Utf8(a), Utf8(b)) < 0
    ensures CompareEmoji(a, b) == 0 <==> CompareBytes(Utf8(a), Utf8(b)) == 0
  {
    if a == [] || b == [] {
      if a != [] { assert Utf8(a) != []; }
      if b != [] { assert Utf8(b) != []; }
    } else if a[0] == b[0] {
      CodePointOrderIsByteOrder(a[1..], b[1..]);
      CommonPrefixCancels(EncodeChar(a[0]), Utf8(a[1..]), Utf8(b[1..]));
    } else if a[0] < b[0] {
      SmallerCharDecides(a, b);
    } else {
      SmallerCharDecides(b, a);
      CompareBytesFlips(Utf8(a), Utf8(b));
    }
  }

  // ---- canonical form ----

  const SELECTOR: char := '\U{FE0F}'
  const KEYCAP: char := '\U{20E3}'

  predicate KeycapBase(c: char) { '0' <= c <= '9' || c == '#' || c == '*' }

  /** A keycap always carries the selector, and so does a lone symbol of one UTF-16 unit. */
  function Canonical(emoji: string): string {
    if |emoji| == 2 && KeycapBase(emoji[0]) && emoji[1] == KEYCAP then [emoji[0], SELECTOR, KEYCAP]
    else if |emoji| == 3 && KeycapBase(emoji[0]) && emoji[1] == SELECTOR && emoji[2] == KEYCAP then emoji
    else if |emoji| == 1 && emoji[0] as int < 0x10000 then emoji + [SELECTOR]
    else emoji
  }

  lemma CanonicalIsIdempotent(emoji: string)
    ensures Canonical(Canonical(emoji)) == Canonical(emoji)
  {
  }
}
