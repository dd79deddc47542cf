/** Device identifiers: a millisecond timestamp in ten base-32 digits, then sixteen random ones. */
module DeviceIds {
  /** Crockford's digits: no I, L, O or U. */
  const CROCKFORD: string := "0123456789ABCDEFGHJKMNPQRSTVWXYZ"

  const STAMP_CHARS: nat := 10
  const RANDOM_CHARS: nat := 16
  const TWO_TO_48: nat := 0x1_0000_0000_0000

  /** `[0-9A-HJKMNP-TV-Z]`. */
  predicate IsIdChar(c: char) {
    '0' <= c <= '9' || 'A' <= c <= 'H' || 'J' <= c <= 'K' || 'M' <= c <= 'N' || 'P' <= c <= 'T' || 'V' <= c <= 'Z'
  }

  /** The pattern the server insists on: 26 such characters, the first of them 0 to 7. */
  predicate MatchesPattern(id: string) {
    |id| == 26 && '0' <= id[0] <= '7' && forall i | 0 <= i < |id| :: IsIdChar(id[i])
  }

  /** Thirty-two digits in ascending order. */
  ghost predicate Alphabet(digits: string) {
    |digits| == 32 && forall i, j | 0 <= i < j < 32 :: digits[i] < digits[j]
  }

  function Pow32(n: nat): (p: nat)
    ensures p > 0
  {
    if n == 0 then 1 else 32 * Pow32(n - 1)
  }

  /** The last `n` base-32 digits of `time`. */
  function Encode(digits: string, time: nat, n: nat): (s: string)
    requires |digits| == 32
    ensures |s| == n
  {
    if n == 0 then "" else Encode(digits, time / 32, n - 1) + [digits[time % 32]]
  }

  function Digit(digits: string, c: char): (d: nat)
    requires c in digits
    ensures d < |digits| && digits[d] == c
  {
    DigitFrom(digits, c, 0)
  }

  function DigitFrom(digits: string, c: char, from: nat): (d: nat)
    requires from <= |digits| && c in digits[from..]
    ensures from <= d < |digits| && digits[d] == c
    decreases |digits| - from
  {
    if digits[from] == c then from else DigitFrom(digits, c, from + 1)
  }

  ghost predicate AllDigits(digits: string, s: string) { forall i | 0 <= i < |s| :: s[i] in digits }

  ghost function Decode(digits: string, s: string): nat
    requires AllDigits(digits, s)
  {
    if s == "" then 0 else 32 * Decode(digits, s[..|s| - 1]) + Digit(digits, s[|s| - 1])
  }

  /** A draw of sixteen bytes, or of sixteen numbers in [0, 1) where there is no Web Crypto. */
  datatype Randomness = Bytes(bytes: seq<nat>) | Draws(draws: seq<real>)
  {
    predicate Valid() {
      match this
      case Bytes(bytes) => |bytes| == RANDOM_CHARS && forall b | b in bytes :: b < 256
      case Draws(draws) => |draws| == RANDOM_CHARS && forall d | d in draws :: 0.0 <= d < 1.0
    }

    /** The base-32 digit the `i`-th character stands for. */
    function DigitAt(i: nat): (d: nat)
      requires Valid() && i < RANDOM_CHARS
      ensures d < 32
    {
      match this
      case Bytes(bytes) => bytes[i] % 32
      case Draws(draws) =>
        assert draws[i] in draws;
        (draws[i] * 32.0).Floor
    }
  }

  method RandomChars(r: Randomness) returns (out: string)
    requires r.Valid()
    ensures |out| == RANDOM_CHARS && forall i | 0 <= i < RANDOM_CHARS :: out[i] == CROCKFORD[r.DigitAt(i)]
  {
    out := "";
    for i := 0 to RANDOM_CHARS
      invariant |out| == i && forall j | 0 <= j < i :: out[j] == CROCKFORD[r.DigitAt(j)]
    {
      out := out + [CROCKFORD[r.DigitAt(i)]];
    }
  }

  /** A device id for the moment `now`, in milliseconds. */
  method GenerateDeviceId(now: real, r: Randomness) returns (id: string)
    requires now >= 0.0 && r.Valid()
    ensures |id| == STAMP_CHARS + RANDOM_CHARS
    ensures id[..STAMP_CHARS] == Encode(CROCKFORD, now.Floor, STAMP_CHARS)
    ensures forall i | 0 <= i < RANDOM_CHARS :: id[STAMP_CHARS + i] == CROCKFORD[r.DigitAt(i)]
    ensures now.Floor < Pow32(STAMP_CHARS) ==> (MatchesPattern(id) <==> now.Floor < TWO_TO_48)
  {
    var stamp := Stamp(now.Floor);
    var tail := RandomChars(r);
    id := stamp + tail;
    if now.Floor < Pow32(STAMP_CHARS) {
      StampMatches(now.Floor, id);
    }
  }

  method Stamp(now: nat) returns (stamp: string)
    ensures stamp == Encode(CROCKFORD, now, STAMP_CHARS)
  {
    var time := now;
    stamp := "";
    for i := 0 to STAMP_CHARS
      invariant Encode(CROCKFORD, now, STAMP_CHARS) == Encode(CROCKFORD, time, STAMP_CHARS - i) + stamp
    {
      stamp := [CROCKFORD[time % 32]] + stamp;
      time := time / 32;
    }
  }

  // ---- the stamp is a number ----

  lemma QuotientFits(time: nat, n: nat)
    requires n > 0 && time < Pow32(n)
    ensures time / 32 < Pow32(n - 1)
  {
  }

  lemma DigitIsInverse(digits: string, d: nat)
    requires Alphabet(digits) && d < 32
    ensures digits[d] in digits && Digit(digits, digits[d]) == d
  {
    var e := Digit(digits, digits[d]);
    assert !(e < d) && !(d < e);
  }

  /** The stamp decodes to the timestamp it was made from. */
  lemma {:induction false} DecodeEncode(digits: string, time: nat, n: nat)
    requires Alphabet(digits) && time < Pow32(n)
    ensures AllDigits(digits, Encode(digits, time, n)) && Decode(digits, Encode(digits, time, n)) == time
  {
    if n > 0 {
      QuotientFits(time, n);
      DecodeEncode(digits, time / 32, n - 1);
      DigitIsInverse(digits, time % 32);
      var s := Encode(digits, time, n);
      assert s[..n - 1] == Encode(digits, time / 32, n - 1);
      assert forall i | 0 <= i < n - 1 :: s[i] == s[..n - 1][i];
    }
  }

  /** No two timestamps that fit share a stamp. */
  lemma StampsAreInjective(digits: string, a: nat, b: nat, n: nat)
    requires Alphabet(digits) && a < Pow32(n) && b < Pow32(n) && Encode(digits, a, n) == Encode(digits, b, n)
    ensures a == b
  {
    DecodeEncode(digits, a, n);
    DecodeEncode(digits, b, n);
  }

  /** JavaScript's string comparison, on strings of one length. */
  predicate LexLess(a: string, b: string)
    requires |a| == |b|
  {
    a != "" && (a[0] < b[0] || (a[0] == b[0] && LexLess(a[1..], b[1..])))
  }

  lemma {:induction false} LexOfAppend(a: string, b: string, x: char, y: char)
    requires |a| == |b|
    ensures LexLess(a + [x], b + [y]) <==> LexLess(a, b) || (a == b && x < y)
  {
    if a != "" {
      assert (a + [x])[1..] == a[1..] + [x] && (b + [y])[1..] == b[1..] + [y];
      LexOfAppend(a[1..], b[1..], x, y);
      assert a == [a[0]] + a[1..] && b == [b[0]] + b[1..];
    } else {
      assert (a + [x])[1..] == "" && (b + [y])[1..] == "";
    }
  }

  /** Stamps sort as their timestamps do. */
  lemma {:induction false} StampsSortByTime(digits: string, a: nat, b: nat, n: nat)
    requires Alphabet(digits) && a < Pow32(n) && b < Pow32(n)
    ensures LexLess(Encode(digits, a, n), Encode(digits, b, n)) <==> a < b
  {
    if n > 0 {
      QuotientFits(a, n);
      QuotientFits(b, n);
      StampsSortByTime(digits, a / 32, b / 32, n - 1);
      LexOfAppend(Encode(digits, a / 32, n - 1), Encode(digits, b / 32, n - 1), digits[a % 32], digits[b % 32]);
      if Encode(digits, a / 32, n - 1) == Encode(digits, b / 32, n - 1) {
        StampsAreInjective(digits, a / 32, b / 32, n - 1);
      }
    }
  }

  // ---- the leading character ----

  /** The leading digit is at least eight exactly if the timestamp needs the top two bits. */
  lemma {:induction false} FirstDigit(digits: string, time: nat, n: nat, d: nat)
    requires |digits| == 32 && n > 0 && d < 32 && d * Pow32(n - 1) <= time < (d + 1) * Pow32(n - 1)
    ensures Encode(digits, time, n)[0] == digits[d]
  {
    if n > 1 {
      assert Pow32(n - 1) == 32 * Pow32(n - 2);
      DividedRange(time, d, Pow32(n - 2));
      FirstDigit(digits, time / 32, n - 1, d);
    }
  }

  lemma DividedRange(time: nat, d: nat, p: nat)
    requires d * (32 * p) <= time < (d + 1) * (32 * p)
    ensures d * p <= time / 32 < (d + 1) * p
  {
    assert d * (32 * p) == 32 * (d * p) && (d + 1) * (32 * p) == 32 * ((d + 1) * p);
  }

  lemma LeadingDigit(time: nat, n: nat) returns (d: nat)
    requires n > 0 && time < Pow32(n)
    ensures d < 32 && d * Pow32(n - 1) <= time < (d + 1) * Pow32(n - 1)
  {
    d := time / Pow32(n - 1);
  }

  lemma CrockfordIsAnAlphabet()
    ensures Alphabet(CROCKFORD)
  {
    forall i, j | 0 <= i < j < 32 ensures CROCKFORD[i] < CROCKFORD[j] {
      CrockfordAt(i);
      CrockfordAt(j);
    }
  }

  /** The digits as runs of consecutive characters. */
  function CrockfordCode(i: nat): nat {
    if i < 10 then 48 + i else if i < 18 then 55 + i else if i < 20 then 56 + i else if i < 22 then 57 + i
    else if i < 27 then 58 + i else 59 + i
  }

  lemma CrockfordAt(i: nat)
    requires i < 32
    ensures CROCKFORD[i] as int == CrockfordCode(i)
  {
  }

  lemma CrockfordChars()
    ensures forall i | 0 <= i < 32 :: IsIdChar(CROCKFORD[i]) && ('0' <= CROCKFORD[i] <= '7' <==> i < 8)
  {
  }

  lemma Pow32Of9()
    ensures Pow32(9) == 0x2000_0000_0000
  {
    assert Pow32(3) == 32768;
    assert Pow32(6) == 32768 * 32768;
  }

  /** With ten digits, the first is below eight exactly if the timestamp is below two to the 48. */
  lemma FirstOfTen(digits: string, time: nat) returns (d: nat)
    requires |digits| == 32 && time < Pow32(10)
    ensures d < 32 && Encode(digits, time, 10)[0] == digits[d] && (d < 8 <==> time < TWO_TO_48)
  {
    d := LeadingDigit(time, 10);
    FirstDigit(digits, time, 10, d);
    Pow32Of9();
    EightTimes(time, d, Pow32(9));
  }

  lemma EightTimes(time: nat, d: nat, p: nat)
    requires p == 0x2000_0000_0000 && d * p <= time < (d + 1) * p
    ensures d < 8 <==> time < TWO_TO_48
  {
  }

  lemma IdIsDigits(digits: string, time: nat, id: string)
    requires Alphabet(digits) && time < Pow32(10) && |id| == 26 && id[..10] == Encode(digits, time, 10)
    requires forall i | 10 <= i < 26 :: id[i] in digits
    ensures AllDigits(digits, id) && id[0] == Encode(digits, time, 10)[0]
  {
    DecodeEncode(digits, time, 10);
    assert id[0] == id[..10][0];
    forall i | 0 <= i < 26 ensures id[i] in digits {
      if i < 10 {
        assert id[i] == id[..10][i];
      }
    }
  }

  /** An id whose random part is made of digits is accepted exactly while the timestamp fits in 48 bits. */
  lemma StampMatches(time: nat, id: string)
    requires time < Pow32(STAMP_CHARS) && |id| == 26 && id[..STAMP_CHARS] == Encode(CROCKFORD, time, STAMP_CHARS)
    requires forall i | STAMP_CHARS <= i < 26 :: id[i] in CROCKFORD
    ensures MatchesPattern(id) <==> time < TWO_TO_48
  {
    CrockfordIsAnAlphabet();
    IdIsDigits(CROCKFORD, time, id);
    var d := FirstOfTen(CROCKFORD, time);
    Accepted(CROCKFORD, id, d);
  }

  lemma Accepted(digits: string, id: string, d: nat)
    requires digits == CROCKFORD && |id| == 26 && d < 32 && id[0] == digits[d] && AllDigits(digits, id)
    ensures MatchesPattern(id) <==> d < 8
  {
    CrockfordChars();
    forall i | 0 <= i < 26 ensures IsIdChar(id[i]) {
      var k :| 0 <= k < |digits| && digits[k] == id[i];
    }
  }

  /** Taking a byte modulo 32 favours no digit: each comes from exactly eight of the 256 bytes. */
  lemma ModuloIsUniform(d: nat)
    requires d < 32
    ensures |set b: nat | b < 256 && b % 32 == d| == 8
  {
    var bytes := set b: nat | b < 256 && b % 32 == d;
    assert bytes == {d, d + 32, d + 64, d + 96, d + 128, d + 160, d + 192, d + 224};
  }
}
