/** The signed hexadecimal digest used to join a server: the digest bytes are read as a
    big-endian two's-complement integer and printed in base 16 with a leading minus for
    negative values and no padding. */
module ServerHash {
  import opened Basics

  /** 256 to the power of `n`. */
  function P(n: nat): (p: nat)
    ensures p > 0
  {
    if n == 0 then 1 else 256 * P(n - 1)
  }

  /** The big-endian value of a byte string. */
  function Value(s: seq<Byte>): nat {
    if s == [] then 0 else Value(s[..|s| - 1]) * 256 + s[|s| - 1]
  }

  /** The big-endian two's-complement value. */
  function SignedValue(s: seq<Byte>): int
    requires s != []
  {
    if s[0] >= 128 then Value(s) - P(|s|) else Value(s)
  }

  /** The value of the bytes from position `i` on. */
  function Tail(s: seq<Byte>, i: nat): nat
    decreases |s| - i
  {
    if i >= |s| then 0 else s[i] * P(|s| - i - 1) + Tail(s, i + 1)
  }

  /** Appending a byte scales the rest. */
  lemma {:induction false} TailPush(s: seq<Byte>, b: Byte, i: nat)
    requires i <= |s|
    ensures Tail(s + [b], i) == Tail(s, i) * 256 + b
    decreases |s| - i
  {
    if i < |s| {
      TailPush(s, b, i + 1);
      var p := P(|s| - i - 1);
      assert P(|s + [b]| - i - 1) == 256 * p;
      assert (s + [b])[i] == s[i];
      assert s[i] * (256 * p) == s[i] * p * 256;
    } else {
      assert P(0) == 1;
      assert Tail(s + [b], i + 1) == 0;
    }
  }

  lemma {:induction false} ValueIsTail(s: seq<Byte>)
    ensures Value(s) == Tail(s, 0)
  {
    if s != [] {
      ValueIsTail(s[..|s| - 1]);
      TailPush(s[..|s| - 1], s[|s| - 1], 0);
      assert s == s[..|s| - 1] + [s[|s| - 1]];
    }
  }

  lemma {:induction false} ValueBounded(s: seq<Byte>)
    ensures Value(s) < P(|s|)
  {
    if s != [] {
      ValueBounded(s[..|s| - 1]);
    }
  }

  /** At a fixed length the value determines the bytes. */
  lemma {:induction false} ValueIsInjective(s: seq<Byte>, t: seq<Byte>)
    requires |s| == |t| && Value(s) == Value(t)
    ensures s == t
  {
    if s != [] {
      assert s[|s| - 1] == t[|s| - 1];
      ValueIsInjective(s[..|s| - 1], t[..|s| - 1]);
      assert s == s[..|s| - 1] + [s[|s| - 1]] && t == t[..|s| - 1] + [t[|s| - 1]];
    }
  }

  /** The high bit says in which half of the range the value lies. */
  lemma HighBit(s: seq<Byte>)
    requires s != []
    ensures s[0] >= 128 <==> 2 * Value(s) >= P(|s|)
  {
    ValueIsTail(s);
    ValueIsTail(s[1..]);
    ValueBounded(s[1..]);
    TailShift(s, 1);
    HighBitOf(s[0], P(|s| - 1), Tail(s, 1));
  }

  lemma HighBitOf(b: Byte, p: nat, t: nat)
    requires t < p
    ensures b >= 128 <==> 2 * (b * p + t) >= 256 * p
  {
  }

  lemma {:induction false} TailShift(s: seq<Byte>, i: nat)
    requires 1 <= i <= |s|
    ensures Tail(s, i) == Tail(s[1..], i - 1)
    decreases |s| - i
  {
    if i < |s| {
      TailShift(s, i + 1);
    }
  }

  // ------------------------------------------------------------------ two's complement

  /** One byte of the loop: `v` and `w` are the old and new values of the bytes to the
      right, `p` their scale. */
  lemma ComplementStep(b: Byte, carry: nat, p: nat, v: nat, w: nat)
    requires carry <= 1 && w + carry * p == p - v
    ensures
      var sum := 255 - b + carry;
      (sum % 256) * p + w + (sum / 256) * (256 * p) == 256 * p - (b * p + v)
  {
  }

  lemma {:induction false} TailSame(s: seq<Byte>, t: seq<Byte>, i: nat)
    requires |s| == |t| && forall k :: i <= k < |s| ==> s[k] == t[k]
    ensures Tail(s, i) == Tail(t, i)
    decreases |s| - i
  {
    if i < |s| {
      TailSame(s, t, i + 1);
    }
  }

  /** Inverts every bit and adds one, carrying from the last byte to the first: the value
      becomes its negative modulo 256 to the length. */
  method TwoComplementInPlace(a: array<Byte>)
    modifies a
    ensures Value(a[..]) == (P(a.Length) - Value(old(a[..]))) % P(a.Length)
  {
    var carry: nat := 1;
    var i := a.Length;
    ghost var was := a[..];
    while i > 0
      invariant 0 <= i <= a.Length && carry <= 1
      invariant forall k :: 0 <= k < i ==> a[k] == was[k]
      invariant Tail(a[..], i) + carry * P(a.Length - i) == P(a.Length - i) - Tail(was, i)
    {
      ghost var before, p := a[..], P(a.Length - i);
      i := i - 1;
      ComplementStep(a[i], carry, p, Tail(was, i + 1), Tail(before, i + 1));
      var sum := 255 - a[i] + carry;
      a[i] := sum % 256;
      carry := sum / 256;
      TailSame(before, a[..], i + 1);
    }
    Conclude(a[..], was, carry);
  }

  lemma Conclude(s: seq<Byte>, was: seq<Byte>, carry: nat)
    requires |s| == |was| && carry <= 1
    requires Tail(s, 0) + carry * P(|s|) == P(|s|) - Tail(was, 0)
    ensures Value(s) == (P(|s|) - Value(was)) % P(|s|)
  {
    ValueIsTail(s);
    ValueIsTail(was);
    ValueBounded(s);
    ValueBounded(was);
    NegatedModulo(Value(was), P(|s|));
  }

  lemma NegatedModulo(v: nat, m: nat)
    requires v < m
    ensures (m - v) % m == if v == 0 then 0 else m - v
  {
  }

  /** Negating twice gives the original bytes back. */
  lemma ComplementIsInvolution(a: seq<Byte>, b: seq<Byte>, c: seq<Byte>)
    requires |a| == |b| == |c|
    requires Value(b) == (P(|a|) - Value(a)) % P(|a|) && Value(c) == (P(|b|) - Value(b)) % P(|b|)
    ensures c == a
  {
    ValueBounded(a);
    ValueBounded(b);
    NegatedModulo(Value(a), P(|a|));
    NegatedModulo(Value(b), P(|a|));
    ValueIsInjective(c, a);
  }

  // ---------------------------------------------------------------------- base sixteen

  predicate IsHex(c: char) {
    '0' <= c <= '9' || 'a' <= c <= 'f'
  }

  function Digit(c: char): (d: nat)
    requires IsHex(c)
    ensures d < 16
  {
    if c <= '9' then c as int - '0' as int else c as int - 'a' as int + 10
  }

  function HexChar(d: nat): (c: char)
    requires d < 16
    ensures IsHex(c) && Digit(c) == d
  {
    if d < 10 then ('0' as int + d) as char else ('a' as int + d - 10) as char
  }

  predicate AllHex(s: string) {
    forall i :: 0 <= i < |s| ==> IsHex(s[i])
  }

  /** The number a string of hexadecimal digits denotes. */
  function Number(s: string): nat
    requires AllHex(s)
  {
    if s == "" then 0 else Number(s[..|s| - 1]) * 16 + Digit(s[|s| - 1])
  }

  /** A canonical numeral: digits without a leading zero, or "0", or a minus and a
      numeral without a leading zero. */
  predicate Canonical(s: string) {
    if s != "" && s[0] == '-' then AllHex(s[1..]) && s[1..] != "" && s[1] != '0'
    else AllHex(s) && s != "" && (s[0] != '0' || s == "0")
  }

  function Parse(s: string): int
    requires Canonical(s)
  {
    if s[0] == '-' then -(Number(s[1..]) as int) else Number(s)
  }

  /** Two digits per byte. */
  function Hex(s: seq<Byte>): (h: string)
    ensures AllHex(h)
  {
    if s == [] then "" else Hex(s[..|s| - 1]) + [HexChar(s[|s| - 1] / 16), HexChar(s[|s| - 1] % 16)]
  }

  function Trim(s: string): (t: string)
    requires AllHex(s)
    ensures AllHex(t) && (t == "" || t[0] != '0')
  {
    if s != "" && s[0] == '0' then Trim(s[1..]) else s
  }

  lemma NumberPush(s: string, c: char)
    requires AllHex(s) && IsHex(c)
    ensures AllHex(s + [c]) && Number(s + [c]) == Number(s) * 16 + Digit(c)
  {
  }

  lemma {:induction false} HexDenotesValue(s: seq<Byte>)
    ensures Number(Hex(s)) == Value(s)
  {
    if s != [] {
      var rest, b := Hex(s[..|s| - 1]), s[|s| - 1];
      HexDenotesValue(s[..|s| - 1]);
      NumberPush(rest, HexChar(b / 16));
      NumberPush(rest + [HexChar(b / 16)], HexChar(b % 16));
      assert Hex(s) == rest + [HexChar(b / 16)] + [HexChar(b % 16)];
    }
  }

  lemma {:induction false} LeadingZero(s: string)
    requires AllHex(s) && s != "" && s[0] == '0'
    ensures Number(s) == Number(s[1..])
  {
    if |s| > 1 {
      LeadingZero(s[..|s| - 1]);
      NumberPush(s[..|s| - 1][1..], s[|s| - 1]);
      assert s[1..] == s[..|s| - 1][1..] + [s[|s| - 1]];
    }
  }

  lemma {:induction false} TrimKeepsNumber(s: string)
    requires AllHex(s)
    ensures Number(Trim(s)) == Number(s)
  {
    if s != "" && s[0] == '0' {
      LeadingZero(s);
      TrimKeepsNumber(s[1..]);
    }
  }

  lemma Split(a: nat, x: nat, b: nat, y: nat)
    requires x < 16 && y < 16 && a * 16 + x == b * 16 + y
    ensures a == b && x == y
  {
  }

  lemma DigitIsInjective(c: char, d: char)
    requires IsHex(c) && IsHex(d) && Digit(c) == Digit(d)
    ensures c == d
  {
  }

  /** Without leading zeros, the numeral of a number is positive and unique. */
  lemma {:induction false} NoLeadingZeroPositive(s: string)
    requires AllHex(s) && s != "" && s[0] != '0'
    ensures Number(s) > 0
  {
    if |s| > 1 {
      NoLeadingZeroPositive(s[..|s| - 1]);
    }
  }

  lemma {:induction false} NumeralIsUnique(s: string, t: string)
    requires AllHex(s) && AllHex(t) && Number(s) == Number(t)
    requires (s == "" || s[0] != '0') && (t == "" || t[0] != '0')
    ensures s == t
  {
    if s != "" {
      NoLeadingZeroPositive(s);
    }
    if t != "" {
      NoLeadingZeroPositive(t);
    }
    if s != "" && t != "" {
      Split(Number(s[..|s| - 1]), Digit(s[|s| - 1]), Number(t[..|t| - 1]), Digit(t[|t| - 1]));
      DigitIsInjective(s[|s| - 1], t[|t| - 1]);
      NumeralIsUnique(s[..|s| - 1], t[..|t| - 1]);
      assert s == s[..|s| - 1] + [s[|s| - 1]] && t == t[..|t| - 1] + [t[|t| - 1]];
    }
  }

  /** Equal numbers have equal canonical numerals: there is no "-0" and no padding. */
  lemma CanonicalIsUnique(s: string, t: string)
    requires Canonical(s) && Canonical(t) && Parse(s) == Parse(t)
    ensures s == t
  {
    var a := if s[0] == '-' then s[1..] else s;
    var b := if t[0] == '-' then t[1..] else t;
    if a[0] != '0' {
      NoLeadingZeroPositive(a);
    } else {
      assert Number(a) == 0;
    }
    if b[0] != '0' {
      NoLeadingZeroPositive(b);
    } else {
      assert Number(b) == 0;
    }
    if a[0] != '0' && b[0] != '0' {
      NumeralIsUnique(a, b);
      assert s[0] == '-' ==> s == ['-'] + a;
      assert t[0] == '-' ==> t == ['-'] + b;
    }
  }

  /** The digest is the one canonical numeral of the bytes' two's-complement value. */
  method SignedHexDigest(digest: seq<Byte>) returns (text: string)
    requires digest != []
    ensures Canonical(text) && Parse(text) == SignedValue(digest)
  {
    var negative := digest[0] >= 128;
    var magnitude := new Byte[|digest|](i requires 0 <= i < |digest| => digest[i]);
    assert magnitude[..] == digest;
    if negative {
      TwoComplementInPlace(magnitude);
    }
    var trimmed := Trim(Hex(magnitude[..]));
    Magnitude(digest, magnitude[..], negative);
    trimmed := if trimmed == "" then "0" else trimmed;
    text := if negative then "-" + trimmed else trimmed;
    assert negative ==> text[1..] == trimmed;
  }

  /** A set high bit means a positive magnitude. */
  lemma MagnitudeValue(digest: seq<Byte>)
    requires digest != [] && digest[0] >= 128
    ensures (P(|digest|) - Value(digest)) % P(|digest|) == P(|digest|) - Value(digest) > 0
  {
    HighBit(digest);
    ValueBounded(digest);
    NegatedModulo(Value(digest), P(|digest|));
  }

  lemma Magnitude(digest: seq<Byte>, magnitude: seq<Byte>, negative: bool)
    requires digest != [] && |magnitude| == |digest| && negative == (digest[0] >= 128)
    requires if negative then Value(magnitude) == (P(|digest|) - Value(digest)) % P(|digest|) else magnitude == digest
    ensures Number(Trim(Hex(magnitude))) == if negative then P(|digest|) - Value(digest) else Value(digest)
    ensures negative ==> Trim(Hex(magnitude)) != ""
    ensures Trim(Hex(magnitude)) == "" ==> Value(digest) == 0 == Number("0")
  {
    if negative {
      MagnitudeValue(digest);
    }
    HexDenotesValue(magnitude);
    TrimKeepsNumber(Hex(magnitude));
    ZeroIsEmpty(Trim(Hex(magnitude)));
  }

  lemma ZeroIsEmpty(s: string)
    requires AllHex(s)
    ensures s == "" ==> Number(s) == 0
    ensures Number("0") == 0
  {
  }

  /** At one length, the texts of two digests are equal exactly when the digests are. */
  lemma DigestIsInjective(a: seq<Byte>, b: seq<Byte>, s: string, t: string)
    requires a != [] && |a| == |b|
    requires Canonical(s) && Parse(s) == SignedValue(a) && Canonical(t) && Parse(t) == SignedValue(b)
    ensures s == t <==> a == b
  {
    if s == t {
      SignedValueIsInjective(a, b);
    } else if a == b {
      CanonicalIsUnique(s, t);
    }
  }

  lemma SignedValueIsInjective(a: seq<Byte>, b: seq<Byte>)
    requires a != [] && |a| == |b| && SignedValue(a) == SignedValue(b)
    ensures a == b
  {
    ValueBounded(a);
    ValueBounded(b);
    HighBit(a);
    HighBit(b);
    ValueIsInjective(a, b);
  }
}
