/**
 * Order-preserving identifiers: a big-endian timestamp and random bytes, in the
 * unpadded Base32Hex encoding of section 7 of RFC 4648.
 */
module UniqueId {

  // ── lexicographic order ───────────────────────────────────────────────

  /** Lexicographic order on sequences of numbers. */
  predicate Less(a: seq<nat>, b: seq<nat>) {
    if |b| == 0 then false
    else if |a| == 0 then true
    else a[0] < b[0] || (a[0] == b[0] && Less(a[1..], b[1..]))
  }

  /** On sequences that split into equally long parts, the first parts decide unless they are equal. */
  lemma {:induction false} ConcatOrder(x: seq<nat>, u: seq<nat>, y: seq<nat>, v: seq<nat>)
    requires |x| == |y| && |u| == |v|
    ensures Less(x + u, y + v) <==> Less(x, y) || (x == y && Less(u, v))
    ensures x + u == y + v <==> x == y && u == v
  {
    if |x| == 0 {
      assert x + u == u && y + v == v;
    } else {
      assert (x + u)[1..] == x[1..] + u && (y + v)[1..] == y[1..] + v;
      ConcatOrder(x[1..], u, y[1..], v);
      assert x == [x[0]] + x[1..] && y == [y[0]] + y[1..];
      assert x + u == [x[0]] + (x[1..] + u) && y + v == [y[0]] + (y[1..] + v);
    }
  }

  // ── bits, bytes and digits ────────────────────────────────────────────

  predicate AreBelow(s: seq<nat>, bound: nat) {
    forall i :: 0 <= i < |s| ==> s[i] < bound
  }

  /** A number, split into what precedes its last digit and that digit. */
  function Before(n: nat, base: nat): (q: nat)
    requires base > 0
  {
    n / base
  }

  function Last(n: nat, base: nat): (r: nat)
    requires base > 0
    ensures r < base
  {
    n % base
  }

  /** `n` as `width` digits in the given base, most significant first. */
  function ToDigits(n: nat, base: nat, width: nat): (s: seq<nat>)
    requires base > 0
    ensures |s| == width && AreBelow(s, base)
    decreases width
  {
    if width == 0 then [] else ToDigits(Before(n, base), base, width - 1) + [Last(n, base)]
  }

  /** The number a sequence of bits stands for. */
  function BitsValue(bits: seq<nat>): nat {
    if |bits| == 0 then 0 else 2 * BitsValue(bits[..|bits| - 1]) + bits[|bits| - 1]
  }

  function Power(base: nat, e: nat): nat {
    if e == 0 then 1 else base * Power(base, e - 1)
  }

  lemma {:induction false} SplitIs(n: nat, base: nat)
    requires base > 0
    ensures n == base * Before(n, base) + Last(n, base)
  {
  }

  lemma {:induction false} LessTimes(base: nat, p: nat, q: nat)
    requires p < q
    ensures base * p + base <= base * q
    decreases q
  {
    if p + 1 < q { LessTimes(base, p, q - 1); }
  }

  lemma {:induction false} BeforeBelow(n: nat, base: nat, bound: nat)
    requires base > 0 && n < base * bound
    ensures Before(n, base) < bound
  {
    SplitIs(n, base);
    if bound < Before(n, base) { LessTimes(base, bound, Before(n, base)); }
  }

  lemma {:induction false} SplitOrder(m: nat, n: nat, base: nat)
    requires base > 0
    ensures m < n <==> Before(m, base) < Before(n, base)
                       || (Before(m, base) == Before(n, base) && Last(m, base) < Last(n, base))
    ensures m == n <==> Before(m, base) == Before(n, base) && Last(m, base) == Last(n, base)
  {
    SplitIs(m, base);
    SplitIs(n, base);
    if Before(m, base) < Before(n, base) { LessTimes(base, Before(m, base), Before(n, base)); }
    if Before(n, base) < Before(m, base) { LessTimes(base, Before(n, base), Before(m, base)); }
  }

  /** Equally wide numbers compare like their digits. */
  lemma {:induction false} ToDigitsOrder(m: nat, n: nat, base: nat, width: nat)
    requires base > 0 && m < Power(base, width) && n < Power(base, width)
    ensures Less(ToDigits(m, base, width), ToDigits(n, base, width)) <==> m < n
    ensures ToDigits(m, base, width) == ToDigits(n, base, width) <==> m == n
    decreases width
  {
    if width > 0 {
      var p, q := Before(m, base), Before(n, base);
      BeforeBelow(m, base, Power(base, width - 1));
      BeforeBelow(n, base, Power(base, width - 1));
      ToDigitsOrder(p, q, base, width - 1);
      var x, y := [Last(m, base)], [Last(n, base)];
      ConcatOrder(ToDigits(p, base, width - 1), x, ToDigits(q, base, width - 1), y);
      assert x[0] < y[0] <==> Less(x, y);
      assert x == y <==> x[0] == y[0];
      SplitOrder(m, n, base);
    }
  }

  /** Equally many bits compare like the numbers they stand for. */
  lemma {:induction false} BitsValueOrder(x: seq<nat>, y: seq<nat>)
    requires |x| == |y| && AreBelow(x, 2) && AreBelow(y, 2)
    ensures Less(x, y) <==> BitsValue(x) < BitsValue(y)
    ensures x == y <==> BitsValue(x) == BitsValue(y)
  {
    if |x| > 0 {
      var n := |x| - 1;
      BitsValueOrder(x[..n], y[..n]);
      ConcatOrder(x[..n], [x[n]], y[..n], [y[n]]);
      assert x == x[..n] + [x[n]] && y == y[..n] + [y[n]];
    }
  }

  function ByteBits(n: nat): (bits: seq<nat>)
    ensures |bits| == 8 && AreBelow(bits, 2)
  {
    ToDigits(n, 2, 8)
  }

  function BytesToBits(bytes: seq<nat>): (bits: seq<nat>)
    ensures |bits| == 8 * |bytes| && AreBelow(bits, 2)
  {
    if |bytes| == 0 then [] else ByteBits(bytes[0]) + BytesToBits(bytes[1..])
  }

  function Zeros(n: nat): (s: seq<nat>)
    ensures |s| == n && AreBelow(s, 2)
  {
    seq(n, _ => 0)
  }

  /** Regroups bits into 5-bit digits, most significant first; the last group is filled up with zeros. */
  function Regroup(bits: seq<nat>): (digits: seq<nat>)
    ensures |digits| == (|bits| + 4) / 5
  {
    if |bits| == 0 then []
    else if |bits| < 5 then [BitsValue(bits + Zeros(5 - |bits|))]
    else [BitsValue(bits[..5])] + Regroup(bits[5..])
  }

  lemma {:induction false} ByteIsPower()
    ensures Power(2, 8) == 256
  {
    assert Power(2, 4) == 16;
  }

  lemma {:induction false} FirstByte(a: nat, b: nat, u: seq<nat>, v: seq<nat>)
    requires a < 256 && b < 256 && |u| == |v|
    ensures Less(ByteBits(a) + u, ByteBits(b) + v) <==> a < b || (a == b && Less(u, v))
    ensures ByteBits(a) + u == ByteBits(b) + v <==> a == b && u == v
  {
    ByteIsPower();
    ByteOrder(a, b, 2, 8);
    ConcatOrder(ByteBits(a), u, ByteBits(b), v);
  }

  lemma {:induction false} BytesToBitsOrder(a: seq<nat>, b: seq<nat>)
    requires |a| == |b| && AreBelow(a, 256) && AreBelow(b, 256)
    ensures Less(a, b) <==> Less(BytesToBits(a), BytesToBits(b))
    ensures a == b <==> BytesToBits(a) == BytesToBits(b)
  {
    if |a| > 0 {
      BytesToBitsOrder(a[1..], b[1..]);
      FirstByte(a[0], b[0], BytesToBits(a[1..]), BytesToBits(b[1..]));
      SameParts(a, b);
    }
  }

  lemma {:induction false} SameParts(a: seq<nat>, b: seq<nat>)
    requires |a| == |b| > 0
    ensures a == b <==> a[0] == b[0] && a[1..] == b[1..]
  {
    assert a == [a[0]] + a[1..] && b == [b[0]] + b[1..];
  }

  lemma {:induction false} ByteOrder(m: nat, n: nat, base: nat, width: nat)
    requires base == 2 && width == 8 && Power(base, width) == 256 && m < 256 && n < 256
    ensures Less(ByteBits(m), ByteBits(n)) <==> m < n
    ensures ByteBits(m) == ByteBits(n) <==> m == n
  {
    ToDigitsOrder(m, n, base, width);
    assert ByteBits(m) == ToDigits(m, base, width);
    assert ByteBits(n) == ToDigits(n, base, width);
  }

  lemma {:induction false} RegroupOrder(a: seq<nat>, b: seq<nat>)
    requires |a| == |b| && AreBelow(a, 2) && AreBelow(b, 2)
    ensures Less(a, b) <==> Less(Regroup(a), Regroup(b))
    ensures a == b <==> Regroup(a) == Regroup(b)
  {
    if 0 < |a| < 5 {
      var z := Zeros(5 - |a|);
      ConcatOrder(a, z, b, z);
      NotLess(z);
      BitsValueOrder(a + z, b + z);
    } else if |a| >= 5 {
      RegroupOrder(a[5..], b[5..]);
      BitsValueOrder(a[..5], b[..5]);
      assert a == a[..5] + a[5..] && b == b[..5] + b[5..];
      ConcatOrder(a[..5], a[5..], b[..5], b[5..]);
      ConcatOrder([BitsValue(a[..5])], Regroup(a[5..]), [BitsValue(b[..5])], Regroup(b[5..]));
    }
  }

  lemma {:induction false} NotLess(s: seq<nat>)
    ensures !Less(s, s)
  {
    if |s| > 0 { NotLess(s[1..]); }
  }

  // ── reading the digits back ───────────────────────────────────────────

  lemma {:induction false} SplitTwice(v: nat, b: nat)
    requires b < 2
    ensures Before(2 * v + b, 2) == v && Last(2 * v + b, 2) == b
  {
  }

  /** Writing out the value of some bits gives those bits. */
  lemma {:induction false} BitsRoundTrip(x: seq<nat>, base: nat)
    requires AreBelow(x, 2) && base == 2
    ensures ToDigits(BitsValue(x), base, |x|) == x
  {
    if |x| > 0 {
      var n := |x| - 1;
      SplitTwice(BitsValue(x[..n]), x[n]);
      BitsRoundTrip(x[..n], base);
      assert x == x[..n] + [x[n]];
    }
  }

  function FiveBits(digit: nat): (bits: seq<nat>)
    ensures |bits| == 5 && AreBelow(bits, 2)
  {
    ToDigits(digit, 2, 5)
  }

  /** The five bits of each digit, in order. */
  function DigitBits(digits: seq<nat>): seq<nat> {
    if |digits| == 0 then [] else FiveBits(digits[0]) + DigitBits(digits[1..])
  }

  /** The zeros that fill up the last digit. */
  function Padding(length: nat): (p: nat)
    ensures p < 5 && (length + p) % 5 == 0
  {
    if length % 5 == 0 then 0 else 5 - length % 5
  }

  lemma {:induction false} FiveRoundTrip(x: seq<nat>, width: nat)
    requires AreBelow(x, 2) && |x| == width == 5
    ensures FiveBits(BitsValue(x)) == x
  {
    BitsRoundTrip(x, 2);
    assert FiveBits(BitsValue(x)) == ToDigits(BitsValue(x), 2, width);
  }

  lemma {:induction false} FirstDigit(d: nat, digits: seq<nat>)
    ensures DigitBits([d] + digits) == FiveBits(d) + DigitBits(digits)
  {
    assert ([d] + digits)[1..] == digits;
  }

  lemma {:induction false} LastGroup(bits: seq<nat>)
    requires AreBelow(bits, 2) && 0 < |bits| < 5
    ensures DigitBits(Regroup(bits)) == bits + Zeros(5 - |bits|)
  {
    var group := bits + Zeros(5 - |bits|);
    FiveRoundTrip(group, 5);
    FirstDigit(BitsValue(group), []);
    assert [BitsValue(group)] + [] == [BitsValue(group)];
  }

  lemma {:induction false} FullGroup(bits: seq<nat>)
    requires AreBelow(bits, 2) && |bits| >= 5
    ensures DigitBits(Regroup(bits)) == bits[..5] + DigitBits(Regroup(bits[5..]))
  {
    FiveRoundTrip(bits[..5], 5);
    FirstDigit(BitsValue(bits[..5]), Regroup(bits[5..]));
  }

  /** The digits hold the bits, in order, and then the padding. */
  lemma {:induction false} RegroupRoundTrip(bits: seq<nat>)
    requires AreBelow(bits, 2)
    ensures DigitBits(Regroup(bits)) == bits + Zeros(Padding(|bits|))
  {
    PaddingIs(|bits|);
    if |bits| == 0 {
      assert bits == [] && Zeros(0) == [];
    } else if |bits| < 5 {
      LastGroup(bits);
    } else {
      var first, rest := bits[..5], bits[5..];
      FullGroup(bits);
      RegroupRoundTrip(rest);
      Regrouped(first, rest, Zeros(Padding(|rest|)));
      assert bits == first + rest;
    }
  }

  lemma {:induction false} Regrouped(a: seq<nat>, b: seq<nat>, c: seq<nat>)
    ensures a + (b + c) == (a + b) + c
  {
  }

  lemma {:induction false} PaddingIs(length: nat)
    ensures length == 0 ==> Padding(length) == 0
    ensures 0 < length < 5 ==> Padding(length) == 5 - length
    ensures length >= 5 ==> Padding(length - 5) == Padding(length)
  {
  }

  // ── the alphabet ──────────────────────────────────────────────────────

  lemma {:induction false} BitsValueBound(bits: seq<nat>)
    requires AreBelow(bits, 2)
    ensures BitsValue(bits) < Power(2, |bits|)
  {
    if |bits| > 0 { BitsValueBound(bits[..|bits| - 1]); }
  }

  lemma {:induction false} RegroupBound(bits: seq<nat>)
    requires AreBelow(bits, 2)
    ensures AreBelow(Regroup(bits), 32)
  {
    assert Power(2, 5) == 32 by { assert Power(2, 3) == 8; }
    if 0 < |bits| < 5 {
      BitsValueBound(bits + Zeros(5 - |bits|));
    } else if |bits| >= 5 {
      BitsValueBound(bits[..5]);
      RegroupBound(bits[5..]);
    }
  }

  const ALPHABET: string := "0123456789ABCDEFGHIJKLMNOPQRSTUV"

  /** The character of a digit, by its place in the extended hex alphabet. */
  function CharOf(digit: nat): char
    requires digit < 32
  {
    ALPHABET[digit]
  }

  /** Digits 0 to 9 and then the letters A to V, each in the order of their codes. */
  lemma {:induction false} CodeOf(digit: nat)
    requires digit < 32
    ensures CharOf(digit) as nat == if digit < 10 then '0' as nat + digit else 'A' as nat + digit - 10
  {
  }

  function Spell(digits: seq<nat>): (s: string)
    requires AreBelow(digits, 32)
    ensures |s| == |digits|
  {
    seq(|digits|, i requires 0 <= i < |digits| => CharOf(digits[i]))
  }

  function Codes(s: string): seq<nat> {
    seq(|s|, i requires 0 <= i < |s| => s[i] as nat)
  }

  /** Order of strings as a byte-wise comparison sees them. */
  predicate StringLess(s: string, t: string) {
    Less(Codes(s), Codes(t))
  }

  lemma {:induction false} CharOrder(d: nat, e: nat)
    requires d < 32 && e < 32
    ensures CharOf(d) as nat < CharOf(e) as nat <==> d < e
    ensures CharOf(d) == CharOf(e) <==> d == e
  {
    CodeOf(d);
    CodeOf(e);
  }

  lemma {:induction false} SpellOrder(a: seq<nat>, b: seq<nat>)
    requires |a| == |b| && AreBelow(a, 32) && AreBelow(b, 32)
    ensures StringLess(Spell(a), Spell(b)) <==> Less(a, b)
  {
    if |a| > 0 {
      SpellOrder(a[1..], b[1..]);
      CharOrder(a[0], b[0]);
      SpellSplit(a);
      SpellSplit(b);
    }
  }

  lemma {:induction false} SpellInjective(a: seq<nat>, b: seq<nat>)
    requires |a| == |b| && AreBelow(a, 32) && AreBelow(b, 32)
    ensures Spell(a) == Spell(b) <==> a == b
  {
    if Spell(a) == Spell(b) {
      forall i | 0 <= i < |a| ensures a[i] == b[i] {
        assert Spell(a)[i] == CharOf(a[i]) && Spell(b)[i] == CharOf(b[i]);
        CharOrder(a[i], b[i]);
      }
    }
  }

  lemma {:induction false} SpellSplit(a: seq<nat>)
    requires |a| > 0 && AreBelow(a, 32)
    ensures Codes(Spell(a))[0] == CharOf(a[0]) as nat
    ensures Codes(Spell(a))[1..] == Codes(Spell(a[1..]))
  {
  }

  // ── the encoding ──────────────────────────────────────────────────────

  function Base32Hex(bytes: seq<nat>): (s: string)
    ensures |s| == (8 * |bytes| + 4) / 5
  {
    RegroupBound(BytesToBits(bytes));
    Spell(Regroup(BytesToBits(bytes)))
  }

  /** The encoding is injective and strictly monotone on byte strings of one length. */
  lemma {:induction false} Base32HexOrder(a: seq<nat>, b: seq<nat>)
    requires |a| == |b| && AreBelow(a, 256) && AreBelow(b, 256)
    ensures StringLess(Base32Hex(a), Base32Hex(b)) <==> Less(a, b)
    ensures Base32Hex(a) == Base32Hex(b) <==> a == b
  {
    RegroupBound(BytesToBits(a));
    RegroupBound(BytesToBits(b));
    BytesToBitsOrder(a, b);
    RegroupOrder(BytesToBits(a), BytesToBits(b));
    SpellOrder(Regroup(BytesToBits(a)), Regroup(BytesToBits(b)));
    SpellInjective(Regroup(BytesToBits(a)), Regroup(BytesToBits(b)));
  }

  // ── identifiers ───────────────────────────────────────────────────────

  const U64: nat := 0x1_0000_0000_0000_0000

  /** A cast to an unsigned 64-bit integer. */
  function Low64(n: nat): nat {
    n % U64
  }

  /** The eight big-endian bytes of a microsecond count cast to 64 bits. */
  function Stamp(micros: nat): (s: seq<nat>)
    ensures |s| == 8 && AreBelow(s, 256)
  {
    ToDigits(Low64(micros), 256, 8)
  }

  /** Times below 2^64 microseconds compare like their bytes. */
  lemma {:induction false} StampOrder(m: nat, n: nat)
    requires m < U64 && n < U64
    ensures Less(Stamp(m), Stamp(n)) <==> m < n
    ensures Stamp(m) == Stamp(n) <==> m == n
  {
    U64IsPower();
    BigEndianOrder(m, n, 256, 8);
  }

  lemma {:induction false} BigEndianOrder(m: nat, n: nat, base: nat, width: nat)
    requires base == 256 && width == 8 && U64 == Power(base, width) && m < U64 && n < U64
    ensures Less(Stamp(m), Stamp(n)) <==> m < n
    ensures Stamp(m) == Stamp(n) <==> m == n
  {
    ToDigitsOrder(m, n, base, width);
    Low64Is(m);
    Low64Is(n);
    assert Stamp(m) == ToDigits(m, base, width);
    assert Stamp(n) == ToDigits(n, base, width);
  }

  lemma {:induction false} Low64Is(n: nat)
    requires n < U64
    ensures Low64(n) == n
  {
  }

  /** The sixteen bytes of an identifier. */
  function IdBytes(micros: nat, random: seq<nat>): seq<nat> {
    Stamp(micros) + random
  }

  /** Fills the buffer and encodes it. */
  method NewUniqueId(micros: nat, random: array<nat>) returns (id: string)
    requires random.Length == 8 && AreBelow(random[..], 256)
    ensures id == Base32Hex(IdBytes(micros, random[..]))
    ensures |id| == 26
  {
    var b := new nat[16](_ => 0);
    var stamp := Stamp(micros);
    for i := 0 to 8
      invariant b[..i] == stamp[..i]
    {
      b[i] := stamp[i];
    }
    for i := 0 to 8
      invariant b[..8] == stamp && b[8..8 + i] == random[..i]
    {
      b[8 + i] := random[i];
    }
    ghost var bytes := b[..];
    assert bytes == IdBytes(micros, random[..]) by {
      assert bytes == b[..8] + b[8..16] && b[8..16] == random[..8] == random[..];
    }
    id := Base32Hex(b[..]);
  }

  lemma {:induction false} U64IsPower()
    ensures U64 == Power(256, 8)
  {
    assert Power(256, 2) == 0x1_0000;
    assert Power(256, 4) == 0x1_0000_0000;
    assert Power(256, 6) == 0x1_0000_0000_0000;
  }

  /** The bytes of an identifier compare like its timestamp, then its random bytes. */
  lemma {:induction false} IdBytesOrder(m: nat, r: seq<nat>, n: nat, q: seq<nat>)
    requires m < U64 && n < U64 && |r| == |q| == 8
    ensures Less(IdBytes(m, r), IdBytes(n, q)) <==> m < n || (m == n && Less(r, q))
    ensures IdBytes(m, r) == IdBytes(n, q) <==> m == n && r == q
  {
    StampOrder(m, n);
    ConcatOrder(Stamp(m), r, Stamp(n), q);
  }

  /**
   * Identifiers sort by their timestamps whatever the random bytes, and by the
   * random bytes within one microsecond; equal identifiers have equal parts.
   */
  lemma {:induction false} IdsSortByTime(m: nat, r: seq<nat>, n: nat, q: seq<nat>)
    requires m < U64 && n < U64 && |r| == |q| == 8 && AreBelow(r, 256) && AreBelow(q, 256)
    ensures StringLess(Base32Hex(IdBytes(m, r)), Base32Hex(IdBytes(n, q)))
            <==> m < n || (m == n && Less(r, q))
    ensures Base32Hex(IdBytes(m, r)) == Base32Hex(IdBytes(n, q)) <==> m == n && r == q
  {
    IdBytesOrder(m, r, n, q);
    Base32HexOrder(IdBytes(m, r), IdBytes(n, q));
  }
}
