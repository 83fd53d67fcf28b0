/**
  LEB128 numbers (include/common/leb128.h; section 7.6 of DWARF version 5): what the bytes
  mean, the encoders and decoders, round trips, and that no shorter encoding exists.
 */
module Leb128 {
  import opened Wrappers

  const TWO_64: int := 0x1_0000_0000_0000_0000
  const TWO_63: int := 0x8000_0000_0000_0000

  predicate U64(v: int) { 0 <= v < TWO_64 }

  predicate S64(v: int) { -TWO_63 <= v < TWO_63 }

  /** The s64 with these 64 bits, and the 64 bits of an s64. */
  function AsSigned(bits: nat): int
    requires U64(bits)
  {
    if bits < TWO_63 then bits else bits - TWO_64
  }

  function AsBits(v: int): (bits: nat)
    ensures U64(bits)
  {
    v % TWO_64
  }

  // ----- shifts and bitwise or -----

  function Pow2(k: nat): (p: nat)
    ensures p >= 1
  {
    if k == 0 then 1 else 2 * Pow2(k - 1)
  }

  function Scaled(x: nat, k: nat): nat { x * Pow2(k) }

  /** `x << k` on 64 bits. */
  function Shl(x: nat, k: nat): (r: nat)
    ensures U64(r)
  {
    Scaled(x, k) % TWO_64
  }

  /** Bitwise or. */
  function Or(a: nat, b: nat): nat {
    if a == 0 && b == 0 then 0
    else (if a % 2 == 1 || b % 2 == 1 then 1 else 0) + 2 * Or(a / 2, b / 2)
  }

  lemma {:induction false} OrZero(a: nat)
    ensures Or(a, 0) == a && Or(0, a) == a
  {
    if a != 0 { OrZero(a / 2); }
  }

  /** Bits that do not overlap are added. */
  lemma {:induction false} OrIsSum(a: nat, b: nat, k: nat)
    requires a < Pow2(k)
    ensures Or(a, b * Pow2(k)) == a + b * Pow2(k)
  {
    if k == 0 {
      OrZero(b);
    } else {
      var c := b * Pow2(k);
      assert c == 2 * (b * Pow2(k - 1));
      OrIsSum(a / 2, b, k - 1);
      if a == 0 && c == 0 { } else { assert a == a % 2 + 2 * (a / 2); }
    }
  }

  // ----- what the bytes mean -----

  /** Where the first encoding in `bs` ends: after the first byte without bit 7. */
  function End(bs: seq<byte>): (n: nat)
    ensures n <= |bs|
  {
    if bs == [] then 0 else if bs[0] < 128 then 1 else 1 + End(bs[1..])
  }

  /** One whole encoding. */
  predicate Encoding(bs: seq<byte>) {
    bs != [] && bs[|bs| - 1] < 128 && forall i :: 0 <= i < |bs| - 1 ==> bs[i] >= 128
  }

  function Unsigned(bs: seq<byte>): nat {
    if bs == [] then 0 else bs[0] as nat % 128 + 128 * Unsigned(bs[1..])
  }

  /** Bit 6 of the last byte is the sign. */
  function Signed(bs: seq<byte>): int {
    if bs == [] then 0
    else if |bs| == 1 then bs[0] as int % 128 - (if bs[0] as int % 128 >= 64 then 128 else 0)
    else bs[0] as int % 128 + 128 * Signed(bs[1..])
  }

  lemma {:induction false} UnsignedSnoc(bs: seq<byte>, b: byte)
    ensures Unsigned(bs + [b]) == Unsigned(bs) + (b as nat % 128) * Pow2(7 * |bs|)
  {
    if bs != [] {
      assert (bs + [b])[1..] == bs[1..] + [b];
      UnsignedSnoc(bs[1..], b);
      SevenMore(b as nat % 128, |bs[1..]|);
    }
  }

  lemma SevenMore(x: nat, n: nat)
    ensures 128 * (x * Pow2(7 * n)) == x * Pow2(7 * (n + 1))
  {
    Pow2Seven(7 * n);
    assert 7 * (n + 1) == 7 * n + 7;
    Swap(x, Pow2(7 * n));
  }

  lemma Swap(x: nat, p: nat)
    ensures 128 * (x * p) == x * (128 * p)
  {}

  lemma Pow2Seven(k: nat)
    ensures Pow2(k + 7) == 128 * Pow2(k)
  {
    assert Pow2(k + 7) == 2 * Pow2(k + 6) && Pow2(k + 6) == 2 * Pow2(k + 5) && Pow2(k + 5) == 2 * Pow2(k + 4);
    assert Pow2(k + 4) == 2 * Pow2(k + 3) && Pow2(k + 3) == 2 * Pow2(k + 2) && Pow2(k + 2) == 2 * Pow2(k + 1);
  }

  lemma {:induction false} UnsignedBound(bs: seq<byte>)
    ensures Unsigned(bs) < Pow2(7 * |bs|)
  {
    if bs != [] {
      UnsignedBound(bs[1..]);
      Pow2Seven(7 * |bs[1..]|);
      assert 7 * |bs| == 7 * |bs[1..]| + 7;
    }
  }

  lemma {:induction false} SignedIs(bs: seq<byte>)
    requires bs != []
    ensures Signed(bs) == Unsigned(bs) - (if bs[|bs| - 1] as int % 128 >= 64 then Pow2(7 * |bs|) else 0)
  {
    if |bs| == 1 {
      assert Unsigned(bs[1..]) == 0;
      Pow2Seven(0);
    } else {
      SignedIs(bs[1..]);
      Pow2Seven(7 * |bs[1..]|);
      assert 7 * |bs| == 7 * |bs[1..]| + 7;
    }
  }

  // ----- the encodings -----

  function Uleb(v: nat): seq<byte> {
    if v < 128 then [v as byte] else [(v % 128 + 128) as byte] + Uleb(v / 128)
  }

  /** The shift of a negative number rounds down, as division by a positive number does here. */
  function Sleb(v: int): seq<byte>
    decreases if v < 0 then -v else v
  {
    var low := v % 128;
    if v / 128 == (if low >= 64 then -1 else 0) then [low as byte] else [(low + 128) as byte] + Sleb(v / 128)
  }

  lemma {:induction false} UlebValue(v: nat)
    ensures Encoding(Uleb(v)) && Unsigned(Uleb(v)) == v
  {
    if v < 128 {
      assert Unsigned([v as byte][1..]) == 0;
    } else {
      UlebValue(v / 128);
      assert Uleb(v)[1..] == Uleb(v / 128);
    }
  }

  /** Where an encoding ends does not depend on what follows. */
  lemma {:induction false} EncodingEnds(bs: seq<byte>, rest: seq<byte>)
    requires Encoding(bs)
    ensures End(bs + rest) == |bs|
  {
    if |bs| > 1 {
      assert (bs + rest)[1..] == bs[1..] + rest;
      EncodingEnds(bs[1..], rest);
    }
  }

  lemma {:induction false} SlebValue(v: int)
    ensures Encoding(Sleb(v)) && Signed(Sleb(v)) == v
    decreases if v < 0 then -v else v
  {
    var low := v % 128;
    if v / 128 != (if low >= 64 then -1 else 0) {
      var tail := Sleb(v / 128);
      SlebValue(v / 128);
      SignedLonger(v, low, v / 128, tail);
    }
  }

  lemma SignedLonger(v: int, low: nat, w: int, tail: seq<byte>)
    requires v == low + 128 * w && low < 128 && Encoding(tail) && Signed(tail) == w
    ensures Encoding([(low + 128) as byte] + tail) && Signed([(low + 128) as byte] + tail) == v
  {
    SignedCons((low + 128) as byte, tail);
  }

  lemma SignedCons(b: byte, tail: seq<byte>)
    requires Encoding(tail) && b >= 128
    ensures Encoding([b] + tail) && Signed([b] + tail) == b as int % 128 + 128 * Signed(tail)
  {
    assert ([b] + tail)[1..] == tail;
  }

  /** No other encoding of the same number is shorter. */
  lemma {:induction false} UlebIsShortest(bs: seq<byte>)
    requires bs != []
    ensures |Uleb(Unsigned(bs))| <= |bs|
  {
    if |bs| == 1 {
      assert Unsigned(bs[1..]) == 0;
    } else {
      UlebIsShortest(bs[1..]);
      assert Unsigned(bs) / 128 == Unsigned(bs[1..]);
    }
  }

  lemma {:induction false} SlebIsShortest(bs: seq<byte>)
    requires bs != []
    ensures |Sleb(Signed(bs))| <= |bs|
  {
    if |bs| > 1 {
      SlebIsShortest(bs[1..]);
      assert Signed(bs) / 128 == Signed(bs[1..]);
    }
  }

  /** A number of `7 n` bits takes at most `n` bytes. */
  lemma {:induction false} UlebLen(v: nat, n: nat)
    requires n > 0 && v < Pow2(7 * n)
    ensures |Uleb(v)| <= n
  {
    Pow2Seven(7 * (n - 1));
    assert 7 * n == 7 * (n - 1) + 7;
    if v >= 128 {
      assert n > 1;
      UlebLen(v / 128, n - 1);
    }
  }

  lemma {:induction false} SlebLen(v: int, n: nat)
    requires n > 0 && -64 * Pow2(7 * (n - 1)) <= v < 64 * Pow2(7 * (n - 1))
    ensures |Sleb(v)| <= n
    decreases n
  {
    if n > 1 {
      Pow2Seven(7 * (n - 2));
      assert 7 * (n - 1) == 7 * (n - 2) + 7;
      SlebLen(v / 128, n - 1);
    } else {
      assert Pow2(7 * (n - 1)) == 1;
    }
  }

  lemma Pow2Values()
    ensures Pow2(63) == TWO_63 && Pow2(64) == TWO_64 && Pow2(70) == 64 * TWO_64
  {
    Pow2Seven(0);
    Pow2Seven(7);
    Pow2Seven(14);
    Pow2Seven(21);
    Pow2Seven(28);
    Pow2Seven(35);
    Pow2Seven(42);
    Pow2Seven(49);
    Pow2Seven(56);
    Pow2Seven(63);
    assert Pow2(64) == 2 * Pow2(63);
  }

  /** A 64-bit number takes at most ten bytes. */
  lemma TenBytes(v: int)
    ensures U64(v) ==> |Uleb(v)| <= 10
    ensures S64(v) ==> |Sleb(v)| <= 10
  {
    Pow2Values();
    if U64(v) { UlebLen(v, 10); }
    if S64(v) { SlebLen(v, 10); }
  }

  // ----- encoders -----

  lemma Regroup(before: seq<byte>, b: byte, after: seq<byte>)
    ensures before + ([b] + after) == (before + [b]) + after
  {}

  method EncodeUleb(buf: array<byte>, p0: nat, value0: nat) returns (p: nat)
    requires U64(value0) && p0 + |Uleb(value0)| <= buf.Length
    modifies buf
    ensures p == p0 + |Uleb(value0)|
    ensures buf[p0..p] == Uleb(value0)
    ensures forall i :: 0 <= i < buf.Length && !(p0 <= i < p) ==> buf[i] == old(buf[i])
  {
    p := p0;
    var value := value0;
    var more := true;
    while more
      invariant p0 <= p <= buf.Length && U64(value)
      invariant forall i :: 0 <= i < buf.Length && !(p0 <= i < p) ==> buf[i] == old(buf[i])
      invariant Uleb(value0) == buf[p0..p] + (if more then Uleb(value) else [])
      decreases more, value
    {
      ghost var before := buf[p0..p];
      var b;
      b, value, more := NextUleb(value);
      buf[p] := b;
      p := p + 1;
      assert buf[p0..p] == before + [b];
      Regroup(before, b, if more then Uleb(value) else []);
    }
  }

  /** One turn: the byte to store and what is left of the value. */
  method NextUleb(value0: nat) returns (b: byte, value: nat, more: bool)
    requires U64(value0)
    ensures Uleb(value0) == [b] + (if more then Uleb(value) else [])
    ensures U64(value) && (more ==> value < value0)
  {
    var low := value0 % 128;
    value := value0 / 128;
    more := value != 0;
    b := (if more then low + 128 else low) as byte;
  }

  function Size(v: int): nat { if v < 0 then -v else v }

  method EncodeSleb(buf: array<byte>, p0: nat, value0: int) returns (p: nat)
    requires S64(value0) && p0 + |Sleb(value0)| <= buf.Length
    modifies buf
    ensures p == p0 + |Sleb(value0)|
    ensures buf[p0..p] == Sleb(value0)
    ensures forall i :: 0 <= i < buf.Length && !(p0 <= i < p) ==> buf[i] == old(buf[i])
  {
    p := p0;
    var value := value0;
    var more := true;
    while more
      invariant p0 <= p <= buf.Length && S64(value)
      invariant forall i :: 0 <= i < buf.Length && !(p0 <= i < p) ==> buf[i] == old(buf[i])
      invariant Sleb(value0) == buf[p0..p] + (if more then Sleb(value) else [])
      decreases more, Size(value)
    {
      ghost var before := buf[p0..p];
      var b;
      b, value, more := NextSleb(value);
      buf[p] := b;
      p := p + 1;
      assert buf[p0..p] == before + [b];
      Regroup(before, b, if more then Sleb(value) else []);
    }
  }

  /** One turn: the byte to store and what is left of the value. */
  method NextSleb(value0: int) returns (b: byte, value: int, more: bool)
    requires S64(value0)
    ensures Sleb(value0) == [b] + (if more then Sleb(value) else [])
    ensures S64(value) && (more ==> Size(value) < Size(value0))
  {
    var low := value0 % 128;
    value := value0 / 128;
    more := value != (if low >= 64 then -1 else 0);
    b := (if more then low + 128 else low) as byte;
  }

  // ----- decoders -----

  /** What both loops compute: the low 64 bits of the unsigned value. */
  method DecodeBits(buf: array<byte>, p0: nat) returns (result: nat, shift: nat, p: nat)
    requires p0 <= buf.Length && Encoding(buf[p0..p0 + End(buf[p0..])]) && End(buf[p0..]) <= 10
    ensures p == p0 + End(buf[p0..]) && shift == 7 * End(buf[p0..])
    ensures result == Unsigned(buf[p0..p]) % TWO_64
  {
    result, shift, p := 0, 0, p0;
    ghost var n := End(buf[p0..]);
    var more := true;
    while more
      invariant p0 <= p <= p0 + n && shift == 7 * (p - p0)
      invariant more <==> p < p0 + n
      invariant more ==> Unsigned(buf[p0..p]) < Pow2(shift)
      invariant result == Unsigned(buf[p0..p]) % TWO_64
      decreases p0 + n - p
    {
      var b := buf[p];
      assert buf[p0..p0 + n][p - p0] == b;
      assert buf[p0..p + 1] == buf[p0..p] + [b];
      UnsignedSnoc(buf[p0..p], b);
      UnsignedBound(buf[p0..p + 1]);
      OrStep(Unsigned(buf[p0..p]), b as nat % 128, shift);
      result := Or(result, Shl(b as nat % 128, shift));
      shift := shift + 7;
      p := p + 1;
      more := b >= 128;
    }
  }

  lemma {:induction false} Pow2Add(i: nat, j: nat)
    ensures Pow2(i + j) == Pow2(i) * Pow2(j)
  {
    if i > 0 { Pow2Add(i - 1, j); }
  }

  lemma ShiftedModulo(b: nat, p: nat, q: nat)
    requires p > 0 && q > 0 && p * q == TWO_64
    ensures (b * p) % TWO_64 == (b % q) * p && (b % q) * p <= TWO_64 - p
  {
    var d, r := b / q, b % q;
    assert b * p == (q * d + r) * p == d * (p * q) + r * p;
    assert r * p <= (q - 1) * p == TWO_64 - p;
    ModuloOf(d, r * p);
  }

  lemma ModuloOf(d: nat, r: nat)
    requires r < TWO_64
    ensures (d * TWO_64 + r) % TWO_64 == r
  {}

  lemma Powers(shift: nat)
    requires shift <= 63
    ensures Pow2(shift) * Pow2(64 - shift) == TWO_64 && Pow2(64 - shift) >= 2
  {
    Pow2Values();
    Pow2Add(shift, 64 - shift);
  }

  lemma AddLow(x: nat, y: nat)
    requires x + y % TWO_64 < TWO_64
    ensures (x + y) % TWO_64 == x + y % TWO_64 && x % TWO_64 == x
  {}

  /** Seven more bits above the `shift` bits read so far, up to 64 bits. */
  lemma OrStep(x: nat, b: nat, shift: nat)
    requires x < Pow2(shift) && shift <= 63
    ensures Or(x % TWO_64, Shl(b, shift)) == (x + Scaled(b, shift)) % TWO_64
  {
    NoOverlap(x, b, shift);
    AddLow(x, Scaled(b, shift));
  }

  lemma NoOverlap(x: nat, b: nat, shift: nat)
    requires x < Pow2(shift) && shift <= 63
    ensures x + Shl(b, shift) < TWO_64 && Or(x, Shl(b, shift)) == x + Shl(b, shift)
  {
    Powers(shift);
    ShiftedModulo(b, Pow2(shift), Pow2(64 - shift));
    OrIsSum(x, b % Pow2(64 - shift), shift);
  }

  method DecodeUleb(buf: array<byte>, p0: nat) returns (value: nat, p: nat)
    requires p0 <= buf.Length && Encoding(buf[p0..p0 + End(buf[p0..])]) && End(buf[p0..]) <= 10
    ensures p == p0 + End(buf[p0..]) && U64(value)
    ensures value == Unsigned(buf[p0..p]) % TWO_64
  {
    var shift;
    value, shift, p := DecodeBits(buf, p0);
  }

  method DecodeSleb(buf: array<byte>, p0: nat) returns (value: int, p: nat)
    requires p0 <= buf.Length && Encoding(buf[p0..p0 + End(buf[p0..])]) && End(buf[p0..]) <= 10
    ensures p == p0 + End(buf[p0..]) && S64(value)
    ensures value == AsSigned(AsBits(Signed(buf[p0..p])))
  {
    var result, shift;
    result, shift, p := DecodeBits(buf, p0);
    ghost var bs := buf[p0..p];
    var b := buf[p - 1];
    assert b == bs[|bs| - 1] && |bs| == p - p0;
    SignIsRight(bs);
    if shift < 64 && b as nat % 128 >= 64 {
      result := Or(result, TWO_64 - Pow2(shift));
    }
    value := AsSigned(result);
  }

  lemma SignIsRight(bs: seq<byte>)
    requires bs != []
    ensures var x, k := Unsigned(bs) % TWO_64, 7 * |bs|;
            if k < 64 && bs[|bs| - 1] as int % 128 >= 64
            then TWO_64 - Pow2(k) >= 0 && Or(x, TWO_64 - Pow2(k)) == AsBits(Signed(bs))
            else k <= 70 ==> x == AsBits(Signed(bs))
  {
    SignedIs(bs);
    UnsignedBound(bs);
    if bs[|bs| - 1] as int % 128 >= 64 { Extended(Unsigned(bs), 7 * |bs|); }
  }

  /** What the sign takes away is what the bits above it add, on 64 bits. */
  lemma Extended(x: nat, k: nat)
    requires x < Pow2(k) && k % 7 == 0
    ensures k < 64 ==> TWO_64 - Pow2(k) >= 0 && Or(x % TWO_64, TWO_64 - Pow2(k)) == AsBits(x - Pow2(k))
    ensures 64 <= k <= 70 ==> x % TWO_64 == AsBits(x - Pow2(k))
  {
    if k < 64 { SignExtend(x, k); }
    else if k == 70 { WholeTurns(x); }
  }

  /** All bits above the sign are set: subtracting 2^shift, on 64 bits. */
  lemma SignExtend(x: nat, shift: nat)
    requires x < Pow2(shift) && shift <= 63
    ensures TWO_64 - Pow2(shift) >= 0
    ensures Or(x % TWO_64, TWO_64 - Pow2(shift)) == AsBits(x - Pow2(shift))
  {
    OrHighBits(x, shift);
    AddLow(x, 0);
    BitsBelowZero(x - Pow2(shift));
  }

  lemma OrHighBits(x: nat, shift: nat)
    requires x < Pow2(shift) && shift <= 63
    ensures Pow2(shift) <= TWO_64 && Or(x, TWO_64 - Pow2(shift)) == x + (TWO_64 - Pow2(shift))
  {
    var p, q := Pow2(shift), Pow2(64 - shift);
    Powers(shift);
    TopBits(p, q);
    OrIsSum(x, q - 1, shift);
  }

  lemma BitsBelowZero(n: int)
    requires -TWO_64 <= n < 0
    ensures AsBits(n) == n + TWO_64
  {}

  lemma TopBits(p: nat, q: nat)
    requires p * q == TWO_64
    ensures TWO_64 - p == (q - 1) * p
  {}

  /** Seventy bits or more: what the sign would add is a multiple of 2^64. */
  lemma WholeTurns(x: nat)
    ensures AsBits(x - Pow2(70)) == AsBits(x)
  {
    Pow2Values();
    assert (x - 64 * TWO_64) % TWO_64 == x % TWO_64;
  }

  /**
    What the encoder leaves in a buffer, followed by anything, meets the demands of the
    decoder, which returns the number and stops right behind the encoding.
   */
  lemma UnsignedRoundTrip(v: nat, rest: seq<byte>)
    requires U64(v)
    ensures var bs := Uleb(v) + rest;
            Encoding(bs[..End(bs)]) && End(bs) == |Uleb(v)| <= 10 && Unsigned(bs[..End(bs)]) % TWO_64 == v
  {
    TenBytes(v);
    UlebValue(v);
    EncodingEnds(Uleb(v), rest);
    assert (Uleb(v) + rest)[..|Uleb(v)|] == Uleb(v);
  }

  lemma SignedRoundTrip(v: int, rest: seq<byte>)
    requires S64(v)
    ensures var bs := Sleb(v) + rest;
            Encoding(bs[..End(bs)]) && End(bs) == |Sleb(v)| <= 10 && AsSigned(AsBits(Signed(bs[..End(bs)]))) == v
  {
    TenBytes(v);
    SlebValue(v);
    EncodingEnds(Sleb(v), rest);
    assert (Sleb(v) + rest)[..|Sleb(v)|] == Sleb(v);
  }
}
