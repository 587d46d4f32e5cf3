/**
 64-bit FNV-1a as `hash/fnv` computes it: the state is xor-ed with a byte and multiplied by the FNV
 prime, modulo 2^64 (draft-eastlake-fnv, section 2, "FNV Basics").
 */
module Fnv {
  type byte = b: int | 0 <= b < 256

  const MODULUS: int := 0x1_0000_0000_0000_0000
  const PRIME: int := 0x100_0000_01B3
  const OFFSET_BASIS: int := 0xCBF2_9CE4_8422_2325
  // PRIME * INVERSE == 1 modulo MODULUS
  const INVERSE: int := 0xCE96_5057_AFF6_957B

  type State = s: int | 0 <= s < MODULUS

  function Power2(bits: nat): (p: nat)
    ensures p > 0
  {
    if bits == 0 then 1 else 2 * Power2(bits - 1)
  }

  /** Exclusive or of the low `bits` bits. */
  function Xor(x: nat, y: nat, bits: nat): (r: nat)
    ensures r < Power2(bits)
  {
    if bits == 0 then 0 else 2 * Xor(x / 2, y / 2, bits - 1) + (if x % 2 == y % 2 then 0 else 1)
  }

  lemma {:induction false} XorCommutes(x: nat, y: nat, bits: nat)
    ensures Xor(x, y, bits) == Xor(y, x, bits)
  {
    if bits > 0 { XorCommutes(x / 2, y / 2, bits - 1); }
  }

  lemma {:induction false} XorIsInjective(x: nat, y: nat, z: nat, bits: nat)
    requires x < Power2(bits) && y < Power2(bits) && Xor(x, z, bits) == Xor(y, z, bits)
    ensures x == y
  {
    if bits > 0 {
      assert x % 2 == y % 2;
      XorIsInjective(x / 2, y / 2, z / 2, bits - 1);
    }
  }

  lemma EightBits()
    ensures Power2(8) == 256
  {
    assert Power2(4) == 16;
  }

  function XorByte(x: byte, y: byte): byte {
    EightBits();
    Xor(x, y, 8)
  }

  const HIGH: int := 0x100_0000_0000_0000 // 2^56

  function Pack(high: nat, low: nat): (s: State)
    requires high < HIGH && low < 256
  {
    high * 256 + low
  }

  lemma PackIsInjective(h: nat, l: nat, h': nat, l': nat)
    requires h < HIGH && l < 256 && h' < HIGH && l' < 256
    requires Pack(h, l) == Pack(h', l')
    ensures h == h' && l == l'
  {
  }

  /** The state xor one byte: only the low eight bits change. */
  function Mix(s: State, b: byte): State {
    Pack(s / 256, XorByte(s % 256, b))
  }

  function Step(s: State, b: byte): State {
    Mix(s, b) * PRIME % MODULUS
  }

  function Fold(s: State, data: seq<byte>): State
    decreases |data|
  {
    if data == [] then s else Fold(Step(s, data[0]), data[1..])
  }

  lemma {:induction false} FoldConcat(s: State, a: seq<byte>, b: seq<byte>)
    ensures Fold(s, a + b) == Fold(Fold(s, a), b)
    decreases |a|
  {
    if a == [] {
      assert a + b == b;
    } else {
      assert (a + b)[1..] == a[1..] + b;
      FoldConcat(Step(s, a[0]), a[1..], b);
    }
  }

  lemma MixIsInjective(s: State, t: State, b: byte)
    requires Mix(s, b) == Mix(t, b)
    ensures s == t
  {
    PackIsInjective(s / 256, XorByte(s % 256, b), t / 256, XorByte(t % 256, b));
    EightBits();
    XorIsInjective(s % 256, t % 256, b, 8);
  }

  lemma MixSeparatesBytes(s: State, a: byte, b: byte)
    requires a != b
    ensures Mix(s, a) != Mix(s, b)
  {
    if Mix(s, a) == Mix(s, b) {
      PackIsInjective(s / 256, XorByte(s % 256, a), s / 256, XorByte(s % 256, b));
      EightBits();
      XorCommutes(s % 256, a, 8);
      XorCommutes(s % 256, b, 8);
      XorIsInjective(a, b, s % 256, 8);
    }
  }

  /** Multiplying by the prime can be undone. */
  lemma TimesPrimeIsInjective(s: State, t: State)
    requires s * PRIME % MODULUS == t * PRIME % MODULUS
    ensures s == t
  {
    Undo(s);
    Undo(t);
  }

  lemma Undo(s: State)
    ensures s * PRIME % MODULUS * INVERSE % MODULUS == s
  {
    var p := s * PRIME;
    var q := p / MODULUS;
    var r := p % MODULUS;
    assert p == q * MODULUS + r;
    var k := 887285111055;
    assert PRIME * INVERSE == k * MODULUS + 1;
    calc {
      r * INVERSE;
      (s * PRIME - q * MODULUS) * INVERSE;
      s * PRIME * INVERSE - q * MODULUS * INVERSE;
      { assert s * PRIME * INVERSE == s * (PRIME * INVERSE) == s * (k * MODULUS + 1); }
      s * (k * MODULUS + 1) - q * MODULUS * INVERSE;
      s + (s * k - q * INVERSE) * MODULUS;
    }
    Remainder(s * k - q * INVERSE, s);
  }

  lemma Remainder(m: int, s: State)
    ensures (s + m * MODULUS) % MODULUS == s
  {
    var x := s + m * MODULUS;
    assert x / MODULUS * MODULUS + x % MODULUS == x;
    assert (x / MODULUS - m) * MODULUS == s - x % MODULUS;
    assert -MODULUS < (x / MODULUS - m) * MODULUS < MODULUS;
  }

  lemma StepIsInjective(s: State, t: State, b: byte)
    requires s != t
    ensures Step(s, b) != Step(t, b)
  {
    if Step(s, b) == Step(t, b) {
      TimesPrimeIsInjective(Mix(s, b), Mix(t, b));
      MixIsInjective(s, t, b);
    }
  }

  /** Continuing over the same bytes keeps different states different. */
  lemma {:induction false} FoldIsInjective(s: State, t: State, data: seq<byte>)
    requires s != t
    ensures Fold(s, data) != Fold(t, data)
    decreases |data|
  {
    if data != [] {
      StepIsInjective(s, t, data[0]);
      FoldIsInjective(Step(s, data[0]), Step(t, data[0]), data[1..]);
    }
  }

  /** Inputs of one length that differ in exactly one byte never collide, from any seed. */
  lemma OneByteMatters(s: State, left: seq<byte>, a: byte, b: byte, right: seq<byte>)
    requires a != b
    ensures Fold(s, left + [a] + right) != Fold(s, left + [b] + right)
  {
    FoldAround(s, left, a, right);
    FoldAround(s, left, b, right);
    var m := Fold(s, left);
    MixSeparatesBytes(m, a, b);
    if Step(m, a) == Step(m, b) {
      TimesPrimeIsInjective(Mix(m, a), Mix(m, b));
    }
    FoldIsInjective(Step(m, a), Step(m, b), right);
  }

  lemma FoldAround(s: State, left: seq<byte>, a: byte, right: seq<byte>)
    ensures Fold(s, left + [a] + right) == Fold(Step(Fold(s, left), a), right)
  {
    FoldConcat(s, left + [a], right);
    FoldConcat(s, left, [a]);
    assert Fold(Fold(s, left), [a]) == Step(Fold(s, left), a);
  }

  // ---- the wire form of a state, and the printed form of a sum

  const MAGIC: seq<byte> := [0x66, 0x6E, 0x76, 0x04] // "fnv\x04"

  /** `n` as `width` bytes, most significant first. */
  function BigEndian(n: nat, width: nat): (r: seq<byte>)
    ensures |r| == width
  {
    if width == 0 then [] else BigEndian(n / 256, width - 1) + [n % 256]
  }

  function FromBigEndian(r: seq<byte>): nat {
    if r == [] then 0 else FromBigEndian(r[..|r| - 1]) * 256 + r[|r| - 1]
  }

  function Power256(width: nat): (p: nat)
    ensures p > 0
  {
    if width == 0 then 1 else 256 * Power256(width - 1)
  }

  lemma {:induction false} BigEndianRoundTrip(n: nat, width: nat)
    requires n < Power256(width)
    ensures FromBigEndian(BigEndian(n, width)) == n
  {
    if width > 0 {
      BigEndianRoundTrip(n / 256, width - 1);
      assert BigEndian(n, width)[..width - 1] == BigEndian(n / 256, width - 1);
    }
  }

  lemma EightBytesHoldAState()
    ensures Power256(8) == MODULUS
  {
    assert Power256(4) == 0x1_0000_0000;
  }

  function Serialize(s: State): seq<byte> {
    MAGIC + BigEndian(s, 8)
  }

  function Deserialize(data: seq<byte>): State
    requires |data| == 12
  {
    FromBigEndian(data[4..]) % MODULUS
  }

  /** Restoring a serialized state gives it back. */
  lemma SerializeRoundTrip(s: State)
    ensures |Serialize(s)| == 12 && MAGIC <= Serialize(s)
    ensures Deserialize(Serialize(s)) == s
  {
    EightBytesHoldAState();
    BigEndianRoundTrip(s, 8);
    assert Serialize(s)[4..] == BigEndian(s, 8);
  }

  function Digit(d: nat): char
    requires d < 32
  {
    if d < 10 then '0' + d as char else 'a' + (d - 10) as char
  }

  /** `strconv.FormatUint(n, 32)`. */
  function Base32(n: nat): (r: string)
    ensures r != ""
  {
    if n < 32 then [Digit(n)] else Base32(n / 32) + [Digit(n % 32)]
  }

  lemma {:induction false} Base32IsInjective(m: nat, n: nat)
    requires Base32(m) == Base32(n)
    ensures m == n
  {
    assert Digit(m % 32) == Base32(m)[|Base32(m)| - 1] == Digit(n % 32);
    assert m % 32 == n % 32;
    assert (m < 32 <==> |Base32(m)| == 1) && (n < 32 <==> |Base32(n)| == 1);
    if m >= 32 && n >= 32 {
      assert Base32(m / 32) == Base32(m)[..|Base32(m)| - 1] == Base32(n / 32);
      Base32IsInjective(m / 32, n / 32);
    }
  }

  /** The sums of "" and "a" that draft-eastlake-fnv gives among its test vectors. */
  lemma KnownSums()
    ensures Fold(0xCBF2_9CE4_8422_2325, []) == 0xCBF2_9CE4_8422_2325
    ensures Fold(0xCBF2_9CE4_8422_2325, [0x61]) == 0xAF63_DC4C_8601_EC8C
  {
    var s: State := 0xCBF2_9CE4_8422_2325;
    assert s % 256 == 0x25 && s / 256 == 0xCB_F29C_E484_2223;
    XorOfA();
    assert Mix(s, 0x61) == 0xCBF2_9CE4_8422_2344;
    assert [0x61][1..] == [];
    assert Fold(s, [0x61]) == Fold(Step(s, 0x61), []) == Step(s, 0x61);
  }

  lemma XorOfA()
    ensures XorByte(0x25, 0x61) == 0x44
  {
    assert Xor(0x2, 0x6, 4) == 0x4;
    assert Xor(0x25, 0x61, 8) == 0x44;
  }

  /** Bit `i` of a number. */
  function Bit(x: nat, i: nat): nat {
    x / Power2(i) % 2
  }

  /** The exclusive or, bit by bit. */
  lemma {:induction false} XorBit(x: nat, y: nat, bits: nat, i: nat)
    requires i < bits
    ensures Bit(Xor(x, y, bits), i) == if Bit(x, i) == Bit(y, i) then 0 else 1
    decreases bits
  {
    if i == 0 {
      LowBit(x, y, bits);
    } else {
      XorHalves(x, y, bits);
      XorBit(x / 2, y / 2, bits - 1, i - 1);
      hide Xor, Bit;
      NextBit(x, i);
      NextBit(y, i);
      NextBit(Xor(x, y, bits), i);
    }
  }

  lemma NextBit(x: nat, i: nat)
    requires i > 0
    ensures Bit(x, i) == Bit(x / 2, i - 1)
  {
    HalfThenShift(x, i);
  }

  lemma LowBit(x: nat, y: nat, bits: nat)
    requires bits > 0
    ensures Bit(Xor(x, y, bits), 0) == if Bit(x, 0) == Bit(y, 0) then 0 else 1
  {
    assert Power2(0) == 1;
  }

  lemma XorHalves(x: nat, y: nat, bits: nat)
    requires bits > 0
    ensures Xor(x, y, bits) / 2 == Xor(x / 2, y / 2, bits - 1)
  {
  }

  lemma HalfThenShift(x: nat, i: nat)
    requires i > 0
    ensures x / Power2(i) == x / 2 / Power2(i - 1)
  {
    var p := Power2(i - 1);
    var q := x / 2 / p;
    assert x / 2 == q * p + x / 2 % p;
    assert x == 2 * (x / 2) + x % 2;
    assert x == q * (2 * p) + (2 * (x / 2 % p) + x % 2);
    Quotient(x, 2 * p, q, 2 * (x / 2 % p) + x % 2);
  }

  lemma Quotient(x: nat, d: nat, q: nat, r: nat)
    requires d > 0 && r < d && x == q * d + r
    ensures x / d == q
  {
    var e, m := x / d, x % d;
    assert x == e * d + m;
    if e > q {
      MoreTimes(q, e, d);
    } else if e < q {
      MoreTimes(e, q, d);
    }
  }

  lemma {:induction false} MoreTimes(a: nat, b: nat, d: nat)
    requires a < b
    ensures a * d + d <= b * d
    decreases b
  {
    OneMoreTime(b - 1, d);
    if a + 1 < b {
      MoreTimes(a, b - 1, d);
    }
  }

  lemma OneMoreTime(b: nat, d: nat)
    ensures (b + 1) * d == b * d + d
  {
  }

  const ALPHABET := "0123456789abcdefghijklmnopqrstuv"

  /** The number that base-32 digits denote, most significant first. */
  function ValueOf(digits: seq<nat>): nat {
    if digits == [] then 0 else ValueOf(digits[..|digits| - 1]) * 32 + digits[|digits| - 1]
  }

  /** `digits` are the positions of the characters of `s` in the alphabet. */
  predicate Spells(s: string, digits: seq<nat>) {
    |digits| == |s| && forall i :: 0 <= i < |s| ==> digits[i] < 32 && s[i] == ALPHABET[digits[i]]
  }

  lemma DigitIsInAlphabet(d: nat)
    requires d < 32
    ensures Digit(d) == ALPHABET[d]
  {
  }

  /** The printed sum is the number's base-32 representation, without leading zeros. */
  lemma {:induction false} Base32Denotes(n: nat) returns (digits: seq<nat>)
    ensures Spells(Base32(n), digits) && ValueOf(digits) == n
    ensures n > 0 ==> digits[0] > 0
  {
    hide Spells, Digit;
    if n < 32 {
      digits := [n];
      SpellsOneMore("", [], n);
      assert [] + [n] == digits && "" + [Digit(n)] == [Digit(n)];
    } else {
      var high := Base32Denotes(n / 32);
      digits := high + [n % 32];
      SpellsOneMore(Base32(n / 32), high, n % 32);
    }
  }

  lemma SpellsOneMore(s: string, digits: seq<nat>, d: nat)
    requires Spells(s, digits) && d < 32
    ensures Spells(s + [Digit(d)], digits + [d])
    ensures ValueOf(digits + [d]) == ValueOf(digits) * 32 + d
  {
    DigitIsInAlphabet(d);
    assert (digits + [d])[..|digits|] == digits;
  }

  /** The wire form is the four magic bytes, then the state with its most significant byte first. */
  lemma WireForm(s: State)
    ensures |Serialize(s)| == 12 && Serialize(s)[..4] == [0x66, 0x6E, 0x76, 0x04]
    ensures Serialize(s)[11] == s % 256
    ensures Serialize(s)[4] == s / 0x100_0000_0000_0000
  {
    BigEndianEnds(s, 8);
    assert Power256(4) == 0x1_0000_0000;
    assert Power256(7) == 0x100_0000_0000_0000;
    EightBytesHoldAState();
  }

  lemma {:induction false} BigEndianEnds(n: nat, width: nat)
    requires width > 0 && n < Power256(width)
    ensures BigEndian(n, width)[width - 1] == n % 256
    ensures BigEndian(n, width)[0] == n / Power256(width - 1)
  {
    if width > 1 {
      BigEndianEnds(n / 256, width - 1);
      ByteThenShift(n, Power256(width - 2));
    }
  }

  lemma ByteThenShift(n: nat, p: nat)
    requires p > 0
    ensures n / 256 / p == n / (256 * p)
  {
    var q, r := n / 256 / p, n / 256 % p;
    assert n / 256 == q * p + r;
    assert n == q * (256 * p) + (256 * r + n % 256) by {
      assert n == 256 * (n / 256) + n % 256;
      assert 256 * (q * p) == q * (256 * p);
    }
    Quotient(n, 256 * p, q, 256 * r + n % 256);
  }

  /** `fnv.New64a()` and the operations used on it. */
  class Accumulator {
    var state: State

    constructor ()
      ensures state == OFFSET_BASIS
    {
      state := OFFSET_BASIS;
    }

    method Write(data: seq<byte>)
      modifies this
      ensures state == Fold(old(state), data)
    {
      var i := 0;
      while i < |data|
        invariant 0 <= i <= |data|
        invariant Fold(state, data[i..]) == Fold(old(state), data)
      {
        state := Step(state, data[i]);
        i := i + 1;
      }
    }

    /** Restores a state from its wire form: the magic prefix, then the state in big-endian order. */
    method UnmarshalBinary(data: seq<byte>) returns (ok: bool)
      modifies this
      ensures ok <==> |data| == 12 && MAGIC <= data
      ensures !ok ==> state == old(state)
      ensures ok ==> state == Deserialize(data)
    {
      ok := |data| == 12 && MAGIC <= data;
      if ok {
        state := Deserialize(data);
      }
    }
  }
}
