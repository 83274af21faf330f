/**
 FNV-1a with 64 bits, as used for the prefix hash. Words are numbers below 2^64 and multiplication
 wraps; XOR with a byte changes the low eight bits only.
 */
module Fnv {
  import opened Common

  type word = n: nat | n < WORD
  type byte = n: nat | n < 256

  const WORD: nat := 0x1_0000_0000_0000_0000
  const FNV_OFFSET: word := 0xcbf29ce484222325
  const FNV_PRIME: word := 0x100000001b3

  /** Exclusive or of the low `bits` bits, bit by bit. */
  function Xor(a: nat, b: nat, bits: nat): nat {
    if bits == 0 then 0 else 2 * Xor(a / 2, b / 2, bits - 1) + if a % 2 == b % 2 then 0 else 1
  }

  lemma {:induction false} XorBounds(a: nat, b: nat, bits: nat)
    ensures Xor(a, b, bits) < Pow2(bits)
  {
    if bits > 0 {
      XorBounds(a / 2, b / 2, bits - 1);
    }
  }

  lemma FitsWord(hash: word, low: byte)
    ensures hash / 256 * 256 + low < WORD
  {
  }

  function XorByte(hash: word, b: byte): word {
    XorBounds(hash % 256, b, 8);
    assert Pow2(8) == 256;
    FitsWord(hash, Xor(hash % 256, b, 8));
    hash / 256 * 256 + Xor(hash % 256, b, 8)
  }

  function MulWrapping(x: word, y: word): word {
    x * y % WORD
  }

  function Mix(hash: word, b: byte): word {
    MulWrapping(XorByte(hash, b), FNV_PRIME)
  }

  function Absorb(hash: word, data: seq<byte>): word
    decreases |data|
  {
    if data == [] then hash else Absorb(Mix(hash, data[0]), data[1..])
  }

  method Fnv1a64(data: seq<byte>) returns (hash: word)
    ensures hash == Absorb(FNV_OFFSET, data)
  {
    hash := FNV_OFFSET;
    var i := 0;
    while i < |data|
      invariant i <= |data|
      invariant Absorb(hash, data[i..]) == Absorb(FNV_OFFSET, data)
    {
      assert data[i..][0] == data[i] && data[i..][1..] == data[i + 1..];
      hash := XorByte(hash, data[i]);
      hash := MulWrapping(hash, FNV_PRIME);
      i := i + 1;
    }
  }

  // ----- each step is a bijection -----

  /** The prime times this number is one modulo 2^64. */
  const PRIME_INVERSE: word := 0xce965057aff6957b
  const PRIME_TURNS: nat := 887_285_111_055

  lemma RemainderIs(x: word, y: int, turns: int)
    requires y == x + WORD * turns
    ensures y % WORD == x
  {
  }

  lemma MultiplicationInverts(x: word)
    ensures MulWrapping(MulWrapping(x, FNV_PRIME), PRIME_INVERSE) == x
  {
    var product := x * FNV_PRIME;
    var q := product / WORD;
    assert product == WORD * q + product % WORD;
    assert FNV_PRIME * PRIME_INVERSE == WORD * PRIME_TURNS + 1;
    assert product * PRIME_INVERSE == x * (FNV_PRIME * PRIME_INVERSE);
    assert x * (WORD * PRIME_TURNS + 1) == x + WORD * (x * PRIME_TURNS);
    RemainderIs(x, (product - WORD * q) * PRIME_INVERSE, x * PRIME_TURNS - q * PRIME_INVERSE);
  }

  lemma Halves(x: nat, bit: nat)
    requires bit < 2
    ensures (2 * x + bit) / 2 == x && (2 * x + bit) % 2 == bit
  {
  }

  lemma {:induction false} XorCancels(a: nat, b: nat, bits: nat)
    requires a < Pow2(bits) && b < Pow2(bits)
    ensures Xor(Xor(a, b, bits), b, bits) == a && Xor(a, Xor(a, b, bits), bits) == b
  {
    if bits > 0 {
      XorCancels(a / 2, b / 2, bits - 1);
      var bit := if a % 2 == b % 2 then 0 else 1;
      Halves(Xor(a / 2, b / 2, bits - 1), bit);
      assert Xor(a, b, bits) == 2 * Xor(a / 2, b / 2, bits - 1) + bit;
    }
  }

  lemma DigitsAreUnique(high1: nat, low1: byte, high2: nat, low2: byte)
    requires high1 * 256 + low1 == high2 * 256 + low2
    ensures high1 == high2 && low1 == low2
  {
  }

  /** XOR with a byte can be undone in the word and in the byte. */
  lemma XorByteIsInjective(h1: word, b1: byte, h2: word, b2: byte)
    requires XorByte(h1, b1) == XorByte(h2, b2)
    ensures (h1 == h2 <==> b1 == b2) && h1 / 256 == h2 / 256
  {
    assert Pow2(8) == 256;
    var x1, x2 := h1 % 256, h2 % 256;
    XorBounds(x1, b1, 8);
    XorBounds(x2, b2, 8);
    DigitsAreUnique(h1 / 256, Xor(x1, b1, 8), h2 / 256, Xor(x2, b2, 8));
    XorCancels(x1, b1, 8);
    XorCancels(x2, b2, 8);
    assert h1 == h1 / 256 * 256 + x1 && h2 == h2 / 256 * 256 + x2;
  }

  /** A step is injective in the hash for a fixed byte, and in the byte for a fixed hash. */
  lemma MixIsInjective(h1: word, b1: byte, h2: word, b2: byte)
    requires Mix(h1, b1) == Mix(h2, b2)
    ensures h1 == h2 <==> b1 == b2
  {
    MultiplicationInverts(XorByte(h1, b1));
    MultiplicationInverts(XorByte(h2, b2));
    XorByteIsInjective(h1, b1, h2, b2);
  }

  /** Absorbing the same bytes keeps different states apart. */
  lemma {:induction false} AbsorbIsInjective(h1: word, h2: word, data: seq<byte>)
    ensures Absorb(h1, data) == Absorb(h2, data) <==> h1 == h2
    decreases |data|
  {
    if data != [] {
      AbsorbIsInjective(Mix(h1, data[0]), Mix(h2, data[0]), data[1..]);
      if Mix(h1, data[0]) == Mix(h2, data[0]) {
        MixIsInjective(h1, data[0], h2, data[0]);
      }
    }
  }

  lemma {:induction false} AbsorbAppend(hash: word, a: seq<byte>, b: seq<byte>)
    ensures Absorb(hash, a + b) == Absorb(Absorb(hash, a), b)
    decreases |a|
  {
    if a == [] {
      assert a + b == b;
    } else {
      assert (a + b)[0] == a[0] && (a + b)[1..] == a[1..] + b;
      AbsorbAppend(Mix(hash, a[0]), a[1..], b);
    }
  }

  lemma AbsorbOneMore(hash: word, b: byte, after: seq<byte>)
    ensures Absorb(hash, [b] + after) == Absorb(Mix(hash, b), after)
  {
  }

  /** Two strings of one length that differ in exactly one byte never hash alike. */
  lemma OneByteChangeIsSeen(s: seq<byte>, t: seq<byte>, i: nat)
    requires |s| == |t| && i < |s| && s[i] != t[i]
    requires forall k | 0 <= k < |s| && k != i :: s[k] == t[k]
    ensures Absorb(FNV_OFFSET, s) != Absorb(FNV_OFFSET, t)
  {
    var before, after := s[..i], s[i + 1..];
    assert s == before + ([s[i]] + after) && t == before + ([t[i]] + after);
    var h := Absorb(FNV_OFFSET, before);
    AbsorbAppend(FNV_OFFSET, before, [s[i]] + after);
    AbsorbAppend(FNV_OFFSET, before, [t[i]] + after);
    AbsorbOneMore(h, s[i], after);
    AbsorbOneMore(h, t[i], after);
    AbsorbIsInjective(Mix(h, s[i]), Mix(h, t[i]), after);
    if Mix(h, s[i]) == Mix(h, t[i]) {
      MixIsInjective(h, s[i], h, t[i]);
    }
  }

  // ----- test vectors of draft-eastlake-fnv -----

  /** One step, checked by its quotient and remainder. */
  lemma MixIs(hash: word, b: byte, low: byte, quotient: nat, next: word)
    requires Xor(hash % 256, b, 8) == low
    requires (hash / 256 * 256 + low) * FNV_PRIME == quotient * WORD + next
    ensures Mix(hash, b) == next
  {
    RemainderIs(next, quotient * WORD + next, quotient);
  }

  lemma Last(hash: word, b: byte)
    ensures Absorb(hash, [b]) == Mix(hash, b)
  {
    assert [b][1..] == [];
  }

  lemma LowByteOfA()
    ensures Xor(37, 97, 8) == 68
  {
    assert Xor(2, 6, 4) == 4;
    assert Xor(4, 12, 5) == 2 * Xor(2, 6, 4);
    assert Xor(9, 24, 6) == 2 * Xor(4, 12, 5) + 1;
    assert Xor(18, 48, 7) == 2 * Xor(9, 24, 6);
  }

  lemma AbsorbsA(hash: word, quotient: nat, next: word)
    requires hash % 256 == 37 && (hash + 31) * FNV_PRIME == quotient * WORD + next
    ensures Absorb(hash, [97]) == next
  {
    LowByteOfA();
    MixIs(hash, 97, 68, quotient, next);
    Last(hash, 97);
  }

  /** The hashes of the empty string and of "a". */
  lemma TestVectors()
    ensures Absorb(FNV_OFFSET, []) == 0xcbf29ce484222325
    ensures Absorb(FNV_OFFSET, [97]) == 0xaf63dc4c8601ec8c
  {
    AbsorbsA(FNV_OFFSET, 875948729822, 0xaf63dc4c8601ec8c);
  }
}
