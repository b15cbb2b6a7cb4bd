/** Masking of payloads with a repeated key (section 5.3 of RFC 6455). */
module Masking {
  import opened Bytes
  import opened Residues

  /** Exclusive or of the n low bits. */
  function XorBits(a: nat, b: nat, n: nat): nat {
    if n == 0 then 0 else (a % 2 + b % 2) % 2 + 2 * XorBits(a / 2, b / 2, n - 1)
  }

  /** a has n bits. */
  predicate HasBits(a: nat, n: nat) {
    if n == 0 then a == 0 else HasBits(a / 2, n - 1)
  }

  lemma FlipTwice(x: nat, y: nat)
    requires x < 2 && y < 2
    ensures (x + y) % 2 < 2 && ((x + y) % 2 + y) % 2 == x
  {
  }

  lemma LowBit(bit: nat, rest: nat)
    requires bit < 2
    ensures (bit + 2 * rest) % 2 == bit && (bit + 2 * rest) / 2 == rest
  {
  }

  lemma {:induction false} XorBitsTwice(a: nat, b: nat, n: nat)
    requires HasBits(a, n)
    ensures HasBits(XorBits(a, b, n), n) && XorBits(XorBits(a, b, n), b, n) == a
  {
    if n > 0 {
      var x, y := a % 2, b % 2;
      var bit, rest := (x + y) % 2, XorBits(a / 2, b / 2, n - 1);
      FlipTwice(x, y);
      LowBit(bit, rest);
      XorBitsTwice(a / 2, b / 2, n - 1);
      assert XorBits(a, b, n) == bit + 2 * rest;
      assert XorBits(bit + 2 * rest, b, n) == (bit + y) % 2 + 2 * XorBits(rest, b / 2, n - 1);
    }
  }

  lemma {:induction false} BitsOf(a: nat, n: nat, bound: nat)
    requires n <= 8 && bound == [1, 2, 4, 8, 16, 32, 64, 128, 256][n]
    ensures HasBits(a, n) <==> a < bound
  {
    if n > 0 {
      BitsOf(a / 2, n - 1, bound / 2);
    }
  }

  function Xor(a: byte, b: byte): (r: byte) {
    BitsOf(a, 8, 256);
    XorBitsTwice(a, b, 8);
    BitsOf(XorBits(a, b, 8), 8, 256);
    XorBits(a, b, 8)
  }

  lemma XorTwice(a: byte, b: byte)
    ensures Xor(Xor(a, b), b) == a
  {
    BitsOf(a, 8, 256);
    XorBitsTwice(a, b, 8);
  }

  // ---- what it does to each bit ----

  function Power2(i: nat): (p: nat)
    ensures p > 0
  {
    if i == 0 then 1 else 2 * Power2(i - 1)
  }

  /** Bit i of a number. */
  function Bit(a: nat, i: nat): nat {
    a / Power2(i) % 2
  }

  lemma HalvedQuotient(a: nat, p: nat)
    requires p > 0
    ensures a / (2 * p) == a / 2 / p
  {
    var h, q := a / 2, a / 2 / p;
    assert q * p <= h < q * p + p;
    assert a == 2 * h + a % 2;
    assert 2 * (q * p) == q * (2 * p);
    QuotientIs(2 * p, a, q, a - q * (2 * p));
  }

  lemma BitOfHalf(a: nat, i: nat)
    ensures Bit(a, i + 1) == Bit(a / 2, i) && Bit(a, 0) == a % 2
  {
    HalvedQuotient(a, Power2(i));
  }

  lemma {:induction false} XorBitsAt(a: nat, b: nat, n: nat, i: nat)
    requires i < n
    ensures Bit(XorBits(a, b, n), i) == 1 <==> Bit(a, i) != Bit(b, i)
  {
    var bit, rest := (a % 2 + b % 2) % 2, XorBits(a / 2, b / 2, n - 1);
    LowBit(bit, rest);
    BitOfHalf(bit + 2 * rest, if i > 0 then i - 1 else 0);
    BitOfHalf(a, if i > 0 then i - 1 else 0);
    BitOfHalf(b, if i > 0 then i - 1 else 0);
    if i > 0 {
      XorBitsAt(a / 2, b / 2, n - 1, i - 1);
    }
  }

  /** A bit of the result is set if and only if the bits differ. */
  lemma XorAt(a: byte, b: byte, i: nat)
    requires i < 8
    ensures Bit(Xor(a, b), i) == 1 <==> Bit(a, i) != Bit(b, i)
  {
    XorBitsAt(a, b, 8, i);
  }

  /** r is a with the bits turned over that are set in b. */
  ghost predicate Turned(r: byte, a: byte, b: byte) {
    forall i: nat :: i < 8 ==> (Bit(r, i) == 1 <==> Bit(a, i) != Bit(b, i))
  }

  lemma XorTurns(a: byte, b: byte)
    ensures Turned(Xor(a, b), a, b)
  {
    forall i: nat | i < 8 ensures Bit(Xor(a, b), i) == 1 <==> Bit(a, i) != Bit(b, i) {
      XorAt(a, b, i);
    }
  }

  // ---- payloads ----

  /** Every byte, masked with the key byte whose turn it is; the first is at position i. */
  function Masked(key: seq<byte>, i: nat, s: seq<byte>): (r: seq<byte>)
    requires key != []
    ensures |r| == |s|
  {
    seq(|s|, (k: nat) requires k < |s| => Xor(s[k], key[(i + k) % |key|]))
  }

  lemma MaskedTurns(key: seq<byte>, i: nat, s: seq<byte>, k: nat)
    requires key != [] && k < |s|
    ensures Turned(Masked(key, i, s)[k], s[k], key[(i + k) % |key|])
  {
    XorTurns(s[k], key[(i + k) % |key|]);
  }

  lemma MaskedTwice(key: seq<byte>, i: nat, s: seq<byte>)
    requires key != []
    ensures Masked(key, i, Masked(key, i, s)) == s
  {
    forall k: nat | k < |s| ensures Masked(key, i, Masked(key, i, s))[k] == s[k] {
      XorTwice(s[k], key[(i + k) % |key|]);
    }
  }

  lemma MaskedConcat(key: seq<byte>, i: nat, s: seq<byte>, t: seq<byte>)
    requires key != []
    ensures Masked(key, i, s + t) == Masked(key, i, s) + Masked(key, i + |s|, t)
  {
    var both := Masked(key, i, s) + Masked(key, i + |s|, t);
    forall k: nat | k < |s + t| ensures Masked(key, i, s + t)[k] == both[k] {
      if k >= |s| {
        assert i + k == i + |s| + (k - |s|);
      }
    }
  }

  /** Unmasking what was masked, with something after it. */
  lemma Unmasked(key: seq<byte>, s: seq<byte>, t: seq<byte>)
    requires key != []
    ensures Masked(key, 0, Masked(key, 0, s) + t) == s + Masked(key, |s|, t)
  {
    MaskedConcat(key, 0, Masked(key, 0, s), t);
    MaskedTwice(key, 0, s);
  }

  /** In place, from an offset on. */
  method MaskPayload(key: seq<byte>, data: array<byte>, offset: nat)
    requires key != [] && offset <= data.Length
    modifies data
    ensures data[..] == old(data[..offset]) + Masked(key, 0, old(data[offset..]))
    ensures forall k :: 0 <= k < offset ==> data[k] == old(data[k])
    ensures forall k :: 0 <= k < data.Length - offset ==>
                          Turned(data[offset + k], old(data[offset + k]), key[k % |key|])
  {
    ghost var payload := data[offset..];
    for i := 0 to data.Length - offset
      invariant data[..offset] == old(data[..offset])
      invariant forall k :: 0 <= k < i ==> data[offset + k] == Masked(key, 0, payload)[k]
      invariant forall k :: offset + i <= k < data.Length ==> data[k] == old(data[k])
    {
      assert Masked(key, 0, payload)[i] == Xor(payload[i], key[(0 + i) % |key|]);
      data[offset + i] := Xor(data[offset + i], key[i % |key|]);
    }
    assert data[offset..] == Masked(key, 0, payload);
    assert data[..] == data[..offset] + data[offset..];
    forall k | 0 <= k < data.Length - offset
      ensures Turned(data[offset + k], old(data[offset + k]), key[k % |key|])
    {
      assert payload[k] == old(data[offset + k]) && data[offset + k] == Xor(payload[k], key[(0 + k) % |key|]);
      XorTurns(payload[k], key[k % |key|]);
    }
    forall k | 0 <= k < offset ensures data[k] == old(data[k]) {
      assert data[..offset][k] == old(data[..offset])[k];
    }
  }
}
