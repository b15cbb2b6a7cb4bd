/** Bytes, big-endian numbers and unsigned LEB128 (section 7.6 of DWARF 5). */
module Bytes {
  import opened Options
  import opened Residues

  type byte = x: int | 0 <= x < 256

  /** One more than the largest 64-bit number. */
  const WORD: nat := 0x1_0000_0000_0000_0000

  /** 256 to the power k. */
  function Scale(k: nat): (r: nat)
    ensures r > 0
  {
    if k == 0 then 1 else 256 * Scale(k - 1)
  }

  // ---- big-endian numbers ----

  /** The k low bytes of n, the highest first. */
  function BigEndian(n: nat, k: nat): (s: seq<byte>)
    ensures |s| == k
  {
    if k == 0 then [] else [n / Scale(k - 1) % 256] + BigEndian(n, k - 1)
  }

  /** The number whose bytes are s, the highest first. */
  function ReadBigEndian(s: seq<byte>): nat {
    if s == [] then 0 else s[0] * Scale(|s| - 1) + ReadBigEndian(s[1..])
  }

  lemma Regroup(a: nat, q: nat, p: nat, d: nat)
    requires q == 256 * p + d
    ensures q * a == p * (256 * a) + d * a
  {
  }

  lemma DigitFits(d: nat, r: nat, a: nat)
    requires d < 256 && r < a
    ensures d * a + r < 256 * a
  {
    Multiples(a, d + 1, 256);
  }

  /** The highest byte and the rest. */
  lemma HighByte(n: nat, a: nat)
    requires a > 0
    ensures n % (256 * a) == n / a % 256 * a + n % a
  {
    var q, r := n / a, n % a;
    assert n == q * a + r;
    HighByteOf(n, a, q, r, q / 256, q % 256);
  }

  lemma HighByteOf(n: nat, a: nat, q: nat, r: nat, p: nat, d: nat)
    requires r < a && d < 256 && n == q * a + r && q == 256 * p + d
    ensures n % (256 * a) == d * a + r
  {
    Regroup(a, q, p, d);
    DigitFits(d, r, a);
    RemainderIs(256 * a, n, p, d * a + r);
  }

  /** Reading back what was written. */
  lemma {:induction false} BigEndianRoundTrip(n: nat, k: nat)
    requires n < Scale(k)
    ensures ReadBigEndian(BigEndian(n, k)) == n
  {
    ReadsLowBytes(n, k);
    RemainderIs(Scale(k), n, 0, n);
  }

  lemma {:induction false} ReadsLowBytes(n: nat, k: nat)
    ensures ReadBigEndian(BigEndian(n, k)) == n % Scale(k)
  {
    if k > 0 {
      ReadsLowBytes(n, k - 1);
      HighByte(n, Scale(k - 1));
      assert BigEndian(n, k)[1..] == BigEndian(n, k - 1);
    }
  }

  /** Byte j counts multiples of 256 to the power of the bytes after it. */
  lemma {:induction false} BigEndianAt(n: nat, k: nat, j: nat)
    requires j < k
    ensures BigEndian(n, k)[j] == n / Scale(k - 1 - j) % 256
  {
    if j > 0 {
      BigEndianAt(n, k - 1, j - 1);
    }
  }

  // ---- reading through a little-endian word ----

  /** What a little-endian machine loads from s. */
  function LittleEndian(s: seq<byte>): nat {
    if s == [] then 0 else s[0] + 256 * LittleEndian(s[1..])
  }

  /** The k bytes of n in the opposite order. */
  function Swapped(n: nat, k: nat): nat {
    if k == 0 then 0 else n % 256 * Scale(k - 1) + Swapped(n / 256, k - 1)
  }

  lemma {:induction false} SwappedLoad(s: seq<byte>)
    ensures Swapped(LittleEndian(s), |s|) == ReadBigEndian(s)
  {
    if s != [] {
      var low, high := s[0], LittleEndian(s[1..]);
      assert (low + 256 * high) % 256 == low && (low + 256 * high) / 256 == high;
      SwappedLoad(s[1..]);
    }
  }

  // ---- LEB128 ----

  /** Seven bits a byte, the lowest first; the top bit says that more follow. */
  function Leb128(n: nat): (s: seq<byte>)
    ensures |s| > 0
  {
    if n < 128 then [n] else [n % 128 + 128] + Leb128(n / 128)
  }

  lemma LebStep(s: seq<byte>, n: nat)
    ensures n < 128 ==> s + Leb128(n) == s + [n]
    ensures n >= 128 ==> n / 128 > 0 && s + Leb128(n) == s + [n % 128 + 128] + Leb128(n / 128)
  {
  }

  method EncodeLeb128(n: nat) returns (s: seq<byte>)
    ensures s == Leb128(n)
  {
    s := [];
    var left: nat := n;
    while left > 0
      invariant left > 0 ==> Leb128(n) == s + Leb128(left)
      invariant left == 0 ==> Leb128(n) == if s == [] then [0] else s
    {
      LebStep(s, left);
      var low: byte := left % 128;
      left := left / 128;
      if left > 0 {
        s := s + [low + 128];
      } else {
        s := s + [low];
      }
    }
    if s == [] {
      s := [0];
    }
  }

  /** The number at the start of s and how many bytes it takes; none if its last byte is missing. */
  function ReadLeb128(s: seq<byte>): (r: Option<(nat, nat)>)
    ensures r.Some? ==> 0 < r.value.1 <= |s|
  {
    if s == [] then None
    else if s[0] < 128 then Some((s[0], 1))
    else
      var rest := ReadLeb128(s[1..]);
      if rest.None? then None else Some((s[0] - 128 + 128 * rest.value.0, rest.value.1 + 1))
  }

  lemma {:induction false} Leb128RoundTrip(n: nat, rest: seq<byte>)
    ensures ReadLeb128(Leb128(n) + rest) == Some((n, |Leb128(n)|))
  {
    var s := Leb128(n) + rest;
    if n >= 128 {
      Leb128RoundTrip(n / 128, rest);
      assert s[1..] == Leb128(n / 128) + rest;
    }
  }

  /** The last byte is missing if and only if every byte announces another. */
  lemma {:induction false} Leb128Truncated(s: seq<byte>)
    ensures ReadLeb128(s).None? <==> forall i :: 0 <= i < |s| ==> s[i] >= 128
  {
    if s != [] {
      Leb128Truncated(s[1..]);
      assert s == [s[0]] + s[1..];
    }
  }

  /** Every byte of the LEB128 form but the last announces another. */
  lemma {:induction false} Leb128Announces(n: nat, i: nat)
    requires i < |Leb128(n)|
    ensures Leb128(n)[i] >= 128 <==> i + 1 < |Leb128(n)|
  {
    if n >= 128 && i > 0 {
      Leb128Announces(n / 128, i - 1);
    }
  }

  lemma DivideTwice(n: nat, a: nat, b: nat)
    requires a > 0 && b > 0
    ensures a * b > 0 && n / a / b == n / (a * b)
  {
    var q := n / a;
    var p := q / b;
    assert n == q * a + n % a && q == p * b + q % b;
    assert q * a == p * (a * b) + q % b * a;
    Multiples(a, q % b + 1, b);
    assert (q % b + 1) * a == q % b * a + a && b * a == a * b;
    QuotientIs(a * b, n, p, q % b * a + n % a);
  }

  /** Byte j holds the j-th group of seven bits, and there is one for every group up to the highest that is not zero. */
  lemma {:induction false} Leb128At(n: nat, j: nat)
    requires j < |Leb128(n)|
    ensures Shifted(1, j) > 0 && Leb128(n)[j] % 128 == n / Shifted(1, j) % 128
    ensures j > 0 ==> Shifted(1, j) <= n
    ensures j + 1 == |Leb128(n)| ==> n < Shifted(1, j + 1)
  {
    if j > 0 {
      Leb128At(n / 128, j - 1);
      DivideTwice(n, 128, Shifted(1, j - 1));
    }
  }

  lemma AddModulo(sum: nat, term: nat, m: nat)
    requires m > 0
    ensures (sum % m + term) % m == (sum + term) % m
  {
    var q := sum / m;
    var r := sum % m + term;
    assert sum == q * m + sum % m;
    var p := r / m;
    assert r == p * m + r % m;
    assert (q + p) * m == q * m + p * m;
    RemainderIs(m, sum + term, q + p, r % m);
  }

  /** n moved up by k times seven bits. */
  function Shifted(n: nat, k: nat): nat {
    if k == 0 then n else 128 * Shifted(n, k - 1)
  }

  lemma {:induction false} ShiftedSplit(low: nat, high: nat, k: nat)
    ensures Shifted(low + 128 * high, k) == Shifted(low, k) + Shifted(high, k + 1)
  {
    if k == 0 {
      assert Shifted(high, 1) == 128 * Shifted(high, 0);
    } else {
      ShiftedSplit(low, high, k - 1);
    }
  }

  /** sum is what the bytes before end hold. */
  ghost predicate Reading(buf: seq<byte>, end: nat, sum: nat) {
    && end <= |buf|
    && var rest := ReadLeb128(buf[end..]);
       if rest.None? then ReadLeb128(buf).None?
       else ReadLeb128(buf) == Some((sum + Shifted(rest.value.0, end), end + rest.value.1))
  }

  lemma ReadingStep(buf: seq<byte>, end: nat, sum: nat)
    requires Reading(buf, end, sum) && end < |buf| && buf[end] >= 128
    ensures Reading(buf, end + 1, sum + Shifted(buf[end] - 128, end))
  {
    assert buf[end..][1..] == buf[end + 1..] && buf[end..][0] == buf[end];
    var rest := ReadLeb128(buf[end + 1..]);
    if rest.Some? {
      ShiftedSplit(buf[end] - 128, rest.value.0, end);
    }
  }

  lemma ReadingStop(buf: seq<byte>, end: nat, sum: nat)
    requires Reading(buf, end, sum) && end < |buf| && buf[end] < 128
    ensures ReadLeb128(buf) == Some((sum + Shifted(buf[end], end), end + 1))
  {
    assert buf[end..][0] == buf[end];
  }

  function Truncated(n: nat): nat {
    n % WORD
  }

  lemma FitsWord(n: nat)
    requires n < WORD
    ensures Truncated(n) == n
  {
  }

  lemma AddTruncated(sum: nat, term: nat)
    ensures Truncated(Truncated(sum) + term) == Truncated(sum + term)
  {
    AddModulo(sum, term, WORD);
  }

  /**
   The decoder that does not throw: on a number whose last byte is missing it answers zero and nothing
   left. New bits go above those read before, so or-ing them in adds them; 64 bits are kept.
   */
  method DecodeLeb128(buf: seq<byte>) returns (value: nat, rest: seq<byte>)
    requires buf != []
    ensures ReadLeb128(buf).None? ==> value == 0 && rest == []
    ensures ReadLeb128(buf).Some? ==>
              value == Truncated(ReadLeb128(buf).value.0) && rest == buf[ReadLeb128(buf).value.1..]
  {
    value := buf[0] % 128;
    if buf[0] < 128 {
      FitsWord(value);
      return value, buf[1..];
    }
    var end := 1;
    ghost var sum: nat := buf[0] - 128;
    assert buf[0..] == buf;
    ReadingStep(buf, 0, 0);
    FitsWord(sum);
    while end < |buf| && buf[end] >= 128
      invariant 1 <= end <= |buf| && Reading(buf, end, sum) && value == Truncated(sum)
    {
      var term := Shifted(buf[end] - 128, end);
      ReadingStep(buf, end, sum);
      AddTruncated(sum, term);
      value := Truncated(value + term);
      sum := sum + term;
      end := end + 1;
    }
    if end == |buf| {
      return 0, [];
    }
    var term := Shifted(buf[end], end);
    ReadingStop(buf, end, sum);
    AddTruncated(sum, term);
    value := Truncated(value + term);
    rest := buf[end + 1..];
  }
}
