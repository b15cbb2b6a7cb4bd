/**
 The generator of document keys: it steps an odometer over a shuffled alphabet, and searches it for
 keys that fall into a given vbucket.
 */
module KeyGenerator {
  import opened Options
  import opened KeySearch
  import opened Odometer
  import opened Sets
  import opened Residues
  import Crc32

  // ---- the vbucket of a key ----

  /** The characters of a key as they are hashed. */
  function Bytes(key: string): seq<bv8> {
    if key == "" then [] else [(key[0] as int % 0x100) as bv8] + Bytes(key[1..])
  }

  lemma {:induction false} BytesAre(key: string, i: nat)
    requires i < |key|
    ensures |Bytes(key)| == |key| && Bytes(key)[i] == (key[i] as int % 0x100) as bv8
  {
    if |key| > 1 {
      BytesAre(key[1..], if i > 0 then i - 1 else 0);
    }
  }

  function VbucketOf(key: string, vbuckets: nat): (v: nat)
    requires vbuckets > 0
    ensures v < vbuckets
  {
    Crc32.Digest(Bytes(key)) as nat % vbuckets
  }

  lemma NarrowingKeeps(digest: nat, vbuckets: nat)
    requires digest < 0x8000 && vbuckets > 0
    ensures digest % vbuckets % 0x10000 == digest % vbuckets < 0x8000
  {
    assert digest % vbuckets <= digest;
  }

  lemma VbucketBound(key: string, vbuckets: nat)
    requires vbuckets > 0
    ensures VbucketOf(key, vbuckets) < 0x8000
  {
    ghost var d := Crc32.Digest(Bytes(key)) as nat;
    assert d < 0x8000 by {
      Crc32.DigestBound(Bytes(key));
    }
    NarrowingKeeps(d, vbuckets);
  }

  /** The cast to 16 bits loses nothing. */
  method Narrowed(digest: nat, vbuckets: nat) returns (v: nat)
    requires digest < 0x8000 && vbuckets > 0
    ensures v == digest % vbuckets
    ensures v < vbuckets && digest == digest / vbuckets * vbuckets + v
  {
    NarrowingKeeps(digest, vbuckets);
    v := digest % vbuckets % 0x10000;
  }

  method MapKeyToVbucket(key: string, vbuckets: nat) returns (v: nat)
    requires vbuckets > 0
    ensures v == VbucketOf(key, vbuckets)
    ensures var d := Crc32.Digest(Bytes(key)) as nat; v < vbuckets && d == d / vbuckets * vbuckets + v
  {
    var digest := Crc32.HashCrc32(Bytes(key));
    var d := digest as nat;
    assert d < 0x8000 by {
      Crc32.DigestBound(Bytes(key));
    }
    v := Narrowed(d, vbuckets);
  }

  /** Two keys share a vbucket exactly when their digests are a multiple of the number of vbuckets apart. */
  lemma SharedVbucket(a: string, b: string, vbuckets: nat)
    requires vbuckets > 0
    ensures VbucketOf(a, vbuckets) == VbucketOf(b, vbuckets) <==>
              (Crc32.Digest(Bytes(a)) as int - Crc32.Digest(Bytes(b)) as int) % vbuckets == 0
  {
    SameRemainder(vbuckets, Crc32.Digest(Bytes(a)) as int, Crc32.Digest(Bytes(b)) as int);
  }

  // ---- the alphabet ----

  /** Digits, upper-case and lower-case letters. */
  const DEFAULT_ALPHABET: string :=
    seq(62, (i: int) requires 0 <= i < 62 =>
      (if i < 10 then 48 + i else if i < 36 then 55 + i else 61 + i) as char)

  lemma DefaultAlphabet()
    ensures Alphabet(DEFAULT_ALPHABET) && DEFAULT_ALPHABET[0] == '0'
  {
  }

  /** All of them, each in its order. */
  lemma DefaultSymbols(c: char)
    ensures c in DEFAULT_ALPHABET <==> '0' <= c <= '9' || 'A' <= c <= 'Z' || 'a' <= c <= 'z'
    ensures forall i, j :: 0 <= i < j < |DEFAULT_ALPHABET| ==> DEFAULT_ALPHABET[i] < DEFAULT_ALPHABET[j]
  {
    var n := c as int;
    if '0' <= c <= '9' {
      assert DEFAULT_ALPHABET[n - 48] == c;
    } else if 'A' <= c <= 'Z' {
      assert DEFAULT_ALPHABET[n - 55] == c;
    } else if 'a' <= c <= 'z' {
      assert DEFAULT_ALPHABET[n - 61] == c;
    }
  }

  lemma RepeatedSymbol(a: string, i: nat, j: nat)
    requires i < j < |a| && a[i] == a[j]
    ensures multiset(a)[a[i]] >= 2
  {
    assert a == a[..j] + [a[j]] + a[j + 1..];
    assert a[..j][i] in multiset(a[..j]);
  }

  lemma {:induction false} SingleSymbol(a: string, c: char)
    requires Distinct(a)
    ensures multiset(a)[c] <= 1
  {
    if a != "" {
      assert a == [a[0]] + a[1..];
      SingleSymbol(a[1..], c);
      assert a[0] !in a[1..];
      assert a[0] !in multiset(a[1..]);
    }
  }

  /** Shuffling keeps an alphabet an alphabet. */
  lemma ShuffledAlphabet(a: string, d: string)
    requires Alphabet(d) && multiset(a) == multiset(d)
    ensures Alphabet(a) && forall c :: c in d ==> c in a
  {
    assert forall c :: c in d ==> c in multiset(d);
    assert d[0] in multiset(a);
    forall i, j | 0 <= i < j < |a| ensures a[i] != a[j] {
      SingleSymbol(d, a[i]);
      if a[i] == a[j] {
        RepeatedSymbol(a, i, j);
      }
    }
  }

  // ---- the keys a generator hands out ----

  /** What stays fixed over the life of a generator. */
  datatype Settings = Settings(prefix: string, alphabet: string, grow: bool)

  /** stream(k) is the k-th key of a generator that starts in state s. */
  ghost predicate Yields(g: Settings, s: string, stream: Stream) {
    && Alphabet(g.alphabet)
    && Over(g.alphabet, s)
    && forall k: nat {:trigger StateAfter(g.alphabet, s, g.grow, k)} ::
         stream(k) == g.prefix + StateAfter(g.alphabet, s, g.grow, k)
  }

  ghost predicate Zeros(s: string) {
    forall i :: 0 <= i < |s| ==> s[i] == '0'
  }

  lemma {:induction false} AllCarried(a: string, s: string, i: nat)
    requires Alphabet(a) && Over(a, s) && Zeros(s) && a[|a| - 1] == '0' && i < |s|
    ensures |Successor(a, s, false)| == |s| && Successor(a, s, false)[i] == a[0]
  {
    if |s| > 1 {
      AllCarried(a, s[1..], if i > 0 then i - 1 else 0);
    }
  }

  /** The first key follows the zeros: the symbol after zero, or the first one all over when zero comes last. */
  lemma FirstKey(g: Settings, s: string, stream: Stream, zero: nat)
    requires Yields(g, s, stream) && Zeros(s) && zero < |g.alphabet| && g.alphabet[zero] == '0'
    ensures s == "" && g.grow ==> stream(1) == g.prefix + [g.alphabet[0]]
    ensures s != "" && zero + 1 < |g.alphabet| ==> stream(1) == g.prefix + [g.alphabet[zero + 1]] + s[1..]
    ensures s != "" && zero + 1 == |g.alphabet| && !g.grow ==>
              && |stream(1)| == |g.prefix| + |s| && g.prefix <= stream(1)
              && forall i :: |g.prefix| <= i < |stream(1)| ==> stream(1)[i] == g.alphabet[0]
  {
    var a := g.alphabet;
    DigitAt(a, zero);
    assert StateAfter(a, s, g.grow, 0) == s;
    var next := StateAfter(a, s, g.grow, 1);
    assert next == Successor(a, s, g.grow);
    assert stream(1) == g.prefix + next;
    if s != "" && zero + 1 == |a| && !g.grow {
      AllCarried(a, s, 0);
      forall i | 0 <= i < |s| ensures next[i] == a[0] {
        AllCarried(a, s, i);
      }
    }
  }

  lemma SameSuffix(p: string, s: string, t: string)
    ensures p + s == p + t ==> s == t
  {
    assert (p + s)[|p|..] == s && (p + t)[|p|..] == t;
  }

  lemma StreamsApart(g: Settings, s: string, stream: Stream, i: nat, j: nat)
    requires Yields(g, s, stream)
    ensures StateAfter(g.alphabet, s, g.grow, i) != StateAfter(g.alphabet, s, g.grow, j) ==> stream(i) != stream(j)
  {
    SameSuffix(g.prefix, StateAfter(g.alphabet, s, g.grow, i), StateAfter(g.alphabet, s, g.grow, j));
  }

  /** The keys of a fixed-length generator: the prefix and n symbols. */
  ghost predicate Candidate(g: Settings, n: nat, key: string) {
    |key| == |g.prefix| + n && g.prefix <= key && Over(g.alphabet, key[|g.prefix|..])
  }

  lemma CandidateAt(g: Settings, s: string, stream: Stream, k: nat)
    requires Yields(g, s, stream) && !g.grow
    ensures Candidate(g, |s|, stream(k))
  {
    LengthAfter(g.alphabet, s, k);
    assert stream(k)[|g.prefix|..] == StateAfter(g.alphabet, s, false, k);
  }

  /** From any position on, every candidate comes up within one period. */
  lemma CandidateComesUp(g: Settings, s: string, stream: Stream, i: nat, key: string) returns (k: nat)
    requires Yields(g, s, stream) && !g.grow && Candidate(g, |s|, key)
    ensures i < k <= i + Power(|g.alphabet|, |s|) && stream(k) == key
  {
    var t := key[|g.prefix|..];
    k := ComesUpAgain(g.alphabet, s, i, t);
    assert key == g.prefix + t;
  }

  // ---- when the searches end ----

  /**
   A fixed-length search for a key ends if and only if some candidate will do, and then it ends within
   one period.
   */
  lemma FixedFindable(g: Settings, s: string, stream: Stream, want: Target, i: nat)
    requires Yields(g, s, stream) && !g.grow
    ensures Findable(stream, want, i) <==> exists key :: Candidate(g, |s|, key) && want(key)
    ensures Findable(stream, want, i) ==>
              exists k: nat :: i < k <= i + Power(|g.alphabet|, |s|) && Hit(stream, want, k)
  {
    if k: nat :| i < k && Hit(stream, want, k) {
      CandidateAt(g, s, stream, k);
    }
    if key :| Candidate(g, |s|, key) && want(key) {
      var k := CandidateComesUp(g, s, stream, i, key);
      assert Hit(stream, want, k);
    }
  }

  /** The first hit of a fixed-length search is no further away than one period. */
  lemma FirstHitInPeriod(g: Settings, s: string, stream: Stream, want: Target, i: nat, k: nat)
    requires Yields(g, s, stream) && !g.grow && i < k && Hit(stream, want, k) && Skipped(stream, want, i, k)
    ensures k <= i + Power(|g.alphabet|, |s|)
  {
    assert Findable(stream, want, i);
    FixedFindable(g, s, stream, want, i);
  }

  /** One period finds exactly the candidates that will do. */
  lemma FixedRound(g: Settings, s: string, stream: Stream, want: Target, i: nat, key: string)
    requires Yields(g, s, stream) && !g.grow
    ensures key in Found(stream, want, i, i + Power(|g.alphabet|, |s|)) <==> Candidate(g, |s|, key) && want(key)
  {
    var n := Power(|g.alphabet|, |s|);
    FoundSpan(stream, want, i, i + n, key);
    if Candidate(g, |s|, key) && want(key) {
      var k := CandidateComesUp(g, s, stream, i, key);
      assert Hit(stream, want, k);
    }
    if key in Found(stream, want, i, i + n) {
      var k: nat :| i < k <= i + n && Hit(stream, want, k) && stream(k) == key;
      CandidateAt(g, s, stream, k);
    }
  }

  /** A fixed-length search for different keys ends if and only if one period holds that many. */
  lemma FixedPlentiful(g: Settings, s: string, stream: Stream, want: Target, i: nat, count: nat, n: nat)
    requires Yields(g, s, stream) && !g.grow && n == Power(|g.alphabet|, |s|)
    ensures Plentiful(stream, want, i, count) <==> |Found(stream, want, i, i + n)| >= count
  {
    if k: nat :| |Found(stream, want, i, k)| >= count {
      forall key | key in Found(stream, want, i, k) ensures key in Found(stream, want, i, i + n) {
        FoundSpan(stream, want, i, k, key);
        var m: nat :| i < m <= k && Hit(stream, want, m) && stream(m) == key;
        CandidateAt(g, s, stream, m);
        FixedRound(g, s, stream, want, i, key);
      }
      SubsetSize(Found(stream, want, i, k), Found(stream, want, i, i + n));
    }
  }

  /** With repetition allowed, one matching candidate is enough for any number of keys. */
  lemma FixedRepeatable(g: Settings, s: string, stream: Stream, want: Target, i: nat, count: nat)
    requires Yields(g, s, stream) && !g.grow
    ensures Repeatable(stream, want, i, count) <==> count == 0 || exists key :: Candidate(g, |s|, key) && want(key)
  {
    FixedFindable(g, s, stream, want, i);
    if count == 0 {
      assert |Keys(stream, want, i, i)| >= count;
    } else if key :| Candidate(g, |s|, key) && want(key) {
      forall j: nat | i <= j ensures Findable(stream, want, j) {
        FixedFindable(g, s, stream, want, j);
      }
      RecurringRepeatable(stream, want, i, count);
    } else {
      forall k: nat ensures Keys(stream, want, i, k) == [] {
        if i < k {
          NothingFound(stream, want, i, i, k + 1);
        }
      }
    }
  }

  lemma FixedApart(g: Settings, s: string, stream: Stream, n: nat, k: nat, m: nat)
    requires Yields(g, s, stream) && !g.grow && n == Power(|g.alphabet|, |s|) && k < m < k + n
    ensures stream(k) != stream(m)
  {
    FixedDistinct(g.alphabet, s, k, m);
    StreamsApart(g, s, stream, k, m);
  }

  lemma FixedRoundSize(g: Settings, s: string, stream: Stream, want: Target, i: nat, n: nat)
    requires Yields(g, s, stream) && !g.grow && n == Power(|g.alphabet|, |s|)
    requires forall k: nat :: Hit(stream, want, k)
    ensures |Found(stream, want, i, i + n)| == n
  {
    forall k: nat, m: nat | i < k < m <= i + n ensures stream(k) != stream(m) {
      FixedApart(g, s, stream, n, k, m);
    }
    FoundApart(stream, want, i, i + n);
  }

  /** With fixed length there are exactly b^n different keys, so asking for more never ends. */
  lemma FixedCapacity(g: Settings, s: string, stream: Stream, want: Target, i: nat, count: nat, n: nat)
    requires Yields(g, s, stream) && !g.grow && n == Power(|g.alphabet|, |s|)
    requires forall k: nat :: Hit(stream, want, k)
    ensures Plentiful(stream, want, i, count) <==> count <= n
  {
    FixedRoundSize(g, s, stream, want, i, n);
    FixedPlentiful(g, s, stream, want, i, count, n);
  }

  /** Without a length limit no key comes up twice, and any number of different keys can be had. */
  lemma GrowingCapacity(g: Settings, s: string, stream: Stream, want: Target, i: nat, count: nat)
    requires Yields(g, s, stream) && g.grow
    requires forall k: nat :: Hit(stream, want, k)
    ensures |Found(stream, want, i, i + count)| == count
    ensures Plentiful(stream, want, i, count)
  {
    forall k: nat, m: nat | i < k < m <= i + count ensures stream(k) != stream(m) {
      GrowingDistinct(g.alphabet, s, k, m);
      StreamsApart(g, s, stream, k, m);
    }
    FoundApart(stream, want, i, i + count);
  }

  /**
   Without a length limit the search for a key ends if and only if some string that is still to come, by
   its place in the list of all strings, will do.
   */
  lemma GrowingFindable(g: Settings, s: string, stream: Stream, want: Target, i: nat)
    requires Yields(g, s, stream) && g.grow
    ensures Findable(stream, want, i) <==>
              exists t :: Over(g.alphabet, t) && Rank(g.alphabet, t) > Rank(g.alphabet, s) + i && want(g.prefix + t)
  {
    if k: nat :| i < k && Hit(stream, want, k) {
      var t := StateAfter(g.alphabet, s, true, k);
      RankAfter(g.alphabet, s, k);
      assert stream(k) == g.prefix + t;
    }
    if t :| Over(g.alphabet, t) && Rank(g.alphabet, t) > Rank(g.alphabet, s) + i && want(g.prefix + t) {
      var k: nat := Rank(g.alphabet, t) - Rank(g.alphabet, s);
      RankAfter(g.alphabet, s, k);
      RankInjective(g.alphabet, StateAfter(g.alphabet, s, true, k), t);
      assert Hit(stream, want, k);
    }
  }

  /** The keys that a growing generator has still to hand out after position i. */
  ghost predicate Ahead(g: Settings, s: string, i: nat, key: string)
    requires Alphabet(g.alphabet) && Over(g.alphabet, s)
  {
    && g.prefix <= key && Over(g.alphabet, key[|g.prefix|..])
    && Rank(g.alphabet, key[|g.prefix|..]) > Rank(g.alphabet, s) + i
  }

  lemma AheadAt(g: Settings, s: string, stream: Stream, i: nat, k: nat)
    requires Yields(g, s, stream) && g.grow && i < k
    ensures Ahead(g, s, i, stream(k)) && Rank(g.alphabet, stream(k)[|g.prefix|..]) == Rank(g.alphabet, s) + k
  {
    RankAfter(g.alphabet, s, k);
    assert stream(k)[|g.prefix|..] == StateAfter(g.alphabet, s, true, k);
  }

  lemma AheadComesUp(g: Settings, s: string, stream: Stream, i: nat, key: string) returns (k: nat)
    requires Yields(g, s, stream) && g.grow && Ahead(g, s, i, key)
    ensures i < k == Rank(g.alphabet, key[|g.prefix|..]) - Rank(g.alphabet, s) && stream(k) == key
  {
    var t := key[|g.prefix|..];
    k := Rank(g.alphabet, t) - Rank(g.alphabet, s);
    RankAfter(g.alphabet, s, k);
    RankInjective(g.alphabet, StateAfter(g.alphabet, s, true, k), t);
    assert key == g.prefix + t;
  }

  /** All of finitely many keys to come have come up at some position. */
  lemma {:induction false} AllComeUp(g: Settings, s: string, stream: Stream, want: Target, i: nat, keys: set<string>)
    returns (k: nat)
    requires Yields(g, s, stream) && g.grow && forall key <- keys :: Ahead(g, s, i, key) && want(key)
    ensures i <= k && keys <= Found(stream, want, i, k)
    decreases keys
  {
    k := i;
    if keys != {} {
      var key :| key in keys;
      var m := AheadComesUp(g, s, stream, i, key);
      k := AllComeUp(g, s, stream, want, i, keys - {key});
      FindsGrow(stream, want, i, k, if m > k then m else k);
      k := if m > k then m else k;
      assert Hit(stream, want, m);
      FoundSpan(stream, want, i, k, key);
    }
  }

  lemma GrowingApart(g: Settings, s: string, stream: Stream, k: nat, m: nat)
    requires Yields(g, s, stream) && g.grow && k < m
    ensures stream(k) != stream(m)
  {
    GrowingDistinct(g.alphabet, s, k, m);
    StreamsApart(g, s, stream, k, m);
  }

  /** Without a length limit a search for count different keys ends if and only if that many are still to come. */
  lemma GrowingPlentiful(g: Settings, s: string, stream: Stream, want: Target, i: nat, count: nat)
    requires Yields(g, s, stream) && g.grow
    ensures Plentiful(stream, want, i, count) <==>
              exists keys: set<string> :: |keys| >= count && forall key <- keys :: Ahead(g, s, i, key) && want(key)
  {
    if k: nat :| |Found(stream, want, i, k)| >= count {
      forall key <- Found(stream, want, i, k) ensures Ahead(g, s, i, key) && want(key) {
        FoundSpan(stream, want, i, k, key);
        var m: nat :| i < m <= k && Hit(stream, want, m) && stream(m) == key;
        AheadAt(g, s, stream, i, m);
      }
    }
    if keys: set<string> :| |keys| >= count && forall key <- keys :: Ahead(g, s, i, key) && want(key) {
      var k := AllComeUp(g, s, stream, want, i, keys);
      SubsetSize(keys, Found(stream, want, i, k));
    }
  }

  /** Nor does it matter whether repetitions are allowed: there are none. */
  lemma GrowingRepeatable(g: Settings, s: string, stream: Stream, want: Target, i: nat, count: nat)
    requires Yields(g, s, stream) && g.grow
    ensures Repeatable(stream, want, i, count) <==> Plentiful(stream, want, i, count)
  {
    forall k: nat ensures |Found(stream, want, i, k)| == |Keys(stream, want, i, k)| {
      forall a: nat, b: nat | i < a < b <= k ensures stream(a) != stream(b) {
        GrowingApart(g, s, stream, a, b);
      }
      NoneTwice(stream, want, i, k);
    }
  }

  // ---- the generator ----

  /** wanted holds of any key, or of the keys of one vbucket. */
  ghost predicate Means(want: Option<nat>, vbuckets: nat, wanted: Target)
    requires vbuckets > 0
  {
    forall key {:trigger VbucketOf(key, vbuckets)} ::
      wanted(key) <==> want.None? || VbucketOf(key, vbuckets) == want.value
  }

  /** A search for a vbucket that does not exist, or whose number has more than fifteen bits, never ends. */
  lemma NoSuchVbucket(v: nat, vbuckets: nat, wanted: Target, stream: Stream, i: nat)
    requires vbuckets > 0 && Means(Some(v), vbuckets, wanted) && (v >= vbuckets || v >= 0x8000)
    ensures !Findable(stream, wanted, i)
  {
    forall k: nat ensures !Hit(stream, wanted, k) {
      VbucketBound(stream(k), vbuckets);
    }
  }

  class Generator {
    const prefix: string
    const vbuckets: nat
    const alphabet: string
    const fixedLength: nat
    var state: string
    ghost const first: string
    ghost const stream: Stream
    ghost var position: nat

    ghost function Config(): Settings {
      Settings(prefix, alphabet, fixedLength == 0)
    }

    /** The settings fit together. */
    ghost predicate Grounded() {
      && vbuckets > 0
      && Yields(Config(), first, stream)
      && Zeros(first)
      && (if fixedLength == 0 then prefix == first == "" else |first| > 0 && |prefix| + |first| == fixedLength)
    }

    ghost predicate Valid()
      reads this
    {
      Grounded() && state == StateAfter(alphabet, first, fixedLength == 0, position)
    }

    constructor (prefix: string, vbuckets: nat, fixedLength: nat, shuffled: string)
      requires vbuckets > 0 && multiset(shuffled) == multiset(DEFAULT_ALPHABET)
      requires prefix == "" || |prefix| < fixedLength
      ensures Valid() && position == 0 && Config() == Settings(prefix, shuffled, fixedLength == 0)
      ensures this.vbuckets == vbuckets && this.fixedLength == fixedLength && state == first
    {
      DefaultAlphabet();
      ShuffledAlphabet(shuffled, DEFAULT_ALPHABET);
      var length := if fixedLength > 0 then fixedLength - |prefix| else 0;
      var zeros: string := seq(length, (i: int) => '0');
      this.prefix := prefix;
      this.vbuckets := vbuckets;
      this.alphabet := shuffled;
      this.fixedLength := fixedLength;
      this.state := zeros;
      this.first := zeros;
      this.position := 0;
      this.stream := (k: nat) => prefix + StateAfter(shuffled, zeros, fixedLength == 0, k);
    }

    /** The constructor throws when the prefix leaves no room. */
    static method Make(prefix: string, vbuckets: nat, fixedLength: nat, shuffled: string) returns (g: Generator?)
      requires vbuckets > 0 && multiset(shuffled) == multiset(DEFAULT_ALPHABET)
      ensures g == null <==> prefix != "" && fixedLength <= |prefix|
      ensures g != null ==> fresh(g) && g.Valid() && g.position == 0
      ensures g != null ==> g.Config() == Settings(prefix, shuffled, fixedLength == 0)
      ensures g != null ==> g.vbuckets == vbuckets && g.fixedLength == fixedLength && g.state == g.first
    {
      if prefix != "" && fixedLength <= |prefix| {
        return null;
      }
      g := new Generator(prefix, vbuckets, fixedLength, shuffled);
    }

    method NextKey() returns (key: string)
      requires Valid()
      modifies `state, `position
      ensures Valid() && position == old(position) + 1 && key == stream(position)
    {
      if fixedLength > 0 {
        LengthAfter(alphabet, first, position);
      }
      state := UpdateState(alphabet, state, fixedLength == 0);
      position := position + 1;
      key := prefix + state;
    }

    method Accepts(want: Option<nat>, key: string, ghost wanted: Target) returns (ok: bool)
      requires vbuckets > 0 && Means(want, vbuckets, wanted)
      ensures ok == wanted(key)
    {
      ghost var place := VbucketOf(key, vbuckets);
      if want.None? {
        return true;
      }
      var v := MapKeyToVbucket(key, vbuckets);
      ok := v == want.value;
    }

    /** One key, and whether it is wanted. */
    method Probe(want: Option<nat>, ghost wanted: Target) returns (key: string, found: bool)
      requires Valid() && Means(want, vbuckets, wanted)
      modifies `state, `position
      ensures Valid() && position == old(position) + 1
      ensures key == stream(position) && found == Hit(stream, wanted, position)
    {
      key := NextKey();
      found := Accepts(want, key, wanted);
    }

    /** The first wanted key to come up. */
    method NextKeyFor(want: Option<nat>, ghost wanted: Target) returns (key: string)
      requires Valid() && Means(want, vbuckets, wanted) && Findable(stream, wanted, position)
      modifies `state, `position
      ensures Valid() && old(position) < position && key == stream(position) && Hit(stream, wanted, position)
      ensures Skipped(stream, wanted, old(position), position)
    {
      ghost var start := position;
      ghost var goal: nat :| start < goal && Hit(stream, wanted, goal);
      key := "";
      var found := false;
      while !found
        invariant Valid() && start <= position && if found then position <= goal else position < goal
        invariant found ==> start < position && key == stream(position) && Hit(stream, wanted, position)
        invariant Skipped(stream, wanted, start, if found then position else position + 1)
        decreases goal - position
      {
        key, found := Probe(want, wanted);
      }
    }

    /** That many keys, repetitions included. */
    method NextKeysFor(count: nat, want: Option<nat>, ghost wanted: Target) returns (keys: seq<string>)
      requires Valid() && Means(want, vbuckets, wanted) && Repeatable(stream, wanted, position, count)
      modifies `state, `position
      ensures Valid() && old(position) <= position
      ensures |keys| == count && keys == Keys(stream, wanted, old(position), position)
      ensures count > 0 ==> Hit(stream, wanted, position)
    {
      ghost var start := position;
      ghost var goal: nat :| |Keys(stream, wanted, start, goal)| >= count;
      keys := [];
      for i := 0 to count
        invariant Valid() && start <= position
        invariant |keys| == i && keys == Keys(stream, wanted, start, position)
        invariant i > 0 ==> Hit(stream, wanted, position)
      {
        ghost var before := position;
        MoreToFind(stream, wanted, start, before, goal);
        var key := NextKeyFor(want, wanted);
        Resume(stream, wanted, start, before, position);
        keys := keys + [key];
      }
    }

    /** That many different keys, in order. */
    method NextDistinctKeysFor(count: nat, want: Option<nat>, ghost wanted: Target) returns (keys: seq<string>)
      requires Valid() && Means(want, vbuckets, wanted) && Plentiful(stream, wanted, position, count)
      modifies `state, `position
      ensures Valid() && old(position) <= position
      ensures |keys| == count && Sorted(keys) && Elements(keys) == Found(stream, wanted, old(position), position)
      ensures count > 0 ==> Hit(stream, wanted, position)
    {
      ghost var start := position;
      ghost var goal: nat :| |Found(stream, wanted, start, goal)| >= count;
      keys := [];
      while |keys| < count
        invariant Valid() && start <= position
        invariant Sorted(keys) && |keys| <= count
        invariant Elements(keys) == Found(stream, wanted, start, position) && |Elements(keys)| == |keys|
        invariant |keys| > 0 ==> Hit(stream, wanted, position)
        decreases goal - position
      {
        ghost var before := position;
        MoreToFind(stream, wanted, start, before, goal);
        var key := NextKeyFor(want, wanted);
        Resume(stream, wanted, start, before, position);
        keys := Insert(keys, key);
      }
    }
  }
}
