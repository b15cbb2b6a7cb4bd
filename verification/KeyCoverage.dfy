/**
 Every vbucket has keys: the CRC-32 is linear, so the digits of a suffix can be chosen to give any digest,
 whatever comes before them. A search without a length limit ends exactly for the vbuckets that exist.
 */
module KeyCoverage {
  import opened Options
  import opened Crc32
  import opened KeySearch
  import opened Odometer
  import opened KeyGenerator

  // ---- feeding data into a register, in general ----

  function Run<W, X>(feed: (W, X) -> W, c: W, data: seq<X>): W
    decreases |data|
  {
    if data == [] then c else Run(feed, feed(c, data[0]), data[1..])
  }

  lemma {:induction false} RunJoin<W, X>(feed: (W, X) -> W, c: W, a: seq<X>, b: seq<X>)
    ensures Run(feed, c, a + b) == Run(feed, Run(feed, c, a), b)
    decreases |a|
  {
    if a == [] {
      assert a + b == b;
    } else {
      assert (a + b)[0] == a[0] && (a + b)[1..] == a[1..] + b;
      RunJoin(feed, feed(c, a[0]), a[1..], b);
    }
  }

  /** A difference in the register takes steps of its own, whatever is fed in. */
  ghost predicate Carries<W(!new), X(!new)>(feed: (W, X) -> W, step: W -> W, op: (W, W) -> W) {
    forall c, e, x :: feed(op(c, e), x) == op(feed(c, x), step(e))
  }

  lemma {:induction false} RepeatTail<W>(f: W -> W, e: W, k: nat)
    ensures Repeat(f, f(e), k) == Repeat(f, e, k + 1)
  {
    if k > 0 {
      RepeatTail(f, e, k - 1);
    }
  }

  lemma {:induction false} RunShift<W(!new), X(!new)>(feed: (W, X) -> W, step: W -> W, op: (W, W) -> W, c: W, e: W,
                                                      data: seq<X>)
    requires Carries(feed, step, op)
    ensures Run(feed, op(c, e), data) == op(Run(feed, c, data), Repeat(step, e, |data|))
    decreases |data|
  {
    if data != [] {
      RunShift(feed, step, op, feed(c, data[0]), step(e), data[1..]);
      RepeatTail(step, e, |data| - 1);
    }
  }

  lemma RunMiddle<W, X>(feed: (W, X) -> W, c: W, before: seq<X>, x: X, after: seq<X>)
    ensures Run(feed, c, before + ([x] + after)) == Run(feed, feed(Run(feed, c, before), x), after)
  {
    RunJoin(feed, c, before, [x] + after);
    assert ([x] + after)[1..] == after;
  }

  /** y instead of x makes a difference of unit, before it takes its steps. */
  ghost predicate Replaces<W(!new), X>(feed: (W, X) -> W, step: W -> W, op: (W, W) -> W, unit: W, x: X, y: X) {
    forall r :: feed(r, y) == op(feed(r, x), step(unit))
  }

  /** Replacing one item changes the result by what its difference becomes on the way to the end. */
  lemma RunReplaced<W(!new), X(!new)>(feed: (W, X) -> W, step: W -> W, op: (W, W) -> W, unit: W, c: W,
                                      before: seq<X>, x: X, y: X, after: seq<X>)
    requires Carries(feed, step, op) && Replaces(feed, step, op, unit, x, y)
    ensures Run(feed, c, before + ([y] + after)) ==
            op(Run(feed, c, before + ([x] + after)), Repeat(step, unit, |after| + 1))
  {
    RunMiddle(feed, c, before, x, after);
    RunMiddle(feed, c, before, y, after);
    RunShift(feed, step, op, feed(Run(feed, c, before), x), step(unit), after);
    RepeatTail(step, unit, |after|);
  }

  lemma Surroundings<X>(data: seq<X>, j: nat, y: X)
    requires j < |data|
    ensures data == data[..j] + ([data[j]] + data[j + 1..])
    ensures data[j := y] == data[..j] + ([y] + data[j + 1..])
  {
  }

  lemma RunUpdated<W(!new), X(!new)>(feed: (W, X) -> W, step: W -> W, op: (W, W) -> W, unit: W, impulse: W, c: W,
                                     data: seq<X>, j: nat, y: X)
    requires Carries(feed, step, op) && j < |data| && Replaces(feed, step, op, unit, data[j], y)
    requires Repeat(step, unit, |data| - j) == impulse
    ensures Run(feed, c, data[j := y]) == op(Run(feed, c, data), impulse)
  {
    Surroundings(data, j, y);
    RunReplaced(feed, step, op, unit, c, data[..j], data[j], y, data[j + 1..]);
  }

  // ---- the register of the CRC-32 ----

  function Feed(c: bv32, x: bv8): bv32 {
    ByteStep(c ^ (x as bv32))
  }

  lemma {:induction false} RegisterIsRun(c: bv32, data: seq<bv8>)
    ensures Register(c, data) == Run(Feed, c, data)
    decreases |data|
  {
    if data != [] {
      RegisterIsRun(ByteStep(c ^ (data[0] as bv32)), data[1..]);
    }
  }

  lemma XorSwap(c: bv32, e: bv32, x: bv32)
    ensures Xor(c, e) ^ x == Xor(c ^ x, e)
  {
  }

  lemma FeedCarries()
    ensures Carries(Feed, ByteStep, Xor)
  {
    forall c: bv32, e: bv32, x: bv8 ensures Feed(Xor(c, e), x) == Xor(Feed(c, x), ByteStep(e)) {
      XorSwap(c, e, x as bv32);
      ByteStepLinear(c ^ (x as bv32), e);
    }
  }

  /** The length of the suffixes to choose from. */
  const WIDTH: nat := 23

  const ZERO: bv8 := 0x30
  const ONE: bv8 := 0x31

  function Other(x: bv8): bv8 {
    if x == ONE then ZERO else ONE
  }

  predicate Digits(data: seq<bv8>) {
    forall i :: 0 <= i < |data| ==> data[i] == ZERO || data[i] == ONE
  }

  lemma OtherDiffers(c: bv32, x: bv8)
    requires x == ZERO || x == ONE
    ensures c ^ (Other(x) as bv32) == Xor(c ^ (x as bv32), 1)
  {
  }

  lemma FeedOther(c: bv32, x: bv8)
    requires x == ZERO || x == ONE
    ensures Feed(c, Other(x)) == Xor(Feed(c, x), ByteStep(1))
  {
    OtherDiffers(c, x);
    ByteStepLinear(c ^ (x as bv32), 1);
  }

  /** The register after a one and k - 1 zero bytes. */
  function Impulse(k: int): bv32 {
    match k
    case 1 => 0x77073096
    case 2 => 0x191b3141
    case 3 => 0x1c26a37
    case 4 => 0xb8bc6765
    case 5 => 0x3d6029b0
    case 6 => 0xcb5cd3a5
    case 7 => 0xa6770bb4
    case 8 => 0xccaa009e
    case 9 => 0x177b1443
    case 10 => 0xefc26b3e
    case 11 => 0xc18edfc0
    case 12 => 0x9ba54c6f
    case 13 => 0xdd96d985
    case 14 => 0x9d0fe176
    case 15 => 0xb9fbdbe8
    case 16 => 0xae689191
    case 17 => 0x87a6cb43
    case 18 => 0xef52b6e1
    case 19 => 0xd7e28058
    case 20 => 0x65673b46
    case 21 => 0x9fda839e
    case 22 => 0x172864c0
    case 23 => 0x9b73ead4
    case _ => 0
  }

  lemma ImpulseOne()
    ensures ByteStep(1) == Impulse(1)
  {
    ByteStepUnrolls(1);
    assert Unrolled(1) == 0x77073096;
  }

  lemma ByteStepsA()
    ensures ByteStep(0x77073096) == 0x191b3141
    ensures ByteStep(0x191b3141) == 0x1c26a37
    ensures ByteStep(0x1c26a37) == 0xb8bc6765
    ensures ByteStep(0xb8bc6765) == 0x3d6029b0
  {
    ByteStepUnrolls(0x77073096);
    ByteStepUnrolls(0x191b3141);
    ByteStepUnrolls(0x1c26a37);
    ByteStepUnrolls(0xb8bc6765);
  }

  lemma ByteStepsB()
    ensures ByteStep(0x3d6029b0) == 0xcb5cd3a5
    ensures ByteStep(0xcb5cd3a5) == 0xa6770bb4
    ensures ByteStep(0xa6770bb4) == 0xccaa009e
    ensures ByteStep(0xccaa009e) == 0x177b1443
  {
    ByteStepUnrolls(0x3d6029b0);
    ByteStepUnrolls(0xcb5cd3a5);
    ByteStepUnrolls(0xa6770bb4);
    ByteStepUnrolls(0xccaa009e);
  }

  lemma ByteStepsC()
    ensures ByteStep(0x177b1443) == 0xefc26b3e
    ensures ByteStep(0xefc26b3e) == 0xc18edfc0
    ensures ByteStep(0xc18edfc0) == 0x9ba54c6f
    ensures ByteStep(0x9ba54c6f) == 0xdd96d985
  {
    ByteStepUnrolls(0x177b1443);
    ByteStepUnrolls(0xefc26b3e);
    ByteStepUnrolls(0xc18edfc0);
    ByteStepUnrolls(0x9ba54c6f);
  }

  lemma ByteStepsD()
    ensures ByteStep(0xdd96d985) == 0x9d0fe176
    ensures ByteStep(0x9d0fe176) == 0xb9fbdbe8
    ensures ByteStep(0xb9fbdbe8) == 0xae689191
    ensures ByteStep(0xae689191) == 0x87a6cb43
  {
    ByteStepUnrolls(0xdd96d985);
    ByteStepUnrolls(0x9d0fe176);
    ByteStepUnrolls(0xb9fbdbe8);
    ByteStepUnrolls(0xae689191);
  }

  lemma ByteStepsE()
    ensures ByteStep(0x87a6cb43) == 0xef52b6e1
    ensures ByteStep(0xef52b6e1) == 0xd7e28058
    ensures ByteStep(0xd7e28058) == 0x65673b46
  {
    ByteStepUnrolls(0x87a6cb43);
    ByteStepUnrolls(0xef52b6e1);
    ByteStepUnrolls(0xd7e28058);
  }

  lemma ByteStepsF()
    ensures ByteStep(0x65673b46) == 0x9fda839e
    ensures ByteStep(0x9fda839e) == 0x172864c0
    ensures ByteStep(0x172864c0) == 0x9b73ead4
  {
    ByteStepUnrolls(0x65673b46);
    ByteStepUnrolls(0x9fda839e);
    ByteStepUnrolls(0x172864c0);
  }

  lemma ImpulseNext(k: int)
    requires 1 <= k < WIDTH
    ensures ByteStep(Impulse(k)) == Impulse(k + 1)
  {
    match k
    case 1 => ByteStepsA();
    case 2 => ByteStepsA();
    case 3 => ByteStepsA();
    case 4 => ByteStepsA();
    case 5 => ByteStepsB();
    case 6 => ByteStepsB();
    case 7 => ByteStepsB();
    case 8 => ByteStepsB();
    case 9 => ByteStepsC();
    case 10 => ByteStepsC();
    case 11 => ByteStepsC();
    case 12 => ByteStepsC();
    case 13 => ByteStepsD();
    case 14 => ByteStepsD();
    case 15 => ByteStepsD();
    case 16 => ByteStepsD();
    case 17 => ByteStepsE();
    case 18 => ByteStepsE();
    case 19 => ByteStepsE();
    case 20 => ByteStepsF();
    case 21 => ByteStepsF();
    case 22 => ByteStepsF();
  }

  /** What repeating f leads through. */
  lemma {:induction false} RepeatChain<W>(f: W -> W, p: int -> W, e: W, k: nat, n: nat)
    requires f(e) == p(1) && 1 <= k <= n && forall j :: 1 <= j < n ==> f(p(j)) == p(j + 1)
    ensures Repeat(f, e, k) == p(k)
  {
    if k == 1 {
      assert Repeat(f, e, 0) == e;
    } else {
      RepeatChain(f, p, e, k - 1, n);
    }
  }

  lemma ImpulseIs(k: nat)
    requires 1 <= k <= WIDTH
    ensures Repeat(ByteStep, 1, k) == Impulse(k)
  {
    ImpulseOne();
    forall j | 1 <= j < WIDTH ensures ByteStep(Impulse(j)) == Impulse(j + 1) {
      ImpulseNext(j);
    }
    RepeatChain(ByteStep, Impulse, 1, k, WIDTH);
  }

  /** The k-th digit from the end, changed. */
  function Flip(data: seq<bv8>, k: nat): seq<bv8>
    requires 1 <= k <= |data|
  {
    data[|data| - k := Other(data[|data| - k])]
  }

  lemma FeedOthers(x: bv8)
    requires x == ZERO || x == ONE
    ensures Replaces(Feed, ByteStep, Xor, 1, x, Other(x))
  {
    forall r ensures Feed(r, Other(x)) == Xor(Feed(r, x), ByteStep(1)) {
      FeedOther(r, x);
    }
  }

  lemma FlipDigits(data: seq<bv8>, k: nat)
    requires Digits(data) && 1 <= k <= |data|
    ensures Digits(Flip(data, k))
  {
  }

  // ---- the digits of a suffix reach every digest ----

  /** The bits of the register that make up the digest. */
  function Part(r: bv32): bv32 {
    (r >> 16) & 0x7fff
  }

  lemma PartXor(a: bv32, b: bv32)
    ensures Part(Xor(a, b)) == Xor(Part(a), Part(b))
  {
  }

  /** Six digits, counted from the end. */
  datatype Six = Six(a: nat, b: nat, c: nat, d: nat, e: nat, f: nat) {
    predicate Within() {
      && 1 <= a <= WIDTH && 1 <= b <= WIDTH && 1 <= c <= WIDTH
      && 1 <= d <= WIDTH && 1 <= e <= WIDTH && 1 <= f <= WIDTH
    }
  }

  function PartOf(k: int): bv32 {
    Part(Impulse(k))
  }

  function Total(x: Six): bv32 {
    Xor(Xor(Xor(PartOf(x.a), PartOf(x.b)), Xor(PartOf(x.c), PartOf(x.d))), Xor(PartOf(x.e), PartOf(x.f)))
  }

  predicate Good(data: seq<bv8>) {
    |data| == WIDTH && Digits(data)
  }

  function PartAfter(c: bv32, data: seq<bv8>): bv32 {
    Part(Run(Feed, c, data))
  }

  /** A value of digits to which a change adds what belongs to its place. */
  ghost predicate Flips(value: seq<bv8> -> bv32) {
    forall data, k {:trigger value(Flip(data, k))} :: Good(data) && 1 <= k <= WIDTH ==>
      value(Flip(data, k)) == Xor(value(data), PartOf(k))
  }

  lemma FlipPart(c: bv32, data: seq<bv8>, k: nat)
    requires Good(data) && 1 <= k <= WIDTH
    ensures PartAfter(c, Flip(data, k)) == Xor(PartAfter(c, data), PartOf(k))
  {
    FeedCarries();
    FeedOthers(data[WIDTH - k]);
    ImpulseIs(k);
    RunUpdated(Feed, ByteStep, Xor, 1, Impulse(k), c, data, WIDTH - k, Other(data[WIDTH - k]));
    PartXor(Run(Feed, c, data), Impulse(k));
  }

  lemma XorMoves(a: bv32, b: bv32, c: bv32)
    ensures Xor(Xor(a, b), c) == Xor(a, Xor(b, c))
  {
  }

  lemma FlipTwo(value: seq<bv8> -> bv32, data: seq<bv8>, j: nat, k: nat) returns (r: seq<bv8>)
    requires Flips(value) && Good(data) && 1 <= j <= WIDTH && 1 <= k <= WIDTH
    ensures Good(r) && value(r) == Xor(value(data), Xor(PartOf(j), PartOf(k)))
  {
    r := Flip(data, j);
    FlipDigits(data, j);
    FlipDigits(r, k);
    XorMoves(value(data), PartOf(j), PartOf(k));
    r := Flip(r, k);
  }

  lemma FlipSix(value: seq<bv8> -> bv32, data: seq<bv8>, x: Six) returns (r: seq<bv8>)
    requires Flips(value) && Good(data) && x.Within()
    ensures Good(r) && value(r) == Xor(value(data), Total(x))
  {
    r := FlipTwo(value, data, x.a, x.b);
    r := FlipTwo(value, r, x.c, x.d);
    r := FlipTwo(value, r, x.e, x.f);
    var ab, cd, ef := Xor(PartOf(x.a), PartOf(x.b)), Xor(PartOf(x.c), PartOf(x.d)), Xor(PartOf(x.e), PartOf(x.f));
    XorMoves(value(data), ab, cd);
    XorMoves(value(data), Xor(ab, cd), ef);
  }

  /** Adding u where the difference to the goal asks for it leads from a difference with m to one with n. */
  ghost predicate Turns<W(!new)>(op: (W, W) -> W, u: W, wrong: W -> bool, m: W -> bool, n: W -> bool) {
    forall off :: m(off) ==> n(if wrong(off) then op(off, u) else off)
  }

  /** None of the bits of m is set. */
  function Clear(m: bv32): bv32 -> bool {
    off => off & m == 0
  }

  function Set(u: bv32): bv32 -> bool {
    off => off & u != 0
  }

  /** Six digits whose change turns bit u of the digest over and no other. */
  predicate Sets(x: Six, u: bv32) {
    x.Within() && Total(x) == u
  }

  lemma Sets0()
    ensures Sets(Six(2, 6, 10, 12, 15, 21), 0x1)
  {
    assert PartOf(2) == 0x191b && PartOf(6) == 0x4b5c && PartOf(10) == 0x6fc2;
    assert PartOf(12) == 0x1ba5 && PartOf(15) == 0x39fb && PartOf(21) == 0x1fda;
  }

  lemma Sets1()
    ensures Sets(Six(2, 5, 10, 11, 18, 20), 0x2)
  {
    assert PartOf(2) == 0x191b && PartOf(5) == 0x3d60 && PartOf(10) == 0x6fc2;
    assert PartOf(11) == 0x418e && PartOf(18) == 0x6f52 && PartOf(20) == 0x6567;
  }

  lemma Sets2()
    ensures Sets(Six(1, 2, 10, 14, 17, 23), 0x4)
  {
    assert PartOf(1) == 0x7707 && PartOf(2) == 0x191b && PartOf(10) == 0x6fc2;
    assert PartOf(14) == 0x1d0f && PartOf(17) == 0x7a6 && PartOf(23) == 0x1b73;
  }

  lemma Sets3()
    ensures Sets(Six(1, 5, 10, 19, 20, 22), 0x8)
  {
    assert PartOf(1) == 0x7707 && PartOf(5) == 0x3d60 && PartOf(10) == 0x6fc2;
    assert PartOf(19) == 0x57e2 && PartOf(20) == 0x6567 && PartOf(22) == 0x1728;
  }

  lemma Sets4()
    ensures Sets(Six(2, 5, 10, 11, 14, 22), 0x10)
  {
    assert PartOf(2) == 0x191b && PartOf(5) == 0x3d60 && PartOf(10) == 0x6fc2;
    assert PartOf(11) == 0x418e && PartOf(14) == 0x1d0f && PartOf(22) == 0x1728;
  }

  lemma Sets5()
    ensures Sets(Six(1, 6, 7, 8, 11, 22), 0x20)
  {
    assert PartOf(1) == 0x7707 && PartOf(6) == 0x4b5c && PartOf(7) == 0x2677;
    assert PartOf(8) == 0x4caa && PartOf(11) == 0x418e && PartOf(22) == 0x1728;
  }

  lemma Sets6()
    ensures Sets(Six(3, 5, 6, 10, 17, 21), 0x40)
  {
    assert PartOf(3) == 0x1c2 && PartOf(5) == 0x3d60 && PartOf(6) == 0x4b5c;
    assert PartOf(10) == 0x6fc2 && PartOf(17) == 0x7a6 && PartOf(21) == 0x1fda;
  }

  lemma Sets7()
    ensures Sets(Six(2, 5, 11, 14, 18, 22), 0x80)
  {
    assert PartOf(2) == 0x191b && PartOf(5) == 0x3d60 && PartOf(11) == 0x418e;
    assert PartOf(14) == 0x1d0f && PartOf(18) == 0x6f52 && PartOf(22) == 0x1728;
  }

  lemma Sets8()
    ensures Sets(Six(1, 5, 6, 8, 19, 23), 0x100)
  {
    assert PartOf(1) == 0x7707 && PartOf(5) == 0x3d60 && PartOf(6) == 0x4b5c;
    assert PartOf(8) == 0x4caa && PartOf(19) == 0x57e2 && PartOf(23) == 0x1b73;
  }

  lemma Sets9()
    ensures Sets(Six(1, 6, 9, 12, 19, 20), 0x200)
  {
    assert PartOf(1) == 0x7707 && PartOf(6) == 0x4b5c && PartOf(9) == 0x177b;
    assert PartOf(12) == 0x1ba5 && PartOf(19) == 0x57e2 && PartOf(20) == 0x6567;
  }

  lemma Sets10()
    ensures Sets(Six(3, 5, 9, 13, 20, 22), 0x400)
  {
    assert PartOf(3) == 0x1c2 && PartOf(5) == 0x3d60 && PartOf(9) == 0x177b;
    assert PartOf(13) == 0x5d96 && PartOf(20) == 0x6567 && PartOf(22) == 0x1728;
  }

  lemma Sets11()
    ensures Sets(Six(1, 3, 9, 10, 14, 23), 0x800)
  {
    assert PartOf(1) == 0x7707 && PartOf(3) == 0x1c2 && PartOf(9) == 0x177b;
    assert PartOf(10) == 0x6fc2 && PartOf(14) == 0x1d0f && PartOf(23) == 0x1b73;
  }

  lemma Sets12()
    ensures Sets(Six(2, 5, 10, 19, 22, 23), 0x1000)
  {
    assert PartOf(2) == 0x191b && PartOf(5) == 0x3d60 && PartOf(10) == 0x6fc2;
    assert PartOf(19) == 0x57e2 && PartOf(22) == 0x1728 && PartOf(23) == 0x1b73;
  }

  lemma Sets13()
    ensures Sets(Six(1, 2, 5, 6, 10, 19), 0x2000)
  {
    assert PartOf(1) == 0x7707 && PartOf(2) == 0x191b && PartOf(5) == 0x3d60;
    assert PartOf(6) == 0x4b5c && PartOf(10) == 0x6fc2 && PartOf(19) == 0x57e2;
  }

  lemma Sets14()
    ensures Sets(Six(4, 7, 10, 15, 21, 22), 0x4000)
  {
    assert PartOf(4) == 0x38bc && PartOf(7) == 0x2677 && PartOf(10) == 0x6fc2;
    assert PartOf(15) == 0x39fb && PartOf(21) == 0x1fda && PartOf(22) == 0x1728;
  }

  lemma TurnsLow()
    ensures Turns(Xor, 0x1, Set(0x1), Clear(0x0), Clear(0x1))
    ensures Turns(Xor, 0x2, Set(0x2), Clear(0x1), Clear(0x3))
    ensures Turns(Xor, 0x4, Set(0x4), Clear(0x3), Clear(0x7))
    ensures Turns(Xor, 0x8, Set(0x8), Clear(0x7), Clear(0xf))
    ensures Turns(Xor, 0x10, Set(0x10), Clear(0xf), Clear(0x1f))
  {
  }

  lemma TurnsMiddle()
    ensures Turns(Xor, 0x20, Set(0x20), Clear(0x1f), Clear(0x3f))
    ensures Turns(Xor, 0x40, Set(0x40), Clear(0x3f), Clear(0x7f))
    ensures Turns(Xor, 0x80, Set(0x80), Clear(0x7f), Clear(0xff))
    ensures Turns(Xor, 0x100, Set(0x100), Clear(0xff), Clear(0x1ff))
    ensures Turns(Xor, 0x200, Set(0x200), Clear(0x1ff), Clear(0x3ff))
  {
  }

  lemma TurnsHigh()
    ensures Turns(Xor, 0x400, Set(0x400), Clear(0x3ff), Clear(0x7ff))
    ensures Turns(Xor, 0x800, Set(0x800), Clear(0x7ff), Clear(0xfff))
    ensures Turns(Xor, 0x1000, Set(0x1000), Clear(0xfff), Clear(0x1fff))
    ensures Turns(Xor, 0x2000, Set(0x2000), Clear(0x1fff), Clear(0x3fff))
    ensures Turns(Xor, 0x4000, Set(0x4000), Clear(0x3fff), Clear(0x7fff))
  {
  }

  lemma FlipUnit(value: seq<bv8> -> bv32, data: seq<bv8>, x: Six, u: bv32) returns (r: seq<bv8>)
    requires Flips(value) && Good(data) && Sets(x, u)
    ensures Good(r) && value(r) == Xor(value(data), u)
  {
    r := FlipSix(value, data, x);
  }

  lemma FixBit<D, W(!new)>(value: D -> W, op: (W, W) -> W, u: W, wrong: W -> bool, m: W -> bool, n: W -> bool,
                           data: D, turned: D, goal: W) returns (r: D)
    requires value(turned) == op(value(data), u) && op(value(turned), goal) == op(op(value(data), goal), u)
    requires Turns(op, u, wrong, m, n) && m(op(value(data), goal))
    ensures (r == data || r == turned) && n(op(value(r), goal))
  {
    r := if wrong(op(value(data), goal)) then turned else data;
  }

  lemma XorCommutes(a: bv32, b: bv32)
    ensures Xor(a, b) == Xor(b, a)
  {
  }

  lemma XorTurns(a: bv32, u: bv32, goal: bv32)
    ensures Xor(Xor(a, u), goal) == Xor(Xor(a, goal), u)
  {
    XorMoves(a, u, goal);
    XorCommutes(u, goal);
    XorMoves(a, goal, u);
  }

  lemma FixUnit(value: seq<bv8> -> bv32, data: seq<bv8>, turned: seq<bv8>, goal: bv32, u: bv32, wrong: bv32 -> bool,
                m: bv32 -> bool, n: bv32 -> bool) returns (r: seq<bv8>)
    requires value(turned) == Xor(value(data), u) && Turns(Xor, u, wrong, m, n) && m(Xor(value(data), goal))
    ensures (r == data || r == turned) && n(Xor(value(r), goal))
  {
    XorTurns(value(data), u, goal);
    r := FixBit(value, Xor, u, wrong, m, n, data, turned, goal);
  }

  lemma FixDigits(value: seq<bv8> -> bv32, data: seq<bv8>, goal: bv32, x: Six, u: bv32, wrong: bv32 -> bool,
                  m: bv32 -> bool, n: bv32 -> bool) returns (r: seq<bv8>)
    requires Flips(value) && Good(data) && Sets(x, u) && Turns(Xor, u, wrong, m, n) && m(Xor(value(data), goal))
    ensures Good(r) && n(Xor(value(r), goal))
  {
    var turned := FlipUnit(value, data, x, u);
    r := FixUnit(value, data, turned, goal, u, wrong, m, n);
  }

  lemma FixLow(value: seq<bv8> -> bv32, data: seq<bv8>, goal: bv32) returns (r: seq<bv8>)
    requires Flips(value) && Good(data) && Clear(0x0)(Xor(value(data), goal))
    ensures Good(r) && Clear(0x1f)(Xor(value(r), goal))
  {
    TurnsLow();
    r := data;
    Sets0();
    r := FixDigits(value, r, goal, Six(2, 6, 10, 12, 15, 21), 0x1, Set(0x1), Clear(0x0), Clear(0x1));
    Sets1();
    r := FixDigits(value, r, goal, Six(2, 5, 10, 11, 18, 20), 0x2, Set(0x2), Clear(0x1), Clear(0x3));
    Sets2();
    r := FixDigits(value, r, goal, Six(1, 2, 10, 14, 17, 23), 0x4, Set(0x4), Clear(0x3), Clear(0x7));
    Sets3();
    r := FixDigits(value, r, goal, Six(1, 5, 10, 19, 20, 22), 0x8, Set(0x8), Clear(0x7), Clear(0xf));
    Sets4();
    r := FixDigits(value, r, goal, Six(2, 5, 10, 11, 14, 22), 0x10, Set(0x10), Clear(0xf), Clear(0x1f));
  }

  lemma FixMiddle(value: seq<bv8> -> bv32, data: seq<bv8>, goal: bv32) returns (r: seq<bv8>)
    requires Flips(value) && Good(data) && Clear(0x1f)(Xor(value(data), goal))
    ensures Good(r) && Clear(0x3ff)(Xor(value(r), goal))
  {
    TurnsMiddle();
    r := data;
    Sets5();
    r := FixDigits(value, r, goal, Six(1, 6, 7, 8, 11, 22), 0x20, Set(0x20), Clear(0x1f), Clear(0x3f));
    Sets6();
    r := FixDigits(value, r, goal, Six(3, 5, 6, 10, 17, 21), 0x40, Set(0x40), Clear(0x3f), Clear(0x7f));
    Sets7();
    r := FixDigits(value, r, goal, Six(2, 5, 11, 14, 18, 22), 0x80, Set(0x80), Clear(0x7f), Clear(0xff));
    Sets8();
    r := FixDigits(value, r, goal, Six(1, 5, 6, 8, 19, 23), 0x100, Set(0x100), Clear(0xff), Clear(0x1ff));
    Sets9();
    r := FixDigits(value, r, goal, Six(1, 6, 9, 12, 19, 20), 0x200, Set(0x200), Clear(0x1ff), Clear(0x3ff));
  }

  lemma FixHigh(value: seq<bv8> -> bv32, data: seq<bv8>, goal: bv32) returns (r: seq<bv8>)
    requires Flips(value) && Good(data) && Clear(0x3ff)(Xor(value(data), goal))
    ensures Good(r) && Clear(0x7fff)(Xor(value(r), goal))
  {
    TurnsHigh();
    r := data;
    Sets10();
    r := FixDigits(value, r, goal, Six(3, 5, 9, 13, 20, 22), 0x400, Set(0x400), Clear(0x3ff), Clear(0x7ff));
    Sets11();
    r := FixDigits(value, r, goal, Six(1, 3, 9, 10, 14, 23), 0x800, Set(0x800), Clear(0x7ff), Clear(0xfff));
    Sets12();
    r := FixDigits(value, r, goal, Six(2, 5, 10, 19, 22, 23), 0x1000, Set(0x1000), Clear(0xfff), Clear(0x1fff));
    Sets13();
    r := FixDigits(value, r, goal, Six(1, 2, 5, 6, 10, 19), 0x2000, Set(0x2000), Clear(0x1fff), Clear(0x3fff));
    Sets14();
    r := FixDigits(value, r, goal, Six(4, 7, 10, 15, 21, 22), 0x4000, Set(0x4000), Clear(0x3fff), Clear(0x7fff));
  }

  lemma NothingYet(off: bv32)
    ensures Clear(0x0)(off)
  {
  }

  lemma FixBits(value: seq<bv8> -> bv32, data: seq<bv8>, goal: bv32) returns (r: seq<bv8>)
    requires Flips(value) && Good(data)
    ensures Good(r) && Clear(0x7fff)(Xor(value(r), goal))
  {
    NothingYet(Xor(value(data), goal));
    r := FixLow(value, data, goal);
    r := FixMiddle(value, r, goal);
    r := FixHigh(value, r, goal);
  }

  /** With all bits right, the complement of the register has the digest wanted. */
  lemma AllRight(r: bv32, d: bv32)
    requires d < 0x8000 && Clear(0x7fff)(Xor(Part(r), d ^ 0x7fff))
    ensures ((!r) >> 16) & 0x7fff == d
  {
  }

  /** Whatever data begins with, WIDTH more digits give it any digest. */
  lemma AnyDigest(before: seq<bv8>, d: bv32) returns (r: seq<bv8>)
    requires d < 0x8000
    ensures Good(r) && Digest(before + r) == d
  {
    var c := Run(Feed, 0xffffffff, before);
    var value: seq<bv8> -> bv32 := data => PartAfter(c, data);
    forall data, k | Good(data) && 1 <= k <= WIDTH ensures value(Flip(data, k)) == Xor(value(data), PartOf(k)) {
      FlipPart(c, data, k);
    }
    r := FixBits(value, seq(WIDTH, (i: int) => ZERO), d ^ 0x7fff);
    RunJoin(Feed, 0xffffffff, before, r);
    RegisterIsRun(0xffffffff, before + r);
    AllRight(Register(0xffffffff, before + r), d);
  }

  // ---- as strings ----

  function Text(data: seq<bv8>): (s: string)
    ensures |s| == |data| && forall i :: 0 <= i < |s| ==> s[i] == '0' || s[i] == '1'
  {
    seq(|data|, i requires 0 <= i < |data| => if data[i] == ONE then '1' else '0')
  }

  lemma Codes()
    ensures ('0' as int % 0x100) as bv8 == ZERO && ('1' as int % 0x100) as bv8 == ONE
  {
  }

  lemma {:induction false} BytesJoin(s: string, t: string)
    ensures Bytes(s + t) == Bytes(s) + Bytes(t)
  {
    if s == "" {
      assert s + t == t;
    } else {
      assert (s + t)[0] == s[0] && (s + t)[1..] == s[1..] + t;
      BytesJoin(s[1..], t);
    }
  }

  lemma {:induction false} TextBytes(data: seq<bv8>)
    requires Digits(data)
    ensures Bytes(Text(data)) == data
    decreases |data|
  {
    if data != [] {
      Codes();
      assert Text(data)[1..] == Text(data[1..]);
      TextBytes(data[1..]);
    }
  }

  lemma AnyKeyDigest(s: string, d: bv32) returns (t: string)
    requires d < 0x8000
    ensures |t| == WIDTH && (forall i :: 0 <= i < |t| ==> t[i] == '0' || t[i] == '1') && Digest(Bytes(s + t)) == d
  {
    var r := AnyDigest(Bytes(s), d);
    t := Text(r);
    TextBytes(r);
    BytesJoin(s, t);
  }

  // ---- when a search without a length limit ends ----

  lemma {:induction false} RankAtLeast(a: string, t: string)
    requires Alphabet(a) && Over(a, t)
    ensures Rank(a, t) >= |t|
  {
    if t != "" {
      RankAtLeast(a, t[1..]);
      var r := Rank(a, t[1..]);
      assert |a| * r >= r;
    }
  }

  lemma Doubled(d: bv32)
    requires d < 0x4000
    ensures (d << 1) as nat == 2 * (d as nat) && ((d << 1) | 1) as nat == 2 * (d as nat) + 1
  {
  }

  lemma Below(d: bv32)
    ensures d < 0x4000 <==> d as nat < 0x4000
    ensures d < 0x8000 <==> d as nat < 0x8000
  {
  }

  lemma {:induction false} AsBits(v: nat) returns (d: bv32)
    requires v < 0x8000
    ensures d < 0x8000 && d as nat == v
  {
    if v == 0 {
      d := 0;
    } else {
      var half := AsBits(v / 2);
      Below(half);
      Doubled(half);
      d := if v % 2 == 0 then half << 1 else (half << 1) | 1;
      Below(d);
    }
  }

  lemma Remainder(v: nat, vbuckets: nat)
    requires v < vbuckets
    ensures v % vbuckets == v
  {
  }

  lemma VbucketIs(key: string, vbuckets: nat, v: nat, d: bv32)
    requires v < vbuckets && Digest(Bytes(key)) == d && d as nat == v
    ensures VbucketOf(key, vbuckets) == v
  {
    Remainder(v, vbuckets);
  }

  /** However late in the list of all strings, there is one that maps to the vbucket. */
  lemma SomeString(prefix: string, a: string, vbuckets: nat, v: nat, n: nat) returns (t: string)
    requires Alphabet(a) && '0' in a && '1' in a && v < vbuckets && v < 0x8000
    ensures Over(a, t) && Rank(a, t) >= n && VbucketOf(prefix + t, vbuckets) == v
  {
    var zeros: string := seq(n, (i: int) => '0');
    var d := AsBits(v);
    var rest := AnyKeyDigest(prefix + zeros, d);
    t := zeros + rest;
    assert prefix + t == prefix + zeros + rest;
    VbucketIs(prefix + t, vbuckets, v, d);
    assert forall i :: 0 <= i < |t| ==> t[i] == '0' || t[i] == '1';
    RankAtLeast(a, t);
  }

  /** A search without a length limit ends if and only if the vbucket exists and its number has fifteen bits. */
  lemma EveryVbucketComesUp(g: Settings, s: string, stream: Stream, vbuckets: nat, v: nat, wanted: Target, i: nat)
    requires Yields(g, s, stream) && g.grow && '0' in g.alphabet && '1' in g.alphabet
    requires vbuckets > 0 && Means(Some(v), vbuckets, wanted)
    ensures Findable(stream, wanted, i) <==> v < vbuckets && v < 0x8000
  {
    if v < vbuckets && v < 0x8000 {
      var t := SomeString(g.prefix, g.alphabet, vbuckets, v, Rank(g.alphabet, s) + i + 1);
      GrowingFindable(g, s, stream, wanted, i);
    } else {
      NoSuchVbucket(v, vbuckets, wanted, stream, i);
    }
  }

  /** And then any number of different keys can be had. */
  lemma AnyNumberComesUp(g: Settings, s: string, stream: Stream, vbuckets: nat, v: nat, wanted: Target, i: nat,
                         count: nat)
    requires Yields(g, s, stream) && g.grow && '0' in g.alphabet && '1' in g.alphabet
    requires v < vbuckets && v < 0x8000 && Means(Some(v), vbuckets, wanted)
    ensures Repeatable(stream, wanted, i, count) && Plentiful(stream, wanted, i, count)
  {
    forall j: nat | i <= j ensures Findable(stream, wanted, j) {
      EveryVbucketComesUp(g, s, stream, vbuckets, v, wanted, j);
    }
    RecurringRepeatable(stream, wanted, i, count);
    GrowingRepeatable(g, s, stream, wanted, i, count);
  }
}
