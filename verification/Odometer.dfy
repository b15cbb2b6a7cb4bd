/**
 The state of the key generator read as a numeral: the first symbol is the least significant digit,
 and a symbol's digit is its position in the (shuffled) alphabet.
 */
module Odometer {
  ghost predicate Distinct(a: string) {
    forall i, j :: 0 <= i < j < |a| ==> a[i] != a[j]
  }

  ghost predicate Alphabet(a: string) {
    a != "" && Distinct(a)
  }

  /** s is written in the alphabet a. */
  ghost predicate Over(a: string, s: string) {
    forall i :: 0 <= i < |s| ==> s[i] in a
  }

  /** std::find: the first position of c. */
  function Digit(a: string, c: char): (d: nat)
    requires c in a
    ensures d < |a| && a[d] == c
  {
    if a[0] == c then 0 else 1 + Digit(a[1..], c)
  }

  lemma DigitAt(a: string, d: nat)
    requires Distinct(a) && d < |a|
    ensures Digit(a, a[d]) == d
  {
  }

  function Power(b: nat, n: nat): nat {
    if n == 0 then 1 else b * Power(b, n - 1)
  }

  lemma {:induction false} PowerPositive(b: nat, n: nat)
    requires b > 0
    ensures Power(b, n) > 0
  {
    if n > 0 {
      PowerPositive(b, n - 1);
    }
  }

  /** s as a fixed-length numeral in base |a|. */
  function Value(a: string, s: string): nat
    requires Over(a, s)
  {
    if s == "" then 0 else Digit(a, s[0]) + |a| * Value(a, s[1..])
  }

  /** s as a bijective numeral in base |a|: its place when strings are listed by growing length. */
  function Rank(a: string, s: string): nat
    requires Over(a, s)
  {
    if s == "" then 0 else Digit(a, s[0]) + 1 + |a| * Rank(a, s[1..])
  }

  /** The next state of the generator. */
  function Successor(a: string, s: string, grow: bool): (r: string)
    requires Alphabet(a) && Over(a, s)
    ensures Over(a, r)
  {
    if s == "" then if grow then [a[0]] else ""
    else if s[0] == a[|a| - 1] then [a[0]] + Successor(a, s[1..], grow)
    else [a[Digit(a, s[0]) + 1]] + s[1..]
  }

  // ---- arithmetic ----

  lemma Scale(b: nat, x: nat, y: nat)
    requires x <= y
    ensures b * x <= b * y
  {
  }

  lemma DigitsUnique(b: nat, d: nat, v: nat, d': nat, v': nat)
    requires d < b && d' < b && d + b * v == d' + b * v'
    ensures d == d' && v == v'
  {
    if v < v' {
      Scale(b, v + 1, v');
    } else if v' < v {
      Scale(b, v' + 1, v);
    }
  }

  lemma DigitsBound(b: nat, d: nat, v: nat, n: nat)
    requires d < b && v < n
    ensures d + b * v < b * n
  {
    Scale(b, v + 1, n);
  }

  // ---- fixed length ----

  lemma {:induction false} ValueBound(a: string, s: string)
    requires Over(a, s)
    ensures Value(a, s) < Power(|a|, |s|)
  {
    if s != "" {
      ValueBound(a, s[1..]);
      DigitsBound(|a|, Digit(a, s[0]), Value(a, s[1..]), Power(|a|, |s| - 1));
    }
  }

  /** A state is determined by its length and value. */
  lemma {:induction false} ValueInjective(a: string, s: string, t: string)
    requires Over(a, s) && Over(a, t) && |s| == |t| && Value(a, s) == Value(a, t)
    ensures s == t
  {
    if s != "" {
      DigitsUnique(|a|, Digit(a, s[0]), Value(a, s[1..]), Digit(a, t[0]), Value(a, t[1..]));
      ValueInjective(a, s[1..], t[1..]);
      assert s == [s[0]] + s[1..] && t == [t[0]] + t[1..];
    }
  }

  lemma ValueCons(a: string, d: nat, s: string)
    requires Alphabet(a) && Over(a, s) && d < |a|
    ensures Over(a, [a[d]] + s) && Value(a, [a[d]] + s) == d + |a| * Value(a, s)
  {
    DigitAt(a, d);
    assert ([a[d]] + s)[1..] == s;
  }

  lemma CarryArithmetic(b: nat, v: nat, v': nat, n: nat)
    requires b > 0 && v < n && v' == if v + 1 == n then 0 else v + 1
    ensures b * v' == if (b - 1) + b * v + 1 == b * n then 0 else (b - 1) + b * v + 1
  {
    assert b * (v + 1) == b * v + b;
    if v + 1 != n {
      Scale(b, v + 2, n);
      assert b * (v + 2) == b * (v + 1) + b;
    }
  }

  lemma LastOrInner(a: string, s: string)
    requires Alphabet(a) && Over(a, s) && s != ""
    ensures s == [a[Digit(a, s[0])]] + s[1..]
    ensures Value(a, s) == Digit(a, s[0]) + |a| * Value(a, s[1..])
    ensures s[0] == a[|a| - 1] <==> Digit(a, s[0]) == |a| - 1
  {
    DigitAt(a, |a| - 1);
  }

  /** A fixed-length state advances by one, and wraps around after the last. */
  lemma {:induction false} SuccessorAdds(a: string, s: string)
    requires Alphabet(a) && Over(a, s)
    ensures |Successor(a, s, false)| == |s|
    ensures Value(a, Successor(a, s, false)) ==
            if Value(a, s) + 1 == Power(|a|, |s|) then 0 else Value(a, s) + 1
  {
    if s != "" {
      var d, rest, n := Digit(a, s[0]), Value(a, s[1..]), Power(|a|, |s| - 1);
      LastOrInner(a, s);
      ValueBound(a, s[1..]);
      if s[0] == a[|a| - 1] {
        SuccessorAdds(a, s[1..]);
        ValueCons(a, 0, Successor(a, s[1..], false));
        CarryArithmetic(|a|, rest, Value(a, Successor(a, s[1..], false)), n);
      } else {
        ValueCons(a, d + 1, s[1..]);
        DigitsBound(|a|, d + 1, rest, n);
      }
    }
  }

  // ---- growing length ----

  /** A string is determined by its rank. */
  lemma {:induction false} RankInjective(a: string, s: string, t: string)
    requires Over(a, s) && Over(a, t) && Rank(a, s) == Rank(a, t)
    ensures s == t
  {
    if s != "" && t != "" {
      DigitsUnique(|a|, Digit(a, s[0]), Rank(a, s[1..]), Digit(a, t[0]), Rank(a, t[1..]));
      RankInjective(a, s[1..], t[1..]);
      assert s == [s[0]] + s[1..] && t == [t[0]] + t[1..];
    }
  }

  lemma RankCons(a: string, d: nat, s: string)
    requires Alphabet(a) && Over(a, s) && d < |a|
    ensures Over(a, [a[d]] + s) && Rank(a, [a[d]] + s) == d + 1 + |a| * Rank(a, s)
  {
    DigitAt(a, d);
    assert ([a[d]] + s)[1..] == s;
  }

  lemma RankCarry(b: nat, v: nat)
    requires b > 0
    ensures 1 + b * (v + 1) == (b - 1) + 1 + b * v + 1
  {
  }

  /** A growing state advances by one in the list of all strings. */
  lemma {:induction false} SuccessorRanks(a: string, s: string)
    requires Alphabet(a) && Over(a, s)
    ensures Rank(a, Successor(a, s, true)) == Rank(a, s) + 1
  {
    if s == "" {
      RankCons(a, 0, "");
      assert [a[0]] + "" == [a[0]];
    } else {
      LastOrInner(a, s);
      if s[0] == a[|a| - 1] {
        SuccessorRanks(a, s[1..]);
        RankCons(a, 0, Successor(a, s[1..], true));
        RankCarry(|a|, Rank(a, s[1..]));
      } else {
        RankCons(a, Digit(a, s[0]) + 1, s[1..]);
      }
    }
  }

  // ---- runs ----

  /** The state after k calls of the generator. */
  function StateAfter(a: string, s: string, grow: bool, k: nat): (r: string)
    requires Alphabet(a) && Over(a, s)
    ensures Over(a, r)
  {
    if k == 0 then s else Successor(a, StateAfter(a, s, grow, k - 1), grow)
  }

  lemma {:induction false} StateAfterSum(a: string, s: string, grow: bool, j: nat, k: nat)
    requires Alphabet(a) && Over(a, s)
    ensures StateAfter(a, s, grow, j + k) == StateAfter(a, StateAfter(a, s, grow, j), grow, k)
  {
    if k > 0 {
      StateAfterSum(a, s, grow, j, k - 1);
    }
  }

  lemma {:induction false} ValueAfter(a: string, s: string, k: nat)
    requires Alphabet(a) && Over(a, s) && k < Power(|a|, |s|)
    ensures var n := Power(|a|, |s|);
            && |StateAfter(a, s, false, k)| == |s|
            && Value(a, StateAfter(a, s, false, k)) ==
               (if Value(a, s) + k < n then Value(a, s) + k else Value(a, s) + k - n)
  {
    ValueBound(a, s);
    if k > 0 {
      ValueAfter(a, s, k - 1);
      SuccessorAdds(a, StateAfter(a, s, false, k - 1));
    }
  }

  lemma SuccessorOfPredecessor(a: string, last: string, s: string)
    requires Alphabet(a) && Over(a, s) && Over(a, last) && |last| == |s|
    requires Value(a, last) + 1 == if Value(a, s) == 0 then Power(|a|, |s|) else Value(a, s)
    ensures Successor(a, last, false) == s
  {
    SuccessorAdds(a, last);
    ValueBound(a, s);
    ValueInjective(a, Successor(a, last, false), s);
  }

  /** In fixed-length mode the generator comes back to its state after exactly b^n calls. */
  lemma FixedPeriod(a: string, s: string)
    requires Alphabet(a) && Over(a, s)
    ensures StateAfter(a, s, false, Power(|a|, |s|)) == s
  {
    PowerPositive(|a|, |s|);
    PeriodIs(a, s, Power(|a|, |s|));
  }

  lemma PeriodIs(a: string, s: string, n: nat)
    requires Alphabet(a) && Over(a, s) && n == Power(|a|, |s|) > 0
    ensures StateAfter(a, s, false, n) == s
  {
    ValueAfter(a, s, n - 1);
    SuccessorOfPredecessor(a, StateAfter(a, s, false, n - 1), s);
  }

  lemma {:induction false} LengthAfter(a: string, s: string, k: nat)
    requires Alphabet(a) && Over(a, s)
    ensures |StateAfter(a, s, false, k)| == |s|
  {
    if k > 0 {
      LengthAfter(a, s, k - 1);
      SuccessorAdds(a, StateAfter(a, s, false, k - 1));
    }
  }

  /** Any b^n consecutive fixed-length states are different. */
  lemma FixedDistinct(a: string, s: string, i: nat, j: nat)
    requires Alphabet(a) && Over(a, s) && i < j < i + Power(|a|, |s|)
    ensures StateAfter(a, s, false, i) != StateAfter(a, s, false, j)
  {
    LengthAfter(a, s, i);
    StateAfterSum(a, s, false, i, j - i);
    NoEarlyReturn(a, StateAfter(a, s, false, i), j - i);
  }

  lemma NoEarlyReturn(a: string, s: string, k: nat)
    requires Alphabet(a) && Over(a, s) && 0 < k < Power(|a|, |s|)
    ensures StateAfter(a, s, false, k) != s
  {
    ValueAfter(a, s, k);
    ValueBound(a, s);
  }

  /** Every fixed-length state comes up within b^n calls. */
  lemma FixedExhausts(a: string, s: string, t: string) returns (k: nat)
    requires Alphabet(a) && Over(a, s) && Over(a, t) && |t| == |s|
    ensures 0 < k <= Power(|a|, |s|) && StateAfter(a, s, false, k) == t
  {
    var n := Power(|a|, |s|);
    ValueBound(a, s);
    ValueBound(a, t);
    var d := if Value(a, s) <= Value(a, t) then Value(a, t) - Value(a, s) else Value(a, t) + n - Value(a, s);
    if d == 0 {
      FixedPeriod(a, s);
      ValueInjective(a, s, t);
      k := n;
    } else {
      ValueAfter(a, s, d);
      ValueInjective(a, StateAfter(a, s, false, d), t);
      k := d;
    }
  }

  /** From any point of a run on, every fixed-length state comes up within b^n calls. */
  lemma ComesUpAgain(a: string, s: string, i: nat, t: string) returns (k: nat)
    requires Alphabet(a) && Over(a, s) && Over(a, t) && |t| == |s|
    ensures i < k <= i + Power(|a|, |s|) && StateAfter(a, s, false, k) == t
  {
    LengthAfter(a, s, i);
    var n := FixedExhausts(a, StateAfter(a, s, false, i), t);
    StateAfterSum(a, s, false, i, n);
    k := i + n;
  }

  lemma {:induction false} RankAfter(a: string, s: string, k: nat)
    requires Alphabet(a) && Over(a, s)
    ensures Rank(a, StateAfter(a, s, true, k)) == Rank(a, s) + k
  {
    if k > 0 {
      RankAfter(a, s, k - 1);
      SuccessorRanks(a, StateAfter(a, s, true, k - 1));
    }
  }

  /** In growing mode no state ever comes back. */
  lemma GrowingDistinct(a: string, s: string, i: nat, j: nat)
    requires Alphabet(a) && Over(a, s) && i < j
    ensures StateAfter(a, s, true, i) != StateAfter(a, s, true, j)
  {
    RankAfter(a, s, i);
    RankAfter(a, s, j);
  }

  /** In growing mode every non-empty string comes up, after as many calls as its rank says. */
  lemma GrowingExhausts(a: string, t: string)
    requires Alphabet(a) && Over(a, t)
    ensures StateAfter(a, "", true, Rank(a, t)) == t
  {
    RankAfter(a, "", Rank(a, t));
    RankInjective(a, StateAfter(a, "", true, Rank(a, t)), t);
  }

  // ---- the loop over the symbols ----

  lemma SymbolStep(a: string, s: string, grow: bool, i: nat)
    requires Alphabet(a) && Over(a, s) && i < |s|
    ensures Successor(a, s[i..], grow) ==
            if Digit(a, s[i]) == |a| - 1 then [a[0]] + Successor(a, s[i + 1..], grow)
            else [a[Digit(a, s[i]) + 1]] + s[i + 1..]
  {
    assert s[i..][1..] == s[i + 1..] && s[i..][0] == s[i];
    LastOrInner(a, s[i..]);
  }

  lemma SetSymbol(r: string, i: nat, c: char)
    requires i < |r|
    ensures r[i := c] == r[..i] + ([c] + r[i + 1..])
    ensures r[i := c][..i + 1] == r[..i] + [c] && r[i := c][i + 1..] == r[i + 1..]
  {
  }

  /** Rotating a state of equal symbols and overwriting the first with that symbol changes nothing. */
  lemma RotateUniform(r: string, c: char)
    requires r != "" && forall j :: 0 <= j < |r| ==> r[j] == c
    ensures ([r[|r| - 1]] + r[..|r| - 1])[0 := c] == r
  {
  }

  /** The first i symbols have wrapped, and the successor of the rest is still to be found. */
  ghost predicate Carried(a: string, s: string, grow: bool, r: string, i: nat)
    requires Alphabet(a) && Over(a, s)
  {
    && i <= |r| == |s|
    && (forall j :: 0 <= j < i ==> r[j] == a[0])
    && r[i..] == s[i..]
    && Successor(a, s, grow) == r[..i] + Successor(a, s[i..], grow)
  }

  lemma CarryOn(a: string, s: string, grow: bool, r: string, i: nat)
    requires Alphabet(a) && Over(a, s) && Carried(a, s, grow, r, i) && i < |s|
    ensures r[i] == s[i]
    ensures if Digit(a, s[i]) == |a| - 1 then Carried(a, s, grow, r[i := a[0]], i + 1)
            else Successor(a, s, grow) == r[i := a[Digit(a, s[i]) + 1]]
  {
    assert r[i] == r[i..][0] == s[i] && r[i + 1..] == r[i..][1..] == s[i + 1..];
    SymbolStep(a, s, grow, i);
    var d := Digit(a, s[i]);
    if d == |a| - 1 {
      SetSymbol(r, i, a[0]);
    } else {
      SetSymbol(r, i, a[d + 1]);
    }
  }

  /** One symbol after the other, until one does not wrap. */
  method UpdateState(alphabet: string, state: string, canGrow: bool) returns (r: string)
    requires Alphabet(alphabet) && Over(alphabet, state) && (canGrow || state != "")
    ensures r == Successor(alphabet, state, canGrow)
  {
    r := state;
    var i := 0;
    while i < |r|
      invariant Carried(alphabet, state, canGrow, r, i)
    {
      CarryOn(alphabet, state, canGrow, r, i);
      var it := Digit(alphabet, r[i]);
      if it == |alphabet| - 1 {
        r := r[i := alphabet[0]];
      } else {
        r := r[i := alphabet[it + 1]];
        return;
      }
      i := i + 1;
    }
    if canGrow {
      r := r + [alphabet[0]];
    } else {
      RotateUniform(r, alphabet[0]);
      r := [r[|r| - 1]] + r[..|r| - 1];
      r := r[0 := alphabet[0]];
    }
  }
}
