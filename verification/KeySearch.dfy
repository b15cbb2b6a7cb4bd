/**
 Searching a stream of keys: what a search finds, and exactly when it ends. The stream lists the keys
 a generator would hand out one by one.
 */
module KeySearch {
  import opened Sets

  type Stream = nat -> string

  /** The keys a search is after. */
  type Target = string -> bool

  ghost predicate Hit(stream: Stream, want: Target, k: nat) {
    want(stream(k))
  }

  /** The wanted keys after position i up to position j, in the order they come up. */
  ghost function Keys(stream: Stream, want: Target, i: nat, j: nat): seq<string> {
    if j <= i then []
    else if Hit(stream, want, j) then Keys(stream, want, i, j - 1) + [stream(j)]
    else Keys(stream, want, i, j - 1)
  }

  /** The different wanted keys after position i up to position j. */
  ghost function Found(stream: Stream, want: Target, i: nat, j: nat): set<string> {
    if j <= i then {}
    else if Hit(stream, want, j) then Found(stream, want, i, j - 1) + {stream(j)}
    else Found(stream, want, i, j - 1)
  }

  /** A search for one key ends. */
  ghost predicate Findable(stream: Stream, want: Target, i: nat) {
    exists k: nat :: i < k && Hit(stream, want, k)
  }

  /** A search for count keys ends. */
  ghost predicate Repeatable(stream: Stream, want: Target, i: nat, count: nat) {
    exists k: nat :: |Keys(stream, want, i, k)| >= count
  }

  /** A search for count different keys ends. */
  ghost predicate Plentiful(stream: Stream, want: Target, i: nat, count: nat) {
    exists k: nat :: |Found(stream, want, i, k)| >= count
  }

  /** None of the positions strictly between i and k will do. */
  ghost predicate Skipped(stream: Stream, want: Target, i: nat, k: nat) {
    forall m: nat :: i < m < k ==> !Hit(stream, want, m)
  }

  lemma {:induction false} NothingFound(stream: Stream, want: Target, i: nat, j: nat, k: nat)
    requires i <= j < k && Skipped(stream, want, j, k)
    ensures Keys(stream, want, i, k - 1) == Keys(stream, want, i, j)
    ensures Found(stream, want, i, k - 1) == Found(stream, want, i, j)
  {
    if j < k - 1 {
      NothingFound(stream, want, i, j, k - 1);
    }
  }

  /** A search resumed at position j adds exactly the key it stops at. */
  lemma Resume(stream: Stream, want: Target, i: nat, j: nat, k: nat)
    requires i <= j < k && Skipped(stream, want, j, k) && Hit(stream, want, k)
    ensures Keys(stream, want, i, k) == Keys(stream, want, i, j) + [stream(k)]
    ensures Found(stream, want, i, k) == Found(stream, want, i, j) + {stream(k)}
  {
    NothingFound(stream, want, i, j, k);
  }

  lemma {:induction false} FindsGrow(stream: Stream, want: Target, i: nat, j: nat, k: nat)
    requires j <= k
    ensures |Keys(stream, want, i, j)| <= |Keys(stream, want, i, k)|
    ensures Found(stream, want, i, j) <= Found(stream, want, i, k)
  {
    if j < k {
      FindsGrow(stream, want, i, j, k - 1);
    }
  }

  /** While something is missing from the goal, there is a hit to come. */
  lemma MoreToFind(stream: Stream, want: Target, i: nat, j: nat, goal: nat)
    requires i <= j
    requires || |Keys(stream, want, i, j)| < |Keys(stream, want, i, goal)|
             || |Found(stream, want, i, j)| < |Found(stream, want, i, goal)|
    ensures j < goal && Findable(stream, want, j)
  {
    if goal <= j {
      FindsGrow(stream, want, i, goal, j);
      SubsetSize(Found(stream, want, i, goal), Found(stream, want, i, j));
    } else if Skipped(stream, want, j, goal + 1) {
      NothingFound(stream, want, i, j, goal + 1);
    }
  }

  lemma {:induction false} FoundSpan(stream: Stream, want: Target, i: nat, j: nat, x: string)
    ensures x in Found(stream, want, i, j) <==> exists k: nat :: i < k <= j && Hit(stream, want, k) && stream(k) == x
    ensures x in Keys(stream, want, i, j) <==> x in Found(stream, want, i, j)
  {
    if i < j {
      FoundSpan(stream, want, i, j - 1, x);
      assert Hit(stream, want, j) || !Hit(stream, want, j);
    }
  }

  /** Where no key comes up twice, every hit finds a new one. */
  lemma {:induction false} FoundApart(stream: Stream, want: Target, i: nat, j: nat)
    requires i <= j
    requires forall k: nat :: i < k <= j ==> Hit(stream, want, k)
    requires forall k: nat, m: nat :: i < k < m <= j ==> stream(k) != stream(m)
    ensures |Found(stream, want, i, j)| == j - i
  {
    if i < j {
      FoundApart(stream, want, i, j - 1);
      FoundSpan(stream, want, i, j - 1, stream(j));
    }
  }

  /** Where hits never run out, any number of keys can be had. */
  lemma {:induction false} RecurringRepeatable(stream: Stream, want: Target, i: nat, count: nat)
    requires forall j: nat :: i <= j ==> Findable(stream, want, j)
    ensures exists k: nat :: i <= k && |Keys(stream, want, i, k)| >= count
  {
    if count == 0 {
      assert |Keys(stream, want, i, i)| >= count;
    } else {
      RecurringRepeatable(stream, want, i, count - 1);
      var j: nat :| i <= j && |Keys(stream, want, i, j)| >= count - 1;
      assert Findable(stream, want, j);
      var k: nat :| j < k && Hit(stream, want, k);
      FindsGrow(stream, want, i, j, k - 1);
      assert |Keys(stream, want, i, k)| >= count;
    }
  }

  /** Where no wanted key comes up twice, all keys found are different. */
  lemma {:induction false} NoneTwice(stream: Stream, want: Target, i: nat, j: nat)
    requires forall k: nat, m: nat :: i < k < m <= j ==> stream(k) != stream(m)
    ensures |Found(stream, want, i, j)| == |Keys(stream, want, i, j)|
  {
    if i < j {
      NoneTwice(stream, want, i, j - 1);
      if Hit(stream, want, j) {
        FoundSpan(stream, want, i, j - 1, stream(j));
      }
    }
  }

  // ---- a set of keys, as it is listed ----

  /** Lexicographic order. */
  predicate Less(a: string, b: string) {
    b != "" && (a == "" || a[0] < b[0] || (a[0] == b[0] && Less(a[1..], b[1..])))
  }

  lemma {:induction false} LessTotal(a: string, b: string)
    ensures !Less(a, a)
    ensures Less(a, b) || Less(b, a) || a == b
  {
    if a != "" {
      LessTotal(a[1..], if b == "" then "" else b[1..]);
      assert b != "" && a[0] == b[0] && a[1..] == b[1..] ==> a == [a[0]] + a[1..] && b == [b[0]] + b[1..];
    }
  }

  lemma {:induction false} LessTransitive(a: string, b: string, c: string)
    requires Less(a, b) && Less(b, c)
    ensures Less(a, c)
  {
    if a != "" && a[0] == b[0] == c[0] {
      LessTransitive(a[1..], b[1..], c[1..]);
    }
  }

  ghost predicate Sorted(keys: seq<string>) {
    forall i, j :: 0 <= i < j < |keys| ==> Less(keys[i], keys[j])
  }

  ghost function Elements(keys: seq<string>): set<string> {
    set k | k in keys
  }

  lemma {:induction false} SortedSize(keys: seq<string>)
    requires Sorted(keys)
    ensures |Elements(keys)| == |keys|
  {
    if keys != [] {
      var before, last := keys[..|keys| - 1], keys[|keys| - 1];
      SortedSize(before);
      forall i | 0 <= i < |before| ensures before[i] != last {
        LessTotal(last, last);
        assert Less(keys[i], keys[|keys| - 1]);
      }
      assert Elements(keys) == Elements(before) + {last};
    }
  }

  lemma PlacedSorted(keys: seq<string>, i: nat, key: string)
    requires Sorted(keys) && i <= |keys|
    requires forall j :: 0 <= j < i ==> Less(keys[j], key)
    requires i < |keys| ==> Less(key, keys[i])
    ensures Sorted(keys[..i] + [key] + keys[i..])
    ensures Elements(keys[..i] + [key] + keys[i..]) == Elements(keys) + {key}
  {
    var placed := keys[..i] + [key] + keys[i..];
    forall j | i <= j < |keys| ensures Less(key, keys[j]) {
      if i < j {
        LessTransitive(key, keys[i], keys[j]);
      }
    }
    assert keys == keys[..i] + keys[i..];
  }

  /** Inserting into an ordered set: a key that is there already changes nothing. */
  method Insert(keys: seq<string>, key: string) returns (r: seq<string>)
    requires Sorted(keys)
    ensures Sorted(r) && Elements(r) == Elements(keys) + {key}
    ensures |r| == |Elements(keys) + {key}|
  {
    var i := 0;
    while i < |keys| && Less(keys[i], key)
      invariant i <= |keys| && forall j :: 0 <= j < i ==> Less(keys[j], key)
    {
      i := i + 1;
    }
    if i < |keys| && keys[i] == key {
      r := keys;
    } else {
      if i < |keys| {
        LessTotal(keys[i], key);
      }
      PlacedSorted(keys, i, key);
      r := keys[..i] + [key] + keys[i..];
    }
    SortedSize(r);
  }
}
