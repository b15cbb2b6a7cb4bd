/** What holds in every run of the collection cache, and where the conditions on runs are needed. */
module CollectionsRuns {
  import opened Collections
  import opened CollectionsQueues
  import opened CollectionsTheorems

  // ---- what holds in every run ----

  /** With complete names a cached entry marked pending has an outstanding lookup, whatever else happens. */
  lemma PendingHasItsLookup(states: seq<State>, events: seq<Event>, i: nat, n: Name)
    requires Run(states, events) && AllNamed(events) && i <= |events| && n in states[i].cache
    ensures Structured(states[i])
    ensures states[i].entries[states[i].cache[n]].id.Pending? ==> HasLookup(states[i], states[i].cache[n])
  {
    RunAwaits(states, events, i);
  }

  /** While no reset clashes no entry has two lookups, and only cached entries have one. */
  lemma AtMostOneLookup(states: seq<State>, events: seq<Event>, i: nat, l: nat, m: nat)
    requires Run(states, events) && AllAllowed(states, events, true) && i <= |events|
    requires l in states[i].lookups && m in states[i].lookups
    ensures Structured(states[i]) && IsCached(states[i], states[i].lookups[l].entry)
    ensures states[i].lookups[l].entry == states[i].lookups[m].entry ==> l == m
  {
    RunInvariant(states, events, true, i);
  }

  /** No event is a lookup from outside. */
  ghost predicate Inside(events: seq<Event>) {
    forall i :: 0 <= i < |events| ==> !events[i].External?
  }

  lemma InsideIsAllowed(states: seq<State>, events: seq<Event>)
    requires Run(states, events) && AllNamed(events) && Inside(events)
    ensures AllAllowed(states, events, false)
  {
    forall i: nat | i < |events| ensures AllowedAt(states, events, i, false) {
      RunSound(states, events, i);
    }
  }

  /** If no lookup is started from outside, a cached entry is pending exactly when it has its one lookup. */
  lemma ExactlyOneLookup(states: seq<State>, events: seq<Event>, i: nat, n: Name)
    requires Run(states, events) && AllNamed(events) && Inside(events) && i <= |events| && n in states[i].cache
    ensures Structured(states[i])
    ensures states[i].entries[states[i].cache[n]].id.Pending? <==> HasLookup(states[i], states[i].cache[n])
    ensures Single(states[i])
  {
    InsideIsAllowed(states, events);
    RunInvariant(states, events, false, i);
  }

  /** While no reset clashes no request is ever sent on with a sentinel. */
  lemma NoSentinelSent(states: seq<State>, events: seq<Event>, i: nat)
    requires Run(states, events) && AllAllowed(states, events, true) && i <= |events|
    ensures Clean(states[i])
  {
    RunInvariant(states, events, true, i);
  }

  // ---- what the end of a lookup does ----

  /** A failed lookup drains its queue into the callbacks: each request that is not completed, once. */
  lemma FailureDrains(s: State, l: nat, notFound: bool, retried: bool)
    requires Sound(s) && l in s.lookups
    ensures var queue, t := s.entries[s.lookups[l].entry].queue, Step(s, Fail(l, notFound, retried));
            && t.entries[s.lookups[l].entry].queue == [] && t.sent == s.sent
            && t.failed == s.failed + Uncalled(queue, s.completed) && t.completed == s.completed + Members(queue)
            && NoRepeats(Uncalled(queue, s.completed))
            && forall r :: r in Uncalled(queue, s.completed) <==> r in queue && r !in s.completed
  {
    FailIs(s, l, notFound, retried);
    UncalledIs(s.entries[s.lookups[l].entry].queue, s.completed);
  }

  /** A lookup that succeeds sends its queue on with one identifier: exactly the requests whose body parses. */
  lemma SuccessDrains(s: State, l: nat, number: nat, unparsed: set<Request>)
    requires Structured(s) && l in s.lookups
    ensures var e, t := s.lookups[l].entry, Step(s, Succeed(l, number, unparsed));
            var forwards := Forwards(s.entries[e].queue, t.entries[e].id, unparsed);
            && t.entries[e].queue == [] && t.sent == s.sent + forwards
            && forall r :: Forward(r, t.entries[e].id) in forwards <==> r in s.entries[e].queue && r !in unparsed
  {
    var e, id := s.lookups[l].entry, Step(s, Succeed(l, number, unparsed)).entries[s.lookups[l].entry].id;
    forall r ensures Forward(r, id) in Forwards(s.entries[e].queue, id, unparsed) <==>
                       r in s.entries[e].queue && r !in unparsed {
      ForwardsAll(s.entries[e].queue, id, unparsed, r);
    }
  }

  /** The identifier sent is real if and only if the one looked up was cached for this very entry, or it had one. */
  lemma SentinelExactlyWhen(s: State, l: nat, number: nat, unparsed: set<Request>)
    requires Structured(s) && l in s.lookups
    ensures var e := s.lookups[l].entry;
            var asked := Asked(s.entries[e].name);
            Step(s, Succeed(l, number, unparsed)).entries[e].id.Known? <==>
              (asked in s.cache && s.cache[asked] == e) || s.entries[e].id.Known?
  {
  }

  /** Resetting the identifier does not disturb a pending entry: the request is queued or called back. */
  lemma StaleResetHarmless(s: State, n: Name, r: Request, full: bool, start: Start, parses: bool)
    requires Structured(s) && n in s.cache && s.entries[s.cache[n]].id.Pending?
    ensures Step(s, ReQueue(n, r, full, start, parses)) ==
            if Takes(s, r, full) then Push(s, s.cache[n], r) else CallBack(s, r)
  {
  }

  // ---- a reset that clashes ----

  /** Entry e has two lookups. */
  ghost predicate Doubled(s: State, n: Name, e: nat, first: nat, second: nat) {
    && Structured(s) && e < |s.entries| && s.entries[e].name == n && first != second
    && first in s.lookups && s.lookups[first].entry == e && second in s.lookups && s.lookups[second].entry == e
  }

  /** Entry e has left the cache, and still has a lookup. */
  ghost predicate Orphaned(s: State, n: Name, e: nat, l: nat) {
    && Structured(s) && e < |s.entries| && s.entries[e].name == n && n !in s.cache
    && l in s.lookups && s.lookups[l].entry == e
  }

  /** A request waits in entry e, which will not get the answer to its lookup. */
  ghost predicate Astray(s: State, e: nat, l: nat, q: Request) {
    && Structured(s) && e < |s.entries| && l in s.lookups && s.lookups[l].entry == e
    && !s.entries[e].id.Known? && q in s.entries[e].queue
    && (Asked(s.entries[e].name) in s.cache ==> s.cache[Asked(s.entries[e].name)] != e)
  }

  lemma ClashDoubles(s: State, n: Name, r: Request, q: Request) returns (first: nat)
    requires Sound(s) && Clashes(s, n) && Takes(s, r, false) && Takes(s, q, false) && r != q
    ensures var t := Step(s, ReQueue(n, r, false, Started, true));
            Doubled(t, n, s.cache[n], first, s.next) && Takes(t, q, false)
  {
    var e := s.cache[n];
    first :| first in s.lookups && s.lookups[first].entry == e;
    LaunchedIs(Reset(s, e), e, r);
    StepSound(s, ReQueue(n, r, false, Started, true));
  }

  lemma DoubledFails(s: State, n: Name, e: nat, first: nat, second: nat, q: Request)
    requires Sound(s) && Doubled(s, n, e, first, second) && Takes(s, q, false)
    ensures var t := Step(s, Fail(first, false, false));
            Orphaned(t, n, e, second) && Takes(t, q, false)
  {
    StepSound(s, Fail(first, false, false));
    assert q !in s.entries[e].queue;
  }

  /** A new entry for the name, and then the old one's lookup fails: that takes the new one out of the cache. */
  lemma OrphanStrikes(s: State, n: Name, e: nat, l: nat, q: Request)
    requires Sound(s) && Orphaned(s, n, e, l) && Takes(s, q, false)
    ensures var t := Step(s, Dispatch(n, q, false, Started, true));
            && Structured(t) && l in t.lookups
            && Astray(Step(t, Fail(l, false, false)), |s.entries|, s.next, q)
  {
    var dispatch := Dispatch(n, q, false, Started, true);
    var t := WithEntry(s, n, Unknown);
    LaunchedIs(t, |s.entries|, q);
    StepSound(s, dispatch);
    StepSound(Step(s, dispatch), Fail(l, false, false));
  }

  lemma AstraySends(s: State, e: nat, l: nat, q: Request, number: nat)
    requires Sound(s) && Astray(s, e, l, q)
    ensures !Clean(Step(s, Succeed(l, number, {})))
  {
    var t := Step(s, Succeed(l, number, {}));
    SuccessDrains(s, l, number, {});
    SentinelExactlyWhen(s, l, number, {});
    assert Forward(q, t.entries[e].id) in t.sent;
  }

  ghost predicate NoResets(events: seq<Event>) {
    AllNamed(events) && forall i :: 0 <= i < |events| ==> !events[i].ReQueue?
  }

  lemma RunDoubles(states: seq<State>, events: seq<Event>, n: Name, r: Request, q: Request)
    returns (states': seq<State>, e: nat, first: nat, second: nat)
    requires Run(states, events) && Structured(Last(states)) && Clashes(Last(states), n)
    requires Takes(Last(states), r, false) && Takes(Last(states), q, false) && r != q
    ensures Run(states', events + [ReQueue(n, r, false, Started, true)])
    ensures Doubled(Last(states'), n, e, first, second) && Takes(Last(states'), q, false)
  {
    var s := Last(states);
    RunSound(states, events, |events|);
    e, second := s.cache[n], s.next;
    first := ClashDoubles(s, n, r, q);
    var t := Step(s, ReQueue(n, r, false, Started, true));
    RunsOn(states, events, ReQueue(n, r, false, Started, true), t);
    states' := states + [t];
  }

  lemma RunOrphans(states: seq<State>, events: seq<Event>, n: Name, e: nat, first: nat, second: nat, q: Request)
    returns (states': seq<State>)
    requires Run(states, events) && Doubled(Last(states), n, e, first, second) && Takes(Last(states), q, false)
    ensures Run(states', events + [Fail(first, false, false)])
    ensures Orphaned(Last(states'), n, e, second) && Takes(Last(states'), q, false)
  {
    RunSound(states, events, |events|);
    DoubledFails(Last(states), n, e, first, second, q);
    var t := Step(Last(states), Fail(first, false, false));
    RunsOn(states, events, Fail(first, false, false), t);
    states' := states + [t];
  }

  lemma RunStrays(states: seq<State>, events: seq<Event>, n: Name, e: nat, l: nat, q: Request)
    returns (states': seq<State>, entry: nat, lookup: nat)
    requires Run(states, events) && Orphaned(Last(states), n, e, l) && Takes(Last(states), q, false)
    ensures Run(states', events + [Dispatch(n, q, false, Started, true)] + [Fail(l, false, false)])
    ensures Astray(Last(states'), entry, lookup, q)
  {
    var s := Last(states);
    RunSound(states, events, |events|);
    entry, lookup := |s.entries|, s.next;
    OrphanStrikes(s, n, e, l, q);
    var t := Step(s, Dispatch(n, q, false, Started, true));
    RunsOn(states, events, Dispatch(n, q, false, Started, true), t);
    var u := Step(t, Fail(l, false, false));
    RunsOn(states + [t], events + [Dispatch(n, q, false, Started, true)], Fail(l, false, false), u);
    states' := states + [t] + [u];
  }

  lemma RunSends(states: seq<State>, events: seq<Event>, e: nat, l: nat, q: Request, number: nat)
    returns (states': seq<State>)
    requires Run(states, events) && Astray(Last(states), e, l, q)
    ensures Run(states', events + [Succeed(l, number, {})]) && !Clean(Last(states'))
  {
    RunSound(states, events, |events|);
    AstraySends(Last(states), e, l, q, number);
    var t := Step(Last(states), Succeed(l, number, {}));
    RunsOn(states, events, Succeed(l, number, {}), t);
    states' := states + [t];
  }

  lemma Regroup(run: seq<Event>, a: Event, b: Event, c: Event, d: Event)
    ensures run + [a] + [b] + [c] + [d] == run + [a, b, c, d]
  {
  }

  /** What can follow a reset that clashes. */
  lemma ClashSends(states: seq<State>, events: seq<Event>, n: Name, r: Request, q: Request, number: nat)
    returns (states': seq<State>, more: seq<Event>)
    requires Run(states, events) && Complete(n) && Structured(Last(states)) && Clashes(Last(states), n)
    requires Takes(Last(states), r, false) && Takes(Last(states), q, false) && r != q
    ensures NoResets(more) && Run(states', events + [ReQueue(n, r, false, Started, true)] + more) &&
            !Clean(Last(states'))
  {
    var run := events + [ReQueue(n, r, false, Started, true)];
    var doubled, e, first, second := RunDoubles(states, events, n, r, q);
    var orphaned := RunOrphans(doubled, run, n, e, first, second, q);
    var strayed, entry, lookup := RunStrays(orphaned, run + [Fail(first, false, false)], n, e, second, q);
    var dispatch, fail := Dispatch(n, q, false, Started, true), Fail(second, false, false);
    var success := Succeed(lookup, number, {});
    states' := RunSends(strayed, run + [Fail(first, false, false)] + [dispatch] + [fail], entry, lookup, q, number);
    Regroup(run, Fail(first, false, false), dispatch, fail, success);
    more := [Fail(first, false, false), dispatch, fail, success];
  }

  lemma CommonNext(states: seq<State>, events: seq<Event>, states': seq<State>, events': seq<Event>, i: nat)
    requires Run(states, events) && Run(states', events') && events <= events'
    requires i < |events| && states'[i] == states[i]
    ensures states'[i + 1] == states[i + 1]
  {
    assert Follows(states, events, i) && Follows(states', events', i);
  }

  lemma {:induction false} CommonStates(states: seq<State>, events: seq<Event>, states': seq<State>,
                                        events': seq<Event>, i: nat)
    requires Run(states, events) && Run(states', events') && events <= events' && i <= |events|
    ensures states'[i] == states[i]
  {
    if i > 0 {
      CommonStates(states, events, states', events', i - 1);
      CommonNext(states, events, states', events', i - 1);
    }
  }

  /** A run that goes on from one without clashes, with a reset that does not clash and then none, has none. */
  lemma LaterAllowed(states: seq<State>, events: seq<Event>, reset: Event, more: seq<Event>, states': seq<State>)
    requires Run(states, events) && AllAllowed(states, events, true) && Run(states', events + [reset] + more)
    requires reset.ReQueue? && Complete(reset.name) && NoResets(more)
    requires Structured(Last(states)) && !Clashes(Last(states), reset.name)
    ensures AllAllowed(states', events + [reset] + more, true)
  {
    var events' := events + [reset] + more;
    forall i: nat | i < |events'| ensures AllowedAt(states', events', i, true) {
      RunSound(states', events', i);
      if i <= |events| {
        CommonStates(states, events, states', events', i);
      }
      if i < |events| {
        assert AllowedAt(states, events, i, true);
      }
    }
  }

  /** A sentinel is sent in a run that goes on with this reset and then without one. */
  ghost predicate CanSend(events: seq<Event>, reset: Event) {
    exists states, more :: NoResets(more) && Run(states, events + [reset] + more) && !Clean(Last(states))
  }

  /**
   After a run without clashes, a reset can lead to a sentinel being sent, with no further reset, if and
   only if it clashes.
   */
  lemma SentinelExactlyAfterClash(states: seq<State>, events: seq<Event>, n: Name, r: Request, q: Request)
    requires Run(states, events) && AllAllowed(states, events, true) && Complete(n)
    requires Takes(Last(states), r, false) && Takes(Last(states), q, false) && r != q
    ensures Structured(Last(states))
    ensures Clashes(Last(states), n) <==> CanSend(events, ReQueue(n, r, false, Started, true))
  {
    RunSound(states, events, |events|);
    var reset := ReQueue(n, r, false, Started, true);
    if Clashes(Last(states), n) {
      var states', more := ClashSends(states, events, n, r, q, 0);
    } else {
      forall states', more | NoResets(more) && Run(states', events + [reset] + more) ensures Clean(Last(states')) {
        LaterAllowed(states, events, reset, more, states');
        NoSentinelSent(states', events + [reset] + more, |events| + 1 + |more|);
      }
    }
  }

  // ---- a name that is not complete ----

  /** The first request for a name starts a lookup. */
  lemma FirstDispatch(n: Name, r: Request) returns (states: seq<State>, events: seq<Event>)
    ensures Run(states, events) && (Complete(n) ==> AllNamed(events))
    ensures Last(states) == State([Entry(n, Pending, [r])], map[n := 0], map[0 := Lookup(0, r)], 1, map[r := 0], {},
                                  [], [])
  {
    var dispatch := Dispatch(n, r, false, Started, true);
    var t := WithEntry(INITIAL, n, Unknown);
    assert t.entries == [Entry(n, Unknown, [])];
    LaunchedIs(t, 0, r);
    assert [] + [r] == [r];
    RunsOn([INITIAL], [], dispatch, Step(INITIAL, dispatch));
    states, events := [INITIAL] + [Step(INITIAL, dispatch)], [] + [dispatch];
  }

  /** Such a reset can come up: after a lookup from outside has answered for a pending entry. */
  lemma ResetAfterExternalSendsSentinel(n: Name, first: Request, r: Request, q: Request, number: nat)
    returns (states: seq<State>, events: seq<Event>)
    requires Complete(n) && first != r && first != q && r != q
    ensures Run(states, events) && AllNamed(events) && !Clean(Last(states))
  {
    states, events := FirstDispatch(n, first);
    var s := Last(states);
    var t := Step(s, External(n, number));
    RunsOn(states, events, External(n, number), t);
    assert t == State([Entry(n, Known(number), [first])], map[n := 0], map[0 := Lookup(0, first)], 1, map[first := 0],
                      {}, [], []);
    assert HasLookup(t, 0) by {
      assert 0 in t.lookups && t.lookups[0].entry == 0;
    }
    var more;
    var known := events + [External(n, number)];
    states, more := ClashSends(states + [t], known, n, r, q, number);
    events := known + [ReQueue(n, r, false, Started, true)] + more;
  }

  /** With one of the names empty the answer is cached under another name, and a sentinel is sent. */
  lemma IncompleteNameSendsSentinel(n: Name, r: Request, number: nat) returns (states: seq<State>, events: seq<Event>)
    requires (n.scope == "") != (n.collection == "")
    ensures Run(states, events) && !Clean(Last(states))
  {
    states, events := FirstDispatch(n, r);
    assert Asked(n) != n;
    states := RunSends(states, events, 0, 0, r, number);
    events := events + [Succeed(0, number, {})];
  }

  /** The entry for this name is pending, and no lookup is for an entry of that name. */
  ghost predicate Stuck(s: State, n: Name)
    requires Structured(s)
  {
    && n in s.cache && s.entries[s.cache[n]].id.Pending?
    && forall l :: l in s.lookups ==> s.entries[s.lookups[l].entry].name != n
  }

  /** The entry stays as it is, but for its queue, which may grow. */
  ghost predicate Remains(s: State, t: State, n: Name)
    requires Structured(s) && n in s.cache
  {
    && Structured(t) && Stuck(t, n) && t.cache[n] == s.cache[n]
    && s.entries[s.cache[n]].queue <= t.entries[t.cache[n]].queue
  }

  lemma Untouched(s: State, t: State, n: Name)
    requires Structured(s) && Stuck(s, n) && Structured(t) && n in t.cache && t.cache[n] == s.cache[n]
    requires |s.entries| <= |t.entries| && forall i :: 0 <= i < |s.entries| ==> t.entries[i].name == s.entries[i].name
    requires t.entries[s.cache[n]].id.Pending? && s.entries[s.cache[n]].queue <= t.entries[s.cache[n]].queue
    requires forall l :: l in t.lookups ==>
               (l in s.lookups && t.lookups[l] == s.lookups[l]) || t.entries[t.lookups[l].entry].name != n
    ensures Remains(s, t, n)
  {
    forall l | l in t.lookups ensures t.entries[t.lookups[l].entry].name != n {
      if l in s.lookups && t.lookups[l] == s.lookups[l] {
        assert s.entries[s.lookups[l].entry].name != n;
      }
    }
  }

  lemma RemainsTwice(s: State, t: State, u: State, n: Name)
    requires Structured(s) && n in s.cache && Remains(s, t, n) && Remains(t, u, n)
    ensures Remains(s, u, n)
  {
  }

  lemma StuckPush(s: State, n: Name, i: nat, q: Request)
    requires Structured(s) && Stuck(s, n) && i < |s.entries|
    ensures Remains(s, Push(s, i, q), n)
  {
    Untouched(s, Push(s, i, q), n);
  }

  lemma StuckSent(s: State, n: Name, sent: seq<Forward>)
    requires Structured(s) && Stuck(s, n)
    ensures Remains(s, s.(sent := sent), n)
  {
    Untouched(s, s.(sent := sent), n);
  }

  lemma StuckUpsert(s: State, n: Name, m: Name, id: Id)
    requires Structured(s) && Stuck(s, n) && m != n
    ensures Remains(s, Upsert(s, m, id), n) && |Upsert(s, m, id).entries| >= |s.entries|
    ensures forall i :: 0 <= i < |s.entries| ==> Upsert(s, m, id).entries[i].name == s.entries[i].name
  {
    if m !in s.cache {
      AppendedShape(s, m, id);
    }
    Untouched(s, Upsert(s, m, id), n);
  }

  lemma StuckDrain(s: State, n: Name, i: nat)
    requires Structured(s) && Stuck(s, n) && i < |s.entries| && i != s.cache[n]
    ensures Remains(s, Drain(s, i), n)
  {
    Untouched(s, Drain(s, i), n);
  }

  lemma StuckLaunched(s: State, n: Name, i: nat, q: Request)
    requires Structured(s) && Stuck(s, n) && i < |s.entries| && s.entries[i].name != n
    ensures Remains(s, Launched(s, i, q), n)
  {
    Untouched(s, Launched(s, i, q), n);
  }

  lemma StuckFailing(s: State, n: Name, i: nat, id: Id)
    requires Structured(s) && Stuck(s, n) && i < |s.entries| && s.entries[i].name != n
    ensures Remains(s, SetId(Failing(s, i), i, id), n)
  {
    Untouched(s, SetId(Failing(s, i), i, id), n);
  }

  lemma StuckUnknown(s: State, n: Name, i: nat, q: Request, start: Start)
    requires Structured(s) && Stuck(s, n) && i < |s.entries| && s.entries[i].name != n && s.entries[i].id.Unknown?
    requires Takes(s, q, false)
    ensures Remains(s, Dispatching(s, i, q, false, start, true).0, n)
  {
    match start
    case Started =>
      LaunchedIs(s, i, q);
      StuckLaunched(s, n, i, q);
    case Refused =>
      StuckPush(s, n, i, q);
    case CalledBack =>
      StuckPush(s, n, i, q);
      StuckFailing(Push(s, i, q), n, i, Unknown);
      RemainsTwice(s, Push(s, i, q), SetId(Failing(Push(s, i, q), i), i, Unknown), n);
  }

  lemma StuckDispatching(s: State, n: Name, i: nat, q: Request, full: bool, start: Start, parses: bool)
    requires Sound(s) && Stuck(s, n) && i < |s.entries| && (s.entries[i].name == n ==> i == s.cache[n])
    ensures Remains(s, Dispatching(s, i, q, full, start, parses).0, n)
  {
    match s.entries[i].id
    case Unknown =>
      if Takes(s, q, full) {
        StuckUnknown(s, n, i, q, start);
      }
    case Pending =>
      StuckPush(s, n, i, q);
    case Known(number) =>
      StuckSent(s, n, s.sent + [Forward(q, Known(number))]);
  }

  lemma StuckWithEntry(s: State, n: Name, m: Name)
    requires Sound(s) && Stuck(s, n)
    ensures var w := WithEntry(s, m, Unknown);
            Sound(w) && Remains(s, w, n) && m in w.cache && w.cache[m] < |w.entries|
  {
    WithEntrySound(s, m, Unknown);
    if m !in s.cache {
      StuckUpsert(s, n, m, Unknown);
    }
  }

  lemma StuckReset(s: State, n: Name, m: Name)
    requires Sound(s) && Stuck(s, n) && m in s.cache
    ensures Sound(Reset(s, s.cache[m])) && Remains(s, Reset(s, s.cache[m]), n)
  {
    ResetSound(s, s.cache[m]);
    if m != n {
      StuckUpsert(s, n, m, Unknown);
    }
  }

  lemma StuckDispatch(s: State, n: Name, m: Name, q: Request, full: bool, start: Start, parses: bool)
    requires Sound(s) && Stuck(s, n)
    ensures Remains(s, Step(s, Dispatch(m, q, full, start, parses)), n)
  {
    StuckWithEntry(s, n, m);
    var w := WithEntry(s, m, Unknown);
    StuckDispatching(w, n, w.cache[m], q, full, start, parses);
    RemainsTwice(s, w, Dispatching(w, w.cache[m], q, full, start, parses).0, n);
  }

  lemma CallBackRemains(s: State, t: State, r: Request, n: Name)
    requires Structured(s) && n in s.cache && Remains(s, t, n)
    ensures Remains(s, CallBack(t, r), n)
  {
  }

  lemma StuckReQueue(s: State, n: Name, m: Name, q: Request, full: bool, start: Start, parses: bool)
    requires Sound(s) && Stuck(s, n)
    ensures Remains(s, Step(s, ReQueue(m, q, full, start, parses)), n)
  {
    StuckWithEntry(s, n, m);
    var v := WithEntry(s, m, Unknown);
    StuckReset(v, n, m);
    var i, w := v.cache[m], Reset(v, v.cache[m]);
    StuckDispatching(w, n, i, q, full, start, parses);
    var t := Dispatching(w, i, q, full, start, parses).0;
    RemainsTwice(s, v, w, n);
    RemainsTwice(s, w, t, n);
    CallBackRemains(s, t, q, n);
  }

  lemma StuckSucceeding(s: State, n: Name, i: nat, number: nat, unparsed: set<Request>)
    requires Structured(s) && Stuck(s, n) && !Complete(n) && i < |s.entries| && s.entries[i].name != n
    ensures Remains(s, Succeeding(s, i, number, unparsed), n)
  {
    var asked := Asked(s.entries[i].name);
    assert asked != n;
    StuckUpsert(s, n, asked, Known(number));
    var known := Upsert(s, asked, Known(number));
    StuckDrain(known, n, i);
    RemainsTwice(s, known, Drain(known, i), n);
    StuckSent(Drain(known, i), n, Succeeding(s, i, number, unparsed).sent);
    RemainsTwice(s, Drain(known, i), Succeeding(s, i, number, unparsed), n);
  }

  lemma StuckSucceed(s: State, n: Name, l: nat, number: nat, unparsed: set<Request>)
    requires Structured(s) && Stuck(s, n) && !Complete(n) && l in s.lookups
    ensures Remains(s, Step(s, Succeed(l, number, unparsed)), n)
  {
    var t := s.(lookups := s.lookups - {l});
    Untouched(s, t, n);
    StuckSucceeding(t, n, s.lookups[l].entry, number, unparsed);
    RemainsTwice(s, t, Step(s, Succeed(l, number, unparsed)), n);
  }

  lemma StuckFail(s: State, n: Name, l: nat, notFound: bool, retried: bool)
    requires Sound(s) && Stuck(s, n) && l in s.lookups
    ensures Remains(s, Step(s, Fail(l, notFound, retried)), n)
  {
    StepSound(s, Fail(l, notFound, retried));
    FailIs(s, l, notFound, retried);
    Untouched(s, Step(s, Fail(l, notFound, retried)), n);
  }

  lemma StuckExternal(s: State, n: Name, m: Name, number: nat)
    requires Structured(s) && Stuck(s, n) && !Complete(n)
    ensures Remains(s, Step(s, External(m, number)), n)
  {
    assert Asked(m) != n;
    StuckUpsert(s, n, Asked(m), Known(number));
  }

  /** No event gets the entry of such a name out of it, and its queue only grows. */
  lemma StuckStays(s: State, n: Name, ev: Event)
    requires Sound(s) && Stuck(s, n) && !Complete(n) && Enabled(s, ev)
    ensures Remains(s, Step(s, ev), n)
  {
    match ev
    case Dispatch(m, q, full, start, parses) =>
      StuckDispatch(s, n, m, q, full, start, parses);
    case ReQueue(m, q, full, start, parses) =>
      StuckReQueue(s, n, m, q, full, start, parses);
    case Succeed(l, number, unparsed) =>
      StuckSucceed(s, n, l, number, unparsed);
    case Fail(l, notFound, retried) =>
      StuckFail(s, n, l, notFound, retried);
    case External(m, number) =>
      StuckExternal(s, n, m, number);
    case Cancel(q) =>
      CancelIs(s, q);
      CallBackRemains(s, s, q, n);
  }

  lemma StuckNext(states: seq<State>, events: seq<Event>, i: nat, n: Name, r: Request)
    requires Run(states, events) && i < |events| && !Complete(n)
    requires Structured(states[i]) && Stuck(states[i], n) && r in states[i].entries[states[i].cache[n]].queue
    ensures Structured(states[i + 1]) && Stuck(states[i + 1], n)
    ensures r in states[i + 1].entries[states[i + 1].cache[n]].queue
  {
    RunSound(states, events, i);
    assert Follows(states, events, i);
    StuckStays(states[i], n, events[i]);
  }

  lemma {:induction false} StuckForEver(states: seq<State>, events: seq<Event>, i: nat, j: nat, n: Name, r: Request)
    requires Run(states, events) && i <= j <= |events| && !Complete(n)
    requires Structured(states[i]) && Stuck(states[i], n) && r in states[i].entries[states[i].cache[n]].queue
    ensures Structured(states[j]) && Stuck(states[j], n) && r in states[j].entries[states[j].cache[n]].queue
  {
    if i < j {
      StuckForEver(states, events, i, j - 1, n, r);
      StuckNext(states, events, j - 1, n, r);
    }
  }

  lemma AnsweredElsewhere(s: State, n: Name, r: Request, q: Request, number: nat)
    requires s == State([Entry(n, Pending, [r])], map[n := 0], map[0 := Lookup(0, r)], 1, map[r := 0], {}, [], [])
    requires Asked(n) != n && r != q && Sound(s)
    ensures var t := Step(s, Succeed(0, number, {}));
            && Sound(t)
            && var u := Step(t, Dispatch(n, q, false, Started, true));
               Structured(u) && u.lookups == map[] && Stuck(u, n) && q in u.entries[u.cache[n]].queue
  {
    StepSound(s, Succeed(0, number, {}));
    var t := Step(s, Succeed(0, number, {}));
    assert t.entries[0] == Entry(n, Pending, []) && n in t.cache && t.cache[n] == 0 && t.lookups == map[];
    assert Takes(t, q, false);
    StepSound(t, Dispatch(n, q, false, Started, true));
  }

  /** The request waits in the cached entry of that name, which is pending and has no lookup. */
  ghost predicate WaitsIn(s: State, n: Name, q: Request) {
    Structured(s) && Stuck(s, n) && !HasLookup(s, s.cache[n]) && q in s.entries[s.cache[n]].queue
  }

  lemma WaitsForEver(states: seq<State>, events: seq<Event>, states': seq<State>, events': seq<Event>, n: Name,
                     q: Request)
    requires Run(states, events) && Run(states', events') && events <= events' && !Complete(n) &&
             WaitsIn(Last(states), n, q)
    ensures WaitsIn(Last(states'), n, q)
  {
    CommonStates(states, events, states', events', |events|);
    StuckForEver(states', events', |events|, |events'|, n, q);
  }

  lemma RunSticks(n: Name, r: Request, q: Request, number: nat) returns (states: seq<State>, events: seq<Event>)
    requires (n.scope == "") != (n.collection == "") && r != q
    ensures Run(states, events) && Last(states).lookups == map[] && WaitsIn(Last(states), n, q)
  {
    var first, dispatched := FirstDispatch(n, r);
    var success, dispatch := Succeed(0, number, {}), Dispatch(n, q, false, Started, true);
    assert Asked(n) != n;
    RunSound(first, dispatched, |dispatched|);
    AnsweredElsewhere(Last(first), n, r, q, number);
    var t := Step(Last(first), success);
    var u := Step(t, dispatch);
    RunsOn(first, dispatched, success, t);
    RunsOn(first + [t], dispatched + [success], dispatch, u);
    states, events := first + [t] + [u], dispatched + [success] + [dispatch];
  }

  /**
   With one of the names empty the entry stays pending without a lookup once the answer has come: a
   request that comes then waits for ever, whatever follows.
   */
  lemma IncompleteNameNeverWakes(n: Name, r: Request, q: Request, number: nat)
    returns (states: seq<State>, events: seq<Event>)
    requires (n.scope == "") != (n.collection == "") && r != q
    ensures Run(states, events) && Last(states).lookups == map[]
    ensures forall states', events' :: Run(states', events') && events <= events' ==> WaitsIn(Last(states'), n, q)
  {
    states, events := RunSticks(n, r, q, number);
    forall states', events' | Run(states', events') && events <= events' ensures WaitsIn(Last(states'), n, q) {
      WaitsForEver(states, events, states', events', n, q);
    }
  }
}
