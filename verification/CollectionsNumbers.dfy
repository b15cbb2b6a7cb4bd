/** Which number a request is sent with: the latest that was brought for its collection. */
module CollectionsNumbers {
  import opened Options
  import opened Collections
  import opened CollectionsQueues
  import opened CollectionsTheorems

  // ---- what each event sends ----

  lemma DispatchingSends(s: State, e: nat, r: Request, full: bool, start: Start, parses: bool)
    requires e < |s.entries|
    ensures Dispatching(s, e, r, full, start, parses).0.sent ==
            if s.entries[e].id.Known? && parses then s.sent + [Forward(r, Known(s.entries[e].id.number))] else s.sent
  {
  }

  lemma ReQueueIs(s: State, n: Name, r: Request, full: bool, start: Start, parses: bool)
    requires Structured(s)
    ensures var t := WithEntry(s, n, Unknown);
            && n in t.cache && t.cache[n] < |t.entries|
            && var u := Dispatching(Reset(t, t.cache[n]), t.cache[n], r, full, start, parses);
               Step(s, ReQueue(n, r, full, start, parses)) == if u.1 then u.0 else CallBack(u.0, r)
  {
  }

  /** A dispatch sends the request with the number that is cached for its name, if there is one and the body parses. */
  lemma DispatchSends(s: State, n: Name, r: Request, full: bool, start: Start, parses: bool)
    requires Structured(s)
    ensures var known := n in s.cache && s.entries[s.cache[n]].id.Known?;
            Step(s, Dispatch(n, r, full, start, parses)).sent ==
            if known && parses then s.sent + [Forward(r, Known(s.entries[s.cache[n]].id.number))] else s.sent
  {
  }

  /** A reset forgets the number first, so that nothing is sent. */
  lemma ReQueueSendsNothing(s: State, n: Name, r: Request, full: bool, start: Start, parses: bool)
    requires Structured(s)
    ensures Step(s, ReQueue(n, r, full, start, parses)).sent == s.sent
  {
    var t := WithEntry(s, n, Unknown);
    ReQueueIs(s, n, r, full, start, parses);
    DispatchingSends(Reset(t, t.cache[n]), t.cache[n], r, full, start, parses);
  }

  lemma OthersSendNothing(s: State, ev: Event)
    requires Sound(s) && Enabled(s, ev) && (ev.Fail? || ev.External? || ev.Cancel?)
    ensures Step(s, ev).sent == s.sent
  {
    if ev.Fail? {
      FailIs(s, ev.lookup, ev.notFound, ev.retried);
    } else if ev.Cancel? {
      CancelIs(s, ev.request);
    }
  }

  /** Where every body parses, the whole queue is sent, in its order. */
  lemma {:induction false} ForwardsWhole(queue: seq<Request>, id: Id, i: nat)
    requires i < |queue|
    ensures |Forwards(queue, id, {})| == |queue| && Forwards(queue, id, {})[i] == Forward(queue[i], id)
  {
    if |queue| > 1 {
      ForwardsWhole(queue[..|queue| - 1], id, if i < |queue| - 1 then i else 0);
    }
  }

  /** The number looked up is cached for the name asked for, and no other entry changes its number. */
  lemma SuccessCaches(s: State, l: nat, number: nat, unparsed: set<Request>)
    requires Structured(s) && l in s.lookups
    ensures var e, t := s.lookups[l].entry, Step(s, Succeed(l, number, unparsed));
            var asked := Asked(s.entries[e].name);
            && asked in t.cache && t.entries[t.cache[asked]].id == Known(number)
            && (asked in s.cache ==> t.cache == s.cache)
            && (asked !in s.cache ==> t.cache == s.cache[asked := |s.entries|])
            && forall i :: 0 <= i < |s.entries| && !(asked in s.cache && s.cache[asked] == i) ==>
                             t.entries[i].id == s.entries[i].id
  {
  }

  /** In any state: the queue is sent with the number looked up if and only if that was cached for this very entry. */
  lemma QueueNumberExactly(s: State, l: nat, number: nat, unparsed: set<Request>)
    requires Structured(s) && l in s.lookups
    ensures var e, t := s.lookups[l].entry, Step(s, Succeed(l, number, unparsed));
            var asked := Asked(s.entries[e].name);
            && t.sent == s.sent + Forwards(s.entries[e].queue, t.entries[e].id, unparsed)
            && (t.entries[e].id == Known(number) <==>
                (asked in s.cache && s.cache[asked] == e) || s.entries[e].id == Known(number))
  {
    SuccessCaches(s, l, number, unparsed);
  }

  // ---- what was brought ----

  /** m is n with the default in place of a part that is empty. */
  predicate Fills(n: Name, m: Name) {
    && (if n.scope == "" then m.scope == "_default" else m.scope == n.scope)
    && (if n.collection == "" then m.collection == "_default" else m.collection == n.collection)
  }

  lemma AskedFills(n: Name, m: Name)
    ensures Fills(n, m) <==> m == Asked(n)
  {
  }

  /** The name and the number that a lookup, ours or one from outside, has brought. */
  ghost function Brings(s: State, ev: Event): Option<(Name, nat)> {
    match ev
    case Succeed(l, number, _) =>
      if l in s.lookups && s.lookups[l].entry < |s.entries| then Some((s.entries[s.lookups[l].entry].name, number))
      else None
    case External(n, number) => Some((n, number))
    case _ => None
  }

  type Numbers = Name -> Option<nat>

  /** What is known once the event has happened. */
  ghost predicate Learns(s: State, ev: Event, before: Numbers, after: Numbers) {
    forall m :: after(m) == (if Brings(s, ev).Some? && Fills(Brings(s, ev).value.0, m)
                             then Some(Brings(s, ev).value.1) else before(m))
  }

  /** Every number cached is the latest brought for its name. */
  ghost predicate UpToDate(s: State, latest: Numbers)
    requires Structured(s)
  {
    forall n :: n in s.cache && s.entries[s.cache[n]].id.Known? ==>
                  latest(n) == Some(s.entries[s.cache[n]].id.number)
  }

  /** No entry gets a number that it did not have under the same name. */
  ghost predicate NoneNew(s: State, t: State)
    requires Structured(s) && Structured(t)
  {
    forall n :: n in t.cache && t.entries[t.cache[n]].id.Known? ==>
                  n in s.cache && s.entries[s.cache[n]].id == t.entries[t.cache[n]].id
  }

  lemma NoneNewTwice(s: State, t: State, u: State)
    requires Structured(s) && Structured(t) && Structured(u) && NoneNew(s, t) && NoneNew(t, u)
    ensures NoneNew(s, u)
  {
  }

  lemma KeptUpToDate(s: State, t: State, latest: Numbers)
    requires Structured(s) && Structured(t) && UpToDate(s, latest) && NoneNew(s, t)
    ensures UpToDate(t, latest)
  {
  }

  lemma WithEntryNew(s: State, n: Name)
    requires Sound(s)
    ensures var t := WithEntry(s, n, Unknown); Sound(t) && n in t.cache && NoneNew(s, t)
  {
    WithEntrySound(s, n, Unknown);
  }

  lemma DispatchingNew(s: State, e: nat, r: Request, full: bool, start: Start, parses: bool)
    requires Sound(s) && e < |s.entries|
    ensures var t := Dispatching(s, e, r, full, start, parses).0; Sound(t) && NoneNew(s, t)
  {
    DispatchingSound(s, e, r, full, start, parses);
    DispatchingIds(s, e, r, full, start, parses);
  }

  /** Nothing is added to the cache, and no entry but e changes, which does not get a number. */
  ghost predicate OnlyHere(s: State, t: State, e: nat)
    requires e < |s.entries|
  {
    && |t.entries| == |s.entries| && (forall n :: n in t.cache ==> n in s.cache && t.cache[n] == s.cache[n])
    && (forall i :: 0 <= i < |s.entries| && i != e ==> t.entries[i] == s.entries[i])
    && t.entries[e].name == s.entries[e].name
    && (t.entries[e].id.Known? ==> t.entries[e].id == s.entries[e].id)
  }

  lemma StartIds(s: State, e: nat, r: Request, start: Start)
    requires e < |s.entries| && s.entries[e].id.Unknown? && Takes(s, r, false)
    ensures OnlyHere(s, Dispatching(s, e, r, false, start, true).0, e)
  {
    match start
    case Started => LaunchedIs(s, e, r);
    case Refused =>
    case CalledBack =>
  }

  lemma DispatchingIds(s: State, e: nat, r: Request, full: bool, start: Start, parses: bool)
    requires e < |s.entries|
    ensures OnlyHere(s, Dispatching(s, e, r, full, start, parses).0, e)
  {
    if s.entries[e].id.Unknown? && Takes(s, r, full) {
      StartIds(s, e, r, start);
    }
  }

  lemma ResetNew(s: State, e: nat)
    requires Sound(s) && e < |s.entries|
    ensures Sound(Reset(s, e)) && NoneNew(s, Reset(s, e))
  {
    ResetSound(s, e);
  }

  lemma DispatchNew(s: State, n: Name, r: Request, full: bool, start: Start, parses: bool)
    requires Sound(s)
    ensures var t := Step(s, Dispatch(n, r, full, start, parses)); Structured(t) && NoneNew(s, t)
  {
    WithEntryNew(s, n);
    var t := WithEntry(s, n, Unknown);
    DispatchingNew(t, t.cache[n], r, full, start, parses);
    NoneNewTwice(s, t, Dispatching(t, t.cache[n], r, full, start, parses).0);
  }

  lemma CallBackNew(s: State, t: State, r: Request)
    requires Structured(s) && Structured(t) && NoneNew(s, t)
    ensures Structured(CallBack(t, r)) && NoneNew(s, CallBack(t, r))
  {
  }

  lemma ReQueueNew(s: State, n: Name, r: Request, full: bool, start: Start, parses: bool)
    requires Sound(s)
    ensures var t := Step(s, ReQueue(n, r, full, start, parses)); Structured(t) && NoneNew(s, t)
  {
    WithEntryNew(s, n);
    var t := WithEntry(s, n, Unknown);
    ResetNew(t, t.cache[n]);
    var u := Reset(t, t.cache[n]);
    NoneNewTwice(s, t, u);
    DispatchingNew(u, t.cache[n], r, full, start, parses);
    var v := Dispatching(u, t.cache[n], r, full, start, parses).0;
    NoneNewTwice(s, u, v);
    CallBackNew(s, v, r);
    ReQueueIs(s, n, r, full, start, parses);
  }

  lemma FailNew(s: State, l: nat, notFound: bool, retried: bool)
    requires Sound(s) && l in s.lookups
    ensures var t := Step(s, Fail(l, notFound, retried)); Structured(t) && NoneNew(s, t)
  {
    FailSound(s, l, notFound, retried);
    FailIs(s, l, notFound, retried);
  }

  lemma SucceedLearns(s: State, l: nat, number: nat, unparsed: set<Request>, before: Numbers, after: Numbers)
    requires Sound(s) && l in s.lookups && UpToDate(s, before)
    requires Learns(s, Succeed(l, number, unparsed), before, after)
    ensures var t := Step(s, Succeed(l, number, unparsed)); Structured(t) && UpToDate(t, after)
  {
    var ev := Succeed(l, number, unparsed);
    StepSound(s, ev);
    SuccessCaches(s, l, number, unparsed);
    var t, asked := Step(s, ev), Asked(s.entries[s.lookups[l].entry].name);
    forall n | n in t.cache && t.entries[t.cache[n]].id.Known?
      ensures after(n) == Some(t.entries[t.cache[n]].id.number)
    {
      AskedFills(s.entries[s.lookups[l].entry].name, n);
      if n != asked {
        assert n in s.cache && t.cache[n] == s.cache[n];
      }
    }
  }

  lemma ExternalLearns(s: State, n: Name, number: nat, before: Numbers, after: Numbers)
    requires Sound(s) && UpToDate(s, before) && Learns(s, External(n, number), before, after)
    ensures var t := Step(s, External(n, number)); Structured(t) && UpToDate(t, after)
  {
    StepSound(s, External(n, number));
    var t, asked := Step(s, External(n, number)), Asked(n);
    forall m | m in t.cache && t.entries[t.cache[m]].id.Known?
      ensures after(m) == Some(t.entries[t.cache[m]].id.number)
    {
      AskedFills(n, m);
      if m != asked {
        assert m in s.cache && t.cache[m] == s.cache[m];
      }
    }
  }

  lemma StepLearns(s: State, ev: Event, before: Numbers, after: Numbers)
    requires Sound(s) && Enabled(s, ev) && UpToDate(s, before) && Learns(s, ev, before, after)
    ensures Structured(Step(s, ev)) && UpToDate(Step(s, ev), after)
  {
    match ev
    case Dispatch(n, r, full, start, parses) =>
      DispatchNew(s, n, r, full, start, parses);
      KeptUpToDate(s, Step(s, ev), after);
    case ReQueue(n, r, full, start, parses) =>
      ReQueueNew(s, n, r, full, start, parses);
      KeptUpToDate(s, Step(s, ev), after);
    case Succeed(l, number, unparsed) => SucceedLearns(s, l, number, unparsed, before, after);
    case Fail(l, notFound, retried) =>
      FailNew(s, l, notFound, retried);
      KeptUpToDate(s, Step(s, ev), after);
    case External(n, number) => ExternalLearns(s, n, number, before, after);
    case Cancel(r) =>
      CancelIs(s, r);
      StepSound(s, ev);
      KeptUpToDate(s, Step(s, ev), after);
  }

  // ---- runs ----

  /** The latest number brought for the name by the first i events. */
  ghost function Latest(states: seq<State>, events: seq<Event>, i: nat, m: Name): Option<nat>
    requires i <= |events| && |states| == |events| + 1
  {
    if i == 0 then None
    else
      var brought := Brings(states[i - 1], events[i - 1]);
      if brought.Some? && Fills(brought.value.0, m) then Some(brought.value.1) else Latest(states, events, i - 1, m)
  }

  ghost function LatestAt(states: seq<State>, events: seq<Event>, i: nat): Numbers
    requires i <= |events| && |states| == |events| + 1
  {
    m => Latest(states, events, i, m)
  }

  lemma NextUpToDate(states: seq<State>, events: seq<Event>, i: nat)
    requires Run(states, events) && i < |events|
    requires Structured(states[i]) && UpToDate(states[i], LatestAt(states, events, i))
    ensures Structured(states[i + 1]) && UpToDate(states[i + 1], LatestAt(states, events, i + 1))
  {
    RunSound(states, events, i);
    assert Follows(states, events, i);
    StepLearns(states[i], events[i], LatestAt(states, events, i), LatestAt(states, events, i + 1));
  }

  /** In every state of every run a number cached for a name is the latest that was brought for it. */
  lemma {:induction false} CachedIsLatest(states: seq<State>, events: seq<Event>, i: nat)
    requires Run(states, events) && i <= |events|
    ensures Structured(states[i]) && UpToDate(states[i], LatestAt(states, events, i))
  {
    if i > 0 {
      CachedIsLatest(states, events, i - 1);
      NextUpToDate(states, events, i - 1);
    }
  }

  /** So a request that is dispatched is sent with the latest number brought for its collection, or not yet sent. */
  lemma DispatchedWithLatest(states: seq<State>, events: seq<Event>, i: nat)
    requires Run(states, events) && i < |events| && events[i].Dispatch?
    ensures var latest := Latest(states, events, i, events[i].name);
            || states[i + 1].sent == states[i].sent
            || (latest.Some? &&
                states[i + 1].sent == states[i].sent + [Forward(events[i].request, Known(latest.value))])
  {
    CachedIsLatest(states, events, i);
    assert Follows(states, events, i);
    var d := events[i];
    DispatchSends(states[i], d.name, d.request, d.full, d.start, d.parses);
    assert LatestAt(states, events, i)(d.name) == Latest(states, events, i, d.name);
  }

  /** And while no reset clashes, a queue is sent with the number that its lookup has brought. */
  lemma QueueWithItsNumber(states: seq<State>, events: seq<Event>, i: nat)
    requires Run(states, events) && AllAllowed(states, events, true) && i < |events| && events[i].Succeed?
    ensures var l, s := events[i].lookup, states[i];
            && l in s.lookups && s.lookups[l].entry < |s.entries|
            && states[i + 1].sent == s.sent + Forwards(s.entries[s.lookups[l].entry].queue, Known(events[i].number),
                                                       events[i].unparsed)
  {
    RunInvariant(states, events, true, i);
    assert Follows(states, events, i);
    var ev, s := events[i], states[i];
    var t, e := s.(lookups := s.lookups - {ev.lookup}), s.lookups[ev.lookup].entry;
    assert IsCached(s, e);
    SucceedingIs(t, e, ev.number, ev.unparsed);
  }

  // ---- no number comes from nowhere ----

  type Past = (Name, nat) -> bool

  /** Every number that an entry has, cached or not, was brought for its name. */
  ghost predicate Sourced(s: State, past: Past) {
    forall e :: 0 <= e < |s.entries| && s.entries[e].id.Known? ==> past(s.entries[e].name, s.entries[e].id.number)
  }

  /** Numbers are where they were, but for the one brought. */
  ghost predicate Carried(s: State, t: State, past: Past) {
    forall e :: 0 <= e < |t.entries| && t.entries[e].id.Known? ==>
                  || past(t.entries[e].name, t.entries[e].id.number)
                  || (e < |s.entries| && s.entries[e].name == t.entries[e].name && s.entries[e].id == t.entries[e].id)
  }

  lemma CarriedSourced(s: State, t: State, past: Past)
    requires Sourced(s, past) && Carried(s, t, past)
    ensures Sourced(t, past)
  {
  }

  lemma DispatchingSourced(s: State, e: nat, r: Request, full: bool, start: Start, parses: bool, past: Past)
    requires Sourced(s, past) && e < |s.entries|
    ensures Sourced(Dispatching(s, e, r, full, start, parses).0, past)
  {
    DispatchingIds(s, e, r, full, start, parses);
    CarriedSourced(s, Dispatching(s, e, r, full, start, parses).0, past);
  }

  lemma ReQueueSourced(s: State, n: Name, r: Request, full: bool, start: Start, parses: bool, past: Past)
    requires Structured(s) && Sourced(s, past)
    ensures Sourced(Step(s, ReQueue(n, r, full, start, parses)), past)
  {
    var t := WithEntry(s, n, Unknown);
    var u := Reset(t, t.cache[n]);
    CarriedSourced(s, u, past);
    DispatchingSourced(u, t.cache[n], r, full, start, parses, past);
    ReQueueIs(s, n, r, full, start, parses);
  }

  lemma UpsertSourced(s: State, n: Name, number: nat, past: Past)
    requires Structured(s) && Sourced(s, past) && past(n, number)
    ensures Sourced(Upsert(s, n, Known(number)), past)
  {
    CarriedSourced(s, Upsert(s, n, Known(number)), past);
  }

  lemma SucceedSourced(s: State, l: nat, number: nat, unparsed: set<Request>, past: Past)
    requires Structured(s) && l in s.lookups && Sourced(s, past)
    requires forall m :: Fills(s.entries[s.lookups[l].entry].name, m) ==> past(m, number)
    ensures Sourced(Step(s, Succeed(l, number, unparsed)), past)
  {
    var t, e := s.(lookups := s.lookups - {l}), s.lookups[l].entry;
    var asked := Asked(s.entries[e].name);
    AskedFills(s.entries[e].name, asked);
    UpsertSourced(t, asked, number, past);
    CarriedSourced(Upsert(t, asked, Known(number)), Step(s, Succeed(l, number, unparsed)), past);
  }

  lemma StepSourced(s: State, ev: Event, past: Past)
    requires Sound(s) && Enabled(s, ev) && Sourced(s, past)
    requires Brings(s, ev).Some? ==> forall m :: Fills(Brings(s, ev).value.0, m) ==> past(m, Brings(s, ev).value.1)
    ensures Sourced(Step(s, ev), past)
  {
    match ev
    case Dispatch(n, r, full, start, parses) =>
      var t := WithEntry(s, n, Unknown);
      CarriedSourced(s, t, past);
      DispatchingSourced(t, t.cache[n], r, full, start, parses, past);
    case ReQueue(n, r, full, start, parses) => ReQueueSourced(s, n, r, full, start, parses, past);
    case Succeed(l, number, unparsed) => SucceedSourced(s, l, number, unparsed, past);
    case Fail(l, notFound, retried) =>
      FailIs(s, l, notFound, retried);
      CarriedSourced(s, Step(s, ev), past);
    case External(n, number) =>
      AskedFills(n, Asked(n));
      UpsertSourced(s, Asked(n), number, past);
    case Cancel(r) =>
      CancelIs(s, r);
  }

  ghost predicate BroughtAt(states: seq<State>, events: seq<Event>, j: nat, m: Name, number: nat) {
    && j < |events| && j < |states|
    && Brings(states[j], events[j]).Some?
    && Fills(Brings(states[j], events[j]).value.0, m) && Brings(states[j], events[j]).value.1 == number
  }

  /** One of the first i events brought the number for the name. */
  ghost predicate Brought(states: seq<State>, events: seq<Event>, i: nat, m: Name, number: nat) {
    exists j: nat :: j < i && BroughtAt(states, events, j, m, number)
  }

  ghost function PastAt(states: seq<State>, events: seq<Event>, i: nat): Past {
    (m: Name, number: nat) => Brought(states, events, i, m, number)
  }

  lemma PastGrows(states: seq<State>, events: seq<Event>, i: nat)
    requires i < |events| && |states| == |events| + 1
    ensures forall m, k :: PastAt(states, events, i)(m, k) ==> PastAt(states, events, i + 1)(m, k)
    ensures Brings(states[i], events[i]).Some? ==>
              forall m :: Fills(Brings(states[i], events[i]).value.0, m) ==>
                            PastAt(states, events, i + 1)(m, Brings(states[i], events[i]).value.1)
  {
    forall m, k | PastAt(states, events, i)(m, k) ensures PastAt(states, events, i + 1)(m, k) {
      var j: nat :| j < i && BroughtAt(states, events, j, m, k);
      assert j < i + 1 && BroughtAt(states, events, j, m, k);
    }
    if Brings(states[i], events[i]).Some? {
      forall m | Fills(Brings(states[i], events[i]).value.0, m)
        ensures PastAt(states, events, i + 1)(m, Brings(states[i], events[i]).value.1)
      {
        assert BroughtAt(states, events, i, m, Brings(states[i], events[i]).value.1);
      }
    }
  }

  lemma NextSourced(states: seq<State>, events: seq<Event>, i: nat)
    requires Run(states, events) && i < |events| && Sourced(states[i], PastAt(states, events, i))
    ensures Sourced(states[i + 1], PastAt(states, events, i + 1))
  {
    RunSound(states, events, i);
    PastGrows(states, events, i);
    var past := PastAt(states, events, i + 1);
    assert Sourced(states[i], past);
    assert Follows(states, events, i);
    StepSourced(states[i], events[i], past);
  }

  /** In every run, whatever the events, every number of an entry was brought for its name before. */
  lemma {:induction false} RunSourced(states: seq<State>, events: seq<Event>, i: nat)
    requires Run(states, events) && i <= |events|
    ensures Sourced(states[i], PastAt(states, events, i))
  {
    if i > 0 {
      RunSourced(states, events, i - 1);
      NextSourced(states, events, i - 1);
    }
  }

  /** So a queue is sent, if with a number, with one that was brought for its collection. */
  lemma QueueWithBroughtNumber(states: seq<State>, events: seq<Event>, i: nat)
    requires Run(states, events) && i < |events| && events[i].Succeed?
    ensures var l, s, t := events[i].lookup, states[i], states[i + 1];
            && l in s.lookups && s.lookups[l].entry < |s.entries| <= |t.entries|
            && var e := s.lookups[l].entry;
               && t.sent == s.sent + Forwards(s.entries[e].queue, t.entries[e].id, events[i].unparsed)
               && t.entries[e].name == s.entries[e].name
               && (t.entries[e].id.Known? ==>
                   Brought(states, events, i + 1, s.entries[e].name, t.entries[e].id.number))
  {
    RunSound(states, events, i);
    assert Follows(states, events, i);
    QueueNumberExactly(states[i], events[i].lookup, events[i].number, events[i].unparsed);
    RunSourced(states, events, i + 1);
    var e := states[i].lookups[events[i].lookup].entry;
    if states[i + 1].entries[e].id.Known? {
      assert PastAt(states, events, i + 1)(states[i + 1].entries[e].name, states[i + 1].entries[e].id.number);
    }
  }
}
