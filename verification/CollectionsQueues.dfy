/** The queues of the collection cache: which requests are in them, and what cancelling one does. */
module CollectionsQueues {
  import opened Collections

  ghost predicate NoRepeats(queue: seq<Request>) {
    forall i, j :: 0 <= i < j < |queue| ==> queue[i] != queue[j]
  }

  /** A request is in the queue of an entry if and only if it believes itself there, and it is there once. */
  ghost predicate Owned(s: State) {
    && (forall e, r :: 0 <= e < |s.entries| ==>
          (r in s.entries[e].queue <==> r in s.owner && s.owner[r] == e))
    && forall e :: 0 <= e < |s.entries| ==> NoRepeats(s.entries[e].queue)
  }

  ghost predicate Sound(s: State) {
    Structured(s) && Owned(s)
  }

  // ---- removing a request ----

  /** In any state: a request is removed if and only if it is in the queue and has no owner. */
  lemma RemovedExactlyWhen(s: State, e: nat, r: Request)
    requires e < |s.entries|
    ensures Remove(s, e, r).1 <==> r in s.entries[e].queue && r !in s.owner
    ensures !Remove(s, e, r).1 ==> Remove(s, e, r).0 == s
  {
  }

  /** So no request is ever removed from a queue that it was put into. */
  lemma NeverRemoved(s: State, e: nat, r: Request)
    requires Owned(s) && e < |s.entries|
    ensures Remove(s, e, r) == (s, false)
  {
    RemovedExactlyWhen(s, e, r);
    if r !in s.owner {
      assert r !in s.entries[e].queue;
    }
  }

  // ---- every handler keeps the queues sound ----

  /** Where only identifiers and names change, queues and owners are as before. */
  ghost predicate SameQueues(s: State, t: State) {
    && |s.entries| == |t.entries|
    && (forall e :: 0 <= e < |s.entries| ==> t.entries[e].queue == s.entries[e].queue)
    && t.owner == s.owner
  }

  lemma SameQueuesOwned(s: State, t: State)
    requires Owned(s) && SameQueues(s, t)
    ensures Owned(t)
  {
    forall e, r | 0 <= e < |t.entries| ensures r in t.entries[e].queue <==> r in t.owner && t.owner[r] == e {
      assert r in s.entries[e].queue <==> r in s.owner && s.owner[r] == e;
    }
  }

  lemma PushOwned(s: State, e: nat, r: Request)
    requires Owned(s) && e < |s.entries| && r !in s.owner
    ensures Owned(Push(s, e, r))
  {
    var t := Push(s, e, r);
    assert r !in s.entries[e].queue;
    forall i, q | 0 <= i < |t.entries| ensures q in t.entries[i].queue <==> q in t.owner && t.owner[q] == i {
      assert q in s.entries[i].queue <==> q in s.owner && s.owner[q] == i;
    }
  }

  lemma DrainOwned(s: State, e: nat)
    requires Owned(s) && e < |s.entries|
    ensures Owned(Drain(s, e))
  {
    var t := Drain(s, e);
    forall i, q | 0 <= i < |t.entries| ensures q in t.entries[i].queue <==> q in t.owner && t.owner[q] == i {
      assert q in s.entries[i].queue <==> q in s.owner && s.owner[q] == i;
      assert q in s.entries[e].queue <==> q in s.owner && s.owner[q] == e;
    }
  }

  lemma WithEntrySound(s: State, n: Name, id: Id)
    requires Sound(s)
    ensures Sound(WithEntry(s, n, id)) && n in WithEntry(s, n, id).cache
  {
    if n !in s.cache {
      var t := WithEntry(s, n, id);
      forall e, r | 0 <= e < |t.entries| ensures r in t.entries[e].queue <==> r in t.owner && t.owner[r] == e {
        if e < |s.entries| {
          assert r in s.entries[e].queue <==> r in s.owner && s.owner[r] == e;
        }
      }
    }
  }

  lemma SetIdSound(s: State, e: nat, id: Id)
    requires Sound(s) && e < |s.entries|
    ensures Sound(SetId(s, e, id))
  {
    SameQueuesOwned(s, SetId(s, e, id));
  }

  lemma PushSound(s: State, e: nat, r: Request)
    requires Sound(s) && e < |s.entries| && r !in s.owner
    ensures Sound(Push(s, e, r))
  {
    PushOwned(s, e, r);
  }

  lemma FailingSound(s: State, e: nat)
    requires Sound(s) && e < |s.entries|
    ensures Sound(Failing(s, e)) && |Failing(s, e).entries| == |s.entries|
  {
    DrainOwned(s, e);
    SameQueuesOwned(Drain(s, e), Failing(s, e));
  }

  lemma UpsertSound(s: State, n: Name, id: Id)
    requires Sound(s)
    ensures Sound(Upsert(s, n, id)) && |Upsert(s, n, id).entries| >= |s.entries|
  {
    if n in s.cache {
      SetIdSound(s, s.cache[n], id);
    } else {
      WithEntrySound(s, n, id);
    }
  }

  lemma SucceedingSound(s: State, e: nat, number: nat, unparsed: set<Request>)
    requires Sound(s) && e < |s.entries|
    ensures Sound(Succeeding(s, e, number, unparsed))
  {
    var known := Upsert(s, Asked(s.entries[e].name), Known(number));
    UpsertSound(s, Asked(s.entries[e].name), Known(number));
    DrainOwned(known, e);
    SameQueuesOwned(Drain(known, e), Succeeding(s, e, number, unparsed));
  }

  lemma DispatchingSound(s: State, e: nat, r: Request, full: bool, start: Start, parses: bool)
    requires Sound(s) && e < |s.entries|
    ensures Sound(Dispatching(s, e, r, full, start, parses).0)
  {
    if Takes(s, r, full) && !s.entries[e].id.Known? {
      PushSound(s, e, r);
      var queued := Push(s, e, r);
      if s.entries[e].id.Unknown? {
        match start
        case Started =>
          SetIdSound(queued, e, Pending);
          SameQueuesOwned(SetId(queued, e, Pending), Dispatching(s, e, r, full, start, parses).0);
        case Refused =>
        case CalledBack =>
          FailingSound(queued, e);
          SetIdSound(Failing(queued, e), e, Unknown);
      }
    } else {
      SameQueuesOwned(s, Dispatching(s, e, r, full, start, parses).0);
    }
  }

  lemma ResetSound(s: State, e: nat)
    requires Sound(s) && e < |s.entries|
    ensures Sound(Reset(s, e)) && |Reset(s, e).entries| == |s.entries|
  {
    SetIdSound(s, e, Unknown);
  }

  lemma CallBackSound(s: State, r: Request)
    requires Sound(s)
    ensures Sound(CallBack(s, r))
  {
    SameQueuesOwned(s, CallBack(s, r));
  }

  lemma ReQueueSound(s: State, n: Name, r: Request, full: bool, start: Start, parses: bool)
    requires Sound(s)
    ensures Sound(Step(s, ReQueue(n, r, full, start, parses)))
  {
    WithEntrySound(s, n, Unknown);
    var t := WithEntry(s, n, Unknown);
    var e := t.cache[n];
    ResetSound(t, e);
    DispatchingSound(Reset(t, e), e, r, full, start, parses);
    CallBackSound(Dispatching(Reset(t, e), e, r, full, start, parses).0, r);
  }

  /** A failed lookup drains the queue whatever the error: the request that asked cannot be taken out. */
  lemma FailIs(s: State, l: nat, notFound: bool, retried: bool)
    requires Sound(s) && l in s.lookups
    ensures var t, e := s.(lookups := s.lookups - {l}), s.lookups[l].entry;
            Step(s, Fail(l, notFound, retried)) == Failing(if notFound then SetId(t, e, Unknown) else t, e)
  {
    if notFound {
      var t, e := s.(lookups := s.lookups - {l}), s.lookups[l].entry;
      SameQueuesOwned(s, SetId(t, e, Unknown));
      NeverRemoved(SetId(t, e, Unknown), e, s.lookups[l].request);
    }
  }

  lemma FailSound(s: State, l: nat, notFound: bool, retried: bool)
    requires Sound(s) && l in s.lookups
    ensures Sound(Step(s, Fail(l, notFound, retried)))
  {
    FailIs(s, l, notFound, retried);
    var t, e := s.(lookups := s.lookups - {l}), s.lookups[l].entry;
    SameQueuesOwned(s, t);
    if notFound {
      SetIdSound(t, e, Unknown);
      FailingSound(SetId(t, e, Unknown), e);
    } else {
      FailingSound(t, e);
    }
  }

  /** Cancelling a request calls it back and leaves every queue as it is. */
  lemma CancelIs(s: State, r: Request)
    requires Sound(s)
    ensures Step(s, Cancel(r)) == if r in s.completed then s else CallBack(s, r)
  {
    if r !in s.completed && r in s.owner {
      CallBackSound(s, r);
      NeverRemoved(CallBack(s, r), s.owner[r], r);
    }
  }

  lemma StepSound(s: State, e: Event)
    requires Sound(s) && Enabled(s, e)
    ensures Sound(Step(s, e))
  {
    match e
    case Dispatch(n, r, full, start, parses) =>
      WithEntrySound(s, n, Unknown);
      var t := WithEntry(s, n, Unknown);
      DispatchingSound(t, t.cache[n], r, full, start, parses);
    case ReQueue(n, r, full, start, parses) =>
      ReQueueSound(s, n, r, full, start, parses);
    case Succeed(l, number, unparsed) =>
      var t := s.(lookups := s.lookups - {l});
      SameQueuesOwned(s, t);
      SucceedingSound(t, s.lookups[l].entry, number, unparsed);
    case Fail(l, notFound, retried) =>
      FailSound(s, l, notFound, retried);
    case External(n, number) =>
      UpsertSound(s, Asked(n), Known(number));
    case Cancel(r) =>
      CancelIs(s, r);
      CallBackSound(s, r);
  }

  // ---- runs ----

  /** The i-th event can happen in the i-th state, and leads to the next. */
  ghost predicate Follows(states: seq<State>, events: seq<Event>, i: nat) {
    && i < |events| && i + 1 < |states|
    && Structured(states[i]) && Enabled(states[i], events[i]) && states[i + 1] == Step(states[i], events[i])
  }

  /** states are what the events lead through, from an empty cache. */
  ghost predicate Run(states: seq<State>, events: seq<Event>) {
    && |states| == |events| + 1
    && states[0] == INITIAL
    && forall i: nat {:trigger Follows(states, events, i)} :: i < |events| ==> Follows(states, events, i)
  }

  ghost function Last(states: seq<State>): State
    requires states != []
  {
    states[|states| - 1]
  }

  lemma NextSound(states: seq<State>, events: seq<Event>, i: nat)
    requires Run(states, events) && i < |events| && Sound(states[i])
    ensures Sound(states[i + 1])
  {
    assert Follows(states, events, i);
    StepSound(states[i], events[i]);
  }

  /** In every state of every run, whatever the events, the queues are sound. */
  lemma {:induction false} RunSound(states: seq<State>, events: seq<Event>, i: nat)
    requires Run(states, events) && i <= |events|
    ensures Sound(states[i])
  {
    if i > 0 {
      RunSound(states, events, i - 1);
      NextSound(states, events, i - 1);
    }
  }

  // ---- every request is called back at most once ----

  /** Exactly the completed requests have been called back or cancelled, each once. */
  ghost predicate CalledOnce(s: State) {
    NoRepeats(s.failed) && forall r :: r in s.failed <==> r in s.completed
  }

  lemma {:induction false} UncalledIs(queue: seq<Request>, completed: set<Request>)
    ensures NoRepeats(Uncalled(queue, completed))
    ensures forall r :: r in Uncalled(queue, completed) <==> r in queue && r !in completed
  {
    if queue != [] {
      var before, r := queue[..|queue| - 1], queue[|queue| - 1];
      UncalledIs(before, completed);
      assert queue == before + [r];
    }
  }

  lemma JoinRepeats(a: seq<Request>, b: seq<Request>)
    requires NoRepeats(a) && NoRepeats(b) && forall r :: r in a ==> r !in b
    ensures NoRepeats(a + b)
  {
    var c := a + b;
    forall i, j | 0 <= i < j < |c| ensures c[i] != c[j] {
      if i < |a| <= j {
        assert c[i] in a && c[j] in b;
      }
    }
  }

  lemma FailingCalls(s: State, e: nat)
    requires CalledOnce(s) && e < |s.entries|
    ensures CalledOnce(Failing(s, e))
  {
    UncalledIs(s.entries[e].queue, s.completed);
    JoinRepeats(s.failed, Uncalled(s.entries[e].queue, s.completed));
  }

  lemma CallBackCalls(s: State, r: Request)
    requires CalledOnce(s)
    ensures CalledOnce(CallBack(s, r))
  {
  }

  lemma DispatchingCalls(s: State, e: nat, r: Request, full: bool, start: Start, parses: bool)
    requires CalledOnce(s) && e < |s.entries|
    ensures CalledOnce(Dispatching(s, e, r, full, start, parses).0)
  {
    if s.entries[e].id.Unknown? && Takes(s, r, full) {
      FailingCalls(Push(s, e, r), e);
    }
  }

  lemma ReQueueCalls(s: State, n: Name, r: Request, full: bool, start: Start, parses: bool)
    requires Structured(s) && CalledOnce(s)
    ensures CalledOnce(Step(s, ReQueue(n, r, full, start, parses)))
  {
    var t := WithEntry(s, n, Unknown);
    var u := Reset(t, t.cache[n]);
    DispatchingCalls(u, t.cache[n], r, full, start, parses);
    CallBackCalls(Dispatching(u, t.cache[n], r, full, start, parses).0, r);
  }

  lemma FailCalls(s: State, l: nat, notFound: bool, retried: bool)
    requires Sound(s) && CalledOnce(s) && l in s.lookups
    ensures CalledOnce(Step(s, Fail(l, notFound, retried)))
  {
    FailIs(s, l, notFound, retried);
    var t, e := s.(lookups := s.lookups - {l}), s.lookups[l].entry;
    FailingCalls(if notFound then SetId(t, e, Unknown) else t, e);
  }

  lemma StepCalls(s: State, ev: Event)
    requires Sound(s) && Enabled(s, ev) && CalledOnce(s)
    ensures CalledOnce(Step(s, ev))
  {
    match ev
    case Dispatch(n, r, full, start, parses) =>
      var t := WithEntry(s, n, Unknown);
      DispatchingCalls(t, t.cache[n], r, full, start, parses);
    case ReQueue(n, r, full, start, parses) =>
      ReQueueCalls(s, n, r, full, start, parses);
    case Succeed(l, number, unparsed) =>
      SucceedCalls(s, l, number, unparsed);
    case Fail(l, notFound, retried) =>
      FailCalls(s, l, notFound, retried);
    case External(n, number) =>
    case Cancel(r) =>
      CancelIs(s, r);
      CallBackCalls(s, r);
  }

  lemma SucceedCalls(s: State, l: nat, number: nat, unparsed: set<Request>)
    requires Structured(s) && l in s.lookups
    ensures var t := Step(s, Succeed(l, number, unparsed)); t.completed == s.completed && t.failed == s.failed
  {
  }

  lemma NextCalls(states: seq<State>, events: seq<Event>, i: nat)
    requires Run(states, events) && i < |events| && CalledOnce(states[i])
    ensures CalledOnce(states[i + 1])
  {
    RunSound(states, events, i);
    assert Follows(states, events, i);
    StepCalls(states[i], events[i]);
  }

  /** In every run each completed request has been called back once, and no other has. */
  lemma {:induction false} RunCalls(states: seq<State>, events: seq<Event>, i: nat)
    requires Run(states, events) && i <= |events|
    ensures CalledOnce(states[i])
  {
    if i > 0 {
      RunCalls(states, events, i - 1);
      NextCalls(states, events, i - 1);
    }
  }

  /** So in no run is the request that asked for a collection that is not found taken out and retried. */
  lemma AskerNeverRetried(states: seq<State>, events: seq<Event>, i: nat, l: nat)
    requires Run(states, events) && i <= |events| && l in states[i].lookups
    ensures Structured(states[i])
    ensures Step(states[i], Fail(l, true, true)) == Step(states[i], Fail(l, true, false))
    ensures states[i].entries[states[i].lookups[l].entry].name !in Step(states[i], Fail(l, true, true)).cache
  {
    RunSound(states, events, i);
    FailIs(states[i], l, true, true);
    FailIs(states[i], l, true, false);
  }

  /** A run goes on with any event that can happen in its last state. */
  lemma RunsOn(states: seq<State>, events: seq<Event>, e: Event, t: State)
    requires Run(states, events) && Structured(Last(states)) && Enabled(Last(states), e) && t == Step(Last(states), e)
    ensures Run(states + [t], events + [e])
  {
    var states', events' := states + [t], events + [e];
    forall i: nat | i < |events'| ensures Follows(states', events', i) {
      if i < |events| {
        assert Follows(states, events, i);
      }
    }
  }

  // ---- a cancelled request ----

  /** Neither the end of a lookup for entry e, nor a lookup for it that is refused with its callback called. */
  ghost predicate Spares(s: State, ev: Event, e: nat)
    requires Structured(s) && Enabled(s, ev)
  {
    match ev
    case Dispatch(n, _, _, start, _) => !(start.CalledBack? && n in s.cache && s.cache[n] == e)
    case ReQueue(n, _, _, start, _) => !(start.CalledBack? && n in s.cache && s.cache[n] == e)
    case Succeed(l, _, _) => s.lookups[l].entry != e
    case Fail(l, _, _) => s.lookups[l].entry != e
    case _ => true
  }

  lemma DispatchingSpares(s: State, i: nat, e: nat, q: Request, r: Request, full: bool, start: Start, parses: bool)
    requires i < |s.entries| && e < |s.entries| && r in s.entries[e].queue && !(start.CalledBack? && i == e)
    ensures e < |Dispatching(s, i, q, full, start, parses).0.entries|
    ensures r in Dispatching(s, i, q, full, start, parses).0.entries[e].queue
  {
  }

  lemma DispatchSpares(s: State, n: Name, reset: bool, e: nat, q: Request, r: Request, full: bool, start: Start,
                       parses: bool)
    requires Sound(s) && e < |s.entries| && r in s.entries[e].queue
    requires !(start.CalledBack? && n in s.cache && s.cache[n] == e)
    ensures var t := WithEntry(s, n, Unknown);
            && n in t.cache && t.cache[n] < |t.entries|
            && var u := Dispatching(if reset then Reset(t, t.cache[n]) else t, t.cache[n], q, full, start, parses).0;
               e < |u.entries| && r in u.entries[e].queue
  {
    WithEntrySound(s, n, Unknown);
    var t := WithEntry(s, n, Unknown);
    DispatchingSpares(t, t.cache[n], e, q, r, full, start, parses);
    DispatchingSpares(Reset(t, t.cache[n]), t.cache[n], e, q, r, full, start, parses);
  }

  lemma SucceedSpares(s: State, i: nat, e: nat, number: nat, unparsed: set<Request>)
    requires CacheOk(s) && i < |s.entries| && e < |s.entries| && i != e
    ensures e < |Succeeding(s, i, number, unparsed).entries|
    ensures Succeeding(s, i, number, unparsed).entries[e].queue == s.entries[e].queue
  {
  }

  lemma ReQueueSpares(s: State, n: Name, e: nat, q: Request, r: Request, full: bool, start: Start, parses: bool)
    requires Sound(s) && e < |s.entries| && r in s.entries[e].queue
    requires !(start.CalledBack? && n in s.cache && s.cache[n] == e)
    ensures var t := Step(s, ReQueue(n, q, full, start, parses)); e < |t.entries| && r in t.entries[e].queue
  {
    DispatchSpares(s, n, true, e, q, r, full, start, parses);
    var t := WithEntry(s, n, Unknown);
    var u := Dispatching(Reset(t, t.cache[n]), t.cache[n], q, full, start, parses);
    assert Step(s, ReQueue(n, q, full, start, parses)) == if u.1 then u.0 else CallBack(u.0, q);
  }

  lemma FailSpares(s: State, l: nat, e: nat, r: Request, notFound: bool, retried: bool)
    requires Sound(s) && e < |s.entries| && r in s.entries[e].queue && l in s.lookups && s.lookups[l].entry != e
    ensures var t := Step(s, Fail(l, notFound, retried)); e < |t.entries| && r in t.entries[e].queue
  {
    FailIs(s, l, notFound, retried);
  }

  /** A request waits until a lookup for its entry ends, whether it is cancelled or not. */
  lemma WaitsForLookup(s: State, ev: Event, e: nat, r: Request)
    requires Sound(s) && Enabled(s, ev) && e < |s.entries| && r in s.entries[e].queue && Spares(s, ev, e)
    ensures e < |Step(s, ev).entries| && r in Step(s, ev).entries[e].queue
  {
    match ev
    case Dispatch(n, q, full, start, parses) =>
      DispatchSpares(s, n, false, e, q, r, full, start, parses);
    case ReQueue(n, q, full, start, parses) =>
      ReQueueSpares(s, n, e, q, r, full, start, parses);
    case Succeed(l, number, unparsed) =>
      SucceedSpares(s.(lookups := s.lookups - {l}), s.lookups[l].entry, e, number, unparsed);
    case Fail(l, notFound, retried) =>
      FailSpares(s, l, e, r, notFound, retried);
    case External(n, number) =>
    case Cancel(q) =>
      CancelIs(s, q);
  }

  lemma {:induction false} ForwardsAll(queue: seq<Request>, id: Id, unparsed: set<Request>, r: Request)
    ensures Forward(r, id) in Forwards(queue, id, unparsed) <==> r in queue && r !in unparsed
  {
    if queue != [] {
      ForwardsAll(queue[..|queue| - 1], id, unparsed, r);
      assert queue == queue[..|queue| - 1] + [queue[|queue| - 1]];
    }
  }

  /** The i-th event spares the queue of entry e. */
  ghost predicate SparesAt(states: seq<State>, events: seq<Event>, i: nat, e: nat) {
    && i < |events| && i < |states|
    && Structured(states[i]) && Enabled(states[i], events[i]) && Spares(states[i], events[i], e)
  }

  lemma WaitsNext(states: seq<State>, events: seq<Event>, i: nat, e: nat, r: Request)
    requires Run(states, events) && i < |events| && e < |states[i].entries| && r in states[i].entries[e].queue
    requires SparesAt(states, events, i, e)
    ensures e < |states[i + 1].entries| && r in states[i + 1].entries[e].queue
  {
    RunSound(states, events, i);
    assert Follows(states, events, i);
    WaitsForLookup(states[i], events[i], e, r);
  }

  lemma {:induction false} WaitsThrough(states: seq<State>, events: seq<Event>, i: nat, j: nat, e: nat, r: Request)
    requires Run(states, events) && i <= j <= |events|
    requires e < |states[i].entries| && r in states[i].entries[e].queue
    requires forall k: nat {:trigger SparesAt(states, events, k, e)} :: i <= k < j ==> SparesAt(states, events, k, e)
    ensures e < |states[j].entries| && r in states[j].entries[e].queue
  {
    if i < j {
      WaitsThrough(states, events, i, j - 1, e, r);
      WaitsNext(states, events, j - 1, e, r);
    }
  }

  lemma DispatchingCompletes(s: State, e: nat, q: Request, full: bool, start: Start, parses: bool)
    requires e < |s.entries|
    ensures s.completed <= Dispatching(s, e, q, full, start, parses).0.completed
  {
  }

  lemma DispatchCompletes(s: State, n: Name, q: Request, full: bool, start: Start, parses: bool)
    requires Structured(s)
    ensures s.completed <= Step(s, Dispatch(n, q, full, start, parses)).completed
  {
    var t := WithEntry(s, n, Unknown);
    DispatchingCompletes(t, t.cache[n], q, full, start, parses);
  }

  lemma ReQueueCompletes(s: State, n: Name, q: Request, full: bool, start: Start, parses: bool)
    requires Structured(s)
    ensures s.completed <= Step(s, ReQueue(n, q, full, start, parses)).completed
  {
    var t := WithEntry(s, n, Unknown);
    DispatchingCompletes(Reset(t, t.cache[n]), t.cache[n], q, full, start, parses);
  }

  lemma SucceedCompletes(s: State, l: nat, number: nat, unparsed: set<Request>)
    requires Structured(s) && l in s.lookups
    ensures s.completed == Step(s, Succeed(l, number, unparsed)).completed
  {
  }

  lemma StepCompleted(s: State, ev: Event, r: Request)
    requires Sound(s) && Enabled(s, ev) && (r in s.completed || ev == Cancel(r))
    ensures r in Step(s, ev).completed
  {
    match ev
    case Dispatch(n, q, full, start, parses) =>
      DispatchCompletes(s, n, q, full, start, parses);
    case ReQueue(n, q, full, start, parses) =>
      ReQueueCompletes(s, n, q, full, start, parses);
    case Succeed(l, number, unparsed) =>
      SucceedCompletes(s, l, number, unparsed);
    case Fail(l, notFound, retried) =>
      FailIs(s, l, notFound, retried);
    case External(n, number) =>
    case Cancel(q) =>
      CancelIs(s, q);
  }

  lemma CompletedNext(states: seq<State>, events: seq<Event>, i: nat, r: Request)
    requires Run(states, events) && i < |events| && (r in states[i].completed || events[i] == Cancel(r))
    ensures r in states[i + 1].completed
  {
    RunSound(states, events, i);
    assert Follows(states, events, i);
    StepCompleted(states[i], events[i], r);
  }

  lemma {:induction false} StaysCompleted(states: seq<State>, events: seq<Event>, c: nat, j: nat, r: Request)
    requires Run(states, events) && c < j <= |events| && events[c] == Cancel(r)
    ensures r in states[j].completed
  {
    if c < j - 1 {
      StaysCompleted(states, events, c, j - 1, r);
    }
    CompletedNext(states, events, j - 1, r);
  }

  lemma SuccessSends(s: State, l: nat, number: nat, unparsed: set<Request>, r: Request)
    requires Structured(s) && l in s.lookups && r in s.entries[s.lookups[l].entry].queue && r !in unparsed
    ensures var t, e := Step(s, Succeed(l, number, unparsed)), s.lookups[l].entry;
            e < |t.entries| && Forward(r, t.entries[e].id) in t.sent
  {
    var t, e := Step(s, Succeed(l, number, unparsed)), s.lookups[l].entry;
    ForwardsAll(s.entries[e].queue, t.entries[e].id, unparsed, r);
  }

  lemma SentAt(states: seq<State>, events: seq<Event>, j: nat, e: nat, r: Request)
    requires Run(states, events) && j < |events| && events[j].Succeed? && r !in events[j].unparsed
    requires events[j].lookup in states[j].lookups && states[j].lookups[events[j].lookup].entry == e
    requires e < |states[j].entries| && r in states[j].entries[e].queue
    ensures e < |states[j + 1].entries| && Forward(r, states[j + 1].entries[e].id) in states[j + 1].sent
  {
    assert Follows(states, events, j);
    SuccessSends(states[j], events[j].lookup, events[j].number, events[j].unparsed, r);
  }

  /**
   In any run: a request that waits in entry e in state i, and is cancelled at step c before the lookup
   for that entry succeeds at step j, has been called back and is sent to the server all the same.
   */
  lemma CancelledIsSent(states: seq<State>, events: seq<Event>, i: nat, c: nat, j: nat, e: nat, r: Request)
    requires Run(states, events) && i <= c < j < |events| && events[c] == Cancel(r)
    requires e < |states[i].entries| && r in states[i].entries[e].queue
    requires forall k: nat {:trigger SparesAt(states, events, k, e)} :: i <= k < j ==> SparesAt(states, events, k, e)
    requires events[j].Succeed? && r !in events[j].unparsed
    requires events[j].lookup in states[j].lookups && states[j].lookups[events[j].lookup].entry == e
    ensures r in states[j + 1].completed
    ensures e < |states[j + 1].entries| && Forward(r, states[j + 1].entries[e].id) in states[j + 1].sent
  {
    WaitsThrough(states, events, i, j, e, r);
    StaysCompleted(states, events, c, j + 1, r);
    SentAt(states, events, j, e, r);
  }

  // ---- who waits ----

  /** A dispatch makes a request wait exactly if there is room, it waits nowhere, is not completed and has no number. */
  predicate Waits(s: State, n: Name, r: Request, full: bool, start: Start)
    requires n in s.cache ==> s.cache[n] < |s.entries|
  {
    && !full && r !in s.owner && r !in s.completed
    && (n in s.cache ==> !s.entries[s.cache[n]].id.Known?)
    && (start.CalledBack? ==> n in s.cache && s.entries[s.cache[n]].id.Pending?)
  }

  function QueueFor(s: State, n: Name): seq<Request>
    requires n in s.cache ==> s.cache[n] < |s.entries|
  {
    if n in s.cache then s.entries[s.cache[n]].queue else []
  }

  lemma EntryFor(s: State, n: Name)
    requires Structured(s)
    ensures var t := WithEntry(s, n, Unknown);
            && n in t.cache && t.cache[n] < |t.entries| && t.owner == s.owner && t.completed == s.completed
            && t.entries[t.cache[n]].queue == QueueFor(s, n) && t.lookups == s.lookups && t.next == s.next
            && t.entries[t.cache[n]].id == if n in s.cache then s.entries[s.cache[n]].id else Unknown
  {
  }

  lemma Joins(s: State, e: nat, r: Request, full: bool, start: Start, parses: bool)
    requires e < |s.entries|
    ensures var t := Dispatching(s, e, r, full, start, parses).0;
            var waits := !full && r !in s.owner && r !in s.completed && !s.entries[e].id.Known? &&
                         (start.CalledBack? ==> s.entries[e].id.Pending?);
            && (waits ==> t.entries[e].queue == s.entries[e].queue + [r] && t.owner == s.owner[r := e])
            && (waits ==> t.cache == s.cache)
            && (full || r in s.owner || r in s.completed ==> t.entries == s.entries && t.owner == s.owner)
            && (waits && s.entries[e].id.Unknown? && start.Started? ==>
                  t.entries[e].id == Pending && t.lookups == s.lookups[s.next := Lookup(e, r)] && t.next == s.next + 1)
            && (t.lookups != s.lookups ==> waits && s.entries[e].id.Unknown? && start.Started?)
  {
  }

  /** It joins the back of the queue of its collection; and it asks exactly if nobody has and the lookup is started. */
  lemma DispatchJoins(s: State, n: Name, r: Request, full: bool, start: Start, parses: bool)
    requires Structured(s)
    ensures var t := Step(s, Dispatch(n, r, full, start, parses));
            var first := n !in s.cache || s.entries[s.cache[n]].id.Unknown?;
            && (Waits(s, n, r, full, start) ==>
                  && n in t.cache && t.cache[n] < |t.entries|
                  && t.entries[t.cache[n]].queue == QueueFor(s, n) + [r] && t.owner == s.owner[r := t.cache[n]])
            && (full || r in s.owner || r in s.completed ==>
                  t.owner == s.owner && (n in s.cache ==> t.entries == s.entries))
            && (Waits(s, n, r, full, start) && first && start.Started? ==>
                  t.entries[t.cache[n]].id == Pending && t.lookups == s.lookups[s.next := Lookup(t.cache[n], r)])
            && (t.lookups != s.lookups ==> Waits(s, n, r, full, start) && first && start.Started?)
  {
    EntryFor(s, n);
    var t := WithEntry(s, n, Unknown);
    Joins(t, t.cache[n], r, full, start, parses);
  }

  /** If the request that asked could be taken out of the queue, it alone would leave it, and nobody be called back. */
  lemma RetriedIfRemoved(s: State, l: nat)
    requires Structured(s) && l in s.lookups
    ensures var e, r := s.lookups[l].entry, s.lookups[l].request;
            var t := Step(s, Fail(l, true, true));
            r in s.entries[e].queue && r !in s.owner ==>
              && t.failed == s.failed && t.completed == s.completed && t.cache == s.cache && t.owner == s.owner
              && t.entries[e].queue == Without(s.entries[e].queue, r) && t.entries[e].id == Unknown
  {
  }
}
