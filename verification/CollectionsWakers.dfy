/** Who wakes the requests that wait for a collection. */
module CollectionsWakers {
  import opened Collections
  import opened CollectionsQueues
  import opened CollectionsTheorems

  ghost predicate Wakes(s: State, e: nat)
    requires e < |s.entries|
  {
    s.entries[e].queue != [] ==> HasLookup(s, e)
  }

  /** Every waiting request has an outstanding lookup for its entry. */
  ghost predicate Woken(s: State) {
    forall e :: 0 <= e < |s.entries| ==> Wakes(s, e)
  }

  /** Only entry e changes: elsewhere no queue is begun and no lookup ends. */
  lemma WokenKept(s: State, t: State, e: nat)
    requires Woken(s) && e < |t.entries|
    requires forall i :: 0 <= i < |t.entries| && i != e && t.entries[i].queue != [] ==>
                           i < |s.entries| && s.entries[i].queue != []
    requires forall l :: l in s.lookups && s.lookups[l].entry != e ==> l in t.lookups && t.lookups[l] == s.lookups[l]
    requires Wakes(t, e)
    ensures Woken(t)
  {
    forall i | 0 <= i < |t.entries| ensures Wakes(t, i) {
      if i != e && t.entries[i].queue != [] {
        assert Wakes(s, i);
        var l :| l in s.lookups && s.lookups[l].entry == i;
        assert l in t.lookups && t.lookups[l].entry == i;
      }
    }
  }

  /** The same queues and the same lookups. */
  lemma WokenAlike(s: State, t: State)
    requires Woken(s) && t.lookups == s.lookups && |s.entries| == |t.entries|
    requires forall i :: 0 <= i < |s.entries| ==> t.entries[i].queue == s.entries[i].queue
    ensures Woken(t)
  {
    forall i | 0 <= i < |t.entries| ensures Wakes(t, i) {
      assert Wakes(s, i);
    }
  }

  lemma UpsertWoken(s: State, n: Name, id: Id)
    requires Woken(s) && Structured(s)
    ensures var t := Upsert(s, n, id); Woken(t) && |t.entries| >= |s.entries| && t.lookups == s.lookups
  {
    if n in s.cache {
      WokenAlike(s, Upsert(s, n, id));
    } else {
      WokenKept(s, Upsert(s, n, id), |s.entries|);
    }
  }

  lemma PushWoken(s: State, e: nat, r: Request)
    requires Woken(s) && e < |s.entries|
    ensures Woken(Push(s, e, r)) <==> HasLookup(s, e)
  {
    var t := Push(s, e, r);
    assert HasLookup(t, e) <==> HasLookup(s, e);
    if HasLookup(s, e) {
      WokenKept(s, t, e);
    } else {
      assert !Wakes(t, e);
    }
  }

  /** Entry e is drained; lookups for others go on. */
  lemma DrainedWoken(s: State, t: State, e: nat)
    requires Woken(s) && e < |t.entries| == |s.entries| && t.entries[e].queue == []
    requires forall i :: 0 <= i < |s.entries| && i != e ==> t.entries[i].queue == s.entries[i].queue
    requires forall l :: l in s.lookups && s.lookups[l].entry != e ==> l in t.lookups && t.lookups[l] == s.lookups[l]
    ensures Woken(t)
  {
    WokenKept(s, t, e);
  }

  lemma StartWoken(s: State, e: nat, r: Request, start: Start)
    requires Woken(s) && e < |s.entries| && s.entries[e].id.Unknown? && Takes(s, r, false)
    requires LookupsOk(s)
    ensures Woken(Dispatching(s, e, r, false, start, true).0) <==> !start.Refused? || HasLookup(s, e)
  {
    match start
    case Started =>
      LaunchedIs(s, e, r);
      var t := Launched(s, e, r);
      assert t.lookups[s.next].entry == e;
      WokenKept(s, t, e);
    case Refused => PushWoken(s, e, r);
    case CalledBack => DrainedWoken(s, Dispatching(s, e, r, false, start, true).0, e);
  }

  lemma DispatchingWoken(s: State, e: nat, r: Request, full: bool, start: Start, parses: bool)
    requires Woken(s) && LookupsOk(s) && e < |s.entries| && (s.entries[e].id.Pending? ==> HasLookup(s, e))
    ensures Woken(Dispatching(s, e, r, full, start, parses).0) <==>
            !(s.entries[e].id.Unknown? && Takes(s, r, full) && start.Refused? && !HasLookup(s, e))
  {
    match s.entries[e].id
    case Unknown =>
      if Takes(s, r, full) {
        StartWoken(s, e, r, start);
      }
    case Pending => PushWoken(s, e, r);
    case Known(n) => WokenAlike(s, s.(sent := s.sent + [Forward(r, Known(n))]));
  }

  /** A lookup is refused without its callback, and the entry has no other. */
  ghost predicate Strands(s: State, ev: Event)
    requires Structured(s)
  {
    && (ev.Dispatch? || ev.ReQueue?) && ev.start.Refused? && Takes(s, ev.request, ev.full)
    && (ev.name in s.cache ==>
          && !HasLookup(s, s.cache[ev.name])
          && (s.entries[s.cache[ev.name]].id.Unknown? || ev.ReQueue?))
  }

  /** The entry for a name, found or new, reset if it is to be. */
  lemma EntryWoken(s: State, n: Name, reset: bool)
    requires Awaits(s) && Woken(s) && Complete(n)
    ensures var w := WithEntry(s, n, Unknown);
            && n in w.cache && w.cache[n] < |w.entries|
            && var e, t := w.cache[n], if reset then Reset(w, w.cache[n]) else w;
               && Woken(t) && LookupsOk(t) && e < |t.entries| && (t.entries[e].id.Pending? ==> HasLookup(t, e))
               && t.owner == s.owner && t.completed == s.completed
               && (HasLookup(t, e) <==> n in s.cache && HasLookup(s, s.cache[n]))
               && (t.entries[e].id.Unknown? <==>
                     n in s.cache ==> s.entries[s.cache[n]].id.Unknown? || (reset && s.entries[s.cache[n]].id.Known?))
  {
    WithEntryAwaits(s, n);
    var w := WithEntry(s, n, Unknown);
    if n !in s.cache {
      UpsertWoken(s, n, Unknown);
      assert !HasLookup(w, |s.entries|);
    }
    ResetAwaits(w, w.cache[n]);
    WokenAlike(w, Reset(w, w.cache[n]));
    assert HasLookup(w, w.cache[n]) <==> HasLookup(Reset(w, w.cache[n]), w.cache[n]);
  }

  lemma CallBackWoken(s: State, r: Request)
    ensures Woken(CallBack(s, r)) <==> Woken(s)
  {
    var t := CallBack(s, r);
    assert forall i :: 0 <= i < |s.entries| ==> (Wakes(t, i) <==> Wakes(s, i));
  }

  lemma DispatchWoken(s: State, n: Name, r: Request, full: bool, start: Start, parses: bool)
    requires Awaits(s) && Woken(s) && Complete(n)
    ensures Woken(Step(s, Dispatch(n, r, full, start, parses))) <==> !Strands(s, Dispatch(n, r, full, start, parses))
  {
    EntryWoken(s, n, false);
    var t := WithEntry(s, n, Unknown);
    DispatchingWoken(t, t.cache[n], r, full, start, parses);
  }

  lemma ReQueueWoken(s: State, n: Name, r: Request, full: bool, start: Start, parses: bool)
    requires Awaits(s) && Woken(s) && Complete(n)
    ensures Woken(Step(s, ReQueue(n, r, full, start, parses))) <==> !Strands(s, ReQueue(n, r, full, start, parses))
  {
    EntryWoken(s, n, true);
    var w := WithEntry(s, n, Unknown);
    var e, t := w.cache[n], Reset(w, w.cache[n]);
    DispatchingWoken(t, e, r, full, start, parses);
    CallBackWoken(Dispatching(t, e, r, full, start, parses).0, r);
  }

  lemma SucceedWoken(s: State, l: nat, number: nat, unparsed: set<Request>)
    requires Structured(s) && Woken(s) && l in s.lookups
    ensures Woken(Step(s, Succeed(l, number, unparsed)))
  {
    var e := s.lookups[l].entry;
    UpsertWoken(s, Asked(s.entries[e].name), Known(number));
    DrainedWoken(Upsert(s, Asked(s.entries[e].name), Known(number)), Step(s, Succeed(l, number, unparsed)), e);
  }

  lemma FailWoken(s: State, l: nat, notFound: bool, retried: bool)
    requires Sound(s) && Woken(s) && l in s.lookups
    ensures Woken(Step(s, Fail(l, notFound, retried)))
  {
    FailIs(s, l, notFound, retried);
    DrainedWoken(s, Step(s, Fail(l, notFound, retried)), s.lookups[l].entry);
  }

  /** An event leaves a waiting request without a lookup if and only if it strands one. */
  lemma StepWoken(s: State, ev: Event)
    requires Awaits(s) && Owned(s) && Woken(s) && Enabled(s, ev) && Named(ev)
    ensures Woken(Step(s, ev)) <==> !Strands(s, ev)
  {
    match ev
    case Dispatch(n, r, full, start, parses) => DispatchWoken(s, n, r, full, start, parses);
    case ReQueue(n, r, full, start, parses) => ReQueueWoken(s, n, r, full, start, parses);
    case Succeed(l, number, unparsed) => SucceedWoken(s, l, number, unparsed);
    case Fail(l, notFound, retried) => FailWoken(s, l, notFound, retried);
    case External(n, number) => UpsertWoken(s, Asked(n), Known(number));
    case Cancel(r) =>
      CancelIs(s, r);
      CallBackWoken(s, r);
  }

  /** In every run with complete names, whatever else happens. */
  lemma WokenExactlyUnless(states: seq<State>, events: seq<Event>, i: nat)
    requires Run(states, events) && AllNamed(events) && i < |events| && Woken(states[i])
    ensures Structured(states[i])
    ensures Woken(states[i + 1]) <==> !Strands(states[i], events[i])
  {
    RunAwaits(states, events, i);
    RunSound(states, events, i);
    assert Follows(states, events, i);
    StepWoken(states[i], events[i]);
  }

  ghost predicate StrandsAt(states: seq<State>, events: seq<Event>, i: nat) {
    i < |events| && i < |states| && Structured(states[i]) && Strands(states[i], events[i])
  }

  /** So a waiting request without a lookup goes back to a lookup that was refused. */
  lemma {:induction false} StrandedByRefusal(states: seq<State>, events: seq<Event>, j: nat) returns (i: nat)
    requires Run(states, events) && AllNamed(events) && j <= |events| && !Woken(states[j])
    ensures i < j && StrandsAt(states, events, i)
  {
    assert j > 0;
    if Woken(states[j - 1]) {
      WokenExactlyUnless(states, events, j - 1);
      i := j - 1;
    } else {
      i := StrandedByRefusal(states, events, j - 1);
    }
  }

  /** No lookup is refused without its callback. */
  ghost predicate NoRefusals(events: seq<Event>) {
    forall i :: 0 <= i < |events| && (events[i].Dispatch? || events[i].ReQueue?) ==> !events[i].start.Refused?
  }

  /** Where no lookup is refused, every waiting request has a lookup to wake it, whatever else happens. */
  lemma WaitingHasWaker(states: seq<State>, events: seq<Event>, i: nat, e: nat)
    requires Run(states, events) && AllNamed(events) && NoRefusals(events) && i <= |events| && e < |states[i].entries|
    ensures states[i].entries[e].queue != [] ==> HasLookup(states[i], e)
  {
    if !Woken(states[i]) {
      var k := StrandedByRefusal(states, events, i);
      assert false;
    }
    assert Wakes(states[i], e);
  }
}
