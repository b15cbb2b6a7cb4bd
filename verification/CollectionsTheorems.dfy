/** What every run of the collection cache keeps. */
module CollectionsTheorems {
  import opened Collections
  import opened CollectionsQueues

  ghost predicate HasLookup(s: State, e: nat) {
    exists l :: l in s.lookups && s.lookups[l].entry == e
  }

  ghost predicate IsCached(s: State, e: nat)
    requires e < |s.entries|
  {
    s.entries[e].name in s.cache && s.cache[s.entries[e].name] == e
  }

  ghost predicate Complete(n: Name) {
    n.scope != "" && n.collection != ""
  }

  /** A cached entry marked pending has an outstanding lookup. */
  ghost predicate Awaited(s: State)
    requires Structured(s)
  {
    forall n :: n in s.cache && s.entries[s.cache[n]].id.Pending? ==> HasLookup(s, s.cache[n])
  }

  /** No two lookups for one entry. */
  ghost predicate Single(s: State) {
    forall l, m :: l in s.lookups && m in s.lookups && s.lookups[l].entry == s.lookups[m].entry ==> l == m
  }

  /** A lookup is for a cached entry that is not marked unknown; without lookups from outside, it is pending. */
  ghost predicate Underway(s: State, external: bool)
    requires Structured(s)
  {
    forall l :: l in s.lookups ==>
      IsCached(s, s.lookups[l].entry) &&
      (if external then !s.entries[s.lookups[l].entry].id.Unknown? else s.entries[s.lookups[l].entry].id.Pending?)
  }

  /** Requests wait only in cached entries. */
  ghost predicate Parked(s: State)
    requires Structured(s)
  {
    forall e :: 0 <= e < |s.entries| && s.entries[e].queue != [] ==> IsCached(s, e)
  }

  ghost predicate NamesComplete(s: State) {
    forall e :: 0 <= e < |s.entries| ==> Complete(s.entries[e].name)
  }

  /** No request was sent on with a sentinel. */
  ghost predicate Clean(s: State) {
    forall i :: 0 <= i < |s.sent| ==> s.sent[i].id.Known?
  }

  ghost predicate Inv(s: State, external: bool) {
    && Structured(s) && Awaited(s) && Single(s) && Underway(s, external) && Parked(s)
    && NamesComplete(s) && Clean(s)
  }

  /** A reset of this name hits an entry that has its identifier while its lookup is outstanding. */
  ghost predicate Clashes(s: State, n: Name)
    requires Structured(s)
  {
    n in s.cache && s.entries[s.cache[n]].id.Known? && HasLookup(s, s.cache[n])
  }

  ghost predicate Named(e: Event) {
    (e.Dispatch? || e.ReQueue?) ==> Complete(e.name)
  }

  /**
   Names are complete and no reset clashes. Where lookups from outside are ruled out, clashes need not be.
   */
  ghost predicate Allowed(s: State, e: Event, external: bool)
    requires Structured(s)
  {
    && Named(e)
    && (e.External? ==> external)
    && (e.ReQueue? && external ==> !Clashes(s, e.name))
  }

  // ---- what a change of one entry keeps ----

  ghost function Changed(s: State, e: nat, id: Id, queue: seq<Request>, sent: seq<Forward>): State
    requires e < |s.entries|
  {
    s.(entries := s.entries[e := s.entries[e].(id := id, queue := queue)], sent := sent)
  }

  lemma ChangedShape(s: State, e: nat, id: Id, queue: seq<Request>, sent: seq<Forward>)
    requires Structured(s) && e < |s.entries|
    ensures var t := Changed(s, e, id, queue, sent);
            && Structured(t)
            && (Single(s) ==> Single(t))
            && (NamesComplete(s) ==> NamesComplete(t))
            && (forall i :: 0 <= i < |s.entries| ==> (IsCached(t, i) <==> IsCached(s, i)))
  {
  }

  lemma ChangedAwaited(s: State, e: nat, id: Id, queue: seq<Request>, sent: seq<Forward>)
    requires Structured(s) && e < |s.entries| && Structured(Changed(s, e, id, queue, sent))
    requires forall n :: n in s.cache && s.cache[n] != e && s.entries[s.cache[n]].id.Pending? ==>
                           HasLookup(s, s.cache[n])
    requires id.Pending? ==> HasLookup(s, e)
    ensures Awaited(Changed(s, e, id, queue, sent))
  {
    var t := Changed(s, e, id, queue, sent);
    forall n | n in t.cache && t.entries[t.cache[n]].id.Pending? ensures HasLookup(t, t.cache[n]) {
      assert HasLookup(s, s.cache[n]);
    }
  }

  lemma ChangedUnderway(s: State, e: nat, id: Id, queue: seq<Request>, sent: seq<Forward>, external: bool)
    requires Structured(s) && e < |s.entries| && Structured(Changed(s, e, id, queue, sent)) && Underway(s, external)
    requires HasLookup(s, e) ==> if external then !id.Unknown? else id.Pending?
    ensures Underway(Changed(s, e, id, queue, sent), external)
  {
    ChangedShape(s, e, id, queue, sent);
    var t := Changed(s, e, id, queue, sent);
    forall l | l in t.lookups ensures IsCached(t, t.lookups[l].entry) {
      assert IsCached(s, s.lookups[l].entry);
    }
  }

  lemma ChangedParked(s: State, e: nat, id: Id, queue: seq<Request>, sent: seq<Forward>)
    requires Structured(s) && e < |s.entries| && Structured(Changed(s, e, id, queue, sent))
    requires forall i :: 0 <= i < |s.entries| && i != e && s.entries[i].queue != [] ==>
                           IsCached(s, i)
    requires queue != [] ==> IsCached(s, e)
    ensures Parked(Changed(s, e, id, queue, sent))
  {
    ChangedShape(s, e, id, queue, sent);
    var t := Changed(s, e, id, queue, sent);
    forall i | 0 <= i < |t.entries| && t.entries[i].queue != []
      ensures IsCached(t, i)
    {
      assert IsCached(s, i);
    }
  }

  lemma ChangedKeeps(s: State, e: nat, id: Id, queue: seq<Request>, sent: seq<Forward>, external: bool)
    requires Inv(s, external) && e < |s.entries|
    requires id.Pending? ==> HasLookup(s, e)
    requires HasLookup(s, e) ==> if external then !id.Unknown? else id.Pending?
    requires queue != [] ==> IsCached(s, e)
    requires forall i :: 0 <= i < |sent| ==> sent[i].id.Known?
    ensures Inv(Changed(s, e, id, queue, sent), external)
  {
    ChangedShape(s, e, id, queue, sent);
    ChangedAwaited(s, e, id, queue, sent);
    ChangedUnderway(s, e, id, queue, sent, external);
    ChangedParked(s, e, id, queue, sent);
  }

  // ---- each handler keeps the invariant ----

  ghost function Appended(s: State, n: Name, id: Id): State {
    s.(entries := s.entries + [Entry(n, id, [])], cache := s.cache[n := |s.entries|])
  }

  lemma AppendedShape(s: State, n: Name, id: Id)
    requires Structured(s) && n !in s.cache
    ensures var t := Appended(s, n, id);
            && Structured(t)
            && (forall i :: 0 <= i < |s.entries| && IsCached(s, i) ==> IsCached(t, i))
            && IsCached(t, |s.entries|)
  {
  }

  lemma AppendedAwaited(s: State, n: Name, id: Id)
    requires Structured(s) && n !in s.cache && Awaited(s) && !id.Pending? && Structured(Appended(s, n, id))
    ensures Awaited(Appended(s, n, id))
  {
    var t := Appended(s, n, id);
    forall m | m in t.cache && t.entries[t.cache[m]].id.Pending? ensures HasLookup(t, t.cache[m]) {
      assert HasLookup(s, s.cache[m]);
    }
  }

  lemma AppendedUnderway(s: State, n: Name, id: Id, external: bool)
    requires Structured(s) && n !in s.cache && Underway(s, external) && Structured(Appended(s, n, id))
    ensures Underway(Appended(s, n, id), external)
  {
    AppendedShape(s, n, id);
    forall l | l in s.lookups ensures IsCached(Appended(s, n, id), s.lookups[l].entry) {
      assert IsCached(s, s.lookups[l].entry);
    }
  }

  lemma AppendedParked(s: State, n: Name, id: Id)
    requires Structured(s) && n !in s.cache && Parked(s) && Structured(Appended(s, n, id))
    ensures Parked(Appended(s, n, id))
  {
    AppendedShape(s, n, id);
    var t := Appended(s, n, id);
    forall i | 0 <= i < |t.entries| && t.entries[i].queue != []
      ensures IsCached(t, i)
    {
      assert IsCached(s, i);
    }
  }

  lemma AppendedKeeps(s: State, n: Name, id: Id, external: bool)
    requires Inv(s, external) && Complete(n) && n !in s.cache && !id.Pending?
    ensures Inv(Appended(s, n, id), external)
  {
    AppendedShape(s, n, id);
    AppendedAwaited(s, n, id);
    AppendedUnderway(s, n, id, external);
    AppendedParked(s, n, id);
  }

  lemma WithEntryKeeps(s: State, n: Name, external: bool)
    requires Inv(s, external) && Complete(n)
    ensures Inv(WithEntry(s, n, Unknown), external) && n in WithEntry(s, n, Unknown).cache
  {
    if n !in s.cache {
      AppendedKeeps(s, n, Unknown, external);
    }
  }

  lemma ResetKeeps(s: State, e: nat, external: bool)
    requires Inv(s, external) && e < |s.entries|
    requires external && s.entries[e].id.Known? ==> !HasLookup(s, e)
    ensures Inv(Reset(s, e), external)
  {
    if s.entries[e].id.Known? {
      assert !HasLookup(s, e);
      ChangedKeeps(s, e, Unknown, s.entries[e].queue, s.sent, external);
    }
  }

  /** Owners, completions and callbacks do not matter here. */
  lemma AsideKeeps(s: State, owner: map<Request, nat>, completed: set<Request>, failed: seq<Request>, external: bool)
    requires Inv(s, external) && OwnersOk(s.(owner := owner))
    ensures Inv(s.(owner := owner, completed := completed, failed := failed), external)
  {
    var t := s.(owner := owner, completed := completed, failed := failed);
    assert forall i :: 0 <= i < |s.entries| ==>
                         (HasLookup(t, i) <==> HasLookup(s, i)) && (IsCached(t, i) <==> IsCached(s, i));
  }

  lemma CallBackKeeps(s: State, r: Request, external: bool)
    requires Inv(s, external)
    ensures Inv(CallBack(s, r), external)
  {
    AsideKeeps(s, s.owner, s.completed + {r}, s.failed + [r], external);
  }

  lemma UpsertKeeps(s: State, n: Name, number: nat)
    requires Inv(s, true) && Complete(n)
    ensures Inv(Upsert(s, n, Known(number)), true)
  {
    if n in s.cache {
      var e := s.cache[n];
      ChangedKeeps(s, e, Known(number), s.entries[e].queue, s.sent, true);
    } else {
      AppendedKeeps(s, n, Known(number), true);
    }
  }

  lemma QueueKeeps(s: State, e: nat, r: Request, external: bool)
    requires Inv(s, external) && e < |s.entries| && IsCached(s, e)
    ensures Inv(Push(s, e, r), external)
  {
    var entry := s.entries[e];
    assert entry.id.Pending? ==> HasLookup(s, s.cache[entry.name]);
    ChangedKeeps(s, e, entry.id, entry.queue + [r], s.sent, external);
    AsideKeeps(Changed(s, e, entry.id, entry.queue + [r], s.sent), s.owner[r := e], s.completed, s.failed, external);
  }

  ghost function Launched(s: State, e: nat, r: Request): State
    requires e < |s.entries|
  {
    Changed(s, e, Pending, s.entries[e].queue + [r], s.sent).(
      lookups := s.lookups[s.next := Lookup(e, r)], next := s.next + 1, owner := s.owner[r := e])
  }

  lemma LaunchedShape(s: State, e: nat, r: Request)
    requires Structured(s) && e < |s.entries| && Single(s) && !HasLookup(s, e)
    ensures var t := Launched(s, e, r);
            && Structured(t) && Single(t)
            && (NamesComplete(s) ==> NamesComplete(t))
            && (forall i :: 0 <= i < |s.entries| ==> (IsCached(t, i) <==> IsCached(s, i)))
            && (forall i :: 0 <= i < |s.entries| ==> (HasLookup(t, i) <==> HasLookup(s, i) || i == e))
  {
    var t := Launched(s, e, r);
    assert t.lookups[s.next].entry == e;
    forall i | 0 <= i < |s.entries| && HasLookup(s, i) ensures HasLookup(t, i) {
      var l :| l in s.lookups && s.lookups[l].entry == i;
      assert l in t.lookups && t.lookups[l].entry == i;
    }
  }

  lemma LaunchedKeeps(s: State, e: nat, r: Request, external: bool)
    requires Inv(s, external) && e < |s.entries| && IsCached(s, e) && s.entries[e].id.Unknown?
    ensures Inv(Launched(s, e, r), external)
  {
    assert !HasLookup(s, e);
    LaunchedShape(s, e, r);
  }

  lemma LaunchedIs(s: State, e: nat, r: Request)
    requires e < |s.entries| && s.entries[e].id.Unknown? && Takes(s, r, false)
    ensures Dispatching(s, e, r, false, Started, true).0 == Launched(s, e, r)
  {
    var entry := s.entries[e];
    var queue := entry.queue + [r];
    assert s.entries[e := entry.(queue := queue)][e := entry.(queue := queue, id := Pending)]
        == s.entries[e := entry.(id := Pending, queue := queue)];
  }

  /** The failing entry has no lookup any more. */
  lemma FailingKeeps(s: State, e: nat, external: bool)
    requires Structured(s) && e < |s.entries| && IsCached(s, e) && !HasLookup(s, e)
    requires Single(s) && Underway(s, external) && NamesComplete(s) && Clean(s)
    requires forall n :: n in s.cache && s.cache[n] != e && s.entries[s.cache[n]].id.Pending? ==>
                           HasLookup(s, s.cache[n])
    requires forall i :: 0 <= i < |s.entries| && i != e && s.entries[i].queue != [] ==>
                           IsCached(s, i)
    ensures Inv(Failing(s, e), external)
  {
    var t := Failing(s, e);
    forall i | 0 <= i < |s.entries| ensures HasLookup(s, i) ==> HasLookup(t, i) {
    }
  }

  lemma {:induction false} ForwardsKnown(queue: seq<Request>, number: nat, unparsed: set<Request>)
    ensures forall i :: 0 <= i < |Forwards(queue, Known(number), unparsed)| ==>
                          Forwards(queue, Known(number), unparsed)[i].id == Known(number)
  {
    if queue != [] {
      ForwardsKnown(queue[..|queue| - 1], number, unparsed);
    }
  }

  /** What holds once lookup l has ended, before its handler runs. */
  lemma LookupEnds(s: State, l: nat, external: bool)
    requires Inv(s, external) && l in s.lookups
    ensures var t, e := s.(lookups := s.lookups - {l}), s.lookups[l].entry;
            && Structured(t) && e < |t.entries| && IsCached(t, e) && !HasLookup(t, e)
            && Single(t) && Underway(t, external)
            && (forall n :: n in t.cache && t.cache[n] != e && t.entries[t.cache[n]].id.Pending? ==>
                              HasLookup(t, t.cache[n]))
            && (forall i :: 0 <= i < |t.entries| && i != e && t.entries[i].queue != [] ==>
                              IsCached(t, i))
  {
    var t, e := s.(lookups := s.lookups - {l}), s.lookups[l].entry;
    forall i | HasLookup(s, i) && i != e ensures HasLookup(t, i) {
      var m :| m in s.lookups && s.lookups[m].entry == i;
      assert m in t.lookups && t.lookups[m].entry == i;
    }
  }

  lemma SucceedingIs(s: State, e: nat, number: nat, unparsed: set<Request>)
    requires CacheOk(s) && e < |s.entries| && IsCached(s, e) && Complete(s.entries[e].name)
    ensures Succeeding(s, e, number, unparsed) ==
            Changed(s, e, Known(number), [], s.sent + Forwards(s.entries[e].queue, Known(number), unparsed)).(
              owner := s.owner - Members(s.entries[e].queue))
  {
  }

  lemma SucceedKeeps(s: State, l: nat, number: nat, unparsed: set<Request>, external: bool)
    requires Inv(s, external) && l in s.lookups
    ensures Inv(Step(s, Succeed(l, number, unparsed)), external)
  {
    LookupEnds(s, l, external);
    var t, e := s.(lookups := s.lookups - {l}), s.lookups[l].entry;
    var sent := t.sent + Forwards(t.entries[e].queue, Known(number), unparsed);
    SucceedingIs(t, e, number, unparsed);
    ForwardsKnown(t.entries[e].queue, number, unparsed);
    ChangedShape(t, e, Known(number), [], sent);
    ChangedAwaited(t, e, Known(number), [], sent);
    ChangedUnderway(t, e, Known(number), [], sent, external);
    ChangedParked(t, e, Known(number), [], sent);
    AsideKeeps(Changed(t, e, Known(number), [], sent), t.owner - Members(t.entries[e].queue), t.completed, t.failed,
               external);
  }

  lemma FailKeeps(s: State, l: nat, notFound: bool, retried: bool, external: bool)
    requires Inv(s, external) && Owned(s) && l in s.lookups
    ensures Inv(Step(s, Fail(l, notFound, retried)), external)
  {
    LookupEnds(s, l, external);
    FailIs(s, l, notFound, retried);
    var t, e := s.(lookups := s.lookups - {l}), s.lookups[l].entry;
    if notFound {
      FailingUnknownKeeps(t, e, external);
    } else {
      FailingKeeps(t, e, external);
    }
  }

  lemma FailingUnknownKeeps(s: State, e: nat, external: bool)
    requires Structured(s) && e < |s.entries| && IsCached(s, e) && !HasLookup(s, e)
    requires Single(s) && Underway(s, external) && NamesComplete(s) && Clean(s)
    requires forall n :: n in s.cache && s.cache[n] != e && s.entries[s.cache[n]].id.Pending? ==>
                           HasLookup(s, s.cache[n])
    requires forall i :: 0 <= i < |s.entries| && i != e && s.entries[i].queue != [] ==>
                           IsCached(s, i)
    ensures Inv(Failing(SetId(s, e, Unknown), e), external)
  {
    var queue := s.entries[e].queue;
    var t := Changed(s, e, Unknown, queue, s.sent);
    ChangedShape(s, e, Unknown, queue, s.sent);
    ChangedUnderway(s, e, Unknown, queue, s.sent, external);
    assert forall i :: 0 <= i < |s.entries| ==> (HasLookup(t, i) <==> HasLookup(s, i));
    FailingKeeps(t, e, external);
  }

  /** A lookup that is refused after its callback was called leaves nothing behind. */
  lemma CalledBackKeeps(s: State, e: nat, r: Request, external: bool)
    requires Inv(s, external) && e < |s.entries| && IsCached(s, e) && s.entries[e].id.Unknown?
    ensures Inv(SetId(Failing(Push(s, e, r), e), e, Unknown), external)
  {
    assert !HasLookup(s, e);
    FailingKeeps(s, e, external);
    var t, u := Failing(s, e), SetId(Failing(Push(s, e, r), e), e, Unknown);
    assert u.entries == t.entries && u == t.(owner := u.owner, completed := u.completed, failed := u.failed);
    AsideKeeps(t, u.owner, u.completed, u.failed, external);
  }

  lemma SentKeeps(s: State, r: Request, n: nat, external: bool)
    requires Inv(s, external)
    ensures Inv(s.(sent := s.sent + [Forward(r, Known(n))]), external)
  {
    var t := s.(sent := s.sent + [Forward(r, Known(n))]);
    assert forall i :: 0 <= i < |s.entries| ==>
                         (HasLookup(t, i) <==> HasLookup(s, i)) && (IsCached(t, i) <==> IsCached(s, i));
  }

  lemma UnknownKeeps(s: State, e: nat, r: Request, start: Start, external: bool)
    requires Inv(s, external) && e < |s.entries| && IsCached(s, e)
    requires s.entries[e].id.Unknown? && Takes(s, r, false)
    ensures Inv(Dispatching(s, e, r, false, start, true).0, external)
  {
    match start
    case Started =>
      LaunchedKeeps(s, e, r, external);
      LaunchedIs(s, e, r);
    case Refused => QueueKeeps(s, e, r, external);
    case CalledBack => CalledBackKeeps(s, e, r, external);
  }

  lemma DispatchingKeeps(s: State, e: nat, r: Request, full: bool, start: Start, parses: bool, external: bool)
    requires Inv(s, external) && e < |s.entries| && IsCached(s, e)
    ensures Inv(Dispatching(s, e, r, full, start, parses).0, external)
  {
    match s.entries[e].id
    case Unknown =>
      if Takes(s, r, full) {
        UnknownKeeps(s, e, r, start, external);
      }
    case Pending =>
      if Takes(s, r, full) {
        assert HasLookup(s, s.cache[s.entries[e].name]);
        QueueKeeps(s, e, r, external);
      }
    case Known(n) =>
      if parses {
        SentKeeps(s, r, n, external);
      }
  }

  lemma ResettingKeeps(s: State, n: Name, external: bool)
    requires Inv(s, external) && Complete(n) && (external ==> !Clashes(s, n))
    ensures var t := WithEntry(s, n, Unknown);
            && n in t.cache && t.cache[n] < |t.entries|
            && Inv(Reset(t, t.cache[n]), external) && IsCached(Reset(t, t.cache[n]), t.cache[n])
  {
    WithEntryKeeps(s, n, external);
    var t := WithEntry(s, n, Unknown);
    ResetKeeps(t, t.cache[n], external);
  }

  lemma ReQueueKeeps(s: State, n: Name, r: Request, full: bool, start: Start, parses: bool, external: bool)
    requires Inv(s, external) && Complete(n) && (external ==> !Clashes(s, n))
    ensures Inv(Step(s, ReQueue(n, r, full, start, parses)), external)
  {
    ResettingKeeps(s, n, external);
    var t := WithEntry(s, n, Unknown);
    var u := Reset(t, t.cache[n]);
    DispatchingKeeps(u, t.cache[n], r, full, start, parses, external);
    var v := Dispatching(u, t.cache[n], r, full, start, parses).0;
    CallBackKeeps(v, r, external);
  }

  lemma StepKeeps(s: State, e: Event, external: bool)
    requires Inv(s, external) && Owned(s) && Enabled(s, e) && Allowed(s, e, external)
    ensures Inv(Step(s, e), external)
  {
    match e
    case Dispatch(n, r, full, start, parses) =>
      WithEntryKeeps(s, n, external);
      var t := WithEntry(s, n, Unknown);
      DispatchingKeeps(t, t.cache[n], r, full, start, parses, external);
    case ReQueue(n, r, full, start, parses) =>
      ReQueueKeeps(s, n, r, full, start, parses, external);
    case Succeed(l, number, unparsed) =>
      SucceedKeeps(s, l, number, unparsed, external);
    case Fail(l, notFound, retried) =>
      FailKeeps(s, l, notFound, retried, external);
    case External(n, number) =>
      UpsertKeeps(s, Asked(n), number);
    case Cancel(r) =>
      CancelIs(s, r);
      CallBackKeeps(s, r, external);
  }

  // ---- runs ----

  ghost predicate AllowedAt(states: seq<State>, events: seq<Event>, i: nat, external: bool) {
    i < |events| && i < |states| && Structured(states[i]) && Allowed(states[i], events[i], external)
  }

  /** Every event is allowed in the state in which it happens. */
  ghost predicate AllAllowed(states: seq<State>, events: seq<Event>, external: bool) {
    forall i: nat {:trigger AllowedAt(states, events, i, external)} ::
      i < |events| ==> AllowedAt(states, events, i, external)
  }

  lemma NextInvariant(states: seq<State>, events: seq<Event>, external: bool, i: nat)
    requires Run(states, events) && AllAllowed(states, events, external) && i < |events| && Inv(states[i], external)
    ensures Inv(states[i + 1], external)
  {
    RunSound(states, events, i);
    assert Follows(states, events, i) && AllowedAt(states, events, i, external);
    StepKeeps(states[i], events[i], external);
  }

  lemma {:induction false} RunInvariant(states: seq<State>, events: seq<Event>, external: bool, i: nat)
    requires Run(states, events) && AllAllowed(states, events, external) && i <= |events|
    ensures Inv(states[i], external)
  {
    if i > 0 {
      RunInvariant(states, events, external, i - 1);
      NextInvariant(states, events, external, i - 1);
    }
  }

  // ---- a pending entry has its lookup, in every run ----

  ghost predicate Awaits(s: State) {
    Structured(s) && Awaited(s) && NamesComplete(s)
  }

  lemma AsideAwaits(s: State, owner: map<Request, nat>, completed: set<Request>, failed: seq<Request>,
                    sent: seq<Forward>)
    requires Awaits(s) && OwnersOk(s.(owner := owner))
    ensures Awaits(s.(owner := owner, completed := completed, failed := failed, sent := sent))
  {
    var t := s.(owner := owner, completed := completed, failed := failed, sent := sent);
    assert forall i :: 0 <= i < |s.entries| ==> (HasLookup(t, i) <==> HasLookup(s, i));
  }

  lemma CallBackAwaits(s: State, r: Request)
    requires Awaits(s)
    ensures Awaits(CallBack(s, r))
  {
    AsideAwaits(s, s.owner, s.completed + {r}, s.failed + [r], s.sent);
  }

  lemma ChangedAwaits(s: State, e: nat, id: Id, queue: seq<Request>)
    requires Awaits(s) && e < |s.entries| && (id.Pending? ==> HasLookup(s, e))
    ensures Awaits(Changed(s, e, id, queue, s.sent))
  {
    ChangedShape(s, e, id, queue, s.sent);
    ChangedAwaited(s, e, id, queue, s.sent);
  }

  lemma UpsertAwaits(s: State, n: Name, id: Id)
    requires Awaits(s) && Complete(n) && !id.Pending?
    ensures Awaits(Upsert(s, n, id)) && |Upsert(s, n, id).entries| >= |s.entries|
  {
    if n in s.cache {
      ChangedAwaits(s, s.cache[n], id, s.entries[s.cache[n]].queue);
    } else {
      AppendedShape(s, n, id);
      AppendedAwaited(s, n, id);
    }
  }

  lemma WithEntryAwaits(s: State, n: Name)
    requires Awaits(s) && Complete(n)
    ensures Awaits(WithEntry(s, n, Unknown)) && n in WithEntry(s, n, Unknown).cache
  {
    if n !in s.cache {
      UpsertAwaits(s, n, Unknown);
    }
  }

  lemma ResetAwaits(s: State, e: nat)
    requires Awaits(s) && e < |s.entries|
    ensures Awaits(Reset(s, e))
  {
    ChangedAwaits(s, e, Unknown, s.entries[e].queue);
  }

  lemma PushAwaits(s: State, e: nat, r: Request)
    requires Awaits(s) && e < |s.entries| && (s.entries[e].id.Pending? ==> HasLookup(s, e))
    ensures Awaits(Push(s, e, r))
  {
    var queue := s.entries[e].queue + [r];
    ChangedAwaits(s, e, s.entries[e].id, queue);
    AsideAwaits(Changed(s, e, s.entries[e].id, queue, s.sent), s.owner[r := e], s.completed, s.failed, s.sent);
  }

  lemma LaunchedAwaits(s: State, e: nat, r: Request)
    requires Awaits(s) && e < |s.entries|
    ensures Awaits(Launched(s, e, r))
  {
    var t := Launched(s, e, r);
    assert t.lookups[s.next].entry == e;
    forall n | n in t.cache && t.entries[t.cache[n]].id.Pending? ensures HasLookup(t, t.cache[n]) {
      if t.cache[n] != e {
        var l :| l in s.lookups && s.lookups[l].entry == s.cache[n];
        assert l in t.lookups && t.lookups[l].entry == t.cache[n];
      }
    }
  }

  /** Entry e may be pending without a lookup, since it leaves the cache. */
  lemma FailingAwaits(s: State, e: nat)
    requires Structured(s) && NamesComplete(s) && e < |s.entries|
    requires forall n :: n in s.cache && s.cache[n] != e && s.entries[s.cache[n]].id.Pending? ==>
                           HasLookup(s, s.cache[n])
    ensures Awaits(Failing(s, e))
  {
    var t := Failing(s, e);
    forall n | n in t.cache && t.entries[t.cache[n]].id.Pending? ensures HasLookup(t, t.cache[n]) {
      assert HasLookup(s, s.cache[n]);
    }
  }

  lemma UnknownAwaits(s: State, e: nat, r: Request, start: Start)
    requires Awaits(s) && e < |s.entries| && s.entries[e].id.Unknown? && Takes(s, r, false)
    ensures Awaits(Dispatching(s, e, r, false, start, true).0)
  {
    match start
    case Started =>
      LaunchedAwaits(s, e, r);
      LaunchedIs(s, e, r);
    case Refused => PushAwaits(s, e, r);
    case CalledBack =>
      PushAwaits(s, e, r);
      FailingAwaits(Push(s, e, r), e);
      var t := Failing(Push(s, e, r), e);
      ChangedAwaits(t, e, Unknown, t.entries[e].queue);
  }

  lemma DispatchingAwaits(s: State, e: nat, r: Request, full: bool, start: Start, parses: bool)
    requires Awaits(s) && e < |s.entries| && IsCached(s, e)
    ensures Awaits(Dispatching(s, e, r, full, start, parses).0)
  {
    match s.entries[e].id
    case Unknown =>
      if Takes(s, r, full) {
        UnknownAwaits(s, e, r, start);
      }
    case Pending =>
      assert HasLookup(s, s.cache[s.entries[e].name]);
      PushAwaits(s, e, r);
    case Known(n) =>
      AsideAwaits(s, s.owner, s.completed, s.failed, s.sent + [Forward(r, Known(n))]);
  }

  lemma ReQueueAwaits(s: State, n: Name, r: Request, full: bool, start: Start, parses: bool)
    requires Awaits(s) && Complete(n)
    ensures Awaits(Step(s, ReQueue(n, r, full, start, parses)))
  {
    WithEntryAwaits(s, n);
    var t := WithEntry(s, n, Unknown);
    ResetAwaits(t, t.cache[n]);
    DispatchingAwaits(Reset(t, t.cache[n]), t.cache[n], r, full, start, parses);
    var v := Dispatching(Reset(t, t.cache[n]), t.cache[n], r, full, start, parses).0;
    CallBackAwaits(v, r);
  }

  /** Without lookup l only its entry may be pending without one. */
  lemma EndedAwaits(s: State, l: nat)
    requires Awaits(s) && l in s.lookups
    ensures var t, e := s.(lookups := s.lookups - {l}), s.lookups[l].entry;
            && Structured(t) && NamesComplete(t)
            && forall n :: n in t.cache && t.cache[n] != e && t.entries[t.cache[n]].id.Pending? ==>
                             HasLookup(t, t.cache[n])
  {
    var t, e := s.(lookups := s.lookups - {l}), s.lookups[l].entry;
    forall n | n in t.cache && t.cache[n] != e && t.entries[t.cache[n]].id.Pending? ensures HasLookup(t, t.cache[n]) {
      var m :| m in s.lookups && s.lookups[m].entry == s.cache[n];
      assert m in t.lookups && t.lookups[m].entry == t.cache[n];
    }
  }

  /** An answer is cached for the name of its entry, so that entry is not left pending in the cache. */
  lemma AnswerAwaits(s: State, e: nat, number: nat)
    requires Structured(s) && NamesComplete(s) && e < |s.entries|
    requires forall n :: n in s.cache && s.cache[n] != e && s.entries[s.cache[n]].id.Pending? ==>
                           HasLookup(s, s.cache[n])
    ensures Awaits(Upsert(s, s.entries[e].name, Known(number)))
    ensures e < |Upsert(s, s.entries[e].name, Known(number)).entries|
  {
    var name := s.entries[e].name;
    var t := Upsert(s, name, Known(number));
    if name in s.cache {
      ChangedShape(s, s.cache[name], Known(number), s.entries[s.cache[name]].queue, s.sent);
    } else {
      AppendedShape(s, name, Known(number));
    }
    forall n | n in t.cache && t.entries[t.cache[n]].id.Pending? ensures HasLookup(t, t.cache[n]) {
      assert n != name && n in s.cache && s.cache[n] == t.cache[n];
      assert HasLookup(s, s.cache[n]);
    }
  }

  lemma DrainAwaits(s: State, e: nat)
    requires Awaits(s) && e < |s.entries|
    ensures Awaits(Drain(s, e))
  {
    var t := Drain(s, e);
    forall n | n in t.cache && t.entries[t.cache[n]].id.Pending? ensures HasLookup(t, t.cache[n]) {
      assert HasLookup(s, s.cache[n]);
    }
  }

  lemma SucceedingAwaits(s: State, e: nat, number: nat, unparsed: set<Request>)
    requires Structured(s) && NamesComplete(s) && e < |s.entries|
    requires forall n :: n in s.cache && s.cache[n] != e && s.entries[s.cache[n]].id.Pending? ==>
                           HasLookup(s, s.cache[n])
    ensures Awaits(Succeeding(s, e, number, unparsed))
  {
    AnswerAwaits(s, e, number);
    assert Asked(s.entries[e].name) == s.entries[e].name;
    var known := Upsert(s, s.entries[e].name, Known(number));
    DrainAwaits(known, e);
    var t := Drain(known, e);
    AsideAwaits(t, t.owner, t.completed, t.failed, Succeeding(s, e, number, unparsed).sent);
  }

  lemma FailAwaits(s: State, l: nat, notFound: bool, retried: bool)
    requires Awaits(s) && Owned(s) && l in s.lookups
    ensures Awaits(Step(s, Fail(l, notFound, retried)))
  {
    EndedAwaits(s, l);
    FailIs(s, l, notFound, retried);
    var t, e := s.(lookups := s.lookups - {l}), s.lookups[l].entry;
    if notFound {
      var queue := t.entries[e].queue;
      ChangedShape(t, e, Unknown, queue, t.sent);
      assert forall i :: 0 <= i < |s.entries| ==>
                           (HasLookup(Changed(t, e, Unknown, queue, t.sent), i) <==> HasLookup(t, i));
      FailingAwaits(Changed(t, e, Unknown, queue, t.sent), e);
    } else {
      FailingAwaits(t, e);
    }
  }

  lemma StepAwaits(s: State, ev: Event)
    requires Awaits(s) && Owned(s) && Enabled(s, ev) && Named(ev)
    ensures Awaits(Step(s, ev))
  {
    match ev
    case Dispatch(n, r, full, start, parses) =>
      WithEntryAwaits(s, n);
      var t := WithEntry(s, n, Unknown);
      DispatchingAwaits(t, t.cache[n], r, full, start, parses);
    case ReQueue(n, r, full, start, parses) =>
      ReQueueAwaits(s, n, r, full, start, parses);
    case Succeed(l, number, unparsed) =>
      EndedAwaits(s, l);
      SucceedingAwaits(s.(lookups := s.lookups - {l}), s.lookups[l].entry, number, unparsed);
    case Fail(l, notFound, retried) =>
      FailAwaits(s, l, notFound, retried);
    case External(n, number) =>
      UpsertAwaits(s, Asked(n), Known(number));
    case Cancel(r) =>
      CancelIs(s, r);
      CallBackAwaits(s, r);
  }

  ghost predicate AllNamed(events: seq<Event>) {
    forall i :: 0 <= i < |events| ==> Named(events[i])
  }

  lemma NextAwaits(states: seq<State>, events: seq<Event>, i: nat)
    requires Run(states, events) && AllNamed(events) && i < |events| && Awaits(states[i])
    ensures Awaits(states[i + 1])
  {
    RunSound(states, events, i);
    assert Follows(states, events, i);
    StepAwaits(states[i], events[i]);
  }

  lemma {:induction false} RunAwaits(states: seq<State>, events: seq<Event>, i: nat)
    requires Run(states, events) && AllNamed(events) && i <= |events|
    ensures Awaits(states[i])
  {
    if i > 0 {
      RunAwaits(states, events, i - 1);
      NextAwaits(states, events, i - 1);
    }
  }
}
