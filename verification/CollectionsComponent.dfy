/** The handlers of the collection cache, as they change its state. */
module CollectionsComponent {
  import opened Collections

  lemma {:induction false} WithoutAt(queue: seq<Request>, r: Request, i: nat)
    requires i < |queue| && queue[i] == r && r !in queue[..i]
    ensures Without(queue, r) == queue[..i] + queue[i + 1..]
  {
    if i > 0 {
      assert queue[0] in queue[..i] && queue[1..][..i - 1] == queue[..i][1..];
      WithoutAt(queue[1..], r, i - 1);
    }
  }

  /** The first position of the request, or the length of the queue. */
  method Find(queue: seq<Request>, r: Request) returns (i: nat)
    ensures i <= |queue| && r !in queue[..i]
    ensures i < |queue| ==> queue[i] == r
    ensures i == |queue| <==> r !in queue
  {
    i := 0;
    while i < |queue| && queue[i] != r
      invariant i <= |queue| && r !in queue[..i]
    {
      i := i + 1;
    }
    assert i == |queue| ==> queue[..i] == queue;
  }

  class Component {
    var entries: seq<Entry>
    var cache: map<Name, nat>
    var lookups: map<nat, Lookup>
    var next: nat
    var owner: map<Request, nat>
    var completed: set<Request>
    var sent: seq<Forward>
    var failed: seq<Request>

    ghost function Value(): State
      reads this
    {
      State(entries, cache, lookups, next, owner, completed, sent, failed)
    }

    constructor ()
      ensures Value() == INITIAL
    {
      entries, cache, lookups, next := [], map[], map[], 0;
      owner, completed, sent, failed := map[], {}, [], [];
    }

    method GetAndMaybeInsert(n: Name, id: Id) returns (e: nat)
      requires CacheOk(Value())
      modifies `entries, `cache
      ensures Value() == WithEntry(old(Value()), n, id) && CacheOk(Value())
      ensures n in cache && e == cache[n] < |entries|
    {
      if n !in cache {
        cache := cache[n := |entries|];
        entries := entries + [Entry(n, id, [])];
      }
      e := cache[n];
    }

    method UpsertId(n: Name, number: nat)
      requires CacheOk(Value())
      modifies `entries, `cache
      ensures Value() == Upsert(old(Value()), n, Known(number)) && |entries| >= |old(entries)|
    {
      if n in cache {
        var e := cache[n];
        entries := entries[e := entries[e].(id := Known(number))];
      } else {
        var _ := GetAndMaybeInsert(n, Known(number));
      }
    }

    /** The owner is set first, and unset again if the request turns out to be cancelled. */
    method PushRequest(e: nat, r: Request, full: bool) returns (ok: bool)
      requires e < |entries|
      modifies `entries, `owner
      ensures ok <==> Takes(old(Value()), r, full)
      ensures Value() == if ok then Push(old(Value()), e, r) else old(Value())
    {
      if full || r in owner {
        return false;
      }
      owner := owner[r := e];
      if r in completed {
        owner := owner - {r};
        assert owner == old(owner);
        return false;
      }
      entries := entries[e := entries[e].(queue := entries[e].queue + [r])];
      ok := true;
    }

    method RemoveRequest(e: nat, r: Request) returns (removed: bool)
      requires e < |entries|
      modifies `entries
      ensures (Value(), removed) == Remove(old(Value()), e, r)
    {
      if r in owner {
        return false;
      }
      var queue := entries[e].queue;
      var i := Find(queue, r);
      if i == |queue| {
        return false;
      }
      WithoutAt(queue, r, i);
      entries := entries[e := entries[e].(queue := queue[..i] + queue[i + 1..])];
      removed := true;
    }

    method TryCallback(r: Request)
      modifies `completed, `failed
      ensures Value() == CallBack(old(Value()), r)
    {
      if r !in completed {
        completed, failed := completed + {r}, failed + [r];
      }
    }

    method CallBackAll(queue: seq<Request>)
      modifies `completed, `failed
      ensures completed == old(completed) + Members(queue) && failed == old(failed) + Uncalled(queue, old(completed))
    {
      for i := 0 to |queue|
        invariant completed == old(completed) + Members(queue[..i])
        invariant failed == old(failed) + Uncalled(queue[..i], old(completed))
      {
        assert queue[..i + 1][..i] == queue[..i];
        TryCallback(queue[i]);
      }
      assert queue[..|queue|] == queue;
    }

    /** The queue is swapped out, and its requests are called back one by one. */
    method FailQueue(e: nat)
      requires e < |entries|
      modifies `entries, `cache, `owner, `completed, `failed
      ensures Value() == Failing(old(Value()), e) && |entries| == |old(entries)|
    {
      var entry := entries[e];
      cache := cache - {entry.name};
      entries := entries[e := entry.(queue := [])];
      owner := owner - Members(entry.queue);
      CallBackAll(entry.queue);
    }

    method RefreshCollectionId(e: nat, r: Request, full: bool, start: Start) returns (ok: bool)
      requires e < |entries| && entries[e].id.Unknown?
      modifies this
      ensures (Value(), ok) == Dispatching(old(Value()), e, r, full, start, true)
    {
      ghost var entry := entries[e];
      entries := entries[e := entries[e].(id := Pending)];
      var taken := PushRequest(e, r, full);
      if !taken {
        entries := entries[e := entries[e].(id := Unknown)];
        assert entries == old(entries);
        return false;
      }
      ghost var queued := Push(old(Value()), e, r).entries;
      assert entries == queued[e := queued[e].(id := Pending)];
      assert entries[e := entries[e].(id := Unknown)] == queued;
      match start
      case Started =>
        lookups := lookups[next := Lookup(e, r)];
        next := next + 1;
        ok := true;
      case Refused =>
        entries := entries[e := entries[e].(id := Unknown)];
        ok := false;
      case CalledBack =>
        FailQueue(e);
        entries := entries[e := entries[e].(id := Unknown)];
        assert entries == SetId(Failing(Push(old(Value()), e, r), e), e, Unknown).entries;
        ok := false;
    }

    method DispatchEntry(e: nat, r: Request, full: bool, start: Start, parses: bool) returns (ok: bool)
      requires e < |entries|
      modifies this
      ensures (Value(), ok) == Dispatching(old(Value()), e, r, full, start, parses)
    {
      if entries[e].id.Unknown? {
        ok := RefreshCollectionId(e, r, full, start);
      } else if entries[e].id.Pending? {
        ok := PushRequest(e, r, full);
      } else {
        ok := parses;
        if ok {
          sent := sent + [Forward(r, entries[e].id)];
        }
      }
    }

    method DispatchRequest(n: Name, r: Request, full: bool, start: Start, parses: bool) returns (ok: bool)
      requires Structured(Value())
      modifies this
      ensures Value() == Step(old(Value()), Dispatch(n, r, full, start, parses))
      ensures old(n in cache && entries[cache[n]].id.Known?) && parses ==>
                ok && sent == old(sent) + [Forward(r, Known(old(entries[cache[n]].id.number)))]
      ensures old(n in cache && entries[cache[n]].id.Known?) && !parses ==> !ok && Value() == old(Value())
    {
      var e := GetAndMaybeInsert(n, Unknown);
      ok := DispatchEntry(e, r, full, start, parses);
    }

    method ReQueueRequest(n: Name, r: Request, full: bool, start: Start, parses: bool)
      requires Structured(Value())
      modifies this
      ensures Value() == Step(old(Value()), ReQueue(n, r, full, start, parses))
    {
      var e := GetAndMaybeInsert(n, Unknown);
      if entries[e].id.Known? {
        entries := entries[e := entries[e].(id := Unknown)];
      }
      var ok := DispatchEntry(e, r, full, start, parses);
      if !ok {
        TryCallback(r);
      }
    }

    /** The answer is cached first; then the queue is sent on with the identifier of the entry. */
    method LookupSucceeded(l: nat, number: nat, unparsed: set<Request>)
      requires Structured(Value()) && l in lookups
      modifies this
      ensures Value() == Step(old(Value()), Succeed(l, number, unparsed))
    {
      var e := lookups[l].entry;
      lookups := lookups - {l};
      UpsertId(Asked(entries[e].name), number);
      var entry := entries[e];
      entries := entries[e := entry.(queue := [])];
      owner := owner - Members(entry.queue);
      ghost var now := Value();
      for i := 0 to |entry.queue|
        invariant Value() == now.(sent := now.sent + Forwards(entry.queue[..i], entry.id, unparsed))
      {
        assert entry.queue[..i + 1][..i] == entry.queue[..i];
        if entry.queue[i] !in unparsed {
          sent := sent + [Forward(entry.queue[i], entry.id)];
        }
      }
      assert entry.queue[..|entry.queue|] == entry.queue;
    }

    /** The request that asked is retried if it could be taken out of the queue; otherwise all are called back. */
    method LookupFailed(l: nat, notFound: bool, retried: bool)
      requires Structured(Value()) && l in lookups
      modifies this
      ensures Value() == Step(old(Value()), Fail(l, notFound, retried))
    {
      var e, r := lookups[l].entry, lookups[l].request;
      lookups := lookups - {l};
      if notFound {
        entries := entries[e := entries[e].(id := Unknown)];
        var removed := RemoveRequest(e, r);
        if removed && retried {
          return;
        }
      }
      FailQueue(e);
    }

    method CancelRequest(r: Request)
      requires Structured(Value())
      modifies `entries, `completed, `failed
      ensures Value() == Step(old(Value()), Cancel(r))
    {
      if r in completed {
        return;
      }
      completed, failed := completed + {r}, failed + [r];
      if r in owner {
        var _ := RemoveRequest(owner[r], r);
      }
    }
  }
}
