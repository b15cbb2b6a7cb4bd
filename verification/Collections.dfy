/** The cache of collection identifiers, and the requests that wait in it for a lookup. */
module Collections {
  import opened Options

  /** The two sentinels, and the identifiers that the server gives out. */
  datatype Id = Unknown | Pending | Known(number: nat)

  datatype Name = Name(scope: string, collection: string)

  type Request = nat

  datatype Entry = Entry(name: Name, id: Id, queue: seq<Request>)

  /** A request sent on, with the identifier assigned to it. */
  datatype Forward = Forward(request: Request, id: Id)

  /** A lookup, with the request that asked for it. */
  datatype Lookup = Lookup(entry: nat, request: Request)

  /**
   Entries live on while a lookup refers to them, even when they are no longer cached. owner gives the
   queue that a request believes itself in, by the entry whose queue it is; completed are the requests
   that have been called back or cancelled.
   */
  datatype State = State(
    entries: seq<Entry>,
    cache: map<Name, nat>,
    lookups: map<nat, Lookup>,
    next: nat,
    owner: map<Request, nat>,
    completed: set<Request>,
    sent: seq<Forward>,
    failed: seq<Request>)

  const INITIAL: State := State([], map[], map[], 0, map[], {}, [], [])

  // ---- the queue of an entry ----

  function SetQueue(s: State, e: nat, queue: seq<Request>): State
    requires e < |s.entries|
  {
    s.(entries := s.entries[e := s.entries[e].(queue := queue)])
  }

  /** A queue takes a request that is in no queue and not completed, unless it is full. */
  predicate Takes(s: State, r: Request, full: bool) {
    !full && r !in s.owner && r !in s.completed
  }

  function Push(s: State, e: nat, r: Request): State
    requires e < |s.entries|
  {
    SetQueue(s, e, s.entries[e].queue + [r]).(owner := s.owner[r := e])
  }

  function Without(queue: seq<Request>, r: Request): seq<Request> {
    if queue == [] then []
    else if queue[0] == r then queue[1..]
    else [queue[0]] + Without(queue[1..], r)
  }

  /** Whether the request was removed. Its owner is compared with none, and not with this queue. */
  function Remove(s: State, e: nat, r: Request): (State, bool)
    requires e < |s.entries|
  {
    if r in s.owner then (s, false)
    else if r in s.entries[e].queue then (SetQueue(s, e, Without(s.entries[e].queue, r)), true)
    else (s, false)
  }

  function Members(queue: seq<Request>): set<Request> {
    set r | r in queue
  }

  function Drain(s: State, e: nat): State
    requires e < |s.entries|
  {
    SetQueue(s, e, []).(owner := s.owner - Members(s.entries[e].queue))
  }

  // ---- parts of the handlers ----

  /** A lookup asks for the default scope or collection where a name is empty. */
  function Asked(n: Name): Name {
    Name(if n.scope == "" then "_default" else n.scope, if n.collection == "" then "_default" else n.collection)
  }

  function WithEntry(s: State, n: Name, id: Id): State {
    if n in s.cache then s
    else s.(entries := s.entries + [Entry(n, id, [])], cache := s.cache[n := |s.entries|])
  }

  function SetId(s: State, e: nat, id: Id): State
    requires e < |s.entries|
  {
    s.(entries := s.entries[e := s.entries[e].(id := id)])
  }

  function Upsert(s: State, n: Name, id: Id): State
    requires n in s.cache ==> s.cache[n] < |s.entries|
  {
    if n in s.cache then SetId(s, s.cache[n], id) else WithEntry(s, n, id)
  }

  function Forwards(queue: seq<Request>, id: Id, unparsed: set<Request>): seq<Forward> {
    if queue == [] then []
    else
      var rest := Forwards(queue[..|queue| - 1], id, unparsed);
      var r := queue[|queue| - 1];
      if r in unparsed then rest else rest + [Forward(r, id)]
  }

  /** A request is called back with an error, unless it is completed already. */
  function CallBack(s: State, r: Request): State {
    if r in s.completed then s else s.(completed := s.completed + {r}, failed := s.failed + [r])
  }

  /** The requests that are called back when all of the queue are to be, in order. */
  function Uncalled(queue: seq<Request>, completed: set<Request>): seq<Request> {
    if queue == [] then []
    else
      var before, r := queue[..|queue| - 1], queue[|queue| - 1];
      Uncalled(before, completed) + if r in completed || r in before then [] else [r]
  }

  /** The entry leaves the cache, and its queue is called back with the error, but for requests that are completed. */
  function Failing(s: State, e: nat): State
    requires e < |s.entries|
  {
    var queue := s.entries[e].queue;
    Drain(s, e).(cache := s.cache - {s.entries[e].name},
                 completed := s.completed + Members(queue),
                 failed := s.failed + Uncalled(queue, s.completed))
  }

  // ---- the handlers ----

  /** What becomes of the lookup: it may be refused, with or without its callback being called. */
  datatype Start = Started | Refused | CalledBack

  /**
   Requests that carry an identifier, and those for no or for the default collection, go straight on and
   do not get here. full stands for a queue at its limit; retried says whether a retry was scheduled for
   the request that asked.
   */
  datatype Event =
    | Dispatch(name: Name, request: Request, full: bool, start: Start, parses: bool)
    | ReQueue(name: Name, request: Request, full: bool, start: Start, parses: bool)
    | Succeed(lookup: nat, number: nat, unparsed: set<Request>)
    | Fail(lookup: nat, notFound: bool, retried: bool)
    | External(name: Name, number: nat)
    | Cancel(request: Request)

  /** Whether the request was accepted. */
  function Dispatching(s: State, e: nat, r: Request, full: bool, start: Start, parses: bool): (State, bool)
    requires e < |s.entries|
  {
    match s.entries[e].id
    case Unknown =>
      if !Takes(s, r, full) then (s, false)
      else
        var queued := Push(s, e, r);
        (match start
         case Started =>
           (SetId(queued, e, Pending).(lookups := s.lookups[s.next := Lookup(e, r)], next := s.next + 1), true)
         case Refused => (queued, false)
         case CalledBack => (SetId(Failing(queued, e), e, Unknown), false))
    case Pending =>
      if Takes(s, r, full) then (Push(s, e, r), true) else (s, false)
    case Known(n) =>
      if parses then (s.(sent := s.sent + [Forward(r, Known(n))]), true) else (s, false)
  }

  function Reset(s: State, e: nat): State
    requires e < |s.entries|
  {
    if s.entries[e].id.Known? then SetId(s, e, Unknown) else s
  }

  /** The lookup of entry e brought an identifier: it is cached first, then the queue is sent on. */
  function Succeeding(s: State, e: nat, number: nat, unparsed: set<Request>): State
    requires e < |s.entries| && CacheOk(s)
  {
    var known := Upsert(s, Asked(s.entries[e].name), Known(number));
    var entry := known.entries[e];
    Drain(known, e).(sent := known.sent + Forwards(entry.queue, entry.id, unparsed))
  }

  /** A collection that is not found: the request that asked is retried if it can be taken out of the queue. */
  function NotFound(s: State, e: nat, r: Request, retried: bool): State
    requires e < |s.entries|
  {
    var (t, removed) := Remove(SetId(s, e, Unknown), e, r);
    if removed && retried then t else Failing(t, e)
  }

  /** A request is cancelled; if it believes itself in a queue, it is taken out of that one. */
  function Cancelling(s: State, r: Request): State
    requires r in s.owner ==> s.owner[r] < |s.entries|
  {
    if r in s.completed then s
    else if r in s.owner then Remove(CallBack(s, r), s.owner[r], r).0
    else CallBack(s, r)
  }

  // ---- runs ----

  ghost predicate CacheOk(s: State) {
    forall n :: n in s.cache ==> s.cache[n] < |s.entries| && s.entries[s.cache[n]].name == n
  }

  ghost predicate LookupsOk(s: State) {
    forall l :: l in s.lookups ==> l < s.next && s.lookups[l].entry < |s.entries|
  }

  ghost predicate OwnersOk(s: State) {
    forall r :: r in s.owner ==> s.owner[r] < |s.entries|
  }

  ghost predicate Structured(s: State) {
    CacheOk(s) && LookupsOk(s) && OwnersOk(s)
  }

  ghost predicate Enabled(s: State, e: Event) {
    match e
    case Succeed(l, _, _) => l in s.lookups
    case Fail(l, _, _) => l in s.lookups
    case _ => true
  }

  ghost function Step(s: State, e: Event): State
    requires Structured(s) && Enabled(s, e)
  {
    match e
    case Dispatch(n, r, full, start, parses) =>
      var t := WithEntry(s, n, Unknown);
      Dispatching(t, t.cache[n], r, full, start, parses).0
    case ReQueue(n, r, full, start, parses) =>
      var t := WithEntry(s, n, Unknown);
      var (u, ok) := Dispatching(Reset(t, t.cache[n]), t.cache[n], r, full, start, parses);
      if ok then u else CallBack(u, r)
    case Succeed(l, number, unparsed) =>
      Succeeding(s.(lookups := s.lookups - {l}), s.lookups[l].entry, number, unparsed)
    case Fail(l, notFound, retried) =>
      var t, e := s.(lookups := s.lookups - {l}), s.lookups[l].entry;
      if notFound then NotFound(t, e, s.lookups[l].request, retried) else Failing(t, e)
    case External(n, number) =>
      Upsert(s, Asked(n), Known(number))
    case Cancel(r) =>
      Cancelling(s, r)
  }
}
