/**
 The range-scan orchestrator as a step relation. Every manager call runs on its own thread ("task")
 and is cut into the steps between which other threads can interleave: the node counter, the global
 counter, the item channel and the node queues are separate locations that share no lock, and the
 choice of the next vbucket reads one node after another while the queues keep growing.
 */
module RangeScan {
  import opened Options
  import opened LoadBalancing

  type Item = string

  datatype Error =
    | DocumentNotFound | TemporaryFailure | InternalServerFailure | CollectionNotFound
    | AuthenticationFailure | RequestCanceled | FeatureNotAvailable | InvalidArgument
    | UnambiguousTimeout | OtherError

  /** The manager handler that a stream calls when an attempt ends. */
  datatype Outcome = Finish | Fatal(error: Error) | Retry

  /** How a stream reacts to an error of range_scan_create. */
  function CreateOutcome(e: Error): Outcome {
    match e
    case DocumentNotFound => Finish
    case TemporaryFailure => Retry
    case _ => Fatal(e)
  }

  /** How a stream reacts to an error of range_scan_continue. */
  function ContinueOutcome(sampling: bool, e: Error): Outcome {
    if e.DocumentNotFound? || e.AuthenticationFailure? || e.CollectionNotFound? || e.RequestCanceled? then
      if sampling then Finish else Fatal(e)
    else
      Fatal(e)
  }

  /** How a retried stream reacts when its time is up. */
  function TimeoutOutcome(sampling: bool): Outcome {
    if sampling then Finish else Fatal(UnambiguousTimeout)
  }

  /**
   Only a busy server that has not begun to send is asked again. A range scan passes over a vbucket only
   when it holds no documents; what a sampling scan passes over besides leaves the sample smaller.
   */
  lemma WhatIsPassedOver(sampling: bool, e: Error)
    ensures CreateOutcome(e).Retry? <==> e.TemporaryFailure?
    ensures !ContinueOutcome(sampling, e).Retry? && !TimeoutOutcome(sampling).Retry?
    ensures !sampling ==> (CreateOutcome(e).Finish? <==> e.DocumentNotFound?)
    ensures !sampling ==>
              ContinueOutcome(sampling, e) == Fatal(e) && TimeoutOutcome(sampling) == Fatal(UnambiguousTimeout)
    ensures ContinueOutcome(sampling, e).Finish? ==>
              e in {DocumentNotFound, AuthenticationFailure, CollectionNotFound, RequestCanceled}
  {
  }

  datatype Setup = Setup(active: seq<Node>, concurrency: nat, sampling: bool, limit: nat) {
    /** What scan() accepts, within the 16-bit vbucket ids and concurrency. */
    ghost predicate Valid() {
      |active| <= 0xffff && 0 < concurrency <= COUNTER_MAX && 0 < limit
    }

    predicate Has(v: Vbucket) {
      v < |active|
    }

    function Vbuckets(): set<Vbucket> {
      set v: nat | v < |active| && Has(v)
    }

    function Nodes(): set<Node> {
      set n | n in active
    }
  }

  /** Where a vbucket's stream is. The thread named by a phase is the one that carries the vbucket. */
  datatype Phase =
    | Queued
    | Popped(task: nat)                         // taken off its node's queue
    | Counted(task: nat)                        // global counter incremented
    | Posted                                    // start() handed to the executor
    | Creating                                  // range_scan_create outstanding
    | Running                                   // range_scan_continue outstanding
    | Abandoned                                 // stopped by cancellation
    | Notifying(task: nat, outcome: Outcome)    // about to decrement the node counter
    | Uncounting(task: nat, outcome: Outcome)   // about to decrement the global counter
    | Signalling(task: nat, outcome: Outcome)   // about to send the end signal
    | Requeueing(task: nat)                     // about to go back to its node's queue
    | Ended(fatal: bool)

  predicate Counts(p: Phase) {
    p.Counted? || p.Posted? || p.Creating? || p.Running? || p.Abandoned? || p.Notifying? || p.Uncounting?
  }

  predicate Loads(p: Phase) {
    p.Popped? || p.Counted? || p.Posted? || p.Creating? || p.Running? || p.Abandoned? || p.Notifying?
  }

  predicate Busy(p: Phase) {
    !p.Queued? && !p.Ended?
  }

  predicate Owned(p: Phase) {
    p.Popped? || p.Counted? || p.Notifying? || p.Uncounting? || p.Signalling? || p.Requeueing?
  }

  /** What a manager thread does next. */
  datatype Task =
    | Carrying(vbucket: Vbucket)                // as the vbucket's phase says
    | Cancelling                                // a fatal failure is about to cancel the scan
    | CheckingActive                            // a retry is about to compare the global counter with zero
    | Entering                                  // at the top of start_streams
    | Locking                                   // waiting for the selection mutex
    | Scanning(rest: set<Node>, choice: Choice) // selecting, rest still to be looked at
    | Checking(rest: set<Node>, choice: Choice, node: Node, count: int) // counter read, queue not yet

  /** The thread is between a freed slot and the stream that is to take it. */
  predicate HoldsSlot(k: Task) {
    !k.Carrying? && !k.Cancelling?
  }

  predicate Selecting(k: Task) {
    k.Scanning? || k.Checking?
  }

  datatype Message =
    | Data(vbucket: Vbucket, item: Item)
    | End(vbucket: Vbucket)
    | Failure(vbucket: Vbucket, error: Error)

  /** Idle between calls of next(); Looking at the stream map; Receiving from the channel. */
  datatype Consumer = Idle | Looking | Receiving

  /** The thread that starts the first streams. */
  const STARTER: nat := 0

  datatype Scan = Scan(
    queue: map<Node, seq<Vbucket>>,
    load: map<Node, int>,
    active: int,
    cancelled: bool,
    streams: set<Vbucket>,
    phase: map<Vbucket, Phase>,
    attempted: set<Vbucket>,
    tasks: map<nat, Task>,
    unspent: nat,                               // initial starts not yet used
    lock: Option<nat>,                          // holder of the selection mutex
    channel: seq<Message>,
    closed: bool,
    itemLimit: nat,
    consumer: Consumer,
    emitted: map<Vbucket, seq<Item>>,           // history: what each stream handed to the manager
    delivered: seq<(Vbucket, Item)>)            // history: what next() handed to the caller

  function Init(c: Setup): Scan {
    Scan(map n | n in c.Nodes() :: Share(c.active, |c.active|, n), map n | n in c.Nodes() :: 0, 0, false, c.Vbuckets(),
         map v | v in c.Vbuckets() :: Queued, {}, map[STARTER := Entering], c.concurrency, None,
         [], false, c.limit, Idle, map v | v in c.Vbuckets() :: [], [])
  }

  datatype Reply = Failed(error: Error) | Complete | More

  datatype Action =
    | Proceed(task: nat)                                      // the next step of a manager thread
    | Examine(task: nat, node: Node)                          // the selection loop turns to a node
    | Start(vbucket: Vbucket, expired: bool, task: nat)       // the executor runs start()
    | CreateReply(vbucket: Vbucket, error: Option<Error>, task: nat)
    | Emit(vbucket: Vbucket, item: Item)
    | ContinueReply(vbucket: Vbucket, reply: Reply, task: nat)
    | CallNext
    | Look
    | Receive
    | Cancel

  predicate Fresh(s: Scan, task: nat) {
    task != STARTER && task !in s.tasks
  }

  predicate Enabled(s: Scan, a: Action) {
    match a
    case Proceed(t) =>
      && t in s.tasks
      && (s.tasks[t].Locking? ==> s.lock.None?)
      && (s.tasks[t].Scanning? ==> s.tasks[t].rest == {})
      && (s.tasks[t].Carrying? ==> s.tasks[t].vbucket in s.phase && Owned(s.phase[s.tasks[t].vbucket]))
    case Examine(t, n) => t in s.tasks && s.tasks[t].Scanning? && n in s.tasks[t].rest
    case Start(v, expired, t) => v in s.phase && s.phase[v].Posted? && Fresh(s, t) && (expired ==> v in s.attempted)
    case CreateReply(v, error, t) => v in s.phase && s.phase[v].Creating? && Fresh(s, t)
    case Emit(v, item) => v in s.phase && s.phase[v].Running?
    case ContinueReply(v, reply, t) => v in s.phase && s.phase[v].Running? && Fresh(s, t)
    case CallNext => s.consumer.Idle?
    case Look => s.consumer.Looking?
    case Receive => s.consumer.Receiving? && s.channel != []
    case Cancel => true
  }

  /** A stream's attempt ends: thread t enters the handler. */
  function Hand(s: Scan, v: Vbucket, t: nat, outcome: Outcome): Scan {
    s.(phase := s.phase[v := Notifying(t, outcome)], tasks := s.tasks[t := Carrying(v)])
  }

  /** resume(): ask for the next batch unless the scan has been cancelled. */
  function Resume(s: Scan, v: Vbucket): Scan {
    s.(phase := s.phase[v := if s.cancelled then Abandoned else Running])
  }

  /** async_send: a closed channel takes nothing. */
  function Sent(s: Scan, m: Message): seq<Message> {
    if s.closed then s.channel else s.channel + [m]
  }

  /** start_streams gives up: the mutex is free and no initial start is left to this thread. */
  function Leave(s: Scan, t: nat): Scan {
    s.(tasks := s.tasks - {t},
       lock := if s.lock == Some(t) then None else s.lock,
       unspent := if t == STARTER then 0 else s.unspent)
  }

  /** fetch_vbucket_id on the chosen node, at the end of the selection loop. */
  function Fetch(s: Scan, t: nat, n: Node): Scan {
    if n !in s.queue || n !in s.load || s.queue[n] == [] then Leave(s, t)
    else
      var v := s.queue[n][0];
      s.(queue := s.queue[n := s.queue[n][1..]],
         load := s.load[n := s.load[n] + 1],
         phase := s.phase[v := Popped(t)],
         tasks := s.tasks[t := Carrying(v)],
         lock := None,
         unspent := if t == STARTER && s.unspent > 0 then s.unspent - 1 else s.unspent)
  }

  /** The life of a vbucket in the hands of task t. */
  function NextPhase(p: Phase, t: nat): Phase
    requires Owned(p)
  {
    match p
    case Popped(_) => Counted(t)
    case Counted(_) => Posted
    case Notifying(_, outcome) => Uncounting(t, outcome)
    case Uncounting(_, outcome) => if outcome.Retry? then Requeueing(t) else Signalling(t, outcome)
    case Signalling(_, outcome) => Ended(outcome.Fatal?)
    case Requeueing(_) => Queued
  }

  /** What becomes of task t: after a start it returns, or selects again; after an end it starts, cancels or checks. */
  function NextTasks(s: Scan, t: nat, p: Phase): map<nat, Task> {
    match p
    case Counted(_) => if t == STARTER && s.unspent > 0 then s.tasks[t := Locking] else s.tasks - {t}
    case Signalling(_, outcome) => s.tasks[t := if outcome.Fatal? then Cancelling else Entering]
    case Requeueing(_) => s.tasks[t := CheckingActive]
    case _ => s.tasks
  }

  function Signal(v: Vbucket, outcome: Outcome): Message {
    if outcome.Fatal? then Failure(v, outcome.error) else End(v)
  }

  /** The next step of the thread that carries v. */
  function Carry(c: Setup, s: Scan, t: nat, v: Vbucket): Scan
    requires v in s.phase && Owned(s.phase[v])
  {
    var p := s.phase[v];
    s.(phase := s.phase[v := NextPhase(p, t)],
       tasks := NextTasks(s, t, p),
       active := if p.Popped? then s.active + 1 else if p.Uncounting? then s.active - 1 else s.active,
       load := if p.Notifying? && c.Has(v) && c.active[v] in s.load
               then s.load[c.active[v] := s.load[c.active[v]] - 1] else s.load,
       queue := if p.Requeueing? && c.Has(v) && c.active[v] in s.queue
                then s.queue[c.active[v] := s.queue[c.active[v]] + [v]] else s.queue,
       channel := if p.Signalling? then Sent(s, Signal(v, p.outcome)) else s.channel)
  }

  /** The next step of manager thread t. */
  function Advance(c: Setup, s: Scan, t: nat): Scan
    requires Enabled(s, Proceed(t))
  {
    match s.tasks[t]
    case Carrying(v) => Carry(c, s, t, v)
    case Cancelling => s.(cancelled := true, tasks := s.tasks - {t})
    case CheckingActive => if s.active == 0 then s.(tasks := s.tasks[t := Entering]) else s.(tasks := s.tasks - {t})
    case Entering => if s.cancelled then Leave(s, t) else s.(tasks := s.tasks[t := Locking])
    case Locking => s.(tasks := s.tasks[t := Scanning(s.queue.Keys, NOTHING_CHOSEN)], lock := Some(t))
    case Scanning(_, choice) => if choice.node.None? then Leave(s, t) else Fetch(s, t, choice.node.value)
    case Checking(rest, choice, n, count) =>
      s.(tasks := s.tasks[t := Scanning(rest, Consider(choice, n, count, if n in s.queue then |s.queue[n]| else 0))])
  }

  /** A step of a stream or of the server. */
  function Stream(c: Setup, s: Scan, a: Action): Scan
    requires Enabled(s, a) && (a.Start? || a.CreateReply? || a.Emit? || a.ContinueReply?)
  {
    match a
    case Start(v, expired, t) =>
      if expired then Hand(s, v, t, TimeoutOutcome(c.sampling))
      else s.(phase := s.phase[v := Creating], attempted := s.attempted + {v})
    case CreateReply(v, error, t) =>
      if error.Some? then Hand(s, v, t, CreateOutcome(error.value)) else Resume(s, v)
    case Emit(v, item) =>
      if s.cancelled || v !in s.emitted then s
      else s.(channel := Sent(s, Data(v, item)), emitted := s.emitted[v := s.emitted[v] + [item]])
    case ContinueReply(v, reply, t) =>
      match reply
      case Failed(e) => Hand(s, v, t, ContinueOutcome(c.sampling, e))
      case Complete => Hand(s, v, t, Finish)
      case More => Resume(s, v)
  }

  /** A step of next(). */
  function Consume(s: Scan, a: Action): Scan
    requires Enabled(s, a) && (a.CallNext? || a.Look? || a.Receive?)
  {
    match a
    case CallNext =>
      if s.itemLimit == 0 then s.(cancelled := true)
      else s.(itemLimit := s.itemLimit - 1, consumer := Looking)
    case Look =>
      if s.streams == {} || s.cancelled then s.(closed := true, consumer := Idle)
      else s.(consumer := Receiving)
    case Receive =>
      var m := s.channel[0];
      s.(channel := s.channel[1..],
         delivered := if m.Data? then s.delivered + [(m.vbucket, m.item)] else s.delivered,
         streams := if m.End? then s.streams - {m.vbucket} else s.streams,
         consumer := if m.End? then Looking else Idle)
  }

  function Apply(c: Setup, s: Scan, a: Action): Scan
    requires Enabled(s, a)
  {
    match a
    case Proceed(t) => Advance(c, s, t)
    case Examine(t, n) =>
      var count := if n in s.load then s.load[n] else 0;
      s.(tasks := s.tasks[t := Checking(s.tasks[t].rest - {n}, s.tasks[t].choice, n, count)])
    case Cancel => s.(cancelled := true)
    case CallNext => Consume(s, a)
    case Look => Consume(s, a)
    case Receive => Consume(s, a)
    case _ => Stream(c, s, a)
  }

  ghost predicate Step(c: Setup, s: Scan, s': Scan) {
    exists a :: Enabled(s, a) && s' == Apply(c, s, a)
  }

  /** A run: any interleaving of the steps, from the state in which scan() has built the streams. */
  ghost predicate Behaves(c: Setup, run: seq<Scan>) {
    && c.Valid()
    && run != [] && run[0] == Init(c)
    && forall i :: 0 <= i < |run| - 1 ==> Step(c, run[i], run[i + 1])
  }

  ghost predicate Taken(c: Setup, run: seq<Scan>, actions: seq<Action>, i: nat)
    requires |run| == |actions| + 1 && i < |actions|
  {
    Enabled(run[i], actions[i]) && run[i + 1] == Apply(c, run[i], actions[i])
  }

  /** A run together with the actions that it takes. */
  ghost predicate Takes(c: Setup, run: seq<Scan>, actions: seq<Action>) {
    && c.Valid() && |run| == |actions| + 1 && run[0] == Init(c)
    && forall i {:trigger Taken(c, run, actions, i)} :: 0 <= i < |actions| ==> Taken(c, run, actions, i)
  }
}
