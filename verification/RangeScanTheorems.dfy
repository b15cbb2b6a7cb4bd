/** What every run of a range scan guarantees. */
module RangeScanTheorems {
  import opened Options
  import opened LoadBalancing
  import opened RangeScan
  import opened RangeScanInvariant
  import opened RangeScanScheduling
  import opened RangeScanDelivery
  import opened Sets

  lemma NextInvariant(c: Setup, run: seq<Scan>, i: nat)
    requires Behaves(c, run) && i + 1 < |run| && Inv(c, run[i])
    ensures Inv(c, run[i + 1])
  {
    assert Step(c, run[i], run[i + 1]);
    var a :| Enabled(run[i], a) && run[i + 1] == Apply(c, run[i], a);
    StepScheduled(c, run[i], a);
    StepDelivering(c, run[i], a);
  }

  /** The invariant holds in every state of every run. */
  lemma {:induction false} RunInvariant(c: Setup, run: seq<Scan>, i: nat)
    requires Behaves(c, run) && i < |run|
    ensures Inv(c, run[i])
  {
    if i == 0 {
      InitScheduled(c);
      InitDelivering(c);
    } else {
      RunInvariant(c, run, i - 1);
      NextInvariant(c, run, i - 1);
    }
  }

  lemma TakesBehaves(c: Setup, run: seq<Scan>, actions: seq<Action>)
    requires Takes(c, run, actions)
    ensures Behaves(c, run)
  {
    forall i | 0 <= i < |run| - 1 ensures Step(c, run[i], run[i + 1]) {
      assert Taken(c, run, actions, i);
    }
  }

  /** Every run takes some actions. */
  lemma {:induction false} BehavesTakes(c: Setup, run: seq<Scan>) returns (actions: seq<Action>)
    requires Behaves(c, run)
    ensures Takes(c, run, actions)
  {
    if |run| == 1 {
      actions := [];
    } else {
      var k := |run| - 1;
      var before := BehavesTakes(c, run[..k]);
      assert Step(c, run[k - 1], run[k - 1 + 1]);
      var a :| Enabled(run[k - 1], a) && run[k] == Apply(c, run[k - 1], a);
      actions := before + [a];
      forall i | 0 <= i < |actions| ensures Taken(c, run, actions, i) {
        if i < k - 1 {
          assert Taken(c, run[..k], before, i);
        }
      }
    }
  }

  // ---- conservation and budget ----

  lemma {:induction false} DistinctOnce(q: seq<Vbucket>, v: Vbucket)
    requires forall i, j :: 0 <= i < j < |q| ==> q[i] != q[j]
    ensures multiset(q)[v] <= 1
  {
    if q != [] {
      DistinctOnce(q[1..], v);
      assert q == [q[0]] + q[1..];
      assert v == q[0] ==> v !in q[1..];
    }
  }

  lemma QueuedOnce(c: Setup, queue: map<Node, seq<Vbucket>>, phase: map<Vbucket, Phase>, n: Node, v: Vbucket)
    requires QueuesHold(c, queue, phase) && n in queue
    ensures multiset(queue[n])[v] <= 1
  {
    var q := queue[n];
    assert forall i, j :: 0 <= i < j < |q| ==> q[i] != q[j];
    DistinctOnce(q, v);
  }

  /** Each vbucket is queued (once, at its active node), in progress or ended. */
  lemma EveryVbucketAccountedFor(c: Setup, run: seq<Scan>, i: nat, v: Vbucket)
    requires Behaves(c, run) && i < |run| && c.Has(v)
    ensures var s := run[i];
            && v in s.phase && c.active[v] in s.queue
            && (s.phase[v].Queued? <==> v in s.queue[c.active[v]])
            && (forall n <- s.queue :: n != c.active[v] ==> v !in s.queue[n])
            && multiset(s.queue[c.active[v]])[v] <= 1
  {
    RunInvariant(c, run, i);
    var s := run[i];
    assert c.active[v] in c.Nodes();
    forall n <- s.queue | v in s.queue[n] ensures n == c.active[v] && s.phase[v].Queued? {
      var k :| 0 <= k < |s.queue[n]| && s.queue[n][k] == v;
    }
    QueuedOnce(c, s.queue, s.phase, c.active[v], v);
  }

  /** Streams in progress, freed slots and unspent initial starts never exceed the concurrency. */
  lemma BudgetKept(c: Setup, run: seq<Scan>, i: nat)
    requires Behaves(c, run) && i < |run|
    ensures |BusySet(run[i].phase)| + |SlotTasks(run[i].tasks)| + run[i].unspent <= c.concurrency
    ensures 0 <= run[i].active <= |BusySet(run[i].phase)|
    ensures forall n <- run[i].load :: 0 <= run[i].load[n] <= |BusySet(run[i].phase)|
  {
    RunInvariant(c, run, i);
    var s := run[i];
    SubsetSize(CountedSet(s.phase), BusySet(s.phase));
    forall n <- s.load ensures 0 <= s.load[n] <= |BusySet(s.phase)| {
      assert LoadedSet(c, s.phase, n) <= BusySet(s.phase);
      SubsetSize(LoadedSet(c, s.phase, n), BusySet(s.phase));
    }
  }

  /** No counter is decremented at zero, and streams_.at and nodes_.at always find their key. */
  lemma StepsAreDefined(c: Setup, run: seq<Scan>, i: nat, t: nat, v: Vbucket)
    requires Behaves(c, run) && i < |run| && t in run[i].tasks && run[i].tasks[t] == Carrying(v)
    ensures var s := run[i];
            && v in s.phase && Owned(s.phase[v]) && c.Has(v) && c.active[v] in s.load && c.active[v] in s.queue
            && (s.phase[v].Popped? ==> v in s.streams)
            && (s.phase[v].Notifying? ==> s.load[c.active[v]] > 0)
            && (s.phase[v].Uncounting? ==> s.active > 0)
  {
    RunInvariant(c, run, i);
    var s := run[i];
    CarrierFacts(c, s, t, v);
    if s.phase[v].Notifying? {
      assert v in LoadedSet(c, s.phase, c.active[v]);
    }
    if s.phase[v].Uncounting? {
      assert v in CountedSet(s.phase);
    }
  }

  /** The node that the selection loop settles on still has work when it is fetched from. */
  lemma SelectionFindsWork(c: Setup, run: seq<Scan>, i: nat, t: nat)
    requires Behaves(c, run) && i < |run| && t in run[i].tasks && run[i].tasks[t].Scanning? &&
             run[i].tasks[t].choice.node.Some?
    ensures HasWork(run[i].queue, run[i].tasks[t].choice.node.value)
  {
    RunInvariant(c, run, i);
    assert SelectionSound(run[i].queue, run[i].tasks[t]);
  }

  // ---- progress ----

  /**
   No lost wakeup: while a vbucket is queued and the scan is not cancelled, some stream is in progress, or some
   thread has yet to check, has yet to select, is selecting with work still ahead of it, or is about to cancel the scan.
   */
  lemma NoLostWakeup(c: Setup, run: seq<Scan>, i: nat)
    requires Behaves(c, run) && i < |run| && !run[i].cancelled && Pending(run[i].queue)
    ensures var s := run[i];
            || (exists v <- s.phase :: Busy(s.phase[v]))
            || (exists t <- s.tasks :: Hopeful(s.queue, s.tasks[t]))
  {
    RunInvariant(c, run, i);
  }

  lemma FreshExists(tasks: set<nat>) returns (t: nat)
    ensures t != STARTER && t !in tasks
  {
    var bound := 0;
    var rest := tasks;
    while rest != {}
      invariant rest <= tasks
      invariant forall u :: u in tasks && u !in rest ==> u <= bound
      decreases rest
    {
      var u :| u in rest;
      bound := if u > bound then u else bound;
      rest := rest - {u};
    }
    t := bound + 1;
  }

  lemma Member<T>(s: set<T>) returns (x: T)
    requires s != {}
    ensures x in s
  {
    x :| x in s;
  }

  /** A manager thread always has a next step, or waits for one that has. */
  lemma TaskCanStep(c: Setup, s: Scan, t: nat) returns (a: Action)
    requires Structured(c, s) && t in s.tasks
    ensures Enabled(s, a) && (a.Proceed? || a.Examine?)
  {
    var u := if s.tasks[t].Locking? && s.lock.Some? then s.lock.value else t;
    if s.tasks[u].Scanning? && s.tasks[u].rest != {} {
      var n := Member(s.tasks[u].rest);
      a := Examine(u, n);
    } else {
      a := Proceed(u);
    }
  }

  predicate ConsumerSide(a: Action) {
    a.CallNext? || a.Look? || a.Receive? || a.Cancel?
  }

  /** When neither a manager thread nor a stream can step, every vbucket has been scanned to its end. */
  lemma NeverStalls(c: Setup, run: seq<Scan>, i: nat)
    requires Behaves(c, run) && i < |run| && !run[i].cancelled
    requires forall a :: Enabled(run[i], a) ==> ConsumerSide(a)
    ensures forall v <- run[i].phase :: run[i].phase[v] == Ended(false)
  {
    RunInvariant(c, run, i);
    QuietMeansDone(c, run[i]);
  }

  lemma QuietMeansNoTask(c: Setup, s: Scan)
    requires Structured(c, s) && forall a :: Enabled(s, a) ==> ConsumerSide(a)
    ensures s.tasks == map[]
    ensures forall v <- s.phase :: !s.phase[v].Posted? && !s.phase[v].Creating? && !s.phase[v].Running?
  {
    if t :| t in s.tasks {
      var a := TaskCanStep(c, s, t);
      assert false;
    }
    var free := FreshExists(s.tasks.Keys);
    forall v <- s.phase ensures !s.phase[v].Posted? && !s.phase[v].Creating? && !s.phase[v].Running? {
      assert Enabled(s, Start(v, false, free)) ==> ConsumerSide(Start(v, false, free));
      assert Enabled(s, CreateReply(v, None, free)) ==> ConsumerSide(CreateReply(v, None, free));
      assert Enabled(s, Emit(v, "")) ==> ConsumerSide(Emit(v, ""));
    }
  }

  lemma QuietMeansDone(c: Setup, s: Scan)
    requires Scheduled(c, s) && !s.cancelled && forall a :: Enabled(s, a) ==> ConsumerSide(a)
    ensures forall v <- s.phase :: s.phase[v] == Ended(false)
  {
    QuietMeansNoTask(c, s);
    forall v <- s.phase ensures s.phase[v] == Ended(false) {
      if s.phase[v].Queued? {
        assert HasWork(s.queue, c.active[v]);
        assert Pending(s.queue);
      }
    }
  }

  /** A caller inside next() never waits for ever on a scan that has nothing left to do. */
  lemma NextNeverBlocks(c: Setup, run: seq<Scan>, i: nat) returns (a: Action)
    requires Behaves(c, run) && i < |run| && !run[i].cancelled && !run[i].consumer.Idle?
    ensures Enabled(run[i], a) && !a.Cancel? && !a.CallNext?
  {
    RunInvariant(c, run, i);
    var s := run[i];
    if s.consumer.Looking? {
      return Look;
    }
    var v :| v in s.streams;
    if s.channel != [] {
      a := Receive;
    } else if exists b :: Enabled(s, b) && !ConsumerSide(b) {
      a :| Enabled(s, a) && !ConsumerSide(a);
    } else {
      QuietMeansDone(c, s);
      assert false;
    }
  }

  // ---- what the server sends ----

  /** Neither what next() has handed out nor what it is doing changes. */
  predicate StandsAside(s: Scan, s': Scan) {
    s'.consumer == s.consumer && s'.delivered == s.delivered && s'.itemLimit == s.itemLimit
  }

  lemma CarryStandsAside(c: Setup, s: Scan, t: nat, v: Vbucket)
    requires v in s.phase && Owned(s.phase[v])
    ensures var s' := Carry(c, s, t, v); StandsAside(s, s') && s'.emitted == s.emitted && s'.cancelled == s.cancelled
  {
  }

  lemma FetchStandsAside(s: Scan, t: nat, n: Node)
    ensures var s' := Fetch(s, t, n); StandsAside(s, s') && s'.emitted == s.emitted && s'.cancelled == s.cancelled
  {
  }

  lemma HandlersStandAside(c: Setup, s: Scan, t: nat)
    requires Enabled(s, Proceed(t)) && (s.tasks[t].Cancelling? || s.tasks[t].CheckingActive?)
    ensures var s' := Advance(c, s, t);
            && StandsAside(s, s') && s'.emitted == s.emitted
            && s'.cancelled == (s.cancelled || s.tasks[t].Cancelling?)
  {
  }

  lemma CheckersStandAside(c: Setup, s: Scan, t: nat)
    requires Enabled(s, Proceed(t)) && s.tasks[t].Checking?
    ensures var s' := Advance(c, s, t);
            StandsAside(s, s') && s'.emitted == s.emitted && s'.cancelled == s.cancelled
  {
  }

  lemma StartersStandAside(c: Setup, s: Scan, t: nat)
    requires Enabled(s, Proceed(t)) && (s.tasks[t].Entering? || s.tasks[t].Locking?)
    ensures var s' := Advance(c, s, t);
            StandsAside(s, s') && s'.emitted == s.emitted && s'.cancelled == s.cancelled
  {
  }

  lemma ThreadsStandAside(c: Setup, s: Scan, t: nat)
    requires Enabled(s, Proceed(t))
    ensures var s' := Advance(c, s, t);
            && StandsAside(s, s') && s'.emitted == s.emitted
            && s'.cancelled == (s.cancelled || s.tasks[t].Cancelling?)
  {
    var k := s.tasks[t];
    if k.Carrying? {
      CarryStandsAside(c, s, t, k.vbucket);
    } else if k.Scanning? {
      if k.choice.node.Some? {
        FetchStandsAside(s, t, k.choice.node.value);
      }
    } else if k.Entering? || k.Locking? {
      StartersStandAside(c, s, t);
    } else if k.Checking? {
      CheckersStandAside(c, s, t);
    } else {
      HandlersStandAside(c, s, t);
    }
  }

  lemma StartStandsAside(c: Setup, s: Scan, v: Vbucket, expired: bool, t: nat)
    requires Enabled(s, Start(v, expired, t))
    ensures var s' := Stream(c, s, Start(v, expired, t));
            StandsAside(s, s') && s'.emitted == s.emitted && s'.cancelled == s.cancelled
  {
  }

  lemma CreateStandsAside(c: Setup, s: Scan, v: Vbucket, error: Option<Error>, t: nat)
    requires Enabled(s, CreateReply(v, error, t))
    ensures var s' := Stream(c, s, CreateReply(v, error, t));
            StandsAside(s, s') && s'.emitted == s.emitted && s'.cancelled == s.cancelled
  {
  }

  lemma ContinueStandsAside(c: Setup, s: Scan, v: Vbucket, reply: Reply, t: nat)
    requires Enabled(s, ContinueReply(v, reply, t))
    ensures var s' := Stream(c, s, ContinueReply(v, reply, t));
            StandsAside(s, s') && s'.emitted == s.emitted && s'.cancelled == s.cancelled
  {
  }

  /** What this action adds to the items of v: an item that the server sends while the scan is not cancelled. */
  function Adds(a: Action, cancelled: bool, v: Vbucket): seq<Item> {
    if a.Emit? && a.vbucket == v && !cancelled then [a.item] else []
  }

  ghost predicate AddsOnly(s: Scan, s': Scan, a: Action) {
    forall v <- s.emitted :: v in s'.emitted && s'.emitted[v] == s.emitted[v] + Adds(a, s.cancelled, v)
  }

  /** The actions that cancel the scan: its caller's, a call beyond the limit, and the last of a fatal failure. */
  predicate Cancels(s: Scan, a: Action) {
    || a.Cancel?
    || (a.CallNext? && s.itemLimit == 0)
    || (a.Proceed? && a.task in s.tasks && s.tasks[a.task].Cancelling?)
  }

  lemma EmitAdds(c: Setup, s: Scan, v: Vbucket, item: Item)
    requires Enabled(s, Emit(v, item)) && v in s.emitted
    ensures var s' := Stream(c, s, Emit(v, item));
            StandsAside(s, s') && AddsOnly(s, s', Emit(v, item)) && s'.cancelled == s.cancelled
  {
  }

  lemma SameAdds(s: Scan, s': Scan, a: Action)
    requires s'.emitted == s.emitted && !a.Emit?
    ensures AddsOnly(s, s', a)
  {
  }

  lemma OthersStandAside(c: Setup, s: Scan, a: Action)
    requires Enabled(s, a) && !a.CallNext? && !a.Look? && !a.Receive?
    ensures StandsAside(s, Apply(c, s, a)) && Apply(c, s, a).cancelled == (s.cancelled || Cancels(s, a))
    ensures !a.Emit? ==> Apply(c, s, a).emitted == s.emitted
  {
    match a
    case Proceed(t) => ThreadsStandAside(c, s, t);
    case Start(v, expired, t) => StartStandsAside(c, s, v, expired, t);
    case CreateReply(v, error, t) => CreateStandsAside(c, s, v, error, t);
    case ContinueReply(v, reply, t) => ContinueStandsAside(c, s, v, reply, t);
    case Emit(v, item) =>
    case Examine(t, n) =>
    case Cancel =>
  }

  lemma ConsumerAddsNothing(s: Scan, a: Action)
    requires Enabled(s, a) && (a.CallNext? || a.Look? || a.Receive?)
    ensures Consume(s, a).emitted == s.emitted && Consume(s, a).cancelled == (s.cancelled || Cancels(s, a))
  {
    match a
    case CallNext =>
      if s.itemLimit == 0 {
        assert Consume(s, a) == s.(cancelled := true);
      } else {
        assert Consume(s, a) == s.(itemLimit := s.itemLimit - 1, consumer := Looking);
      }
    case Look =>
      var closed := s.streams == {} || s.cancelled;
      assert Consume(s, a) == if closed then s.(closed := true, consumer := Idle) else s.(consumer := Receiving);
    case Receive =>
  }

  /** Every step adds to the items of each vbucket what the action says, and cancels exactly when it says so. */
  lemma StepAdds(c: Setup, s: Scan, a: Action)
    requires Shape(c, s) && Enabled(s, a)
    ensures AddsOnly(s, Apply(c, s, a), a) && Apply(c, s, a).cancelled == (s.cancelled || Cancels(s, a))
  {
    if a.CallNext? || a.Look? || a.Receive? {
      ConsumerAddsNothing(s, a);
      SameAdds(s, Apply(c, s, a), a);
    } else {
      OthersStandAside(c, s, a);
      if a.Emit? {
        EmitAdds(c, s, a.vbucket, a.item);
      } else {
        SameAdds(s, Apply(c, s, a), a);
      }
    }
  }

  /** The items of v that the server sent among the first i actions, while the scan was not cancelled. */
  function SentBy(run: seq<Scan>, actions: seq<Action>, i: nat, v: Vbucket): seq<Item>
    requires i <= |actions| && |run| == |actions| + 1
  {
    if i == 0 then []
    else SentBy(run, actions, i - 1, v) + Adds(actions[i - 1], run[i - 1].cancelled, v)
  }

  lemma NextSent(c: Setup, run: seq<Scan>, actions: seq<Action>, i: nat, v: Vbucket)
    requires Takes(c, run, actions) && i < |actions| && c.Has(v)
    requires v in run[i].emitted && run[i].emitted[v] == SentBy(run, actions, i, v)
    ensures v in run[i + 1].emitted && run[i + 1].emitted[v] == SentBy(run, actions, i + 1, v)
  {
    TakesBehaves(c, run, actions);
    RunInvariant(c, run, i);
    assert Taken(c, run, actions, i);
    StepAdds(c, run[i], actions[i]);
  }

  /** In every state of every run, what a stream has handed on is what the server has sent for its vbucket. */
  lemma {:induction false} EmittedIsSent(c: Setup, run: seq<Scan>, actions: seq<Action>, i: nat, v: Vbucket)
    requires Takes(c, run, actions) && i <= |actions| && c.Has(v)
    ensures v in run[i].emitted && run[i].emitted[v] == SentBy(run, actions, i, v)
  {
    if i > 0 {
      EmittedIsSent(c, run, actions, i - 1, v);
      NextSent(c, run, actions, i - 1, v);
    }
  }

  // ---- delivery ----

  /** When next() finds no stream left, everything every stream handed on has been delivered, in order and once. */
  lemma AllDelivered(c: Setup, run: seq<Scan>, i: nat)
    requires Behaves(c, run) && i < |run| && !run[i].cancelled && run[i].streams == {}
    ensures forall v <- run[i].emitted :: ItemsOf(run[i].delivered, v) == run[i].emitted[v]
    ensures forall v <- run[i].phase :: run[i].phase[v] == Ended(false)
  {
    RunInvariant(c, run, i);
    var s := run[i];
    forall v <- s.emitted ensures ItemsOf(s.delivered, v) == s.emitted[v] {
      ItemsInNone(s.channel, v);
    }
  }

  /** When next() finds no stream left, everything the server sent has been delivered, in order and once. */
  lemma CompletionIsComplete(c: Setup, run: seq<Scan>, actions: seq<Action>, i: nat)
    requires Takes(c, run, actions) && i <= |actions| && !run[i].cancelled && run[i].streams == {}
    ensures forall v: nat :: c.Has(v) ==> ItemsOf(run[i].delivered, v) == SentBy(run, actions, i, v)
    ensures forall v <- run[i].phase :: run[i].phase[v] == Ended(false)
  {
    TakesBehaves(c, run, actions);
    AllDelivered(c, run, i);
    forall v: nat | c.Has(v) ensures ItemsOf(run[i].delivered, v) == SentBy(run, actions, i, v) {
      EmittedIsSent(c, run, actions, i, v);
    }
  }

  /** At any time, cancelled or not, what was delivered of a vbucket is a prefix of what the server sent for it. */
  lemma DeliveredInOrder(c: Setup, run: seq<Scan>, actions: seq<Action>, i: nat, v: Vbucket)
    requires Takes(c, run, actions) && i <= |actions| && c.Has(v)
    ensures ItemsOf(run[i].delivered, v) <= SentBy(run, actions, i, v)
  {
    TakesBehaves(c, run, actions);
    RunInvariant(c, run, i);
    EmittedIsSent(c, run, actions, i, v);
  }

  /** No more than the limit is delivered. */
  lemma AtMostLimit(c: Setup, run: seq<Scan>, i: nat)
    requires Behaves(c, run) && i < |run|
    ensures |run[i].delivered| <= c.limit
  {
    RunInvariant(c, run, i);
  }

  /**
   When next() finds the limit used up, either exactly the limit has been delivered, or an earlier call of next()
   has reported the end and everything has been delivered, or a stream has failed.
   */
  lemma LimitIsReached(c: Setup, run: seq<Scan>, actions: seq<Action>, i: nat)
    requires Takes(c, run, actions) && i <= |actions|
    requires !run[i].cancelled && run[i].consumer.Idle? && run[i].itemLimit == 0
    ensures !run[i].closed && NoneFailed(run[i].phase) ==> |run[i].delivered| == c.limit
    ensures run[i].closed ==>
              forall v: nat :: c.Has(v) ==> ItemsOf(run[i].delivered, v) == SentBy(run, actions, i, v)
  {
    TakesBehaves(c, run, actions);
    RunInvariant(c, run, i);
    if run[i].closed {
      CompletionIsComplete(c, run, actions, i);
    }
  }

  /** start() never has a last seen key to resume from: a stream is retried only before its first item. */
  lemma StartsFromTheBeginning(c: Setup, run: seq<Scan>, i: nat, v: Vbucket)
    requires Behaves(c, run) && i < |run| && v in run[i].phase && run[i].phase[v].Posted?
    ensures v in run[i].emitted && run[i].emitted[v] == []
  {
    RunInvariant(c, run, i);
  }
}
