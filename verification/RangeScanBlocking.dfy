/** When a caller inside next() waits for ever: a scan cancelled under it. */
module RangeScanBlocking {
  import opened Options
  import opened LoadBalancing
  import opened RangeScan
  import opened RangeScanInvariant
  import opened RangeScanTheorems

  // ---- the exact condition ----

  /** Nothing but another cancellation can happen. */
  ghost predicate Blocked(s: Scan) {
    forall a :: Enabled(s, a) ==> a.Cancel?
  }

  /** No thread is left, and no stream has a request outstanding or waits to be started. */
  ghost predicate AtRest(s: Scan) {
    s.tasks == map[] && forall v <- s.phase :: s.phase[v].Queued? || s.phase[v].Abandoned? || s.phase[v].Ended?
  }

  lemma BlockedRests(c: Setup, s: Scan)
    requires Structured(c, s) && !s.consumer.Idle? && Blocked(s)
    ensures s.consumer.Receiving? && s.channel == [] && AtRest(s)
  {
    assert Enabled(s, Look) ==> Look.Cancel?;
    assert Enabled(s, Receive) ==> Receive.Cancel?;
    QuietMeansNoTask(c, s);
    assert forall v <- s.phase :: !Owned(s.phase[v]);
  }

  lemma RestBlocks(s: Scan, a: Action)
    requires s.consumer.Receiving? && s.channel == [] && AtRest(s) && Enabled(s, a)
    ensures a.Cancel?
  {
  }

  /** In every run a call of next() is blocked if and only if it waits for an item and nothing is on its way. */
  lemma BlockedExactlyWhen(c: Setup, run: seq<Scan>, i: nat)
    requires Behaves(c, run) && i < |run| && !run[i].consumer.Idle?
    ensures Blocked(run[i]) <==> run[i].consumer.Receiving? && run[i].channel == [] && AtRest(run[i])
    ensures Blocked(run[i]) ==> run[i].cancelled
  {
    RunInvariant(c, run, i);
    if Blocked(run[i]) {
      BlockedRests(c, run[i]);
    } else if run[i].consumer.Receiving? && run[i].channel == [] && AtRest(run[i]) {
      var a :| Enabled(run[i], a) && !a.Cancel?;
      RestBlocks(run[i], a);
    }
    if !run[i].cancelled {
      var a := NextNeverBlocks(c, run, i);
    }
  }

  /** Once blocked, the call is blocked in every state to come. */
  lemma {:induction false} BlockedForEver(c: Setup, run: seq<Scan>, i: nat, j: nat)
    requires Behaves(c, run) && i <= j < |run| && Blocked(run[i]) && run[i].cancelled
    ensures run[j] == run[i]
  {
    if i < j {
      BlockedForEver(c, run, i, j - 1);
      BlockedStays(c, run, j - 1);
    }
  }

  lemma BlockedStays(c: Setup, run: seq<Scan>, i: nat)
    requires Behaves(c, run) && i + 1 < |run| && Blocked(run[i]) && run[i].cancelled
    ensures run[i + 1] == run[i]
  {
    assert Step(c, run[i], run[i + 1]);
    var a :| Enabled(run[i], a) && run[i + 1] == Apply(c, run[i], a);
    assert a.Cancel?;
  }

  /** Only the consumer begins to wait, and not on a cancelled scan. */
  lemma WaitingBefore(c: Setup, s: Scan, a: Action)
    requires Enabled(s, a)
    ensures Apply(c, s, a).consumer.Receiving? && Apply(c, s, a).cancelled ==> s.consumer.Receiving?
  {
    if !a.CallNext? && !a.Look? && !a.Receive? {
      OthersStandAside(c, s, a);
    }
  }

  lemma StartsIdle(c: Setup, run: seq<Scan>)
    requires Behaves(c, run)
    ensures run[0].consumer.Idle?
  {
  }

  /** So a call can be blocked only if the scan was cancelled while it waited. */
  lemma {:induction false} CancelledWhileWaiting(c: Setup, run: seq<Scan>, j: nat) returns (i: nat)
    requires Behaves(c, run) && j < |run| && run[j].consumer.Receiving? && run[j].cancelled
    ensures i < j && run[i].consumer.Receiving? && !run[i].cancelled && run[i + 1].cancelled
  {
    StartsIdle(c, run);
    WaitingAt(c, run, j - 1);
    if run[j - 1].cancelled {
      i := CancelledWhileWaiting(c, run, j - 1);
    } else {
      i := j - 1;
    }
  }

  lemma WaitingAt(c: Setup, run: seq<Scan>, i: nat)
    requires Behaves(c, run) && i + 1 < |run| && run[i + 1].consumer.Receiving? && run[i + 1].cancelled
    ensures run[i].consumer.Receiving?
  {
    assert Step(c, run[i], run[i + 1]);
    var a :| Enabled(run[i], a) && run[i + 1] == Apply(c, run[i], a);
    WaitingBefore(c, run[i], a);
  }

  // ---- a run that blocks its caller ----

  function Last(run: seq<Scan>): Scan
    requires run != []
  {
    run[|run| - 1]
  }

  lemma On(c: Setup, run: seq<Scan>, a: Action, t: Scan) returns (run': seq<Scan>)
    requires Behaves(c, run) && Enabled(Last(run), a) && t == Apply(c, Last(run), a)
    ensures Behaves(c, run') && Last(run') == t
  {
    run' := run + [t];
    assert Step(c, Last(run), t);
    forall i | 0 <= i < |run'| - 1 ensures Step(c, run'[i], run'[i + 1]) {
      if i < |run| - 1 {
        assert run'[i] == run[i] && run'[i + 1] == run[i + 1];
      }
    }
  }

  /** One vbucket on node n, scanned by one stream. */
  function Single(n: Node, sampling: bool, limit: nat): Setup {
    Setup([n], 1, sampling, limit)
  }

  /** A state of that scan while the starter is at work. */
  function Starting(n: Node, limit: nat, phase: Phase, task: Task, active: int): Scan {
    Scan(map[n := if phase.Queued? then [0] else []], map[n := if phase.Queued? then 0 else 1], active, false, {0},
         map[0 := phase], {}, map[STARTER := task], if phase.Queued? then 1 else 0,
         if Selecting(task) then Some(STARTER) else None, [], false, limit, Idle, map[0 := []], [])
  }

  /** A state of that scan when the starter has left. */
  function Going(n: Node, phase: Phase, limit: nat, consumer: Consumer, cancelled: bool): Scan {
    Scan(map[n := []], map[n := 1], 1, cancelled, {0},
         map[0 := phase], if phase.Posted? then {} else {0}, map[], 0,
         None, [], false, limit, consumer, map[0 := []], [])
  }

  lemma OnlyVbucket(n: Node, sampling: bool, limit: nat)
    ensures var c := Single(n, sampling, limit); c.Nodes() == {n} && c.Vbuckets() == {0} && Share(c.active, 1, n) == [0]
  {
  }

  lemma InitIs(n: Node, sampling: bool, limit: nat)
    ensures Init(Single(n, sampling, limit)) == Starting(n, limit, Queued, Entering, 0)
  {
    OnlyVbucket(n, sampling, limit);
  }

  lemma Selects(c: Setup, n: Node, limit: nat)
    ensures Apply(c, Starting(n, limit, Queued, Entering, 0), Proceed(STARTER)) ==
            Starting(n, limit, Queued, Locking, 0)
    ensures Apply(c, Starting(n, limit, Queued, Locking, 0), Proceed(STARTER)) ==
            Starting(n, limit, Queued, Scanning({n}, NOTHING_CHOSEN), 0)
  {
    assert map[n := [0]].Keys == {n};
  }

  lemma Chooses(c: Setup, n: Node, limit: nat)
    ensures Apply(c, Starting(n, limit, Queued, Scanning({n}, NOTHING_CHOSEN), 0), Examine(STARTER, n)) ==
            Starting(n, limit, Queued, Checking({}, NOTHING_CHOSEN, n, 0), 0)
    ensures Apply(c, Starting(n, limit, Queued, Checking({}, NOTHING_CHOSEN, n, 0), 0), Proceed(STARTER)) ==
            Starting(n, limit, Queued, Scanning({}, Choice(0, Some(n))), 0)
  {
    assert {n} - {n} == {};
  }

  lemma Pops(c: Setup, n: Node, limit: nat)
    ensures Apply(c, Starting(n, limit, Queued, Scanning({}, Choice(0, Some(n))), 0), Proceed(STARTER)) ==
            Starting(n, limit, Popped(STARTER), Carrying(0), 0)
  {
  }

  lemma Counts(c: Setup, n: Node, limit: nat)
    ensures Apply(c, Starting(n, limit, Popped(STARTER), Carrying(0), 0), Proceed(STARTER)) ==
            Starting(n, limit, Counted(STARTER), Carrying(0), 1)
    ensures Apply(c, Starting(n, limit, Counted(STARTER), Carrying(0), 1), Proceed(STARTER)) ==
            Going(n, Posted, limit, Idle, false)
  {
  }

  lemma Creates(c: Setup, n: Node, limit: nat)
    ensures Apply(c, Going(n, Posted, limit, Idle, false), Start(0, false, 1)) == Going(n, Creating, limit, Idle, false)
    ensures Apply(c, Going(n, Creating, limit, Idle, false), CreateReply(0, None, 1)) ==
            Going(n, Running, limit, Idle, false)
  {
  }

  lemma Calls(c: Setup, n: Node, limit: nat)
    requires limit > 0
    ensures Apply(c, Going(n, Running, limit, Idle, false), CallNext) == Going(n, Running, limit - 1, Looking, false)
    ensures Apply(c, Going(n, Running, limit - 1, Looking, false), Look) ==
            Going(n, Running, limit - 1, Receiving, false)
  {
  }

  lemma Cancels(c: Setup, n: Node, limit: nat)
    ensures Apply(c, Going(n, Running, limit, Receiving, false), Cancel) == Going(n, Running, limit, Receiving, true)
    ensures Apply(c, Going(n, Running, limit, Receiving, true), ContinueReply(0, More, 1)) ==
            Going(n, Abandoned, limit, Receiving, true)
  {
  }

  lemma StarterGoes(n: Node, sampling: bool, limit: nat) returns (run: seq<Scan>)
    requires limit > 0
    ensures Behaves(Single(n, sampling, limit), run) && Last(run) == Going(n, Posted, limit, Idle, false)
  {
    var c := Single(n, sampling, limit);
    InitIs(n, sampling, limit);
    Selects(c, n, limit);
    Chooses(c, n, limit);
    Pops(c, n, limit);
    Counts(c, n, limit);
    run := [Init(c)];
    run := On(c, run, Proceed(STARTER), Starting(n, limit, Queued, Locking, 0));
    run := On(c, run, Proceed(STARTER), Starting(n, limit, Queued, Scanning({n}, NOTHING_CHOSEN), 0));
    run := On(c, run, Examine(STARTER, n), Starting(n, limit, Queued, Checking({}, NOTHING_CHOSEN, n, 0), 0));
    run := On(c, run, Proceed(STARTER), Starting(n, limit, Queued, Scanning({}, Choice(0, Some(n))), 0));
    run := On(c, run, Proceed(STARTER), Starting(n, limit, Popped(STARTER), Carrying(0), 0));
    run := On(c, run, Proceed(STARTER), Starting(n, limit, Counted(STARTER), Carrying(0), 1));
    run := On(c, run, Proceed(STARTER), Going(n, Posted, limit, Idle, false));
  }

  lemma CallWaits(n: Node, sampling: bool, limit: nat) returns (run: seq<Scan>)
    requires limit > 0
    ensures Behaves(Single(n, sampling, limit), run) && Last(run) == Going(n, Running, limit - 1, Receiving, false)
  {
    var c := Single(n, sampling, limit);
    run := StarterGoes(n, sampling, limit);
    Creates(c, n, limit);
    Calls(c, n, limit);
    run := On(c, run, Start(0, false, 1), Going(n, Creating, limit, Idle, false));
    run := On(c, run, CreateReply(0, None, 1), Going(n, Running, limit, Idle, false));
    run := On(c, run, CallNext, Going(n, Running, limit - 1, Looking, false));
    run := On(c, run, Look, Going(n, Running, limit - 1, Receiving, false));
  }

  /** For every limit and every kind of scan: a call that waits for the first item when the scan is cancelled. */
  lemma CancelledCallBlocks(n: Node, sampling: bool, limit: nat) returns (run: seq<Scan>)
    requires limit > 0
    ensures Behaves(Single(n, sampling, limit), run) && !Last(run).consumer.Idle? && Blocked(Last(run))
  {
    var c := Single(n, sampling, limit);
    run := CallWaits(n, sampling, limit);
    Cancels(c, n, limit - 1);
    run := On(c, run, Cancel, Going(n, Running, limit - 1, Receiving, true));
    run := On(c, run, ContinueReply(0, More, 1), Going(n, Abandoned, limit - 1, Receiving, true));
    BlockedExactlyWhen(c, run, |run| - 1);
  }
}
