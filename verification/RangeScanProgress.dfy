/** How much work a range scan can do: a rank that every step of its threads, streams and servers lowers. */
module RangeScanProgress {
  import opened Options
  import opened LoadBalancing
  import opened RangeScan
  import opened RangeScanInvariant
  import opened RangeScanScheduling
  import opened RangeScanTheorems

  // ---- sums over finite maps ----

  ghost function Pick<K(!new)>(m: map<K, nat>): (k: K)
    requires m != map[]
    ensures k in m
  {
    assert m.Keys != {};
    var k :| k in m;
    k
  }

  ghost function Sum<K(!new)>(m: map<K, nat>): nat
    decreases m.Keys
  {
    if m == map[] then 0 else m[Pick(m)] + Sum(m - {Pick(m)})
  }

  function At<K>(m: map<K, nat>, k: K): nat {
    if k in m then m[k] else 0
  }

  lemma {:induction false} SumWithout<K(!new)>(m: map<K, nat>, k: K)
    ensures Sum(m) == At(m, k) + Sum(m - {k})
    decreases m.Keys
  {
    if k !in m {
      assert m - {k} == m;
    } else if Pick(m) != k {
      var j := Pick(m);
      SumWithout(m - {j}, k);
      SumWithout(m - {k}, j);
      assert m - {j} - {k} == m - {k} - {j};
    }
  }

  /** Two maps that differ at k only. */
  lemma SumMoves<K(!new)>(m: map<K, nat>, m': map<K, nat>, k: K)
    requires m - {k} == m' - {k}
    ensures Sum(m') == Sum(m) - At(m, k) + At(m', k)
  {
    SumWithout(m, k);
    SumWithout(m', k);
  }

  lemma {:induction false} SumConstant<K(!new)>(m: map<K, nat>, w: nat)
    requires forall k <- m :: m[k] == w
    ensures Sum(m) == |m| * w
    decreases m.Keys
  {
    if m != map[] {
      var rest := m - {Pick(m)};
      SumConstant(rest, w);
      assert m.Keys == rest.Keys + {Pick(m)};
      assert |m| * w == |rest| * w + w;
    }
  }

  // ---- the rank ----

  /** One pass of start_streams over n nodes, with the steps around it. */
  function Pass(n: nat): nat {
    2 * n + 5
  }

  function TaskWeight(n: nat, k: Task): nat {
    match k
    case Carrying(_) => 0
    case Cancelling => 1
    case CheckingActive => 2 * n + 4
    case Entering => 2 * n + 3
    case Locking => 2 * n + 2
    case Scanning(rest, _) => 2 * |rest| + 1
    case Checking(rest, _, _, _) => 2 * |rest| + 2
  }

  /** What a vbucket still has to go through, with the passes that its start and its end set off. */
  function PhaseWeight(n: nat, p: Phase): nat {
    match p
    case Queued => 2 * Pass(n) + 8
    case Popped(_) => 2 * Pass(n) + 7
    case Counted(_) => 2 * Pass(n) + 6
    case Posted => Pass(n) + 6
    case Creating => Pass(n) + 5
    case Running => Pass(n) + 4
    case Abandoned => 0
    case Notifying(_, outcome) => if outcome.Retry? then 3 * Pass(n) + 10 else Pass(n) + 3
    case Uncounting(_, outcome) => if outcome.Retry? then 3 * Pass(n) + 9 else Pass(n) + 2
    case Signalling(_, _) => Pass(n) + 1
    case Requeueing(_) => 3 * Pass(n) + 8
    case Ended(_) => 0
  }

  function PhaseWeights(n: nat, phase: map<Vbucket, Phase>): map<Vbucket, nat> {
    map v | v in phase :: PhaseWeight(n, phase[v])
  }

  function TaskWeights(n: nat, tasks: map<nat, Task>): map<nat, nat> {
    map t | t in tasks :: TaskWeight(n, tasks[t])
  }

  ghost function Rank(n: nat, phase: map<Vbucket, Phase>, tasks: map<nat, Task>): nat {
    Sum(PhaseWeights(n, phase)) + Sum(TaskWeights(n, tasks))
  }

  function WeightOf(n: nat, tasks: map<nat, Task>, t: nat): nat {
    if t in tasks then TaskWeight(n, tasks[t]) else 0
  }

  lemma TaskMoves(n: nat, tasks: map<nat, Task>, tasks': map<nat, Task>, t: nat)
    requires Elsewhere(tasks, tasks', t)
    ensures Sum(TaskWeights(n, tasks')) == Sum(TaskWeights(n, tasks)) - WeightOf(n, tasks, t) + WeightOf(n, tasks', t)
  {
    assert TaskWeights(n, tasks) - {t} == TaskWeights(n, tasks') - {t};
    SumMoves(TaskWeights(n, tasks), TaskWeights(n, tasks'), t);
  }

  lemma PhaseMoves(n: nat, phase: map<Vbucket, Phase>, v: Vbucket, p: Phase)
    requires v in phase
    ensures Sum(PhaseWeights(n, phase[v := p])) == Sum(PhaseWeights(n, phase)) - PhaseWeight(n, phase[v]) +
            PhaseWeight(n, p)
  {
    assert PhaseWeights(n, phase) - {v} == PhaseWeights(n, phase[v := p]) - {v};
    SumMoves(PhaseWeights(n, phase), PhaseWeights(n, phase[v := p]), v);
  }

  // ---- one step ----

  /** The server is too busy to create the scan: the only answer that is asked again. */
  predicate Refusal(a: Action) {
    a.CreateReply? && a.error == Some(TemporaryFailure)
  }

  /** A step of a thread, a stream or a server, other than data and the request for more of it. */
  predicate Works(a: Action) {
    a.Proceed? || a.Examine? || a.Start? || a.CreateReply? || (a.ContinueReply? && !a.reply.More?)
  }

  /** The weight that a refusal gives back. */
  function Again(n: nat): nat {
    4 * n + 16
  }

  function Cost(a: Action): nat {
    if Works(a) then 1 else 0
  }

  function Grant(n: nat, a: Action): nat {
    if Refusal(a) then Again(n) else 0
  }

  /** Thread t and vbucket v move, everything else stays. */
  lemma RankMoves(n: nat, phase: map<Vbucket, Phase>, tasks: map<nat, Task>, v: Vbucket, p: Phase,
                  tasks': map<nat, Task>, t: nat)
    requires v in phase && Elsewhere(tasks, tasks', t)
    ensures Rank(n, phase[v := p], tasks') ==
            Rank(n, phase, tasks) - PhaseWeight(n, phase[v]) + PhaseWeight(n, p)
            - WeightOf(n, tasks, t) + WeightOf(n, tasks', t)
  {
    TaskMoves(n, tasks, tasks', t);
    PhaseMoves(n, phase, v, p);
  }

  /** The thread and its vbucket together get lighter. */
  lemma NextLighter(n: nat, s: Scan, t: nat, p: Phase)
    requires Owned(p)
    ensures PhaseWeight(n, NextPhase(p, t)) + WeightOf(n, NextTasks(s, t, p), t) <
            PhaseWeight(n, p) + WeightOf(n, s.tasks, t)
  {
  }

  lemma CarryLowers(c: Setup, s: Scan, t: nat, v: Vbucket, n: nat)
    requires t in s.tasks && s.tasks[t] == Carrying(v) && v in s.phase && Owned(s.phase[v])
    ensures var s' := Carry(c, s, t, v); Rank(n, s'.phase, s'.tasks) < Rank(n, s.phase, s.tasks)
  {
    var p := s.phase[v];
    NextLighter(n, s, t, p);
    var tasks' := NextTasks(s, t, p);
    assert Elsewhere(s.tasks, tasks', t);
    RankMoves(n, s.phase, s.tasks, v, NextPhase(p, t), tasks', t);
  }

  lemma RetaskLowers(n: nat, phase: map<Vbucket, Phase>, tasks: map<nat, Task>, tasks': map<nat, Task>, t: nat)
    requires Elsewhere(tasks, tasks', t) && WeightOf(n, tasks', t) < WeightOf(n, tasks, t)
    ensures Rank(n, phase, tasks') < Rank(n, phase, tasks)
  {
    TaskMoves(n, tasks, tasks', t);
  }

  /** The head of a queue is a queued vbucket. */
  predicate HeadQueued(s: Scan, m: Node) {
    m in s.queue && s.queue[m] != [] ==> s.queue[m][0] in s.phase && s.phase[s.queue[m][0]].Queued?
  }

  lemma FetchLowers(s: Scan, t: nat, m: Node, n: nat)
    requires t in s.tasks && s.tasks[t].Scanning? && HeadQueued(s, m)
    ensures var s' := Fetch(s, t, m); Rank(n, s'.phase, s'.tasks) < Rank(n, s.phase, s.tasks)
  {
    if m !in s.queue || m !in s.load || s.queue[m] == [] {
      RetaskLowers(n, s.phase, s.tasks, s.tasks - {t}, t);
    } else {
      var v := s.queue[m][0];
      RankMoves(n, s.phase, s.tasks, v, Popped(t), s.tasks[t := Carrying(v)], t);
    }
  }

  /** A thread that carries no vbucket and fetches none. */
  predicate Apart(s: Scan, t: nat) {
    t in s.tasks && !s.tasks[t].Carrying? && (s.tasks[t].Scanning? ==> s.tasks[t].choice.node.None?)
  }

  /** Such a thread leaves, or goes on to its next step. */
  function ThreadNext(s: Scan, t: nat): Option<Task>
    requires Apart(s, t)
  {
    match s.tasks[t]
    case Cancelling => None
    case CheckingActive => if s.active == 0 then Some(Entering) else None
    case Entering => if s.cancelled then None else Some(Locking)
    case Locking => Some(Scanning(s.queue.Keys, NOTHING_CHOSEN))
    case Scanning(_, _) => None
    case Checking(rest, choice, m, count) =>
      Some(Scanning(rest, Consider(choice, m, count, if m in s.queue then |s.queue[m]| else 0)))
  }

  function Retasked(tasks: map<nat, Task>, t: nat, next: Option<Task>): map<nat, Task> {
    if next.Some? then tasks[t := next.value] else tasks - {t}
  }

  lemma SelectorSteps(c: Setup, s: Scan, t: nat)
    requires Enabled(s, Proceed(t)) && Apart(s, t) && Selecting(s.tasks[t])
    ensures var s' := Advance(c, s, t); s'.phase == s.phase && s'.tasks == Retasked(s.tasks, t, ThreadNext(s, t))
  {
    if s.tasks[t].Scanning? {
      assert Advance(c, s, t) == Leave(s, t);
    }
  }

  lemma HandlerSteps(c: Setup, s: Scan, t: nat)
    requires Enabled(s, Proceed(t)) && (s.tasks[t].Cancelling? || s.tasks[t].CheckingActive?)
    ensures var s' := Advance(c, s, t); s'.phase == s.phase && s'.tasks == Retasked(s.tasks, t, ThreadNext(s, t))
  {
    if s.tasks[t].Cancelling? {
      assert Advance(c, s, t).tasks == s.tasks - {t};
    } else {
      assert Advance(c, s, t).tasks == if s.active == 0 then s.tasks[t := Entering] else s.tasks - {t};
    }
  }

  lemma StarterSteps(c: Setup, s: Scan, t: nat)
    requires Enabled(s, Proceed(t)) && (s.tasks[t].Entering? || s.tasks[t].Locking?)
    ensures var s' := Advance(c, s, t); s'.phase == s.phase && s'.tasks == Retasked(s.tasks, t, ThreadNext(s, t))
  {
    if s.tasks[t].Entering? {
      assert Advance(c, s, t).tasks == if s.cancelled then s.tasks - {t} else s.tasks[t := Locking];
    } else {
      assert Advance(c, s, t).tasks == s.tasks[t := Scanning(s.queue.Keys, NOTHING_CHOSEN)];
    }
  }

  lemma ThreadSteps(c: Setup, s: Scan, t: nat)
    requires Enabled(s, Proceed(t)) && Apart(s, t)
    ensures var s' := Advance(c, s, t); s'.phase == s.phase && s'.tasks == Retasked(s.tasks, t, ThreadNext(s, t))
  {
    var k := s.tasks[t];
    if k.Cancelling? || k.CheckingActive? {
      HandlerSteps(c, s, t);
    } else if k.Entering? || k.Locking? {
      StarterSteps(c, s, t);
    } else {
      SelectorSteps(c, s, t);
    }
  }

  lemma ThreadLighter(s: Scan, t: nat, n: nat)
    requires Apart(s, t) && n == |s.queue.Keys|
    ensures var tasks' := Retasked(s.tasks, t, ThreadNext(s, t));
            Elsewhere(s.tasks, tasks', t) && WeightOf(n, tasks', t) < WeightOf(n, s.tasks, t)
  {
  }

  lemma AdvanceLowers(c: Setup, s: Scan, t: nat, n: nat)
    requires Enabled(s, Proceed(t)) && n == |s.queue.Keys| && forall m :: HeadQueued(s, m)
    ensures var s' := Advance(c, s, t); Rank(n, s'.phase, s'.tasks) < Rank(n, s.phase, s.tasks)
  {
    var k := s.tasks[t];
    if k.Carrying? {
      CarryLowers(c, s, t, k.vbucket, n);
    } else if k.Scanning? && k.choice.node.Some? {
      FetchLowers(s, t, k.choice.node.value, n);
    } else {
      ThreadSteps(c, s, t);
      ThreadLighter(s, t, n);
      RetaskLowers(n, s.phase, s.tasks, Retasked(s.tasks, t, ThreadNext(s, t)), t);
    }
  }

  lemma ExamineLowers(c: Setup, s: Scan, t: nat, m: Node, n: nat)
    requires Enabled(s, Examine(t, m))
    ensures var s' := Apply(c, s, Examine(t, m)); Rank(n, s'.phase, s'.tasks) < Rank(n, s.phase, s.tasks)
  {
    var s' := Apply(c, s, Examine(t, m));
    var rest := s.tasks[t].rest;
    assert |rest - {m}| == |rest| - 1;
    RetaskLowers(n, s.phase, s.tasks, s'.tasks, t);
  }

  lemma HandMoves(s: Scan, v: Vbucket, t: nat, outcome: Outcome, n: nat)
    requires v in s.phase && t !in s.tasks
    ensures var s' := Hand(s, v, t, outcome);
            Rank(n, s'.phase, s'.tasks) ==
            Rank(n, s.phase, s.tasks) - PhaseWeight(n, s.phase[v]) + PhaseWeight(n, Notifying(t, outcome))
  {
    RankMoves(n, s.phase, s.tasks, v, Notifying(t, outcome), s.tasks[t := Carrying(v)], t);
  }

  lemma StartLowers(c: Setup, s: Scan, a: Action, n: nat)
    requires Enabled(s, a) && a.Start?
    ensures var s' := Stream(c, s, a); Rank(n, s'.phase, s'.tasks) < Rank(n, s.phase, s.tasks)
  {
    if a.expired {
      HandMoves(s, a.vbucket, a.task, TimeoutOutcome(c.sampling), n);
    } else {
      PhaseMoves(n, s.phase, a.vbucket, Creating);
    }
  }

  lemma CreateLowers(c: Setup, s: Scan, a: Action, n: nat)
    requires Enabled(s, a) && a.CreateReply?
    ensures var s' := Stream(c, s, a); Rank(n, s'.phase, s'.tasks) + 1 <= Rank(n, s.phase, s.tasks) + Grant(n, a)
  {
    if a.error.Some? {
      WhatIsPassedOver(c.sampling, a.error.value);
      HandMoves(s, a.vbucket, a.task, CreateOutcome(a.error.value), n);
    } else {
      PhaseMoves(n, s.phase, a.vbucket, if s.cancelled then Abandoned else Running);
    }
  }

  lemma MoreLowers(c: Setup, s: Scan, v: Vbucket, t: nat, n: nat)
    requires Enabled(s, ContinueReply(v, More, t))
    ensures var s' := Stream(c, s, ContinueReply(v, More, t));
            Rank(n, s'.phase, s'.tasks) <= Rank(n, s.phase, s.tasks)
  {
    PhaseMoves(n, s.phase, v, if s.cancelled then Abandoned else Running);
  }

  lemma EndLowers(c: Setup, s: Scan, v: Vbucket, reply: Reply, t: nat, n: nat)
    requires Enabled(s, ContinueReply(v, reply, t)) && !reply.More?
    ensures var s' := Stream(c, s, ContinueReply(v, reply, t));
            Rank(n, s'.phase, s'.tasks) < Rank(n, s.phase, s.tasks)
  {
    HandMoves(s, v, t, if reply.Failed? then ContinueOutcome(c.sampling, reply.error) else Finish, n);
  }

  lemma ContinueLowers(c: Setup, s: Scan, a: Action, n: nat)
    requires Enabled(s, a) && a.ContinueReply?
    ensures var s' := Stream(c, s, a); Rank(n, s'.phase, s'.tasks) + Cost(a) <= Rank(n, s.phase, s.tasks)
  {
    if a.reply.More? {
      MoreLowers(c, s, a.vbucket, a.task, n);
    } else {
      EndLowers(c, s, a.vbucket, a.reply, a.task, n);
    }
  }

  lemma HeadsQueued(c: Setup, s: Scan)
    requires QueuesHold(c, s.queue, s.phase)
    ensures forall m :: HeadQueued(s, m)
  {
  }

  /** Every working step costs rank; only a refusal gives some back, and nothing else raises it. */
  lemma StepLowers(c: Setup, s: Scan, a: Action, n: nat)
    requires Shape(c, s) && QueuesHold(c, s.queue, s.phase) && Enabled(s, a) && n == |c.Nodes()|
    ensures var s' := Apply(c, s, a); Rank(n, s'.phase, s'.tasks) + Cost(a) <= Rank(n, s.phase, s.tasks) + Grant(n, a)
  {
    match a {
      case Proceed(t) =>
        HeadsQueued(c, s);
        AdvanceLowers(c, s, t, n);
      case Examine(t, m) => ExamineLowers(c, s, t, m, n);
      case Start(_, _, _) => StartLowers(c, s, a, n);
      case CreateReply(_, _, _) => CreateLowers(c, s, a, n);
      case ContinueReply(_, _, _) => ContinueLowers(c, s, a, n);
      case _ =>
    }
  }

  // ---- whole runs ----

  function Worked(actions: seq<Action>): nat {
    if actions == [] then 0 else Worked(actions[..|actions| - 1]) + Cost(actions[|actions| - 1])
  }

  function Refusals(actions: seq<Action>): nat {
    if actions == [] then 0
    else Refusals(actions[..|actions| - 1]) + (if Refusal(actions[|actions| - 1]) then 1 else 0)
  }

  /** The rank of a state, with the work done and the refusals met on the way to it. */
  ghost predicate Ranked(c: Setup, first: nat, s: Scan, actions: seq<Action>) {
    var n := |c.Nodes()|;
    Worked(actions) + Rank(n, s.phase, s.tasks) <= first + Again(n) * Refusals(actions)
  }

  lemma Charged(n: nat, first: nat, rank: nat, rank': nat, before: seq<Action>, a: Action)
    requires Worked(before) + rank <= first + Again(n) * Refusals(before)
    requires rank' + Cost(a) <= rank + Grant(n, a)
    ensures Worked(before + [a]) + rank' <= first + Again(n) * Refusals(before + [a])
  {
    assert (before + [a])[..|before|] == before;
    assert Again(n) * (Refusals(before) + 1) == Again(n) * Refusals(before) + Again(n);
  }

  lemma RankedStep(c: Setup, first: nat, s: Scan, before: seq<Action>, a: Action)
    requires Shape(c, s) && QueuesHold(c, s.queue, s.phase) && Enabled(s, a) && Ranked(c, first, s, before)
    ensures Ranked(c, first, Apply(c, s, a), before + [a])
  {
    var n, s' := |c.Nodes()|, Apply(c, s, a);
    StepLowers(c, s, a, n);
    Charged(n, first, Rank(n, s.phase, s.tasks), Rank(n, s'.phase, s'.tasks), before, a);
  }

  lemma QueuesAt(c: Setup, run: seq<Scan>, actions: seq<Action>, i: nat)
    requires Takes(c, run, actions) && i <= |actions|
    ensures Shape(c, run[i]) && QueuesHold(c, run[i].queue, run[i].phase)
  {
    TakesBehaves(c, run, actions);
    RunInvariant(c, run, i);
  }

  lemma RankedNext(c: Setup, run: seq<Scan>, actions: seq<Action>, i: nat, first: nat)
    requires Takes(c, run, actions) && i < |actions| && Ranked(c, first, run[i], actions[..i])
    ensures Ranked(c, first, run[i + 1], actions[..i + 1])
  {
    QueuesAt(c, run, actions, i);
    assert Taken(c, run, actions, i);
    RankedStep(c, first, run[i], actions[..i], actions[i]);
    assert actions[..i + 1] == actions[..i] + [actions[i]];
  }

  lemma {:induction false} RunRank(c: Setup, run: seq<Scan>, actions: seq<Action>, i: nat, first: nat)
    requires Takes(c, run, actions) && i <= |actions| && Ranked(c, first, run[0], [])
    ensures Ranked(c, first, run[i], actions[..i])
  {
    if i > 0 {
      RunRank(c, run, actions, i - 1, first);
      RankedNext(c, run, actions, i - 1, first);
    }
  }

  lemma {:induction false} IdsBelow(ids: set<nat>, n: nat)
    requires forall v: nat :: v in ids <==> v < n
    ensures |ids| == n
  {
    if n > 0 {
      IdsBelow(ids - {n - 1}, n - 1);
    }
  }

  lemma InitRank(c: Setup, n: nat)
    ensures Rank(n, Init(c).phase, Init(c).tasks) == |c.active| * (4 * n + 18) + 2 * n + 3
  {
    var phase: map<Vbucket, Phase> := map v | v in c.Vbuckets() :: Queued;
    SumConstant(PhaseWeights(n, phase), 4 * n + 18);
    IdsBelow(c.Vbuckets(), |c.active|);
    assert PhaseWeights(n, phase).Keys == c.Vbuckets();
    TaskMoves(n, map[], map[STARTER := Entering], STARTER);
    assert TaskWeights(n, map[]) == map[];
  }

  /**
   A scan ends: however its threads interleave and whatever its caller does, the steps of its threads, streams and
   servers are bounded by the number of vbuckets, nodes and refusals, not counting data and requests for more.
   */
  lemma WorkIsBounded(c: Setup, run: seq<Scan>, actions: seq<Action>)
    requires Takes(c, run, actions)
    ensures var n := |c.Nodes()|;
            Worked(actions) <= |c.active| * (4 * n + 18) + 2 * n + 3 + (4 * n + 16) * Refusals(actions)
  {
    var n := |c.Nodes()|;
    InitRank(c, n);
    RunRank(c, run, actions, |actions|, Rank(n, run[0].phase, run[0].tasks));
    assert actions[..|actions|] == actions;
  }
}
