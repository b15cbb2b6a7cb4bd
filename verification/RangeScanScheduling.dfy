/** The scheduling half of the invariant is kept by every step. */
module RangeScanScheduling {
  import opened Options
  import opened LoadBalancing
  import opened RangeScan
  import opened RangeScanInvariant
  import opened Sets

  // ---- one part of the invariant at a time ----

  lemma QueuesKeep(c: Setup, queue: map<Node, seq<Vbucket>>, phase: map<Vbucket, Phase>, v: Vbucket, p: Phase)
    requires QueuesHold(c, queue, phase) && v in phase && !phase[v].Queued? && !p.Queued?
    ensures QueuesHold(c, queue, phase[v := p])
  {
  }

  /** t is the only task concerned with v before and after its phase becomes p. */
  predicate Exclusive(tasks: map<nat, Task>, tasks': map<nat, Task>, t: nat, v: Vbucket, old': Phase, p: Phase) {
    && (if Owned(old') then old'.task == t else t in tasks ==> !tasks[t].Carrying?)
    && (if Owned(p) then OwnedBy(p, t) && t in tasks' && tasks'[t] == Carrying(v)
        else t in tasks' ==> !tasks'[t].Carrying?)
  }

  lemma OwnersUpdate(tasks: map<nat, Task>, tasks': map<nat, Task>, phase: map<Vbucket, Phase>, t: nat, v: Vbucket,
                     p: Phase)
    requires OwnersMatch(tasks, phase) && v in phase && Elsewhere(tasks, tasks', t)
    requires Exclusive(tasks, tasks', t, v, phase[v], p)
    ensures OwnersMatch(tasks', phase[v := p])
  {
  }

  lemma OwnersIgnore(tasks: map<nat, Task>, tasks': map<nat, Task>, phase: map<Vbucket, Phase>, t: nat)
    requires OwnersMatch(tasks, phase) && Elsewhere(tasks, tasks', t)
    requires (t in tasks ==> !tasks[t].Carrying?) && (t in tasks' ==> !tasks'[t].Carrying?)
    ensures OwnersMatch(tasks', phase)
  {
  }

  /** The mutex changes hands only between t and nobody, and t holds it exactly while it selects. */
  predicate LockMoves(tasks': map<nat, Task>, lock: Option<nat>, lock': Option<nat>, t: nat) {
    && ((t in tasks' && Selecting(tasks'[t])) <==> lock' == Some(t))
    && (lock == lock' || (lock == Some(t) && lock'.None?) || (lock.None? && lock' == Some(t)))
  }

  lemma LockUpdate(tasks: map<nat, Task>, tasks': map<nat, Task>, lock: Option<nat>, lock': Option<nat>, t: nat)
    requires LockHolds(tasks, lock) && Elsewhere(tasks, tasks', t) && LockMoves(tasks', lock, lock', t)
    ensures LockHolds(tasks', lock')
  {
  }

  lemma SelectionsUpdate(queue: map<Node, seq<Vbucket>>, tasks: map<nat, Task>, tasks': map<nat, Task>, t: nat)
    requires SelectionsSound(queue, tasks) && Elsewhere(tasks, tasks', t)
    requires t in tasks' ==> SelectionSound(queue, tasks'[t])
    ensures SelectionsSound(queue, tasks')
  {
  }

  /** The node counters follow a vbucket that gains or loses its place on its node. */
  lemma LoadsUpdate(c: Setup, load: map<Node, int>, load': map<Node, int>, phase: map<Vbucket, Phase>, v: Vbucket,
                    p: Phase)
    requires LoadsMatch(c, load, phase) && v in phase && c.Has(v) && load'.Keys == load.Keys
    requires forall n <- load ::
               load'[n] == load[n] + (if n == c.active[v] then One(Loads(p)) - One(Loads(phase[v])) else 0)
    ensures LoadsMatch(c, load', phase[v := p])
  {
    forall n <- load' ensures load'[n] == |LoadedSet(c, phase[v := p], n)| {
      LoadedUpdate(c, phase, v, p, n);
    }
  }

  lemma BusyWakes(queue: map<Node, seq<Vbucket>>, phase: map<Vbucket, Phase>, tasks: map<nat, Task>, v: Vbucket)
    requires v in phase && Busy(phase[v])
    ensures NotLost(queue, phase, tasks)
  {
  }

  lemma TaskWakes(queue: map<Node, seq<Vbucket>>, phase: map<Vbucket, Phase>, tasks: map<nat, Task>, t: nat)
    requires t in tasks && Hopeful(queue, tasks[t])
    ensures NotLost(queue, phase, tasks)
  {
  }

  lemma FatalsUpdate(phase: map<Vbucket, Phase>, tasks: map<nat, Task>, tasks': map<nat, Task>, t: nat, v: Vbucket,
                     p: Phase)
    requires FatalsCancel(phase, tasks) && v in phase && Elsewhere(tasks, tasks', t)
    requires t in tasks ==> !tasks[t].Cancelling?
    requires p != Ended(true) || (t in tasks' && tasks'[t].Cancelling?)
    ensures FatalsCancel(phase[v := p], tasks')
  {
    var phase' := phase[v := p];
    if p != Ended(true) && exists u <- phase' :: phase'[u] == Ended(true) {
      var u :| u in phase' && phase'[u] == Ended(true);
      assert u in phase && phase[u] == Ended(true);
      var k :| k in tasks && tasks[k].Cancelling?;
      assert k in tasks' && tasks'[k].Cancelling?;
    }
  }

  lemma FatalsKeep(phase: map<Vbucket, Phase>, tasks: map<nat, Task>, tasks': map<nat, Task>, t: nat)
    requires FatalsCancel(phase, tasks) && Elsewhere(tasks, tasks', t) && t in tasks && !tasks[t].Cancelling?
    ensures FatalsCancel(phase, tasks')
  {
    if exists u <- phase :: phase[u] == Ended(true) {
      var k :| k in tasks && tasks[k].Cancelling?;
      assert k in tasks' && tasks'[k].Cancelling?;
    }
  }

  // ---- a vbucket changes its phase ----

  /** The counters of s' are those of s, adjusted for the new phase of v; the slot of v went to or came from t. */
  ghost predicate Balances(c: Setup, s: Scan, s': Scan, t: nat, v: Vbucket, p: Phase)
    requires v in s.phase && c.Has(v)
  {
    && s'.active == s.active - One(Counts(s.phase[v])) + One(Counts(p))
    && s'.load.Keys == s.load.Keys
    && (forall n <- s.load ::
          s'.load[n] == s.load[n] + (if n == c.active[v] then One(Loads(p)) - One(Loads(s.phase[v])) else 0))
    && One(Busy(p)) + One(SlotAt(s'.tasks, t)) + s'.unspent <=
       One(Busy(s.phase[v])) + One(SlotAt(s.tasks, t)) + s.unspent
    && (STARTER in s'.tasks ==> !s'.tasks[STARTER].Cancelling? && !s'.tasks[STARTER].CheckingActive?)
    && (STARTER in s'.tasks && HoldsSlot(s'.tasks[STARTER]) ==> s'.unspent > 0)
    && (STARTER !in s'.tasks ==> s'.unspent == 0)
  }

  lemma AccountsUpdate(c: Setup, s: Scan, s': Scan, t: nat, v: Vbucket, p: Phase)
    requires Accounted(c, s) && v in s.phase && c.Has(v)
    requires s'.phase == s.phase[v := p] && Elsewhere(s.tasks, s'.tasks, t) && Balances(c, s, s', t, v, p)
    ensures Accounted(c, s')
  {
    CountedUpdate(s.phase, v, p);
    BusyUpdate(s.phase, v, p);
    SlotUpdate(s.tasks, s'.tasks, t);
    LoadsUpdate(c, s.load, s'.load, s.phase, v, p);
  }

  /** v's phase becomes p, given that the queues and the selections fit afterwards. */
  lemma StructureUpdate(c: Setup, s: Scan, s': Scan, t: nat, v: Vbucket, p: Phase)
    requires Shape(c, s) && OwnersMatch(s.tasks, s.phase) && LockHolds(s.tasks, s.lock) && v in s.phase
    requires s'.phase == s.phase[v := p] && s'.queue.Keys == s.queue.Keys && s'.load.Keys == s.load.Keys
    requires s'.emitted == s.emitted && s'.streams == s.streams
    requires Elsewhere(s.tasks, s'.tasks, t) && Exclusive(s.tasks, s'.tasks, t, v, s.phase[v], p)
    requires LockMoves(s'.tasks, s.lock, s'.lock, t)
    requires QueuesHold(c, s'.queue, s'.phase) && SelectionsSound(s'.queue, s'.tasks)
    ensures Structured(c, s')
  {
    OwnersUpdate(s.tasks, s'.tasks, s.phase, t, v, p);
    LockUpdate(s.tasks, s'.tasks, s.lock, s'.lock, t);
  }

  // ---- steps of the streams ----

  predicate Underway(p: Phase) {
    p.Posted? || p.Creating? || p.Running? || p.Abandoned?
  }

  lemma HandAccounted(c: Setup, s: Scan, v: Vbucket, t: nat, outcome: Outcome)
    requires Accounted(c, s) && v in s.phase && c.Has(v) && Fresh(s, t) && Underway(s.phase[v])
    ensures Accounted(c, Hand(s, v, t, outcome))
  {
    AccountsUpdate(c, s, Hand(s, v, t, outcome), t, v, Notifying(t, outcome));
  }

  lemma HandScheduled(c: Setup, s: Scan, v: Vbucket, t: nat, outcome: Outcome)
    requires Scheduled(c, s) && v in s.phase && Fresh(s, t) && Underway(s.phase[v])
    ensures Scheduled(c, Hand(s, v, t, outcome))
  {
    var s' := Hand(s, v, t, outcome);
    HandAccounted(c, s, v, t, outcome);
    QueuesKeep(c, s.queue, s.phase, v, Notifying(t, outcome));
    SelectionsUpdate(s.queue, s.tasks, s'.tasks, t);
    StructureUpdate(c, s, s', t, v, Notifying(t, outcome));
    if !s.cancelled {
      FatalsUpdate(s.phase, s.tasks, s'.tasks, t, v, Notifying(t, outcome));
    }
    BusyWakes(s.queue, s'.phase, s'.tasks, v);
  }

  lemma OwnersMove(tasks: map<nat, Task>, phase: map<Vbucket, Phase>, v: Vbucket, p: Phase)
    requires OwnersMatch(tasks, phase) && v in phase && !Owned(phase[v]) && !Owned(p)
    ensures OwnersMatch(tasks, phase[v := p])
  {
  }

  lemma MoveAccounted(c: Setup, s: Scan, v: Vbucket, p: Phase)
    requires Accounted(c, s) && v in s.phase && c.Has(v) && Underway(s.phase[v]) && Underway(p)
    ensures Accounted(c, s.(phase := s.phase[v := p]))
  {
    CountedUpdate(s.phase, v, p);
    BusyUpdate(s.phase, v, p);
    LoadsUpdate(c, s.load, s.load, s.phase, v, p);
  }

  lemma MoveFatals(phase: map<Vbucket, Phase>, tasks: map<nat, Task>, v: Vbucket, p: Phase)
    requires FatalsCancel(phase, tasks) && v in phase && !p.Ended?
    ensures FatalsCancel(phase[v := p], tasks)
  {
    var phase' := phase[v := p];
    if exists u <- phase' :: phase'[u] == Ended(true) {
      var u :| u in phase' && phase'[u] == Ended(true);
      assert u in phase && phase[u] == Ended(true);
    }
  }

  /** A stream moves on without entering the manager. */
  lemma MoveScheduled(c: Setup, s: Scan, v: Vbucket, p: Phase)
    requires Scheduled(c, s) && v in s.phase && Underway(s.phase[v]) && Underway(p) && (p.Abandoned? ==> s.cancelled)
    ensures Scheduled(c, s.(phase := s.phase[v := p]))
  {
    MoveAccounted(c, s, v, p);
    QueuesKeep(c, s.queue, s.phase, v, p);
    OwnersMove(s.tasks, s.phase, v, p);
    if !s.cancelled {
      MoveFatals(s.phase, s.tasks, v, p);
    }
    BusyWakes(s.queue, s.phase[v := p], s.tasks, v);
  }

  // ---- steps of the thread that carries a vbucket ----

  /** What is known of the thread that carries v. */
  ghost predicate Carrier(c: Setup, s: Scan, t: nat, v: Vbucket) {
    && t in s.tasks && s.tasks[t] == Carrying(v)
    && v in s.phase && OwnedBy(s.phase[v], t)
    && c.Has(v) && c.active[v] in s.load && c.active[v] in s.queue
    && s.lock != Some(t)
  }

  lemma CarrierFacts(c: Setup, s: Scan, t: nat, v: Vbucket)
    requires Structured(c, s) && t in s.tasks && s.tasks[t] == Carrying(v)
    ensures Carrier(c, s, t, v)
  {
  }

  lemma CarryBalances(c: Setup, s: Scan, t: nat, v: Vbucket)
    requires BudgetHolds(c, s.phase, s.tasks, s.unspent) && Carrier(c, s, t, v)
    ensures var s' := Carry(c, s, t, v);
            Elsewhere(s.tasks, s'.tasks, t) && Balances(c, s, s', t, v, s'.phase[v])
  {
  }

  lemma CarryAccounted(c: Setup, s: Scan, t: nat, v: Vbucket)
    requires Accounted(c, s) && Carrier(c, s, t, v)
    ensures Accounted(c, Carry(c, s, t, v))
  {
    var s' := Carry(c, s, t, v);
    CarryBalances(c, s, t, v);
    AccountsUpdate(c, s, s', t, v, s'.phase[v]);
  }

  lemma CarryMoves(c: Setup, s: Scan, t: nat, v: Vbucket)
    requires Carrier(c, s, t, v)
    ensures var s' := Carry(c, s, t, v);
            && Elsewhere(s.tasks, s'.tasks, t) && Exclusive(s.tasks, s'.tasks, t, v, s.phase[v], s'.phase[v])
            && LockMoves(s'.tasks, s.lock, s'.lock, t)
            && (t in s'.tasks ==> !Selecting(s'.tasks[t]))
  {
  }

  lemma QueuesGrow(c: Setup, queue: map<Node, seq<Vbucket>>, phase: map<Vbucket, Phase>, v: Vbucket)
    requires QueuesHold(c, queue, phase) && v in phase && !phase[v].Queued? && c.Has(v) && c.active[v] in queue
    ensures QueuesHold(c, queue[c.active[v] := queue[c.active[v]] + [v]], phase[v := Queued])
  {
  }

  lemma SelectionsGrow(queue: map<Node, seq<Vbucket>>, tasks: map<nat, Task>, n: Node, v: Vbucket)
    requires SelectionsSound(queue, tasks) && n in queue
    ensures SelectionsSound(queue[n := queue[n] + [v]], tasks)
  {
    forall t <- tasks ensures SelectionSound(queue[n := queue[n] + [v]], tasks[t]) {
      assert SelectionSound(queue, tasks[t]);
    }
  }

  lemma CarryStructured(c: Setup, s: Scan, t: nat, v: Vbucket)
    requires Structured(c, s) && Carrier(c, s, t, v)
    ensures Structured(c, Carry(c, s, t, v))
  {
    var s' := Carry(c, s, t, v);
    CarryMoves(c, s, t, v);
    if s.phase[v].Requeueing? {
      QueuesGrow(c, s.queue, s.phase, v);
      SelectionsGrow(s.queue, s.tasks, c.active[v], v);
    } else {
      QueuesKeep(c, s.queue, s.phase, v, s'.phase[v]);
    }
    SelectionsUpdate(s'.queue, s.tasks, s'.tasks, t);
    StructureUpdate(c, s, s', t, v, s'.phase[v]);
  }

  /** While t carries v the vbucket is busy; when it lets go, t has yet to check or to select. */
  lemma CarryAwake(c: Setup, s: Scan, t: nat, v: Vbucket)
    requires Awake(s) && Carrier(c, s, t, v)
    ensures Awake(Carry(c, s, t, v))
  {
    var s' := Carry(c, s, t, v);
    if !s.cancelled {
      CarryMoves(c, s, t, v);
      FatalsUpdate(s.phase, s.tasks, s'.tasks, t, v, NextPhase(s.phase[v], t));
    }
    if s.phase[v].Signalling? || s.phase[v].Requeueing? {
      TaskWakes(s'.queue, s'.phase, s'.tasks, t);
    } else {
      BusyWakes(s'.queue, s'.phase, s'.tasks, v);
    }
  }

  lemma CarryScheduled(c: Setup, s: Scan, t: nat, v: Vbucket)
    requires Scheduled(c, s) && t in s.tasks && s.tasks[t] == Carrying(v)
    requires v in s.phase && Owned(s.phase[v])
    ensures Scheduled(c, Carry(c, s, t, v))
  {
    CarrierFacts(c, s, t, v);
    CarryAccounted(c, s, t, v);
    CarryStructured(c, s, t, v);
    CarryAwake(c, s, t, v);
  }

  // ---- steps of the other tasks ----

  /** A task changes what it does, and nothing but the mutex and its unspent starts with it. */
  lemma RetaskScheduled(c: Setup, s: Scan, s': Scan, t: nat)
    requires Scheduled(c, s) && t in s.tasks && !s.tasks[t].Carrying?
    requires s' == s.(tasks := s'.tasks, lock := s'.lock, unspent := s'.unspent) && Elsewhere(s.tasks, s'.tasks, t)
    requires t in s'.tasks ==> !s'.tasks[t].Carrying? && SelectionSound(s.queue, s'.tasks[t])
    requires LockMoves(s'.tasks, s.lock, s'.lock, t)
    requires BudgetHolds(c, s.phase, s'.tasks, s'.unspent)
    requires !s.cancelled ==> !s.tasks[t].Cancelling? && NotLost(s.queue, s.phase, s'.tasks)
    ensures Scheduled(c, s')
  {
    if !s.cancelled {
      FatalsKeep(s.phase, s.tasks, s'.tasks, t);
    }
    OwnersIgnore(s.tasks, s'.tasks, s.phase, t);
    LockUpdate(s.tasks, s'.tasks, s.lock, s'.lock, t);
    SelectionsUpdate(s.queue, s.tasks, s'.tasks, t);
  }

  lemma BudgetUpdate(c: Setup, phase: map<Vbucket, Phase>, tasks: map<nat, Task>, tasks': map<nat, Task>,
                     unspent: nat, unspent': nat, t: nat)
    requires BudgetHolds(c, phase, tasks, unspent) && Elsewhere(tasks, tasks', t)
    requires One(SlotAt(tasks', t)) + unspent' <= One(SlotAt(tasks, t)) + unspent
    requires STARTER in tasks' ==> !tasks'[STARTER].Cancelling? && !tasks'[STARTER].CheckingActive?
    requires STARTER in tasks' && HoldsSlot(tasks'[STARTER]) ==> unspent' > 0
    requires STARTER !in tasks' ==> unspent' == 0
    ensures BudgetHolds(c, phase, tasks', unspent')
  {
    SlotUpdate(tasks, tasks', t);
  }

  /** A thread that leaves without work leaves the other wakers behind. */
  lemma OthersWake(queue: map<Node, seq<Vbucket>>, phase: map<Vbucket, Phase>, tasks: map<nat, Task>, t: nat)
    requires NotLost(queue, phase, tasks) && t in tasks && !Hopeful(queue, tasks[t])
    ensures NotLost(queue, phase, tasks - {t})
  {
    if Pending(queue) && !exists v <- phase :: Busy(phase[v]) {
      var u :| u in tasks && Hopeful(queue, tasks[u]);
      assert u in tasks - {t};
    }
  }

  lemma LeaveScheduled(c: Setup, s: Scan, t: nat)
    requires Scheduled(c, s) && t in s.tasks && !s.tasks[t].Carrying? && !s.tasks[t].Cancelling?
    requires s.cancelled || !Hopeful(s.queue, s.tasks[t])
    ensures Scheduled(c, Leave(s, t))
  {
    var s' := Leave(s, t);
    BudgetUpdate(c, s.phase, s.tasks, s'.tasks, s.unspent, s'.unspent, t);
    if !s.cancelled {
      OthersWake(s.queue, s.phase, s.tasks, t);
    }
    RetaskScheduled(c, s, s', t);
  }

  lemma CancellingScheduled(c: Setup, s: Scan, t: nat)
    requires Scheduled(c, s) && t in s.tasks && s.tasks[t].Cancelling?
    ensures Scheduled(c, Advance(c, s, t))
  {
    var s0 := s.(cancelled := true);
    var s' := Advance(c, s, t);
    BudgetUpdate(c, s.phase, s.tasks, s'.tasks, s.unspent, s'.unspent, t);
    RetaskScheduled(c, s0, s', t);
  }

  lemma CountedExists(phase: map<Vbucket, Phase>) returns (v: Vbucket)
    requires |CountedSet(phase)| != 0
    ensures v in phase && Busy(phase[v])
  {
    v :| v in CountedSet(phase);
  }

  lemma CheckingActiveScheduled(c: Setup, s: Scan, t: nat)
    requires Scheduled(c, s) && t in s.tasks && s.tasks[t].CheckingActive?
    ensures Scheduled(c, Advance(c, s, t))
  {
    var s' := Advance(c, s, t);
    BudgetUpdate(c, s.phase, s.tasks, s'.tasks, s.unspent, s'.unspent, t);
    if s.active == 0 {
      TaskWakes(s.queue, s.phase, s'.tasks, t);
    } else {
      var v := CountedExists(s.phase);
      BusyWakes(s.queue, s.phase, s'.tasks, v);
    }
    RetaskScheduled(c, s, s', t);
  }

  lemma EnteringScheduled(c: Setup, s: Scan, t: nat)
    requires Scheduled(c, s) && t in s.tasks && s.tasks[t].Entering?
    ensures Scheduled(c, Advance(c, s, t))
  {
    var s' := Advance(c, s, t);
    if s.cancelled {
      LeaveScheduled(c, s, t);
    } else {
      BudgetUpdate(c, s.phase, s.tasks, s'.tasks, s.unspent, s'.unspent, t);
      TaskWakes(s.queue, s.phase, s'.tasks, t);
      RetaskScheduled(c, s, s', t);
    }
  }

  lemma LockingScheduled(c: Setup, s: Scan, t: nat)
    requires Scheduled(c, s) && t in s.tasks && s.tasks[t].Locking? && s.lock.None?
    ensures Scheduled(c, Advance(c, s, t))
  {
    var s' := Advance(c, s, t);
    BudgetUpdate(c, s.phase, s.tasks, s'.tasks, s.unspent, s'.unspent, t);
    if Pending(s.queue) {
      TaskWakes(s.queue, s.phase, s'.tasks, t);
    }
    RetaskScheduled(c, s, s', t);
  }

  /** A thread that turns to a node, or has looked at one, stays hopeful; so the others need not change. */
  lemma SelectingWakes(queue: map<Node, seq<Vbucket>>, phase: map<Vbucket, Phase>, tasks: map<nat, Task>, t: nat,
                       k: Task)
    requires NotLost(queue, phase, tasks) && t in tasks
    requires Hopeful(queue, tasks[t]) ==> Hopeful(queue, k)
    ensures NotLost(queue, phase, tasks[t := k])
  {
    if Pending(queue) && !exists v <- phase :: Busy(phase[v]) {
      var u :| u in tasks && Hopeful(queue, tasks[u]);
      assert u in tasks[t := k] && Hopeful(queue, tasks[t := k][u]);
    }
  }

  /** A selecting thread holds a slot, so no node can run the largest countable number of streams. */
  lemma CounterBelowMax(c: Setup, s: Scan, t: nat, n: Node)
    requires c.Valid() && Scheduled(c, s) && t in s.tasks && HoldsSlot(s.tasks[t]) && n in s.load
    ensures 0 <= s.load[n] < c.concurrency <= COUNTER_MAX
  {
    assert LoadedSet(c, s.phase, n) <= BusySet(s.phase);
    SubsetSize(LoadedSet(c, s.phase, n), BusySet(s.phase));
    if t != STARTER {
      assert t in SlotTasks(s.tasks);
    }
  }

  lemma ExamineScheduled(c: Setup, s: Scan, t: nat, n: Node)
    requires c.Valid() && Scheduled(c, s) && Enabled(s, Examine(t, n))
    ensures Scheduled(c, Apply(c, s, Examine(t, n)))
  {
    var s' := Apply(c, s, Examine(t, n));
    CounterBelowMax(c, s, t, n);
    BudgetUpdate(c, s.phase, s.tasks, s'.tasks, s.unspent, s'.unspent, t);
    if !s.cancelled {
      SelectingWakes(s.queue, s.phase, s.tasks, t, s'.tasks[t]);
    }
    RetaskScheduled(c, s, s', t);
  }

  lemma CheckingScheduled(c: Setup, s: Scan, t: nat)
    requires Scheduled(c, s) && t in s.tasks && s.tasks[t].Checking?
    ensures Scheduled(c, Advance(c, s, t))
  {
    var s' := Advance(c, s, t);
    BudgetUpdate(c, s.phase, s.tasks, s'.tasks, s.unspent, s'.unspent, t);
    if !s.cancelled {
      SelectingWakes(s.queue, s.phase, s.tasks, t, s'.tasks[t]);
    }
    RetaskScheduled(c, s, s', t);
  }

  lemma QueuesShrink(c: Setup, queue: map<Node, seq<Vbucket>>, phase: map<Vbucket, Phase>, n: Node, p: Phase)
    requires QueuesHold(c, queue, phase) && HasWork(queue, n) && !p.Queued?
    ensures queue[n][0] in phase && phase[queue[n][0]].Queued? && c.Has(queue[n][0]) && c.active[queue[n][0]] == n
    ensures QueuesHold(c, queue[n := queue[n][1..]], phase[queue[n][0] := p])
  {
    var v := queue[n][0];
    var queue', phase' := queue[n := queue[n][1..]], phase[v := p];
    assert forall i :: 0 <= i < |queue[n]| - 1 ==> queue'[n][i] == queue[n][i + 1];
    forall u <- phase' | phase'[u].Queued? ensures c.Has(u) && c.active[u] in queue' && u in queue'[c.active[u]] {
      if c.active[u] == n {
        var i :| 0 <= i < |queue[n]| && queue[n][i] == u;
        assert queue'[n][i - 1] == u;
      }
    }
  }

  lemma FetchAccounted(c: Setup, s: Scan, t: nat, n: Node, v: Vbucket)
    requires Accounted(c, s) && t in s.tasks && s.tasks[t].Scanning? && HasWork(s.queue, n) && n in s.load
    requires v == s.queue[n][0] && v in s.phase && s.phase[v].Queued? && c.Has(v) && c.active[v] == n
    ensures Accounted(c, Fetch(s, t, n))
  {
    AccountsUpdate(c, s, Fetch(s, t, n), t, v, Popped(t));
  }

  lemma FetchSelections(queue: map<Node, seq<Vbucket>>, tasks: map<nat, Task>, lock: Option<nat>, t: nat, v: Vbucket)
    requires LockHolds(tasks, lock) && lock == Some(t)
    ensures SelectionsSound(queue, tasks[t := Carrying(v)])
  {
  }

  lemma FetchStructured(c: Setup, s: Scan, t: nat, n: Node)
    requires Structured(c, s) && t in s.tasks && s.tasks[t].Scanning? && HasWork(s.queue, n)
    ensures Structured(c, Fetch(s, t, n))
  {
    var s' := Fetch(s, t, n);
    QueuesShrink(c, s.queue, s.phase, n, Popped(t));
    FetchSelections(s'.queue, s.tasks, s.lock, t, s.queue[n][0]);
    StructureUpdate(c, s, s', t, s.queue[n][0], Popped(t));
  }

  lemma FetchScheduled(c: Setup, s: Scan, t: nat, n: Node)
    requires Scheduled(c, s) && t in s.tasks && s.tasks[t].Scanning? && HasWork(s.queue, n)
    ensures Scheduled(c, Fetch(s, t, n))
  {
    var s' := Fetch(s, t, n);
    FetchStructured(c, s, t, n);
    QueuesShrink(c, s.queue, s.phase, n, Popped(t));
    FetchAccounted(c, s, t, n, s.queue[n][0]);
    if !s.cancelled {
      FatalsUpdate(s.phase, s.tasks, s'.tasks, t, s.queue[n][0], Popped(t));
    }
    BusyWakes(s'.queue, s'.phase, s'.tasks, s.queue[n][0]);
  }

  lemma ScanningScheduled(c: Setup, s: Scan, t: nat)
    requires Scheduled(c, s) && Enabled(s, Proceed(t)) && s.tasks[t].Scanning?
    ensures Scheduled(c, Advance(c, s, t))
  {
    if s.tasks[t].choice.node.None? {
      LeaveScheduled(c, s, t);
    } else {
      assert SelectionSound(s.queue, s.tasks[t]);
      FetchScheduled(c, s, t, s.tasks[t].choice.node.value);
    }
  }

  lemma AdvanceScheduled(c: Setup, s: Scan, t: nat)
    requires Scheduled(c, s) && Enabled(s, Proceed(t))
    ensures Scheduled(c, Advance(c, s, t))
  {
    match s.tasks[t]
    case Carrying(v) => CarryScheduled(c, s, t, v);
    case Cancelling => CancellingScheduled(c, s, t);
    case CheckingActive => CheckingActiveScheduled(c, s, t);
    case Entering => EnteringScheduled(c, s, t);
    case Locking => LockingScheduled(c, s, t);
    case Scanning(_, _) => ScanningScheduled(c, s, t);
    case Checking(_, _, _, _) => CheckingScheduled(c, s, t);
  }

  // ---- every step, from the initial state on ----

  lemma StreamScheduled(c: Setup, s: Scan, a: Action)
    requires Scheduled(c, s) && Enabled(s, a) && (a.Start? || a.CreateReply? || a.Emit? || a.ContinueReply?)
    ensures Scheduled(c, Stream(c, s, a))
  {
    match a
    case Start(v, expired, t) =>
      if expired {
        HandScheduled(c, s, v, t, TimeoutOutcome(c.sampling));
      } else {
        MoveScheduled(c, s, v, Creating);
      }
    case CreateReply(v, error, t) =>
      if error.Some? {
        HandScheduled(c, s, v, t, CreateOutcome(error.value));
      } else {
        MoveScheduled(c, s, v, Resume(s, v).phase[v]);
      }
    case Emit(v, item) =>
    case ContinueReply(v, reply, t) =>
      match reply {
        case Failed(e) => HandScheduled(c, s, v, t, ContinueOutcome(c.sampling, e));
        case Complete => HandScheduled(c, s, v, t, Finish);
        case More => MoveScheduled(c, s, v, Resume(s, v).phase[v]);
      }
  }

  /** Nothing that the consumer or a cancellation changes matters to scheduling, except that it may end it. */
  lemma AsideScheduled(c: Setup, s: Scan, cancelled': bool, streams': set<Vbucket>, channel': seq<Message>,
                       closed': bool, itemLimit': nat, consumer': Consumer, delivered': seq<(Vbucket, Item)>)
    requires Scheduled(c, s) && streams' <= s.streams && (s.cancelled ==> cancelled')
    ensures Scheduled(c, s.(cancelled := cancelled', streams := streams', channel := channel', closed := closed',
                            itemLimit := itemLimit', consumer := consumer', delivered := delivered'))
  {
  }

  lemma ConsumeScheduled(c: Setup, s: Scan, a: Action)
    requires Scheduled(c, s) && Enabled(s, a) && (a.CallNext? || a.Look? || a.Receive?)
    ensures Scheduled(c, Consume(s, a))
  {
    match a
    case CallNext =>
      if s.itemLimit == 0 {
        AsideScheduled(c, s, true, s.streams, s.channel, s.closed, s.itemLimit, s.consumer, s.delivered);
      } else {
        AsideScheduled(c, s, s.cancelled, s.streams, s.channel, s.closed, s.itemLimit - 1, Looking, s.delivered);
      }
    case Look =>
      if s.streams == {} || s.cancelled {
        AsideScheduled(c, s, s.cancelled, s.streams, s.channel, true, s.itemLimit, Idle, s.delivered);
      } else {
        AsideScheduled(c, s, s.cancelled, s.streams, s.channel, s.closed, s.itemLimit, Receiving, s.delivered);
      }
    case Receive =>
      var m := s.channel[0];
      AsideScheduled(c, s, s.cancelled, if m.End? then s.streams - {m.vbucket} else s.streams, s.channel[1..], s.closed,
                     s.itemLimit, if m.End? then Looking else Idle,
                     if m.Data? then s.delivered + [(m.vbucket, m.item)] else s.delivered);
  }

  lemma StepScheduled(c: Setup, s: Scan, a: Action)
    requires c.Valid() && Scheduled(c, s) && Enabled(s, a)
    ensures Scheduled(c, Apply(c, s, a))
  {
    match a
    case Proceed(t) => AdvanceScheduled(c, s, t);
    case Examine(t, n) => ExamineScheduled(c, s, t, n);
    case Start(_, _, _) => StreamScheduled(c, s, a);
    case CreateReply(_, _, _) => StreamScheduled(c, s, a);
    case Emit(_, _) => StreamScheduled(c, s, a);
    case ContinueReply(_, _, _) => StreamScheduled(c, s, a);
    case Cancel => AsideScheduled(c, s, true, s.streams, s.channel, s.closed, s.itemLimit, s.consumer, s.delivered);
    case _ => ConsumeScheduled(c, s, a);
  }

  lemma InitQueues(c: Setup)
    ensures QueuesHold(c, Init(c).queue, Init(c).phase)
  {
    var s := Init(c);
    forall n <- s.queue
      ensures forall v: nat :: v in s.queue[n] <==> v < |c.active| && c.active[v] == n
      ensures forall i, j :: 0 <= i < j < |s.queue[n]| ==> s.queue[n][i] != s.queue[n][j]
    {
      SharesPartition(c.active, |c.active|, n);
    }
    forall n, i | n in s.queue && 0 <= i < |s.queue[n]|
      ensures s.queue[n][i] in s.phase && c.Has(s.queue[n][i]) && c.active[s.queue[n][i]] == n
    {
      assert s.queue[n][i] in s.queue[n];
    }
  }

  lemma InitAccounted(c: Setup)
    requires c.Valid()
    ensures Accounted(c, Init(c))
  {
    var s := Init(c);
    assert CountedSet(s.phase) == {} && BusySet(s.phase) == {} && SlotTasks(s.tasks) == {};
    assert forall n :: LoadedSet(c, s.phase, n) == {};
  }

  lemma InitScheduled(c: Setup)
    requires c.Valid()
    ensures Scheduled(c, Init(c))
  {
    InitQueues(c);
    InitAccounted(c);
    assert Hopeful(Init(c).queue, Init(c).tasks[STARTER]);
  }
}
