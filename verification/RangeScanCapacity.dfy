/** How much of the concurrency a range scan uses, and which node it turns to. */
module RangeScanCapacity {
  import opened Options
  import opened LoadBalancing
  import opened RangeScan
  import opened RangeScanInvariant
  import opened RangeScanScheduling
  import opened RangeScanTheorems

  // ---- slots ----

  /** Streams in progress, freed slots that a thread is about to fill, and initial starts not yet used. */
  ghost function Slots(s: Scan): nat {
    |BusySet(s.phase)| + |SlotTasks(s.tasks)| + s.unspent
  }

  lemma SlotsMove(s: Scan, s': Scan, t: nat, v: Vbucket, p: Phase)
    requires v in s.phase && s'.phase == s.phase[v := p] && Elsewhere(s.tasks, s'.tasks, t)
    ensures Slots(s') == Slots(s) + One(Busy(p)) - One(Busy(s.phase[v])) + One(SlotAt(s'.tasks, t)) -
                         One(SlotAt(s.tasks, t)) + s'.unspent - s.unspent
  {
    BusyUpdate(s.phase, v, p);
    SlotUpdate(s.tasks, s'.tasks, t);
  }

  lemma SlotsRetask(s: Scan, s': Scan, t: nat)
    requires s'.phase == s.phase && Elsewhere(s.tasks, s'.tasks, t)
    ensures Slots(s') == Slots(s) + One(SlotAt(s'.tasks, t)) - One(SlotAt(s.tasks, t)) + s'.unspent - s.unspent
  {
    SlotUpdate(s.tasks, s'.tasks, t);
  }

  // ---- no server is too busy ----

  /** A server answers that it is too busy. */
  predicate TooBusy(a: Action) {
    a.CreateReply? && a.error == Some(TemporaryFailure)
  }

  predicate Retries(p: Phase) {
    p.Requeueing? || ((p.Notifying? || p.Uncounting?) && p.outcome.Retry?)
  }

  ghost predicate NoRetries(s: Scan) {
    && (forall v <- s.phase :: !Retries(s.phase[v]))
    && (forall t <- s.tasks :: !s.tasks[t].CheckingActive?)
  }

  /** Until a thread has chosen, the nodes that it has looked at have no work. */
  ghost predicate Searched(queue: map<Node, seq<Vbucket>>, k: Task) {
    match k
    case Scanning(rest, choice) => choice.node.None? ==> forall n <- queue :: n in rest || queue[n] == []
    case Checking(rest, choice, m, _) =>
      choice.node.None? ==> forall n <- queue :: n in rest || n == m || queue[n] == []
    case _ => true
  }

  ghost predicate AllSearched(queue: map<Node, seq<Vbucket>>, tasks: map<nat, Task>) {
    forall t <- tasks :: Searched(queue, tasks[t])
  }

  /** While there is work and nothing went wrong, every slot is taken. */
  ghost predicate Full(c: Setup, s: Scan) {
    !s.cancelled && NoneFailed(s.phase) && Pending(s.queue) ==> Slots(s) == c.concurrency
  }

  ghost predicate Used(c: Setup, s: Scan) {
    NoRetries(s) && AllSearched(s.queue, s.tasks) && Full(c, s)
  }

  /** Nothing that makes the promise void goes away. */
  ghost predicate StaysVoid(s: Scan, s': Scan) {
    && (s.cancelled ==> s'.cancelled)
    && (NoneFailed(s'.phase) ==> NoneFailed(s.phase))
    && (Pending(s'.queue) ==> Pending(s.queue))
  }

  lemma FullKept(c: Setup, s: Scan, s': Scan)
    requires Full(c, s) && StaysVoid(s, s')
    requires !s'.cancelled && NoneFailed(s'.phase) && Pending(s'.queue) ==> Slots(s') == Slots(s)
    ensures Full(c, s')
  {
  }

  lemma FailuresStay(phase: map<Vbucket, Phase>, v: Vbucket, p: Phase)
    requires v in phase && !phase[v].Ended? && NoneFailed(phase[v := p])
    ensures NoneFailed(phase)
  {
    forall u <- phase ensures phase[u] != Ended(true) {
      assert u != v ==> phase[v := p][u] == phase[u];
    }
  }

  /** A vbucket that has not ended changes its phase, and t what it does; the queues stay. */
  lemma MoveUsed(c: Setup, s: Scan, s': Scan, t: nat, v: Vbucket, p: Phase)
    requires Used(c, s) && v in s.phase && !s.phase[v].Ended? && s'.phase == s.phase[v := p] && !Retries(p)
    requires s'.queue == s.queue && s'.cancelled == s.cancelled && s'.unspent == s.unspent
    requires Elsewhere(s.tasks, s'.tasks, t)
    requires t in s'.tasks ==> !s'.tasks[t].CheckingActive? && !Selecting(s'.tasks[t])
    requires p != Ended(true) ==>
               One(Busy(p)) + One(SlotAt(s'.tasks, t)) == One(Busy(s.phase[v])) + One(SlotAt(s.tasks, t))
    ensures Used(c, s')
  {
    SlotsMove(s, s', t, v, p);
    assert s'.phase[v] == p;
    if NoneFailed(s'.phase) {
      FailuresStay(s.phase, v, p);
    }
    FullKept(c, s, s');
  }

  lemma CarryTasks(c: Setup, s: Scan, t: nat, v: Vbucket)
    requires t in s.tasks && s.tasks[t] == Carrying(v) && v in s.phase && OwnedBy(s.phase[v], t) && !Retries(s.phase[v])
    ensures var s' := Carry(c, s, t, v);
            && Elsewhere(s.tasks, s'.tasks, t) && s'.queue == s.queue && s'.cancelled == s.cancelled
            && s'.unspent == s.unspent
            && (t in s'.tasks ==> !s'.tasks[t].CheckingActive? && !Selecting(s'.tasks[t]))
            && (SlotAt(s'.tasks, t) <==> s.phase[v].Signalling? && !s.phase[v].outcome.Fatal?)
  {
  }

  lemma CarryPhase(p: Phase, t: nat)
    requires OwnedBy(p, t) && !Retries(p)
    ensures var p' := NextPhase(p, t);
            && !Retries(p') && !p'.Queued?
            && (p'.Ended? <==> p.Signalling?) && (p'.Ended? ==> p' == Ended(p.outcome.Fatal?))
  {
  }

  lemma CarryUsed(c: Setup, s: Scan, t: nat, v: Vbucket)
    requires Used(c, s) && Scheduled(c, s) && t in s.tasks && s.tasks[t] == Carrying(v)
    ensures v in s.phase && Owned(s.phase[v]) && Used(c, Carry(c, s, t, v))
  {
    assert OwnedBy(s.phase[v], t) && !Retries(s.phase[v]);
    CarryTasks(c, s, t, v);
    CarryPhase(s.phase[v], t);
    MoveUsed(c, s, Carry(c, s, t, v), t, v, Carry(c, s, t, v).phase[v]);
  }

  lemma RetaskUsed(c: Setup, s: Scan, s': Scan, t: nat)
    requires Used(c, s) && s'.phase == s.phase && s'.queue == s.queue && Elsewhere(s.tasks, s'.tasks, t)
    requires s.cancelled ==> s'.cancelled
    requires t in s'.tasks ==> !s'.tasks[t].CheckingActive? && Searched(s.queue, s'.tasks[t])
    requires !s'.cancelled && Pending(s.queue) ==>
               One(SlotAt(s'.tasks, t)) + s'.unspent == One(SlotAt(s.tasks, t)) + s.unspent
    ensures Used(c, s')
  {
    SlotsRetask(s, s', t);
    FullKept(c, s, s');
  }

  lemma CheckingUsed(c: Setup, s: Scan, t: nat)
    requires Used(c, s) && Scheduled(c, s) && t in s.tasks && s.tasks[t].Checking?
    ensures Used(c, Advance(c, s, t))
  {
    assert Searched(s.queue, s.tasks[t]) && SelectionSound(s.queue, s.tasks[t]);
    RetaskUsed(c, s, Advance(c, s, t), t);
  }

  lemma LeaveUsed(c: Setup, s: Scan, t: nat)
    requires Used(c, s) && t in s.tasks && (s.cancelled || !Pending(s.queue))
    ensures Used(c, Leave(s, t))
  {
    RetaskUsed(c, s, Leave(s, t), t);
  }

  lemma QueueShrinks(queue: map<Node, seq<Vbucket>>, tasks: map<nat, Task>, n: Node)
    requires HasWork(queue, n) && AllSearched(queue, tasks)
    ensures AllSearched(queue[n := queue[n][1..]], tasks)
    ensures Pending(queue)
  {
  }

  lemma FetchSlots(c: Setup, s: Scan, t: nat, n: Node)
    requires Scheduled(c, s) && t in s.tasks && s.tasks[t].Scanning? && HasWork(s.queue, n) && n in s.load
    ensures var s', v := Fetch(s, t, n), s.queue[n][0];
            && v in s.phase && s.phase[v].Queued? && s'.phase == s.phase[v := Popped(t)]
            && s'.tasks == s.tasks[t := Carrying(v)] && s'.queue == s.queue[n := s.queue[n][1..]]
            && s'.cancelled == s.cancelled && Slots(s') == Slots(s)
  {
    var v := s.queue[n][0];
    assert v in s.phase && s.phase[v].Queued?;
    SlotsMove(s, Fetch(s, t, n), t, v, Popped(t));
  }

  lemma FetchUsed(c: Setup, s: Scan, t: nat, n: Node)
    requires Used(c, s) && Scheduled(c, s) && t in s.tasks && s.tasks[t].Scanning?
    requires HasWork(s.queue, n) && n in s.load
    ensures Used(c, Fetch(s, t, n))
  {
    var s', v := Fetch(s, t, n), s.queue[n][0];
    FetchSlots(c, s, t, n);
    QueueShrinks(s.queue, s.tasks, n);
    if NoneFailed(s'.phase) {
      FailuresStay(s.phase, v, Popped(t));
    }
    FullKept(c, s, s');
  }

  lemma ScanningUsed(c: Setup, s: Scan, t: nat)
    requires Used(c, s) && Scheduled(c, s) && Enabled(s, Proceed(t)) && s.tasks[t].Scanning?
    ensures Used(c, Advance(c, s, t))
  {
    var choice := s.tasks[t].choice;
    assert Searched(s.queue, s.tasks[t]) && SelectionSound(s.queue, s.tasks[t]);
    if choice.node.None? {
      LeaveUsed(c, s, t);
    } else {
      FetchUsed(c, s, t, choice.node.value);
    }
  }

  lemma EnteringUsed(c: Setup, s: Scan, t: nat)
    requires Used(c, s) && t in s.tasks && s.tasks[t].Entering?
    ensures Used(c, Advance(c, s, t))
  {
    if s.cancelled {
      LeaveUsed(c, s, t);
    } else {
      RetaskUsed(c, s, Advance(c, s, t), t);
    }
  }

  lemma AdvanceUsed(c: Setup, s: Scan, t: nat)
    requires Used(c, s) && Scheduled(c, s) && Enabled(s, Proceed(t))
    ensures Used(c, Advance(c, s, t))
  {
    match s.tasks[t]
    case Carrying(v) => CarryUsed(c, s, t, v);
    case Cancelling => RetaskUsed(c, s, Advance(c, s, t), t);
    case Entering => EnteringUsed(c, s, t);
    case Locking => RetaskUsed(c, s, Advance(c, s, t), t);
    case Scanning(_, _) => ScanningUsed(c, s, t);
    case Checking(_, _, _, _) => CheckingUsed(c, s, t);
    case CheckingActive => assert false;
  }

  lemma HandUsed(c: Setup, s: Scan, v: Vbucket, t: nat, outcome: Outcome)
    requires Used(c, s) && v in s.phase && Busy(s.phase[v]) && Fresh(s, t) && !outcome.Retry?
    ensures Used(c, Hand(s, v, t, outcome))
  {
    MoveUsed(c, s, Hand(s, v, t, outcome), t, v, Notifying(t, outcome));
  }

  lemma ResumeUsed(c: Setup, s: Scan, v: Vbucket, p: Phase, attempted': set<Vbucket>, t: nat)
    requires Used(c, s) && v in s.phase && Busy(s.phase[v]) && Fresh(s, t)
    requires p.Creating? || p.Running? || p.Abandoned?
    ensures Used(c, s.(phase := s.phase[v := p], attempted := attempted'))
  {
    MoveUsed(c, s, s.(phase := s.phase[v := p], attempted := attempted'), t, v, p);
  }

  lemma StreamUsed(c: Setup, s: Scan, a: Action)
    requires Used(c, s) && Enabled(s, a) && !TooBusy(a) && (a.Start? || a.CreateReply? || a.ContinueReply?)
    ensures Used(c, Stream(c, s, a))
  {
    match a
    case Start(v, expired, t) =>
      if expired {
        HandUsed(c, s, v, t, TimeoutOutcome(c.sampling));
      } else {
        ResumeUsed(c, s, v, Creating, s.attempted + {v}, t);
      }
    case CreateReply(v, error, t) =>
      if error.Some? {
        HandUsed(c, s, v, t, CreateOutcome(error.value));
      } else {
        ResumeUsed(c, s, v, Resume(s, v).phase[v], s.attempted, t);
      }
    case ContinueReply(v, reply, t) =>
      match reply {
        case Failed(e) => HandUsed(c, s, v, t, ContinueOutcome(c.sampling, e));
        case Complete => HandUsed(c, s, v, t, Finish);
        case More => ResumeUsed(c, s, v, Resume(s, v).phase[v], s.attempted, t);
      }
  }

  /** What the consumer, an item or a cancellation changes does not matter, except that it may make the promise void. */
  lemma AsideUsed(c: Setup, s: Scan, cancelled': bool, streams': set<Vbucket>, channel': seq<Message>, closed': bool,
                  itemLimit': nat, consumer': Consumer, delivered': seq<(Vbucket, Item)>,
                  emitted': map<Vbucket, seq<Item>>)
    requires Used(c, s) && (s.cancelled ==> cancelled')
    ensures Used(c, s.(cancelled := cancelled', streams := streams', channel := channel', closed := closed',
                       itemLimit := itemLimit', consumer := consumer', delivered := delivered', emitted := emitted'))
  {
  }

  lemma ConsumeUsed(c: Setup, s: Scan, a: Action)
    requires Used(c, s) && Enabled(s, a) && (a.CallNext? || a.Look? || a.Receive?)
    ensures Used(c, Consume(s, a))
  {
    match a
    case CallNext =>
      if s.itemLimit == 0 {
        AsideUsed(c, s, true, s.streams, s.channel, s.closed, s.itemLimit, s.consumer, s.delivered, s.emitted);
      } else {
        AsideUsed(c, s, s.cancelled, s.streams, s.channel, s.closed, s.itemLimit - 1, Looking, s.delivered, s.emitted);
      }
    case Look =>
      if s.streams == {} || s.cancelled {
        AsideUsed(c, s, s.cancelled, s.streams, s.channel, true, s.itemLimit, Idle, s.delivered, s.emitted);
      } else {
        AsideUsed(c, s, s.cancelled, s.streams, s.channel, s.closed, s.itemLimit, Receiving, s.delivered, s.emitted);
      }
    case Receive =>
      var m := s.channel[0];
      AsideUsed(c, s, s.cancelled, if m.End? then s.streams - {m.vbucket} else s.streams, s.channel[1..], s.closed,
                s.itemLimit, if m.End? then Looking else Idle,
                if m.Data? then s.delivered + [(m.vbucket, m.item)] else s.delivered, s.emitted);
  }

  lemma EmitUsed(c: Setup, s: Scan, v: Vbucket, item: Item)
    requires Used(c, s) && Enabled(s, Emit(v, item))
    ensures Used(c, Stream(c, s, Emit(v, item)))
  {
    var t := Stream(c, s, Emit(v, item));
    AsideUsed(c, s, s.cancelled, s.streams, t.channel, s.closed, s.itemLimit, s.consumer, s.delivered, t.emitted);
  }

  lemma ExamineUsed(c: Setup, s: Scan, t: nat, n: Node)
    requires Used(c, s) && Enabled(s, Examine(t, n))
    ensures Used(c, Apply(c, s, Examine(t, n)))
  {
    assert Searched(s.queue, s.tasks[t]);
    RetaskUsed(c, s, Apply(c, s, Examine(t, n)), t);
  }

  lemma StepUsed(c: Setup, s: Scan, a: Action)
    requires Used(c, s) && Scheduled(c, s) && Enabled(s, a) && !TooBusy(a)
    ensures Used(c, Apply(c, s, a))
  {
    match a
    case Proceed(t) => AdvanceUsed(c, s, t);
    case Examine(t, n) => ExamineUsed(c, s, t, n);
    case Start(_, _, _) => StreamUsed(c, s, a);
    case CreateReply(_, _, _) => StreamUsed(c, s, a);
    case ContinueReply(_, _, _) => StreamUsed(c, s, a);
    case Emit(v, item) => EmitUsed(c, s, v, item);
    case Cancel =>
      AsideUsed(c, s, true, s.streams, s.channel, s.closed, s.itemLimit, s.consumer, s.delivered, s.emitted);
    case CallNext => ConsumeUsed(c, s, a);
    case Look => ConsumeUsed(c, s, a);
    case Receive => ConsumeUsed(c, s, a);
  }

  lemma InitUsed(c: Setup)
    ensures Used(c, Init(c))
  {
    var s := Init(c);
    assert BusySet(s.phase) == {} && SlotTasks(s.tasks) == {};
  }

  lemma NextUsed(c: Setup, run: seq<Scan>, actions: seq<Action>, i: nat)
    requires Takes(c, run, actions) && i < |actions| && !TooBusy(actions[i]) && Used(c, run[i])
    ensures Used(c, run[i + 1])
  {
    TakesBehaves(c, run, actions);
    RunInvariant(c, run, i);
    assert Taken(c, run, actions, i);
    StepUsed(c, run[i], actions[i]);
  }

  lemma {:induction false} RunUsed(c: Setup, run: seq<Scan>, actions: seq<Action>, i: nat)
    requires Takes(c, run, actions) && i <= |actions| && forall k :: 0 <= k < i ==> !TooBusy(actions[k])
    ensures Used(c, run[i])
  {
    if i == 0 {
      InitUsed(c);
    } else {
      RunUsed(c, run, actions, i - 1);
      NextUsed(c, run, actions, i - 1);
    }
  }

  /**
   As long as no server was too busy and nothing failed, a scan with a vbucket left to start uses all of its
   concurrency: once no thread is left, that many streams are in progress.
   */
  lemma ConcurrencyIsUsed(c: Setup, run: seq<Scan>, actions: seq<Action>, i: nat)
    requires Takes(c, run, actions) && i <= |actions| && forall k :: 0 <= k < i ==> !TooBusy(actions[k])
    requires !run[i].cancelled && NoneFailed(run[i].phase) && Pending(run[i].queue)
    ensures |BusySet(run[i].phase)| + |SlotTasks(run[i].tasks)| + run[i].unspent == c.concurrency
    ensures run[i].tasks == map[] ==> |BusySet(run[i].phase)| == c.concurrency
  {
    RunUsed(c, run, actions, i);
    TakesBehaves(c, run, actions);
    RunInvariant(c, run, i);
    assert run[i].tasks == map[] ==> SlotTasks(run[i].tasks) == {};
  }

  /** The slot of a stream that is to be retried is given up for good, unless no other stream is counted. */
  lemma RetryGivesUpSlot(c: Setup, s: Scan, t: nat)
    requires Scheduled(c, s) && t in s.tasks && s.tasks[t].CheckingActive?
    ensures Slots(Advance(c, s, t)) == if s.active == 0 then Slots(s) else Slots(s) - 1
  {
    assert t != STARTER;
    SlotsRetask(s, Advance(c, s, t), t);
  }

  // ---- a selection that is not disturbed ----

  /** What is chosen when the nodes are looked at in that order. */
  function Chosen(s: Scan, choice: Choice, order: seq<Node>): Choice
    requires forall n <- order :: n in s.load && n in s.queue
    decreases order
  {
    if order == [] then choice
    else Chosen(s, Consider(choice, order[0], s.load[order[0]], |s.queue[order[0]]|), order[1..])
  }

  /** A thread looks at the nodes one after the other, and no other thread takes a step. */
  function Looked(c: Setup, s: Scan, t: nat, order: seq<Node>): Scan
    decreases order
  {
    if order == [] || !Enabled(s, Examine(t, order[0])) then s
    else
      var s' := Apply(c, s, Examine(t, order[0]));
      if Enabled(s', Proceed(t)) then Looked(c, Apply(c, s', Proceed(t)), t, order[1..]) else s'
  }

  lemma OneLook(c: Setup, s: Scan, t: nat, n: Node)
    requires t in s.tasks && s.tasks[t].Scanning? && n in s.tasks[t].rest && n in s.load && n in s.queue
    ensures Enabled(s, Examine(t, n))
    ensures var s' := Apply(c, s, Examine(t, n));
            Enabled(s', Proceed(t)) && Apply(c, s', Proceed(t)) == s.(tasks := s.tasks[t := Scanning(
              s.tasks[t].rest - {n}, Consider(s.tasks[t].choice, n, s.load[n], |s.queue[n]|))])
  {
  }

  lemma {:induction false} LooksChoose(c: Setup, s: Scan, t: nat, order: seq<Node>)
    requires t in s.tasks && s.tasks[t].Scanning? && Shuffled(order, s.tasks[t].rest)
    requires forall n <- order :: n in s.load && n in s.queue
    ensures Looked(c, s, t, order) == s.(tasks := s.tasks[t := Scanning({}, Chosen(s, s.tasks[t].choice, order))])
    decreases order
  {
    var rest, choice := s.tasks[t].rest, s.tasks[t].choice;
    if order == [] {
      assert forall n :: n in rest ==> n in order;
      assert rest == {};
      assert s.tasks == s.tasks[t := Scanning({}, choice)];
    } else {
      var n := order[0];
      OneLook(c, s, t, n);
      var next := Scanning(rest - {n}, Consider(choice, n, s.load[n], |s.queue[n]|));
      var s' := s.(tasks := s.tasks[t := next]);
      LooksChoose(c, s', t, order[1..]);
      SameChoice(s, s', next.choice, order[1..]);
      assert s'.tasks[t := Scanning({}, Chosen(s, next.choice, order[1..]))] ==
             s.tasks[t := Scanning({}, Chosen(s, next.choice, order[1..]))];
    }
  }

  lemma {:induction false} SameChoice(s: Scan, s': Scan, choice: Choice, order: seq<Node>)
    requires s'.load == s.load && s'.queue == s.queue && forall n <- order :: n in s.load && n in s.queue
    ensures Chosen(s', choice, order) == Chosen(s, choice, order)
    decreases order
  {
    if order != [] {
      SameChoice(s, s', Consider(choice, order[0], s.load[order[0]], |s.queue[order[0]]|), order[1..]);
    }
  }

  /** The choice is the least loaded of the nodes with work, or the one before if none is less loaded. */
  lemma {:induction false} ChosenIsLeast(s: Scan, choice: Choice, order: seq<Node>)
    requires forall n <- order :: n in s.load && n in s.queue
    ensures var r := Chosen(s, choice, order);
            && r.least <= choice.least
            && (r == choice || (r.node.Some? && r.node.value in order && s.queue[r.node.value] != [] &&
                                r.least == s.load[r.node.value]))
            && forall n <- order :: s.queue[n] != [] ==> r.least <= s.load[n]
    decreases order
  {
    if order != [] {
      ChosenIsLeast(s, Consider(choice, order[0], s.load[order[0]], |s.queue[order[0]]|), order[1..]);
      assert forall n <- order :: n == order[0] || n in order[1..];
    }
  }

  lemma LeastOfAll(s: Scan, order: seq<Node>)
    requires s.queue.Keys == s.load.Keys && Shuffled(order, s.queue.Keys)
    requires forall n <- s.load :: s.load[n] < COUNTER_MAX
    ensures forall n <- order :: n in s.load && n in s.queue
    ensures var r := Chosen(s, NOTHING_CHOSEN, order);
            && (r.node.None? <==> !Pending(s.queue))
            && (r.node.Some? ==>
                  && HasWork(s.queue, r.node.value) && r.node.value in s.load
                  && forall m :: m in s.load && HasWork(s.queue, m) ==> s.load[r.node.value] <= s.load[m])
  {
    assert forall n <- order :: n in s.queue.Keys;
    ChosenIsLeast(s, NOTHING_CHOSEN, order);
    if Pending(s.queue) {
      var n :| n in s.queue && HasWork(s.queue, n);
      assert n in s.queue.Keys && n in s.load;
      assert n in order;
    }
  }

  /**
   A thread that selects without being disturbed starts the front vbucket of a least loaded node with work,
   for any order in which it looks at the nodes; it gives up exactly if there is no work.
   */
  lemma SelectsLeastLoaded(c: Setup, s: Scan, t: nat, order: seq<Node>)
    requires c.Valid() && Scheduled(c, s) && t in s.tasks && s.tasks[t] == Scanning(s.queue.Keys, NOTHING_CHOSEN)
    requires Shuffled(order, s.queue.Keys)
    ensures var looked := Looked(c, s, t, order);
            && Enabled(looked, Proceed(t))
            && if !Pending(s.queue) then Apply(c, looked, Proceed(t)) == Leave(looked, t)
               else exists n :: && HasWork(s.queue, n) && n in s.load
                                && Apply(c, looked, Proceed(t)) == Fetch(looked, t, n)
                                && forall m :: m in s.load && HasWork(s.queue, m) ==> s.load[n] <= s.load[m]
  {
    assert forall n <- order :: n in s.queue.Keys;
    forall n <- s.load ensures s.load[n] < COUNTER_MAX {
      CounterBelowMax(c, s, t, n);
    }
    LooksChoose(c, s, t, order);
    LeastOfAll(s, order);
  }

  // ---- the order of the queues ----

  /** From one queue to the next: nothing changes, the front is taken, or v joins the back. */
  ghost predicate QueueMoves(before: seq<Vbucket>, after: seq<Vbucket>, v: Vbucket) {
    after == before || (before != [] && after == before[1..]) || after == before + [v]
  }

  lemma CarryQueue(c: Setup, s: Scan, t: nat, v: Vbucket, n: Node)
    requires v in s.phase && Owned(s.phase[v]) && n in s.queue
    ensures var queue := Carry(c, s, t, v).queue;
            n in queue && (queue[n] == s.queue[n] || (s.phase[v].Requeueing? && queue[n] == s.queue[n] + [v]))
  {
  }

  lemma FetchQueue(s: Scan, t: nat, m: Node, n: Node)
    requires n in s.queue
    ensures var queue := Fetch(s, t, m).queue;
            n in queue && (queue[n] == s.queue[n] || (s.queue[n] != [] && queue[n] == s.queue[n][1..]))
  {
  }

  lemma ThreadQueue(c: Setup, s: Scan, t: nat)
    requires Enabled(s, Proceed(t)) && !s.tasks[t].Carrying? && !s.tasks[t].Scanning?
    ensures Advance(c, s, t).queue == s.queue
  {
    match s.tasks[t]
    case Cancelling =>
    case CheckingActive =>
    case Entering =>
    case Locking =>
    case Checking(_, _, _, _) =>
  }

  lemma StreamQueue(c: Setup, s: Scan, a: Action)
    requires Enabled(s, a) && (a.Start? || a.CreateReply? || a.Emit? || a.ContinueReply?)
    ensures Stream(c, s, a).queue == s.queue
  {
    match a
    case Start(_, _, _) =>
    case CreateReply(_, _, _) =>
    case Emit(_, _) =>
    case ContinueReply(_, _, _) =>
  }

  lemma ConsumeQueue(s: Scan, a: Action)
    requires Enabled(s, a) && (a.CallNext? || a.Look? || a.Receive?)
    ensures Consume(s, a).queue == s.queue
  {
    match a
    case CallNext =>
    case Look =>
    case Receive =>
  }

  lemma AdvanceQueue(c: Setup, s: Scan, t: nat, n: Node) returns (v: Vbucket)
    requires Enabled(s, Proceed(t)) && n in s.queue
    ensures var queue := Advance(c, s, t).queue;
            && n in queue && QueueMoves(s.queue[n], queue[n], v)
            && (queue[n] == s.queue[n] + [v] ==> v in s.phase && s.phase[v].Requeueing?)
  {
    v := 0;
    if s.tasks[t].Carrying? {
      v := s.tasks[t].vbucket;
      CarryQueue(c, s, t, v, n);
    } else if s.tasks[t].Scanning? {
      if s.tasks[t].choice.node.Some? {
        FetchQueue(s, t, s.tasks[t].choice.node.value, n);
      }
    } else {
      ThreadQueue(c, s, t);
    }
  }

  /** Every step of every thread serves the queues in their order: a vbucket that is retried goes to the back. */
  lemma StepQueues(c: Setup, s: Scan, a: Action, n: Node) returns (v: Vbucket)
    requires Enabled(s, a) && n in s.queue
    ensures var queue := Apply(c, s, a).queue;
            && n in queue && QueueMoves(s.queue[n], queue[n], v)
            && (queue[n] == s.queue[n] + [v] ==> v in s.phase && s.phase[v].Requeueing?)
  {
    v := 0;
    if a.Proceed? {
      v := AdvanceQueue(c, s, a.task, n);
    } else if a.Start? || a.CreateReply? || a.Emit? || a.ContinueReply? {
      StreamQueue(c, s, a);
    } else if a.CallNext? || a.Look? || a.Receive? {
      ConsumeQueue(s, a);
    }
  }
}
