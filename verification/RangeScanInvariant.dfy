/** The inductive invariant of the range-scan step relation. */
module RangeScanInvariant {
  import opened Options
  import opened LoadBalancing
  import opened RangeScan

  // ---- counting ----

  ghost function CountedSet(phase: map<Vbucket, Phase>): set<Vbucket> {
    set v | v in phase && Counts(phase[v])
  }

  ghost function BusySet(phase: map<Vbucket, Phase>): set<Vbucket> {
    set v | v in phase && Busy(phase[v])
  }

  predicate LoadsOn(c: Setup, v: Vbucket, p: Phase, n: Node) {
    c.Has(v) && c.active[v] == n && Loads(p)
  }

  ghost function LoadedSet(c: Setup, phase: map<Vbucket, Phase>, n: Node): set<Vbucket> {
    set v | v in phase && LoadsOn(c, v, phase[v], n)
  }

  ghost function SlotTasks(tasks: map<nat, Task>): set<nat> {
    set t | t in tasks && TakesSlot(t, tasks[t])
  }

  function One(b: bool): int {
    if b then 1 else 0
  }

  lemma CountedUpdate(phase: map<Vbucket, Phase>, v: Vbucket, p: Phase)
    requires v in phase
    ensures |CountedSet(phase[v := p])| == |CountedSet(phase)| - One(Counts(phase[v])) + One(Counts(p))
  {
    assert CountedSet(phase[v := p]) == CountedSet(phase) - {v} + (if Counts(p) then {v} else {});
  }

  lemma BusyUpdate(phase: map<Vbucket, Phase>, v: Vbucket, p: Phase)
    requires v in phase
    ensures |BusySet(phase[v := p])| == |BusySet(phase)| - One(Busy(phase[v])) + One(Busy(p))
  {
    assert BusySet(phase[v := p]) == BusySet(phase) - {v} + (if Busy(p) then {v} else {});
  }

  lemma LoadedUpdate(c: Setup, phase: map<Vbucket, Phase>, v: Vbucket, p: Phase, n: Node)
    requires v in phase
    ensures |LoadedSet(c, phase[v := p], n)| ==
            |LoadedSet(c, phase, n)| - One(LoadsOn(c, v, phase[v], n)) + One(LoadsOn(c, v, p, n))
  {
    assert LoadedSet(c, phase[v := p], n) == LoadedSet(c, phase, n) - {v} + (if LoadsOn(c, v, p, n) then {v} else {});
  }

  predicate TakesSlot(t: nat, k: Task) {
    t != STARTER && HoldsSlot(k)
  }

  /** The two task maps differ at t only. */
  ghost predicate Elsewhere(tasks: map<nat, Task>, tasks': map<nat, Task>, t: nat) {
    forall u :: u != t ==> (u in tasks <==> u in tasks') && (u in tasks ==> tasks'[u] == tasks[u])
  }

  predicate SlotAt(tasks: map<nat, Task>, t: nat) {
    t in tasks && TakesSlot(t, tasks[t])
  }

  lemma SlotUpdate(tasks: map<nat, Task>, tasks': map<nat, Task>, t: nat)
    requires Elsewhere(tasks, tasks', t)
    ensures |SlotTasks(tasks')| == |SlotTasks(tasks)| - One(SlotAt(tasks, t)) + One(SlotAt(tasks', t))
  {
    assert SlotTasks(tasks') == SlotTasks(tasks) - {t} + (if SlotAt(tasks', t) then {t} else {});
  }

  // ---- the invariant, by the fields it reads ----

  ghost predicate Shape(c: Setup, s: Scan) {
    && s.phase.Keys == c.Vbuckets() && s.emitted.Keys == c.Vbuckets() && s.streams <= c.Vbuckets()
    && s.queue.Keys == c.Nodes() && s.load.Keys == c.Nodes()
  }

  /** A vbucket is queued exactly when its phase says so: once, at its active node. */
  ghost predicate QueuesHold(c: Setup, queue: map<Node, seq<Vbucket>>, phase: map<Vbucket, Phase>) {
    && (forall n <- queue, i :: 0 <= i < |queue[n]| ==>
          && queue[n][i] in phase && phase[queue[n][i]].Queued?
          && c.Has(queue[n][i]) && c.active[queue[n][i]] == n)
    && (forall n <- queue, i, j :: 0 <= i < j < |queue[n]| ==> queue[n][i] != queue[n][j])
    && (forall v <- phase :: phase[v].Queued? ==> c.Has(v) && c.active[v] in queue && v in queue[c.active[v]])
  }

  /** Carried vbuckets and carrying tasks match one to one. */
  ghost predicate OwnersMatch(tasks: map<nat, Task>, phase: map<Vbucket, Phase>) {
    && (forall t <- tasks :: tasks[t].Carrying? ==> tasks[t].vbucket in phase && OwnedBy(phase[tasks[t].vbucket], t))
    && (forall v <- phase :: Owned(phase[v]) ==>
          phase[v].task in tasks && tasks[phase[v].task] == Carrying(v) && OwnedBy(phase[v], phase[v].task))
  }

  /** Exactly the holder of the mutex selects. */
  ghost predicate LockHolds(tasks: map<nat, Task>, lock: Option<nat>) {
    && (forall t <- tasks :: Selecting(tasks[t]) <==> lock == Some(t))
    && (lock.Some? ==> lock.value in tasks)
  }

  predicate HandlerPhase(p: Phase) {
    p.Notifying? || p.Uncounting? || p.Signalling? || p.Requeueing?
  }

  /** p may be the phase of a vbucket that t carries. */
  predicate OwnedBy(p: Phase, t: nat) {
    && Owned(p) && p.task == t && (HandlerPhase(p) ==> t != STARTER)
    && (p.Signalling? ==> !p.outcome.Retry?)
  }

  ghost predicate LoadsMatch(c: Setup, load: map<Node, int>, phase: map<Vbucket, Phase>) {
    forall n <- load :: load[n] == |LoadedSet(c, phase, n)|
  }

  /** Streams, freed slots and unspent initial starts together stay within the concurrency. */
  ghost predicate BudgetHolds(c: Setup, phase: map<Vbucket, Phase>, tasks: map<nat, Task>, unspent: nat) {
    && |BusySet(phase)| + |SlotTasks(tasks)| + unspent <= c.concurrency
    && (STARTER in tasks ==> !tasks[STARTER].Cancelling? && !tasks[STARTER].CheckingActive?)
    && (STARTER in tasks && HoldsSlot(tasks[STARTER]) ==> unspent > 0)
    && (STARTER !in tasks ==> unspent == 0)
  }

  ghost predicate HasWork(queue: map<Node, seq<Vbucket>>, n: Node) {
    n in queue && queue[n] != []
  }

  ghost predicate ChoiceSound(queue: map<Node, seq<Vbucket>>, choice: Choice) {
    && (choice.node.None? ==> choice == NOTHING_CHOSEN)
    && (choice.node.Some? ==> HasWork(queue, choice.node.value))
  }

  /** What a selecting thread has chosen so far still has work; until it has chosen, any node would do. */
  ghost predicate SelectionSound(queue: map<Node, seq<Vbucket>>, k: Task) {
    match k
    case Scanning(rest, choice) => rest <= queue.Keys && ChoiceSound(queue, choice)
    case Checking(rest, choice, n, count) =>
      rest <= queue.Keys && n in queue && ChoiceSound(queue, choice) && count < COUNTER_MAX
    case _ => true
  }

  ghost predicate SelectionsSound(queue: map<Node, seq<Vbucket>>, tasks: map<nat, Task>) {
    forall t <- tasks :: SelectionSound(queue, tasks[t])
  }

  /** The thread will still look at the queues, or is about to cancel the scan. */
  ghost predicate Hopeful(queue: map<Node, seq<Vbucket>>, k: Task) {
    match k
    case Scanning(rest, choice) => choice.node.Some? || exists m <- rest :: HasWork(queue, m)
    case Checking(rest, choice, n, _) => choice.node.Some? || HasWork(queue, n) || exists m <- rest :: HasWork(queue, m)
    case _ => true
  }

  /** Queued work has somebody who will get to it. */
  ghost predicate WakerExists(queue: map<Node, seq<Vbucket>>, phase: map<Vbucket, Phase>, tasks: map<nat, Task>) {
    || (exists v <- phase :: Busy(phase[v]))
    || (exists t <- tasks :: Hopeful(queue, tasks[t]))
  }

  ghost predicate Pending(queue: map<Node, seq<Vbucket>>) {
    exists n <- queue :: HasWork(queue, n)
  }

  ghost predicate NotLost(queue: map<Node, seq<Vbucket>>, phase: map<Vbucket, Phase>, tasks: map<nat, Task>) {
    Pending(queue) ==> WakerExists(queue, phase, tasks)
  }

  ghost predicate NoneAbandoned(phase: map<Vbucket, Phase>) {
    forall v <- phase :: !phase[v].Abandoned?
  }

  /** Until the scan is cancelled, a fatal failure has a thread that is about to cancel it. */
  ghost predicate FatalsCancel(phase: map<Vbucket, Phase>, tasks: map<nat, Task>) {
    (exists v <- phase :: phase[v] == Ended(true)) ==> exists t <- tasks :: tasks[t].Cancelling?
  }

  // ---- delivery ----

  function ItemsIn(channel: seq<Message>, v: Vbucket): seq<Item> {
    if channel == [] then []
    else (if channel[0].Data? && channel[0].vbucket == v then [channel[0].item] else []) + ItemsIn(channel[1..], v)
  }

  function ItemsOf(delivered: seq<(Vbucket, Item)>, v: Vbucket): seq<Item> {
    if delivered == [] then []
    else ItemsOf(delivered[..|delivered| - 1], v) +
         (if delivered[|delivered| - 1].0 == v then [delivered[|delivered| - 1].1] else [])
  }

  /** What was delivered followed by what is on its way is what the stream emitted. */
  ghost predicate Conserved(delivered: seq<(Vbucket, Item)>, channel: seq<Message>, emitted: map<Vbucket, seq<Item>>) {
    forall v <- emitted :: ItemsOf(delivered, v) + ItemsIn(channel, v) == emitted[v]
  }

  /** Nothing of a stream follows its end signal, and an end signal means that the stream has ended. */
  ghost predicate SignalsLast(channel: seq<Message>, phase: map<Vbucket, Phase>, streams: set<Vbucket>) {
    && (forall i, j :: 0 <= i < j < |channel| && channel[i].vbucket == channel[j].vbucket ==> channel[i].Data?)
    && (forall i :: 0 <= i < |channel| && !channel[i].Data? ==>
                      channel[i].vbucket in phase && phase[channel[i].vbucket] == Ended(channel[i].Failure?))
    && (forall i :: 0 <= i < |channel| ==> channel[i].vbucket in streams)
  }

  /** The stream map holds exactly the streams whose end signal has not been received. */
  ghost predicate StreamsHold(phase: map<Vbucket, Phase>, streams: set<Vbucket>, channel: seq<Message>, closed: bool) {
    && (forall v <- phase :: v !in streams ==> phase[v] == Ended(false))
    && (!closed ==> forall v <- streams :: v in phase && phase[v] == Ended(false) ==> End(v) in channel)
  }

  /** Phases of a stream that has not been created successfully. */
  predicate BeforeRunning(p: Phase) {
    || p.Queued? || p.Popped? || p.Counted? || p.Posted? || p.Creating? || p.Requeueing?
    || ((p.Notifying? || p.Uncounting?) && p.outcome.Retry?)
  }

  /** Only a stream that has been created can have emitted anything. */
  ghost predicate QuietBefore(phase: map<Vbucket, Phase>, emitted: map<Vbucket, seq<Item>>) {
    forall v <- phase :: v in emitted && BeforeRunning(phase[v]) ==> emitted[v] == []
  }

  ghost predicate NoneFailed(phase: map<Vbucket, Phase>) {
    forall v <- phase :: phase[v] != Ended(true)
  }

  /**
   A call of next() delivers at most one item; until a stream fails or next() reports the end, it delivers one.
   */
  ghost predicate WithinLimit(c: Setup, s: Scan) {
    var used := |s.delivered| + s.itemLimit + One(!s.consumer.Idle?);
    used <= c.limit && (!s.closed && NoneFailed(s.phase) ==> used == c.limit)
  }

  ghost predicate Structured(c: Setup, s: Scan) {
    && Shape(c, s)
    && QueuesHold(c, s.queue, s.phase)
    && OwnersMatch(s.tasks, s.phase)
    && LockHolds(s.tasks, s.lock)
    && SelectionsSound(s.queue, s.tasks)
  }

  ghost predicate Accounted(c: Setup, s: Scan) {
    && s.active == |CountedSet(s.phase)|
    && LoadsMatch(c, s.load, s.phase)
    && BudgetHolds(c, s.phase, s.tasks, s.unspent)
  }

  ghost predicate Awake(s: Scan) {
    !s.cancelled ==> NoneAbandoned(s.phase) && FatalsCancel(s.phase, s.tasks) && NotLost(s.queue, s.phase, s.tasks)
  }

  ghost predicate Scheduled(c: Setup, s: Scan) {
    Structured(c, s) && Accounted(c, s) && Awake(s)
  }

  ghost predicate Delivering(c: Setup, s: Scan) {
    && Conserved(s.delivered, s.channel, s.emitted)
    && SignalsLast(s.channel, s.phase, s.streams)
    && StreamsHold(s.phase, s.streams, s.channel, s.closed)
    && (s.closed && !s.cancelled ==> s.streams == {})
    && (s.consumer.Receiving? ==> s.streams != {})
    && QuietBefore(s.phase, s.emitted)
    && WithinLimit(c, s)
  }

  ghost predicate Inv(c: Setup, s: Scan) {
    Scheduled(c, s) && Delivering(c, s)
  }
}
