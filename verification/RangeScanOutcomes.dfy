/** Why a stream ends: nothing is taken for done or failed that the server did not report so. */
module RangeScanOutcomes {
  import opened Options
  import opened LoadBalancing
  import opened RangeScan
  import opened RangeScanInvariant
  import opened RangeScanScheduling
  import opened RangeScanTheorems

  // ---- what an action reports ----

  /** Errors of a continued scan that only make a sample smaller. */
  const TOLERATED: set<Error> := {DocumentNotFound, AuthenticationFailure, CollectionNotFound, RequestCanceled}

  /** The server has no more for v, or has nothing at all; or a sampling scan can do without the rest. */
  predicate Finishes(c: Setup, a: Action, v: Vbucket) {
    || (a.ContinueReply? && a.vbucket == v && a.reply.Complete?)
    || (a.CreateReply? && a.vbucket == v && a.error == Some(DocumentNotFound))
    || (c.sampling && a.ContinueReply? && a.vbucket == v && a.reply.Failed? && a.reply.error in TOLERATED)
    || (c.sampling && a.Start? && a.vbucket == v && a.expired)
  }

  /** The scan cannot go on because of e. */
  predicate Fails(c: Setup, a: Action, v: Vbucket, e: Error) {
    || (a.CreateReply? && a.vbucket == v && a.error == Some(e) && e != DocumentNotFound && e != TemporaryFailure)
    || (a.ContinueReply? && a.vbucket == v && a.reply == Failed(e) && !(c.sampling && e in TOLERATED))
    || (!c.sampling && a.Start? && a.vbucket == v && a.expired && e == UnambiguousTimeout)
  }

  predicate Reports(c: Setup, a: Action, v: Vbucket, o: Outcome) {
    match o
    case Finish => Finishes(c, a, v)
    case Fatal(e) => Fails(c, a, v, e)
    case Retry => a.CreateReply? && a.vbucket == v && a.error == Some(TemporaryFailure)
  }

  // ---- every outcome has been reported ----

  type Known = (Vbucket, Outcome) -> bool

  ghost predicate Explained(v: Vbucket, p: Phase, known: Known) {
    match p
    case Notifying(_, o) => known(v, o)
    case Uncounting(_, o) => known(v, o)
    case Signalling(_, o) => known(v, o)
    case Ended(fatal) => if fatal then exists e :: known(v, Fatal(e)) else known(v, Finish)
    case _ => true
  }

  ghost predicate AllExplained(phase: map<Vbucket, Phase>, known: Known) {
    forall v <- phase :: Explained(v, phase[v], known)
  }

  ghost predicate SignalsExplained(channel: seq<Message>, known: Known) {
    forall i :: 0 <= i < |channel| && !channel[i].Data? ==>
                  known(channel[i].vbucket, if channel[i].End? then Finish else Fatal(channel[i].error))
  }

  lemma Moves(phase: map<Vbucket, Phase>, v: Vbucket, p: Phase, known: Known)
    requires AllExplained(phase, known) && v in phase && Explained(v, p, known)
    ensures AllExplained(phase[v := p], known)
  {
  }

  lemma SentExplained(s: Scan, m: Message, known: Known)
    requires SignalsExplained(s.channel, known)
    requires m.End? ==> known(m.vbucket, Finish)
    requires m.Failure? ==> known(m.vbucket, Fatal(m.error))
    ensures SignalsExplained(Sent(s, m), known)
  {
  }

  lemma CarryExplained(c: Setup, s: Scan, t: nat, v: Vbucket, known: Known)
    requires AllExplained(s.phase, known) && SignalsExplained(s.channel, known)
    requires v in s.phase && Owned(s.phase[v]) && (s.phase[v].Signalling? ==> !s.phase[v].outcome.Retry?)
    ensures var s' := Carry(c, s, t, v); AllExplained(s'.phase, known) && SignalsExplained(s'.channel, known)
  {
    var p := s.phase[v];
    assert Explained(v, p, known);
    assert Explained(v, NextPhase(p, t), known);
    Moves(s.phase, v, NextPhase(p, t), known);
    if p.Signalling? {
      SentExplained(s, Signal(v, p.outcome), known);
    }
  }

  lemma FetchExplained(s: Scan, t: nat, n: Node, known: Known)
    requires AllExplained(s.phase, known) && SignalsExplained(s.channel, known)
    ensures var s' := Fetch(s, t, n); AllExplained(s'.phase, known) && SignalsExplained(s'.channel, known)
  {
    if n !in s.queue || n !in s.load || s.queue[n] == [] {
    } else {
      var phase' := s.phase[s.queue[n][0] := Popped(t)];
      assert forall u <- phase' :: Explained(u, phase'[u], known);
    }
  }

  lemma AdvanceExplained(c: Setup, s: Scan, t: nat, known: Known)
    requires Structured(c, s) && Enabled(s, Proceed(t))
    requires AllExplained(s.phase, known) && SignalsExplained(s.channel, known)
    ensures var s' := Advance(c, s, t); AllExplained(s'.phase, known) && SignalsExplained(s'.channel, known)
  {
    var k := s.tasks[t];
    if k.Carrying? {
      CarrierFacts(c, s, t, k.vbucket);
      CarryExplained(c, s, t, k.vbucket, known);
    } else if k.Scanning? && k.choice.node.Some? {
      FetchExplained(s, t, k.choice.node.value, known);
    } else {
      ThreadsKeepPhases(c, s, t);
    }
  }

  lemma StartersKeepPhases(c: Setup, s: Scan, t: nat)
    requires Enabled(s, Proceed(t)) && (s.tasks[t].Entering? || s.tasks[t].Locking?)
    ensures var s' := Advance(c, s, t); s'.phase == s.phase && s'.channel == s.channel
  {
  }

  lemma HandlersKeepPhases(c: Setup, s: Scan, t: nat)
    requires Enabled(s, Proceed(t)) && (s.tasks[t].Cancelling? || s.tasks[t].CheckingActive?)
    ensures var s' := Advance(c, s, t); s'.phase == s.phase && s'.channel == s.channel
  {
    if s.tasks[t].Cancelling? {
      assert Advance(c, s, t) == s.(cancelled := true, tasks := s.tasks - {t});
    } else if s.active == 0 {
      assert Advance(c, s, t) == s.(tasks := s.tasks[t := Entering]);
    } else {
      assert Advance(c, s, t) == s.(tasks := s.tasks - {t});
    }
  }

  lemma ThreadsKeepPhases(c: Setup, s: Scan, t: nat)
    requires Enabled(s, Proceed(t)) && !s.tasks[t].Carrying?
    requires s.tasks[t].Scanning? ==> s.tasks[t].choice.node.None?
    ensures var s' := Advance(c, s, t); s'.phase == s.phase && s'.channel == s.channel
  {
    var k := s.tasks[t];
    if k.Entering? || k.Locking? {
      StartersKeepPhases(c, s, t);
    } else if k.Cancelling? || k.CheckingActive? {
      HandlersKeepPhases(c, s, t);
    }
  }

  lemma HandExplained(s: Scan, v: Vbucket, t: nat, o: Outcome, known: Known)
    requires AllExplained(s.phase, known) && v in s.phase && known(v, o)
    ensures AllExplained(Hand(s, v, t, o).phase, known)
  {
    Moves(s.phase, v, Notifying(t, o), known);
  }

  lemma StartExplained(c: Setup, s: Scan, a: Action, known: Known)
    requires Enabled(s, a) && a.Start? && AllExplained(s.phase, known)
    requires forall v, o :: Reports(c, a, v, o) ==> known(v, o)
    ensures AllExplained(Stream(c, s, a).phase, known)
  {
    if a.expired {
      var o := TimeoutOutcome(c.sampling);
      assert Reports(c, a, a.vbucket, o);
      HandExplained(s, a.vbucket, a.task, o, known);
    } else {
      Moves(s.phase, a.vbucket, Creating, known);
    }
  }

  lemma CreateExplained(c: Setup, s: Scan, a: Action, known: Known)
    requires Enabled(s, a) && a.CreateReply? && AllExplained(s.phase, known)
    requires forall v, o :: Reports(c, a, v, o) ==> known(v, o)
    ensures AllExplained(Stream(c, s, a).phase, known)
  {
    if a.error.Some? {
      var o := CreateOutcome(a.error.value);
      assert Reports(c, a, a.vbucket, o);
      HandExplained(s, a.vbucket, a.task, o, known);
    } else {
      Moves(s.phase, a.vbucket, if s.cancelled then Abandoned else Running, known);
    }
  }

  lemma ContinueExplained(c: Setup, s: Scan, a: Action, known: Known)
    requires Enabled(s, a) && a.ContinueReply? && AllExplained(s.phase, known)
    requires forall v, o :: Reports(c, a, v, o) ==> known(v, o)
    ensures AllExplained(Stream(c, s, a).phase, known)
  {
    if a.reply.More? {
      Moves(s.phase, a.vbucket, if s.cancelled then Abandoned else Running, known);
    } else {
      var o := if a.reply.Failed? then ContinueOutcome(c.sampling, a.reply.error) else Finish;
      assert Reports(c, a, a.vbucket, o);
      HandExplained(s, a.vbucket, a.task, o, known);
    }
  }

  lemma StreamsKeepChannel(c: Setup, s: Scan, a: Action)
    requires Enabled(s, a) && (a.Start? || a.CreateReply? || a.ContinueReply?)
    ensures Stream(c, s, a).channel == s.channel
  {
    match a
    case Start(v, expired, t) =>
    case CreateReply(v, error, t) =>
    case ContinueReply(v, reply, t) =>
  }

  lemma StreamExplained(c: Setup, s: Scan, a: Action, known: Known)
    requires Enabled(s, a) && (a.Start? || a.CreateReply? || a.ContinueReply?)
    requires AllExplained(s.phase, known) && SignalsExplained(s.channel, known)
    requires forall v, o :: Reports(c, a, v, o) ==> known(v, o)
    ensures AllExplained(Stream(c, s, a).phase, known) && SignalsExplained(Stream(c, s, a).channel, known)
  {
    StreamsKeepChannel(c, s, a);
    if a.Start? {
      StartExplained(c, s, a, known);
    } else if a.CreateReply? {
      CreateExplained(c, s, a, known);
    } else {
      ContinueExplained(c, s, a, known);
    }
  }

  lemma ReceiveExplained(s: Scan, known: Known)
    requires Enabled(s, Receive) && SignalsExplained(s.channel, known)
    ensures Consume(s, Receive).phase == s.phase && SignalsExplained(Consume(s, Receive).channel, known)
  {
  }

  lemma EmitExplained(c: Setup, s: Scan, a: Action, known: Known)
    requires Enabled(s, a) && a.Emit? && SignalsExplained(s.channel, known)
    ensures Stream(c, s, a).phase == s.phase && SignalsExplained(Stream(c, s, a).channel, known)
  {
    SentExplained(s, Data(a.vbucket, a.item), known);
  }

  /** Whatever an action reports being known, every outcome stays explained. */
  lemma StepExplained(c: Setup, s: Scan, a: Action, known: Known)
    requires Structured(c, s) && Enabled(s, a) && AllExplained(s.phase, known) && SignalsExplained(s.channel, known)
    requires forall v, o :: Reports(c, a, v, o) ==> known(v, o)
    ensures AllExplained(Apply(c, s, a).phase, known) && SignalsExplained(Apply(c, s, a).channel, known)
  {
    match a
    case Proceed(t) => AdvanceExplained(c, s, t, known);
    case Start(_, _, _) => StreamExplained(c, s, a, known);
    case CreateReply(_, _, _) => StreamExplained(c, s, a, known);
    case ContinueReply(_, _, _) => StreamExplained(c, s, a, known);
    case Emit(_, _) => EmitExplained(c, s, a, known);
    case Receive => ReceiveExplained(s, known);
    case Examine(_, _) =>
    case CallNext =>
    case Look =>
    case Cancel =>
  }

  // ---- whole runs ----

  ghost predicate ReportedAt(c: Setup, actions: seq<Action>, k: nat, v: Vbucket, o: Outcome) {
    k < |actions| && Reports(c, actions[k], v, o)
  }

  /** One of the first i actions reported it. */
  ghost predicate Reported(c: Setup, actions: seq<Action>, i: nat, v: Vbucket, o: Outcome) {
    exists k: nat :: k < i && ReportedAt(c, actions, k, v, o)
  }

  ghost function Before(c: Setup, actions: seq<Action>, i: nat): Known {
    (v: Vbucket, o: Outcome) => Reported(c, actions, i, v, o)
  }

  ghost predicate ExplainedAt(c: Setup, run: seq<Scan>, actions: seq<Action>, i: nat)
    requires i < |run|
  {
    AllExplained(run[i].phase, Before(c, actions, i)) && SignalsExplained(run[i].channel, Before(c, actions, i))
  }

  lemma KnownStays(phase: map<Vbucket, Phase>, channel: seq<Message>, known: Known, known': Known)
    requires AllExplained(phase, known) && SignalsExplained(channel, known)
    requires forall v, o :: known(v, o) ==> known'(v, o)
    ensures AllExplained(phase, known') && SignalsExplained(channel, known')
  {
    forall v <- phase ensures Explained(v, phase[v], known') {
      assert Explained(v, phase[v], known);
    }
  }

  lemma ReportsAdd(c: Setup, actions: seq<Action>, i: nat)
    requires i < |actions|
    ensures forall v, o :: Before(c, actions, i)(v, o) ==> Before(c, actions, i + 1)(v, o)
    ensures forall v, o :: Reports(c, actions[i], v, o) ==> Before(c, actions, i + 1)(v, o)
  {
    forall v, o | Before(c, actions, i)(v, o) ensures Before(c, actions, i + 1)(v, o) {
      var k: nat :| k < i && ReportedAt(c, actions, k, v, o);
      assert k < i + 1 && ReportedAt(c, actions, k, v, o);
    }
    forall v, o | Reports(c, actions[i], v, o) ensures Before(c, actions, i + 1)(v, o) {
      assert ReportedAt(c, actions, i, v, o);
    }
  }

  lemma NextExplained(c: Setup, run: seq<Scan>, actions: seq<Action>, i: nat)
    requires Takes(c, run, actions) && i < |actions| && ExplainedAt(c, run, actions, i)
    ensures ExplainedAt(c, run, actions, i + 1)
  {
    TakesBehaves(c, run, actions);
    RunInvariant(c, run, i);
    ReportsAdd(c, actions, i);
    var known' := Before(c, actions, i + 1);
    KnownStays(run[i].phase, run[i].channel, Before(c, actions, i), known');
    assert Taken(c, run, actions, i);
    StepExplained(c, run[i], actions[i], known');
  }

  lemma {:induction false} RunExplained(c: Setup, run: seq<Scan>, actions: seq<Action>, i: nat)
    requires Takes(c, run, actions) && i <= |actions|
    ensures ExplainedAt(c, run, actions, i)
  {
    if i > 0 {
      RunExplained(c, run, actions, i - 1);
      NextExplained(c, run, actions, i - 1);
    }
  }

  /**
   In every run a vbucket is done only if the server reported it done, or missing, or a sampling scan could do
   without it; and it has failed only if a fatal error was reported.
   */
  lemma EndedBecause(c: Setup, run: seq<Scan>, actions: seq<Action>, i: nat, v: Vbucket)
    requires Takes(c, run, actions) && i <= |actions| && v in run[i].phase
    ensures run[i].phase[v] == Ended(false) ==> exists k: nat :: k < i && Finishes(c, actions[k], v)
    ensures run[i].phase[v] == Ended(true) ==> exists k: nat, e :: k < i && Fails(c, actions[k], v, e)
  {
    RunExplained(c, run, actions, i);
    var known := Before(c, actions, i);
    assert Explained(v, run[i].phase[v], known);
    if run[i].phase[v] == Ended(false) {
      var k: nat :| k < i && ReportedAt(c, actions, k, v, Finish);
      assert Finishes(c, actions[k], v);
    } else if run[i].phase[v] == Ended(true) {
      var e :| known(v, Fatal(e));
      var k: nat :| k < i && ReportedAt(c, actions, k, v, Fatal(e));
      assert Fails(c, actions[k], v, e);
    }
  }

  /** An error on its way to the caller is one that was reported for that vbucket. */
  lemma ErrorsAreReported(c: Setup, run: seq<Scan>, actions: seq<Action>, i: nat, m: Message)
    requires Takes(c, run, actions) && i <= |actions| && m in run[i].channel && m.Failure?
    ensures exists k: nat :: k < i && Fails(c, actions[k], m.vbucket, m.error)
  {
    RunExplained(c, run, actions, i);
    var j :| 0 <= j < |run[i].channel| && run[i].channel[j] == m;
    var k: nat :| k < i && ReportedAt(c, actions, k, m.vbucket, Fatal(m.error));
    assert Fails(c, actions[k], m.vbucket, m.error);
  }

  /** When next() finds no stream left on an uncancelled scan, the server has reported every vbucket done. */
  lemma CompletionIsReported(c: Setup, run: seq<Scan>, actions: seq<Action>, i: nat, v: Vbucket)
    requires Takes(c, run, actions) && i <= |actions| && !run[i].cancelled && run[i].streams == {} && c.Has(v)
    ensures exists k: nat :: k < i && Finishes(c, actions[k], v)
  {
    CompletionIsComplete(c, run, actions, i);
    TakesBehaves(c, run, actions);
    RunInvariant(c, run, i);
    EndedBecause(c, run, actions, i, v);
  }
}
