/** The delivery half of the invariant is kept by every step. */
module RangeScanDelivery {
  import opened Options
  import opened LoadBalancing
  import opened RangeScan
  import opened RangeScanInvariant

  lemma {:induction false} ItemsInAppend(channel: seq<Message>, m: Message, v: Vbucket)
    ensures ItemsIn(channel + [m], v) == ItemsIn(channel, v) + (if m.Data? && m.vbucket == v then [m.item] else [])
  {
    if channel == [] {
      assert channel + [m] == [m];
    } else {
      assert (channel + [m])[1..] == channel[1..] + [m];
      ItemsInAppend(channel[1..], m, v);
    }
  }

  lemma {:induction false} ItemsInNone(channel: seq<Message>, v: Vbucket)
    requires forall i :: 0 <= i < |channel| ==> channel[i].vbucket != v
    ensures ItemsIn(channel, v) == []
  {
    if channel != [] {
      ItemsInNone(channel[1..], v);
    }
  }

  // ---- a vbucket changes its phase before its end ----

  lemma SignalsKeep(channel: seq<Message>, phase: map<Vbucket, Phase>, streams: set<Vbucket>, v: Vbucket, p: Phase)
    requires SignalsLast(channel, phase, streams) && v in phase && !phase[v].Ended?
    ensures SignalsLast(channel, phase[v := p], streams)
  {
  }

  lemma StreamsKeep(phase: map<Vbucket, Phase>, streams: set<Vbucket>, channel: seq<Message>, closed: bool,
                    v: Vbucket, p: Phase)
    requires StreamsHold(phase, streams, channel, closed) && v in phase && !phase[v].Ended? && !p.Ended?
    ensures StreamsHold(phase[v := p], streams, channel, closed)
  {
  }

  lemma FailedStays(phase: map<Vbucket, Phase>, v: Vbucket, p: Phase)
    requires v in phase && !phase[v].Ended?
    ensures NoneFailed(phase[v := p]) ==> NoneFailed(phase)
  {
    if NoneFailed(phase[v := p]) {
      forall u <- phase ensures phase[u] != Ended(true) {
        assert u != v ==> phase[v := p][u] == phase[u];
      }
    }
  }

  lemma RephaseDelivering(c: Setup, s: Scan, v: Vbucket, p: Phase)
    requires Delivering(c, s) && v in s.phase && !s.phase[v].Ended? && !p.Ended?
    requires BeforeRunning(p) ==> v in s.emitted ==> s.emitted[v] == []
    ensures SignalsLast(s.channel, s.phase[v := p], s.streams)
    ensures StreamsHold(s.phase[v := p], s.streams, s.channel, s.closed)
    ensures QuietBefore(s.phase[v := p], s.emitted)
    ensures NoneFailed(s.phase[v := p]) ==> NoneFailed(s.phase)
  {
    SignalsKeep(s.channel, s.phase, s.streams, v, p);
    StreamsKeep(s.phase, s.streams, s.channel, s.closed, v, p);
    FailedStays(s.phase, v, p);
  }

  // ---- a stream ends ----

  lemma SignalsEnd(channel: seq<Message>, phase: map<Vbucket, Phase>, streams: set<Vbucket>, v: Vbucket,
                   outcome: Outcome)
    requires SignalsLast(channel, phase, streams) && v in phase && !phase[v].Ended? && v in streams
    ensures SignalsLast(channel + [Signal(v, outcome)], phase[v := Ended(outcome.Fatal?)], streams)
  {
    var channel' := channel + [Signal(v, outcome)];
    forall i, j | 0 <= i < j < |channel'| && channel'[i].vbucket == channel'[j].vbucket ensures channel'[i].Data? {
      assert channel'[i] == channel[i];
    }
  }

  lemma StreamsEnd(phase: map<Vbucket, Phase>, streams: set<Vbucket>, channel: seq<Message>, closed: bool, v: Vbucket,
                   outcome: Outcome)
    requires StreamsHold(phase, streams, channel, closed) && v in phase && v in streams
    ensures StreamsHold(phase[v := Ended(outcome.Fatal?)], streams,
                        if closed then channel else channel + [Signal(v, outcome)], closed)
  {
    var channel' := channel + [Signal(v, outcome)];
    assert Signal(v, outcome) in channel';
    forall u | End(u) in channel ensures End(u) in channel' {
    }
  }

  lemma ConservedAppend(delivered: seq<(Vbucket, Item)>, channel: seq<Message>, emitted: map<Vbucket, seq<Item>>,
                        m: Message)
    requires Conserved(delivered, channel, emitted) && !m.Data?
    ensures Conserved(delivered, channel + [m], emitted)
  {
    forall v <- emitted ensures ItemsOf(delivered, v) + ItemsIn(channel + [m], v) == emitted[v] {
      ItemsInAppend(channel, m, v);
    }
  }

  lemma EndParts(c: Setup, s: Scan, v: Vbucket, outcome: Outcome)
    requires Delivering(c, s) && v in s.phase && s.phase[v].Signalling? && s.phase[v].outcome == outcome
    ensures var channel', phase' := Sent(s, Signal(v, outcome)), s.phase[v := Ended(outcome.Fatal?)];
            && SignalsLast(channel', phase', s.streams)
            && StreamsHold(phase', s.streams, channel', s.closed)
            && Conserved(s.delivered, channel', s.emitted)
            && QuietBefore(phase', s.emitted)
            && (NoneFailed(phase') ==> NoneFailed(s.phase))
  {
    assert v in s.streams;
    StreamsEnd(s.phase, s.streams, s.channel, s.closed, v, outcome);
    if s.closed {
      SignalsKeep(s.channel, s.phase, s.streams, v, Ended(outcome.Fatal?));
    } else {
      SignalsEnd(s.channel, s.phase, s.streams, v, outcome);
      ConservedAppend(s.delivered, s.channel, s.emitted, Signal(v, outcome));
    }
    FailedStays(s.phase, v, Ended(outcome.Fatal?));
  }

  lemma EndDelivering(c: Setup, s: Scan, t: nat, v: Vbucket)
    requires Delivering(c, s) && v in s.phase && s.phase[v].Signalling?
    ensures Delivering(c, Carry(c, s, t, v))
  {
    EndParts(c, s, v, s.phase[v].outcome);
  }

  lemma CarryDelivering(c: Setup, s: Scan, t: nat, v: Vbucket)
    requires Delivering(c, s) && v in s.phase && Owned(s.phase[v])
    ensures Delivering(c, Carry(c, s, t, v))
  {
    if s.phase[v].Signalling? {
      EndDelivering(c, s, t, v);
    } else {
      RephaseDelivering(c, s, v, NextPhase(s.phase[v], t));
    }
  }

  lemma FetchDelivering(c: Setup, s: Scan, t: nat, n: Node)
    requires Delivering(c, s) && QueuesHold(c, s.queue, s.phase)
    ensures Delivering(c, Fetch(s, t, n))
  {
    if n !in s.queue || n !in s.load || s.queue[n] == [] {
      LeaveDelivering(c, s, t);
    } else {
      assert s.phase[s.queue[n][0]].Queued?;
      RephaseDelivering(c, s, s.queue[n][0], Popped(t));
    }
  }

  /** What a thread does between two vbuckets does not concern the channel, except that it may cancel. */
  lemma AsideDelivering(c: Setup, s: Scan, tasks': map<nat, Task>, lock': Option<nat>, unspent': nat, cancelled': bool)
    requires Delivering(c, s) && (s.cancelled ==> cancelled')
    ensures Delivering(c, s.(tasks := tasks', lock := lock', unspent := unspent', cancelled := cancelled'))
  {
  }

  lemma LeaveDelivering(c: Setup, s: Scan, t: nat)
    requires Delivering(c, s)
    ensures Delivering(c, Leave(s, t))
  {
    AsideDelivering(c, s, s.tasks - {t}, if s.lock == Some(t) then None else s.lock,
                    if t == STARTER then 0 else s.unspent, s.cancelled);
  }

  lemma AdvanceDelivering(c: Setup, s: Scan, t: nat)
    requires QueuesHold(c, s.queue, s.phase) && Delivering(c, s) && Enabled(s, Proceed(t))
    ensures Delivering(c, Advance(c, s, t))
  {
    match s.tasks[t]
    case Carrying(v) => CarryDelivering(c, s, t, v);
    case Cancelling => AsideDelivering(c, s, s.tasks - {t}, s.lock, s.unspent, true);
    case CheckingActive =>
      AsideDelivering(c, s, s.tasks - {t}, s.lock, s.unspent, s.cancelled);
      AsideDelivering(c, s, s.tasks[t := Entering], s.lock, s.unspent, s.cancelled);
    case Entering =>
      LeaveDelivering(c, s, t);
      AsideDelivering(c, s, s.tasks[t := Locking], s.lock, s.unspent, s.cancelled);
    case Locking =>
      AsideDelivering(c, s, s.tasks[t := Scanning(s.queue.Keys, NOTHING_CHOSEN)], Some(t), s.unspent, s.cancelled);
    case Scanning(_, choice) =>
      if choice.node.None? {
        LeaveDelivering(c, s, t);
      } else {
        FetchDelivering(c, s, t, choice.node.value);
      }
    case Checking(rest, choice, n, count) =>
      var choice' := Consider(choice, n, count, if n in s.queue then |s.queue[n]| else 0);
      AsideDelivering(c, s, s.tasks[t := Scanning(rest, choice')], s.lock, s.unspent, s.cancelled);
  }

  // ---- steps of the streams and of the consumer ----

  lemma ConservedEmit(delivered: seq<(Vbucket, Item)>, channel: seq<Message>, emitted: map<Vbucket, seq<Item>>,
                      v: Vbucket, item: Item)
    requires Conserved(delivered, channel, emitted) && v in emitted
    ensures Conserved(delivered, channel + [Data(v, item)], emitted[v := emitted[v] + [item]])
  {
    forall u <- emitted
      ensures ItemsOf(delivered, u) + ItemsIn(channel + [Data(v, item)], u) == emitted[v := emitted[v] + [item]][u]
    {
      ItemsInAppend(channel, Data(v, item), u);
    }
  }

  lemma SignalsEmit(channel: seq<Message>, phase: map<Vbucket, Phase>, streams: set<Vbucket>, v: Vbucket, item: Item)
    requires SignalsLast(channel, phase, streams) && v in phase && !phase[v].Ended? && v in streams
    ensures SignalsLast(channel + [Data(v, item)], phase, streams)
  {
    var channel' := channel + [Data(v, item)];
    forall i, j | 0 <= i < j < |channel'| && channel'[i].vbucket == channel'[j].vbucket ensures channel'[i].Data? {
      assert channel'[i] == channel[i];
    }
  }

  lemma StreamsEmit(phase: map<Vbucket, Phase>, streams: set<Vbucket>, channel: seq<Message>, m: Message)
    requires StreamsHold(phase, streams, channel, false)
    ensures StreamsHold(phase, streams, channel + [m], false)
  {
  }

  lemma QuietEmit(phase: map<Vbucket, Phase>, emitted: map<Vbucket, seq<Item>>, v: Vbucket, items: seq<Item>)
    requires QuietBefore(phase, emitted) && v in phase && !BeforeRunning(phase[v])
    ensures QuietBefore(phase, emitted[v := items])
  {
  }

  /** A running stream of an open scan hands over an item. */
  lemma ItemDelivering(c: Setup, s: Scan, v: Vbucket, item: Item)
    requires Delivering(c, s) && v in s.phase && s.phase[v].Running? && v in s.emitted && v in s.streams && !s.closed
    ensures Delivering(c, s.(channel := s.channel + [Data(v, item)], emitted := s.emitted[v := s.emitted[v] + [item]]))
  {
    ConservedEmit(s.delivered, s.channel, s.emitted, v, item);
    SignalsEmit(s.channel, s.phase, s.streams, v, item);
    StreamsEmit(s.phase, s.streams, s.channel, Data(v, item));
    QuietEmit(s.phase, s.emitted, v, s.emitted[v] + [item]);
  }

  lemma EmitDelivering(c: Setup, s: Scan, v: Vbucket, item: Item)
    requires Shape(c, s) && Delivering(c, s) && Enabled(s, Emit(v, item))
    ensures Delivering(c, Stream(c, s, Emit(v, item)))
  {
    if s.cancelled || v !in s.emitted {
    } else {
      assert v in s.streams && !s.closed;
      ItemDelivering(c, s, v, item);
    }
  }

  lemma HandDelivering(c: Setup, s: Scan, v: Vbucket, t: nat, outcome: Outcome)
    requires Delivering(c, s) && v in s.phase && !s.phase[v].Ended?
    requires outcome.Retry? ==> BeforeRunning(s.phase[v])
    ensures Delivering(c, Hand(s, v, t, outcome))
  {
    RephaseDelivering(c, s, v, Notifying(t, outcome));
  }

  lemma StartDelivering(c: Setup, s: Scan, v: Vbucket, expired: bool, t: nat)
    requires Delivering(c, s) && Enabled(s, Start(v, expired, t))
    ensures Delivering(c, Stream(c, s, Start(v, expired, t)))
  {
    if expired {
      HandDelivering(c, s, v, t, TimeoutOutcome(c.sampling));
    } else {
      RephaseDelivering(c, s, v, Creating);
    }
  }

  lemma CreateReplyDelivering(c: Setup, s: Scan, v: Vbucket, error: Option<Error>, t: nat)
    requires Delivering(c, s) && Enabled(s, CreateReply(v, error, t))
    ensures Delivering(c, Stream(c, s, CreateReply(v, error, t)))
  {
    if error.Some? {
      HandDelivering(c, s, v, t, CreateOutcome(error.value));
    } else {
      RephaseDelivering(c, s, v, if s.cancelled then Abandoned else Running);
    }
  }

  lemma ContinueReplyDelivering(c: Setup, s: Scan, v: Vbucket, reply: Reply, t: nat)
    requires Delivering(c, s) && Enabled(s, ContinueReply(v, reply, t))
    ensures Delivering(c, Stream(c, s, ContinueReply(v, reply, t)))
  {
    match reply
    case Failed(e) => HandDelivering(c, s, v, t, ContinueOutcome(c.sampling, e));
    case Complete => HandDelivering(c, s, v, t, Finish);
    case More => RephaseDelivering(c, s, v, if s.cancelled then Abandoned else Running);
  }

  lemma ReceiveItems(delivered: seq<(Vbucket, Item)>, channel: seq<Message>, u: Vbucket)
    requires channel != []
    ensures var m := channel[0];
            ItemsOf(if m.Data? then delivered + [(m.vbucket, m.item)] else delivered, u) + ItemsIn(channel[1..], u) ==
            ItemsOf(delivered, u) + ItemsIn(channel, u)
  {
    var m := channel[0];
    if m.Data? {
      assert (delivered + [(m.vbucket, m.item)])[..|delivered|] == delivered;
    }
  }

  lemma ConservedReceive(delivered: seq<(Vbucket, Item)>, channel: seq<Message>, emitted: map<Vbucket, seq<Item>>)
    requires Conserved(delivered, channel, emitted) && channel != []
    ensures Conserved(if channel[0].Data? then delivered + [(channel[0].vbucket, channel[0].item)] else delivered,
                      channel[1..], emitted)
  {
    forall u <- emitted {
      ReceiveItems(delivered, channel, u);
    }
  }

  lemma SignalsReceive(channel: seq<Message>, phase: map<Vbucket, Phase>, streams: set<Vbucket>)
    requires SignalsLast(channel, phase, streams) && channel != []
    ensures SignalsLast(channel[1..], phase, if channel[0].End? then streams - {channel[0].vbucket} else streams)
  {
  }

  lemma StreamsReceive(channel: seq<Message>, phase: map<Vbucket, Phase>, streams: set<Vbucket>, closed: bool)
    requires SignalsLast(channel, phase, streams) && StreamsHold(phase, streams, channel, closed) && channel != []
    ensures StreamsHold(phase, if channel[0].End? then streams - {channel[0].vbucket} else streams, channel[1..],
                        closed)
  {
    forall u | u != channel[0].vbucket && End(u) in channel ensures End(u) in channel[1..] {
    }
    assert channel[0].Data? ==> forall u | End(u) in channel :: End(u) in channel[1..];
  }

  lemma ReceiveDelivering(c: Setup, s: Scan)
    requires Delivering(c, s) && Enabled(s, Receive)
    ensures Delivering(c, Consume(s, Receive))
  {
    ConservedReceive(s.delivered, s.channel, s.emitted);
    SignalsReceive(s.channel, s.phase, s.streams);
    StreamsReceive(s.channel, s.phase, s.streams, s.closed);
  }

  lemma LookDelivering(c: Setup, s: Scan)
    requires Delivering(c, s) && Enabled(s, Look)
    ensures Delivering(c, Consume(s, Look))
  {
    if s.streams == {} || s.cancelled { } else { }
  }

  lemma ConsumeDelivering(c: Setup, s: Scan, a: Action)
    requires Delivering(c, s) && Enabled(s, a) && (a.CallNext? || a.Look? || a.Receive?)
    ensures Delivering(c, Consume(s, a))
  {
    match a
    case CallNext => if s.itemLimit == 0 { } else { }
    case Look => LookDelivering(c, s);
    case Receive => ReceiveDelivering(c, s);
  }

  lemma StepDelivering(c: Setup, s: Scan, a: Action)
    requires Scheduled(c, s) && Delivering(c, s) && Enabled(s, a)
    ensures Delivering(c, Apply(c, s, a))
  {
    match a
    case Proceed(t) => AdvanceDelivering(c, s, t);
    case Examine(t, n) =>
    case Start(v, expired, t) => StartDelivering(c, s, v, expired, t);
    case CreateReply(v, error, t) => CreateReplyDelivering(c, s, v, error, t);
    case Emit(v, item) => EmitDelivering(c, s, v, item);
    case ContinueReply(v, reply, t) => ContinueReplyDelivering(c, s, v, reply, t);
    case Cancel =>
    case _ => ConsumeDelivering(c, s, a);
  }

  lemma InitDelivering(c: Setup)
    requires c.Valid()
    ensures Delivering(c, Init(c))
  {
  }
}
