/** Messages that a server sends in several frames. */
module WebSocketFragments {
  import opened Bytes
  import opened Options
  import opened WebSocket
  import opened WebSocketHandler

  function Concat(parts: seq<seq<byte>>): seq<byte> {
    if parts == [] then [] else Concat(parts[..|parts| - 1]) + parts[|parts| - 1]
  }

  /** The frames of a message: the first with its opcode, the others as continuations, the last marked final. */
  function Continuations(middle: seq<seq<byte>>): seq<seq<byte>> {
    seq(|middle|, i requires 0 <= i < |middle| => ServerFrame(CONTINUATION, true, middle[i]))
  }

  function Fragments(opcode: byte, first: seq<byte>, middle: seq<seq<byte>>, last: seq<byte>): seq<seq<byte>>
    requires opcode < 16
  {
    [ServerFrame(opcode, true, first)] + Continuations(middle) + [ServerFrame(CONTINUATION, false, last)]
  }

  /** The handler between two frames, with the parts of a message collected so far. */
  function Collecting(partial: Option<Partial>, events: seq<Event>): Handler {
    Handler([], partial, events, Running)
  }

  ghost predicate Fits(s: seq<byte>) {
    |s| + 10 < WORD
  }

  /** A frame that arrives whole is delivered. */
  lemma FrameArrives(partial: Option<Partial>, events: seq<Event>, opcode: byte, more: bool, message: seq<byte>)
    requires Acceptable(opcode, more, message, partial.Some?)
    ensures Fed(Collecting(partial, events), ServerFrame(opcode, more, message)) ==
            Deliver(Collecting(partial, events), opcode, message, more)
  {
    ServerFrameDecoded(opcode, more, message, partial.Some?);
    var f := ServerFrame(opcode, more, message);
    assert [] + f == f;
  }

  lemma PartArrives(p: Partial, events: seq<Event>, part: seq<byte>)
    requires Fits(part)
    ensures Fed(Collecting(Some(p), events), ServerFrame(CONTINUATION, true, part)) ==
            Collecting(Some(Partial(p.opcode, p.payload + part)), events)
  {
    FrameArrives(Some(p), events, CONTINUATION, true, part);
  }

  lemma LastPartArrives(p: Partial, events: seq<Event>, part: seq<byte>)
    requires Fits(part) && IsData(p.opcode)
    ensures Fed(Collecting(Some(p), events), ServerFrame(CONTINUATION, false, part)) ==
            Collecting(Some(p), events + [Message(p.opcode, p.payload)])
  {
    FrameArrives(Some(p), events, CONTINUATION, false, part);
  }

  lemma FirstPartArrives(opcode: byte, events: seq<Event>, part: seq<byte>)
    requires Fits(part) && IsData(opcode)
    ensures Fed(Collecting(None, events), ServerFrame(opcode, true, part)) ==
            Collecting(Some(Partial(opcode, part)), events)
  {
    FrameArrives(None, events, opcode, true, part);
  }

  lemma OneMore(h: Handler, chunks: seq<seq<byte>>, chunk: seq<byte>, between: Handler, end: Handler)
    requires FedAll(h, chunks) == between && Fed(between, chunk) == end
    ensures FedAll(h, chunks + [chunk]) == end
  {
    FedAllConcat(h, chunks, [chunk]);
    assert [chunk][1..] == [];
    assert FedAll(between, [chunk]) == FedAll(end, []);
  }

  function Collected(opcode: byte, first: seq<byte>, middle: seq<seq<byte>>): Partial {
    Partial(opcode, first + Concat(middle))
  }

  lemma FirstPart(opcode: byte, first: seq<byte>, events: seq<Event>)
    requires IsData(opcode) && Fits(first)
    ensures FedAll(Collecting(None, events), [ServerFrame(opcode, true, first)]) ==
            Collecting(Some(Partial(opcode, first)), events)
  {
    var h, f := Collecting(None, events), ServerFrame(opcode, true, first);
    FirstPartArrives(opcode, events, first);
    OneMore(h, [], f, h, Collecting(Some(Partial(opcode, first)), events));
    assert [] + [f] == [f];
  }

  lemma OnePart(p: Partial, events: seq<Event>, h: Handler, chunks: seq<seq<byte>>, part: seq<byte>)
    requires Fits(part) && FedAll(h, chunks) == Collecting(Some(p), events)
    ensures FedAll(h, chunks + [ServerFrame(CONTINUATION, true, part)]) ==
            Collecting(Some(Partial(p.opcode, p.payload + part)), events)
  {
    PartArrives(p, events, part);
    OneMore(h, chunks, ServerFrame(CONTINUATION, true, part), Collecting(Some(p), events),
            Collecting(Some(Partial(p.opcode, p.payload + part)), events));
  }

  lemma ContinuationsLast(start: seq<seq<byte>>, middle: seq<seq<byte>>)
    requires middle != []
    ensures start + Continuations(middle) ==
            start + Continuations(middle[..|middle| - 1]) + [ServerFrame(CONTINUATION, true, middle[|middle| - 1])]
  {
  }

  lemma CollectedLast(opcode: byte, first: seq<byte>, middle: seq<seq<byte>>)
    requires middle != []
    ensures Collected(opcode, first, middle) ==
            Partial(opcode, Collected(opcode, first, middle[..|middle| - 1]).payload + middle[|middle| - 1])
  {
    assert first + Concat(middle) == first + Concat(middle[..|middle| - 1]) + middle[|middle| - 1];
  }

  lemma LastOfMiddle(opcode: byte, first: seq<byte>, middle: seq<seq<byte>>, events: seq<Event>,
                     h: Handler, start: seq<seq<byte>>)
    requires middle != [] && Fits(middle[|middle| - 1])
    requires FedAll(h, start + Continuations(middle[..|middle| - 1])) ==
             Collecting(Some(Collected(opcode, first, middle[..|middle| - 1])), events)
    ensures FedAll(h, start + Continuations(middle)) == Collecting(Some(Collected(opcode, first, middle)), events)
  {
    var before := middle[..|middle| - 1];
    OnePart(Collected(opcode, first, before), events, h, start + Continuations(before), middle[|middle| - 1]);
    CollectedLast(opcode, first, middle);
    ContinuationsLast(start, middle);
  }

  lemma {:induction false} MiddleParts(opcode: byte, first: seq<byte>, middle: seq<seq<byte>>, events: seq<Event>,
                                       h: Handler, start: seq<seq<byte>>)
    requires forall i :: 0 <= i < |middle| ==> Fits(middle[i])
    requires FedAll(h, start) == Collecting(Some(Partial(opcode, first)), events)
    ensures FedAll(h, start + Continuations(middle)) == Collecting(Some(Collected(opcode, first, middle)), events)
  {
    if middle == [] {
      assert start + Continuations(middle) == start;
      assert first + Concat(middle) == first;
    } else {
      MiddleParts(opcode, first, middle[..|middle| - 1], events, h, start);
      LastOfMiddle(opcode, first, middle, events, h, start);
    }
  }

  /**
   What is called back is the message without its last part, for any message in any number of parts; and the
   handler goes on as if the message had not ended.
   */
  lemma LastPartDropped(opcode: byte, first: seq<byte>, middle: seq<seq<byte>>, last: seq<byte>, events: seq<Event>)
    requires IsData(opcode) && Fits(first) && Fits(last) && forall i :: 0 <= i < |middle| ==> Fits(middle[i])
    ensures FedAll(Collecting(None, events), Fragments(opcode, first, middle, last)) ==
            Collecting(Some(Collected(opcode, first, middle)), events + [Message(opcode, first + Concat(middle))])
  {
    var p := Collected(opcode, first, middle);
    FirstPart(opcode, first, events);
    MiddleParts(opcode, first, middle, events, Collecting(None, events), [ServerFrame(opcode, true, first)]);
    LastPartArrives(p, events, last);
    OneMore(Collecting(None, events), [ServerFrame(opcode, true, first)] + Continuations(middle),
            ServerFrame(CONTINUATION, false, last), Collecting(Some(p), events),
            Collecting(Some(p), events + [Message(opcode, p.payload)]));
  }

  /** So the message is called back whole if and only if its last part is empty. */
  lemma WholeExactlyWhen(opcode: byte, first: seq<byte>, middle: seq<seq<byte>>, last: seq<byte>, events: seq<Event>)
    requires IsData(opcode) && Fits(first) && Fits(last) && forall i :: 0 <= i < |middle| ==> Fits(middle[i])
    ensures last == [] <==>
              FedAll(Collecting(None, events), Fragments(opcode, first, middle, last)).events ==
              events + [Message(opcode, first + Concat(middle) + last)]
  {
    LastPartDropped(opcode, first, middle, last, events);
    var part := first + Concat(middle);
    assert last == [] ==> part + last == part;
    assert |part + last| == |part| + |last|;
    assert (events + [Message(opcode, part)])[|events|] == Message(opcode, part);
    assert (events + [Message(opcode, part + last)])[|events|] == Message(opcode, part + last);
  }

  /** And the next message, in one frame or in several, is refused. */
  lemma NextMessageRefused(p: Partial, events: seq<Event>, opcode: byte, more: bool, message: seq<byte>)
    requires IsData(opcode)
    ensures Fed(Collecting(Some(p), events), ServerFrame(opcode, more, message)) ==
            Handler([], Some(p), events + [Failure], Failing)
  {
    var f := ServerFrame(opcode, more, message);
    assert [] + f == f && f[0] % 16 == opcode;
    MalformedExactlyWhen(f, true);
  }

  /** A control frame between the parts is called back, and the parts are kept. */
  lemma ControlBetween(partial: Option<Partial>, events: seq<Event>, opcode: byte, message: seq<byte>)
    requires IsControl(opcode) && |message| <= 125
    ensures Fed(Collecting(partial, events), ServerFrame(opcode, false, message)) ==
            Collecting(partial, events + [Message(opcode, message)])
  {
    FrameArrives(partial, events, opcode, false, message);
  }

  /** A continuation of nothing and a frame with a reserved opcode fail the connection. */
  lemma StrayRefused(partial: Option<Partial>, events: seq<Event>, opcode: byte, more: bool, message: seq<byte>)
    requires Fits(message) && opcode < 16
    requires (opcode == 0 && partial.None?) || 3 <= opcode <= 7 || 11 <= opcode
    ensures Fed(Collecting(partial, events), ServerFrame(opcode, more, message)) ==
            Handler([], partial, events + [Failure], Failing)
  {
    FrameArrives(partial, events, opcode, more, message);
  }

  /** From then on every chunk only reports the failure again. */
  lemma {:induction false} FailureStays(h: Handler, chunks: seq<seq<byte>>)
    requires h.condition.Failing?
    ensures var end := FedAll(h, chunks);
            && end.condition.Failing? && |end.events| == |h.events| + |chunks| && h.events <= end.events
            && forall i :: |h.events| <= i < |end.events| ==> end.events[i] == Failure
    decreases |chunks|
  {
    if chunks != [] {
      var next := Fed(h, chunks[0]);
      assert next == Notify(h, Failure);
      FailureStays(next, chunks[1..]);
    }
  }
}
