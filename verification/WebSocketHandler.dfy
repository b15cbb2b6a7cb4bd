/** The handler that collects frames from the chunks that arrive, and calls back with their messages. */
module WebSocketHandler {
  import opened Bytes
  import opened Options
  import opened WebSocket

  datatype Event = Message(opcode: byte, payload: seq<byte>) | Failure

  datatype Partial = Partial(opcode: byte, payload: seq<byte>)

  /** A failed handler is replaced by one that reports the failure again; Ended is the end of the program. */
  datatype Condition = Running | Failing | Ended

  datatype Handler = Handler(buffer: seq<byte>, partial: Option<Partial>, events: seq<Event>, condition: Condition)

  function Notify(h: Handler, e: Event): Handler {
    h.(events := h.events + [e])
  }

  function Fail(h: Handler): Handler {
    Notify(h, Failure).(condition := Failing)
  }

  /** A decoded frame; the last part of a fragmented message neither adds its payload nor ends the message. */
  function Deliver(h: Handler, opcode: byte, payload: seq<byte>, more: bool): Handler {
    if IsData(opcode) then
      if more then h.(partial := Some(Partial(opcode, payload))) else Notify(h, Message(opcode, payload))
    else if IsControl(opcode) then Notify(h, Message(opcode, payload))
    else if opcode == CONTINUATION then
      match h.partial
      case None => Fail(h)
      case Some(p) =>
        if more then h.(partial := Some(p.(payload := p.payload + payload)))
        else Notify(h, Message(if p.opcode == TEXT then TEXT else BINARY, p.payload))
    else Fail(h)
  }

  /** A frame takes everything that has arrived, so there is at most one to deliver. */
  function Fed(h: Handler, chunk: seq<byte>): Handler {
    match h.condition
    case Ended => h
    case Failing => Notify(h, Failure)
    case Running =>
      var data, idle := h.buffer + chunk, h.(buffer := []);
      if data == [] then idle
      else
        match DecodeFrame(data, h.partial.Some?)
        case Malformed => Fail(idle)
        case NeedMoreData => h.(buffer := data)
        case Terminated => idle.(condition := Ended)
        case Decoded(opcode, payload, _, more) => Deliver(idle, opcode, payload, more)
  }

  class DataHandler {
    var buffer: seq<byte>
    var partial: Option<Partial>
    var events: seq<Event>
    var condition: Condition

    ghost function State(): Handler
      reads this
    {
      Handler(buffer, partial, events, condition)
    }

    constructor (remaining: seq<byte>)
      ensures State() == Handler(remaining, None, [], Running)
    {
      buffer, partial, events, condition := remaining, None, [], Running;
    }

    method CallBack(e: Event)
      modifies `events
      ensures State() == Notify(old(State()), e)
    {
      events := events + [e];
    }

    method Dispatch(opcode: byte, payload: seq<byte>, more: bool)
      modifies this
      ensures State() == Deliver(old(State()), opcode, payload, more)
    {
      if IsData(opcode) {
        if more {
          partial := Some(Partial(opcode, payload));
        } else {
          CallBack(Message(opcode, payload));
        }
      } else if IsControl(opcode) {
        CallBack(Message(opcode, payload));
      } else if opcode == CONTINUATION && partial.Some? {
        if more {
          partial := Some(partial.value.(payload := partial.value.payload + payload));
        } else {
          CallBack(Message(if partial.value.opcode == TEXT then TEXT else BINARY, partial.value.payload));
        }
      } else {
        CallBack(Failure);
        condition := Failing;
      }
    }

    method Feed(chunk: seq<byte>)
      modifies this
      ensures State() == Fed(old(State()), chunk)
    {
      if condition.Ended? {
        return;
      }
      if condition.Failing? {
        CallBack(Failure);
        return;
      }
      var data := chunk;
      assert buffer == [] ==> buffer + chunk == chunk;
      if buffer != [] {
        data := buffer + chunk;
        buffer := [];
      }
      while data != []
        invariant data == old(buffer) + chunk || data == []
        invariant if data != [] || old(buffer) + chunk == []
                  then buffer == [] && partial == old(partial) && events == old(events) && condition == Running
                  else State() == Fed(old(State()), chunk)
        decreases |data|
      {
        var status := DecodeFrame(data, partial.Some?);
        match status
        case Malformed =>
          CallBack(Failure);
          condition := Failing;
          return;
        case NeedMoreData =>
          buffer := buffer + data;
          return;
        case Terminated =>
          condition := Ended;
          return;
        case Decoded(opcode, payload, consumed, more) =>
          Dispatch(opcode, payload, more);
          data := data[consumed..];
          if condition.Failing? {
            return;
          }
      }
    }
  }

  // ---- one frame in chunks ----

  function FedAll(h: Handler, chunks: seq<seq<byte>>): Handler
    decreases chunks
  {
    if chunks == [] then h else FedAll(Fed(h, chunks[0]), chunks[1..])
  }

  function Joined(chunks: seq<seq<byte>>): seq<byte> {
    if chunks == [] then [] else chunks[0] + Joined(chunks[1..])
  }

  /** A handler between messages. */
  function Ready(events: seq<Event>): Handler {
    Handler([], None, events, Running)
  }

  function Waiting(buffer: seq<byte>, events: seq<Event>): Handler {
    Handler(buffer, None, events, Running)
  }

  /** The first chunk that is not empty has at least two bytes. */
  predicate StartsWell(chunks: seq<seq<byte>>) {
    chunks != [] && (if chunks[0] == [] then StartsWell(chunks[1..]) else |chunks[0]| >= 2)
  }

  lemma {:induction false} EmptyChunks(chunks: seq<seq<byte>>, events: seq<Event>)
    requires Joined(chunks) == []
    ensures FedAll(Ready(events), chunks) == Ready(events)
  {
    if chunks != [] {
      assert chunks[0] == [] && Joined(chunks[1..]) == [];
      assert Ready(events).buffer + chunks[0] == [];
      EmptyChunks(chunks[1..], events);
    }
  }

  lemma {:induction false} EndedStays(h: Handler, chunks: seq<seq<byte>>)
    requires h.condition.Ended?
    ensures FedAll(h, chunks) == h
  {
    if chunks != [] {
      EndedStays(h, chunks[1..]);
    }
  }

  /** What one more chunk does to the start of a frame. */
  lemma OneChunk(opcode: byte, message: seq<byte>, key: seq<byte>, events: seq<Event>, start: seq<byte>,
                 chunk: seq<byte>)
    requires Sendable(opcode, message) && |key| == 4
    requires start + chunk <= Frame(opcode, message, key) && |start + chunk| >= 2
    ensures Fed(Waiting(start, events), chunk) ==
            if start + chunk == Frame(opcode, message, key) then Ready(events + [Message(opcode, message)])
            else Waiting(start + chunk, events)
  {
    var f := Frame(opcode, message, key);
    var data := start + chunk;
    if data == f {
      FrameRoundTrip(opcode, message, key);
    } else {
      assert data == f[..|data|];
      FramePrefix(opcode, message, key, |data|);
    }
  }

  lemma {:induction false} RestOfFrame(opcode: byte, message: seq<byte>, key: seq<byte>, events: seq<Event>,
                                       start: seq<byte>, chunks: seq<seq<byte>>)
    requires Sendable(opcode, message) && |key| == 4 && start + Joined(chunks) == Frame(opcode, message, key)
    requires 2 <= |start| < |Frame(opcode, message, key)|
    ensures FedAll(Waiting(start, events), chunks) == Ready(events + [Message(opcode, message)])
    decreases chunks
  {
    if chunks != [] {
      var f, next := Frame(opcode, message, key), start + chunks[0];
      assert next + Joined(chunks[1..]) == f;
      OneChunk(opcode, message, key, events, start, chunks[0]);
      if next == f {
        EmptyChunks(chunks[1..], events + [Message(opcode, message)]);
      } else {
        RestOfFrame(opcode, message, key, events, next, chunks[1..]);
      }
    }
  }

  lemma FirstByteAlone(opcode: byte, message: seq<byte>, key: seq<byte>, events: seq<Event>)
    requires Sendable(opcode, message) && |key| == 4
    ensures |Frame(opcode, message, key)| >= 6
    ensures Fed(Ready(events), Frame(opcode, message, key)[..1]).condition.Ended?
  {
    var b := Frame(opcode, message, key)[..1];
    assert [] + b == b && b[0] == opcode + 128;
  }

  /**
   One frame in chunks gives exactly one callback, with the message, if and only if the first chunk that
   is not empty has at least two bytes.
   */
  lemma {:induction false} FrameInChunks(opcode: byte, message: seq<byte>, key: seq<byte>, events: seq<Event>,
                                         chunks: seq<seq<byte>>)
    requires Sendable(opcode, message) && |key| == 4 && Joined(chunks) == Frame(opcode, message, key)
    ensures StartsWell(chunks) ==> FedAll(Ready(events), chunks) == Ready(events + [Message(opcode, message)])
    ensures !StartsWell(chunks) ==> FedAll(Ready(events), chunks).condition.Ended?
  {
    var f := Frame(opcode, message, key);
    FirstByteAlone(opcode, message, key, events);
    if chunks[0] == [] {
      assert Joined(chunks[1..]) == f;
      assert Ready(events).buffer + chunks[0] == [];
      FrameInChunks(opcode, message, key, events, chunks[1..]);
    } else if |chunks[0]| >= 2 {
      assert [] + chunks[0] == chunks[0];
      OneChunk(opcode, message, key, events, [], chunks[0]);
      if chunks[0] == f {
        EmptyChunks(chunks[1..], events + [Message(opcode, message)]);
      } else {
        RestOfFrame(opcode, message, key, events, chunks[0], chunks[1..]);
      }
    } else {
      assert chunks[0] == f[..1];
      EndedStays(Fed(Ready(events), chunks[0]), chunks[1..]);
    }
  }

  // ---- frames one after the other ----

  datatype Sent = Sent(opcode: byte, message: seq<byte>, key: seq<byte>, chunks: seq<seq<byte>>)

  ghost predicate WellSent(s: Sent) {
    && Sendable(s.opcode, s.message) && |s.key| == 4
    && Joined(s.chunks) == Frame(s.opcode, s.message, s.key) && StartsWell(s.chunks)
  }

  function AllChunks(sent: seq<Sent>): seq<seq<byte>> {
    if sent == [] then [] else sent[0].chunks + AllChunks(sent[1..])
  }

  function Messages(sent: seq<Sent>): seq<Event> {
    if sent == [] then [] else [Message(sent[0].opcode, sent[0].message)] + Messages(sent[1..])
  }

  lemma {:induction false} FedAllConcat(h: Handler, a: seq<seq<byte>>, b: seq<seq<byte>>)
    ensures FedAll(h, a + b) == FedAll(FedAll(h, a), b)
    decreases a
  {
    if a == [] {
      assert a + b == b;
    } else {
      assert (a + b)[1..] == a[1..] + b;
      FedAllConcat(Fed(h, a[0]), a[1..], b);
    }
  }

  lemma NextFrame(s: Sent, rest: seq<seq<byte>>, events: seq<Event>)
    requires WellSent(s)
    ensures FedAll(Ready(events), s.chunks + rest) == FedAll(Ready(events + [Message(s.opcode, s.message)]), rest)
  {
    FrameInChunks(s.opcode, s.message, s.key, events, s.chunks);
    FedAllConcat(Ready(events), s.chunks, rest);
  }

  lemma MessagesFirst(sent: seq<Sent>, events: seq<Event>)
    requires sent != []
    ensures events + Messages(sent) == events + [Message(sent[0].opcode, sent[0].message)] + Messages(sent[1..])
  {
  }

  /** Frames whose chunks do not mix come out as the messages sent, in order. */
  lemma {:induction false} FramesInOrder(sent: seq<Sent>, events: seq<Event>)
    requires forall s :: s in sent ==> WellSent(s)
    ensures FedAll(Ready(events), AllChunks(sent)) == Ready(events + Messages(sent))
  {
    if sent == [] {
      assert events + [] == events;
    } else {
      NextFrame(sent[0], AllChunks(sent[1..]), events);
      FramesInOrder(sent[1..], events + [Message(sent[0].opcode, sent[0].message)]);
      MessagesFirst(sent, events);
    }
  }
}
