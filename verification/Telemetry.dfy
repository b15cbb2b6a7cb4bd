/** The reporter of application telemetry: which collector it dials next, and when. */
module Telemetry {
  import opened Options
  import opened Reals

  // ---- delays ----

  datatype Backoff = Backoff(min: int, max: int, factor: real, jitter: real)

  ghost predicate Sound(b: Backoff) {
    0 < b.min <= b.max && b.jitter >= 0.0
  }

  /** The delay before jitter. */
  function Base(b: Backoff, attempts: nat): real {
    Clamp(Scaled(b.min as real, b.factor, attempts), b.min as real, b.max as real)
  }

  /** The range from which the jitter of a delay x is drawn, when it may be as large as share. */
  function Lowest(b: Backoff, x: real, share: real): int {
    Truncate(Max(b.min as real - x, -share))
  }

  function Highest(b: Backoff, x: real, share: real): int {
    Truncate(Min(b.max as real - x, share))
  }

  function Low(b: Backoff, attempts: nat): int {
    Lowest(b, Base(b, attempts), Base(b, attempts) * b.jitter)
  }

  function High(b: Backoff, attempts: nat): int {
    Highest(b, Base(b, attempts), Base(b, attempts) * b.jitter)
  }

  function RetryAfter(b: Backoff, attempts: nat, draw: int): int {
    Truncate(Base(b, attempts) + draw as real)
  }

  lemma BaseInRange(b: Backoff, attempts: nat)
    requires Sound(b)
    ensures b.min as real <= Base(b, attempts) <= b.max as real
  {
  }

  lemma TruncateTowardsZero(x: real)
    ensures x <= 0.0 ==> x <= Truncate(x) as real <= 0.0
    ensures x >= 0.0 ==> 0.0 <= Truncate(x) as real <= x
  {
  }

  lemma TruncateAbove(x: real, n: nat)
    requires n as real <= x
    ensures n <= Truncate(x)
  {
  }

  lemma OffsetIsPositive(x: real, y: real)
    requires x >= 0.0 && y >= 0.0
    ensures x * y >= 0.0
  {
  }

  lemma JitterBounds(low: real, high: real, x: real, offset: real)
    requires low <= x <= high && offset >= 0.0
    ensures low - x <= Truncate(Max(low - x, -offset)) as real <= 0.0
    ensures 0.0 <= Truncate(Min(high - x, offset)) as real <= high - x
  {
    TruncateTowardsZero(Max(low - x, -offset));
    TruncateTowardsZero(Min(high - x, offset));
  }

  /** There is something to draw from, and no draw leaves the limits. */
  lemma JitterRange(b: Backoff, attempts: nat)
    requires Sound(b)
    ensures Low(b, attempts) <= 0 <= High(b, attempts)
    ensures b.min as real - Base(b, attempts) <= Low(b, attempts) as real
    ensures High(b, attempts) as real <= b.max as real - Base(b, attempts)
  {
    BaseInRange(b, attempts);
    OffsetIsPositive(Base(b, attempts), b.jitter);
    JitterBounds(b.min as real, b.max as real, Base(b, attempts), Base(b, attempts) * b.jitter);
  }

  /** A draw is possible if and only if the maximum is not below the minimum. */
  lemma DrawPossibleExactlyWhen(b: Backoff, attempts: nat)
    requires b.min > 0 && b.jitter >= 0.0
    ensures Low(b, attempts) <= High(b, attempts) <==> b.min <= b.max
  {
    if b.min <= b.max {
      JitterRange(b, attempts);
    } else {
      var x, over := b.min as real, (b.min - b.max) as real;
      assert Base(b, attempts) == x;
      OffsetIsPositive(x, b.jitter);
      assert Max(x - x, -(x * b.jitter)) == 0.0;
      assert Min(b.max as real - x, x * b.jitter) == -over;
    }
  }

  lemma {:induction false} ScaledGrows(x: real, factor: real, n: nat)
    requires x >= 0.0 && factor >= 1.0
    ensures Scaled(x, factor, n) >= x
  {
    if n > 0 {
      ScaledGrows(x, factor, n - 1);
      ProductGrows(Scaled(x, factor, n - 1), 1.0, factor);
    }
  }

  /** Without jitter the delay is the minimum times a power of the factor, up to the maximum. */
  lemma BaseGrows(b: Backoff, attempts: nat)
    requires Sound(b) && b.factor >= 1.0
    ensures Base(b, attempts) == Min(Scaled(b.min as real, b.factor, attempts), b.max as real)
  {
    ScaledGrows(b.min as real, b.factor, attempts);
  }

  lemma ProductGrows(x: real, y: real, z: real)
    requires x >= 0.0 && y <= z
    ensures x * y <= x * z
  {
  }

  lemma WholePart(x: real, n: int)
    ensures x <= 0.0 && n <= 0 ==> (Truncate(x) <= n <==> x <= n as real)
    ensures x >= 0.0 && n >= 0 ==> (n <= Truncate(x) <==> n as real <= x)
  {
  }

  /** The draws are exactly the whole numbers within the share that keep the delay in its limits. */
  lemma DrawsAre(b: Backoff, x: real, share: real, draw: int)
    requires Sound(b) && b.min as real <= x <= b.max as real && share >= 0.0
    ensures Lowest(b, x, share) <= draw <= Highest(b, x, share) <==>
              -share <= draw as real <= share && b.min as real <= x + draw as real <= b.max as real
  {
    WholePart(Max(b.min as real - x, -share), draw);
    WholePart(Min(b.max as real - x, share), draw);
  }

  /** Whatever the number of attempts and the draw, the delay stays between the limits. */
  lemma DelayInRange(b: Backoff, attempts: nat, draw: int)
    requires Sound(b) && Low(b, attempts) <= draw <= High(b, attempts)
    ensures b.min <= RetryAfter(b, attempts, draw) <= b.max
    ensures var d := RetryAfter(b, attempts, draw) as real; d <= Base(b, attempts) + draw as real < d + 1.0
  {
    JitterRange(b, attempts);
    var delay := Base(b, attempts) + draw as real;
    assert b.min as real <= delay <= b.max as real;
    TruncateTowardsZero(delay);
    TruncateAbove(delay, b.min);
  }

  // ---- the reporter ----

  type Address = string

  datatype State = Disconnected | Connected | Stopped

  const MINIMUM: nat := 100

  class Reporter {
    const enabled: bool
    const pinned: bool
    const backoff: Backoff
    var state: State
    var addresses: seq<Address>
    var next: nat
    var attempt: nat
    var exponential: bool
    var armed: Option<Address>
    var due: seq<Address>
    var dialled: seq<Address>
    ghost var quiet: nat

    /**
     While disconnected, the next address is one of those known; since the reporter was stopped, nothing
     was dialled.
     */
    ghost predicate Valid()
      reads this
    {
      && Sound(backoff) && backoff.min == MINIMUM
      && (state.Disconnected? && addresses != [] ==> next < |addresses|)
      && (state.Stopped? ==> |dialled| == quiet)
    }

    /** A collector set by the user is none if it cannot be parsed; the configuration is not asked then. */
    constructor (enabled: bool, pinned: bool, collector: Option<Address>, maximum: nat)
      requires MINIMUM <= maximum
      ensures Valid() && state == Disconnected && dialled == [] && due == [] && armed == None
      ensures this.enabled == enabled && this.pinned == pinned && backoff == Backoff(MINIMUM, maximum, 2.0, 0.5)
      ensures addresses == (if enabled && pinned && collector.Some? then [collector.value] else [])
      ensures next == 0 && attempt == 0 && !exponential
    {
      this.enabled := enabled;
      this.pinned := pinned;
      this.backoff := Backoff(MINIMUM, maximum, 2.0, 0.5);
      this.state := Disconnected;
      this.addresses := if enabled && pinned && collector.Some? then [collector.value] else [];
      this.next, this.attempt, this.exponential := 0, 0, false;
      this.armed, this.due, this.dialled, this.quiet := None, [], [], 0;
    }

    method Dial(a: Address)
      requires Valid() && state.Disconnected?
      modifies `dialled
      ensures Valid() && dialled == old(dialled) + [a]
    {
      dialled := dialled + [a];
    }

    method Stop()
      requires Valid()
      modifies `state, `armed, `quiet
      ensures Valid() && state == Stopped && armed == None && (old(state).Stopped? ==> quiet == old(quiet))
    {
      state, armed, quiet := Stopped, None, |dialled|;
    }

    method OnConnected()
      requires Valid()
      modifies `state, `next, `exponential, `armed
      ensures Valid() && armed == None && (old(state).Stopped? <==> state.Stopped?)
      ensures state.Stopped? ==> next == old(next) && exponential == old(exponential)
      ensures !state.Stopped? ==> state == Connected && next == old(next) + 1 && !exponential
    {
      armed := None;
      if state.Stopped? {
        return;
      }
      state, exponential, next := Connected, false, next + 1;
    }

    method OnWebsocketReady()
      requires Valid()
      modifies `attempt
      ensures Valid() && attempt == 0
    {
      attempt := 0;
    }

    /** The addresses in another order. */
    ghost predicate Shuffled(order: seq<Address>)
      reads this
    {
      multiset(order) == multiset(addresses)
    }

    method OnError(aborted: bool, order: seq<Address>, draw: int) returns (delay: int)
      requires Valid() && Shuffled(order)
      requires Low(backoff, attempt + 1) <= draw <= High(backoff, attempt + 1)
      modifies this
      ensures Valid() && (old(state).Stopped? ==> state.Stopped? && quiet == old(quiet))
      ensures delay == 0 || MINIMUM <= delay <= backoff.max
      ensures delay > 0 ==> armed.Some? && armed.value in addresses && dialled == old(dialled)
      ensures dialled != old(dialled) ==>
                delay == 0 && next < |addresses| && dialled == old(dialled) + [addresses[next]]
      ensures multiset(addresses) == multiset(old(addresses))
      ensures aborted || old(state).Stopped? ==> state == old(state)
      ensures !aborted && !old(state).Stopped? ==> state == Disconnected
      ensures aborted || old(state).Stopped? || old(addresses) == [] ==>
                && delay == 0 && addresses == old(addresses) && next == old(next) && attempt == old(attempt)
                && exponential == old(exponential) && armed == old(armed) && dialled == old(dialled)
      ensures !aborted && !old(state).Stopped? && old(addresses) != [] ==>
                var round := old(next) + 1 >= |old(addresses)|;
                && attempt == old(attempt) + 1
                && next == (if round then 0 else old(next) + 1)
                && addresses == (if round then order else old(addresses))
                && exponential == (old(exponential) || round)
                && next < |addresses|
                && delay == (if exponential then RetryAfter(backoff, attempt, draw) else 0)
                && armed == (if exponential then Some(addresses[next]) else old(armed))
                && dialled == (if exponential then old(dialled) else old(dialled) + [addresses[next]])
    {
      delay := 0;
      if aborted || state.Stopped? {
        return;
      }
      SameSize(order, addresses);
      state := Disconnected;
      if addresses == [] {
        return;
      }
      attempt, next := attempt + 1, next + 1;
      if next >= |addresses| {
        addresses, next, exponential := order, 0, true;
      }
      var address := addresses[next];
      if exponential {
        DelayInRange(backoff, attempt, draw);
        delay := RetryAfter(backoff, attempt, draw);
      }
      if delay > 0 {
        armed := Some(address);
        return;
      }
      Dial(address);
    }

    method UpdateConfig(found: seq<Address>)
      requires Valid()
      modifies `addresses, `next, `dialled
      ensures Valid()
      ensures enabled && !pinned ==> addresses == found && next == 0
      ensures !enabled || pinned ==> addresses == old(addresses) && next == old(next)
      ensures enabled && state.Disconnected? && addresses != [] ==>
                next < |addresses| && dialled == old(dialled) + [addresses[next]]
      ensures !enabled || !state.Disconnected? || addresses == [] ==> dialled == old(dialled)
    {
      if !enabled {
        return;
      }
      if !pinned {
        addresses, next := found, 0;
      }
      if addresses != [] && state.Disconnected? {
        Dial(addresses[next]);
      }
    }

    /** The timer expires: its handler is queued, and can no longer be cancelled. */
    method TimerExpires()
      requires Valid() && armed.Some?
      modifies `armed, `due
      ensures Valid() && armed == None && due == old(due) + [old(armed).value]
    {
      due, armed := due + [armed.value], None;
    }

    method TimerHandler()
      requires Valid() && due != []
      modifies `due, `dialled
      ensures Valid() && due == old(due)[1..]
      ensures dialled == if state.Disconnected? then old(dialled) + [old(due)[0]] else old(dialled)
    {
      var address := due[0];
      due := due[1..];
      if state.Disconnected? {
        Dial(address);
      }
    }
  }

  lemma SameSize(a: seq<Address>, b: seq<Address>)
    requires multiset(a) == multiset(b)
    ensures |a| == |b|
  {
    assert |multiset(a)| == |a| && |multiset(b)| == |b|;
  }
}
