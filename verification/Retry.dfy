/** When a key-value request is retried, and what becomes of it. */
module Retry {
  import opened Options
  import opened Reals

  datatype Reason =
    | DoNotRetry | Unknown | SocketNotAvailable | ServiceNotAvailable | NodeNotAvailable
    | NotMyVbucket | CollectionOutdated | ErrorMapRetryIndicated | Locked | TemporaryFailure
    | SyncWriteInProgress | SyncWriteReCommitInProgress | ServiceResponseCodeIndicated
    | SocketClosedWhileInFlight | CircuitBreakerOpen | QueryPreparedStatementFailure | QueryIndexNotFound
    | AnalyticsTemporaryFailure | SearchTooManyRequests | ViewsTemporaryFailure | ViewsNoActivePartition

  predicate AllowsNonIdempotent(r: Reason) {
    !r.Unknown? && !r.SocketClosedWhileInFlight? && !r.DoNotRetry?
  }

  predicate AlwaysRetry(r: Reason) {
    r.NotMyVbucket? || r.CollectionOutdated? || r.ViewsNoActivePartition?
  }

  // ---- delays, in milliseconds; zero stands for no retry ----

  /** How long to wait, given idempotence, the attempts so far and the reason. */
  type Strategy = (bool, nat, Reason) -> int

  type Calculator = nat -> int

  function ControlledBackoff(attempts: nat): (d: int)
    ensures 1 <= d <= 1000
    ensures attempts > 0 ==> ControlledBackoff(attempts - 1) <= d
    decreases attempts
  {
    if attempts == 0 then 1
    else if attempts == 1 then 10
    else if attempts == 2 then 50
    else if attempts == 3 then 100
    else if attempts == 4 then 500
    else 1000
  }

  lemma ControlledDelays(attempts: nat)
    ensures attempts < 5 ==> ControlledBackoff(attempts) == [1, 10, 50, 100, 500][attempts]
    ensures attempts >= 5 ==> ControlledBackoff(attempts) == 1000
  {
  }

  /** Zero or negative settings stand for the defaults. */
  function ExponentialBackoff(minimum: int, maximum: int, factor: real, attempts: nat): (d: int)
    ensures var low, high := if minimum > 0 then minimum else 1, if maximum > 0 then maximum else 500;
            low <= d <= if low < high then high else low
  {
    var low := if minimum > 0 then minimum as real else 1.0;
    var high := if maximum > 0 then maximum as real else 500.0;
    var base := if factor > 0.0 then factor else 2.0;
    Truncate(Clamp(Scaled(low, base, attempts), low, high))
  }

  function BestEffort(calculator: Calculator): Strategy {
    (idempotent: bool, attempts: nat, reason: Reason) =>
      if idempotent || AllowsNonIdempotent(reason) then calculator(attempts) else 0
  }

  /** The delay before the next attempt, zero for none. */
  function Delay(idempotent: bool, strategy: Option<Strategy>, attempts: nat, reason: Reason): int {
    if AlwaysRetry(reason) then ControlledBackoff(attempts)
    else if strategy.None? then 0
    else strategy.value(idempotent, attempts, reason)
  }

  /** Reasons that are retried whatever the strategy: without one, all others are not retried at all. */
  lemma RetriedRegardless(idempotent: bool, attempts: nat, reason: Reason)
    ensures Delay(idempotent, None, attempts, reason) != 0 <==>
              reason in {NotMyVbucket, CollectionOutdated, ViewsNoActivePartition}
    ensures reason in {NotMyVbucket, CollectionOutdated, ViewsNoActivePartition} ==>
              forall s :: Delay(idempotent, s, attempts, reason) == ControlledBackoff(attempts)
  {
  }

  /** Reasons for which the best-effort strategy leaves a request alone that could apply twice. */
  lemma UnsafeReasons(calculator: Calculator, attempts: nat, reason: Reason)
    requires calculator(attempts) != 0
    ensures Delay(true, Some(BestEffort(calculator)), attempts, reason) != 0
    ensures Delay(false, Some(BestEffort(calculator)), attempts, reason) == 0 <==>
              reason.Unknown? || reason.SocketClosedWhileInFlight? || reason.DoNotRetry?
    ensures !AlwaysRetry(reason) && Delay(false, Some(BestEffort(calculator)), attempts, reason) != 0 ==>
              Delay(false, Some(BestEffort(calculator)), attempts, reason) == calculator(attempts)
  {
    assert AllowsNonIdempotent(reason) <==>
             !reason.Unknown? && !reason.SocketClosedWhileInFlight? && !reason.DoNotRetry?;
  }

  /** x without its fraction, but not outside the limits. */
  function Within(x: real, minimum: int, maximum: int): int {
    if x < minimum as real then minimum else if maximum as real < x then maximum else x.Floor
  }

  lemma WithinClamp(x: real, minimum: int, maximum: int)
    requires 0 < minimum <= maximum
    ensures Truncate(Clamp(x, minimum as real, maximum as real)) == Within(x, minimum, maximum)
  {
  }

  /** The exponential delay grows by the factor with each attempt, within its limits, and loses its fraction. */
  lemma ExponentialDelay(minimum: int, maximum: int, factor: real, attempts: nat, exact: real)
    requires 0 < minimum <= maximum && factor > 0.0 && exact == Scaled(minimum as real, factor, attempts)
    ensures ExponentialBackoff(minimum, maximum, factor, attempts) == Within(exact, minimum, maximum)
  {
    WithinClamp(exact, minimum, maximum);
  }

  /** Settings that are not positive stand for one millisecond, half a second and doubling. */
  lemma ExponentialDefaults(minimum: int, maximum: int, factor: real, attempts: nat)
    ensures minimum <= 0 ==> ExponentialBackoff(minimum, maximum, factor, attempts) ==
                             ExponentialBackoff(1, maximum, factor, attempts)
    ensures maximum <= 0 ==> ExponentialBackoff(minimum, maximum, factor, attempts) ==
                             ExponentialBackoff(minimum, 500, factor, attempts)
    ensures factor <= 0.0 ==> ExponentialBackoff(minimum, maximum, factor, attempts) ==
                              ExponentialBackoff(minimum, maximum, 2.0, attempts)
  {
  }

  // ---- responses ----

  datatype Status =
    | UnknownStatus | IsLocked | IsTemporaryFailure | IsSyncWriteInProgress | IsSyncWriteReCommitInProgress
    | IsNotMyVbucket | OtherStatus

  datatype Error = NoError | Aborted | Canceled | AmbiguousTimeout | UnambiguousTimeout | NotAvailable | OtherError

  datatype Response = Response(error: Error, reason: Reason, status: Status, retryIndicated: bool)

  datatype Reaction = Callback(error: Error) | Reschedule(reason: Reason, delay: int) | Neither

  /** The reason that the status code gives for a retry, if it gives one. */
  function Refined(unlock: bool, r: Response): Reason {
    if r.status.UnknownStatus? && r.retryIndicated then ErrorMapRetryIndicated
    else match r.status
      case IsLocked => if unlock then r.reason else Locked
      case IsTemporaryFailure => TemporaryFailure
      case IsSyncWriteInProgress => SyncWriteInProgress
      case IsSyncWriteReCommitInProgress => SyncWriteReCommitInProgress
      case IsNotMyVbucket => NotMyVbucket
      case _ => r.reason
  }

  /** A cancelled request that may be sent again, and for which reason. */
  predicate Resendable(idempotent: bool, r: Response) {
    r.error.Canceled? && (idempotent || AllowsNonIdempotent(r.reason))
  }

  function ResendReason(r: Response): Reason {
    if r.reason.DoNotRetry? then NodeNotAvailable else r.reason
  }

  function React(idempotent: bool, unlock: bool, strategy: Option<Strategy>, attempts: nat, r: Response): Reaction {
    if r.error.Aborted? then
      Callback(if idempotent then UnambiguousTimeout else AmbiguousTimeout)
    else if r.error.Canceled? && !Resendable(idempotent, r) then
      Callback(r.error)
    else
      var reason := if r.error.Canceled? then ResendReason(r) else Refined(unlock, r);
      var delay := Delay(idempotent, strategy, attempts, reason);
      if r.error.Canceled? then
        if delay == 0 then Neither else Reschedule(reason, delay)
      else if reason.DoNotRetry? || delay == 0 then Callback(r.error)
      else Reschedule(reason, delay)
  }

  /** What a response that is neither aborted nor cancelled leads to, once it has a reason for a retry. */
  function Followed(idempotent: bool, strategy: Option<Strategy>, attempts: nat, error: Error, reason: Reason)
    : Reaction
  {
    var delay := Delay(idempotent, strategy, attempts, reason);
    if delay == 0 then Callback(error) else Reschedule(reason, delay)
  }

  /** Each status is followed as its own reason; a lock is no reason to repeat an unlock. */
  lemma StatusDecides(idempotent: bool, unlock: bool, strategy: Option<Strategy>, attempts: nat, r: Response)
    requires !r.error.Aborted? && !r.error.Canceled?
    ensures var reaction := React(idempotent, unlock, strategy, attempts, r);
            && (r.status.IsNotMyVbucket? ==> reaction == Reschedule(NotMyVbucket, ControlledBackoff(attempts)))
            && (r.status.IsTemporaryFailure? ==>
                  reaction == Followed(idempotent, strategy, attempts, r.error, TemporaryFailure))
            && (r.status.IsSyncWriteInProgress? ==>
                  reaction == Followed(idempotent, strategy, attempts, r.error, SyncWriteInProgress))
            && (r.status.IsSyncWriteReCommitInProgress? ==>
                  reaction == Followed(idempotent, strategy, attempts, r.error, SyncWriteReCommitInProgress))
            && (r.status.IsLocked? && !unlock ==> reaction == Followed(idempotent, strategy, attempts, r.error, Locked))
            && (r.status.UnknownStatus? && r.retryIndicated ==>
                  reaction == Followed(idempotent, strategy, attempts, r.error, ErrorMapRetryIndicated))
            && (|| r.status.OtherStatus?
                || (r.status.UnknownStatus? && !r.retryIndicated)
                || (r.status.IsLocked? && unlock) ==>
                  reaction == if r.reason.DoNotRetry? then Callback(r.error)
                              else Followed(idempotent, strategy, attempts, r.error, r.reason))
  {
  }

  /** A timeout is ambiguous if the request could apply twice; a cancelled request goes on only if it is safe to. */
  lemma BrokenOff(idempotent: bool, unlock: bool, strategy: Option<Strategy>, attempts: nat, r: Response)
    ensures var reaction := React(idempotent, unlock, strategy, attempts, r);
            && (r.error.Aborted? ==> reaction == Callback(if idempotent then UnambiguousTimeout else AmbiguousTimeout))
            && (r.error.Canceled? && !idempotent && r.reason in {Unknown, SocketClosedWhileInFlight, DoNotRetry} ==>
                  reaction == Callback(Canceled))
            && (r.error.Canceled? && reaction.Reschedule? ==>
                  && reaction.reason == (if r.reason.DoNotRetry? then NodeNotAvailable else r.reason)
                  && reaction.delay == Delay(idempotent, strategy, attempts, reaction.reason) != 0)
            && (r.error.Canceled? && reaction.Callback? ==> !idempotent)
  {
  }

  /** A response is lost if and only if a resendable request is given no delay, for any strategy. */
  lemma LostExactlyWhen(idempotent: bool, unlock: bool, strategy: Option<Strategy>, attempts: nat, r: Response)
    ensures React(idempotent, unlock, strategy, attempts, r).Neither? <==>
              && Resendable(idempotent, r)
              && !AlwaysRetry(r.reason)
              && (strategy.None? || strategy.value(idempotent, attempts, ResendReason(r)) == 0)
  {
  }

  /** The strategy that gives up at once. */
  function FailFast(): Strategy {
    (idempotent: bool, attempts: nat, reason: Reason) => 0
  }

  /** It loses every idempotent request that is cancelled for a reason that is not always retried. */
  lemma FailFastLoses(unlock: bool, attempts: nat, r: Response)
    requires r.error.Canceled?
    ensures React(true, unlock, Some(FailFast()), attempts, r).Neither? <==> !AlwaysRetry(r.reason)
  {
    LostExactlyWhen(true, unlock, Some(FailFast()), attempts, r);
  }

  // ---- the life of a request ----

  datatype Place = Idle | Deferred | InFlight | BackingOff | Settled | Rejected | Lost

  /** What routing finds for a request. */
  datatype Route = NoSession | Stopped | Live

  class Request {
    const idempotent: bool
    const unlock: bool
    const strategy: Option<Strategy>
    var attempts: nat
    var reasons: set<Reason>
    var callbacks: seq<Error>
    var place: Place
    ghost var rescheduled: seq<Reason>

    ghost predicate Cautious() {
      forall n: nat, r: Reason :: strategy.Some? && strategy.value(false, n, r) != 0 ==> AllowsNonIdempotent(r)
    }

    ghost predicate Generous() {
      && strategy.Some?
      && forall b: bool, n: nat, r: Reason :: b || AllowsNonIdempotent(r) ==> strategy.value(b, n, r) != 0
    }

    /**
     Attempts and reasons record the reschedules; a request that could apply twice was rescheduled for
     safe reasons only; the callback is called at most once; until then the request is somewhere.
     */
    ghost predicate Valid()
      reads this
    {
      && attempts == |rescheduled|
      && (forall r :: r in reasons <==> r in rescheduled)
      && (Cautious() && !idempotent ==> forall r :: r in rescheduled ==> AlwaysRetry(r) || AllowsNonIdempotent(r))
      && |callbacks| <= 1
      && (place.Settled? ==> callbacks != [])
      && (Generous() ==> !place.Lost?)
    }

    constructor (idempotent: bool, unlock: bool, strategy: Option<Strategy>)
      ensures Valid() && place == Idle && callbacks == [] && attempts == 0 && rescheduled == []
      ensures this.idempotent == idempotent && this.unlock == unlock && this.strategy == strategy
    {
      this.idempotent := idempotent;
      this.unlock := unlock;
      this.strategy := strategy;
      this.attempts := 0;
      this.reasons := {};
      this.callbacks := [];
      this.place := Idle;
      this.rescheduled := [];
    }

    method TryCallback(error: Error)
      requires Valid()
      modifies `callbacks, `place
      ensures Valid() && place == Settled
      ensures callbacks == if old(callbacks) == [] then [error] else old(callbacks)
    {
      if callbacks == [] {
        callbacks := [error];
      }
      place := Settled;
    }

    /**
     The user cancels, or the deadline expires. A deferred command stays where it is. late says that the answer
     or the backoff timer cannot be called off any more: after a retry the session knows only the opaque of
     the request, and a handler that is queued already will run.
     */
    method Cancel(error: Error, late: bool)
      requires Valid()
      modifies `callbacks, `place
      ensures Valid() && callbacks == if old(callbacks) == [] then [error] else old(callbacks)
      ensures place == if old(callbacks) != [] || old(place).Deferred? || late then old(place) else Settled
    {
      if callbacks == [] {
        callbacks := [error];
        if !place.Deferred? && !late {
          place := Settled;
        }
      }
    }

    /** An attempt is recorded if and only if a delay is given. */
    method ShouldRetry(reason: Reason) returns (delay: int)
      modifies `attempts, `reasons
      ensures delay == Delay(idempotent, strategy, old(attempts), reason)
      ensures attempts == if delay != 0 then old(attempts) + 1 else old(attempts)
      ensures reasons == if delay != 0 then old(reasons) + {reason} else old(reasons)
    {
      if AlwaysRetry(reason) {
        delay := ControlledBackoff(attempts);
        RecordRetryAttempt(reason);
        return;
      }
      if strategy.None? {
        return 0;
      }
      delay := strategy.value(idempotent, attempts, reason);
      if delay == 0 {
        return;
      }
      RecordRetryAttempt(reason);
    }

    method RecordRetryAttempt(reason: Reason)
      modifies `attempts, `reasons
      ensures attempts == old(attempts) + 1 && reasons == old(reasons) + {reason}
    {
      attempts := attempts + 1;
      reasons := reasons + {reason};
    }

    /** The timer is armed here, after the attempt was recorded elsewhere: the two agree. */
    method BackoffAndRetry(reason: Reason) returns (retried: bool)
      requires Valid()
      modifies `attempts, `reasons, `rescheduled, `place
      ensures Valid()
      ensures retried <==> Delay(idempotent, strategy, old(attempts), reason) != 0
      ensures retried ==> place == BackingOff && rescheduled == old(rescheduled) + [reason]
      ensures !retried ==> place == old(place) && rescheduled == old(rescheduled)
    {
      var wait := ShouldRetry(reason);
      retried := wait != 0;
      if retried {
        place := BackingOff;
        rescheduled := rescheduled + [reason];
      }
    }

    lemma GenerousDelay(n: nat, reason: Reason)
      requires Generous() && (idempotent || AllowsNonIdempotent(reason))
      ensures Delay(idempotent, strategy, n, reason) != 0
    {
    }

    /** Whether the retry of a cancelled request is scheduled is not looked at. */
    method Resend(reason: Reason)
      requires Valid() && place == InFlight && (idempotent || AllowsNonIdempotent(reason))
      modifies `attempts, `reasons, `rescheduled, `place
      ensures Valid()
      ensures if Delay(idempotent, strategy, old(attempts), reason) != 0
              then place == BackingOff && rescheduled == old(rescheduled) + [reason]
              else place == Lost && rescheduled == old(rescheduled)
    {
      if Generous() {
        GenerousDelay(attempts, reason);
      }
      var retried := BackoffAndRetry(reason);
      if !retried {
        place := Lost;
      }
    }

    /** Exactly one of a callback and a reschedule, unless the reaction is neither. */
    method ResolveResponse(r: Response)
      requires Valid() && place == InFlight
      modifies `attempts, `reasons, `rescheduled, `place, `callbacks
      ensures Valid()
      ensures match React(idempotent, unlock, strategy, old(attempts), r)
                case Callback(e) => place == Settled && rescheduled == old(rescheduled) &&
                                    callbacks == (if old(callbacks) == [] then [e] else old(callbacks))
                case Reschedule(reason, _) => place == BackingOff && rescheduled == old(rescheduled) + [reason] &&
                                              callbacks == old(callbacks)
                case Neither => place == Lost && rescheduled == old(rescheduled) && callbacks == old(callbacks)
    {
      if r.error.Aborted? {
        TryCallback(if idempotent then UnambiguousTimeout else AmbiguousTimeout);
        return;
      }
      if r.error.Canceled? {
        if !idempotent && !AllowsNonIdempotent(r.reason) {
          TryCallback(r.error);
          return;
        }
        Resend(if r.reason.DoNotRetry? then NodeNotAvailable else r.reason);
        return;
      }
      var reason := Refined(unlock, r);
      if reason.DoNotRetry? {
        TryCallback(r.error);
        return;
      }
      var retried := BackoffAndRetry(reason);
      if !retried {
        TryCallback(r.error);
      }
    }

    /** The first dispatch, or the one after a wait for a configuration. */
    method DirectDispatch(closed: bool, configured: bool, route: Route)
      requires Valid() && (place == Idle || place == Deferred)
      modifies `attempts, `reasons, `rescheduled, `place, `callbacks
      ensures Valid()
      ensures var retried := !closed && configured && route.Stopped? &&
                             Delay(idempotent, strategy, old(attempts), NodeNotAvailable) != 0;
              && rescheduled == old(rescheduled) + (if retried then [NodeNotAvailable] else [])
              && callbacks == (if closed && old(callbacks) == [] then [NotAvailable] else old(callbacks))
              && place == (if closed then if old(callbacks) != [] || old(place).Deferred? then old(place) else Settled
                           else if !configured || route.NoSession? then Deferred
                           else if route.Live? then InFlight
                           else if retried then BackingOff else Rejected)
    {
      if closed {
        Cancel(NotAvailable, false);
        return;
      }
      if !configured || route.NoSession? {
        place := Deferred;
        return;
      }
      if route.Stopped? {
        var retried := BackoffAndRetry(NodeNotAvailable);
        if !retried {
          place := Rejected;
        }
        return;
      }
      place := InFlight;
    }

    /** The backoff timer fires. Whether the request has been called back is not looked at. */
    method DirectReQueue(route: Route, encodable: bool)
      requires Valid() && place == BackingOff
      modifies `attempts, `reasons, `rescheduled, `place, `callbacks
      ensures Valid()
      ensures var retried := route.Stopped? && Delay(idempotent, strategy, old(attempts), NodeNotAvailable) != 0;
              && rescheduled == old(rescheduled) + (if retried then [NodeNotAvailable] else [])
              && place == (if route.NoSession? then Deferred else if retried then BackingOff
                           else if route.Live? && encodable then InFlight else Settled)
      ensures callbacks == if place.Settled? && old(callbacks) == []
                           then [if route.Stopped? then NotAvailable else OtherError] else old(callbacks)
    {
      if route.NoSession? {
        place := Deferred;
      } else if route.Stopped? {
        var retried := BackoffAndRetry(NodeNotAvailable);
        if !retried {
          TryCallback(NotAvailable);
        }
      } else if !encodable {
        TryCallback(OtherError);
      } else {
        place := InFlight;
      }
    }
  }

  /**
   A request that is cancelled while its answer is on its way is called back, and is still sent again if and
   only if the answer asks for a retry and a session is found.
   */
  method CancelledThenAnswered(q: Request, error: Error, r: Response, route: Route, encodable: bool)
    requires q.Valid() && q.place == InFlight && q.callbacks == []
    modifies q
    ensures q.Valid() && q.callbacks == [error]
    ensures q.place == InFlight <==>
              React(q.idempotent, q.unlock, q.strategy, old(q.attempts), r).Reschedule? && route.Live? && encodable
  {
    q.Cancel(error, true);
    q.ResolveResponse(r);
    if q.place == BackingOff {
      q.DirectReQueue(route, encodable);
    }
  }

  /** The assumptions on strategies hold of the best-effort one, as far as its calculator allows. */
  lemma BestEffortStrategy(q: Request, calculator: Calculator)
    requires q.strategy == Some(BestEffort(calculator))
    ensures q.Cautious()
    ensures q.Generous() <==> forall n: nat :: calculator(n) != 0
  {
    if q.Generous() {
      forall n: nat ensures calculator(n) != 0 {
        assert q.strategy.value(true, n, DoNotRetry) == calculator(n);
      }
    }
  }

  /** So with the calculators provided no request is ever lost. */
  lemma ProvidedStrategiesLoseNothing(q: Request, minimum: int, maximum: int, factor: real)
    requires q.Valid()
    requires || q.strategy == Some(BestEffort((n: nat) => ControlledBackoff(n)))
             || q.strategy == Some(BestEffort((n: nat) => ExponentialBackoff(minimum, maximum, factor, n)))
    ensures !q.place.Lost?
  {
    var controlled: Calculator, exponential: Calculator :=
      (n: nat) => ControlledBackoff(n), (n: nat) => ExponentialBackoff(minimum, maximum, factor, n);
    BestEffortStrategy(q, if q.strategy == Some(BestEffort(controlled)) then controlled else exponential);
  }
}
