/** A columnar query operation: its request, its retries, its deadline and its callback. */
module ColumnarQuery {
  import opened ColumnarErrors
  import opened Options

  /** Cancelling does not take back a handler that is queued because its timer has expired. */
  datatype Timer = Idle | Armed(at: int) | Queued

  function Cancelled(t: Timer): (r: Timer)
    ensures !r.Armed? && (r.Queued? <==> t.Queued?)
  {
    if t.Armed? then Idle else t
  }

  datatype Outcome = Rows | Failed(code: Option<Code>) | TimedOut | Canceled

  /** How the HTTP request ends. */
  datatype Response = BootstrapError | RequestTimeout | RequestError | Body

  class Query {
    var callback: bool
    var outcomes: seq<Outcome>
    var now: int
    var expiry: int
    var deadline: Timer
    var retry: Timer
    var cancelled: bool
    var pending: bool
    var requests: nat
    var streams: nat
    var attempts: nat
    var lastErrors: seq<Properties>

    /** The attempts in progress: a request, a response being read, or a wait for the next one. */
    ghost function Underway(): nat
      reads this
    {
      requests + streams + if retry.Idle? then 0 else 1
    }

    /**
     The callback was called at most once; while it was not, the deadline will call it; a retry is only
     awaited before the deadline and before cancellation; there is at most one attempt in progress.
     */
    ghost predicate Valid()
      reads this
    {
      && |outcomes| <= 1
      && (callback <==> outcomes == [])
      && (callback ==> !deadline.Idle?)
      && (deadline.Armed? ==> deadline.at == expiry)
      && (retry.Armed? ==> retry.at < expiry && !cancelled)
      && (cancelled ==> !callback)
      && Underway() <= 1
    }

    /** What later steps leave alone. */
    twostate predicate Kept()
      reads this
    {
      old(outcomes) <= outcomes && (old(cancelled) ==> cancelled) && expiry == old(expiry) && now == old(now)
    }

    /** The outcomes once the callback has been called, unless it had been before. */
    ghost function With(o: Outcome): seq<Outcome>
      reads this
    {
      if callback then outcomes + [o] else outcomes
    }

    /** Starting returns an error exactly when the callback was called with it. */
    constructor (start: int, timeout: nat, accepted: bool)
      ensures Valid() && expiry == start + timeout
      ensures callback <==> accepted
      ensures outcomes == (if accepted then [] else [Failed(None)]) && requests == (if accepted then 1 else 0)
      ensures deadline == (if accepted then Armed(expiry) else Idle) && !cancelled && attempts == 0 && now == start
    {
      callback, outcomes, cancelled, pending := true, [], false, false;
      now, expiry := start, start + timeout;
      deadline, retry := Armed(start + timeout), Idle;
      requests, streams, attempts, lastErrors := 0, 0, 0, [];
      new;
      var ok := Dispatch(accepted);
    }

    method InvokeCallback(o: Outcome)
      modifies `callback, `outcomes
      ensures !callback
      ensures outcomes == if old(callback) then old(outcomes) + [o] else old(outcomes)
    {
      if callback {
        callback := false;
        outcomes := outcomes + [o];
      }
    }

    method Dispatch(accepted: bool) returns (ok: bool)
      requires Valid() && Underway() == 0
      modifies `requests, `pending, `retry, `deadline, `callback, `outcomes
      ensures Valid() && Kept() && retry.Idle? && ok == accepted
      ensures (ok ==> callback == old(callback)) && (!ok ==> !callback)
      ensures outcomes == if ok then old(outcomes) else old(With(Failed(None)))
      ensures requests == old(requests) + (if ok then 1 else 0) && pending == (ok || old(pending))
      ensures deadline == if ok then old(deadline) else Cancelled(old(deadline))
    {
      if accepted {
        requests, pending := requests + 1, true;
        return true;
      }
      retry, deadline := Cancelled(retry), Cancelled(deadline);
      InvokeCallback(Failed(None));
      ok := false;
    }

    method Cancel()
      requires Valid()
      modifies `cancelled, `retry, `deadline, `pending, `callback, `outcomes
      ensures Valid() && Kept() && cancelled && !callback && !pending
      ensures outcomes == old(With(Canceled))
      ensures retry == Cancelled(old(retry)) && deadline == Cancelled(old(deadline))
    {
      cancelled := true;
      retry, deadline := Cancelled(retry), Cancelled(deadline);
      pending := false;
      InvokeCallback(Canceled);
    }

    method TriggerTimeout()
      requires Valid()
      modifies `cancelled, `retry, `deadline, `pending, `callback, `outcomes
      ensures Valid() && Kept() && cancelled && !callback && !pending
      ensures outcomes == old(With(TimedOut))
      ensures retry == Cancelled(old(retry)) && deadline == Cancelled(old(deadline))
    {
      InvokeCallback(TimedOut);
      Cancel();
    }

    /** A retry is awaited if and only if it comes before the deadline and the operation goes on. */
    method MaybeRetry(backoff: nat)
      requires Valid() && Underway() == 0
      modifies `cancelled, `retry, `deadline, `pending, `callback, `outcomes
      ensures Valid() && Kept()
      ensures outcomes == if old(cancelled) || retry.Armed? then old(outcomes) else old(With(TimedOut))
      ensures old(cancelled) || retry.Armed? ==> callback == old(callback) && deadline == old(deadline)
      ensures retry.Armed? <==> !old(cancelled) && now + backoff < expiry
      ensures retry.Armed? ==> retry.at == now + backoff
      ensures !old(cancelled) && !retry.Armed? ==> cancelled && !callback
    {
      if cancelled {
        return;
      }
      if now + backoff >= expiry {
        TriggerTimeout();
        return;
      }
      retry := Armed(now + backoff);
    }

    method HandleResponse(r: Response)
      requires Valid() && requests > 0
      modifies `requests, `streams, `cancelled, `retry, `deadline, `pending, `callback, `outcomes
      ensures Valid() && Kept() && requests == old(requests) - 1 && !pending
      ensures outcomes == if r.Body? then old(outcomes)
                          else old(With(if r.RequestTimeout? then TimedOut else Failed(None)))
      ensures streams == old(streams) + (if r.Body? then 1 else 0)
      ensures cancelled == (old(cancelled) || r.RequestTimeout?)
      ensures r.Body? ==> callback == old(callback)
      ensures !r.Body? ==> !callback
    {
      requests, pending := requests - 1, false;
      match r
      case BootstrapError => InvokeCallback(Failed(None));
      case RequestTimeout => TriggerTimeout();
      case RequestError => InvokeCallback(Failed(None));
      case Body => streams := streams + 1;
    }

    /** The start of the response has been read; broken says that it could not be. */
    method HandleHeader(broken: bool, status: nat, errors: Errors, backoff: nat)
      requires Valid() && streams > 0
      modifies `streams, `lastErrors, `cancelled, `retry, `deadline, `pending, `callback, `outcomes
      ensures Valid() && Kept() && streams == old(streams) - 1
      ensures broken ==> outcomes == old(With(Failed(None)))
      ensures !broken && (errors.NoErrors? || errors == List([])) ==> outcomes == old(With(Rows))
      ensures !broken && (errors.NotAnArray? || (errors.List? && !AllWellFormed(errors.entries))) ==>
                outcomes == old(With(Failed(Some(Generic))))
      ensures !broken && errors.List? && errors.entries != [] && AllWellFormed(errors.entries) ==>
                if !AllRetriable(errors.entries)
                then outcomes == old(With(Failed(Some(CodeOf(status, errors.entries)))))
                else && lastErrors == AllShown(errors.entries)
                     && (retry.Armed? <==> !old(cancelled) && now + backoff < expiry)
                     && (retry.Armed? ==> retry.at == now + backoff)
                     && outcomes == if old(cancelled) || retry.Armed? then old(outcomes) else old(With(TimedOut))
      ensures retry.Armed? ==> !broken && errors.List? && AllWellFormed(errors.entries) && AllRetriable(errors.entries)
      ensures callback ==> retry.Armed?
    {
      streams := streams - 1;
      if broken {
        InvokeCallback(Failed(None));
        return;
      }
      var v := ParseError(status, errors);
      if v.retriable {
        lastErrors := v.listed;
        MaybeRetry(backoff);
        return;
      }
      if v.error.Some? {
        InvokeCallback(Failed(v.error));
        return;
      }
      InvokeCallback(Rows);
    }

    method RetryFires(accepted: bool)
      requires Valid() && retry.Queued?
      modifies `retry, `attempts, `requests, `pending, `deadline, `callback, `outcomes
      ensures Valid() && Kept() && attempts == old(attempts) + 1 && retry.Idle?
      ensures outcomes == (if accepted then old(outcomes) else old(With(Failed(None))))
      ensures requests == old(requests) + if accepted then 1 else 0
    {
      retry := Idle;
      attempts := attempts + 1;
      var ok := Dispatch(accepted);
      if !ok {
        InvokeCallback(Failed(None));
      }
    }

    /** Whatever happened before, the callback has been called once this is over. */
    method DeadlineFires()
      requires Valid() && deadline.Queued?
      modifies `cancelled, `retry, `deadline, `pending, `callback, `outcomes
      ensures Valid() && Kept() && !callback && cancelled && !pending && deadline.Idle?
      ensures outcomes == old(With(TimedOut)) && retry == Cancelled(old(retry))
    {
      TriggerTimeout();
      deadline := Idle;
    }

    /** Time goes by, and the handlers of timers that have expired are queued. */
    method Tick(until: int)
      requires Valid() && now <= until
      modifies `now, `deadline, `retry
      ensures Valid() && now == until
      ensures callback && expiry <= until ==> deadline.Queued?
      ensures deadline == if old(deadline).Armed? && old(deadline).at <= until then Queued else old(deadline)
      ensures retry == if old(retry).Armed? && old(retry).at <= until then Queued else old(retry)
    {
      now := until;
      if deadline.Armed? && deadline.at <= now {
        deadline := Queued;
      }
      if retry.Armed? && retry.at <= now {
        retry := Queued;
      }
    }
  }
}
