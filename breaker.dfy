/** The one circuit breaker of views.py:14, `CircuitBreaker(fail_max=3,
    reset_timeout=60)`, that guards every upstream fetch (views.py:22). The
    library's behaviour is modelled as an explicit state machine over a clock
    `now` in seconds: a pure transition function, and a class whose fields the
    guarded call updates in place. */
module Breaker {
  import opened Market

  const FailMax := 3
  const ResetTimeout := 60

  datatype State = Closed | Open | HalfOpen

  datatype BreakerState = BreakerState(state: State, failures: nat, openedAt: nat)

  const Initial := BreakerState(Closed, 0, 0)

  /** The states reachable between calls: a closed breaker has fewer than
      `FailMax` consecutive failures, an open one at least that many, and
      half-open lasts only for the duration of a trial call. */
  predicate Valid(b: BreakerState) {
    && b.state != HalfOpen
    && (b.state == Closed ==> b.failures < FailMax)
    && (b.state == Open ==> b.failures >= FailMax)
  }

  /** Open, and the cool-down since opening has not elapsed. */
  predicate ShortCircuits(b: BreakerState, now: nat) {
    b.state == Open && now < b.openedAt + ResetTimeout
  }

  /** The outcome of one guarded call: what the caller sees, the breaker
      afterwards, and whether the wrapped upstream fetch ran. */
  datatype Call = Call(result: Result<Payload>, after: BreakerState, invoked: bool)

  /** One call through the breaker. `upstream` is what the wrapped fetch
      returns if it runs. */
  function Guarded(b: BreakerState, now: nat, upstream: Result<Payload>): (c: Call)
    ensures c.invoked <==> !ShortCircuits(b, now)
    ensures !c.invoked ==> c.result == Err(CircuitOpen) && c.after == b
    ensures c.invoked ==> c.result == upstream
    ensures c.invoked && upstream.Ok? ==> c.after.state == Closed && c.after.failures == 0
    ensures c.invoked && upstream.Err? ==>
      && c.after.failures == b.failures + 1
      && (c.after.state == Open <==> b.state != Closed || b.failures + 1 >= FailMax)
      && (c.after.state == Open ==> c.after.openedAt == now)
      && (c.after.state != Open ==> c.after.openedAt == b.openedAt)
    ensures c.after.state != HalfOpen
    ensures Valid(b) ==> Valid(c.after)
  {
    if ShortCircuits(b, now) then Call(Err(CircuitOpen), b, false)
    else
      var trial := if b.state == Open then b.(state := HalfOpen) else b;
      match upstream
      case Ok(_) => Call(upstream, BreakerState(Closed, 0, trial.openedAt), true)
      case Err(_) =>
        var n := trial.failures + 1;
        if trial.state == HalfOpen || n >= FailMax then Call(upstream, BreakerState(Open, n, now), true)
        else Call(upstream, trial.(failures := n), true)
  }

  /** `breaker.reset()`: closed, with a zero failure count. */
  function ResetState(b: BreakerState): (r: BreakerState)
    ensures Valid(r) && r.state == Closed && r.failures == 0
    ensures r.openedAt == b.openedAt
  {
    b.(state := Closed, failures := 0)
  }

  /** A call at time `now` through the breaker, with the fetch's outcome. */
  datatype Attempt = Attempt(now: nat, upstream: Result<Payload>)

  /** The breaker after a sequence of guarded calls. */
  function Run(b: BreakerState, attempts: seq<Attempt>): BreakerState
    decreases |attempts|
  {
    if attempts == [] then b
    else Run(Guarded(b, attempts[0].now, attempts[0].upstream).after, attempts[1..])
  }

  predicate AllFail(attempts: seq<Attempt>) {
    forall i :: 0 <= i < |attempts| ==> attempts[i].upstream.Err?
  }

  lemma {:induction false} FailuresAccumulate(b: BreakerState, attempts: seq<Attempt>)
    requires Valid(b) && AllFail(attempts)
    ensures Valid(Run(b, attempts))
    ensures Run(b, attempts).state == Open || Run(b, attempts).failures >= b.failures + |attempts|
    decreases |attempts|
  {
    if attempts != [] {
      var b1 := Guarded(b, attempts[0].now, attempts[0].upstream).after;
      assert AllFail(attempts[1..]) by {
        forall i | 0 <= i < |attempts| - 1 ensures attempts[1..][i].upstream.Err? {
          assert attempts[1..][i] == attempts[i + 1];
        }
      }
      FailuresAccumulate(b1, attempts[1..]);
    }
  }

  /** Whatever the breaker's state, `FailMax` consecutive failing calls,
      at any times, leave it open: shared by every caller, it does not count
      per symbol. */
  lemma ConsecutiveFailuresOpen(b: BreakerState, attempts: seq<Attempt>)
    requires Valid(b) && AllFail(attempts) && |attempts| >= FailMax
    ensures Run(b, attempts).state == Open
  {
    FailuresAccumulate(b, attempts);
  }

  /** While the cool-down after opening has not elapsed, every call is
      refused without running the fetch, and the breaker stays as it is. */
  lemma {:induction false} OpenWindowShortCircuits(b: BreakerState, attempts: seq<Attempt>)
    requires b.state == Open
    requires forall i :: 0 <= i < |attempts| ==> attempts[i].now < b.openedAt + ResetTimeout
    ensures Run(b, attempts) == b
    ensures forall i :: 0 <= i < |attempts| ==>
      Guarded(b, attempts[i].now, attempts[i].upstream) == Call(Err(CircuitOpen), b, false)
    decreases |attempts|
  {
    if attempts != [] {
      assert forall i :: 0 <= i < |attempts| - 1 ==> attempts[1..][i] == attempts[i + 1];
      OpenWindowShortCircuits(b, attempts[1..]);
    }
  }

  /** Once the cool-down has elapsed exactly one trial runs: its success
      closes the breaker, its failure re-opens it with the timer restarted. */
  lemma TrialAfterCoolDown(b: BreakerState, now: nat, upstream: Result<Payload>)
    requires Valid(b) && b.state == Open && now >= b.openedAt + ResetTimeout
    ensures var c := Guarded(b, now, upstream);
      && c.invoked
      && (upstream.Ok? ==> c.after.state == Closed && c.after.failures == 0)
      && (upstream.Err? ==> c.after.state == Open && c.after.openedAt == now
                            && ShortCircuits(c.after, now))
  {
  }

  /** The module-level breaker object of the source. */
  class CircuitBreaker {
    var state: State
    var failCounter: nat
    var openedAt: nat

    constructor ()
      ensures Snapshot() == Initial
    {
      state, failCounter, openedAt := Closed, 0, 0;
    }

    function Snapshot(): BreakerState
      reads this
    {
      BreakerState(state, failCounter, openedAt)
    }

    /** Runs the guarded fetch unless the breaker is open and cooling down;
        an open breaker past its cool-down first moves to half-open. */
    method Call(now: nat, upstream: Result<Payload>) returns (r: Result<Payload>)
      modifies this
      ensures Snapshot() == Guarded(old(Snapshot()), now, upstream).after
      ensures r == Guarded(old(Snapshot()), now, upstream).result
    {
      if state == Open && now < openedAt + ResetTimeout {
        return Err(CircuitOpen);
      }
      if state == Open {
        state := HalfOpen;
      }
      r := upstream;
      match upstream {
        case Ok(_) =>
          failCounter := 0;
          state := Closed;
        case Err(_) =>
          failCounter := failCounter + 1;
          if state == HalfOpen || failCounter >= FailMax {
            state := Open;
            openedAt := now;
          }
      }
    }

    method Reset()
      modifies this
      ensures Snapshot() == ResetState(old(Snapshot()))
    {
      state := Closed;
      failCounter := 0;
    }
  }
}
