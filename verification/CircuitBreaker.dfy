/** The circuit breaker: a failure count that wraps at 32 bits, and the time of the last failure. */
module CircuitBreaker {
  import opened Text

  const U32: nat := 0x1_0000_0000

  datatype Breaker = Breaker(failures: nat, lastFailureAt: nat, maxFails: nat, timeoutMs: nat)

  function SaturatingSub(a: nat, b: nat): nat {
    if a < b then 0 else a - b
  }

  predicate IsOpen(b: Breaker, now: nat) {
    b.failures >= b.maxFails && SaturatingSub(now, b.lastFailureAt) < b.timeoutMs
  }

  function Failed(b: Breaker, now: nat): Breaker {
    b.(failures := (b.failures + 1) % U32, lastFailureAt := now)
  }

  function Succeeded(b: Breaker): Breaker {
    b.(failures := 0)
  }

  function Fresh(maxFails: nat, timeoutSecs: nat): Breaker {
    Breaker(0, 0, maxFails, timeoutSecs * 1000)
  }

  /** The atomic fields, one call at a time. */
  class Counter {
    var failures: nat
    var lastFailureAt: nat
    const maxFails: nat
    const timeoutMs: nat

    constructor (maxFails: nat, timeoutSecs: nat)
      ensures Value() == Fresh(maxFails, timeoutSecs)
    {
      failures, lastFailureAt := 0, 0;
      this.maxFails, this.timeoutMs := maxFails, timeoutSecs * 1000;
    }

    function Value(): Breaker
      reads this
    {
      Breaker(failures, lastFailureAt, maxFails, timeoutMs)
    }

    method IsOpenAt(now: nat) returns (open: bool)
      ensures open == IsOpen(Value(), now)
    {
      if failures < maxFails {
        return false;
      }
      if SaturatingSub(now, lastFailureAt) >= timeoutMs {
        return false;
      }
      return true;
    }

    method RecordFailure(now: nat)
      modifies this
      ensures Value() == Failed(old(Value()), now)
    {
      failures := (failures + 1) % U32;
      lastFailureAt := now;
    }

    method RecordSuccess()
      modifies this
      ensures Value() == Succeeded(old(Value()))
    {
      failures := 0;
    }
  }

  // ---- What the two fields remember of the history ----------------------------------------

  datatype Outcome = Success | Failure(at: nat)

  function After(b: Breaker, o: Outcome): Breaker {
    match o
    case Success => Succeeded(b)
    case Failure(at) => Failed(b, at)
  }

  function Replay(b: Breaker, history: seq<Outcome>): Breaker {
    if |history| == 0 then b else After(Replay(b, history[..|history| - 1]), history[|history| - 1])
  }

  /** Failures since the last success. */
  function Streak(history: seq<Outcome>): nat {
    if |history| == 0 || history[|history| - 1].Success? then 0
    else Streak(history[..|history| - 1]) + 1
  }

  function LastFailure(history: seq<Outcome>): Option<nat> {
    if |history| == 0 then None
    else
      match history[|history| - 1]
      case Failure(at) => Some(at)
      case Success => LastFailure(history[..|history| - 1])
  }

  lemma {:induction false} ReplayRemembers(maxFails: nat, timeoutSecs: nat, history: seq<Outcome>)
    ensures
      var b := Replay(Fresh(maxFails, timeoutSecs), history);
      && b == Breaker(Streak(history) % U32, LastFailure(history).GetOr(0), maxFails, timeoutSecs * 1000)
      && (Streak(history) > 0 ==> LastFailure(history).Some?)
  {
    if |history| > 0 {
      var init := history[..|history| - 1];
      ReplayRemembers(maxFails, timeoutSecs, init);
    }
  }

  /** After any history with fewer than 2^32 failures in a row, the breaker is open exactly when the
      failures since the last success have reached the limit and the last failure is younger than
      the timeout. */
  lemma OpenIffRecentStreak(maxFails: nat, timeoutSecs: nat, history: seq<Outcome>, now: nat)
    requires maxFails >= 1 && Streak(history) < U32
    ensures
      IsOpen(Replay(Fresh(maxFails, timeoutSecs), history), now) <==>
      && Streak(history) >= maxFails
      && LastFailure(history).Some?
      && SaturatingSub(now, LastFailure(history).value) < timeoutSecs * 1000
  {
    ReplayRemembers(maxFails, timeoutSecs, history);
  }
}
