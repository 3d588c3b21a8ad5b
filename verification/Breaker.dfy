/** The circuit breaker of a scheduled entry, and how often a failing entry is tried. */
module Breaker {

  const MINUTE := 60_000_000_000
  const MAX_BACKOFF := 15 * MINUTE
  const TRIP_AFTER := 3

  datatype Circuit = Circuit(failures: nat, open: bool, openedAt: int, attempts: nat)

  function Pow2(n: nat): nat {
    if n == 0 then 1 else 2 * Pow2(n - 1)
  }

  lemma {:induction false} Pow2Grows(m: nat, n: nat)
    requires m <= n
    ensures 1 <= Pow2(m) <= Pow2(n)
  {
    if m < n { Pow2Grows(m, n - 1); } else if m > 0 { Pow2Grows(m - 1, m - 1); }
  }

  /** The backoff of an attempt: it doubles from one minute and stops at fifteen. */
  function Backoff(attempt: nat): int {
    if Pow2(attempt) * MINUTE < MAX_BACKOFF then Pow2(attempt) * MINUTE else MAX_BACKOFF
  }

  predicate Allows(c: Circuit, now: int) {
    !c.open || now - c.openedAt >= Backoff(c.attempts)
  }

  function Succeeded(c: Circuit): Circuit {
    if c.open then Circuit(0, false, c.openedAt, 0) else c.(failures := 0)
  }

  function Failed(c: Circuit, now: int): Circuit {
    if c.open then Circuit(c.failures + 1, true, now, c.attempts + 1)
    else if c.failures + 1 >= TRIP_AFTER then Circuit(c.failures + 1, true, now, 0)
    else c.(failures := c.failures + 1)
  }

  /** The loop that doubles the backoff computes min(2^attempt, 15) minutes for every attempt. */
  method CalculateBackoff(attempt: nat) returns (backoff: int)
    ensures backoff == Backoff(attempt)
  {
    backoff := MINUTE;
    var i := 0;
    while i < attempt && backoff < MAX_BACKOFF
      invariant 0 <= i <= attempt && backoff == Pow2(i) * MINUTE
    {
      backoff := backoff * 2;
      i := i + 1;
    }
    Pow2Grows(i, attempt);
    if backoff > MAX_BACKOFF {
      backoff := MAX_BACKOFF;
    }
  }

  class EntryBreaker {
    var failures: nat
    var open: bool
    var openedAt: int
    var backoffAttempts: nat

    function State(): Circuit
      reads this
    {
      Circuit(failures, open, openedAt, backoffAttempts)
    }

    constructor ()
      ensures State() == Circuit(0, false, 0, 0)
    {
      failures, open, openedAt, backoffAttempts := 0, false, 0, 0;
    }

    method Allow(now: int) returns (allowed: bool)
      ensures allowed == Allows(State(), now)
    {
      if !open {
        return true;
      }
      var backoff := CalculateBackoff(backoffAttempts);
      return now - openedAt >= backoff;
    }

    method RecordSuccess()
      modifies this
      ensures State() == Succeeded(old(State()))
    {
      failures := 0;
      if open {
        open := false;
        backoffAttempts := 0;
      }
    }

    method RecordFailure(now: int)
      modifies this
      ensures State() == Failed(old(State()), now)
    {
      failures := failures + 1;
      if open {
        openedAt := now;
        backoffAttempts := backoffAttempts + 1;
        return;
      }
      if failures >= TRIP_AFTER {
        open := true;
        openedAt := now;
        backoffAttempts := 0;
      }
    }
  }

  /** A circuit that opened at a time, and the trials since: each one started and then failed. */
  datatype Trials = Tripped(failures: nat, at: int) | Tried(prev: Trials, start: int, failed: int)

  function CircuitAfter(t: Trials): Circuit {
    match t
    case Tripped(failures, at) => Circuit(failures, true, at, 0)
    case Tried(prev, _, failed) => Failed(CircuitAfter(prev), failed)
  }

  /** Each trial was allowed, and it failed no earlier than it started. */
  predicate ValidTrials(t: Trials) {
    t.Tried? ==> ValidTrials(t.prev) && Allows(CircuitAfter(t.prev), t.start) && t.failed >= t.start
  }

  function Count(t: Trials): nat {
    if t.Tripped? then 0 else Count(t.prev) + 1
  }

  function OpenedFirst(t: Trials): int {
    if t.Tripped? then t.at else OpenedFirst(t.prev)
  }

  lemma BackoffLadder()
    ensures Backoff(0) == MINUTE && Backoff(1) == 2 * MINUTE && Backoff(2) == 4 * MINUTE && Backoff(3) == 8 * MINUTE
    ensures forall n: nat :: n >= 4 ==> Backoff(n) == MAX_BACKOFF
  {
    assert Pow2(1) == 2 && Pow2(2) == 4 && Pow2(3) == 8 && Pow2(4) == 16;
    forall n: nat | n >= 4 ensures Backoff(n) == MAX_BACKOFF {
      Pow2Grows(4, n);
    }
  }

  /** The ladder of the earliest possible starts: 1, 3, 7, then every 15 minutes. */
  lemma {:induction false} TrialLadder(t: Trials)
    requires ValidTrials(t)
    ensures CircuitAfter(t).open && CircuitAfter(t).attempts == Count(t)
    ensures
      var minutes := match Count(t) case 0 => 0 case 1 => 1 case 2 => 3 case 3 => 7 case n => 15 * (n - 3);
      var earliest := OpenedFirst(t) + minutes * MINUTE;
      CircuitAfter(t).openedAt >= earliest && (t.Tried? ==> t.start >= earliest)
  {
    if t.Tried? {
      TrialLadder(t.prev);
      BackoffLadder();
    }
  }

  /** An entry that always fails is tried at most 3 + T/15 times in the first T minutes after it trips. */
  lemma TrialsBounded(t: Trials, minutes: nat)
    requires ValidTrials(t) && t.Tried? && t.start <= OpenedFirst(t) + minutes * MINUTE
    ensures Count(t) <= 3 + minutes / 15
  {
    TrialLadder(t);
    if Count(t) >= 4 {
      assert 15 * (Count(t) - 3) * MINUTE <= minutes * MINUTE;
      assert 15 * (Count(t) - 3) <= minutes;
    }
  }

  // ---- what the outcomes of an entry come to ----

  /** The outcomes of an entry, the last one outermost. */
  datatype Outcomes = Fresh | Success(prev: Outcomes) | Failure(prev: Outcomes, at: int)

  function CircuitOf(o: Outcomes): Circuit {
    match o
    case Fresh => Circuit(0, false, 0, 0)
    case Success(prev) => Succeeded(CircuitOf(prev))
    case Failure(prev, at) => Failed(CircuitOf(prev), at)
  }

  /** How many failures came since the last success. */
  function Streak(o: Outcomes): nat {
    if o.Failure? then Streak(o.prev) + 1 else 0
  }

  /**
    The circuit depends on the failures since the last success alone: it is open from the third of them
    on, since the last, and every further one is a step of the ladder.
  */
  lemma {:induction false} CircuitExact(o: Outcomes)
    ensures var c := CircuitOf(o);
      && c.failures == Streak(o) && (c.open <==> Streak(o) >= 3)
      && (c.open ==> o.Failure? && c.openedAt == o.at && c.attempts == Streak(o) - 3)
      && (!c.open ==> c.attempts == 0)
  {
    if !o.Fresh? { CircuitExact(o.prev); }
  }

  /**
    When an entry may run: always with fewer than three failures since the last success, and else once
    1, 2, 4, 8 and then 15 minutes have passed since the last failure.
  */
  lemma AllowedExactly(o: Outcomes, now: int)
    ensures Allows(CircuitOf(o), now) <==>
      (Streak(o) < 3 ||
       (o.Failure? &&
        now - o.at >= (match Streak(o) case 3 => 1 case 4 => 2 case 5 => 4 case 6 => 8 case _ => 15) * MINUTE))
  {
    CircuitExact(o);
    BackoffLadder();
  }
}
