/** The circuit breaker: opens after `threshold` consecutive failures, refuses calls for
    `cooldown` seconds, then lets a probe through. */
module Circuits {
  import opened Options

  datatype Breaker = Breaker(failures: int, openedAt: Option<real>)

  datatype Policy = Policy(threshold: int, cooldown: real)

  const CLOSED := Breaker(0, None)

  predicate Allows(b: Breaker, p: Policy, now: real) {
    b.openedAt.None? || now - b.openedAt.value >= p.cooldown
  }

  /** Asking is not a pure question: past the cooldown it half-opens the breaker. */
  function Asked(b: Breaker, p: Policy, now: real): Breaker {
    if b.openedAt.Some? && Allows(b, p, now) then Breaker(p.threshold - 1, None) else b
  }

  function Succeeded(b: Breaker): Breaker { CLOSED }

  function Failed(b: Breaker, p: Policy, now: real): Breaker {
    Breaker(b.failures + 1, if b.failures + 1 >= p.threshold then Some(now) else b.openedAt)
  }

  class CircuitBreaker {
    const policy: Policy
    var failures: int
    var openedAt: Option<real>

    constructor (policy: Policy)
      ensures this.policy == policy && Value() == CLOSED
    {
      this.policy, failures, openedAt := policy, 0, None;
    }

    function Value(): Breaker
      reads this
    {
      Breaker(failures, openedAt)
    }

    method Available(now: real) returns (yes: bool)
      modifies this
      ensures yes == Allows(old(Value()), policy, now)
      ensures Value() == Asked(old(Value()), policy, now)
    {
      if openedAt == None {
        return true;
      }
      if now - openedAt.value >= policy.cooldown {
        openedAt := None;
        failures := policy.threshold - 1;
        return true;
      }
      yes := false;
    }

    method RecordSuccess()
      modifies this
      ensures Value() == Succeeded(old(Value()))
    {
      failures := 0;
      openedAt := None;
    }

    method RecordFailure(now: real)
      modifies this
      ensures Value() == Failed(old(Value()), policy, now)
    {
      failures := failures + 1;
      if failures >= policy.threshold {
        openedAt := Some(now);
      }
    }
  }

  // ---------------------------------------------------- every sequence of calls

  datatype Call = Ask(now: real) | Success | Failure(now: real)

  function After(b: Breaker, p: Policy, c: Call): Breaker {
    match c
    case Ask(now) => Asked(b, p, now)
    case Success => Succeeded(b)
    case Failure(now) => Failed(b, p, now)
  }

  function RunCalls(b: Breaker, p: Policy, calls: seq<Call>): Breaker {
    if calls == [] then b else After(RunCalls(b, p, calls[..|calls| - 1]), p, calls[|calls| - 1])
  }

  /** The breaker is open exactly when it has counted `threshold` failures. */
  predicate Consistent(b: Breaker, p: Policy) {
    b.openedAt.None? <==> b.failures < p.threshold
  }

  /** In every state any sequence of calls reaches (in any order, under any clock) the
      breaker is consistent, and this takes exactly a threshold of at least one. */
  lemma {:induction false} AlwaysConsistent(p: Policy, calls: seq<Call>)
    ensures p.threshold >= 1 ==> Consistent(RunCalls(CLOSED, p, calls), p)
    ensures p.threshold < 1 ==> !Consistent(RunCalls(CLOSED, p, []), p)
  {
    if calls == [] {
    } else {
      AlwaysConsistent(p, calls[..|calls| - 1]);
    }
  }

  /** A failure that reaches the threshold restarts the cooldown, also when the breaker was
      open before: calls are refused until the cooldown has passed since this failure. */
  lemma CooldownRestarts(b: Breaker, p: Policy, now: real, later: real)
    ensures b.failures >= p.threshold - 1 ==> (Allows(Failed(b, p, now), p, later) <==> later >= now + p.cooldown)
    ensures b.failures < p.threshold - 1 && b.openedAt == None ==> Allows(Failed(b, p, now), p, later)
    ensures Allows(Succeeded(b), p, later)
  {
  }

  /** The failures recorded since the last success or half-opening. */
  function TrailingFailures(calls: seq<Call>): nat {
    if calls == [] || calls[|calls| - 1].Success? then 0
    else if calls[|calls| - 1].Failure? then 1 + TrailingFailures(calls[..|calls| - 1])
    else TrailingFailures(calls[..|calls| - 1])
  }

  /** Only `threshold` consecutive failures open the breaker: while fewer were recorded
      since the last success it is closed and every call goes through. */
  lemma {:induction false} ClosedBelowThreshold(p: Policy, calls: seq<Call>)
    requires TrailingFailures(calls) < p.threshold
    ensures RunCalls(CLOSED, p, calls) == Breaker(TrailingFailures(calls), None)
  {
    if calls == [] {
    } else {
      var head := calls[..|calls| - 1];
      if !calls[|calls| - 1].Success? {
        ClosedBelowThreshold(p, head);
      }
    }
  }

  // ---------------------------------------------------- sequential use of a dead provider

  /** One caller's use of the breaker around a provider that fails: asked at one time
      and, if let through, failed at a later one. */
  datatype Attempt = Attempt(asked: real, failed: real)

  function AfterAttempt(b: Breaker, p: Policy, a: Attempt): Breaker {
    if Allows(b, p, a.asked) then Failed(Asked(b, p, a.asked), p, a.failed) else b
  }

  function RunAttempts(b: Breaker, p: Policy, attempts: seq<Attempt>): Breaker {
    if attempts == [] then b
    else AfterAttempt(RunAttempts(b, p, attempts[..|attempts| - 1]), p, attempts[|attempts| - 1])
  }

  /** How many of the attempts reached the provider. */
  function Tries(b: Breaker, p: Policy, attempts: seq<Attempt>): nat {
    if attempts == [] then 0
    else
      var head := attempts[..|attempts| - 1];
      Tries(b, p, head)
      + if Allows(RunAttempts(b, p, head), p, attempts[|attempts| - 1].asked) then 1 else 0
  }

  /** One call ends before the next begins, and the clock does not run backwards. */
  ghost predicate OneByOne(start: real, attempts: seq<Attempt>) {
    && (forall i :: 0 <= i < |attempts| ==> start <= attempts[i].asked <= attempts[i].failed)
    && (forall i :: 0 <= i < |attempts| - 1 ==> attempts[i].failed <= attempts[i + 1].asked)
  }

  /** The time `k` cooldowns take. */
  function Cooldowns(k: int, p: Policy): real { k as real * p.cooldown }

  /** The breaker has been tried `tries` times since `start`: below the threshold it has
      simply counted, and each try beyond it cost a full cooldown. */
  ghost predicate Paced(b: Breaker, p: Policy, tries: nat, start: real) {
    if tries < p.threshold then b == Breaker(tries, None)
    else
      && b.failures >= p.threshold
      && b.openedAt.Some?
      && b.openedAt.value >= start + Cooldowns(tries - p.threshold, p)
  }

  lemma AttemptPaced(b: Breaker, p: Policy, tries: nat, start: real, a: Attempt)
    requires p.threshold >= 1 && p.cooldown > 0.0 && start <= a.asked <= a.failed
    requires Paced(b, p, tries, start)
    ensures Paced(AfterAttempt(b, p, a), p, if Allows(b, p, a.asked) then tries + 1 else tries, start)
    ensures Allows(b, p, a.asked) && tries >= p.threshold
      ==> a.asked >= start + Cooldowns(tries + 1 - p.threshold, p)
  {
    OneMore(tries - p.threshold, p);
  }

  lemma StartPaced(p: Policy, start: real)
    requires p.threshold >= 1
    ensures Paced(CLOSED, p, 0, start)
  {
  }

  lemma OneMore(k: int, p: Policy)
    ensures Cooldowns(k + 1, p) == Cooldowns(k, p) + p.cooldown
    ensures Cooldowns(0, p) == 0.0
  {
  }

  lemma {:induction false} RunPaced(p: Policy, attempts: seq<Attempt>, start: real)
    requires p.threshold >= 1 && p.cooldown > 0.0 && OneByOne(start, attempts)
    ensures Paced(RunAttempts(CLOSED, p, attempts), p, Tries(CLOSED, p, attempts), start)
    ensures Tries(CLOSED, p, attempts) > p.threshold
      ==> attempts[|attempts| - 1].asked >= start + Cooldowns(Tries(CLOSED, p, attempts) - p.threshold, p)
  {
    hide Cooldowns, AfterAttempt, Allows, Paced;
    if attempts == [] {
      StartPaced(p, start);
    } else {
      var head, last := attempts[..|attempts| - 1], attempts[|attempts| - 1];
      RunPaced(p, head, start);
      AttemptPaced(RunAttempts(CLOSED, p, head), p, Tries(CLOSED, p, head), start, last);
      if head != [] {
        assert head[|head| - 1].failed <= last.asked;
      }
    }
  }

  lemma Cancel(q: real, k: real, c: real)
    requires c > 0.0 && q * c >= k * c
    ensures q >= k
  {
  }

  /** floor(span / cooldown) */
  function Periods(span: real, p: Policy): int
    requires p.cooldown > 0.0
  {
    (span / p.cooldown).Floor
  }

  lemma PeriodsGrow(x: real, y: real, p: Policy)
    requires 0.0 <= x <= y && p.cooldown > 0.0
    ensures 0 <= Periods(x, p) <= Periods(y, p)
  {
    Cancel(y / p.cooldown, x / p.cooldown, p.cooldown);
    Cancel(x / p.cooldown, 0.0, p.cooldown);
  }

  lemma FloorBound(k: nat, p: Policy, span: real)
    requires p.cooldown > 0.0 && span >= Cooldowns(k, p)
    ensures k <= Periods(span, p)
  {
    Cancel(span / p.cooldown, k as real, p.cooldown);
  }

  /** A provider that always fails is reached at most threshold + floor(T / cooldown)
      times within T seconds of sequential use. */
  lemma DeadProviderBound(p: Policy, attempts: seq<Attempt>, start: real)
    requires p.threshold >= 1 && p.cooldown > 0.0 && OneByOne(start, attempts) && attempts != []
    ensures Tries(CLOSED, p, attempts)
      <= p.threshold + Periods(attempts[|attempts| - 1].asked - start, p)
  {
    hide Cooldowns, Paced, Tries, RunAttempts, Periods;
    RunPaced(p, attempts, start);
    var tries, span := Tries(CLOSED, p, attempts), attempts[|attempts| - 1].asked - start;
    var extra := if tries > p.threshold then tries - p.threshold else 0;
    OneMore(0, p);
    FloorBound(extra, p, span);
  }

  /** The most impatient caller: it asks again the moment the breaker may let it. */
  function Eager(p: Policy, start: real, n: nat): (attempts: seq<Attempt>)
    requires p.threshold >= 1
    ensures |attempts| == n
  {
    if n == 0 then []
    else
      var t := start + Cooldowns(if n > p.threshold then n - p.threshold else 0, p);
      Eager(p, start, n - 1) + [Attempt(t, t)]
  }

  /** The breaker after `n` eager calls that all got through. */
  ghost predicate Pressed(b: Breaker, p: Policy, start: real, n: nat) {
    && (n < p.threshold ==> b == Breaker(n, None))
    && (n >= p.threshold ==> b.failures >= p.threshold && b.openedAt == Some(start + Cooldowns(n - p.threshold, p)))
  }

  lemma EagerStep(b: Breaker, p: Policy, start: real, n: nat)
    requires p.threshold >= 1 && n >= 1 && Pressed(b, p, start, n - 1)
    ensures var t := start + Cooldowns(if n > p.threshold then n - p.threshold else 0, p);
      Allows(b, p, t) && Pressed(AfterAttempt(b, p, Attempt(t, t)), p, start, n)
  {
    hide Cooldowns;
    OneMore(if n > p.threshold then n - 1 - p.threshold else 0, p);
  }

  lemma EagerLast(p: Policy, start: real, n: nat)
    requires p.threshold >= 1 && n >= 1
    ensures var t := start + Cooldowns(if n > p.threshold then n - p.threshold else 0, p);
      var head := Eager(p, start, n - 1); var b := RunAttempts(CLOSED, p, head);
      && RunAttempts(CLOSED, p, Eager(p, start, n)) == AfterAttempt(b, p, Attempt(t, t))
      && Tries(CLOSED, p, Eager(p, start, n)) == Tries(CLOSED, p, head) + if Allows(b, p, t) then 1 else 0
  {
    hide Cooldowns, AfterAttempt, Allows;
    assert Eager(p, start, n)[..n - 1] == Eager(p, start, n - 1);
  }

  lemma NoneEager(p: Policy, start: real)
    requires p.threshold >= 1
    ensures Tries(CLOSED, p, Eager(p, start, 0)) == 0 && Pressed(RunAttempts(CLOSED, p, Eager(p, start, 0)), p, start, 0)
  {
  }

  /** The bound is attained: `n` eager calls are `n` tries, the last of them made exactly
      n - threshold cooldowns after the first. */
  lemma {:induction false} BoundIsAttained(p: Policy, start: real, n: nat)
    requires p.threshold >= 1
    ensures Tries(CLOSED, p, Eager(p, start, n)) == n && Pressed(RunAttempts(CLOSED, p, Eager(p, start, n)), p, start, n)
  {
    hide Cooldowns, AfterAttempt, Allows, Tries, RunAttempts, Eager, Pressed;
    if n == 0 {
      NoneEager(p, start);
    } else {
      BoundIsAttained(p, start, n - 1);
      EagerLast(p, start, n);
      EagerStep(RunAttempts(CLOSED, p, Eager(p, start, n - 1)), p, start, n);
    }
  }

  /** The bound is for one caller at a time. Half-opening forgets that a probe is under
      way: past the cooldown any number of callers that ask before the first probe
      reports are all let through. */
  lemma {:induction false} ProbesAreNotCounted(b: Breaker, p: Policy, now: real, n: nat)
    requires b.openedAt.Some? && now - b.openedAt.value >= p.cooldown
    ensures Allows(RunCalls(b, p, seq(n, _ => Ask(now))), p, now)
    ensures n > 0 ==> RunCalls(b, p, seq(n, _ => Ask(now))).openedAt.None?
  {
    if n == 0 {
    } else {
      assert seq(n, _ => Ask(now))[..n - 1] == seq(n - 1, _ => Ask(now));
      ProbesAreNotCounted(b, p, now, n - 1);
    }
  }

  /** Exactly how far the bound fails for callers that overlap: once half-opened, the breaker
      lets every caller through until a failure is reported, however many ask and however
      long that takes; and the first failure reported opens it again unless a success came
      before it and the threshold is above one. */
  lemma {:induction false} PassUntilReport(b: Breaker, p: Policy, now: real, calls: seq<Call>)
    requires b.openedAt.Some? && Allows(b, p, now)
    requires forall i :: 0 <= i < |calls| ==> !calls[i].Failure?
    ensures var half := RunCalls(b, p, [Ask(now)] + calls);
      && (forall later :: Allows(half, p, later))
      && half == (if exists i :: 0 <= i < |calls| && calls[i].Success? then CLOSED else Breaker(p.threshold - 1, None))
      && forall t :: Failed(half, p, t).openedAt
           == if (forall i :: 0 <= i < |calls| ==> !calls[i].Success?) || p.threshold <= 1 then Some(t) else None
    decreases |calls|
  {
    var all := [Ask(now)] + calls;
    if calls == [] {
      assert all[..0] == [];
    } else {
      var n := |calls| - 1;
      PassUntilReport(b, p, now, calls[..n]);
      assert all[..|all| - 1] == [Ask(now)] + calls[..n];
      assert forall i :: 0 <= i < n ==> calls[..n][i] == calls[i];
    }
  }

  /** While open, the breaker refuses every caller and no question changes it. */
  lemma {:induction false} OpenRefuses(b: Breaker, p: Policy, calls: seq<Call>)
    requires b.openedAt.Some?
    requires forall i :: 0 <= i < |calls| ==> calls[i].Ask? && calls[i].now - b.openedAt.value < p.cooldown
    ensures RunCalls(b, p, calls) == b
    ensures forall i :: 0 <= i < |calls| ==> !Allows(RunCalls(b, p, calls[..i]), p, calls[i].now)
  {
    if calls == [] {
    } else {
      var head := calls[..|calls| - 1];
      OpenRefuses(b, p, head);
      forall i | 0 <= i < |calls| ensures !Allows(RunCalls(b, p, calls[..i]), p, calls[i].now) {
        if i < |head| {
          assert head[..i] == calls[..i] && head[i] == calls[i];
        }
      }
    }
  }
}
