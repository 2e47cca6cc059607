/** The model router: an ordered chain of providers, each behind its own breaker. */
module Router {
  import opened Options
  import opened Circuits

  datatype Provider = Provider(name: string, configured: bool)

  datatype Reply = Text(text: string) | ProviderError | OtherError

  /** What happens at one position of the chain during one call: the clock when its
      breaker is asked, its reply, and the clock when a failure is recorded. */
  datatype Turn = Turn(asked: real, reply: Reply, failed: real)

  datatype Outcome = Answer(text: string, provider: string) | AllFailed | Raised

  type Breakers = map<string, Breaker>

  ghost predicate Fits(chain: seq<Provider>, bs: Breakers, turns: seq<Turn>) {
    |turns| == |chain| && Named(chain, bs)
  }

  ghost predicate Named(chain: seq<Provider>, bs: Breakers) {
    forall i :: 0 <= i < |chain| ==> chain[i].name in bs
  }

  /** One call of the router, position by position. */
  ghost function Route(chain: seq<Provider>, bs: Breakers, p: Policy, turns: seq<Turn>): (r: (Breakers, Outcome))
    requires Fits(chain, bs, turns)
    ensures r.0.Keys == bs.Keys
  {
    if chain == [] then (bs, AllFailed)
    else
      var name, b, t := chain[0].name, bs[chain[0].name], turns[0];
      if !chain[0].configured || !Allows(b, p, t.asked) then Route(chain[1..], bs, p, turns[1..])
      else
        match t.reply
        case Text(text) => (bs[name := Succeeded(b)], Answer(text, name))
        case OtherError => (bs[name := Asked(b, p, t.asked)], Raised)
        case ProviderError =>
          Route(chain[1..], bs[name := Failed(Asked(b, p, t.asked), p, t.failed)], p, turns[1..])
  }

  /** One position of the chain. */
  lemma RouteAt(chain: seq<Provider>, bs: Breakers, p: Policy, turns: seq<Turn>, i: nat)
    requires Fits(chain, bs, turns) && i < |chain|
    ensures var name, b, t := chain[i].name, bs[chain[i].name], turns[i];
      Route(chain[i..], bs, p, turns[i..]) ==
      if !chain[i].configured || !Allows(b, p, t.asked) then Route(chain[i + 1..], bs, p, turns[i + 1..])
      else if t.reply.Text? then (bs[name := CLOSED], Answer(t.reply.text, name))
      else if t.reply.OtherError? then (bs[name := Asked(b, p, t.asked)], Raised)
      else Route(chain[i + 1..], bs[name := Failed(Asked(b, p, t.asked), p, t.failed)], p, turns[i + 1..])
  {
    assert chain[i..][0] == chain[i] && turns[i..][0] == turns[i];
    assert chain[i..][1..] == chain[i + 1..] && turns[i..][1..] == turns[i + 1..];
  }

  lemma RouteEnd(bs: Breakers, p: Policy)
    ensures Route([], bs, p, []) == (bs, AllFailed)
  {
  }

  lemma RefusedUnchanged(b: Breaker, p: Policy, now: real)
    requires !Allows(b, p, now)
    ensures Asked(b, p, now) == b
  {
  }

  // ---------------------------------------------------------------- the program

  class ModelRouter {
    const chain: seq<Provider>
    const policy: Policy
    const circuits: map<string, CircuitBreaker>

    ghost predicate Valid() {
      && (forall i :: 0 <= i < |chain| ==> chain[i].name in circuits)
      && (forall n :: n in circuits ==> circuits[n].policy == policy)
      && (forall m, n :: m in circuits && n in circuits && circuits[m] == circuits[n] ==> m == n)
    }

    ghost function Value(): Breakers
      reads circuits.Values
    {
      map n | n in circuits :: circuits[n].Value()
    }

    constructor (chain: seq<Provider>, policy: Policy)
      ensures Valid() && fresh(circuits.Values)
      ensures this.chain == chain && this.policy == policy
      ensures circuits.Keys == set i | 0 <= i < |chain| :: chain[i].name
      ensures forall n :: n in Value() ==> Value()[n] == CLOSED
    {
      var made: map<string, CircuitBreaker> := map[];
      for i := 0 to |chain|
        invariant made.Keys == set k | 0 <= k < i :: chain[k].name
        invariant forall n :: n in made ==> fresh(made[n])
        invariant forall n :: n in made ==> made[n].policy == policy && made[n].Value() == CLOSED
        invariant forall m, n :: m in made && n in made && made[m] == made[n] ==> m == n
      {
        var circuit := new CircuitBreaker(policy);
        made := made[chain[i].name := circuit];
      }
      this.chain, this.policy, circuits := chain, policy, made;
    }

    /** Touching one breaker changes one entry. */
    twostate lemma OneChanged(name: string)
      requires Valid() && name in circuits
      requires forall n :: n in circuits && n != name ==> unchanged(circuits[n])
      ensures Value() == old(Value())[name := circuits[name].Value()]
    {
    }

    lemma Entries()
      ensures Value().Keys == circuits.Keys
      ensures forall n :: n in circuits ==> Value()[n] == circuits[n].Value()
    {
    }

    /** Asks the providers in order; every breaker it passes records what happened. */
    method Generate(turns: seq<Turn>) returns (outcome: Outcome)
      requires Valid() && |turns| == |chain|
      modifies circuits.Values
      ensures (Value(), outcome) == Route(chain, old(Value()), policy, turns)
    {
      hide Route, Asked, Failed, Allows, Value, CircuitBreaker.Value;
      ghost var start := Value();
      Entries();
      assert chain[0..] == chain && turns[0..] == turns;
      for i := 0 to |chain|
        invariant Value().Keys == circuits.Keys
        invariant Route(chain[i..], Value(), policy, turns[i..]) == Route(chain, start, policy, turns)
      {
        var provider, turn := chain[i], turns[i];
        RouteAt(chain, Value(), policy, turns, i);
        if provider.configured {
          var circuit := circuits[provider.name];
          Entries();
          label L:
          var allowed := circuit.Available(turn.asked);
          if allowed {
            match turn.reply {
              case Text(text) =>
                circuit.RecordSuccess();
                OneChanged@L(provider.name);
                return Answer(text, provider.name);
              case ProviderError =>
                circuit.RecordFailure(turn.failed);
                OneChanged@L(provider.name);
              case OtherError =>
                OneChanged@L(provider.name);
                return Raised;
            }
          } else {
            RefusedUnchanged(old@L(circuit.Value()), policy, turn.asked);
            OneChanged@L(provider.name);
            assert Value() == old@L(Value());
          }
        }
      }
      RouteEnd(Value(), policy);
      outcome := AllFailed;
    }
  }

  // ---------------------------------------------------------------- who answers

  /** No name has two configured positions. */
  ghost predicate DistinctConfigured(chain: seq<Provider>) {
    forall i, j :: 0 <= i < j < |chain| && chain[i].configured && chain[j].configured ==> chain[i].name != chain[j].name
  }

  /** Configured, and its breaker (as it was before the call) lets it be tried. */
  ghost predicate Eligible(chain: seq<Provider>, bs: Breakers, p: Policy, turns: seq<Turn>, i: int)
    requires Fits(chain, bs, turns)
  {
    0 <= i < |chain| && chain[i].configured && Allows(bs[chain[i].name], p, turns[i].asked)
  }

  /** The chain does not go on past an eligible provider that answers or breaks. */
  ghost predicate Stops(chain: seq<Provider>, bs: Breakers, p: Policy, turns: seq<Turn>, i: int)
    requires Fits(chain, bs, turns)
  {
    Eligible(chain, bs, p, turns, i) && !turns[i].reply.ProviderError?
  }

  ghost predicate Reached(chain: seq<Provider>, bs: Breakers, p: Policy, turns: seq<Turn>, i: int)
    requires Fits(chain, bs, turns)
  {
    forall j :: 0 <= j < i ==> !Stops(chain, bs, p, turns, j)
  }

  /** What a call leaves in the breaker of position `i`. */
  ghost function BreakerAfter(chain: seq<Provider>, bs: Breakers, p: Policy, turns: seq<Turn>, i: int): Breaker
    requires Fits(chain, bs, turns) && 0 <= i < |chain|
  {
    var b, t := bs[chain[i].name], turns[i];
    if !Eligible(chain, bs, p, turns, i) || !Reached(chain, bs, p, turns, i) then b
    else
      match t.reply
      case Text(_) => CLOSED
      case OtherError => Asked(b, p, t.asked)
      case ProviderError => Failed(Asked(b, p, t.asked), p, t.failed)
  }

  /** The outcome is decided by the state before the call: the first configured, available
      provider that does not fail answers (or its exception escapes), and the call fails
      exactly when there is none. */
  ghost predicate FirstAnswers(chain: seq<Provider>, bs: Breakers, p: Policy, turns: seq<Turn>, outcome: Outcome)
    requires Fits(chain, bs, turns)
  {
    && (outcome.AllFailed? <==> Reached(chain, bs, p, turns, |chain|))
    && (forall i :: 0 <= i < |chain| && Stops(chain, bs, p, turns, i) && Reached(chain, bs, p, turns, i) ==>
      outcome == if turns[i].reply.Text? then Answer(turns[i].reply.text, chain[i].name) else Raised)
  }

  /** So are the breakers: those up to the provider that stops the call record exactly
      their own turns, and no other changes. */
  ghost predicate RoutesTo(chain: seq<Provider>, bs: Breakers, p: Policy, turns: seq<Turn>, r: (Breakers, Outcome))
    requires Fits(chain, bs, turns)
  {
    && r.0.Keys == bs.Keys && FirstAnswers(chain, bs, p, turns, r.1)
    && (forall i :: 0 <= i < |chain| && chain[i].configured ==> r.0[chain[i].name] == BreakerAfter(chain, bs, p, turns, i))
    && (forall n :: n in bs && (forall i :: 0 <= i < |chain| && chain[i].configured ==> chain[i].name != n) ==> r.0[n] == bs[n])
  }

  lemma {:induction false} FirstWorkingProvider(chain: seq<Provider>, bs: Breakers, p: Policy, turns: seq<Turn>)
    requires Fits(chain, bs, turns) && DistinctConfigured(chain)
    ensures RoutesTo(chain, bs, p, turns, Route(chain, bs, p, turns))
  {
    if chain == [] {
    } else {
      var name, b, t := chain[0].name, bs[chain[0].name], turns[0];
      if Stops(chain, bs, p, turns, 0) {
        StopsAtOnce(chain, bs, p, turns);
      } else {
        var next := if Eligible(chain, bs, p, turns, 0)
          then bs[name := Failed(Asked(b, p, t.asked), p, t.failed)] else bs;
        FirstWorkingProvider(chain[1..], next, p, turns[1..]);
        PassesOn(chain, bs, p, turns, next, Route(chain[1..], next, p, turns[1..]));
      }
    }
  }

  lemma StopsAtOnce(chain: seq<Provider>, bs: Breakers, p: Policy, turns: seq<Turn>)
    requires Fits(chain, bs, turns) && Stops(chain, bs, p, turns, 0)
    ensures FirstAnswers(chain, bs, p, turns, Route(chain, bs, p, turns).1)
    ensures DistinctConfigured(chain) ==> RoutesTo(chain, bs, p, turns, Route(chain, bs, p, turns))
  {
    forall i | 0 < i <= |chain| ensures !Reached(chain, bs, p, turns, i) {
    }
  }

  /** The first position leaves the breakers of all other configured positions alone. */
  ghost predicate Later(chain: seq<Provider>, bs: Breakers, next: Breakers) {
    && chain != [] && next.Keys == bs.Keys
    && forall n :: n in bs && (n != chain[0].name || !chain[0].configured) ==> next[n] == bs[n]
  }

  /** Position `i` of the rest of the chain is position `i + 1` of the chain. */
  lemma ShiftStops(chain: seq<Provider>, bs: Breakers, p: Policy, turns: seq<Turn>, next: Breakers, i: nat)
    requires Fits(chain, bs, turns) && DistinctConfigured(chain) && Later(chain, bs, next)
    ensures Eligible(chain, bs, p, turns, i + 1) == Eligible(chain[1..], next, p, turns[1..], i)
    ensures Stops(chain, bs, p, turns, i + 1) == Stops(chain[1..], next, p, turns[1..], i)
  {
    if i + 1 < |chain| {
      assert chain[1..][i] == chain[i + 1] && turns[1..][i] == turns[i + 1];
    }
  }

  /** The rest of the chain stops where the chain does. */
  ghost predicate StopsShifted(chain: seq<Provider>, bs: Breakers, p: Policy, turns: seq<Turn>, next: Breakers)
    requires Fits(chain, bs, turns) && chain != [] && next.Keys == bs.Keys
  {
    forall i :: 0 <= i < |chain| - 1 ==>
      Stops(chain, bs, p, turns, i + 1) == Stops(chain[1..], next, p, turns[1..], i)
  }

  lemma ShiftReached(chain: seq<Provider>, bs: Breakers, p: Policy, turns: seq<Turn>, next: Breakers, i: nat)
    requires Fits(chain, bs, turns) && chain != [] && i < |chain| && !Stops(chain, bs, p, turns, 0)
    requires next.Keys == bs.Keys && StopsShifted(chain, bs, p, turns, next)
    ensures Reached(chain, bs, p, turns, i + 1) == Reached(chain[1..], next, p, turns[1..], i)
  {
    hide Stops;
    if Reached(chain[1..], next, p, turns[1..], i) {
      forall j | 0 <= j < i + 1 ensures !Stops(chain, bs, p, turns, j) {
        if j > 0 {
          assert !Stops(chain[1..], next, p, turns[1..], j - 1);
        }
      }
    }
    if Reached(chain, bs, p, turns, i + 1) {
      forall j | 0 <= j < i ensures !Stops(chain[1..], next, p, turns[1..], j) {
        assert !Stops(chain, bs, p, turns, j + 1);
      }
    }
  }

  /** A call that passes its first provider ends as the call on the rest of the chain. */
  lemma OutcomePasses(chain: seq<Provider>, bs: Breakers, p: Policy, turns: seq<Turn>, next: Breakers, outcome: Outcome)
    requires Fits(chain, bs, turns) && chain != [] && !Stops(chain, bs, p, turns, 0)
    requires next.Keys == bs.Keys && StopsShifted(chain, bs, p, turns, next)
    requires FirstAnswers(chain[1..], next, p, turns[1..], outcome)
    ensures FirstAnswers(chain, bs, p, turns, outcome)
  {
    hide Reached, Stops, Eligible;
    var rest, later := chain[1..], turns[1..];
    ShiftReached(chain, bs, p, turns, next, |chain| - 1);
    forall i | 0 <= i < |chain| && Stops(chain, bs, p, turns, i) && Reached(chain, bs, p, turns, i)
      ensures outcome == if turns[i].reply.Text? then Answer(turns[i].reply.text, chain[i].name) else Raised
    {
      StopsInside(chain, bs, p, turns, i);
      assert Stops(chain, bs, p, turns, i - 1 + 1) == Stops(rest, next, p, later, i - 1);
      ShiftReached(chain, bs, p, turns, next, i - 1);
      assert rest[i - 1] == chain[i] && later[i - 1] == turns[i];
    }
  }

  lemma ShiftBreaker(chain: seq<Provider>, bs: Breakers, p: Policy, turns: seq<Turn>, next: Breakers, i: nat)
    requires Fits(chain, bs, turns) && DistinctConfigured(chain) && i + 1 < |chain| && chain[i + 1].configured
    requires !Stops(chain, bs, p, turns, 0) && Later(chain, bs, next) && StopsShifted(chain, bs, p, turns, next)
    ensures BreakerAfter(chain, bs, p, turns, i + 1) == BreakerAfter(chain[1..], next, p, turns[1..], i)
  {
    ShiftStops(chain, bs, p, turns, next, i);
    ShiftReached(chain, bs, p, turns, next, i);
    assert chain[1..][i] == chain[i + 1] && turns[1..][i] == turns[i + 1];
    assert next[chain[i + 1].name] == bs[chain[i + 1].name];
    hide Eligible, Reached, DistinctConfigured, Asked, Failed, StopsShifted, Later;
  }

  lemma BreakersPass(chain: seq<Provider>, bs: Breakers, p: Policy, turns: seq<Turn>, next: Breakers, after: Breakers)
    requires Fits(chain, bs, turns) && DistinctConfigured(chain) && !Stops(chain, bs, p, turns, 0)
    requires Later(chain, bs, next) && StopsShifted(chain, bs, p, turns, next) && after.Keys == bs.Keys
    requires forall i :: 0 <= i < |chain| - 1 && chain[1..][i].configured ==>
      after[chain[1..][i].name] == BreakerAfter(chain[1..], next, p, turns[1..], i)
    ensures forall i :: 0 < i < |chain| && chain[i].configured ==>
      after[chain[i].name] == BreakerAfter(chain, bs, p, turns, i)
  {
    hide BreakerAfter, StopsShifted, Later, DistinctConfigured, Stops;
    forall i | 0 < i < |chain| && chain[i].configured
      ensures after[chain[i].name] == BreakerAfter(chain, bs, p, turns, i)
    {
      ShiftBreaker(chain, bs, p, turns, next, i - 1);
      assert chain[1..][i - 1] == chain[i];
    }
  }

  lemma PassesOn(chain: seq<Provider>, bs: Breakers, p: Policy, turns: seq<Turn>, next: Breakers,
                 r: (Breakers, Outcome))
    requires Fits(chain, bs, turns) && DistinctConfigured(chain) && chain != [] && !Stops(chain, bs, p, turns, 0)
    requires next == bs[chain[0].name := BreakerAfter(chain, bs, p, turns, 0)]
    requires RoutesTo(chain[1..], next, p, turns[1..], r)
    ensures RoutesTo(chain, bs, p, turns, r)
  {
    Skipped(chain, bs, p, turns);
    assert Later(chain, bs, next);
    hide BreakerAfter, Reached, Stops, Eligible, FirstAnswers, Later;
    var rest := chain[1..];
    assert forall i :: 0 <= i < |rest| ==> rest[i] == chain[i + 1];
    forall i | 0 <= i < |chain| - 1
      ensures Stops(chain, bs, p, turns, i + 1) == Stops(rest, next, p, turns[1..], i)
    {
      ShiftStops(chain, bs, p, turns, next, i);
    }
    assert StopsShifted(chain, bs, p, turns, next);
    hide StopsShifted;
    OutcomePasses(chain, bs, p, turns, next, r.1);
    BreakersPass(chain, bs, p, turns, next, r.0);
    if chain[0].configured {
      assert forall i :: 0 <= i < |rest| && rest[i].configured ==> rest[i].name != chain[0].name;
    }
    hide DistinctConfigured;
    forall n | n in bs && (forall i :: 0 <= i < |chain| && chain[i].configured ==> chain[i].name != n) ensures r.0[n] == bs[n] {
      OthersUnchanged(chain, bs, next, n);
    }
  }

  lemma OthersUnchanged(chain: seq<Provider>, bs: Breakers, next: Breakers, n: string)
    requires Later(chain, bs, next) && n in bs
    requires forall i :: 0 <= i < |chain| && chain[i].configured ==> chain[i].name != n
    ensures next[n] == bs[n]
    ensures forall i :: 0 <= i < |chain| - 1 && chain[1..][i].configured ==> chain[1..][i].name != n
  {
  }

  lemma Skipped(chain: seq<Provider>, bs: Breakers, p: Policy, turns: seq<Turn>)
    requires Fits(chain, bs, turns) && chain != []
    ensures !chain[0].configured ==> BreakerAfter(chain, bs, p, turns, 0) == bs[chain[0].name]
  {
  }

  lemma StopsInside(chain: seq<Provider>, bs: Breakers, p: Policy, turns: seq<Turn>, i: int)
    requires Fits(chain, bs, turns) && !Stops(chain, bs, p, turns, 0)
    requires Stops(chain, bs, p, turns, i)
    ensures 0 < i < |chain| && turns[i].reply.ProviderError? == false
  {
  }

  // ---------------------------------------------------------------- repeated names

  /** The clock does not run backwards within the call, nor before what the breakers
      remember. */
  ghost predicate Timely(bs: Breakers, turns: seq<Turn>) {
    && (forall n, k :: n in bs && bs[n].openedAt.Some? && 0 <= k < |turns| ==> bs[n].openedAt.value <= turns[k].asked)
    && (forall k :: 0 <= k < |turns| ==> turns[k].asked <= turns[k].failed)
    && (forall j, k :: 0 <= j < k < |turns| ==> turns[j].failed <= turns[k].asked)
  }

  /** Every breaker is in a state that some use of it leads to. */
  ghost predicate Reachable(bs: Breakers, p: Policy) {
    forall n :: n in bs ==> exists calls :: RunCalls(CLOSED, p, calls) == bs[n]
  }

  /** Without a cooldown no breaker ever refuses, so sharing one changes nothing. */
  lemma {:induction false} NeverRefused(chain: seq<Provider>, bs: Breakers, p: Policy, turns: seq<Turn>)
    requires Fits(chain, bs, turns) && Timely(bs, turns) && p.cooldown <= 0.0
    ensures FirstAnswers(chain, bs, p, turns, Route(chain, bs, p, turns).1)
  {
    if chain == [] {
    } else if Stops(chain, bs, p, turns, 0) {
      StopsAtOnce(chain, bs, p, turns);
    } else {
      var name, b, t := chain[0].name, bs[chain[0].name], turns[0];
      var next := if chain[0].configured then bs[name := Failed(Asked(b, p, t.asked), p, t.failed)] else bs;
      TimelyNext(bs, turns, name, Asked(b, p, t.asked), p, next);
      NeverRefused(chain[1..], next, p, turns[1..]);
      forall i | 0 <= i < |chain| - 1
        ensures Stops(chain, bs, p, turns, i + 1) == Stops(chain[1..], next, p, turns[1..], i)
      {
        assert chain[1..][i] == chain[i + 1] && turns[1..][i] == turns[i + 1];
      }
      OutcomePasses(chain, bs, p, turns, next, Route(chain[1..], next, p, turns[1..]).1);
    }
  }

  lemma TimelyNext(bs: Breakers, turns: seq<Turn>, name: string, b: Breaker, p: Policy, next: Breakers)
    requires Timely(bs, turns) && turns != [] && name in bs && (b == bs[name] || b.openedAt.None?)
    requires next == bs || next == bs[name := Failed(b, p, turns[0].failed)]
    ensures Timely(next, turns[1..])
  {
    var rest := turns[1..];
    assert forall k :: 0 <= k < |rest| ==> rest[k] == turns[k + 1];
  }

  function Names(chain: seq<Provider>): set<string> {
    set i | 0 <= i < |chain| :: chain[i].name
  }

  /** Every breaker one failure short of opening. */
  function Brink(chain: seq<Provider>, p: Policy): Breakers {
    map n | n in Names(chain) :: Breaker(p.threshold - 1, None)
  }

  lemma BrinkReachable(chain: seq<Provider>, p: Policy)
    ensures Reachable(Brink(chain, p), p)
  {
    if p.threshold >= 1 {
      var calls := FailedTimes(p.threshold - 1);
      FailuresTrail(p.threshold - 1);
      ClosedBelowThreshold(p, calls);
      assert RunCalls(CLOSED, p, calls) == Breaker(p.threshold - 1, None);
    } else {
      var calls := [Failure(0.0), Ask(p.cooldown)];
      assert calls[..1] == [Failure(0.0)] && calls[..1][..0] == [];
      assert RunCalls(CLOSED, p, calls[..1][..0]) == CLOSED;
      assert RunCalls(CLOSED, p, calls[..1]) == Breaker(1, Some(0.0));
      assert RunCalls(CLOSED, p, calls) == Breaker(p.threshold - 1, None);
    }
  }

  function FailedTimes(n: nat): (calls: seq<Call>)
    ensures |calls| == n
  {
    if n == 0 then [] else FailedTimes(n - 1) + [Failure(0.0)]
  }

  lemma {:induction false} FailuresTrail(n: nat)
    ensures TrailingFailures(FailedTimes(n)) == n
  {
    if n == 0 {
    } else {
      FailuresTrail(n - 1);
      assert FailedTimes(n)[..n - 1] == FailedTimes(n - 1);
    }
  }

  /** A call at one instant in which only the provider at position `j` would answer. */
  function OneAnswer(n: nat, j: nat, now: real, text: string): (turns: seq<Turn>)
    ensures |turns| == n
  {
    seq(n, k => Turn(now, if k == j then Text(text) else ProviderError, now))
  }

  /** Every reply but failures comes from a provider whose breaker has just opened. */
  lemma {:induction false} AllRefused(chain: seq<Provider>, bs: Breakers, p: Policy, turns: seq<Turn>, now: real)
    requires Fits(chain, bs, turns) && p.cooldown > 0.0
    requires forall k :: 0 <= k < |turns| ==> turns[k].asked == turns[k].failed == now
    requires forall k :: 0 <= k < |turns| && !turns[k].reply.ProviderError? ==> bs[chain[k].name].openedAt == Some(now)
    ensures Route(chain, bs, p, turns).1 == AllFailed
  {
    if chain == [] {
    } else {
      var name, b, t := chain[0].name, bs[chain[0].name], turns[0];
      var rest, later := chain[1..], turns[1..];
      assert forall k :: 0 <= k < |rest| ==> rest[k] == chain[k + 1] && later[k] == turns[k + 1];
      var next := if chain[0].configured && Allows(b, p, now) then bs[name := Failed(Asked(b, p, now), p, now)] else bs;
      AllRefused(rest, next, p, later, now);
    }
  }

  lemma {:induction false} SharedBreaker(chain: seq<Provider>, bs: Breakers, p: Policy, turns: seq<Turn>, now: real, i: nat, j: nat)
    requires Fits(chain, bs, turns) && p.cooldown > 0.0 && i < j < |chain|
    requires chain[i].configured && chain[i].name == chain[j].name
    requires forall k :: 0 <= k < |turns| ==> turns[k].asked == turns[k].failed == now
    requires forall k :: 0 <= k < |turns| && k != j ==> turns[k].reply.ProviderError?
    requires bs[chain[j].name].openedAt == Some(now)
      || (bs[chain[j].name].openedAt.None? && bs[chain[j].name].failures >= p.threshold - 1)
    ensures Route(chain, bs, p, turns).1 == AllFailed
  {
    var name, b := chain[0].name, bs[chain[0].name];
    var rest, later := chain[1..], turns[1..];
    assert forall k :: 0 <= k < |rest| ==> rest[k] == chain[k + 1] && later[k] == turns[k + 1];
    var next := if chain[0].configured && Allows(b, p, now) then bs[name := Failed(Asked(b, p, now), p, now)] else bs;
    if i == 0 {
      assert next[name].openedAt == Some(now);
      AllRefused(rest, next, p, later, now);
    } else {
      SharedBreaker(rest, next, p, later, now, i - 1, j - 1);
    }
  }

  /** A name with two configured positions shares one breaker: a failure at the first
      closes the second within the same call, though the second would have answered. */
  lemma RepeatedNameSharesBreaker(chain: seq<Provider>, p: Policy, i: nat, j: nat, now: real, text: string)
    requires i < j < |chain| && chain[i].configured && chain[j].configured && chain[i].name == chain[j].name
    requires p.cooldown > 0.0
    ensures var bs, turns := Brink(chain, p), OneAnswer(|chain|, j, now, text);
      && Fits(chain, bs, turns) && Reachable(bs, p) && Timely(bs, turns)
      && Stops(chain, bs, p, turns, j) && Reached(chain, bs, p, turns, j)
      && Route(chain, bs, p, turns).1 == AllFailed
  {
    BrinkReachable(chain, p);
    hide Reachable;
    SharedBreaker(chain, Brink(chain, p), p, OneAnswer(|chain|, j, now, text), now, i, j);
  }

  /** "The first configured, available provider that does not fail answers", with
      availability as it was before the call. */
  ghost predicate KeepsOrder(chain: seq<Provider>, p: Policy) {
    forall bs, turns :: Fits(chain, bs, turns) && Reachable(bs, p) && Timely(bs, turns) ==>
      FirstAnswers(chain, bs, p, turns, Route(chain, bs, p, turns).1)
  }

  /** The rule holds for exactly the chains that configure no name twice; for every chain
      when there is no cooldown. */
  lemma OrderExact(chain: seq<Provider>, p: Policy)
    ensures KeepsOrder(chain, p) <==> DistinctConfigured(chain) || p.cooldown <= 0.0
  {
    hide Route, FirstAnswers, Reachable, Timely;
    forall bs, turns | Fits(chain, bs, turns) && Timely(bs, turns) && (DistinctConfigured(chain) || p.cooldown <= 0.0)
      ensures FirstAnswers(chain, bs, p, turns, Route(chain, bs, p, turns).1)
    {
      if DistinctConfigured(chain) {
        FirstWorkingProvider(chain, bs, p, turns);
      } else {
        NeverRefused(chain, bs, p, turns);
      }
    }
    if !DistinctConfigured(chain) && p.cooldown > 0.0 {
      var i, j :| 0 <= i < j < |chain| && chain[i].configured && chain[j].configured && chain[i].name == chain[j].name;
      RepeatedNameSharesBreaker(chain, p, i, j, 0.0, "");
      NotFirst(chain, Brink(chain, p), p, OneAnswer(|chain|, j, 0.0, ""), j);
    }
  }

  lemma NotFirst(chain: seq<Provider>, bs: Breakers, p: Policy, turns: seq<Turn>, j: nat)
    requires Fits(chain, bs, turns) && Stops(chain, bs, p, turns, j) && Reached(chain, bs, p, turns, j)
    ensures !FirstAnswers(chain, bs, p, turns, AllFailed)
  {
  }

  // ---------------------------------------------------------------- a dead provider in the chain

  /** The breakers after a run of calls, one after the other. */
  ghost function After(chain: seq<Provider>, start: Breakers, p: Policy, calls: seq<seq<Turn>>): (bs: Breakers)
    requires Named(chain, start) && (forall k :: 0 <= k < |calls| ==> |calls[k]| == |chain|)
    ensures bs.Keys == start.Keys
  {
    if calls == [] then start
    else Route(chain, After(chain, start, p, calls[..|calls| - 1]), p, calls[|calls| - 1]).0
  }

  /** The times one call asks the breaker of provider `n`, position by position. */
  ghost function AskedIn(chain: seq<Provider>, bs: Breakers, p: Policy, turns: seq<Turn>, n: string): seq<Attempt>
    requires Fits(chain, bs, turns)
  {
    if chain == [] then []
    else
      var name, b, t := chain[0].name, bs[chain[0].name], turns[0];
      if !chain[0].configured then AskedIn(chain[1..], bs, p, turns[1..], n)
      else
        (if name == n then [Attempt(t.asked, t.failed)] else []) +
        if !Allows(b, p, t.asked) then AskedIn(chain[1..], bs, p, turns[1..], n)
        else if !t.reply.ProviderError? then []
        else AskedIn(chain[1..], bs[name := Failed(Asked(b, p, t.asked), p, t.failed)], p, turns[1..], n)
  }

  /** How often one call reaches provider `n` itself. */
  ghost function ContactsIn(chain: seq<Provider>, bs: Breakers, p: Policy, turns: seq<Turn>, n: string): nat
    requires Fits(chain, bs, turns)
  {
    if chain == [] then 0
    else
      var name, b, t := chain[0].name, bs[chain[0].name], turns[0];
      if !chain[0].configured || !Allows(b, p, t.asked) then ContactsIn(chain[1..], bs, p, turns[1..], n)
      else
        (if name == n then 1 else 0) +
        if !t.reply.ProviderError? then 0
        else ContactsIn(chain[1..], bs[name := Failed(Asked(b, p, t.asked), p, t.failed)], p, turns[1..], n)
  }

  ghost function AskedOf(chain: seq<Provider>, start: Breakers, p: Policy, calls: seq<seq<Turn>>, n: string): seq<Attempt>
    requires Named(chain, start) && (forall k :: 0 <= k < |calls| ==> |calls[k]| == |chain|)
  {
    if calls == [] then []
    else
      var head, last := calls[..|calls| - 1], calls[|calls| - 1];
      AskedOf(chain, start, p, head, n) + AskedIn(chain, After(chain, start, p, head), p, last, n)
  }

  /** How often a run of the router reaches provider `n` itself. */
  ghost function Contacts(chain: seq<Provider>, start: Breakers, p: Policy, calls: seq<seq<Turn>>, n: string): nat
    requires Named(chain, start) && (forall k :: 0 <= k < |calls| ==> |calls[k]| == |chain|)
  {
    if calls == [] then 0
    else
      var head, last := calls[..|calls| - 1], calls[|calls| - 1];
      Contacts(chain, start, p, head, n) + ContactsIn(chain, After(chain, start, p, head), p, last, n)
  }

  /** Provider `n` never answers. */
  ghost predicate Dead(chain: seq<Provider>, turns: seq<Turn>, n: string) {
    && |turns| == |chain|
    && forall i :: 0 <= i < |chain| && chain[i].configured && chain[i].name == n ==> turns[i].reply.ProviderError?
  }

  /** Seen from provider `n`, the call runs from `from` to `to` and the clock does not run
      backwards. */
  ghost predicate Ordered(chain: seq<Provider>, turns: seq<Turn>, n: string, from: real, to: real)
    requires |turns| == |chain|
  {
    if chain == [] then from <= to
    else if chain[0].configured && chain[0].name == n then
      from <= turns[0].asked <= turns[0].failed && Ordered(chain[1..], turns[1..], n, turns[0].failed, to)
    else Ordered(chain[1..], turns[1..], n, from, to)
  }

  /** The calls follow one another: call `k` runs from `clock[k]` to `clock[k + 1]`. */
  ghost predicate InTurn(chain: seq<Provider>, calls: seq<seq<Turn>>, n: string, clock: seq<real>) {
    && |clock| == |calls| + 1
    && forall k :: 0 <= k < |calls| ==>
         |calls[k]| == |chain| && Dead(chain, calls[k], n) && Ordered(chain, calls[k], n, clock[k], clock[k + 1])
  }

  lemma {:induction false} AttemptsAppend(b: Breaker, p: Policy, x: seq<Attempt>, y: seq<Attempt>)
    ensures RunAttempts(b, p, x + y) == RunAttempts(RunAttempts(b, p, x), p, y)
    ensures Tries(b, p, x + y) == Tries(b, p, x) + Tries(RunAttempts(b, p, x), p, y)
    decreases |y|
  {
    hide AfterAttempt, Allows;
    if y == [] {
      assert x + y == x;
    } else {
      var head := y[..|y| - 1];
      AttemptsAppend(b, p, x, head);
      assert (x + y)[..|x + y| - 1] == x + head;
    }
  }

  lemma OneAttempt(b: Breaker, p: Policy, a: Attempt)
    ensures RunAttempts(b, p, [a]) == AfterAttempt(b, p, a)
    ensures Tries(b, p, [a]) == if Allows(b, p, a.asked) then 1 else 0
  {
    assert [a][..0] == [];
  }

  /** Attempts one after the other, from `from` to `to`. */
  ghost predicate Spans(from: real, to: real, attempts: seq<Attempt>) {
    from <= to && OneByOne(from, attempts) && forall i :: 0 <= i < |attempts| ==> attempts[i].failed <= to
  }

  lemma SpansAppend(from: real, mid: real, to: real, x: seq<Attempt>, y: seq<Attempt>)
    requires Spans(from, mid, x) && Spans(mid, to, y)
    ensures Spans(from, to, x + y)
  {
    var all := x + y;
    forall i | 0 <= i < |all| - 1 ensures all[i].failed <= all[i + 1].asked {
      if i + 1 < |x| {
        assert x[i].failed <= x[i + 1].asked;
      } else if i >= |x| {
        assert y[i - |x|].failed <= y[i - |x| + 1].asked;
      } else {
        assert x[i].failed <= mid <= y[0].asked;
      }
    }
  }

  lemma {:induction false} OrderedGrows(chain: seq<Provider>, turns: seq<Turn>, n: string, from: real, to: real)
    requires |turns| == |chain| && Ordered(chain, turns, n, from, to)
    ensures from <= to
  {
    if chain == [] {
    } else if chain[0].configured && chain[0].name == n {
      OrderedGrows(chain[1..], turns[1..], n, turns[0].failed, to);
    } else {
      OrderedGrows(chain[1..], turns[1..], n, from, to);
    }
  }

  /** The breakers when the call goes on past a provider. */
  ghost function Passed(bs: Breakers, p: Policy, q: Provider, t: Turn): (next: Breakers)
    requires q.name in bs
    ensures next.Keys == bs.Keys
  {
    if q.configured && Allows(bs[q.name], p, t.asked)
    then bs[q.name := Failed(Asked(bs[q.name], p, t.asked), p, t.failed)] else bs
  }

  ghost predicate StopsHere(bs: Breakers, p: Policy, q: Provider, t: Turn)
    requires q.name in bs
  {
    q.configured && Allows(bs[q.name], p, t.asked) && !t.reply.ProviderError?
  }

  /** What the functions of a call say when its first provider stops it, and when not. */
  lemma FirstStops(chain: seq<Provider>, bs: Breakers, p: Policy, turns: seq<Turn>, n: string)
    requires Fits(chain, bs, turns) && chain != [] && StopsHere(bs, p, chain[0], turns[0]) && chain[0].name != n && n in bs
    ensures Route(chain, bs, p, turns).0[n] == bs[n]
    ensures AskedIn(chain, bs, p, turns, n) == [] && ContactsIn(chain, bs, p, turns, n) == 0
  {
  }

  lemma FirstPasses(chain: seq<Provider>, bs: Breakers, p: Policy, turns: seq<Turn>, n: string)
    requires Fits(chain, bs, turns) && chain != [] && !StopsHere(bs, p, chain[0], turns[0]) && n in bs
    ensures var rest, later, next := chain[1..], turns[1..], Passed(bs, p, chain[0], turns[0]);
      var own := chain[0].configured && chain[0].name == n;
      var a := Attempt(turns[0].asked, turns[0].failed);
      && Fits(rest, next, later)
      && next[n] == (if own then AfterAttempt(bs[n], p, a) else bs[n])
      && Route(chain, bs, p, turns) == Route(rest, next, p, later)
      && AskedIn(chain, bs, p, turns, n) == (if own then [a] else []) + AskedIn(rest, next, p, later, n)
      && ContactsIn(chain, bs, p, turns, n)
         == (if own && Allows(bs[n], p, a.asked) then 1 else 0) + ContactsIn(rest, next, p, later, n)
  {
    var rest, later := chain[1..], turns[1..];
    assert forall k :: 0 <= k < |rest| ==> rest[k] == chain[k + 1] && later[k] == turns[k + 1];
    hide Failed, Asked, Allows;
    var next := Passed(bs, p, chain[0], turns[0]);
    assert [] + AskedIn(rest, next, p, later, n) == AskedIn(rest, next, p, later, n);
  }

  lemma DeadRest(chain: seq<Provider>, turns: seq<Turn>, n: string)
    requires Dead(chain, turns, n) && chain != []
    ensures Dead(chain[1..], turns[1..], n)
    ensures chain[0].configured && chain[0].name == n ==> turns[0].reply.ProviderError?
  {
    var rest, later := chain[1..], turns[1..];
    assert forall k :: 0 <= k < |rest| ==> rest[k] == chain[k + 1] && later[k] == turns[k + 1];
  }

  lemma NoAttempts(b: Breaker, p: Policy, from: real, to: real)
    requires from <= to
    ensures Spans(from, to, []) && RunAttempts(b, p, []) == b && Tries(b, p, []) == 0
  {
  }

  lemma OneSpans(from: real, a: Attempt)
    requires from <= a.asked <= a.failed
    ensures Spans(from, a.failed, [a])
  {
  }

  /** One call uses a dead provider's breaker as sequential attempts, whether or not the
      chain lists the name once. */
  lemma {:induction false} CallUsesBreaker(chain: seq<Provider>, bs: Breakers, p: Policy, turns: seq<Turn>, n: string,
                                           from: real, to: real)
    requires Fits(chain, bs, turns) && Dead(chain, turns, n) && Ordered(chain, turns, n, from, to) && n in bs
    ensures var attempts := AskedIn(chain, bs, p, turns, n);
      && Spans(from, to, attempts)
      && Route(chain, bs, p, turns).0[n] == RunAttempts(bs[n], p, attempts)
      && ContactsIn(chain, bs, p, turns, n) == Tries(bs[n], p, attempts)
  {
    hide RunAttempts, Tries, Spans, Passed, Allows, AfterAttempt, Asked, Failed, Dead;
    OrderedGrows(chain, turns, n, from, to);
    NoAttempts(bs[n], p, from, to);
    if chain == [] {
    } else if StopsHere(bs, p, chain[0], turns[0]) {
      DeadRest(chain, turns, n);
      FirstStops(chain, bs, p, turns, n);
    } else {
      DeadRest(chain, turns, n);
      FirstPasses(chain, bs, p, turns, n);
      var rest, later, next := chain[1..], turns[1..], Passed(bs, p, chain[0], turns[0]);
      hide Route, AskedIn, ContactsIn;
      if chain[0].configured && chain[0].name == n {
        var a := Attempt(turns[0].asked, turns[0].failed);
        CallUsesBreaker(rest, next, p, later, n, a.failed, to);
        var others := AskedIn(rest, next, p, later, n);
        OneSpans(from, a);
        OneAttempt(bs[n], p, a);
        SpansAppend(from, a.failed, to, [a], others);
        AttemptsAppend(bs[n], p, [a], others);
      } else {
        CallUsesBreaker(rest, next, p, later, n, from, to);
        var others := AskedIn(rest, next, p, later, n);
        assert [] + others == others;
      }
    }
  }

  /** To its breaker, a dead provider in the chain is a dead provider used sequentially. */
  lemma {:induction false} RouterUsesBreaker(chain: seq<Provider>, start: Breakers, p: Policy,
                                             calls: seq<seq<Turn>>, n: string, clock: seq<real>)
    requires Named(chain, start) && n in start && InTurn(chain, calls, n, clock)
    ensures var attempts := AskedOf(chain, start, p, calls, n);
      && Spans(clock[0], clock[|calls|], attempts)
      && After(chain, start, p, calls)[n] == RunAttempts(start[n], p, attempts)
      && Contacts(chain, start, p, calls, n) == Tries(start[n], p, attempts)
  {
    hide Route, RunAttempts, Tries, Spans, AskedIn, ContactsIn, Dead, Ordered;
    if calls == [] {
      NoAttempts(start[n], p, clock[0], clock[0]);
    } else {
      var m := |calls| - 1;
      var head, last := calls[..m], calls[m];
      RouterUsesBreaker(chain, start, p, head, n, clock[..m + 1]);
      var bs, before := After(chain, start, p, head), AskedOf(chain, start, p, head, n);
      CallUsesBreaker(chain, bs, p, last, n, clock[m], clock[m + 1]);
      var own := AskedIn(chain, bs, p, last, n);
      SpansAppend(clock[0], clock[m], clock[m + 1], before, own);
      AttemptsAppend(start[n], p, before, own);
    }
  }

  /** However the other providers behave and however often the chain lists it, a provider
      that always fails is contacted at most threshold + floor(T / cooldown) times in T
      seconds of sequential use of the router. */
  lemma DeadProviderInChain(chain: seq<Provider>, start: Breakers, p: Policy,
                            calls: seq<seq<Turn>>, n: string, clock: seq<real>)
    requires Named(chain, start) && n in start && InTurn(chain, calls, n, clock)
    requires start[n] == CLOSED && p.threshold >= 1 && p.cooldown > 0.0
    ensures Contacts(chain, start, p, calls, n) <= p.threshold + Periods(clock[|calls|] - clock[0], p)
  {
    hide AskedOf, Contacts, After, RunAttempts, Periods, Tries, Dead, Ordered;
    RouterUsesBreaker(chain, start, p, calls, n, clock);
    var attempts, begin, end := AskedOf(chain, start, p, calls, n), clock[0], clock[|calls|];
    if attempts == [] {
      NoAttempts(CLOSED, p, begin, end);
      PeriodsGrow(0.0, end - begin, p);
    } else {
      var last := attempts[|attempts| - 1];
      DeadProviderBound(p, attempts, begin);
      PeriodsGrow(last.asked - begin, end - begin, p);
    }
  }
}
