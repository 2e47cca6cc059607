/** The plan-act-observe loop, in its two drivers: the in-process loop that runs
    each batch concurrently, and the durable workflow that runs it one call at a
    time. Both follow one specification over the keyed state. */
module Loop {
  import opened Options
  import opened State
  import opened Planner
  import opened Tools
  import opened Concurrency
  import opened Gather

  datatype Phase = Plan | Act

  /** One line of the audit trail. `call` is the tool with its parameters, which the reason
      and the outcome of the step are about; a stop makes no call. */
  datatype TraceStep = TraceStep(step: nat, iteration: nat, phase: Phase, action: string, call: Option<LedgerAction>, ok: bool)

  /** The outside world: the reply to the `j`-th call of iteration `it`, and
      whether the wall-clock budget is exhausted when iteration `it` begins. */
  datatype World = World(reply: (nat, nat) -> Reply, late: nat -> bool) {
    function Replies(it: nat, n: nat): (r: seq<Reply>)
      ensures |r| == n && forall j :: 0 <= j < n ==> r[j] == reply(it, j)
    {
      seq(n, j requires 0 <= j < n => reply(it, j))
    }
  }

  function ToolName(a: LedgerAction): string {
    match a
    case RunDetections => "run_detections"
    case FetchEmail => "fetch_email_context"
    case ExtractIocs => "extract_iocs"
    case EnrichIocs => "enrich_iocs"
    case Detonate(_) => "detonate_attachment"
    case HuntEdr(_) => "hunt_edr"
  }

  /** The part of a plan the tool-call budget still covers. */
  function Affordable<T>(plan: seq<T>, budget: Budget, calls: nat): (r: seq<T>)
    ensures r <= plan
    ensures |r| > 0 ==> calls + |r| <= budget.maxToolCalls
    ensures calls + |plan| <= budget.maxToolCalls ==> r == plan
  {
    if calls + |plan| > budget.maxToolCalls
    then plan[..if budget.maxToolCalls - calls < 0 then 0 else budget.maxToolCalls - calls]
    else plan
  }

  function ActStep(step: nat, it: nat, a: LedgerAction, ok: bool): TraceStep {
    TraceStep(step, it, Act, ToolName(a), Some(a), ok)
  }

  function ActSteps(actions: seq<LedgerAction>, oks: seq<bool>, first: nat, it: nat): (r: seq<TraceStep>)
    requires |actions| == |oks|
    ensures |r| == |actions|
  {
    seq(|actions|, j requires 0 <= j < |actions| =>
      ActStep(first + j, it, actions[j], oks[j]))
  }

  datatype Progress = Progress(ledger: Ledger, calls: nat, trace: seq<TraceStep>)

  function Stop(trace: seq<TraceStep>, it: nat): seq<TraceStep> {
    trace + [TraceStep(|trace| + 1, it, Plan, "stop", None, false)]
  }

  lemma SequentialLength(l: Ledger, frames: seq<LedgerFrame>)
    ensures |Sequential(l, frames).1| == |frames|
    decreases |frames|
  {
    if frames == [] {
    } else {
      SequentialLength(Complete(l, frames[0]).0, frames[1..]);
    }
  }

  function Round(l: Ledger, plan: seq<LedgerAction>, replies: seq<Reply>): (r: (Ledger, seq<bool>))
    requires |plan| == |replies|
    ensures |r.1| == |plan|
  {
    SequentialLength(l, Launch(plan, replies));
    Sequential(l, Launch(plan, replies))
  }

  /** The loop over the keyed state from iteration `it` on. */
  function Iterate(p: Progress, world: World, budget: Budget, it: nat): Progress
    decreases budget.maxIterations + 1 - it
  {
    if it > budget.maxIterations then p
    else if world.late(it) then p.(trace := Stop(p.trace, it))
    else
      var plan := LedgerPlan(p.ledger);
      var batch := Affordable(plan, budget, p.calls);
      if plan == [] then p
      else if batch == [] then p.(trace := Stop(p.trace, it))
      else
        var (next, oks) := Round(p.ledger, batch, world.Replies(it, |batch|));
        Iterate(Progress(next, p.calls + |batch|, p.trace + ActSteps(batch, oks, |p.trace| + 1, it)), world, budget, it + 1)
  }

  lemma IterateActs(p: Progress, world: World, budget: Budget, it: nat, batch: seq<LedgerAction>,
                    next: Ledger, oks: seq<bool>)
    requires it <= budget.maxIterations && !world.late(it)
    requires batch == Affordable(LedgerPlan(p.ledger), budget, p.calls) && batch != []
    requires (next, oks) == Sequential(p.ledger, Launch(batch, world.Replies(it, |batch|))) && |oks| == |batch|
    ensures Iterate(p, world, budget, it)
         == Iterate(Progress(next, p.calls + |batch|, p.trace + ActSteps(batch, oks, |p.trace| + 1, it)),
                    world, budget, it + 1)
  {
    hide LedgerPlan, Sequential;
    assert Round(p.ledger, batch, world.Replies(it, |batch|)) == (next, oks);
  }

  lemma IterateStops(p: Progress, world: World, budget: Budget, it: nat)
    ensures it > budget.maxIterations ==> Iterate(p, world, budget, it) == p
    ensures it <= budget.maxIterations ==>
      && (world.late(it) ==> Iterate(p, world, budget, it) == p.(trace := Stop(p.trace, it)))
      && (!world.late(it) && LedgerPlan(p.ledger) == [] ==> Iterate(p, world, budget, it) == p)
      && (!world.late(it) && LedgerPlan(p.ledger) != [] && Affordable(LedgerPlan(p.ledger), budget, p.calls) == [] ==>
            Iterate(p, world, budget, it) == p.(trace := Stop(p.trace, it)))
  {
    hide LedgerPlan, Sequential, Round;
  }

  // ---------------------------------------------------------------- what the loop does

  /** Iteration `it` leads from `p` to `q`: it makes the plan's first calls, one step for
      each, as many as the plan has and the budget still has room for. */
  ghost predicate Acted(p: Progress, q: Progress, world: World, budget: Budget, it: nat) {
    var plan, m, n := LedgerPlan(p.ledger), q.calls - p.calls, |p.trace|;
    && it <= budget.maxIterations && !world.late(it)
    && 0 < m <= |plan| && q.calls <= budget.maxToolCalls && (m < |plan| ==> q.calls == budget.maxToolCalls)
    && p.trace <= q.trace && |q.trace| == n + m
    && var (next, oks) := Sequential(p.ledger, Launch(plan[..m], world.Replies(it, m)));
       && q.ledger == next && |oks| == m
       && forall j :: 0 <= j < m ==> StepIs(q.trace, n + j, it, plan[j], oks[j])
  }

  ghost predicate StepIs(trace: seq<TraceStep>, i: nat, it: nat, call: LedgerAction, ok: bool) {
    i < |trace| && trace[i] == TraceStep(i + 1, it, Act, ToolName(call), Some(call), ok)
  }

  /** The loop ends at `p`: out of iterations or with nothing planned, and otherwise with a
      stop, the clock or the calls being used up. */
  ghost predicate Ended(p: Progress, end: Progress, world: World, budget: Budget, it: nat) {
    var plan := LedgerPlan(p.ledger);
    if it > budget.maxIterations then end == p
    else if !world.late(it) && plan == [] then end == p
    else
      && (world.late(it) || p.calls >= budget.maxToolCalls)
      && end == p.(trace := p.trace + [TraceStep(|p.trace| + 1, it, Plan, "stop", None, false)])
  }

  ghost predicate RunsTo(p: Progress, end: Progress, world: World, budget: Budget, it: nat)
    decreases budget.maxIterations + 1 - it
  {
    || Ended(p, end, world, budget, it)
    || (it <= budget.maxIterations && exists q :: Acted(p, q, world, budget, it) && RunsTo(q, end, world, budget, it + 1))
  }

  /** The state after iteration `it`, if it acts. */
  function Next(p: Progress, world: World, budget: Budget, it: nat): Progress {
    var batch := Affordable(LedgerPlan(p.ledger), budget, p.calls);
    var (next, oks) := Round(p.ledger, batch, world.Replies(it, |batch|));
    Progress(next, p.calls + |batch|, p.trace + ActSteps(batch, oks, |p.trace| + 1, it))
  }

  lemma NextActs(p: Progress, world: World, budget: Budget, it: nat)
    requires it <= budget.maxIterations && !world.late(it) && LedgerPlan(p.ledger) != [] && p.calls < budget.maxToolCalls
    ensures Acted(p, Next(p, world, budget, it), world, budget, it)
  {
    hide LedgerPlan, Sequential, ToolName;
    var plan, next := LedgerPlan(p.ledger), Next(p, world, budget, it);
    var batch := Affordable(plan, budget, p.calls);
    var oks := Round(p.ledger, batch, world.Replies(it, |batch|)).1;
    assert batch == plan[..|batch|];
    forall j | 0 <= j < |batch| ensures StepIs(next.trace, |p.trace| + j, it, plan[j], oks[j]) {
      assert next.trace[|p.trace| + j] == ActSteps(batch, oks, |p.trace| + 1, it)[j];
    }
  }

  lemma ActedOnce(p: Progress, q: Progress, r: Progress, world: World, budget: Budget, it: nat)
    requires Acted(p, q, world, budget, it) && Acted(p, r, world, budget, it)
    ensures q == r
  {
    hide LedgerPlan, Sequential, ToolName, Launch;
    var plan, m, n := LedgerPlan(p.ledger), q.calls - p.calls, |p.trace|;
    assert r.calls - p.calls == m;
    var oks := Sequential(p.ledger, Launch(plan[..m], world.Replies(it, m))).1;
    forall i | 0 <= i < |q.trace| ensures q.trace[i] == r.trace[i] {
      if i >= n {
        assert StepIs(q.trace, n + (i - n), it, plan[i - n], oks[i - n]);
        assert StepIs(r.trace, n + (i - n), it, plan[i - n], oks[i - n]);
      }
    }
  }

  lemma ActedIs(p: Progress, q: Progress, world: World, budget: Budget, it: nat)
    requires it <= budget.maxIterations && !world.late(it)
    ensures Acted(p, q, world, budget, it)
      <==> LedgerPlan(p.ledger) != [] && p.calls < budget.maxToolCalls && q == Next(p, world, budget, it)
  {
    hide Acted, Next, LedgerPlan;
    if LedgerPlan(p.ledger) == [] || p.calls >= budget.maxToolCalls {
      NotActed(p, q, world, budget, it);
    } else {
      NextActs(p, world, budget, it);
      if Acted(p, q, world, budget, it) {
        ActedOnce(p, q, Next(p, world, budget, it), world, budget, it);
      }
    }
  }

  /** The loop's specification is that relation. */
  lemma {:induction false} IterateIs(p: Progress, end: Progress, world: World, budget: Budget, it: nat)
    ensures RunsTo(p, end, world, budget, it) <==> end == Iterate(p, world, budget, it)
    decreases budget.maxIterations + 1 - it
  {
    hide LedgerPlan, Sequential, Round, ActSteps, Acted, Next;
    IterateStops(p, world, budget, it);
    if it > budget.maxIterations || world.late(it) || LedgerPlan(p.ledger) == [] || p.calls >= budget.maxToolCalls {
      forall q ensures !Acted(p, q, world, budget, it) {
        NotActed(p, q, world, budget, it);
      }
    } else {
      var next := Next(p, world, budget, it);
      IterateNext(p, world, budget, it);
      IterateIs(next, end, world, budget, it + 1);
      forall q ensures Acted(p, q, world, budget, it) <==> q == next {
        ActedIs(p, q, world, budget, it);
      }
      assert Acted(p, next, world, budget, it) && !Ended(p, end, world, budget, it);
    }
  }

  lemma NotActed(p: Progress, q: Progress, world: World, budget: Budget, it: nat)
    requires it > budget.maxIterations || world.late(it) || LedgerPlan(p.ledger) == [] || p.calls >= budget.maxToolCalls
    ensures !Acted(p, q, world, budget, it)
  {
    hide LedgerPlan, Sequential;
  }

  lemma IterateNext(p: Progress, world: World, budget: Budget, it: nat)
    requires it <= budget.maxIterations && !world.late(it)
    ensures LedgerPlan(p.ledger) != [] && p.calls < budget.maxToolCalls ==>
      Iterate(p, world, budget, it) == Iterate(Next(p, world, budget, it), world, budget, it + 1)
  {
    hide LedgerPlan, Round, ActSteps;
  }

  /** How a finished loop can have ended: with a stop only if the clock or the calls were used
      up and there was still work, without one only if there was none or no iteration left. */
  ghost predicate EndsRight(end: Progress, world: World, budget: Budget) {
    var n := |end.trace|;
    if n > 0 && end.trace[n - 1].phase.Plan?
    then world.late(end.trace[n - 1].iteration) || (end.calls >= budget.maxToolCalls && LedgerPlan(end.ledger) != [])
    else LedgerPlan(end.ledger) == [] || budget.maxIterations == if n == 0 then 0 else end.trace[n - 1].iteration
  }

  /** The last step of the trace is of the iteration before. */
  predicate UpTo(trace: seq<TraceStep>, it: nat) {
    if trace == [] then it == 1
    else trace[|trace| - 1].phase.Act? && trace[|trace| - 1].iteration + 1 == it
  }

  lemma {:induction false} LoopEndsRight(p: Progress, world: World, budget: Budget, it: nat)
    requires UpTo(p.trace, it) && it <= budget.maxIterations + 1
    ensures EndsRight(Iterate(p, world, budget, it), world, budget)
    decreases budget.maxIterations + 1 - it
  {
    hide LedgerPlan, Round, Iterate, Sequential, RunsTo, Acted;
    var end := Iterate(p, world, budget, it);
    IterateIs(p, end, world, budget, it);
    RunsStep(p, end, world, budget, it);
    if !Ended(p, end, world, budget, it) {
      var q :| Acted(p, q, world, budget, it) && RunsTo(q, end, world, budget, it + 1);
      IterateIs(q, end, world, budget, it + 1);
      ActedUpTo(p, q, world, budget, it);
      LoopEndsRight(q, world, budget, it + 1);
    }
  }

  lemma RunsStep(p: Progress, end: Progress, world: World, budget: Budget, it: nat)
    requires RunsTo(p, end, world, budget, it)
    ensures Ended(p, end, world, budget, it)
      || (it <= budget.maxIterations && exists q :: Acted(p, q, world, budget, it) && RunsTo(q, end, world, budget, it + 1))
  {
    hide Acted, Ended;
  }

  lemma ActedUpTo(p: Progress, q: Progress, world: World, budget: Budget, it: nat)
    requires Acted(p, q, world, budget, it)
    ensures UpTo(q.trace, it + 1)
  {
    hide LedgerPlan, Sequential, ToolName;
    var plan, m := LedgerPlan(p.ledger), q.calls - p.calls;
    var oks := Sequential(p.ledger, Launch(plan[..m], world.Replies(it, m))).1;
    assert StepIs(q.trace, |p.trace| + (m - 1), it, plan[m - 1], oks[m - 1]);
  }

  // ---------------------------------------------------------------- the drivers

  lemma AffordableAbstract(plan: seq<Planned>, budget: Budget, calls: nat)
    ensures AbstractActions(Affordable(plan, budget, calls)) == Affordable(AbstractActions(plan), budget, calls)
  {}

  /** What the budget leaves of a planner batch is still independent. */
  lemma PlannedBatch(l: Ledger, batch: seq<LedgerAction>, replies: seq<Reply>)
    requires batch <= LedgerPlan(l) && |replies| == |batch| && l.Consistent()
    ensures Runnable(l, batch)
    ensures Independent<set<string>, set<string>>(Launch(batch, replies))
  {
    var plan := LedgerPlan(l);
    hide LedgerPlan;
    if |batch| > 0 {
      var padded := seq(|plan|, i requires 0 <= i < |plan| => if i < |replies| then replies[i] else replies[0]);
      PlannerIndependent(l, padded);
      var all: seq<LedgerFrame> := Launch(plan, padded);
      var some: seq<LedgerFrame> := Launch(batch, replies);
      forall i | 0 <= i < |batch| ensures some[i] == all[i] {}
      forall i, j | 0 <= i < j < |batch|
        ensures !Clash(KindOf(some[i]), KindOf(some[j])) && !(batch[i].EnrichIocs? && batch[j].EnrichIocs?)
      {
        assert !Clash(KindOf(all[i]), KindOf(all[j]));
      }
      forall i | 0 <= i < |batch| && batch[i].HuntEdr? ensures batch[i].keys <= l.judged.Keys {
        assert Targeted(l, all[i]);
      }
    }
  }

  ghost predicate Numbered(trace: seq<TraceStep>) {
    forall i :: 0 <= i < |trace| ==> trace[i].step == i + 1
  }

  function Acts(trace: seq<TraceStep>): nat {
    if trace == [] then 0
    else Acts(trace[..|trace| - 1]) + if trace[|trace| - 1].phase.Act? then 1 else 0
  }

  lemma {:induction false} ActsAppend(trace: seq<TraceStep>, more: seq<TraceStep>)
    requires forall i :: 0 <= i < |more| ==> more[i].phase.Act?
    ensures Acts(trace + more) == Acts(trace) + |more|
  {
    if more == [] {
      assert trace + more == trace;
    } else {
      var n := |more| - 1;
      ActsAppend(trace, more[..n]);
      assert (trace + more)[..|trace + more| - 1] == trace + more[..n];
    }
  }

  lemma StopStep(trace: seq<TraceStep>, it: nat)
    requires Numbered(trace)
    ensures Numbered(Stop(trace, it)) && Acts(Stop(trace, it)) == Acts(trace)
  {
    assert Stop(trace, it)[..|trace|] == trace;
  }

  lemma NoTrace()
    ensures Numbered([]) && Acts([]) == 0
  {}

  /** The in-process loop, each batch concurrent. Whatever the interleavings, it
      follows the specification: same plans, same keyed state, same trace. */
  method CollectBatch(state: InvestigationState, world: World, budget: Budget)
    returns (stepNo: nat, toolCalls: nat, trace: seq<TraceStep>)
    requires state.Dump().WellKeyed() && state.Ledger().Consistent()
    modifies state
    ensures state.Dump().WellKeyed() && state.Ledger().Consistent()
    ensures old(state.Ledger()).GrowsTo(state.Ledger())
    ensures Progress(state.Ledger(), toolCalls, trace)
         == Iterate(Progress(old(state.Ledger()), 0, []), world, budget, 1)
    ensures stepNo == |trace| && Numbered(trace)
    ensures toolCalls == Acts(trace) && (toolCalls > 0 ==> toolCalls <= budget.maxToolCalls)
    ensures EndsRight(Progress(state.Ledger(), toolCalls, trace), world, budget)
  {
    hide EndsRight, RunsTo, Acted, Ended;
    hide LedgerOf, LedgerPlan, Iterate, Sequential, NextActions, Runnable, Independent, ActSteps;
    hide InvestigationState.Dump, Snapshot.WellKeyed, Ledger.GrowsTo, Ledger.Consistent, AbstractActions, Numbered, Acts;
    stepNo, toolCalls, trace := 0, 0, [];
    NoTrace();
    ghost var l0 := state.Ledger();
    ghost var goal := Iterate(Progress(l0, 0, []), world, budget, 1);
    var it := 1;
    GrowsReflexive(l0);
    LoopEndsRight(Progress(l0, 0, []), world, budget, 1);
    while it <= budget.maxIterations
      invariant state.Dump().WellKeyed() && state.Ledger().Consistent() && l0.GrowsTo(state.Ledger())
      invariant it <= budget.maxIterations + 1
      invariant Iterate(Progress(state.Ledger(), toolCalls, trace), world, budget, it) == goal
      invariant stepNo == |trace| && Numbered(trace)
      invariant toolCalls == Acts(trace) && (toolCalls > 0 ==> toolCalls <= budget.maxToolCalls)
    {
      ghost var p := Progress(state.Ledger(), toolCalls, trace);
      IterateStops(p, world, budget, it);
      if world.late(it) {
        StopStep(trace, it);
        stepNo := stepNo + 1;
        trace := trace + [TraceStep(stepNo, it, Plan, "stop", None, false)];
        return;
      }
      var actions := PlanNext(state);
      PlanRefines(state.Dump());
      EmptyAbstract(actions);
      if actions == [] {
        return;
      }
      ghost var plan := actions;
      AffordableAbstract(plan, budget, toolCalls);
      if toolCalls + |actions| > budget.maxToolCalls {
        actions := actions[..if budget.maxToolCalls - toolCalls < 0 then 0 else budget.maxToolCalls - toolCalls];
        if actions == [] {
          EmptyAbstract(actions);
          StopStep(trace, it);
          stepNo := stepNo + 1;
          trace := trace + [TraceStep(stepNo, it, Plan, "stop", None, false)];
          return;
        }
      }
      var replies := world.Replies(it, |actions|);
      ghost var batch := AbstractActions(actions);
      assert |batch| == |actions| by { AbstractLength(actions); }
      PlannedBatch(p.ledger, batch, replies);
      var oks := GatherBatch(state, actions, replies);
      GrowsTransitive(l0, p.ledger, state.Ledger());
      IterateActs(p, world, budget, it, batch, state.Ledger(), oks);
      stepNo, toolCalls, trace := Observe(actions, oks, stepNo, toolCalls, it, trace);
      it := it + 1;
    }
    IterateStops(Progress(state.Ledger(), toolCalls, trace), world, budget, it);
  }

  lemma AbstractLength(actions: seq<Planned>)
    ensures |AbstractActions(actions)| == |actions|
  {}

  lemma GrowsReflexive(l: Ledger)
    ensures l.GrowsTo(l)
  {}

  lemma ActStepsAre(actions: seq<LedgerAction>, oks: seq<bool>, first: nat, it: nat)
    requires |actions| == |oks|
    ensures forall j :: 0 <= j < |oks| ==>
      ActSteps(actions, oks, first, it)[j].phase.Act? && ActSteps(actions, oks, first, it)[j].step == first + j
  {
    hide ToolName;
  }

  /** Appends one numbered step per executed action. */
  method Observe(actions: seq<Planned>, oks: seq<bool>, stepNo: nat, toolCalls: nat, it: nat, trace: seq<TraceStep>)
    returns (lastStep: nat, calls: nat, longer: seq<TraceStep>)
    requires |actions| == |oks| && stepNo == |trace| && Numbered(trace) && toolCalls == Acts(trace)
    ensures longer == trace + ActSteps(AbstractActions(actions), oks, |trace| + 1, it)
    ensures lastStep == |longer| && Numbered(longer) && calls == toolCalls + |actions| == Acts(longer)
  {
    hide ActStep, Acts, AbstractAction;
    calls := toolCalls + |actions|;
    lastStep, longer := stepNo, trace;
    ghost var steps := ActSteps(AbstractActions(actions), oks, |trace| + 1, it);
    for j := 0 to |actions|
      invariant lastStep == stepNo + j && |steps| == |actions|
      invariant longer == trace + steps[..j]
    {
      lastStep := lastStep + 1;
      longer := longer + [ActStep(lastStep, it, AbstractAction(actions[j]), oks[j])];
    }
    assert steps[..|actions|] == steps;
    ActStepsAre(AbstractActions(actions), oks, |trace| + 1, it);
    ActsAppend(trace, steps);
  }
}
