/** The durable workflow: the same plan, one tool call at a time, each call an
    activity that runs on a checkpoint and returns the next checkpoint. */
module Workflow {
  import opened Options
  import opened OrderedDict
  import opened State
  import opened Planner
  import opened Tools
  import opened Concurrency
  import opened Gather
  import opened Loop

  /** One attempt of a tool activity: restore, run, dump. */
  method ExecuteTool(s: Snapshot, action: Planned, reply: Reply) returns (next: Snapshot, ok: bool)
    requires s.WellKeyed()
    ensures next.WellKeyed()
    ensures (LedgerOf(next), ok) == Complete(LedgerOf(s), Fresh(AbstractAction(action), reply))
  {
    hide LedgerOf, Complete, AbstractAction, Snapshot.WellKeyed;
    var state := new InvestigationState.Load(s);
    ok := RunTool(state, action, reply);
    next := state.Dump();
  }

  /** An activity whose first attempts were lost, to worker crashes say, and
      retried: every attempt starts from the same checkpoint, so the lost ones
      leave no mark. */
  method ExecuteActivity(s: Snapshot, action: Planned, lost: seq<Reply>, reply: Reply)
    returns (next: Snapshot, ok: bool)
    requires s.WellKeyed()
    ensures next.WellKeyed()
    ensures (LedgerOf(next), ok) == Complete(LedgerOf(s), Fresh(AbstractAction(action), reply))
  {
    for k := 0 to |lost| {
      var _, _ := ExecuteTool(s, action, lost[k]);
    }
    next, ok := ExecuteTool(s, action, reply);
  }

  // ---------------------------------------------------------------- running a call again

  /** What a call leaves of the ledger. */
  function Leaves(l: Ledger, a: LedgerAction, r: Reply): Ledger { Complete(l, Fresh(a, r)).0 }

  /** A hunt with targets whose hits were recorded: `hits` is a list without keys. */
  predicate RecordsHits(l: Ledger, a: LedgerAction, r: Reply) {
    a.HuntEdr? && !(a.keys !! l.judged.Keys) && r.fate.Lands() && r.hits != []
  }

  lemma LeftIs(l: Ledger, a: LedgerAction, r: Reply)
    ensures var (m, g) := LedgerStart(l, a, r); Leaves(l, a, r) == Outcome(m, g)
  {
    var (m, g) := LedgerStart(l, a, r);
    CompleteOutcome(m, g);
  }

  /** A call that finds its own effects already there, as when its checkpoint was taken and
      the answer lost, changes nothing, whatever its fate, unless it is a hunt with hits:
      these it lists again. */
  lemma RerunExact(l: Ledger, a: LedgerAction, r: Reply)
    ensures Leaves(Leaves(l, a, r), a, r) == Leaves(l, a, r) <==> !RecordsHits(l, a, r)
  {
    LeftIs(l, a, r);
    LeftIs(Leaves(l, a, r), a, r);
    hide Leaves, KeysOf;
    match a
    case RunDetections =>
    case FetchEmail =>
    case ExtractIocs =>
      AddKeysTwice(l, KeysOf(r.iocs), KeysOf(r.iocs));
      assert KeysOf(r.iocs) + KeysOf(r.iocs) == KeysOf(r.iocs);
    case EnrichIocs => JudgedAll(l, r.judge);
    case Detonate(att) => DetonateAgain(l, att.sha256, r.malscore, KeysOf(r.iocs));
    case HuntEdr(keys) =>
  }

  lemma JudgedAll(l: Ledger, judge: string -> Judgement)
    ensures l.Judge(l.pending, judge).pending == {}
  {
  }

  // ---------------------------------------------------------------- the program

  method RunBatch(s: Snapshot, actions: seq<Planned>, lost: nat -> seq<Reply>, replies: seq<Reply>)
    returns (last: Snapshot, oks: seq<bool>)
    requires |actions| == |replies| && s.WellKeyed()
    ensures last.WellKeyed()
    ensures (LedgerOf(last), oks) == Sequential(LedgerOf(s), Launch(AbstractActions(actions), replies))
  {
    hide Complete, LedgerOf, Snapshot.WellKeyed, AbstractAction;
    last, oks := s, [];
    ghost var frames: seq<LedgerFrame> := Launch(AbstractActions(actions), replies);
    assert frames[0..] == frames;
    assert [] + Sequential(LedgerOf(s), frames).1 == Sequential(LedgerOf(s), frames).1;
    for j := 0 to |actions|
      invariant last.WellKeyed()
      invariant var (end, rest) := Sequential(LedgerOf(last), frames[j..]);
        (end, oks + rest) == Sequential(LedgerOf(s), frames)
    {
      assert frames[j..][1..] == frames[j + 1..];
      assert frames[j..][0] == Fresh(AbstractAction(actions[j]), replies[j]);
      var next, ok := ExecuteActivity(last, actions[j], lost(j), replies[j]);
      ghost var rest := Sequential(LedgerOf(next), frames[j + 1..]).1;
      assert oks + ([ok] + rest) == (oks + [ok]) + rest;
      last, oks := next, oks + [ok];
    }
    assert frames[|actions|..] == [];
    assert oks + [] == oks;
  }

  /** The workflow has no wall-clock budget. */
  function Untimed(world: World): World { world.(late := _ => false) }

  /** The durable workflow follows the same specification as the in-process loop. */
  method RunWorkflow(alert: Alert, world: World, lost: (nat, nat) -> seq<Reply>, budget: Budget)
    returns (last: Snapshot, toolCalls: nat, trace: seq<TraceStep>)
    ensures last.WellKeyed()
    ensures Progress(LedgerOf(last), toolCalls, trace)
         == Iterate(Progress(LedgerOf(NewCase(alert)), 0, []), Untimed(world), budget, 1)
    ensures Numbered(trace) && toolCalls == Acts(trace)
    ensures EndsRight(Progress(LedgerOf(last), toolCalls, trace), Untimed(world), budget)
  {
    hide EndsRight;
    hide LedgerOf, LedgerPlan, Iterate, Sequential, NextActions, ActSteps, AbstractActions, Snapshot.WellKeyed;
    var start := new InvestigationState(alert);
    last := start.Dump();
    NewCaseWellKeyed(alert);
    toolCalls, trace := 0, [];
    ghost var timeless := Untimed(world);
    ghost var goal := Iterate(Progress(LedgerOf(last), 0, []), timeless, budget, 1);
    LoopEndsRight(Progress(LedgerOf(last), 0, []), timeless, budget, 1);
    var it := 1;
    while it <= budget.maxIterations
      invariant last.WellKeyed() && it <= budget.maxIterations + 1
      invariant Iterate(Progress(LedgerOf(last), toolCalls, trace), timeless, budget, it) == goal
      invariant Numbered(trace) && toolCalls == Acts(trace)
    {
      ghost var p := Progress(LedgerOf(last), toolCalls, trace);
      IterateStops(p, timeless, budget, it);
      var state := new InvestigationState.Load(last);
      var actions := PlanNext(state);
      PlanRefines(last);
      EmptyAbstract(actions);
      if actions == [] {
        return;
      }
      ghost var plan := actions;
      AffordableAbstract(plan, budget, toolCalls);
      if toolCalls + |actions| > budget.maxToolCalls {
        actions := actions[..if budget.maxToolCalls - toolCalls < 0 then 0 else budget.maxToolCalls - toolCalls];
        if actions == [] {
          EmptyAbstract(actions);
          trace := trace + [TraceStep(|trace| + 1, it, Plan, "stop", None, false)];
          return;
        }
      }
      var replies := world.Replies(it, |actions|);
      ghost var batch := AbstractActions(actions);
      assert |batch| == |actions| by { AbstractLength(actions); }
      var oks;
      last, oks := RunBatch(last, actions, (j: nat) => lost(it, j), replies);
      SequentialLength(p.ledger, Launch(batch, replies));
      IterateActs(p, timeless, budget, it, batch, LedgerOf(last), oks);
      var lastStep;
      lastStep, toolCalls, trace := Observe(actions, oks, |trace|, toolCalls, it, trace);
      it := it + 1;
    }
    IterateStops(Progress(LedgerOf(last), toolCalls, trace), timeless, budget, it);
  }

  function NewCase(alert: Alert): Snapshot {
    Snapshot(alert, false, None, false, false, Empty(), Empty(), {}, {}, 0.0, [])
  }

  lemma NewCaseWellKeyed(alert: Alert)
    ensures NewCase(alert).WellKeyed() && LedgerOf(NewCase(alert)).Consistent()
  {}

  /** Where the drivers differ, the clock: a run of the in-process loop whose clock
      trips after `k` iterations collects what the workflow collects under an
      iteration budget of `k`; a run whose clock never trips, what the workflow does. */
  lemma {:induction false} DriversAgree(p: Progress, world: World, budget: Budget, it: nat, k: nat)
    requires it <= k + 1 <= budget.maxIterations + 1
    requires forall i :: it <= i <= k ==> !world.late(i)
    requires k < budget.maxIterations ==> world.late(k + 1)
    ensures var timed, untimed := Iterate(p, world, budget, it),
                                  Iterate(p, Untimed(world), budget.(maxIterations := k), it);
      && timed.ledger == untimed.ledger && timed.calls == untimed.calls
      && untimed.trace <= timed.trace
      && (k == budget.maxIterations ==> timed == untimed)
    decreases k + 1 - it
  {
    hide LedgerPlan, Sequential, ActSteps, Round;
    if it > k {
    } else {
      var batch := Affordable(LedgerPlan(p.ledger), budget, p.calls);
      if batch != [] {
        var replies := world.Replies(it, |batch|);
        assert replies == Untimed(world).Replies(it, |batch|);
        var (next, oks) := Round(p.ledger, batch, replies);
        DriversAgree(Progress(next, p.calls + |batch|, p.trace + ActSteps(batch, oks, |p.trace| + 1, it)),
                     world, budget, it + 1, k);
      }
    }
  }
}
