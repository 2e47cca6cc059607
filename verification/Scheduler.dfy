/** The priority scheduler: plans into the task graph, drains it wave by wave with
    bounded retries and budgets, and re-opens work that the reflection step
    proposes. */
module Scheduler {
  import opened Sorting
  import opened OrderedDict
  import opened State
  import opened Planner
  import opened Tools
  import opened Concurrency
  import opened Gather
  import opened Convergence
  import opened TaskGraphs
  import opened Turns
  import opened Stages
  import opened Histories
  import opened Mirrors
  import opened Reflection

  // ---------------------------------------------------------------- invariants

  ghost predicate HuntsTargeted(l: Ledger, tasks: Tasks) {
    forall id :: id in tasks.vals && tasks.vals[id].action.HuntEdr? ==> KeySet(tasks.vals[id].action.keys) <= l.judged.Keys
  }

  /** No task is of a wave beyond the next, and the next wave's are unfinished. */
  ghost predicate WavesBounded(tasks: Tasks, wave: nat) {
    forall id :: id in tasks.vals ==>
      tasks.vals[id].wave <= wave || (tasks.vals[id].wave == wave + 1 && !tasks.vals[id].Terminal())
  }

  /** What holds at every wave boundary of a run that began with ledger `l0`. */
  ghost predicate RunInv(budget: Budget, l0: Ledger, l: Ledger, tasks: Tasks, counter: nat, wave: nat, calls: nat) {
    && GraphInv(tasks, counter) && WavesBounded(tasks, wave) && HuntsTargeted(l, tasks)
    && calls == SumAttempts(tasks.keys, tasks.vals)
    && (calls > 0 ==> calls <= budget.maxToolCalls)
    && wave <= budget.maxIterations && wave <= calls
    && l.Consistent() && l0.GrowsTo(l)
  }

  lemma PlanTargeted(s: Snapshot, a: Planned)
    requires s.WellKeyed() && LedgerOf(s).Consistent() && a in NextActions(s) && a.HuntEdr?
    ensures KeySet(a.keys) <= LedgerOf(s).judged.Keys
  {
    var plan := NextActions(s);
    var i :| 0 <= i < |plan| && plan[i] == a;
    PlanRefines(s);
    assert AbstractActions(plan)[i] == AbstractAction(a);
    LedgerPlanTargeted(LedgerOf(s), i);
  }

  lemma LedgerPlanTargeted(l: Ledger, i: nat)
    requires i < |LedgerPlan(l)| && LedgerPlan(l)[i].HuntEdr?
    ensures LedgerPlan(l)[i].keys <= l.judged.Keys
  {}

  /** Adding waiting work keeps the run's invariant. */
  lemma ExtendKeeps(budget: Budget, l0: Ledger, l: Ledger, before: Tasks, n: nat, after: Tasks, counter: nat,
                    actions: seq<Planned>, deps: set<string>, wave: nat, calls: nat)
    requires RunInv(budget, l0, l, before, n, wave, calls)
    requires GraphInv(after, counter) && Extended(before, after, actions, deps, wave + 1)
    requires SumAttempts(after.keys, after.vals) == SumAttempts(before.keys, before.vals)
    requires forall a :: a in actions && a.HuntEdr? ==> KeySet(a.keys) <= l.judged.Keys
    ensures RunInv(budget, l0, l, after, counter, wave, calls)
  {
    hide GraphInv, SumAttempts, Ledger.GrowsTo, KeySet;
    forall id | id in after.vals
      ensures after.vals[id].wave <= wave || (after.vals[id].wave == wave + 1 && !after.vals[id].Terminal())
    {
      assert id in before.vals || after.vals[id] == NewTask(after.vals[id].action, deps, wave + 1).(id := id);
    }
  }

  /** The planning engine: adds the planner's proposals to the graph as tasks that
      depend on the wave before. */
  method Expand(state: InvestigationState, graph: TaskGraph, wave: nat) returns (added: nat)
    requires wave > 0 && state.Dump().WellKeyed() && GraphInv(graph.tasks, graph.counter)
    modifies graph
    ensures GraphInv(graph.tasks, graph.counter)
    ensures Extended(old(graph.tasks), graph.tasks, NextActions(state.Dump()), PriorWave(old(graph.tasks), wave), wave)
    ensures SumAttempts(graph.tasks.keys, graph.tasks.vals) == SumAttempts(old(graph.tasks).keys, old(graph.tasks).vals)
    ensures forall a :: a in NextActions(state.Dump()) ==> HasActive(graph.tasks, a)
    ensures (graph.tasks, graph.counter)
      == Grown(old(graph.tasks), old(graph.counter), NextActions(state.Dump()), PriorWave(old(graph.tasks), wave), wave)
    ensures added == |graph.tasks.keys| - |old(graph.tasks).keys|
  {
    hide GraphInv, NextActions, SumAttempts, Extended, HasActive, InvestigationState.Dump, Snapshot.WellKeyed, Grown, AddedOne;
    var proposed := PlanNext(state);
    var prior := PriorWave(graph.tasks, wave);
    ghost var was, n := graph.tasks, graph.counter;
    ExtendedSame(was, proposed, prior, wave);
    InvParts(graph.tasks, graph.counter);
    GrownNext(was, n, proposed, prior, wave);
    added := 0;
    for i := 0 to |proposed|
      invariant GraphInv(graph.tasks, graph.counter) && DependsOnEarlier(graph.tasks, prior, wave)
      invariant Extended(was, graph.tasks, proposed, prior, wave)
      invariant SumAttempts(graph.tasks.keys, graph.tasks.vals) == SumAttempts(was.keys, was.vals)
      invariant forall j :: 0 <= j < i ==> HasActive(graph.tasks, proposed[j])
      invariant (graph.tasks, graph.counter) == Grown(was, n, proposed[..i], prior, wave)
      invariant added == |graph.tasks.keys| - |was.keys|
    {
      InvParts(graph.tasks, graph.counter);
      var tracked := graph.HasKey(proposed[i]);
      GrownTracked(graph.tasks, graph.counter, proposed[i], prior, wave);
      if tracked {
        continue;
      }
      ghost var before := graph.tasks;
      graph.AddAction(proposed[i], prior, wave, was, proposed);
      added := added + 1;
      forall j | 0 <= j < i ensures HasActive(graph.tasks, proposed[j]) {
        ActiveStays(before, graph.tasks, proposed[j], [proposed[i]], prior, wave);
      }
    }
  }

  // ---------------------------------------------------------------- one wave

  /** A wave is a batch that may be gathered: the graph holds at most one waiting
      enrichment. */
  lemma WaveRunnable(tasks: Tasks, l: Ledger, ready: seq<Task>)
    requires Exclusive(tasks) && HuntsTargeted(l, tasks) && Batch(tasks, ready)
    ensures Runnable(l, AbstractActions(ActionsOf(ready)))
  {
    hide KeySet, Exclusive;
    var actions := AbstractActions(ActionsOf(ready));
    forall i, j | 0 <= i < j < |actions| ensures !(actions[i].EnrichIocs? && actions[j].EnrichIocs?) {
      OneTaskPerAction(tasks, ready[i].id, ready[j].id);
      AbstractAt(ready, i);
      AbstractAt(ready, j);
    }
    forall i | 0 <= i < |actions| && actions[i].HuntEdr? ensures actions[i].keys <= l.judged.Keys {
      assert ready[i].id in tasks.vals && tasks.vals[ready[i].id] == ready[i];
      AbstractAt(ready, i);
    }
  }

  lemma WaveMayRun(budget: Budget, l0: Ledger, l: Ledger, tasks: Tasks, counter: nat, ready: seq<Task>, wave: nat, calls: nat)
    requires RunInv(budget, l0, l, tasks, counter, wave, calls) && ready <= ReadyTasks(tasks)
    ensures tasks.Valid() && Exclusive(tasks) && l.Consistent()
    ensures Batch(tasks, ready) && Runnable(l, AbstractActions(ActionsOf(ready)))
  {
    ReadyBatch(tasks, counter, ready);
    WaveRunnable(tasks, l, ready);
  }

  lemma WaveRunInv(budget: Budget, l0: Ledger, l: Ledger, l': Ledger, before: Tasks, after: Tasks, counter: nat,
                   ready: seq<Task>, oks: seq<bool>, wave: nat, calls: nat)
    requires RunInv(budget, l0, l, before, counter, wave, calls)
    requires Batch(before, ready) && WaveRan(before, after, ready, oks) && |ready| > 0
    requires SumAttempts(after.keys, after.vals) == SumAttempts(before.keys, before.vals) + |ready|
    requires l'.Consistent() && l.GrowsTo(l') && wave < budget.maxIterations && calls + |ready| <= budget.maxToolCalls
    ensures RunInv(budget, l0, l', after, counter, wave + 1, calls + |ready|)
  {
    WaveKeeps(before, after, ready, oks, counter);
    GrowsTransitive(l0, l, l');
    hide GraphInv, SumAttempts, KeySet;
    forall id | id in before.vals
      ensures after.vals[id].wave == before.vals[id].wave && after.vals[id].action == before.vals[id].action
    {
      WaveTask(before, after, ready, oks, id);
    }
  }

  // ---------------------------------------------------------------- the follow-up hunt

  ghost predicate Converged(s: Snapshot) { NextActions(s) == [] }

  /** The planner has nothing left, and all that waits is the hunt for the
      suspicious indicators. */
  ghost predicate OnlyFollowUp(s: Snapshot, tasks: Tasks) {
    && Converged(s) && SuspiciousUnhunted(s) != [] && !AllTerminal(tasks)
    && forall id :: id in tasks.vals && !tasks.vals[id].Terminal() ==>
         tasks.vals[id].action == HuntEdr(SuspiciousUnhunted(s))
  }

  ghost predicate Reviewed(s: Snapshot, tasks: Tasks) {
    Converged(s) && SuspiciousUnhunted(s) == [] && AllTerminal(tasks)
  }

  lemma ConvergedLedger(s: Snapshot)
    requires s.WellKeyed()
    ensures Converged(s) <==> PhaseLeft(LedgerOf(s)) == 0
  {
    hide NextActions, LedgerPlan, PhaseLeft, LedgerOf;
    PlanRefines(s);
    NothingLeft(LedgerOf(s));
    EmptyAbstract(NextActions(s));
  }

  lemma HuntKeepsConverged(l: Ledger, keys: set<string>, hits: seq<IOC>)
    requires PhaseLeft(l) == 0 && keys != {}
    ensures PhaseLeft(l.(hunted := l.hunted + keys, hits := l.hits + hits)) == 0
  {
    hide Undetonated;
    var m := l.(hunted := l.hunted + keys, hits := l.hits + hits);
    assert MaliciousKeys(l) == {};
    assert MaliciousKeys(m) == {};
    var k :| k in keys;
    assert k in m.hunted;
  }

  /** A successful hunt for the suspicious indicators leaves nothing to propose. */
  lemma HuntSettles(s: Snapshot, t: Snapshot, r: Reply)
    requires s.WellKeyed() && t.WellKeyed() && Converged(s) && SuspiciousUnhunted(s) != [] && r.fate.Ok?
    requires LedgerOf(t) == Effect(LedgerOf(s), HuntEdr(KeySet(SuspiciousUnhunted(s))), r)
    ensures Converged(t) && SuspiciousUnhunted(t) == []
  {
    hide SuspiciousUnhunted, PhaseLeft, Converged;
    var keys, l := SuspiciousUnhunted(s), LedgerOf(s);
    SuspiciousAre(s);
    SuspiciousAre(t);
    assert keys[0] in KeySet(keys) && keys[0] in l.judged;
    assert LedgerOf(t) == l.(hunted := l.hunted + KeySet(keys), hits := l.hits + r.hits);
    ConvergedLedger(s);
    HuntKeepsConverged(l, KeySet(keys), r.hits);
    ConvergedLedger(t);
    assert Judgements(t.enriched.vals) == Judgements(s.enriched.vals);
    forall k | k in t.enriched.vals && t.enriched.vals[k].judgement.verdict.Suspicious? ensures k in t.hunted {
      assert Judgements(s.enriched.vals)[k] == t.enriched.vals[k].judgement;
      if k !in s.hunted {
        assert k in SuspiciousUnhunted(s);
      }
    }
    NoElement(SuspiciousUnhunted(t));
  }

  lemma FollowUpWave(s: Snapshot, before: Tasks, ready: seq<Task>)
    requires OnlyFollowUp(s, before) && Exclusive(before) && Batch(before, ready) && ready != []
    ensures ActionsOf(ready) == [HuntEdr(SuspiciousUnhunted(s))]
  {
    hide SuspiciousUnhunted, Converged, Exclusive;
    assert !ready[0].Terminal() && ready[0].id in before.vals && before.vals[ready[0].id] == ready[0];
    if |ready| > 1 {
      assert ready[1].id in before.vals && before.vals[ready[1].id] == ready[1] && !ready[1].Terminal();
      OneTaskPerAction(before, ready[0].id, ready[1].id);
    }
  }

  lemma FollowUpDone(s: Snapshot, before: Tasks, after: Tasks, ready: seq<Task>, oks: seq<bool>)
    requires OnlyFollowUp(s, before) && Exclusive(before) && Batch(before, ready) && WaveRan(before, after, ready, oks)
    requires |ready| == 1 && ready[0].action == HuntEdr(SuspiciousUnhunted(s)) && oks == [true]
    ensures AllTerminal(after)
  {
    hide SuspiciousUnhunted, Converged, Exclusive;
    forall id | id in after.vals ensures after.vals[id].Terminal() {
      if id == ready[0].id {
        assert after.vals[id] == AfterRun(ready[0], oks[0]);
      } else {
        assert forall j :: 0 <= j < |ready| ==> ready[j].id != id;
        if !before.vals[id].Terminal() {
          assert before.vals[ready[0].id] == ready[0];
          OneTaskPerAction(before, ready[0].id, id);
        }
      }
    }
  }

  /** What is known when every call succeeds and the follow-up was injected, at ledger
      `settled`: it waits, or it ran and that was all. */
  ghost predicate Following(settled: Ledger, s: Snapshot, tasks: Tasks) {
    || (OnlyFollowUp(s, tasks) && LedgerOf(s) == settled)
    || (Reviewed(s, tasks) && FollowedUp(settled, LedgerOf(s)))
  }

  lemma SuspiciousRefines(s: Snapshot)
    requires s.WellKeyed()
    ensures KeySet(SuspiciousUnhunted(s)) == SuspiciousKeys(LedgerOf(s))
  {
    SuspiciousAre(s);
    hide SuspiciousUnhunted;
    var l := LedgerOf(s);
    forall k ensures k in KeySet(SuspiciousUnhunted(s)) <==> k in SuspiciousKeys(l) {
      assert l.judged == Judgements(s.enriched.vals);
    }
  }

  lemma HuntEffect(l: Ledger, keys: set<string>, r: Reply)
    requires !(keys !! l.judged.Keys)
    ensures Effect(l, HuntEdr(keys), r) == l.(hunted := l.hunted + keys, hits := l.hits + r.hits)
  {
  }

  /** The hunt for the suspicious keys changes the ledger by these keys and its hits. */
  lemma HuntFollowsUp(s: Snapshot, r: Reply)
    requires s.WellKeyed() && SuspiciousUnhunted(s) != []
    ensures FollowedUp(LedgerOf(s), Effect(LedgerOf(s), HuntEdr(KeySet(SuspiciousUnhunted(s))), r))
  {
    hide SuspiciousUnhunted, LedgerOf, Effect;
    SuspiciousRefines(s);
    var keys := SuspiciousUnhunted(s);
    assert keys[0] in KeySet(keys);
    HuntEffect(LedgerOf(s), KeySet(keys), r);
  }

  lemma SingleHuntIndependent(keys: set<string>, r: Reply)
    ensures var launched: seq<LedgerFrame> := Launch([HuntEdr(keys)], [r]);
      Independent(launched)
  {}

  lemma SingleRound(l: Ledger, a: LedgerAction, r: Reply)
    requires r.fate.Ok?
    ensures Sequential(l, Launch([a], [r])) == (Effect(l, a, r), [true])
  {
    var frames: seq<LedgerFrame> := Launch([a], [r]);
    assert frames == [Fresh(a, r)] && frames[1..] == [];
    CompleteEffect(l, a, r);
    hide Complete, Effect;
    var after := Effect(l, a, r);
    assert Sequential(after, frames[1..]) == (after, []);
    assert Sequential(l, frames) == (after, [true] + []);
    assert [true] + [] == [true];
  }

  /** Drained and then reviewed: the wave of the follow-up hunt settles it. */
  lemma FollowUpSettles(settled: Ledger, s: Snapshot, t: Snapshot, before: Tasks, after: Tasks, ready: seq<Task>,
                        replies: seq<Reply>, oks: seq<bool>)
    requires s.WellKeyed() && t.WellKeyed() && Following(settled, s, before) && Exclusive(before)
    requires Batch(before, ready) && WaveRan(before, after, ready, oks) && ready != []
    requires |replies| == |ready| && AllSucceed(replies)
    requires var launched: seq<LedgerFrame> := Launch(AbstractActions(ActionsOf(ready)), replies);
      Independent(launched) ==> (LedgerOf(t), oks) == Sequential(LedgerOf(s), launched)
    ensures Following(settled, t, after)
  {
    hide SuspiciousUnhunted, Converged, Exclusive, LedgerOf, Sequential, Independent, Effect, KeySet, FollowedUp;
    assert !AllTerminal(before) by {
      assert ready[0].id in before.vals && before.vals[ready[0].id] == ready[0] && !ready[0].Terminal();
    }
    FollowUpWave(s, before, ready);
    var hunt: Planned := HuntEdr(SuspiciousUnhunted(s));
    AbstractOne(hunt);
    assert replies == [replies[0]];
    SingleHuntIndependent(KeySet(hunt.keys), replies[0]);
    SingleRound(LedgerOf(s), AbstractAction(hunt), replies[0]);
    HuntSettles(s, t, replies[0]);
    HuntFollowsUp(s, replies[0]);
    assert |ready| == 1 && ready[0].action == hunt by { assert ActionsOf(ready)[0] == ready[0].action; }
    FollowUpDone(s, before, after, ready, oks);
  }

  // ---------------------------------------------------------------- the scheduler

  /** Why a run stopped. */
  datatype Stop = BudgetHit | NoMoreRounds | NothingProposed

  class PriorityScheduler {
    const budget: Budget
    /** The reply to the `n`-th tool call of the run, from 0. */
    const reply: nat -> Reply
    /** Whether the wall-clock budget is exhausted at the `n`-th reading of the clock, from 0. */
    const late: nat -> bool
    /** Whether a reflection step is configured. */
    const reflects: bool
    const maxRounds: nat

    constructor (budget: Budget, reply: nat -> Reply, late: nat -> bool, reflects: bool, maxRounds: nat)
      ensures this.budget == budget && this.reply == reply && this.late == late
      ensures this.reflects == reflects && this.maxRounds == maxRounds
    {
      this.budget, this.reply, this.late, this.reflects, this.maxRounds := budget, reply, late, reflects, maxRounds;
    }

    ghost predicate EverythingSucceeds() { EveryOk(reply) }

    /** The run began with a new case, every call succeeds, and it still does what the batch
        loop does. */
    ghost predicate Smooth(l0: Ledger, l: Ledger, tasks: Tasks, ran: seq<seq<string>>, calls: nat) {
      EverythingSucceeds() && Begun(l0) && Alike(reply, budget.maxToolCalls, l0, l, tasks, ran, calls)
    }

    /** After `wave` waves, `calls` calls and `looks` readings of the clock: no wave is left,
        the last reading was late, or there is work but no call left to do it with. */
    ghost predicate OutOfBudget(looks: nat, wave: nat, calls: nat, tasks: Tasks) {
      || wave >= budget.maxIterations
      || (looks > 0 && late(looks - 1))
      || (calls >= budget.maxToolCalls && !AllTerminal(tasks))
    }

    /** Of the readings from `first` on, only the last can have been late, and then the budget
        was hit. */
    ghost predicate StopsOnTime(first: nat, looks: nat, budgetHit: bool) {
      forall n :: first <= n < looks && late(n) ==> budgetHit && n == looks - 1
    }

    lemma LookedAgain(first: nat, looks: nat)
      requires StopsOnTime(first, looks, false)
      ensures StopsOnTime(first, looks + 1, late(looks))
    {
    }

    lemma NotLooked(first: nat)
      ensures StopsOnTime(first, first, false)
    {
    }

    lemma StoppedOnTime(first: nat, looks: nat, more: nat, budgetHit: bool)
      requires StopsOnTime(first, looks, false) && StopsOnTime(looks, more, budgetHit) && looks <= more
      ensures StopsOnTime(first, more, budgetHit)
    {
    }

    lemma StillOnTime(first: nat, looks: nat)
      requires StopsOnTime(first, looks, false)
      ensures StopsOnTime(first, looks, true)
    {
    }

    lemma NotStopped(looks: nat, wave: nat, calls: nat, tasks: Tasks)
      requires !OutOfBudget(looks, wave, calls, tasks)
      ensures wave < budget.maxIterations
    {
    }

    /** Why a drain stops. */
    lemma Stops(looks: nat, wave: nat, calls: nat, tasks: Tasks)
      ensures wave >= budget.maxIterations ==> OutOfBudget(looks, wave, calls, tasks)
      ensures looks > 0 && late(looks - 1) ==> OutOfBudget(looks, wave, calls, tasks)
      ensures calls >= budget.maxToolCalls && !AllTerminal(tasks) ==> OutOfBudget(looks, wave, calls, tasks)
      ensures wave < budget.maxIterations && looks > 0 && !late(looks - 1) && AllTerminal(tasks) ==>
        !OutOfBudget(looks, wave, calls, tasks)
    {
      hide AllTerminal;
    }

    /** One wave: start the tasks, gather them, fold the results back. */
    method RunWave(state: InvestigationState, graph: TaskGraph, ready: seq<Task>, wave: nat, calls: nat,
                   ghost l0: Ledger, ghost settled: Ledger, ghost planned: Tasks, ghost ran: seq<seq<string>>)
      returns (oks: seq<bool>)
      requires state.Dump().WellKeyed()
      requires RunInv(budget, l0, state.Ledger(), graph.tasks, graph.counter, wave, calls)
      requires History(reply, budget.maxToolCalls, l0, state.Dump(), planned, ran, wave, calls)
      requires Expanded(planned, graph.tasks, graph.counter, NextActions(state.Dump()), wave)
      requires ready <= ReadyTasks(graph.tasks) && ready != []
      requires ready == ReadyTasks(graph.tasks) || calls + |ready| == budget.maxToolCalls
      requires wave < budget.maxIterations && calls + |ready| <= budget.maxToolCalls
      modifies state, graph
      ensures state.Dump().WellKeyed()
      ensures RunInv(budget, l0, state.Ledger(), graph.tasks, graph.counter, wave + 1, calls + |ready|)
      ensures WaveRan(old(graph.tasks), graph.tasks, ready, oks) && Kept(planned, graph.tasks)
      ensures var frames := FramesOf(ready, RepliesFrom(reply, calls, |ready|));
        Begun(l0) || Independent(frames) ==> (state.Ledger(), oks) == Sequential(old(state.Ledger()), frames)
      ensures History(reply, budget.maxToolCalls, l0, state.Dump(), graph.tasks, ran + [IdsOf(ready)], wave + 1, calls + |ready|)
      ensures EverythingSucceeds() && Following(settled, old(state.Dump()), old(graph.tasks)) ==>
        Following(settled, state.Dump(), graph.tasks)
      ensures Smooth(l0, old(state.Ledger()), planned, ran, calls) ==>
        Smooth(l0, state.Ledger(), graph.tasks, ran + [IdsOf(ready)], calls + |ready|)
    {
      hide RunInv, ReadyTasks, Following, Exclusive, SumAttempts, InvestigationState.Dump, Snapshot.WellKeyed;
      hide LedgerOf, Sequential, Independent, AbstractActions, Runnable, Dict.Valid, Batch, WaveStarted, WaveRan;
      hide History, Expanded, NextActions, Begun, Kept, EveryOk, Alike, GraphInv;
      ghost var s, l, was, n := state.Dump(), state.Ledger(), graph.tasks, graph.counter;
      WaveMayRun(budget, l0, l, was, n, ready, wave, calls);
      DumpedKeys(state);
      var actions, replies := ActionsOf(ready), RepliesFrom(reply, calls, |ready|);
      graph.StartAll(ready);
      oks := GatherBatch(state, actions, replies);
      DumpedKeys(state);
      graph.FinishAll(ready, oks, was);
      WaveRunInv(budget, l0, l, state.Ledger(), was, graph.tasks, n, ready, oks, wave, calls);
      WaveReplays(reply, budget.maxToolCalls, l0, s, planned, was, n, ready, ran, wave, calls);
      PlannedKept(planned, was, graph.tasks, n, NextActions(s), wave, ready, oks);
      RunInvWaves(budget, l0, l, was, n, wave, calls);
      HistoryTurn(reply, budget.maxToolCalls, l0, s, state.Dump(), planned, was, graph.tasks, n, NextActions(s),
                  ready, oks, ran, wave, calls);
      SmoothTurnKeeps(reply, budget.maxToolCalls, l0, s, state.Dump(), planned, was, graph.tasks, n, ready, oks, ran, wave, calls);
      if EverythingSucceeds() && Following(settled, s, was) {
        RepliesSucceed(reply, calls, |ready|);
        FollowUpSettles(settled, s, state.Dump(), was, graph.tasks, ready, replies, oks);
      }
    }

    lemma SmoothStart(l0: Ledger)
      ensures EverythingSucceeds() && Begun(l0) ==> Smooth(l0, l0, Empty(), [], 0)
    {
      hide Mirrored;
      MirrorStart(reply, l0);
    }

    lemma SmoothDrained(smooth: bool, l0: Ledger, l: Ledger, tasks: Tasks, ran: seq<seq<string>>, calls: nat)
      requires smooth ==> Smooth(l0, l, tasks, ran, calls)
      requires AllTerminal(tasks)
      ensures smooth ==> Mirrored(reply, l0, l, tasks, ran)
    {
      hide Mirrored;
    }

    /** Runs planner-driven waves until nothing is ready or a budget trips. */
    method Drain(state: InvestigationState, graph: TaskGraph, looks0: nat, wave0: nat, calls0: nat,
                 ghost l0: Ledger, ghost settled: Ledger, ghost ran0: seq<seq<string>>)
      returns (looks: nat, wave: nat, calls: nat, budgetHit: bool, ghost ran: seq<seq<string>>)
      requires state.Dump().WellKeyed()
      requires RunInv(budget, l0, state.Ledger(), graph.tasks, graph.counter, wave0, calls0)
      requires History(reply, budget.maxToolCalls, l0, state.Dump(), graph.tasks, ran0, wave0, calls0)
      modifies state, graph
      ensures state.Dump().WellKeyed()
      ensures RunInv(budget, l0, state.Ledger(), graph.tasks, graph.counter, wave, calls)
      ensures History(reply, budget.maxToolCalls, l0, state.Dump(), graph.tasks, ran, wave, calls)
      ensures !budgetHit ==> AllTerminal(graph.tasks) && Converged(state.Dump())
      ensures wave0 <= wave && looks == looks0 + (wave - wave0) + if wave < budget.maxIterations then 1 else 0
      ensures StopsOnTime(looks0, looks, budgetHit)
      ensures budgetHit <==> OutOfBudget(looks, wave, calls, graph.tasks)
      ensures wave0 < budget.maxIterations && late(looks0) ==>
        wave == wave0 && calls == calls0 && graph.tasks == old(graph.tasks) && state.Dump() == old(state.Dump())
      ensures ran0 <= ran && Kept(old(graph.tasks), graph.tasks)
      ensures Smooth(l0, old(state.Ledger()), old(graph.tasks), ran0, calls0) && !budgetHit ==>
        Mirrored(reply, l0, state.Ledger(), graph.tasks, ran)
      ensures EverythingSucceeds() && Following(settled, old(state.Dump()), old(graph.tasks)) ==>
        Following(settled, state.Dump(), graph.tasks)
    {
      hide RunInv, ReadyTasks, Following, InvestigationState.Dump, Snapshot.WellKeyed, GraphInv, SumAttempts, Extended;
      hide LedgerOf, HasActive, AllTerminal, PriorWave, NextActions, WaveRan, Independent, Sequential, AbstractActions;
      hide History, Expanded, FramesOf, Advances, Converged, Grown, Mirrored, Smooth, Kept, EveryOk, IdsOf;
      hide PriorityScheduler.StopsOnTime, PriorityScheduler.OutOfBudget;
      looks, wave, calls, ran := looks0, wave0, calls0, ran0;
      ghost var follow := EverythingSucceeds() && Following(settled, state.Dump(), graph.tasks);
      ghost var smooth := Smooth(l0, state.Ledger(), graph.tasks, ran0, calls0);
      KeptSame(graph.tasks);
      NotLooked(looks0);
      while wave < budget.maxIterations
        invariant state.Dump().WellKeyed()
        invariant RunInv(budget, l0, state.Ledger(), graph.tasks, graph.counter, wave, calls)
        invariant History(reply, budget.maxToolCalls, l0, state.Dump(), graph.tasks, ran, wave, calls)
        invariant follow ==> Following(settled, state.Dump(), graph.tasks)
        invariant ran0 <= ran && Kept(old(graph.tasks), graph.tasks)
        invariant smooth ==> Smooth(l0, state.Ledger(), graph.tasks, ran, calls)
        invariant wave0 <= wave && looks == looks0 + (wave - wave0) && StopsOnTime(looks0, looks, false)
        invariant looks > looks0 ==> !late(looks0)
        invariant looks == looks0 ==> calls == calls0 && graph.tasks == old(graph.tasks) && state.Dump() == old(state.Dump())
        decreases budget.maxIterations - wave
      {
        LookedAgain(looks0, looks);
        looks := looks + 1;
        if late(looks - 1) {
          Stops(looks, wave, calls, graph.tasks);
          return looks, wave, calls, true, ran;
        }
        ghost var was, n, s := graph.tasks, graph.counter, state.Dump();
        RunInvGraph(budget, l0, state.Ledger(), was, n, wave, calls);
        var _ := Expand(state, graph, wave + 1);
        ghost var plan := NextActions(state.Dump());
        ExpandKeeps(budget, l0, state.Dump(), was, n, graph.tasks, graph.counter, plan, wave, calls);
        if follow {
          FollowingStays(settled, state.Dump(), was, graph.tasks, plan, PriorWave(was, wave + 1), wave + 1);
        }
        RunInvGraph(budget, l0, state.Ledger(), graph.tasks, graph.counter, wave, calls);
        ghost var mid, counter := graph.tasks, graph.counter;
        ExpandedIs(was, n, mid, counter, plan, wave);
        InvParts(graph.tasks, graph.counter);
        var ready := graph.Ready();
        NoDeadlock(graph.tasks, graph.counter);
        if ready == [] {
          NothingActive(graph.tasks, plan);
          ConvergedIs(state.Dump());
          HistoryIdle(reply, budget.maxToolCalls, l0, s, was, mid, counter, plan, ran, wave, calls);
          NothingGrown(was, mid, counter, wave);
          Stops(looks, wave, calls, mid);
          SmoothDrained(smooth, l0, state.Ledger(), mid, ran, calls);
          return looks, wave, calls, false, ran;
        }
        var left := budget.maxToolCalls - calls;
        if left <= 0 {
          Stops(looks, wave, calls, mid);
          StillOnTime(looks0, looks);
          ExpandedKept(was, mid, counter, plan, wave);
          KeptTransitive(old(graph.tasks), was, mid);
          HistoryIdle(reply, budget.maxToolCalls, l0, s, was, mid, counter, plan, ran, wave, calls);
          return looks, wave, calls, true, ran;
        }
        if left < |ready| {
          ready := ready[..left];
        }
        var _ := RunWave(state, graph, ready, wave, calls, l0, settled, was, ran);
        KeptTransitive(old(graph.tasks), was, graph.tasks);
        wave, calls, ran := wave + 1, calls + |ready|, ran + [IdsOf(ready)];
      }
      budgetHit := true;
      Stops(looks, wave, calls, graph.tasks);
      StillOnTime(looks0, looks);
    }

    /** Re-opens the follow-ups as tasks of the next wave that depend on all work
        so far. */
    method Inject(state: InvestigationState, graph: TaskGraph, extra: seq<Planned>, wave: nat, ghost calls: nat, ghost l0: Ledger)
      requires state.Dump().WellKeyed() && extra == Suggest(state.Dump()) && AllTerminal(graph.tasks)
      requires RunInv(budget, l0, state.Ledger(), graph.tasks, graph.counter, wave, calls)
      modifies graph
      ensures RunInv(budget, l0, state.Ledger(), graph.tasks, graph.counter, wave, calls)
      ensures forall id :: id in graph.tasks.vals && !graph.tasks.vals[id].Terminal() ==> graph.tasks.vals[id].action in extra
      ensures Extended(old(graph.tasks), graph.tasks, extra, old(graph.tasks).vals.Keys, wave + 1)
      ensures forall a :: a in extra ==> HasActive(graph.tasks, a)
      ensures extra != [] ==> !AllTerminal(graph.tasks)
    {
      hide RunInv, GraphInv, SumAttempts, Extended, HasActive, Suggest, InvestigationState.Dump, Snapshot.WellKeyed, LedgerOf;
      var injectWave := wave + 1;
      var prior := graph.tasks.vals.Keys;
      ghost var was, n := graph.tasks, graph.counter;
      RunInvGraph(budget, l0, state.Ledger(), was, n, wave, calls);
      AllEarlier(budget, l0, state.Ledger(), was, n, wave, calls);
      ExtendedSame(was, extra, prior, injectWave);
      for i := 0 to |extra|
        invariant GraphInv(graph.tasks, graph.counter) && DependsOnEarlier(graph.tasks, prior, injectWave)
        invariant Extended(was, graph.tasks, extra, prior, injectWave)
        invariant SumAttempts(graph.tasks.keys, graph.tasks.vals) == SumAttempts(was.keys, was.vals)
        invariant forall j :: 0 <= j < i ==> HasActive(graph.tasks, extra[j])
      {
        ghost var before := graph.tasks;
        graph.AddAction(extra[i], prior, injectWave, was, extra);
        forall j | 0 <= j < i ensures HasActive(graph.tasks, extra[j]) {
          ActiveStays(before, graph.tasks, extra[j], [extra[i]], prior, injectWave);
        }
      }
      forall a | a in extra && a.HuntEdr? ensures KeySet(a.keys) <= state.Ledger().judged.Keys {
        SuggestTargeted(state.Dump(), a);
      }
      ExtendKeeps(budget, l0, state.Ledger(), was, n, graph.tasks, graph.counter, extra, prior, wave, calls);
      InjectedOnly(was, graph.tasks, extra, prior, injectWave);
    }

    /** Collects the evidence: drain, reflect, drain again, until reflection proposes
        nothing or a budget trips. */
    method Run(state: InvestigationState)
      returns (graph: TaskGraph, waves: nat, toolCalls: nat, rounds: nat, ghost stop: Stop, ghost ran: seq<seq<string>>,
               ghost looks: nat)
      requires state.Dump().WellKeyed() && state.Ledger().Consistent()
      modifies state
      ensures fresh(graph) && state.Dump().WellKeyed()
      ensures RunInv(budget, old(state.Ledger()), state.Ledger(), graph.tasks, graph.counter, waves, toolCalls)
      ensures |ran| == waves && |Flat(ran)| == toolCalls && InWaves(graph.tasks, ran)
      ensures Begun(old(state.Ledger())) ==> CallsDiffer(graph.tasks, ran)
      ensures Replays(reply, old(state.Ledger()), state.Ledger(), graph.tasks, Flat(ran))
      ensures !stop.BudgetHit? ==> AllTerminal(graph.tasks) && NextActions(state.Dump()) == []
      ensures stop.BudgetHit? <==> OutOfBudget(looks, waves, toolCalls, graph.tasks)
      ensures looks == waves + rounds + if waves < budget.maxIterations then 1 else 0
      ensures StopsOnTime(0, looks, stop.BudgetHit?)
      ensures stop.NothingProposed? ==> Suggest(state.Dump()) == [] && reflects && rounds < maxRounds
      ensures stop.NoMoreRounds? ==> !reflects || rounds == maxRounds
      ensures rounds <= maxRounds && (EverythingSucceeds() ==> rounds <= 1) && (!reflects ==> rounds == 0)
      ensures graph.tasks.Valid()
      ensures EverythingSucceeds() && Begun(old(state.Ledger())) && !stop.BudgetHit? ==>
        Compares(reply, old(state.Ledger()), state.Ledger(), graph.tasks, ran, rounds)
    {
      hide RunInv, GraphInv, AllTerminal, Suggest, InvestigationState.Dump, Snapshot.WellKeyed, LedgerOf, NextActions, Extended, HasActive;
      hide Following, SuspiciousUnhunted, EverythingSucceeds, History, Replays, InWaves, Flat, Converged, Smooth, Begun;
      hide Mirrored, Beyond, Compares, Kept, LedgerPlan, Dict.Valid, CallsDiffer, FollowedUp;
      hide PriorityScheduler.StopsOnTime, PriorityScheduler.OutOfBudget;
      ghost var l0 := state.Ledger();
      graph := new TaskGraph();
      waves, toolCalls, rounds, ran := 0, 0, 0, [];
      var clock := 0;
      looks := clock;
      NotLooked(0);
      RunInvStart(budget, l0);
      HistoryStart(reply, budget.maxToolCalls, state.Dump());
      ghost var smooth := EverythingSucceeds() && Begun(l0);
      SmoothStart(l0);
      ghost var settled, first, begun := l0, graph.tasks, ran;
      while true
        invariant fresh(graph) && state.Dump().WellKeyed() && rounds <= maxRounds && (!reflects ==> rounds == 0)
        invariant looks == clock == waves + rounds && StopsOnTime(0, looks, false)
        invariant RunInv(budget, l0, state.Ledger(), graph.tasks, graph.counter, waves, toolCalls)
        invariant History(reply, budget.maxToolCalls, l0, state.Dump(), graph.tasks, ran, waves, toolCalls)
        invariant EverythingSucceeds() ==> rounds <= 1 && (rounds == 1 ==> Following(settled, state.Dump(), graph.tasks))
        invariant smooth && rounds == 0 ==> Smooth(l0, state.Ledger(), graph.tasks, ran, toolCalls)
        invariant smooth && rounds > 0 ==> Beyond(reply, l0, settled, first, begun, graph.tasks, ran)
        decreases maxRounds - rounds
      {
        var budgetHit;
        ghost var tasks0, ran0 := graph.tasks, ran;
        clock, waves, toolCalls, budgetHit, ran := Drain(state, graph, clock, waves, toolCalls, l0, settled, ran);
        StoppedOnTime(0, looks, clock, budgetHit);
        looks := clock;
        HistoryReplays(reply, budget.maxToolCalls, l0, state.Dump(), graph.tasks, ran, waves, toolCalls);
        RunInvGraph(budget, l0, state.Ledger(), graph.tasks, graph.counter, waves, toolCalls);
        InvParts(graph.tasks, graph.counter);
        if budgetHit {
          stop := BudgetHit;
          return;
        }
        NotStopped(looks, waves, toolCalls, graph.tasks);
        ConvergedIs(state.Dump());
        PlannedNothing(state.Dump());
        if EverythingSucceeds() && rounds == 1 {
          FollowingReviewed(settled, state.Dump(), graph.tasks);
        }
        if smooth {
          ComparesNow(reply, l0, settled, first, begun, tasks0, ran0, state.Ledger(), graph.tasks, ran, rounds);
        }
        if !reflects || rounds >= maxRounds {
          stop := NoMoreRounds;
          return;
        }
        var extra := SuggestActions(state);
        AfterConvergence(state.Dump());
        if extra == [] {
          stop := NothingProposed;
          return;
        }
        rounds := rounds + 1;
        ghost var was := graph.tasks;
        Inject(state, graph, extra, waves, toolCalls, l0);
        RunInvGraph(budget, l0, state.Ledger(), graph.tasks, graph.counter, waves, toolCalls);
        HistoryInjected(reply, budget.maxToolCalls, l0, state.Dump(), was, graph.tasks, graph.counter,
                        extra[0], ran, waves, toolCalls);
        FollowingInjected(state.Dump(), graph.tasks, extra);
        if smooth {
          BeyondInjected(reply, l0, state.Ledger(), was, graph.tasks, ran, extra[0], waves);
        }
        settled, first, begun := state.Ledger(), was, ran;
      }
    }
  }

  lemma PlannedNothing(s: Snapshot)
    requires s.WellKeyed() && NextActions(s) == []
    ensures LedgerPlan(LedgerOf(s)) == []
  {
    PlanRefines(s);
    EmptyAbstract(NextActions(s));
    hide NextActions, LedgerPlan, LedgerOf;
  }

  lemma RunInvStart(budget: Budget, l: Ledger)
    requires l.Consistent()
    ensures RunInv(budget, l, l, Empty(), 0, 0, 0)
  {}

  lemma HistoryReplays(reply: nat -> Reply, maxCalls: int, l0: Ledger, s: Snapshot, tasks: Tasks, ran: seq<seq<string>>,
                       wave: nat, calls: nat)
    requires History(reply, maxCalls, l0, s, tasks, ran, wave, calls)
    ensures |ran| == wave && |Flat(ran)| == calls && InWaves(tasks, ran)
    ensures Begun(l0) ==> CallsDiffer(tasks, ran)
    ensures Replays(reply, l0, LedgerOf(s), tasks, Flat(ran))
  {
  }

  lemma KeptSame(tasks: Tasks)
    ensures Kept(tasks, tasks)
  {
  }

  lemma RepliesSucceed(reply: nat -> Reply, calls: nat, n: nat)
    requires EveryOk(reply)
    ensures AllSucceed(RepliesFrom(reply, calls, n))
  {
  }

  lemma ExpandedKept(before: Tasks, mid: Tasks, counter: nat, plan: seq<Planned>, wave: nat)
    requires Expanded(before, mid, counter, plan, wave)
    ensures Kept(before, mid)
  {
    hide GraphInv, HasActive, Linked, Grown, PriorWave;
    KeptExtended(before, mid, plan, PriorWave(before, wave + 1), wave + 1);
  }

  lemma PlannedKept(before: Tasks, mid: Tasks, after: Tasks, counter: nat, plan: seq<Planned>, wave: nat,
                    ready: seq<Task>, oks: seq<bool>)
    requires Expanded(before, mid, counter, plan, wave) && Batch(mid, ready) && WaveRan(mid, after, ready, oks)
    ensures Kept(before, after)
  {
    hide Expanded, Batch, WaveRan, Kept;
    ExpandedKept(before, mid, counter, plan, wave);
    KeptRan(mid, after, ready, oks);
    KeptTransitive(before, mid, after);
  }

  lemma PlannedInv(before: Tasks, mid: Tasks, counter: nat, plan: seq<Planned>, wave: nat)
    requires Expanded(before, mid, counter, plan, wave)
    ensures GraphInv(before, |before.keys|)
  {
  }

  /** A wave of a run that does what the loop does. */
  lemma SmoothTurnKeeps(reply: nat -> Reply, maxCalls: int, l0: Ledger, s: Snapshot, m: Snapshot,
                        before: Tasks, mid: Tasks, after: Tasks, counter: nat,
                        ready: seq<Task>, oks: seq<bool>, ran: seq<seq<string>>, wave: nat, calls: nat)
    requires History(reply, maxCalls, l0, s, before, ran, wave, calls) && calls < maxCalls && s.WellKeyed()
    requires Expanded(before, mid, counter, NextActions(s), wave)
    requires mid.Valid() && ready != [] && ready <= ReadyTasks(mid)
    requires ready == ReadyTasks(mid) || calls + |ready| >= maxCalls
    requires WaveRan(mid, after, ready, oks)
    requires Begun(l0) ==>
      (LedgerOf(m), oks) == Sequential(LedgerOf(s), FramesOf(ready, RepliesFrom(reply, calls, |ready|)))
    ensures EveryOk(reply) && Begun(l0) && Alike(reply, maxCalls, l0, LedgerOf(s), before, ran, calls) ==>
      Alike(reply, maxCalls, l0, LedgerOf(m), after, ran + [IdsOf(ready)], calls + |ready|)
  {
    HistoryReplays(reply, maxCalls, l0, s, before, ran, wave, calls);
    hide History, Expanded, ReadyTasks, WaveRan, LedgerOf, Sequential, FramesOf, NextActions, GraphInv, InWaves, Flat;
    hide Snapshot.WellKeyed, EveryOk, Alike, Begun, Replays, CallsDiffer;
    if EveryOk(reply) && Begun(l0) && Alike(reply, maxCalls, l0, LedgerOf(s), before, ran, calls) {
      PlannedInv(before, mid, counter, NextActions(s), wave);
      AlikeTurn(reply, maxCalls, l0, s, m, before, mid, after, counter, NextActions(s), ready, oks, ran, wave, calls);
    }
  }

  lemma RunInvWaves(budget: Budget, l0: Ledger, l: Ledger, tasks: Tasks, counter: nat, wave: nat, calls: nat)
    requires RunInv(budget, l0, l, tasks, counter, wave, calls)
    ensures forall id :: id in tasks.vals ==> tasks.vals[id].wave <= wave + 1
  {
  }

  lemma AllEarlier(budget: Budget, l0: Ledger, l: Ledger, tasks: Tasks, counter: nat, wave: nat, calls: nat)
    requires RunInv(budget, l0, l, tasks, counter, wave, calls) && AllTerminal(tasks)
    ensures DependsOnEarlier(tasks, tasks.vals.Keys, wave + 1)
  {}

  lemma SuggestTargeted(s: Snapshot, a: Planned)
    requires s.WellKeyed() && a in Suggest(s) && a.HuntEdr?
    ensures KeySet(a.keys) <= LedgerOf(s).judged.Keys
  {
    hide Suggest, SuspiciousUnhunted;
    SuggestIs(s);
    assert Proposes(s, a);
    SuspiciousAre(s);
  }

  lemma InjectedOnly(before: Tasks, after: Tasks, extra: seq<Planned>, deps: set<string>, wave: nat)
    requires AllTerminal(before) && Extended(before, after, extra, deps, wave)
    requires |extra| > 0 ==> HasActive(after, extra[|extra| - 1])
    ensures forall id :: id in after.vals && !after.vals[id].Terminal() ==> after.vals[id].action in extra
    ensures extra != [] ==> !AllTerminal(after)
  {}

  lemma FollowingReviewed(settled: Ledger, s: Snapshot, tasks: Tasks)
    requires Following(settled, s, tasks) && AllTerminal(tasks)
    ensures SuspiciousUnhunted(s) == [] && FollowedUp(settled, LedgerOf(s))
  {
    hide SuspiciousUnhunted;
  }

  lemma FollowingInjected(s: Snapshot, tasks: Tasks, extra: seq<Planned>)
    requires Converged(s) && extra == [HuntEdr(SuspiciousUnhunted(s))] && SuspiciousUnhunted(s) != []
    requires !AllTerminal(tasks)
    requires forall id :: id in tasks.vals && !tasks.vals[id].Terminal() ==> tasks.vals[id].action in extra
    ensures Following(LedgerOf(s), s, tasks)
  {
    hide SuspiciousUnhunted, Converged;
  }

  lemma RunInvGraph(budget: Budget, l0: Ledger, l: Ledger, tasks: Tasks, counter: nat, wave: nat, calls: nat)
    requires RunInv(budget, l0, l, tasks, counter, wave, calls)
    ensures GraphInv(tasks, counter)
  {}

  lemma ConvergedIs(s: Snapshot)
    ensures Converged(s) <==> NextActions(s) == []
  {}

  lemma ExpandKeeps(budget: Budget, l0: Ledger, s: Snapshot, before: Tasks, n: nat, after: Tasks, counter: nat,
                    plan: seq<Planned>, wave: nat, calls: nat)
    requires s.WellKeyed() && plan == NextActions(s)
    requires RunInv(budget, l0, LedgerOf(s), before, n, wave, calls)
    requires GraphInv(after, counter) && Extended(before, after, plan, PriorWave(before, wave + 1), wave + 1)
    requires SumAttempts(after.keys, after.vals) == SumAttempts(before.keys, before.vals)
    ensures RunInv(budget, l0, LedgerOf(s), after, counter, wave, calls)
  {
    assert LedgerOf(s).Consistent();
    hide RunInv, GraphInv, Extended, SumAttempts, NextActions, LedgerOf, PriorWave;
    forall a | a in plan && a.HuntEdr? ensures KeySet(a.keys) <= LedgerOf(s).judged.Keys {
      PlanTargeted(s, a);
    }
    ExtendKeeps(budget, l0, LedgerOf(s), before, n, after, counter, plan, PriorWave(before, wave + 1), wave, calls);
  }

  lemma ExpandedIs(before: Tasks, n: nat, mid: Tasks, counter: nat, plan: seq<Planned>, wave: nat)
    requires GraphInv(before, n) && GraphInv(mid, counter)
    requires Extended(before, mid, plan, PriorWave(before, wave + 1), wave + 1) && forall a :: a in plan ==> HasActive(mid, a)
    requires (mid, counter) == Grown(before, n, plan, PriorWave(before, wave + 1), wave + 1)
    ensures Expanded(before, mid, counter, plan, wave)
  {
    hide Grown, Extended, HasActive, PriorWave, Exclusive, AllSettled;
  }

  lemma NothingActive(tasks: Tasks, plan: seq<Planned>)
    requires AllTerminal(tasks) && forall a :: a in plan ==> HasActive(tasks, a)
    ensures plan == []
  {
    forall a ensures !HasActive(tasks, a) {}
    NoElement(plan);
  }

  /** Once the planner has nothing left, expanding adds nothing. */
  lemma FollowingStays(settled: Ledger, s: Snapshot, before: Tasks, after: Tasks, plan: seq<Planned>, deps: set<string>, wave: nat)
    requires Following(settled, s, before) && plan == NextActions(s) && Extended(before, after, plan, deps, wave)
    ensures Following(settled, s, after)
  {
    hide SuspiciousUnhunted, NextActions;
    assert plan == [];
    assert forall id :: id in after.vals <==> id in before.vals;
  }
}
