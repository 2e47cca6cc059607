/** The task-graph strategy's trace: one step per task that ran, wave by wave. */
module TaskTraces {
  import opened Sorting
  import opened OrderedDict
  import opened State
  import opened Planner
  import opened Tools
  import opened TaskGraphs
  import opened Histories
  import opened Mirrors
  import opened Agreement
  import Loop
  import opened Scheduler

  function AttemptsOf(ts: seq<Task>): nat {
    if ts == [] then 0 else AttemptsOf(ts[..|ts| - 1]) + ts[|ts| - 1].attempts
  }

  function Ran(ts: seq<Task>): seq<Task> {
    if ts == [] then []
    else Ran(ts[..|ts| - 1]) + if ts[|ts| - 1].attempts == 0 then [] else [ts[|ts| - 1]]
  }

  // ---------------------------------------------------------------- the sum survives sorting

  lemma {:induction false} AttemptsCons(t: Task, ts: seq<Task>)
    ensures AttemptsOf([t] + ts) == t.attempts + AttemptsOf(ts)
  {
    if ts == [] {
      assert [t] + ts == [t] && [t][..0] == [];
    } else {
      AttemptsCons(t, ts[..|ts| - 1]);
      assert ([t] + ts)[..|ts|] == [t] + ts[..|ts| - 1];
    }
  }

  lemma {:induction false} AttemptsInsert(t: Task, ts: seq<Task>)
    ensures AttemptsOf(Insert(TraceLe, t, ts)) == t.attempts + AttemptsOf(ts)
  {
    hide TraceLe;
    if ts == [] || TraceLe(t, ts[0]) {
      AttemptsCons(t, ts);
    } else {
      AttemptsInsert(t, ts[1..]);
      AttemptsCons(ts[0], Insert(TraceLe, t, ts[1..]));
      AttemptsCons(ts[0], ts[1..]);
      assert ts == [ts[0]] + ts[1..];
    }
  }

  lemma {:induction false} AttemptsSort(ts: seq<Task>)
    ensures AttemptsOf(Sort(TraceLe, ts)) == AttemptsOf(ts)
  {
    hide TraceLe;
    if ts == [] {
    } else {
      AttemptsSort(ts[1..]);
      AttemptsInsert(ts[0], Sort(TraceLe, ts[1..]));
      AttemptsCons(ts[0], ts[1..]);
      assert ts == [ts[0]] + ts[1..];
    }
  }

  lemma {:induction false} AttemptsListed(tasks: Tasks, n: nat)
    requires tasks.Valid() && n <= |tasks.keys|
    ensures AttemptsOf(tasks.Values()[..n]) == SumAttempts(tasks.keys[..n], tasks.vals)
  {
    if n == 0 {
    } else {
      AttemptsListed(tasks, n - 1);
      assert tasks.Values()[..n][..n - 1] == tasks.Values()[..n - 1];
      assert tasks.keys[..n][..n - 1] == tasks.keys[..n - 1];
    }
  }

  lemma AttemptsTotal(tasks: Tasks)
    requires tasks.Valid()
    ensures AttemptsOf(Sort(TraceLe, tasks.Values())) == SumAttempts(tasks.keys, tasks.vals)
  {
    AttemptsSort(tasks.Values());
    AttemptsListed(tasks, |tasks.keys|);
    assert tasks.Values()[..|tasks.keys|] == tasks.Values();
    assert tasks.keys[..|tasks.keys|] == tasks.keys;
  }

  lemma {:induction false} RanAre(ts: seq<Task>)
    requires Sorted(TraceLe, ts)
    ensures Sorted(TraceLe, Ran(ts))
    ensures forall t :: t in Ran(ts) <==> t in ts && t.attempts > 0
  {
    hide TraceLe;
    if ts == [] {
    } else {
      var head, last := ts[..|ts| - 1], ts[|ts| - 1];
      RanAre(head);
      assert ts == head + [last];
      if last.attempts > 0 {
        forall i | 0 <= i < |Ran(head)| ensures TraceLe(Ran(head)[i], last) {
          assert Ran(head)[i] in Ran(head);
          var j :| 0 <= j < |head| && head[j] == Ran(head)[i];
          assert TraceLe(ts[j], ts[|ts| - 1]);
        }
      }
    }
  }

  /** `trace` reports a finished graph: numbered from 1 without gaps, in wave order, with
      exactly the tasks that were ever attempted. */
  ghost predicate Reports(trace: seq<Loop.TraceStep>, tasks: Tasks) {
    exists ran: seq<Task> ::
      && trace == StepsOf(ran)
      && Sorted(TraceLe, ran)
      && (forall t :: t in ran <==> exists id :: id in tasks.vals && tasks.vals[id] == t && t.attempts > 0)
      && Distinct(ran)
  }

  // ---------------------------------------------------------------- beside the batch loop

  /** A finished run beside the batch loop of a world that gives the same answers: the
      reports are the same exactly when reflection added nothing, no iteration repeats a
      call, and no iteration is numbered against string order. The
      ledger is the loop's, after a follow-up with its suspicious keys hunted and the hits added. */
  ghost predicate BesideLoop(l0: Ledger, ans: Answerer, w: nat, l: Ledger, trace: seq<Loop.TraceStep>, rounds: nat) {
    var loop := Looped(l0, ans, w);
    && LoopDone(l0, ans, w)
    && (if rounds == 0 then l == loop.ledger else FollowedUp(loop.ledger, l))
    && (trace == loop.trace <==> rounds == 0 && NoRepeats(l0, ans, w) && InStringOrder(loop.trace))
  }

  ghost predicate ComparesReports(reply: nat -> Reply, l0: Ledger, l: Ledger, tasks: Tasks, ran: seq<seq<string>>,
                                  trace: seq<Loop.TraceStep>, rounds: nat) {
    forall ans: Answerer :: AnswersRun(reply, ans, tasks, ran) ==>
      exists w: nat :: BesideLoop(l0, ans, w, l, trace, rounds) && (rounds == 0 ==> w == |ran|)
  }

  lemma {:induction false} AllRan(ts: seq<Task>)
    requires forall t :: t in ts ==> t.attempts > 0
    ensures Ran(ts) == ts
  {
    if ts == [] {
    } else {
      assert ts == ts[..|ts| - 1] + [ts[|ts| - 1]];
      AllRan(ts[..|ts| - 1]);
    }
  }

  /** When every task is done at the first attempt, the report lists them all. */
  lemma DoneReported(tasks: Tasks)
    requires tasks.Valid() && AllDone(tasks)
    ensures Ran(Sort(TraceLe, tasks.Values())) == Sort(TraceLe, tasks.Values())
    ensures |Sort(TraceLe, tasks.Values())| == |tasks.keys|
  {
    hide TraceLe, Ran;
    var ts := tasks.Values();
    TraceOrder();
    SortCorrect(TraceLe, ts);
    forall t | t in Sort(TraceLe, ts) ensures t.attempts > 0 {
      var i :| 0 <= i < |ts| && ts[i] == t;
      assert tasks.keys[i] in tasks.vals;
    }
    AllRan(Sort(TraceLe, ts));
  }

  lemma PlainReport(l0: Ledger, ans: Answerer, w: nat, l: Ledger, tasks: Tasks)
    requires Identified(tasks, |tasks.keys|) && tasks.Valid() && ComparesPlain(l0, ans, l, tasks, w)
    ensures BesideLoop(l0, ans, w, l, StepsOf(Ran(Sort(TraceLe, tasks.Values()))), 0)
  {
    hide Ran, Sort, TraceLe, Looped, LoopDone, NoRepeats, InStringOrder, StepsDiffer, Orderly, Identified, AllDone, StepsOf, Dict.Valid, Dict.Values;
    DoneReported(tasks);
    LoopOrderly(l0, ans, w);
    if NoRepeats(l0, ans, w) {
      LoopDiffers(l0, ans, w);
      ReportAgrees(tasks, Looped(l0, ans, w).trace, w);
    }
  }

  /** A task of a finished graph has its step in the report. */
  lemma TaskReported(tasks: Tasks, counter: nat, id: string)
    requires GraphInv(tasks, counter) && AllTerminal(tasks) && id in tasks.vals
    ensures tasks.Valid()
    ensures var listed := Ran(Sort(TraceLe, tasks.Values())); exists j :: 0 <= j < |listed| && listed[j] == tasks.vals[id]
  {
    hide Ran, Sort, TraceLe, Linked, Exclusive, IdOf;
    var t := tasks.vals[id];
    var i :| 0 <= i < |tasks.keys| && tasks.keys[i] == id;
    assert tasks.Values()[i] == t && Settled(t) && t.attempts > 0;
    TraceOrder();
    SortCorrect(TraceLe, tasks.Values());
    RanAre(Sort(TraceLe, tasks.Values()));
    assert t in Ran(Sort(TraceLe, tasks.Values()));
  }

  /** The follow-up's step is of an iteration that the loop never began. */
  lemma FurtherReport(l0: Ledger, ans: Answerer, w: nat, l: Ledger, tasks: Tasks, counter: nat, rounds: nat)
    requires GraphInv(tasks, counter) && AllTerminal(tasks) && ComparesFurther(l0, ans, l, tasks, w) && rounds > 0
    ensures tasks.Valid() && BesideLoop(l0, ans, w, l, StepsOf(Ran(Sort(TraceLe, tasks.Values()))), rounds)
  {
    hide Ran, Sort, TraceLe, Looped, LoopDone, NoRepeats, InStringOrder, GraphInv, AllTerminal, Dict.Valid, Dict.Values, FollowedUp;
    var id :| id in tasks.vals && tasks.vals[id].action.HuntEdr? && tasks.vals[id].wave == w + 1;
    TaskReported(tasks, counter, id);
    var listed := Ran(Sort(TraceLe, tasks.Values()));
    var j :| 0 <= j < |listed| && listed[j] == tasks.vals[id];
    assert StepsOf(listed)[j].iteration == w + 1;
    LoopOrderly(l0, ans, w);
  }

  lemma LoopReported(reply: nat -> Reply, l0: Ledger, l: Ledger, tasks: Tasks, counter: nat, ran: seq<seq<string>>, rounds: nat)
    requires GraphInv(tasks, counter) && AllTerminal(tasks) && tasks.Valid() && Compares(reply, l0, l, tasks, ran, rounds)
    ensures ComparesReports(reply, l0, l, tasks, ran, StepsOf(Ran(Sort(TraceLe, tasks.Values()))), rounds)
  {
    assert Identified(tasks, |tasks.keys|);
    hide GraphInv, AllTerminal, ComparesFurther, Ran, Sort, TraceLe, AnswersRun, BesideLoop, ComparesPlain, Identified;
    hide Dict.Valid, Dict.Values, StepsOf;
    forall ans: Answerer | AnswersRun(reply, ans, tasks, ran)
      ensures exists w: nat ::
        BesideLoop(l0, ans, w, l, StepsOf(Ran(Sort(TraceLe, tasks.Values()))), rounds) && (rounds == 0 ==> w == |ran|)
    {
      if rounds == 0 {
        PlainReport(l0, ans, |ran|, l, tasks);
      } else {
        var w: nat :| ComparesFurther(l0, ans, l, tasks, w);
        FurtherReport(l0, ans, w, l, tasks, counter, rounds);
      }
    }
  }

  // ---------------------------------------------------------------- the program

  method CollectTaskGraph(state: InvestigationState, scheduler: PriorityScheduler)
    returns (trace: seq<Loop.TraceStep>, toolCalls: nat, graph: TaskGraph, waves: nat, rounds: nat,
             ghost stop: Stop, ghost ran: seq<seq<string>>, ghost looks: nat)
    requires state.Dump().WellKeyed() && state.Ledger().Consistent()
    modifies state
    ensures RunInv(scheduler.budget, old(state.Ledger()), state.Ledger(), graph.tasks, graph.counter, waves, toolCalls)
    ensures Reports(trace, graph.tasks)
    ensures |ran| == waves && |Flat(ran)| == toolCalls && InWaves(graph.tasks, ran)
    ensures Begun(old(state.Ledger())) ==> CallsDiffer(graph.tasks, ran)
    ensures Replays(scheduler.reply, old(state.Ledger()), state.Ledger(), graph.tasks, Flat(ran))
    ensures !stop.BudgetHit? ==> AllTerminal(graph.tasks) && NextActions(state.Dump()) == []
    ensures stop.BudgetHit? <==> scheduler.OutOfBudget(looks, waves, toolCalls, graph.tasks)
    ensures looks == waves + rounds + if waves < scheduler.budget.maxIterations then 1 else 0
    ensures scheduler.StopsOnTime(0, looks, stop.BudgetHit?)
    ensures scheduler.EverythingSucceeds() && Begun(old(state.Ledger())) && !stop.BudgetHit? ==>
      ComparesReports(scheduler.reply, old(state.Ledger()), state.Ledger(), graph.tasks, ran, trace, rounds)
  {
    hide PriorityScheduler.EverythingSucceeds, Compares, ComparesReports, GraphInv, Begun, Dict.Valid, CallsDiffer;
    hide Ran, SumAttempts, TraceLe, RunInv, AttemptsOf, Sort, Reports, NextActions, AllTerminal, Replays, InWaves, Flat;
    hide InvestigationState.Dump, Snapshot.WellKeyed;
    var calls;
    graph, waves, calls, rounds, stop, ran, looks := scheduler.Run(state);
    RunFacts(scheduler.budget, old(state.Ledger()), state.Ledger(), graph.tasks, graph.counter, waves, calls);
    var tasks := Sort(TraceLe, graph.tasks.Values());
    AttemptsTotal(graph.tasks);
    ReportsAll(graph.tasks);
    trace, toolCalls := TraceOf(tasks);
    if scheduler.EverythingSucceeds() && Begun(old(state.Ledger())) && !stop.BudgetHit? {
      RunInvGraph(scheduler.budget, old(state.Ledger()), state.Ledger(), graph.tasks, graph.counter, waves, calls);
      LoopReported(scheduler.reply, old(state.Ledger()), state.Ledger(), graph.tasks, graph.counter, ran, rounds);
    }
  }

  method TraceOf(tasks: seq<Task>) returns (trace: seq<Loop.TraceStep>, toolCalls: nat)
    ensures trace == StepsOf(Ran(tasks)) && toolCalls == AttemptsOf(tasks)
  {
    hide Ran, AttemptsOf;
    trace, toolCalls := [], 0;
    RanNone();
    for i := 0 to |tasks|
      invariant trace == StepsOf(Ran(tasks[..i]))
      invariant toolCalls == AttemptsOf(tasks[..i])
    {
      var task := tasks[i];
      RanNext(tasks, i);
      if task.attempts == 0 {
        continue;
      }
      toolCalls := toolCalls + task.attempts;
      trace := trace + [Loop.ActStep(|trace| + 1, task.wave, AbstractAction(task.action), task.ok)];
    }
    assert tasks[..|tasks|] == tasks;
  }

  lemma RanNone()
    ensures Ran([]) == [] && AttemptsOf([]) == 0
  {
  }

  lemma RunFacts(budget: Budget, l0: Ledger, l: Ledger, tasks: Tasks, counter: nat, waves: nat, calls: nat)
    requires RunInv(budget, l0, l, tasks, counter, waves, calls)
    ensures tasks.Valid() && forall id :: id in tasks.vals ==> tasks.vals[id].id == id
    ensures calls == SumAttempts(tasks.keys, tasks.vals)
  {
  }

  lemma RanNext(ts: seq<Task>, i: nat)
    requires i < |ts|
    ensures AttemptsOf(ts[..i + 1]) == AttemptsOf(ts[..i]) + ts[i].attempts
    ensures Ran(ts[..i + 1]) == if ts[i].attempts == 0 then Ran(ts[..i]) else Ran(ts[..i]) + [ts[i]]
  {
    assert ts[..i + 1][..i] == ts[..i];
  }

  lemma {:induction false} RanDistinct(ts: seq<Task>)
    requires Distinct(ts)
    ensures Distinct(Ran(ts)) && forall t :: t in Ran(ts) ==> t in ts
  {
    if ts == [] {
    } else {
      var head, last := ts[..|ts| - 1], ts[|ts| - 1];
      RanDistinct(head);
      assert ts == head + [last] && last !in head;
    }
  }

  lemma ReportsAll(tasks: Tasks)
    requires tasks.Valid() && forall id :: id in tasks.vals ==> tasks.vals[id].id == id
    ensures Reports(StepsOf(Ran(Sort(TraceLe, tasks.Values()))), tasks)
  {
    hide TraceLe, Ran, StepsOf;
    var values := tasks.Values();
    TraceOrder();
    SortCorrect(TraceLe, values);
    forall i, j | 0 <= i < j < |values| ensures values[i] != values[j] {
      assert values[i].id == tasks.keys[i] && values[j].id == tasks.keys[j];
    }
    SortKeepsDistinct(TraceLe, values);
    var sorted := Sort(TraceLe, values);
    RanAre(sorted);
    RanDistinct(sorted);
    forall t ensures t in Ran(sorted) <==> exists id :: id in tasks.vals && tasks.vals[id] == t && t.attempts > 0 {
      if id :| id in tasks.vals && tasks.vals[id] == t && t.attempts > 0 {
        assert id in tasks.keys;
        var i :| 0 <= i < |tasks.keys| && tasks.keys[i] == id;
        assert values[i] == t;
      }
    }
  }
}
