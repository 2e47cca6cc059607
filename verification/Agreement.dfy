/** When the task-graph strategy reports the batch loop's trace. Its report lists the tasks
    by wave and, within a wave, by identifier as a string, so t10 before t9. */
module Agreement {
  import opened Options
  import opened Sorting
  import opened OrderedDict
  import opened State
  import opened Planner
  import opened Tools
  import opened Loop
  import opened Convergence
  import opened TaskGraphs
  import opened Smooth
  import opened Mirrors
  import Workflow

  predicate TraceLe(a: Task, b: Task) {
    a.wave < b.wave || (a.wave == b.wave && StringLe(a.id, b.id))
  }

  lemma TraceOrder()
    ensures TotalPreorder(TraceLe)
  {
    hide StringLe;
    StringOrder();
  }

  /** The steps of an iteration are numbered in string order. */
  ghost predicate InStringOrder(trace: seq<TraceStep>) {
    forall i, j :: 0 <= i < j < |trace| && trace[i].iteration == trace[j].iteration ==>
      StringLe(IdOf(i + 1), IdOf(j + 1))
  }

  // ---------------------------------------------------------------- numbers as strings

  lemma {:induction false} LeBehindPrefix(p: string, a: string, b: string)
    ensures StringLe(p + a, p + b) <==> StringLe(a, b)
  {
    if p == "" {
      assert p + a == a && p + b == b;
    } else {
      assert (p + a)[1..] == p[1..] + a && (p + b)[1..] == p[1..] + b;
      LeBehindPrefix(p[1..], a, b);
    }
  }

  lemma {:induction false} LeBefore(a: string, b: string, x: string, y: string)
    requires StringLe(a, b) && |a| == |b| && a != b
    ensures StringLe(a + x, b + y)
  {
    if a[0] == b[0] {
      assert (a + x)[1..] == a[1..] + x && (b + y)[1..] == b[1..] + y;
      LeBefore(a[1..], b[1..], x, y);
    }
  }

  lemma {:induction false} LengthsGrow(m: nat, n: nat)
    requires m <= n
    ensures |Decimal(m)| <= |Decimal(n)|
  {
    if n < 10 {
    } else if m < 10 {
      DecimalLength(m);
      DecimalLength(n);
    } else {
      LengthsGrow(m / 10, n / 10);
    }
  }

  /** Numbers of as many digits compare as numbers. */
  lemma {:induction false} OneLengthInOrder(m: nat, n: nat)
    requires m < n && |Decimal(m)| == |Decimal(n)|
    ensures StringLe(Decimal(m), Decimal(n))
  {
    DecimalLength(m);
    DecimalLength(n);
    if n >= 10 {
      var a, b := Decimal(m / 10), Decimal(n / 10);
      var x, y := ["0123456789"[m % 10]], ["0123456789"[n % 10]];
      assert Decimal(m) == a + x && Decimal(n) == b + y;
      if m / 10 == n / 10 {
        LeBehindPrefix(a, x, y);
      } else {
        OneLengthInOrder(m / 10, n / 10);
        IdsDiffer(m / 10, n / 10);
        LeBefore(a, b, x, y);
      }
    }
  }

  /** Where a digit is gained, 9.. is followed by 10... */
  lemma {:induction false} DigitGained(n: nat)
    requires |Decimal(n)| != |Decimal(n + 1)|
    ensures Decimal(n)[0] == '9' && Decimal(n + 1)[0] == '1'
  {
    if n >= 10 {
      assert (n + 1) / 10 == n / 10 || (n + 1) / 10 == n / 10 + 1;
      DigitGained(n / 10);
    }
  }

  lemma IdLe(m: nat, n: nat)
    ensures StringLe(IdOf(m), IdOf(n)) <==> StringLe(Decimal(m), Decimal(n))
  {
    hide Decimal, StringLe;
    LeBehindPrefix("t", Decimal(m), Decimal(n));
  }

  ghost predicate IdsInOrder(first: nat, last: nat) {
    forall i, j :: first <= i < j <= last ==> StringLe(IdOf(i), IdOf(j))
  }

  /** Consecutive identifiers are in string order exactly when they are of one length. */
  lemma {:induction false} IdsInOrderIs(first: nat, last: nat)
    requires first <= last
    ensures IdsInOrder(first, last) <==> |Decimal(first)| == |Decimal(last)|
    decreases last
  {
    hide Decimal, StringLe, IdOf;
    if |Decimal(first)| == |Decimal(last)| {
      forall i, j | first <= i < j <= last ensures StringLe(IdOf(i), IdOf(j)) {
        LengthsGrow(first, i);
        LengthsGrow(i, j);
        LengthsGrow(j, last);
        OneLengthInOrder(i, j);
        IdLe(i, j);
      }
    } else {
      IdsInOrderIs(first, last - 1);
      if |Decimal(first)| == |Decimal(last - 1)| {
        OutOfOrder(last - 1);
      }
    }
  }

  lemma OutOfOrder(n: nat)
    requires |Decimal(n)| != |Decimal(n + 1)|
    ensures !StringLe(IdOf(n), IdOf(n + 1))
  {
    DigitGained(n);
    DecimalLength(n);
    IdLe(n, n + 1);
    hide Decimal, IdOf;
  }

  // ---------------------------------------------------------------- the loop's trace

  /** Iterations from 1 to `w`, in order. */
  ghost predicate Orderly(trace: seq<TraceStep>, w: nat) {
    && (forall i :: 0 <= i < |trace| ==> 1 <= trace[i].iteration <= w)
    && (forall i, j :: 0 <= i < j < |trace| ==> trace[i].iteration <= trace[j].iteration)
  }

  /** No two steps of an iteration are for the same call. */
  ghost predicate StepsDiffer(trace: seq<TraceStep>) {
    forall i, j :: 0 <= i < j < |trace| && trace[i].iteration == trace[j].iteration ==> trace[i].call != trace[j].call
  }

  /** `longer` is `trace` with the steps of the plan of iteration `w`. */
  ghost predicate Lengthened(trace: seq<TraceStep>, w: nat, plan: seq<LedgerAction>, longer: seq<TraceStep>) {
    && |longer| == |trace| + |plan|
    && (forall i :: 0 <= i < |trace| ==> longer[i] == trace[i] && longer[i].iteration < w)
    && (forall i :: |trace| <= i < |longer| ==> longer[i].iteration == w && longer[i].call == Some(plan[i - |trace|]))
  }

  lemma StepsLengthened(trace: seq<TraceStep>, w: nat, plan: seq<LedgerAction>, oks: seq<bool>)
    requires Orderly(trace, w) && |oks| == |plan|
    ensures Lengthened(trace, w + 1, plan, trace + ActSteps(plan, oks, |trace| + 1, w + 1))
  {
    hide ToolName;
  }

  lemma NoStepsYet(l0: Ledger, ans: Answerer)
    ensures Looped(l0, ans, 0) == Progress(l0, 0, [])
  {
  }

  /** One more iteration of the loop, as its trace shows it. */
  lemma LoopLengthened(l0: Ledger, ans: Answerer, w: nat)
    requires Orderly(Looped(l0, ans, w).trace, w)
    ensures Lengthened(Looped(l0, ans, w).trace, w + 1, LedgerPlan(Looped(l0, ans, w).ledger), Looped(l0, ans, w + 1).trace)
  {
    LoopedNext(l0, ans, w);
    hide Looped, LedgerPlan, Round, At, ActSteps, Orderly, Lengthened;
    var p := Looped(l0, ans, w);
    var plan := LedgerPlan(p.ledger);
    StepsLengthened(p.trace, w, plan, Round(p.ledger, plan, Answers(At(ans, w + 1), plan)).1);
  }

  lemma {:induction false} LoopOrderly(l0: Ledger, ans: Answerer, w: nat)
    ensures Orderly(Looped(l0, ans, w).trace, w)
  {
    hide Looped, LedgerPlan;
    if w == 0 {
      NoStepsYet(l0, ans);
    } else {
      LoopOrderly(l0, ans, w - 1);
      LoopLengthened(l0, ans, w - 1);
    }
  }

  lemma {:induction false} LoopDiffers(l0: Ledger, ans: Answerer, w: nat)
    requires NoRepeats(l0, ans, w)
    ensures StepsDiffer(Looped(l0, ans, w).trace)
  {
    hide Looped, LedgerPlan;
    if w == 0 {
      NoStepsYet(l0, ans);
    } else {
      NoRepeatsNext(l0, ans, w - 1);
      LoopDiffers(l0, ans, w - 1);
      LoopOrderly(l0, ans, w - 1);
      LoopLengthened(l0, ans, w - 1);
      StepsDifferNext(Looped(l0, ans, w - 1).trace, w, LedgerPlan(Looped(l0, ans, w - 1).ledger), Looped(l0, ans, w).trace);
    }
  }

  lemma StepsDifferNext(trace: seq<TraceStep>, w: nat, plan: seq<LedgerAction>, longer: seq<TraceStep>)
    requires Lengthened(trace, w, plan, longer) && Distinct(plan) && StepsDiffer(trace)
    ensures StepsDiffer(longer)
  {
    forall i, j | 0 <= i < j < |longer| && longer[i].iteration == longer[j].iteration ensures longer[i].call != longer[j].call {
      if j < |trace| {
        assert longer[i] == trace[i] && longer[j] == trace[j];
      } else {
        assert i >= |trace|;
        assert plan[i - |trace|] != plan[j - |trace|];
      }
    }
  }

  // ---------------------------------------------------------------- sorting the tasks

  lemma {:induction false} SortSorted(ts: seq<Task>)
    requires Sorted(TraceLe, ts)
    ensures Sort(TraceLe, ts) == ts
  {
    hide TraceLe;
    if ts == [] {
    } else {
      SortSorted(ts[1..]);
      assert |ts| > 1 ==> TraceLe(ts[0], ts[1]);
    }
  }

  /** What a step says about a task: its wave and its call. */
  function CallOf(t: Task): (nat, LedgerAction) { (t.wave, AbstractAction(t.action)) }

  /** If sorting changes no step, and no two tasks have the same, it moves no task. */
  lemma SameCallsSame(ts: seq<Task>, sorted: seq<Task>)
    requires |sorted| == |ts| && forall t :: t in sorted ==> t in ts
    requires forall i :: 0 <= i < |ts| ==> CallOf(sorted[i]) == CallOf(ts[i])
    requires forall i, j :: 0 <= i < j < |ts| ==> CallOf(ts[i]) != CallOf(ts[j])
    ensures sorted == ts
  {
    hide CallOf;
    forall i | 0 <= i < |ts| ensures sorted[i] == ts[i] {
      assert sorted[i] in sorted;
      var j :| 0 <= j < |ts| && ts[j] == sorted[i];
    }
  }

  /** The tasks of steps that all succeeded: numbered from 1, each with its step's call. */
  ghost predicate Tells(ts: seq<Task>, trace: seq<TraceStep>) {
    && |trace| == |ts|
    && forall i :: 0 <= i < |trace| ==>
         ts[i].id == IdOf(i + 1) && trace[i].call == Some(CallOf(ts[i]).1) && trace[i].iteration == CallOf(ts[i]).0
  }

  /** The tasks sorted for the report are the loop's steps exactly when every iteration is
      numbered in string order. */
  lemma ReportAgrees(tasks: Tasks, trace: seq<TraceStep>, w: nat)
    requires Identified(tasks, |tasks.keys|) && StepsOf(tasks.Values()) == trace && Orderly(trace, w) && StepsDiffer(trace)
    ensures StepsOf(Sort(TraceLe, tasks.Values())) == trace <==> InStringOrder(trace)
  {
    var ts := tasks.Values();
    TraceOrder();
    SortCorrect(TraceLe, ts);
    var sorted := Sort(TraceLe, ts);
    StepsTell(tasks, trace);
    hide Identified, StepsOf, Sort, Dict.Valid, Dict.Values, TraceLe, InStringOrder, Orderly, StepsDiffer, Tells;
    if InStringOrder(trace) {
      OrderedSorted(ts, trace, w);
      SortSorted(ts);
    } else if StepsOf(sorted) == trace {
      StepsAlike(sorted, ts);
      CallsApart(ts, trace);
      SameCallsSame(ts, sorted);
      OrderedIfSorted(ts, trace);
    }
  }

  lemma StepsTell(tasks: Tasks, trace: seq<TraceStep>)
    requires Identified(tasks, |tasks.keys|) && StepsOf(tasks.Values()) == trace
    ensures Tells(tasks.Values(), trace)
  {
    hide IdOf, ToolName, AbstractAction;
    assert |StepsOf(tasks.Values())| == |tasks.Values()|;
  }

  lemma StepsAlike(a: seq<Task>, b: seq<Task>)
    requires StepsOf(a) == StepsOf(b)
    ensures |a| == |b| && forall i :: 0 <= i < |a| ==> CallOf(a[i]) == CallOf(b[i])
  {
    hide ToolName, AbstractAction;
    forall i | 0 <= i < |a| ensures CallOf(a[i]) == CallOf(b[i]) {
      assert StepsOf(a)[i] == StepsOf(b)[i];
    }
  }

  lemma CallsApart(ts: seq<Task>, trace: seq<TraceStep>)
    requires Tells(ts, trace) && StepsDiffer(trace)
    ensures forall i, j :: 0 <= i < j < |ts| ==> CallOf(ts[i]) != CallOf(ts[j])
  {
    hide CallOf, IdOf;
    forall i, j | 0 <= i < j < |ts| ensures CallOf(ts[i]) != CallOf(ts[j]) {
      assert trace[i].iteration == trace[j].iteration ==> trace[i].call != trace[j].call;
    }
  }

  lemma OrderedSorted(ts: seq<Task>, trace: seq<TraceStep>, w: nat)
    requires Tells(ts, trace) && Orderly(trace, w) && InStringOrder(trace)
    ensures Sorted(TraceLe, ts)
  {
    hide IdOf, StringLe, AbstractAction;
    forall i, j | 0 <= i < j < |ts| ensures TraceLe(ts[i], ts[j]) {
      assert trace[i].iteration <= trace[j].iteration;
    }
  }

  lemma OrderedIfSorted(ts: seq<Task>, trace: seq<TraceStep>)
    requires Tells(ts, trace) && Sorted(TraceLe, ts)
    ensures InStringOrder(trace)
  {
    hide IdOf, StringLe, AbstractAction;
    forall i, j | 0 <= i < j < |trace| && trace[i].iteration == trace[j].iteration ensures StringLe(IdOf(i + 1), IdOf(j + 1)) {
      assert TraceLe(ts[i], ts[j]);
    }
  }

  // ---------------------------------------------------------------- the loop in that world

  function PlanAt(l0: Ledger, ans: Answerer, k: nat): seq<LedgerAction> { LedgerPlan(Looped(l0, ans, k).ledger) }

  /** The loop's world gives the same answers. */
  ghost predicate Gives(world: World, l0: Ledger, ans: Answerer, w: nat) {
    forall k :: 0 <= k < w ==> world.Replies(k + 1, |PlanAt(l0, ans, k)|) == Answers(At(ans, k + 1), PlanAt(l0, ans, k))
  }

  lemma {:induction false} CallsGrow(l0: Ledger, ans: Answerer, k: nat, w: nat)
    requires k < w
    ensures Looped(l0, ans, k).calls + |PlanAt(l0, ans, k)| <= Looped(l0, ans, w).calls
    decreases w - k
  {
    hide LedgerPlan, Round, At, Looped, ActSteps;
    LoopedNext(l0, ans, k);
    if k + 1 < w {
      CallsGrow(l0, ans, k + 1, w);
    }
  }

  lemma LoopStep(l0: Ledger, ans: Answerer, world: World, budget: Budget, k: nat)
    requires k < budget.maxIterations && !world.late(k + 1) && PlanAt(l0, ans, k) != []
    requires Looped(l0, ans, k).calls + |PlanAt(l0, ans, k)| <= budget.maxToolCalls
    requires world.Replies(k + 1, |PlanAt(l0, ans, k)|) == Answers(At(ans, k + 1), PlanAt(l0, ans, k))
    ensures Iterate(Looped(l0, ans, k), world, budget, k + 1) == Iterate(Looped(l0, ans, k + 1), world, budget, k + 2)
  {
    hide LedgerPlan, Round, At, Looped, ActSteps, Iterate, Answers;
    LoopedNext(l0, ans, k);
    var p, plan := Looped(l0, ans, k), PlanAt(l0, ans, k);
    var (next, oks) := Round(p.ledger, plan, Answers(At(ans, k + 1), plan));
    RoundIs(p.ledger, plan, Answers(At(ans, k + 1), plan));
    IterateActs(p, world, budget, k + 1, plan, next, oks);
  }

  lemma {:induction false} LoopFrom(l0: Ledger, ans: Answerer, world: World, budget: Budget, w: nat, k: nat)
    requires k <= w <= budget.maxIterations && LoopDone(l0, ans, w) && Gives(world, l0, ans, w)
    requires (forall it: nat :: !world.late(it)) && Looped(l0, ans, w).calls <= budget.maxToolCalls
    ensures Iterate(Looped(l0, ans, k), world, budget, k + 1) == Looped(l0, ans, w)
    decreases w - k
  {
    hide LedgerPlan, Looped, Iterate, At, Answers;
    if k == w {
      IterateStops(Looped(l0, ans, w), world, budget, w + 1);
    } else {
      CallsGrow(l0, ans, k, w);
      assert LoopActs(l0, ans, k);
      LoopStep(l0, ans, world, budget, k);
      LoopFrom(l0, ans, world, budget, w, k + 1);
    }
  }

  /** The batch loop of a world that gives these answers, never late and within budget. */
  lemma LoopEnds(l0: Ledger, ans: Answerer, world: World, budget: Budget, w: nat)
    requires w <= budget.maxIterations && LoopDone(l0, ans, w) && Gives(world, l0, ans, w)
    requires (forall it: nat :: !world.late(it)) && Looped(l0, ans, w).calls <= budget.maxToolCalls
    ensures Iterate(Progress(l0, 0, []), world, budget, 1) == Looped(l0, ans, w)
  {
    NoStepsYet(l0, ans);
    hide Looped, Iterate, LoopDone, Gives;
    LoopFrom(l0, ans, world, budget, w, 0);
  }

  // ---------------------------------------------------------------- the order, plan by plan

  /** The `m` calls of a plan made after `n` others are in string order. */
  ghost predicate PlanInOrder(n: nat, m: nat) { m > 0 ==> |Decimal(n + 1)| == |Decimal(n + m)| }

  lemma OrderNext(trace: seq<TraceStep>, w: nat, plan: seq<LedgerAction>, longer: seq<TraceStep>)
    requires Lengthened(trace, w, plan, longer)
    ensures InStringOrder(longer) <==> InStringOrder(trace) && PlanInOrder(|trace|, |plan|)
  {
    hide IdOf, StringLe, Decimal;
    var n := |trace|;
    if plan != [] {
      IdsInOrderIs(n + 1, n + |plan|);
    }
    if InStringOrder(longer) {
      forall i, j | 0 <= i < j < n && trace[i].iteration == trace[j].iteration ensures StringLe(IdOf(i + 1), IdOf(j + 1)) {
        assert longer[i] == trace[i] && longer[j] == trace[j];
      }
      forall i, j | n + 1 <= i < j <= n + |plan| ensures StringLe(IdOf(i), IdOf(j)) {
        assert longer[i - 1].iteration == longer[j - 1].iteration;
      }
    }
    if InStringOrder(trace) && PlanInOrder(n, |plan|) {
      forall i, j | 0 <= i < j < |longer| && longer[i].iteration == longer[j].iteration
        ensures StringLe(IdOf(i + 1), IdOf(j + 1))
      {
        if j < n {
          assert longer[i] == trace[i] && longer[j] == trace[j];
        } else {
          assert i >= n;
        }
      }
    }
  }

  /** The loop's steps are numbered in string order exactly when no iteration's numbers gain
      a digit on the way: none has both t9 and t10, or both t99 and t100. */
  lemma {:induction false} OrderIs(l0: Ledger, ans: Answerer, w: nat)
    ensures InStringOrder(Looped(l0, ans, w).trace)
      <==> forall k :: 0 <= k < w ==> PlanInOrder(|Looped(l0, ans, k).trace|, |PlanAt(l0, ans, k)|)
  {
    hide Looped, LedgerPlan, PlanInOrder, InStringOrder, Orderly, Lengthened;
    if w == 0 {
      NoStepsYet(l0, ans);
      NothingNumbered();
    } else {
      OrderIs(l0, ans, w - 1);
      LoopOrderly(l0, ans, w - 1);
      LoopLengthened(l0, ans, w - 1);
      OrderNext(Looped(l0, ans, w - 1).trace, w, PlanAt(l0, ans, w - 1), Looped(l0, ans, w).trace);
    }
  }

  lemma NothingNumbered()
    ensures InStringOrder([])
  {
  }

  // ---------------------------------------------------------------- new cases

  lemma {:induction false} PhasesPass(l0: Ledger, ans: Answerer, w: nat, k: nat)
    requires LoopRuns(l0, ans, w) && k <= w
    ensures k + PhaseLeft(Looped(l0, ans, k).ledger) <= PhaseLeft(l0)
  {
    hide Looped, LedgerPlan, Round, At, PhaseLeft, AllAnswer, ActSteps;
    if k == 0 {
      NoStepsYet(l0, ans);
    } else {
      PhasesPass(l0, ans, w, k - 1);
      LoopedNext(l0, ans, k - 1);
      assert LoopActs(l0, ans, k - 1);
      AnswersOk(At(ans, k), PlanAt(l0, ans, k - 1));
      BatchAdvances(Looped(l0, ans, k - 1).ledger, Answers(At(ans, k), PlanAt(l0, ans, k - 1)));
    }
  }

  /** After the detonations an iteration makes one call. */
  lemma LatePlansAreSingle(l: Ledger)
    requires PhaseLeft(l) <= 2
    ensures |LedgerPlan(l)| <= 1
  {
    hide Undetonated, Alert.LooksLikePhishing;
  }

  /** What a new case's first iteration does. */
  lemma FirstIteration(l: Ledger, replies: seq<Reply>)
    requires !l.detectionsRan && !l.emailChecked && !l.extracted && |replies| == |LedgerPlan(l)| && AllSucceed(replies)
    ensures LedgerPlan(l) == if l.alert.LooksLikePhishing() then [RunDetections, FetchEmail] else [RunDetections]
    ensures Round(l, LedgerPlan(l), replies).0
      == if l.alert.LooksLikePhishing()
         then l.(detectionsRan := true, emailMsg := Some(replies[1].attachments), emailChecked := true)
         else l.(detectionsRan := true)
  {
    hide Round, Alert.LooksLikePhishing;
    var plan := LedgerPlan(l);
    if l.alert.LooksLikePhishing() {
      RoundCons(l, plan, replies);
      assert plan[1..] == [FetchEmail] && replies[1..] == [replies[1]];
      OneCall(l.(detectionsRan := true), FetchEmail, replies[1]);
    } else {
      assert replies == [replies[0]];
      OneCall(l, RunDetections, replies[0]);
    }
  }

  lemma SecondIteration(l: Ledger, replies: seq<Reply>)
    requires FirstBatch<set<string>>(l) == [] && !l.extracted && |replies| == |LedgerPlan(l)| && AllSucceed(replies)
    ensures LedgerPlan(l) == [ExtractIocs]
    ensures Round(l, LedgerPlan(l), replies).0 == l.AddKeys(KeysOf(replies[0].iocs)).(extracted := true)
  {
    hide Round, Alert.LooksLikePhishing;
    assert replies == [replies[0]];
    OneCall(l, ExtractIocs, replies[0]);
  }

  lemma NextLedger(l0: Ledger, ans: Answerer, k: nat)
    requires AllAnswer(At(ans, k + 1), PlanAt(l0, ans, k))
    ensures var replies := Answers(At(ans, k + 1), PlanAt(l0, ans, k));
      && AllSucceed(replies) && |replies| == |PlanAt(l0, ans, k)|
      && Looped(l0, ans, k + 1).ledger == Round(Looped(l0, ans, k).ledger, PlanAt(l0, ans, k), replies).0
      && |Looped(l0, ans, k + 1).trace| == |Looped(l0, ans, k).trace| + |PlanAt(l0, ans, k)|
  {
    hide LedgerPlan, Round, At, Looped, AllAnswer;
    AnswersOk(At(ans, k + 1), PlanAt(l0, ans, k));
    LoopedNext(l0, ans, k);
  }

  /** No tool has run yet. */
  predicate Unstarted(l: Ledger) {
    !l.detectionsRan && !l.emailChecked && !l.extracted && l.emailMsg == None
  }

  /** The first two iterations from there. */
  lemma LoopBegins(l0: Ledger, ans: Answerer)
    requires Unstarted(l0) && AllAnswer(At(ans, 1), PlanAt(l0, ans, 0)) && AllAnswer(At(ans, 2), PlanAt(l0, ans, 1))
    ensures PlanAt(l0, ans, 0) == if l0.alert.LooksLikePhishing() then [RunDetections, FetchEmail] else [RunDetections]
    ensures PlanAt(l0, ans, 1) == [ExtractIocs]
    ensures |Looped(l0, ans, 0).trace| == 0 && |Looped(l0, ans, 2).trace| == |PlanAt(l0, ans, 0)| + 1
    ensures Looped(l0, ans, 2).ledger == Scanned(l0, ans(1, FetchEmail), ans(2, ExtractIocs))
  {
    hide Looped, LedgerPlan, Round, AllAnswer, Alert.LooksLikePhishing;
    NoStepsYet(l0, ans);
    NextLedger(l0, ans, 0);
    FirstIteration(l0, Answers(At(ans, 1), PlanAt(l0, ans, 0)));
    NextLedger(l0, ans, 1);
    SecondIteration(Looped(l0, ans, 1).ledger, Answers(At(ans, 2), PlanAt(l0, ans, 1)));
  }

  /** The ledger after them: `fetched` and `found` are what the email and the scan answered. */
  function Scanned(l0: Ledger, fetched: Reply, found: Reply): Ledger {
    var l := l0.(detectionsRan := true);
    (if l0.alert.LooksLikePhishing() then l.(emailMsg := Some(fetched.attachments), emailChecked := true) else l)
      .AddKeys(KeysOf(found.iocs)).(extracted := true)
  }

  lemma ThirdPlan(l0: Ledger, fetched: Reply, found: Reply)
    requires Unstarted(l0)
    ensures !l0.alert.LooksLikePhishing() ==> |LedgerPlan(Scanned(l0, fetched, found))| <= 1
  {
    hide Alert.LooksLikePhishing;
    assert Undetonated([], l0.detonated) == [];
    hide Undetonated;
  }

  lemma LoopBegun(l0: Ledger, ans: Answerer, w: nat)
    requires Unstarted(l0) && w > 1 && LoopRuns(l0, ans, w)
    ensures AllAnswer(At(ans, 1), PlanAt(l0, ans, 0)) && AllAnswer(At(ans, 2), PlanAt(l0, ans, 1))
  {
    hide Looped, LedgerPlan, AllAnswer, Unstarted;
    assert LoopActs(l0, ans, 0) && LoopActs(l0, ans, 1);
  }

  lemma FirstPlan(l0: Ledger, ans: Answerer)
    requires Unstarted(l0)
    ensures PlanAt(l0, ans, 0) == [RunDetections, FetchEmail] || |PlanAt(l0, ans, 0)| <= 1
    ensures |Looped(l0, ans, 0).trace| == 0 && PhaseLeft(l0) == 5
  {
    NoStepsYet(l0, ans);
    hide Alert.LooksLikePhishing, Looped;
  }

  lemma LatePlans(l0: Ledger, ans: Answerer, w: nat, k: nat)
    requires LoopRuns(l0, ans, w) && PhaseLeft(l0) <= 5 && 3 <= k < w
    ensures |PlanAt(l0, ans, k)| <= 1
  {
    hide Looped, LedgerPlan, PhaseLeft, LoopRuns;
    PhasesPass(l0, ans, w, k);
    LatePlansAreSingle(Looped(l0, ans, k).ledger);
  }

  /** Of the plans of a new case only the third can repeat a call or be out of order. */
  lemma OtherPlans(l0: Ledger, ans: Answerer, w: nat, k: nat)
    requires Unstarted(l0) && LoopRuns(l0, ans, w) && k < w && k != 2
    ensures PlanInOrder(|Looped(l0, ans, k).trace|, |PlanAt(l0, ans, k)|) && Distinct(PlanAt(l0, ans, k))
  {
    hide Looped, LedgerPlan, PhaseLeft, LoopRuns, AllAnswer, Unstarted, Scanned;
    FirstPlan(l0, ans);
    if k == 1 {
      LoopBegun(l0, ans, w);
      LoopBegins(l0, ans);
    } else if k > 2 {
      LatePlans(l0, ans, w, k);
    }
  }

  /** The third plan is numbered from t4 if it has more than one call. */
  lemma ThirdInOrder(l0: Ledger, ans: Answerer)
    requires Unstarted(l0) && AllAnswer(At(ans, 1), PlanAt(l0, ans, 0)) && AllAnswer(At(ans, 2), PlanAt(l0, ans, 1))
    ensures PlanInOrder(|Looped(l0, ans, 2).trace|, |PlanAt(l0, ans, 2)|) <==> |PlanAt(l0, ans, 2)| <= 6
  {
    hide Looped, At, AllAnswer, Alert.LooksLikePhishing, LedgerPlan, Unstarted, Scanned, Decimal;
    LoopBegins(l0, ans);
    ThirdPlan(l0, ans(1, FetchEmail), ans(2, ExtractIocs));
    var m := |PlanAt(l0, ans, 2)|;
    DecimalLength(4);
    DecimalLength(3 + m);
    OneDigit(4);
    if m <= 6 { OneDigit(3 + m); }
  }

  lemma OneDigit(n: nat)
    requires n < 10
    ensures |Decimal(n)| == 1
  {
  }

  /** A case on which no tool has run: the steps are numbered in string order exactly when the
      third iteration has at most six calls, and no call is repeated exactly when that
      iteration repeats none. */
  lemma NewCaseOrder(l0: Ledger, ans: Answerer, w: nat)
    requires Unstarted(l0) && LoopRuns(l0, ans, w)
    ensures InStringOrder(Looped(l0, ans, w).trace) <==> (w > 2 ==> |PlanAt(l0, ans, 2)| <= 6)
    ensures NoRepeats(l0, ans, w) <==> (w > 2 ==> Distinct(PlanAt(l0, ans, 2)))
  {
    hide Looped, LedgerPlan, PhaseLeft, LoopRuns, InStringOrder, PlanInOrder, At, AllAnswer, Unstarted, Distinct;
    if w > 2 {
      LoopBegun(l0, ans, w);
      ThirdInOrder(l0, ans);
    }
    OrderIs(l0, ans, w);
    forall k | 0 <= k < w && k != 2
      ensures PlanInOrder(|Looped(l0, ans, k).trace|, |PlanAt(l0, ans, k)|) && Distinct(PlanAt(l0, ans, k))
    {
      OtherPlans(l0, ans, w, k);
    }
  }

  // ---------------------------------------------------------------- an email with seven attachments

  predicate NewPhishing(l: Ledger) {
    Unstarted(l) && l.alert.LooksLikePhishing() && l.pending == {} && l.judged == map[] && l.detonated == {}
  }

  /** Every call succeeds: the email has the attachments `atts`, and `iocs` are found. */
  function Finds(atts: seq<Attachment>, iocs: seq<IOC>): Answerer {
    (w: nat, a) => Reply(Ok, atts, iocs, (k: string) => Judgement(Malicious, 1.0, []), 0.0, [])
  }

  lemma FindsAll(atts: seq<Attachment>, iocs: seq<IOC>, k: nat, plan: seq<LedgerAction>)
    ensures AllAnswer(At(Finds(atts, iocs), k), plan)
  {
  }

  lemma FindsAnswers(l0: Ledger, atts: seq<Attachment>, iocs: seq<IOC>, k: nat)
    requires PlanAt(l0, Finds(atts, iocs), k) != []
    ensures LoopActs(l0, Finds(atts, iocs), k)
  {
    hide Looped, LedgerPlan, Finds, At, AllAnswer;
    FindsAll(atts, iocs, k + 1, PlanAt(l0, Finds(atts, iocs), k));
  }

  /** The loop's third plan in a phishing case: the enrichment, if anything was found, and
      the detonations in the order of the attachments. */
  lemma FindsPlan(l0: Ledger, atts: seq<Attachment>, iocs: seq<IOC>)
    requires NewPhishing(l0) && atts != []
    ensures LoopRuns(l0, Finds(atts, iocs), 3)
    ensures PlanAt(l0, Finds(atts, iocs), 2) == (if iocs == [] then [] else [EnrichIocs]) + Detonations(atts)
  {
    hide Looped, LedgerPlan, Finds, Unstarted, Alert.LooksLikePhishing, AllAnswer, At, Scanned, Detonations, LoopActs;
    var ans := Finds(atts, iocs);
    FindsAll(atts, iocs, 1, PlanAt(l0, ans, 0));
    FindsAll(atts, iocs, 2, PlanAt(l0, ans, 1));
    LoopBegins(l0, ans);
    FoundPlan(l0, atts, iocs);
    DetonationCount(atts);
    FindsAnswers(l0, atts, iocs, 0);
    FindsAnswers(l0, atts, iocs, 1);
    FindsAnswers(l0, atts, iocs, 2);
  }

  lemma FoundPlan(l0: Ledger, atts: seq<Attachment>, iocs: seq<IOC>)
    requires NewPhishing(l0) && atts != []
    ensures var ans := Finds(atts, iocs);
      LedgerPlan(Scanned(l0, ans(1, FetchEmail), ans(2, ExtractIocs)))
      == (if iocs == [] then [] else [EnrichIocs]) + Detonations(atts)
  {
    hide Alert.LooksLikePhishing, LedgerHunt, IOC.Key, Detonations;
    AllUndetonated(atts);
    DetonationCount(atts);
    var ans := Finds(atts, iocs);
    var l := Scanned(l0, ans(1, FetchEmail), ans(2, ExtractIocs));
    assert l.emailMsg == Some(atts) && l.detonated == {} && l.pending == KeysOf(iocs);
    if iocs != [] {
      assert iocs[0].Key() in KeysOf(iocs);
    }
    hide Undetonated, Scanned, Finds, KeysOf;
    assert EvidenceBatch<set<string>>(l) == (if l.pending != {} then [EnrichIocs] else []) + Detonations(atts);
  }

  /** A third iteration of seven calls or more has a tenth task, which the report lists before
      the fourth: six attachments with an indicator found, or seven without. */
  lemma TenthTaskFirst(alert: Alert, atts: seq<Attachment>, iocs: seq<IOC>, w: nat)
    requires alert.LooksLikePhishing() && |atts| >= if iocs == [] then 7 else 6
    requires w > 2
    ensures var l0 := LedgerOf(Workflow.NewCase(alert)); var ans := Finds(atts, iocs);
      LoopRuns(l0, ans, 3) && (LoopRuns(l0, ans, w) ==> !InStringOrder(Looped(l0, ans, w).trace))
  {
    var l0 := LedgerOf(Workflow.NewCase(alert));
    assert NewPhishing(l0);
    hide Looped, LedgerOf, Workflow.NewCase, Finds, InStringOrder, Alert.LooksLikePhishing, LoopRuns, Unstarted, PlanAt;
    FindsPlan(l0, atts, iocs);
    DetonationCount(atts);
    if LoopRuns(l0, Finds(atts, iocs), w) {
      NewCaseOrder(l0, Finds(atts, iocs), w);
    }
  }

  lemma DetonationsRepeat(atts: seq<Attachment>, first: seq<LedgerAction>)
    requires Distinct(first + Detonations(atts))
    ensures Distinct(atts)
  {
    var plan := first + Detonations(atts);
    forall i, j | 0 <= i < j < |atts| ensures atts[i] != atts[j] {
      assert plan[|first| + i] == Detonate(atts[i]) && plan[|first| + j] == Detonate(atts[j]);
    }
  }

  /** An email that lists an attachment twice: the loop detonates it twice, the graph once. */
  lemma AttachmentTwice(alert: Alert, atts: seq<Attachment>, iocs: seq<IOC>, w: nat)
    requires alert.LooksLikePhishing() && !Distinct(atts) && w > 2
    ensures var l0 := LedgerOf(Workflow.NewCase(alert)); var ans := Finds(atts, iocs);
      LoopRuns(l0, ans, 3) && (LoopRuns(l0, ans, w) ==> !NoRepeats(l0, ans, w))
  {
    var l0 := LedgerOf(Workflow.NewCase(alert));
    assert NewPhishing(l0);
    hide Looped, LedgerOf, Workflow.NewCase, Finds, NoRepeats, Alert.LooksLikePhishing, LoopRuns, Unstarted, PlanAt, Distinct;
    assert atts != [] by {
      EmptyDistinct<Attachment>();
    }
    FindsPlan(l0, atts, iocs);
    if Distinct(PlanAt(l0, Finds(atts, iocs), 2)) {
      DetonationsRepeat(atts, if iocs == [] then [] else [EnrichIocs]);
    }
    if LoopRuns(l0, Finds(atts, iocs), w) {
      NewCaseOrder(l0, Finds(atts, iocs), w);
    }
  }

  lemma EmptyDistinct<T>()
    ensures Distinct<T>([])
  {
  }
}
