/** The two strategies side by side: while every call succeeds, the task graph of a run and
    the batch loop hold the same ledger after every wave, and the same steps. */
module Mirrors {
  import opened Sorting
  import opened OrderedDict
  import opened State
  import opened Planner
  import opened Tools
  import opened Concurrency
  import opened Loop
  import opened Convergence
  import opened TaskGraphs
  import opened Turns
  import opened Stages
  import opened Smooth
  import opened Histories

  /** A world that answers equal calls of an iteration alike, whoever asks. */
  type Answerer = (nat, LedgerAction) -> Reply

  function At(ans: Answerer, w: nat): Answer { a => ans(w, a) }

  /** The batch loop after `w` iterations that no budget cut short. */
  function Looped(l0: Ledger, ans: Answerer, w: nat): Progress {
    if w == 0 then Progress(l0, 0, [])
    else
      var p := Looped(l0, ans, w - 1);
      var plan := LedgerPlan(p.ledger);
      var (next, oks) := Round(p.ledger, plan, Answers(At(ans, w), plan));
      Progress(next, p.calls + |plan|, p.trace + ActSteps(plan, oks, |p.trace| + 1, w))
  }

  /** The replies of the run are the world's answers. */
  ghost predicate AnswersRun(reply: nat -> Reply, ans: Answerer, tasks: Tasks, ran: seq<seq<string>>) {
    forall w :: 0 <= w < |ran| ==> AnswersWave(reply, |Flat(ran[..w])|, ans, w + 1, tasks, ran[w])
  }

  ghost predicate AnswersWave(reply: nat -> Reply, calls: nat, ans: Answerer, wave: nat, tasks: Tasks, ids: seq<string>) {
    forall i :: 0 <= i < |ids| ==> ids[i] in tasks.vals && reply(calls + i) == ans(wave, AbstractAction(tasks.vals[ids[i]].action))
  }

  /** Some world answers like any given run, for no wave makes a call twice. */
  lemma SomeAnswerer(reply: nat -> Reply, tasks: Tasks, ran: seq<seq<string>>) returns (ans: Answerer)
    requires InWaves(tasks, ran) && CallsDiffer(tasks, ran)
    ensures AnswersRun(reply, ans, tasks, ran)
  {
    hide Flat, TaskLe, AbstractAction;
    ans := (w, a) => if 0 < w <= |ran| then WaveReply(reply, |Flat(ran[..w - 1])|, tasks, ran[w - 1], a) else reply(0);
    forall w | 0 <= w < |ran| ensures AnswersWave(reply, |Flat(ran[..w])|, ans, w + 1, tasks, ran[w]) {
      assert WaveOf(tasks, ran[w], w + 1) && WaveDiffers(tasks, ran[w]);
      forall i | 0 <= i < |ran[w]|
        ensures reply(|Flat(ran[..w])| + i) == WaveReply(reply, |Flat(ran[..w])|, tasks, ran[w], AbstractAction(tasks.vals[ran[w][i]].action))
      {
        WaveReplyAt(reply, |Flat(ran[..w])|, tasks, ran[w], i);
      }
    }
  }

  ghost predicate CallIs(tasks: Tasks, ids: seq<string>, a: LedgerAction, i: nat) {
    i < |ids| && ids[i] in tasks.vals && AbstractAction(tasks.vals[ids[i]].action) == a
  }

  /** What the wave's call `a` was answered. */
  ghost function WaveReply(reply: nat -> Reply, calls: nat, tasks: Tasks, ids: seq<string>, a: LedgerAction): Reply {
    if exists i: nat :: CallIs(tasks, ids, a, i)
    then var i: nat :| CallIs(tasks, ids, a, i); reply(calls + i)
    else reply(0)
  }

  lemma WaveReplyAt(reply: nat -> Reply, calls: nat, tasks: Tasks, ids: seq<string>, i: nat)
    requires i < |ids| && ids[i] in tasks.vals && WaveDiffers(tasks, ids)
    ensures WaveReply(reply, calls, tasks, ids, AbstractAction(tasks.vals[ids[i]].action)) == reply(calls + i)
  {
    hide AbstractAction;
    var a := AbstractAction(tasks.vals[ids[i]].action);
    assert CallIs(tasks, ids, a, i);
    assert forall k: nat :: CallIs(tasks, ids, a, k) ==> k == i;
  }

  /** No iteration plans the same call twice. */
  ghost predicate NoRepeats(l0: Ledger, ans: Answerer, w: nat) {
    forall k :: 0 <= k < w ==> Distinct(LedgerPlan(Looped(l0, ans, k).ledger))
  }

  function StepsOf(ts: seq<Task>): (r: seq<TraceStep>)
    ensures |r| == |ts|
  {
    seq(|ts|, i requires 0 <= i < |ts| =>
      ActStep(i + 1, ts[i].wave, AbstractAction(ts[i].action), ts[i].ok))
  }

  /** The tasks in the order they were added are the loop's steps, unless an iteration repeats
      a call: the graph then holds it once. */
  ghost predicate SameSteps(tasks: Tasks, trace: seq<TraceStep>, distinct: bool)
    requires tasks.Valid()
  {
    if distinct then StepsOf(tasks.Values()) == trace else |tasks.keys| < |trace|
  }

  predicate DoneTask(t: Task) { t.status.Done? && t.attempts == 1 && t.ok }

  /** Every task has run, once, and succeeded. */
  ghost predicate AllDone(tasks: Tasks) {
    forall id :: id in tasks.vals ==> DoneTask(tasks.vals[id])
  }

  /** The loop has something to do in each of its first `w` iterations, and it succeeds. */
  ghost predicate LoopRuns(l0: Ledger, ans: Answerer, w: nat) {
    forall k :: 0 <= k < w ==> LoopActs(l0, ans, k)
  }

  ghost predicate LoopActs(l0: Ledger, ans: Answerer, k: nat) {
    var plan := LedgerPlan(Looped(l0, ans, k).ledger);
    plan != [] && AllAnswer(At(ans, k + 1), plan)
  }

  /** The loop ends after `w` such iterations because nothing is planned. */
  ghost predicate LoopDone(l0: Ledger, ans: Answerer, w: nat) {
    LoopRuns(l0, ans, w) && LedgerPlan(Looped(l0, ans, w).ledger) == []
  }

  /** Where a run that began on an empty graph stands when every call succeeded. */
  ghost predicate Mirrored(reply: nat -> Reply, l0: Ledger, l: Ledger, tasks: Tasks, ran: seq<seq<string>>) {
    && tasks.Valid() && AllDone(tasks)
    && forall ans: Answerer :: AnswersRun(reply, ans, tasks, ran) ==>
         && l == Looped(l0, ans, |ran|).ledger && LoopRuns(l0, ans, |ran|)
         && SameSteps(tasks, Looped(l0, ans, |ran|).trace, NoRepeats(l0, ans, |ran|))
  }

  // ---------------------------------------------------------------- new tasks of a quiet graph

  /** The `j`-th task added to `before`, whose counter is `n`. */
  ghost predicate NewAt(before: Tasks, n: nat, mid: Tasks, a: Planned, deps: set<string>, wave: nat, j: nat) {
    var id := IdOf(n + 1 + j);
    && |before.keys| + j < |mid.keys| && mid.keys[|before.keys| + j] == id
    && id in mid.vals && id !in before.vals && mid.vals[id] == NewTask(a, deps, wave).(id := id)
  }

  /** The identifiers and tasks a plan without repetitions adds. */
  ghost predicate Appended(before: Tasks, n: nat, mid: Tasks, plan: seq<Planned>, deps: set<string>, wave: nat) {
    && |mid.keys| == |before.keys| + |plan| && before.keys <= mid.keys
    && forall j :: 0 <= j < |plan| ==> NewAt(before, n, mid, plan[j], deps, wave, j)
  }

  lemma ActiveIfListed(before: Tasks, after: Tasks, actions: seq<Planned>, deps: set<string>, wave: nat, a: Planned)
    requires Extended(before, after, actions, deps, wave) && (forall id :: !Open(before, id))
    requires forall b :: b in actions ==> HasActive(after, b)
    ensures HasActive(after, a) <==> a in actions
    ensures before.vals.Keys <= after.vals.Keys
  {
    if id :| id in after.vals && after.vals[id].action == a && !after.vals[id].Terminal() {
      assert !Open(before, id);
    }
  }

  lemma {:induction false} GrownQuiet(before: Tasks, n: nat, plan: seq<Planned>, deps: set<string>, wave: nat)
    requires GraphInv(before, n) && (forall id :: !Open(before, id)) && DependsOnEarlier(before, deps, wave)
    ensures var (mid, c) := Grown(before, n, plan, deps, wave);
      && c <= n + |plan| && |mid.keys| == |before.keys| + c - n
      && (Distinct(plan) ==> c == n + |plan| && Appended(before, n, mid, plan, deps, wave))
      && (!Distinct(plan) ==> c < n + |plan|)
  {
    hide GraphInv, Extended, DependsOnEarlier, HasActive, IdOf, NewTask, Open;
    if plan == [] {
    } else {
      var k := |plan| - 1;
      var head, last := plan[..k], plan[k];
      GrownQuiet(before, n, head, deps, wave);
      GrownKeeps(before, n, head, deps, wave);
      var (mid, c) := Grown(before, n, head, deps, wave);
      ActiveIfListed(before, mid, head, deps, wave, last);
      DistinctSnoc(plan);
      hide Distinct;
      if last !in head {
        AddKeeps(mid, c, last, deps, wave);
        if Distinct(plan) {
          AppendedNext(before, n, mid, plan, deps, wave);
        }
      }
    }
  }

  lemma DistinctSnoc<T>(s: seq<T>)
    requires s != []
    ensures Distinct(s) <==> Distinct(s[..|s| - 1]) && s[|s| - 1] !in s[..|s| - 1]
  {
    var head, last := s[..|s| - 1], s[|s| - 1];
    if Distinct(head) && last !in head {
      forall i, j | 0 <= i < j < |s| ensures s[i] != s[j] {
        assert s[i] == head[i] && head[i] in head;
        if j < |head| { assert s[j] == head[j]; }
      }
    }
    if last in head {
      var i :| 0 <= i < |head| && head[i] == last;
      assert s[i] == s[|s| - 1];
    }
    if Distinct(s) {
      forall i, j | 0 <= i < j < |head| ensures head[i] != head[j] {
        assert s[i] != s[j];
      }
    }
  }

  lemma AppendedNext(before: Tasks, n: nat, mid: Tasks, plan: seq<Planned>, deps: set<string>, wave: nat)
    requires plan != [] && Appended(before, n, mid, plan[..|plan| - 1], deps, wave) && before.vals.Keys <= mid.vals.Keys
    requires IdOf(n + |plan|) !in mid.vals
    ensures Appended(before, n, mid.Put(IdOf(n + |plan|), NewTask(plan[|plan| - 1], deps, wave).(id := IdOf(n + |plan|))), plan, deps, wave)
  {
    hide IdOf, NewTask;
    var k, id := |plan| - 1, IdOf(n + |plan|);
    var after := mid.Put(id, NewTask(plan[k], deps, wave).(id := id));
    forall j | 0 <= j < |plan| ensures NewAt(before, n, after, plan[j], deps, wave, j) {
      if j < k {
        assert plan[..k][j] == plan[j];
        assert NewAt(before, n, mid, plan[j], deps, wave, j);
      }
    }
  }

  // ---------------------------------------------------------------- one more wave

  /** The planner repeats a call exactly when its keyed plan does. */
  lemma PlansRepeat(s: Snapshot)
    requires s.WellKeyed()
    ensures Distinct(LedgerPlan(LedgerOf(s))) <==> Distinct(NextActions(s))
    ensures |LedgerPlan(LedgerOf(s))| == |NextActions(s)|
    ensures forall j :: 0 <= j < |NextActions(s)| ==> LedgerPlan(LedgerOf(s))[j] == AbstractAction(NextActions(s)[j])
  {
    PlanRefines(s);
    hide NextActions, LedgerPlan, LedgerOf, AbstractAction, Snapshot.WellKeyed;
    var plan, keyed := NextActions(s), LedgerPlan(LedgerOf(s));
    assert keyed == AbstractActions(plan);
    forall i, j | 0 <= i < j < |plan| ensures keyed[i] == keyed[j] <==> plan[i] == plan[j] {
      assert plan[i] in plan && plan[j] in plan;
      if plan[i] != plan[j] {
        PlannedDiffer(s, plan[i], plan[j]);
      }
    }
  }

  /** A graph in which all is done holds nothing open. */
  lemma DoneClosed(tasks: Tasks)
    requires AllDone(tasks)
    ensures forall id :: !Open(tasks, id)
  {
  }

  /** What a smooth turn leaves: every new task done at its first attempt. */
  lemma DoneAfter(t: Turn)
    requires t.Holds() && AllDone(t.before) && forall i :: 0 <= i < |t.oks| ==> t.oks[i]
    ensures AllDone(t.after) && t.after.keys == t.mid.keys && t.after.Valid() && t.mid.Valid()
    ensures forall id :: id in t.before.vals ==> id in t.after.vals && t.after.vals[id] == t.before.vals[id]
    ensures forall id :: id in t.mid.vals ==>
      id in t.after.vals && t.after.vals[id].action == t.mid.vals[id].action && t.after.vals[id].wave == t.mid.vals[id].wave
  {
    DoneClosed(t.before);
    SameGraph(t);
    hide Turn.Holds, DoneTask;
    forall id | id in t.mid.vals
      ensures id in t.after.vals && DoneTask(t.after.vals[id]) && t.after.vals[id].action == t.mid.vals[id].action
      ensures t.after.vals[id].wave == t.mid.vals[id].wave
      ensures id in t.before.vals ==> t.after.vals[id] == t.before.vals[id]
    {
      TaskAfter(t, id);
    }
  }

  lemma SameGraph(t: Turn)
    requires t.Holds()
    ensures t.after.keys == t.mid.keys && t.after.vals.Keys == t.mid.vals.Keys && t.mid.Valid() && t.after.Valid()
    ensures t.before.vals.Keys <= t.mid.vals.Keys
  {
    InvParts(t.mid, t.counter);
    hide GraphInv, ReadyTasks, HasActive, Grown;
  }

  lemma TaskAfter(t: Turn, id: string)
    requires t.Holds() && AllDone(t.before) && (forall i :: 0 <= i < |t.oks| ==> t.oks[i]) && id in t.mid.vals
    ensures id in t.after.vals && DoneTask(t.after.vals[id]) && t.after.vals[id].action == t.mid.vals[id].action
    ensures t.after.vals[id].wave == t.mid.vals[id].wave
    ensures id in t.before.vals ==> t.after.vals[id] == t.before.vals[id]
  {
    DoneClosed(t.before);
    hide Turn.Holds;
    if id in t.before.vals {
      t.OldStays(id);
      t.Untouched(id);
    } else {
      NewOpen(t, id);
      NewlyOpen(t, id);
      var j := t.RanOnce(id);
    }
  }

  lemma NewOpen(t: Turn, id: string)
    requires t.Holds() && id in t.mid.vals && id !in t.before.vals
    ensures Open(t.mid, id)
  {
    hide GraphInv, ReadyTasks, HasActive, Grown, WaveRan, PriorWave;
  }

  lemma AnsweredEarlier(reply: nat -> Reply, ans: Answerer, before: Tasks, after: Tasks, ran: seq<seq<string>>, ids: seq<string>)
    requires AnswersRun(reply, ans, after, ran + [ids]) && InWaves(before, ran)
    requires forall id :: id in before.vals ==> id in after.vals && after.vals[id] == before.vals[id]
    ensures AnswersRun(reply, ans, before, ran)
    ensures AnswersWave(reply, |Flat(ran)|, ans, |ran| + 1, after, ids)
  {
    hide Flat, TaskLe;
    var all := ran + [ids];
    assert all[|ran|] == ids && all[..|ran|] == ran;
    forall w | 0 <= w < |ran| ensures AnswersWave(reply, |Flat(ran[..w])|, ans, w + 1, before, ran[w]) {
      assert all[w] == ran[w] && all[..w] == ran[..w];
      assert WaveOf(before, ran[w], w + 1);
      assert AnswersWave(reply, |Flat(all[..w])|, ans, w + 1, after, all[w]);
    }
  }

  /** What every planned call was answered, it was answered with success. */
  lemma PlanAnswered(s: Snapshot, t: Turn, replies: seq<Reply>, ans: Answer)
    requires s.WellKeyed() && t.Holds() && t.plan == NextActions(s) && forall id :: !Open(t.before, id)
    requires AnsweredBy(t.ready, replies, ans) && AllSucceed(replies)
    ensures AllAnswer(ans, LedgerPlan(LedgerOf(s)))
  {
    hide Turn.Holds, NextActions, LedgerPlan, LedgerOf, Snapshot.WellKeyed;
    QuietReady(t);
    PlanRefines(s);
    forall a | a in LedgerPlan(LedgerOf(s)) ensures ans(a).fate.Ok? {
      AbstractIn(NextActions(s), a);
      var p :| p in NextActions(s) && AbstractAction(p) == a;
      var i :| 0 <= i < |ActionsOf(t.ready)| && ActionsOf(t.ready)[i] == p;
      assert replies[i] == ans(a);
    }
  }

  /** The ledger after the wave is the loop's after the iteration. */
  lemma LedgerMirrored(s: Snapshot, m: Snapshot, t: Turn, replies: seq<Reply>, l0: Ledger, ans: Answerer)
    requires s.WellKeyed() && Takes(t, s, m, replies) && AllSucceed(replies) && AllDone(t.before)
    requires AnsweredBy(t.ready, replies, At(ans, t.wave + 1))
    requires LedgerOf(s) == Looped(l0, ans, t.wave).ledger
    ensures AllAnswer(At(ans, t.wave + 1), LedgerPlan(LedgerOf(s)))
    ensures LedgerOf(m) == Looped(l0, ans, t.wave + 1).ledger
  {
    hide Turn.Holds, NextActions, LedgerPlan, LedgerOf, Snapshot.WellKeyed, Sequential, At;
    DoneClosed(t.before);
    PlanAnswered(s, t, replies, At(ans, t.wave + 1));
    SmoothTurn(s, m, t, replies, At(ans, t.wave + 1));
  }

  lemma LoopedNext(l0: Ledger, ans: Answerer, w: nat)
    ensures var p := Looped(l0, ans, w); var plan := LedgerPlan(p.ledger);
      var (next, oks) := Round(p.ledger, plan, Answers(At(ans, w + 1), plan));
      Looped(l0, ans, w + 1) == Progress(next, p.calls + |plan|, p.trace + ActSteps(plan, oks, |p.trace| + 1, w + 1))
  {
    hide LedgerPlan, Round, At, ActSteps;
  }

  lemma LoopNext(l0: Ledger, ans: Answerer, w: nat)
    requires AllAnswer(At(ans, w + 1), LedgerPlan(Looped(l0, ans, w).ledger))
    ensures var p := Looped(l0, ans, w); var plan := LedgerPlan(p.ledger); var trace := Looped(l0, ans, w + 1).trace;
      && Looped(l0, ans, w + 1).calls == p.calls + |plan|
      && |trace| == |p.trace| + |plan| && trace[..|p.trace|] == p.trace
      && forall j :: 0 <= j < |plan| ==>
           trace[|p.trace| + j] == ActStep(|p.trace| + j + 1, w + 1, plan[j], true)
  {
    hide LedgerPlan, Round, At, Looped, ActStep;
    var p := Looped(l0, ans, w);
    var plan := LedgerPlan(p.ledger);
    LoopedNext(l0, ans, w);
    AnswersOk(At(ans, w + 1), plan);
    RoundOks(p.ledger, plan, Answers(At(ans, w + 1), plan));
  }

  lemma AnswersOk(ans: Answer, plan: seq<LedgerAction>)
    requires AllAnswer(ans, plan)
    ensures AllSucceed(Answers(ans, plan))
  {
    assert forall i :: 0 <= i < |plan| ==> plan[i] in plan;
  }

  lemma NoRepeatsNext(l0: Ledger, ans: Answerer, w: nat)
    ensures NoRepeats(l0, ans, w + 1) <==> NoRepeats(l0, ans, w) && Distinct(LedgerPlan(Looped(l0, ans, w).ledger))
  {
    hide Looped, LedgerPlan, Distinct;
  }

  /** The steps after the wave are the loop's after the iteration. */
  lemma StepsMirrored(s: Snapshot, t: Turn, l0: Ledger, ans: Answerer)
    requires s.WellKeyed() && t.Holds() && t.plan == NextActions(s) && AllDone(t.before)
    requires GraphInv(t.before, |t.before.keys|) && forall i :: 0 <= i < |t.oks| ==> t.oks[i]
    requires AllAnswer(At(ans, t.wave + 1), LedgerPlan(LedgerOf(s))) && LedgerOf(s) == Looped(l0, ans, t.wave).ledger
    requires SameSteps(t.before, Looped(l0, ans, t.wave).trace, NoRepeats(l0, ans, t.wave))
    ensures t.after.Valid() && SameSteps(t.after, Looped(l0, ans, t.wave + 1).trace, NoRepeats(l0, ans, t.wave + 1))
  {
    hide Turn.Holds, NextActions, LedgerPlan, LedgerOf, Snapshot.WellKeyed, Looped, NoRepeats, AllAnswer, GraphInv, AllDone;
    hide StepsOf, Appended, Grown, Distinct, PriorWave, DependsOnEarlier;
    DoneAfter(t);
    DoneClosed(t.before);
    PlansRepeat(s);
    LoopNext(l0, ans, t.wave);
    NoRepeatsNext(l0, ans, t.wave);
    PriorGrown(t);
    GrownIs(t);
    if NoRepeats(l0, ans, t.wave + 1) {
      StepsAppended(t, LedgerPlan(LedgerOf(s)), Looped(l0, ans, t.wave).trace, Looped(l0, ans, t.wave + 1).trace);
    } else if NoRepeats(l0, ans, t.wave) {
      StepsLength(t.before.Values());
    }
  }

  lemma StepsLength(ts: seq<Task>)
    ensures |StepsOf(ts)| == |ts|
  {
  }

  lemma GrownIs(t: Turn)
    requires t.Holds()
    ensures t.before.Valid()
    ensures t.mid == Grown(t.before, |t.before.keys|, t.plan, PriorWave(t.before, t.wave + 1), t.wave + 1).0
    ensures DependsOnEarlier(t.before, PriorWave(t.before, t.wave + 1), t.wave + 1)
  {
    hide Grown, GraphInv, ReadyTasks, HasActive, Extended, WaveRan, Linked, Dict.Valid;
  }

  lemma PriorGrown(t: Turn)
    requires t.Holds() && GraphInv(t.before, |t.before.keys|) && forall id :: !Open(t.before, id)
    ensures var n := |t.before.keys|; var deps := PriorWave(t.before, t.wave + 1);
      && |t.mid.keys| <= n + |t.plan|
      && (Distinct(t.plan) ==> Appended(t.before, n, t.mid, t.plan, deps, t.wave + 1))
      && (!Distinct(t.plan) ==> |t.mid.keys| < n + |t.plan|)
  {
    hide Turn.Holds, GraphInv, Appended, Distinct, Grown, PriorWave, DependsOnEarlier, Open;
    GrownIs(t);
    GrownQuiet(t.before, |t.before.keys|, t.plan, PriorWave(t.before, t.wave + 1), t.wave + 1);
  }

  lemma AppendedAt(before: Tasks, n: nat, mid: Tasks, plan: seq<Planned>, deps: set<string>, wave: nat, j: nat)
    requires Appended(before, n, mid, plan, deps, wave) && j < |plan|
    ensures var id := IdOf(n + 1 + j);
      && |before.keys| + j < |mid.keys| && mid.keys[|before.keys| + j] == id
      && id in mid.vals && mid.vals[id].action == plan[j] && mid.vals[id].wave == wave
  {
    hide IdOf;
    assert NewAt(before, n, mid, plan[j], deps, wave, j);
  }

  lemma AppendedSize(before: Tasks, n: nat, mid: Tasks, plan: seq<Planned>, deps: set<string>, wave: nat)
    requires Appended(before, n, mid, plan, deps, wave)
    ensures |mid.keys| == |before.keys| + |plan| && before.keys <= mid.keys
  {
  }

  lemma StepsAppended(t: Turn, plan: seq<LedgerAction>, trace: seq<TraceStep>, longer: seq<TraceStep>)
    requires t.before.Valid() && t.after.Valid() && StepsOf(t.before.Values()) == trace
    requires Appended(t.before, |t.before.keys|, t.mid, t.plan, PriorWave(t.before, t.wave + 1), t.wave + 1)
    requires AllDone(t.after) && t.after.keys == t.mid.keys
    requires forall id :: id in t.before.vals ==> id in t.after.vals && t.after.vals[id] == t.before.vals[id]
    requires forall id :: id in t.mid.vals ==>
      id in t.after.vals && t.after.vals[id].action == t.mid.vals[id].action && t.after.vals[id].wave == t.mid.vals[id].wave
    requires |plan| == |t.plan| && forall j :: 0 <= j < |plan| ==> plan[j] == AbstractAction(t.plan[j])
    requires |longer| == |trace| + |plan| && longer[..|trace|] == trace
    requires forall j :: 0 <= j < |plan| ==>
      longer[|trace| + j] == ActStep(|trace| + j + 1, t.wave + 1, plan[j], true)
    ensures StepsOf(t.after.Values()) == longer
  {
    hide IdOf, AbstractAction, ActStep, PriorWave, Dict.Valid, Appended;
    var n := |t.before.keys|;
    var steps, olds, news := StepsOf(t.after.Values()), t.before.Values(), t.after.Values();
    StepsLength(olds);
    StepsLength(news);
    AppendedSize(t.before, n, t.mid, t.plan, PriorWave(t.before, t.wave + 1), t.wave + 1);
    forall i | 0 <= i < |longer| ensures steps[i] == longer[i] {
      if i < n {
        assert t.after.keys[i] == t.before.keys[i] && t.before.keys[i] in t.before.vals;
        assert news[i] == olds[i];
        assert longer[i] == trace[i] == StepsOf(olds)[i];
      } else {
        var j := i - n;
        var id := IdOf(n + 1 + j);
        AppendedAt(t.before, n, t.mid, t.plan, PriorWave(t.before, t.wave + 1), t.wave + 1, j);
        assert t.after.keys[i] == id && news[i] == t.after.vals[id] && DoneTask(news[i]);
      }
    }
  }

  ghost predicate EveryOk(reply: nat -> Reply) { forall n: nat :: reply(n).fate.Ok? }

  lemma MirrorStart(reply: nat -> Reply, l: Ledger)
    ensures Mirrored(reply, l, l, Empty(), [])
  {
  }

  /** The replies to the wave's calls are the world's answers. */
  lemma WaveAnswered(reply: nat -> Reply, ans: Answerer, t: Turn, calls: nat)
    requires t.Holds() && AnswersWave(reply, calls, ans, t.wave + 1, t.after, IdsOf(t.ready))
    requires forall id :: id in t.mid.vals ==> id in t.after.vals && t.after.vals[id].action == t.mid.vals[id].action
    ensures AnsweredBy(t.ready, RepliesFrom(reply, calls, |t.ready|), At(ans, t.wave + 1))
  {
    t.RanIs();
    hide Turn.Holds, AbstractAction;
    var replies := RepliesFrom(reply, calls, |t.ready|);
    forall i | 0 <= i < |t.ready| ensures replies[i] == At(ans, t.wave + 1)(AbstractAction(t.ready[i].action)) {
      assert IdsOf(t.ready)[i] == t.ready[i].id;
    }
  }

  lemma TurnSucceeds(s: Snapshot, m: Snapshot, t: Turn, reply: nat -> Reply, calls: nat)
    requires Takes(t, s, m, RepliesFrom(reply, calls, |t.ready|)) && EveryOk(reply)
    ensures AllSucceed(RepliesFrom(reply, calls, |t.ready|)) && forall i :: 0 <= i < |t.oks| ==> t.oks[i]
  {
    hide Turn.Holds, NextActions, LedgerOf, FramesOf, Sequential;
    AllOk(LedgerOf(s), t.ready, RepliesFrom(reply, calls, |t.ready|));
  }

  /** The invariant of a run whose calls all succeed: after every wave its ledger and its
      steps are the loop's. */
  lemma MirrorTurn(reply: nat -> Reply, l0: Ledger, s: Snapshot, m: Snapshot, t: Turn, ran: seq<seq<string>>, calls: nat)
    requires s.WellKeyed() && GraphInv(t.before, |t.before.keys|) && EveryOk(reply)
    requires Mirrored(reply, l0, LedgerOf(s), t.before, ran) && InWaves(t.before, ran)
    requires |ran| == t.wave && |Flat(ran)| == calls && Takes(t, s, m, RepliesFrom(reply, calls, |t.ready|)) && t.ready != []
    ensures Mirrored(reply, l0, LedgerOf(m), t.after, ran + [IdsOf(t.ready)])
  {
    hide Turn.Holds, NextActions, LedgerOf, LedgerPlan, Looped, NoRepeats, SameSteps, AllDone, Snapshot.WellKeyed, GraphInv;
    hide Flat, InWaves, AnswersRun, AnswersWave, Effected, EveryOk, At, LoopRuns;
    TurnSucceeds(s, m, t, reply, calls);
    DoneAfter(t);
    var replies, later := RepliesFrom(reply, calls, |t.ready|), ran + [IdsOf(t.ready)];
    forall ans: Answerer | AnswersRun(reply, ans, t.after, later)
      ensures LedgerOf(m) == Looped(l0, ans, |later|).ledger
      ensures LoopRuns(l0, ans, |later|)
      ensures SameSteps(t.after, Looped(l0, ans, |later|).trace, NoRepeats(l0, ans, |later|))
    {
      AnsweredEarlier(reply, ans, t.before, t.after, ran, IdsOf(t.ready));
      WaveAnswered(reply, ans, t, calls);
      LedgerMirrored(s, m, t, replies, l0, ans);
      StepsMirrored(s, t, l0, ans);
      SomethingPlanned(s, t);
      LoopRunsNext(l0, ans, t.wave);
    }
  }

  lemma SomethingPlanned(s: Snapshot, t: Turn)
    requires s.WellKeyed() && t.Holds() && t.plan == NextActions(s) && AllDone(t.before) && t.ready != []
    ensures LedgerPlan(LedgerOf(s)) != []
  {
    hide Turn.Holds, NextActions, LedgerPlan, LedgerOf, Snapshot.WellKeyed;
    DoneClosed(t.before);
    QuietReady(t);
    assert ActionsOf(t.ready)[0] in t.plan;
    PlansRepeat(s);
  }

  lemma LoopRunsNext(l0: Ledger, ans: Answerer, w: nat)
    requires LoopRuns(l0, ans, w) && LedgerPlan(Looped(l0, ans, w).ledger) != []
    requires AllAnswer(At(ans, w + 1), LedgerPlan(Looped(l0, ans, w).ledger))
    ensures LoopRuns(l0, ans, w + 1)
  {
    hide Looped, LedgerPlan, AllAnswer, At;
  }

  /** With nothing planned the graph stays as it is. */
  lemma NothingGrown(before: Tasks, mid: Tasks, counter: nat, wave: nat)
    requires Expanded(before, mid, counter, [], wave)
    ensures mid == before
  {
    hide GraphInv, HasActive, Extended, Linked;
  }

  // ---------------------------------------------------------------- the first drain

  /** The invariant while the graph is drained for the first time: a wave cut short uses
      up the calls and leaves work open. */
  ghost predicate Alike(reply: nat -> Reply, maxCalls: int, l0: Ledger, l: Ledger, tasks: Tasks, ran: seq<seq<string>>, calls: nat) {
    Mirrored(reply, l0, l, tasks, ran) || (calls >= maxCalls && !AllTerminal(tasks))
  }

  lemma AlikeTurn(reply: nat -> Reply, maxCalls: int, l0: Ledger, s: Snapshot, m: Snapshot,
                  before: Tasks, mid: Tasks, after: Tasks, counter: nat, plan: seq<Planned>,
                  ready: seq<Task>, oks: seq<bool>, ran: seq<seq<string>>, wave: nat, calls: nat)
    requires Alike(reply, maxCalls, l0, LedgerOf(s), before, ran, calls) && calls < maxCalls && EveryOk(reply)
    requires s.WellKeyed() && GraphInv(before, |before.keys|) && InWaves(before, ran) && |ran| == wave && |Flat(ran)| == calls
    requires plan == NextActions(s) && Expanded(before, mid, counter, plan, wave)
    requires mid.Valid() && ready != [] && ready <= ReadyTasks(mid)
    requires ready == ReadyTasks(mid) || calls + |ready| >= maxCalls
    requires WaveRan(mid, after, ready, oks)
    requires (LedgerOf(m), oks) == Sequential(LedgerOf(s), FramesOf(ready, RepliesFrom(reply, calls, |ready|)))
    ensures Alike(reply, maxCalls, l0, LedgerOf(m), after, ran + [IdsOf(ready)], calls + |ready|)
  {
    hide Mirrored, Expanded, ReadyTasks, WaveRan, LedgerOf, Sequential, FramesOf, NextActions, GraphInv, InWaves, Flat;
    hide Snapshot.WellKeyed, EveryOk;
    if ready == ReadyTasks(mid) {
      var t := Turn(before, mid, after, counter, plan, wave, ready, oks);
      MirrorTurn(reply, l0, s, m, t, ran, calls);
    } else {
      CutShort(before, mid, after, counter, plan, wave, ready, oks);
    }
  }

  /** A wave cut short leaves a ready task open. */
  lemma CutShort(before: Tasks, mid: Tasks, after: Tasks, counter: nat, plan: seq<Planned>, wave: nat,
                 ready: seq<Task>, oks: seq<bool>)
    requires Expanded(before, mid, counter, plan, wave) && mid.Valid() && ready < ReadyTasks(mid)
    requires WaveRan(mid, after, ready, oks)
    ensures !AllTerminal(after)
  {
    var all := ReadyTasks(mid);
    ReadyIs(before, mid, counter, plan, wave, all);
    hide Expanded, ReadyTasks;
    var left := all[|ready|];
    assert left.id in mid.vals && mid.vals[left.id] == left && left.status.Pending?;
    forall j | 0 <= j < |ready| ensures ready[j].id != left.id {
      assert ready[j] == all[j];
    }
    assert after.vals[left.id] == left;
  }

  // ---------------------------------------------------------------- what later waves keep

  /** Every task is still there, the same work of the same wave. */
  ghost predicate Kept(before: Tasks, after: Tasks) {
    forall id :: id in before.vals ==>
      id in after.vals && after.vals[id].action == before.vals[id].action && after.vals[id].wave == before.vals[id].wave
  }

  lemma KeptRan(mid: Tasks, after: Tasks, ready: seq<Task>, oks: seq<bool>)
    requires Batch(mid, ready) && WaveRan(mid, after, ready, oks)
    ensures Kept(mid, after)
  {
    RanKeys(mid, after, ready, oks);
    hide Batch, WaveRan;
    forall id | id in mid.vals
      ensures after.vals[id].action == mid.vals[id].action && after.vals[id].wave == mid.vals[id].wave
    {
      WaveTask(mid, after, ready, oks, id);
    }
  }

  lemma KeptExtended(before: Tasks, after: Tasks, actions: seq<Planned>, deps: set<string>, wave: nat)
    requires Extended(before, after, actions, deps, wave)
    ensures Kept(before, after)
  {
  }

  lemma KeptTransitive(a: Tasks, b: Tasks, c: Tasks)
    requires Kept(a, b) && Kept(b, c)
    ensures Kept(a, c)
  {
  }

  /** A world that answers the whole run answers its beginning. */
  lemma AnsweredBefore(reply: nat -> Reply, ans: Answerer, before: Tasks, after: Tasks, ran: seq<seq<string>>, more: seq<seq<string>>)
    requires AnswersRun(reply, ans, after, more) && ran <= more && InWaves(before, ran) && Kept(before, after)
    ensures AnswersRun(reply, ans, before, ran)
  {
    hide Flat, TaskLe;
    forall w | 0 <= w < |ran| ensures AnswersWave(reply, |Flat(ran[..w])|, ans, w + 1, before, ran[w]) {
      assert more[w] == ran[w] && more[..w] == ran[..w];
      assert WaveOf(before, ran[w], w + 1);
      assert AnswersWave(reply, |Flat(more[..w])|, ans, w + 1, after, more[w]);
    }
  }

  /** A hunt of wave `wave`, which reflection proposed. */
  ghost predicate ExtraHunt(tasks: Tasks, wave: nat) {
    exists id :: id in tasks.vals && tasks.vals[id].action.HuntEdr? && tasks.vals[id].wave == wave
  }

  lemma ExtraKept(before: Tasks, after: Tasks, wave: nat)
    requires ExtraHunt(before, wave) && Kept(before, after)
    ensures ExtraHunt(after, wave)
  {
    var id :| id in before.vals && before.vals[id].action.HuntEdr? && before.vals[id].wave == wave;
    assert id in after.vals;
  }

  /** The keys judged suspicious that no hunt has covered. */
  function SuspiciousKeys(l: Ledger): set<string> {
    set k | k in l.judged && l.judged[k].verdict.Suspicious? && k !in l.hunted
  }

  /** `after` is `l` after a hunt for its suspicious keys. */
  ghost predicate FollowedUp(l: Ledger, after: Ledger) {
    after == l.(hunted := l.hunted + SuspiciousKeys(l), hits := after.hits) && l.hits <= after.hits
  }

  /** How a finished run whose calls all succeeded compares with the batch loop in a world
      that gives the same answers: without a follow-up it ends in the loop's ledger with the
      loop's steps; with one it holds a hunt beyond the loop's last iteration, and its ledger
      is the loop's after a hunt for the suspicious keys. */
  ghost predicate Compares(reply: nat -> Reply, l0: Ledger, l: Ledger, tasks: Tasks, ran: seq<seq<string>>, rounds: nat)
    requires tasks.Valid()
  {
    forall ans: Answerer :: AnswersRun(reply, ans, tasks, ran) ==>
      if rounds == 0 then ComparesPlain(l0, ans, l, tasks, |ran|)
      else exists w: nat :: ComparesFurther(l0, ans, l, tasks, w)
  }

  ghost predicate ComparesFurther(l0: Ledger, ans: Answerer, l: Ledger, tasks: Tasks, w: nat) {
    LoopDone(l0, ans, w) && ExtraHunt(tasks, w + 1) && FollowedUp(Looped(l0, ans, w).ledger, l)
  }

  ghost predicate ComparesPlain(l0: Ledger, ans: Answerer, l: Ledger, tasks: Tasks, w: nat)
    requires tasks.Valid()
  {
    && LoopDone(l0, ans, w) && l == Looped(l0, ans, w).ledger && AllDone(tasks)
    && SameSteps(tasks, Looped(l0, ans, w).trace, NoRepeats(l0, ans, w))
  }

  lemma ComparesFirst(reply: nat -> Reply, l0: Ledger, l: Ledger, tasks: Tasks, ran: seq<seq<string>>)
    requires tasks.Valid() && Mirrored(reply, l0, l, tasks, ran) && LedgerPlan(l) == []
    ensures Compares(reply, l0, l, tasks, ran, 0)
  {
    hide LedgerPlan, Looped, AnswersRun, SameSteps, NoRepeats, LoopRuns, AllDone;
  }

  lemma ComparesLater(reply: nat -> Reply, l0: Ledger, l1: Ledger, first: Tasks, begun: seq<seq<string>>,
                      l: Ledger, tasks: Tasks, ran: seq<seq<string>>, rounds: nat)
    requires tasks.Valid() && Mirrored(reply, l0, l1, first, begun) && LedgerPlan(l1) == [] && rounds > 0
    requires InWaves(first, begun) && begun <= ran && Kept(first, tasks) && ExtraHunt(tasks, |begun| + 1)
    requires FollowedUp(l1, l)
    ensures Compares(reply, l0, l, tasks, ran, rounds)
  {
    hide LedgerPlan, Looped, AnswersRun, SameSteps, NoRepeats, LoopRuns, AllDone, InWaves, Kept, ExtraHunt, FollowedUp;
    forall ans: Answerer | AnswersRun(reply, ans, tasks, ran)
      ensures exists w: nat :: ComparesFurther(l0, ans, l, tasks, w)
    {
      AnsweredBefore(reply, ans, first, tasks, begun, ran);
      assert ComparesFurther(l0, ans, l, tasks, |begun|);
    }
  }

  /** After the first drain: it was the loop, and a hunt was added to it. */
  ghost predicate Beyond(reply: nat -> Reply, l0: Ledger, settled: Ledger, first: Tasks, begun: seq<seq<string>>,
                         tasks: Tasks, ran: seq<seq<string>>) {
    && Mirrored(reply, l0, settled, first, begun) && LedgerPlan(settled) == [] && InWaves(first, begun)
    && begun <= ran && Kept(first, tasks) && ExtraHunt(tasks, |begun| + 1)
  }

  lemma BeyondInjected(reply: nat -> Reply, l0: Ledger, l: Ledger, before: Tasks, after: Tasks, ran: seq<seq<string>>,
                       a: Planned, wave: nat)
    requires Mirrored(reply, l0, l, before, ran) && LedgerPlan(l) == [] && InWaves(before, ran) && |ran| == wave
    requires AllTerminal(before) && a.HuntEdr?
    requires Extended(before, after, [a], before.vals.Keys, wave + 1) && HasActive(after, a)
    ensures Beyond(reply, l0, l, before, ran, after, ran)
  {
    KeptExtended(before, after, [a], before.vals.Keys, wave + 1);
    var id :| id in after.vals && after.vals[id].action == a && !after.vals[id].Terminal();
    assert id !in before.vals;
    hide Mirrored, LedgerPlan, InWaves, Kept;
  }

  lemma BeyondLater(reply: nat -> Reply, l0: Ledger, settled: Ledger, first: Tasks, begun: seq<seq<string>>,
                    tasks: Tasks, ran: seq<seq<string>>, later: Tasks, more: seq<seq<string>>)
    requires Beyond(reply, l0, settled, first, begun, tasks, ran) && Kept(tasks, later) && ran <= more
    ensures Beyond(reply, l0, settled, first, begun, later, more)
  {
    hide Mirrored, LedgerPlan, InWaves, Kept, ExtraHunt;
    KeptTransitive(first, tasks, later);
    ExtraKept(tasks, later, |begun| + 1);
  }

  lemma ComparesBeyond(reply: nat -> Reply, l0: Ledger, settled: Ledger, first: Tasks, begun: seq<seq<string>>,
                       l: Ledger, tasks: Tasks, ran: seq<seq<string>>, rounds: nat)
    requires tasks.Valid() && Beyond(reply, l0, settled, first, begun, tasks, ran) && rounds > 0 && FollowedUp(settled, l)
    ensures Compares(reply, l0, l, tasks, ran, rounds)
  {
    hide Mirrored, LedgerPlan, InWaves, Kept, ExtraHunt, Compares, FollowedUp;
    ComparesLater(reply, l0, settled, first, begun, l, tasks, ran, rounds);
  }

  /** At the end of a drain that was not cut short. */
  lemma ComparesNow(reply: nat -> Reply, l0: Ledger, settled: Ledger, first: Tasks, begun: seq<seq<string>>,
                    before: Tasks, was: seq<seq<string>>, l: Ledger, tasks: Tasks, ran: seq<seq<string>>, rounds: nat)
    requires tasks.Valid() && LedgerPlan(l) == []
    requires rounds == 0 ==> Mirrored(reply, l0, l, tasks, ran)
    requires rounds > 0 ==> Beyond(reply, l0, settled, first, begun, before, was) && Kept(before, tasks) && was <= ran
    requires rounds > 0 ==> FollowedUp(settled, l)
    ensures Compares(reply, l0, l, tasks, ran, rounds)
    ensures rounds > 0 ==> Beyond(reply, l0, settled, first, begun, tasks, ran)
  {
    hide Mirrored, LedgerPlan, Beyond, Kept, Compares, FollowedUp;
    if rounds == 0 {
      ComparesFirst(reply, l0, l, tasks, ran);
    } else {
      BeyondLater(reply, l0, settled, first, begun, before, was, tasks, ran);
      ComparesBeyond(reply, l0, settled, first, begun, l, tasks, ran, rounds);
    }
  }
}
