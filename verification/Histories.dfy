/** The history of a task-graph run: which task each tool call was for, and that the run
    ends as its calls one after another. */
module Histories {
  import opened Sorting
  import opened OrderedDict
  import opened State
  import opened Planner
  import opened Tools
  import opened Concurrency
  import opened Effects
  import opened TaskGraphs
  import opened Turns
  import opened Stages

  /** A run begins with a new case, or at least not with indicators extracted before the
      first phase ended. */
  predicate Begun(l: Ledger) {
    l.extracted ==> Opened(l)
  }

  function IdsOf(ready: seq<Task>): (r: seq<string>)
    ensures |r| == |ready| && forall i :: 0 <= i < |ready| ==> r[i] == ready[i].id
  {
    seq(|ready|, i requires 0 <= i < |ready| => ready[i].id)
  }

  /** `ran` lists the task of every call so far: each task as often as it was attempted. */
  ghost predicate Logged(tasks: Tasks, ran: seq<string>) {
    && (forall k :: 0 <= k < |ran| ==> ran[k] in tasks.vals)
    && (forall id :: id in tasks.vals ==> multiset(ran)[id] == tasks.vals[id].attempts)
  }

  /** The calls of a run, in the order of its waves and within a wave as listed. */
  function Calls(tasks: Tasks, ran: seq<string>, reply: nat -> Reply): (frames: seq<LedgerFrame>)
    requires forall k :: 0 <= k < |ran| ==> ran[k] in tasks.vals
    ensures |frames| == |ran|
  {
    seq(|ran|, k requires 0 <= k < |ran| => Fresh(AbstractAction(tasks.vals[ran[k]].action), reply(k)))
  }

  function RepliesFrom(reply: nat -> Reply, calls: nat, n: nat): (r: seq<Reply>)
    ensures |r| == n && forall i :: 0 <= i < n ==> r[i] == reply(calls + i)
  {
    seq(n, i requires 0 <= i < n => reply(calls + i))
  }

  /** The ledger is what the calls in `ran` lead to, one after another. */
  ghost predicate Replays(reply: nat -> Reply, l0: Ledger, l: Ledger, tasks: Tasks, ran: seq<string>) {
    Logged(tasks, ran) && (Begun(l0) ==> l == Sequential(l0, Calls(tasks, ran, reply)).0)
  }

  /** The calls of all waves in a row. */
  function Flat(ran: seq<seq<string>>): seq<string> {
    if ran == [] then [] else Flat(ran[..|ran| - 1]) + ran[|ran| - 1]
  }

  /** `ran` lists the tasks each wave ran: at least one, none twice, none planned for a
      later wave, in the order in which the ready tasks are listed. */
  ghost predicate InWaves(tasks: Tasks, ran: seq<seq<string>>) {
    forall w :: 0 <= w < |ran| ==> WaveOf(tasks, ran[w], w + 1)
  }

  ghost predicate WaveOf(tasks: Tasks, ids: seq<string>, wave: nat) {
    && ids != [] && Distinct(ids)
    && (forall i :: 0 <= i < |ids| ==> ids[i] in tasks.vals && tasks.vals[ids[i]].wave <= wave)
    && (forall i, j :: 0 <= i < j < |ids| ==> TaskLe(tasks.vals[ids[i]], tasks.vals[ids[j]]))
  }

  /** No wave makes the same call twice. */
  ghost predicate CallsDiffer(tasks: Tasks, ran: seq<seq<string>>) {
    forall w :: 0 <= w < |ran| ==> WaveDiffers(tasks, ran[w])
  }

  ghost predicate WaveDiffers(tasks: Tasks, ids: seq<string>) {
    forall i, j :: 0 <= i < j < |ids| && ids[i] in tasks.vals && ids[j] in tasks.vals ==>
      AbstractAction(tasks.vals[ids[i]].action) != AbstractAction(tasks.vals[ids[j]].action)
  }

  /** What holds between waves: the run replays, no wave repeated a call, and it stands at a
      stage unless its calls are used up. */
  ghost predicate History(reply: nat -> Reply, maxCalls: int, l0: Ledger, s: Snapshot, tasks: Tasks, ran: seq<seq<string>>,
                          wave: nat, calls: nat) {
    && |ran| == wave && |Flat(ran)| == calls
    && InWaves(tasks, ran) && Replays(reply, l0, LedgerOf(s), tasks, Flat(ran))
    && (Begun(l0) ==> CallsDiffer(tasks, ran))
    && (Begun(l0) && calls < maxCalls ==> Staged(s, tasks, wave))
  }

  /** The sandbox score of a run: the highest its detonations were given. */
  lemma RunScore(reply: nat -> Reply, l0: Ledger, l: Ledger, tasks: Tasks, ran: seq<string>)
    requires Replays(reply, l0, l, tasks, ran) && Begun(l0)
    ensures forall k :: 0 <= k < |ran| ==> ran[k] in tasks.vals
    ensures Highest(l.malscore, l0.malscore, Calls(tasks, ran, reply))
  {
    LoggedKnown(tasks, ran);
    hide Logged, AbstractAction, Highest;
    SequentialScore(l0, Calls(tasks, ran, reply));
  }

  lemma HistoryStart(reply: nat -> Reply, maxCalls: int, s: Snapshot)
    ensures History(reply, maxCalls, LedgerOf(s), s, Empty(), [], 0, 0)
  {
    ExtractedIs(s);
    assert Flat([]) == [];
    hide LedgerOf, Staged, Opened;
    if Begun(LedgerOf(s)) {
      NothingOpen(s, Empty(), 0);
    }
  }

  // ---------------------------------------------------------------- the calls of a grown graph

  lemma LoggedExtended(before: Tasks, after: Tasks, actions: seq<Planned>, deps: set<string>, wave: nat, ran: seq<string>,
                       reply: nat -> Reply)
    requires Logged(before, ran) && Extended(before, after, actions, deps, wave)
    ensures Logged(after, ran) && Calls(after, ran, reply) == Calls(before, ran, reply)
  {
    forall id | id in after.vals ensures multiset(ran)[id] == after.vals[id].attempts {
      if id !in before.vals {
        assert id !in ran;
      }
    }
  }

  lemma CallAt(tasks: Tasks, ran: seq<string>, reply: nat -> Reply, k: nat)
    requires k < |ran| && forall k :: 0 <= k < |ran| ==> ran[k] in tasks.vals
    ensures Calls(tasks, ran, reply)[k] == Fresh(AbstractAction(tasks.vals[ran[k]].action), reply(k))
  {
  }

  lemma LoggedRan(mid: Tasks, after: Tasks, ready: seq<Task>, oks: seq<bool>, ran: seq<string>, reply: nat -> Reply)
    requires Logged(mid, ran) && Batch(mid, ready) && WaveRan(mid, after, ready, oks)
    ensures Logged(after, ran + IdsOf(ready))
    ensures Calls(after, ran + IdsOf(ready), reply)
         == Calls(mid, ran, reply) + FramesOf(ready, RepliesFrom(reply, |ran|, |ready|))
  {
    LoggedWave(mid, after, ready, oks, ran);
    SameActions(mid, after, ready, oks);
    LoggedKnown(mid, ran);
    LoggedKnown(after, ran + IdsOf(ready));
    hide Logged, FramesOf, AbstractAction, Calls, WaveRan, Batch;
    CallsAppend(mid, after, ready, ran, reply);
  }

  lemma CallsAppend(mid: Tasks, after: Tasks, ready: seq<Task>, ran: seq<string>, reply: nat -> Reply)
    requires forall k :: 0 <= k < |ran| ==> ran[k] in mid.vals
    requires forall id :: id in mid.vals ==> id in after.vals && after.vals[id].action == mid.vals[id].action
    requires forall j :: 0 <= j < |ready| ==> ready[j].id in mid.vals && mid.vals[ready[j].id].action == ready[j].action
    ensures forall k :: 0 <= k < |ran + IdsOf(ready)| ==> (ran + IdsOf(ready))[k] in after.vals
    ensures Calls(after, ran + IdsOf(ready), reply)
         == Calls(mid, ran, reply) + FramesOf(ready, RepliesFrom(reply, |ran|, |ready|))
  {
    hide FramesOf, AbstractAction, Calls;
    var all, replies := ran + IdsOf(ready), RepliesFrom(reply, |ran|, |ready|);
    var longer, parts := Calls(after, all, reply), Calls(mid, ran, reply) + FramesOf(ready, replies);
    forall k | 0 <= k < |all| ensures longer[k] == parts[k] {
      CallAt(after, all, reply, k);
      if k < |ran| {
        CallAt(mid, ran, reply, k);
      } else {
        FrameAt(ready, replies, k - |ran|);
      }
    }
  }

  lemma LoggedKnown(tasks: Tasks, ran: seq<string>)
    requires Logged(tasks, ran)
    ensures forall k :: 0 <= k < |ran| ==> ran[k] in tasks.vals
  {
  }

  lemma SameActions(mid: Tasks, after: Tasks, ready: seq<Task>, oks: seq<bool>)
    requires Batch(mid, ready) && WaveRan(mid, after, ready, oks)
    ensures forall id :: id in mid.vals ==> id in after.vals && after.vals[id].action == mid.vals[id].action
    ensures forall j :: 0 <= j < |ready| ==> ready[j].id in mid.vals && mid.vals[ready[j].id].action == ready[j].action
  {
    forall id | id in mid.vals ensures id in after.vals && after.vals[id].action == mid.vals[id].action {
      WaveTask(mid, after, ready, oks, id);
    }
  }

  lemma LoggedWave(mid: Tasks, after: Tasks, ready: seq<Task>, oks: seq<bool>, ran: seq<string>)
    requires Logged(mid, ran) && Batch(mid, ready) && WaveRan(mid, after, ready, oks)
    ensures Logged(after, ran + IdsOf(ready))
    ensures forall k :: 0 <= k < |ran| ==> ran[k] in mid.vals
    ensures forall k :: 0 <= k < |ran| ==> (ran + IdsOf(ready))[k] == ran[k]
  {
    var ids := IdsOf(ready);
    forall id | id in after.vals ensures multiset(ran + ids)[id] == after.vals[id].attempts {
      OnceListed(ids, id);
      if j :| 0 <= j < |ready| && ready[j].id == id {
        assert ids[j] == id;
      } else {
        assert id !in ids;
      }
    }
  }

  lemma {:induction false} OnceListed(ids: seq<string>, id: string)
    requires Distinct(ids)
    ensures multiset(ids)[id] == if id in ids then 1 else 0
  {
    if ids == [] {
    } else {
      OnceListed(ids[1..], id);
      assert ids == [ids[0]] + ids[1..];
    }
  }

  lemma FlatAppend(ran: seq<seq<string>>, ids: seq<string>)
    ensures Flat(ran + [ids]) == Flat(ran) + ids
  {
    assert (ran + [ids])[..|ran|] == ran;
  }

  lemma InWavesExtended(before: Tasks, after: Tasks, actions: seq<Planned>, deps: set<string>, wave: nat, ran: seq<seq<string>>)
    requires InWaves(before, ran) && Extended(before, after, actions, deps, wave)
    ensures InWaves(after, ran)
  {
    hide TaskLe, NewTask;
    forall w | 0 <= w < |ran| ensures WaveOf(after, ran[w], w + 1) {
      assert WaveOf(before, ran[w], w + 1);
    }
  }

  /** A task's place among the ready ones does not change when it runs. */
  ghost predicate SamePlaces(mid: Tasks, after: Tasks) {
    forall id :: id in mid.vals ==>
      && id in after.vals && after.vals[id].wave == mid.vals[id].wave
      && after.vals[id].priority == mid.vals[id].priority && after.vals[id].id == mid.vals[id].id
  }

  lemma PlacesKept(mid: Tasks, after: Tasks, ready: seq<Task>, oks: seq<bool>)
    requires Batch(mid, ready) && WaveRan(mid, after, ready, oks)
    ensures SamePlaces(mid, after)
  {
    hide Batch, WaveRan;
    forall id | id in mid.vals
      ensures id in after.vals && after.vals[id].wave == mid.vals[id].wave
      ensures after.vals[id].priority == mid.vals[id].priority && after.vals[id].id == mid.vals[id].id
    {
      RanKeys(mid, after, ready, oks);
      WaveTask(mid, after, ready, oks, id);
    }
  }

  lemma RanKeys(mid: Tasks, after: Tasks, ready: seq<Task>, oks: seq<bool>)
    requires WaveRan(mid, after, ready, oks)
    ensures after.vals.Keys == mid.vals.Keys && after.keys == mid.keys
  {
  }

  lemma WaveKept(mid: Tasks, after: Tasks, ids: seq<string>, wave: nat)
    requires WaveOf(mid, ids, wave) && SamePlaces(mid, after)
    ensures WaveOf(after, ids, wave)
  {
  }

  lemma InWavesRan(mid: Tasks, after: Tasks, ready: seq<Task>, oks: seq<bool>, ran: seq<seq<string>>, wave: nat)
    requires InWaves(mid, ran) && |ran| == wave && Batch(mid, ready) && WaveRan(mid, after, ready, oks)
    requires ready != [] && Sorted(TaskLe, ready) && forall id :: id in mid.vals ==> mid.vals[id].wave <= wave + 1
    ensures InWaves(after, ran + [IdsOf(ready)])
  {
    hide TaskLe, WaveRan;
    PlacesKept(mid, after, ready, oks);
    assert WaveOf(mid, IdsOf(ready), wave + 1);
    hide WaveOf, SamePlaces, Batch, Sorted;
    var all := ran + [IdsOf(ready)];
    forall w | 0 <= w < |all| ensures WaveOf(after, all[w], w + 1) {
      WaveKept(mid, after, all[w], w + 1);
    }
  }

  lemma DifferKept(before: Tasks, after: Tasks, ran: seq<seq<string>>)
    requires CallsDiffer(before, ran) && InWaves(before, ran)
    requires forall id :: id in before.vals ==> id in after.vals && after.vals[id].action == before.vals[id].action
    ensures CallsDiffer(after, ran)
  {
    hide TaskLe, AbstractAction;
    forall w | 0 <= w < |ran| ensures WaveDiffers(after, ran[w]) {
      assert WaveOf(before, ran[w], w + 1) && WaveDiffers(before, ran[w]);
    }
  }

  /** Neither does a wave of calls that do not clash. */
  lemma DifferMore(mid: Tasks, after: Tasks, ready: seq<Task>, oks: seq<bool>, replies: seq<Reply>, ran: seq<seq<string>>)
    requires CallsDiffer(mid, ran) && InWaves(mid, ran) && Exclusive(mid) && Batch(mid, ready) && WaveRan(mid, after, ready, oks)
    requires |replies| == |ready| && Independent(FramesOf(ready, replies))
    ensures CallsDiffer(after, ran + [IdsOf(ready)])
  {
    SameActions(mid, after, ready, oks);
    DifferKept(mid, after, ran);
    hide Independent, FramesOf, WaveRan, Exclusive, AbstractAction;
    var all := ran + [IdsOf(ready)];
    forall w | 0 <= w < |all| ensures WaveDiffers(after, all[w]) {
      if w == |ran| {
        forall i, j | 0 <= i < j < |ready| ensures AbstractAction(ready[i].action) != AbstractAction(ready[j].action) {
          ReadyDiffer(mid, ready, replies, i, j);
        }
        assert all[w] == IdsOf(ready);
      } else {
        assert all[w] == ran[w];
      }
    }
  }

  lemma ReadyDiffer(mid: Tasks, ready: seq<Task>, replies: seq<Reply>, i: nat, j: nat)
    requires Exclusive(mid) && Batch(mid, ready) && |replies| == |ready| && Independent(FramesOf(ready, replies)) && i < j < |ready|
    ensures AbstractAction(ready[i].action) != AbstractAction(ready[j].action)
  {
    FrameAt(ready, replies, i);
    FrameAt(ready, replies, j);
    hide FramesOf;
    assert !Clash(KindOf(FramesOf(ready, replies)[i]), KindOf(FramesOf(ready, replies)[j]));
    assert ready[i].id in mid.vals && mid.vals[ready[i].id] == ready[i] && ready[i].id != ready[j].id;
    assert ready[j].id in mid.vals && mid.vals[ready[j].id] == ready[j];
  }

  // ---------------------------------------------------------------- a turn

  /** The wave of a stage, in full or cut short, is independent. */
  lemma WaveIndependent(s: Snapshot, before: Tasks, mid: Tasks, counter: nat, plan: seq<Planned>, wave: nat,
                        ready: seq<Task>, replies: seq<Reply>)
    requires Staged(s, before, wave) && plan == NextActions(s) && Expanded(before, mid, counter, plan, wave)
    requires ready <= ReadyTasks(mid) && |replies| == |ready|
    ensures Independent(FramesOf(ready, replies))
  {
    hide Staged, NextActions, Expanded, ReadyTasks, FramesOf, Clash, WaveRan, ActionKind;
    ReadyIs(before, mid, counter, plan, wave, ready);
    var all := ReadyTasks(mid);
    ReadyIs(before, mid, counter, plan, wave, all);
    var after, oks := WholeWave(mid, all);
    var t := Turn(before, mid, after, counter, plan, wave, all, oks);
    assert t.Holds();
    StagedApart(s, t);
    assert Apart(ready);
    ApartIndependent(ready, replies);
  }

  lemma WaveReplays(reply: nat -> Reply, maxCalls: int, l0: Ledger, s: Snapshot, before: Tasks, mid: Tasks, counter: nat,
                    ready: seq<Task>, ran: seq<seq<string>>, wave: nat, calls: nat)
    requires History(reply, maxCalls, l0, s, before, ran, wave, calls) && calls < maxCalls
    requires Expanded(before, mid, counter, NextActions(s), wave)
    requires mid.Valid() && ready <= ReadyTasks(mid)
    ensures Begun(l0) ==> Independent(FramesOf(ready, RepliesFrom(reply, calls, |ready|)))
  {
    hide Expanded, ReadyTasks, FramesOf, Staged, LedgerOf, Begun, Replays, NextActions, Independent;
    if Begun(l0) {
      WaveIndependent(s, before, mid, counter, NextActions(s), wave, ready, RepliesFrom(reply, calls, |ready|));
    }
  }

  lemma ReadyIs(before: Tasks, mid: Tasks, counter: nat, plan: seq<Planned>, wave: nat, ready: seq<Task>)
    requires Expanded(before, mid, counter, plan, wave) && ready <= ReadyTasks(mid)
    ensures mid.Valid() && Batch(mid, ready)
  {
    hide ReadyTasks, Batch;
    InvParts(mid, counter);
    ReadyBatch(mid, counter, ready);
  }

  /** The ledger the calls of one more wave lead to. */
  lemma ReplaysOn(reply: nat -> Reply, l0: Ledger, l: Ledger, m: Ledger, mid: Tasks, after: Tasks,
                  ready: seq<Task>, oks: seq<bool>, ran: seq<string>)
    requires Replays(reply, l0, l, mid, ran) && Batch(mid, ready) && WaveRan(mid, after, ready, oks)
    requires Begun(l0) ==> (m, oks) == Sequential(l, FramesOf(ready, RepliesFrom(reply, |ran|, |ready|)))
    ensures Replays(reply, l0, m, after, ran + IdsOf(ready))
  {
    LoggedRan(mid, after, ready, oks, ran, reply);
    LoggedKnown(mid, ran);
    hide Logged, FramesOf, Calls, Sequential, WaveRan, Batch, Begun;
    SequentialAppend(l0, Calls(mid, ran, reply), FramesOf(ready, RepliesFrom(reply, |ran|, |ready|)));
  }

  lemma HistoryTurn(reply: nat -> Reply, maxCalls: int, l0: Ledger, s: Snapshot, m: Snapshot,
                    before: Tasks, mid: Tasks, after: Tasks, counter: nat, plan: seq<Planned>,
                    ready: seq<Task>, oks: seq<bool>, ran: seq<seq<string>>, wave: nat, calls: nat)
    requires History(reply, maxCalls, l0, s, before, ran, wave, calls) && calls < maxCalls
    requires plan == NextActions(s) && Expanded(before, mid, counter, plan, wave)
    requires ready <= ReadyTasks(mid) && (ready == ReadyTasks(mid) || calls + |ready| >= maxCalls)
    requires ready != [] && WaveRan(mid, after, ready, oks) && Advances(s, m)
    requires forall id :: id in mid.vals ==> mid.vals[id].wave <= wave + 1
    requires var frames := FramesOf(ready, RepliesFrom(reply, calls, |ready|));
      Independent(frames) ==> (LedgerOf(m), oks) == Sequential(LedgerOf(s), frames)
    ensures History(reply, maxCalls, l0, m, after, ran + [IdsOf(ready)], wave + 1, calls + |ready|)
  {
    hide NextActions, Expanded, ReadyTasks, WaveRan, Advances, FramesOf, Staged, Sequential, LedgerOf, Begun, Replays, InWaves;
    hide CallsDiffer;
    var replies := RepliesFrom(reply, calls, |ready|);
    ReadyIs(before, mid, counter, plan, wave, ready);
    ReplaysExtended(reply, l0, LedgerOf(s), before, mid, counter, plan, wave, ran);
    FlatAppend(ran, IdsOf(ready));
    ReadySorted(before, mid, counter, plan, wave, ready);
    InWavesRan(mid, after, ready, oks, ran, wave);
    if Begun(l0) {
      WaveIndependent(s, before, mid, counter, plan, wave, ready, replies);
      if ready == ReadyTasks(mid) {
        var t := Turn(before, mid, after, counter, plan, wave, ready, oks);
        assert Takes(t, s, m, replies);
        StagedTurn(s, m, t, replies);
      }
      MidExclusive(before, mid, counter, plan, wave);
      DifferMore(mid, after, ready, oks, replies, ran);
    }
    ReplaysOn(reply, l0, LedgerOf(s), LedgerOf(m), mid, after, ready, oks, Flat(ran));
  }

  lemma MidExclusive(before: Tasks, mid: Tasks, counter: nat, plan: seq<Planned>, wave: nat)
    requires Expanded(before, mid, counter, plan, wave)
    ensures Exclusive(mid)
  {
    InvParts(mid, counter);
  }

  lemma ReadySorted(before: Tasks, mid: Tasks, counter: nat, plan: seq<Planned>, wave: nat, ready: seq<Task>)
    requires Expanded(before, mid, counter, plan, wave) && mid.Valid() && ready <= ReadyTasks(mid)
    ensures Sorted(TaskLe, ready)
  {
    InvParts(mid, counter);
    ReadyAre(mid);
    hide ReadyTasks, Expanded, TaskLe;
    var all := ReadyTasks(mid);
    forall i, j | 0 <= i < j < |ready| ensures TaskLe(ready[i], ready[j]) {
      assert ready[i] == all[i] && ready[j] == all[j];
    }
  }

  lemma ReplaysExtended(reply: nat -> Reply, l0: Ledger, l: Ledger, before: Tasks, mid: Tasks, counter: nat,
                        plan: seq<Planned>, wave: nat, ran: seq<seq<string>>)
    requires Replays(reply, l0, l, before, Flat(ran)) && InWaves(before, ran) && Expanded(before, mid, counter, plan, wave)
    ensures Replays(reply, l0, l, mid, Flat(ran)) && InWaves(mid, ran)
    ensures CallsDiffer(before, ran) ==> CallsDiffer(mid, ran)
  {
    assert Extended(before, mid, plan, PriorWave(before, wave + 1), wave + 1);
    if CallsDiffer(before, ran) {
      DifferExtended(before, mid, plan, PriorWave(before, wave + 1), wave + 1, ran);
    }
    hide Logged, Calls, Sequential, Begun, PriorWave, Extended, HasActive, GraphInv, Flat, InWaves, Grown;
    LoggedExtended(before, mid, plan, PriorWave(before, wave + 1), wave + 1, Flat(ran), reply);
    InWavesExtended(before, mid, plan, PriorWave(before, wave + 1), wave + 1, ran);
  }

  lemma DifferExtended(before: Tasks, after: Tasks, actions: seq<Planned>, deps: set<string>, wave: nat, ran: seq<seq<string>>)
    requires CallsDiffer(before, ran) && InWaves(before, ran) && Extended(before, after, actions, deps, wave)
    ensures CallsDiffer(after, ran)
  {
    hide CallsDiffer, InWaves, NewTask;
    DifferKept(before, after, ran);
  }

  /** Nothing ran: the plan found nothing to do, or no calls are left. */
  lemma HistoryIdle(reply: nat -> Reply, maxCalls: int, l0: Ledger, s: Snapshot, before: Tasks, mid: Tasks, counter: nat,
                    plan: seq<Planned>, ran: seq<seq<string>>, wave: nat, calls: nat)
    requires History(reply, maxCalls, l0, s, before, ran, wave, calls)
    requires plan == NextActions(s) && Expanded(before, mid, counter, plan, wave)
    requires AllTerminal(mid) || calls >= maxCalls
    ensures History(reply, maxCalls, l0, s, mid, ran, wave, calls)
  {
    hide NextActions, Expanded, Staged, Sequential, LedgerOf, Begun, Replays;
    ReplaysExtended(reply, l0, LedgerOf(s), before, mid, counter, plan, wave, ran);
    if AllTerminal(mid) {
      NoPlan(before, mid, counter, plan, wave);
      DoneIs(s);
      NothingOpen(s, mid, wave);
    }
  }

  lemma NoPlan(before: Tasks, mid: Tasks, counter: nat, plan: seq<Planned>, wave: nat)
    requires Expanded(before, mid, counter, plan, wave) && AllTerminal(mid)
    ensures plan == [] && forall id :: !Open(mid, id)
  {
    hide GraphInv, Extended, PriorWave;
    NoElement(plan);
  }

  /** With nothing planned every phase is over. */
  lemma DoneIs(s: Snapshot)
    requires NextActions(s) == []
    ensures s.extracted && Opened(LedgerOf(s)) && Waiting(LedgerOf(s)) == [] && s.pending.vals.Keys == {} && HuntBatch(s) == []
  {
    FirstPlan(s);
    EvidencePlanned(s);
  }

  lemma EvidencePlanned(s: Snapshot)
    requires NextActions(s) == [] && Opened(LedgerOf(s)) && s.extracted
    ensures Waiting(LedgerOf(s)) == [] && s.pending.vals.Keys == {} && HuntBatch(s) == []
  {
    EvidencePlan(s);
    hide NextActions, Opened, LedgerOf, Waiting, HuntBatch;
    NoElement(Waiting(LedgerOf(s)));
  }

  /** The follow-up hunt starts a stage of its own. */
  lemma HistoryInjected(reply: nat -> Reply, maxCalls: int, l0: Ledger, s: Snapshot, before: Tasks, after: Tasks, counter: nat,
                        a: Planned, ran: seq<seq<string>>, wave: nat, calls: nat)
    requires History(reply, maxCalls, l0, s, before, ran, wave, calls)
    requires NextActions(s) == [] && AllTerminal(before) && a.HuntEdr?
    requires GraphInv(after, counter) && Extended(before, after, [a], before.vals.Keys, wave + 1) && HasActive(after, a)
    ensures History(reply, maxCalls, l0, s, after, ran, wave, calls)
  {
    hide NextActions, Staged, Sequential, LedgerOf, Begun, Calls, Logged, Opened, Waiting, HuntBatch, OnTheHunt, GraphInv;
    hide CallsDiffer, InWaves;
    if Begun(l0) {
      DifferExtended(before, after, [a], before.vals.Keys, wave + 1, ran);
    }
    LoggedExtended(before, after, [a], before.vals.Keys, wave + 1, Flat(ran), reply);
    InWavesExtended(before, after, [a], before.vals.Keys, wave + 1, ran);
    DoneIs(s);
    var h := Injected(before, after, counter, a, wave);
    BeginHunting(s, after, wave, h);
    assert Staged(s, after, wave) by { InHunt(s, after, wave); }
  }

  lemma InHunt(s: Snapshot, tasks: Tasks, wave: nat)
    requires OnTheHunt(s, tasks, wave)
    ensures Staged(s, tasks, wave)
  {
    hide OnTheHunt, LedgerOf;
  }

  lemma Injected(before: Tasks, after: Tasks, counter: nat, a: Planned, wave: nat) returns (h: string)
    requires AllTerminal(before) && GraphInv(after, counter)
    requires Extended(before, after, [a], before.vals.Keys, wave + 1) && HasActive(after, a)
    ensures Open(after, h) && after.vals[h].action == a && Clear(after, h)
    ensures forall id :: Open(after, id) ==> id == h
  {
    h :| h in after.vals && after.vals[h].action == a && !after.vals[h].Terminal();
    forall id | Open(after, id) ensures id == h {
      assert id !in before.vals;
      if id != h {
        OneTaskPerAction(after, id, h);
      }
    }
  }
}
