/** What a newly planned task depends on: the tasks of the wave before. When these are all
    the unfinished ones, and a run in which they are not. */
module Links {
  import opened Options
  import opened Sorting
  import opened OrderedDict
  import opened State
  import opened Planner
  import opened Tools
  import opened Concurrency
  import opened Effects
  import opened TaskGraphs
  import opened Turns
  import opened Stages
  import opened Smooth
  import Workflow

  /** A task planned after wave `wave` depends on everything unfinished exactly when all that
      is unfinished belongs to that wave. */
  lemma LinkedToOpen(before: Tasks, mid: Tasks, counter: nat, plan: seq<Planned>, wave: nat, id: string)
    requires Expanded(before, mid, counter, plan, wave) && id in mid.vals && id !in before.vals
    ensures (forall d :: Open(before, d) ==> d in mid.vals[id].dependsOn)
      <==> (forall d :: Open(before, d) ==> before.vals[d].wave == wave)
  {
    hide GraphInv, HasActive, Linked;
    assert mid.vals[id].dependsOn == PriorWave(before, wave + 1);
  }

  // ---------------------------------------------------------------- turns with one call

  /** The only task that may run, if one may. */
  ghost predicate Lone(tasks: Tasks, x: string) {
    Open(tasks, x) && Clear(tasks, x) && forall id :: Open(tasks, id) && Clear(tasks, id) ==> id == x
  }

  lemma LoneReady(tasks: Tasks, counter: nat, x: string)
    requires GraphInv(tasks, counter) && Lone(tasks, x)
    ensures tasks.Valid() && ReadyTasks(tasks) == [tasks.vals[x]]
  {
    InvParts(tasks, counter);
    ReadyAre(tasks);
    var ready := ReadyTasks(tasks);
    hide ReadyTasks, GraphInv;
    var t := tasks.vals[x];
    assert Settled(t) && IsReady(tasks, t);
    assert t in ready;
    forall u | u in ready ensures u == t {
      assert Open(tasks, u.id) && Clear(tasks, u.id);
    }
    OnlyElement(ready, t);
  }

  /** A turn in which one task runs. */
  lemma LoneTurn(s: Snapshot, m: Snapshot, before: Tasks, mid: Tasks, counter: nat, plan: seq<Planned>, wave: nat,
                 x: string, r: Reply, ok: bool) returns (t: Turn)
    requires Expanded(before, mid, counter, plan, wave) && plan == NextActions(s) && Lone(mid, x)
    requires Complete(LedgerOf(s), Fresh(AbstractAction(mid.vals[x].action), r)) == (LedgerOf(m), ok)
    ensures Takes(t, s, m, [r]) && t.Holds() && GraphInv(t.after, counter)
    ensures (t.before, t.mid, t.counter, t.plan, t.wave) == (before, mid, counter, plan, wave)
    ensures |t.ready| == 1 && t.ready[0].id == x && t.oks == [ok]
  {
    hide NextActions, LedgerOf, Complete, Lone, AbstractAction, GraphInv, Expanded, AfterRun, Settled;
    MidInv(before, mid, counter, plan, wave);
    LoneReady(mid, counter, x);
    LoneIs(mid, counter, x);
    var ready := [mid.vals[x]];
    ReadyBatch(mid, counter, ready);
    var after := Dict(mid.keys, mid.vals[x := AfterRun(mid.vals[x], ok)]);
    hide ReadyTasks;
    RanOne(mid, after, x, ok);
    WaveKeeps(mid, after, ready, [ok], counter);
    t := Turn(before, mid, after, counter, plan, wave, ready, [ok]);
    hide WaveRan, Batch;
    OneEffected(LedgerOf(s), LedgerOf(m), mid.vals[x], r, ok);
  }

  lemma RanOne(mid: Tasks, after: Tasks, x: string, ok: bool)
    requires x in mid.vals && mid.vals[x].id == x
    requires after == Dict(mid.keys, mid.vals[x := AfterRun(mid.vals[x], ok)])
    ensures WaveRan(mid, after, [mid.vals[x]], [ok])
  {
    hide AfterRun;
    assert [mid.vals[x]][0].id == x;
    assert after.vals.Keys == mid.vals.Keys;
  }

  lemma MidInv(before: Tasks, mid: Tasks, counter: nat, plan: seq<Planned>, wave: nat)
    requires Expanded(before, mid, counter, plan, wave)
    ensures GraphInv(mid, counter)
  {
  }

  lemma LoneIs(tasks: Tasks, counter: nat, x: string)
    requires GraphInv(tasks, counter) && Lone(tasks, x)
    ensures x in tasks.vals && tasks.vals[x].id == x && Settled(tasks.vals[x])
  {
    InvParts(tasks, counter);
  }

  lemma OneEffected(l: Ledger, m: Ledger, x: Task, r: Reply, ok: bool)
    requires Complete(l, Fresh(AbstractAction(x.action), r)) == (m, ok)
    ensures Effected(l, m, [x], [r], [ok])
  {
    var frames := FramesOf([x], [r]);
    FrameAt([x], [r], 0);
    SequentialCons(l, frames);
    assert frames[1..] == [];
    hide Complete, FramesOf;
    assert [ok] + [] == [ok];
  }

  // ---------------------------------------------------------------- a run

  /** Consecutive turns of a run from a new case. */
  ghost predicate Chain(turns: seq<Turn>, states: seq<Snapshot>, replies: seq<seq<Reply>>) {
    && |states| == |turns| + 1 && |replies| == |turns|
    && (forall k :: 0 <= k < |turns| ==> turns[k].wave == k && Takes(turns[k], states[k], states[k + 1], replies[k]))
    && (turns != [] ==> turns[0].before == Empty())
    && forall k :: 0 <= k < |turns| - 1 ==> turns[k + 1].before == turns[k].after
  }

  /** All that is open: one task. */
  ghost predicate OnlyOpen(tasks: Tasks, x: string, a: Planned, wave: nat, attempts: nat) {
    && Open(tasks, x) && Clear(tasks, x) && (forall id :: Open(tasks, id) ==> id == x)
    && tasks.vals[x].action == a && tasks.vals[x].wave == wave && tasks.vals[x].attempts == attempts
  }

  /** One new call, from a graph in which all has ended, fails. */
  lemma FirstFails(s: Snapshot, m: Snapshot, before: Tasks, n: nat, wave: nat, a: Planned, r: Reply)
    returns (t: Turn, x: string)
    requires GraphInv(before, n) && (forall id :: !Open(before, id)) && NextActions(s) == [a]
    requires Complete(LedgerOf(s), Fresh(AbstractAction(a), r)) == (LedgerOf(m), false)
    ensures Takes(t, s, m, [r]) && t.before == before && t.wave == wave && GraphInv(t.after, t.counter)
    ensures OnlyOpen(t.after, x, a, wave + 1, 1)
  {
    hide NextActions, LedgerOf, Complete, GraphInv, Expanded, Grown, Turn.Holds, AbstractAction, Clear;
    var mid, counter := GrownExpanded(before, n, [a], wave);
    var whole := WholeTurn(before, mid, counter, [a], wave);
    x := whole.PlannedOpen(a);
    forall id | Open(mid, id) ensures id == x && Clear(mid, id) && mid.vals[id].attempts == 0 && mid.vals[id].wave == wave + 1 {
      NewlyOpen(whole, id);
      if id != x {
        whole.OneActive(id, x);
      }
    }
    t := LoneTurn(s, m, before, mid, counter, [a], wave, x, r, false);
    StillOne(t, x);
  }

  /** What is open after a turn in which only `x` could run, and failed for the first time. */
  lemma StillOne(t: Turn, x: string)
    requires t.Holds() && t.oks == [false] && |t.ready| == 1 && t.ready[0].id == x
    requires Open(t.mid, x) && Clear(t.mid, x) && t.mid.vals[x].attempts == 0 && forall id :: Open(t.mid, id) ==> id == x
    ensures OnlyOpen(t.after, x, t.mid.vals[x].action, t.mid.vals[x].wave, 1)
  {
    hide Turn.Holds, Clear;
    t.StaysOpen(x);
    t.OpenAfter(x);
    forall id | Open(t.after, id) ensures id == x {
      t.OpenAfter(id);
    }
  }

  /** A retry of the last wave's only open call succeeds; what is newly planned waits for it. */
  lemma RetrySucceeds(s: Snapshot, m: Snapshot, before: Tasks, n: nat, wave: nat, x: string, a: Planned, b: Planned, r: Reply)
    returns (t: Turn, y: string)
    requires GraphInv(before, n) && OnlyOpen(before, x, a, wave, 1) && NextActions(s) == [b] && b != a
    requires Complete(LedgerOf(s), Fresh(AbstractAction(a), r)) == (LedgerOf(m), true)
    ensures Takes(t, s, m, [r]) && t.before == before && t.wave == wave && GraphInv(t.after, t.counter)
    ensures OnlyOpen(t.after, y, b, wave + 1, 0)
  {
    hide NextActions, LedgerOf, Complete, GraphInv, Expanded, Grown, Turn.Holds, AbstractAction, Clear, Takes;
    var mid, counter := GrownExpanded(before, n, [b], wave);
    var whole := WholeTurn(before, mid, counter, [b], wave);
    whole.OldStays(x);
    y := whole.PlannedOpen(b);
    forall id | Open(mid, id) && id != x
      ensures id !in before.vals && mid.vals[id].action == b && !Clear(mid, id)
      ensures mid.vals[id].attempts == 0 && mid.vals[id].wave == wave + 1
    {
      if id in before.vals {
        whole.OldStays(id);
      }
      whole.NewInMid(id);
    }
    t := LoneTurn(s, m, before, mid, counter, [b], wave, x, r, true);
    AfterRetry(t, x, y, b);
  }

  lemma AfterRetry(t: Turn, x: string, y: string, b: Planned)
    requires t.Holds() && t.oks == [true] && |t.ready| == 1 && t.ready[0].id == x
    requires Open(t.mid, x) && Clear(t.mid, x) && Open(t.mid, y) && y != x && t.mid.vals[y].action == b
    requires forall id :: Open(t.mid, id) && id != x ==>
      && id !in t.before.vals && t.mid.vals[id].action == b && !Clear(t.mid, id)
      && t.mid.vals[id].attempts == 0 && t.mid.vals[id].wave == t.wave + 1
    ensures OnlyOpen(t.after, y, b, t.wave + 1, 0)
  {
    hide Turn.Holds, Clear;
    forall id | Open(t.after, id) ensures id == y {
      t.OpenAfter(id);
      if id != y {
        t.OneActive(id, y);
      }
    }
    t.StaysOpen(y);
    t.OpenAfter(y);
    t.NewInMid(y);
    ClearOf(t.after, y);
  }

  /** The only open call, already planned, runs for the first time and fails. */
  lemma WaitedFails(s: Snapshot, m: Snapshot, before: Tasks, n: nat, wave: nat, x: string, a: Planned, r: Reply)
    returns (t: Turn)
    requires GraphInv(before, n) && OnlyOpen(before, x, a, wave, 0) && NextActions(s) == [a]
    requires Complete(LedgerOf(s), Fresh(AbstractAction(a), r)) == (LedgerOf(m), false)
    ensures Takes(t, s, m, [r]) && t.before == before && t.wave == wave && GraphInv(t.after, t.counter)
    ensures OnlyOpen(t.after, x, a, wave, 1)
  {
    hide NextActions, LedgerOf, Complete, GraphInv, Expanded, Grown, Turn.Holds, AbstractAction, Clear, Takes;
    var mid, counter := GrownExpanded(before, n, [a], wave);
    var whole := WholeTurn(before, mid, counter, [a], wave);
    whole.OldStays(x);
    forall id | Open(mid, id) ensures id == x {
      if id in before.vals {
        whole.OldStays(id);
      } else {
        whole.NewInMid(id);
      }
    }
    t := LoneTurn(s, m, before, mid, counter, [a], wave, x, r, false);
    StillOne(t, x);
  }

  /** What is planned next does not depend on a call left open from an earlier wave. */
  lemma NotLinked(before: Tasks, n: nat, wave: nat, x: string, a: Planned, b: Planned) returns (mid: Tasks, counter: nat, h: string)
    requires GraphInv(before, n) && OnlyOpen(before, x, a, wave, 1) && b != a
    ensures Expanded(before, mid, counter, [b], wave + 1)
    ensures Open(mid, h) && h !in before.vals && mid.vals[h].action == b && x !in mid.vals[h].dependsOn
  {
    hide GraphInv, Expanded, Grown, Turn.Holds, Clear;
    mid, counter := GrownExpanded(before, n, [b], wave + 1);
    var whole := WholeTurn(before, mid, counter, [b], wave + 1);
    whole.OldStays(x);
    h := whole.PlannedOpen(b);
    if h in before.vals {
      whole.OldStays(h);
    }
    whole.NewInMid(h);
  }

  // ---------------------------------------------------------------- the states of the run

  function Bad(): Judgement { Judgement(Malicious, 1.0, []) }

  function Tells(fate: Fate, attachments: seq<Attachment>, iocs: seq<IOC>): Reply {
    Reply(fate, attachments, iocs, (k: string) => Bad(), 0.0, [])
  }

  /** The context tools have run: the email has one attachment. */
  function Fetched(alert: Alert, a: Attachment): Snapshot {
    Workflow.NewCase(alert).(detectionsRan := true, emailMsg := Some([a]), emailChecked := true)
  }

  function Extracted(alert: Alert, a: Attachment): Snapshot { Fetched(alert, a).(extracted := true) }

  /** The detonation dropped `y`, which waits for threat intel. */
  function Detonated(alert: Alert, a: Attachment, y: IOC): Snapshot {
    Extracted(alert, a).(detonated := {a.sha256}, pending := Dict([y.Key()], map[y.Key() := y]))
  }

  function Judged(alert: Alert, a: Attachment, y: IOC): Snapshot {
    Detonated(alert, a, y).(pending := Empty(), enriched := Dict([y.Key()], map[y.Key() := EnrichedIOC(y, Bad())]))
  }

  lemma OneAttachment(a: Attachment)
    ensures Undetonated([a], {}) == [a] && Undetonated([a], {a.sha256}) == []
    ensures Detonations<seq<string>>([a]) == [Detonate(a)]
  {
    assert [a][..0] == [];
  }

  lemma Plans(alert: Alert, a: Attachment, y: IOC)
    requires alert.LooksLikePhishing()
    ensures NextActions(Extracted(alert, a)) == [Detonate(a)]
    ensures NextActions(Detonated(alert, a, y)) == [EnrichIocs]
    ensures NextActions(Judged(alert, a, y)) == [HuntEdr([y.Key()])]
  {
    OneAttachment(a);
    hide Alert.LooksLikePhishing, Undetonated, IOC.Key, Judgements;
    assert Detonations<seq<string>>([]) == [];
    HuntPlanned(alert, a, y);
  }

  lemma FilterOne<T(!new)>(p: T -> bool, x: T)
    requires p(x)
    ensures Filter(p, [x]) == [x]
  {
    assert [x][1..] == [];
    assert Filter(p, [x][1..]) == [];
  }

  lemma HuntPlanned(alert: Alert, a: Attachment, y: IOC)
    ensures HuntBatch(Judged(alert, a, y)) == [HuntEdr([y.Key()])]
  {
    hide IOC.Key, Filter;
    var s := Judged(alert, a, y);
    FilterOne(k => k in s.enriched.vals && s.enriched.vals[k].judgement.verdict.Malicious? && k !in s.hunted, y.Key());
  }

  lemma FirstWaves(alert: Alert, a: Attachment, ans: Answer)
    requires alert.LooksLikePhishing() && ans == (_ => Tells(Ok, [a], []))
    ensures var s := Workflow.NewCase(alert);
      AllAnswer(ans, LedgerPlan(LedgerOf(s))) && LedgerOf(Fetched(alert, a)) == Fold(LedgerOf(s), Answered(ans, LedgerPlan(LedgerOf(s))))
    ensures var s := Fetched(alert, a);
      AllAnswer(ans, LedgerPlan(LedgerOf(s))) && LedgerOf(Extracted(alert, a)) == Fold(LedgerOf(s), Answered(ans, LedgerPlan(LedgerOf(s))))
  {
    hide Alert.LooksLikePhishing, Fold, Do;
    var l, r := LedgerOf(Workflow.NewCase(alert)), Tells(Ok, [a], []);
    assert LedgerPlan(l) == [RunDetections, FetchEmail];
    var f, g: LedgerFrame := Fresh(RunDetections, r), Fresh(FetchEmail, r);
    assert Answered(ans, LedgerPlan(l)) == [f] + [g];
    FoldCons(l, f, [g]);
    FoldOne(Do(l, f), g);
    DetectionDoes(l, r);
    FetchDoes(Do(l, f), r);
    var m := LedgerOf(Fetched(alert, a));
    assert LedgerPlan(m) == [ExtractIocs];
    assert Answered(ans, LedgerPlan(m)) == [Fresh(ExtractIocs, r)];
    FoldOne(m, Fresh(ExtractIocs, r));
    ExtractionDoes(m, r);
  }

  lemma ExtractionDoes(l: Ledger, r: Reply)
    requires r.fate.Ok? && r.iocs == []
    ensures Do(l, Fresh(ExtractIocs, r)) == l.(extracted := true)
  {
    CompleteStarted(l, ExtractIocs, r);
    assert KeysOf([]) == {} && l.pending + ({} - l.judged.Keys) == l.pending;
  }

  lemma DetonationDoes(l: Ledger, a: Attachment, y: IOC, fate: Fate)
    requires fate.Lands()
    ensures Complete(l, Fresh(Detonate(a), Tells(fate, [], [y])))
      == (LedgerDetonate(l, a.sha256, 0.0, {y.Key()}), fate.Ok?)
  {
    hide IOC.Key, Complete, LedgerDetonate;
    assert KeysOf([y]) == {y.Key()} by { assert [y][0].Key() == y.Key(); }
    CompleteStarted(l, Detonate(a), Tells(fate, [], [y]));
    hide KeysOf;
  }

  lemma LateEnrichmentDoes(l: Ledger)
    requires l.pending != {}
    ensures Complete(l, Fresh(EnrichIocs, Tells(Late, [], []))) == (l.Judge(l.pending, (k: string) => Bad()), false)
  {
    hide Complete, Ledger.Judge;
    CompleteStarted(l, EnrichIocs, Tells(Late, [], []));
  }

  lemma Ledgers(alert: Alert, a: Attachment, y: IOC)
    ensures LedgerDetonate(LedgerOf(Extracted(alert, a)), a.sha256, 0.0, {y.Key()}) == LedgerOf(Detonated(alert, a, y))
    ensures LedgerDetonate(LedgerOf(Detonated(alert, a, y)), a.sha256, 0.0, {y.Key()}) == LedgerOf(Detonated(alert, a, y))
    ensures LedgerOf(Detonated(alert, a, y)).pending == {y.Key()}
    ensures LedgerOf(Detonated(alert, a, y)).Judge({y.Key()}, (k: string) => Bad()) == LedgerOf(Judged(alert, a, y))
  {
    hide IOC.Key;
    var m, n := LedgerOf(Detonated(alert, a, y)), LedgerOf(Judged(alert, a, y));
    assert m.judged == map[] && n.judged == map[y.Key() := Bad()];
    var judge := (k: string) => Bad();
    assert (map k | k in {y.Key()} :: judge(k)) == map[y.Key() := Bad()];
  }

  /** The detonation, its retry and the enrichment: each does its work, the first and the
      last then fail while they store their evidence. */
  lemma Calls(alert: Alert, a: Attachment, y: IOC)
    ensures Complete(LedgerOf(Extracted(alert, a)), Fresh(AbstractAction(Detonate(a)), Tells(Late, [], [y])))
      == (LedgerOf(Detonated(alert, a, y)), false)
    ensures Complete(LedgerOf(Detonated(alert, a, y)), Fresh(AbstractAction(Detonate(a)), Tells(Ok, [], [y])))
      == (LedgerOf(Detonated(alert, a, y)), true)
    ensures Complete(LedgerOf(Detonated(alert, a, y)), Fresh(AbstractAction(EnrichIocs), Tells(Late, [], [])))
      == (LedgerOf(Judged(alert, a, y)), false)
  {
    hide IOC.Key, Complete, LedgerOf, LedgerDetonate, Ledger.Judge, Tells;
    Ledgers(alert, a, y);
    DetonationDoes(LedgerOf(Extracted(alert, a)), a, y, Late);
    DetonationDoes(LedgerOf(Detonated(alert, a, y)), a, y, Ok);
    LateEnrichmentDoes(LedgerOf(Detonated(alert, a, y)));
  }

  lemma StatesKeyed(alert: Alert, a: Attachment)
    ensures Workflow.NewCase(alert).WellKeyed() && Fetched(alert, a).WellKeyed()
  {
  }

  /** For every phishing-like case, attachment and indicator there is a run of five waves after
      which a task is planned that does not depend on an unfinished one: a detonation drops
      the indicator and fails, so its enrichment waits a wave; that enrichment judges it and
      fails in turn; and the hunt planned then is linked to the wave in between. */
  lemma OpenButNotLinked(alert: Alert, a: Attachment, y: IOC)
    returns (turns: seq<Turn>, states: seq<Snapshot>, replies: seq<seq<Reply>>, mid: Tasks, counter: nat, x: string, h: string)
    requires alert.LooksLikePhishing()
    ensures Chain(turns, states, replies) && |turns| == 5 && states[0] == Workflow.NewCase(alert)
    ensures Expanded(turns[4].after, mid, counter, NextActions(states[5]), 5)
    ensures Open(turns[4].after, x) && h in mid.vals && h !in turns[4].after.vals && x !in mid.vals[h].dependsOn
  {
    hide Alert.LooksLikePhishing, GraphInv, NextActions, LedgerPlan, LedgerOf, Fold, Answered, Complete, Takes, Expanded;
    hide OnlyOpen, Workflow.NewCase, Fetched, Extracted, Detonated, Judged, Snapshot.WellKeyed, AllAnswer, Tells;
    var ans: Answer := _ => Tells(Ok, [a], []);
    var s0, s1, s2 := Workflow.NewCase(alert), Fetched(alert, a), Extracted(alert, a);
    var s3, s5 := Detonated(alert, a, y), Judged(alert, a, y);
    FirstWaves(alert, a, ans);
    Calls(alert, a, y);
    Plans(alert, a, y);
    StatesKeyed(alert, a);
    EmptyGraph();
    var t0, r0 := SomeSmooth(s0, s1, Empty(), 0, 0, ans);
    var t1, r1 := SomeSmooth(s1, s2, t0.after, t0.counter, 1, ans);
    var t2, d := FirstFails(s2, s3, t1.after, t1.counter, 2, Detonate(a), Tells(Late, [], [y]));
    var t3, e := RetrySucceeds(s3, s3, t2.after, t2.counter, 3, d, Detonate(a), EnrichIocs, Tells(Ok, [], [y]));
    var t4 := WaitedFails(s3, s5, t3.after, t3.counter, 4, e, EnrichIocs, Tells(Late, [], []));
    mid, counter, h := NotLinked(t4.after, t4.counter, 4, e, EnrichIocs, HuntEdr([y.Key()]));
    x := e;
    OnlyOpenIs(t4.after, e, EnrichIocs, 4, 1);
    turns, states := [t0, t1, t2, t3, t4], [s0, s1, s2, s3, s3, s5];
    replies := [r0, r1, [Tells(Late, [], [y])], [Tells(Ok, [], [y])], [Tells(Late, [], [])]];
  }

  lemma EmptyGraph()
    ensures GraphInv(Empty(), 0) && forall id :: !Open(Empty(), id)
  {
  }

  lemma OnlyOpenIs(tasks: Tasks, x: string, a: Planned, wave: nat, attempts: nat)
    requires OnlyOpen(tasks, x, a, wave, attempts)
    ensures Open(tasks, x)
  {
  }
}
