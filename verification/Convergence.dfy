/** Convergence of the plan-act loop: when the tools succeed, every batch moves
    the investigation to a later phase, so the loop ends by itself, early and
    within budget. */
module Convergence {
  import opened Options
  import opened State
  import opened Planner
  import opened Tools
  import opened Concurrency
  import opened Loop
  import opened Workflow

  /** The phase still ahead: the context tools have not run (5), the corpus has
      not been scanned (4), an attachment is undetonated (3), an indicator waits
      for threat intel (2), a hunt is due (1), or nothing is left (0). */
  function PhaseLeft(l: Ledger): nat {
    if FirstBatch<set<string>>(l) != [] then 5
    else if !l.extracted then 4
    else if Undetonated(Attachments(l.emailMsg), l.detonated) != [] then 3
    else if l.pending != {} then 2
    else if LedgerHunt(l) != [] then 1
    else 0
  }

  lemma NothingLeft(l: Ledger)
    ensures PhaseLeft(l) == 0 <==> LedgerPlan(l) == []
  {
    hide Undetonated, LedgerHunt;
  }

  /** What a successful call does to the ledger. */
  function Effect(l: Ledger, a: LedgerAction, r: Reply): Ledger {
    match a
    case RunDetections => l.(detectionsRan := true)
    case FetchEmail => l.(emailMsg := Some(r.attachments), emailChecked := true, extracted := false)
    case ExtractIocs => l.AddKeys(KeysOf(r.iocs)).(extracted := true)
    case EnrichIocs => l.Judge(l.pending, r.judge)
    case Detonate(att) => LedgerDetonate(l, att.sha256, r.malscore, KeysOf(r.iocs))
    case HuntEdr(keys) => if keys !! l.judged.Keys then l else l.(hunted := l.hunted + keys, hits := l.hits + r.hits)
  }

  lemma CompleteEffect(l: Ledger, a: LedgerAction, r: Reply)
    requires r.fate.Ok?
    ensures Complete(l, Fresh(a, r)) == (Effect(l, a, r), true)
  {
    var (next, g) := LedgerStep(l, Fresh(a, r));
    CompleteOutcome(next, g);
    if a.EnrichIocs? && l.pending == {} {
      assert l.judged + (map k | k in l.pending :: r.judge(k)) == l.judged;
      assert l.Judge(l.pending, r.judge) == l;
    }
  }

  ghost predicate AllSucceed(replies: seq<Reply>) {
    forall i :: 0 <= i < |replies| ==> replies[i].fate.Ok?
  }

  lemma RoundCons(l: Ledger, plan: seq<LedgerAction>, replies: seq<Reply>)
    requires |plan| == |replies| > 0 && replies[0].fate.Ok?
    ensures Round(l, plan, replies).0 == Round(Effect(l, plan[0], replies[0]), plan[1..], replies[1..]).0
  {
    hide Complete, Effect;
    CompleteEffect(l, plan[0], replies[0]);
    var frames: seq<LedgerFrame> := Launch(plan, replies);
    assert frames[1..] == Launch(plan[1..], replies[1..]);
  }

  lemma RoundNil(l: Ledger)
    ensures Round(l, [], []).0 == l
  {}

  lemma DetonationsRun(l: Ledger, atts: seq<Attachment>, replies: seq<Reply>)
    requires |atts| == |replies| && AllSucceed(replies)
    ensures var after := Round(l, Detonations(atts), replies).0;
      && after == l.(pending := after.pending, detonated := after.detonated, malscore := after.malscore)
      && l.pending <= after.pending && l.detonated <= after.detonated
      && forall a :: a in atts ==> a.sha256 in after.detonated
    decreases |atts|
  {
    hide Round;
    if atts == [] {
      RoundNil(l);
      assert Detonations<set<string>>(atts) == [] && replies == [];
    } else {
      var plan: seq<LedgerAction> := Detonations(atts);
      RoundCons(l, plan, replies);
      assert plan[1..] == Detonations(atts[1..]);
      DetonationsRun(Effect(l, plan[0], replies[0]), atts[1..], replies[1..]);
      assert forall a :: a in atts ==> a == atts[0] || a in atts[1..];
    }
  }

  lemma NoneUndetonated(atts: seq<Attachment>, before: set<string>, after: set<string>)
    requires before <= after && forall a :: a in Undetonated(atts, before) ==> a.sha256 in after
    ensures Undetonated(atts, after) == []
  {
    UndetonatedAre(atts, before);
    UndetonatedAre(atts, after);
  }

  lemma FirstPhase(l: Ledger, replies: seq<Reply>)
    requires PhaseLeft(l) == 5 && |replies| == |LedgerPlan(l)| && AllSucceed(replies)
    ensures PhaseLeft(Round(l, LedgerPlan(l), replies).0) < 5
  {
    hide Round, Undetonated;
    var plan := LedgerPlan(l);
    RoundCons(l, plan, replies);
    var m := Effect(l, plan[0], replies[0]);
    if |plan| == 2 {
      RoundCons(m, plan[1..], replies[1..]);
      RoundNil(Effect(m, plan[1], replies[1]));
      assert plan[1..][1..] == [] && replies[1..][1..] == [];
    } else {
      RoundNil(m);
      assert plan[1..] == [] && replies[1..] == [];
    }
  }

  lemma ExtractionPhase(l: Ledger, replies: seq<Reply>)
    requires PhaseLeft(l) == 4 && |replies| == |LedgerPlan(l)| && AllSucceed(replies)
    ensures PhaseLeft(Round(l, LedgerPlan(l), replies).0) < 4
  {
    hide Round, Undetonated, LedgerHunt;
    RoundCons(l, LedgerPlan(l), replies);
    RoundNil(Effect(l, ExtractIocs, replies[0]));
    assert LedgerPlan(l)[1..] == [] && replies[1..] == [];
  }

  lemma EvidencePhase(l: Ledger, replies: seq<Reply>)
    requires PhaseLeft(l) == 3 && |replies| == |LedgerPlan(l)| && AllSucceed(replies)
    ensures PhaseLeft(Round(l, LedgerPlan(l), replies).0) < 3
  {
    hide Round, Undetonated, LedgerHunt;
    var plan, atts := LedgerPlan(l), Undetonated(Attachments(l.emailMsg), l.detonated);
    var after := Round(l, plan, replies).0;
    if l.pending == {} {
      assert plan == Detonations(atts);
      DetonationsRun(l, atts, replies);
    } else {
      RoundCons(l, plan, replies);
      assert plan[1..] == Detonations(atts);
      DetonationsRun(Effect(l, EnrichIocs, replies[0]), atts, replies[1..]);
    }
    NoneUndetonated(Attachments(l.emailMsg), l.detonated, after.detonated);
  }

  lemma EnrichmentPhase(l: Ledger, replies: seq<Reply>)
    requires PhaseLeft(l) == 2 && |replies| == |LedgerPlan(l)| && AllSucceed(replies)
    ensures PhaseLeft(Round(l, LedgerPlan(l), replies).0) < 2
  {
    hide Round, Undetonated, LedgerHunt;
    assert LedgerPlan(l) == [EnrichIocs];
    RoundCons(l, LedgerPlan(l), replies);
    RoundNil(Effect(l, EnrichIocs, replies[0]));
    assert LedgerPlan(l)[1..] == [] && replies[1..] == [];
  }

  lemma HuntPhase(l: Ledger, replies: seq<Reply>)
    requires PhaseLeft(l) == 1 && |replies| == |LedgerPlan(l)| && AllSucceed(replies)
    ensures PhaseLeft(Round(l, LedgerPlan(l), replies).0) < 1
  {
    hide Round, Undetonated;
    var plan := LedgerPlan(l);
    assert plan == LedgerHunt(l);
    RoundCons(l, plan, replies);
    var after := Effect(l, plan[0], replies[0]);
    RoundNil(after);
    assert plan[1..] == [] && replies[1..] == [];
    var keys := plan[0].keys;
    var k :| k in keys;
    assert k in l.judged.Keys && k in after.hunted;
    assert after == l.(hunted := l.hunted + keys, hits := l.hits + replies[0].hits);
    assert MaliciousKeys(after) == {};
  }

  /** A batch whose calls all succeed ends in a later phase. */
  lemma BatchAdvances(l: Ledger, replies: seq<Reply>)
    requires LedgerPlan(l) != [] && |replies| == |LedgerPlan(l)| && AllSucceed(replies)
    ensures PhaseLeft(Round(l, LedgerPlan(l), replies).0) < PhaseLeft(l)
  {
    hide LedgerPlan, Round, Undetonated, LedgerHunt;
    NothingLeft(l);
    match PhaseLeft(l)
    case 5 => FirstPhase(l, replies);
    case 4 => ExtractionPhase(l, replies);
    case 3 => EvidencePhase(l, replies);
    case 2 => EnrichmentPhase(l, replies);
    case 1 => HuntPhase(l, replies);
    case _ =>
  }

  // ---------------------------------------------------------------- whole runs

  /** An upper bound on the tool calls from each phase on, with at most `m`
      attachments to an email. */
  function CallsLeft(phase: nat, m: nat): nat {
    match phase
    case 0 => 0
    case 1 => 1
    case 2 => 2
    case 3 => 3 + m
    case 4 => 4 + m
    case _ => 6 + m
  }

  ghost predicate FewAttachments(world: World, m: nat) {
    forall it: nat, j: nat :: |world.reply(it, j).attachments| <= m
  }

  ghost predicate AlwaysSucceeds(world: World) {
    forall it: nat, j: nat :: world.reply(it, j).fate.Ok?
  }

  lemma PlanSize(l: Ledger, m: nat, phase: nat)
    requires |Attachments(l.emailMsg)| <= m && phase < PhaseLeft(l)
    ensures |LedgerPlan(l)| + CallsLeft(phase, m) <= CallsLeft(PhaseLeft(l), m)
  {
    hide Undetonated;
    UndetonatedAre(Attachments(l.emailMsg), l.detonated);
  }

  lemma RoundEmail(l: Ledger, plan: seq<LedgerAction>, replies: seq<Reply>, m: nat)
    requires |plan| == |replies| && AllSucceed(replies) && |Attachments(l.emailMsg)| <= m
    requires forall i :: 0 <= i < |replies| ==> |replies[i].attachments| <= m
    ensures |Attachments(Round(l, plan, replies).0.emailMsg)| <= m
    decreases |plan|
  {
    hide Round;
    if plan == [] {
      RoundNil(l);
      assert replies == [];
    } else {
      RoundCons(l, plan, replies);
      RoundEmail(Effect(l, plan[0], replies[0]), plan[1..], replies[1..], m);
    }
  }

  /** No plan of the run is cut short by the tool-call budget. */
  ghost predicate Covered(p: Progress, world: World, budget: Budget, it: nat)
    decreases budget.maxIterations + 1 - it
  {
    var plan := LedgerPlan(p.ledger);
    it > budget.maxIterations || plan == [] ||
    (&& p.calls + |plan| <= budget.maxToolCalls
     && var (next, oks) := Round(p.ledger, plan, world.Replies(it, |plan|));
        Covered(Progress(next, p.calls + |plan|, p.trace + ActSteps(plan, oks, |p.trace| + 1, it)), world, budget, it + 1))
  }

  /** When every call succeeds and no plan is cut short, the loop ends because the plan is
      empty, after at most one batch per phase left. */
  lemma {:induction false} Converges(p: Progress, world: World, budget: Budget, it: nat)
    requires AlwaysSucceeds(world) && (forall i: nat :: !world.late(i)) && Covered(p, world, budget, it)
    requires it + PhaseLeft(p.ledger) <= budget.maxIterations + 1
    ensures var end := Iterate(p, world, budget, it);
      && LedgerPlan(end.ledger) == []
      && p.trace <= end.trace
      && forall i :: |p.trace| <= i < |end.trace| ==>
           end.trace[i].phase.Act? && end.trace[i].ok && it <= end.trace[i].iteration < it + PhaseLeft(p.ledger)
    decreases PhaseLeft(p.ledger)
  {
    hide PhaseLeft, LedgerPlan, Round, Iterate;
    var l, plan := p.ledger, LedgerPlan(p.ledger);
    IterateStops(p, world, budget, it);
    NothingLeft(l);
    if plan == [] {
    } else {
      var replies := world.Replies(it, |plan|);
      BatchAdvances(l, replies);
      var (next, oks) := Round(l, plan, replies);
      assert Affordable(plan, budget, p.calls) == plan;
      RoundIs(l, plan, replies);
      IterateActs(p, world, budget, it, plan, next, oks);
      RoundOks(l, plan, replies);
      var q := Progress(next, p.calls + |plan|, p.trace + ActSteps(plan, oks, |p.trace| + 1, it));
      Converges(q, world, budget, it + 1);
      var end := Iterate(p, world, budget, it);
      forall i | |p.trace| <= i < |end.trace|
        ensures end.trace[i].phase.Act? && end.trace[i].ok && it <= end.trace[i].iteration < it + PhaseLeft(l)
      {
        if i < |q.trace| { assert end.trace[i] == q.trace[i]; }
      }
    }
  }

  /** A budget for the worst case of the phases left covers every run of successful calls. */
  lemma {:induction false} WorstCaseCovers(p: Progress, world: World, budget: Budget, it: nat, m: nat)
    requires AlwaysSucceeds(world) && FewAttachments(world, m) && |Attachments(p.ledger.emailMsg)| <= m
    requires p.calls + CallsLeft(PhaseLeft(p.ledger), m) <= budget.maxToolCalls
    ensures Covered(p, world, budget, it)
    decreases PhaseLeft(p.ledger)
  {
    hide PhaseLeft, LedgerPlan, Round, CallsLeft;
    var l, plan := p.ledger, LedgerPlan(p.ledger);
    NothingLeft(l);
    if plan == [] {
    } else {
      var replies := world.Replies(it, |plan|);
      BatchAdvances(l, replies);
      var (next, oks) := Round(l, plan, replies);
      RoundEmail(l, plan, replies, m);
      PlanSize(l, m, PhaseLeft(next));
      var q := Progress(next, p.calls + |plan|, p.trace + ActSteps(plan, oks, |p.trace| + 1, it));
      WorstCaseCovers(q, world, budget, it + 1, m);
    }
  }

  lemma RoundOks(l: Ledger, plan: seq<LedgerAction>, replies: seq<Reply>)
    requires |plan| == |replies| && AllSucceed(replies)
    ensures forall i :: 0 <= i < |plan| ==> Round(l, plan, replies).1[i]
    decreases |plan|
  {
    if plan == [] {
    } else {
      var frames: seq<LedgerFrame> := Launch(plan, replies);
      CompleteEffect(l, plan[0], replies[0]);
      assert frames[1..] == Launch(plan[1..], replies[1..]);
      RoundOks(Complete(l, frames[0]).0, plan[1..], replies[1..]);
      assert Round(l, plan, replies).1 == [true] + Round(Complete(l, frames[0]).0, plan[1..], replies[1..]).1;
    }
  }

  lemma RoundIs(l: Ledger, plan: seq<LedgerAction>, replies: seq<Reply>)
    requires |plan| == |replies|
    ensures Round(l, plan, replies) == Sequential(l, Launch(plan, replies))
  {}

  /** From a new case, under the default budget, with up to 26 attachments: the
      loop converges in at most 5 batches without running into any budget. */
  lemma DefaultBudgetConverges(alert: Alert, world: World)
    requires AlwaysSucceeds(world) && FewAttachments(world, 26) && forall i: nat :: !world.late(i)
    ensures var end := Iterate(Progress(LedgerOf(NewCase(alert)), 0, []), world, DEFAULT_BUDGET, 1);
      && LedgerPlan(end.ledger) == []
      && forall i :: 0 <= i < |end.trace| ==>
           end.trace[i].phase.Act? && end.trace[i].ok && 1 <= end.trace[i].iteration <= 5
  {
    hide Iterate, LedgerPlan;
    var p := Progress(LedgerOf(NewCase(alert)), 0, []);
    assert PhaseLeft(p.ledger) == 5;
    WorstCaseCovers(p, world, DEFAULT_BUDGET, 1, 26);
    Converges(p, world, DEFAULT_BUDGET, 1);
  }

  // ---------------------------------------------------------------- the bound is tight

  /** Every call succeeds: the email has the attachments `atts`, the scan finds `x`, every
      detonation drops `y`, and threat intel calls everything malicious. */
  function Busy(atts: seq<Attachment>, x: IOC, y: IOC): World {
    World((it, j) => Reply(Ok, atts, [if it == 2 then x else y], (k: string) => Judgement(Malicious, 1.0, []), 0.0, []),
          it => false)
  }

  /** One iteration whose plan the budget covers. */
  lemma BusyTurn(p: Progress, world: World, budget: Budget, it: nat) returns (q: Progress)
    requires LedgerPlan(p.ledger) != [] && !world.late(it) && it <= budget.maxIterations
    requires p.calls + |LedgerPlan(p.ledger)| <= budget.maxToolCalls
    ensures Iterate(p, world, budget, it) == Iterate(q, world, budget, it + 1)
    ensures q.calls == p.calls + |LedgerPlan(p.ledger)|
    ensures q.ledger == Round(p.ledger, LedgerPlan(p.ledger), world.Replies(it, |LedgerPlan(p.ledger)|)).0
  {
    hide LedgerPlan, Round, Iterate;
    var plan := LedgerPlan(p.ledger);
    var replies := world.Replies(it, |plan|);
    var (next, oks) := Round(p.ledger, plan, replies);
    assert Affordable(plan, budget, p.calls) == plan;
    RoundIs(p.ledger, plan, replies);
    IterateActs(p, world, budget, it, plan, next, oks);
    q := Progress(next, p.calls + |plan|, p.trace + ActSteps(plan, oks, |p.trace| + 1, it));
  }

  lemma BusyFirst(l: Ledger, atts: seq<Attachment>, x: IOC, y: IOC)
    requires !l.detectionsRan && !l.emailChecked && l.alert.LooksLikePhishing()
    ensures LedgerPlan(l) == [RunDetections, FetchEmail]
    ensures Round(l, LedgerPlan(l), Busy(atts, x, y).Replies(1, 2)).0
         == l.(detectionsRan := true, emailMsg := Some(atts), emailChecked := true, extracted := false)
  {
    hide Round, Alert.LooksLikePhishing;
    var plan, replies := LedgerPlan(l), Busy(atts, x, y).Replies(1, 2);
    var m := l.(detectionsRan := true);
    RoundCons(l, plan, replies);
    assert plan[1..] == [FetchEmail] && plan[1..][1..] == [] && replies[1..][1..] == [];
    RoundCons(m, plan[1..], replies[1..]);
    RoundNil(Effect(m, FetchEmail, replies[1]));
  }

  lemma OneCall(l: Ledger, a: LedgerAction, r: Reply)
    requires r.fate.Ok?
    ensures Round(l, [a], [r]).0 == Effect(l, a, r)
  {
    hide Round, Effect;
    RoundCons(l, [a], [r]);
    RoundNil(Effect(l, a, r));
    assert [a][1..] == [] && [r][1..] == [];
  }

  /** After the evidence batch of a busy case: `x` is judged, all is detonated, `y` waits. */
  ghost predicate Surprised(l: Ledger, after: Ledger, x: IOC) {
    && after == l.(pending := after.pending, judged := after.judged, detonated := after.detonated, malscore := after.malscore)
    && after.pending != {} && x.Key() in after.judged && after.judged[x.Key()].verdict.Malicious?
    && forall a :: a in Attachments(l.emailMsg) ==> a.sha256 in after.detonated
  }

  lemma EvidenceRuns(l: Ledger, atts: seq<Attachment>, replies: seq<Reply>, x: IOC, y: IOC)
    requires atts != [] && l.emailMsg == Some(atts) && |replies| == 1 + |atts|
    requires l.pending == {x.Key()} && l.judged.Keys == {} && x.Key() != y.Key()
    requires replies[0].fate.Ok? && AllSucceed(replies[1..]) && replies[1..][0].iocs == [y]
    requires replies[0].judge(x.Key()).verdict.Malicious?
    ensures |[EnrichIocs] + Detonations<set<string>>(atts)| == |replies|
    ensures Surprised(l, Round(l, [EnrichIocs] + Detonations(atts), replies).0, x)
  {
    hide Round, Detonations, Effect, IOC.Key;
    DetonationCount(atts);
    FirstCall(l, EnrichIocs, Detonations(atts), replies);
    JudgesAll(l, replies[0]);
    Dropped(Effect(l, EnrichIocs, replies[0]), atts, replies[1..], y);
  }

  /** The evidence batch judges `x`, detonates everything and finds `y`. */
  lemma BusyEvidence(l: Ledger, atts: seq<Attachment>, x: IOC, y: IOC)
    requires atts != [] && l.emailMsg == Some(atts) && l.detonated == {} && l.extracted && l.detectionsRan && l.emailChecked
    requires l.pending == {x.Key()} && l.judged == map[] && x.Key() != y.Key()
    requires Undetonated(atts, {}) == atts
    ensures LedgerPlan(l) == [EnrichIocs] + Detonations(atts)
    ensures Surprised(l, Round(l, LedgerPlan(l), Busy(atts, x, y).Replies(3, 1 + |atts|)).0, x)
  {
    hide Round, LedgerPlan, Undetonated, Detonations, IOC.Key, Busy, World.Replies, Surprised, AllSucceed;
    EvidencePlanned(l, atts);
    BusyReplies(atts, x, y, 1 + |atts|);
    EvidenceRuns(l, atts, Busy(atts, x, y).Replies(3, 1 + |atts|), x, y);
  }

  lemma BusyReplies(atts: seq<Attachment>, x: IOC, y: IOC, n: nat)
    requires n > 0
    ensures var replies := Busy(atts, x, y).Replies(3, n);
      && |replies| == n && replies[0].fate.Ok? && AllSucceed(replies[1..])
      && (forall i :: 0 <= i < n - 1 ==> replies[1..][i].iocs == [y])
      && forall k :: replies[0].judge(k).verdict.Malicious?
  {
  }

  lemma DetonationCount(atts: seq<Attachment>)
    ensures |Detonations<set<string>>(atts)| == |atts|
  {
  }

  lemma FirstCall(l: Ledger, a: LedgerAction, rest: seq<LedgerAction>, replies: seq<Reply>)
    requires |replies| == 1 + |rest| && replies[0].fate.Ok?
    ensures Round(l, [a] + rest, replies).0 == Round(Effect(l, a, replies[0]), rest, replies[1..]).0
  {
    hide Round, Effect;
    RoundCons(l, [a] + rest, replies);
    assert ([a] + rest)[1..] == rest;
  }

  lemma JudgesAll(l: Ledger, r: Reply)
    ensures var m := Effect(l, EnrichIocs, r);
      && m == l.(pending := {}, judged := m.judged) && m.judged.Keys == l.judged.Keys + l.pending
      && forall k :: k in l.pending ==> m.judged[k] == r.judge(k)
  {
    assert l.pending - l.pending == {};
  }

  lemma EvidencePlanned(l: Ledger, atts: seq<Attachment>)
    requires atts != [] && l.emailMsg == Some(atts) && l.detonated == {} && l.extracted && l.detectionsRan && l.emailChecked
    requires l.pending != {} && Undetonated(atts, {}) == atts
    ensures LedgerPlan(l) == [EnrichIocs] + Detonations(atts)
  {
    hide Alert.LooksLikePhishing, Undetonated, LedgerHunt;
  }

  /** Detonations that drop an indicator not yet judged leave it waiting. */
  lemma Dropped(l: Ledger, atts: seq<Attachment>, replies: seq<Reply>, y: IOC)
    requires atts != [] && |replies| == |atts| && AllSucceed(replies) && y.Key() !in l.judged
    requires replies[0].iocs == [y]
    ensures var after := Round(l, Detonations(atts), replies).0;
      && after == l.(pending := after.pending, detonated := after.detonated, malscore := after.malscore)
      && y.Key() in after.pending && forall a :: a in atts ==> a.sha256 in after.detonated
  {
    var dets: seq<LedgerAction> := Detonations(atts);
    RoundCons(l, dets, replies);
    assert KeysOf([y]) == {y.Key()} by { assert [y][0].Key() == y.Key(); }
    var m := Effect(l, dets[0], replies[0]);
    hide Round;
    assert dets[1..] == Detonations(atts[1..]);
    DetonationsRun(m, atts[1..], replies[1..]);
    assert forall a :: a in atts ==> a == atts[0] || a in atts[1..];
  }

  /** The worst case is real: with `m` attachments that a case needs 6 + m calls, and one call
      fewer leaves a hunt undone. */
  lemma NeedsEveryCall(alert: Alert, atts: seq<Attachment>, x: IOC, y: IOC, budget: Budget)
    requires alert.LooksLikePhishing() && atts != [] && x.Key() != y.Key() && Undetonated(atts, {}) == atts
    requires budget.maxToolCalls == 5 + |atts| && budget.maxIterations >= 5
    ensures AlwaysSucceeds(Busy(atts, x, y)) && FewAttachments(Busy(atts, x, y), |atts|)
    ensures LedgerPlan(Iterate(Progress(LedgerOf(NewCase(alert)), 0, []), Busy(atts, x, y), budget, 1).ledger) != []
  {
    hide LedgerPlan, Round, Iterate, Alert.LooksLikePhishing, Undetonated, IOC.Key;
    var world := Busy(atts, x, y);
    var p0 := Progress(LedgerOf(NewCase(alert)), 0, []);
    BusyFirst(p0.ledger, atts, x, y);
    var p1 := BusyTurn(p0, world, budget, 1);
    BusyExtraction(p1.ledger, atts, x, y);
    var p2 := BusyTurn(p1, world, budget, 2);
    BusyEvidence(p2.ledger, atts, x, y);
    var p3 := BusyTurn(p2, world, budget, 3);
    BusyEnrichment(p3.ledger, atts, x, y);
    var p4 := BusyTurn(p3, world, budget, 4);
    IterateStops(p4, world, budget, 5);
  }

  lemma BusyExtraction(l: Ledger, atts: seq<Attachment>, x: IOC, y: IOC)
    requires l.detectionsRan && l.emailChecked && !l.extracted && l.pending == {} && l.judged == map[]
    ensures LedgerPlan(l) == [ExtractIocs]
    ensures Round(l, [ExtractIocs], Busy(atts, x, y).Replies(2, 1)).0 == l.(pending := {x.Key()}, extracted := true)
  {
    hide Round, Alert.LooksLikePhishing, Undetonated, LedgerHunt;
    var replies := Busy(atts, x, y).Replies(2, 1);
    assert replies == [replies[0]];
    OneCall(l, ExtractIocs, replies[0]);
    assert KeysOf([x]) == {x.Key()} by { assert [x][0].Key() == x.Key(); }
  }

  lemma BusyEnrichment(l: Ledger, atts: seq<Attachment>, x: IOC, y: IOC)
    requires l.detectionsRan && l.emailChecked && l.extracted && l.pending != {} && l.emailMsg == Some(atts) && l.hunted == {}
    requires x.Key() in l.judged && l.judged[x.Key()].verdict.Malicious?
    requires forall a :: a in atts ==> a.sha256 in l.detonated
    ensures LedgerPlan(l) == [EnrichIocs]
    ensures LedgerPlan(Round(l, [EnrichIocs], Busy(atts, x, y).Replies(4, 1)).0) != []
  {
    hide Round, Alert.LooksLikePhishing, Undetonated;
    UndetonatedAre(atts, {});
    NoneUndetonated(atts, {}, l.detonated);
    var replies := Busy(atts, x, y).Replies(4, 1);
    assert replies == [replies[0]];
    OneCall(l, EnrichIocs, replies[0]);
    var after := Effect(l, EnrichIocs, replies[0]);
    assert x.Key() in MaliciousKeys(after);
  }

  /** `m` attachments with different hashes. */
  function DifferentAttachments(m: nat): (atts: seq<Attachment>)
    ensures |atts| == m
  {
    seq(m, i requires 0 <= i < m => Attachment("", seq(i, _ => 'a')))
  }

  lemma {:induction false} AllUndetonated(atts: seq<Attachment>)
    ensures Undetonated(atts, {}) == atts
  {
    if atts == [] {
    } else {
      AllUndetonated(atts[..|atts| - 1]);
    }
  }

  /** 26 is the most the default budget always covers: with 27 attachments a new case whose
      calls all succeed can end with a hunt still planned. */
  lemma DefaultBudgetIsTight(alert: Alert, x: IOC, y: IOC)
    requires alert.LooksLikePhishing() && x.Key() != y.Key()
    ensures var world := Busy(DifferentAttachments(27), x, y);
      && AlwaysSucceeds(world) && FewAttachments(world, 27) && (forall i: nat :: !world.late(i))
      && LedgerPlan(Iterate(Progress(LedgerOf(NewCase(alert)), 0, []), world, DEFAULT_BUDGET, 1).ledger) != []
  {
    hide LedgerPlan, Iterate, Alert.LooksLikePhishing, IOC.Key;
    AllUndetonated(DifferentAttachments(27));
    NeedsEveryCall(alert, DifferentAttachments(27), x, y, DEFAULT_BUDGET);
  }
}
