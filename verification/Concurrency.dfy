/** Concurrent batches: `asyncio.gather` over tool calls that share the state.
    The main result: for the batches the planner makes, every interleaving ends
    in the keyed state that running the calls one after another ends in. */
module Concurrency {
  import opened Options
  import opened State
  import opened Planner
  import opened Rounding
  import opened Tools

  // ---------------------------------------------------------------- one after another

  /** Runs one call to its end with nothing in between. */
  function Complete(l: Ledger, f: LedgerFrame): (Ledger, bool)
    decreases f.Remaining()
  {
    if f.Finished? then (l, f.ok)
    else
      var (next, g) := LedgerStep(l, f);
      Complete(next, g)
  }

  /** Runs what is left of each call, in list order. */
  function Sequential(l: Ledger, frames: seq<LedgerFrame>): (Ledger, seq<bool>)
    decreases |frames|
  {
    if frames == [] then (l, [])
    else
      var (next, ok) := Complete(l, frames[0]);
      var (last, oks) := Sequential(next, frames[1..]);
      (last, [ok] + oks)
  }

  // ---------------------------------------------------------------- interleavings

  datatype Kind = Detection | Email | Extraction | Enrichment | Detonation | Hunt | Done

  function KindOf<B, K>(f: Frame<B, K>): Kind {
    match f
    case Fresh(RunDetections, _) => Detection
    case Fresh(FetchEmail, _) => Email
    case Fresh(ExtractIocs, _) => Extraction
    case Fresh(EnrichIocs, _) => Enrichment
    case Fresh(Detonate(_), _) => Detonation
    case Fresh(HuntEdr(_), _) => Hunt
    case Enriching(_, _) => Enrichment
    case Detonating(_, _) => Detonation
    case Hunting(_, _) => Hunt
    case AwaitingMessage(_) => Email
    case AwaitingRecipients(_) => Email
    case Finished(_) => Done
  }

  /** Pairs of calls, `a` listed before `b`, whose order of completion shows: the second
      snapshot of two enrichments, what a detonation drops before a later-listed
      enrichment takes its snapshot, the order of two hunts' hits, which of two fetched
      messages stays, and the mark an extraction clears and an email fetch sets. */
  predicate Clash(a: Kind, b: Kind) {
    || (b.Enrichment? && (a.Enrichment? || a.Detonation?))
    || (a.Hunt? && b.Hunt?)
    || (a.Email? && (b.Email? || b.Extraction?))
  }

  predicate Independent<B, K>(frames: seq<Frame<B, K>>) {
    forall i, j :: 0 <= i < j < |frames| ==> !Clash(KindOf(frames[i]), KindOf(frames[j]))
  }

  /** `gather` starts its coroutines in list order. */
  predicate StartedInOrder<B, K>(frames: seq<Frame<B, K>>) {
    forall i, j :: 0 <= i < j < |frames| && frames[i].Fresh? ==> frames[j].Fresh?
  }

  predicate MayRun<B, K>(frames: seq<Frame<B, K>>, i: nat) {
    && i < |frames| && !frames[i].Finished?
    && (frames[i].Fresh? ==> forall j :: 0 <= j < i ==> !frames[j].Fresh?)
  }

  /** Hunts are for indicators that have been judged. */
  predicate Targeted(l: Ledger, f: LedgerFrame) {
    && (f.Fresh? && f.action.HuntEdr? ==> f.action.keys <= l.judged.Keys)
    && (f.Hunting? ==> f.keys <= l.judged.Keys)
  }

  ghost predicate AllTargeted(l: Ledger, frames: seq<LedgerFrame>) {
    forall i :: 0 <= i < |frames| ==> Targeted(l, frames[i])
  }

  /** What a started call still does to the ledger. */
  function Outcome(l: Ledger, g: LedgerFrame): Ledger
    requires !g.Fresh?
  {
    match g
    case Enriching(keys, r) => if r.fate.Lands() then l.Judge(keys, r.judge) else l
    case Detonating(sha, r) => if r.fate.Lands() then LedgerDetonate(l, sha, r.malscore, KeysOf(r.iocs)) else l
    case Hunting(keys, r) => if r.fate.Lands() then l.(hunted := l.hunted + keys, hits := l.hits + r.hits) else l
    case AwaitingMessage(r) =>
      if r.fate.Early? then l
      else l.(emailMsg := Some(r.attachments), emailChecked := true, extracted := l.extracted && !r.fate.Ok?)
    case AwaitingRecipients(r) => l.(extracted := l.extracted && !r.fate.Ok?)
    case Finished(_) => l
  }

  function Succeeds(g: LedgerFrame): bool
    requires !g.Fresh?
  {
    if g.Finished? then g.ok else g.reply.fate.Ok?
  }

  lemma CompleteOutcome(l: Ledger, g: LedgerFrame)
    requires !g.Fresh?
    ensures Complete(l, g) == (Outcome(l, g), Succeeds(g))
    decreases g.Remaining()
  {
    if !g.AwaitingMessage? {
    } else {
      var (next, h) := LedgerStep(l, g);
      CompleteOutcome(next, h);
    }
  }

  /** Letting a call `f` take a step, and letting an earlier, already started call
      `g` run to its end, commute. */
  lemma Diamond(l: Ledger, g: LedgerFrame, f: LedgerFrame)
    requires !f.Finished? && !g.Fresh? && !Clash(KindOf(g), KindOf(f)) && Targeted(l, f)
    ensures LedgerStep(Outcome(l, g), f) == (Outcome(LedgerStep(l, f).0, g), LedgerStep(l, f).1)
    ensures l.judged.Keys <= Outcome(l, g).judged.Keys
  {
    hide KeysOf, Max, LedgerStep, Clash;
    match g
    case Finished(_) =>
    case Enriching(keys, r) => DiamondEnriching(l, keys, r, f);
    case Detonating(sha, r) => DiamondDetonating(l, sha, r.malscore, KeysOf(r.iocs), f);
    case Hunting(keys, r) => DiamondHunting(l, keys, r, f);
    case AwaitingMessage(r) => DiamondEmail(l, g, f);
    case AwaitingRecipients(r) => DiamondEmail(l, g, f);
  }

  lemma DiamondHunting(l: Ledger, keys: set<string>, r: Reply, f: LedgerFrame)
    requires !f.Finished? && !Clash(Hunt, KindOf(f))
    ensures var g: LedgerFrame := Hunting(keys, r);
      LedgerStep(Outcome(l, g), f) == (Outcome(LedgerStep(l, f).0, g), LedgerStep(l, f).1)
  {
    hide KeysOf, Max;
  }

  lemma DiamondEmail(l: Ledger, g: LedgerFrame, f: LedgerFrame)
    requires g.AwaitingMessage? || g.AwaitingRecipients?
    requires !f.Finished? && !Clash(Email, KindOf(f))
    ensures LedgerStep(Outcome(l, g), f) == (Outcome(LedgerStep(l, f).0, g), LedgerStep(l, f).1)
  {
    hide KeysOf, Max;
  }

  lemma DiamondEnriching(l: Ledger, keys: set<string>, r: Reply, f: LedgerFrame)
    requires !f.Finished? && !Clash(Enrichment, KindOf(f)) && Targeted(l, f)
    ensures LedgerStep(l.Judge(keys, r.judge), f)
         == (LedgerStep(l, f).0.Judge(keys, r.judge), LedgerStep(l, f).1)
  {
    match f
    case Fresh(ExtractIocs, q) => AddThenJudge(l, KeysOf(q.iocs), keys, r.judge);
    case Detonating(sha, q) =>
      AddThenJudge(l.(detonated := l.detonated + {sha}, malscore := Max(l.malscore, q.malscore)),
                   KeysOf(q.iocs), keys, r.judge);
    case _ =>
  }

  lemma AddThenJudge(l: Ledger, added: set<string>, keys: set<string>, judge: string -> Judgement)
    ensures l.Judge(keys, judge).AddKeys(added) == l.AddKeys(added).Judge(keys, judge)
  {
    var j := l.Judge(keys, judge);
    assert j.judged.Keys == l.judged.Keys + keys;
    assert j.AddKeys(added).pending == l.AddKeys(added).Judge(keys, judge).pending;
  }

  lemma DetonateThenJudge(l: Ledger, sha: string, malscore: real, dropped: set<string>,
                          keys: set<string>, judge: string -> Judgement)
    ensures LedgerDetonate(l.Judge(keys, judge), sha, malscore, dropped)
         == LedgerDetonate(l, sha, malscore, dropped).Judge(keys, judge)
  {
    AddThenJudge(l.(detonated := l.detonated + {sha}, malscore := Max(l.malscore, malscore)), dropped, keys, judge);
  }

  lemma DetonateTwice(l: Ledger, sha: string, m: real, a: set<string>, sha': string, m': real, b: set<string>)
    ensures LedgerDetonate(LedgerDetonate(l, sha, m, a), sha', m', b)
         == LedgerDetonate(LedgerDetonate(l, sha', m', b), sha, m, a)
  {
    AddKeysCommute(l, a, b);
    assert l.detonated + {sha} + {sha'} == l.detonated + {sha'} + {sha};
  }

  lemma DiamondDetonating(l: Ledger, sha: string, m: real, dropped: set<string>, f: LedgerFrame)
    requires !f.Finished? && !Clash(Detonation, KindOf(f))
    ensures LedgerStep(LedgerDetonate(l, sha, m, dropped), f)
         == (LedgerDetonate(LedgerStep(l, f).0, sha, m, dropped), LedgerStep(l, f).1)
  {
    match f
    case Enriching(keys, q) => DetonateThenJudge(l, sha, m, dropped, keys, q.judge);
    case Fresh(ExtractIocs, q) => AddKeysCommute(l, dropped, KeysOf(q.iocs));
    case Detonating(other, q) => DetonateTwice(l, sha, m, dropped, other, q.malscore, KeysOf(q.iocs));
    case _ =>
  }

  lemma DetonateAgain(l: Ledger, sha: string, m: real, dropped: set<string>)
    ensures LedgerDetonate(LedgerDetonate(l, sha, m, dropped), sha, m, dropped) == LedgerDetonate(l, sha, m, dropped)
  {
    AddKeysTwice(l.(detonated := l.detonated + {sha}, malscore := Max(l.malscore, m)), dropped, dropped);
    assert dropped + dropped == dropped && l.detonated + {sha} + {sha} == l.detonated + {sha};
  }

  lemma AddKeysCommute(l: Ledger, a: set<string>, b: set<string>)
    ensures l.AddKeys(a).AddKeys(b) == l.AddKeys(b).AddKeys(a)
  {
    AddKeysTwice(l, a, b);
    AddKeysTwice(l, b, a);
    assert a + b == b + a;
  }

  /** What finishing everything in list order yields does not change when any
      call that may run takes a step. */
  lemma {:induction false} StepInvariant(l: Ledger, frames: seq<LedgerFrame>, i: nat)
    requires MayRun(frames, i) && StartedInOrder(frames) && Independent(frames) && AllTargeted(l, frames)
    ensures var (next, f) := LedgerStep(l, frames[i]);
      Sequential(next, frames[i := f]) == Sequential(l, frames)
    decreases i
  {
    var (next, f) := LedgerStep(l, frames[i]);
    var after := frames[i := f];
    if i == 0 {
      assert after[1..] == frames[1..];
    } else {
      var g := frames[0];
      if g.Fresh? { assert false; }
      Diamond(l, g, frames[i]);
      CompleteOutcome(l, g);
      CompleteOutcome(next, g);
      var rest, m := frames[1..], Outcome(l, g);
      assert rest[i - 1] == frames[i];
      assert MayRun(rest, i - 1);
      TargetedGrows(l, m, frames);
      StepInvariant(m, rest, i - 1);
      assert after[1..] == rest[i - 1 := f];
    }
  }

  lemma TargetedGrows(l: Ledger, m: Ledger, frames: seq<LedgerFrame>)
    requires AllTargeted(l, frames) && l.judged.Keys <= m.judged.Keys
    ensures AllTargeted(m, frames)
    ensures frames != [] ==> AllTargeted(m, frames[1..])
  {
    forall i | 0 <= i < |frames| ensures Targeted(m, frames[i]) {
      assert Targeted(l, frames[i]);
    }
  }

  /** Under every call's starting facts the calls may be interleaved by a
      schedule: a list of the calls to resume, one step each. */
  function RunSchedule(l: Ledger, frames: seq<LedgerFrame>, schedule: seq<nat>): (Ledger, seq<LedgerFrame>)
    requires ValidSchedule(l, frames, schedule)
    decreases |schedule|
  {
    if schedule == [] then (l, frames)
    else
      var (next, f) := LedgerStep(l, frames[schedule[0]]);
      RunSchedule(next, frames[schedule[0] := f], schedule[1..])
  }

  predicate ValidSchedule(l: Ledger, frames: seq<LedgerFrame>, schedule: seq<nat>)
    decreases |schedule|
  {
    schedule == [] ||
    (MayRun(frames, schedule[0]) &&
     var (next, f) := LedgerStep(l, frames[schedule[0]]);
     ValidSchedule(next, frames[schedule[0] := f], schedule[1..]))
  }

  predicate AllDone<B, K>(frames: seq<Frame<B, K>>) {
    forall i :: 0 <= i < |frames| ==> frames[i].Finished?
  }

  function Outcomes<B, K>(frames: seq<Frame<B, K>>): seq<bool>
    requires AllDone(frames)
  {
    seq(|frames|, i requires 0 <= i < |frames| => frames[i].ok)
  }

  lemma StepKeepsShape(l: Ledger, frames: seq<LedgerFrame>, i: nat)
    requires MayRun(frames, i) && StartedInOrder(frames) && Independent(frames) && AllTargeted(l, frames)
    ensures var (next, f) := LedgerStep(l, frames[i]);
      StartedInOrder(frames[i := f]) && Independent(frames[i := f]) && AllTargeted(next, frames[i := f])
  {
    var (next, f) := LedgerStep(l, frames[i]);
    assert KindOf(f) == KindOf(frames[i]) || KindOf(f) == Done;
    assert l.judged.Keys <= next.judged.Keys;
    TargetedGrows(l, next, frames);
    assert Targeted(l, frames[i]);
  }

  lemma {:induction false} SequentialDone(l: Ledger, frames: seq<LedgerFrame>)
    requires AllDone(frames)
    ensures Sequential(l, frames) == (l, Outcomes(frames))
  {
    if frames == [] {
    } else {
      SequentialDone(l, frames[1..]);
      assert Outcomes(frames) == [frames[0].ok] + Outcomes(frames[1..]);
    }
  }

  /** Every interleaving of an independent batch, run to the end, reaches the
      keyed state and the outcomes of running the batch one call after another. */
  lemma {:induction false} Confluence(l: Ledger, frames: seq<LedgerFrame>, schedule: seq<nat>)
    requires StartedInOrder(frames) && Independent(frames) && AllTargeted(l, frames)
    requires ValidSchedule(l, frames, schedule) && AllDone(RunSchedule(l, frames, schedule).1)
    ensures var (last, done) := RunSchedule(l, frames, schedule);
      Sequential(l, frames) == (last, Outcomes(done))
    decreases |schedule|
  {
    if schedule == [] {
      SequentialDone(l, frames);
    } else {
      var (next, f) := LedgerStep(l, frames[schedule[0]]);
      StepInvariant(l, frames, schedule[0]);
      StepKeepsShape(l, frames, schedule[0]);
      Confluence(next, frames[schedule[0] := f], schedule[1..]);
    }
  }

  function Launch<B, K>(actions: seq<Action<K>>, replies: seq<Reply>): (frames: seq<Frame<B, K>>)
    requires |actions| == |replies|
    ensures |frames| == |actions|
    ensures forall i :: 0 <= i < |frames| ==> frames[i] == Fresh(actions[i], replies[i])
  {
    seq(|actions|, i requires 0 <= i < |actions| => Fresh(actions[i], replies[i]))
  }

  /** The planner's batches are independent: enrichment is planned ahead of the
      detonations, and nothing that clashes is planned together. */
  lemma PlannerIndependent(l: Ledger, replies: seq<Reply>)
    requires |replies| == |LedgerPlan(l)|
    ensures Independent<set<string>, set<string>>(Launch(LedgerPlan(l), replies))
    ensures AllTargeted(l, Launch(LedgerPlan(l), replies))
  {
    var plan := LedgerPlan(l);
    forall i | 0 < i < |plan| ensures !plan[i].EnrichIocs? && !plan[i].HuntEdr? && !plan[i].ExtractIocs?
                                   && (plan[i].FetchEmail? ==> plan[0].RunDetections? && |plan| == 2)
    {}
  }

  lemma ScheduleNil(l: Ledger, frames: seq<LedgerFrame>)
    ensures ValidSchedule(l, frames, []) && RunSchedule(l, frames, []) == (l, frames)
  {
  }

  lemma ScheduleCons(l: Ledger, frames: seq<LedgerFrame>, i: nat, rest: seq<nat>)
    requires MayRun(frames, i)
    requires var (next, f) := LedgerStep(l, frames[i]); ValidSchedule(next, frames[i := f], rest)
    ensures ValidSchedule(l, frames, [i] + rest)
    ensures var (next, f) := LedgerStep(l, frames[i]);
      RunSchedule(l, frames, [i] + rest) == RunSchedule(next, frames[i := f], rest)
  {
    assert ([i] + rest)[1..] == rest;
  }

  lemma SequentialPair(l: Ledger, f: LedgerFrame, g: LedgerFrame)
    ensures Sequential(l, [f, g]).0 == Complete(Complete(l, f).0, g).0
  {
    var m := Complete(l, f).0;
    assert [f, g][1..] == [g] && [g][1..] == [];
    assert Sequential(m, [g]).0 == Sequential(Complete(m, g).0, []).0;
  }

  /** Two calls of two steps each, taking turns. */
  lemma TakingTurns(l: Ledger, f: LedgerFrame, g: LedgerFrame)
    requires f.Fresh? && g.Fresh? && !LedgerStep(l, f).1.Finished?
    requires var (l1, f1) := LedgerStep(l, f); var (l2, g1) := LedgerStep(l1, g);
      !g1.Finished? && LedgerStep(l2, f1).1.Finished?
    requires var (l1, f1) := LedgerStep(l, f); var (l2, g1) := LedgerStep(l1, g);
      LedgerStep(LedgerStep(l2, f1).0, g1).1.Finished?
    ensures ValidSchedule(l, [f, g], [0, 1, 0, 1])
    ensures var (l1, f1) := LedgerStep(l, f); var (l2, g1) := LedgerStep(l1, g);
      var (l3, f2) := LedgerStep(l2, f1); var (l4, g2) := LedgerStep(l3, g1);
      RunSchedule(l, [f, g], [0, 1, 0, 1]) == (l4, [f2, g2])
  {
    hide LedgerStep;
    var (l1, f1) := LedgerStep(l, f);
    var (l2, g1) := LedgerStep(l1, g);
    var (l3, f2) := LedgerStep(l2, f1);
    var (l4, g2) := LedgerStep(l3, g1);
    assert [f, g][0 := f1] == [f1, g] && [f1, g][1 := g1] == [f1, g1];
    assert [f1, g1][0 := f2] == [f2, g1] && [f2, g1][1 := g2] == [f2, g2];
    assert [1] + [] == [1] && [0] + [1] == [0, 1] && [1] + [0, 1] == [1, 0, 1] && [0] + [1, 0, 1] == [0, 1, 0, 1];
    ScheduleCons(l3, [f2, g1], 1, []);
    ScheduleCons(l2, [f1, g1], 0, [1]);
    ScheduleCons(l1, [f1, g], 1, [0, 1]);
    ScheduleCons(l, [f, g], 0, [1, 0, 1]);
  }

  /** The order of the plan matters: with a detonation ahead of the enrichment in
      the list, running the two one after another enriches what was dropped,
      while an interleaving leaves it waiting. */
  lemma EnrichmentMustBeListedFirst(l: Ledger, dropped: IOC, a: Attachment, r: Reply)
    requires l.pending != {} && dropped.Key() !in l.pending + l.judged.Keys && r.fate.Ok? && r.iocs == [dropped]
    ensures var frames := [Fresh(Detonate(a), r), Fresh(EnrichIocs, r)];
      && ValidSchedule(l, frames, [0, 1, 0, 1])
      && AllDone(RunSchedule(l, frames, [0, 1, 0, 1]).1)
      && dropped.Key() in RunSchedule(l, frames, [0, 1, 0, 1]).0.pending
      && dropped.Key() !in Sequential(l, frames).0.pending
  {
    var f: LedgerFrame := Fresh(Detonate(a), r);
    var g: LedgerFrame := Fresh(EnrichIocs, r);
    assert KeysOf(r.iocs) == {dropped.Key()} by { assert r.iocs[0].Key() == dropped.Key(); }
    TakingTurns(l, f, g);
    SequentialPair(l, f, g);
    CompleteOutcome(l, Detonating(a.sha256, r));
    var m := Outcome(l, Detonating(a.sha256, r));
    CompleteOutcome(m, Enriching(m.pending, r));
    hide RunSchedule, ValidSchedule, Sequential;
  }

  /** An email fetch beside an extraction: one after another the indicators count as
      extracted, but when the fetch ends last it marks them stale again. */
  lemma EmailBesideExtraction(l: Ledger, r: Reply)
    requires r.fate.Ok?
    ensures var frames: seq<LedgerFrame> := [Fresh(FetchEmail, r), Fresh(ExtractIocs, r)];
      && ValidSchedule(l, frames, [0, 1, 0, 0])
      && AllDone(RunSchedule(l, frames, [0, 1, 0, 0]).1)
      && !RunSchedule(l, frames, [0, 1, 0, 0]).0.extracted
      && Sequential(l, frames).0.extracted
  {
    hide RunSchedule, ValidSchedule, Sequential;
    var f, g: LedgerFrame := Fresh(FetchEmail, r), Fresh(ExtractIocs, r);
    var f1: LedgerFrame := AwaitingMessage(r);
    var done: LedgerFrame := Finished(true);
    SequentialPair(l, f, g);
    var l1 := LedgerStep(l, g).0;
    EmailLast(l1, r);
    assert [f, g][0 := f1] == [f1, g] && [f1, g][1 := done] == [f1, done];
    assert [1] + [0, 0] == [1, 0, 0] && [0] + [1, 0, 0] == [0, 1, 0, 0];
    ScheduleCons(l, [f1, g], 1, [0, 0]);
    ScheduleCons(l, [f, g], 0, [1, 0, 0]);
  }

  /** Two enrichments started together both ask about what waits: the later answer stays,
      where one after another the second finds nothing left to ask. */
  lemma EnrichmentTwice(l: Ledger, r: Reply, q: Reply, k: string)
    requires k in l.pending && r.fate.Ok? && q.fate.Ok? && r.judge(k) != q.judge(k)
    ensures var frames: seq<LedgerFrame> := [Fresh(EnrichIocs, r), Fresh(EnrichIocs, q)];
      && ValidSchedule(l, frames, [0, 1, 0, 1])
      && AllDone(RunSchedule(l, frames, [0, 1, 0, 1]).1)
      && k in RunSchedule(l, frames, [0, 1, 0, 1]).0.judged && k in Sequential(l, frames).0.judged
      && RunSchedule(l, frames, [0, 1, 0, 1]).0.judged[k] == q.judge(k)
      && Sequential(l, frames).0.judged[k] == r.judge(k)
  {
    var f: LedgerFrame := Fresh(EnrichIocs, r);
    var g: LedgerFrame := Fresh(EnrichIocs, q);
    TakingTurns(l, f, g);
    SequentialPair(l, f, g);
    CompleteOutcome(l, Enriching(l.pending, r));
    var m := l.Judge(l.pending, r.judge);
    assert m.pending == {};
    hide RunSchedule, ValidSchedule, Sequential;
  }

  /** A call of two steps that is started first and ends last. */
  lemma Overtaken(l: Ledger, f: LedgerFrame, g: LedgerFrame)
    requires f.Fresh? && g.Fresh?
    requires var (l1, f1) := LedgerStep(l, f); var (l2, g1) := LedgerStep(l1, g);
      !f1.Finished? && !g1.Finished? && LedgerStep(l2, g1).1.Finished? && LedgerStep(LedgerStep(l2, g1).0, f1).1.Finished?
    ensures ValidSchedule(l, [f, g], [0, 1, 1, 0])
    ensures var (l1, f1) := LedgerStep(l, f); var (l2, g1) := LedgerStep(l1, g);
      var (l3, g2) := LedgerStep(l2, g1); var (l4, f2) := LedgerStep(l3, f1);
      RunSchedule(l, [f, g], [0, 1, 1, 0]) == (l4, [f2, g2])
  {
    hide LedgerStep;
    var (l1, f1) := LedgerStep(l, f);
    var (l2, g1) := LedgerStep(l1, g);
    var (l3, g2) := LedgerStep(l2, g1);
    var (l4, f2) := LedgerStep(l3, f1);
    assert [f, g][0 := f1] == [f1, g] && [f1, g][1 := g1] == [f1, g1];
    assert [f1, g1][1 := g2] == [f1, g2] && [f1, g2][0 := f2] == [f2, g2];
    assert [0] + [] == [0] && [1] + [0] == [1, 0] && [1] + [1, 0] == [1, 1, 0] && [0] + [1, 1, 0] == [0, 1, 1, 0];
    ScheduleCons(l3, [f1, g2], 0, []);
    ScheduleCons(l2, [f1, g1], 1, [0]);
    ScheduleCons(l1, [f1, g], 1, [1, 0]);
    ScheduleCons(l, [f, g], 0, [1, 1, 0]);
  }

  /** The hits of two hunts are listed in the order the hunts end. */
  lemma HuntTwice(l: Ledger, a: set<string>, r: Reply, b: set<string>, q: Reply)
    requires a * l.judged.Keys != {} && b * l.judged.Keys != {} && r.fate.Ok? && q.fate.Ok?
    ensures var frames: seq<LedgerFrame> := [Fresh(HuntEdr(a), r), Fresh(HuntEdr(b), q)];
      && ValidSchedule(l, frames, [0, 1, 1, 0])
      && AllDone(RunSchedule(l, frames, [0, 1, 1, 0]).1)
      && RunSchedule(l, frames, [0, 1, 1, 0]).0.hits == l.hits + q.hits + r.hits
      && Sequential(l, frames).0.hits == l.hits + r.hits + q.hits
  {
    var f: LedgerFrame := Fresh(HuntEdr(a), r);
    var g: LedgerFrame := Fresh(HuntEdr(b), q);
    Overtaken(l, f, g);
    SequentialPair(l, f, g);
    CompleteOutcome(l, Hunting(a, r));
    var m := Outcome(l, Hunting(a, r));
    CompleteOutcome(m, Hunting(b, q));
    hide RunSchedule, ValidSchedule, Sequential;
  }

  lemma EmailInTurn(l: Ledger, r: Reply, q: Reply)
    requires r.fate.Ok? && q.fate.Ok?
    ensures Sequential(l, [Fresh(FetchEmail, r), Fresh(FetchEmail, q)]).0.emailMsg == Some(q.attachments)
  {
    var f, g: LedgerFrame := Fresh(FetchEmail, r), Fresh(FetchEmail, q);
    var f1, g1: LedgerFrame := AwaitingMessage(r), AwaitingMessage(q);
    SequentialPair(l, f, g);
    CompleteOutcome(l, f1);
    CompleteOutcome(Outcome(l, f1), g1);
    hide Sequential;
  }

  /** Of two fetched messages the one that arrives last stays. */
  lemma EmailTwice(l: Ledger, r: Reply, q: Reply)
    requires r.fate.Ok? && q.fate.Ok?
    ensures var frames: seq<LedgerFrame> := [Fresh(FetchEmail, r), Fresh(FetchEmail, q)];
      && ValidSchedule(l, frames, [0, 1, 1, 1, 0, 0])
      && AllDone(RunSchedule(l, frames, [0, 1, 1, 1, 0, 0]).1)
      && RunSchedule(l, frames, [0, 1, 1, 1, 0, 0]).0.emailMsg == Some(r.attachments)
      && Sequential(l, frames).0.emailMsg == Some(q.attachments)
  {
    hide RunSchedule, ValidSchedule, Sequential, Complete;
    EmailInTurn(l, r, q);
    var f, g: LedgerFrame := Fresh(FetchEmail, r), Fresh(FetchEmail, q);
    var f1, g1: LedgerFrame := AwaitingMessage(r), AwaitingMessage(q);
    var g2: LedgerFrame := AwaitingRecipients(q);
    var done: LedgerFrame := Finished(true);
    var l1 := LedgerStep(l, g1).0;
    var l2 := LedgerStep(l1, g2).0;
    EmailLast(l2, r);
    assert [f, g][0 := f1] == [f1, g] && [f1, g][1 := g1] == [f1, g1] && [f1, g1][1 := g2] == [f1, g2];
    assert [f1, g2][1 := done] == [f1, done];
    assert [1] + [0, 0] == [1, 0, 0] && [1] + [1, 0, 0] == [1, 1, 0, 0];
    assert [1] + [1, 1, 0, 0] == [1, 1, 1, 0, 0] && [0] + [1, 1, 1, 0, 0] == [0, 1, 1, 1, 0, 0];
    ScheduleCons(l1, [f1, g2], 1, [0, 0]);
    ScheduleCons(l, [f1, g1], 1, [1, 0, 0]);
    ScheduleCons(l, [f1, g], 1, [1, 1, 0, 0]);
    ScheduleCons(l, [f, g], 0, [1, 1, 1, 0, 0]);
  }

  /** A fetch that has yet to receive its message runs to its end, the other call being done. */
  lemma EmailLast(l: Ledger, r: Reply)
    requires r.fate.Ok?
    ensures var frames: seq<LedgerFrame> := [AwaitingMessage(r), Finished(true)];
      && ValidSchedule(l, frames, [0, 0]) && AllDone(RunSchedule(l, frames, [0, 0]).1)
      && RunSchedule(l, frames, [0, 0]).0 == l.(emailMsg := Some(r.attachments), emailChecked := true, extracted := false)
  {
    hide RunSchedule, ValidSchedule;
    var f1, f2: LedgerFrame := AwaitingMessage(r), AwaitingRecipients(r);
    var done: LedgerFrame := Finished(true);
    var m := LedgerStep(l, f1).0;
    assert [f1, done][0 := f2] == [f2, done] && [f2, done][0 := done] == [done, done];
    assert [0] + [] == [0] && [0] + [0] == [0, 0];
    ScheduleNil(LedgerStep(m, f2).0, [done, done]);
    ScheduleCons(m, [f2, done], 0, []);
    ScheduleCons(l, [f1, done], 0, [0]);
  }

  /** A pair of calls, listed `f` before `g`, with an interleaving that does not end as
      the two end one after another. */
  ghost predicate Diverges(l: Ledger, f: LedgerFrame, g: LedgerFrame, schedule: seq<nat>) {
    && f.Fresh? && g.Fresh? && l.Consistent() && AllTargeted(l, [f, g])
    && ValidSchedule(l, [f, g], schedule) && AllDone(RunSchedule(l, [f, g], schedule).1)
    && Sequential(l, [f, g])
      != (RunSchedule(l, [f, g], schedule).0, Outcomes(RunSchedule(l, [f, g], schedule).1))
  }

  lemma NoClashNoDivergence(l: Ledger, f: LedgerFrame, g: LedgerFrame, schedule: seq<nat>)
    requires !Clash(KindOf(f), KindOf(g))
    ensures !Diverges(l, f, g, schedule)
  {
    if Diverges(l, f, g, schedule) {
      Confluence(l, [f, g], schedule);
    }
  }

  /** The clashes are exactly the pairs of tools whose interleaving can show. */
  lemma ClashIsExact(a: Kind, b: Kind)
    requires !a.Done? && !b.Done?
    ensures Clash(a, b) <==>
      exists l, f: LedgerFrame, g: LedgerFrame, schedule ::
        KindOf(f) == a && KindOf(g) == b && Diverges(l, f, g, schedule)
  {
    forall l, f: LedgerFrame, g: LedgerFrame, schedule
      | !Clash(a, b) && KindOf(f) == a && KindOf(g) == b
      ensures !Diverges(l, f, g, schedule)
    {
      NoClashNoDivergence(l, f, g, schedule);
    }
    if Clash(a, b) {
      var l, f, g, schedule := DivergingPair(a, b);
    }
  }

  lemma DivergingPair(a: Kind, b: Kind) returns (l: Ledger, f: LedgerFrame, g: LedgerFrame, schedule: seq<nat>)
    requires Clash(a, b)
    ensures KindOf(f) == a && KindOf(g) == b && Diverges(l, f, g, schedule)
  {
    var malicious, benign := Judgement(Malicious, 1.0, []), Judgement(Benign, 1.0, []);
    var x, y := IOC("domain", "x"), IOC("domain", "y");
    var att := Attachment("a", "a");
    var r := Reply(Ok, [], [y], (k: string) => malicious, 0.0, [x]);
    var q := Reply(Ok, [att], [], (k: string) => benign, 0.0, [y]);
    var waiting := Ledger(Alert("", "", false), true, None, true, true, {"k"}, map[], {}, {}, 0.0, []);
    var judged := Ledger(Alert("", "", false), true, None, true, true, {}, map["k" := benign], {}, {}, 0.0, []);
    hide ValidSchedule, RunSchedule, Sequential, LedgerStep, Complete;
    match b {
      case Enrichment =>
        l, schedule := waiting, [0, 1, 0, 1];
        g := Fresh(EnrichIocs, q);
        if a.Enrichment? {
          f := Fresh(EnrichIocs, r);
          EnrichmentTwice(l, r, q, "k");
        } else {
          f, g := Fresh(Detonate(att), r), Fresh(EnrichIocs, r);
          assert y.Key()[0] != 'k';
          EnrichmentMustBeListedFirst(l, y, att, r);
        }
      case Hunt =>
        l, schedule := judged, [0, 1, 1, 0];
        f, g := Fresh(HuntEdr({"k"}), r), Fresh(HuntEdr({"k"}), q);
        assert "k" in {"k"} * l.judged.Keys;
        HuntTwice(l, {"k"}, r, {"k"}, q);
        assert ([] + [y] + [x])[0] == y && ([] + [x] + [y])[0] == x;
      case Email =>
        l, schedule := judged, [0, 1, 1, 1, 0, 0];
        f, g := Fresh(FetchEmail, r), Fresh(FetchEmail, q);
        EmailTwice(l, r, q);
      case Extraction =>
        l, schedule := judged, [0, 1, 0, 0];
        f, g := Fresh(FetchEmail, r), Fresh(ExtractIocs, r);
        EmailBesideExtraction(l, r);
    }
  }
}
