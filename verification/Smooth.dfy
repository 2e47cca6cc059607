/** Turns of the scheduler in which every call succeeds: they do what one iteration of the
    batch loop does, whatever the order of the calls. */
module Smooth {
  import opened Options
  import opened Sorting
  import opened State
  import opened Planner
  import opened Tools
  import opened Concurrency
  import opened Effects
  import opened Convergence
  import opened TaskGraphs
  import opened Turns
  import opened Stages

  // ---------------------------------------------------------------- calls in any order

  function Do(l: Ledger, f: LedgerFrame): Ledger { Complete(l, f).0 }

  function Fold(l: Ledger, frames: seq<LedgerFrame>): Ledger { Sequential(l, frames).0 }

  ghost predicate Commute(f: LedgerFrame, g: LedgerFrame) {
    forall l :: Do(Do(l, f), g) == Do(Do(l, g), f)
  }

  ghost predicate Idempotent(f: LedgerFrame) {
    forall l :: Do(Do(l, f), f) == Do(l, f)
  }

  /** Calls of a list that may be swapped, repeated and merged. */
  ghost predicate Calm(frames: seq<LedgerFrame>) {
    && (forall f, g :: f in frames && g in frames ==> Commute(f, g))
    && (forall f :: f in frames ==> Idempotent(f))
  }

  lemma FoldCons(l: Ledger, f: LedgerFrame, frames: seq<LedgerFrame>)
    ensures Fold(l, [f] + frames) == Fold(Do(l, f), frames)
  {
    SequentialCons(l, [f] + frames);
    assert ([f] + frames)[1..] == frames;
    hide Complete;
  }

  lemma FoldNil(l: Ledger)
    ensures Fold(l, []) == l
  {
  }

  lemma FoldOne(l: Ledger, f: LedgerFrame)
    ensures Fold(l, [f]) == Do(l, f)
  {
    FoldCons(l, f, []);
    FoldNil(Do(l, f));
    assert [f] + [] == [f];
    hide Complete, Sequential;
  }

  lemma {:induction false} FirstLast(l: Ledger, f: LedgerFrame, frames: seq<LedgerFrame>)
    requires forall g :: g in frames ==> Commute(f, g)
    ensures Fold(Do(l, f), frames) == Do(Fold(l, frames), f)
    decreases |frames|
  {
    hide Fold, Do;
    if frames == [] {
      FoldNil(l);
      FoldNil(Do(l, f));
    } else {
      var g, rest := frames[0], frames[1..];
      assert frames == [g] + rest;
      FoldCons(l, g, rest);
      FoldCons(Do(l, f), g, rest);
      assert Commute(f, g);
      FirstLast(Do(l, g), f, rest);
    }
  }

  lemma {:induction false} Absorbed(l: Ledger, f: LedgerFrame, frames: seq<LedgerFrame>)
    requires Calm(frames) && f in frames
    ensures Do(Fold(l, frames), f) == Fold(l, frames)
    decreases |frames|
  {
    hide Fold, Do, Commute, Idempotent;
    var g, rest := frames[0], frames[1..];
    assert frames == [g] + rest;
    FoldCons(l, g, rest);
    if f == g {
      FirstLast(l, g, rest);
      Twice(g, Fold(l, rest));
    } else {
      Absorbed(Do(l, g), f, rest);
    }
  }

  lemma Twice(f: LedgerFrame, l: Ledger)
    requires Idempotent(f)
    ensures Do(Do(l, f), f) == Do(l, f)
  {
  }

  lemma {:induction false} AllAbsorbed(l: Ledger, a: seq<LedgerFrame>, b: seq<LedgerFrame>)
    requires Calm(a) && forall f :: f in b ==> f in a
    ensures Fold(Fold(l, a), b) == Fold(l, a)
    decreases |b|
  {
    hide Fold, Do, Calm;
    if b == [] {
      FoldNil(Fold(l, a));
    } else {
      assert b == [b[0]] + b[1..];
      FoldCons(Fold(l, a), b[0], b[1..]);
      Absorbed(l, b[0], a);
      AllAbsorbed(l, a, b[1..]);
    }
  }

  lemma {:induction false} Swapped(l: Ledger, a: seq<LedgerFrame>, b: seq<LedgerFrame>)
    requires forall f, g :: f in a && g in b ==> Commute(f, g)
    ensures Fold(Fold(l, a), b) == Fold(Fold(l, b), a)
    decreases |a|
  {
    hide Fold, Do, Commute;
    if a == [] {
      FoldNil(l);
      FoldNil(Fold(l, b));
    } else {
      var f, rest := a[0], a[1..];
      assert a == [f] + rest;
      FoldCons(l, f, rest);
      Swapped(Do(l, f), rest, b);
      FirstLast(l, f, b);
      FoldCons(Fold(l, b), f, rest);
    }
  }

  /** Two lists of such calls that hold the same calls do the same. */
  lemma SameCalls(l: Ledger, a: seq<LedgerFrame>, b: seq<LedgerFrame>)
    requires Calm(a) && forall f :: f in a <==> f in b
    ensures Fold(l, a) == Fold(l, b)
  {
    assert Calm(b);
    AllAbsorbed(l, a, b);
    AllAbsorbed(l, b, a);
    Swapped(l, a, b);
    hide Fold;
  }

  lemma DetonationsCommute(a: Attachment, r: Reply, b: Attachment, q: Reply)
    requires r.fate.Ok? && q.fate.Ok?
    ensures Commute(Fresh(Detonate(a), r), Fresh(Detonate(b), q)) && Idempotent(Fresh(Detonate(a), r))
  {
    hide KeysOf;
    forall l ensures Do(l, Fresh(Detonate(a), r)) == LedgerDetonate(l, a.sha256, r.malscore, KeysOf(r.iocs)) {
      CompleteStarted(l, Detonate(a), r);
    }
    forall l ensures Do(l, Fresh(Detonate(b), q)) == LedgerDetonate(l, b.sha256, q.malscore, KeysOf(q.iocs)) {
      CompleteStarted(l, Detonate(b), q);
    }
    hide Do;
    forall l ensures Do(Do(l, Fresh(Detonate(a), r)), Fresh(Detonate(b), q)) == Do(Do(l, Fresh(Detonate(b), q)), Fresh(Detonate(a), r)) {
      DetonateTwice(l, a.sha256, r.malscore, KeysOf(r.iocs), b.sha256, q.malscore, KeysOf(q.iocs));
    }
    forall l ensures Do(Do(l, Fresh(Detonate(a), r)), Fresh(Detonate(a), r)) == Do(l, Fresh(Detonate(a), r)) {
      DetonateAgain(l, a.sha256, r.malscore, KeysOf(r.iocs));
    }
  }

  lemma DetectionDoes(l: Ledger, r: Reply)
    requires r.fate.Ok?
    ensures Do(l, Fresh(RunDetections, r)) == l.(detectionsRan := true)
  {
    CompleteStarted(l, RunDetections, r);
  }

  lemma FetchDoes(l: Ledger, r: Reply)
    requires r.fate.Ok?
    ensures Do(l, Fresh(FetchEmail, r)) == l.(emailMsg := Some(r.attachments), emailChecked := true, extracted := false)
  {
    CompleteStarted(l, FetchEmail, r);
  }

  lemma FirstPairs(r: Reply, q: Reply)
    requires r.fate.Ok? && q.fate.Ok?
    ensures var f: LedgerFrame := Fresh(RunDetections, r); var g: LedgerFrame := Fresh(FetchEmail, q);
      Commute(f, g) && Commute(g, f) && Idempotent(f) && Idempotent(g)
  {
    hide Do;
    forall l
      ensures Do(l, Fresh(RunDetections, r)) == l.(detectionsRan := true)
      ensures Do(l, Fresh(FetchEmail, q)) == l.(emailMsg := Some(q.attachments), emailChecked := true, extracted := false)
    {
      DetectionDoes(l, r);
      FetchDoes(l, q);
    }
  }

  lemma FirstCommute(r: Reply, q: Reply)
    requires r.fate.Ok? && q.fate.Ok?
    ensures Calm([Fresh(RunDetections, r), Fresh(FetchEmail, q)])
  {
    FirstPairs(r, q);
    hide Do, Idempotent;
    var frames: seq<LedgerFrame> := [Fresh(RunDetections, r), Fresh(FetchEmail, q)];
    forall f, g | f in frames && g in frames ensures Commute(f, g) {
      assert f == frames[0] || f == frames[1];
      assert g == frames[0] || g == frames[1];
    }
  }

  // ---------------------------------------------------------------- a plan, answered

  /** A world that answers equal calls of an iteration alike. */
  type Answer = LedgerAction -> Reply

  function Answers(ans: Answer, plan: seq<LedgerAction>): (replies: seq<Reply>)
    ensures |replies| == |plan|
  {
    seq(|plan|, i requires 0 <= i < |plan| => ans(plan[i]))
  }

  function Answered(ans: Answer, plan: seq<LedgerAction>): (frames: seq<LedgerFrame>)
    ensures |frames| == |plan|
  {
    Launch(plan, Answers(ans, plan))
  }

  lemma AnsweredAre(ans: Answer, plan: seq<LedgerAction>)
    ensures forall i :: 0 <= i < |plan| ==> Answered(ans, plan)[i] == Fresh(plan[i], ans(plan[i]))
    ensures forall f :: f in Answered(ans, plan) <==> f.Fresh? && f.action in plan && f.reply == ans(f.action)
  {
    var frames := Answered(ans, plan);
    forall f: LedgerFrame | f.Fresh? && f.action in plan && f.reply == ans(f.action) ensures f in frames {
      var i :| 0 <= i < |plan| && plan[i] == f.action;
      assert frames[i] == f;
    }
  }

  ghost predicate AllAnswer(ans: Answer, plan: seq<LedgerAction>) {
    forall a :: a in plan ==> ans(a).fate.Ok?
  }

  lemma DetonationsCalm(frames: seq<LedgerFrame>)
    requires forall f :: f in frames ==> f.Fresh? && f.action.Detonate? && f.reply.fate.Ok?
    ensures Calm(frames)
  {
    hide Commute, Idempotent;
    forall f, g | f in frames && g in frames ensures Commute(f, g) {
      DetonationsCommute(f.action.attachment, f.reply, g.action.attachment, g.reply);
    }
    forall f | f in frames ensures Idempotent(f) {
      DetonationsCommute(f.action.attachment, f.reply, f.action.attachment, f.reply);
    }
  }

  /** A list of the plan's calls, each once, an enrichment first. */
  ghost predicate Arranges(ran: seq<LedgerFrame>, frames: seq<LedgerFrame>) {
    && Distinct(ran) && (forall f :: f in ran <==> f in frames)
    && (forall j :: 0 < j < |ran| ==> KindOf(ran[j]) != Enrichment)
  }

  lemma SingleArranged(l: Ledger, ran: seq<LedgerFrame>, frames: seq<LedgerFrame>)
    requires Arranges(ran, frames) && |frames| == 1
    ensures ran == frames
  {
    assert frames[0] in frames;
    OnlyElement(ran, frames[0]);
  }

  lemma HeadArranged(l: Ledger, ran: seq<LedgerFrame>, head: LedgerFrame, rest: seq<LedgerFrame>)
    requires Arranges(ran, [head] + rest) && KindOf(head) == Enrichment
    requires forall f :: f in rest ==> f.Fresh? && f.action.Detonate? && f.reply.fate.Ok?
    ensures Fold(l, ran) == Fold(l, [head] + rest)
  {
    hide Fold, Do;
    var all := [head] + rest;
    assert all[0] == head && head in all;
    assert head in ran;
    var j :| 0 <= j < |ran| && ran[j] == head;
    assert j == 0;
    var others := ran[1..];
    assert ran == [head] + others;
    forall f ensures f in others <==> f in rest {
      if f in others {
        var k :| 0 <= k < |others| && others[k] == f;
        assert ran[k + 1] == f && f != head;
        assert f in all;
      }
      if f in rest {
        assert f in all && f in ran && f != head;
      }
    }
    DetonationsCalm(rest);
    FoldCons(l, head, others);
    FoldCons(l, head, rest);
    SameCalls(Do(l, head), rest, others);
  }

  lemma PlanShape(l: Ledger)
    ensures var plan := LedgerPlan(l);
      || |plan| <= 1
      || (plan == [RunDetections, FetchEmail])
      || (plan[0].EnrichIocs? && forall i :: 0 < i < |plan| ==> plan[i].Detonate?)
      || (forall i :: 0 <= i < |plan| ==> plan[i].Detonate?)
  {
    hide Alert.LooksLikePhishing, Undetonated;
  }

  /** Whatever the order in which a plan's calls are made, an enrichment first, and however
      often the plan repeats one: they do what the plan does in its order. */
  lemma ArrangedFold(l: Ledger, ans: Answer, ran: seq<LedgerFrame>)
    requires AllAnswer(ans, LedgerPlan(l)) && Arranges(ran, Answered(ans, LedgerPlan(l)))
    ensures Fold(l, ran) == Fold(l, Answered(ans, LedgerPlan(l)))
  {
    var plan := LedgerPlan(l);
    var frames := Answered(ans, plan);
    PlanShape(l);
    AnsweredAre(ans, plan);
    hide Fold, LedgerPlan, Calm, Answered;
    if |plan| == 0 {
      assert ran == frames by { NoElement(ran); }
    } else if |plan| == 1 {
      SingleArranged(l, ran, frames);
    } else if plan == [RunDetections, FetchEmail] {
      FirstCommute(ans(RunDetections), ans(FetchEmail));
      assert frames == [Fresh(RunDetections, ans(RunDetections)), Fresh(FetchEmail, ans(FetchEmail))];
      SameCalls(l, frames, ran);
    } else if plan[0].EnrichIocs? {
      assert frames == [frames[0]] + frames[1..];
      forall f | f in frames[1..] ensures f.Fresh? && f.action.Detonate? && f.reply.fate.Ok? {
        var k :| 0 <= k < |frames[1..]| && frames[1..][k] == f;
        assert frames[k + 1] == f && plan[k + 1] in plan;
      }
      HeadArranged(l, ran, frames[0], frames[1..]);
    } else {
      DetonationsCalm(frames);
      SameCalls(l, frames, ran);
    }
  }

  // ---------------------------------------------------------------- a turn

  /** Every call of the wave gets its answer. */
  ghost predicate AnsweredBy(ready: seq<Task>, replies: seq<Reply>, ans: Answer) {
    |replies| == |ready| && forall i :: 0 <= i < |ready| ==> replies[i] == ans(AbstractAction(ready[i].action))
  }

  /** From a graph in which all has ended, a turn runs exactly what is planned. */
  lemma QuietReady(t: Turn)
    requires t.Holds() && forall id :: !Open(t.before, id)
    ensures forall a :: a in ActionsOf(t.ready) <==> a in t.plan
    ensures Distinct(ActionsOf(t.ready))
    ensures forall i, j :: 0 <= i < j < |t.ready| ==> DefaultPriority(t.ready[i].action) >= DefaultPriority(t.ready[j].action)
  {
    t.RanIs();
    hide Turn.Holds, DefaultPriority, Clear;
    forall i | 0 <= i < |t.ready| ensures t.ready[i].action in t.plan {
      NewlyOpen(t, t.ready[i].id);
    }
    forall a | a in t.plan ensures a in ActionsOf(t.ready) {
      var id := t.PlannedOpen(a);
      NewlyOpen(t, id);
      var j :| 0 <= j < |t.ready| && t.ready[j].id == id;
      assert ActionsOf(t.ready)[j] == a;
    }
    forall i, j | 0 <= i < j < |t.ready|
      ensures t.ready[i].action != t.ready[j].action
      ensures DefaultPriority(t.ready[i].action) >= DefaultPriority(t.ready[j].action)
    {
      ListedPair(t, i, j);
    }
  }

  lemma NewlyOpen(t: Turn, id: string)
    requires t.Holds() && (forall id :: !Open(t.before, id)) && Open(t.mid, id)
    ensures id !in t.before.vals && Clear(t.mid, id) && t.mid.vals[id].action in t.plan
    ensures t.mid.vals[id].attempts == 0 && t.mid.vals[id].wave == t.wave + 1
  {
    hide Turn.Holds;
    if id in t.before.vals {
      t.OldStays(id);
    }
    t.NewInMid(id);
  }

  /** Equal calls of a plan are equal actions: it holds at most one hunt. */
  lemma PlannedDiffer(s: Snapshot, a: Planned, b: Planned)
    requires a in NextActions(s) && b in NextActions(s) && a != b
    ensures AbstractAction(a) != AbstractAction(b)
  {
    hide FirstBatch, EvidenceBatch, KeySet;
    HuntsOnly(s);
    PlannedKinds(LedgerOf(s));
  }

  lemma PlannedKinds(l: Ledger)
    ensures forall a :: a in FirstBatch<seq<string>>(l) ==> !a.HuntEdr?
    ensures forall a :: a in EvidenceBatch<seq<string>>(l) ==> !a.HuntEdr?
  {
    hide Undetonated, Alert.LooksLikePhishing;
  }

  lemma AbstractIn(actions: seq<Planned>, a: LedgerAction)
    ensures a in AbstractActions(actions) <==> exists p :: p in actions && AbstractAction(p) == a
  {
    if p :| p in actions && AbstractAction(p) == a {
      var i :| 0 <= i < |actions| && actions[i] == p;
      assert AbstractActions(actions)[i] == a;
    }
  }

  lemma TurnArranges(s: Snapshot, t: Turn, replies: seq<Reply>, ans: Answer)
    requires s.WellKeyed() && t.Holds() && t.plan == NextActions(s) && forall id :: !Open(t.before, id)
    requires AnsweredBy(t.ready, replies, ans)
    ensures Arranges(FramesOf(t.ready, replies), Answered(ans, LedgerPlan(LedgerOf(s))))
  {
    hide Turn.Holds, NextActions, LedgerPlan, LedgerOf, FramesOf, Answered, Snapshot.WellKeyed, DefaultPriority;
    var ran, plan := FramesOf(t.ready, replies), LedgerPlan(LedgerOf(s));
    QuietReady(t);
    PlanRefines(s);
    AnsweredAre(ans, plan);
    forall j | 0 <= j < |t.ready|
      ensures ran[j] == Fresh(AbstractAction(t.ready[j].action), ans(AbstractAction(t.ready[j].action)))
      ensures ActionsOf(t.ready)[j] in NextActions(s)
    {
      FrameAt(t.ready, replies, j);
    }
    forall i, j | 0 <= i < j < |ran| ensures ran[i] != ran[j] {
      assert ActionsOf(t.ready)[i] != ActionsOf(t.ready)[j];
      PlannedDiffer(s, t.ready[i].action, t.ready[j].action);
    }
    forall f ensures f in ran <==> f in Answered(ans, plan) {
      FrameIn(t.ready, replies, ans, f);
      if f.Fresh? {
        AbstractIn(NextActions(s), f.action);
        AbstractIn(ActionsOf(t.ready), f.action);
      }
    }
    forall j | 0 < j < |ran| ensures KindOf(ran[j]) != Enrichment {
      FrameAt(t.ready, replies, j);
      assert ActionsOf(t.ready)[0] in NextActions(s) && ActionsOf(t.ready)[0] != ActionsOf(t.ready)[j];
      EnrichmentLeads(s, t.ready[0].action, t.ready[j].action);
    }
  }

  lemma FrameIn(ready: seq<Task>, replies: seq<Reply>, ans: Answer, f: LedgerFrame)
    requires AnsweredBy(ready, replies, ans)
    ensures f in FramesOf(ready, replies)
      <==> f.Fresh? && f.action in AbstractActions(ActionsOf(ready)) && f.reply == ans(f.action)
  {
    var frames, actions := FramesOf(ready, replies), AbstractActions(ActionsOf(ready));
    forall j | 0 <= j < |ready| ensures frames[j] == Fresh(actions[j], ans(actions[j])) {
      FrameAt(ready, replies, j);
    }
    hide FramesOf;
    if f.Fresh? && f.action in actions && f.reply == ans(f.action) {
      var j :| 0 <= j < |actions| && actions[j] == f.action;
      assert frames[j] == f;
    }
  }

  /** Beside an enrichment only what ranks below it is planned. */
  lemma EnrichmentLeads(s: Snapshot, a: Planned, b: Planned)
    requires a in NextActions(s) && b in NextActions(s) && a != b
    requires DefaultPriority(a) >= DefaultPriority(b)
    ensures !b.EnrichIocs?
  {
    hide Undetonated, Alert.LooksLikePhishing, HuntBatch;
    HuntsOnly(s);
  }

  lemma AllOk(l: Ledger, ready: seq<Task>, replies: seq<Reply>)
    requires |replies| == |ready| && AllSucceed(replies)
    ensures forall i :: 0 <= i < |ready| == |Sequential(l, FramesOf(ready, replies)).1| ==>
      Sequential(l, FramesOf(ready, replies)).1[i]
    ensures |Sequential(l, FramesOf(ready, replies)).1| == |ready|
  {
    var actions := AbstractActions(ActionsOf(ready));
    RoundOks(l, actions, replies);
    RoundIs(l, actions, replies);
    hide Sequential;
  }

  /** A turn from a graph in which all has ended, every call answered: it does what the
      batch loop's iteration does, and leaves a graph in which all has ended. */
  lemma SmoothTurn(s: Snapshot, m: Snapshot, t: Turn, replies: seq<Reply>, ans: Answer)
    requires s.WellKeyed() && Takes(t, s, m, replies) && forall id :: !Open(t.before, id)
    requires AllAnswer(ans, LedgerPlan(LedgerOf(s))) && AnsweredBy(t.ready, replies, ans)
    ensures LedgerOf(m) == Fold(LedgerOf(s), Answered(ans, LedgerPlan(LedgerOf(s))))
    ensures |t.oks| == |t.ready| && forall i :: 0 <= i < |t.oks| ==> t.oks[i]
    ensures forall id :: !Open(t.after, id)
  {
    TurnArranges(s, t, replies, ans);
    hide Turn.Holds, NextActions, LedgerPlan, LedgerOf, FramesOf, Answered, Snapshot.WellKeyed, Arranges;
    ArrangedFold(LedgerOf(s), ans, FramesOf(t.ready, replies));
    RepliesOk(s, t, replies, ans);
    AllOk(LedgerOf(s), t.ready, replies);
    forall id ensures !Open(t.after, id) {
      if Open(t.after, id) {
        t.OpenAfter(id);
        NewlyOpen(t, id);
      }
    }
  }

  lemma RepliesOk(s: Snapshot, t: Turn, replies: seq<Reply>, ans: Answer)
    requires s.WellKeyed() && t.Holds() && t.plan == NextActions(s) && forall id :: !Open(t.before, id)
    requires AllAnswer(ans, LedgerPlan(LedgerOf(s))) && AnsweredBy(t.ready, replies, ans)
    ensures AllSucceed(replies)
  {
    hide Turn.Holds, NextActions, LedgerPlan, LedgerOf, Snapshot.WellKeyed;
    QuietReady(t);
    PlanRefines(s);
    forall i | 0 <= i < |replies| ensures replies[i].fate.Ok? {
      assert ActionsOf(t.ready)[i] in NextActions(s);
      AbstractIn(NextActions(s), AbstractAction(t.ready[i].action));
    }
  }

  /** Such a turn exists from every graph in which all has ended. */
  lemma SomeSmooth(s: Snapshot, m: Snapshot, before: Tasks, n: nat, wave: nat, ans: Answer) returns (t: Turn, replies: seq<Reply>)
    requires s.WellKeyed() && GraphInv(before, n) && forall id :: !Open(before, id)
    requires AllAnswer(ans, LedgerPlan(LedgerOf(s))) && LedgerOf(m) == Fold(LedgerOf(s), Answered(ans, LedgerPlan(LedgerOf(s))))
    ensures Takes(t, s, m, replies) && t.before == before && t.wave == wave
    ensures GraphInv(t.after, t.counter) && forall id :: !Open(t.after, id)
  {
    hide GraphInv, LedgerPlan, LedgerOf, Snapshot.WellKeyed, NextActions, Turn.Holds, Expanded, FramesOf, Answered, Grown;
    var mid, counter := GrownExpanded(before, n, NextActions(s), wave);
    t := WholeTurn(before, mid, counter, NextActions(s), wave);
    replies := RepliesOf(t.ready, ans);
    TurnArranges(s, t, replies, ans);
    ArrangedFold(LedgerOf(s), ans, FramesOf(t.ready, replies));
    RepliesOk(s, t, replies, ans);
    AllOk(LedgerOf(s), t.ready, replies);
    t.RanIs();
    assert Sequential(LedgerOf(s), FramesOf(t.ready, replies)).1 == t.oks;
    SmoothTurn(s, m, t, replies, ans);
  }

  function RepliesOf(ready: seq<Task>, ans: Answer): (replies: seq<Reply>)
    ensures AnsweredBy(ready, replies, ans)
  {
    seq(|ready|, i requires 0 <= i < |ready| => ans(AbstractAction(ready[i].action)))
  }
}
