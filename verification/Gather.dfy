/** Running a batch of tool calls on the shared state: concurrently, as the loop
    and the scheduler do, and one after another, as the durable workflow does. */
module Gather {
  import opened State
  import opened Planner
  import opened Rounding
  import opened Tools
  import opened Concurrency

  // ---------------------------------------------------------------- what every step keeps

  /** A call that waits for threat intel holds indicators that still wait for it. */
  predicate InFlight(l: Ledger, f: LedgerFrame) {
    Targeted(l, f) && (f.Enriching? ==> f.batch <= l.pending)
  }

  predicate OneEnrichment<B, K>(frames: seq<Frame<B, K>>) {
    forall i, j :: 0 <= i < j < |frames| ==> !(KindOf(frames[i]).Enrichment? && KindOf(frames[j]).Enrichment?)
  }

  ghost predicate Sound(l: Ledger, frames: seq<LedgerFrame>) {
    && l.Consistent()
    && OneEnrichment(frames)
    && forall i :: 0 <= i < |frames| ==> InFlight(l, frames[i])
  }

  lemma DetonateSafe(l: Ledger, sha: string, malscore: real, dropped: set<string>)
    requires l.Consistent()
    ensures var next := LedgerDetonate(l, sha, malscore, dropped);
      next.Consistent() && l.GrowsTo(next) && l.pending <= next.pending && next.judged == l.judged
  {
  }

  lemma StartSafe(l: Ledger, a: LedgerAction, r: Reply)
    requires l.Consistent() && (a.HuntEdr? ==> a.keys <= l.judged.Keys)
    ensures var (next, g) := LedgerStart(l, a, r);
      next.Consistent() && l.GrowsTo(next) && InFlight(next, g) && l.pending <= next.pending
  {
    hide KeysOf;
  }

  lemma FrameSafe(l: Ledger, f: LedgerFrame)
    requires l.Consistent() && InFlight(l, f) && !f.Finished?
    ensures var (next, g) := LedgerStep(l, f);
      && next.Consistent() && l.GrowsTo(next) && InFlight(next, g)
      && (!f.Enriching? ==> l.pending <= next.pending)
  {
    hide KeysOf, LedgerDetonate, Max, LedgerStart;
    if f.Fresh? {
      StartSafe(l, f.action, f.reply);
    }
    if f.Detonating? {
      DetonateSafe(l, f.sha256, f.reply.malscore, KeysOf(f.reply.iocs));
    }
    if f.Enriching? && f.reply.fate.Lands() {
      assert l.Judge(f.batch, f.reply.judge).judged.Keys == l.judged.Keys + f.batch;
    }
  }

  lemma GrowsTransitive(a: Ledger, b: Ledger, c: Ledger)
    requires a.GrowsTo(b) && b.GrowsTo(c)
    ensures a.GrowsTo(c)
  {
    forall k | k in a.judged ensures k in c.judged && c.judged[k] == a.judged[k] {
      assert k in b.judged;
    }
  }

  /** One step of any call keeps the lifecycle: waiting and judged indicators stay
      apart, hunts stay within judged indicators, and no judgement is replaced,
      so no indicator is recorded as enriched twice. */
  lemma StepSafe(l: Ledger, frames: seq<LedgerFrame>, i: nat)
    requires i < |frames| && !frames[i].Finished? && Sound(l, frames)
    ensures var (next, f) := LedgerStep(l, frames[i]);
      Sound(next, frames[i := f]) && l.GrowsTo(next)
  {
    var (next, f) := LedgerStep(l, frames[i]);
    var after := frames[i := f];
    FrameSafe(l, frames[i]);
    assert KindOf(f) == KindOf(frames[i]) || KindOf(f) == Done;
    forall j | 0 <= j < |after| ensures InFlight(next, after[j]) {
      if j != i {
        assert InFlight(l, frames[j]);
        if j < i { assert !(KindOf(frames[j]).Enrichment? && KindOf(frames[i]).Enrichment?); }
        else { assert !(KindOf(frames[i]).Enrichment? && KindOf(frames[j]).Enrichment?); }
      }
    }
  }

  // ---------------------------------------------------------------- gather

  function AbstractFrames(frames: seq<ProgramFrame>): (r: seq<LedgerFrame>)
    ensures |r| == |frames|
    ensures forall i :: 0 <= i < |frames| ==> r[i] == AbstractFrame(frames[i])
  {
    seq(|frames|, i requires 0 <= i < |frames| => AbstractFrame(frames[i]))
  }

  function Work(frames: seq<ProgramFrame>): nat {
    if frames == [] then 0 else frames[0].Remaining() + Work(frames[1..])
  }

  lemma WorkDrops(frames: seq<ProgramFrame>, i: nat, f: ProgramFrame)
    requires i < |frames| && f.Remaining() < frames[i].Remaining()
    ensures Work(frames[i := f]) < Work(frames)
  {
    if i == 0 {
      assert frames[i := f][1..] == frames[1..];
    } else {
      WorkDrops(frames[1..], i - 1, f);
      assert frames[i := f][1..] == frames[1..][i - 1 := f];
    }
  }

  /** The first unfinished call may always run: a batch cannot get stuck. */
  lemma SomeMayRun(frames: seq<ProgramFrame>)
    requires !AllDone(frames)
    ensures exists j: nat :: j < |frames| && MayRun(frames, j)
  {
    var i: nat :| i < |frames| && !frames[i].Finished?;
    FirstMayRun(frames, i);
  }

  lemma FirstMayRun(frames: seq<ProgramFrame>, i: nat)
    requires i < |frames| && !frames[i].Finished?
    ensures exists j: nat :: j < |frames| && MayRun(frames, j)
  {
    if j: nat :| j < i && !frames[j].Finished? {
      FirstMayRun(frames, j);
    } else {
      assert MayRun(frames, i);
    }
  }

  lemma MayRunUnfinished(frames: seq<ProgramFrame>, i: nat)
    requires MayRun(frames, i)
    ensures i < |frames| && !frames[i].Finished?
  {}

  /** A batch that may be gathered: at most one enrichment, and hunts only for
      judged indicators. Every batch the drivers run is one. */
  ghost predicate Runnable(l: Ledger, actions: seq<LedgerAction>) {
    && (forall i, j :: 0 <= i < j < |actions| ==> !(actions[i].EnrichIocs? && actions[j].EnrichIocs?))
    && (forall i :: 0 <= i < |actions| && actions[i].HuntEdr? ==> actions[i].keys <= l.judged.Keys)
  }

  /** Tracks the replies through the calls in flight. */
  ghost predicate Faithful(frames: seq<ProgramFrame>, replies: seq<Reply>) {
    && |frames| == |replies|
    && forall i :: 0 <= i < |frames| ==>
         if frames[i].Finished? then replies[i].fate.Ok? ==> frames[i].ok
         else frames[i].reply == replies[i]
  }

  lemma AbstractShape(frames: seq<ProgramFrame>)
    ensures Independent(AbstractFrames(frames)) <==> Independent(frames)
    ensures OneEnrichment(AbstractFrames(frames)) <==> OneEnrichment(frames)
    ensures StartedInOrder(AbstractFrames(frames)) <==> StartedInOrder(frames)
    ensures forall i: nat :: MayRun(AbstractFrames(frames), i) <==> MayRun(frames, i)
    ensures AllDone(AbstractFrames(frames)) <==> AllDone(frames)
  {
    var a := AbstractFrames(frames);
    forall i | 0 <= i < |frames|
      ensures KindOf(a[i]) == KindOf(frames[i]) && a[i].Fresh? == frames[i].Fresh? && a[i].Finished? == frames[i].Finished?
    {}
  }

  /** What holds of a batch in flight, launched as `launched` on ledger `l0`. */
  ghost predicate Underway(l0: Ledger, launched: seq<LedgerFrame>, l: Ledger, frames: seq<LedgerFrame>) {
    && Sound(l, frames) && l0.GrowsTo(l)
    && (Independent(launched) ==>
         Independent(frames) && StartedInOrder(frames) && Sequential(l, frames) == Sequential(l0, launched))
  }

  lemma UnderwayStart(l: Ledger, actions: seq<LedgerAction>, replies: seq<Reply>)
    requires |actions| == |replies| && l.Consistent() && Runnable(l, actions)
    ensures var launched := Launch(actions, replies);
      Underway(l, launched, l, launched)
  {
    hide Sequential;
    var launched: seq<LedgerFrame> := Launch(actions, replies);
    forall i, j | 0 <= i < j < |launched|
      ensures !(KindOf(launched[i]).Enrichment? && KindOf(launched[j]).Enrichment?)
    {}
  }

  lemma UnderwayStep(l0: Ledger, launched: seq<LedgerFrame>, l: Ledger, frames: seq<LedgerFrame>, i: nat)
    requires Underway(l0, launched, l, frames) && MayRun(frames, i)
    ensures var (next, f) := LedgerStep(l, frames[i]);
      Underway(l0, launched, next, frames[i := f])
  {
    hide LedgerStep, Sequential, Independent, StartedInOrder;
    var (next, f) := LedgerStep(l, frames[i]);
    StepSafe(l, frames, i);
    GrowsTransitive(l0, l, next);
    if Independent(launched) {
      assert AllTargeted(l, frames);
      StepInvariant(l, frames, i);
      StepKeepsShape(l, frames, i);
    }
  }

  lemma LaunchAbstract(actions: seq<Planned>, replies: seq<Reply>)
    requires |actions| == |replies|
    ensures AbstractFrames(Launch(actions, replies)) == Launch(AbstractActions(actions), replies)
    ensures Faithful(Launch(actions, replies), replies)
  {}

  lemma FaithfulStep(s: Snapshot, frames: seq<ProgramFrame>, replies: seq<Reply>, i: nat)
    requires s.WellKeyed() && Faithful(frames, replies) && i < |frames| && !frames[i].Finished?
    ensures Faithful(frames[i := Step(s, frames[i]).1], replies)
    ensures Step(s, frames[i]).1.Remaining() < frames[i].Remaining()
  {
    assert frames[i].reply == replies[i];
  }

  /** Runs a batch concurrently: any call that may run takes the next step. Whatever
      the interleaving, the lifecycle is kept; and an independent batch ends as if
      its calls had run one after another. */
  method GatherBatch(state: InvestigationState, actions: seq<Planned>, replies: seq<Reply>) returns (oks: seq<bool>)
    requires |actions| == |replies| && state.Dump().WellKeyed()
    requires state.Ledger().Consistent() && Runnable(state.Ledger(), AbstractActions(actions))
    modifies state
    ensures state.Dump().WellKeyed() && state.Ledger().Consistent()
    ensures old(state.Ledger()).GrowsTo(state.Ledger())
    ensures old(state.enriched).keys <= state.enriched.keys
    ensures |oks| == |actions| && forall i :: 0 <= i < |oks| && replies[i].fate.Ok? ==> oks[i]
    ensures Independent<set<string>, set<string>>(Launch(AbstractActions(actions), replies)) ==>
      (state.Ledger(), oks) == Sequential(old(state.Ledger()), Launch(AbstractActions(actions), replies))
  {
    hide Step, LedgerStep, Sequential, LedgerOf, Underway, Independent, StartedInOrder;
    hide AbstractFrame, Snapshot.WellKeyed, InvestigationState.Dump, MayRun, Faithful, Frame.Remaining;
    var frames: seq<ProgramFrame> := Launch(actions, replies);
    ghost var l0 := state.Ledger();
    ghost var launched: seq<LedgerFrame> := Launch(AbstractActions(actions), replies);
    LaunchAbstract(actions, replies);
    UnderwayStart(l0, AbstractActions(actions), replies);
    while !AllDone(frames)
      invariant state.Dump().WellKeyed() && Faithful(frames, replies)
      invariant Underway(l0, launched, state.Ledger(), AbstractFrames(frames))
      invariant old(state.enriched).keys <= state.enriched.keys
      decreases Work(frames)
    {
      SomeMayRun(frames);
      var i: nat :| i < |frames| && MayRun(frames, i);
      assert i < |frames| && !frames[i].Finished? by { MayRunUnfinished(frames, i); }
      ghost var before := AbstractFrames(frames);
      AbstractShape(frames);
      StepRefines(state.Dump(), frames[i]);
      FaithfulStep(state.Dump(), frames, replies, i);
      UnderwayStep(l0, launched, state.Ledger(), before, i);
      DumpedKeys(state);
      StepAppends(state.Dump(), frames[i]);
      var next := Resume(state, frames[i]);
      DumpedKeys(state);
      WorkDrops(frames, i, next);
      assert AbstractFrames(frames[i := next]) == before[i := AbstractFrame(next)];
      frames := frames[i := next];
    }
    oks := Outcomes(frames);
    OutcomesAbstract(frames);
    UnderwayEnd(l0, launched, state.Ledger(), AbstractFrames(frames));
    FaithfulEnd(frames, replies);
  }

  lemma DumpedKeys(state: InvestigationState)
    ensures state.Dump().enriched == state.enriched
  {}

  lemma OutcomesAbstract(frames: seq<ProgramFrame>)
    requires AllDone(frames)
    ensures AllDone(AbstractFrames(frames)) && Outcomes(AbstractFrames(frames)) == Outcomes(frames)
  {}

  lemma FaithfulEnd(frames: seq<ProgramFrame>, replies: seq<Reply>)
    requires Faithful(frames, replies) && AllDone(frames)
    ensures |Outcomes(frames)| == |replies|
    ensures forall i :: 0 <= i < |replies| && replies[i].fate.Ok? ==> Outcomes(frames)[i]
  {}

  lemma UnderwayEnd(l0: Ledger, launched: seq<LedgerFrame>, l: Ledger, frames: seq<LedgerFrame>)
    requires Underway(l0, launched, l, frames) && AllDone(frames)
    ensures l.Consistent() && l0.GrowsTo(l)
    ensures Independent(launched) ==> Sequential(l0, launched) == (l, Outcomes(frames))
  {
    SequentialDone(l, frames);
  }

  // ---------------------------------------------------------------- one after another

  /** `run_tool`: one call from start to end; a raised exception is its outcome. */
  method RunTool(state: InvestigationState, action: Planned, reply: Reply) returns (ok: bool)
    requires state.Dump().WellKeyed()
    modifies state
    ensures state.Dump().WellKeyed()
    ensures (state.Ledger(), ok) == Complete(old(state.Ledger()), Fresh(AbstractAction(action), reply))
  {
    hide Step, LedgerStep, LedgerOf;
    var f: ProgramFrame := Fresh(action, reply);
    while !f.Finished?
      invariant state.Dump().WellKeyed()
      invariant Complete(state.Ledger(), AbstractFrame(f))
             == Complete(old(state.Ledger()), Fresh(AbstractAction(action), reply))
      decreases f.Remaining()
    {
      StepRefines(state.Dump(), f);
      f := Resume(state, f);
    }
    ok := f.ok;
  }

  method RunInTurn(state: InvestigationState, actions: seq<Planned>, replies: seq<Reply>) returns (oks: seq<bool>)
    requires |actions| == |replies| && state.Dump().WellKeyed()
    modifies state
    ensures state.Dump().WellKeyed()
    ensures (state.Ledger(), oks)
         == Sequential(old(state.Ledger()), Launch(AbstractActions(actions), replies))
  {
    hide Complete, LedgerOf, LedgerStep;
    oks := [];
    ghost var frames: seq<LedgerFrame> := Launch(AbstractActions(actions), replies);
    assert frames[0..] == frames;
    assert [] + Sequential(state.Ledger(), frames).1 == Sequential(state.Ledger(), frames).1;
    for i := 0 to |actions|
      invariant state.Dump().WellKeyed()
      invariant var (last, rest) := Sequential(state.Ledger(), frames[i..]);
        (last, oks + rest) == Sequential(old(state.Ledger()), frames)
    {
      assert frames[i..][1..] == frames[i + 1..];
      assert frames[i..][0] == Fresh(AbstractAction(actions[i]), replies[i]);
      var ok := RunTool(state, actions[i], replies[i]);
      ghost var rest := Sequential(state.Ledger(), frames[i + 1..]).1;
      assert oks + ([ok] + rest) == (oks + [ok]) + rest;
      oks := oks + [ok];
    }
    assert frames[|actions|..] == [];
    assert oks + [] == oks;
  }
}
