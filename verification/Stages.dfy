/** How far a task-graph run has come, and why no wave holds two calls that clash: an
    extraction waits for every fetch, and a hunt for everything that could change it. */
module Stages {
  import opened Sorting
  import opened OrderedDict
  import opened State
  import opened Planner
  import opened Tools
  import opened Concurrency
  import opened Effects
  import opened TaskGraphs
  import opened Turns

  // ---------------------------------------------------------------- the stages

  /** Nothing is left of the first phase: detections ran, and a reported email was looked at. */
  predicate Opened(l: Ledger) {
    l.detectionsRan && (l.alert.LooksLikePhishing() ==> l.emailChecked)
  }

  function Waiting(l: Ledger): seq<Attachment> {
    Undetonated(Attachments(l.emailMsg), l.detonated)
  }

  /** Detections and fetches, all of the last wave and at their second attempt; nothing was
      extracted yet. */
  ghost predicate Gathering(l: Ledger, tasks: Tasks, wave: nat) {
    && !l.extracted
    && (forall id :: Open(tasks, id) ==> tasks.vals[id].action.RunDetections? || tasks.vals[id].action.FetchEmail?)
    && (forall id :: Open(tasks, id) ==> tasks.vals[id].wave == wave && tasks.vals[id].attempts == 1 && Clear(tasks, id))
    && (!Opened(l) && (exists id :: Open(tasks, id)) ==> forall a :: a in FirstBatch<seq<string>>(l) ==> HasActive(tasks, a))
  }

  /** The extraction, alone. */
  ghost predicate Extracting(l: Ledger, tasks: Tasks) {
    && !l.extracted && Opened(l)
    && (forall id :: Open(tasks, id) ==> tasks.vals[id].action.ExtractIocs? && Clear(tasks, id))
    && exists id :: Open(tasks, id)
  }

  /** An enrichment that has not run has something to do, a detonation that has not run
      has an attachment to detonate. */
  ghost predicate Useful(l: Ledger, t: Task) {
    && (t.action.EnrichIocs? || t.action.Detonate?)
    && (t.action.EnrichIocs? && t.attempts == 0 ==> l.pending != {})
    && (t.action.Detonate? ==> t.action.attachment in Attachments(l.emailMsg))
    && (t.action.Detonate? && t.attempts == 0 ==> t.action.attachment.sha256 !in l.detonated)
  }

  /** Enrichments and detonations. The detonations move together and cover all that is
      undetonated. */
  ghost predicate Collecting(l: Ledger, tasks: Tasks) {
    && l.extracted && Opened(l)
    && (forall id :: Open(tasks, id) ==> Useful(l, tasks.vals[id]))
    && (forall id :: Open(tasks, id) ==> tasks.vals[id].attempts <= 1)
    && (forall id :: Open(tasks, id) && tasks.vals[id].attempts == 1 ==> Clear(tasks, id))
    && Together(tasks)
    && ((exists id :: Open(tasks, id) && tasks.vals[id].action.Detonate?) ==>
          forall a :: a in Waiting(l) ==> HasActive(tasks, Detonate(a)))
  }

  ghost predicate Together(tasks: Tasks) {
    forall a, b :: Open(tasks, a) && Open(tasks, b) && tasks.vals[a].action.Detonate? && tasks.vals[b].action.Detonate? ==>
      tasks.vals[a].attempts == tasks.vals[b].attempts && tasks.vals[a].dependsOn == tasks.vals[b].dependsOn
  }

  /** The planner has no hunt to propose but `a`. */
  ghost predicate OnlyHunt(s: Snapshot, a: Planned) {
    HuntBatch(s) == [] || HuntBatch(s) == [a]
  }

  /** One hunt, and at most an enrichment that waits for it. */
  ghost predicate HuntedBy(s: Snapshot, tasks: Tasks, wave: nat, h: string) {
    && Open(tasks, h) && tasks.vals[h].action.HuntEdr? && Clear(tasks, h) && OnlyHunt(s, tasks.vals[h].action)
    && (forall id :: Open(tasks, id) && id != h ==>
          tasks.vals[id].action.EnrichIocs? && tasks.vals[id].attempts == 0 && h in tasks.vals[id].dependsOn)
    && ((exists id :: Open(tasks, id) && id != h) ==> s.pending.vals.Keys != {})
    && (s.pending.vals.Keys != {} ==> tasks.vals[h].wave == wave || exists id :: Open(tasks, id) && id != h)
  }

  ghost predicate OnTheHunt(s: Snapshot, tasks: Tasks, wave: nat) {
    && s.extracted && Opened(LedgerOf(s)) && Waiting(LedgerOf(s)) == []
    && exists h :: HuntedBy(s, tasks, wave, h)
  }

  /** Where a run stands between two waves. */
  ghost predicate Staged(s: Snapshot, tasks: Tasks, wave: nat) {
    || Gathering(LedgerOf(s), tasks, wave)
    || Extracting(LedgerOf(s), tasks)
    || Collecting(LedgerOf(s), tasks)
    || OnTheHunt(s, tasks, wave)
  }

  // ---------------------------------------------------------------- the plan of a stage

  lemma FirstPlan(s: Snapshot)
    ensures FirstBatch<seq<string>>(LedgerOf(s)) == [] <==> Opened(LedgerOf(s))
    ensures !Opened(LedgerOf(s)) ==> NextActions(s) == FirstBatch(LedgerOf(s))
    ensures forall a :: a in FirstBatch<seq<string>>(LedgerOf(s)) ==> a.RunDetections? || a.FetchEmail?
    ensures Opened(LedgerOf(s)) && !s.extracted ==> NextActions(s) == [ExtractIocs]
  {
    hide Alert.LooksLikePhishing, Judgements;
  }

  lemma FirstShrinks(l: Ledger, m: Ledger)
    requires Onward(l, m)
    ensures Opened(l) ==> Opened(m)
    ensures forall a :: a in FirstBatch<seq<string>>(m) ==> a in FirstBatch<seq<string>>(l)
    ensures forall a :: a in FirstBatch<seq<string>>(m) ==> !Landed(m, AbstractAction(a))
  {
    hide Alert.LooksLikePhishing;
  }

  lemma EvidencePlan(s: Snapshot)
    requires s.extracted && Opened(LedgerOf(s))
    ensures forall a :: a in NextActions(s) && !a.HuntEdr? ==>
      if a.EnrichIocs? then s.pending.vals.Keys != {} else a.Detonate? && a.attachment in Waiting(LedgerOf(s))
    ensures s.pending.vals.Keys != {} ==> EnrichIocs in NextActions(s)
    ensures forall a :: a in Waiting(LedgerOf(s)) ==> Detonate(a) in NextActions(s)
    ensures s.pending.vals.Keys != {} || Waiting(LedgerOf(s)) != [] ==> forall a :: a in NextActions(s) ==> !a.HuntEdr?
    ensures s.pending.vals.Keys == {} && Waiting(LedgerOf(s)) == [] ==> NextActions(s) == HuntBatch(s)
    ensures s.pending.vals.Keys != {} && Waiting(LedgerOf(s)) == [] ==> NextActions(s) == [EnrichIocs]
  {
    hide Alert.LooksLikePhishing, Judgements, Undetonated, HuntBatch;
    FirstPlan(s);
    HuntsOnly(s);
    var waiting := Waiting(LedgerOf(s));
    var detonations: seq<Planned> := Detonations(waiting);
    forall a | a in waiting ensures Detonate(a) in detonations {
      var i :| 0 <= i < |waiting| && waiting[i] == a;
      assert detonations[i] == Detonate(a);
    }
    forall a | a in detonations ensures a.Detonate? && a.attachment in waiting {
      var i :| 0 <= i < |detonations| && detonations[i] == a;
    }
  }

  lemma HuntsOnly(s: Snapshot)
    ensures forall a :: a in HuntBatch(s) ==> a.HuntEdr?
    ensures |HuntBatch(s)| <= 1
  {}

  lemma WaitingAre(l: Ledger)
    ensures forall a :: a in Waiting(l) <==> a in Attachments(l.emailMsg) && a.sha256 !in l.detonated
  {
    UndetonatedAre(Attachments(l.emailMsg), l.detonated);
  }

  // ---------------------------------------------------------------- no clash

  lemma NothingOpen(s: Snapshot, tasks: Tasks, wave: nat)
    requires (forall id :: !Open(tasks, id)) && (s.extracted ==> Opened(LedgerOf(s)))
    ensures Staged(s, tasks, wave)
    ensures s.extracted ==> Collecting(LedgerOf(s), tasks)
    ensures !s.extracted ==> Gathering(LedgerOf(s), tasks, wave)
  {
  }

  /** No two of the tasks clash, in whatever order of the list they stand. */
  ghost predicate Apart(ready: seq<Task>) {
    forall i, j :: 0 <= i < j < |ready| ==> !Clash(ActionKind(ready[i].action), ActionKind(ready[j].action))
  }

  lemma ApartIndependent(ready: seq<Task>, replies: seq<Reply>)
    requires |replies| == |ready| && Apart(ready)
    ensures Independent(FramesOf(ready, replies))
  {
    hide ActionKind, FramesOf, Clash;
    forall i, j | 0 <= i < j < |ready|
      ensures !Clash(KindOf(FramesOf(ready, replies)[i]), KindOf(FramesOf(ready, replies)[j]))
    {
      FrameAt(ready, replies, i);
      FrameAt(ready, replies, j);
    }
  }

  /** The tasks of a wave differ, and those of higher priority are listed first. */
  lemma ListedPair(t: Turn, i: nat, j: nat)
    requires t.Holds() && i < j < |t.ready|
    ensures t.ready[i].action != t.ready[j].action
    ensures DefaultPriority(t.ready[i].action) >= DefaultPriority(t.ready[j].action)
  {
    t.RanIs();
    t.OneActive(t.ready[i].id, t.ready[j].id);
    InvParts(t.mid, t.counter);
    hide Turn.Holds, DefaultPriority;
    assert Settled(t.mid.vals[t.ready[i].id]) && Settled(t.mid.vals[t.ready[j].id]);
  }

  /** A wave clashes only if it holds two hunts, or a fetch and an extraction. */
  lemma ApartUnless(t: Turn)
    requires t.Holds()
    requires forall i, j :: 0 <= i < j < |t.ready| ==> !(t.ready[i].action.HuntEdr? && t.ready[j].action.HuntEdr?)
    requires forall i, j :: 0 <= i < j < |t.ready| ==> !(t.ready[i].action.FetchEmail? && t.ready[j].action.ExtractIocs?)
    ensures Apart(t.ready)
  {
    hide Turn.Holds, Clash, ActionKind, DefaultPriority;
    forall i, j | 0 <= i < j < |t.ready| ensures !Clash(ActionKind(t.ready[i].action), ActionKind(t.ready[j].action)) {
      ListedPair(t, i, j);
      PairApart(t.ready[i].action, t.ready[j].action);
    }
  }

  lemma PairApart(a: Planned, b: Planned)
    requires a != b && DefaultPriority(a) >= DefaultPriority(b)
    requires !(a.HuntEdr? && b.HuntEdr?) && !(a.FetchEmail? && b.ExtractIocs?)
    ensures !Clash(ActionKind(a), ActionKind(b))
  {
  }

  // ---------------------------------------------------------------- gathering and extracting

  /** A turn from state `s`, whose plan it runs, to state `m`. */
  ghost predicate Takes(t: Turn, s: Snapshot, m: Snapshot, replies: seq<Reply>) {
    && t.Holds() && t.plan == NextActions(s)
    && Effected(LedgerOf(s), LedgerOf(m), t.ready, replies, t.oks)
  }

  /** A wave of second attempts, or of nothing but tasks that end, leaves nothing open. */
  lemma AllEnd(t: Turn)
    requires t.Holds()
    requires forall id :: Open(t.mid, id) ==> Clear(t.mid, id) && t.mid.vals[id].attempts > 0
    ensures forall id :: !Open(t.after, id)
  {
    hide Turn.Holds;
    forall id ensures !Open(t.after, id) {
      if Open(t.after, id) {
        t.OpenAfter(id);
      }
    }
  }

  lemma GatheringMid(s: Snapshot, t: Turn)
    requires t.Holds() && t.plan == NextActions(s) && Gathering(LedgerOf(s), t.before, t.wave)
    ensures forall id :: Open(t.mid, id) && id in t.before.vals ==>
      Open(t.before, id) && Clear(t.mid, id) && t.mid.vals[id].attempts == 1
      && (t.mid.vals[id].action.RunDetections? || t.mid.vals[id].action.FetchEmail?)
    ensures forall id :: Open(t.mid, id) && id !in t.before.vals ==>
      && t.mid.vals[id].action in t.plan && t.mid.vals[id].attempts == 0 && t.mid.vals[id].wave == t.wave + 1
      && (Clear(t.mid, id) <==> forall d :: !Open(t.before, d))
    ensures !Opened(LedgerOf(s)) && (exists id :: Open(t.before, id)) ==> forall id :: Open(t.mid, id) ==> id in t.before.vals
  {
    FirstPlan(s);
    hide Turn.Holds, NextActions, Opened, FirstBatch;
    forall id | Open(t.mid, id)
      ensures id in t.before.vals ==> Open(t.before, id) && Clear(t.mid, id) && t.mid.vals[id] == t.before.vals[id]
      ensures id !in t.before.vals ==>
        && t.mid.vals[id].action in t.plan && t.mid.vals[id].attempts == 0 && t.mid.vals[id].wave == t.wave + 1
        && (Clear(t.mid, id) <==> forall d :: !Open(t.before, d))
        && (!Opened(LedgerOf(s)) ==> forall d :: !Open(t.before, d))
    {
      if id in t.before.vals {
        t.OldStays(id);
      } else {
        t.NewInMid(id);
        if !Opened(LedgerOf(s)) {
          assert !HasActive(t.before, t.mid.vals[id].action);
        }
      }
    }
  }

  lemma GatheringReady(s: Snapshot, t: Turn)
    requires t.Holds() && t.plan == NextActions(s) && Gathering(LedgerOf(s), t.before, t.wave)
    ensures if Opened(LedgerOf(s)) && (forall d :: !Open(t.before, d))
      then forall j :: 0 <= j < |t.ready| ==> t.ready[j].action.ExtractIocs?
      else forall j :: 0 <= j < |t.ready| ==> t.ready[j].action.RunDetections? || t.ready[j].action.FetchEmail?
  {
    hide Turn.Holds, NextActions, FirstBatch, Gathering, Opened, Clear, LedgerOf;
    FirstPlan(s);
    GatheringMid(s, t);
    t.RanIs();
    if Opened(LedgerOf(s)) {
      if d :| Open(t.before, d) {
        forall j | 0 <= j < |t.ready| ensures t.ready[j].action.RunDetections? || t.ready[j].action.FetchEmail? {
          assert t.ready[j].id in t.before.vals;
        }
      } else {
        NotYet(LedgerOf(s), t.before, t.wave);
        ExtractionPlan(s);
        forall j | 0 <= j < |t.ready| ensures t.ready[j].action.ExtractIocs? {
          assert t.ready[j].id !in t.before.vals;
        }
      }
    } else {
      forall j | 0 <= j < |t.ready| ensures t.ready[j].action.RunDetections? || t.ready[j].action.FetchEmail? {
        assert t.ready[j].id in t.before.vals || t.ready[j].action in t.plan;
      }
    }
  }

  /** A call that did not have its effect failed. */
  lemma FailedIfMissing(s: Snapshot, m: Snapshot, t: Turn, replies: seq<Reply>, id: string)
    requires Takes(t, s, m, replies) && Open(t.mid, id) && !Landed(LedgerOf(m), AbstractAction(t.mid.vals[id].action))
    ensures forall j :: 0 <= j < |t.ready| == |t.oks| && t.ready[j].id == id ==> !t.oks[j]
  {
    t.RanIs();
    hide Turn.Holds, LedgerOf, Effected;
    forall j | 0 <= j < |t.ready| == |t.oks| && t.ready[j].id == id ensures !t.oks[j] {
      if t.oks[j] {
        RanLands(LedgerOf(s), LedgerOf(m), t.ready, replies, t.oks, j);
      }
    }
  }

  /** New work on an empty graph may run at once; what stays open failed once. */
  lemma FreshWave(s: Snapshot, t: Turn)
    requires t.Holds() && t.plan == NextActions(s) && forall id :: !Open(t.before, id)
    ensures forall id :: Open(t.mid, id) ==> Clear(t.mid, id) && t.mid.vals[id].action in t.plan && t.mid.vals[id].attempts == 0
    ensures forall id :: Open(t.after, id) ==>
      && Open(t.mid, id) && t.after.vals[id].action == t.mid.vals[id].action && t.after.vals[id].action in t.plan
      && t.after.vals[id].wave == t.wave + 1 && t.after.vals[id].attempts == 1 && Clear(t.after, id)
  {
    hide Turn.Holds, NextActions, Clear;
    forall id | Open(t.mid, id)
      ensures Clear(t.mid, id) && t.mid.vals[id].action in t.plan && t.mid.vals[id].attempts == 0
      ensures t.mid.vals[id].wave == t.wave + 1
    {
      if id in t.before.vals { t.OldStays(id); }
      t.NewInMid(id);
    }
    forall id | Open(t.after, id)
      ensures Open(t.mid, id) && t.after.vals[id].action == t.mid.vals[id].action && t.after.vals[id].wave == t.wave + 1
      ensures t.after.vals[id].attempts == 1 && Clear(t.after, id)
    {
      t.OpenAfter(id);
    }
  }

  lemma FirstStillActive(s: Snapshot, m: Snapshot, t: Turn, replies: seq<Reply>)
    requires Takes(t, s, m, replies) && !Opened(LedgerOf(s)) && forall id :: !Open(t.before, id)
    ensures forall a :: a in FirstBatch<seq<string>>(LedgerOf(m)) ==> HasActive(t.after, a)
  {
    var l, k := LedgerOf(s), LedgerOf(m);
    FirstPlan(s);
    FreshWave(s, t);
    RanOnward(l, k, t.ready, replies, t.oks);
    FirstShrinks(l, k);
    hide Turn.Holds, NextActions, Opened, FirstBatch, Effected, Clear, LedgerOf;
    forall a | a in FirstBatch<seq<string>>(k) ensures HasActive(t.after, a) {
      var id := t.PlannedOpen(a);
      FailedIfMissing(s, m, t, replies, id);
      t.StaysOpen(id);
    }
  }

  lemma FirstExtractsNothing(s: Snapshot, m: Snapshot, t: Turn, replies: seq<Reply>)
    requires Takes(t, s, m, replies) && Gathering(LedgerOf(s), t.before, t.wave) && !Opened(LedgerOf(s))
    ensures !LedgerOf(m).extracted
  {
    hide Turn.Holds, NextActions, Opened, FirstBatch, Effected, Clear, LedgerOf, Gathering;
    NotYet(LedgerOf(s), t.before, t.wave);
    GatheringReady(s, t);
    assert NoneOf(t.ready, Extraction);
    RanKeeps(LedgerOf(s), LedgerOf(m), t.ready, replies, t.oks);
  }

  /** First attempts of the first phase: what fails stays open, and is all that is missing. */
  lemma FirstAttempts(s: Snapshot, m: Snapshot, t: Turn, replies: seq<Reply>)
    requires Takes(t, s, m, replies) && Gathering(LedgerOf(s), t.before, t.wave)
    requires !Opened(LedgerOf(s)) && forall id :: !Open(t.before, id)
    ensures Gathering(LedgerOf(m), t.after, t.wave + 1)
  {
    FirstExtractsNothing(s, m, t, replies);
    hide Turn.Holds, NextActions, Opened, FirstBatch, Effected, Clear, LedgerOf, HasActive, Gathering;
    FirstPlan(s);
    FreshWave(s, t);
    FirstStillActive(s, m, t, replies);
    FinishGathering(LedgerOf(m), t.after, t.wave + 1);
  }

  lemma FinishGathering(l: Ledger, tasks: Tasks, wave: nat)
    requires !l.extracted
    requires forall id :: Open(tasks, id) ==> tasks.vals[id].action.RunDetections? || tasks.vals[id].action.FetchEmail?
    requires forall id :: Open(tasks, id) ==> tasks.vals[id].wave == wave && tasks.vals[id].attempts == 1 && Clear(tasks, id)
    requires Opened(l) || (forall id :: !Open(tasks, id)) || forall a :: a in FirstBatch<seq<string>>(l) ==> HasActive(tasks, a)
    ensures Gathering(l, tasks, wave)
  {
  }

  lemma ExtractionPlan(s: Snapshot)
    requires Opened(LedgerOf(s)) && !LedgerOf(s).extracted
    ensures NextActions(s) == [ExtractIocs]
  {
    FirstPlan(s);
  }

  lemma NotYet(l: Ledger, tasks: Tasks, wave: nat)
    requires Gathering(l, tasks, wave) || Extracting(l, tasks)
    ensures !l.extracted
  {
  }

  /** An extraction planned beside unfinished fetches waits for them. */
  lemma ExtractionWaits(s: Snapshot, t: Turn, d: string)
    requires t.Holds() && t.plan == NextActions(s) && Gathering(LedgerOf(s), t.before, t.wave)
    requires Opened(LedgerOf(s)) && !LedgerOf(s).extracted && Open(t.before, d)
    ensures forall id :: Open(t.after, id) ==> t.after.vals[id].action.ExtractIocs? && Clear(t.after, id)
    ensures exists id :: Open(t.after, id)
  {
    hide Turn.Holds, NextActions, Gathering, Opened, Clear, FirstBatch, LedgerOf;
    ExtractionPlan(s);
    GatheringMid(s, t);
    forall id | Open(t.after, id)
      ensures t.after.vals[id].action.ExtractIocs? && id !in t.before.vals && Open(t.mid, id)
      ensures t.after.vals[id].dependsOn == t.mid.vals[id].dependsOn
    {
      t.OpenAfter(id);
    }
    forall id | Open(t.after, id) ensures Clear(t.after, id) {
      t.OpenAfter(id);
      t.NewInMid(id);
      ClearOf(t.after, id);
    }
    var x := t.PlannedOpen(ExtractIocs);
    t.StaysOpen(x);
  }

  lemma ClearOf(tasks: Tasks, id: string)
    requires id in tasks.vals && forall d :: d in tasks.vals[id].dependsOn ==> !Open(tasks, d)
    ensures Clear(tasks, id)
  {
  }

  lemma GatheringTurn(s: Snapshot, m: Snapshot, t: Turn, replies: seq<Reply>)
    requires Takes(t, s, m, replies) && Gathering(LedgerOf(s), t.before, t.wave)
    ensures Staged(m, t.after, t.wave + 1)
  {
    hide Turn.Holds, NextActions, Gathering, Extracting, Collecting, OnTheHunt, Opened, Clear, LedgerOf, Effected, Takes;
    NotYet(LedgerOf(s), t.before, t.wave);
    if forall d :: !Open(t.before, d) {
      if Opened(LedgerOf(s)) {
        ExtractionBegins(s, m, t, replies);
      } else {
        FirstAttempts(s, m, t, replies);
      }
    } else {
      var d :| Open(t.before, d);
      SecondAttempts(s, m, t, replies);
      if Opened(LedgerOf(s)) {
        TurnParts(t, s, m, replies);
        ExtractionWaits(s, t, d);
        BeginExtracting(m, t.after);
      } else {
        FirstRetried(s, m, t, replies);
      }
    }
  }

  lemma TurnParts(t: Turn, s: Snapshot, m: Snapshot, replies: seq<Reply>)
    requires Takes(t, s, m, replies)
    ensures t.Holds() && t.plan == NextActions(s)
    ensures Effected(LedgerOf(s), LedgerOf(m), t.ready, replies, t.oks)
  {
  }

  lemma BeginExtracting(m: Snapshot, tasks: Tasks)
    requires !m.extracted && Opened(LedgerOf(m)) && exists id :: Open(tasks, id)
    requires forall id :: Open(tasks, id) ==> tasks.vals[id].action.ExtractIocs? && Clear(tasks, id)
    ensures Extracting(LedgerOf(m), tasks)
  {
  }

  lemma ExtractionBegins(s: Snapshot, m: Snapshot, t: Turn, replies: seq<Reply>)
    requires Takes(t, s, m, replies) && Opened(LedgerOf(s)) && !LedgerOf(s).extracted && forall d :: !Open(t.before, d)
    ensures Staged(m, t.after, t.wave + 1)
  {
    hide Turn.Holds, NextActions, Opened, Clear, LedgerOf, Effected, Staged;
    ExtractionPlan(s);
    FreshWave(s, t);
    var x := t.PlannedOpen(ExtractIocs);
    ExtractionTurn(s, m, t, replies);
  }

  /** Second attempts of the first phase end, one way or the other. */
  lemma FirstRetried(s: Snapshot, m: Snapshot, t: Turn, replies: seq<Reply>)
    requires Takes(t, s, m, replies) && Gathering(LedgerOf(s), t.before, t.wave) && !m.extracted
    requires !Opened(LedgerOf(s)) && exists d :: Open(t.before, d)
    ensures Staged(m, t.after, t.wave + 1)
  {
    hide Turn.Holds, NextActions, Opened, Clear, LedgerOf, Effected, Staged, Gathering;
    GatheringMid(s, t);
    AllEnd(t);
    NothingOpen(m, t.after, t.wave + 1);
  }

  /** A wave of second attempts extracts nothing and closes nothing. */
  lemma SecondAttempts(s: Snapshot, m: Snapshot, t: Turn, replies: seq<Reply>)
    requires Takes(t, s, m, replies) && Gathering(LedgerOf(s), t.before, t.wave) && exists d :: Open(t.before, d)
    ensures !m.extracted && (Opened(LedgerOf(s)) ==> Opened(LedgerOf(m)))
  {
    hide Turn.Holds, NextActions, Opened, Effected, Clear, Gathering;
    NotYet(LedgerOf(s), t.before, t.wave);
    GatheringReady(s, t);
    assert NoneOf(t.ready, Extraction);
    RanKeeps(LedgerOf(s), LedgerOf(m), t.ready, replies, t.oks);
    RanOnward(LedgerOf(s), LedgerOf(m), t.ready, replies, t.oks);
    FirstShrinks(LedgerOf(s), LedgerOf(m));
  }

  lemma ExtractionTurn(s: Snapshot, m: Snapshot, t: Turn, replies: seq<Reply>)
    requires Takes(t, s, m, replies) && Opened(LedgerOf(s)) && !LedgerOf(s).extracted
    requires forall id :: Open(t.mid, id) ==> t.mid.vals[id].action.ExtractIocs? && Clear(t.mid, id)
    requires exists id :: Open(t.mid, id)
    ensures Staged(m, t.after, t.wave + 1)
  {
    hide Turn.Holds, Effected, Opened, Clear, Gathering, Collecting, OnTheHunt, NextActions;
    OneExtraction(s, m, t, replies);
    RanOnward(LedgerOf(s), LedgerOf(m), t.ready, replies, t.oks);
    FirstShrinks(LedgerOf(s), LedgerOf(m));
    hide LedgerOf, Extracting;
    forall id | Open(t.after, id) ensures !m.extracted && t.after.vals[id].action.ExtractIocs? && Clear(t.after, id) {
      t.OpenAfter(id);
      OnlyExtraction(s, m, t, replies);
    }
    if forall id :: !Open(t.after, id) {
      NothingOpen(m, t.after, t.wave + 1);
    } else {
      BeginExtracting(m, t.after);
    }
  }

  lemma OnlyExtraction(s: Snapshot, m: Snapshot, t: Turn, replies: seq<Reply>)
    requires |t.oks| == |t.ready| == 1 && exists j :: 0 <= j < |t.ready| == |t.oks| && !t.oks[j]
    requires !LedgerOf(s).extracted
    requires if t.oks[0] then m.extracted else LedgerOf(m) == LedgerOf(s)
    ensures !m.extracted
  {
  }

  lemma OneReady(t: Turn)
    requires t.Holds() && exists id :: Open(t.mid, id) && Clear(t.mid, id)
    requires forall i, j :: 0 <= i < j < |t.ready| ==> t.ready[i].action == t.ready[j].action
    ensures |t.oks| == |t.ready| == 1
  {
    t.RanIs();
    hide Turn.Holds;
    var x :| Open(t.mid, x) && Clear(t.mid, x);
    var j :| 0 <= j < |t.ready| && t.ready[j].id == x;
    if |t.ready| > 1 {
      t.OneActive(t.ready[0].id, t.ready[1].id);
    }
  }

  lemma OneExtraction(s: Snapshot, m: Snapshot, t: Turn, replies: seq<Reply>)
    requires Takes(t, s, m, replies)
    requires forall id :: Open(t.mid, id) ==> t.mid.vals[id].action.ExtractIocs? && Clear(t.mid, id)
    requires exists id :: Open(t.mid, id)
    ensures |t.oks| == |t.ready| == 1
    ensures if t.oks[0] then m.extracted else LedgerOf(m) == LedgerOf(s)
  {
    hide Turn.Holds, LedgerOf, FramesOf, Sequential, Clear;
    t.RanIs();
    OneReady(t);
    assert t.ready[0].action == ExtractIocs;
    SingleCall(LedgerOf(s), LedgerOf(m), t.ready, replies, t.oks);
    CompleteExtraction(LedgerOf(s), replies[0]);
    ExtractedIs(m);
  }

  lemma ExtractedIs(s: Snapshot)
    ensures LedgerOf(s).extracted == s.extracted && LedgerOf(s).pending == s.pending.vals.Keys
  {
  }

  /** A wave of one call has the effect of that call. */
  lemma SingleCall(l: Ledger, m: Ledger, ready: seq<Task>, replies: seq<Reply>, oks: seq<bool>)
    requires Effected(l, m, ready, replies, oks) && |ready| == |oks| == 1
    ensures |replies| == 1 && (m, oks[0]) == Complete(l, Fresh(AbstractAction(ready[0].action), replies[0]))
  {
    FrameAt(ready, replies, 0);
    var frames := FramesOf(ready, replies);
    assert frames[1..] == [];
    SequentialCons(l, frames);
    hide Complete, FramesOf;
  }

  lemma ExtractingMid(s: Snapshot, t: Turn)
    requires t.Holds() && t.plan == NextActions(s) && Extracting(LedgerOf(s), t.before)
    ensures forall id :: Open(t.mid, id) ==> t.mid.vals[id].action.ExtractIocs? && Clear(t.mid, id)
    ensures exists id :: Open(t.mid, id)
  {
    hide Turn.Holds, NextActions, Opened, Clear, LedgerOf;
    ExtractionPlan(s);
    var x :| Open(t.before, x);
    t.OldStays(x);
    forall id | Open(t.mid, id) ensures t.mid.vals[id].action.ExtractIocs? && Clear(t.mid, id) {
      if id in t.before.vals {
        t.OldStays(id);
      } else {
        t.NewInMid(id);
      }
    }
  }

  lemma ExtractingTurn(s: Snapshot, m: Snapshot, t: Turn, replies: seq<Reply>)
    requires Takes(t, s, m, replies) && Extracting(LedgerOf(s), t.before)
    ensures Staged(m, t.after, t.wave + 1)
  {
    hide Turn.Holds, NextActions, Opened, Clear, LedgerOf, Effected, Staged;
    ExtractingMid(s, t);
    ExtractionTurn(s, m, t, replies);
  }

  // ---------------------------------------------------------------- collecting

  lemma CollectingFacts(l: Ledger, tasks: Tasks)
    requires Collecting(l, tasks)
    ensures l.extracted && Opened(l)
    ensures forall id :: Open(tasks, id) ==> Useful(l, tasks.vals[id]) && tasks.vals[id].attempts <= 1
    ensures forall id :: Open(tasks, id) && tasks.vals[id].attempts == 1 ==> Clear(tasks, id)
    ensures Together(tasks)
    ensures (exists id :: Open(tasks, id) && tasks.vals[id].action.Detonate?) ==>
      forall a :: a in Waiting(l) ==> HasActive(tasks, Detonate(a))
  {
    hide Opened, Useful, Together, Clear, HasActive;
  }

  /** What a stage of evidence collection looks like once the plan is added. */
  ghost predicate Collected(l: Ledger, tasks: Tasks) {
    && (forall id :: Open(tasks, id) ==> Useful(l, tasks.vals[id]) && tasks.vals[id].attempts <= 1)
    && (forall id :: Open(tasks, id) && tasks.vals[id].attempts == 1 ==> Clear(tasks, id))
    && Together(tasks)
  }

  lemma NewEvidence(s: Snapshot, t: Turn, id: string)
    requires t.Holds() && t.plan == NextActions(s) && Collecting(LedgerOf(s), t.before)
    requires s.pending.vals.Keys != {} || Waiting(LedgerOf(s)) != []
    requires Open(t.mid, id) && id !in t.before.vals
    ensures Useful(LedgerOf(s), t.mid.vals[id]) && t.mid.vals[id].attempts == 0
    ensures t.mid.vals[id].dependsOn == PriorWave(t.before, t.wave + 1)
    ensures t.mid.vals[id].action.Detonate? ==>
      forall other :: Open(t.before, other) ==> !t.before.vals[other].action.Detonate?
  {
    hide Turn.Holds, NextActions, Collecting, Opened, Together, Waiting, PriorWave, Clear;
    CollectingFacts(LedgerOf(s), t.before);
    ExtractedIs(s);
    EvidencePlan(s);
    t.NewTaskIs(id);
    t.NewInMid(id);
    WaitingAre(LedgerOf(s));
    var a := t.mid.vals[id].action;
    assert a in NextActions(s) && !a.HuntEdr?;
    if other :| Open(t.before, other) && t.before.vals[other].action.Detonate? && a.Detonate? {
      assert HasActive(t.before, Detonate(a.attachment));
    }
  }

  lemma EvidenceMid(s: Snapshot, t: Turn)
    requires t.Holds() && t.plan == NextActions(s) && Collecting(LedgerOf(s), t.before)
    requires s.pending.vals.Keys != {} || Waiting(LedgerOf(s)) != []
    ensures Collected(LedgerOf(s), t.mid)
  {
    hide Turn.Holds, NextActions, Collecting, Opened, Waiting, PriorWave, Clear, Useful, LedgerOf;
    CollectingFacts(LedgerOf(s), t.before);
    forall id | Open(t.mid, id)
      ensures Useful(LedgerOf(s), t.mid.vals[id]) && t.mid.vals[id].attempts <= 1
      ensures t.mid.vals[id].attempts == 1 ==> Clear(t.mid, id)
      ensures id in t.before.vals ==> Open(t.before, id) && t.mid.vals[id] == t.before.vals[id]
      ensures id !in t.before.vals ==> t.mid.vals[id].attempts == 0 && t.mid.vals[id].dependsOn == PriorWave(t.before, t.wave + 1)
      ensures id !in t.before.vals && t.mid.vals[id].action.Detonate? ==>
        forall other :: Open(t.before, other) ==> !t.before.vals[other].action.Detonate?
    {
      if id in t.before.vals {
        t.OldStays(id);
      } else {
        NewEvidence(s, t, id);
      }
    }
  }

  lemma EvidenceReady(s: Snapshot, t: Turn)
    requires t.Holds() && Collected(LedgerOf(s), t.mid)
    ensures forall j :: 0 <= j < |t.ready| ==> t.ready[j].action.EnrichIocs? || t.ready[j].action.Detonate?
  {
    hide Turn.Holds, Clear, Together, LedgerOf;
    t.RanIs();
  }

  /** An enrichment that had to wait: no other ran, so what waits still waits. */
  lemma EnrichmentWaited(s: Snapshot, m: Snapshot, t: Turn, replies: seq<Reply>, id: string)
    requires Takes(t, s, m, replies) && Open(t.mid, id) && !Clear(t.mid, id) && t.mid.vals[id].action.EnrichIocs?
    ensures LedgerOf(s).pending <= LedgerOf(m).pending
  {
    hide Turn.Holds, LedgerOf, Effected;
    t.RanIs();
    forall j | 0 <= j < |t.ready| ensures ActionKind(t.ready[j].action) != Enrichment {
      if t.ready[j].action.EnrichIocs? {
        t.OneActive(t.ready[j].id, id);
      }
    }
    assert NoneOf(t.ready, Enrichment);
    RanKeeps(LedgerOf(s), LedgerOf(m), t.ready, replies, t.oks);
  }

  /** Detonations that had to wait: none ran. */
  lemma DetonationWaited(s: Snapshot, m: Snapshot, t: Turn, replies: seq<Reply>, id: string)
    requires Takes(t, s, m, replies) && Together(t.mid)
    requires Open(t.mid, id) && !Clear(t.mid, id) && t.mid.vals[id].action.Detonate?
    ensures LedgerOf(s).detonated == LedgerOf(m).detonated
  {
    hide Turn.Holds, LedgerOf, Effected, Clear;
    t.RanIs();
    forall j | 0 <= j < |t.ready| ensures ActionKind(t.ready[j].action) != Detonation {
      if t.ready[j].action.Detonate? {
        SameClear(t.mid, t.ready[j].id, id);
      }
    }
    assert NoneOf(t.ready, Detonation);
    RanKeeps(LedgerOf(s), LedgerOf(m), t.ready, replies, t.oks);
  }

  /** A wave of enrichments, detonations and hunts leaves the corpus alone. */
  lemma EvidenceKeeps(s: Snapshot, m: Snapshot, t: Turn, replies: seq<Reply>)
    requires Takes(t, s, m, replies) && LedgerOf(s).extracted && Opened(LedgerOf(s))
    requires NoneOf(t.ready, Email) && NoneOf(t.ready, Extraction)
    ensures LedgerOf(m).extracted && Opened(LedgerOf(m))
    ensures LedgerOf(m).emailMsg == LedgerOf(s).emailMsg
    ensures forall a :: a in Waiting(LedgerOf(m)) ==> a in Waiting(LedgerOf(s))
    ensures Waiting(LedgerOf(s)) == [] ==> Waiting(LedgerOf(m)) == []
  {
    hide Turn.Holds, LedgerOf, Effected, Opened, Waiting, NoneOf;
    RanKeeps(LedgerOf(s), LedgerOf(m), t.ready, replies, t.oks);
    RanOnward(LedgerOf(s), LedgerOf(m), t.ready, replies, t.oks);
    FirstShrinks(LedgerOf(s), LedgerOf(m));
    WaitingAre(LedgerOf(s));
    WaitingAre(LedgerOf(m));
    if Waiting(LedgerOf(m)) != [] {
      assert Waiting(LedgerOf(m))[0] in Waiting(LedgerOf(m));
    }
  }

  lemma OpenEvidence(s: Snapshot, m: Snapshot, t: Turn, replies: seq<Reply>, id: string)
    requires Takes(t, s, m, replies) && Collected(LedgerOf(s), t.mid) && Open(t.after, id)
    requires LedgerOf(m).emailMsg == LedgerOf(s).emailMsg
    ensures Open(t.mid, id) && t.after.vals[id].action == t.mid.vals[id].action
    ensures t.after.vals[id].dependsOn == t.mid.vals[id].dependsOn
    ensures Useful(LedgerOf(m), t.after.vals[id]) && t.after.vals[id].attempts <= 1
    ensures t.after.vals[id].attempts == 1 ==> Clear(t.after, id)
    ensures if Clear(t.mid, id) then t.mid.vals[id].attempts == 0 && t.after.vals[id].attempts == 1
            else t.after.vals[id].attempts == t.mid.vals[id].attempts
  {
    hide Turn.Holds, LedgerOf, Effected, Clear, Together, NextActions;
    t.OpenAfter(id);
    if !Clear(t.mid, id) {
      if t.mid.vals[id].action.EnrichIocs? {
        EnrichmentWaited(s, m, t, replies, id);
      } else {
        DetonationWaited(s, m, t, replies, id);
      }
    }
  }

  lemma StillTogether(s: Snapshot, m: Snapshot, t: Turn, replies: seq<Reply>)
    requires Takes(t, s, m, replies) && Collected(LedgerOf(s), t.mid) && LedgerOf(m).emailMsg == LedgerOf(s).emailMsg
    ensures Together(t.after)
  {
    hide Turn.Holds, LedgerOf, Effected, NextActions, Useful, Collected;
    CollectedTogether(LedgerOf(s), t.mid);
    forall a, b | Open(t.after, a) && Open(t.after, b) && t.after.vals[a].action.Detonate? && t.after.vals[b].action.Detonate?
      ensures t.after.vals[a].attempts == t.after.vals[b].attempts && t.after.vals[a].dependsOn == t.after.vals[b].dependsOn
    {
      OpenEvidence(s, m, t, replies, a);
      OpenEvidence(s, m, t, replies, b);
      SameClear(t.mid, a, b);
    }
  }

  lemma CollectedTogether(l: Ledger, tasks: Tasks)
    requires Collected(l, tasks)
    ensures Together(tasks)
  {
  }

  lemma SameClear(tasks: Tasks, a: string, b: string)
    requires a in tasks.vals && b in tasks.vals && tasks.vals[a].dependsOn == tasks.vals[b].dependsOn
    ensures Clear(tasks, a) <==> Clear(tasks, b)
  {
  }

  /** If a detonation is still open, all that is undetonated is. */
  lemma WaitingStillActive(s: Snapshot, m: Snapshot, t: Turn, replies: seq<Reply>, x: string)
    requires Takes(t, s, m, replies) && Collected(LedgerOf(s), t.mid) && LedgerOf(m).emailMsg == LedgerOf(s).emailMsg
    requires LedgerOf(s).extracted && Opened(LedgerOf(s))
    requires forall a :: a in Waiting(LedgerOf(m)) ==> a in Waiting(LedgerOf(s))
    requires Open(t.after, x) && t.after.vals[x].action.Detonate?
    ensures forall a :: a in Waiting(LedgerOf(m)) ==> HasActive(t.after, Detonate(a))
  {
    hide Turn.Holds, LedgerOf, Effected, NextActions, Useful, Collected, Opened, Waiting, Clear;
    ExtractedIs(s);
    EvidencePlan(s);
    WaitingAre(LedgerOf(m));
    CollectedTogether(LedgerOf(s), t.mid);
    OpenEvidence(s, m, t, replies, x);
    forall a | a in Waiting(LedgerOf(m)) ensures HasActive(t.after, Detonate(a)) {
      var id := t.PlannedOpen(Detonate(a));
      SameClear(t.mid, id, x);
      FailedIfMissing(s, m, t, replies, id);
      t.StaysOpen(id);
    }
  }

  lemma EvidenceTurn(s: Snapshot, m: Snapshot, t: Turn, replies: seq<Reply>)
    requires Takes(t, s, m, replies) && Collecting(LedgerOf(s), t.before)
    requires s.pending.vals.Keys != {} || Waiting(LedgerOf(s)) != []
    ensures Collecting(LedgerOf(m), t.after)
  {
    hide Turn.Holds, LedgerOf, Effected, NextActions, Useful, Collected, Opened, Waiting, Clear, Collecting, Together, HasActive;
    CollectingFacts(LedgerOf(s), t.before);
    EvidenceMid(s, t);
    EvidenceReady(s, t);
    assert NoneOf(t.ready, Email) && NoneOf(t.ready, Extraction);
    EvidenceKeeps(s, m, t, replies);
    forall id | Open(t.after, id)
      ensures Useful(LedgerOf(m), t.after.vals[id]) && t.after.vals[id].attempts <= 1
      ensures t.after.vals[id].attempts == 1 ==> Clear(t.after, id)
    {
      OpenEvidence(s, m, t, replies, id);
    }
    StillTogether(s, m, t, replies);
    if x :| Open(t.after, x) && t.after.vals[x].action.Detonate? {
      WaitingStillActive(s, m, t, replies, x);
    }
    BeginCollecting(LedgerOf(m), t.after);
  }

  lemma BeginCollecting(l: Ledger, tasks: Tasks)
    requires l.extracted && Opened(l)
    requires forall id :: Open(tasks, id) ==> Useful(l, tasks.vals[id]) && tasks.vals[id].attempts <= 1
    requires forall id :: Open(tasks, id) && tasks.vals[id].attempts == 1 ==> Clear(tasks, id)
    requires Together(tasks)
    requires (exists id :: Open(tasks, id) && tasks.vals[id].action.Detonate?) ==>
      forall a :: a in Waiting(l) ==> HasActive(tasks, Detonate(a))
    ensures Collecting(l, tasks)
  {
    hide Useful, Clear, Together, HasActive, Opened, Waiting;
  }

  // ---------------------------------------------------------------- hunting

  /** Both dictionaries are in order, and no judgement is dropped or moved. */
  ghost predicate Advances(s: Snapshot, m: Snapshot) {
    s.WellKeyed() && m.WellKeyed() && s.enriched.keys <= m.enriched.keys
  }

  lemma SameKeys(s: Snapshot, m: Snapshot)
    requires Advances(s, m) && LedgerOf(m).judged == LedgerOf(s).judged
    ensures m.enriched.keys == s.enriched.keys
    ensures forall k :: k in s.enriched.vals <==> k in m.enriched.vals
    ensures forall k :: k in s.enriched.vals ==> s.enriched.vals[k].judgement == m.enriched.vals[k].judgement
  {
    var a, b := s.enriched, m.enriched;
    assert a.vals.Keys == Judgements(a.vals).Keys == Judgements(b.vals).Keys == b.vals.Keys;
    forall k | k in a.vals ensures a.vals[k].judgement == b.vals[k].judgement {
      assert Judgements(a.vals)[k] == Judgements(b.vals)[k];
    }
    hide LedgerOf, Judgements;
    PrefixAll(a.keys, b.keys);
  }

  lemma PrefixAll<T>(a: seq<T>, b: seq<T>)
    requires a <= b && Distinct(b) && forall x :: x in b ==> x in a
    ensures a == b
  {
    if |a| < |b| {
      NotEarlier(b, |a|);
      assert false;
    }
  }

  lemma NotEarlier<T>(s: seq<T>, i: nat)
    requires Distinct(s) && i < |s|
    ensures s[i] in s && s[i] !in s[..i]
  {
  }

  lemma SameHunts(s: Snapshot, m: Snapshot)
    requires Advances(s, m) && LedgerOf(m).judged == LedgerOf(s).judged && m.hunted == s.hunted
    ensures HuntBatch(m) == HuntBatch(s)
  {
    SameKeys(s, m);
    hide Judgements, Snapshot.WellKeyed;
    SameFilter(k => k in m.enriched.vals && m.enriched.vals[k].judgement.verdict.Malicious? && k !in m.hunted,
               k => k in s.enriched.vals && s.enriched.vals[k].judgement.verdict.Malicious? && k !in s.hunted,
               s.enriched.keys);
  }

  lemma NoMoreHunts(s: Snapshot, m: Snapshot, a: Planned)
    requires Advances(s, m) && LedgerOf(m).judged == LedgerOf(s).judged && a.HuntEdr? && OnlyHunt(s, a)
    requires m.hunted == s.hunted + KeySet(a.keys) && m.hunted != s.hunted
    ensures HuntBatch(m) == []
  {
    SameKeys(s, m);
    hide Judgements, Snapshot.WellKeyed;
    assert m.hunted != {};
    forall k | k in m.MaliciousUnhunted() ensures k in s.MaliciousUnhunted() && k !in a.keys {
      assert k !in KeySet(a.keys);
    }
    NoElement(m.MaliciousUnhunted());
  }

  /** A hunt, whether or not it had its effect, leaves no other to propose. */
  lemma OnlyHuntKept(s: Snapshot, m: Snapshot, a: Planned)
    requires Advances(s, m) && LedgerOf(m).judged == LedgerOf(s).judged && a.HuntEdr? && OnlyHunt(s, a)
    requires m.hunted in {s.hunted, s.hunted + KeySet(a.keys)}
    ensures OnlyHunt(m, a)
  {
    hide LedgerOf, Advances, HuntBatch, KeySet;
    if m.hunted == s.hunted {
      SameHunts(s, m);
    } else {
      NoMoreHunts(s, m, a);
    }
  }

  lemma {:induction false} SameFilter<T(!new)>(p: T -> bool, q: T -> bool, s: seq<T>)
    requires forall x :: p(x) <==> q(x)
    ensures Filter(p, s) == Filter(q, s)
  {
    if s == [] {
    } else {
      SameFilter(p, q, s[1..]);
    }
  }

  /** With no evidence left to collect only retries are open. */
  lemma OnlyRetries(s: Snapshot, tasks: Tasks)
    requires Collecting(LedgerOf(s), tasks) && s.pending.vals.Keys == {} && Waiting(LedgerOf(s)) == []
    ensures forall id :: Open(tasks, id) ==>
      tasks.vals[id].attempts == 1 && Clear(tasks, id) && (tasks.vals[id].action.EnrichIocs? || tasks.vals[id].action.Detonate?)
  {
    hide Collecting, Waiting, LedgerOf, Opened, Clear, Together, HasActive;
    CollectingFacts(LedgerOf(s), tasks);
    ExtractedIs(s);
    WaitingAre(LedgerOf(s));
  }

  lemma LastMid(s: Snapshot, t: Turn)
    requires t.Holds() && t.plan == NextActions(s) && Collecting(LedgerOf(s), t.before)
    requires s.pending.vals.Keys == {} && Waiting(LedgerOf(s)) == []
    ensures forall id :: Open(t.mid, id) && id in t.before.vals ==>
      t.mid.vals[id].attempts == 1 && Clear(t.mid, id) && (t.mid.vals[id].action.EnrichIocs? || t.mid.vals[id].action.Detonate?)
    ensures forall id :: Open(t.mid, id) && id !in t.before.vals ==>
      HuntBatch(s) == [t.mid.vals[id].action] && t.mid.vals[id].action.HuntEdr? && t.mid.vals[id].wave == t.wave + 1
  {
    hide Turn.Holds, NextActions, Collecting, Waiting, LedgerOf, Opened, Clear, HuntBatch;
    OnlyRetries(s, t.before);
    CollectingFacts(LedgerOf(s), t.before);
    ExtractedIs(s);
    EvidencePlan(s);
    HuntsOnly(s);
    forall id | Open(t.mid, id)
      ensures id in t.before.vals ==>
        t.mid.vals[id].attempts == 1 && Clear(t.mid, id) && (t.mid.vals[id].action.EnrichIocs? || t.mid.vals[id].action.Detonate?)
      ensures id !in t.before.vals ==>
        HuntBatch(s) == [t.mid.vals[id].action] && t.mid.vals[id].action.HuntEdr? && t.mid.vals[id].wave == t.wave + 1
    {
      if id in t.before.vals {
        t.OldStays(id);
      } else {
        t.NewInMid(id);
      }
    }
  }

  /** What a wave of such retries, and perhaps the hunt, holds and does. */
  lemma LastRan(s: Snapshot, m: Snapshot, t: Turn, replies: seq<Reply>)
    requires Takes(t, s, m, replies) && Collecting(LedgerOf(s), t.before)
    requires s.pending.vals.Keys == {} && Waiting(LedgerOf(s)) == []
    ensures forall j :: 0 <= j < |t.ready| ==>
      t.ready[j].action.EnrichIocs? || t.ready[j].action.Detonate? || (t.ready[j].action.HuntEdr? && HuntBatch(s) == [t.ready[j].action])
    ensures LedgerOf(m).judged == LedgerOf(s).judged
    ensures forall a: Planned :: HuntBatch(s) == [a] && a.HuntEdr? ==> m.hunted in {s.hunted, s.hunted + KeySet(a.keys)}
  {
    hide Turn.Holds, NextActions, Collecting, Waiting, LedgerOf, Opened, Clear, HuntBatch, Effected, KeySet, DefaultPriority;
    LastMid(s, t);
    t.RanIs();
    ExtractedIs(s);
    HuntedIs(s);
    HuntedIs(m);
    forall i, j | 0 <= i < j < |t.ready| && t.ready[j].action.EnrichIocs?
      ensures !t.ready[i].action.Detonate? && !t.ready[i].action.ExtractIocs?
    {
      ListedPair(t, i, j);
      EnrichmentsRank(t.ready[i].action, t.ready[j].action);
    }
    RanIdle(LedgerOf(s), LedgerOf(m), t.ready, replies, t.oks);
    forall a: Planned | HuntBatch(s) == [a] && a.HuntEdr? ensures m.hunted in {s.hunted, s.hunted + KeySet(a.keys)} {
      RanHunts(LedgerOf(s), LedgerOf(m), t.ready, replies, t.oks, KeySet(a.keys));
    }
  }

  lemma EnrichmentsRank(a: Planned, b: Planned)
    requires DefaultPriority(a) >= DefaultPriority(b) && b.EnrichIocs?
    ensures !a.Detonate?
  {
  }

  lemma HuntedIs(s: Snapshot)
    ensures LedgerOf(s).hunted == s.hunted
  {
  }

  /** Only the hunt can be open afterwards, and nothing it waits for is. */
  lemma LastOpen(s: Snapshot, t: Turn, h: string)
    requires t.Holds() && t.plan == NextActions(s) && Collecting(LedgerOf(s), t.before)
    requires s.pending.vals.Keys == {} && Waiting(LedgerOf(s)) == [] && Open(t.after, h)
    ensures HuntBatch(s) == [t.after.vals[h].action] && t.after.vals[h].action.HuntEdr? && t.after.vals[h].wave == t.wave + 1
    ensures forall id :: Open(t.after, id) ==> id == h
    ensures Clear(t.after, h)
  {
    hide Turn.Holds, NextActions, Collecting, Waiting, LedgerOf, Opened, Clear, HuntBatch;
    LastMid(s, t);
    forall id | Open(t.after, id)
      ensures Open(t.mid, id) && id !in t.before.vals && HuntBatch(s) == [t.mid.vals[id].action]
      ensures t.after.vals[id].action == t.mid.vals[id].action && t.after.vals[id].wave == t.mid.vals[id].wave
    {
      t.OpenAfter(id);
    }
    forall id | Open(t.after, id) ensures id == h {
      if id != h {
        t.OneActive(id, h);
      }
    }
    t.OpenAfter(h);
    t.NewInMid(h);
    ClearOf(t.after, h);
  }

  lemma LastTurn(s: Snapshot, m: Snapshot, t: Turn, replies: seq<Reply>)
    requires Takes(t, s, m, replies) && Advances(s, m) && Collecting(LedgerOf(s), t.before)
    requires s.pending.vals.Keys == {} && Waiting(LedgerOf(s)) == []
    ensures Staged(m, t.after, t.wave + 1)
  {
    hide Turn.Holds, NextActions, Collecting, Waiting, Opened, Clear, HuntBatch, Effected, KeySet, Advances;
    hide Gathering, Extracting, LedgerOf, OnTheHunt;
    LastRan(s, m, t, replies);
    assert NoneOf(t.ready, Email) && NoneOf(t.ready, Extraction);
    CollectingFacts(LedgerOf(s), t.before);
    EvidenceKeeps(s, m, t, replies);
    if h :| Open(t.after, h) {
      LastOpen(s, t, h);
      OnlyHuntKept(s, m, t.after.vals[h].action);
      ExtractedIs(m);
      BeginHunting(m, t.after, t.wave + 1, h);
    } else {
      NothingOpen(m, t.after, t.wave + 1);
    }
  }

  lemma BeginHunting(s: Snapshot, tasks: Tasks, wave: nat, h: string)
    requires s.extracted && Opened(LedgerOf(s)) && Waiting(LedgerOf(s)) == []
    requires Open(tasks, h) && tasks.vals[h].action.HuntEdr? && Clear(tasks, h) && OnlyHunt(s, tasks.vals[h].action)
    requires (forall id :: Open(tasks, id) ==> id == h) && (s.pending.vals.Keys == {} || tasks.vals[h].wave == wave)
    ensures OnTheHunt(s, tasks, wave)
  {
    hide Opened, Waiting, Clear, OnlyHunt, LedgerOf;
    assert HuntedBy(s, tasks, wave, h);
  }

  // ---------------------------------------------------------------- the hunt's turn

  /** Beside the hunt there is at most an enrichment that waits for it. */
  ghost predicate Beside(s: Snapshot, tasks: Tasks, h: string) {
    && Open(tasks, h) && tasks.vals[h].action.HuntEdr? && Clear(tasks, h) && OnlyHunt(s, tasks.vals[h].action)
    && (forall id :: Open(tasks, id) && id != h ==>
          tasks.vals[id].action.EnrichIocs? && tasks.vals[id].attempts == 0 && h in tasks.vals[id].dependsOn)
    && (s.pending.vals.Keys != {} <==> exists id :: Open(tasks, id) && id != h)
  }

  lemma HuntingFacts(s: Snapshot, tasks: Tasks, wave: nat) returns (h: string)
    requires OnTheHunt(s, tasks, wave)
    ensures s.extracted && Opened(LedgerOf(s)) && Waiting(LedgerOf(s)) == [] && HuntedBy(s, tasks, wave, h)
  {
    hide Opened, Waiting, HuntedBy, LedgerOf;
    h :| HuntedBy(s, tasks, wave, h);
  }

  lemma HuntingPlan(s: Snapshot, tasks: Tasks, wave: nat, h: string)
    requires s.extracted && Opened(LedgerOf(s)) && Waiting(LedgerOf(s)) == [] && HuntedBy(s, tasks, wave, h)
    ensures if s.pending.vals.Keys != {} then NextActions(s) == [EnrichIocs]
            else NextActions(s) == [] || NextActions(s) == [tasks.vals[h].action]
  {
    hide NextActions, Opened, Waiting, LedgerOf, HuntBatch, Clear;
    EvidencePlan(s);
  }

  lemma HuntingMid(s: Snapshot, t: Turn, h: string)
    requires t.Holds() && t.plan == NextActions(s)
    requires s.extracted && Opened(LedgerOf(s)) && Waiting(LedgerOf(s)) == [] && HuntedBy(s, t.before, t.wave, h)
    ensures Beside(s, t.mid, h)
  {
    hide Turn.Holds, NextActions, Waiting, Opened, Clear, OnlyHunt, LedgerOf;
    HuntingPlan(s, t.before, t.wave, h);
    t.OldStays(h);
    forall id | Open(t.mid, id) && id != h
      ensures t.mid.vals[id].action.EnrichIocs? && t.mid.vals[id].attempts == 0 && h in t.mid.vals[id].dependsOn
      ensures s.pending.vals.Keys != {}
    {
      if id in t.before.vals {
        t.OldStays(id);
      } else {
        NewBeside(s, t, h, id);
      }
    }
    if s.pending.vals.Keys != {} {
      var e := t.PlannedOpen(EnrichIocs);
    }
  }

  lemma NewBeside(s: Snapshot, t: Turn, h: string, id: string)
    requires t.Holds() && t.plan == NextActions(s)
    requires s.extracted && Opened(LedgerOf(s)) && Waiting(LedgerOf(s)) == [] && HuntedBy(s, t.before, t.wave, h)
    requires Open(t.mid, id) && id !in t.before.vals
    ensures t.mid.vals[id].action.EnrichIocs? && t.mid.vals[id].attempts == 0 && h in t.mid.vals[id].dependsOn
    ensures s.pending.vals.Keys != {}
  {
    hide Turn.Holds, NextActions, Waiting, Opened, Clear, OnlyHunt, LedgerOf;
    HuntingPlan(s, t.before, t.wave, h);
    t.NewInMid(id);
    assert t.before.vals[h].action != t.mid.vals[id].action;
  }

  /** The hunt runs alone. */
  lemma OnlyHuntReady(s: Snapshot, t: Turn, h: string)
    requires t.Holds() && Beside(s, t.mid, h)
    ensures forall j :: 0 <= j < |t.ready| ==> t.ready[j].action == t.mid.vals[h].action && t.ready[j].action.HuntEdr?
  {
    hide Turn.Holds, OnlyHunt;
    t.RanIs();
    forall j | 0 <= j < |t.ready| ensures t.ready[j].id == h {
      assert Open(t.mid, h) && Clear(t.mid, t.ready[j].id);
    }
  }

  lemma HuntRan(s: Snapshot, m: Snapshot, t: Turn, replies: seq<Reply>, h: string)
    requires Takes(t, s, m, replies) && Beside(s, t.mid, h)
    ensures forall j :: 0 <= j < |t.ready| ==> t.ready[j].action == t.mid.vals[h].action
    ensures LedgerOf(m).judged == LedgerOf(s).judged && m.pending.vals.Keys == s.pending.vals.Keys
    ensures m.hunted in {s.hunted, s.hunted + KeySet(t.mid.vals[h].action.keys)}
  {
    hide Turn.Holds, OnlyHunt, LedgerOf, Effected, NextActions, KeySet, Complete, Clear;
    OnlyHuntReady(s, t, h);
    OneReady(t);
    SingleCall(LedgerOf(s), LedgerOf(m), t.ready, replies, t.oks);
    CompleteHunt(LedgerOf(s), KeySet(t.mid.vals[h].action.keys), replies[0]);
    ExtractedIs(s);
    ExtractedIs(m);
    HuntedIs(s);
    HuntedIs(m);
  }

  lemma AfterHunt(s: Snapshot, t: Turn, h: string)
    requires t.Holds() && Beside(s, t.mid, h)
    ensures forall id :: Open(t.after, id) && id != h ==>
      t.after.vals[id].action.EnrichIocs? && t.after.vals[id].attempts == 0 && h in t.after.vals[id].dependsOn
    ensures s.pending.vals.Keys != {} <==> exists id :: Open(t.after, id) && id != h
    ensures Open(t.after, h) ==> t.after.vals[h].action == t.mid.vals[h].action && Clear(t.after, h)
  {
    hide Turn.Holds, OnlyHunt, LedgerOf;
    forall id | Open(t.mid, id) && id != h ensures !Clear(t.mid, id) && Open(t.after, id) {
      t.StaysOpen(id);
    }
    forall id | Open(t.after, id)
      ensures Open(t.mid, id) && t.after.vals[id].action == t.mid.vals[id].action
      ensures id != h ==> t.after.vals[id] == t.mid.vals[id]
    {
      t.OpenAfter(id);
    }
    if Open(t.after, h) {
      t.OpenAfter(h);
    }
  }

  lemma HuntingTurn(s: Snapshot, m: Snapshot, t: Turn, replies: seq<Reply>)
    requires Takes(t, s, m, replies) && Advances(s, m) && OnTheHunt(s, t.before, t.wave)
    ensures Staged(m, t.after, t.wave + 1)
  {
    hide Turn.Holds, OnlyHunt, LedgerOf, Effected, NextActions, KeySet, Waiting, Opened, Clear, Advances, OnTheHunt, HuntedBy;
    hide Gathering, Extracting, Beside, Collecting;
    var h := HuntingFacts(s, t.before, t.wave);
    HuntingMid(s, t, h);
    HuntRan(s, m, t, replies, h);
    BesideFacts(s, t.mid, h);
    assert NoneOf(t.ready, Email) && NoneOf(t.ready, Extraction);
    ExtractedIs(s);
    ExtractedIs(m);
    EvidenceKeeps(s, m, t, replies);
    AfterHunt(s, t, h);
    if Open(t.after, h) {
      OnlyHuntKept(s, m, t.mid.vals[h].action);
      StayHunting(m, t.after, t.wave + 1, h);
    } else {
      HuntEnded(m, t.after);
    }
  }

  lemma StayHunting(s: Snapshot, tasks: Tasks, wave: nat, h: string)
    requires s.extracted && Opened(LedgerOf(s)) && Waiting(LedgerOf(s)) == []
    requires Open(tasks, h) && tasks.vals[h].action.HuntEdr? && Clear(tasks, h) && OnlyHunt(s, tasks.vals[h].action)
    requires forall id :: Open(tasks, id) && id != h ==>
      tasks.vals[id].action.EnrichIocs? && tasks.vals[id].attempts == 0 && h in tasks.vals[id].dependsOn
    requires s.pending.vals.Keys != {} <==> exists id :: Open(tasks, id) && id != h
    ensures OnTheHunt(s, tasks, wave)
  {
    hide Opened, Waiting, Clear, OnlyHunt, LedgerOf;
    assert HuntedBy(s, tasks, wave, h);
  }

  /** When the hunt has ended, the enrichment behind it is work of its own. */
  lemma HuntEnded(s: Snapshot, tasks: Tasks)
    requires s.extracted && Opened(LedgerOf(s))
    requires forall id :: Open(tasks, id) ==> tasks.vals[id].action.EnrichIocs? && tasks.vals[id].attempts == 0
    requires s.pending.vals.Keys != {} <==> exists id :: Open(tasks, id)
    ensures Collecting(LedgerOf(s), tasks)
  {
    hide Opened, Waiting, Clear;
  }

  lemma BesideFacts(s: Snapshot, tasks: Tasks, h: string)
    requires Beside(s, tasks, h)
    ensures Open(tasks, h) && tasks.vals[h].action.HuntEdr? && Clear(tasks, h) && OnlyHunt(s, tasks.vals[h].action)
  {
    hide Clear, OnlyHunt;
  }

  // ---------------------------------------------------------------- every turn

  /** Whatever the stage, the calls of a wave may be interleaved. */
  lemma StagedApart(s: Snapshot, t: Turn)
    requires t.Holds() && t.plan == NextActions(s) && Staged(s, t.before, t.wave)
    ensures Apart(t.ready)
  {
    hide Turn.Holds, NextActions, LedgerOf, Gathering, Extracting, Collecting, OnTheHunt, Clear, Opened, Waiting, Apart;
    if Gathering(LedgerOf(s), t.before, t.wave) {
      GatheringReady(s, t);
    } else if Extracting(LedgerOf(s), t.before) {
      ExtractingMid(s, t);
      t.RanIs();
    } else if Collecting(LedgerOf(s), t.before) {
      CollectingApart(s, t);
    } else {
      HuntingApart(s, t);
    }
    ApartUnless(t);
  }

  lemma CollectingApart(s: Snapshot, t: Turn)
    requires t.Holds() && t.plan == NextActions(s) && Collecting(LedgerOf(s), t.before)
    ensures forall i, j :: 0 <= i < j < |t.ready| ==> !(t.ready[i].action.HuntEdr? && t.ready[j].action.HuntEdr?)
    ensures forall j :: 0 <= j < |t.ready| ==> !t.ready[j].action.FetchEmail? && !t.ready[j].action.ExtractIocs?
  {
    hide Turn.Holds, NextActions, LedgerOf, Collecting, Clear, Opened, Waiting, HuntBatch, DefaultPriority;
    t.RanIs();
    if s.pending.vals.Keys != {} || Waiting(LedgerOf(s)) != [] {
      EvidenceMid(s, t);
      EvidenceReady(s, t);
    } else {
      LastMid(s, t);
      forall i, j | 0 <= i < j < |t.ready| ensures !(t.ready[i].action.HuntEdr? && t.ready[j].action.HuntEdr?) {
        ListedPair(t, i, j);
      }
    }
  }

  lemma HuntingApart(s: Snapshot, t: Turn)
    requires t.Holds() && t.plan == NextActions(s) && OnTheHunt(s, t.before, t.wave)
    ensures forall i, j :: 0 <= i < j < |t.ready| ==> !(t.ready[i].action.HuntEdr? && t.ready[j].action.HuntEdr?)
    ensures forall j :: 0 <= j < |t.ready| ==> !t.ready[j].action.FetchEmail? && !t.ready[j].action.ExtractIocs?
  {
    hide Turn.Holds, NextActions, LedgerOf, OnTheHunt, HuntedBy, Opened, Waiting, DefaultPriority, OnlyHunt;
    var h := HuntingFacts(s, t.before, t.wave);
    HuntingMid(s, t, h);
    OnlyHuntReady(s, t, h);
    forall i, j | 0 <= i < j < |t.ready| ensures !(t.ready[i].action.HuntEdr? && t.ready[j].action.HuntEdr?) {
      ListedPair(t, i, j);
    }
  }

  /** The invariant: each turn, with the effect of its calls one after another, leads from
      a stage to a stage. */
  lemma StagedTurn(s: Snapshot, m: Snapshot, t: Turn, replies: seq<Reply>)
    requires Takes(t, s, m, replies) && Advances(s, m) && Staged(s, t.before, t.wave)
    ensures Staged(m, t.after, t.wave + 1)
  {
    hide Takes, Advances, LedgerOf, Gathering, Extracting, Collecting, OnTheHunt, Waiting;
    if Gathering(LedgerOf(s), t.before, t.wave) {
      GatheringTurn(s, m, t, replies);
    } else if Extracting(LedgerOf(s), t.before) {
      ExtractingTurn(s, m, t, replies);
    } else if OnTheHunt(s, t.before, t.wave) {
      HuntingTurn(s, m, t, replies);
    } else if s.pending.vals.Keys != {} || Waiting(LedgerOf(s)) != [] {
      EvidenceTurn(s, m, t, replies);
    } else {
      LastTurn(s, m, t, replies);
    }
  }
}
