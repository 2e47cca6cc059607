/** One turn of the scheduler, seen from the task graph: the plan is added, everything
    that is ready runs once. What is open before and after, and what the calls did. */
module Turns {
  import opened OrderedDict
  import opened State
  import opened Planner
  import opened Tools
  import opened Concurrency
  import opened Effects
  import opened TaskGraphs

  /** A task that has not ended. */
  ghost predicate Open(tasks: Tasks, id: string) {
    id in tasks.vals && !tasks.vals[id].Terminal()
  }

  /** A task none of whose dependencies is open. */
  ghost predicate Clear(tasks: Tasks, id: string) {
    id in tasks.vals && forall d :: d in tasks.vals[id].dependsOn ==> !Open(tasks, d)
  }

  /** `plan` was added to `before` as work of the wave after `wave`. */
  ghost predicate Expanded(before: Tasks, mid: Tasks, counter: nat, plan: seq<Planned>, wave: nat) {
    && GraphInv(before, |before.keys|) && Linked(before) && before.Valid() && GraphInv(mid, counter)
    && Extended(before, mid, plan, PriorWave(before, wave + 1), wave + 1)
    && (forall a :: a in plan ==> HasActive(mid, a))
    && (mid, counter) == Grown(before, |before.keys|, plan, PriorWave(before, wave + 1), wave + 1)
  }

  /** Any plan can be added. */
  lemma GrownExpanded(before: Tasks, n: nat, plan: seq<Planned>, wave: nat) returns (mid: Tasks, counter: nat)
    requires GraphInv(before, n)
    ensures Expanded(before, mid, counter, plan, wave)
    ensures (mid, counter) == Grown(before, n, plan, PriorWave(before, wave + 1), wave + 1)
  {
    hide Grown;
    var grown := Grown(before, n, plan, PriorWave(before, wave + 1), wave + 1);
    mid, counter := grown.0, grown.1;
    GrownKeeps(before, n, plan, PriorWave(before, wave + 1), wave + 1);
  }

  /** Any wave could run in full. */
  lemma WholeWave(mid: Tasks, ready: seq<Task>) returns (after: Tasks, oks: seq<bool>)
    requires Batch(mid, ready)
    ensures WaveRan(mid, after, ready, oks) && forall i :: 0 <= i < |oks| ==> oks[i]
  {
    oks := seq(|ready|, j => true);
    var ids := set j | 0 <= j < |ready| :: ready[j].id;
    after := Dict(mid.keys, map id | id in mid.vals :: if id in ids then AfterRun(mid.vals[id], true) else mid.vals[id]);
    hide AfterRun;
    assert forall j :: 0 <= j < |ready| ==> ready[j].id in ids;
  }

  /** `plan` was added to `before` for the wave after `wave`, and `ready`, all that was
      ready in the graph `mid` then, ran with results `oks`. */
  datatype Turn = Turn(
    before: Tasks,
    mid: Tasks,
    after: Tasks,
    counter: nat,
    plan: seq<Planned>,
    wave: nat,
    ready: seq<Task>,
    oks: seq<bool>)
  {
    ghost predicate Holds() {
      && Expanded(before, mid, counter, plan, wave)
      && ready == ReadyTasks(mid) && WaveRan(mid, after, ready, oks)
    }

    lemma OldStays(id: string)
      requires Holds() && id in before.vals
      ensures id in mid.vals && mid.vals[id] == before.vals[id]
      ensures Open(mid, id) <==> Open(before, id)
      ensures Clear(before, id) <==> Clear(mid, id)
    {
      hide GraphInv, WaveRan, ReadyTasks;
      assert id in before.keys;
      var i :| 0 <= i < |before.keys| && before.keys[i] == id;
      forall d | d in before.vals[id].dependsOn ensures d in before.vals && (Open(mid, d) <==> Open(before, d)) {
        assert d in before.keys[..i];
      }
    }

    lemma OneActive(a: string, b: string)
      requires Holds() && a != b && Open(mid, a) && Open(mid, b)
      ensures mid.vals[a].action != mid.vals[b].action
    {
      OneTaskPerAction(mid, a, b);
    }

    lemma NewTaskIs(id: string)
      requires Holds() && Open(mid, id) && id !in before.vals
      ensures mid.vals[id].action in plan
      ensures mid.vals[id].attempts == 0 && mid.vals[id].wave == wave + 1
      ensures mid.vals[id].dependsOn == PriorWave(before, wave + 1)
    {
      hide GraphInv, WaveRan, ReadyTasks, PriorWave;
    }

    /** A task added by the plan is new work and depends on the wave before. */
    lemma NewInMid(id: string)
      requires Holds() && Open(mid, id) && id !in before.vals
      ensures mid.vals[id].action in plan
      ensures forall other :: Open(before, other) ==> before.vals[other].action != mid.vals[id].action
      ensures mid.vals[id].attempts == 0 && mid.vals[id].wave == wave + 1
      ensures forall d :: d in mid.vals[id].dependsOn <==> d in before.vals && before.vals[d].wave == wave
      ensures Clear(mid, id) <==> forall d :: Open(before, d) ==> before.vals[d].wave != wave
    {
      NewTaskIs(id);
      hide Holds;
      forall other | Open(before, other)
        ensures before.vals[other].action != mid.vals[id].action && Open(mid, other)
      {
        OldStays(other);
        OneActive(other, id);
      }
      forall d | d in before.vals ensures Open(mid, d) <==> Open(before, d) {
        OldStays(d);
      }
    }

    /** What ran is exactly what was open and clear. */
    lemma RanIs()
      requires Holds()
      ensures |oks| == |ready|
      ensures forall j :: 0 <= j < |ready| ==>
        Open(mid, ready[j].id) && Clear(mid, ready[j].id) && mid.vals[ready[j].id] == ready[j]
      ensures forall id :: Open(mid, id) && Clear(mid, id) ==> exists j :: 0 <= j < |ready| && ready[j].id == id
      ensures forall i, j :: 0 <= i < j < |ready| ==> ready[i].id != ready[j].id && TaskLe(ready[i], ready[j])
    {
      InvParts(mid, counter);
      ReadyAre(mid);
      hide GraphInv, ReadyTasks, Extended, HasActive, WaveRan, TaskLe;
      forall j | 0 <= j < |ready|
        ensures Open(mid, ready[j].id) && Clear(mid, ready[j].id) && mid.vals[ready[j].id] == ready[j]
      {
        assert ready[j] in ready;
      }
      forall id | Open(mid, id) && Clear(mid, id) ensures exists j :: 0 <= j < |ready| && ready[j].id == id {
        assert Settled(mid.vals[id]) && mid.vals[id].id == id;
        assert IsReady(mid, mid.vals[id]);
        assert mid.vals[id] in ready;
      }
    }

    lemma Untouched(id: string)
      requires Holds() && id in mid.vals && !(Open(mid, id) && Clear(mid, id))
      ensures id in after.vals && after.vals[id] == mid.vals[id]
    {
      RanIs();
      hide GraphInv, ReadyTasks, Extended, HasActive, TaskLe, Open, Clear;
    }

    lemma RanOnce(id: string) returns (j: nat)
      requires Holds() && Open(mid, id) && Clear(mid, id)
      ensures j < |ready| == |oks| && ready[j].id == id && mid.vals[id] == ready[j]
      ensures id in after.vals && after.vals[id] == AfterRun(mid.vals[id], oks[j])
      ensures mid.vals[id].maxAttempts == MAX_ATTEMPTS
    {
      RanIs();
      InvParts(mid, counter);
      assert Settled(mid.vals[id]);
      hide GraphInv, ReadyTasks, Extended, HasActive, TaskLe, Open, Clear, AfterRun, Settled;
      j :| 0 <= j < |ready| && ready[j].id == id;
    }

    lemma EndedStays(id: string)
      requires Holds() && !Open(mid, id)
      ensures !Open(after, id)
    {
      if id in mid.vals {
        Untouched(id);
      }
      hide GraphInv, ReadyTasks, Extended, HasActive;
    }

    lemma StillClear(id: string)
      requires Holds() && Clear(mid, id) && id in after.vals && after.vals[id].dependsOn == mid.vals[id].dependsOn
      ensures Clear(after, id)
    {
      hide Holds;
      forall d | d in after.vals[id].dependsOn ensures !Open(after, d) {
        EndedStays(d);
      }
    }

    /** What is open afterwards was open before it: untouched if it had to wait, and
        otherwise failed at its first attempt. */
    lemma OpenAfter(id: string)
      requires Holds() && Open(after, id)
      ensures Open(mid, id)
      ensures after.vals[id].action == mid.vals[id].action && after.vals[id].wave == mid.vals[id].wave
      ensures after.vals[id].dependsOn == mid.vals[id].dependsOn
      ensures if Clear(mid, id) then mid.vals[id].attempts == 0 && after.vals[id].attempts == 1 && Clear(after, id)
              else after.vals[id] == mid.vals[id]
      ensures Clear(mid, id) ==> exists j :: 0 <= j < |ready| == |oks| && ready[j].id == id && !oks[j]
    {
      if !Open(mid, id) {
        EndedStays(id);
      }
      hide Holds, Clear;
      if Clear(mid, id) {
        var j := RanOnce(id);
        StillClear(id);
      } else {
        Untouched(id);
      }
    }

    /** A task that had to wait is still open; so is one that failed its first attempt. */
    lemma StaysOpen(id: string)
      requires Holds() && Open(mid, id)
      requires Clear(mid, id) ==>
        mid.vals[id].attempts == 0 && forall j :: 0 <= j < |ready| == |oks| && ready[j].id == id ==> !oks[j]
      ensures Open(after, id) && after.vals[id].action == mid.vals[id].action
    {
      hide Holds;
      if Clear(mid, id) {
        var j := RanOnce(id);
      } else {
        Untouched(id);
      }
    }

    /** Planned work is open. */
    lemma PlannedOpen(a: Planned) returns (id: string)
      requires Holds() && a in plan
      ensures Open(mid, id) && mid.vals[id].action == a
    {
      id :| id in mid.vals && mid.vals[id].action == a && !mid.vals[id].Terminal();
    }
  }

  /** Whatever was planned can be run. */
  lemma WholeTurn(before: Tasks, mid: Tasks, counter: nat, plan: seq<Planned>, wave: nat) returns (t: Turn)
    requires Expanded(before, mid, counter, plan, wave)
    ensures t.Holds() && (t.before, t.mid, t.counter, t.plan, t.wave) == (before, mid, counter, plan, wave)
    ensures forall i :: 0 <= i < |t.oks| ==> t.oks[i]
    ensures GraphInv(t.after, counter)
  {
    hide ReadyTasks, WaveRan, Batch, GraphInv, Extended, HasActive, Grown;
    InvParts(mid, counter);
    var ready := ReadyTasks(mid);
    ReadyBatch(mid, counter, ready);
    var after, oks := WholeWave(mid, ready);
    WaveKeeps(mid, after, ready, oks, counter);
    t := Turn(before, mid, after, counter, plan, wave, ready, oks);
  }

  // ---------------------------------------------------------------- what the calls did

  function ActionKind<K>(a: Action<K>): Kind {
    match a
    case RunDetections => Detection
    case FetchEmail => Email
    case ExtractIocs => Extraction
    case EnrichIocs => Enrichment
    case Detonate(_) => Detonation
    case HuntEdr(_) => Hunt
  }

  function FramesOf(ready: seq<Task>, replies: seq<Reply>): (frames: seq<LedgerFrame>)
    requires |replies| == |ready|
    ensures |frames| == |ready|
  {
    Launch(AbstractActions(ActionsOf(ready)), replies)
  }

  lemma FrameAt(ready: seq<Task>, replies: seq<Reply>, j: nat)
    requires |replies| == |ready| && j < |ready|
    ensures FramesOf(ready, replies)[j] == Fresh(AbstractAction(ready[j].action), replies[j])
    ensures KindOf(FramesOf(ready, replies)[j]) == ActionKind(ready[j].action)
  {
    AbstractAt(ready, j);
  }

  lemma FramesFresh(ready: seq<Task>, replies: seq<Reply>)
    requires |replies| == |ready|
    ensures AllFresh(FramesOf(ready, replies))
  {
    forall j | 0 <= j < |ready| ensures FramesOf(ready, replies)[j].Fresh? {
      FrameAt(ready, replies, j);
    }
  }

  predicate NoneOf(ready: seq<Task>, kind: Kind) {
    forall j :: 0 <= j < |ready| ==> ActionKind(ready[j].action) != kind
  }

  lemma FramesWithout(ready: seq<Task>, replies: seq<Reply>, kind: Kind)
    requires |replies| == |ready| && NoneOf(ready, kind)
    ensures Without(FramesOf(ready, replies), kind)
  {
    hide ActionKind, FramesOf;
    forall j | 0 <= j < |ready| ensures KindOf(FramesOf(ready, replies)[j]) != kind {
      FrameAt(ready, replies, j);
    }
  }

  /** The wave's effect: that of its calls one after another. */
  ghost predicate Effected(l: Ledger, m: Ledger, ready: seq<Task>, replies: seq<Reply>, oks: seq<bool>) {
    |replies| == |ready| && (m, oks) == Sequential(l, FramesOf(ready, replies))
  }

  lemma RanOnward(l: Ledger, m: Ledger, ready: seq<Task>, replies: seq<Reply>, oks: seq<bool>)
    requires Effected(l, m, ready, replies, oks)
    ensures Onward(l, m)
  {
    FramesFresh(ready, replies);
    BatchOnward(l, FramesOf(ready, replies));
  }

  lemma RanLands(l: Ledger, m: Ledger, ready: seq<Task>, replies: seq<Reply>, oks: seq<bool>, j: nat)
    requires Effected(l, m, ready, replies, oks) && j < |ready| == |oks| && oks[j]
    ensures Landed(m, AbstractAction(ready[j].action))
  {
    FramesFresh(ready, replies);
    FrameAt(ready, replies, j);
    BatchLands(l, FramesOf(ready, replies), j);
  }

  /** What stays as it was when no call of a kind ran. */
  lemma RanKeeps(l: Ledger, m: Ledger, ready: seq<Task>, replies: seq<Reply>, oks: seq<bool>)
    requires Effected(l, m, ready, replies, oks)
    ensures NoneOf(ready, Email) && NoneOf(ready, Extraction) ==>
      (m.extracted, m.emailMsg, m.emailChecked) == (l.extracted, l.emailMsg, l.emailChecked)
    ensures NoneOf(ready, Extraction) ==> m.extracted ==> l.extracted
    ensures NoneOf(ready, Detonation) ==> m.detonated == l.detonated
    ensures NoneOf(ready, Enrichment) ==> m.judged == l.judged && l.pending <= m.pending
  {
    FramesFresh(ready, replies);
    var frames := FramesOf(ready, replies);
    hide FramesOf, NoneOf, AllFresh, Without, Sequential;
    if NoneOf(ready, Extraction) {
      FramesWithout(ready, replies, Extraction);
      BatchExtracted(l, frames);
      if NoneOf(ready, Email) {
        FramesWithout(ready, replies, Email);
        BatchKeepsEmail(l, frames);
      }
    }
    if NoneOf(ready, Detonation) {
      FramesWithout(ready, replies, Detonation);
      BatchDetonated(l, frames);
    }
    if NoneOf(ready, Enrichment) {
      FramesWithout(ready, replies, Enrichment);
      BatchJudged(l, frames);
    }
  }

  lemma RanHunts(l: Ledger, m: Ledger, ready: seq<Task>, replies: seq<Reply>, oks: seq<bool>, keys: set<string>)
    requires Effected(l, m, ready, replies, oks)
    requires forall j :: 0 <= j < |ready| && ready[j].action.HuntEdr? ==> KeySet(ready[j].action.keys) == keys
    ensures m.hunted in {l.hunted, l.hunted + keys}
  {
    FramesFresh(ready, replies);
    var frames := FramesOf(ready, replies);
    hide FramesOf, Sequential, KeySet;
    forall i | 0 <= i < |frames| && frames[i].action.HuntEdr? ensures frames[i].action.keys == keys {
      FrameAt(ready, replies, i);
    }
    BatchHunted(l, frames, keys);
  }

  /** An enrichment with nothing waiting, started before anything finds more, judges nothing. */
  lemma RanIdle(l: Ledger, m: Ledger, ready: seq<Task>, replies: seq<Reply>, oks: seq<bool>)
    requires Effected(l, m, ready, replies, oks) && l.pending == {}
    requires forall i, j :: 0 <= i < j < |ready| && ready[j].action.EnrichIocs? ==>
      !ready[i].action.Detonate? && !ready[i].action.ExtractIocs?
    ensures m.judged == l.judged
  {
    FramesFresh(ready, replies);
    var frames := FramesOf(ready, replies);
    hide FramesOf, Sequential, AbstractAction;
    forall i, j | 0 <= i < j < |frames| && KindOf(frames[j]).Enrichment?
      ensures !KindOf(frames[i]).Detonation? && !KindOf(frames[i]).Extraction?
    {
      FrameAt(ready, replies, i);
      FrameAt(ready, replies, j);
    }
    IdleBatch(l, frames);
  }
}
