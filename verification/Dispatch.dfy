/** Inline dispatch: submissions, the in-flight counter, the semaphore and the stored
    status of every investigation. */
module Dispatch {
  datatype Status = Queued | Complete | Failed

  /** Between two steps of the event loop. A submission runs without an await; an accepted
      run has one step that takes the semaphore and one that records its outcome. */
  datatype Dispatcher = Dispatcher(
    inflight: int,
    permits: int,
    waiting: set<string>,
    running: set<string>,
    repo: map<string, Status>)

  datatype Event = Submit(id: string) | Start(id: string) | Finish(id: string, ok: bool)

  function Idle(limit: nat): Dispatcher {
    Dispatcher(0, limit, {}, {}, map[])
  }

  predicate Accepts(d: Dispatcher, limit: nat) {
    d.inflight < limit
  }

  /** Submissions carry a fresh id; a waiting run starts when the semaphore has a permit. */
  predicate Enabled(d: Dispatcher, e: Event) {
    match e
    case Submit(id) => id !in d.repo
    case Start(id) => id in d.waiting && d.permits > 0
    case Finish(id, _) => id in d.running
  }

  function Outcome(ok: bool): Status {
    if ok then Complete else Failed
  }

  function Step(d: Dispatcher, limit: nat, e: Event): Dispatcher {
    match e
    case Submit(id) =>
      var placed := d.(repo := d.repo[id := Queued]);
      if Accepts(d, limit) then placed.(inflight := d.inflight + 1, waiting := d.waiting + {id}) else placed
    case Start(id) =>
      d.(permits := d.permits - 1, waiting := d.waiting - {id}, running := d.running + {id})
    case Finish(id, ok) =>
      d.(repo := d.repo[id := Outcome(ok)], inflight := d.inflight - 1, permits := d.permits + 1,
         running := d.running - {id})
  }

  // ---------------------------------------------------------------- the program

  class InvestigationDispatcher {
    const limit: nat
    var inflight: int
    var permits: int
    var waiting: set<string>
    var running: set<string>
    var repo: map<string, Status>

    constructor (limit: nat)
      ensures this.limit == limit && Value() == Idle(limit)
    {
      this.limit := limit;
      inflight, permits, waiting, running, repo := 0, limit, {}, {}, map[];
    }

    function Value(): Dispatcher
      reads this
    {
      Dispatcher(inflight, permits, waiting, running, repo)
    }

    /** Stores the placeholder, then looks at the capacity. */
    method SubmitInline(id: string) returns (accepted: bool)
      requires Enabled(Value(), Submit(id))
      modifies this
      ensures accepted == Accepts(old(Value()), limit)
      ensures Value() == Step(old(Value()), limit, Submit(id))
      ensures accepted <==> old(inflight) < limit
      ensures repo == old(repo)[id := Queued] && inflight == old(inflight) + if accepted then 1 else 0
    {
      repo := repo[id := Queued];
      if inflight >= limit {
        return false;
      }
      inflight := inflight + 1;
      waiting := waiting + {id};
      accepted := true;
    }

    method Acquire(id: string)
      requires Enabled(Value(), Start(id))
      modifies this
      ensures Value() == Step(old(Value()), limit, Start(id))
    {
      permits := permits - 1;
      waiting, running := waiting - {id}, running + {id};
    }

    /** The run returned (and its package is stored) or raised (and a failed one is). */
    method Record(id: string, ok: bool)
      requires Enabled(Value(), Finish(id, ok))
      modifies this
      ensures Value() == Step(old(Value()), limit, Finish(id, ok))
      ensures repo == old(repo)[id := if ok then Complete else Failed] && inflight == old(inflight) - 1
    {
      repo := repo[id := if ok then Complete else Failed];
      inflight := inflight - 1;
      permits := permits + 1;
      running := running - {id};
    }
  }

  // ---------------------------------------------------------------- runs, from the events alone

  /** What a reader of the event log knows of one submission. */
  datatype Fate = Unknown | Rejected | Accepted | Started | Finished(ok: bool)

  /** Accepted submissions that have not finished: a count over the log. */
  function Load(events: seq<Event>, limit: nat): int {
    if events == [] then 0
    else
      var before := Load(events[..|events| - 1], limit);
      match events[|events| - 1]
      case Submit(_) => if before < limit then before + 1 else before
      case Start(_) => before
      case Finish(_, _) => before - 1
  }

  function FateOf(events: seq<Event>, limit: nat, id: string): Fate {
    if events == [] then Unknown
    else
      var head, last := events[..|events| - 1], events[|events| - 1];
      if last.id != id then FateOf(head, limit, id)
      else
        match last
        case Submit(_) => if Load(head, limit) < limit then Accepted else Rejected
        case Start(_) => Started
        case Finish(_, ok) => Finished(ok)
  }

  ghost predicate Runs(limit: nat, events: seq<Event>)
    decreases |events|, 0
  {
    events == []
    || (Runs(limit, events[..|events| - 1]) && Enabled(Run(limit, events[..|events| - 1]), events[|events| - 1]))
  }

  ghost function Run(limit: nat, events: seq<Event>): Dispatcher
    requires Runs(limit, events)
    decreases |events|, 1
  {
    if events == [] then Idle(limit) else Step(Run(limit, events[..|events| - 1]), limit, events[|events| - 1])
  }

  /** The counters count what they say, and unfinished runs are still marked queued. */
  ghost predicate Inv(d: Dispatcher, limit: nat) {
    && d.waiting !! d.running
    && d.inflight == |d.waiting| + |d.running| <= limit
    && d.permits == limit - |d.running|
    && (forall id :: id in d.waiting || id in d.running ==> id in d.repo && d.repo[id] == Queued)
  }

  lemma StepKeeps(d: Dispatcher, limit: nat, e: Event)
    requires Inv(d, limit) && Enabled(d, e)
    ensures Inv(Step(d, limit, e), limit)
  {
  }

  lemma {:induction false} AlwaysInv(limit: nat, events: seq<Event>)
    requires Runs(limit, events)
    ensures Inv(Run(limit, events), limit)
  {
    if events == [] {
    } else {
      AlwaysInv(limit, events[..|events| - 1]);
      StepKeeps(Run(limit, events[..|events| - 1]), limit, events[|events| - 1]);
    }
  }

  /** In every interleaving, an accepted run finds a permit the moment it asks: the
      capacity check makes the semaphore redundant. */
  lemma SemaphoreNeverBlocks(limit: nat, events: seq<Event>, id: string)
    requires Runs(limit, events) && id in Run(limit, events).waiting
    ensures Enabled(Run(limit, events), Start(id))
  {
    AlwaysInv(limit, events);
    assert |Run(limit, events).waiting| > 0;
  }

  ghost predicate Tells(d: Dispatcher, id: string, fate: Fate) {
    match fate
    case Unknown => id !in d.repo && id !in d.waiting && id !in d.running
    case Rejected => id in d.repo && d.repo[id] == Queued && id !in d.waiting && id !in d.running
    case Accepted => id in d.repo && d.repo[id] == Queued && id in d.waiting && id !in d.running
    case Started => id in d.repo && d.repo[id] == Queued && id !in d.waiting && id in d.running
    case Finished(ok) => id in d.repo && d.repo[id] == (if ok then Complete else Failed) && id !in d.waiting && id !in d.running
  }

  /** In every interleaving the dispatcher's whole state is what the log says: the counter
      is the number of accepted unfinished runs, an accepted id is queued until its run
      finishes and then complete or failed for good. */
  lemma {:induction false} StateTellsTheLog(limit: nat, events: seq<Event>, id: string)
    requires Runs(limit, events)
    ensures Run(limit, events).inflight == Load(events, limit) <= limit
    ensures Tells(Run(limit, events), id, FateOf(events, limit, id))
  {
    AlwaysInv(limit, events);
    if events == [] {
    } else {
      var head, last := events[..|events| - 1], events[|events| - 1];
      StateTellsTheLog(limit, head, id);
      StateTellsTheLog(limit, head, last.id);
      AlwaysInv(limit, head);
      FateStep(limit, Run(limit, head), head, last, id);
    }
  }

  lemma FateStep(limit: nat, d: Dispatcher, head: seq<Event>, last: Event, id: string)
    requires Inv(d, limit) && Enabled(d, last) && d.inflight == Load(head, limit)
    requires Tells(d, id, FateOf(head, limit, id))
    ensures Tells(Step(d, limit, last), id, FateOf(head + [last], limit, id))
  {
    assert (head + [last])[..|head|] == head;
  }

  /** Outcomes are final, and so is a rejection: whatever happens later, the placeholder
      of a rejected submission is still stored as queued, although nothing will run it. */
  lemma {:induction false} FateIsFinal(limit: nat, events: seq<Event>, more: seq<Event>, id: string)
    requires Runs(limit, events + more)
    requires FateOf(events, limit, id) == Rejected || FateOf(events, limit, id).Finished?
    ensures Runs(limit, events)
    ensures FateOf(events + more, limit, id) == FateOf(events, limit, id)
    ensures Tells(Run(limit, events + more), id, FateOf(events, limit, id))
  {
    StateTellsTheLog(limit, events + more, id);
    if more == [] {
      assert events + more == events;
    } else {
      var rest, last := more[..|more| - 1], more[|more| - 1];
      assert (events + more)[..|events + more| - 1] == events + rest;
      FateIsFinal(limit, events, rest, id);
    }
  }

  /** The ids that read as queued are exactly those of unfinished runs and of rejected
      submissions. */
  lemma QueuedMeansUnfinishedOrRejected(limit: nat, events: seq<Event>, id: string)
    requires Runs(limit, events) && id in Run(limit, events).repo
    ensures Run(limit, events).repo[id] == Queued
      <==> FateOf(events, limit, id) in {Rejected, Accepted, Started}
  {
    StateTellsTheLog(limit, events, id);
  }

  /** Without a limit on arrivals the leftovers have no bound: with no capacity free, `n`
      further submissions leave `n` queued placeholders that no run will ever touch. */
  lemma {:induction false} RejectionsPileUp(d: Dispatcher, limit: nat, ids: seq<string>)
    requires d.inflight >= limit
    requires forall i :: 0 <= i < |ids| ==> ids[i] !in d.repo
    requires forall i, j :: 0 <= i < j < |ids| ==> ids[i] != ids[j]
    ensures var after := SubmitAll(d, limit, ids);
      && after.(repo := d.repo) == d
      && (forall id :: id in after.repo <==> id in d.repo || id in ids)
      && (forall i :: 0 <= i < |ids| ==> after.repo[ids[i]] == Queued)
  {
    if ids == [] {
    } else {
      RejectionsPileUp(d, limit, ids[..|ids| - 1]);
    }
  }

  function SubmitAll(d: Dispatcher, limit: nat, ids: seq<string>): Dispatcher {
    if ids == [] then d else Step(SubmitAll(d, limit, ids[..|ids| - 1]), limit, Submit(ids[|ids| - 1]))
  }
}
