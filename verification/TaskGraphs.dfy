/** The task graph: what work exists, what may run, how far it got. */
module TaskGraphs {
  import opened Options
  import opened Sorting
  import opened OrderedDict
  import opened Planner

  datatype Status = Pending | Running | Done | Failed | Skipped

  datatype Task = Task(
    id: string,
    action: Planned,
    priority: int,
    dependsOn: set<string>,
    status: Status,
    attempts: nat,
    maxAttempts: nat,
    wave: nat,
    ok: bool)
  {
    predicate Terminal() { status.Done? || status.Failed? || status.Skipped? }
  }

  const MAX_ATTEMPTS: nat := 2

  function DefaultPriority(a: Planned): int {
    match a
    case RunDetections => 90
    case FetchEmail => 90
    case ExtractIocs => 80
    case EnrichIocs => 70
    case Detonate(_) => 60
    case HuntEdr(_) => 50
  }

  function NewTask(a: Planned, dependsOn: set<string>, wave: nat): Task {
    Task("", a, DefaultPriority(a), dependsOn, Pending, 0, MAX_ATTEMPTS, wave, true)
  }

  type Tasks = Dict<string, Task>

  // ---------------------------------------------------------------- identifiers

  function Decimal(n: nat): string {
    if n < 10 then ["0123456789"[n]] else Decimal(n / 10) + ["0123456789"[n % 10]]
  }

  function IdOf(n: nat): string { "t" + Decimal(n) }

  lemma DecimalInjective(m: nat, n: nat)
    requires Decimal(m) == Decimal(n)
    ensures m == n
  {
    var a, b := Decimal(m), Decimal(n);
    assert a[|a| - 1] == "0123456789"[m % 10] && b[|b| - 1] == "0123456789"[n % 10];
    assert m % 10 == n % 10;
    DecimalLength(m);
    DecimalLength(n);
    if m < 10 {
    } else {
      assert |a| >= 2;
      assert n >= 10;
      assert a[..|a| - 1] == Decimal(m / 10) && b[..|b| - 1] == Decimal(n / 10);
      DecimalInjective(m / 10, n / 10);
    }
  }

  lemma DecimalLength(n: nat)
    ensures |Decimal(n)| >= 1 && (n >= 10 <==> |Decimal(n)| >= 2)
  {}

  lemma IdsDiffer(m: nat, n: nat)
    requires m != n
    ensures IdOf(m) != IdOf(n)
  {
    if IdOf(m) == IdOf(n) {
      assert IdOf(m)[1..] == Decimal(m) && IdOf(n)[1..] == Decimal(n);
      DecimalInjective(m, n);
    }
  }

  // ---------------------------------------------------------------- invariants

  /** Tasks are numbered in the order they were added. */
  ghost predicate Identified(tasks: Tasks, counter: nat) {
    && tasks.Valid() && |tasks.keys| == counter
    && (forall i :: 0 <= i < counter ==> tasks.keys[i] == IdOf(i + 1))
    && (forall id :: id in tasks.vals ==> tasks.vals[id].id == id)
  }

  /** Every dependency was added earlier and belongs to a smaller wave, so the
      graph has no cycle. */
  ghost predicate Linked(tasks: Tasks) {
    forall i, d :: 0 <= i < |tasks.keys| && tasks.keys[i] in tasks.vals && d in tasks.vals[tasks.keys[i]].dependsOn ==>
      d in tasks.keys[..i] && d in tasks.vals && tasks.vals[d].wave < tasks.vals[tasks.keys[i]].wave
  }

  /** No two tasks of the same tool and parameters are waiting or running. */
  ghost predicate Exclusive(tasks: Tasks) {
    forall a, b :: (a in tasks.vals && b in tasks.vals && tasks.vals[a].action == tasks.vals[b].action
                    && !tasks.vals[a].Terminal() && !tasks.vals[b].Terminal()) ==> a == b
  }

  /** Between waves: nothing runs, waiting tasks have attempts left, and a task has
      failed only by using all of them up. Its priority is its tool's. */
  predicate Settled(t: Task) {
    && t.maxAttempts == MAX_ATTEMPTS && t.attempts <= t.maxAttempts && t.priority == DefaultPriority(t.action)
    && !t.status.Running? && !t.status.Skipped?
    && (t.status.Pending? ==> t.attempts < t.maxAttempts)
    && (t.status.Failed? ==> t.attempts == t.maxAttempts)
    && (t.status.Done? ==> t.attempts > 0)
  }

  ghost predicate AllSettled(tasks: Tasks) {
    forall id :: id in tasks.vals ==> Settled(tasks.vals[id])
  }

  ghost predicate GraphInv(tasks: Tasks, counter: nat) {
    Identified(tasks, counter) && Linked(tasks) && Exclusive(tasks) && AllSettled(tasks)
  }

  ghost predicate AllTerminal(tasks: Tasks) {
    forall id :: id in tasks.vals ==> tasks.vals[id].Terminal()
  }

  function SumAttempts(keys: seq<string>, vals: map<string, Task>): nat {
    if keys == [] then 0
    else SumAttempts(keys[..|keys| - 1], vals) +
         var k := keys[|keys| - 1]; if k in vals then vals[k].attempts else 0
  }

  lemma {:induction false} SumAttemptsPut(keys: seq<string>, vals: map<string, Task>, k: string, t: Task)
    requires Distinct(keys) && k in vals
    ensures SumAttempts(keys, vals[k := t])
         == SumAttempts(keys, vals) + (if k in keys then t.attempts - vals[k].attempts else 0)
  {
    if keys == [] {
    } else {
      var n := |keys| - 1;
      SumAttemptsPut(keys[..n], vals, k, t);
      assert k in keys <==> k in keys[..n] || k == keys[n];
    }
  }

  lemma {:induction false} SumAttemptsFrame(keys: seq<string>, vals: map<string, Task>, k: string, t: Task)
    requires k !in keys
    ensures SumAttempts(keys, vals[k := t]) == SumAttempts(keys, vals)
  {
    if keys == [] {
    } else {
      SumAttemptsFrame(keys[..|keys| - 1], vals, k, t);
    }
  }

  // ---------------------------------------------------------------- readiness

  predicate IsReady(tasks: Tasks, t: Task) {
    t.status.Pending? && forall d :: d in t.dependsOn && d in tasks.vals ==> tasks.vals[d].Terminal()
  }

  /** Highest priority first, then the earlier wave, then the identifier, which is
      compared as a string. */
  predicate TaskLe(a: Task, b: Task) {
    || a.priority > b.priority
    || (a.priority == b.priority && (a.wave < b.wave || (a.wave == b.wave && StringLe(a.id, b.id))))
  }

  lemma TaskOrder()
    ensures TotalPreorder(TaskLe)
  {
    StringOrder();
    forall a, b ensures TaskLe(a, b) || TaskLe(b, a) {
      StringLeTotal(a.id, b.id);
    }
    forall a, b, c | TaskLe(a, b) && TaskLe(b, c) ensures TaskLe(a, c) {
      if a.priority == b.priority == c.priority && a.wave == b.wave == c.wave {
        StringLeTransitive(a.id, b.id, c.id);
      }
    }
  }

  function ReadyTasks(tasks: Tasks): seq<Task>
    requires tasks.Valid()
  {
    Sort(TaskLe, Filter(t => IsReady(tasks, t), tasks.Values()))
  }

  lemma ReadyAre(tasks: Tasks)
    requires tasks.Valid() && forall id :: id in tasks.vals ==> tasks.vals[id].id == id
    ensures forall t :: t in ReadyTasks(tasks) <==> t.id in tasks.vals && tasks.vals[t.id] == t && IsReady(tasks, t)
    ensures Sorted(TaskLe, ReadyTasks(tasks))
    ensures forall i, j :: 0 <= i < j < |ReadyTasks(tasks)| ==> ReadyTasks(tasks)[i].id != ReadyTasks(tasks)[j].id
  {
    var vs := tasks.Values();
    var listed := Filter(t => IsReady(tasks, t), vs);
    TaskOrder();
    SortCorrect(TaskLe, listed);
    assert Distinct(vs) by {
      forall i, j | 0 <= i < j < |vs| ensures vs[i] != vs[j] {
        assert vs[i].id == tasks.keys[i] && vs[j].id == tasks.keys[j];
      }
    }
    FilterDistinct(t => IsReady(tasks, t), vs);
    SortKeepsDistinct(TaskLe, listed);
    forall t ensures t in vs <==> t.id in tasks.vals && tasks.vals[t.id] == t {
      if t in vs {
        var i :| 0 <= i < |vs| && vs[i] == t;
        assert tasks.keys[i] in tasks.vals;
      }
      if t.id in tasks.vals && tasks.vals[t.id] == t {
        var i :| 0 <= i < |tasks.keys| && tasks.keys[i] == t.id;
        assert vs[i] == t;
      }
    }
    var r := ReadyTasks(tasks);
    forall i, j | 0 <= i < j < |r| ensures r[i].id != r[j].id {
      assert r[i] in r && r[j] in r;
    }
  }

  /** A task is ready exactly when it is pending and everything it depends on, as far as the
      graph has it, is done, failed or skipped. */
  lemma ReadyWhen(tasks: Tasks, t: Task)
    requires tasks.Valid() && forall id :: id in tasks.vals ==> tasks.vals[id].id == id
    ensures t in ReadyTasks(tasks) <==>
      && t.id in tasks.vals && tasks.vals[t.id] == t && t.status == Pending
      && forall d :: d in t.dependsOn && d in tasks.vals ==>
           tasks.vals[d].status == Done || tasks.vals[d].status == Failed || tasks.vals[d].status == Skipped
  {
    ReadyAre(tasks);
    hide ReadyTasks;
  }

  /** The scheduler cannot deadlock: while a task is unfinished some task is ready,
      whatever failed before it. */
  lemma {:induction false} SomeTaskReady(tasks: Tasks, counter: nat, i: nat)
    requires GraphInv(tasks, counter) && i < counter && !tasks.vals[tasks.keys[i]].Terminal()
    ensures exists t :: t in ReadyTasks(tasks)
    decreases tasks.vals[tasks.keys[i]].wave
  {
    var id := tasks.keys[i];
    var t := tasks.vals[id];
    if d :| d in t.dependsOn && d in tasks.vals && !tasks.vals[d].Terminal() {
      var j :| 0 <= j < i && tasks.keys[j] == d;
      SomeTaskReady(tasks, counter, j);
    } else {
      assert Settled(t) && IsReady(tasks, t);
      ReadyAre(tasks);
      assert t in ReadyTasks(tasks);
    }
  }

  /** Nothing ready means everything finished. */
  lemma NoDeadlock(tasks: Tasks, counter: nat)
    requires GraphInv(tasks, counter)
    ensures ReadyTasks(tasks) == [] <==> AllTerminal(tasks)
  {
    ReadyAre(tasks);
    if id :| id in tasks.vals && !tasks.vals[id].Terminal() {
      var i :| 0 <= i < |tasks.keys| && tasks.keys[i] == id;
      SomeTaskReady(tasks, counter, i);
    }
    if ReadyTasks(tasks) != [] {
      var t := ReadyTasks(tasks)[0];
      assert t in ReadyTasks(tasks);
    }
  }

  // ---------------------------------------------------------------- adding work

  ghost predicate HasActive(tasks: Tasks, a: Planned) {
    exists id :: id in tasks.vals && tasks.vals[id].action == a && !tasks.vals[id].Terminal()
  }

  /** A task may depend on tasks that are in the graph, all of smaller waves. */
  ghost predicate DependsOnEarlier(tasks: Tasks, deps: set<string>, wave: nat) {
    forall d :: d in deps ==> d in tasks.vals && tasks.vals[d].wave < wave
  }

  /** The graph and its counter with one proposed action added, unless it is tracked. */
  ghost function AddedOne(tasks: Tasks, counter: nat, a: Planned, deps: set<string>, wave: nat): (Tasks, nat) {
    if HasActive(tasks, a) then (tasks, counter)
    else (tasks.Put(IdOf(counter + 1), NewTask(a, deps, wave).(id := IdOf(counter + 1))), counter + 1)
  }

  /** The graph and its counter with the actions added one after another. */
  ghost function Grown(tasks: Tasks, counter: nat, actions: seq<Planned>, deps: set<string>, wave: nat): (Tasks, nat) {
    if actions == [] then (tasks, counter)
    else
      var (before, n) := Grown(tasks, counter, actions[..|actions| - 1], deps, wave);
      AddedOne(before, n, actions[|actions| - 1], deps, wave)
  }

  lemma GrownNext(tasks: Tasks, counter: nat, actions: seq<Planned>, deps: set<string>, wave: nat)
    ensures Grown(tasks, counter, actions[..0], deps, wave) == (tasks, counter) && actions[..|actions|] == actions
    ensures forall i :: 0 <= i < |actions| ==>
      var (before, n) := Grown(tasks, counter, actions[..i], deps, wave);
      Grown(tasks, counter, actions[..i + 1], deps, wave) == AddedOne(before, n, actions[i], deps, wave)
  {
    hide AddedOne;
    forall i | 0 <= i < |actions| ensures actions[..i + 1][..i] == actions[..i] {}
  }

  lemma GrownTracked(tasks: Tasks, counter: nat, a: Planned, deps: set<string>, wave: nat)
    ensures HasActive(tasks, a) ==> AddedOne(tasks, counter, a, deps, wave) == (tasks, counter)
  {
  }

  lemma FreshId(tasks: Tasks, counter: nat)
    requires Identified(tasks, counter)
    ensures IdOf(counter + 1) !in tasks.vals
  {
    if IdOf(counter + 1) in tasks.vals {
      var i :| 0 <= i < counter && tasks.keys[i] == IdOf(counter + 1);
      IdsDiffer(i + 1, counter + 1);
    }
  }

  lemma AddLinked(tasks: Tasks, id: string, t: Task)
    requires tasks.Valid() && Linked(tasks) && id !in tasks.vals && DependsOnEarlier(tasks, t.dependsOn, t.wave)
    ensures Linked(tasks.Put(id, t))
  {
    var after := tasks.Put(id, t);
    assert after.keys == tasks.keys + [id] && after.vals == tasks.vals[id := t];
    forall i, d | 0 <= i < |after.keys| && after.keys[i] in after.vals && d in after.vals[after.keys[i]].dependsOn
      ensures d in after.keys[..i] && d in after.vals && after.vals[d].wave < after.vals[after.keys[i]].wave
    {
      if i < |tasks.keys| {
        assert after.keys[i] == tasks.keys[i] && tasks.keys[i] in tasks.vals;
        assert d in tasks.keys[..i] && after.keys[..i] == tasks.keys[..i];
      } else {
        assert d in tasks.vals && after.keys[..i] == tasks.keys;
      }
    }
  }

  lemma AddExclusive(tasks: Tasks, id: string, t: Task)
    requires Exclusive(tasks) && !HasActive(tasks, t.action)
    ensures Exclusive(tasks.Put(id, t))
  {}

  lemma AddSettled(tasks: Tasks, id: string, t: Task)
    requires AllSettled(tasks) && Settled(t)
    ensures AllSettled(tasks.Put(id, t))
  {
    hide Settled;
  }

  lemma AddIdentified(tasks: Tasks, counter: nat, t: Task)
    requires Identified(tasks, counter) && t.id == IdOf(counter + 1)
    ensures Identified(tasks.Put(t.id, t), counter + 1) && t.id !in tasks.vals
  {
    FreshId(tasks, counter);
    hide IdOf;
    tasks.PutValid(t.id, t);
    var after := tasks.Put(t.id, t);
    assert after.keys == tasks.keys + [t.id] && after.vals == tasks.vals[t.id := t];
    assert after.Valid();
    hide Dict.Valid, Dict.Put, Distinct;
  }

  lemma AddKeeps(tasks: Tasks, counter: nat, a: Planned, deps: set<string>, wave: nat)
    requires GraphInv(tasks, counter) && !HasActive(tasks, a) && DependsOnEarlier(tasks, deps, wave)
    ensures var id := IdOf(counter + 1);
      && GraphInv(tasks.Put(id, NewTask(a, deps, wave).(id := id)), counter + 1)
      && id !in tasks.vals
  {
    var t := NewTask(a, deps, wave).(id := IdOf(counter + 1));
    assert tasks.Valid() && Settled(t) && t.action == a && t.dependsOn == deps && t.wave == wave;
    hide Identified, Linked, Exclusive, AllSettled, HasActive, DependsOnEarlier, IdOf, NewTask, Dict.Valid, Settled;
    AddIdentified(tasks, counter, t);
    AddLinked(tasks, t.id, t);
    AddExclusive(tasks, t.id, t);
    AddSettled(tasks, t.id, t);
  }

  /** `after` is `before` with waiting tasks for some of `actions` appended. */
  ghost predicate Extended(before: Tasks, after: Tasks, actions: seq<Planned>, deps: set<string>, wave: nat) {
    && before.keys <= after.keys
    && (forall id :: id in before.vals ==> id in after.vals && after.vals[id] == before.vals[id])
    && (forall id :: id in after.vals && id !in before.vals ==>
          after.vals[id].action in actions && after.vals[id] == NewTask(after.vals[id].action, deps, wave).(id := id))
  }

  /** Which tool a task waits for: the evidence sources before the extraction, and hunts last. */
  function Urgency(a: Planned): nat {
    match a
    case RunDetections => 0
    case FetchEmail => 0
    case ExtractIocs => 1
    case EnrichIocs => 2
    case Detonate(_) => 3
    case HuntEdr(_) => 4
  }

  lemma UrgencyOrder(a: Task, b: Task)
    requires a.priority == DefaultPriority(a.action) && b.priority == DefaultPriority(b.action) && TaskLe(a, b)
    ensures Urgency(a.action) < Urgency(b.action) || (Urgency(a.action) == Urgency(b.action) && a.wave <= b.wave)
  {
    hide StringLe;
  }

  lemma PriorityOf(tasks: Tasks, t: Task)
    requires AllSettled(tasks) && t.id in tasks.vals && tasks.vals[t.id] == t
    ensures t.priority == DefaultPriority(t.action)
  {
    hide DefaultPriority;
  }

  /** Of two ready tasks the more urgent tool's comes first, then the one of the earlier wave. */
  lemma ReadyByUrgency(tasks: Tasks, counter: nat, i: nat, j: nat)
    requires GraphInv(tasks, counter) && i < j < |ReadyTasks(tasks)|
    ensures var a, b := ReadyTasks(tasks)[i], ReadyTasks(tasks)[j];
      Urgency(a.action) < Urgency(b.action) || (Urgency(a.action) == Urgency(b.action) && a.wave <= b.wave)
  {
    hide TaskLe, ReadyTasks, IsReady, Linked, Exclusive, AllSettled, Settled, Dict.Valid, IdOf, Urgency, DefaultPriority;
    ReadyAre(tasks);
    var a, b := ReadyTasks(tasks)[i], ReadyTasks(tasks)[j];
    assert a in ReadyTasks(tasks) && b in ReadyTasks(tasks);
    PriorityOf(tasks, a);
    PriorityOf(tasks, b);
    UrgencyOrder(a, b);
  }

  /** A new task is run again after its first failure and given up after its second. */
  lemma TriedTwice(a: Planned, deps: set<string>, wave: nat, id: string, ok: bool)
    ensures var t := NewTask(a, deps, wave).(id := id);
      && t.status.Pending? && t.attempts == 0 && t.dependsOn == deps && t.wave == wave && t.action == a
      && AfterRun(t, true).status.Done? && AfterRun(t, false).status.Pending?
      && var retried := AfterRun(AfterRun(t, false), ok);
      && retried.status == (if ok then Done else Failed) && retried.ok == ok && retried.attempts == 2
      && retried.dependsOn == deps && retried.wave == wave && retried.action == a && retried.id == id
  {
  }

  /** The status a task gets from the result of its run. */
  function Settle(t: Task, ok: bool): Task {
    t.(ok := ok, status := if ok then Done else if t.attempts < t.maxAttempts then Pending else Failed)
  }

  lemma SettleIs(t: Task, ok: bool)
    ensures Settle(Started(t), ok) == AfterRun(t, ok) && AfterRun(t, ok).attempts == Started(t).attempts
  {}

  lemma BatchStarted(before: Tasks, started: Tasks, ready: seq<Task>)
    requires Batch(before, ready) && WaveStarted(before, started, ready)
    ensures forall j :: 0 <= j < |ready| ==> ready[j].id in started.vals && started.vals[ready[j].id] == Started(ready[j])
    ensures forall i, j :: 0 <= i < j < |ready| ==> ready[i].id != ready[j].id
  {}

  lemma WaveFinished(before: Tasks, started: Tasks, after: Tasks, ready: seq<Task>, oks: seq<bool>)
    requires Batch(before, ready) && WaveStarted(before, started, ready) && |oks| == |ready|
    requires after.keys == started.keys && after.vals.Keys == started.vals.Keys
    requires forall j :: 0 <= j < |ready| ==> ready[j].id in after.vals && after.vals[ready[j].id] == AfterRun(ready[j], oks[j])
    requires forall id :: id in started.vals && (forall j :: 0 <= j < |ready| ==> ready[j].id != id) ==>
      id in after.vals && after.vals[id] == started.vals[id]
    ensures WaveRan(before, after, ready, oks)
  {
    hide AfterRun, Started;
  }

  lemma UpdateOne(tasks: Tasks, id: string, t: Task)
    requires tasks.Valid() && id in tasks.vals
    ensures tasks.Put(id, t).Valid()
    ensures tasks.Put(id, t).keys == tasks.keys && tasks.Put(id, t).vals == tasks.vals[id := t]
    ensures SumAttempts(tasks.keys, tasks.vals[id := t])
         == SumAttempts(tasks.keys, tasks.vals) + t.attempts - tasks.vals[id].attempts
  {
    SumAttemptsPut(tasks.keys, tasks.vals, id, t);
  }

  class TaskGraph {
    var tasks: Tasks
    var counter: nat

    constructor ()
      ensures tasks == Empty() && counter == 0 && GraphInv(tasks, counter)
    {
      tasks, counter := Empty(), 0;
    }

    function Ready(): seq<Task>
      requires tasks.Valid()
      reads this
    {
      ReadyTasks(tasks)
    }

    method ActiveWithKey(a: Planned) returns (active: Option<string>)
      requires tasks.Valid()
      ensures active.Some? <==> HasActive(tasks, a)
      ensures active.Some? ==>
        active.value in tasks.vals && tasks.vals[active.value].action == a && !tasks.vals[active.value].Terminal()
    {
      for i := 0 to |tasks.keys|
        invariant forall j :: 0 <= j < i ==>
          tasks.keys[j] in tasks.vals &&
          !(tasks.vals[tasks.keys[j]].action == a && !tasks.vals[tasks.keys[j]].Terminal())
      {
        var t := tasks.vals[tasks.keys[i]];
        if t.action == a && !t.Terminal() {
          return Some(tasks.keys[i]);
        }
      }
      active := None;
      forall id | id in tasks.vals ensures !(tasks.vals[id].action == a && !tasks.vals[id].Terminal()) {
        var i :| 0 <= i < |tasks.keys| && tasks.keys[i] == id;
      }
    }

    method HasKey(a: Planned) returns (b: bool)
      requires tasks.Valid()
      ensures b <==> HasActive(tasks, a)
    {
      var active := ActiveWithKey(a);
      b := active.Some?;
    }

    /** Adds a task unless the same work is already waiting or running; returns the
        identifier of the task that holds the slot. */
    method Add(t: Task) returns (id: string)
      requires tasks.Valid()
      modifies this
      ensures tasks.Valid()
      ensures HasActive(old(tasks), t.action) ==>
        && tasks == old(tasks) && counter == old(counter)
        && id in tasks.vals && tasks.vals[id].action == t.action && !tasks.vals[id].Terminal()
      ensures !HasActive(old(tasks), t.action) ==>
        && (if t.id == "" then counter == old(counter) + 1 && id == IdOf(counter) else counter == old(counter) && id == t.id)
        && tasks == old(tasks).Put(id, t.(id := id))
    {
      var active := ActiveWithKey(t.action);
      if active.Some? {
        return active.value;
      }
      id := t.id;
      if t.id == "" {
        counter := counter + 1;
        id := IdOf(counter);
      }
      tasks.PutValid(id, t.(id := id));
      tasks := tasks.Put(id, t.(id := id));
    }

    /** Marks a wave's tasks as running. */
    method StartAll(ready: seq<Task>)
      requires tasks.Valid() && Batch(tasks, ready)
      modifies this`tasks
      ensures tasks.Valid() && WaveStarted(old(tasks), tasks, ready)
      ensures SumAttempts(tasks.keys, tasks.vals) == SumAttempts(old(tasks).keys, old(tasks).vals) + |ready|
    {
      hide SumAttempts;
      ghost var was := tasks;
      for i := 0 to |ready|
        invariant tasks.Valid() && tasks.keys == was.keys && tasks.vals.Keys == was.vals.Keys
        invariant forall j :: 0 <= j < i ==> ready[j].id in tasks.vals && tasks.vals[ready[j].id] == Started(ready[j])
        invariant forall id :: id in was.vals && (forall j :: 0 <= j < i ==> ready[j].id != id) ==>
          id in tasks.vals && tasks.vals[id] == was.vals[id]
        invariant SumAttempts(tasks.keys, tasks.vals) == SumAttempts(was.keys, was.vals) + i
      {
        var id := ready[i].id;
        var t := tasks.vals[id];
        assert t == ready[i];
        SumAttemptsPut(tasks.keys, tasks.vals, id, Started(t));
        tasks := tasks.Put(id, t.(status := Running, attempts := t.attempts + 1));
      }
    }

    /** Folds a wave's results back: done, retried or failed. */
    method FinishAll(ready: seq<Task>, oks: seq<bool>, ghost before: Tasks)
      requires tasks.Valid() && |oks| == |ready| && Batch(before, ready) && WaveStarted(before, tasks, ready)
      modifies this`tasks
      ensures tasks.Valid() && WaveRan(before, tasks, ready, oks)
      ensures SumAttempts(tasks.keys, tasks.vals) == SumAttempts(old(tasks).keys, old(tasks).vals)
    {
      hide SumAttempts, Dict.Valid, Batch, WaveStarted, AfterRun;
      ghost var was := tasks;
      BatchStarted(before, was, ready);
      for i := 0 to |ready|
        invariant tasks.Valid() && tasks.keys == was.keys && tasks.vals.Keys == was.vals.Keys
        invariant forall j :: 0 <= j < i ==> ready[j].id in tasks.vals && tasks.vals[ready[j].id] == AfterRun(ready[j], oks[j])
        invariant forall id :: id in was.vals && (forall j :: 0 <= j < i ==> ready[j].id != id) ==>
          id in tasks.vals && tasks.vals[id] == was.vals[id]
        invariant SumAttempts(tasks.keys, tasks.vals) == SumAttempts(was.keys, was.vals)
      {
        var id := ready[i].id;
        assert tasks.vals[id] == Started(ready[i]);
        var t := Settle(tasks.vals[id], oks[i]);
        SettleIs(ready[i], oks[i]);
        UpdateOne(tasks, id, t);
        tasks := tasks.Put(id, t);
      }
      WaveFinished(before, was, tasks, ready, oks);
    }

    /** Adds one proposed action as a waiting task, unless it is already tracked. */
    method AddAction(a: Planned, deps: set<string>, wave: nat, ghost before: Tasks, ghost actions: seq<Planned>)
      requires GraphInv(tasks, counter) && DependsOnEarlier(tasks, deps, wave)
      requires Extended(before, tasks, actions, deps, wave) && a in actions
      modifies this
      ensures GraphInv(tasks, counter) && Extended(before, tasks, actions, deps, wave)
      ensures (tasks, counter) == AddedOne(old(tasks), old(counter), a, deps, wave)
      ensures Extended(old(tasks), tasks, [a], deps, wave)
      ensures DependsOnEarlier(tasks, deps, wave) && HasActive(tasks, a)
      ensures |tasks.keys| == |old(tasks).keys| + if HasActive(old(tasks), a) then 0 else 1
      ensures SumAttempts(tasks.keys, tasks.vals) == SumAttempts(old(tasks).keys, old(tasks).vals)
    {
      hide GraphInv, HasActive, Dict.Valid, Dict.Put, IdOf, Extended, DependsOnEarlier, NewTask, SumAttempts;
      InvParts(tasks, counter);
      NewTaskFacts(a, deps, wave);
      ghost var was, n := tasks, counter;
      var id := Add(NewTask(a, deps, wave));
      if HasActive(was, a) {
        ExtendedSame(was, [a], deps, wave);
      } else {
        AddKeeps(was, n, a, deps, wave);
        AddExtends(before, was, actions, deps, wave, a, id);
      }
    }
  }

  lemma NewTaskFacts(a: Planned, deps: set<string>, wave: nat)
    ensures NewTask(a, deps, wave).action == a && NewTask(a, deps, wave).id == ""
  {}

  lemma ExtendedSame(tasks: Tasks, actions: seq<Planned>, deps: set<string>, wave: nat)
    ensures Extended(tasks, tasks, actions, deps, wave)
  {}

  lemma AddExtends(before: Tasks, was: Tasks, actions: seq<Planned>, deps: set<string>, wave: nat, a: Planned, id: string)
    requires Extended(before, was, actions, deps, wave) && id !in was.vals && a in actions
    requires was.Valid() && DependsOnEarlier(was, deps, wave)
    ensures var t := NewTask(a, deps, wave).(id := id); var after := was.Put(id, t);
      && Extended(before, after, actions, deps, wave) && Extended(was, after, [a], deps, wave)
      && DependsOnEarlier(after, deps, wave) && HasActive(after, a)
      && |after.keys| == |was.keys| + 1
      && SumAttempts(after.keys, after.vals) == SumAttempts(was.keys, was.vals)
  {
    var t := NewTask(a, deps, wave).(id := id);
    var after := was.Put(id, t);
    assert after.vals[id] == t && !t.Terminal();
    assert after.keys == was.keys + [id];
    assert after.keys[..|after.keys| - 1] == was.keys;
    SumAttemptsFrame(was.keys, was.vals, id, t);
  }

  lemma ActiveStays(before: Tasks, after: Tasks, a: Planned, actions: seq<Planned>, deps: set<string>, wave: nat)
    requires HasActive(before, a) && Extended(before, after, actions, deps, wave)
    ensures HasActive(after, a)
  {
    var id :| id in before.vals && before.vals[id].action == a && !before.vals[id].Terminal();
    assert id in after.vals && after.vals[id] == before.vals[id];
  }

  lemma ExtendedMore(before: Tasks, after: Tasks, actions: seq<Planned>, more: seq<Planned>, deps: set<string>, wave: nat)
    requires Extended(before, after, actions, deps, wave) && forall a :: a in actions ==> a in more
    ensures Extended(before, after, more, deps, wave)
  {
  }

  /** Adding actions one after another keeps the graph's invariant and makes each active. */
  lemma {:induction false} GrownKeeps(tasks: Tasks, counter: nat, actions: seq<Planned>, deps: set<string>, wave: nat)
    requires GraphInv(tasks, counter) && DependsOnEarlier(tasks, deps, wave)
    ensures var (after, n) := Grown(tasks, counter, actions, deps, wave);
      && GraphInv(after, n) && Extended(tasks, after, actions, deps, wave) && DependsOnEarlier(after, deps, wave)
      && forall a :: a in actions ==> HasActive(after, a)
  {
    hide GraphInv, Extended, DependsOnEarlier, HasActive, AddedOne;
    if actions == [] {
      ExtendedSame(tasks, actions, deps, wave);
    } else {
      var k := |actions| - 1;
      var head, last := actions[..k], actions[k];
      GrownKeeps(tasks, counter, head, deps, wave);
      var (before, n) := Grown(tasks, counter, head, deps, wave);
      assert actions == head + [last];
      ExtendedMore(tasks, before, head, actions, deps, wave);
      AddedKeeps(tasks, before, n, actions, last, deps, wave);
      var after := AddedOne(before, n, last, deps, wave).0;
      forall a | a in head ensures HasActive(after, a) {
        ActiveStays(before, after, a, [last], deps, wave);
      }
    }
  }

  lemma AddedKeeps(before: Tasks, was: Tasks, n: nat, actions: seq<Planned>, a: Planned, deps: set<string>, wave: nat)
    requires GraphInv(was, n) && Extended(before, was, actions, deps, wave) && DependsOnEarlier(was, deps, wave) && a in actions
    ensures var (after, m) := AddedOne(was, n, a, deps, wave);
      && GraphInv(after, m) && Extended(before, after, actions, deps, wave) && Extended(was, after, [a], deps, wave)
      && DependsOnEarlier(after, deps, wave) && HasActive(after, a)
  {
    hide GraphInv, HasActive, IdOf, Extended, DependsOnEarlier, NewTask, SumAttempts;
    InvParts(was, n);
    if HasActive(was, a) {
      ExtendedSame(was, [a], deps, wave);
    } else {
      AddKeeps(was, n, a, deps, wave);
      AddExtends(before, was, actions, deps, wave, a, IdOf(n + 1));
    }
  }

  // ---------------------------------------------------------------- running a wave

  function Started(t: Task): Task { t.(status := Running, attempts := t.attempts + 1) }

  /** A task after one run: done, waiting for its retry, or failed for good. */
  function AfterRun(t: Task, ok: bool): Task {
    t.(ok := ok, attempts := t.attempts + 1,
       status := if ok then Done else if t.attempts + 1 < t.maxAttempts then Pending else Failed)
  }

  /** `ready` lists waiting tasks of the graph, none twice. */
  ghost predicate Batch(tasks: Tasks, ready: seq<Task>) {
    && (forall j :: 0 <= j < |ready| ==>
          ready[j].id in tasks.vals && tasks.vals[ready[j].id] == ready[j] && ready[j].status.Pending?)
    && (forall i, j :: 0 <= i < j < |ready| ==> ready[i].id != ready[j].id)
  }

  /** `after` is `before` with exactly the tasks of `ready` run once. */
  ghost predicate WaveRan(before: Tasks, after: Tasks, ready: seq<Task>, oks: seq<bool>) {
    && |oks| == |ready| && after.keys == before.keys && after.vals.Keys == before.vals.Keys
    && (forall j :: 0 <= j < |ready| ==>
          ready[j].id in after.vals && after.vals[ready[j].id] == AfterRun(ready[j], oks[j]))
    && (forall id :: id in before.vals && (forall j :: 0 <= j < |ready| ==> ready[j].id != id) ==>
          id in after.vals && after.vals[id] == before.vals[id])
  }

  /** `started` is `before` with exactly the tasks of `ready` marked as running. */
  ghost predicate WaveStarted(before: Tasks, started: Tasks, ready: seq<Task>) {
    && started.keys == before.keys && started.vals.Keys == before.vals.Keys
    && (forall j :: 0 <= j < |ready| ==> ready[j].id in started.vals && started.vals[ready[j].id] == Started(ready[j]))
    && (forall id :: id in before.vals && (forall j :: 0 <= j < |ready| ==> ready[j].id != id) ==>
          id in started.vals && started.vals[id] == before.vals[id])
  }

  lemma WaveTask(before: Tasks, after: Tasks, ready: seq<Task>, oks: seq<bool>, id: string)
    requires Batch(before, ready) && WaveRan(before, after, ready, oks) && id in before.vals
    ensures after.vals[id] == before.vals[id] ||
            (before.vals[id].status.Pending? && exists ok :: after.vals[id] == AfterRun(before.vals[id], ok))
  {
    if j :| 0 <= j < |ready| && ready[j].id == id {
      assert after.vals[id] == AfterRun(before.vals[id], oks[j]);
    }
  }

  /** The same tasks in the same places; a task that ended stays ended. */
  ghost predicate SameTasks(before: Tasks, after: Tasks) {
    && after.keys == before.keys && after.vals.Keys == before.vals.Keys
    && (forall id :: id in before.vals ==>
          && after.vals[id].id == before.vals[id].id && after.vals[id].action == before.vals[id].action
          && after.vals[id].dependsOn == before.vals[id].dependsOn && after.vals[id].wave == before.vals[id].wave
          && (before.vals[id].Terminal() ==> after.vals[id].Terminal()))
  }

  lemma SameLinked(before: Tasks, after: Tasks)
    requires SameTasks(before, after) && Linked(before)
    ensures Linked(after)
  {
    hide Task.Terminal;
  }

  lemma SameExclusive(before: Tasks, after: Tasks)
    requires SameTasks(before, after) && Exclusive(before)
    ensures Exclusive(after)
  {
    hide Task.Terminal;
  }

  lemma SameIdentified(before: Tasks, after: Tasks, counter: nat)
    requires SameTasks(before, after) && Identified(before, counter)
    ensures Identified(after, counter)
  {
    hide Task.Terminal, IdOf;
  }

  /** Running a wave keeps the graph's invariant. */
  lemma WaveKeeps(before: Tasks, after: Tasks, ready: seq<Task>, oks: seq<bool>, counter: nat)
    requires GraphInv(before, counter) && Batch(before, ready) && WaveRan(before, after, ready, oks)
    ensures GraphInv(after, counter)
  {
    assert after.keys == before.keys && after.vals.Keys == before.vals.Keys;
    hide Identified, Linked, Exclusive, Settled, Batch, WaveRan;
    forall id | id in before.vals
      ensures after.vals[id].id == before.vals[id].id && after.vals[id].action == before.vals[id].action
      ensures after.vals[id].dependsOn == before.vals[id].dependsOn && after.vals[id].wave == before.vals[id].wave
      ensures before.vals[id].Terminal() ==> after.vals[id].Terminal()
      ensures Settled(after.vals[id])
    {
      assert Settled(before.vals[id]);
      WaveTask(before, after, ready, oks, id);
    }
    assert SameTasks(before, after);
    SameIdentified(before, after, counter);
    SameLinked(before, after);
    SameExclusive(before, after);
  }

  lemma InvParts(tasks: Tasks, counter: nat)
    requires GraphInv(tasks, counter)
    ensures tasks.Valid()
    ensures forall id :: id in tasks.vals ==> tasks.vals[id].id == id && Settled(tasks.vals[id])
  {}

  // ---------------------------------------------------------------- batches of tasks

  /** The tasks created for the wave before `wave`. */
  function PriorWave(tasks: Tasks, wave: nat): set<string> {
    set id | id in tasks.vals && tasks.vals[id].wave == wave - 1
  }

  function ActionsOf(ready: seq<Task>): (r: seq<Planned>)
    ensures |r| == |ready| && forall i :: 0 <= i < |ready| ==> r[i] == ready[i].action
  {
    seq(|ready|, i requires 0 <= i < |ready| => ready[i].action)
  }

  lemma AbstractAt(ready: seq<Task>, i: nat)
    requires i < |ready|
    ensures |AbstractActions(ActionsOf(ready))| == |ready|
    ensures AbstractActions(ActionsOf(ready))[i] == AbstractAction(ready[i].action)
  {}

  lemma OneTaskPerAction(tasks: Tasks, a: string, b: string)
    requires Exclusive(tasks) && a in tasks.vals && b in tasks.vals && a != b
    requires !tasks.vals[a].Terminal() && !tasks.vals[b].Terminal()
    ensures tasks.vals[a].action != tasks.vals[b].action
  {}

  lemma ReadyBatch(tasks: Tasks, counter: nat, ready: seq<Task>)
    requires GraphInv(tasks, counter) && ready <= ReadyTasks(tasks)
    ensures Batch(tasks, ready)
  {
    InvParts(tasks, counter);
    ReadyAre(tasks);
    hide GraphInv, ReadyTasks;
    var all := ReadyTasks(tasks);
    forall j | 0 <= j < |ready|
      ensures ready[j].id in tasks.vals && tasks.vals[ready[j].id] == ready[j] && ready[j].status.Pending?
    {
      assert ready[j] == all[j] && all[j] in all;
    }
    forall i, j | 0 <= i < j < |ready| ensures ready[i].id != ready[j].id {
      assert all[i].id != all[j].id;
    }
  }
}
