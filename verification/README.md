# AegisFlow investigation core: a verified model

A Dafny 4.11 model of the parts of AegisFlow that decide what an investigation does, in what
order and with what guarantees, and machine-checked proofs about every input, every run and
every interleaving of that model.

* **The investigation.** `State`, `Planner` and `Tools` are the working memory, the rule-driven
  planner and the six tools, cut at their awaits. Every layer is proved against a *ledger*: the
  state up to dictionary order and the spelling of an indicator. `Concurrency` shows that any
  interleaving of a planned batch ends where running it one call after another ends, and for which
  pairs of tools that can fail; `Gather` runs such batches, and `Loop` and `Workflow` are the two
  drivers (`asyncio.gather` in process, one durable activity at a time on Temporal) that follow one
  specification. `Convergence` bounds
  the number of batches. `TaskGraphs`, `Reflection`, `Scheduler` and `TaskTraces` are the
  task-graph strategy: deduplicated tasks, waves, bounded retries, budgets, reflection rounds and
  the trace it reports. `Effects` (what a batch can change), `Turns` (one turn of the scheduler,
  seen from the graph), `Stages` (how far a run has come, and what may be open then) and
  `Histories` (the calls of a whole run) carry the proof that no wave of a run holds two calls
  that clash, so a whole run ends as its calls one after another. `Smooth` (turns in which every
  call succeeds), `Mirrors` and `Agreement` compare such a run with the batch loop, ledger for
  ledger and step for step; `Links` is about what a new task depends on.
* **The entity graph.** `EntityGraph`: path and neighborhood queries against walks and distances.
* **Campaigns.** `Fingerprints`, `UnionFinds` and `Campaigns`: union-find with path halving over
  a weighted-Jaccard similarity, against connected components.
* **The protocols.** `Approvals`, `RateLimits`, `Circuits`, `Router`, `Dispatch`, `Ingestion` and
  `Consensus`, with the numbers behind its votes in `Votes`.

`Options`, `Rounding`, `Sorting` and `OrderedDict` hold the Python notions the others need:
optional values, `round`, `min`, `max`, `sorted` and the insertion order of `dict`.

Tool outcomes, provider replies, clock readings, fresh identifiers, the hash behind campaign ids
and the choice of which coroutine runs next are parameters; results hold for all of them.
Floating-point scores are exact numbers, and `round` is the nearest value with ties to even.

Verify with `dafny verify dfyconfig.toml`.

## Results that differ from what one might expect

* The plan order matters. A detonation listed ahead of an enrichment would make the outcome depend
  on the interleaving (`EnrichmentMustBeListedFirst`); `ClashIsExact` says for which ordered pairs
  of tools that can happen. The drivers never start such a pair: the two loops by the planner's
  order (`PlannerIndependent`), the scheduler because everything planned while calls of the last wave
  still wait for their retry depends on them (`StagedApart`).
* The documentation of the planning engine's `expand` has a new task depend on all unfinished tasks;
  the code links it to the tasks of the wave before only. The two are the same exactly when every
  unfinished task is of the wave before (`Links.LinkedToOpen`), and there are runs from every
  phishing case in which one is not (`Links.OpenButNotLinked`). The model follows the code, and the
  weaker links are enough for the result above.
* The documentation of the task-graph strategy says it "produces the same trace as the batch loop".
  Comparing steps by the call they report, when every call succeeds and no budget is used up, this
  holds exactly if reflection adds nothing, no plan lists a call twice and every iteration is
  numbered in string order
  (`TaskTraces.CollectTaskGraph`), that is, no iteration has both a t9 and a t10 or both a t99 and a
  t100 (`Agreement.OrderIs`). For a new case that is: the third iteration makes at most six calls,
  all different (`Agreement.NewCaseOrder`). It fails for every new phishing case with seven
  attachments, or with six and an indicator found, where t10 is listed before t4
  (`Agreement.TenthTaskFirst`), and for every one that lists an attachment twice
  (`Agreement.AttachmentTwice`). The ledger is the loop's in any case, but for the hunt of a
  follow-up.
* Tools are documented as idempotent on retry. An attempt that is retried from its checkpoint leaves
  nothing (`ExecuteActivity`). Run again on its own effects a call changes nothing, whatever its fate,
  unless it is a hunt with hits: these are listed twice (`RerunExact`).
* A rejected submission leaves its placeholder stored as queued for good (`FateIsFinal`,
  `QueuedMeansUnfinishedOrRejected`), although the module's documentation says an investigation is
  never silently lost; each retry of the Kafka consumer against a full dispatcher leaves another
  one (`RejectionsPileUp`).
* A decision is checked against the expiry and stamped by two readings of the clock, so an approval
  may carry a stamp at or after its expiry (`StampMayBeLate`). In every run its stamp is in time
  exactly when the second reading was (`StampExact`).
* A half-open breaker does not count the probe under way (`ProbesAreNotCounted`): the bound on
  tries of a dead provider is for sequential callers. `PassUntilReport` says when it ends: every
  caller gets through until a failure is reported.
* Pruning the rate limiter's window is not always exact, since the program reads the wall clock.
  It is exact for a run exactly when no call is let through on account of a pruned call that would
  count again (`RunExact`, `NextDecisionExact`); a clock that never steps back is one such case, and
  so is any clock whose steps back are too small to reach a pruned call. After the clock has caught
  up the limiter is exact again (`Recovers`).
* "The first configured, available provider that does not fail answers" holds for exactly the chains
  in which no name has two configured positions, or for all chains if there is no cooldown
  (`OrderExact`); the chain setting accepts repeated names. The bound on a dead provider survives
  repetition (`DeadProviderInChain`).
* In the consensus, weak evidence can soften a strong verdict: `FurtherVoterSoftens` says exactly
  when, for a voter in any place, `SandboxSoftens` for a detonation beside other evidence.
* 26 attachments are the most the default budget covers whatever the tools find: with 27 a case
  whose calls all succeed can end with a hunt undone (`DefaultBudgetIsTight`).

## Model

| member | source | states |
|---|---|---|
| State.AddIocsLedger | backend/app/agents/state.py:59-67 | queueing a list of indicators adds to the waiting keys exactly the listed keys that are not enriched |
| State.AddIocsCount | backend/app/agents/state.py:59-67 | the number of new keys is the number of distinct listed keys neither waiting nor enriched, also with repeats in the list |
| State.AddIocsSpelling | backend/app/agents/state.py:59-67 | of the indicators listed under a new key the first stays, and the waiting ones keep their place and spelling |
| State.RecordLedger | backend/app/agents/state.py:69-73 | recording results moves exactly their keys from waiting to judged, with the latest judgement |
| State.PendingKeys | backend/app/agents/state.py:42 | the enrichment snapshot holds each waiting key |
| State.SameKeyIs | backend/app/schemas/ioc.py:18-19 | two indicators share a key exactly when they have one kind and spell one value, in whatever case |
| State.PhishingIs | backend/app/agents/state.py:84-86 | a case looks like phishing exactly when it names a message or spells "phish" somewhere in its title or description, in whatever case |
| State.InvestigationState.AddIocs | backend/app/agents/state.py:59-67 | the object's update is the snapshot's, and the count it returns is the growth of the waiting dictionary |
| State.InvestigationState.RecordEnrichment | backend/app/agents/state.py:69-73 | the object's update is the snapshot's |
| Planner.PlanRefines | backend/app/agents/planner.py:39-107 | the plan depends on the state only through its ledger, up to the order of a hunt's key list |
| Planner.PlannedExactly | backend/app/agents/planner.py:39-107 | when each action is planned, read off the state: what starts an investigation, the extraction, the enrichment, exactly the undetonated attachments, and one hunt of the unhunted malicious keys, or of everything once; an empty plan means that nothing of this is left |
| Planner.UndetonatedAt | backend/app/agents/planner.py:76-84 | the detonations are planned in the order of the attachments |
| Planner.PlanNext | backend/app/agents/planner.py:40-107 | the branching, appending planner computes the three-phase plan |
| Tools.StepRefines | backend/app/agents/tools.py:151-245 | every step of every tool, successful or failing at any await, is the same step on the ledger and keeps the dictionaries well keyed |
| Tools.Begin | backend/app/agents/tools.py:151-245 | a tool run to its first await changes the shared state exactly as its specification |
| Tools.Resume | backend/app/agents/tools.py:167-245 | a tool resumed to its next await changes the shared state exactly as its specification, which `Effects.CallMarks`, `Effects.CallIndicators` and `Effects.CallScore` give in closed form |
| Concurrency.Diamond | backend/app/agents/loop.py:137-139 | a step of one call commutes with finishing an earlier, already started call, for every pair of tools that does not clash |
| Concurrency.StepInvariant | backend/app/agents/loop.py:137-139 | whichever call takes a step, the result of finishing the batch in list order stays the same |
| Concurrency.Confluence | backend/app/agents/loop.py:137-139 | every complete interleaving of a batch without a clashing pair ends in the ledger and the outcomes of running it one call after another |
| Concurrency.PlannerIndependent | backend/app/agents/planner.py:67-105 | every batch the planner makes is independent, and its hunts aim at judged indicators |
| Concurrency.EnrichmentMustBeListedFirst | backend/app/agents/tools.py:194-225 | from any state with something waiting, a detonation listed before the enrichment makes the result depend on the interleaving |
| Concurrency.EmailBesideExtraction | backend/app/agents/tools.py:167-192 | from any state, an email fetch started beside an extraction listed after it can end with the corpus stale, which one after another it never is |
| Concurrency.EnrichmentTwice | backend/app/agents/tools.py:194-205 | of two enrichments started together the later answer stays, where one after another the first does |
| Concurrency.HuntTwice | backend/app/agents/tools.py:227-245 | two hunts started together can list their hits in the other order |
| Concurrency.EmailTwice | backend/app/agents/tools.py:167-182 | of two fetched messages the one that arrives last stays |
| Concurrency.ClashIsExact | backend/app/agents/loop.py:137-139 | for two kinds of call listed in an order, some state, calls and interleaving end otherwise than one after another exactly when the pair clashes |
| Gather.StepSafe | backend/app/agents/state.py:40-44 | every step of every call keeps waiting and judged keys apart and hunts within judged keys, and never replaces a judgement |
| Gather.SomeMayRun | backend/app/agents/loop.py:137-138 | a batch that is not finished always has a call that may run |
| Gather.GatherBatch | backend/app/agents/loop.py:137-138 | a concurrent batch under arbitrary scheduling keeps the lifecycle, and if independent ends as the sequential run does |
| Gather.RunTool | backend/app/agents/loop.py:181-196 | one call run alone has its complete effect; its exceptions become a failed outcome |
| Gather.RunInTurn | backend/app/orchestrator/temporal_workflow.py:130-149 | calls run one after another compose their complete effects |
| Loop.PlannedBatch | backend/app/agents/loop.py:127-136 | what the tool-call budget leaves of a plan is still independent and may run |
| Loop.IterateIs | backend/app/agents/loop.py:115-147 | the loop's specification is exactly this relation: an iteration makes the plan's first calls, as many as it has and the budget has room for, with one step each; the loop ends when nothing is planned, after the last iteration, or with a stop once the clock or the calls are used up |
| Loop.LoopEndsRight | backend/app/agents/loop.py:117-136 | a run that ends with a stop was late or has used up its calls with work planned; any other has nothing planned or has used up its iterations |
| Loop.CollectBatch | backend/app/agents/loop.py:109-147 | whatever the interleavings, the loop follows the specification; steps are numbered 1 to n, tool calls are the act steps and never exceed the budget, the lifecycle only grows, and the run ends for one of the reasons of `LoopEndsRight` |
| Workflow.ExecuteActivity | backend/app/orchestrator/temporal_workflow.py:51-70 | attempts lost to a crash leave no effect: the checkpointed result is that of the one attempt that completed |
| Workflow.RerunExact | backend/app/orchestrator/temporal_workflow.py:52-58 | a call run again on the state it left changes nothing, whatever its fate, exactly when it is not a hunt that recorded hits |
| Workflow.RunWorkflow | backend/app/orchestrator/temporal_workflow.py:98-149 | the durable sequential workflow follows the loop's specification without a wall clock, and stops early only with its calls used up |
| Workflow.DriversAgree | backend/app/agents/loop.py:115-147 | an in-process loop that runs out of time after k iterations has the ledger and calls the workflow has after k and extends its trace; if time does not run out the two are equal |
| Convergence.NothingLeft | backend/app/agents/planner.py:39-107 | the phase measure is zero exactly when the plan is empty |
| Convergence.BatchAdvances | backend/app/agents/planner.py:34-107 | a planned batch whose calls all succeed strictly lowers the phase measure |
| Convergence.Converges | backend/app/agents/loop.py:115-146 | if along the run no plan is cut short, calls succeed, time does not run out and as many iterations remain as phases, the loop ends with nothing planned, in at most as many iterations as phases remain |
| Convergence.WorstCaseCovers | backend/app/agents/loop.py:127-136 | a budget for the worst case of the phases left never cuts a plan of such a run short |
| Convergence.DefaultBudgetConverges | backend/app/agents/planner.py:30-36 | under the default budget, when calls succeed and time does not run out, every new case whose emails have at most 26 attachments converges within 5 batches |
| Convergence.NeedsEveryCall | backend/app/agents/loop.py:127-136 | for every number of attachments the worst case occurs: one call fewer leaves work planned |
| Convergence.DefaultBudgetIsTight | backend/app/agents/planner.py:30-36 | under the default budget a new case with 27 attachments whose calls all succeed can end with a hunt still planned |
| Effects.BatchLands | backend/app/agents/tools.py:151-245 | when a batch of calls ends, every call of it that succeeded has left its mark |
| Effects.CallMarks | backend/app/agents/tools.py:151-245 | for every tool and every way it can end: which marks, which email, which detonated and hunted keys and which hits a finished call leaves |
| Effects.CallIndicators | backend/app/agents/tools.py:184-225 | for every tool and every way it can end: which indicators wait afterwards and which judgement each has |
| Effects.CallScore | backend/app/agents/tools.py:207-225 | a detonation that lands raises the score to its own if that is higher; no other call changes it |
| Effects.SequentialScore | backend/app/agents/tools.py:212-212 | after any sequence of calls, whatever fails, the score is the highest of the first one and those of the detonations that landed |
| Effects.IdleBatch | backend/app/agents/tools.py:194-205 | with nothing waiting, a batch that lists enrichments ahead of what finds indicators judges nothing |
| TaskGraphs.IdsDiffer | backend/app/agents/planning/graph.py:28-31 | identifiers made from different counters differ |
| Sorting.StringLeIs | backend/app/agents/planning/graph.py:64-64 | strings, identifiers among them, are compared character by character: a string comes before its continuations and before what is larger where the two first differ |
| TaskGraphs.ReadyAre | backend/app/agents/planning/graph.py:53-65 | the ready tasks are exactly the pending ones whose known dependencies ended, each once, in priority order |
| TaskGraphs.ReadyWhen | backend/app/agents/planning/graph.py:53-63 | a task is ready exactly when it is pending and what it depends on, as far as the graph has it, is done, failed or skipped |
| TaskGraphs.ReadyByUrgency | backend/app/agents/planning/task.py:22-31 | of two ready tasks the one of the earlier phase comes first (evidence sources, extraction, enrichment, detonation, hunt), and within a phase the one of the earlier wave |
| TaskGraphs.SomeTaskReady | backend/app/agents/planning/graph.py:53-65 | from any unfinished task, following dependencies down the waves leads to a ready one |
| TaskGraphs.NoDeadlock | backend/app/agents/planning/graph.py:53-65 | nothing is ready exactly when every task has ended, failed upstreams included |
| TaskGraphs.AddKeeps | backend/app/agents/planning/graph.py:19-32 | adding a task keeps dependencies earlier and of smaller wave, at most one active task per action, and fresh ids |
| TaskGraphs.WaveKeeps | backend/app/agents/planning/scheduler.py:114-135 | running a wave keeps the graph's invariant: nothing runs between waves, attempts stay within the limit and a task fails only at it |
| TaskGraphs.TriedTwice | backend/app/agents/planning/task.py:49-50 | a new task waits, is run again after its first failure and given up after its second |
| TaskGraphs.TaskGraph.ActiveWithKey | backend/app/agents/planning/graph.py:34-38 | an active task with the key is found exactly when there is one |
| TaskGraphs.TaskGraph.HasKey | backend/app/agents/planning/graph.py:43-45 | true exactly when an unfinished task of the same tool and parameters exists |
| TaskGraphs.TaskGraph.Add | backend/app/agents/planning/graph.py:19-32 | adds exactly the task under the next id, or changes nothing and returns the active duplicate |
| TaskGraphs.TaskGraph.StartAll | backend/app/agents/planning/scheduler.py:115-117 | marks exactly the ready tasks as running and counts one attempt for each |
| TaskGraphs.TaskGraph.FinishAll | backend/app/agents/planning/scheduler.py:123-135 | folds each result into exactly its own task: done, pending for a retry, or failed at the limit |
| Reflection.ActionsAre | backend/app/agents/reflection.py:112-123 | the follow-ups are exactly the issues' actions, each once |
| Reflection.SuggestIs | backend/app/agents/reflection.py:37-123 | an action is suggested exactly if it enriches waiting work, detonates an undetonated attachment, hunts the suspicious unhunted keys, or hunts one unconfirmed malicious key (`UnconfirmedIs`) |
| Reflection.UnconfirmedIs | backend/app/agents/reflection.py:78-99 | a key is unconfirmed exactly when it was not hunted, is judged malicious without two sources that say so, and no hit spells its value, in whatever case |
| Reflection.IssuesCounted | backend/app/agents/reflection.py:37-110 | how many issues of each category there are, and that they come as coverage, gap, unverified, contradiction; a contradiction is one source calling malicious what another calls benign |
| Reflection.AfterConvergence | backend/app/agents/reflection.py:64-76 | when the planner has nothing left, the only possible follow-up is one hunt of the suspicious unhunted keys |
| Reflection.Review | backend/app/agents/reflection.py:37-110 | the appending analysis yields the issues in the specified order |
| Reflection.SuggestActions | backend/app/agents/reflection.py:112-123 | the seen-set loop yields the distinct actions in order of first appearance |
| Scheduler.Expand | backend/app/agents/planning/engine.py:21-47 | adds exactly the planned actions that are not active, one after another under the next ids, linked to the previous wave; afterwards every planned action is active |
| Links.LinkedToOpen | backend/app/agents/planning/engine.py:21-47 | a task planned for the next wave depends on every unfinished task exactly when every unfinished task is of the wave before |
| Links.OpenButNotLinked | backend/app/agents/planning/engine.py:21-47 | from every new phishing case there is a run of five waves after which a hunt is planned that does not depend on an unfinished enrichment |
| Scheduler.WaveRunnable | backend/app/agents/planning/scheduler.py:104-120 | no wave holds two enrichments, so no indicator is enriched twice by tasks of one wave |
| Turns.Turn.OpenAfter | backend/app/agents/planning/scheduler.py:103-135 | what is open after a turn was open before it: untouched if it had to wait, and otherwise after its first, failed attempt |
| Stages.GatheringTurn | backend/app/agents/planning/scheduler.py:103-135 | a turn of the first phase leads to a stage, and an extraction planned beside unfinished fetches waits for them |
| Stages.EvidenceTurn | backend/app/agents/planning/scheduler.py:103-135 | while there is evidence to collect, a turn keeps the open work to enrichments and detonations, and the detonations together |
| Stages.LastTurn | backend/app/agents/planning/scheduler.py:103-135 | when only retries are left, a turn leaves open nothing, or the one hunt with nothing it waits for |
| Stages.HuntingTurn | backend/app/agents/planning/scheduler.py:103-135 | a hunt runs alone; an enrichment beside it waits, and no second hunt is proposed before it ended |
| Stages.StagedTurn | backend/app/agents/planning/scheduler.py:93-137 | every turn leads from a stage of the run to a stage |
| Stages.StagedApart | backend/app/agents/planning/scheduler.py:103-120 | at every stage no two ready tasks clash |
| Histories.WaveIndependent | backend/app/agents/planning/scheduler.py:103-120 | so the calls of a wave, in full or cut short by the budget, are independent |
| Histories.HistoryTurn | backend/app/agents/planning/scheduler.py:103-135 | a turn extends the history by its wave: the ledger is still what all calls so far lead to one after another, each task listed as often as it was attempted, no wave listing a call twice |
| Histories.HistoryInjected | backend/app/agents/planning/scheduler.py:72-83 | the follow-up hunt starts a stage of its own |
| Histories.RunScore | backend/app/agents/tools.py:212-212 | at the end of a scheduler run from a new case the score is the highest of the first one and those of the detonations that landed in the run |
| Scheduler.PriorityScheduler.RunWave | backend/app/agents/planning/scheduler.py:112-135 | one wave runs exactly its tasks once, keeps the run's invariant and history, accounts for its calls, and in a run that began with a new case ends as its calls one after another; while every call succeeds it keeps step with the batch loop |
| Scheduler.PriorityScheduler.Drain | backend/app/agents/planning/scheduler.py:93-137 | the clock is read once before each wave, and no wave starts once it is used up; draining stops as out of budget exactly when the last reading was late, no calls were left with a task ready, or the iterations are used up, and otherwise with every task ended and nothing planned; keeps the run's invariant and history; if every call succeeded, a first drain ends in the batch loop's ledger with its steps |
| Scheduler.PriorityScheduler.Inject | backend/app/agents/planning/scheduler.py:75-83 | adds exactly the follow-ups, each depending on all prior tasks, and keeps the run's invariant |
| Scheduler.FollowUpSettles | backend/app/agents/reflection.py:64-76 | a successful follow-up hunt leaves nothing planned and nothing suggested, and changes the ledger by the suspicious keys and its hits |
| Scheduler.PriorityScheduler.Run | backend/app/agents/planning/scheduler.py:58-91 | terminates with the invariant (acyclic deduplicated graph, tool calls equal to the sum of attempts and within budget, waves within iterations and calls, lifecycle grown); one reading of the clock before every wave, none late but possibly the last; the tasks are called wave by wave, each wave's in the order of the ready list and none of a later wave, each as often as it was attempted; a run that began with a new case ends in the ledger of these calls one after another, and no wave makes a call twice; out of budget exactly when time, iterations or calls are used up, and otherwise every task has ended and nothing is planned; no rounds without reflection; if reflection proposed nothing nothing is suggested; if every call succeeds at most one round injects work, and such a run from a new case compares with the batch loop as below |
| Smooth.ArrangedFold | backend/app/agents/planning/scheduler.py:103-120 | calls of a plan that all succeed, in any order with an enrichment first and however often a detonation is listed, do what the plan does in its order |
| Smooth.SmoothTurn | backend/app/agents/planning/scheduler.py:103-135 | a turn in which every call succeeds, from a graph with nothing open, does what the loop's iteration does and leaves nothing open |
| Mirrors.MirrorTurn | backend/app/agents/loop.py:149-165 | after every wave of a run whose calls all succeed the ledger is the loop's after as many iterations; its tasks in the order they were added are the loop's steps, call for call, or fewer if a plan listed a call twice |
| Mirrors.SomeAnswerer | backend/app/agents/loop.py:159-165 | for the replies of any run there is a world that answers each call of a wave alike for the loop and the run |
| Agreement.LoopOrderly | backend/app/agents/loop.py:115-146 | the loop's steps are in order of iteration |
| Agreement.LoopDiffers | backend/app/agents/loop.py:139-146 | if no plan lists a call twice no two steps of an iteration are for the same call |
| Agreement.LoopEnds | backend/app/agents/loop.py:109-147 | the loop's specification, with time and budget left, ends in exactly the ledger, calls and trace the comparison uses |
| Agreement.IdsInOrderIs | backend/app/agents/planning/graph.py:28-31 | consecutive identifiers are in string order exactly when they have the same number of digits |
| Agreement.ReportAgrees | backend/app/agents/loop.py:168-178 | the tasks sorted by wave and string id are the loop's steps, call for call, exactly when every iteration is numbered in string order |
| Agreement.OrderIs | backend/app/agents/loop.py:168-168 | that is so exactly when in no iteration the numbers gain a digit |
| Agreement.NewCaseOrder | backend/app/agents/loop.py:168-168 | from a case on which no tool has run, that is so exactly when the third iteration has at most six calls, enrichment or not; a call is repeated exactly when that iteration repeats one |
| Agreement.TenthTaskFirst | backend/app/agents/loop.py:149-154 | it is not so for every new phishing case with seven attachments, or with six and an indicator found |
| Agreement.AttachmentTwice | backend/app/agents/planning/graph.py:19-32 | for every new phishing case whose email lists an attachment twice the loop repeats a call, which the graph holds once |
| TaskTraces.AttemptsTotal | backend/app/agents/loop.py:168-174 | summing attempts over the sorted tasks gives the scheduler's tool calls |
| TaskTraces.CollectTaskGraph | backend/app/agents/loop.py:149-179 | the trace is numbered 1 to n in wave order with exactly the tasks that were attempted, its tool calls are the run's, the state is that of the run's calls one after another, and unless a budget is used up every task has ended and nothing is planned; if every call succeeded, beside the loop of a world with the same answers the traces are equal, call for call, exactly when there was no follow-up, no plan listed a call twice and every iteration is numbered in string order; the ledger is the loop's, after a follow-up with exactly its suspicious keys hunted and hits added |
| EntityGraph.WriteIsIdempotent | backend/app/engines/graph/client.py:82-93 | writing the same triples again changes nothing |
| EntityGraph.InMemoryGraph.Upsert | backend/app/engines/graph/client.py:82-93 | appends exactly the new edges in order, keeps nodes the sorted endpoints, and leaves other tenants alone |
| EntityGraph.BallIsWithin | backend/app/engines/graph/client.py:104-125 | the breadth-first ball of radius n is the set of nodes with a walk of at most n stored edges |
| EntityGraph.InMemoryGraph.Neighbors | backend/app/engines/graph/client.py:104-125 | returns, sorted, exactly the nodes within the depth, cut to one to six edges, and the edges with an endpoint one step closer; nothing for an unknown node |
| EntityGraph.EdgesInOrder | backend/app/engines/graph/client.py:124-125 | the edges of an answer come by source, then destination, then relation |
| EntityGraph.NeighborhoodMembers | backend/app/engines/graph/client.py:104-125 | another node is in the neighborhood exactly when a walk within the depth joins them |
| EntityGraph.NeighborhoodsAreSymmetric | backend/app/engines/graph/client.py:97-125 | membership is symmetric |
| EntityGraph.NeighborhoodsGrow | backend/app/engines/graph/client.py:104-125 | a larger depth keeps every node and edge |
| EntityGraph.InMemoryGraph.Path | backend/app/engines/graph/client.py:127-149 | a returned path is a contiguous walk of stored edges of minimal length within the clamped depth; empty exactly when source is target or no such walk exists |
| EntityGraph.FoundIsShortest | backend/app/engines/graph/client.py:137-140 | when the target leaves the queue no walk is shorter than its recorded depth |
| EntityGraph.Reconstruct | backend/app/engines/graph/client.py:160-169 | following back-links terminates and yields the walk from source to target |
| EntityGraph.PathIffNeighbor | backend/app/engines/graph/client.py:104-149 | for distinct nodes the path query is non-empty exactly when the neighborhood query of that depth has the node |
| Fingerprints.SimilarityBounds | backend/app/engines/fingerprint/engine.py:90-110 | similarity is symmetric and a fraction, after rounding |
| Fingerprints.SelfSimilarity | backend/app/engines/fingerprint/engine.py:90-110 | an incident is fully similar to itself exactly when some atomic dimension has a feature, and otherwise 0 |
| Fingerprints.SimilarityIs | backend/app/engines/fingerprint/engine.py:90-110 | the similarity is, to the nearest ten-thousandth, the sum over the dimensions either incident has of 0.30, 0.30, 0.25 and 0.15 times k / (k + m + n), for k shared features and m and n of one alone, over the sum of those weights |
| Fingerprints.OneDimension | backend/app/engines/fingerprint/engine.py:90-110 | of incidents with features of one kind only it is k / (k + m + n), to the nearest ten-thousandth |
| Fingerprints.FeaturesAre | backend/app/schemas/investigation.py:210-211 | the features of a kind are those of the first fingerprint of that kind |
| Fingerprints.ComputeSimilarity | backend/app/engines/fingerprint/engine.py:90-110 | the accumulating loop computes the weighted overlap |
| UnionFinds.HalvingKeepsRoots | backend/app/engines/campaign/engine.py:33-37 | pointing an item at its grandparent changes no item's root |
| UnionFinds.UnionFind.Find | backend/app/engines/campaign/engine.py:33-37 | path halving terminates, returns the root and changes no class |
| UnionFinds.UnionFind.Union | backend/app/engines/campaign/engine.py:39-40 | moves exactly the first item's class to the second's root |
| Campaigns.MergeJoins | backend/app/engines/campaign/engine.py:65-66 | merging two classes makes them the components of the links with the new link added |
| Campaigns.LinkExact | backend/app/engines/campaign/engine.py:58-66 | incidents with features of one kind only are linked exactly when 20000 k >= 5999 (k + m + n), which is 0.3 after rounding |
| Campaigns.ByIdIs | backend/app/engines/campaign/engine.py:49-55 | of the packages under an identifier that have a fingerprint and were found malicious or suspicious the last one is clustered, and no other package |
| Campaigns.LinkAll | backend/app/engines/campaign/engine.py:55-66 | after all pairs, two incidents have one root exactly when a chain of similar incidents joins them |
| Campaigns.HoldersCount | backend/app/engines/campaign/engine.py:89-99 | a feature's count reaches two exactly when two members hold it |
| Campaigns.SharedIs | backend/app/engines/campaign/engine.py:89-99 | a shared feature is one that two different members list in their first fingerprint of the kind |
| Campaigns.Feats | backend/app/engines/campaign/engine.py:89-99 | the shared features are the sorted features at least two members hold |
| Campaigns.ClusterIncidents | backend/app/engines/campaign/engine.py:48-75 | the clusters are the connected components of at least two actionable incidents, disjoint, largest first, losing no linked incident |
| Campaigns.ClusteringUnique | backend/app/engines/campaign/engine.py:48-124 | any two such clusterings have the same clusters, with members, ids, shared features and verdict |
| Campaigns.OrderIndependent | backend/app/engines/campaign/engine.py:55-59 | packages with distinct ids give the same incidents in any input order |
| Campaigns.SameClusters | backend/app/engines/campaign/engine.py:48-124 | clustering packages with distinct ids in any input order gives the same set of clusters |
| Approvals.EffectMoves | backend/app/engines/approvals/service.py:198-247 | every call moves a request along one lifecycle edge or not at all and overwrites no decision or execution |
| Approvals.CallIs | backend/app/engines/approvals/service.py:175-247 | what any call does to a request, field by field: when it expires, who decided and executed it, when and with which note; a decision or execution is refused exactly when it changes nothing or expires the request |
| Approvals.ApplyLookup | backend/app/engines/approvals/service.py:49-63 | a call changes each stored request by its own effect, loses none, and adds only what it creates |
| Approvals.RaisingChangesOnlyExpiry | backend/app/engines/approvals/service.py:198-247 | a raising call changes nothing, except that a late decision expires the pending request it found |
| Approvals.RunFollows | backend/app/engines/approvals/service.py:147-247 | over any run no request is lost, statuses move only forward and decisions and executions are written once |
| Approvals.NothingRunsUnapproved | backend/app/engines/approvals/service.py:198-240 | in any run from an empty store an executed request has an earlier approval by another than its requester, checked strictly before expiry; likewise approved and rejected ones |
| Approvals.TooLate | backend/app/engines/approvals/service.py:242-247 | once its time has passed a pending request can only stay or expire, whatever is called |
| Approvals.StampMayBeLate | backend/app/engines/approvals/service.py:204-214 | for all clock readings that step over the expiry, the run from an empty store that creates a request and decides it ends decided with a stamp at or after its expiry |
| Approvals.StampExact | backend/app/engines/approvals/service.py:198-219 | in every run from an empty store a request carries a decision stamp exactly when a decision on it was accepted, which happens at most once; the stamp is that call's second reading, and its first was before the expiry |
| Approvals.StampsInOrder | backend/app/engines/approvals/service.py:147-240 | with a clock that does not run backwards requested, decided and executed stamps are in order |
| Approvals.ListingIs | backend/app/engines/approvals/service.py:183-194 | a listing has exactly the tenant's stored requests that match, each once, newest first, none pending that was due when looked at |
| Approvals.RequestedOnce | backend/app/engines/approvals/service.py:147-171 | the new requests are one for each step that needs approval, in the playbook's order, and none for any other |
| Approvals.ApprovalService.CreateForPackage | backend/app/engines/approvals/service.py:147-171 | stores and returns the requests, one for each of the positions whose step needs approval: pending, with the step's action, the caller's tenant, investigation and requester, the time and the expiry |
| Approvals.ApprovalService.GetRequest | backend/app/engines/approvals/service.py:175-181 | returns the request after expiring it if due |
| Approvals.ApprovalService.Decide | backend/app/engines/approvals/service.py:198-219 | accepts or refuses as the request's state, actor and first clock reading say, and changes only that request |
| Approvals.ApprovalService.MarkExecuted | backend/app/engines/approvals/service.py:221-240 | executes exactly an approved request |
| Approvals.ApprovalService.List | backend/app/engines/approvals/service.py:183-194 | expires what is due, filters and sorts |
| RateLimits.BucketIs | backend/app/ratelimit.py:15-23 | under any clock the bucket is exactly the accepted calls that every later reading left inside its window, in order |
| RateLimits.NextDecisionExact | backend/app/ratelimit.py:15-23 | under any clock the next decision is the full history's for every limit exactly when no accepted call inside the window was pruned by a later reading |
| RateLimits.RunExact | backend/app/ratelimit.py:15-23 | under any clock a run is decided as by the full history exactly when none of its calls is let through on account of a pruned one |
| RateLimits.PruningIsExact | backend/app/ratelimit.py:15-23 | with a clock that does not run backwards, from any bucket and history that agree from then on, pruning changes no decision |
| RateLimits.Recovers | backend/app/ratelimit.py:15-23 | whatever the clock did before, once it is past its highest reading and runs forward pruning is exact again |
| RateLimits.FreshRun | backend/app/ratelimit.py:12-23 | decisions equal those of the full-history limiter and no window holds more than the limit |
| RateLimits.WindowsAreBounded | backend/app/ratelimit.py:20-23 | every window of every run holds at most the limit |
| RateLimits.RejectedOnlyWhenFull | backend/app/ratelimit.py:21-22 | a call is turned away exactly when its own window is full |
| RateLimits.BackwardClockOverAdmits | backend/app/ratelimit.py:16-19 | three calls under a limit of two: the third is let through where the full history rejects it exactly when the second pruned the first and the third is back where the first still counts |
| RateLimits.RateLimiter.Check | backend/app/ratelimit.py:12-23 | one call prunes and fills its tenant's bucket as specified and touches no other tenant |
| Circuits.AlwaysConsistent | backend/app/engines/threat_intel/circuit.py:13-38 | after any sequence of calls under any clock the breaker is open exactly when failures reached the threshold, if and only if the threshold is at least one |
| Circuits.ClosedBelowThreshold | backend/app/engines/threat_intel/circuit.py:22-38 | only consecutive failures count: with fewer than the threshold since the last success it is closed |
| Circuits.CooldownRestarts | backend/app/engines/threat_intel/circuit.py:22-38 | a failure that reaches the threshold refuses calls until the cooldown has passed since it, also when the breaker was open before |
| Circuits.OpenRefuses | backend/app/engines/threat_intel/circuit.py:22-29 | while open and cooling down every question is refused and changes nothing |
| Circuits.DeadProviderBound | backend/app/engines/threat_intel/circuit.py:22-38 | used sequentially, a provider that always fails is tried at most threshold + floor(T / cooldown) times |
| Circuits.BoundIsAttained | backend/app/engines/threat_intel/circuit.py:22-38 | an eager caller attains that bound for every number of tries |
| Circuits.ProbesAreNotCounted | backend/app/engines/threat_intel/circuit.py:25-28 | past the cooldown any number of callers get through before the first probe reports |
| Circuits.PassUntilReport | backend/app/engines/threat_intel/circuit.py:22-38 | once half-open every caller gets through until a failure is reported, and the first one reported reopens it exactly if no success came before or the threshold is at most one |
| Circuits.CircuitBreaker.Available | backend/app/engines/threat_intel/circuit.py:22-29 | answers and half-opens as specified |
| Circuits.CircuitBreaker.RecordSuccess | backend/app/engines/threat_intel/circuit.py:31-33 | closes the breaker |
| Circuits.CircuitBreaker.RecordFailure | backend/app/engines/threat_intel/circuit.py:35-38 | counts the failure and opens at the threshold |
| Router.FirstWorkingProvider | backend/app/engines/copilot/router.py:176-200 | if no name has two configured positions, the first configured, available provider that does not fail answers, the call fails exactly when there is none, and exactly the breakers passed record their own turns |
| Router.RepeatedNameSharesBreaker | backend/app/engines/copilot/router.py:172-200 | for every chain that configures a name twice and every policy with a cooldown there are reachable breakers and replies for which the call fails although the second position would answer |
| Router.OrderExact | backend/app/engines/copilot/router.py:172-212 | the first configured, available provider that does not fail answers, in every reachable state under a clock that does not run backwards, exactly for chains that configure no name twice or without a cooldown |
| Router.RouterUsesBreaker | backend/app/engines/copilot/router.py:176-200 | to its breaker a dead provider, however often the chain lists it, is a dead provider used sequentially |
| Router.DeadProviderInChain | backend/app/engines/copilot/router.py:176-200 | over any run of the router a dead provider is contacted at most threshold + floor(T / cooldown) times, however the others behave and however often the chain lists it |
| Router.ModelRouter.Generate | backend/app/engines/copilot/router.py:176-200 | the loop over shared breaker objects computes the specified outcome and breaker states |
| Dispatch.AlwaysInv | backend/app/orchestrator/dispatch.py:66-94 | in every interleaving the counter is the number of accepted unfinished runs and at most the limit |
| Dispatch.SemaphoreNeverBlocks | backend/app/orchestrator/dispatch.py:82-82 | an accepted run always finds a permit |
| Dispatch.StateTellsTheLog | backend/app/orchestrator/dispatch.py:46-96 | the whole state is what the event log says: an accepted id is queued until its run finishes and then complete or failed |
| Dispatch.FateIsFinal | backend/app/orchestrator/dispatch.py:46-72 | outcomes are final, and so is a rejection: its placeholder stays queued whatever follows |
| Dispatch.QueuedMeansUnfinishedOrRejected | backend/app/orchestrator/dispatch.py:50-53 | a stored id reads as queued exactly when its run is unfinished or its submission was rejected |
| Dispatch.RejectionsPileUp | backend/app/ingestion/kafka_consumer.py:103-109 | against a full dispatcher n submissions leave n queued placeholders and change nothing else |
| Dispatch.InvestigationDispatcher.SubmitInline | backend/app/orchestrator/dispatch.py:46-76 | saves the placeholder as queued, then accepts exactly below the limit, which is when the counter goes up |
| Dispatch.InvestigationDispatcher.Acquire | backend/app/orchestrator/dispatch.py:82-82 | takes one permit for one waiting run |
| Dispatch.InvestigationDispatcher.Record | backend/app/orchestrator/dispatch.py:83-96 | stores complete for a run that succeeded and failed for one that did not, lowers the counter and returns the permit |
| Ingestion.AtLeastOnceInOrder | backend/app/ingestion/kafka_consumer.py:90-112 | with crashes anywhere, every offset below the committed one was dispatched if valid and dead-lettered if poison, in log order up to immediate repetitions, and nothing went to the wrong place |
| Ingestion.RepeatsNeedCrashes | backend/app/ingestion/kafka_consumer.py:90-112 | dispatches are at most the valid messages plus the crashes, and every repeated delivery is paid for by its own crash |
| Ingestion.EveryCrashCanRepeat | backend/app/ingestion/kafka_consumer.py:90-112 | so many repetitions do occur: between two messages of any run, for every n there is a continuation with n crashes in which the next message is delivered n more times and nothing is committed |
| Ingestion.ExactlyOnceWithoutCrashes | backend/app/ingestion/kafka_consumer.py:90-112 | a crash-free run that committed the log delivered each message exactly once, in order, to the right place |
| Ingestion.KafkaConsumer.Consume | backend/app/ingestion/kafka_consumer.py:90-112 | one turn of the loop, with any number of refused submissions, is a run of the state machine that commits one offset and delivers it once, to the dispatcher if valid and to the dead letters if poison |
| Consensus.VotersSound | backend/app/agents/consensus.py:112-166 | evidence within its schema gives at most one vote per source, all with malice and confidence in [0, 1] |
| Votes.IntelVoteIs | backend/app/agents/consensus.py:112-140 | the threat-intel vote: malicious with the highest score a malicious source gave, at most 1, and the highest confidence, if anything is malicious; else suspicious, else benign, else none |
| Votes.OtherVotesAre | backend/app/agents/consensus.py:142-164 | the other votes in numbers: on-host sightings 0.9, the detonation's own score, the worst severity's 0.9 to 0.15, and 0.3 plus 0.12 for each high-severity tactic up to 0.8 |
| Votes.VerdictByMalice | backend/app/agents/consensus.py:74-76 | the decision is malicious from a weighted malice of 0.7 and suspicious from 0.4, with the weights 0.25, 0.30, 0.20, 0.15 and 0.10 |
| Votes.FiguresAre | backend/app/agents/consensus.py:78-93 | agreement and confidence are, to the nearest thousandth, the numbers the weights, the number of voters and the distance from 0.4 give |
| Consensus.MaliceBetween | backend/app/agents/consensus.py:74-75 | the weighted malice lies between any bounds on the votes |
| Consensus.AgreementIs | backend/app/agents/consensus.py:78-79 | agreement is a fraction, 1 exactly when every voter holds the chosen verdict and 0 exactly when none does |
| Consensus.ConfidenceIs | backend/app/agents/consensus.py:80-86 | confidence is a fraction before and after rounding, and a lone voter's is at most 0.456 |
| Rounding.NearestIs | backend/app/agents/consensus.py:86-86 | `round` yields the nearest integer, and of two equally near the even one, and no other |
| Consensus.DecisionsAreFractions | backend/app/agents/consensus.py:64-108 | so for all evidence: the verdict is unknown exactly when nobody votes |
| Consensus.VotersArePartitioned | backend/app/agents/consensus.py:95-98 | every voter is supporting or rejected, once, by its own verdict |
| Consensus.ProbabilitiesSumToOne | backend/app/agents/consensus.py:170-184 | before rounding the ranked hypotheses sum to 1 |
| Consensus.HypothesesAre | backend/app/agents/consensus.py:170-190 | each verdict voted for and the chosen one appear once with their share of the weight, so the chosen verdict's probability is the agreement |
| Consensus.HypothesesOrder | backend/app/agents/consensus.py:170-190 | the hypotheses come by the weight behind them; a chosen verdict that nobody voted for leads |
| Consensus.VerdictMonotone | backend/app/agents/consensus.py:74-76 | among the same voters more malice never softens the verdict |
| Consensus.FurtherVoter | backend/app/agents/consensus.py:74-75 | a further voter, in any place, keeps or raises the weighted malice exactly when it is at least the average so far |
| Consensus.FurtherVoterSoftens | backend/app/agents/consensus.py:74-76 | a further voter, in any place, softens the verdict exactly when for a threshold the others reach its weighted shortfall exceeds their weighted excess |
| Consensus.SandboxSoftens | backend/app/agents/consensus.py:64-76 | a detonation beside other evidence softens the decision exactly under that condition at the sandbox's weight |
| Consensus.HigherScoreHardens | backend/app/agents/consensus.py:64-76 | a higher score of a detonation that already counts never softens the decision |
| Consensus.WeakEvidenceSoftens | backend/app/agents/consensus.py:64-108 | beside an on-host sighting alone the verdict stays malicious exactly for sandbox scores of at least 0.4, and is suspicious below |
| Consensus.RankHypotheses | backend/app/agents/consensus.py:170-190 | the bucket loop computes the ranked hypotheses |
| Consensus.Decide | backend/app/agents/consensus.py:64-108 | the decision is that of the collected voters |

## Left out

- Postgres and Neo4j stores, sessions and migrations: they rest on database semantics that cannot be seen; the in-memory stores are modelled.
- Connectors, LLM providers, sandbox, EDR, email and ticketing: their answers are the replies the results quantify over.
- Indicator extraction, refanging and the merging of source entities into an extraction: what an extraction yields is part of its reply.
- Signals, timeline, evidence items, affected users, detections and error texts of the investigation state: they are appended to and steer no decision modelled here.
- The wording of reasons and outcomes, durations and start times of trace steps, task outcomes, plan nodes, logging and metrics: a step names its call, tool and parameters, so two attachments of one file name make different steps here although their reasons read alike.
- Finalizing and persisting a package, and a Temporal activity that exhausts its three attempts.
- Letter case outside ASCII: `lower` is modelled on the ASCII letters.
- The per-dimension scores and shared features `similarity` also returns, `compute` and `match`; fingerprints are inputs.
- Victims, techniques, times and attribution of a cluster, and `cluster_for`; the campaign query of the entity graph.
- Rationale texts and the reasoning chain of the consensus, and the rounding of the individual votes.
- The live request object that the in-memory approval store hands out: requests are values here, so a caller that changes one in place is not modelled.
- Cancellation of a dispatched run, the Temporal dispatch path, and the loss of in-process runs in a crash after their offset was committed; several Kafka partitions and rebalancing; the validation steps behind the valid/poison verdict.
- Floating-point rounding errors: scores are exact; only the final `round` calls are modelled.
