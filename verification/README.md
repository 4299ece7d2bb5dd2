# Zhixiao: a verified model of its graphs, protocols and state machines

A Dafny model of the parts of the Zhixiao agent platform that decide something: which workflows are accepted and how
they are routed, how the default agent loop spends its budgets and when it may call itself successful, how tasks,
evidence and knowledge graphs are ordered and searched, how events reach clients, how a team of roles takes turns, how
plugins are composed, how vectors are migrated, how conversations are compacted, and how a worker's result reaches the API.

`dafny verify dfyconfig.toml` checks the whole project. One module models one component:

| module | component |
|---|---|
| `WorkflowDsl`, `WorkflowValidation`, `WorkflowRun` | the workflow graph, its two validators, and a run through approval gate and nodes |
| `WorkflowNodes`, `WorkflowMoods`, `WorkflowOutcomes` | what the nodes of a workflow do by role, how they can come out, and which nodes a run can start |
| `AgentNodes`, `AgentLoop`, `AgentOutcomes` | the nodes of the default agent graph as functions of the state, whole runs of it, and what single decisions lead to |
| `EventWindow` | the bounded event list in the agent's state and what streaming it delivers |
| `Plans` | topological sort, incremental merge and progress of a task plan |
| `EvidenceGraph`, `EvidenceOrder` | the in-memory triple store, its breadth-first evidence search, and the order of what it finds |
| `GraphExploration` | exploring stored entities and relations under two limits |
| `ServerSentEvents`, `TextLines` | printing server-sent events and the two parsers that read them |
| `StreamCuts`, `SplitPairs`, `PairLines` | the parsers on a stream that is cut off, and on a line end cut between two reads |
| `EventDelivery` | the append-only event store, the server's cursor, the reconnecting client |
| `TeamBus` | the message bus with one cursor per role, and the round-robin team |
| `PluginTree` | applying plugins in passes until every inject is provided or nothing moves |
| `SummaryText`, `Compaction` | summary bullets as text, and compaction over whole conversations |
| `VectorMigration`, `Ids` | the in-memory vector store, migration, validation, rollback |
| `WorkerFeed`, `WorkerProtocol`, `ResultUsage` | a job's published events, the worker and API protocol, a result's usage totals |
| `Walks`, `Sequences`, `Results` | walks and cycles in graphs, sequences, options and results |

Objects whose methods change their fields are classes whose methods are proved against a specification on values; the
theorems are about those specifications. Model replies, tool results, test runs, clocks, connection failures, crashes,
orders a database does not promise and answers of roles are parameters, so every theorem holds for all of them.

Where the code falls short of what it is meant to do, the model keeps the code as it is, shows the shortcoming, and states
exactly when the code does meet the property:

- A plan's unfinished task with an empty id can never be finished (`Plans.FinishingCompletes`).
- Reaching the relation limit ends an exploration without setting `truncated` (`GraphExploration.SilentLimit`, `CompleteIff`).
  It is set where nothing was left out, though: when relations found before use up the room of a round, or one leads to an
  entity that is gone (`TruncatedIff`).
- Not every node of an accepted workflow can be started, as nodes hand on errors, failure and the discovered context
  (`WorkflowOutcomes.StartedIff`): a planner with no explorer before it always fails, so the starter workflow never gets
  past its first node (`StarterEndsAtPlanner`), and an explorer's or planner's success does not clear an error, so planning
  on an explorer's failure is in vain (`DetourIff`).
- Retrying a workflow node after an exception is in vain unless it is a tester, and a model error without a text, such as a
  time-out, counts as the node's success (`WorkflowNodes.RetryAfterRaiseFails`, `ModelErrorFailsIff`).
- A carriage return and line feed cut between two reads of the browser are not joined (`TextLines.NormalizeByReads`,
  `ServerSentEvents.CutPairLosesEvent`); `SplitPairs.CutPairIff` and `PairLines.HarmlessIff`
  say exactly when that changes the events delivered.
- The Python client dispatches or rejects an event that a body ends in, with the part of its payload that arrived
  (`StreamCuts.PythonCut`, `PythonCutIff`); the browser drops it (`BrowserCut`).
- A field line without a colon is read differently by the two parsers (`ServerSentEvents.BareDataLine`);
  `GatherAlikeIff` and `ChunkAlikeIff` say exactly which chunks they read alike. Sections 9.2.5 and 9.2.6 of the WHATWG HTML
  Living Standard read such a line as the Python parser does; they also keep the last event id across events, which
  neither parser does, and discard an event that is pending at the end of the stream, which the Python parser dispatches.
- A node that emits more than 40 events leaves a gap in the stream (`EventWindow.NoGapIff`).
- In workflow mode a budget, a model error or a turn too large for the tool budget inside a node's loop is repeated
  until the operator stops it (`AgentLoop.BudgetLoopsForever`, `InnerLoopRunsOnIff`).
- A line break in a tool's name or status loses part of its bullet at the next compaction (`Compaction.CompactedTrace`).
- A sub-agent numbers its events from 1 like the run it belongs to, so events of either are dropped
  (`WorkerFeed.SubAgentEventLost`, `AllPublishedIff`).
- A message the worker has read and not acknowledged is left "pending so another delivery can retry the callback", but the
  worker reads only new messages: a result whose callback was lost is applied only if the run is handed over again, and
  never once the run is given up (`WorkerProtocol.AppliedLaterIff`, `RecoverableIff`, `ResultLost`).
- A run with a cached result is never executed again: resuming it only replays that result, and a capability approved for a
  succeeded run is never used (`WorkerProtocol.ResumedRunsIff`, `InterruptedByResult`, `CapabilityNeverUsed`).

## Model

| member | source | states |
|---|---|---|
| WorkflowValidation.ValidateDefinition | packages/agent_core/src/zhixiao_agent/workflow.py:35-80 | The runtime accepts a definition if and only if ids are unique, the node it starts from is known, endpoints are known, no edge is a self-loop, conditions are deterministic, there is no directed cycle and every node is reachable from that node: the declared entrypoint, or the first node if none or an empty one is declared. It is filled in, and every error raised names a fault the graph has |
| WorkflowValidation.ValidateDsl | apps/api/app/schema/platform.py:319-374 | The API validator, which also rejects repeated edges and counts visits instead of comparing sets, accepts exactly the same graphs, from the declared entrypoint or else the first node |
| WorkflowValidation.RepeatedEdgeIsNondeterministic | apps/api/app/schema/platform.py:338-341 | A deterministic edge list has no repeated edge, which is why the extra check turns nothing further away |
| WorkflowValidation.BuildAdjacency | packages/agent_core/src/zhixiao_agent/workflow.py:44-52 | Both dictionaries describe the edges with multiplicity, or the first bad edge in order is the one reported |
| WorkflowValidation.CheckConditions | packages/agent_core/src/zhixiao_agent/workflow.py:53-58 | The per-node set-size and `always` tests report an error if and only if some node has two edges that could fire together |
| WorkflowValidation.ConditionTests | packages/agent_core/src/zhixiao_agent/workflow.py:54-58 | The two list tests together are pairwise compatibility of one node's edges |
| WorkflowValidation.DeterministicByNode | packages/agent_core/src/zhixiao_agent/workflow.py:53-58 | Checking node by node decides determinism of the whole edge list |
| WorkflowValidation.CountInDone | packages/agent_core/src/zhixiao_agent/workflow.py:64-65 | Retiring a node lowers each in-degree by exactly the number of that node's edges into it, parallel edges counted separately |
| WorkflowValidation.Retire | packages/agent_core/src/zhixiao_agent/workflow.py:64-67 | After one node is retired every count equals the edges from nodes still waiting, and exactly the newly free nodes have become pending |
| WorkflowValidation.Kahn | packages/agent_core/src/zhixiao_agent/workflow.py:59-69 | The worklist visits each node at most once and all of them if and only if the graph has no directed cycle |
| WorkflowValidation.KahnVerdict | packages/agent_core/src/zhixiao_agent/workflow.py:68-69 | When nothing is pending, an unvisited node exists if and only if there is a cycle |
| WorkflowValidation.Expand | packages/agent_core/src/zhixiao_agent/workflow.py:74-77 | One expansion keeps the flood sound: everything reached is reachable and everything expanded has its targets reached |
| WorkflowValidation.ReachableFrom | packages/agent_core/src/zhixiao_agent/workflow.py:70-79 | The second worklist returns exactly the nodes a walk from the entrypoint reaches |
| WorkflowValidation.ExplainedIsUnacceptable | packages/agent_core/src/zhixiao_agent/workflow.py:39-79 | No definition the errors describe is acceptable |
| WorkflowDsl.EntrypointIsOnlyRoot | packages/agent_core/src/zhixiao_agent/workflow.py:59-79 | In an accepted graph a node has no incoming edge if and only if it is the entrypoint |
| WorkflowDsl.NextNodeFires | packages/agent_core/src/zhixiao_agent/workflow.py:82-94 | `next_node` returns the target of an edge that fires for the outcome, and nothing only when no edge fires |
| WorkflowDsl.NextNodeFollowsTheFiringEdge | packages/agent_core/src/zhixiao_agent/workflow.py:85-94 | With deterministic conditions the routed node is t if and only if the one firing edge leads to t |
| WorkflowRun.StepKeepsInvariant | packages/agent_core/src/zhixiao_agent/runtime.py:898-965 | Every gate decision and every routing step keeps the visited nodes a walk from the entrypoint taken only after all approvals |
| WorkflowRun.WalksAreDistinct | packages/agent_core/src/zhixiao_agent/runtime.py:1076-1111 | A walk in an accepted graph meets no node twice |
| WorkflowRun.RunVisitsEachNodeAtMostOnce | packages/agent_core/src/zhixiao_agent/runtime.py:1076-1111 | Over all approval decisions and node outcomes, a run starts with the declared entrypoint or else the first node, starts no node twice, at most |nodes| nodes, and none before every approval-required node is approved |
| WorkflowRun.RunTerminates | packages/agent_core/src/zhixiao_agent/runtime.py:898-1111 | Every run of an accepted workflow ends within 2|nodes| + 3 routing steps |
| WorkflowRun.StepMakesProgress | packages/agent_core/src/zhixiao_agent/runtime.py:898-1111 | A measure falls with every gate and routing step |
| WorkflowRun.GateOpens | packages/agent_core/src/zhixiao_agent/runtime.py:898-965 | Granting each pending approval carries the run from the gate to the entrypoint, nothing visited yet |
| WorkflowRun.EveryNodeCanBeRouted | packages/agent_core/src/zhixiao_agent/workflow.py:82-94 | Routing alone keeps no node of an accepted workflow out: were every outcome possible, some decisions and outcomes would lead to it |
| WorkflowNodes.RetryAfterRaiseFails | packages/agent_core/src/zhixiao_agent/runtime.py:1008-1047 | A node other than a tester comes out failed if any attempt it made raised, however the others went, so retrying after an exception is in vain |
| WorkflowNodes.ModelErrorFailsIff | packages/agent_core/src/zhixiao_agent/runtime.py:1008-1047 | A node, planners included, whose last attempt meets a model error leaves the run marked failed, and comes out failed itself if and only if the error has a text or an earlier attempt raised |
| WorkflowNodes.SilentModelErrorSucceeds | packages/agent_core/src/zhixiao_agent/runtime.py:1026-1030 | An input on which that happens: one attempt, and a model error without a text comes out as a success of the node |
| WorkflowMoods.InvokeMay | packages/agent_core/src/zhixiao_agent/runtime.py:1008-1047 | However the attempts of a node go, it leaves context, error, failure and exit code in a way its role may, or the run ends there |
| WorkflowMoods.MayRealises | packages/agent_core/src/zhixiao_agent/runtime.py:1008-1047 | Every way a role may leave them is left by some attempts the node is allowed, all made at once and using up nothing but model turns |
| WorkflowOutcomes.RunIsRouted | packages/agent_core/src/zhixiao_agent/runtime.py:890-1111 | A run with the outcomes its nodes produce is routed as under free outcomes, so whatever holds for those holds for it |
| WorkflowOutcomes.GateDecides | packages/agent_core/src/zhixiao_agent/runtime.py:898-965 | While an approval is pending a denial ends the run for good, interrupted as denied and with no node started; a grant leaves it running without a reason |
| WorkflowOutcomes.RunEnds | packages/agent_core/src/zhixiao_agent/runtime.py:890-1111 | So such a run starts no node twice and ends within 2|nodes| + 3 steps |
| WorkflowOutcomes.PossibleIsShort | packages/agent_core/src/zhixiao_agent/runtime.py:1076-1111 | A possible walk has at most as many stops as there are nodes |
| WorkflowOutcomes.StartedIff | packages/agent_core/src/zhixiao_agent/runtime.py:890-1111 | Over all decisions, workspaces, replies, tool results, test runs and exceptions, under a clock that never runs back, some run starts a node if and only if some walk from the entrypoint to it is possible edge by edge, by what each role on it may leave behind |
| WorkflowOutcomes.PlannerFirstEndsRun | packages/agent_core/src/zhixiao_agent/runtime.py:334-349 | Where a planner comes first and no failure edge leaves it, no other node is ever started, as nothing has discovered the context it plans from |
| WorkflowOutcomes.StarterEndsAtPlanner | apps/web/src/views/Workflow/WorkflowStudio.vue:143 | The starter workflow is accepted, and none of its runs starts anything but its planner |
| WorkflowOutcomes.DetourIff | packages/agent_core/src/zhixiao_agent/runtime.py:342-349 | Behind a failed explorer a planner succeeds, and the implementer behind it is started, only in a run whose workspace may fail to be isolated |
| AgentNodes.RecordResults | packages/agent_core/src/zhixiao_agent/runtime.py:590-628 | The call-by-call recording loop computes the recursive account of failure counts, last error, calls run and mutation |
| AgentNodes.ExecuteTurn | packages/agent_core/src/zhixiao_agent/runtime.py:497-648 | An execute step keeps the account of calls within the budgets, runs all of a turn's calls or none of them, and fails exactly when it runs none |
| AgentNodes.ExecuteAccounts | packages/agent_core/src/zhixiao_agent/runtime.py:516-528 | Whatever the model answers, recorded turns and calls stay within budget, every call run is recorded, and mutation is recorded exactly when a call outside the read-only tools was run |
| AgentNodes.RunStages | packages/agent_core/src/zhixiao_agent/runtime.py:711-768 | The verification loop runs commands in order up to the first failure |
| AgentNodes.VerifyRun | packages/agent_core/src/zhixiao_agent/runtime.py:666-792 | The verify step selects the configured commands, or else the test command, or else the detected one, runs them up to the first that does not pass, and records verdict, exit code and error from what running them returned |
| AgentNodes.VerdictIs | packages/agent_core/src/zhixiao_agent/runtime.py:670-792 | `passed` if and only if there are commands and permission to run them and each exits with 0; `failed` with the exit code of the first that does not; otherwise `blocked` for unwaived mutating work, or `skipped` |
| AgentLoop.StepKeepsSound | packages/agent_core/src/zhixiao_agent/runtime.py:228-888 | Every node of the default graph, under any model reply, tool result, test run, decision and clock, keeps budgets, the account of calls and the meaning of the recorded verification |
| AgentLoop.SuccessIsVerified | packages/agent_core/src/zhixiao_agent/runtime.py:666-888 | A run that ends succeeded after any call outside the read-only tools carries an explicit waiver, or a verify after its last call ran every configured command, or else the test command, or else the detected one, and each of them passed |
| AgentNodes.VerifyVerifies | packages/agent_core/src/zhixiao_agent/runtime.py:666-792 | After verify the verdict is `passed` if and only if every selected command was run in order and passed, and `blocked` when mutating work had nothing to verify it and no waiver |
| AgentLoop.StickyForever | packages/agent_core/src/zhixiao_agent/runtime.py:1375-1403 | Once a budget, model, loop or runtime-error reason is recorded it stays, and the run never ends succeeded |
| AgentLoop.BudgetsHold | packages/agent_core/src/zhixiao_agent/runtime.py:205-218 | In every reachable state recorded model turns and tool calls are within budget and every call run is recorded |
| AgentLoop.OverflowRunsNothing | packages/agent_core/src/zhixiao_agent/runtime.py:503-528 | In any run, a turn whose calls would overflow the tool budget runs none of them and goes on to verify, and the run does not end succeeded, whatever follows |
| AgentLoop.StepBounded | packages/agent_core/src/zhixiao_agent/runtime.py:650-812 | A termination measure over iterations, repair rounds and node position falls with every step |
| AgentLoop.EveryRunEnds | packages/agent_core/src/zhixiao_agent/runtime.py:650-812 | Every run reaches the end, with at most (max_repair_rounds + 1) * max(1, max_tool_iterations) execute steps |
| AgentLoop.FailedLoopIsStuck | packages/agent_core/src/zhixiao_agent/runtime.py:1014-1018 | In workflow mode a failed execute that leaves its tool-call flag set and iterations unspent is repeated for ever without changing the state |
| AgentLoop.InnerLoopRunsOnIff | packages/agent_core/src/zhixiao_agent/runtime.py:1014-1018 | Given inputs for the remaining iterations, the workflow's inner loop is still running if and only if one of the inputs met an exhausted budget, a model error, a turn too large for the tool budget, or an already failed or interrupted state |
| AgentLoop.RunsOnForever | packages/agent_core/src/zhixiao_agent/runtime.py:1014-1018 | After such an input no further ones end the loop or change its state |
| AgentLoop.BudgetLoopsForever | packages/agent_core/src/zhixiao_agent/runtime.py:1014-1018 | A budget that runs out inside the workflow's inner loop keeps it going for ever in the failed state |
| AgentOutcomes.PlanWaitsIff | packages/agent_core/src/zhixiao_agent/runtime.py:318-409 | A plan that was made waits for approval exactly when approval is required, the run may touch files and none was given; a failed one ends the run |
| AgentOutcomes.DeniedEndsRun | packages/agent_core/src/zhixiao_agent/runtime.py:411-437 | A denied plan ends the run interrupted with nothing executed, whatever else comes |
| AgentOutcomes.GrantedGoesOn | packages/agent_core/src/zhixiao_agent/runtime.py:411-496 | A granted plan goes on to the workspace and to execute, marked failed if the workspace could not be isolated |
| AgentOutcomes.ExhaustedStops | packages/agent_core/src/zhixiao_agent/runtime.py:205-218 | Once turns, calls, tokens, cost or time reach their limit an execute step asks and runs nothing, and the run does not end succeeded |
| AgentOutcomes.TurnIsCharged | packages/agent_core/src/zhixiao_agent/runtime.py:516-593 | An answered turn adds one turn, its calls, its tokens and its cost to the usage |
| AgentOutcomes.GoesOnIff | packages/agent_core/src/zhixiao_agent/runtime.py:650-664 | After a turn without a loop execution goes on if and only if the turn called tools, iterations are left and no limit is reached |
| AgentOutcomes.RecordCounts | packages/agent_core/src/zhixiao_agent/runtime.py:590-617 | A turn counts each failed call under its cause, and its error is the cause of its last failed call |
| AgentOutcomes.LoopIsStopped | packages/agent_core/src/zhixiao_agent/runtime.py:618-648 | When the last three calls of a run are the same, or three of its calls failed for one cause, execution ends with a tool loop and the run does not end succeeded; any other turn keeps the reason there is and ends in the error of its last failed call |
| AgentOutcomes.RepairIff | packages/agent_core/src/zhixiao_agent/runtime.py:794-818 | After tests that failed, with a repair round left, the run is executed again in the next round; otherwise it ends, and failed if they failed |
| AgentOutcomes.EndsAs | packages/agent_core/src/zhixiao_agent/runtime.py:820-888 | A run ends failed if its verification failed or is blocked, a limit is reached or a budget, model, loop or workspace failure was recorded, and succeeded otherwise, with the reason that comes first |
| AgentOutcomes.CalmRunSucceeds | packages/agent_core/src/zhixiao_agent/runtime.py:228-888 | A run in which the model answers, plans are granted and tests pass ends succeeded and completed after one execute step |
| EventWindow.WindowIsTail | packages/agent_core/src/zhixiao_agent/runtime.py:149-163 | The event list in the state is always the last at most 40 events of the full log |
| EventWindow.TailIsConsecutive | packages/agent_core/src/zhixiao_agent/runtime.py:149-163 | Its events carry consecutive sequence numbers ending at the number of events emitted |
| EventWindow.StreamUpdates | packages/agent_core/src/zhixiao_agent/runtime.py:1211-1232 | The streaming loop computes the delivery function the theorems are about |
| EventWindow.RunStreams | packages/agent_core/src/zhixiao_agent/runtime.py:1211-1232 | Over a whole run the listener is handed, node by node, exactly the last 40 events each node emitted |
| EventWindow.KeptIncreasing | packages/agent_core/src/zhixiao_agent/runtime.py:1211-1232 | Delivered sequence numbers strictly increase and every delivered event was emitted |
| EventWindow.NoGapIff | packages/agent_core/src/zhixiao_agent/runtime.py:149-163 | The listener misses nothing if and only if no node emits more than 40 events |
| Plans.TopologicalSort | packages/agent_core/src/zhixiao_agent/metagpt/plan.py:61-82 | The sort raises if and only if the dependencies among the given ids contain a cycle; otherwise each distinct id appears once, as last declared, after its in-list dependencies |
| Plans.Sorter.Visit | packages/agent_core/src/zhixiao_agent/metagpt/plan.py:67-78 | The recursive visit either emits a task with everything it depends on, restoring the path, or has found a cycle |
| Plans.SortedMeansAcyclic | packages/agent_core/src/zhixiao_agent/metagpt/plan.py:61-82 | An order with dependencies first exists only without a cycle |
| Plans.Plan.AddTasks | packages/agent_core/src/zhixiao_agent/metagpt/plan.py:43-59 | An addition is refused exactly on a cycle, then nothing changes; otherwise the longest agreeing prefix is kept and the rest is the new sorted list |
| Plans.Plan.UpdateCurrentTask | packages/agent_core/src/zhixiao_agent/metagpt/plan.py:84-91 | The current id is that of the first unfinished task, or empty |
| Plans.Plan.FinishCurrentTask | packages/agent_core/src/zhixiao_agent/metagpt/plan.py:97-101 | Exactly the current task is marked, and the next first unfinished one becomes current |
| Plans.Plan.IsFinished | packages/agent_core/src/zhixiao_agent/metagpt/plan.py:103-104 | True exactly for a non-empty plan with every task finished |
| Plans.FinishedIsPrefix | packages/agent_core/src/zhixiao_agent/metagpt/plan.py:43-101 | Over any history of fresh additions and finishes, finished tasks are a prefix of the plan |
| Plans.FreshAdditionRefreshes | packages/agent_core/src/zhixiao_agent/metagpt/plan.py:43-59 | What an accepted addition of fresh tasks does to the plan is a step of such a history |
| Plans.MergedIds | packages/agent_core/src/zhixiao_agent/metagpt/plan.py:50-58 | The merged plan has the ids of the newly sorted list, in its order |
| Plans.CurrentIsReady | packages/agent_core/src/zhixiao_agent/metagpt/plan.py:84-95 | The current task has every in-plan dependency, as last declared, finished |
| Plans.FinishingCompletes | packages/agent_core/src/zhixiao_agent/metagpt/plan.py:97-104 | Finishing as often as tasks are unfinished completes the plan if and only if no unfinished task has an empty id |
| Plans.NamelessTaskNeverFinishes | packages/agent_core/src/zhixiao_agent/metagpt/plan.py:97-100 | A task with an empty id is never finished, however often |
| EvidenceGraph.InMemoryGraphStore.UpsertTriples | packages/agent_core/src/zhixiao_agent/rag/graph.py:113-116 | Storing keeps every stored triple, adds each new one once under its subject, and nothing else |
| EvidenceGraph.InMemoryGraphStore.Neighbors | packages/agent_core/src/zhixiao_agent/rag/graph.py:118-149 | The result is the first `limit` entries of one block for each distinct entity, by where it first occurs, and each block holds exactly the stored triples within the hops of its entity, once, nearest first, with real chains; fewer than one hop is refused |
| EvidenceOrder.BreadthFirst | packages/agent_core/src/zhixiao_agent/rag/graph.py:125-148 | The triples found from one seed are those stored under a list of subjects, subject by subject in the order stored, and the subjects are the seed and then the objects by where each is found first |
| EvidenceGraph.InMemoryGraphStore.SearchSeed | packages/agent_core/src/zhixiao_agent/rag/graph.py:125-148 | The queue loop with its limit checks yields the first entries of the level-by-level search |
| EvidenceGraph.SeedEvidenceIs | packages/agent_core/src/zhixiao_agent/rag/graph.py:124-148 | Without a limit a seed yields exactly the stored triples whose subject is at shortest distance d < max_hops, each once, nearest first, with hops d + 1 and a chain that is a real walk of that length |
| EvidenceGraph.LevelStep | packages/agent_core/src/zhixiao_agent/rag/graph.py:131-146 | The next level is exactly the nodes at the next shortest distance, each once, with a real chain |
| GraphExploration.Explore | apps/api/app/service/platform_service.py:1479-1541 | The exploration returns live entities within `depth` hops and relations among them, within both limits; when `truncated` is false below the relation limit, exactly all of those entities |
| GraphExploration.Round | apps/api/app/service/platform_service.py:1489-1541 | One pass of the loop is one specified round |
| GraphExploration.LimitsHold | apps/api/app/service/platform_service.py:1483-1541 | After every round |entities| is at most limit, |relations| at most min(2 * limit, 200), everything returned is live and both ends of every relation are returned |
| GraphExploration.OnlyTheBall | apps/api/app/service/platform_service.py:1489-1541 | Cut off or not, k rounds return only entities within k undirected hops of the seeds |
| GraphExploration.CompleteUnlessCut | apps/api/app/service/platform_service.py:1483-1541 | When `truncated` is false and the relation limit is not reached, the entities are exactly the live ones within `depth` hops, and the relations exactly those around the entities within depth - 1 |
| GraphExploration.CompleteIff | apps/api/app/service/platform_service.py:1489-1491 | When `truncated` is false, the entities are those within `depth` hops if and only if, for every k below depth, fewer relations than the limit touch the entities within k - 1 hops, or no live entity is exactly k + 1 hops away |
| GraphExploration.TruncatedIff | apps/api/app/service/platform_service.py:1460-1541 | After k rounds something is reported cut off if and only if there were more matches than the limit, or some round met more relations (those found before counted again) or live entities than fit, or a relation to an entity that is gone |
| GraphExploration.SilentLimit | apps/api/app/service/platform_service.py:1490-1491 | A concrete space where the relation limit ends the rounds, an entity two hops away is missing, and nothing is reported cut off |
| GraphExploration.BallIsHops | apps/api/app/service/platform_service.py:1489-1541 | The entities within n hops are those a walk of at most n live undirected relations reaches from a seed |
| ServerSentEvents.ParseChunk | apps/web/src/composables/useSSE.ts:82-104 | The browser's chunk parser computes the chunk's outcome; undecodable and empty chunks yield nothing |
| ServerSentEvents.ReadLoop | apps/web/src/composables/useSSE.ts:47-66 | The buffer loop delivers exactly the events of the concatenated normalised reads, keeps the incomplete rest and the last id, however the text is split |
| ServerSentEvents.ParseSse | packages/agent_core/src/zhixiao_agent/remote.py:42-79 | The Python generator computes the specified parse: events up to the first undecodable payload, and a pending event at the end |
| ServerSentEvents.StreamRoundTrip | apps/api/app/router/platform.py:482-511 | The browser gives back exactly the printed events, heartbeats left out and nothing left in the buffer |
| ServerSentEvents.PythonRoundTrip | apps/api/app/router/platform.py:482-511 | The Python client inverts the printer |
| ServerSentEvents.AnySplitRoundTrip | apps/web/src/composables/useSSE.ts:47-66 | However the server's text is cut into reads, the browser delivers the events sent, the same as the Python client |
| ServerSentEvents.DataOverLines | packages/agent_core/src/zhixiao_agent/remote.py:47-57 | A text sent as data line by line is what both parsers decode, whatever it is |
| ServerSentEvents.SplitsAgree | apps/web/src/composables/useSSE.ts:47-66 | Any two ways of cutting one text into reads, neither through a carriage return and line feed, deliver the same events and leave the same rest |
| ServerSentEvents.ParsersAgree | packages/agent_core/src/zhixiao_agent/remote.py:42-79 | On any text whose chunks both parsers read alike, the Python parser yields what the browser's chunks yield up to the first undecodable one, and besides what follows the last blank line |
| ServerSentEvents.PythonByChunks | packages/agent_core/src/zhixiao_agent/remote.py:42-79 | On any text at all the Python parser replays the browser's chunks, each read by its own rules |
| ServerSentEvents.GatherAlikeIff | apps/web/src/composables/useSSE.ts:86-96 | From one chunk both parsers gather the same data lines if and only if none is a bare `data`, and the same id, or name, if and only if the last line naming it has a colon or the last with a colon is empty |
| ServerSentEvents.ChunkAlikeIff | apps/web/src/composables/useSSE.ts:97-103 | Both parsers make the same of a chunk if and only if its data decode alike and, when that is an event, its last `id` and `event` lines agree |
| ServerSentEvents.OutcomesAlikeIff | packages/agent_core/src/zhixiao_agent/remote.py:47-57 | Both make the same of a sequence of chunks if and only if every chunk is alike to both |
| ServerSentEvents.BareDataLine | apps/web/src/composables/useSSE.ts:89-90 | On a `data` line without a colon the two parsers differ |
| ServerSentEvents.CutPairLosesEvent | apps/web/src/composables/useSSE.ts:55 | A carriage return and line feed cut between two reads loses an event the uncut text carries |
| SplitPairs.CutPairIff | apps/web/src/composables/useSSE.ts:55-64 | Among any reads, a pair cut between two of them leaves the delivered events as they are if and only if it is harmless where it is: behind a chunk, another empty line follows, or the chunk runs into the next one without loss; at the end of another line, its chunk delivers the same with the carriage return left in it |
| PairLines.HarmlessIff | apps/web/src/composables/useSSE.ts:55-104 | Line by line, that is: the line with the carriage return is no field the parser knows, or a later line names the same id or event again, or the chunk delivers nothing, or the data decode the same with it; and of two chunks run into one at most one is an event, whose data read the same with the other's and whose id and name are still its own |
| PairLines.KeepsReturnIff | apps/web/src/composables/useSSE.ts:86-104 | A carriage return left in one line changes what its chunk delivers unless the field it is in is unknown, given again later, or decodes the same |
| PairLines.RunsOnIff | apps/web/src/composables/useSSE.ts:86-104 | Two chunks with nothing but a carriage return between them deliver what each delivers, if and only if at most one of them is an event and the other takes nothing from it and adds nothing to it |
| SplitPairs.BetweenEvents | apps/web/src/composables/useSSE.ts:55-64 | In the blank line between two events, or behind the last one, a cut pair always does harm |
| StreamCuts.BrowserCut | apps/web/src/composables/useSSE.ts:47-66 | Wherever the printed stream is cut off, and however it is read, the browser delivers a prefix of the events sent |
| StreamCuts.PythonCut | packages/agent_core/src/zhixiao_agent/remote.py:42-79 | Wherever it is cut off, the Python client has the events sent before the cut, and of the event cut through nothing before its data, afterwards an event with the part of the payload that is there, or an error |
| StreamCuts.PythonCutIff | packages/agent_core/src/zhixiao_agent/remote.py:74-79 | Every cut leaves the Python client a prefix of the events sent if and only if no part of a payload decodes to something other than that payload |
| TextLines.NormalizeByReads | apps/web/src/composables/useSSE.ts:55 | Normalising read by read equals normalising the whole text if and only if no read boundary cuts a pair |
| TextLines.ChunksAppend | apps/web/src/composables/useSSE.ts:56-64 | Complete chunks stay and the rest is carried over, wherever the text is cut |
| EventDelivery.MemoryEventStore.Publish | apps/api/app/core/events.py:34-41 | Publishing appends to one run's log under the next number and leaves every other log alone |
| EventDelivery.MemoryEventStore.Read | apps/api/app/core/events.py:43-61 | A read returns the run's events beyond the cursor at once if there are any or it does not block; otherwise others publish meanwhile, and it returns what there is then if it is woken, and nothing if its time is out |
| EventDelivery.MemoryEventStore.Available | apps/api/app/core/events.py:44-50 | What is available is exactly the run's events with a greater number than the cursor, in order |
| EventDelivery.RunKeepsInvariant | packages/agent_core/src/zhixiao_agent/remote.py:209-246 | Every interleaving of publishes, reads, sends, receipts, drops and reconnects keeps client, wire, batch and cursor adjacent positions of one log |
| EventDelivery.DeliveredIsPrefix | packages/agent_core/src/zhixiao_agent/remote.py:209-246 | What the callback has been handed is always a prefix of the run's log after the initial cursor: in order, no gap, no duplicate, over any drops and reconnects |
| EventDelivery.LogIsPublished | apps/api/app/core/events.py:34-41 | The log of a run is what was published for it, in order, numbered over all publications, whatever else happens |
| EventDelivery.CatchesUp | packages/agent_core/src/zhixiao_agent/remote.py:209-246 | From every reachable state a client that has not stopped can be handed everything published after its cursor, by connecting if need be, reading, sending and receiving alone |
| EventDelivery.NextArrives | packages/agent_core/src/zhixiao_agent/remote.py:230-237 | On an idle connection one read, one send and one receipt hand on exactly the next event, if there is one |
| EventDelivery.ReconnectResumes | packages/agent_core/src/zhixiao_agent/remote.py:216-221 | A dropped connection loses what was under way, and the next one asks for what comes after the last event handed on |
| EventDelivery.StoppedStays | packages/agent_core/src/zhixiao_agent/remote.py:238-246 | A client that has stopped is handed nothing more, and stops only when told |
| EventDelivery.SeenIsDelivered | packages/agent_core/src/zhixiao_agent/remote.py:231-235 | The ids a client knows are those of the events it was handed |
| EventDelivery.QuiescentMeansComplete | apps/api/app/router/platform.py:501-511 | When a connected client has consumed everything the server could read, nothing after the cursor is missing |
| EventDelivery.NothingArrivesTwice | packages/agent_core/src/zhixiao_agent/remote.py:231-235 | The client's duplicate filter never drops anything |
| EventDelivery.CursorOfIdText | apps/api/app/core/events.py:38-49 | An id written as text is read back as the same cursor |
| TeamBus.Environment.AddRole | packages/agent_core/src/zhixiao_agent/metagpt/environment.py:19-21 | Adding a role keeps its cursor when it has one |
| TeamBus.Environment.RemoveRole | packages/agent_core/src/zhixiao_agent/metagpt/environment.py:23-27 | Removing a role forgets its cursor and what it published, and touches nothing else |
| TeamBus.Environment.PublishMessage | packages/agent_core/src/zhixiao_agent/metagpt/environment.py:29-32 | Publishing appends under the publisher's name to the queue and to what that publisher has published, and keeps what every role has consumed exactly the interesting part of the queue up to its cursor |
| TeamBus.Environment.ConsumeMessagesForRole | packages/agent_core/src/zhixiao_agent/metagpt/environment.py:34-52 | A role consumes all it has unread; its consumed batches together stay exactly the queue up to its cursor filtered by its interest |
| TeamBus.Environment.ClearQueue | packages/agent_core/src/zhixiao_agent/metagpt/environment.py:54-56 | The queue is emptied, every role starts at 0, and what was published is remembered |
| TeamBus.InterestingIs | packages/agent_core/src/zhixiao_agent/metagpt/environment.py:34-47 | A role hears, each where it stands in the queue, exactly the messages of others it watches, or of all others if it watches none |
| TeamBus.AnswerIsHeard | packages/agent_core/src/zhixiao_agent/metagpt/environment.py:29-52 | After a turn the speaker has nothing unread, and what it said is the next thing for each role it is meant for |
| TeamBus.LastSaidIs | packages/agent_core/src/zhixiao_agent/metagpt/team.py:49-58 | The results hold the last thing said under each name |
| TeamBus.Team.Hire | packages/agent_core/src/zhixiao_agent/metagpt/team.py:18-21 | Hiring replaces a role of the same name where it stands or adds it at the end |
| TeamBus.HiredOneIs | packages/agent_core/src/zhixiao_agent/metagpt/team.py:18-21 | Names stay distinct, and the new role displaces exactly its namesake |
| TeamBus.Team.Disband | packages/agent_core/src/zhixiao_agent/metagpt/team.py:23-26 | Disbanding removes exactly the named roles |
| TeamBus.WithoutIs | packages/agent_core/src/zhixiao_agent/metagpt/team.py:23-26 | Exactly the roles not named remain, in order |
| TeamBus.Team.GetNextRole | packages/agent_core/src/zhixiao_agent/metagpt/team.py:64-74 | The choice is the nearest role with something unread, going round; none only when nobody has |
| TeamBus.Team.TakeTurn | packages/agent_core/src/zhixiao_agent/metagpt/team.py:38-60 | The chosen role consumes what it has unread and its answer to the last of it is published, remembered and recorded |
| TeamBus.Team.Run | packages/agent_core/src/zhixiao_agent/metagpt/team.py:28-62 | A run makes at most max_iterations turns, stops early only when nobody has anything unread, and leaves results, memory and an empty queue that match what was said |
| TeamBus.PickedInTurn | packages/agent_core/src/zhixiao_agent/metagpt/team.py:64-74 | A role with something unread is picked within |roles| turns |
| TeamBus.HeardThenUnread | packages/agent_core/src/zhixiao_agent/metagpt/environment.py:34-52 | In every run, what a role consumed followed by what is still unread is exactly the queue after its first cursor filtered by its interest: once, in order |
| TeamBus.QuietMeansAllHeard | packages/agent_core/src/zhixiao_agent/metagpt/team.py:34-37 | When a run stops early every role has heard everything that interests it |
| PluginTree.PluginHost.Apply | packages/agent_core/src/zhixiao_agent/plugin.py:105-108 | Providing succeeds if and only if the keys are distinct and new, and then adds exactly them |
| PluginTree.PluginHost.ApplyTree | packages/agent_core/src/zhixiao_agent/plugin.py:481-516 | Duplicate names are refused first; otherwise plugins are applied in a feasible order, each once, until all are applied or none of the rest is enabled; with exclusive keys it succeeds if and only if some order satisfies every inject |
| PluginTree.StoppedIsMaximal | packages/agent_core/src/zhixiao_agent/plugin.py:487-516 | No feasible order over the same plugins applies anything that was not applied |
| PluginTree.AppliedSetIsOrderFree | packages/agent_core/src/zhixiao_agent/plugin.py:487-516 | The set applied before getting stuck does not depend on the input order |
| PluginTree.StoppedCompleteIffSolvable | packages/agent_core/src/zhixiao_agent/plugin.py:511-516 | Everything is applied if and only if some order satisfies every inject |
| Compaction.CompactMessages | packages/agent_core/src/zhixiao_agent/context_compact.py:36-72 | Bad limits are refused in order, a conversation within budget is returned as it is, and otherwise the result is the specified compaction |
| Compaction.MaybeCompactMessages | packages/agent_core/src/zhixiao_agent/context_compact.py:75-84 | Within the budget nothing is checked, not even the limits |
| Compaction.SplitLeading | packages/agent_core/src/zhixiao_agent/context_compact.py:87-105 | The loop splits off exactly the longest run of system prompts and fixed user messages that hold no summary tag |
| Compaction.BuildSummary | packages/agent_core/src/zhixiao_agent/context_compact.py:108-133 | The summary holds exactly the bullets of the older messages, in order, or there is none |
| Compaction.TurnBullet | packages/agent_core/src/zhixiao_agent/context_compact.py:136-151 | A turn's bullet names the tools it calls and shows what it says, shortened, or says that it is empty |
| Compaction.ToolsBullet | packages/agent_core/src/zhixiao_agent/context_compact.py:154-174 | A tool's bullet shows its name, its status and its summary, as far as the message has them |
| Compaction.OtherBullets | packages/agent_core/src/zhixiao_agent/context_compact.py:115-127 | Users are kept shortened, and of system messages only an earlier summary's bullets |
| Compaction.ActsOverBudget | packages/agent_core/src/zhixiao_agent/context_compact.py:43-72 | A compaction with valid limits acts on a conversation over its budget and on no other |
| Compaction.LeadsIff | packages/agent_core/src/zhixiao_agent/context_compact.py:87-105 | System prompts lead, and user messages that hold a marker, unless they hold a summary tag |
| Compaction.CharsAddUp | packages/agent_core/src/zhixiao_agent/context_compact.py:43-52 | Characters add up message by message, a message's calls by their length as text |
| Compaction.CompactedShape | packages/agent_core/src/zhixiao_agent/context_compact.py:55-72 | A compacted conversation is the leading messages, at most one summary and an unchanged end of at least 2 * keep_pairs messages that does not begin with a tool message |
| Compaction.CompactedExtent | packages/agent_core/src/zhixiao_agent/context_compact.py:60-65 | More than 2 * keep_pairs messages are kept only to reach back over tool messages |
| Compaction.TurnIsKept | packages/agent_core/src/zhixiao_agent/context_compact.py:60-65 | Every kept tool message has the turn it answers kept before it, with nothing but tool messages between |
| Compaction.AnswersStayInTurn | packages/agent_core/src/zhixiao_agent/context_compact.py:36-72 | Over any sequence of additions and compactions every tool message keeps following an assistant turn or another tool message, given that each did when it was added |
| Compaction.CompactedTrace | packages/agent_core/src/zhixiao_agent/context_compact.py:67-72 | A compaction keeps every bullet of the conversation in order if and only if no summarised message has a line break in a tool name or status |
| Compaction.BulletsPlain | packages/agent_core/src/zhixiao_agent/context_compact.py:136-174 | A bullet reads back as itself if and only if the names and status it shows hold no line break |
| Compaction.BrokenNameForgotten | packages/agent_core/src/zhixiao_agent/context_compact.py:120-127 | A tool name over two lines loses half its bullet at the next compaction |
| Compaction.NothingForgotten | packages/agent_core/src/zhixiao_agent/context_compact.py:36-133 | Over any sequence of additions and compactions every message ever added leaves its bullet, once and in order, given unbroken names and statuses |
| Compaction.OneSummaryEver | packages/agent_core/src/zhixiao_agent/context_compact.py:36-133 | Over any sequence of additions and compactions there is at most one summary, directly behind the leading messages |
| Compaction.LeadingStays | packages/agent_core/src/zhixiao_agent/context_compact.py:87-105 | Leading messages stay verbatim in front, however often the conversation is compacted |
| SummaryText.SummaryRereadIff | packages/agent_core/src/zhixiao_agent/context_compact.py:120-133 | A summary's bullets are read back as they were written if and only if each is one line without trailing white space |
| SummaryText.WordsAre | packages/agent_core/src/zhixiao_agent/context_compact.py:177-181 | The words of a text are its longest stretches without white space, in order |
| SummaryText.ShortenKeeps | packages/agent_core/src/zhixiao_agent/context_compact.py:177-181 | A text whose words fit into 160 characters keeps them all; of a longer one the first 157 characters stay, and three dots |
| SummaryText.StripIs | packages/agent_core/src/zhixiao_agent/context_compact.py:122-127 | Stripping takes white space off both ends and nothing else |
| SummaryText.ShortenIsTidy | packages/agent_core/src/zhixiao_agent/context_compact.py:177-181 | Shortened text is one line of at most 160 characters that does not end in white space |
| SummaryText.MarkedReread | packages/agent_core/src/zhixiao_agent/context_compact.py:122-127 | Any bullet leaves at least one line to be read back, and itself only if it is plain |
| VectorMigration.InMemoryVectorStore.Upsert | packages/agent_core/src/zhixiao_agent/rag/vector.py:102-110 | A batch is refused for mixing embedding sizes, or for another size than what is stored, and for nothing else; otherwise each of its ids is stored with its last record and every other id keeps what it had |
| VectorMigration.InMemoryVectorStore.Batches | packages/agent_core/src/zhixiao_agent/rag/vector.py:139-144 | Batches hand out every record once, by ascending id, each of exactly the batch size but for a smaller last one that is not empty; a batch size below one is refused |
| VectorMigration.InMemoryVectorStore.Get | packages/agent_core/src/zhixiao_agent/rag/vector.py:128-129 | The records found are those stored under the present ids, in the order asked |
| VectorMigration.InMemoryVectorStore.Delete | packages/agent_core/src/zhixiao_agent/rag/vector.py:131-134 | Exactly the given ids disappear |
| VectorMigration.AcceptedIff | packages/agent_core/src/zhixiao_agent/rag/vector.py:102-109 | A non-empty batch is accepted if and only if its embeddings share one dimension, the store's if it has any |
| VectorMigration.MigrateVectors | packages/agent_core/src/zhixiao_agent/rag/vector.py:533-555 | A migration, of a store into itself too, attempts every batch, then its records one by one where the batch fails, and reports what the specification says |
| VectorMigration.MigrateBatch | packages/agent_core/src/zhixiao_agent/rag/vector.py:541-555 | A batch is taken whole or, when refused, record by record |
| VectorMigration.CallsCount | packages/agent_core/src/zhixiao_agent/rag/vector.py:541-555 | One call for a batch, and one more for each of its records when it fails as a whole |
| VectorMigration.EveryRecordAccounted | packages/agent_core/src/zhixiao_agent/rag/vector.py:533-555 | Whatever fails, every source record is either migrated or failed, never both, none twice, and the target gains exactly the migrated ones |
| VectorMigration.SameInAnyBatches | packages/agent_core/src/zhixiao_agent/rag/vector.py:533-555 | With failures decided by the records, the migrated set, the failed set and the target do not depend on the batch size: all good records when dimensions agree, none otherwise |
| VectorMigration.CleanCopy | packages/agent_core/src/zhixiao_agent/rag/vector.py:533-555 | A migration into an empty store is a faithful copy if and only if nothing failed |
| VectorMigration.AllRecords | packages/agent_core/src/zhixiao_agent/rag/vector.py:558-562 | Gathering the batches gives back the store |
| VectorMigration.ValidateStores | packages/agent_core/src/zhixiao_agent/rag/vector.py:565-587 | The report is consistent if and only if both stores hold the same, and it lists exactly the missing, extra and differing ids in order |
| VectorMigration.RollbackVectors | packages/agent_core/src/zhixiao_agent/rag/vector.py:590-594 | Exactly the given ids disappear and the number deleted is of those that were there |
| VectorMigration.RollbackRestoresIff | packages/agent_core/src/zhixiao_agent/rag/vector.py:590-594 | Rolling back the migrated ids restores the target if and only if none of them was in it before |
| Ids.SortedIds | packages/agent_core/src/zhixiao_agent/rag/vector.py:142 | The ids of a set in strictly ascending order, none missing |
| WorkerFeed.JobFeed.OnEvent | apps/worker/main.py:588-595 | A live event is published unless its positive sequence number was seen |
| WorkerFeed.JobFeed.PublishResult | apps/worker/main.py:478-505 | The remaining events are published, and a closing entry of its own only when no finished run was |
| WorkerFeed.JobFeed.Process | apps/worker/main.py:588-744 | A job puts on its stream a `run` entry once its workspace is prepared, its fresh live events, what its result still holds, and a closing entry if none of them was one |
| WorkerFeed.ProjectedIs | apps/worker/main.py:425-457 | One entry of the event's kind, by its name, and behind a tool's result one more for the terminal |
| WorkerFeed.JobBegins | apps/worker/main.py:597-602 | A job begins with `run` exactly when its workspace was prepared, and one that never got so far only ends |
| WorkerFeed.JobEnds | apps/worker/main.py:478-505 | A job publishes as many `task_end` entries as finished runs, but at least one |
| WorkerFeed.ClosedOnce | apps/worker/main.py:588-744 | When the run finishes at most once under one positive sequence number, its job publishes exactly one `task_end`, whether it returned, was interrupted or raised |
| WorkerFeed.ClosedOnceIff | apps/worker/main.py:588-744 | A job publishes exactly one `task_end` if and only if at most one finished run gets through, live and from the result together |
| WorkerFeed.AllPublishedIff | apps/worker/main.py:588-595 | The stream holds every live event once if and only if no positive sequence number is used twice |
| WorkerFeed.SubAgentEventLost | packages/agent_core/src/zhixiao_agent/subagent.py:55-65 | A run and its sub-agent both number from 1 through one callback, so the sub-agent's first event is dropped |
| WorkerProtocol.TaskRun.ApplyWorkerResult | apps/api/app/service/platform_service.py:1049-1102 | A result is refused for a wrong run or status. The first one sets diff, usage, budgets and verification, and status, step, reason and error as it says; a success without passing or waived verification fails a run that may write. Later ones change nothing |
| WorkerProtocol.StepKeepsSound | apps/worker/main.py:578-787 | Every creation, approval, rejection, interruption, resumption, delivery, execution, callback, acknowledgement and crash keeps worker, cache, runs and the record of applications consistent |
| WorkerProtocol.AppliedAtMostOnce | apps/api/app/service/platform_service.py:1059-1061 | Over any hand-overs, crashes and lost callbacks no run has a result applied twice |
| WorkerProtocol.AppliedIsCached | apps/worker/main.py:581-584 | What was applied is what the worker cached, under the run's own number |
| WorkerProtocol.CacheIsFinal | apps/worker/main.py:581-584 | Once cached a result never changes and its run is never executed again |
| WorkerProtocol.AppliedIsFinal | apps/api/app/service/platform_service.py:1059-1061 | Once a result is applied no later callback changes the row, and the operator can move only its status, finishing time and error, never to succeeded |
| WorkerProtocol.ExecutedAgainIff | apps/worker/main.py:756-787 | Without being handed over again a run is executed if and only if no result is cached for it and its message is unread or in the worker's hands |
| WorkerProtocol.AppliedLaterIff | apps/worker/main.py:756-787 | A cached result whose callback was lost is applied without a new hand-over if and only if a message for the run is unread or in the worker's hands; the one left pending for another delivery does not count |
| WorkerProtocol.RecoverableIff | apps/api/app/service/platform_service.py:880-900 | Such a result can be applied at all if and only if the run is not given up: failed or cancelled, decided, and without a message |
| WorkerProtocol.ResultLost | apps/api/app/service/platform_service.py:880-900 | A history that gives a run with a finished result up: its callback is lost and its resumption does not reach the queue |
| WorkerProtocol.ResumedRunsIff | apps/api/app/service/platform_service.py:880-900 | A resumed run can be executed again if and only if no result is cached for it |
| WorkerProtocol.InterruptedEarly | apps/api/app/service/platform_service.py:858-863 | A run interrupted before it was executed can be resumed and has no cached result |
| WorkerProtocol.InterruptedByResult | apps/api/app/service/platform_service.py:880-884 | A run whose execution came out interrupted can be resumed although its result is cached |
| WorkerProtocol.CapabilityNeverUsed | apps/api/app/service/platform_service.py:800-834 | A capability approved for a succeeded run hands it over again, but it is never executed again |
| WorkerProtocol.SucceededIsVerified | apps/api/app/service/platform_service.py:1075-1102 | A write-capable run is stored as succeeded only if its result succeeded and its verification passed or was waived, or, where it names no outcome, its test command exited with 0 |
| WorkerProtocol.UnverifiedIsBlocked | apps/api/app/service/platform_service.py:1082-1102 | A first result that claims success for a write-capable run without that leaves it not succeeded, finalized, `verification_blocked` and not passed, over any later history |
| WorkerProtocol.CallbackShows | apps/api/app/service/platform_service.py:1049-1102 | An accepted callback stores a first result, field by field, and touches no other run; a refused or repeated one changes nothing |
| WorkerProtocol.Journey | apps/api/app/service/platform_service.py:1049-1102 | A run that is created, approved, executed and reported without disturbance shows its result, and its message is acknowledged |
| WorkerProtocol.RejectedNeverRuns | apps/api/app/service/platform_service.py:772-834 | A run whose start is rejected is cancelled and never executed, whatever follows |
| WorkerProtocol.TakenIff | apps/api/app/service/platform_service.py:772-900 | A run is decided once, a capability is granted to a succeeded or interrupted run only, an active run alone is interrupted and an interrupted one alone resumed; any other request changes nothing |
| WorkerProtocol.AcknowledgedIff | apps/worker/main.py:767-787 | A message is acknowledged only when its result was taken by a run of that number and the answer came back |
| WorkerProtocol.HandoverLeaves | apps/api/app/service/platform_service.py:902-1047 | A hand-over leaves a message behind the others and the run queued, or a failed run that says the queue failed, or a queued run without a message |
| WorkerProtocol.UndisturbedDelivery | apps/worker/main.py:578-783 | A delivery nothing disturbs takes the first unread message, leaves its run with the cached result or the one it is executed to now, and the message acknowledged |
| ResultUsage.Accumulate | apps/api/app/service/platform_service.py:1103-1138 | The loop computes prompt tokens, completion tokens and cost over all model turns, negative ones taken for nothing, and per model in order of first appearance its share |
| ResultUsage.TurnAdds | apps/api/app/service/platform_service.py:1108-1138 | A turn adds its tokens and cost where they are positive, and one call, to the totals and to its model, whose name counts up to 255 characters |
| ResultUsage.Conservation | apps/api/app/service/platform_service.py:1103-1138 | The models of the breakdown add up to the totals: no turn lost, none counted twice, prompt and completion tokens together |

## Left out

- Workflow nodes: tool allowlists, of which only whether a node may run tests counts, and, in the API's schema, the checks on node fields. "Success implies verified" is stated for the default graph, since workflow mode does not force verification.
- WorkflowNodes.Attempted: an exception that escapes a node's handler carries a text, and so does a failure to isolate the workspace; one without a text would count as no error.
- WorkflowOutcomes.StartedIff: the graph library's limit on the number of steps, which ends longer runs, is not modelled.
- Checkpoints and the operator's stop: in the default graph a stop is a pause that leaves the state as it is; a workflow's node takes it as an exception, which is one of its inputs.
- AgentNodes.RecordResults: failures are counted under their cause as it is, not under the first 500 characters of the trimmed cause.
- Model calls, tool bodies, test runners, git, files, hooks, sub-agents and the plan's text: inputs of the steps. The worker's feed takes the run's and a sub-agent's events as one sequence.
- Clocks: the elapsed time is an input of each step, so `BudgetsHold` speaks of turns and calls, not of seconds, tokens or cost, which are checked only between steps.
- JSON: payloads are opaque values with a decoder that undoes the encoder on what is printed; the wrapping of non-object payloads by the Python client and byte decoding by either client are not modelled.
- HTTP: lines end only at line feeds where the client library splits them; retries, time-outs, status codes and the terminal-status shortcut of the follow loop are not modelled beyond dropping and reopening a connection.
- Redis streams: trimming and consumer groups; the in-memory store stands for both, and in the delivery protocol a read is one atomic step that may find nothing, so that waiting only delays the next one.
- Connections that break inside an event: the delivery protocol loses events whole, which holds of the browser; `StreamCuts` says what the Python client makes of a part of one.
- StreamCuts.PythonCut: the body ends cleanly behind the cut; when a chunked connection breaks, the HTTP client raises before the parser comes to dispatch what is pending.
- Event ids are numbers in the delivery protocol; `EventDelivery.CursorOfIdText` covers their text.
- GraphExploration.Explore: entities are ids and relations are rows, so both dictionaries are sets and the order of the evidence chain is not stated; queries by name and type are the list of matches the exploration starts from.
- Plans.Plan.FinishCurrentTask: a task's result, code and success flag are not modelled, only whether it is finished.
- TeamBus.Team.Run: a role's answer is its text; a role that raises and long-term vector memory are not modelled, and what a run adds to the messages published by each role is stated for single publications only.
- PluginTree.PluginHost.Apply: a plugin provides a fixed list of keys; plugin discovery, trust and other failures of `apply` are not modelled.
- Compaction.CompactMessages: message contents are text, and the length of tool calls as JSON is a number; contents that are lists, and decoding a tool's JSON, are not modelled.
- VectorMigration.MigrateVectors: an unavailable target refuses a call without effect; partial writes, similarity search, metadata filters and the Chroma, Milvus and dual stores are not modelled.
- WorkerProtocol.StepKeepsSound: one worker that keeps its consumer group, and atomic callbacks; signatures, workspace preparation, plan steps, tool rows and artifacts written by the callback, times, and the control key are not modelled: an execution may come out interrupted at any time. Of a capability approval only the decision is modelled, and it can be asked for at any time.
- Settings, authentication, path and command policies, metrics, the Vue pages, the command line and database migrations.
