# Workflow, attack-path and scan-state proofs

This project models the core of a security-scanning platform in Dafny and proves what its parts keep, over all
inputs and all runs:

- **The workflow engine** (`Workflow`, `Finalizer`, `Orchestration`, `Dispatching`, `Interleaving`, `InterleavedRuns`,
  `FixedFlow`, `ExactlyOnce`, `ParallelStep`, `ParallelRun`, `HumanGate`, `WaitingGate`, `Redelivery`, `DynamicFlow`,
  `DynamicScan`). A workflow record is driven by `agent.complete` events through a fixed plan or a routing table, and
  ends in a snapshot, verify, clear, complete sequence or at a human gate. The classes change the records field by
  field, as the Python methods do; each method is proved equal to a transition function, and the theorems about runs
  are lemmas over that function.
- **The attack-path engine** (`PathSearch`, `AttackGraph`, `GraphEdges`, `GraphNodes`, `PathAnalyzer`, `PathResults`,
  `Chokepoints`, `BlastRadius`). A graph is built from AST facts and findings; bounded simple paths are enumerated,
  scored and sorted, and interior nodes and reachable sinks are counted.
- **Scan state** (`Batches`, `BatchResume`, `Ranking`, `ScrProgress`, `JsonText`, `SharedMemory`). Checkpointed batches
  of a process that may die at any store write, deduplication and ranking, stage progress, and typed values in untyped
  hashes.
- **Supports** (`Text`, `PathPatterns`, `ActionLedger`, `Sequences`, `Sorting`). Path patterns, and the ledger of
  approved and executed actions.

`dafny verify dfyconfig.toml` checks everything.

## How the model reads the code

- One event handler is one atomic step, because the consumer awaits a handler before the next message
  (backend/infrastructure/kafka_client.py:118); the commit follows it, so duplicates are events like any other. The
  agents a handler gathers run in turn in the transition function; that every interleaving of their store operations
  comes to the same, up to lost RUNNING marks, is proved in `Interleaving` and `InterleavedRuns`.
- The records are those of one workflow: keys of different workflows are disjoint. Redis hashes and Postgres rows are
  maps. A handler's environment says how each agent it runs ends and whether Postgres takes the upsert; a refused
  upsert raises, and the one the exception path then makes may be taken or refused in turn.
- Node ids are the tuples they are hashed from, and SHA-256 of a snapshot is the snapshot: both hashes, and the
  colon-joined key text, are taken as injective.
- An exception is a flag in the result.
- The finalizer is proved twice: as a method, and as single store operations with crashes, agents writing and
  other attempts storing and clearing between them. The handlers of one workflow come one after another; an approval
  may overlap one.

## Where the code differs from what one would expect

The model follows the code; each point is proved.

- "Step still pending" and "no more steps" are both an empty list (backend/orchestrator/orchestrator.py:469), and the
  caller ends the workflow on either: the first agent of a parallel step to complete ends it, unless its surface
  escalates the workflow (`ParallelStep.FirstCompletion`). The runners of the shipped parallel step report a correlated
  incident by default (backend/agents/dynamic_agents.py:39), so there the first completion escalates and dispatches CMA,
  while the others run (`ParallelRun.IncidentEscalates`); the run can still end before they are done
  (`ParallelRun.IncidentEndsEarly`, `ParallelRun.EarlyEndExactlyWhenParallel`).
- For the same reason a completion that is delivered again while a later step runs completes the workflow at once,
  unapproved, with that step's agent still RUNNING (`Redelivery.FirstRepeatDecides`, `Redelivery.CutShort`).
- A scan that failed ends a workflow that requires it COMPLETED, with the failed output stored, when a completion of SCR
  arrives (`Dispatching.UnfinishedScanEvent`); of several raising agents only the first is marked
  (`Dispatching.OnlyFirstIsMarked`); and a report without output lets the workflow complete unasked
  (`Dispatching.SilentAgent`).
- A workflow marked FAILED and then finalized becomes COMPLETED (backend/orchestrator/finalizer.py:162), and a failed
  step of a workflow that does not require SCR stores an empty snapshot over its outputs
  (`HumanGate.FailedStepSnapshot`, `Finalizer.RetrySafety`).
- At a waiting fixed-flow gate, which runs do reach, a redelivered completion of any agent but the report completes the
  workflow without approval (`WaitingGate.GateBypassed`, and exactly when in `WaitingGate.RedeliveryAtGate`).
- The dynamic gate holds exactly while Postgres takes the upsert of every redelivered report completion; if one is
  refused and the finalization of the exception path then succeeds, the workflow is COMPLETED without approval
  (`WaitingGate.DynamicGateHolds`).
- Outputs an agent writes between the snapshot and the clear are lost, unless they repeat what was read
  (`Finalizer.ClearKeeps`), and of two overlapping attempts the older snapshot can be stored last
  (`Finalizer.OverlapLoses`): the checksum protects an attempt up to its own check only.
- Call edges are looked up at line 0 while functions are stored at their real line
  (backend/attack_path/graph_builder.py:109): no reported path passes through a function
  (`GraphEdges.FunctionsAreDeadEnds`).
- An AST node stored later under the id of a file's entry point, or under that of a finding, takes it over, and the
  findings concerned are no longer reported from their entry (`PathResults.FindingsAreReached`).
- The path test of the findings loop reads a graph that is still empty (backend/attack_path/graph_builder.py:235), so
  every sink-category finding gets its edges (`AttackGraph.GraphBuilder.LinkFinding`).
- Ranking asks for `dependencies` where memory stores `deps` (backend/scr/stages/stage9_ranking.py:47,
  backend/memory/personal_memory.py:72), so it returns no dependency finding (`Ranking.Rank`).
- A pause that is pending when a completion arrives stops nothing, and the plan's next save undoes it
  (`Dispatching.PendingPauseHoldsNothing`).
- A rule that pauses leaves its reason in a loaded copy that is never saved
  (backend/orchestrator/decision_engine.py:41), so no later event sees it (`Workflow.Evaluate`,
  `Orchestration.Orchestrator.PlanAgents`).
- A progress call below the current stage breaks the shape of the record except in three cases
  (`ScrProgress.CallKeepsShape`).
- Approval is unconditional (backend/orchestrator/action_gate.py:73), and overlapping executors of one action, or one
  that fails between its dispatch and its mark and is called again, run it more often than it was approved
  (`ActionLedger.OverlapExceedsApprovals`, `ActionLedger.OrphansExceedApprovals`).
- Agents of one step load and save the same record, so a RUNNING mark can be lost (`Interleaving.StaleCopyUndoes`);
  nothing else is (`InterleavedRuns.InterleavedRun`).

## Model

| member | source | states |
|---|---|---|
| Workflow.WorkflowStateStore.MarkAgent | backend/orchestrator/workflow_state.py:78-94 | Running, done and failed marks change one agent state of a saved record and nothing else; without a record nothing is saved. |
| Workflow.WorkflowStateStore.Pause | backend/orchestrator/workflow_state.py:105-112 | The saved record becomes PAUSED with its reason; all other fields stay. |
| Workflow.WorkflowStateStore.Resume | backend/orchestrator/workflow_state.py:114-122 | Clears the pause, records the approver and goes back to RUNNING. |
| Workflow.WorkflowStateStore.Complete | backend/orchestrator/workflow_state.py:124-129 | Sets COMPLETED whatever the status was. |
| Workflow.WorkflowStateStore.Fail | backend/orchestrator/workflow_state.py:131-136 | Sets FAILED and stores the reason in the context. |
| Workflow.WorkflowStateStore.EscalateToDynamic | backend/orchestrator/workflow_state.py:138-143 | Marks the record escalated and dynamic. |
| Workflow.Evaluate | backend/orchestrator/decision_engine.py:17-54 | Collecting the rules of an agent, sorting them by priority and walking them yields exactly the routing decision, and marks the caller's copy with a pending pause exactly for a report that asks for approval. |
| Workflow.NotedMarksReason | backend/orchestrator/decision_engine.py:38-44 | Evaluation marks nothing in the copy but the reason of a pause, and that only for a report that asks. |
| Workflow.WalkRules | backend/orchestrator/decision_engine.py:26-54 | The loop with its complete, pause, also and first-match cases computes the recursive reading of the rules, and tells whether a pausing rule stopped it. |
| Workflow.PauseTable | backend/orchestrator/routing_rules.py:46-53 | Over the whole table only a report that asks for approval pauses. |
| Workflow.SortedTable | backend/orchestrator/routing_rules.py:17-90 | The stable sort of each agent's rules: the incident rule, listed late, comes before the other SCR rules. |
| Workflow.RouteTable | backend/orchestrator/routing_rules.py:17-90 | For every agent, surface and record the sorted table decides as a plain decision list: lowest priority, earliest match. |
| Workflow.StopRuleDecides | backend/orchestrator/decision_engine.py:26-54 | For any rules: the first one that holds and completes or pauses decides, whatever was chosen before it. |
| Workflow.FirstRuleChooses | backend/orchestrator/decision_engine.py:26-54 | Without such a rule the first plain one that holds chooses, and the "also" rules after it add exactly the agents that are missing. |
| Finalizer.WorkflowFinalizer.PrepareSnapshot | backend/orchestrator/finalizer.py:44-81 | Resolves the name and refuses exactly when SCR output is needed and missing. |
| Finalizer.RefusedExactly | backend/orchestrator/finalizer.py:54-71 | For all names and memories: a snapshot is refused exactly when SCR output is missing and the name requires it, or, without a name, when CMA and reporting have left output and none of the six other agents has. |
| Finalizer.WorkflowFinalizer.WriteSnapshot | backend/orchestrator/finalizer.py:83-113 | Upserts the row and raises exactly when the upsert does or the row read back has another checksum, as it has when another attempt stored a different snapshot in between. |
| Finalizer.WorkflowFinalizer.PersistSnapshot | backend/orchestrator/finalizer.py:115-128 | Stores the snapshot without touching memory or status. |
| Finalizer.WorkflowFinalizer.Finalize | backend/orchestrator/finalizer.py:130-165 | Memory is cleared and the record completed exactly when the verified write succeeded. |
| Finalizer.CrashSafety | backend/orchestrator/finalizer.py:83-165 | Over every run of store operations, refused upserts, crashes, retries, agents writing and other attempts storing and clearing meanwhile: until the clear, memory is what the snapshot read, or nothing of it once another attempt has cleared, with what agents wrote since on top; the clear is reached only over a row that held the whole snapshot at its check, and that holds it or what another attempt has stored since; an SCR-required workflow never has a row without SCR output. |
| Finalizer.ClearKeeps | backend/orchestrator/finalizer.py:130-143 | In every such run the clear loses nothing if and only if the row holds all that is present. Without another attempt since the check it keeps each output no agent wrote since the read, and one written since exactly when it repeats what was read. |
| Finalizer.OverlapLoses | backend/orchestrator/finalizer.py:83-143 | The run of two overlapping attempts that loses an output under any name: the first reads, an agent writes, the second stores and clears, and the first stores its older snapshot over that row. |
| Finalizer.RetrySafety | backend/orchestrator/finalizer.py:54-71 | No run of crashes and retries loses an output if and only if the name requires SCR, there is nothing to lose, or the first attempt is refused. |
| Finalizer.RetryOverwrites | backend/orchestrator/finalizer.py:130-162 | The run that loses: any other workflow, finalized again after its memory was cleared, stores the empty snapshot over the full one. |
| Finalizer.FinalizeIsItsSteps | backend/orchestrator/finalizer.py:130-165 | Finalize as one call equals its store operations run without a crash, with what another attempt stores between its upsert and its check. |
| Orchestration.Orchestrator.FinalizeWorkflow | backend/orchestrator/orchestrator.py:498-509 | Finalizes, and marks the record FAILED when that raised. |
| Orchestration.Orchestrator.NotifyAgentComplete | backend/orchestrator/orchestrator.py:313-362 | Publishes the completion, fails an unfinished SCR, and writes the default output of an agent that left none. |
| Dispatching.ScanDecides | backend/orchestrator/orchestrator.py:313-334 | By how the scan tool of a workflow that starts with a scan returns: its completion waits exactly when the output says COMPLETED; without a status, or one of RUNNING, SCR is FAILED; a failed scan leaves it RUNNING; and the log is SCR alone. |
| Dispatching.ScanGatesAll | backend/orchestrator/orchestrator.py:313-334 | So in every exactly-once run nothing after the scan is ever dispatched unless it completed. |
| Dispatching.UnfinishedScanEvent | backend/orchestrator/orchestrator.py:180-203 | An SCR completion over an unfinished scan: a name that requires SCR dispatches nothing and ends, COMPLETED with that output stored or FAILED by the upsert; any other name goes on to its next step. |
| Dispatching.SilentAgent | backend/orchestrator/orchestrator.py:334-356 | An agent that leaves no output: Web, ASM and CloudSec are marked done and start nothing; CMA and reporting get a low-risk one, so that a report without output completes the workflow. |
| Orchestration.Orchestrator.TriggerAgents | backend/orchestrator/orchestrator.py:213-225 | Runs all agents of a step even if one raises; the first raising one is marked FAILED and the workflow failed and finalized. Here the agents run in turn; `InterleavedRuns.InterleavedRun` covers every other schedule. |
| Dispatching.OnlyFirstIsMarked | backend/orchestrator/skill_controller.py:168-173 | When agents of a step raise, only the first in the list is FAILED, the others stay RUNNING, raising ones included, and the events of those that did not raise still wait. |
| Dispatching.AllRun | backend/orchestrator/skill_controller.py:155-168 | When none raises, all are RUNNING with their events waiting. |
| Dispatching.OutputsLeft | backend/orchestrator/skill_controller.py:158-173 | What each agent of a step leaves in memory: its output, what it had written before it raised, the default, or nothing new. |
| Orchestration.Orchestrator.RunTool | backend/orchestrator/skill_controller.py:158-166 | One agent: marked RUNNING, logged, run, notified. |
| Interleaving.EverySchedule | backend/orchestrator/skill_controller.py:155-168 | Gathered agents, operation by operation under every schedule of their loads, saves, outputs and events: the record keeps all but statuses of the step's agents, each its old one or RUNNING; log, events and outputs are those of the operations done. |
| Interleaving.GatherEnds | backend/orchestrator/skill_controller.py:155-168 | At the end every schedule leaves the same memory, row, log and events up to order, and a record that differs at most in lost RUNNING marks. |
| Interleaving.StaleCopyUndoes | backend/orchestrator/workflow_state.py:78-82 | Such marks are lost: of two agents that both load before either saves, only the second is marked. |
| Interleaving.OneMarkStays | backend/orchestrator/workflow_state.py:78-82 | But never all of them: once one agent has saved, some agent of the step is RUNNING. |
| Interleaving.InTurnIsRunAll | backend/orchestrator/skill_controller.py:155-168 | Running the agents one after another is one of the schedules. |
| InterleavedRuns.InterleavedRun | backend/orchestrator/orchestrator.py:213-225 | Over every run of a fixed plan with failures, approvals and redelivered completions of dispatched agents, however each dispatch interleaves: status, step, flow, memory, row, the dispatched agents and waiting events, and who is DONE or FAILED while the plan is followed, are those of the run that takes agents one after another. |
| InterleavedRuns.HandledAlike | backend/orchestrator/orchestrator.py:151-211 | One completion keeps two worlds that agree in all of this alike, whatever the schedule of what it dispatches. |
| Orchestration.Orchestrator.PlanAgents | backend/orchestrator/skill_controller.py:81-106 | The scripted plan with the fixed step: next step, routed agents, nothing, or an index error; saving the loaded copy when it advances. |
| Dispatching.AdvancesExactly | backend/orchestrator/orchestrator.py:457-477 | A completion with output that stays on the plan moves it on exactly when every other agent of the step is DONE or FAILED and a step follows, and dispatches that step unless the workflow is paused. |
| Dispatching.StepBeyondPlan | backend/orchestrator/orchestrator.py:457-463 | A step index beyond the plan raises: nothing is dispatched and the exception path finalizes, with the status, memory and row that leaves. |
| Dispatching.PendingPauseHoldsNothing | backend/orchestrator/skill_controller.py:48-67 | A pause pending when a completion arrives holds nothing back: the next agents are dispatched all the same, and where the plan moves on, saving the loaded copy undoes the pause. |
| Orchestration.Orchestrator.RunAfterAgentComplete | backend/orchestrator/skill_controller.py:41-67 | Pending pause, plan, then end, pause, hold back or dispatch, on the copy loaded when the event arrived. |
| Orchestration.Orchestrator.OnAgentComplete | backend/orchestrator/orchestrator.py:151-211 | One event changes the records, the memory, the row and the log as one step of the transition function, and an unknown workflow not at all. |
| Orchestration.Orchestrator.ExecuteWorkflow | backend/orchestrator/orchestrator.py:123-149 | The first step of a fresh record, failed and finalized when it raises. |
| Orchestration.Orchestrator.ApproveWorkflow | backend/orchestrator/orchestrator.py:492-496 | Resumes and finalizes, whatever the status was. |
| FixedFlow.HandledMoves | backend/orchestrator/orchestrator.py:151-211 | Any completion event leaves a fixed plan alone, leaves it for good, or moves it on by one step whose predecessor is finished, and then dispatches that step or nothing. |
| FixedFlow.FixedDispatchOrder | backend/orchestrator/skill_controller.py:81-102 | In every run, with any plan, any completion events in any order and number, any failures and approvals: steps are dispatched at most once and in order, the index stays in range, and the trigger log is exactly the dispatched steps. |
| FixedFlow.Barrier | backend/orchestrator/orchestrator.py:457-477 | In every state, and so in every run: an event moves the plan to step k + 1 only from step k, and only as a completion after which every agent of step k is DONE or FAILED. |
| FixedFlow.EventsKeepOrder | backend/orchestrator/skill_controller.py:81-102 | The induction behind it: from any state whose dispatches are in order, any further events keep them so. |
| FixedFlow.StepNeverDecreases | backend/orchestrator/orchestrator.py:473-477 | Over any events the step index never decreases. |
| ExactlyOnce.SerialRun | backend/orchestrator/orchestrator.py:457-477 | For every plan of single-agent steps and every state of every exactly-once run: the log is the plan up to the running step, earlier agents are DONE, later ones PENDING, and the workflow is over exactly when all are DONE. |
| ParallelStep.FirstCompletion | backend/orchestrator/orchestrator.py:171-177 | Whatever the surfaces say: the first completion of a parallel step ends the workflow if and only if its surface does not escalate it or nothing is routed after its agent; an escalating one of the shipped parallel step dispatches CMA. Either way another agent of the step is still RUNNING. |
| ParallelRun.RunReaches | backend/orchestrator/orchestrator.py:457-477 | Exactly-once runs do reach any step behind steps of one agent that do not escalate, whatever its agents' surfaces say: the state that the first completion starts from. |
| ParallelRun.EscalatingRun | backend/orchestrator/orchestrator.py:171-177 | So there is a run of any such plan in which an escalating first completion of Web, ASM or CloudSec has CMA dispatched while every other agent of the step is RUNNING. |
| ParallelRun.IncidentEscalates | backend/agents/dynamic_agents.py:28-44 | The incident plan has one whenever the scan has not already escalated it and the first surface is correlated, as the runners default to: SCR, Web, ASM, CloudSec and CMA dispatched, two of them RUNNING. |
| ParallelRun.EarlyEndExactlyWhenParallel | backend/orchestrator/skill_controller.py:52-63 | Where no agent that runs alone escalates the workflow, some exactly-once run ends before every agent is DONE if and only if some step has more than one agent, whatever its agents' surfaces say. |
| ParallelRun.ParallelEndsEarly | backend/orchestrator/orchestrator.py:464-477 | Behind such steps every parallel step can be ended early: by its first completion, or at the end of the routed chain that an escalating one starts. |
| ParallelRun.ChainEnds | backend/orchestrator/routing_rules.py:17-90 | From any waiting agent of a rule-routed run a chain of completions ends the workflow, past every agent that is not lighter than it. |
| ParallelRun.IncidentEndsEarly | backend/orchestrator/workflow_definitions.py:33-44 | The incident plan can end early whatever any of its agents says and whatever its context holds. |
| ExactlyOnce.DefinitionShapes | backend/orchestrator/workflow_definitions.py:3-44 | Every shipped plan is regular; exactly the SCR-required ones are serial. |
| HumanGate.AssessScan | backend/scr/stages/stage10_output.py:67-83 | The counting loops give the severity counts and the capped risk score; the label has its four splits in the weighted sum, and approval is asked for exactly when that reaches 80. |
| HumanGate.SevereCounts | backend/scr/stages/stage10_output.py:72 | The dependency count is the number of CVSS scores of 7 and more. |
| HumanGate.ScanCarriesOn | backend/cma/cma_runner.py:48-70 | CMA and a report over it say of a scan its own risk, severity, secrets and incident, and ask for approval exactly when the scan's risk reaches 80, or 50 with secrets. |
| HumanGate.ReportReads | backend/reporting/reporting_runner.py:60-95 | A report's risk is the greater of the two it finds, it takes the scan's severity before CMA's, and asks exactly when one of them does or its risk reaches 80. |
| HumanGate.GateRun | backend/orchestrator/skill_controller.py:52-63 | For every exactly-once run of a plan that scans first and reports last: never COMPLETED without approval when the scan's risk (or, with CMA, medium risk with secrets) asks for it, but PAUSED with the whole memory stored; otherwise COMPLETED. |
| HumanGate.RequiredPlansScan | backend/orchestrator/workflow_definitions.py:4-32 | The three SCR-required plans are such plans; only the incremental one has no CMA. |
| HumanGate.DispatchKeepsDerived | backend/reporting/reporting_runner.py:60-95 | What CMA and reporting derive from the scan: the report asks for approval exactly when the scan must. |
| WaitingGate.HandledAtGate | backend/orchestrator/orchestrator.py:151-211 | At a gate of either flow one completion has exactly its effect: none, still waiting, FAILED, or COMPLETED unapproved with memory cleared, by the agent it names and what Postgres does to the first and the second upsert of the handler. |
| WaitingGate.GateRuns | backend/orchestrator/orchestrator.py:151-211 | Over any completions at a gate, duplicates included: COMPLETED unapproved if and only if one of them closes it; otherwise the gate, its memory and the log are as before, with the status the last one left. |
| WaitingGate.WaitsExactlyWhenHarmless | backend/orchestrator/skill_controller.py:48-66 | The workflow stays PAUSED throughout if and only if no completion closes the gate or breaks on Postgres. |
| WaitingGate.RedeliveryAtGate | backend/orchestrator/skill_controller.py:52-63 | The fixed gate waits throughout if and only if every redelivered completion is that of an agent without output or the report's with its upsert taken; exactly when it ends COMPLETED unapproved. |
| WaitingGate.RunEndsAtGate | backend/orchestrator/skill_controller.py:53-60 | Every exactly-once run of a scanning plan that has no event left and must ask a human stands at such a gate, PAUSED and unapproved. |
| WaitingGate.CompleteScanRun | backend/orchestrator/orchestrator.py:151-211 | Such a run exists for every scanning plan and every scan. |
| WaitingGate.GateBypassed | backend/orchestrator/skill_controller.py:61-63 | So every scanning plan whose scan asks has a run to the gate where one redelivered SCR completion completes the workflow unapproved. |
| Redelivery.FirstRepeatDecides | backend/orchestrator/orchestrator.py:457-477 | At-least-once delivery of a scanning plan: without a repetition the run is the serial one; if the first repetition comes while step i runs, the workflow is COMPLETED from then on, unapproved, with memory cleared, nothing after step i ever dispatched and only the outputs up to it stored. |
| Redelivery.CutShort | backend/orchestrator/skill_controller.py:61-63 | Every step after the scan can be cut short so, and the gate with it, whatever the scan asks for. |
| HumanGate.ApprovalCompletes | backend/orchestrator/orchestrator.py:492-496 | Approval completes the workflow with the reviewed snapshot still in the row. |
| HumanGate.FailedStepSnapshot | backend/orchestrator/orchestrator.py:135-146 | A raising step is finalized twice; for every outcome of the two upserts, the status, memory and row that leaves. A workflow that does not require SCR loses its outputs exactly when both are taken. |
| DynamicFlow.RouteIsLighter | backend/orchestrator/routing_rules.py:17-90 | Routing replaces an agent by agents of strictly smaller total weight, and by none only after reporting. |
| DynamicFlow.RunIsShort | backend/orchestrator/orchestrator.py:151-211 | Every exactly-once run terminates, for every plan and flow and whatever fails or escalates: deliveries and dispatches are bounded by the weight at the start. |
| DynamicFlow.ShippedBounds | backend/orchestrator/workflow_definitions.py:3-44 | That bound is 10 for dynamic runs and at most 22 for the shipped plans. |
| DynamicFlow.DynamicRunEndsAtReporting | backend/orchestrator/decision_engine.py:17-54 | In a dynamic run whose agents succeed, no event left means the report is DONE and the workflow paused or completed, and a pause is that of a report asking for approval. |
| WaitingGate.DynamicGateHolds | backend/orchestrator/skill_controller.py:48-66 | The dynamic gate waits throughout if and only if Postgres takes the upsert of every delivered report completion; it ends COMPLETED unapproved if and only if some report completion meets a refused upsert and then a finalization that succeeds; nothing is ever dispatched. |
| DynamicScan.AskingScanGates | backend/scr/stages/stage10_output.py:139-150 | In every exactly-once dynamic run whose agents work, the parallel incident route included, a scan that asks for approval is never followed by COMPLETED; with no event left the workflow is PAUSED by a report that asks, unapproved. |
| DynamicScan.AskingScanWaits | backend/orchestrator/skill_controller.py:48-66 | The gate such a run comes to is the one of the redelivery theorem: over any further completions it waits throughout, or is lost, exactly under the conditions on the report's upserts, and nobody has approved it. |
| AttackGraph.GraphBuilder.AppendFileNodes | backend/attack_path/graph_builder.py:72-106 | Entry points, functions and sanitizers are appended in order, and the index holds the last node of every id. |
| AttackGraph.GraphBuilder.AppendCalls | backend/attack_path/graph_builder.py:108-125 | A call edge is added exactly when both ends, looked up at line 0, are known. |
| AttackGraph.GraphBuilder.AppendHandlers | backend/attack_path/graph_builder.py:127-145 | Entry-to-handler edges. |
| AttackGraph.GraphBuilder.AppendSinkCalls | backend/attack_path/graph_builder.py:147-184 | Sink-call nodes, hung on the first function when its line-0 id is known. |
| AttackGraph.GraphBuilder.IndexEntries | backend/attack_path/graph_builder.py:186-188 | The last entry point of each file. |
| AttackGraph.GraphBuilder.LinkFinding | backend/attack_path/graph_builder.py:190-281 | One finding: fallback entry, sink under a new id only, and one or two edges, because the path test reads a graph that is still empty. |
| AttackGraph.GraphBuilder.BuildFromScanResults | backend/attack_path/graph_builder.py:48-287 | The imperative build yields exactly the specified nodes, edges and directed graph. |
| GraphNodes.NodesAccounted | backend/attack_path/graph_builder.py:70-232 | Every node of a built graph describes, with id, kind, name, marks and sink type, an entry point, function, sanitizer or sink call of a file, or belongs to a sink-category finding; and every such fact of a file has its node. |
| GraphNodes.CrownJewelsExact | backend/attack_path/graph_builder.py:86-220 | Functions, sink calls and finding sinks are crown jewels exactly when some crown-jewel text occurs in the path of their file, entry points unless made up for a finding, sanitizers never; only sanitizers sanitize. |
| GraphNodes.JewelFindings | backend/attack_path/graph_builder.py:211-232 | End to end: when the node stored under a finding's id is a sink in a file whose path has such a text, every reported path to it reaches a crown jewel and scores 40 or more. |
| GraphNodes.SinkCategories | backend/attack_path/graph_builder.py:190-194 | A category counts as a sink exactly when it is one of the nine listed ones in any case, or has "inject" in it. |
| GraphNodes.FindingKey | backend/attack_path/graph_builder.py:403-410 | The key of a finding: its file, line and route, and its function name, or its name when it has none. |
| GraphNodes.EdgesExact | backend/attack_path/graph_builder.py:108-285 | The edges of a built graph are exactly those of calls and handlers between nodes known at that point, of sink calls from their file's first function, and of sink-category findings from their file's entry, directly or through their function. |
| GraphNodes.CallMarked | backend/attack_path/graph_builder.py:108-127 | A call's edge is tainted exactly when its arguments are. |
| GraphNodes.SinkEdgeMarked | backend/attack_path/graph_builder.py:252-266 | The edge into a finding's sink through its function is sanitized exactly when the AST of its file lists a sanitizer. |
| GraphNodes.LastEntryOfFile | backend/attack_path/graph_builder.py:186-188 | Findings hang on the last entry point of their file. |
| AttackGraph.BuildIsSound | backend/attack_path/graph_builder.py:108-281 | In every build each edge joins two known nodes, and every sink-category finding hangs on its file's entry by one or two edges. |
| AttackGraph.GraphIsFaithful | backend/attack_path/graph_builder.py:283-286 | The directed graph stores the last node of every id and has exactly the listed edges, without repetitions. |
| GraphEdges.EntryReachesHandler | backend/attack_path/graph_builder.py:127-145 | In every built graph an entry point with a route has an edge to its handler found at the same line. |
| GraphEdges.FunctionsAreDeadEnds | backend/attack_path/graph_builder.py:108-112 | Because call edges use line 0, no reported path passes through a function at its real line, unless it shares its id with an entry point. |
| PathSearch.SearchExact | backend/attack_path/path_analyzer.py:63 | The bounded search returns all simple paths of at most cutoff edges, only those, each once. |
| PathAnalyzer.FindAllPaths | backend/attack_path/path_analyzer.py:47-73 | The three loops with their limit tests return the first routes up to the limit, scored and sorted; node lookup never fails. |
| PathAnalyzer.CandidatesExact | backend/attack_path/path_analyzer.py:49-63 | The enumeration is exactly the simple paths of at most max_depth edges from an entry point to a sink, each once. |
| PathAnalyzer.ScoreBounds | backend/attack_path/path_analyzer.py:193-198 | Scores lie in [0, 100]; unsanitized crown-jewel paths score at least 75, paths to no crown jewel below 60. |
| PathResults.ReportedAreRoutes | backend/attack_path/path_analyzer.py:130-191 | Every reported path is such a path, with the nodes the graph stores. |
| PathResults.ReportedOnceInOrder | backend/attack_path/path_analyzer.py:73 | No path is reported twice, and scores descend. |
| PathResults.ReportedCount | backend/attack_path/path_analyzer.py:64-73 | The result has min(limit, number of all such paths) elements. |
| PathResults.ReportedComplete | backend/attack_path/path_analyzer.py:47-73 | A result shorter than the limit has every such path. |
| PathResults.CrownJewelsFirst | backend/attack_path/path_analyzer.py:193-198 | Every reported path with a crown jewel and no sanitizer among its nodes comes before every one without a crown jewel. |
| PathResults.ReportedReadsItsNodes | backend/attack_path/path_analyzer.py:153-198 | Read off the nodes of a reported path alone: its length, whether it is sanitized or reaches a crown jewel, the first crown jewel's name, and its score, point by point. |
| PathResults.ListedSeverities | backend/attack_path/path_analyzer.py:25-34 | What each sink type counts. |
| PathResults.ReportedComeFirst | backend/attack_path/path_analyzer.py:56-73 | A limit keeps the first routes: by entry and then by sink, what is reported comes no later than any attack route that is not. |
| PathResults.FindingsAreReached | backend/attack_path/graph_builder.py:190-281 | End to end, with the limit not reached: a sink-category finding ends some reported path of at most two edges from its file's entry if and only if no AST node overwrote that entry and the node stored under the finding's id is a sink. |
| PathResults.EntryStandsExactly | backend/attack_path/graph_builder.py:186-210 | The AST facts alone decide whether the entry of a file with a sink-category finding stands; linking findings neither overwrites nor restores one. |
| PathResults.ReachedExactlyAsSink | backend/attack_path/path_analyzer.py:47-73 | The same for any well-formed graph with the listed edges and any finding that hangs on its file's listed entry. |
| Chokepoints.FindChokepoints | backend/attack_path/path_analyzer.py:75-96 | At most ten distinct interior nodes with their true counts, most frequent first; no omitted node is more frequent than a reported one. |
| Chokepoints.CountNodes | backend/attack_path/path_analyzer.py:76-81 | The counter and the node map hold exactly the multiplicities and a node of each id. |
| Chokepoints.MostCommon | backend/attack_path/path_analyzer.py:85 | The ten largest counts, and nothing omitted that is larger. |
| Chokepoints.CountsArePathCounts | backend/attack_path/path_analyzer.py:78-81 | A count is the number of listed paths with the node strictly inside. |
| Chokepoints.CountsAddUp | backend/attack_path/path_analyzer.py:78-81 | The counts of all nodes add up to the sum of path length minus one. |
| Chokepoints.BlockedIsTrue | backend/attack_path/path_analyzer.py:83-96 | Over the reported paths a chokepoint blocks as many paths as it says, and its score is their share of all. |
| BlastRadius.ComputeBlastRadii | backend/attack_path/path_analyzer.py:98-128 | The loop and the sort compute one radius per entry with paths. |
| BlastRadius.RadiiAreRanked | backend/attack_path/path_analyzer.py:98-128 | The result has the radius of every entry that starts a listed path, of no other, largest score first. |
| BlastRadius.RadiusIsReachability | backend/attack_path/path_analyzer.py:105-112 | With the limit not reached, the sinks of a radius are exactly those reachable from the entry by a simple path within the depth, each once, and its depth bounds them. |
| BlastRadius.TotalsAddUp | backend/attack_path/path_analyzer.py:105-122 | Over distinct entries covering all starts, the path totals add up to the number of listed paths. |
| BlastRadius.BlastScoreGrows | backend/attack_path/path_analyzer.py:113-116 | Blast scores lie in [0, 100] and below the cap grow strictly with sinks, crown jewels and depth. |
| BlastRadius.BlastPoints | backend/attack_path/path_analyzer.py:113-116 | Each sink adds 10, each crown jewel 25, each step of depth 2, up to 100. |
| BlastRadius.RadiusReadsItsPaths | backend/attack_path/path_analyzer.py:104-122 | A radius names the first crown jewels of the paths that start at its entry, counts those paths, and is as deep as the longest. |
| Batches.SplitJoins | backend/scr/scr_tool_host.py:196-198 | Batches concatenate back to the file list and none is larger than the batch size. |
| Batches.SplitFills | backend/scr/scr_tool_host.py:196-198 | Every batch but the last is full, and none is empty unless there is no file. |
| Batches.BatchAnalysis.StampFindings | backend/scr/scr_tool_host.py:241-246 | The fingerprint loop, up to the write at which the process dies. |
| Batches.BatchAnalysis.StoreFindings | backend/memory/personal_memory.py:51-69 | Fingerprints first, then the code findings, then the secret ones, up to any dying point. |
| Batches.BatchAnalysis.PreBatchCheck | backend/scr/stages/batch_context_guard.py:37-84 | Stop signal, one wait per pause flag that stands in turn, ten at most, which decide nothing, the already-done test, and the heartbeat, which the process may die at. |
| Batches.BatchAnalysis.StoreBatch | backend/scr/scr_tool_host.py:241-260 | All writes of one batch after its heartbeat, the checkpoint last, up to any dying point. |
| Batches.BatchAnalysis.RunBatchAnalysis | backend/scr/scr_tool_host.py:188-267 | The whole loop, with skips, stop signal and death, computes the specified run. |
| BatchResume.DyingIsSafe | backend/scr/scr_tool_host.py:241-260 | Death at any write of a batch leaves memory consistent, loses nothing and keeps the checkpoint. |
| BatchResume.FullBatch | backend/scr/scr_tool_host.py:241-260 | A stored batch adds exactly its own: every finding, with its key as stored fingerprint when that is new and unchanged otherwise, its secrets, fingerprints and files, and its id once, with the progress record's other fields. |
| BatchResume.ListedOnce | backend/scr/scr_tool_host.py:207-260 | However often a batch is stored, the checkpoint lists it once and keeps what has failed. |
| BatchResume.RunInOrder | backend/scr/scr_tool_host.py:207-260 | A run analyses the open batches in order, each once: all of them when it finishes, those before the first open one with a stop signal when stopped, those up to an open one when it dies. |
| BatchResume.RunsAreSafe | backend/scr/scr_tool_host.py:207-260 | Over any number of interrupted runs completed batches only grow, without duplicates, with all their files scanned, and no finding is logged before its fingerprint. |
| BatchResume.NeverAnalysedAgain | backend/scr/stages/batch_context_guard.py:60-67 | A batch completed in some run is analysed in no later one. |
| BatchResume.FinishedRunCoversFiles | backend/scr/scr_tool_host.py:188-267 | A run that comes to its end leaves every batch completed and every file scanned; only a stop signal or death prevents that. |
| Ranking.Deduplicate | backend/scr/stages/stage9_ranking.py:24-35 | The loop keeps exactly the first unsuppressed finding of each fingerprint. |
| Ranking.CountCategories | backend/scr/stages/stage9_ranking.py:49-52 | Category counts are the multiplicities among the ranked findings. |
| Ranking.Rank | backend/scr/stages/stage9_ranking.py:22-54 | The stage as a whole: the deduplicated findings from CRITICAL down to INFO and any other severity, scores not increasing within one; secrets as stored; no dependency ever, because it asks for a key memory never fills. |
| Ranking.FirstPositionsExact | backend/scr/stages/stage9_ranking.py:27-35 | The kept positions are exactly the first unsuppressed occurrences, in order. |
| Ranking.UniqueExact | backend/scr/stages/stage9_ranking.py:27-35 | One entry per distinct fingerprint of the unsuppressed log. |
| Ranking.RankedIsStable | backend/scr/stages/stage9_ranking.py:37-43 | The ranked list reorders the deduplicated log and leaves findings of equal severity and score in log order. |
| Ranking.SeveritiesDescend | backend/scr/stages/stage9_ranking.py:13-43 | For every log: CRITICAL before HIGH, MEDIUM, LOW, INFO and any other, and within one severity scores do not increase. |
| Ranking.ScoreAddsUp | backend/scr/stages/stage9_ranking.py:56-66 | What each factor adds to a score, and what the likelihood of being false takes off. |
| Ranking.UsualCvss | backend/scr/stages/stage9_ranking.py:57-60 | The CVSS score that a severity stands for. |
| Ranking.SameFingerprint | backend/scr/stages/stage9_ranking.py:30 | When two findings count as one, by stored and derived fingerprints. |
| Ranking.CategoryMembers | backend/scr/stages/stage9_ranking.py:49-52 | The findings listed under each category; those without one under "unknown". |
| Ranking.WorseRanksFirst | backend/scr/stages/stage9_ranking.py:56-66 | Within a severity, a finding worse on one factor and better on none ranks strictly first. |
| Ranking.CategoryCountsAddUp | backend/scr/stages/stage9_ranking.py:49-54 | Category counts add up to the number of ranked findings. |
| ScrProgress.ScrProgressTracker.Start | backend/scr/scr_progress.py:38-51 | A fresh record with its first stage running. |
| ScrProgress.ScrProgressTracker.SetStage | backend/scr/scr_progress.py:53-97 | The stage loop sets the named stage, settles unsettled earlier ones and starts the next. |
| ScrProgress.ScrProgressTracker.Complete | backend/scr/scr_progress.py:99-110 | Every stage done, the last one current. |
| ScrProgress.ScrProgressTracker.Fail | backend/scr/scr_progress.py:112-121 | The current stage failed, in a record started first if there is none. |
| ScrProgress.CallKeepsShape | backend/scr/scr_progress.py:73-92 | Exactly which calls keep the shape: those not below the current stage, and three cases just below it. |
| ScrProgress.StageReads | backend/scr/scr_progress.py:53-97 | What one call leaves of every stage and of the current one. |
| ScrProgress.UnlistedStage | backend/scr/scr_progress.py:53-97 | A name that is no stage changes none, but counts as the first one when it is reported done. |
| ScrProgress.ClimbingKeepsShape | backend/scr/scr_progress.py:53-97 | Over every sequence of calls never below the current stage: earlier stages settled, later ones pending, at most one running. |
| ScrProgress.StartedScanIsShaped | backend/scr/scr_progress.py:38-97 | So for every such sequence on the record that a scan starts with. |
| JsonText.ListRoundTrip | backend/memory/shared_memory.py:80-97 | JSON lists of strings read back as written for every text, escapes and surrogate pairs included (sections 5 and 7 of RFC 8259). |
| JsonText.LiteralListText | backend/memory/shared_memory.py:80-81 | The stored form of a list: printable texts without quotes and backslashes stand in it as they are, in quotes, with a comma and a space between. |
| JsonText.IntRoundTrip | backend/memory/shared_memory.py:86-104 | Decimal integers read back as written. |
| SharedMemory.SharedMemoryClient.WriteAgentOutput | backend/memory/shared_memory.py:113-126 | Written fields replace the old ones, others stay; an empty mapping is a write error. |
| SharedMemory.SharedMemoryClient.ReadAgentOutput | backend/memory/shared_memory.py:128-135 | Every stored field read by its name, or not ready. |
| SharedMemory.SharedMemoryClient.ReadDecisionSurface | backend/memory/shared_memory.py:137-159 | The twelve fields with their defaults, or not ready when none holds anything. |
| SharedMemory.SharedMemoryClient.ClearWorkflow | backend/memory/shared_memory.py:190-194 | Removes exactly the workflow's hashes. |
| SharedMemory.FieldSurvives | backend/memory/shared_memory.py:77-111 | For each field, exactly when its value survives being written and read. |
| SharedMemory.ReadsBack | backend/memory/shared_memory.py:77-111 | For every field and value, those of the other outputs included: a written value reads back as itself exactly when it fits its field. |
| SharedMemory.SurfaceRoundTrip | backend/memory/shared_memory.py:113-159 | A surface written over any hash reads back as itself if and only if its texts avoid the sentinels and its time has no Z. |
| SharedMemory.PayloadRoundTrip | backend/memory/shared_memory.py:113-159 | What agents really write: a surface without its kill-chain stage and audit deadline reads back from an empty hash as itself, with both None, if and only if its texts are plain. |
| SharedMemory.SurfaceReads | backend/memory/shared_memory.py:137-159 | A surface is ready exactly when some of its fields holds something; an absent field reads as None, an empty list, 0 or false, listed per field. |
| SharedMemory.ReadsOtherwise | backend/memory/shared_memory.py:88-111 | What texts that do not survive read as: the words for nothing, truth words, text in integer fields, and times in Z. |
| SharedMemory.LastWriteWins | backend/memory/shared_memory.py:120-123 | After any sequence of writes each field holds the value written last, or what was there before. |
| SharedMemory.LastWriteReads | backend/memory/shared_memory.py:113-135 | So after any sequence of writes a field that was written reads as its last written value if and only if that value fits the field. |
| Text.FramedOccurrence | backend/scr/tools/repo_acquirer.py:66-69 | Between separators a substring is a run of segments, for all texts. |
| PathPatterns.MatchesRunOfComponents | backend/scr/tools/repo_acquirer.py:60-69 | Beyond its glob a pattern matches exactly the paths with its segments as consecutive components, and the two tests coincide on slash-free names. |
| PathPatterns.DirectoryPattern | backend/scr/tools/repo_acquirer.py:78-79 | A directory exclude pattern excludes exactly the paths with that component. |
| PathPatterns.SlashedPattern | backend/scr/tools/repo_acquirer.py:60-69 | Slashes around a name do not matter. |
| PathPatterns.CaseAndSlashesDoNotMatter | backend/scr/tools/sast_runner_heuristics.py:65-69 | The heuristics do not tell letters apart by case, nor the two slashes. |
| PathPatterns.OuterSlashesDoNotMatter | backend/scr/tools/sast_runner_heuristics.py:65-69 | Nor whether a path starts or ends with a slash. |
| PathPatterns.ListsMatchExactly | backend/scr/tools/repo_acquirer.py:72-79 | An exclude list matches exactly by some glob or some run of components; an include list too, unless it is empty or the default. |
| PathPatterns.DefaultAmongOthers | backend/scr/tools/repo_acquirer.py:72-75 | Among other include patterns the default one, beyond its glob, matches only paths with a component that is a star. |
| PathPatterns.CheckPathIsMembership | backend/scr/tools/sast_runner_heuristics.py:65-69 | The boundary regular expression is component membership, exactly, with the case of one final newline. |
| ActionLedger.ActionGate.Propose | backend/orchestrator/action_gate.py:31-71 | Refuses read-only actions; re-proposing an id leaves its row alone. |
| ActionLedger.ActionGate.Approve | backend/orchestrator/action_gate.py:73-89 | Approves an existing row whatever its status. |
| ActionLedger.ActionGate.Reject | backend/orchestrator/action_gate.py:91-108 | Rejects an existing row. |
| ActionLedger.ActionGate.MarkExecuted | backend/orchestrator/action_gate.py:119-127 | Marks an existing row executed. |
| ActionLedger.ActionExecutor.ExecuteApproved | backend/orchestrator/action_executor.py:31-57 | Dispatches once and marks executed exactly when the row is approved and neither step fails; a failure before the dispatch changes nothing, one after it leaves the row approved. |
| ActionLedger.ExecutionsAreCovered | backend/orchestrator/action_executor.py:31-57 | In every run, whatever overlaps and wherever executors fail: executions of an action, those checked but not dispatched yet, plus one if it is approved with none under way, never exceed its approvals plus the checks passed while another executor had it under way plus the failures between a dispatch and its mark. |
| ActionLedger.ExecutionsAreApproved | backend/orchestrator/action_executor.py:31-57 | So without such overlaps and failures, executions plus one if it is approved with none under way never exceed approvals. |
| ActionLedger.OverlapExceedsApprovals | backend/orchestrator/action_executor.py:38-45 | n executors that all check before the first marks execute n times; the approvals cover that if and only if n is at most what was left of them. |
| ActionLedger.OrphansExceedApprovals | backend/orchestrator/action_executor.py:44-45 | So do n calls one after another that fail between dispatch and mark: the row stays approved for the next. |
| ActionLedger.BoundIsReached | backend/orchestrator/action_executor.py:31-57 | The bound is exact: for any numbers of overlaps and of such failures there is a run with one approval and that many executions more. |
| ActionLedger.AttemptIsItsSteps | backend/orchestrator/action_executor.py:31-57 | One call with nothing in between is the run of its check, dispatch and mark, or of its failure. |
| ActionLedger.LastDecisionStands | backend/orchestrator/action_gate.py:73-127 | Over every run: after the last approval or rejection of a proposed action its row has that status, whatever is proposed again, checked or dispatched. |
| ActionLedger.UnapprovedNeverRuns | backend/orchestrator/action_executor.py:31-42 | In every run an action that was never approved is never executed and no check of it passes. |
| ActionLedger.ProposedExactly | backend/orchestrator/action_gate.py:31-71 | A row is there exactly when its action was proposed. |

## Left out

- Network, database and process I/O: Kafka publishing, Redis and Postgres clients, Neo4j, git, scanners; the stores
  appear as maps, what they return as parameters.
- LLM planning, narratives, enrichment and the OpenClaw gateway: text without a specification; the scripted plan is the
  modelled one.
- Inline progression without events, the Kafka-dispatched SCR run, `_trigger_agents` on its own, and the pause-timeout
  watcher: other drivers of the same transitions.
- Orchestration.Orchestrator.TriggerAgents: the method runs agents one after another. Schedules are covered for steps
  without SCR, which every plan and rule dispatches alone; an approval or a second consumer that saves the record while
  agents run is not.
- An upsert that is committed and then raises, or a checksum read that fails, inside one handler: in the step model of
  the finalizer that is a crash after the write.
- Timestamps, TTL expiry, UUIDs, heartbeats, retry counts, metrics and log output.
- `start_workflow`'s choice of flow and its published event; the fresh record it saves is the start of every run.
- A second build on the same graph builder, edge ids and call sites, and AST extraction; paths carry their nodes and
  scores.
- `line_start` of a finding given as None or text: finding lines are integers.
- Lower case and JSON are modelled on characters: letters beyond ASCII keep their case, lone surrogates are not
  characters, and texts that are JSON but not a list of strings count as unparsed.
- `int()` of texts with spaces or underscores, and `fromisoformat`: a time is its isoformat text.
- `fnmatch`: its answer is a parameter.
- Floating-point rounding: scores are real numbers.
- Batch ids as texts, the dependency list that a batch always stores empty, and filter statistics: ids are numbers.
- CMA's gap mapping and the text of reports; reporting's critical count is an arbitrary number in the gate theorem.
- The enriched copies of a finding that ranking drops, and `_to_*` conversions of its records.
- Bulk scans, scheduler, STRIDE mapping, repository memory, dashboards, access control and the frontend: small or thin
  next to the above.
- ExactlyOnce.SerialRun: only for runs whose agents succeed, because a failing step is finalized at once.
- SharedMemory.ReadsBack: not for a text in `completed_at`, and in JSON fields only for lists of strings, None and
  times, because `fromisoformat` and the rest of JSON are not modelled.
- Redelivery.FirstRepeatDecides: only for runs whose agents succeed and whose upserts are taken; repetitions
  after the last step are the subject of `WaitingGate.RedeliveryAtGate`.
- ActionLedger.ActionExecutor.ExecuteApproved: a dispatch that raises half-way counts as not done.
