# Verified models of the agent's core

This project models five parts of the agent runtime and proves what they promise:

- **Line Protocol** (`Text`, `Json`, `JsonLiterals`, `Tokens`, `LineForms`, `LineProtocol`, `BlockShape`, `Parser`,
  `Canonical`, `Decoders`, `Contracts`, `FeedbackRoundTrip`): the stack-machine block parser, its registry check, the
  decoders of judge and decision contracts, and the printer that feeds a judgment back to the model. JSON strings
  follow section 7 of RFC 8259.
- **Runtime context** (`Lists`, `Observations`, `ObservationContract`, `RuntimeContext`, `ContextOrder`,
  `ContextInvariants`, `ContextTheorems`, `ContextLimits`, `ContextWindow`, `ContextRuns`, `ContextPolicy`,
  `ContextReplies`, `FileGrouping`, `FilePlaces`): raw tool evidence, asynchronous Observations of it, merging under a
  budget, and the grouping of file reads. The policy is a step machine that is interleaved at every await;
  `ContextPolicy` is the object that the tool loops update in place.
- **Plan–Execute** (`PlanState`, `PlanExecute`, `Durable`, `GraphShape`, `Recording`, `Recovery`,
  `CrashConsistency`, `Resumption`, `RecordedAttempts`, `DurableAgent`): the plain coordinator loop, the checkpointed
  graph, the append-only recovery log, process death at any point, and resumption.
- **Bounded judge loops** (`BoundedLoop`, `ReactLoop`, `ReactProtocol`, `ReactRuns`, `AnswerForms`, `CutLines`,
  `LineEnds`, `DecisionLines`, `StepExecutor`, `StepRuns`): the ReAct loop and the step executor under their round
  budgets, with a judge that is asked to repair at most once.
- **Leases and conversations** (`Registry`, `Conversation`, `ConversationHistories`): run leases against a clock,
  and ordered turns of one conversation under concurrent calls.

Planner, executor, model, judge, provider and clock are oracles: functions of a call number, replies that an event
brings, or times that a call carries. Every store call is one atomic step. A graph node runs, writes its record to
the recovery log, and then its update and the choice of the next node reach the checkpoint in one step. The token
cost of a window is an arbitrary function. The step executor reports a completed or failed outcome for the step that
it was asked to execute, or raises, and a durable run begins with its input in the checkpoint.

## What is assumed, and what the code does not give

- Tool-call identifiers are unique within an invocation, rounds increase, and merge replies name only their sources.
  Only the subset is checked: a reply that names more hides the calls it names
  (`ContextTheorems.NamedCallsAreHidden`), and can leave the Observations out of request order, so that a later
  arrival sorts the two of a merge in flight the other way round and the merge makes no progress. Whatever the
  identifiers and replies, a merge makes progress exactly when its first Observation is found before its second
  (`ContextLimits.MergeShrinksIff`), and what hides an unsettled call is exact
  (`ContextTheorems.UnsettledIsShownIff`). Merging the Observations of two calls always makes progress exactly when
  the calls differ in round or identifier (`ContextLimits.ProgressNeedsDistinctCalls`). Two calls of one batch
  without an identifier share "unknown": `ContextLimits.SharedIdsStopMerging` is a run from the start after which
  merging goes on for ever.
- A merge conserves provenance exactly when nothing was sorted between the two merged Observations meanwhile
  (`ContextTheorems.MergeKeepsSources`); `ContextLimits.LateArrivalIsLost` is a run from the start that loses one.
- Process death between a recovery record and its checkpoint is never reconciled: the run is refused by every later
  resume (`Resumption.CrashBetweenWritesIsRefused`, `Resumption.RefusedForever`). A resumed process that records a
  stale step leaves the log one version ahead until its next checkpoint has caught up, so its death before or after
  writing its input is refused as well (`Resumption.ResumeLeavesLogAhead`, `Resumption.DeathAfterResumeIsRefused`).
  What restoring accepts is exact: the log has to end at the checkpoint's version
  (`Resumption.RestoreReproducesCheckpoint`).
- A resumed run goes on as the loop of the plain coordinator would. The coordinator itself enters that loop only
  when no step is running or interrupted, or a recovery decision is given (`PlanExecute.LoopIsEnteredIff`,
  `Resumption.OnlyEntryDiffers`).
- The ReAct loop promises to run no tool from a response that declares a decision. It recognises a decision only on
  lines that newlines alone cut, while the parser also accepts carriage returns. A response that decodes to a
  decision is recognised exactly when a newline ends its opening line, or when its closing line spells BEGIN with
  the dotted capital I and stands alone at the end (`DecisionLines.DecisionIsDeclaredIff`); in all other cases its
  tool calls are run (`DecisionLines.DecisionRunsToolsIff`). For any response, recognised lines are exactly the
  parser's decision lines between newlines (`DecisionLines.DeclaredIsCleanLine`).
- A line that spells BEGIN with the dotted capital I is matched as a boundary but closes a block
  (`Tokens.Tokenize`).
- A turn's history is exact in order and identity; how an earlier turn ended may still change after it was captured.
  The histories of a run stay true exactly when every ending that is written repeats the stored one or comes before
  any history holds the turn (`ConversationHistories.HistoriesStayAccurateIff`). With fresh run identifiers only
  durable turns can break this (`ConversationHistories.OnlyDurableWritesHarm`), and one whose looked-up result
  differs from its runner's answer does (`ConversationHistories.LateAnswerRewritesHistory`).
- An ephemeral turn whose runner could not be made or was refused stays running, and its run identifier stays among
  those at work: no later call in this process can settle it (`ConversationHistories.OrphansAreStuck`); the
  condition is exact (`ConversationHistories.OrphanStaysIff`), and a restart of the process frees it
  (`ConversationHistories.RestartFreesOrphan`).
- Creating a run under an identifier that is in use drops its lease (`Registry.RecreationDropsLease`).
- Owners have names: the code treats an empty owner as no lease, and asking again in time keeps a lease exactly for
  owners that have one (`Registry.LeaseNeedsName`).
- Finishing a run checks the lease's owner and not the clock (`Registry.ExpiredHolderCanFinish`).

## Model

| member | source | states |
|---|---|---|
| LineProtocol.MachineIsGrammar | llm/line_protocol.py:48-97 | The stack machine with in-place blocks accepts a token list and returns a block exactly when a syntax tree of the recursive block grammar derives the tokens and means that block |
| Parser.ParseIsGrammar | llm/line_protocol.py:48-102 | Parsing a document gives a block exactly when the grammar derives its lines with that meaning and the block is registered at every level |
| BlockShape.ParsesIff | llm/line_protocol.py:48-121 | A document parses to a block exactly when its lines derive it, it is no step, and every block in it, at any depth, is declared in type, fields, repetitions and inner blocks |
| BlockShape.FieldsInOrder | llm/line_protocol.py:84-95 | A block lists the values of a field exactly as often and in the order in which its lines give them |
| BlockShape.ChildrenInOrder | llm/line_protocol.py:67-83 | A block holds the blocks inside it exactly in the order of their lines |
| Parser.ParseLineProtocol | llm/line_protocol.py:48-102 | The parser on mutable blocks and a stack returns the tree that the specification parses, or fails with it |
| Parser.ValidateRegisteredFields | llm/line_protocol.py:109-121 | The recursive check accepts exactly the blocks whose fields, repetitions and children are declared at every level |
| Parser.AcceptedNesting | llm/line_protocol.py:440-522 | An accepted tree nests at most two blocks deep |
| Parser.ParseIgnoresSpelling | llm/line_protocol.py:17-19 | Letter case of boundary and field names, and a space or underscore after the keyword, do not change the result |
| Parser.ParsePrinted | llm/line_protocol.py:48-102 | Parsing the canonical printing of a registered syntax tree gives back what the tree means |
| Canonical.EveryTreePrints | llm/line_protocol.py:440-522 | Every registered block tree has a canonical document that the parser maps back to it |
| Tokens.RespeltTokens | llm/line_protocol.py:67-95 | Lines that differ only in the spelling of names mean the same tokens |
| LineForms.OpenIff | llm/line_protocol.py:18 | A line opens a block of a type exactly when it is BEGIN and the type in any letter case with a space or an underscore between them |
| LineForms.CloseIff | llm/line_protocol.py:18 | A line closes a block exactly when it is END in any letter case, or BEGIN spelt with the dotted capital I, with a separator and the name |
| LineForms.EntryIff | llm/line_protocol.py:84-95 | A line gives a field a value exactly when it is a path, an equals sign and a literal of that value without whitespace around it |
| LineEnds.DocumentRejoins | llm/line_protocol.py:52 | The lines of a document, with their newlines, carriage returns or both put back, are the document: nothing is lost and no pair is cut in two |
| Json.DumpRoundTrip | llm/line_protocol.py:91 | Loading the literal printed for a string, integer or boolean gives the value back, for all strings with quotes, backslashes, newlines and other characters |
| JsonLiterals.LiteralIff | llm/line_protocol.py:91 | A text is a string literal exactly when it spells every character between two quotes in one of the ways of section 7 of RFC 8259: itself, one of the eight two-character escapes, four hexadecimal digits of either letter case, or its surrogate pair; an integer exactly in decimal or as minus zero; and a truth value exactly by its name |
| Decoders.DecodeCompletionJudgment | llm/line_protocol.py:319-357 | The decoder over parsed blocks returns exactly the judgment that the document specifies, or fails |
| Decoders.DecodedIsWellFormed | llm/line_protocol.py:319-357 | A decoded judgment lists verdicts 1..n in order with trimmed, non-empty details, and is complete exactly when all are verified |
| Contracts.JudgmentIff | llm/line_protocol.py:319-357 | A document decodes to a judgment exactly when the judgment is well formed and the document parses to the block with exactly its flag and its verdicts in order, each detail possibly with whitespace around it |
| Decoders.CriterionJudgmentFeedback | agent/execution.py:1157-1167 | The printer's loop writes exactly the specified feedback lines |
| FeedbackRoundTrip.FeedbackDecodes | agent/execution.py:1157-1167 | Decoding the feedback printed for a judgment gives the same judgment exactly when the judgment is well formed for that criterion count |
| FeedbackRoundTrip.JudgmentRoundTrip | llm/line_protocol.py:319-357 | Every judgment that decodes survives being printed as feedback and decoded again |
| FeedbackRoundTrip.GoalFeedbackDecodes | agent/execution.py:822-828 | The feedback for an unmet goal decodes to that gap exactly when the gap is not blank |
| Contracts.GoalIff | llm/line_protocol.py:199-212 | A document decodes to a goal judgment exactly when it parses to the block with that flag and that evidence or gap, which is not blank |
| Contracts.GoalPrints | llm/line_protocol.py:199-212 | Every goal judgment, met or unmet, with a detail that is not blank has a document that decodes to it |
| Decoders.StepProgressShape | llm/line_protocol.py:285-316 | A decoded step progress is complete exactly when its one criterion is listed with non-blank evidence, so reading the first judgment is always in range |
| Contracts.ProgressIff | llm/line_protocol.py:285-316 | A document decodes to a step progress exactly when it parses to the block that lists the one criterion with that evidence, or to the one that lists none |
| Contracts.ProgressPrints | llm/line_protocol.py:285-316 | Every step progress with trimmed evidence, or none, has a document that decodes to it |
| Decoders.DecodeDecision | llm/line_protocol.py:177-196 | A decoded decision that completes or fails carries an answer or error that is not blank |
| Contracts.DecisionIff | llm/line_protocol.py:177-196 | A document decodes to a decision exactly when it parses to the block with that status and that answer or error, which is not blank, or with the status that asks for a tool and nothing else |
| Contracts.DecisionPrints | llm/line_protocol.py:177-196 | Every decision, if it completes or fails with an answer or error that is not blank, has a document that decodes to it |
| Observations.PositiveObservationShape | agent/runtime_context.py:553-622 | A positive Observation of one call names that call only, at its round, with duplicate-free targets |
| Observations.ParseObservation | agent/runtime_context.py:553-622 | A parsed Observation has the expected round and, when asked of one call, is attributed to that call only |
| ObservationContract.ObservationIsRead | agent/runtime_context.py:553-622 | A response is read as an Observation exactly when it parses to a block with its round, source range, impact and targets, whose evidence blocks of each category are, in order, its evidence of that category; and, when asked of one call, when it is of that call |
| ObservationContract.DescribedIsRead | agent/runtime_context.py:553-622 | For every such block without undeclared fields some document is read as just that Observation |
| ContextReplies.RequestEnds | agent/runtime_context.py:415-436 | A request ends with an Observation exactly when the provider answered with a text that tells it, of that round and call; otherwise as cancelled, as a provider error or as invalid |
| ContextReplies.MergeRequestEnds | agent/runtime_context.py:484-496 | A merge request brings back exactly the Observation of the second round that the text tells |
| ContextInvariants.RunKeepsInv | agent/runtime_context.py:258-361 | Every run of recordings, starts, ends and merges in any order keeps the invariant of order, disjoint sources and justified outcomes |
| ContextTheorems.RawEvidenceIsNeverDroppedEarly | agent/runtime_context.py:317-361 | In every run, a write-class call whose Observation is pending, failed, invalid, cancelled or never requested is in every assembled window |
| ContextTheorems.NamedCallsAreHidden | agent/runtime_context.py:499-500 | After an accepted merge reply an unsettled call is shown exactly when the reply does not name it |
| ContextTheorems.UnsettledIsShownIff | agent/runtime_context.py:317-361 | Whatever the identifiers, a write-class call that has not succeeded itself is shown exactly when no retained Observation names its identifier, and no other call with that identifier has succeeded or the call is recent |
| ContextWindow.WindowIs | agent/runtime_context.py:317-350 | A window holds the retained Observations and, in order and once each, exactly the records with a call that belongs there, each with exactly its calls that belong, in order and as often as recorded |
| ContextWindow.RunShows | agent/runtime_context.py:647-667 | In every run, file reads are always shown, other reads exactly while their record is among the last raw_rounds, listings exactly in the last record; and a write-class call always until its own Observation succeeds, then exactly while it is recent and no retained Observation names it |
| ContextWindow.EndShows | agent/runtime_context.py:415-436 | In every run, when the request of a call ends, the next window shows the call exactly when the request failed, or told that the call does not matter and the call is recent |
| ContextWindow.RawIsRecorded | agent/runtime_context.py:258-286 | The raw record of a run is exactly what was recorded, in order |
| ContextWindow.MergeReplacesOldest | agent/runtime_context.py:377-391 | A merge answered at once puts one Observation in front of the others in place of the two oldest: with the reply's evidence by category, the impact and targets of both, and from the first source round to the second |
| ContextWindow.MergeNeedsSources | agent/runtime_context.py:497-500 | A reply that loses a source, or none, changes no Observation |
| ContextTheorems.ObservationsStayInRequestOrder | agent/runtime_context.py:438-447 | In every run, Observations are sorted by the request order of their earliest source call, and start at that call's round |
| ContextOrder.SortAppended | agent/runtime_context.py:433-434 | Appending an Observation and sorting moves it to its place in request order |
| ContextTheorems.MergeKeepsSources | agent/runtime_context.py:387-390 | An accepted merge keeps every source call exactly when nothing was sorted between the two merged Observations |
| ContextInvariants.MergedShape | agent/runtime_context.py:497-510 | A merged Observation unites sources, targets and impact of the two and starts where the first starts |
| ContextTheorems.RunConserves | agent/runtime_context.py:363-392 | Without such arrivals, the retained Observations name exactly the calls that succeeded with positive impact, through all merges |
| ContextLimits.LateArrivalIsLost | agent/runtime_context.py:387-390 | For any three calls of a batch, a run from the start in which the positive Observation of the second is swallowed by the merge of the other two |
| ContextTheorems.HiddenStaysHidden | agent/runtime_context.py:317-361 | In every undisturbed run, a recorded call of any lifecycle that some window does not show is in no later window |
| ContextTheorems.WorkloadFalls | agent/runtime_context.py:363-392 | Retained Observations plus unfinished requests fall with every accepted merge and do not rise on an arrival; a failed merge changes no Observation; the raw record never changes |
| ContextLimits.MergeShrinksIff | agent/runtime_context.py:387-390 | Whatever the identifiers, an accepted merge shrinks the list exactly when its first Observation is found before its second |
| ContextLimits.UndisturbedMergeShrinksIff | agent/runtime_context.py:377-391 | A merge answered before anything else arrives makes progress exactly when the two Observations differ |
| ContextLimits.ProgressNeedsDistinctCalls | agent/runtime_context.py:363-392 | Merging the Observations of two calls always makes progress exactly when the calls differ in round or identifier |
| ContextLimits.SharedIdsStopMerging | agent/runtime_context.py:275-314 | Two calls of a batch that share an identifier can be recorded and observed so that a merge leaves the state as it was |
| ContextRuns.StartAllRuns | agent/runtime_context.py:294-314 | Starting the requests of a batch, with others ending at each await, is a run of the step machine |
| ContextPolicy.RuntimeContextPolicy.FinishObservation | agent/runtime_context.py:415-436 | The end of a request changes the object as the step machine says |
| ContextPolicy.RuntimeContextPolicy.RecordToolRound | agent/runtime_context.py:258-315 | Recording a batch numbers its calls and starts requests, with others ending at the awaits; for a batch with fresh identifiers in a later round this is a run of the step machine that adds just that record and requests exactly the successful write-class calls, or none when suppressed |
| ContextPolicy.ProtocolIsSound | agent/runtime_context.py:415-510 | Whatever text the provider returns, a request for a call ends as one of that call, and a merge uses only a reply that parses as an Observation of the second one's round |
| ContextPolicy.RuntimeContextPolicy.Maintain | agent/runtime_context.py:363-392 | Maintaining terminates, returns only a window within budget and at once when it fits already, fails on the budget only with fewer than two Observations and on a merge only when the reply for the two oldest is of no use, never alters the raw record, and is a run of the step machine |
| FileGrouping.GroupNativeReadResults | agent/runtime_context.py:965-987 | The grouping loops compute the specified groups and remaining rounds |
| FileGrouping.NativeReadEntries | agent/runtime_context.py:990-1007 | The paths and texts of a call are the specified ones, or it stays unfiled |
| FileGrouping.GroupingIsLossless | agent/runtime_context.py:965-987 | For every window, each path is listed once in order of first appearance with exactly its entries, as often as they occur, sorted by round and in request order within a round |
| FileGrouping.GroupingKeepsRequestOrder | agent/runtime_context.py:983-986 | With increasing rounds a path's entries are in request order |
| FileGrouping.SearchLinesAreKept | agent/runtime_context.py:994-1006 | Each path of a splittable search result has a text whose lines are exactly what the lines of that path say, in order |
| FileGrouping.SearchPathsAreKept | agent/runtime_context.py:994-1006 | The paths of a splittable search result are those of its lines, each once, in order of first appearance |
| FileGrouping.EveryCallHasItsPlace | agent/runtime_context.py:965-982 | Every native read has an entry, and every other call is still in its round |
| FileGrouping.OtherCallsStay | agent/runtime_context.py:968-982 | Every round keeps exactly its calls that are no native reads, each once and in order |
| FilePlaces.ReadIsFiled | agent/runtime_context.py:970-992 | In every window, a native read with a path is in the group of its stripped path with its own result, and one that failed or whose paths cannot be told is among the unfiled |
| FilePlaces.SearchEntriesAre | agent/runtime_context.py:993-1006 | A search result is filed under the paths that its lines name, each once in order of first appearance, with exactly what the lines of that path say, in order |
| FilePlaces.LocatedIff | agent/runtime_context.py:995-1001 | A line names the file before its first colon when that is not blank, stripped, and says everything behind that colon; without a colon it names none (`FilePlaces.UnlocatedIs`) |
| FilePlaces.LinesRejoin | agent/runtime_context.py:994 | The lines of a search result with their ends put back are the result |
| FilePlaces.EntriesByCall | agent/runtime_context.py:970-982 | Every further call adds its own entries behind all earlier ones |
| PlanExecute.Agent.Run | agent/agent.py:81-136 | The coordinator disposes of interrupted work, and then its loop ends, and calls planner and executor, as the reference definition of a run says |
| Recording.RunRecords | agent/agent.py:108-122 | For every executor call of a run that does not raise, the end state holds exactly one execution of its step, with the status, result, error and evidence of that call's outcome |
| Recording.StepsOnce | agent/agent.py:108-122 | Every step is executed at most once in a run |
| Recording.OthersStay | agent/agent.py:108-122 | The executions of all other steps stay what they were |
| Recording.RunAddsPlans | agent/agent.py:86-136 | The plans of the end state are those of the start and then, one for each planner call, the plan it returned for the plans before it |
| Recording.RaisesIff | agent/agent.py:81-136 | A run raises exactly when some planner or executor call raised, or gave a plan or an outcome that the state refuses |
| Recording.StaleIs | agent/agent.py:29-41 | Marking replaces the first running execution by an interrupted one with its error, or the stated one, and changes no other |
| Recording.DecisionIs | agent/agent.py:44-71 | With interrupted work, failing records its first step as failed with its error, or the stated one, aborting returns the state unchanged, and anything else is refused; it makes no difference whether a running step has been marked before (`Recording.DecisionFollowsMarking`) |
| PlanExecute.LoopIsEnteredIff | agent/agent.py:44-71 | Without a recovery decision the loop is entered exactly from states in which no step is running or interrupted, unchanged |
| PlanExecute.SettlingFalls | agent/agent.py:108-122 | Completing or failing a step of the latest plan strictly shrinks the set of unsettled steps |
| PlanState.PutIsValid | memory/state.py:179-194 | Recording an execution of a planned step never fails and keeps all state invariants |
| PlanState.FindAfterPut | memory/state.py:179-194 | After recording an execution, looking up its step gives it and every other step is as before |
| PlanState.PlanIsTakenIff | memory/state.py:155-177 | A plan is added to a valid state exactly when it is the next of at most three revisions, for the same goal, with at least one step, distinct step identifiers and no blank text |
| PlanState.ExecutionIsTakenIff | memory/state.py:155-194 | An execution is recorded in a valid state exactly when a plan of its revision has its step and, if completed, its evidence is not blank |
| Durable.GraphRefinesLoop | agent/durable.py:142-259 | From any node where the graph can stand, it ends like the plain loop, in the same state, after the same planner states and step calls |
| Durable.TurnFalls | agent/durable.py:142-259 | Every node lowers (revisions left, steps left, distance to the end) lexicographically |
| Durable.TurnKeepsFits | agent/durable.py:698-724 | The edges only lead to nodes that the state fits: running and executing always have a next step, replanning a failed one |
| Durable.EndingIs | agent/agent.py:124-136 | A completed run has all steps of its latest plan completed; a blocked run has a failed third revision |
| DurableAgents.DurableAgent.Invoke | agent/durable.py:261-367 | The graph loop over store and checkpoint returns what the plain loop returns from the same state |
| DurableAgents.DurableAgent.Advance | agent/durable.py:142-231 | One node writes its record and then its checkpoint as the step machine says |
| RecordedAttempts.OutcomesAreLogged | agent/durable.py:169-221 | Wherever a run stands before the execute node, after the executor's answer the log has one more record and the checkpoint one execution of the next step, both with exactly the status, result and error of the outcome; its evidence is logged exactly for a completed step |
| RecordedAttempts.RunningStepsAreLogged | agent/durable.py:148-167 | Marking adds one record and one execution of the next step as running, without result, error or evidence |
| DurableAgents.DurableAgent.ResumeRun | agent/durable.py:274-345 | Resuming without a recovery decision restores, overlays, marks and records stale work, and writes the input, as the step machine says |
| RecordedAttempts.InterruptionsAreLogged | agent/durable.py:312-345 | Resuming a run whose process died in a step records that step as interrupted, with its error or the stated one, one version ahead of the checkpoint |
| DurableAgents.ContextBuildersAgree | agent/durable.py:727-755 | Replaying the log and merging step by step list the same files read and modified, each once |
| DurableAgents.ContextGrows | agent/recovery.py:197-215 | The lists of a shorter log are prefixes of those of a longer one |
| DurableAgents.ListedFilesAre | agent/recovery.py:197-221 | Exactly the files that some completed step reported as read, and those it reported as modified, are listed |
| DurableAgents.MergeUnique | agent/durable.py:735-742 | Extending a list with a set of seen values gives the same as testing the list itself |
| GraphShape.TurnKeepsShape | agent/durable.py:142-259 | Every node keeps the shape: superseded revisions are a completed prefix and one failed step, the latest a completed prefix and at most one open step recorded last |
| Resumption.RestoreReproducesCheckpoint | agent/recovery.py:80-93 | For death at any point and any number of resumes, restoring accepts exactly when the log ends at the checkpoint's version, and then overlaying reproduces the checkpointed executions in order and the checkpointed files |
| RecordedAttempts.RestoredExecutions | agent/recovery.py:263-270 | After any crashes and resumes an accepted restore gives back every checkpointed execution, in order, with its status, result and error, and with its evidence exactly when it is completed |
| Resumption.ReachableNodes | agent/durable.py:148-231 | Running and executing are never entered without a next step; status completed means all steps completed, status blocked a failed third revision |
| Resumption.ReachableRevisions | agent/durable.py:223-231 | Every superseded revision is a completed prefix, one failed step and nothing more |
| Resumption.ReachableExecutions | agent/durable.py:148-221 | A step under way is the newest execution and the next step of the latest plan; while it runs, execution comes next |
| Resumption.ResumeContinuesLoop | agent/durable.py:274-345 | An accepted resume goes on as the loop of the plain coordinator would from the restored state |
| Resumption.OnlyEntryDiffers | agent/agent.py:81-84 | Without interrupted work an accepted resume is the plain run from the restored state; with it the plain run would demand a decision |
| Resumption.CrashBetweenWritesIsRefused | agent/recovery.py:89-92 | Death between a record and its checkpoint makes restoring fail |
| Resumption.CrashBeforeEffectIsAccepted | agent/recovery.py:89-92 | Death before a node's record never makes restoring fail while log and checkpoint have the same version |
| Resumption.ResumeLeavesLogAhead | agent/durable.py:312-345 | A resume that finds a running step records it and leaves the log one version ahead of the checkpoint, whether or not its input is written |
| Resumption.DeathAfterResumeIsRefused | agent/recovery.py:89-92 | While the log is one version ahead, process death makes every later restore fail |
| Resumption.RefusedForever | agent/recovery.py:89-92 | A refused run stays refused whatever happens |
| Resumption.RunIsNumbered | agent/recovery.py:54-65 | The attempts of every step stay contiguous through crashes and resumes |
| CrashConsistency.RestoreIs | agent/recovery.py:80-93 | Restoring a run's log succeeds exactly at the common version and sees the whole log in order |
| CrashConsistency.OverlayRotates | agent/durable.py:687-695 | Overlaying the durable executions one by one reproduces the list, order included |
| Recovery.AttemptsAreContiguous | agent/recovery.py:54-65 | However runs and steps interleave, attempts of a step are contiguous from one, so distinct attempts plus one equals latest attempt plus one |
| Recovery.AttemptIs | agent/recovery.py:54-65 | In every log that only grew by recording, the first record of a step opens attempt one, and a later one keeps the attempt of the step's record before when that one is pending or running and opens the next attempt otherwise |
| Recovery.RulesAgree | agent/recovery.py:116-129 | The in-memory rule and the database rule choose the same attempt number |
| Recovery.AttemptShape | agent/recovery.py:54-65 | Attempts never decrease, and all records of an attempt but its last are pending or running |
| Recovery.InMemoryStepRecoveryStore.Record | agent/recovery.py:45-78 | Recording appends one numbered record with durable evidence and keeps the log numbered |
| Recovery.InMemoryStepRecoveryStore.Restore | agent/recovery.py:80-93 | Restoring gives the snapshot of the run's records in version order, or the version mismatch |
| Recovery.Snapshot | agent/recovery.py:197-215 | The snapshot loops compute the latest execution per step in order of first appearance and the cumulative context |
| Recovery.RunsAreSeparate | agent/recovery.py:54-93 | What is recorded and restored for a run depends on its own records only |
| BoundedLoop.RunIsBounded | agent/execution.py:598-922 | A loop makes at most one model request and one tool batch per round of its budget and always returns from inside |
| BoundedLoop.EveryRoundHasShape | agent/execution.py:1012-1052 | Every round has at most three requests, and a second judge request exactly after an answer that could not be read |
| BoundedLoop.AskJudge | agent/execution.py:1012-1052 | The judge is asked once, and once more exactly when its answer came and could not be read; the ruling is that of its last answer |
| ReactLoop.Play | agent/execution.py:598-922 | The loop plays exactly the specified rounds |
| ReactLoop.RunBounds | agent/execution.py:598-922 | At most one model request per round, at most two judge requests per round, and the return after the loop is never reached |
| ReactLoop.RunCompletesAccepted | agent/execution.py:754-835 | A completed answer is non-blank, was proposed in the last round, and the last event is a judge accepting it |
| ReactRuns.RunEndsIff | agent/execution.py:598-922 | A run returns an answer, completed, declared failed or failed in execution, exactly when some round within the budget ends with it and all rounds before go on, and runs out of rounds exactly when all go on; all told by windows, model, tools and judge alone |
| ReactRuns.RunRemembersIff | agent/execution.py:765-769 | A detail is remembered exactly when the judge, or its repair, verified it in a round that was reached and went on |
| ReactRuns.RulingIs | agent/execution.py:754-835 | The judge's answer accepts exactly when it confirms all criteria, or without criteria the goal, and its verdicts are those of the judgment |
| AnswerForms.PlainAnswerIff | agent/execution.py:713-725 | A response without a decision counts as an answer exactly when it is not blank, that is, not whitespace alone (`Text.BlankIff`), does not open with a boundary line, and is not one of two acknowledgements |
| AnswerForms.DeclaresIff | agent/execution.py:191-193 | A response is taken for an attempt at a decision exactly when, between newlines or its ends, it holds BEGIN and the name of the decision block in any letter case with a space or an underscore between them and nothing but blanks behind |
| BoundedLoop.FirstEndReturns | agent/execution.py:598-922 | The loop returns the answer of the first round that ends, and of no other |
| ReactLoop.RunRemembersVerified | agent/execution.py:765-769 | Only details that some judge's answer verified are remembered as evidence |
| ReactProtocol.CompletedIsConfirmed | agent/execution.py:754-835 | A completed run's last judge answer confirms the goal, or verdicts 1..n in order, all verified |
| ReactProtocol.ToolsAreUndeclared | agent/execution.py:688-709 | Tools run only on calls of a response in which no newline-cut line opens a decision block |
| CutLines.PiecesAreLines | llm/line_protocol.py:52 | Cutting a text at every break gives the parser's lines in order |
| DecisionLines.DeclaredIsCleanLine | agent/execution.py:191-193 | A response is recognised as declaring a decision exactly when a line of the parser opens a decision block and lies between newlines or the ends of the response |
| DecisionLines.DecisionIsDeclaredIff | agent/execution.py:191-193 | A response that decodes to a decision is recognised exactly when a newline ends its opening line, or its closing line spells BEGIN and stands alone at the end |
| DecisionLines.DecisionRunsToolsIff | agent/execution.py:688-709 | Tool calls of a response that decodes to a decision are run exactly when it is not recognised in that sense |
| ReactProtocol.CarriageReturnsHideDecisions | agent/execution.py:191-193 | With carriage returns a document decodes the same and no decision in it is recognised |
| ReactProtocol.EveryDecisionCanHide | agent/execution.py:191-193 | Every decision block has a spelling that decodes to it and is not recognised |
| ReactProtocol.HiddenDecision | agent/execution.py:191-193 | There is a response that decodes to a decision and is not recognised as one |
| StepExecutor.ExecuteWithTools | agent/executor.py:329-456 | The executor loop plays exactly the specified rounds |
| StepExecutor.RunBounds | agent/executor.py:329-456 | At most max_rounds tool batches and max_rounds + 1 requests, at most one repair per candidate, and the loop returns an answer |
| StepRuns.RunEndsIff | agent/executor.py:329-456 | A step ends with an accepted text and evidence, with its budget gone, with a failed judge or by raising exactly when some round within the budget plus one ends so and all rounds before go on; all told by windows, model, tools and judge alone |
| StepRuns.ProgressIsRead | agent/executor.py:863-866 | A judge's answer accepts exactly when it has no tool calls and decodes to the one criterion with that evidence, and declines exactly when it decodes to none |
| StepExecutor.EvidenceIn | agent/executor.py:595-627 | Evidence read from a progress answer is non-blank and its index is always in range |
| StepExecutor.OutcomeIsSound | agent/executor.py:213-257 | A completed outcome carries the text and evidence of the judge's acceptance; every outcome meets the execution invariants |
| StepExecutor.DoneCompletes | agent/executor.py:213-257 | An accepted candidate always becomes a completed outcome |
| StepRuns.ReportIs | agent/executor.py:200-257 | What is reported for a step tells how its run ended: the text and evidence, or the stated error, or an exception of a checkpointed executor |
| StepRuns.AcceptedTextIsRecorded | agent/agent.py:114-122 | When an executor call ends with an accepted candidate, the end state of the run holds its step as completed with that text as result and the judge's evidence |
| StepExecutor.OutcomeIsRecorded | memory/state.py:179-194 | Whatever the executor reports for the next step can be recorded in the state |
| Registry.LeaseIsExclusive | agent/registry.py:90-118 | After an acquire or renewal at t no other owner's acquire succeeds before t + 60 unless the holder releases or the run is created anew |
| Registry.LeaseIsKept | agent/registry.py:103-118 | A named owner that asks again within 60 seconds never loses the lease: exactly its calls are accepted |
| Registry.LeaseNeedsName | agent/registry.py:103-118 | Asking again in time keeps the lease exactly for owners whose name is not empty |
| Registry.DisplacedOwnerIsPowerless | agent/registry.py:112-129 | A displaced owner cannot renew or finish the run and its release changes nothing, until it acquires again |
| Registry.TakeoverDisplaces | agent/registry.py:103-110 | Another owner takes a lease exactly when it has run out, and then holds it for 60 seconds |
| Registry.LeaseLasts | agent/registry.py:103-118 | Another owner gets a lease exactly from 60 seconds after its holder last asked for it, and until then exactly the holder can renew it |
| Registry.ReleaseFrees | agent/registry.py:120-123 | A released lease is free for everyone at once |
| Registry.LastWriteRules | agent/registry.py:125-129 | Whoever calls in which order, status and result are exactly those that the last owner to finish the run gave, those of a new run when it was created anew since, and otherwise what they were |
| Registry.RecreationDropsLease | agent/registry.py:90-93 | Creating the run anew drops a live lease: its holder can no longer renew, and whoever asks next gets the lease |
| Registry.InMemoryRunRegistry.Create | agent/registry.py:90-93 | A new run starts without a lease, and an existing run is created anew |
| Registry.InMemoryRunRegistry.AcquireLease | agent/registry.py:103-110 | Acquiring changes one record as specified, or is refused, or the run is unknown |
| Registry.InMemoryRunRegistry.RenewLease | agent/registry.py:112-118 | Renewing extends the lease of its holder only before it runs out |
| Registry.InMemoryRunRegistry.ReleaseLease | agent/registry.py:120-123 | Releasing clears the lease of its holder only |
| Registry.InMemoryRunRegistry.SetTerminalResult | agent/registry.py:125-129 | Finishing is accepted from the owner only |
| Conversation.ConversationsAreOrdered | agent/conversation.py:222-304 | Under every interleaving sequences are 1..n, at most the last turn is active, and each turn started with exactly all earlier turns in order, all over by then |
| Conversation.TurnsStay | agent/conversation.py:131-137 | Turns are never removed or renamed, and a turn that is over stays over |
| Conversation.FinishedStores | agent/conversation.py:299-304 | With the runner's answer, exactly the captured turn gets exactly its status, answer and error, and keeps sequence, run identifier, mode and input; abandoning a call, resuming before the look-up and a restart touch no turn (`Conversation.OthersKeepTurns`) |
| Conversation.CancelledStores | agent/conversation.py:281-294 | A cancelled turn has failed as interrupted, without an answer, and is otherwise as it was |
| Conversation.ReconciledStores | agent/conversation.py:372-387 | A looked-up result that settles gives exactly the captured turn its status, answer and error; then the call begins the next turn or goes no further |
| Conversation.BeginStores | agent/conversation.py:222-273 | A call settles a lost ephemeral turn as failed, without an answer; then it begins the next turn, running with its input and its mode or Direct, exactly when no turn is active and no selector is to be asked |
| Conversation.CreateBegins | agent/conversation.py:236-243 | A call that creates the conversation begins its first turn, or nothing when there is one |
| Conversation.SelectedBegins | agent/conversation.py:248-273 | With the mode selected, the captured request begins the next turn exactly when none has begun meanwhile |
| ConversationHistories.StepIsAccurateIff | agent/conversation.py:222-387 | Whatever happens next, all histories stay what the conversation holds exactly when the ending that is written, if any, repeats the stored one or no history holds that turn |
| ConversationHistories.HistoriesStayAccurateIff | agent/conversation.py:222-387 | Over every run, histories are accurate all along exactly when every write is harmless in that sense |
| ConversationHistories.OnlyDurableWritesHarm | agent/conversation.py:355-387 | With fresh run identifiers only the endings of durable turns can make a history untrue |
| ConversationHistories.EphemeralTurnsAreOwned | agent/conversation.py:359-374 | With fresh run identifiers an ephemeral turn at work in this process is the last one and stays running until its own call settles it |
| ConversationHistories.OrphanStaysIff | agent/conversation.py:272-299 | An ephemeral turn that no call executes stays running for ever in this process exactly when its run identifier is still held as at work |
| ConversationHistories.OrphansAreStuck | agent/conversation.py:272-299 | In every run of one process with fresh run identifiers, an ephemeral turn whose runner could not be made or was refused stays running for ever |
| ConversationHistories.RestartFreesOrphan | agent/conversation.py:355-374 | After a restart of the process the next request settles such a turn |
| ConversationHistories.LateAnswerRewritesHistory | agent/conversation.py:355-387 | For any two different endings, a run in which a turn ends differently from the history that the next turn started with |
| Conversation.InMemoryConversationStore.Append | agent/conversation.py:116-123 | A turn is appended exactly when none is active and its sequence continues the conversation |
| Conversation.InMemoryConversationStore.Update | agent/conversation.py:131-137 | Exactly the turn of that sequence is replaced |
| Conversation.ConversationService.BeginCall | agent/conversation.py:222-271 | A call up to its first await reconciles, captures history, and launches or waits as the step machine says |
| Conversation.ConversationService.AfterReconciling | agent/conversation.py:372-387 | A looked-up result settles the captured turn before the history is captured |
| Conversation.ConversationService.AfterSelecting | agent/conversation.py:248-273 | With the mode chosen, the call launches its turn as the step machine says |
| Conversation.ConversationService.AfterExecuting | agent/conversation.py:299-338 | With the runner's answer the captured turn is overwritten as the step machine says |

## Left out

- Conversation texts, prompts, traces, token estimates, error messages and the kinds of errors beyond their control
  flow.
- The message transcripts of the judge loops: requests are oracles by number, so what a request contains is not
  modelled; remembered evidence is one ordered list instead of lists per criterion.
- JSON literals other than strings, integers and booleans are opaque values, and escapes of lone surrogates count as
  unreadable.
- The classification of tool calls into lifecycles, which parses shell commands, is given with each call.
- source_round_end, which a late completion can lower, is carried but nothing is claimed of it.
- Graceful interruption and the recovery decisions of a durable resume; `fail` writes no failed record, so a later
  overlay differs.
- The attempt number, the recovery flag and the conversation input that a resumed run hands to executor and planner.
- Observation texts in the two context builders: one attributes and the other removes duplicates.
- The database stores, except for their attempt rule; several processes on one database; the lease renewal task.
- decode_plan, decode_answer and the other decoders of single fields, and the serialization of the agent state: easy
  members.
- The task analyzer, the router, configuration and fingerprints, and the command line.
- Json.DumpRoundTrip: does not cover opaque literals, because no printer for them is modelled.
