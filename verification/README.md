# CodeAuditor, modelled and proved in Dafny

CodeAuditor runs long, resumable agent audits. This project models the parts of it that decide something
on their own: what a recorded trajectory looks like and when it may be published, how answers are cut out of
prose, which work counts as done, and what may be deleted. Every module but `Wrappers` says in its first
comment which source file it follows.

| modules | what they model |
|---|---|
| `Atif`, `AtifValidator` | ATIF v1.7 documents (Harbor RFC 0001) and the validator that guards publication |
| `RecorderState`, `TrajectoryRecorder` | the recorder: its calls as functions on a state, and the object that has them as methods |
| `RecorderInvariant`, `RecorderMetrics`, `RecorderFrames`, `RecorderRuns` | what every call keeps, and exactly when the document of a whole run passes the validator |
| `RecorderLoad`, `ProviderEvents` | continuing a written document, and streams of Claude and Codex events |
| `Transcript`, `Evidence`, `Delegations` | what was said is kept, tool results are kept, children are referenced once and counted |
| `ProviderStreams` | what a stream of events says is what its document says |
| `ClaudeLedger` | the totals of a run are those of the newest report on each model call |
| `CodexUsage`, `CodexLedger` | cumulative usage telescopes; which growth every step shows, and what the document's sum misses |
| `TrajectoryPrune` | dropping references to purged evidence from a written document |
| `JsonGrammar`, `Fences`, `JsonExtract` | RFC 8259 texts, stripping code fences, and finding the first object in prose |
| `Parallel` | bounded parallel work as interleaved steps, and collecting its results |
| `MarkerCodec`, `Checkpoint` | reversible marker names over UTF-8 and percent-encoding, and the manager of marker files |
| `FileSystem` | paths, trees, renames and recursive deletes, any of which may fail |
| `RetainManifest`, `Retention` | validating a retain manifest and replacing a directory by the retained files |
| `Quarantine`, `Purge` | purging expired disclosures from tables and files together |
| `ReviewCleanup` | planning and applying the deletion of build directories |
| `BoundedQueue`, `EventBus` | the queue in front of a browser, and the bus that feeds all of them |
| `Reachability`, `TriggerGraph` | the worklist search, and the trigger-graph validator built on it |
| `FindingIds`, `Stage4`, `SemanticDedupe` | numbering, ordering and deduplicating findings |
| `RunLifecycle` | the account of runs over create, finish, cancel and resume |

Objects whose methods change fields are classes, loops of the source are loops with invariants, and each
such method is tied to a function of the old state; whole-run theorems are lemmas about that function.
Lemmas carry `{:induction false}`: every induction is written out. `dafny verify dfyconfig.toml` checks
everything.

## What does not hold

Some promises hold only under a condition. The source is modelled as it is; for each promise there is an
input on which it fails, and the condition under which it holds.

- A usage report on a step that the caller names may land on a system or user step, which the validator
  then rejects: exactly when it has figures and names such a step that may have made a model call
  (`RecorderRuns.NamedMetricsConform`, `RecorderRuns.CostOnUserStep`).
- Loading a document remembers its last step as the last agent step, even if it is a user step. Calls that
  would be in order in a fresh run then break the document exactly when they report figures before there is
  a new agent step (`RecorderLoad.ContinuedRunsConform`, `RecorderLoad.CostAfterUserStep`).
- A Claude message that repeats a tool-use id makes the document unpublishable, and nothing else in a stream
  does (`ProviderEvents.StreamsConform`, `ProviderEvents.RepeatedUseIsRefused`).
- The prompt tokens of a Codex document need not add up to the growth of the reported totals. They do exactly
  when no totals arrive while the last message step shows a figure, and nothing waits for a first message
  step; totals of a second turn that arrive before its message step overwrite the first turn's figure
  (`CodexLedger.SumIsGrowthExactly`, `CodexLedger.SecondTurnOverwrites`, `CodexUsage.LaterTotalsReplace`).
- Reasoning that Codex reports under the id of a tool item is dropped when the item completes: its step made no
  model call, and the turn does not have the reasoning any more (`ProviderStreams.ToolItemTakesReasoning`).
- Only the first delegation to a child keeps its summary (`Evidence.SummaryIsKeptOnce`,
  `Evidence.SecondSummaryIsLost`).
- Pruning may drop every step, exactly when every step is nothing but purged references. The pruned document
  is then not published and the old one keeps its dangling references (`TrajectoryPrune.PrunedConforms`,
  `TrajectoryPrune.AllStepsMayGo`).
- When output directories nest, purging an expired artifact takes a surviving one with it, exactly for what
  lies in a purged place of another output directory (`Purge.SurvivorsStayExactly`,
  `Purge.NestedSurvivorIsLost`).
- When the managed root is itself a stage directory, a purge removes trajectories that lie beside it, outside
  of the root (`Purge.RemovedPathsAreManaged`, `Purge.PathBesideRootIsRemoved`).
- A full queue gives up a job event exactly when it holds nothing else and the new event has priority
  (`BoundedQueue.EvictionRules`, `BoundedQueue.JobEventDisplaced`).
- Ids may fall for a client: exactly when an event is published without a loop while a delivery is
  still scheduled and some client's queue takes the event (`EventBus.OrderExactly`,
  `EventBus.LosingTheLoopBreaksOrder`).
- A final vulnerability file that cannot be read, or carries another id, is not counted under its name, and
  is overwritten exactly when its name is one of the next ids (`Stage4.Overwritten`,
  `Stage4.UnreadableIsOverwritten`).
- A trigger-graph node with an id and a list or an object as its role makes the validator raise, and nothing
  else does (`TriggerGraph.Validate`, `TriggerGraph.ListAsRoleRaises`).

## Model

| member | source | states |
|---|---|---|
| `AtifValidator.ValidateTrajectory` | code_auditor/trajectory.py:1456-1726 | reports no problem if and only if the document conforms to every rule of the ATIF v1.7 data model as `Atif` states them |
| `AtifValidator.ValidateStep` | code_auditor/trajectory.py:1530-1691 | reports nothing exactly for a conforming step at its place in the sequence |
| `AtifValidator.ValidateHeader` | code_auditor/trajectory.py:1535-1578 | number, known fields, source, message, effort, copied-context flag and call count are all as required, or a problem is reported |
| `AtifValidator.ValidateRole` | code_auditor/trajectory.py:1554-1588 | agent-only fields stand on agent steps only, and steps without a model call carry no metrics or reasoning, or a problem is reported |
| `AtifValidator.ValidateCalls` | code_auditor/trajectory.py:1589-1611 | collects exactly the usable call ids of a step, and reports nothing exactly when every call conforms and ids are distinct |
| `AtifValidator.ValidateCall` | code_auditor/trajectory.py:1595-1611 | a call adds its id to the ids seen, and is clean exactly when it conforms and its id is new |
| `AtifValidator.ValidateObservation` | code_auditor/trajectory.py:1613-1666 | a result may name only a call of its own step; its references must point somewhere |
| `AtifValidator.ValidateResult` | code_auditor/trajectory.py:1622-1666 | reports nothing exactly for a conforming result among the given call ids |
| `AtifValidator.ValidateRef` | code_auditor/trajectory.py:1649-1666 | reports nothing exactly for a reference with an id or a path, known fields and texts |
| `AtifValidator.ValidateMetrics` | code_auditor/trajectory.py:1671-1691 | reports nothing exactly for absent metrics or whole token counts with a numeric cost |
| `AtifValidator.ValidateAgent` | code_auditor/trajectory.py:1471-1487 | reports nothing exactly for a named and versioned agent with known fields |
| `AtifValidator.ValidateRoot` | code_auditor/trajectory.py:1467-1521 | reports nothing exactly for a document whose root fields conform |
| `AtifValidator.ValidateFinal` | code_auditor/trajectory.py:1693-1718 | reports nothing exactly for absent or numeric final metrics |
| `AtifValidator.ValidateEmbedded` | code_auditor/trajectory.py:1504-1506 | reports nothing exactly when embedded trajectories are absent or a list of objects with ids |
| `TrajectoryRecorder.Recorder.constructor` | code_auditor/trajectory.py:362-402 | a new recorder has no steps, pending calls, totals or counters |
| `TrajectoryRecorder.Recorder.System` | code_auditor/trajectory.py:543-548 | appends one numbered step and changes nothing else of the recorder |
| `TrajectoryRecorder.Recorder.User` | code_auditor/trajectory.py:550-555 | appends one numbered step and changes nothing else of the recorder |
| `TrajectoryRecorder.Recorder.AgentStep` | code_auditor/trajectory.py:557-618 | the whole new state: a numbered agent step, remembered as the last one, with all its calls pending on it; `Transcript.TranscriptIsKept` says what the step holds |
| `TrajectoryRecorder.Recorder.ToolResult` | code_auditor/trajectory.py:625-681 | the whole new state: the call is no longer pending and its result is in the declaring step, or in a new orphan step |
| `TrajectoryRecorder.Recorder.Deterministic` | code_auditor/trajectory.py:683-707 | a step without a model call followed by its results in order |
| `TrajectoryRecorder.Recorder.FindReferring` | code_auditor/trajectory.py:709-716 | the first step that refers to a path, or none |
| `TrajectoryRecorder.Recorder.SearchStep` | code_auditor/trajectory.py:729-732 | true exactly when some reference of some result of the step has the path |
| `TrajectoryRecorder.Recorder.AddSubagent` | code_auditor/trajectory.py:718-764 | counts the delegation on the first referring step, or records a new one |
| `TrajectoryRecorder.Recorder.Merge` | code_auditor/trajectory.py:789-808 | newest figures replace old ones, extra fields are merged, other old figures stay |
| `TrajectoryRecorder.Recorder.RecordStepMetrics` | code_auditor/trajectory.py:768-810 | the whole new state after a report on a named step, with the fallback to the last agent step |
| `TrajectoryRecorder.Recorder.RecordUsage` | code_auditor/trajectory.py:812-813 | reports on the last agent step |
| `TrajectoryRecorder.Recorder.RecordCodexUsage` | code_auditor/trajectory.py:1021-1035 | collects the growth of the cumulative totals and hands it on if there is a message step |
| `TrajectoryRecorder.Recorder.Collect` | code_auditor/trajectory.py:1031-1034 | adds each counter once to what is pending |
| `TrajectoryRecorder.Recorder.FlushUsage` | code_auditor/trajectory.py:1037-1042 | moves what is pending to the last message step, or leaves it |
| `TrajectoryRecorder.Recorder.CompleteTurn` | code_auditor/trajectory.py:1000-1019 | a turn becomes a message step unless it is empty and nothing is pending |
| `TrajectoryRecorder.Recorder.SumMetric` | code_auditor/trajectory.py:1066-1078 | the total of one figure over the steps that have it |
| `TrajectoryRecorder.Recorder.Finish` | code_auditor/trajectory.py:1046-1088 | steps are renumbered in order and the totals are the sums over them, with run-level overrides |
| `TrajectoryRecorder.Recorder.ToDict` | code_auditor/trajectory.py:1096-1125 | returns the document of the current state |
| `TrajectoryRecorder.Recorder.Write` | code_auditor/trajectory.py:1127-1147 | the document goes under its own name if and only if it conforms |
| `RecorderInvariant.SoundAndClean` | code_auditor/trajectory.py:1530-1691 | a step the recorder can produce conforms exactly when its call ids are distinct and its references conform |
| `RecorderInvariant.StepReplaced` | code_auditor/trajectory.py:673-681 | replacing one step by a sound one with the same calls keeps the invariant of the whole state |
| `RecorderInvariant.StepAdded` | code_auditor/trajectory.py:537-541 | appending a sound step under the next number keeps the invariant |
| `RecorderInvariant.PlainStepIsSound` | code_auditor/trajectory.py:543-555 | system and user steps meet every rule, whatever their text and extra fields |
| `RecorderInvariant.AgentDictShape` | code_auditor/trajectory.py:574-612 | a new agent step has the required fields for any settings, and neither metrics nor reasoning without a model call |
| `RecorderInvariant.CallIdsOfCalls` | code_auditor/trajectory.py:587-610 | the ids that a step declares are exactly the ids of the calls given, generated ones included |
| `RecorderInvariant.CallValuesConform` | code_auditor/trajectory.py:587-610 | calls always conform; their ids are distinct exactly when the given ones are |
| `RecorderInvariant.ResultIsSound` | code_auditor/trajectory.py:641-653 | a result conforms in the step of its call, and in an orphan step without the call id; its references are those given |
| `RecorderInvariant.ToolResultKeeps` | code_auditor/trajectory.py:625-681 | any result, known or not, keeps the invariant: the pending call points at the step that declared it |
| `RecorderInvariant.AgentStepKeeps` | code_auditor/trajectory.py:557-618 | an agent step keeps the invariant; the document stays clean exactly when its call ids are distinct |
| `RecorderInvariant.DeterministicKeeps` | code_auditor/trajectory.py:683-707 | a deterministic step with any results keeps the invariant |
| `RecorderInvariant.AddSubagentKeeps` | code_auditor/trajectory.py:718-764 | a delegation keeps the invariant; the document stays clean exactly when something refers to the child already, or the child is named by a path or an id |
| `RecorderMetrics.StepMetricsConform` | code_auditor/trajectory.py:1167-1221 | metrics built from any provider usage, cost and extra fields conform |
| `RecorderMetrics.MergedConform` | code_auditor/trajectory.py:789-808 | merging conforming metrics gives conforming metrics |
| `RecorderMetrics.TargetIsUsable` | code_auditor/trajectory.py:782-788 | figures go to an existing step that made a model call; it is an agent step unless the caller named another |
| `RecorderMetrics.NamedMetrics` | code_auditor/trajectory.py:768-810 | a report keeps the invariant exactly when it has no figures, names no step, or does not name a system or user step |
| `RecorderMetrics.UsageKeeps` | code_auditor/trajectory.py:812-813 | a usage report on the last agent step keeps the invariant |
| `RecorderMetrics.CodexTurnKeeps` | code_auditor/trajectory.py:1000-1042 | a Codex turn keeps the invariant |
| `RecorderRuns.RunsConform` | code_auditor/trajectory.py:537-1088 | after any sequence of calls on a fresh recorder the document conforms if and only if the recorder has a name, a version and a step, no step was given one call id twice, given references conform, every new child is named by a path or an id, and the totals last given to finish are figures |
| `RecorderRuns.RunReflects` | code_auditor/trajectory.py:537-1088 | the invariant of all states that calls lead to from a valid and clean one, and that only those faults of the callers can make a document fail |
| `RecorderRuns.FinishKeeps` | code_auditor/trajectory.py:1046-1088 | finish keeps the invariant; its totals conform exactly when the given ones are figures under known names |
| `RecorderRuns.DocumentConforms` | code_auditor/trajectory.py:1096-1125 | the written document conforms exactly when the state is clean, named, and has a step |
| `RecorderRuns.NamedMetricsConform` | code_auditor/trajectory.py:768-810 | a report on a caller-named step keeps a conforming document conforming exactly when it has no figures or may be carried there |
| `RecorderRuns.CostOnUserStep` | code_auditor/trajectory.py:768-810 | a cost reported on a user step by its number: the document conformed and does not any more |
| `RecorderLoad.ContinuedRunsConform` | code_auditor/trajectory.py:407-468 | a conforming document that was loaded and continued by any calls conforms if and only if the callers keep to the rules of a fresh run, and either the last loaded step is an agent step or made no model call, or there was no agent step, or no figures are reported before there is a new agent step |
| `RecorderLoad.UsageAfterLoad` | code_auditor/trajectory.py:464-468 | right after loading, a usage report with figures breaks the document exactly when there is an agent step but the last step is a system or user step that may have made a model call |
| `RecorderLoad.CostAfterUserStep` | code_auditor/trajectory.py:464-468 | an agent step and a user message, written, loaded and given a cost: the document does not conform any more |
| `RecorderLoad.MistakenRuns` | code_auditor/trajectory.py:464-468 | a run that remembers a wrong step stays valid but for that step, unless figures are reported too early and that step may have made a model call; then a step is spoiled for good |
| `RecorderFrames.OthersKeepFields` | code_auditor/trajectory.py:537-764 | a call that reports no usage keeps the source, the call count and the figures of every step, and gives new steps none |
| `RecorderFrames.EventStaysSpoiled` | code_auditor/trajectory.py:768-1042 | figures on a step that is not from the agent stay there whatever is called |
| `Transcript.TranscriptIsKept` | code_auditor/trajectory.py:543-618 | from any state and over any calls, what the steps say grows by exactly what the calls said, in order: message, reasoning, tool calls and notes with source, time, model and effort; without a model call reasoning is not kept |
| `Transcript.WordsAreKept` | code_auditor/trajectory.py:543-618 | the document of any run, written and loaded again, says in words exactly what the calls said: each text once, as the message or as the reasoning it was given as |
| `Transcript.WrittenAndSaid` | code_auditor/trajectory.py:407-468 | writing a document and loading it again keeps everything that was said |
| `Transcript.RunIsWritten` | code_auditor/trajectory.py:1096-1125 | the written document names the agent, the model, the ids and the notes of the run, has all its steps, and carries the totals of the last finish or else the number of steps |
| `ProviderEvents.StreamsConform` | code_auditor/trajectory.py:817-1019 | for any stream of Claude messages and Codex notifications the document conforms exactly when no Claude message repeats a tool-use id (and it is named and has a step) |
| `ProviderEvents.RepeatedUseIsRefused` | code_auditor/trajectory.py:852-900 | one message with two uses of a tool under one id makes the document unpublishable |
| `ProviderEvents.StreamInOrder` | code_auditor/trajectory.py:817-1019 | Codex notifications never lead to a call out of order; a Claude message does exactly when it repeats a tool-use id |
| `ProviderEvents.EventRecorder.OnClaudeBlocks` | code_auditor/trajectory.py:852-900 | one agent step for all that was said, then the results in order |
| `ProviderEvents.EventRecorder.OnCodexCompleted` | code_auditor/trajectory.py:959-998 | a tool step without a model call and its result, taking the buffered tool and reasoning |
| `ProviderEvents.EventRecorder.OnCodexTurn` | code_auditor/trajectory.py:1000-1019 | a turn takes the buffered message and reasoning and leaves the started tools |
| `ProviderEvents.EventRecorder.OnCodexText` | code_auditor/trajectory.py:917-957 | what a notification buffers |
| `ProviderStreams.StreamIsHeard` | code_auditor/trajectory.py:817-1019 | the written document of any stream of provider events, loaded again, says exactly what the events said, read from the events alone: each Claude message with its texts, thinking and tool calls, each Codex tool, and each Codex turn with its text and its newest reasoning |
| `ProviderStreams.StreamResultsAreKept` | code_auditor/trajectory.py:817-998 | every tool result of a stream is in the document under its call, exactly as often as the stream gave it |
| `ProviderStreams.StreamUsageIsReported` | code_auditor/trajectory.py:819-916 | the recorder is told of exactly the usage that a stream reports, in order: of a Claude result, of Codex totals, and of a completed Codex turn |
| `ProviderStreams.BlocksAreSorted` | code_auditor/trajectory.py:862-887 | a message's texts, thinking, tool uses and results are its blocks of each kind, in order |
| `ProviderStreams.TextIsKept` | code_auditor/trajectory.py:919-1002 | the text that waits for the end of a Codex turn is that of all deltas since the last turn, after a whole message only if that came first |
| `ProviderStreams.ReasoningIsKept` | code_auditor/trajectory.py:934-1003 | the reasoning that waits is each item's newest text, in the order the items came up, without items that a tool took |
| `ProviderStreams.ToolIsKept` | code_auditor/trajectory.py:949-969 | the tool of a completed item is the one started last under its id |
| `ProviderStreams.ToolItemTakesReasoning` | code_auditor/trajectory.py:971-1003 | reasoning under the id of a completed tool item is said nowhere; under any other id the turn says it |
| `Evidence.EvidenceIsKept` | code_auditor/trajectory.py:625-764 | over any run the document holds each text as the result of a call exactly as often as it was given as that, where a delegation to a known child gives none |
| `Evidence.ResultIsKept` | code_auditor/trajectory.py:655-681 | one result adds exactly one result with its text and call, in whatever step |
| `Evidence.SummaryIsKeptOnce` | code_auditor/trajectory.py:718-764 | the summary of a delegation is kept exactly when nothing refers to the child yet |
| `Evidence.SecondSummaryIsLost` | code_auditor/trajectory.py:727-735 | of two delegations to one child the second summary is not in the document |
| `Evidence.SecondResultIsOrphaned` | code_auditor/trajectory.py:655-681 | the first result of a call joins the step that made the call; a second one under the same id becomes a step of its own that names the call as unknown |
| `Evidence.NotesAreKept` | code_auditor/trajectory.py:641-653 | the extra field of a result holds the caller's notes, then the error mark, then where the text was spilled |
| `Delegations.DelegationsAreCounted` | code_auditor/trajectory.py:718-764 | when references come only from add_subagent, a child path is referenced by exactly one step, once, and that step counts the delegations to it |
| `Delegations.FirstDelegation` | code_auditor/trajectory.py:736-764 | a first delegation appends one step that refers to the child once and counts one |
| `Delegations.BumpCounts` | code_auditor/trajectory.py:727-735 | a repeated delegation adds one to the count and no reference |
| `CodexUsage.CodexCounters` | code_auditor/trajectory.py:1350-1391 | of totals as Codex reports them the prompt is everything that is no output, so cached input is not counted twice, and the other counters are those of their names |
| `CodexUsage.ReportShowsCounters` | code_auditor/trajectory.py:1037-1042 | a message step shows the collected cache reads, and notes cache writes and reasoning unless they are zero |
| `CodexUsage.GrowthTelescopes` | code_auditor/trajectory.py:1394-1405 | for every sequence of cumulative totals the growths of a counter add up to the last values of its maximal nondecreasing runs |
| `CodexUsage.SteadyGrowth` | code_auditor/trajectory.py:1394-1405 | a counter that never falls has grown to its latest total |
| `CodexUsage.CollectedBeforeTurns` | code_auditor/trajectory.py:1021-1035 | until the first turn what is pending is, counter by counter, the growth of everything reported, whatever other calls are made |
| `CodexUsage.FirstTurnGetsTheTotals` | code_auditor/trajectory.py:1000-1042 | the first message step gets the prompt and completion tokens that the totals come to |
| `CodexUsage.SteadyTokens` | code_auditor/trajectory.py:1000-1042 | for counters that never fall these are the latest totals |
| `CodexUsage.LaterTotalsReplace` | code_auditor/trajectory.py:802-806 | after a message step has a prompt figure a further total replaces it by the growth; the step then shows both together exactly when the figure was zero |
| `CodexLedger.StepsShowTheirLastGrowth` | code_auditor/trajectory.py:802-806 | over any run of Codex calls every step ends with the last growth that was given to it, and with no figures when it was given none |
| `CodexLedger.HistoryIsBalanced` | code_auditor/trajectory.py:1021-1042 | over any run the growth of all totals was given to some step or still waits for the first message step |
| `CodexLedger.ShownOrLost` | code_auditor/trajectory.py:1021-1078 | the document's sum of prompt tokens, what was overwritten and what waits add up to the growth of all totals |
| `CodexLedger.SumIsGrowthExactly` | code_auditor/trajectory.py:1021-1078 | the sum is the growth of all totals if and only if no totals arrived while the last message step showed a figure, and nothing waits |
| `CodexLedger.SecondTurnOverwrites` | code_auditor/trajectory.py:1000-1042 | a report before each of two turns: the second growth takes the place of the first turn's figure, and the second message step shows none |
| `ClaudeLedger.TotalsAreBilled` | code_auditor/trajectory.py:768-1088 | after any run without Codex usage each total is the one given to the finish, or the sum over the model calls of the newest figure reported for them: input with cache reads and writes, output, cache reads, and cost; reports that follow a turn without a model call count nowhere |
| `ClaudeLedger.UsageFigures` | code_auditor/trajectory.py:1167-1221 | prompt tokens are input, cache reads and cache writes together, and cached tokens the cache reads |
| `ClaudeLedger.FiguresAreCut` | code_auditor/trajectory.py:1203-1211 | figures are cut off toward zero |
| `ClaudeLedger.OddFiguresStay` | code_auditor/trajectory.py:802-808 | something that is there and is no number is not replaced |
| `ClaudeLedger.StepsAreCounted` | code_auditor/trajectory.py:1046-1088 | the number of steps is given, or that of the document |
| `ClaudeLedger.UsageNotes` | code_auditor/trajectory.py:1205-1221 | tokens written to the cache and reasoning tokens are noted unless they are zero |
| `ClaudeLedger.NotesAreMerged` | code_auditor/trajectory.py:795-801 | the notes of a report are added to those of the step, and a newer one replaces an older one |
| `ClaudeLedger.ReportNotes` | code_auditor/trajectory.py:776-781 | what the caller notes on a report comes before what the usage says |
| `TrajectoryPrune.Prune` | code_auditor/db.py:824-870 | fails exactly when a step that loses all results has no message and an extra field that is no object; changes nothing exactly when nothing is purged; otherwise gives the pruned steps and the number of references that went |
| `TrajectoryPrune.OthersRemain` | code_auditor/db.py:828-862 | exactly the purged references are gone and all others are still there in the same order |
| `TrajectoryPrune.NothingPurgedIsLeft` | code_auditor/db.py:786-797 | a reference whose path, with slashes for backslashes, is a purged file or equals or lies below a purged directory is gone; every other one is left as often as it was there |
| `TrajectoryPrune.TextsStay` | code_auditor/db.py:843-850 | every nonempty text that was held as the result of a call is still held as often |
| `TrajectoryPrune.PrunedConforms` | code_auditor/db.py:864-872 | pruning a conforming document leaves a conforming one exactly when some step is no shell: a labelled delegation without a message whose results are nothing but purged references |
| `TrajectoryPrune.StepsGo` | code_auditor/db.py:836-862 | no step is left exactly when every step is such a shell |
| `TrajectoryPrune.AllStepsMayGo` | code_auditor/db.py:855-872 | the document of one delegation without a summary conforms, loses its only step with the child, and what would be written does not conform |
| `JsonExtract.ExtractJsonObject` | code_auditor/utils.py:17-67 | returns the object at the earliest brace of the stripped and unfenced text from which a JSON object starts, and nothing exactly when none starts; without a fence that is the first object of the text itself, and a complete decoder makes it the lone object of a text, fenced or not |
| `JsonExtract.FindClose` | code_auditor/utils.py:41-60 | stops at the first index at which the scan returns to depth zero, or nowhere |
| `JsonExtract.PassValue` | code_auditor/utils.py:44-59 | the scanner passes over every RFC 8259 value without closing |
| `JsonExtract.PassText` | code_auditor/utils.py:45-54 | and over every string with its escapes |
| `JsonExtract.ObjectClosesAtItsEnd` | code_auditor/utils.py:44-60 | the scan of an object first closes at its closing brace |
| `JsonExtract.ObjectEndsAtFirstClose` | code_auditor/utils.py:44-66 | whatever the decoder reads as an object ends where the scan first closes, so each brace has at most one candidate |
| `JsonExtract.WholeTextIsTheObject` | code_auditor/utils.py:25-33 | a text that is one object is the first object of itself |
| `JsonExtract.NextBrace` | code_auditor/utils.py:35-40 | going on to the next brace skips no object |
| `JsonExtract.ObjectsAreRenderings` | code_auditor/utils.py:61-63 | for a complete decoder the objects found are exactly the rendered object trees of the grammar |
| `JsonExtract.FirstOfStripped` | code_auditor/utils.py:19-40 | the first object of a text that starts with no fence is that of the text between its outer white space |
| `JsonExtract.LoneObjectIsFound` | code_auditor/utils.py:19-67 | for a complete decoder one rendered object with white space around it, fenced in either way or not, is found as it is |
| `Fences.StripPieces` | code_auditor/utils.py:19 | stripping a text with white space around it gives the text |
| `Fences.PlainIsStripped` | code_auditor/utils.py:19-24 | a text that starts with no fence is only stripped |
| `Fences.FencedIsInner` | code_auditor/utils.py:20-24 | a text between an opening fence of either kind and a closing one, with white space anywhere around, is what is searched |
| `Fences.UnclosedIsInner` | code_auditor/utils.py:20-24 | and so is the text after an opening fence that nothing closes |
| `Parallel.Bounded` | code_auditor/utils.py:84-102 | in every reachable state at most max(1, concurrency) workers are in flight, each item is started and reported at most once, and each slot holds its own worker's outcome |
| `Parallel.Completes` | code_auditor/utils.py:84-102 | no deadlock and no endless run: at most three steps for each item, and where nothing can happen every item was started, reported and settled |
| `Parallel.RunsAreGood` | code_auditor/utils.py:84-102 | permits and tasks in flight always add up to the limit |
| `Parallel.Collect` | code_auditor/utils.py:105-129 | truthy values and errors of the rejected items, both in item order; results beyond the items are ignored |
| `Parallel.ValueAt` | code_auditor/utils.py:119-129 | a truthy value stands right after the truthy values of the items before it |
| `Parallel.ErrorAt` | code_auditor/utils.py:121-126 | a rejected item leaves one error under its own id right after the errors before it |
| `Parallel.Accounted` | code_auditor/utils.py:119-129 | every item gives a value, an error, or nothing worth keeping, and nothing else is collected |
| `MarkerCodec.Utf8RoundTrip` | code_auditor/checkpoint.py:45-62 | decoding UTF-8 (section 3 of RFC 3629) undoes encoding for all Unicode scalar values |
| `MarkerCodec.QuoteRoundTrip` | code_auditor/checkpoint.py:45-62 | unquoting undoes percent-encoding (section 2.1 of RFC 3986) for every string |
| `MarkerCodec.MarkerRoundTrip` | code_auditor/checkpoint.py:32-62 | decoding a marker name gives back its task key, whatever the suffix contains or starts with |
| `MarkerCodec.EncodingIsInjective` | code_auditor/checkpoint.py:32-48 | two keys never share a marker name |
| `MarkerCodec.MarkerIsPathComponent` | code_auditor/checkpoint.py:40-48 | a marker name is one path component of at most 200 characters |
| `MarkerCodec.SeparatorAfterStage` | code_auditor/checkpoint.py:57-62 | the first separator of a marker name is the one after the stage |
| `MarkerCodec.LegacyIsInjective` | code_auditor/checkpoint.py:65-80 | two stage keys never share a legacy name |
| `MarkerCodec.LegacyDoesNotDecode` | code_auditor/checkpoint.py:65-80 | a legacy name is not a name of the reversible scheme |
| `MarkerCodec.SchemesAreDisjoint` | code_auditor/checkpoint.py:65-80 | so the two schemes never share a name |
| `MarkerCodec.EncodedExactly` | code_auditor/checkpoint.py:32-48 | the name of a key is its stage, a separator and the quoted suffix, exactly if that has at most 200 characters |
| `MarkerCodec.PlainStays` | code_auditor/checkpoint.py:26-28 | a suffix of letters, digits and the four plain signs stays readable |
| `MarkerCodec.LegacyExactly` | code_auditor/checkpoint.py:65-80 | the older scheme has a name for a stage key exactly when its suffix has only plain characters, starts with no dash and has no two dashes together |
| `Checkpoint.NamesAreSeparate` | code_auditor/checkpoint.py:163-182 | two tracked keys share no file name in either scheme |
| `Checkpoint.OtherKeyUnaffected` | code_auditor/checkpoint.py:106-126 | an operation on one key leaves every other key as it was |
| `Checkpoint.CompletionAfterRun` | code_auditor/checkpoint.py:89-126 | from any files and after any operations a tracked key is complete exactly when it was marked last, or its finding is pending, or it was untouched and complete before |
| `Checkpoint.FreshRunCompletion` | code_auditor/checkpoint.py:89-126 | starting from nothing, complete means tracked and marked last |
| `Checkpoint.TrackedExactly` | code_auditor/checkpoint.py:160-176 | tracked are Stage 2 and the keys of the Stages 3 to 6 whose quoted suffix has at most 192 characters, and nothing else |
| `Checkpoint.DoneExactly` | code_auditor/checkpoint.py:89-158 | a stage key is complete exactly when it is tracked and its marker is there, or its older marker, or for Stage 4 its pending file; the latter two only for plain names |
| `Checkpoint.WholeStagesDone` | code_auditor/checkpoint.py:128-133 | Stage 1 is complete exactly when its record is there, Stage 2 exactly when its marker is |
| `Checkpoint.CheckpointManager.IsComplete` | code_auditor/checkpoint.py:89-104 | complete exactly in resume mode and when the key resolves to a file or has a legacy marker |
| `Checkpoint.CheckpointManager.Resolve` | code_auditor/checkpoint.py:128-158 | which keys resolve to a path at all, and when that path exists |
| `Checkpoint.CheckpointManager.MarkComplete` | code_auditor/checkpoint.py:106-114 | adds the key's own marker and changes nothing else |
| `Checkpoint.CheckpointManager.Clear` | code_auditor/checkpoint.py:116-126 | removes the key's own names in both schemes and nothing else |
| `RetainManifest.JoinSplit` | code_auditor/retention.py:172-178 | joining the parts of a path gives the path back |
| `RetainManifest.SafePathsAreDistinct` | code_auditor/retention.py:167-178 | two accepted path texts never name one file |
| `RetainManifest.SafePathsArePlain` | code_auditor/retention.py:167-178 | an accepted path text is one or more plain names joined by slashes, and names that path |
| `RetainManifest.PlainPathsAreSafe` | code_auditor/retention.py:167-178 | every such text is accepted |
| `RetainManifest.Validate` | code_auditor/retention.py:332-483 | accepts exactly the acceptable manifests, and gives their files in order with their total size |
| `RetainManifest.ScanFiles` | code_auditor/retention.py:390-450 | the loop over the files fails exactly when some prefix is not retainable, and otherwise knows all names and the entry point's role |
| `Retention.Export` | code_auditor/retention.py:551-598 | unless something fails, or the destination is a file, the destination gets exactly the listed files and the manifest. Whichever single copy, rename or delete fails, it ends with its complete previous tree or with those files, nothing else has changed, and no temporary directory is left; after several failures the complete old tree is at least in the backup |
| `Retention.ExportRetained` | code_auditor/retention.py:534-598 | the same from loading the manifest on: the listed files are those of the manifest exactly if it is acceptable, and a rejected manifest changes nothing |
| `Retention.StageFiles` | code_auditor/retention.py:566-574 | after the copies the staging directory holds exactly the listed files, and the rest of the file system is as it was |
| `Retention.HoldsOneMore` | code_auditor/retention.py:569-570 | each copy extends what is staged by exactly that file |
| `Retention.Replace` | code_auditor/retention.py:568-590 | every way the guarded part can end |
| `Retention.CleanUp` | code_auditor/retention.py:591-597 | the finally block turns each of them into one of the allowed ends |
| `Retention.AcceptedIsRetainable` | code_auditor/retention.py:545-550 | a validated manifest gives what the copies rely on: existing files, none inside another |
| `FileSystem.MoveBack` | code_auditor/db.py:1511-1517 | renaming back undoes a rename to an unused name |
| `FileSystem.SubtreeOfMoved` | code_auditor/retention.py:577-581 | a rename carries the complete subtree |
| `FileSystem.Host.Rename` | code_auditor/retention.py:578 | a rename happens as a whole or not at all |
| `FileSystem.Host.RemoveTree` | code_auditor/retention.py:588 | a recursive delete that fails may have deleted anything below its root, and nothing else |
| `Quarantine.Stage` | code_auditor/db.py:1424-1436 | existing targets are renamed aside one by one; what is recorded always leads from the tree at entry to the current one |
| `Quarantine.Restore` | code_auditor/db.py:1438-1444 | renaming back in reverse order restores the tree unless one of these renames fails, also when one path was staged inside another |
| `Quarantine.Erase` | code_auditor/db.py:1536-1547 | erasing touches only what lies under recorded quarantine names |
| `Quarantine.ExactlyRemoved` | code_auditor/db.py:1536-1548 | with no failure exactly the targets and what lies below them are gone |
| `Purge.AuditStore.PurgeExpired` | code_auditor/db.py:1302-1548 | all or nothing: when a rename or a statement fails, tables are as on entry, and so are files unless a second operation of this purge fails. Otherwise, row by row and path by path: a disclosure row is gone exactly when it was due, a poc row or Stage 6 row exactly when its directory is removed, and a path exactly when it lies in a removed directory; the number of due rows is reported |
| `Purge.AuditStore.SelectDoomed` | code_auditor/db.py:1347-1384 | the directories that an expired row names and no surviving row does |
| `Purge.ManagedArtifactDirs` | code_auditor/db.py:1214-1273 | a link counts only when its path has the layout of an artifact below the managed root or a registered output |
| `Purge.CollectPlaces` | code_auditor/db.py:1352-1384 | the directories of a set of rows |
| `Purge.RunStatements` | code_auditor/db.py:1458-1509 | all statements together, which `PurgedTables` describes row by row, or none |
| `Purge.PurgedTables` | code_auditor/db.py:1458-1509 | the statements remove exactly the due rows and the dependent rows of removed directories, keep every other row with its status, and recount exactly the runs that lost one |
| `Purge.RemovedPathsAreManaged` | code_auditor/db.py:1214-1273 | every removed path lies below the managed root or a registered output, or beside a managed root that is itself a stage directory |
| `Purge.PathBesideRootIsRemoved` | code_auditor/db.py:1393-1413 | with such a managed root trajectories beside it are removed |
| `Purge.Recount` | code_auditor/db.py:1493-1507 | every affected run, and no other, is recounted |
| `Purge.SurvivorsStayExactly` | code_auditor/db.py:1345-1384 | what lies below a directory that a surviving row names is still in place with its contents, exactly unless it lies in what is purged of another output directory |
| `Purge.SurvivorsAreProtected` | code_auditor/db.py:1345-1384 | so when output trees do not nest, everything below a directory that a surviving row names is still in place |
| `Purge.NestedSurvivorIsLost` | code_auditor/db.py:1345-1384 | a surviving artifact whose output lies inside an expired artifact is purged with it |
| `Purge.AffectedRunsAreRecounted` | code_auditor/db.py:1495-1507 | a run that lost a row has the right reproduced count afterwards, whatever it was before |
| `Purge.PurgeKeepsCounts` | code_auditor/db.py:1495-1507 | a right count stays right for every run |
| `ReviewCleanup.GateIsOpen` | code_auditor/review_cleanup.py:173-190 | an artifact is eligible exactly when something was reproduced and everything reproduced has been reviewed |
| `ReviewCleanup.SelectTargets` | code_auditor/review_cleanup.py:381-390 | no selected target lies inside another, and every candidate lies in a selected one |
| `ReviewCleanup.BuildPlan` | code_auditor/review_cleanup.py:279-412 | every target lies in an output that is not active and, alone or with all artifacts of its output, behind a passed review and valid manifests, and is free of protected paths; every outermost disposable or shared directory behind a passed gate is covered by a target or blocked; targets lie apart |
| `ReviewCleanup.ProposalIsRight` | code_auditor/review_cleanup.py:329-379 | what is proposed is a disposable directory of a cleared artifact, or a shared one of an output whose artifacts are all cleared |
| `ReviewCleanup.DisposableIsHandled` | code_auditor/review_cleanup.py:337-368 | every disposable directory of a cleared artifact is covered by a target, or blocked |
| `ReviewCleanup.SharedIsHandled` | code_auditor/review_cleanup.py:370-379 | and so is every shared directory of an output whose artifacts are all cleared |
| `ReviewCleanup.SuffixIsDropped` | code_auditor/review_cleanup.py:192-200 | a Stage 5 directory is about the finding whose id is its name without the `_fp` of a false positive |
| `ReviewCleanup.Classify` | code_auditor/review_cleanup.py:329-379 | splits the proposals into blocked ones and candidates sorted by depth |
| `ReviewCleanup.ApplyCleanup` | code_auditor/review_cleanup.py:478-509 | only what lies in a target that was checked right before its deletion is gone, and nothing is deleted while an audit is active; success means that everything free behind a passed gate is gone, and otherwise a target failed its check or a deletion failed; when the database stays as it was and nothing fails, it succeeds |
| `ReviewCleanup.FreshTargetIsSafe` | code_auditor/review_cleanup.py:426-475 | what is planned passes its check as long as nothing has changed |
| `ReviewCleanup.OthersStaySafe` | code_auditor/review_cleanup.py:426-475 | deleting one target leaves every other one as safe as it was, when manifests depend only on what they retain |
| `ReviewCleanup.ProtectedPathsStay` | code_auditor/review_cleanup.py:256-276 | no registered path, retained file or key file lies in a checked target |
| `ReviewCleanup.OnlyReviewedArtifactsLoseFiles` | code_auditor/review_cleanup.py:426-475 | nothing inside an artifact is deleted unless all its reproduced findings were reviewed at that moment |
| `ReviewCleanup.DeletedPathIsExpendable` | code_auditor/review_cleanup.py:478-509 | whatever an application of the plan removed was unregistered, not retained, no key file, and in reviewed artifacts only |
| `ReviewCleanup.ReviewsHaveNotChanged` | code_auditor/review_cleanup.py:435-462 | a deletion in an artifact was made on the same reviews that it was planned on; a shared directory was deleted beside at least one artifact, all of them reviewed |
| `BoundedQueue.EvictionRules` | code_auditor/web/progress.py:71-97 | one event is lost exactly when the queue is full; it is ordinary if any is, and a job event exactly when all queued events are and the new one has priority |
| `BoundedQueue.RunsKeepOrder` | code_auditor/web/progress.py:71-108 | over any run the queue stays within its bound, delivered and queued events are in the order of publication, and every event is delivered, queued or lost exactly once |
| `BoundedQueue.JobEventsSurvive` | code_auditor/web/progress.py:84-95 | fewer job events than the queue holds are never lost |
| `BoundedQueue.JobEventDisplaced` | code_auditor/web/progress.py:84-95 | in a queue full of job events a stage event displaces the oldest of them |
| `BoundedQueue.BoundedEventQueue.PutNowait` | code_auditor/web/progress.py:71-97 | the new contents, and a waiting reader is woken exactly when there is something to read |
| `BoundedQueue.BoundedEventQueue.Get` | code_auditor/web/progress.py:99-108 | takes the oldest event, or waits |
| `BoundedQueue.BoundedEventQueue.Search` | code_auditor/web/progress.py:73-95 | the first queued event that passes a test |
| `EventBus.EventBus.Publish` | code_auditor/web/progress.py:154-166 | gives the event the next id, keeps it in the bounded backlog, and delivers or schedules it |
| `EventBus.EventBus.Deliver` | code_auditor/web/progress.py:168-170 | puts the event into every subscriber's queue once |
| `EventBus.EventBus.Subscribe` | code_auditor/web/progress.py:145-149 | adds one empty queue and binds the loop of the caller, if it has one |
| `EventBus.ClientsSeeGrowingIds` | code_auditor/web/progress.py:137-170 | when no call publishes past what is scheduled, every client sees strictly growing ids over any run |
| `EventBus.OrderExactly` | code_auditor/web/progress.py:137-170 | clients see growing ids, whatever is read and delivered after any of the calls, if and only if every event is published to no one, through the loop, with nothing scheduled, or to queues that all refuse it |
| `EventBus.LoopPreventsOvertaking` | code_auditor/web/progress.py:145-166 | when clients subscribe from within the loop, no call publishes past what is scheduled |
| `EventBus.LosingTheLoopBreaksOrder` | code_auditor/web/progress.py:130-170 | a second client that subscribes outside the loop while a delivery is scheduled lets the next event overtake it |
| `EventBus.NothingIsLost` | code_auditor/web/progress.py:145-170 | while no more is published than a queue holds, a client that stays subscribed gets every event since its subscription exactly once, and what was scheduled at that moment, and nothing else |
| `EventBus.BacklogIsNewest` | code_auditor/web/progress.py:137-160 | the backlog is the newest events since it was cleared, up to its bound |
| `EventBus.FeedsAreMembers` | code_auditor/web/progress.py:145-152 | exactly those are fed whose last membership call was a subscription |
| `Reachability.Search` | code_auditor/poc_artifacts.py:299-307 | the worklist ends and finds exactly the nodes that a path from a source leads to |
| `Reachability.AddTargets` | code_auditor/poc_artifacts.py:303-307 | the new targets of a node, and only they, are added and put in line |
| `Reachability.PathStaysIn` | code_auditor/poc_artifacts.py:299-307 | no path leaves a set that is closed under edges |
| `TriggerGraph.Validate` | code_auditor/poc_artifacts.py:139-309 | raises exactly for a node with an id and an unhashable role; otherwise reports nothing exactly for well-formed graphs, and a missing path exactly when sources and sinks exist and no accepted edges join them |
| `TriggerGraph.ListAsRoleRaises` | code_auditor/poc_artifacts.py:205-214 | one node with an id and a list as its role is such a document |
| `TriggerGraph.ValidateNodes` | code_auditor/poc_artifacts.py:183-245 | the ids, sources and sinks of all nodes; clean exactly when all conform and no id repeats |
| `TriggerGraph.ValidateEdges` | code_auditor/poc_artifacts.py:247-292 | the graph of the accepted edges; clean exactly when all edges conform |
| `TriggerGraph.ValidatePaths` | code_auditor/poc_artifacts.py:294-309 | which of the three graph errors are reported |
| `TriggerGraph.GraphHasAcceptedEdges` | code_auditor/poc_artifacts.py:255-273 | two nodes are joined in the graph exactly when some accepted edge joins them |
| `TriggerGraph.AcceptedGraphs` | code_auditor/poc_artifacts.py:139-309 | an accepted graph has unique ids, edges between its nodes, and a walk along its edges from a trigger or source to a sink |
| `TriggerGraph.PathIsWalk` | code_auditor/poc_artifacts.py:294-309 | the graph has a path exactly when there is a walk from a node with a source role to one with a sink role along edges of the document |
| `FindingIds.IdRoundTrip` | code_auditor/stages/stage4.py:304-323 | reading an id back gives the severity and number it was written from, for numbers of any length |
| `FindingIds.StemNumber` | code_auditor/stages/stage4.py:42 | a final file name is read as its letter and its digits |
| `Stage4.CountExisting` | code_auditor/stages/stage4.py:304-323 | each counter is the highest number in use for its severity |
| `Stage4.SortedIsSorted` | code_auditor/stages/stage4.py:342-343 | findings are ordered by severity and then by falling score |
| `Stage4.SortKeepsAll` | code_auditor/stages/stage4.py:342-343 | ordering is a permutation |
| `Stage4.Dedupe` | code_auditor/stages/stage4.py:185-227 | keeps findings with new keys, and findings without a key |
| `Stage4.KeptKeysAreNew` | code_auditor/stages/stage4.py:196-227 | kept findings have keys of their own that no existing document has |
| `Stage4.DroppedAreRepresented` | code_auditor/stages/stage4.py:215-224 | a dropped finding has an existing document with its key or a kept finding that ranks at least as high |
| `Stage4.AssignIds` | code_auditor/stages/stage4.py:348-361 | the directory after every kept finding was moved in under its id |
| `Stage4.NumbersFollow` | code_auditor/stages/stage4.py:349-352 | new numbers follow the highest in use without gaps or repeats |
| `Stage4.HigherScoresFirst` | code_auditor/stages/stage4.py:342-352 | within a severity a higher score never gets a larger number |
| `Stage4.StaysConsistent` | code_auditor/stages/stage4.py:299-361 | when every final file carries its own name as id, nothing is overwritten and this stays so |
| `Stage4.AllPlaced` | code_auditor/stages/stage4.py:348-361 | every kept finding ends up under its own id |
| `Stage4.NewIdsFollow` | code_auditor/stages/stage4.py:349-352 | the new ids are exactly the ones that follow the counters |
| `Stage4.Overwritten` | code_auditor/stages/stage4.py:352-355 | an existing file stays as it was unless its name is one of the next ids; then a kept finding is in its place |
| `Stage4.UnreadableIsOverwritten` | code_auditor/stages/stage4.py:304-355 | C-01 that cannot be read is replaced by the first critical finding |
| `Stage4.AssignIdsAndFinalize` | code_auditor/stages/stage4.py:299-365 | every valid pending document with a severity is in the directory under an id of that severity, or its key is that of an existing document or of a finalised one that ranks at least as high; every file that changed holds such a document under its own id |
| `Stage4.RatedIsAccountedFor` | code_auditor/stages/stage4.py:323-361 | each valid rated document is finalised or represented |
| `Stage4.ChangesArePending` | code_auditor/stages/stage4.py:323-361 | what changed in the directory is a valid rated pending document under its own id |
| `Stage4.MoreSevereFirst` | code_auditor/stages/stage4.py:342-343 | a more severe finding, or one as severe with a higher score, goes first |
| `SemanticDedupe.Filter` | code_auditor/semantic_dedupe.py:99-275 | one decision for each candidate, whatever the model says: a candidate with the key of an entry of its project, or of any entry if the project has none, or of an earlier kept candidate is filtered under it; a filtered one matches such a key and is represented by what has it |
| `SemanticDedupe.DecisionsInOrder` | code_auditor/semantic_dedupe.py:134-275 | one decision for each candidate in order, and the retained ones are those decided new in order |
| `SemanticDedupe.RetainedAreNew` | code_auditor/semantic_dedupe.py:134-275 | retained candidates have distinct keys that the supplied inventory does not have |
| `SemanticDedupe.WhyFiltered` | code_auditor/semantic_dedupe.py:199-240 | a candidate is filtered exactly for a known key or a usable duplicate verdict; the matched key is supplied or of an earlier retained candidate, so a failing model drops nothing |
| `SemanticDedupe.InventoryIsListed` | code_auditor/semantic_dedupe.py:84-132 | known from the start are exactly the keys of the entries that count, each under the title of its last entry |
| `SemanticDedupe.DecisionIsRight` | code_auditor/semantic_dedupe.py:134-275 | every decision is right in that sense |
| `RunLifecycle.RunStore.CreateRun` | code_auditor/db.py:1874-1915 | a new row under a new id, with a session open exactly when it starts running; an unknown kind is refused |
| `RunLifecycle.RunStore.FinishRun` | code_auditor/db.py:1957-1968 | ends one run with the given status and error, closes its open session, if any, and touches no other |
| `RunLifecycle.RunStore.CancelRunningRun` | code_auditor/db.py:2162-2195 | ends exactly an orphaned running audit as cancelled |
| `RunLifecycle.RunStore.CancelRunningRuns` | code_auditor/db.py:2197-2243 | ends all orphaned running audits as cancelled, and no other, and names them in order |
| `RunLifecycle.RunStore.ResumeCancelledRun` | code_auditor/db.py:2245-2307 | reopens a run with a session from now exactly if it is an audit that was cancelled, failed, or was done with an error |
| `RunLifecycle.RunsAreSound` | code_auditor/db.py:1884-2307 | in every reachable table only running runs have an open session |
| `RunLifecycle.DurationIsSessions` | code_auditor/db.py:1961-1966 | the duration of a run is the time of its closed sessions, each at least zero; gaps do not count |
| `RunLifecycle.OpenSessionsStay` | code_auditor/db.py:2245-2307 | an open session is never opened over |
| `RunLifecycle.FinishingAgain` | code_auditor/db.py:1957-1968 | finishing a finished run adds nothing |
| `RunLifecycle.OriginsStay` | code_auditor/db.py:2255-2262 | a run keeps its beginning and its kind over any later operations |
| `RunLifecycle.MaintenanceRunsOnce` | code_auditor/db.py:2266-2285 | maintenance and backfill runs never resume: they have one session at most |
| `RunLifecycle.SettledRunsStay` | code_auditor/db.py:2266-2285 | imported, superseded and clean done runs stay as they are until they are finished again |
| `RunLifecycle.CreatedRun` | code_auditor/db.py:1874-1915 | a new run is open from its start exactly when it is created as running |
| `RunLifecycle.CancelledThenResumed` | code_auditor/db.py:2162-2307 | a running audit that is cancelled and then resumed is over in between and runs again with a session from the second moment; only the time before the cancellation counts |
| `RunLifecycle.OnlyUnfinishedResume` | code_auditor/db.py:2245-2307 | resuming changes nothing exactly for runs that are no unfinished audits |

## Left out

- AtifValidator.ValidateHeader: does not parse timestamps, because ISO 8601 parsing is a library call; a timestamp only has to be a text. A source field that is a list or an object makes the original raise; here it is a problem like any other wrong source.
- AtifValidator.ValidateTrajectory: like ValidateHeader, does not parse timestamps.
- AtifValidator.ValidateStep: like ValidateHeader, does not parse timestamps.
- AtifValidator.ValidateEmbedded: embedded trajectories that are a number or true make the original raise in its last loop; here they are a problem like any other that is no list.
- Texts arrive at the recorder already cleaned, bounded and redacted; blob files, truncation notices, generated times and ids are parameters, and the notes and extra fields of the whole document are part of the settings.
- Claude and Codex payloads are taken apart beforehand: which attribute of an SDK object holds a text, a usage or an id is not modelled.
- CodexLedger.SumIsGrowthExactly: is about runs without Claude usage reports, which no Codex session makes and which would put other figures on its steps, and about counters that are token counts: whole numbers that are not negative.
- ClaudeLedger.TotalsAreBilled: is about runs without Codex usage, and about usage with the four whole counters that Anthropic reports and no prompt count of its own.
- The delegation count in a step's extra field is taken to be an integer when it is set by others.
- Floating-point figures are exact reals; token counts are truncated as the source does.
- JsonExtract.ExtractJsonObject: the decoder is a parameter that reads only JSON texts (and, where said, all of them), because json.loads is foreign; its recursion limit is not modelled.
- Parallel.Completes: does not model cancellation, and says nothing about tasks that go on after gather has passed on the error of a completion callback.
- Retention.Export: assumes that the parent of the destination exists and holds no entry with one of the new temporary names; symbolic links, hard links, file modes and the scan of file contents for portable text are not modelled, and a copy is one operation.
- RetainManifest.Validate: digests are an abstract function of the contents; file modes and the scan for portable text are not modelled.
- RetainManifest.ScanFiles: like Validate, without file modes and the scan for portable text.
- Purge.AuditStore.PurgeExpired: tables are sets and maps, a statement is one operation that may fail, and the cleaning of CVE links is one such statement; the count of disclosures, which the source computes by two rules, is not modelled. Pruning the run document after the commit is modelled by itself in `TrajectoryPrune`.
- Purge.SurvivorsAreProtected: asks that no output directory lies inside another; `Purge.SurvivorsStayExactly` says what happens when they do.
- ReviewCleanup.BuildPlan: the names of disposable directories, key files and audit outputs, and the reading of manifests, are parameters.
- ReviewCleanup.OthersStaySafe: asks that reading a manifest depends on nothing but the files it retains, which lie in its artifact, because the reader is a parameter.
- EventBus.ClientsSeeGrowingIds: publishing is one atomic step, so two threads that take the same id are not modelled; there is one event loop.
- TriggerGraph.Validate: problems of shape are not told apart from each other, only reported or not.
- FindingIds.StemNumber: digits are the ASCII digits, whereas the pattern and int() also accept other decimal digits.
- Stage4.AssignIdsAndFinalize: the final ordering of the returned paths, which only affects display, is left out, and the dedupe key is an abstract property of a document.
- SemanticDedupe.Filter: prompts, logs and the reasons given for decisions are left out; cancellation, which ends the whole stage, is not modelled.
- RunLifecycle.RunStore.FinishRun: repository identity, usage and model columns, and the later repair of maintenance statuses are left out.
- Agents, sandboxes, git, the Web server, prompts, CVSS arithmetic, regular expressions over prose, and encryption are foreign to these decisions or have no crisp specification.
- Containment of resolved paths (`path_is_within`) is the prefix order on path components; resolving symbolic links is not part of this model.
