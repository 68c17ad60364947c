# ChaosBlade: a verified model

ChaosBlade injects faults and takes them back. This project models the four places where its state is hardest to
keep right, and proves what holds of them for every input, every run and every failure of what they call.

**The agent's graphs** (`Router`, `InjectGraph`, `WallClock`, `Termination`, `LoopBookkeeping`, `RecoverGraph`,
`ErrorRules`, `SafetyScore`). The inject graph is a transition system over its router functions and edge tables; a run
is any sequence of visits the routers allow, with nodes that may write anything. Gating, dry runs, verdicts and the
wall-clock bound are proved of all such runs. Termination is proved twice: for nodes that keep honest counts, with an
explicit bound, and for the counting the loop nodes really do, as an if-and-only-if over the settings.

**The stream batcher** (`Batcher`). The class with its two buffers, size threshold and deadline refines the unbatched
stream.

**The ledgers** (`ExperimentTable`, `Ledger`, `Preparations`, `CommandKeys`, `ResourceFlags`, over `Text`). Tables are
sequences of rows with unique uids and increasing ids; executors, processes, the cluster and the database answer
arbitrarily, and the answers are part of each request. The step-by-step commands are methods proved equal to functions,
and runs of those functions carry the invariants.

**The Kubernetes executor** (`KubernetesPolling`). Polling reads an arbitrary observation at each tick.

Where the code does not do what it seems meant to, the code is modelled as it is, the exact condition is proved and,
unless every input fails, a concrete one shows the failure:

- Planning sets its iteration counter back to one on every visit once a replan context exists, and nothing clears that
  context within a turn. With the default limits the planning budget never ends such a turn
  (`LoopBookkeeping.PipelinesTerminateExactlyWhen`); what ends it is `settings.recursion_limit` (500), which the server
  hands to the graph library and which cuts the turn with an exception. Only planning is concerned: everything behind it
  stays bounded (`LoopBookkeeping.OnlyPlanningIsUnbounded`).
- The planning node never stamps the start of the pipeline, so the wall-clock guard fires in no such turn
  (`LoopBookkeeping.ClockNeverCutsATurn`).
- A replan is counted before the router looks, so over a turn at most max_replan_count - 1 requests are served
  (`LoopBookkeeping.RequestServedExactlyWhen`, `LoopBookkeeping.ServedRequestsAreBounded`,
  `LoopBookkeeping.ServedBoundIsReached`).
- Naming targets can lower the score of a namespace-wide request (`SafetyScore.NamingLowersScoreExactlyWhen`,
  `SafetyScore.NarrowedRequestScoresLower`).
- A create can report success while its record does not read Success (`Ledger.ReportAndRecordDisagreeExactlyWhen`,
  `Ledger.SuccessCanStayUnrecorded`, `Ledger.SuccessCanReadError`).
- A destroyed experiment can be executed again by uid (`Ledger.DestroyedRunsAgainExactlyWhen`,
  `Ledger.FailedLookupRunsAgain`).
- An experiment's prepare can leave two Running rows for one process (`Preparations.UniquenessKeptExactlyWhen`,
  `Preparations.FailedLookupDuplicates`).
- A create that is merely slow is reported failed (`KubernetesPolling.CreateSucceedsExactlyWhen`,
  `KubernetesPolling.SlowCreatesAreFailed`).
- A destroy by matchers never asks for the records of Kubernetes scopes (`Ledger.RecordIsMatchedExactlyWhen`,
  `Ledger.KubernetesRecordIsMissed`). It does no
  harm there: the Kubernetes executor refuses a destroy without uid (`KubernetesPolling.Exec`), so the update is not
  reached.
- Executor keys of different registrations can coincide (`CommandKeys.KeysCoincideExactlyWhen`,
  `CommandKeys.KeysCanCollide`).

Automatic induction is switched off wherever Dafny would apply it, so each induction is written out.
`dafny verify dfyconfig.toml` checks the whole project.

## Model

| member | source | states |
|---|---|---|
| InjectGraph.RoutersStayInTheirTables | blade-ai/src/chaos_agent/agent/graph.py:258-507 | For every node, state, setting and clock, a router answers only labels its edge table holds; the one exception, if and only if, is a planning screener that leaves a stale "replan" route. |
| InjectGraph.BaselineEntry | blade-ai/src/chaos_agent/agent/router.py:242-288 | baseline_capture is entered only with dry_run off and the request not rejected, from the confirmation gate, or from the safety check when the status is safe and no confirmation is needed. |
| InjectGraph.GateEntry | blade-ai/src/chaos_agent/agent/graph.py:373-394 | The confirmation gate is entered only from the safety check. |
| InjectGraph.EveryGatedVisitIsCleared | blade-ai/src/chaos_agent/agent/graph.py:319-440 | In every run from START with arbitrary node behaviour and any number of replans, each visit at or behind the baseline has a cleared baseline visit before it and only gated nodes since. |
| InjectGraph.SafetyCheckSinceLatestPlanning | blade-ai/src/chaos_agent/agent/graph.py:330-440 | Each visit to execute_loop, direct_execute or phase2_tools has a safety_check after the latest agent_loop visit. |
| InjectGraph.DryRunTouchesNothing | blade-ai/src/chaos_agent/agent/router.py:242-288 | While dry_run stays set no baseline, snapshot, execution, phase-2 tool or verifier node is reached, over all planning loops. |
| InjectGraph.SeDetectNeedsVerdict | blade-ai/src/chaos_agent/agent/router.py:306-392 | se_detect is entered only from a verifying node, with a verdict or with the wall clock exceeded. |
| InjectGraph.VerificationEndsInSeDetect | blade-ai/src/chaos_agent/agent/graph.py:458-501 | A finished run that began to verify ended through se_detect and save_memory. |
| InjectGraph.VerdictsAreNeverLost | blade-ai/src/chaos_agent/agent/router.py:306-392 | When no node clears a verdict, a finished run that verified at all still carries a verdict or was cut by the clock. |
| WallClock.ExceededStepsTowardsEnd | blade-ai/src/chaos_agent/agent/router.py:100-239 | With the clock exceeded every edge of the pipeline leads strictly closer to END, whatever the nodes wrote. |
| WallClock.EndsWithinElevenEdges | blade-ai/src/chaos_agent/agent/graph.py:330-507 | With a monotone clock and a kept start stamp, a run that cannot continue is at END, unless it stands at a planning screener that left a stale "replan" route, and any exceeded run has at most eleven edges left; no counter is assumed. |
| WallClock.ElevenEdgesHappen | blade-ai/src/chaos_agent/agent/graph.py:330-507 | Eleven is exact: a run of eleven edges exists. |
| Termination.EdgesLowerPosition | blade-ai/src/chaos_agent/agent/graph.py:330-507 | Every edge that does not enter a loop node lowers the position inside its cycle; where the edges into the loop nodes come from. |
| Termination.DisciplinedStepsDescend | blade-ai/src/chaos_agent/agent/router.py:72-239 | Every edge lowers a six-part lexicographic measure (replans left, pending request, planning, execution and verifier budgets, position) when nodes keep honest budget counts. |
| Termination.DisciplinedRunsAreBounded | blade-ai/src/chaos_agent/agent/graph.py:330-507 | Every such run, through all nested loops and replans, is no longer than an explicit product of the limits. |
| LoopBookkeeping.InvariantHolds | blade-ai/src/chaos_agent/agent/nodes/agent_loop.py:319-361 | Over every turn from load_memory on, through the intent dialogue or not: clock unstamped, replan count and context together and within limits, pending requests only where they are being served or dead, exhausted replans only behind planning. |
| LoopBookkeeping.ClockNeverCutsATurn | blade-ai/src/chaos_agent/agent/nodes/agent_loop.py:319-361 | No node of a language-model turn stamps the start of the pipeline, so the wall-clock guard never fires in one, at any setting and time. |
| LoopBookkeeping.BudgetsHonouredExceptWindBack | blade-ai/src/chaos_agent/agent/nodes/agent_loop.py:325-332 | A node step honours the budgets if and only if it is not a planning visit that winds its counter back on an old replan context. |
| LoopBookkeeping.PipelineIsNeverLeft | blade-ai/src/chaos_agent/agent/graph.py:330-507 | Once a run is in the pipeline it stays in it. |
| LoopBookkeeping.PipelinesTerminateWhenBudgetHolds | blade-ai/src/chaos_agent/agent/nodes/execute_loop.py:453-530 | Under the settings that rule winding back out, the pipeline part of every turn is within the explicit bound. |
| LoopBookkeeping.DialoguesOfAnyLength | blade-ai/src/chaos_agent/agent/router.py:533-588 | The dialogue before the pipeline has no budget: at any settings there are turns of every length that never enter the pipeline. |
| LoopBookkeeping.PipelinesOfAnyLength | blade-ai/src/chaos_agent/agent/nodes/agent_loop.py:325-332 | Under all other settings there are turns with pipelines of every length: a concrete one plans, replans once and then only plans. |
| LoopBookkeeping.PipelinesTerminateExactlyWhen | blade-ai/src/chaos_agent/agent/nodes/agent_loop.py:319-361 | The pipeline part of every turn is bounded if and only if max_agent_loop <= 1, max_replan_count <= 1 or max_execute_loop <= 0; with the defaults it is not. |
| LoopBookkeeping.ReplansAreBounded | blade-ai/src/chaos_agent/agent/nodes/execute_loop.py:1035-1126 | Every turn, through the dialogue or not and terminating or not, takes the replan edge at most max_replan_count times. |
| LoopBookkeeping.RequestServedExactlyWhen | blade-ai/src/chaos_agent/agent/router.py:72-97 | A counted replan request is served by the execute router if and only if one more replan is left. |
| LoopBookkeeping.ServedRequestsAreBounded | blade-ai/src/chaos_agent/agent/router.py:72-97 | Over every turn at most max_replan_count - 1 replan requests are served. |
| LoopBookkeeping.ServedBoundIsReached | blade-ai/src/chaos_agent/agent/nodes/execute_loop.py:1035-1126 | Where the budgets leave room, a concrete turn serves max_replan_count - 1 requests and then counts one more that is not served. |
| LoopBookkeeping.OnlyPlanningIsUnbounded | blade-ai/src/chaos_agent/agent/graph.py:373-507 | At any settings the visits of every turn outside planning are fewer than fourteen for each combination of the replan, execution and verifier budgets. |
| RecoverGraph.RecoverRunsStopOnlyAtEnd | blade-ai/src/chaos_agent/agent/graph.py:512-592 | The recover graph has a successor everywhere but at its end. |
| RecoverGraph.RecoverEndsExactlyWhen | blade-ai/src/chaos_agent/agent/router.py:395-483 | A recover step ends the run if and only if there is a verdict, or at the loop the clock ran out or the budget was spent before Layer 2. |
| RecoverGraph.RecoverEndIsJustified | blade-ai/src/chaos_agent/agent/router.py:395-483 | Every recover run that ended, whatever its nodes wrote, ended with a verdict, with the clock exceeded, or with the loop budget spent before Layer 2. |
| RecoverGraph.RecoverRunsAreBounded | blade-ai/src/chaos_agent/agent/graph.py:512-592 | Every recover run whose loop spends its budget or delivers is within five visits per unit of budget. |
| Router.ScanForSubmit | blade-ai/src/chaos_agent/agent/router.py:361-379 | The reverse scan loop with its early exits computes the recursive batch search. |
| Router.ScanForPlanningSignal | blade-ai/src/chaos_agent/agent/router.py:154-179 | The planning scan loop computes the recursive search for the latest signal. |
| Router.SubmitInTrailingRun | blade-ai/src/chaos_agent/agent/router.py:454-470 | The verifier scans finalize if and only if the maximal trailing run of tool messages holds a non-error submit. |
| Router.PlanningScanInTrailingRun | blade-ai/src/chaos_agent/agent/router.py:154-179 | The planning scan follows the latest non-error signal of the trailing run, plan changes only with a replan context, and otherwise returns to planning. |
| Router.ScansIgnoreEarlierMessages | blade-ai/src/chaos_agent/agent/router.py:154-179 | Messages before the trailing run never change any scan. |
| Router.OperatorErrorsEndExecution | blade-ai/src/chaos_agent/agent/router.py:182-214 | An authentication or quota error without a replan request makes the execute router end in every state and at every time. |
| ErrorRules.SearchIsFirstMatch | blade-ai/src/chaos_agent/errors.py:434-454 | For every rule table the nested search is the first pattern of the flattened table that occurs in the message. |
| ErrorRules.SurroundingNeverMovesLater | blade-ai/src/chaos_agent/errors.py:329-454 | Surrounding a message with more text never moves it to a later rule. |
| ErrorRules.PrefixDecides | blade-ai/src/chaos_agent/errors.py:329-454 | A pattern of the leading rules decides alone, whatever rules follow. |
| ErrorRules.OperatorErrorsNeverReplan | blade-ai/src/chaos_agent/errors.py:208-215 | A message containing an authentication or quota pattern is for the user and is never auto-replanned. |
| SafetyScore.FindCritical | blade-ai/src/chaos_agent/agent/safety_score.py:256-318 | The scan of the target names finds a critical component if and only if one is named. |
| SafetyScore.TokensAreWholeSegments | blade-ai/src/chaos_agent/agent/safety_score.py:66-76 | A pattern is a token of a name if and only if it is a whole segment between separators, so a hash that contains it does not count. |
| SafetyScore.BlastRadiusMonotone | blade-ai/src/chaos_agent/agent/safety_score.py:123-175 | Adding target names or widening the declared execution never lowers the blast radius of a request that is not namespace-wide. |
| SafetyScore.AggregateMonotone | blade-ai/src/chaos_agent/agent/safety_score.py:321-368 | Under any non-negative weights the rounded, clamped aggregate is monotone in the four dimensions. |
| SafetyScore.RiskIsMonotone | blade-ai/src/chaos_agent/agent/safety_score.py:123-391 | From a request that is not namespace-wide, adding names, conflicts, attempts, deep signal or execution scope never lowers the overall score or the final status, for any weights and thresholds. |
| SafetyScore.NamingLowersBlastRadiusExactlyWhen | blade-ai/src/chaos_agent/agent/safety_score.py:123-175 | Naming targets lowers the blast radius if and only if the request is namespace-wide with a scope, at most twenty targets are named, and neither the cap of 100 nor the declared execution scope hides it. |
| SafetyScore.NamingLowersScoreExactlyWhen | blade-ai/src/chaos_agent/agent/safety_score.py:321-368 | For every request and every list of names, naming targets lowers the overall score under the default weights if and only if a guard on the request holds, whose three cases the next rows give. |
| SafetyScore.NamingPlainLowersScoreExactlyWhen | blade-ai/src/chaos_agent/agent/safety_score.py:321-368 | Without a first critical component: if and only if the request is narrowed as above. |
| SafetyScore.NamingCriticalLowersScoreExactlyWhen | blade-ai/src/chaos_agent/agent/safety_score.py:256-368 | With a first critical component and topology up to 70: if and only if it is the single target of a namespace-wide request whose thirty points are all lost. |
| SafetyScore.NamingCriticalAtCapLowersScoreExactlyWhen | blade-ai/src/chaos_agent/agent/safety_score.py:256-368 | With a first critical component and topology above 70: if and only if four times the loss of blast radius exceeds three times the topology missing to 100 by more than five, or by exactly five with an odd number of tens in the time score. |
| SafetyScore.NarrowedRequestScoresLower | blade-ai/src/chaos_agent/agent/fault_spec.py:147-149 | A concrete namespace-wide request does score lower once a target is named. |
| SafetyScore.OverallLiesBetweenDimensions | blade-ai/src/chaos_agent/agent/safety_score.py:321-368 | Under the default weights the overall score lies between the smallest and the largest dimension. |
| SafetyScore.EscalationIsIdempotent | blade-ai/src/chaos_agent/agent/safety_score.py:371-391 | Escalating an escalated status changes nothing. |
| SafetyScore.HighRiskIsAlwaysConfirmed | blade-ai/src/chaos_agent/agent/nodes/safety_check.py:64-125 | A score at or above the warning threshold (routing on) or a cluster-wide execution never routes straight to baseline_capture. |
| Batcher.SseBatcher.constructor | blade-ai/src/chaos_agent/agent/streaming.py:396-405 | A new batcher holds nothing. |
| Batcher.SseBatcher.FlushPending | blade-ai/src/chaos_agent/agent/streaming.py:407-424 | Sends exactly the pending frames, token before thinking, and empties both buffers. |
| Batcher.SseBatcher.Feed | blade-ai/src/chaos_agent/agent/streaming.py:434-470 | The new buffer and the frames sent are the deadline check followed by the event. |
| Batcher.SseBatcher.Flush | blade-ai/src/chaos_agent/agent/streaming.py:472-476 | Sends the remainder, and nothing when batching is disabled. |
| Batcher.FedConserves | blade-ai/src/chaos_agent/agent/streaming.py:434-470 | What a feed sends and keeps together is exactly what it was given. |
| Batcher.BatchedRefinesUnbatched | blade-ai/src/chaos_agent/agent/streaming.py:407-476 | For every event sequence and clock, the batched stream after the final flush shows a client the same structural frames in the same order and the same text per channel between them. |
| Batcher.NeverMoreFrames | blade-ai/src/chaos_agent/agent/streaming.py:407-476 | Batching never sends more frames than events. |
| Batcher.DeliverStream | blade-ai/src/chaos_agent/agent/streaming.py:370-395 | Feeding every event and flushing delivers a stream equivalent to the unbatched one, with no more frames. |
| Batcher.LabelsSurviveBatching | blade-ai/src/chaos_agent/agent/streaming.py:407-470 | When each channel comes from one node and one task, every frame carries those labels. |
| Batcher.BuffersStaySmall | blade-ai/src/chaos_agent/agent/streaming.py:463-470 | After every feed the two buffers together stay below flush_chars. |
| Batcher.HeldTextIsYoung | blade-ai/src/chaos_agent/agent/streaming.py:426-470 | Over every run with a positive clock, held text is the text of the inputs since some input began the batch, and every deadline check since found it younger than the interval. |
| CommandKeys.BuildExecutorKey | cli/cmd/exp.go:451-464 | The loop joins the non-empty parts with hyphens. |
| CommandKeys.PathIsRecorded | cli/cmd/command.go:113-120 | Splitting the create path records the parent or the name as command and the rest as sub-command. |
| CommandKeys.RecordFindsItsExecutor | cli/cmd/destroy.go:233-260 | For every registered parent (possibly empty), name and action, re-parsing the record at destroy yields exactly the key of the registration. |
| CommandKeys.AnyKeysCoincideExactlyWhen | cli/cmd/exp.go:451-464 | For all registrations: two keys are equal if and only if stem (parent and name) and action are, or a hyphenated piece moved between stem and action. |
| CommandKeys.KeysCoincideExactlyWhen | cli/cmd/exp.go:330-376 | With hyphen-free parents and actions and any names, two keys are equal if and only if the actions are and either parent and name are, or one registration has no parent and its name is the other parent and name hyphened. |
| CommandKeys.KeysCanCollide | cli/cmd/exp.go:330-376 | A concrete top-level name that takes the key of a Kubernetes registration. |
| ResourceFlags.ConvertFlagsToResourceFlags | exec/kubernetes/executor.go:331-344 | For every map iteration order the specs represent the flags: one per kept flag, split at commas. |
| ResourceFlags.ConvertToActionFlags | cli/cmd/destroy.go:284-292 | The loop over the matchers computes the joined, unescaped flag map. |
| ResourceFlags.FlagsComeBack | cli/cmd/destroy.go:278-293 | Converting to resource flags and back returns every flag but the four connection flags, empty values included, with "@@##" turned into a space. |
| ResourceFlags.FlagsComeBackUnchangedExactlyWhen | exec/kubernetes/executor.go:331-344 | The round trip is the identity on the kept flags if and only if no kept value holds "@@##". |
| ExperimentTable.ExperimentStore.Insert | data/experiment.go:142-162 | A row is added, as Created and with a new id, if and only if the database accepts it and the uid is not recorded; uids stay unique and ids increasing. |
| ExperimentTable.ExperimentStore.Update | data/experiment.go:164-178 | Changes status and error of the row with the uid and of no other. |
| ExperimentTable.ExperimentStore.Delete | data/experiment.go:304-315 | Removes the row with the uid and no other. |
| ExperimentTable.Find | data/experiment.go:180-199 | A row is found if and only if the uid is recorded, and it has that uid. |
| ExperimentTable.ExperimentStore.Query | data/experiment.go:201-249 | The result is the limit window of the id-ordered rows the non-empty criteria select; an unreadable limit is refused. |
| ExperimentTable.AnswersAreUnique | data/experiment.go:201-249 | A table has one answer to a query: two id-ordered sequences of the same rows are equal. |
| ExperimentTable.DescendingIsReversedAscending | data/experiment.go:220-224 | Whatever answers are given, the descending one is the reverse of the ascending one. |
| ExperimentTable.AnswerIsDetermined | data/experiment.go:201-249 | In either order a table has one answer to a query. |
| ExperimentTable.PagesConcatenate | data/experiment.go:225-237 | Query results whose limit texts read 0,n; n,n; 2n,n and so on, in either order, concatenate to the result without a limit once they reach its size. |
| ExperimentTable.ExperimentStore.QueryByCommand | data/experiment.go:251-278 | Exactly the rows whose command, sub-command and non-empty flags match, in id order. |
| ExperimentTable.MatchFlags | data/experiment.go:263-272 | The flag loop, in any map order and with its early exit, decides whether every non-empty wanted flag is recorded with the same value. |
| Ledger.GenerateUid | cli/cmd/command.go:122-135 | A generated uid is never recorded. |
| Ledger.EveryStatusIsEarned | cli/cmd/create.go:138-229 | Over every run of create, destroy by uid, destroy by matchers and force-remove with arbitrary failures: uids stay unique; Success only if the record's own create call succeeded and its process was found when the action hangs, Error only if not, Created only if the status update failed, Destroyed only after a later successful destroy execution covering the record. |
| Ledger.DestroyedIsFinal | cli/cmd/destroy.go:149-170 | Over every further run a Destroyed record stays Destroyed or is deleted, and its id is never reused. |
| Ledger.CreateNeverRunsForRecordedUid | cli/cmd/command.go:76-111 | No command runs a create executor for a uid that is recorded. |
| Ledger.DuplicateUidIsRefused | data/experiment.go:71-81 | A create asking for a recorded uid changes nothing and calls nothing. |
| Ledger.ReportAndRecordDisagreeExactlyWhen | cli/cmd/create.go:193-229 | A create reports success if and only if its executor did; report and record disagree if and only if that success was not recorded because the status update failed, or the action hangs locally and its process is not found. |
| Ledger.SuccessCanStayUnrecorded | cli/cmd/create.go:206-224 | A concrete request reported as success whose record stays Created. |
| Ledger.SuccessCanReadError | cli/cmd/create.go:200-212 | A concrete request reported as success whose record reads Error. |
| Ledger.DestroyedRunsAgainExactlyWhen | cli/cmd/destroy.go:76-92 | Destroying a Destroyed record by uid calls an executor if and only if the record lookup fails and the Kubernetes path finds a live resource with a registered executor. |
| Ledger.DestroyedRunsAgainByMatchersExactlyWhen | cli/cmd/destroy.go:323-341 | The same for a destroy by matchers that carries the uid. |
| Ledger.FailedLookupRunsAgain | cli/cmd/destroy.go:173-197 | A concrete Destroyed record that is executed again. |
| Ledger.ForceRemoveDeletesTheRecord | cli/cmd/destroy.go:118-146 | Force-remove deletes the record whatever the destroy came to, and no other record. |
| Ledger.CreateThenDestroy | cli/cmd/destroy.go:149-170 | An experiment created through a registered command is destroyed by uid through the same executor and reads Destroyed, with every other record untouched. |
| Ledger.RecordIsMatchedExactlyWhen | cli/cmd/destroy.go:352-357 | A destroy by matchers asks for the command and sub-command its create recorded if and only if the experiment is local without a parent command, or its scope keeps plain names and is its parent; in the Kubernetes scopes it never does. |
| Ledger.KubernetesRecordIsMissed | cli/cmd/destroy.go:352-357 | A concrete Kubernetes experiment whose record the matchers do not ask for. |
| Ledger.Cli.NextUid | cli/cmd/command.go:122-135 | The retry loop finds the first unrecorded candidate or fails where a lookup does. |
| Ledger.Cli.RecordExperiment | cli/cmd/command.go:76-111 | The record is inserted exactly when a uid, a readable path and the insert succeed. |
| Ledger.Cli.CreateExperiment | cli/cmd/create.go:138-229 | The step-by-step create equals its specification: record, execute, set status, reply. |
| Ledger.Cli.RecordOutcome | cli/cmd/create.go:194-223 | The recorded outcome follows executor success and, for a locally hanging action, the process lookup. |
| Ledger.Cli.ExecuteDestroy | cli/cmd/destroy.go:215-227 | Execution is logged and only a successful one marks the record Destroyed. |
| Ledger.Cli.DestroyUnrecorded | cli/cmd/destroy.go:95-115 | The Kubernetes path without a record equals its specification. |
| Ledger.Cli.DestroyRecord | cli/cmd/destroy.go:118-170 | The path with a record, including force-remove, equals its specification. |
| Ledger.Cli.Destroy | cli/cmd/destroy.go:76-92 | Destroy by uid chooses between the two paths and the errors as specified. |
| Ledger.Cli.MarkRecords | cli/cmd/destroy.go:352-367 | The update loop over the queried records changes exactly the matching rows whose update succeeds, and leaves all others unchanged. |
| Ledger.Cli.DestroyMatching | cli/cmd/destroy.go:323-371 | Destroy by matchers tries the uid first and goes on to the matchers only when it is not found. |
| Preparations.CheckFlagValues | exec/jvm/executor.go:311-369 | The branches and the search loop compute the accepted process id. |
| Preparations.AcceptedPids | exec/jvm/executor.go:311-369 | Flags are accepted with a process id if and only if it is unambiguous: the one asked for and listed under the name, or the only one listed. |
| Preparations.FirstRunning | data/preparation.go:240-276 | The first Running row that the type and the non-empty arguments select, if there is one. |
| Preparations.UniquenessKeptExactlyWhen | exec/jvm/executor.go:371-414 | A command keeps at most one Running row per (type, process, pid) if and only if it is not a prepare that inserts and starts a row for a process already Running. |
| Preparations.OnlyExperimentsDuplicate | exec/jvm/executor.go:376-388 | Such a prepare comes from an experiment, after a failed lookup or over a row without uid; never from the command line. |
| Preparations.FailedLookupDuplicates | exec/jvm/executor.go:376-388 | A concrete failed lookup that leaves two Running rows for one process. |
| Preparations.OneRunningExactlyWhen | cli/cmd/prepare_jvm.go:85-128 | Over every run, uniqueness holds after each command if and only if no prepare of the run duplicates. |
| Preparations.CommandLineKeepsOneRunning | cli/cmd/prepare_jvm.go:168-201 | Prepares from the command line, attach failures and revokes in any order keep at most one Running row per key. |
| Preparations.FoundRowKeepsItsPid | cli/cmd/prepare_jvm.go:114-117 | The running row found already has the requested process id, so its pid is never rewritten. |
| Preparations.RevokedNeverChanges | cli/cmd/revoke.go:51-91 | Over every run a Revoked row stays exactly as it is, and a row that is not Running never runs again. |
| Preparations.PreparationStore.QueryRunning | data/preparation.go:240-276 | The query loop finds the first selected row. |
| Preparations.PreparationStore.AttachAgent | cli/cmd/prepare_jvm.go:148-166 | Attach, retry on the token port and the port, pid and status updates come to the specified row. |
| Preparations.PreparationStore.PrepareJvm | cli/cmd/prepare_jvm.go:85-128 | Preparing from the command line or from an experiment equals its specification. |
| Preparations.PreparationStore.RevokeByUid | cli/cmd/revoke.go:51-91 | Revoking equals its specification: Revoked on success or a refused connection, otherwise the status kept with the reason. |
| KubernetesPolling.QueryMeans | exec/kubernetes/executor.go:71-128 | A query succeeds if and only if the observation is effective (Running for create; Destroyed or "not found" for destroy), its result agrees, and it settles exactly as stated. |
| KubernetesPolling.Exec | exec/kubernetes/executor.go:130-193 | Against any cluster behaviour, success holds if and only if the last observation was effective, even when the create or delete call failed; polling stops only at the first settling observation or the deadline. |
| KubernetesPolling.Poll | exec/kubernetes/executor.go:175-190 | The ticker loop returns the first settling answer, else the last. |
| KubernetesPolling.DestroySucceedsExactlyWhen | exec/kubernetes/executor.go:76-115 | Once anything is polled, a destroy succeeds if and only if the resource is seen gone before any API failure. |
| KubernetesPolling.CreateSucceedsExactlyWhen | exec/kubernetes/executor.go:469-475 | Once anything is polled, a create succeeds if and only if Running is observed, before any settling observation, with statuses or as the last tick. |
| KubernetesPolling.SlowCreatesAreFailed | exec/kubernetes/executor.go:117-127 | A create observed with statuses before it runs is reported failed, whatever is observed later. |

## Left out

- The bodies of the graph nodes beyond their counters and routes (language-model calls, tools, screeners): arbitrary
  updates, because the properties must hold against any of them.
- A bound on the intent and plan-builder dialogues: they have no counter or clock, and `DialoguesOfAnyLength` shows there
  is none; gating, the turn invariant and the replan bounds cover runs that pass through them.
- Lifting a dry run from the command line, which writes state as if the gate had just run: not a run from START.
- The asynchronous create and prepare paths, which relaunch the binary, and the nohup flags they use internally.
- C++ and Kubernetes preparations other than being revoked: the C++ prepare looks up process = port but inserts
  process = command name (`cli/cmd/prepare_cplus.go:60-66`), so it never finds its own row again.
- Concurrency between two commands on one database: each command runs alone.
- Timestamps, log output, endpoint callbacks and the printed detail of a response.
- A ChaosBlade resource without any experiment, on which destroy would dereference a missing executor.
- An endless stream of recorded uids from the generator: a finite list of candidates that runs out counts as a failure,
  which changes nothing in the table.
- SQL LIKE, the database's reading of limit texts and the parsing of recorded flags: arbitrary functions.
- Floating point in the score: exact reals, with Python's rounding half to even.
- Lower-casing and upper-casing outside ASCII.
- The text of score reasons, levels and error messages where no decision reads it.
- Batcher.HeldTextIsYoung: assumes a positive clock, because the source marks "no batch open" by a zero start time.
- Preparations.AcceptedPids: the operating system's process ids are taken to be non-empty texts.
