# SDLC Swarm: verified model of the orchestrator

A Dafny model of the multi-agent software-delivery system: the orchestrator graph that drives Planner, Coder,
Reviewer and QA agents, the human approval protocol around it, the failure detectors that stop a run, and six
self-contained algorithms beside them. `dafny verify dfyconfig.toml` checks the whole project.

## What is modelled

**The composed task.** `Orchestrator.dfy` holds the graph state, every node of the supervisor_only and hybrid
graphs, and the conditional edges. Agents are adversarial: a turn yields any typed result with any bill, or a
validation error, a guardrail violation or another exception, and any list of recorded tool calls. `TaskRun.dfy`
composes the graph with the task row, the graph registry and the decision endpoint into one state machine; a
schedule is any interleaving of graph steps and decision requests, and `After` is the world it leads to.
`HitlService.dfy` is the endpoint itself, over many tasks: a class that changes rows and registry in place.

Results over every schedule:

- `WriteSafety.dfy`: one decision per task, every push and pull request after an approve at `hitl_pre_pr`, push
  before pull request and each once, no write after a reject or after an approved escalation, no push of a change
  whose tests failed; and exactly when a push is reachable at all.
- `DeliveryGaps.dfy`: what a push rests on. Its edit, verdict and test report exist exactly when a Coder, Reviewer or
  QA turn completed; and exactly when a push can lack an edit, or a pull request a verdict or a report.
- `Termination.dfy`, `CoderBudget.dfy`: every schedule has at most 74 events that change anything; Planner and QA run
  at most once, the Coder at most seven times in supervisor_only (and seven happen) and three in hybrid.
- `Answers.dfy`, `AnsweredRuns.dfy`, `HaltedRuns.dfy`, `LastTurns.dfy`: what the agents answer against what the run
  does with it. Plan, edit, verdict and report are always the latest answers as they came; every turn takes the edge
  its answer calls for; failing tests are never pushed, a rejection never gets a pull request, and a pushed run ends
  with the turn its verdict calls for.
- `Deliveries.dfy`: what the git and GitHub clients answer against pushes, pull requests and the completed task.
- `Conservation.dfy`: each tool call is processed once or still pending, and each span hangs below the supervisor's.
- `Ledger.dfy`: totals equal the sums over the bills the agents sent, over turns and over agents; the cost cap.
- `TaskOutcome.dfy`, `OutcomeRows.dfy`: what the task row says once the graph is over, and every outcome row written
  for the task, in order.
- `PeerHandoff.dfy`: span parents and the handoff count of hybrid runs.
- `TurnMerging.dfy`, `ProcessedCalls.dfy`, `Counters.dfy`, `Leftovers.dfy`: which of a turn's detector updates survive
  the merge, when the calls it processes escalate, what each agent's validation counter and each rejection counter count
  over a whole run and when they escalate, and which agent the calls of a failed turn are charged to.

**The failure detectors.** `LoopDetection.dfy` and `Uncertainty.dfy` are the two detector classes, tied to
declarative statements over unbounded histories. `Bookkeeping.dfy` rebuilds them from serialised state around every
record and simulates two live detectors. `Recording.dfy` processes a turn's tool calls in a batch, and
`BatchLoops.dfy` compares the loops a batch reports with those of single calls. `Keys.dfy` shows the string keys
injective.

**Self-contained algorithms.** `SecretFilter.dfy` (log redaction), `Broadcaster.dfy` (bounded subscriber queues),
`Chunker.dfy` (overlapping chunks), `SpanTree.dfy` (span forest), `TaskQuery.dfy` (filtered listing query),
`Benchmarks.dfy` (cell statistics).

Money is counted in units of 0.0001 USD. A test for more than half errors is `2 * errors > total`. Agent results,
span ids, the answers of the git and GitHub clients and the three settings in `Config` are parameters.

## Where the code differs from its documentation

The model follows the code; each difference below is a lemma.

- A push needs neither an edit, nor a review, nor a test. A first answer that fails validation only moves a counter,
  the run stays running, and the missing result leads to the approval checkpoint. So a Coder's failed first answer can
  end in a push without an edit (`PushWithoutEditIff`), a Reviewer's in a pull request nobody reviewed
  (`UnreviewedPullRequestIff`), and QA's in a pull request nobody tested (`UntestedPullRequestIff`); the first two only
  in supervisor_only. A report that did come in and shows failures is never pushed (`FailingReportNeverPushed`).
- A terminally rejected change still reaches the checkpoint; approved, it is pushed (`RejectedPushIff`), but gets no
  pull request (`RejectedChangeGetsNoPr`). The graph itself ignores a reject at `hitl_pre_pr`; only the endpoint, which
  never resumes with reject, keeps the promise (`GraphAloneIgnoresReject`).
- With interrupts before write operations on, two approvals are needed and one is accepted, so nothing is ever
  pushed (`PushReachableIff`).
- An approved escalation ends the graph instead of continuing it, and the row then says running with no decision; a
  run that ends in persistent_test_failure, or fails to deliver, keeps a running row because its outcome is not an
  accepted one (`FinishedTaskRow`).
- The persistent-test-failure trigger cannot fire in a run: QA runs at most once (`TestFailuresNeverEscalate`).
- A turn's later updates overwrite its earlier ones, so a valid output does not always clear its agent's validation
  failures. A completed Coder or QA turn clears them only if it processes no tool call (`CoderResetsIff`,
  `QaResetsIff`), a Reviewer turn only if in addition it records no rejection (`ReviewerResetsIff`), a Planner turn
  always (`PlannerResets`). So three failed validations escalate even when valid answers lie between them
  (`CountersCountTurns`, `FailedAnswerEscalatesIff`): a Reviewer keeps its failure over a valid rejection
  (`FailureOutlivesRejection`).
- For the same reason a rejected fix is counted only by Reviewer turns that process no tool call
  (`FirstRejectionRememberedIff`); over a run, a second rejection escalates only if an earlier one was counted or its
  own calls escalate (`RunRejectionEscalatesIff`).
- A turn that fails validation leaves its tool calls in the registry, and the next Coder, Reviewer or QA node that
  completes has them charged to its own agent, even if that agent did not run (`FailedCallsChargedToNext`); they
  escalate there as its own would (`ProcessedCallsEscalateIff`). So a Coder that completes without any call can keep
  its failure because of a call the Reviewer made (`FailureOutlivesValidOutput`), and a Reviewer that never ran
  escalates for the Coder's failing calls (`ChargedWithoutRunning`).
- Not every mitigation writes an outcome row: an escalation for repeated validation failures or a repeated rejection
  writes none (`PausedOutcomes`, `SilentEscalation`), and an approved one for an exhausted retry budget is written
  twice (`FinishedOutcomes`).
- A turn that escalates for its calls stores neither the flag nor the calls' results: the tracker merged over the
  batch's was rebuilt from before it (`StoppedTurnForgets`).
- A finished task answers a second decision request with decision already made only until a completed graph has
  overwritten the decision; then it answers that the task is not waiting (`AnswerToRequest`).
- A batch is checked for loops against the history before it. It misses loops that lie inside it
  (`BatchReportsTooLittle`) and reports loops against calls that have left the window (`BatchReportsTooMuch`); it
  agrees with recording one call at a time, for every loop-free history, only if it has at most one call
  (`SameFirstLoopIff`).
- Redaction is not idempotent on OpenRouter keys (`RedactTwice`); two passes are a fixpoint (`TwoPassesAreFixpoint`).
  A secret is masked whole, except that `sk-or` before the rest of an OpenRouter prefix is masked as that key
  (`SecretIsMasked`).
- The chunking loop never ends for a chunk size of zero or less with an overlap of at least that size
  (`LoopsForeverIff`), and a negative overlap loses tokens of a longer text (`RestoresIff`).
- The repo filter is a substring search only for text without `%`, `_` and backslash (`RepoFilterIsSubstringIff`).
- A span is attached as often as events carry its id, so duplicate ids duplicate nodes (`AttachedOnceIffDistinct`).
- A loop report names the looping tool only if the tool's name has no colon (`ReportNamesTheCall`).

## Model

| member | source | states |
|---|---|---|
| WriteSafety.HistoriesFollowProtocol | src/api/main.py:438-538 | whatever the agents and the callers do, the decisions accepted and the writes asked for form one of a few histories: none, one decision, or one approve at hitl_pre_pr followed by push and then pull request |
| WriteSafety.WritesFollowTheOneApproval | src/orchestrator/supervisor_only.py:1499-1696 | at most one decision per task, and it comes first; a push or pull request only after an approve at hitl_pre_pr; push second, pull request third, each once; after any other decision nothing |
| WriteSafety.NoPushAfterFailedTests | src/orchestrator/routing.py:205-221 | a run that asked for a push has no failing test report stored, a report only under an accept verdict, and no pending reject_with_changes; it may have no report at all |
| HaltedRuns.FailingReportNeverPushed | src/orchestrator/routing.py:205-221 | in every run, after a QA answer with failing tests no push and no pull request is ever asked for, whatever answers and decisions follow |
| HaltedRuns.PushedAnswers | src/orchestrator/supervisor_only.py:1197-1211 | in every pushed run the latest QA answer, if any, passed under a latest Reviewer answer of accept, and the latest Reviewer answer is not reject_with_changes |
| HaltedRuns.FailedTestsEnd | src/orchestrator/supervisor_only.py:1301-1333 | a finished run has a failing report if and only if it ended undecided with persistent_test_failure, and then its row stays running without an outcome row |
| HaltedRuns.RejectionNeverGetsPr | src/orchestrator/routing.py:136-138 | in every run, after a Reviewer's terminal rejection of an edit no pull request is ever asked for |
| LastTurns.PushedRunEndsWith | src/orchestrator/routing.py:126-165 | a pushed run's last turn is QA's under accept, completed or with an invalid answer; the rejecting review's under reject; without a verdict a Reviewer's that had no edit or an invalid answer |
| AnsweredRuns.StateHoldsLatestAnswers | src/orchestrator/supervisor_only.py:1202-1211 | in every run plan, edit, verdict and report are the latest completed Planner, Coder, Reviewer and QA turns' own answers, unchanged |
| AnsweredRuns.EveryTurnLeads | src/orchestrator/routing.py:80-221 | in every run each completed turn takes the edge its answer and the number of completed Coder turns call for, the fourth Coder turn being refused; an overrun, an escalation and each kind of failed call go to their own halt |
| LastTurns.InvalidTurnLeads | src/orchestrator/supervisor_only.py:586-605 | in every run an invalid answer escalates as the third, fails the Planner's task, and otherwise goes on along the stored verdict |
| AnsweredRuns.RetriesCountCoders | src/orchestrator/supervisor_only.py:660-668 | until a decision is made the retry counter is the number of completed Coder turns |
| HaltedRuns.HaltedNeverPushes | src/orchestrator/supervisor_only.py:2040-2087 | once a run is at a halt or an escalation, nothing that follows makes it push |
| Answers.TurnHonoursAnswer | src/orchestrator/supervisor_only.py:665-721 | in both topologies a completed turn stores its agent's answer as it came and nothing else, books exactly the bill that came, and is over the cap exactly when that bill's cost says so |
| Answers.TurnEnds | src/orchestrator/supervisor_only.py:565-655 | status and outcome after every turn, by whether the call answered, was blocked by a guardrail, failed validation or raised |
| Answers.InvalidTurnEnds | src/orchestrator/bookkeeping.py:322-355 | a counted invalid answer escalates with two failures before it, else fails the Planner's task or goes on |
| Deliveries.WritesFollowAnswers | src/orchestrator/supervisor_only.py:1579-1697 | a push is asked for exactly when the commit node found a sandbox; a pull request only after the push succeeded, for an edit and with a sandbox |
| Deliveries.CompletedIffPrCreated | src/orchestrator/supervisor_only.py:1624-1697 | a finished task is completed if and only if a pull request was created for its edit at a non-empty address, which its row then shows |
| WriteSafety.RejectedChangeGetsNoPr | src/orchestrator/routing.py:224-230 | no pull request is ever asked for a terminally rejected change |
| WriteSafety.AcceptedExactlyWhenPaused | src/api/main.py:438-462 | the endpoint accepts a decision exactly when the graph is paused and none was accepted before |
| WriteSafety.PushReachableIff | src/orchestrator/supervisor_only.py:2064-2087 | some run asks for a push if and only if interrupts before write operations are off and the cost cap is not negative |
| WriteSafety.NegativeCapIsStillborn | src/orchestrator/supervisor_only.py:440-453 | under a negative cost cap no run gets past the planner, so none asks for a push |
| WriteSafety.DeliveryIsReachable | src/orchestrator/supervisor_only.py:1993-2087 | the documented run exists: approve, push, pull request, in that order |
| WriteSafety.GraphAloneIgnoresReject | src/orchestrator/supervisor_only.py:1546-1558 | resumed with reject, hitl_pre_pr still leads to a push and on to the pull request node |
| DeliveryGaps.PushRestsOnCompletedTurns | src/orchestrator/routing.py:126-221 | a pushed run has an edit iff a Coder turn completed, a verdict iff a Coder and a Reviewer turn did, a report iff a QA turn did |
| DeliveryGaps.PullRequestTestedIff | src/orchestrator/routing.py:205-221 | a pull request always has an edit, and has a passing report under an accept verdict if and only if a QA turn completed |
| DeliveryGaps.HybridPushesReviewedEdits | src/orchestrator/hybrid.py:140-212 | hybrid runs push edits that have a verdict, and nothing else |
| DeliveryGaps.UntestedPullRequestIff | src/orchestrator/supervisor_only.py:1075-1099 | a pull request without a test report is reachable if and only if a push is, in either topology |
| DeliveryGaps.UnreviewedPullRequestIff | src/orchestrator/routing.py:126-130 | a pull request without a verdict is reachable if and only if the topology is supervisor_only and a push is reachable |
| DeliveryGaps.PushWithoutEditIff | src/orchestrator/supervisor_only.py:586-605 | a push without an edit is reachable if and only if the topology is supervisor_only and a push is reachable |
| DeliveryGaps.RejectedPushIff | src/orchestrator/supervisor_only.py:1402-1450 | a push of a terminally rejected change is reachable if and only if a push is, in either topology |
| DeliveryGaps.ReachUntested | src/orchestrator/supervisor_only.py:1075-1099 | the input: a first QA answer that fails validation leads an accepted edit to finalize without a report |
| DeliveryGaps.ReachUnreviewed | src/orchestrator/routing.py:126-130 | the input: a first Reviewer answer that fails validation leads an edit to finalize without a verdict |
| DeliveryGaps.ReachUnedited | src/orchestrator/supervisor_only.py:586-605 | the input: a first Coder answer that fails validation leads to finalize without an edit |
| DeliveryGaps.ReachRejected | src/orchestrator/routing.py:136-138 | the input: a terminal rejection leads an edit to finalize |
| TaskRun.AlwaysConsistent | src/orchestrator/supervisor_only.py:1923-2107 | in every reachable world phase, graph state, row, registry and history fit together: the invariant behind the write-safety results |
| TaskOutcome.FinishedTaskRow | src/memory/episodic/store.py:209-234 | once the graph is over, the row's status and decision are those of how the run ended, its pull request address is that of the opened request and empty for every other ending, its outcome rows are those of checkpoint, endpoint and completion, and no further decision is accepted |
| TaskOutcome.StatusRepairIsIdle | src/api/main.py:480-490 | when a resume returns the row is never 'approved', so the endpoint's repair to 'running' never applies |
| TaskOutcome.AnswerToRequest | src/api/main.py:438-462 | the endpoint's answer in every reachable world, by what was decided and how the run ended |
| OutcomeRows.PausedOutcomes | src/orchestrator/recording.py:255-321 | at a checkpoint the task has one outcome row for an exhausted retry budget, for a loop, and for an uncertainty escalation by tool calls; none for one by validation failures or a rejected fix |
| OutcomeRows.FinishedOutcomes | src/orchestrator/hitl.py:244-318 | all outcome rows of a finished task, in order, by how it ended: the escalation's, once more after an approved exhausted budget, then hitl_rejected or the graph's own outcome |
| OutcomeRows.TurnReports | src/orchestrator/bookkeeping.py:322-445 | a turn writes an outcome row exactly when it escalates by processing calls, with that escalation's name |
| OutcomeRows.SilentEscalation | src/orchestrator/bookkeeping.py:338-351 | the input: a third failed Coder validation pauses a run for a human without any outcome row |
| HitlService.DecisionService.constructor | src/orchestrator/hitl.py:43 | the registry starts empty; every stored task is a reachable world, running, paused or over, and the registry holds exactly the graphs that are not over |
| HitlService.DecisionService.GraphStarted | src/orchestrator/__init__.py:602-622 | a task enters with a running row and a registered graph, and no other task moves |
| HitlService.DecisionService.GraphStepped | src/orchestrator/__init__.py:618-622 | the nodes of a running graph that do not interrupt move neither row nor registry |
| HitlService.DecisionService.GraphPaused | src/orchestrator/__init__.py:646-690 | a run that hits an interrupt leaves its graph registered as paused and its row as the interrupting node wrote it |
| HitlService.DecisionService.GraphCompleted | src/orchestrator/__init__.py:692-740 | a run that ends without a human is unregistered and its row completed, left unfinished if its outcome is refused |
| HitlService.DecisionService.HitlDecision | src/api/main.py:423-538 | unknown task, decided task and task not waiting, running ones included, are answered without any change; an accepted decision takes the task to the world of the composed machine, closes it for good, and leaves every other task alone |
| HitlService.DecisionService.ApproveTask | src/api/main.py:467-506 | the decision is recorded, the graph resumed with approve and run to its next pause or its end |
| HitlService.DecisionService.RejectTaskOutright | src/api/main.py:508-536 | the row is finished as rejected with its decision, the outcome added, the graph dropped |
| HitlService.DecisionService.ResumeGraph | src/orchestrator/hitl.py:180-241 | True exactly when a graph is registered; then the graph runs on, and is kept if it paused again and unregistered if it ended |
| HitlService.DecisionService.ReachInterrupt | src/orchestrator/supervisor_only.py:1760-1775 | up to the interrupt the row waits for a decision, after the outcome row of an exhausted retry budget |
| HitlService.DecisionService.TakeApproval | src/orchestrator/supervisor_only.py:1560-1576 | a resumed node repeats its row updates, and only hitl_pre_pr records the approve |
| HitlService.DecisionService.CreateOutcome | src/memory/episodic/models.py:137-150 | raises exactly for outcomes outside the list and then writes nothing |
| HitlService.DecisionService.UpdateTaskStatus | src/memory/episodic/store.py:149-159 | changes one task's status and nothing else |
| HitlService.DecisionService.RecordDecision | src/api/main.py:473-477 | changes one task's decision and nothing else |
| HitlService.DecisionService.FinishTaskRow | src/memory/episodic/store.py:209-234 | overwrites status, decision and pull request address together; raises for a status the row does not know |
| HitlService.DecisionService.PostGraphCompletion | src/orchestrator/hitl.py:244-318 | outcome first, then the row; an outcome that raises leaves the row unfinished |
| HitlService.Accepts | src/orchestrator/hitl.py:192-195 | an accepted decision always finds a paused, registered graph, and leaves a row that accepts no other |
| HitlService.RunsOnDecided | src/api/main.py:480-500 | after an approve the task never accepts a second decision and never rests in 'approved' |
| Termination.RunsTerminate | src/orchestrator/supervisor_only.py:1993-2107 | no schedule, however long, has more than 74 events that change anything |
| Termination.TicksSettle | src/orchestrator/supervisor_only.py:1993-2107 | from any reachable world, graph steps alone bring the graph to a pause or to its end within its rank |
| Termination.AgentRunsBounded | src/orchestrator/routing.py:126-165 | Planner and QA run at most once; Coder executions at most seven in supervisor_only, at most three in hybrid, of which at most two are peer handoffs |
| Termination.EdgeDescends | src/orchestrator/routing.py:80-165 | every edge keeps the loop invariant and lowers the distance to the end; a Coder execution uses up budget |
| Termination.CoderFits | src/orchestrator/supervisor_only.py:586-721 | a Coder turn that goes on either completes with one more retry or fails validation with one more failure below the threshold |
| Termination.TestFailuresNeverEscalate | src/orchestrator/supervisor_only.py:1214-1333 | a run counts at most one test failure, and halt_test_failure always fails the task |
| CoderBudget.SevenCoderExecutionsHappen | src/orchestrator/supervisor_only.py:586-721 | the bound of seven is exact: some run has seven Coder executions |
| Ledger.BooksMatchTurns | src/orchestrator/bookkeeping.py:373-402 | totals and each agent's entry are the sums of what its completed turns cost; escalated and failed turns add nothing |
| Ledger.TotalsAreSentBills | src/orchestrator/supervisor_only.py:665-721 | in every run the totals are the sums of the bills in the schedule: all of a completed turn's, the cost alone of a call over the cap; an agent's entry sums its completed turns' bills |
| Ledger.TotalsEqualAgentSums | src/orchestrator/bookkeeping.py:373-402 | each total is the sum over agent_costs, except that the cost of the call that broke the budget is in the total and in no entry |
| Ledger.CostStaysCapped | src/orchestrator/supervisor_only.py:669-678 | recorded cost is at most the cap unless the run is exhausted, and then at most the cap plus its last call |
| Ledger.NoTurnAfterOverspending | src/orchestrator/routing.py:41-42 | once the budget is exceeded no agent runs again and the totals stay |
| Ledger.CoderBooks | src/orchestrator/supervisor_only.py:665-721 | how a Coder turn books: completed turns in totals and entry, an overrun in the total cost alone, any other turn nowhere |
| Ledger.ReviewerBooks | src/orchestrator/supervisor_only.py:890-973 | the same for the Reviewer |
| Ledger.QaBooks | src/orchestrator/supervisor_only.py:1156-1211 | the same for QA |
| Ledger.PlannerBooks | src/orchestrator/supervisor_only.py:440-481 | the same for the Planner, whose cached tokens count as none |
| Ledger.HybridCoderBooks | src/orchestrator/hybrid.py:655-687 | the same for the first and the peer Coder of hybrid runs |
| Ledger.HybridReviewerBooks | src/orchestrator/hybrid.py:435-471 | the same for the hybrid Reviewer |
| PeerHandoff.PeerSpansHangBelowReviews | src/orchestrator/hybrid.py:498-519 | every peer Coder turn directly follows a reject_with_changes and hangs below that Reviewer's span, or below the supervisor's when the id is empty |
| PeerHandoff.HandoffCountIsExact | src/orchestrator/hybrid.py:302-328 | the handoff count for any span ids, and that it never exceeds four |
| PeerHandoff.HandoffCountWithIds | src/orchestrator/hybrid.py:462-471 | with non-empty ids the count is completed peer turns plus reject_with_changes verdicts given after one |
| TurnMerging.NoChangeIffEmpty | src/orchestrator/recording.py:206-331 | batch processing reports None exactly for a turn without tool calls |
| TurnMerging.CoderResetsIff | src/orchestrator/supervisor_only.py:680-721 | a completed Coder turn clears its validation failures exactly when it processes no call, pending or its own, and else keeps them |
| TurnMerging.ReviewerResetsIff | src/orchestrator/supervisor_only.py:905-973 | a completed Reviewer turn clears its own exactly when it processes no call and records no rejection |
| TurnMerging.QaResetsIff | src/orchestrator/supervisor_only.py:1171-1211 | a completed QA turn clears its own exactly when it processes no call |
| TurnMerging.PlannerResets | src/orchestrator/supervisor_only.py:455-481 | a completed Planner turn always clears its own |
| TurnMerging.FirstRejectionRememberedIff | src/orchestrator/supervisor_only.py:963-973 | a first rejection of a fix is remembered exactly when no call was pending and its turn made none |
| TurnMerging.RejectionEscalatesIff | src/orchestrator/bookkeeping.py:408-445 | a rejection within budget escalates as uncertain exactly when its fix is remembered as rejected or the turn's calls exceed the error rate before they loop |
| TurnMerging.SameFixTwiceEscalatesIff | src/orchestrator/supervisor_only.py:905-973 | the same fix rejected, handed in again and rejected again: apart from the calls of its own turn, the second rejection escalates exactly when the first processed no call |
| TurnMerging.FailedTurnLeavesCalls | src/orchestrator/supervisor_only.py:586-605 | a turn that fails validation and goes on leaves its calls pending, and history and windows as they were |
| TurnMerging.CompletedTurnTakesPendingCalls | src/orchestrator/recording.py:232-331 | a completed node's history gains the last of the calls it processes, its agent's error window all of them, and none stays pending, whether the agent ran or not |
| TurnMerging.FailedCallsChargedToNext | src/orchestrator/recording.py:77-81 | the calls of a turn that failed validation enter the history and error window of the Coder, Reviewer or QA node that completes next, whether its agent runs or not |
| ProcessedCalls.ProcessedCallsEscalateIff | src/orchestrator/recording.py:232-331 | a turn that gets to processing completes exactly when none of its calls, left over or its own, closes a loop or exceeds the error rate; else the first such call decides how it escalates, a loop first |
| ProcessedCalls.StoppedTurnForgets | src/orchestrator/supervisor_only.py:689-702 | a turn stopped by its calls stores the stopping call in the history, and neither the flag nor the calls' results |
| Conservation.CallsConserved | src/orchestrator/recording.py:77-94 | in every run the tool calls made are, in order, those turns processed and those still pending |
| Conservation.SpansHangBelowSupervisor | src/orchestrator/supervisor_only.py:1336-1400 | in every run each span, peer Coders' aside, has the first tick's span as parent |
| Counters.CountersCountTurns | src/orchestrator/bookkeeping.py:322-370 | in every run, each agent's counter is its failed validations since its last clearing turn, and each hash's the Reviewer turns that rejected it and processed no call |
| Counters.FailedAnswerEscalatesIff | src/orchestrator/bookkeeping.py:322-355 | in every run, an answer that fails validation escalates exactly when its agent failed twice since its last clearing turn |
| Counters.RunRejectionEscalatesIff | src/orchestrator/bookkeeping.py:408-445 | in every run, a rejection within budget escalates as uncertain exactly when an earlier rejection of the fix was counted or the turn's calls do |
| Leftovers.FailureOutlivesRejection | src/orchestrator/supervisor_only.py:905-973 | the input: a reachable Reviewer turn without any call rejects a fix with a valid answer and keeps its failure |
| Leftovers.ChargedWithoutRunning | src/orchestrator/supervisor_only.py:939-951 | the input: a reachable Reviewer without an edit does not run, and escalates for the Coder's two failing calls |
| Leftovers.FailureOutlivesValidOutput | src/orchestrator/supervisor_only.py:586-721 | a reachable Coder turn completes without a call of its own and keeps its failure, because the Reviewer's failed turn left one |
| Keys.CompositeInjective | src/failure_modes/loop_detection.py:65-68 | the tool:hash key determines both parts when the hash has no colon |
| Keys.StepKeyInjective | src/failure_modes/uncertainty.py:166-202 | two (agent, step) pairs share a counter only if they are equal, whatever the agents are called |
| Keys.SplitUndoesComposite | src/failure_modes/loop_detection.py:173 | splitting the key at the first colon gives the parts back exactly when the tool name has no colon |
| LoopDetection.LoopDetector.Create | src/failure_modes/loop_detection.py:96-109 | a window below one, then a threshold below two, is refused; otherwise a detector with no history |
| LoopDetection.LoopDetector.Record | src/failure_modes/loop_detection.py:121-144 | each agent's window stays the last calls of its unbounded history, untouched by other agents |
| LoopDetection.LoopDetector.Check | src/failure_modes/loop_detection.py:152-190 | a loop is reported exactly when some call occurs at least threshold times among the agent's last window_size calls, for any window, threshold and interleaving |
| LoopDetection.LoopDetector.Reset | src/failure_modes/loop_detection.py:192-194 | forgets one agent's calls and no other's |
| LoopDetection.CheckWindow | src/failure_modes/loop_detection.py:160-190 | reports iff the window loops, and then the earliest key that reaches the threshold with its count |
| LoopDetection.ReportIsEarliest | src/failure_modes/loop_detection.py:164-190 | the report is about the first call in the window that occurs often enough, with its count |
| LoopDetection.CountKeys | src/failure_modes/loop_detection.py:164-167 | counts every key's occurrences, in order of first occurrence |
| LoopDetection.KeyCounts | src/failure_modes/loop_detection.py:164-167 | counting string keys is counting calls |
| LoopDetection.ReportNamesTheCall | src/failure_modes/loop_detection.py:172-182 | the report names the looping call exactly when its tool name has no colon |
| Uncertainty.FiresExactlyAtFirstAlarm | src/failure_modes/uncertainty.py:166-359 | over any history the flag is up exactly when some prefix meets one of the four conditions, and a call returns a trigger exactly at the first such prefix |
| Uncertainty.AtMostOneTrigger | src/failure_modes/uncertainty.py:141-142 | first trigger wins: at most one call of a history returns one |
| Uncertainty.TriggerIsExact | src/failure_modes/uncertainty.py:166-359 | a returned trigger names its condition, the call's agent and step, and the exact count that met it |
| Uncertainty.FrozenAfterTrigger | src/failure_modes/uncertainty.py:166-261 | after a trigger nothing is counted, while a passing validation or test run still clears its own counter and no other |
| Uncertainty.UnhealthyMeans | src/failure_modes/uncertainty.py:329-345 | the tool-error condition is two calls or more in the window with more failures than successes |
| Uncertainty.SomeTriggerIfAlarmed | src/failure_modes/uncertainty.py:166-359 | as soon as a prefix meets a condition, some call has returned a trigger |
| Uncertainty.CalmTracks | src/failure_modes/uncertainty.py:121-162 | until then the counters are the declared quantities: failures since the last success per agent and step, test failures in a row, rejections per hash, the last ten results per agent |
| Uncertainty.CalmWindowsAreHealthy | src/failure_modes/uncertainty.py:320-359 | while nothing fired, no agent's window of two or more calls is mostly errors |
| Uncertainty.ErrorRateFiresOnFailure | src/failure_modes/uncertainty.py:320-359 | the error-rate trigger fires on a failing call only, never on a success that shifts the window |
| Uncertainty.UncertaintyEscalation.RecordPydanticFailure | src/failure_modes/uncertainty.py:166-202 | new counters and trigger as the tracker machine says, and no change after a trigger |
| Uncertainty.UncertaintyEscalation.RecordPydanticSuccess | src/failure_modes/uncertainty.py:204-218 | clears one (agent, step) counter, even after a trigger |
| Uncertainty.UncertaintyEscalation.RecordTestFailure | src/failure_modes/uncertainty.py:220-255 | one more test failure in a row, and its trigger |
| Uncertainty.UncertaintyEscalation.RecordTestSuccess | src/failure_modes/uncertainty.py:257-261 | clears the test failures, even after a trigger |
| Uncertainty.UncertaintyEscalation.RecordDiffRejection | src/failure_modes/uncertainty.py:263-304 | one more rejection of a hash, and its trigger |
| Uncertainty.UncertaintyEscalation.RecordToolCall | src/failure_modes/uncertainty.py:306-359 | the window gains the result and keeps the last ten, and its trigger |
| Uncertainty.UncertaintyEscalation.Reset | src/failure_modes/uncertainty.py:368-374 | back to the empty tracker |
| Uncertainty.SuccessKeepsHealthy | src/failure_modes/uncertainty.py:329-345 | a success never turns a healthy window into one that is mostly errors, even when it pushes an old result out |
| Bookkeeping.ReconstructUncertainty | src/orchestrator/bookkeeping.py:177-196 | a new detector with the serialised counters, its windows cut to ten |
| Bookkeeping.CheckLoopDetection | src/orchestrator/bookkeeping.py:32-147 | replaying the stored history and the new call reports iff the last five of them contain one call three times |
| Bookkeeping.RecordToolCallAndCheck | src/orchestrator/bookkeeping.py:220-316 | loop detection first, then the error rate; both sync the tracker, only the loop verdict and no verdict move the history |
| Bookkeeping.ReplaySimulatesLive | src/orchestrator/bookkeeping.py:150-316 | rebuilding both detectors from trimmed state around every record gives the verdicts of two live detectors, up to and including the first escalation, loop detection winning ties |
| Bookkeeping.ReplayAgrees | src/orchestrator/bookkeeping.py:177-214 | until then the serialised state is the live tracker and the last five calls of every agent |
| Recording.RecordingRegistry.OpenProxy | src/orchestrator/recording.py:77-82 | a new proxy keeps recordings an earlier turn left behind |
| Recording.RecordingRegistry.Record | src/orchestrator/recording.py:83-94 | appends to one task's recordings |
| Recording.RecordingRegistry.ProcessToolCallRecordings | src/orchestrator/recording.py:206-331 | the batch result of the task's recordings, which are then cleared; other tasks keep theirs |
| Recording.ProcessAll | src/orchestrator/recording.py:236-331 | the loop computes the batch result: stop at the first loop or trigger, else the accumulated state |
| Recording.BatchTracksOneByOne | src/orchestrator/recording.py:239-253 | the batch's windows and trigger points are those of the calls recorded one by one |
| Recording.StopsAtFirst | src/orchestrator/recording.py:251-321 | the first recording that closes a loop against the history before the batch, or triggers, decides; a loop wins |
| Recording.UnstoppedBatch | src/orchestrator/recording.py:270-331 | otherwise the agent's history is the last five of the old history plus the batch's last call |
| Recording.HistoryAlwaysMoves | src/orchestrator/bookkeeping.py:150-171 | recording a call that closes no loop always changes the stored history |
| Recording.MergeFiredNothing | src/orchestrator/recording.py:326-331 | a batch that ends without escalation leaves the trigger flag as it was |
| Recording.ClosesLoopIffTwoOfLastFour | src/orchestrator/bookkeeping.py:55-72 | against a loop-free history a call closes a loop exactly when two of the last four calls equal it |
| BatchLoops.SameFirstLoopIff | src/orchestrator/recording.py:255-274 | for every loop-free history the batch's first loop is where recording single calls finds it, if and only if the batch has at most one call |
| BatchLoops.BatchReportsTooMuch | src/orchestrator/recording.py:255-274 | for every batch whose first two calls differ there is a loop-free history against which it reports a loop that single calls do not |
| BatchLoops.BatchReportsTooLittle | src/orchestrator/recording.py:255-274 | for every batch that starts with two equal calls there is a loop-free history with which single calls find a loop that it misses |
| BatchLoops.BatchReportsFirstLoop | src/orchestrator/recording.py:251-274 | the compared first loop of a batch is what processing the batch reports, unless the error rate stopped it before |
| BatchLoops.FoldingRecordsSingly | src/orchestrator/bookkeeping.py:220-316 | the compared fold is what recording single calls reports and stores |
| SecretFilter.OnlyRunsAreMasked | src/logging/secret_filter.py:81-86 | redaction masks the word after a secret prefix and copies all other text unchanged and in order |
| SecretFilter.SecretIsMasked | src/logging/secret_filter.py:38-50 | for each of the seven formats a secret is masked up to its last letter, digit or underscore and redaction goes on behind it, if and only if it is not a generic key that begins an OpenRouter key |
| SecretFilter.OtherTextIsCopied | src/logging/secret_filter.py:38-50 | where no format starts a secret the character is copied and redaction goes on |
| SecretFilter.ReportedPrefixMatched | src/logging/secret_filter.py:45-50 | the prefix read back from a match is that of the alternative that matched |
| SecretFilter.NoNewMatch | src/logging/secret_filter.py:38-42 | redaction never creates a match at a place where there was none |
| SecretFilter.RedactTwice | src/logging/secret_filter.py:81-86 | a second pass changes only retained sk-or-v1- prefixes; redaction is idempotent on a text if and only if it holds no OpenRouter key |
| SecretFilter.TwoPassesAreFixpoint | src/logging/secret_filter.py:81-86 | two passes are a fixpoint for every text |
| SecretFilter.Filter | src/logging/secret_filter.py:69-80 | every record passes, with its message redacted; a record with nothing to redact is left as it was |
| Broadcaster.ReceivedIsContiguous | src/tracing/ws_broadcaster.py:126-178 | over every interleaving, what a subscriber consumed and what waits is the gap-free block of its task's publishes from its subscription to its removal, and the queue never exceeds its capacity |
| Broadcaster.WhatEndsASubscription | src/tracing/ws_broadcaster.py:144-178 | a subscription ends only by its own unsubscribe or by a publish that finds 1000 messages waiting |
| Broadcaster.SurvivesIff | src/tracing/ws_broadcaster.py:144-178 | and each of the two always ends it |
| Broadcaster.ConsumeTakesOldest | src/tracing/ws_broadcaster.py:131-136 | only the subscriber takes its messages, always the oldest |
| Broadcaster.NothingAfterRemoval | src/tracing/ws_broadcaster.py:144-178 | once removed, a subscriber receives nothing more |
| Broadcaster.OtherTasksAreInvisible | src/tracing/ws_broadcaster.py:153-178 | a publish for another task can be taken out of any history without a trace |
| Broadcaster.TraceBroadcaster.AddSubscriber | src/tracing/ws_broadcaster.py:131-142 | adds one live, empty subscription and changes no other |
| Broadcaster.TraceBroadcaster.RemoveSubscriber | src/tracing/ws_broadcaster.py:144-151 | ends the queue's subscription if it is one for that task |
| Broadcaster.TraceBroadcaster.PublishEvent | src/tracing/ws_broadcaster.py:153-178 | every live subscriber of the task gets the message, or is dropped because its queue is full |
| Broadcaster.TraceBroadcaster.Get | src/tracing/ws_broadcaster.py:131-136 | the subscriber takes its oldest waiting message, and no other subscription changes |
| Broadcaster.Deliver | src/tracing/ws_broadcaster.py:161-171 | offers the message to each queue once and reports exactly the full ones |
| Chunker.ChunkText | src/memory/semantic/chunker.py:50-122 | the method computes the chunk list wherever it ends: nothing for blank or empty text, one chunk for short text, else the loop |
| Chunker.SplitAll | src/memory/semantic/chunker.py:91-122 | the loop computes the chunks from start zero and ends whenever the step is positive |
| Chunker.ShortTexts | src/memory/semantic/chunker.py:70-89 | there is no chunk exactly for blank or empty text, and one chunk with all tokens exactly for a text that fits one |
| Chunker.ChunkShape | src/memory/semantic/chunker.py:97-120 | chunk i starts at i steps and holds the tokens from there; with a size that is not negative all but the last are full and each ends after the one before |
| Chunker.ChunkCount | src/memory/semantic/chunker.py:91-120 | one plus the rounded-up quotient of the tokens after the first chunk by the step, and for a negative overlap, where steps leave gaps, that of all tokens |
| Chunker.CeilDivRoundsUp | src/memory/semantic/chunker.py:91-120 | the quotient is the least number of steps that covers the tokens |
| Chunker.RestoresIff | src/memory/semantic/chunker.py:91-122 | wherever chunking ends, dropping the overlap and concatenating restores a text exactly when it fits one chunk or the overlap is not negative |
| Chunker.LoopsForeverIff | src/memory/semantic/chunker.py:91-122 | on a longer text the loop runs forever exactly for a size of zero or less with an overlap of at least it |
| SpanTree.BuildSpanTree | web/components/task/trace-panel.tsx:52-75 | roots and children are the nodes of the events with no known parent, and of each span's own events, in input order; each id has one node, of its last event |
| SpanTree.PushNode | web/components/task/trace-panel.tsx:62-72 | one event's node is appended below its parent's node, or to the roots, and no other list changes |
| SpanTree.CreateNodes | web/components/task/trace-panel.tsx:56-59 | one node per span id, holding the last event with that id, without children |
| SpanTree.OnlyCyclesAreLeftOut | web/components/task/trace-panel.tsx:62-72 | with distinct ids the forest leaves out exactly the events on or below a parent cycle |
| SpanTree.PlacedIffChainReachesRoot | web/components/task/trace-panel.tsx:62-72 | with distinct ids an event is in the forest, at one place, exactly when its parent chain reaches a root |
| SpanTree.ReachesRootIffNoCycle | web/components/task/trace-panel.tsx:62-72 | a parent chain reaches a root or meets a cycle, never both |
| SpanTree.InputOrderKept | web/components/task/trace-panel.tsx:62-72 | roots and siblings come in input order |
| SpanTree.ListedWhereEventsSay | web/components/task/trace-panel.tsx:62-72 | for any input a span is listed below another iff an event says so and that parent is a span, and is a root iff some event of it names no known parent |
| SpanTree.EveryEventAttachedOnce | web/components/task/trace-panel.tsx:62-72 | for any input, root entries and child entries together are as many as the events |
| SpanTree.PlacedOncePerEvent | web/components/task/trace-panel.tsx:62-72 | for any input and id, the entries of that id among the roots and below all spans are as many as its events |
| SpanTree.AttachedOnceIffDistinct | web/components/task/trace-panel.tsx:56-72 | every span is attached exactly once if and only if no two events share an id |
| TaskQuery.ListTasks | src/memory/episodic/store.py:253-316 | placeholders are exactly $1..$n in order, limit and offset last; a row meets the conditions iff it meets every active filter |
| TaskQuery.AppendValues | src/memory/episodic/store.py:269-293 | a comma-separated filter becomes nothing, one equality or an IN list, and selects what the filter means |
| TaskQuery.ListFilterMeans | src/memory/episodic/store.py:269-293 | for any comma-free pieces, a row passes the filter they join to iff every piece is blank or the row has one of the other pieces, stripped |
| TaskQuery.JoinUndoesSplit | src/memory/episodic/store.py:271 | comma-free pieces, joined with commas, are split into themselves |
| TaskQuery.AddCondition | src/memory/episodic/store.py:253-293 | a further condition keeps the next number one past the arguments and the earlier conditions' meaning |
| TaskQuery.SplitUndoesJoin | src/memory/episodic/store.py:271 | the split pieces hold no comma and joined give the filter back |
| TaskQuery.StripTrims | src/memory/episodic/store.py:263-271 | stripping removes exactly the blank ends |
| TaskQuery.NonBlankIsFilter | src/memory/episodic/store.py:271 | a value is used iff it is some piece stripped and not blank |
| TaskQuery.RepoFilterIsSubstringIff | src/memory/episodic/store.py:263-267 | the repo filter is a case-insensitive substring search if and only if it has no percent sign, underscore or backslash |
| Benchmarks.VarianceOfRates | src/benchmarks/swebench/aggregator.py:48-58 | for two or more success rates the sample variance is between zero and m(1-m)n/(n-1), and at the bound iff every rate is zero or one |
| Benchmarks.MeanOfRates | src/benchmarks/swebench/aggregator.py:41-45 | the mean of rates is a rate |
| Benchmarks.RatesAreShares | src/benchmarks/swebench/aggregator.py:187-190 | an instance's rate times its number of runs is its number of resolved runs, and the cell's mean times its size the sum of the rates |
| Benchmarks.MeanInInterval | src/benchmarks/swebench/aggregator.py:61-73 | the mean is the middle of its interval, whose half-width squared is z squared times the variance over n; a point for one value |
| Benchmarks.GroupInstances | src/benchmarks/swebench/aggregator.py:167-171 | one group per (topology, model) that occurs, with its instances in input order |
| Benchmarks.GroupPicksInOrder | src/benchmarks/swebench/aggregator.py:167-171 | a cell picks each instance by its topology and model, unknown if missing, and keeps the input order |
| Benchmarks.ComputeCells | src/benchmarks/swebench/aggregator.py:149-311 | one cell per (topology, model), with the size, mean, variance, interval and cause counts of exactly its instances |
| Benchmarks.CountCauses | src/benchmarks/swebench/aggregator.py:283-288 | the loop counts each cause of a group's escalations |
| Benchmarks.CausesAreCounted | src/benchmarks/swebench/aggregator.py:283-288 | each cause is counted as often as the cell's escalations give it, a missing one as unknown |
| Benchmarks.CellBounds | src/benchmarks/swebench/aggregator.py:249-253 | every cell holds its key's instances, their number, the mean of their rates and the count of each cause; its mean is in [0,1] and in the middle of its interval, and its variance is within the bound for that mean |
| Benchmarks.CellsPartition | src/benchmarks/swebench/aggregator.py:167-171 | the cells partition the instances |
| Benchmarks.CausesAddUp | src/benchmarks/swebench/aggregator.py:283-288 | a cell's cause counts add up to its number of escalations |

## Left out

- Agents, prompts, language-model calls, embeddings, the sandbox, git, the GitHub client, tracing spans other than
  their ids and parents, and the database engine: their answers are parameters of a graph step.
- Agent nodes are functions from state to state that return the merged update; the order in which a node reassigns
  its locals is not modelled, the order in which it merges updates is.
- Two decision requests at the same moment: one request is handled at a time. Graph steps and requests otherwise
  interleave freely.
- Exceptions that escape a graph node, and with them the failure branches of the run and of a resume.
- The single_agent topology, the repository index, the error strings, the janitor, the path and command guardrails.
- halt_test_failure's own row update when it escalates: no run reaches it (TestFailuresNeverEscalate).
- The guardrail's own outcome row: it goes through a connection of its own, whose failure is only logged.
- Details of outcome rows beyond their name.
- Totals written to the task row, and the fields of rows and events that no branch depends on.
- Hashing and JSON canonicalisation: an argument hash is a string without a colon.
- Rendering a log record's arguments into its message: the rendered text is given.
- Token encoding and decoding: chunks are of tokens, and start offsets count tokens.
- RestoresIff: not stated for negative chunk sizes, whose slices count their ends from the back of the text and whose
  chunks are not consecutive pieces of it.
- Serialisation of trace events, the broadcaster's lock, and the order in which it visits a set of queues.
- Canonical repository addresses, ordering and paging of the listed tasks, and case folding beyond ASCII.
- Floating point: statistics are over the reals, and the square root is a function known by its defining property.
- ComputeCells: leaves out a cell's cost, token, duration, retry and handoff averages, which are means like the one
  modelled, and the sorted order of the cells.
