# A verified model of the security-testing agent

The repository runs security analyses: an API accepts runs and works them off
with a bounded pool of workers; for every finding of a run an agent loop plans,
checks and performs sandboxed actions and reaches a verdict; around both stand
the executor, the sandbox sessions, discovery, the diff parser and the
benchmark. This project models those parts in Dafny and proves what they keep
over every run. `dafny verify dfyconfig.toml` checks all of it.

## How the files fit together

The API run protocol:
- `RunStore`, `Resources`, `Scheduler`: the store rows, the resource budget and
  the FIFO scheduler, as classes proved against the pure effect of each
  transaction or lock region. `RunScheduler.View` is the value those effects
  work on.
- `RunProtocol`: the step relation over those effects. Every lock region, every
  SQL transaction and every queue operation is one atomic event of a worker, an
  API caller, the closer or the process itself; a crash keeps the rows only.
- `RunInvariant`, `RunLocated`, `RunKept`, `RunRows`, `RunOnce`, `RunSafety`: the
  inductive invariant and its preservation, one family of events at a time.
- `RunTheorems`: what follows for every history of events. `RunStranding` says
  exactly when a run loses its last job unfinished, `RunCodes` what the exit code
  column means. `RunProgress` and `RunBoots` say where each kind of history leads:
  jobs to their ends, cancel requests to their tokens, a new process to its queue.
- `Cancellation`: the cancellation scopes a worker runs under.

The agent loop and its verdict chain:
- `AgentData`, `ActionIds`, `Text`: the records that pass between nodes, and the
  action identifiers.
- `EvidenceGuard`: the verdict rules. `PolicyGate`, `Planning`: the two
  validators and the two planners.
- `RunLimits`, `Executor`: the run limiter, the approvals, the fail-stop runner
  and the executor.
- `AgentGraph`: the graph, one function per node; `Moves` says per node what a
  step changes. `AgentRuns` and `AgentVerdicts` carry invariants along `Moves`
  and state the results over whole runs. `AgentProgress` says node by node when a
  run goes on and what it reports when nothing outside stops it.
- `DockerfileUser`, `DockerfileRuns`: the Dockerfile capability from its lines to
  the report, and how every run over a Dockerfile ends.

The other algorithms: `SandboxSessions`, `Ownership`, `FreshIds`, `Benchmark`,
`StreamReader`, and the diff parser: `GitDiff` (the parser), `GitDiffMarks` (what
it reads from any text), `GitDiffLines` (what it reads in a line, against grammars
of shell words, paths and hunk headers), `GitDiffPrinter` (git's layout), `GitDiffReading` (what it
makes of a printed diff, and when that is what was printed), `GitDiffPosing` (the
texts it mistakes).

## What is assumed

- Clocks, model replies, sandbox outcomes, storage failures and exceptions of a
  node's surroundings are arbitrary inputs of each step. `fault` in `AgentGraph`
  makes any node raise before it changes anything.
- The pipeline raises the cancellation error only under a set token; all runs
  ask for the same resources; the store itself does not fail.
- The proposal digest is injective, so approvals are kept as proposals.
- Real numbers stand for floating point; integers are unbounded, as in Python.
- Case folding covers the ASCII letters and `\d` the ASCII digits.

## Where the code does less than it promises

- A run can stay `running` with no worker, no lease and no job: `close` sets the
  tokens of runs it did not cancel in the store (only 500 are listed, and a run
  may start in between). `RunTheorems.CloseCanStrandARunningRun` is such a
  history. The step that loses the run is `mark_cancelled` on a row the store had
  not stopped: `RunStranding.LeavesFinishedExactly` has that guard as the exact
  condition, and `RunStranding.RunningHeldExactly` says for open and closed
  schedulers alike when a running row has a worker that holds its lease.
- A row that was inserted just before `close` stays `queued` with no job, because
  its submit is refused (`RunStranding.SubmittedExactly`,
  `RunStranding.LateSubmitStaysQueued`). `RunStranding.StrandedExactly` shows that
  runs are lost in these two ways and in no other, and
  `RunStranding.StrandedStays` that until the next process only a cancel request
  changes their rows.
- A completed row can carry exit code 130 as well, if its own pipeline returned
  it (`RunCodes.CompletedCanCarryCancelCode`); `RunCodes.CancelCodeExactly` has
  both directions. The gate itself only uses 0, 1 and 2 (pipeline/gate.py:52-60),
  so this takes a runner injected into the service.
- A teardown that meets an unexpected exception is broken off; the managed
  session then runs the body a second time, and reports itself closed even when
  the inner session could not confirm its clean-up
  (`SandboxSessions.ManagedSession.Use`).
- In a managed lab a raw sandbox command is always denied, because the sequence
  runtime that replaces the Docker sandbox is not itself one
  (`Executor.LabDeniesCommands`).
- Opening the lab can fail after the sandbox has been exchanged for a Docker one,
  and closing then does not exchange it back: `Executor.OpenThenCloseRestores`
  says exactly when it does, `Executor.FailedOpeningKeepsDocker` is the failure.
- The diff parser splits git's output at every line separator, although git ends
  its lines with newlines only, and it takes content for the diff's own lines:
  added text that starts with `++ ` names a file
  (`GitDiffPosing.AddedTextCanPoseAsAFile`), and whatever follows a separator
  inside a heading or a content line can name a file, cover lines or make the
  parse fail (`GitDiffPosing.AddedTextCanPoseAsAHunk`).
  `GitDiffReading.PrintedDiffIsRead` says what the parser makes of every printed
  diff and `GitDiffReading.ReadsBackExactly` when that is what was printed. As long
  as no such line names another file of the same diff, or none, the round trip
  holds exactly when each of them names its own file or covers lines that are
  covered anyway (`GitDiffReading.ReadsBackIfPrintable`).
- A changed file whose path has a space is not listed: the parser takes the last
  word of its first line, and its name with git's trailing tab
  (`GitDiffPosing.SpacedPathIsMisread`).

## Model

| member | source | states |
|---|---|---|
| RunTheorems.PipelineStartsAtMostOnce | api/service.py:586-658 | over every history of creations, workers, cancellations, crashes and restarts, the pipeline of a run is started at most once across all process lifetimes |
| RunTheorems.CancelledInQueueNeverStarts | api/store.py:315-343 | a run cancelled while its row is queued is never started, before or after, even if a worker already holds a lease for it |
| RunTheorems.TerminalRowsNeverChange | api/store.py:262-393 | completed, technical_failure and cancelled are absorbing across crashes and restarts, with exit code, gate decision, cancel reason, error mark and creation time |
| RunTheorems.CancellingNeverCompletes | api/store.py:274-356 | once a run is cancelling it can only be cancelled or fail, never complete |
| RunTheorems.RunningHoldsItsLease | api/service.py:595-658 | from the moment the queued runs are listed, and while the scheduler accepts, every running row has a worker on that run that holds its lease |
| RunTheorems.LeftUnfinishedOnlyByClose | api/scheduler.py:150-162 | a worker that leaves its run unfinished does so under a closed scheduler and a set token |
| RunTheorems.CloseCanStrandARunningRun | api/service.py:152-160 | a concrete history after which a row stays running although no worker, lease or job is left for it |
| RunTheorems.CancelledOnlyAfterRelease | api/service.py:653-658 | cancelling becomes cancelled only by the worker of the run, after its lease is returned and while nobody holds one for the run |
| RunTheorems.ExitCodesAgree | api/store.py:274-393 | exit code 2 marks exactly technical_failure, cancelled rows carry 130, and a code is present exactly on terminal rows |
| RunCodes.CompletedCodeIsReturned | api/service.py:609-642 | a completed row carries exactly the code its own pipeline returned |
| RunCodes.CancelCodeExactly | api/store.py:282-349 | in every history a row carries 130 exactly when the run was cancelled, or completed with a pipeline that returned 130 itself |
| RunCodes.CancelCodeMarksCancelled | api/store.py:282-349 | 130 marks exactly the cancelled runs in every history in which no pipeline returned 130 |
| RunCodes.CompletedCanCarryCancelCode | api/service.py:609-642 | a concrete history that ends in a completed row with code 130 |
| RunTheorems.AtMostOneJob | api/scheduler.py:131-140 | no run ever has two jobs, whether enqueued, queued or at workers |
| RunTheorems.UnfinishedRunHasJob | api/service.py:687-711 | once the queued runs are listed, and while the scheduler accepts, every unfinished run has a job, and is queued unless a worker has it |
| RunStranding.UnfinishedHasJobExactly | api/service.py:687-711 | once the queued runs are listed, scheduler open or closed, an unfinished run has a job exactly when it was not stranded |
| RunStranding.StrandedExactly | api/scheduler.py:131-182 | a run is stranded by a submit that a closed scheduler refuses and by a worker that drops the token of an unfinished row, and by nothing else; the mark lasts until the process ends |
| RunStranding.LeavesFinishedExactly | api/service.py:634-658 | a worker that ends a callback, or skips it under a set token, leaves the run terminal exactly when the callback ended uncancelled or the store had stopped the run before |
| RunStranding.RunningHeldExactly | api/service.py:595-658 | from the moment the queued runs are listed, scheduler open or closed, a running row has a worker on that run that holds its lease exactly when the run was not stranded and no worker on it is on the way out after a cancellation |
| RunStranding.SubmittedExactly | api/service.py:314-331 | a created run gets its job exactly when the scheduler still accepts at its submit; otherwise its row stays queued or cancelled and is stranded |
| RunStranding.StrandedStays | api/service.py:152-160 | until the process ends a stranded run has no job, and only a cancel request changes its row |
| RunStranding.LateSubmitStaysQueued | api/service.py:314-330 | a concrete history after which a row stays queued although no job is left for it |
| RunTheorems.RestartRequeuesUnfinished | api/service.py:133-134 | a new process requeues exactly the unfinished runs, each once, in creation order |
| RunTheorems.BudgetConserved | api/scheduler.py:42-101 | the used amount equals the requests of the leases not yet returned, in all three dimensions, stays within capacity, and the clamp at zero never fires |
| RunTheorems.WaitingMeansAnotherHolds | api/scheduler.py:62-65 | a worker whose turn in acquire cannot go on is held up by a lease of another worker |
| RunTheorems.QueueIsFifo | api/scheduler.py:120-139 | jobs leave the queue in the order they entered it |
| RunTheorems.TokensLeaveOnce | api/scheduler.py:131-177 | no token leaves the queue twice, so no accepted callback starts twice |
| RunTheorems.NoCallbackAfterClose | api/scheduler.py:150-177 | once close has set the tokens, no job passes the token check, not even one queued behind the poison pills |
| RunTheorems.TokensAreTheLiveJobs | api/scheduler.py:131-182 | the registered tokens are exactly those of jobs being enqueued, queued or at a worker |
| RunProgress.UndisturbedJobStarts | api/service.py:595-608 | a dequeued queued run that nobody cancelled and for which there is room is running in its pipeline six steps later, its request drawn |
| RunProgress.UndisturbedJobFinishes | api/service.py:609-658 | a pipeline that returns uncancelled ends its run with its code, gate and error, gives the request back and frees the worker |
| RunProgress.CancelReachesTheToken | api/service.py:333-338 | a cancel request on a queued or running row leaves it cancelled or cancelling with the reason, and the caller's next steps set the token of the run's job |
| RunProgress.CancelIsPursued | api/service.py:333-338 | whatever else happens in the process, the row stays on its way to cancelled or failed, and the caller is on its way to the token until it is set or the job is over |
| RunProgress.CancelledJobSettles | api/service.py:634-658 | a pipeline stopped by its token leaves a cancelled run with code 130 and gives the request back |
| RunProgress.LateCancelSettles | api/service.py:610-658 | so does one that returned before it noticed, through the token check or the refused report |
| RunProgress.RaisingJobFails | api/service.py:636-655 | an exception in or around the pipeline fails the run with code 2 and gate fail, and gives the request back |
| RunProgress.StoppedJobLeaves | api/service.py:595-600 | a job whose token is set before its row runs leaves without starting, with or without a lease to return |
| RunProgress.CancelledRowIsRefused | api/service.py:600-601 | a run cancelled in the queue is refused when its job would start it, and the lease goes back |
| RunProgress.ImpossibleRequestFails | api/scheduler.py:84-92 | a request that is negative or larger than the capacity fails the run with code 2 |
| RunProgress.SkippedJobLeaves | api/scheduler.py:168-182 | a dequeued job whose token is set leaves without its callback |
| RunProgress.CreatedRunIsQueued | api/service.py:311-330 | while the scheduler accepts, a created run is in the queue under a fresh token after the submit |
| RunBoots.NewProcessTakesUp | api/service.py:133-134 | a new process fails the runs that were active, queues the queued ones in order of creation under fresh tokens, and then serves with everything else untouched |
| RunBoots.SkippedRestoreFails | api/service.py:687-711 | a listed run whose target is gone fails with code 2 instead of being queued |
| RunBoots.CloseShutsDown | api/scheduler.py:150-162 | the steps of a close, with nobody in between, add up to accepting nothing, every registered token set and one pill per worker |
| RunBoots.CrashKeepsTheRows | api/service.py:133-134 | a process can end at any moment and leaves nothing but its rows |
| RunSafety.RunKeepsInv | api/service.py:586-711 | the protocol invariant holds after every history of events |
| RunSafety.MoveShares | api/scheduler.py:55-71 | a lease is granted only under an unset token, for an admissible request that fits, and each share changes only by its own worker |
| RunStore.ApiStore.CreateRun | api/store.py:231-260 | inserts one fresh queued row, or nothing if the run exists, and is lawful |
| RunStore.ApiStore.MarkRunning | api/store.py:262-272 | queued becomes running and nothing else changes; reports whether it did |
| RunStore.ApiStore.MarkFinished | api/store.py:274-301 | running becomes technical_failure on exit code 2 and completed otherwise; no other row or status changes |
| RunStore.ApiStore.MarkFailed | api/store.py:303-313 | an unfinished run fails with code 2, a finished one is untouched |
| RunStore.ApiStore.RequestCancel | api/store.py:315-343 | a queued row becomes cancelled with code 130 and the reason, a running one cancelling with the reason, any other row and every other run stays as it was; an unknown run is an error |
| RunStore.ApiStore.MarkCancelled | api/store.py:345-356 | only cancelling becomes cancelled, with code 130 |
| RunStore.ApiStore.RecoverAbandoned | api/store.py:375-393 | every running or cancelling row fails at once and all others stay |
| RunStore.ListingDistinct | api/store.py:358-373 | a listing of the queued runs names each of them once |
| RunStore.ListingMeans | api/store.py:358-373 | a listing names exactly the queued runs, in order of creation and then of their ids |
| RunStore.ListingExists | api/store.py:358-373 | every table has such a listing |
| Resources.ResourceBudget.TryAcquire | api/scheduler.py:55-92 | grants exactly the admissible requests that fit under an unset token, and otherwise changes nothing |
| Resources.ResourceBudget.Release | api/scheduler.py:28-101 | gives the lease's request back once; a second release changes nothing |
| Resources.GrantAccounts | api/scheduler.py:66-70 | a grant that fits keeps the used amount equal to what the leases hold, within capacity |
| Resources.ReleaseAccounts | api/scheduler.py:94-100 | returning a share keeps the account and never meets the clamp |
| Scheduler.RunScheduler.Admit | api/scheduler.py:131-138 | the lock region of submit: a fresh token under the next number, or nothing when closed or already scheduled |
| Scheduler.RunScheduler.Submit | api/scheduler.py:131-140 | without another thread in between, registers a fresh token and enqueues the job at the end, or refuses when closed or already scheduled |
| Scheduler.RunScheduler.Cancel | api/scheduler.py:142-148 | sets the run's token if it is registered and changes nothing else |
| Scheduler.RunScheduler.Close | api/scheduler.py:150-162 | stops accepting, sets every registered token and appends one pill per worker; a second call changes nothing |
| Scheduler.RunScheduler.Next | api/scheduler.py:168-177 | takes the first entry and runs it only under an unset token |
| Scheduler.RunScheduler.Forget | api/scheduler.py:179-183 | removes the run's token and nothing else |
| Cancellation.Context.Run | pipeline/cancellation.py:46-64 | however a block is left, the token active before it is active again, and the block raises exactly as specified |
| Cancellation.SuspendedIsNeverCancelled | pipeline/cancellation.py:56-64 | suspended clean-up that sets no token of its own is never cut short by cancellation |
| Cancellation.CancelledStays | pipeline/cancellation.py:15-27 | no block ever undoes a cancellation |
| AgentRuns.GraphTerminates | agent/graph.py:18-95 | from every initial state, for every model, executor and clock, the graph ends within 67 super-steps and then stays put |
| AgentRuns.SitesAreBounded | agent/loop.py:10-33 | after k super-steps at most 67 - k remain; the step limit lies between 1 and 8 and the count never passes it |
| AgentRuns.MoveCosts | agent/graph.py:22-91 | every super-step of every node and router costs fuel |
| AgentRuns.StepMoves | agent/nodes.py:32-413 | each node changes only its own fields, and as the node promises; the budget guard lets through exactly below the limit and in time |
| AgentRuns.StubPlansAreApproved | agent/planning.py:14-140 | in every run without a language model the scope validator approves every plan |
| AgentRuns.DeterministicPlansAreApproved | agent/model.py:177-213 | in every run of either mode the scope validator approves a plan that is the deterministic one, so also as the fallback of a language model |
| AgentRuns.HistoriesAreComplete | agent/nodes.py:151-219 | when a run reports, it holds one plan per iteration and one action record per iteration, numbered 1, 2, ... |
| AgentRuns.SitesKeepCourse | agent/nodes.py:351-363 | at every moment the records are those of the iterations finished since the start, in order, under the run's own identifiers |
| AgentVerdicts.OnlyVettedActionsRun | agent/nodes.py:173-250 | whatever was handed to the executor or entered a sandbox, at any moment of any run, both validators had approved |
| AgentVerdicts.AtMostEightActions | agent/nodes.py:53-54 | a run performs at most eight actions, no two under one identifier |
| AgentVerdicts.SitesAreNumbered | agent/nodes.py:151-170 | the k-th action performed is that of the k-th iteration, and every finished iteration performed one |
| AgentVerdicts.VerdictsAreGrounded | reporting/builder.py:64-155 | a reported confirmed or rejected rests on the last action, approved and executed with exit code 0, and on its own reliable evidence alone or, in stub mode, on a finding whose severity is TEST_CONFIRMED or TEST_REJECTED respectively; the basis then is capability_specific_evidence, and only the four terminal statuses are reported |
| AgentVerdicts.VerdictsComeFromRecords | agent/nodes.py:271-403 | in a run that starts without evidence under its own identifiers, such a verdict is exactly what the stored record of the last action's clean execution states, from an inspecting capability |
| AgentVerdicts.VerdictsComeFromTheSandbox | executor/executor.py:572-651 | if the evidence file read back is the one the executor stored, such a verdict was printed by a clean sandbox run, exit code 0, of the last action, which both validators had approved |
| AgentVerdicts.VerdictIsPayload | evidence/interpreter.py:154-209 | among the items collected for an action, a terminal verdict is the payload of its own clean record |
| AgentVerdicts.GroundedIsEvidence | reporting/builder.py:276-297 | a verdict from evidence has the decision basis capability_specific_evidence |
| AgentProgress.BudgetDecides | agent/nodes.py:94-123 | the guard goes on to the analysis exactly below the limit, which is the loaded or configured one or two and one at least, and in time; otherwise the run is inconclusive for the budget that is used up, and the decision is recorded |
| AgentProgress.RunProposesWithinItsBudget | agent/graph.py:22-91 | a run that nothing disturbs stands at its first proposal after five steps exactly when its first iteration is below the limit, brought between one and eight, and the clock in time; any other reports its used-up budget |
| AgentProgress.LoopComesToProposing | agent/graph.py:22-91 | every later round comes to its proposal in the same way |
| AgentProgress.ValidationDecides | agent/nodes.py:173-219 | an action goes on to the executor exactly when the scope validator did not refuse its plan and the policy permits it; a refusal is recorded with the validator that made it |
| AgentProgress.SyntheticVerdictIsReported | agent/model.py:271-307 | the converse of the grounding: a stand-in that succeeded in time on a finding of severity TEST_CONFIRMED or TEST_REJECTED is ruled and reported that verdict |
| AgentProgress.SyntheticRunReports | agent/graph.py:18-95 | a whole undisturbed run over such a finding performs one action, the stand-in the rule calls for, in the run's sandbox, and reports the verdict asked for after eleven steps |
| AgentProgress.InspectedVerdictIsReported | agent/nodes.py:373-413 | an inspection by any of the three capabilities that ended cleanly and is read back is reported for the verdict it printed, on the basis of capability evidence, whatever the clock and the model say |
| AgentProgress.EvidenceIs | evidence/interpreter.py:41-209 | the note of an execution carries a verdict only for an inspection with its own clean record, reliably exactly if its output parsed |
| AgentProgress.BasisIs | reporting/builder.py:276-297 | the basis of a report is the first of budget, policy, evidence, limit and workflow that applies |
| EvidenceGuard.GuardDecidesByEvidence | evidence/guard.py:21-63 | the guard reaches a verdict exactly when the execution succeeded and the action's reliable evidence supports it and not the opposite |
| EvidenceGuard.GuardSeesEvidenceAsASet | evidence/guard.py:42-48 | the guard's decision depends neither on the order nor on the repetition of evidence |
| EvidenceGuard.LimitEndsTheLoop | evidence/guard.py:66-87 | at the step limit reevaluation never asks for another iteration |
| EvidenceGuard.AnswerNeverDecides | agent/llm_model.py:261-313 | the language model's answer never changes the ruling |
| EvidenceGuard.VerdictExactlyWhenJustified | agent/nodes.py:373-403 | the node rules for a verdict exactly when it is justified by evidence or asked for in stub mode, before the clock runs out for a stand-in action |
| EvidenceGuard.UndecidedIsRuled | evidence/guard.py:21-110 | a real action without a verdict ends the run exactly if its failure is a final one or the limit is reached, and for the reason its failure has |
| EvidenceGuard.StandInIsRuled | agent/model.py:215-307 | a stub stand-in is ruled what its parameter asks for if it succeeded in time, goes on below the limit if it did not, and otherwise ends for the budget or the failure |
| EvidenceGuard.StandInUnderAModelIsRuled | agent/llm_model.py:261-313 | the same action under a language model decides nothing without evidence |
| Planning.ValidatePlan | agent/planning.py:14-140 | approves exactly the plans whose target, hypothesis, budget, session and every step are in the current scope |
| Planning.ScopeMeans | agent/planning.py:14-140 | what the scope asks of a plan in terms of the target, hypothesis, budget left, session, services and endpoints |
| Planning.CommandBoundedMeans | agent/planning.py:156-170 | the parameters of a raw command are accepted exactly for 1 to 32 bounded arguments and one of two directories |
| Planning.ToolByRule | agent/model.py:356-366 | the capability chosen is the one the finding's rule id calls for, whatever its case, the first in the list where several fit |
| Planning.DeterministicPlanIs | agent/model.py:104-213 | the deterministic plan is one step of that capability for the next iteration, with the parameters the capability needs and, for a stand-in, the outcome the severity asks for |
| Planning.ComposedExactly | agent/llm_model.py:182-250 | a model's answer is composed exactly when it keeps to its own length, repeats no candidate and names only known ones |
| Planning.ModelIsHeeded | agent/llm_model.py:182-258 | a well-shaped answer that can be composed is the plan, and the deterministic plan stands in for every other |
| Planning.DeterministicPlanInScope | agent/model.py:177-213 | the deterministic plan is consistent, and in scope exactly when an iteration is left |
| Planning.ComposePlan | agent/llm_model.py:182-250 | the composing loop builds exactly the specified plan, or none when a choice is refused |
| Planning.ChosenPlanConsistent | schemas/plan.py:40-58 | whatever a model composes, the plan's steps are numbered in order and its action ids are pairwise distinct |
| Planning.DeterministicTexts | agent/model.py:116-175 | the deterministic action has blank text exactly where it takes over a blank expectation from the hypothesis, for the stand-in and the deny path |
| Planning.PlannedStepsAre | agent/llm_model.py:198-236 | every composed step carries the agent's identity and scope, the chosen command or registered capability, and the chosen purpose and expectation unchanged |
| Planning.ChosenPlanInScope | agent/planning.py:37-134 | a composed plan passes the scope validator exactly when its declared length fits the remaining budget and every service it names is ready |
| Planning.PlanStartsNext | agent/nodes.py:151-170 | every plan starts with the next iteration's action under the next identifier |
| ActionIds.BuiltIdsPassThePolicy | agent/model.py:333-339 | any finding id yields action ids that pass the policy's identifier check |
| ActionIds.BuiltIdsAreDistinct | agent/model.py:333-339 | different iterations on one finding have different action ids |
| ActionIds.BuiltIdIs | agent/model.py:333-339 | the identifier is the first 96 characters of the finding's own, unsafe runs turned into hyphens and those at its ends stripped, or a word if nothing is left, between the prefix and the number |
| ActionIds.UnsafeRunIsOneHyphen | agent/model.py:335-335 | every run of unsafe characters becomes one hyphen, and safe text stays as it is |
| PolicyGate.Validate | validator/validator.py:57-194 | approves exactly the actions that pass all fourteen checks, and reports the first check in order that is broken |
| PolicyGate.PermittedMeans | validator/validator.py:57-297 | what the policy permits in terms of its own fields and the action's: identity, target, environment, tool, iteration, texts, keys, values, artifacts and the audit |
| PolicyGate.ParameterError | validator/validator.py:163-279 | finds a parameter, artifact or audit breach exactly when there is one, and the first of them |
| PolicyGate.ArtifactsChecked | validator/validator.py:281-297 | accepts exactly when every artifact parameter names a registered artifact of the target |
| PolicyGate.CheckEnums | validator/validator.py:226-232 | accepts exactly when every enumerated parameter has an allowed value |
| PolicyGate.CheckLengths | validator/validator.py:234-248 | accepts exactly when every bounded parameter is a string within its bound |
| PolicyGate.CheckLists | validator/validator.py:250-277 | accepts exactly when every list parameter keeps its item rules |
| Executor.SafeExecutor.Approve | executor/approvals.py:36-54 | succeeds exactly for an approved validation of the same action; then that proposal is approved, every proposal under another id is as before, and no other one is |
| Executor.ApprovalIsExact | executor/approvals.py:30-65 | an approval admits that one proposal and no other under its id |
| Executor.EnteredOnlyIfApproved | executor/executor.py:490-601 | the sandbox is entered exactly for admitted, granted, addressable actions, hence only for a proposal approved as it stands |
| Executor.SafeExecutor.Execute | executor/executor.py:490-651 | the trial is the specified one; a run is counted exactly when granted, and the permit is back on every path out, cancellation included |
| Executor.SafeExecutor.RunActions | executor/sandbox_runner.py:48-100 | the loop yields exactly the fail-stop sequence, enters the sandbox only for approved proposals and returns every permit |
| Executor.SequenceFailStops | executor/sandbox_runner.py:64-96 | results follow a prefix of the actions, all but the last are completed, and only one that is not cuts it short |
| Executor.StatusTellsAll | executor/sandbox_runner.py:97-100 | completed exactly when there were actions and all completed; denied exactly when the first was |
| Executor.SequenceEntersExactly | executor/sandbox_runner.py:48-139 | a turn taken of a sequence enters the sandbox exactly when the sequence has eight actions at most, time and a permit are left, that proposal is approved as it stands, its target is registered in an allowed environment, its capability fits, and the service and endpoint it names are in the service map, allowed, inside the sandbox and active |
| Executor.TurnEntersExactly | executor/sandbox_runner.py:102-139 | the same of one action: in particular an approved, granted and timely observation of a usable service is let in |
| Executor.EntryTells | executor/executor.py:572-651 | what an action that entered the sandbox comes to: completed exactly on exit code zero, failed with its cause otherwise, and a failure if its traces cannot be stored |
| Executor.RefusalTells | executor/executor.py:490-601 | the first thing in the way of an action the runner passed on decides what is reported: target, command sandbox, parameters, permit, address |
| Executor.ObjectionTells | executor/sandbox_runner.py:65-74 | a turn past the deadline fails with 124 and one the runner objects to is denied with 126 |
| Executor.LongSequenceIsDenied | executor/sandbox_runner.py:55-62 | more than eight actions are denied as a whole and none is run |
| Executor.PlacesAre | executor/executor.py:428-488 | which sandbox and services a sequence runs with: a lab's runtime, a runtime of its own for observations in Docker, else the own sandbox |
| Executor.ObservationOpensASession | executor/executor.py:374-426 | an observation without a session needs Docker, a service, an endpoint, its approval and a known target, and then runs in a session of its own or fails with that session's error |
| Executor.CompletedMeansClean | executor/executor.py:638-651 | a completed result ran with exit code 0 and its stored record says the same |
| Executor.RecordsNeverFlatter | executor/executor.py:700-845 | a stored record says completed only for a clean run whose result is completed |
| Executor.PerformIsGuarded | executor/executor.py:368-426 | however an action is performed, the sandbox is entered only if it is approved, a completed result is a clean run of it, and a record that says completed holds what that run printed |
| Executor.LabDeniesCommands | executor/executor.py:438-530 | in a managed lab a raw command never enters a sandbox and never completes |
| Executor.CommandsNeedDocker | executor/executor.py:449-530 | a raw command enters the sandbox exactly when no lab is open, the own sandbox is a Docker one, time and a permit are left, that proposal is approved as it stands on a registered target in an allowed environment, names no service or endpoint, and its parameters are bounded |
| Executor.SafeExecutor.ExecuteSequence | executor/executor.py:428-488 | runs the sequence in the place the settings call for, then puts the sandbox back and leaves no services active |
| Executor.SafeExecutor.OpenLab | executor/executor.py:183-203 | opens the lab once; a failing call leaves the sandbox exchanged for a Docker one, and keeps the lab only if it was made and did not start |
| Executor.SafeExecutor.CloseLab | executor/executor.py:205-215 | the sandbox from before the lab comes back |
| Executor.SandboxIsNeverLost | executor/executor.py:183-215 | after any calls the executor has its own sandbox, or a Docker one with its own saved |
| Executor.OpenThenCloseRestores | executor/executor.py:183-215 | after any calls, opening and closing brings the own sandbox back exactly when it is a Docker one, a lab was open already, or the lab could be made |
| Executor.FailedOpeningKeepsDocker | executor/executor.py:191-196 | a lab that cannot be opened leaves a Docker sandbox behind until a later lab is opened and closed |
| RunLimits.RunLimiter.Acquire | executor/sandbox.py:248-260 | grants exactly when runs and permits are left; a grant costs one of each and a refusal nothing |
| RunLimits.RunLimiter.Release | executor/sandbox.py:262-266 | returns a permit and never more than there are |
| RunLimits.CountsAddUp | executor/sandbox.py:248-260 | over every interleaving an action's count is its grants plus its reservations in flight, and within the limit |
| RunLimits.CallerIsGranted | executor/sandbox.py:248-260 | after any interleaving, a caller that asks while runs and permits are left gets one of each |
| RunLimits.CallerIsTurnedAway | executor/sandbox.py:248-260 | without a permit its reservation is taken back and nothing has changed |
| RunLimits.PermitGoesBack | executor/sandbox.py:262-266 | a release gives the permit back and leaves the run counted |
| RunLimits.PermitsAddUp | executor/sandbox.py:248-266 | over every interleaving holders plus free permits make up the maximum |
| RunLimits.LimitsHold | executor/sandbox.py:228-266 | over every interleaving no action is granted more runs than allowed and no more callers hold permits than allowed |
| RunLimits.NothingIsClamped | executor/sandbox.py:256-266 | a rollback always finds its count and a release its missing permit |
| DockerfileUser.FinalStageUser | executor/worker.py:280-311 | one forward pass finds the stages, the final user and its line, or the first malformed instruction, or that there is no FROM |
| DockerfileUser.FinalUserIsLast | executor/worker.py:294-306 | the user found is the last USER after the last FROM, for every file and every candidate |
| DockerfileUser.ParsedExactly | executor/worker.py:285-293 | a line is parsed as FROM or USER exactly when that is its first word in any case, white space and comments aside, with the trimmed rest as its argument |
| DockerfileUser.ClassifiedExactly | executor/worker.py:314-322 | a user is root or another one exactly when the trimmed name before its first colon is 0 or root, or another name without a variable |
| DockerfileUser.WellFormedMeans | executor/worker.py:294-308 | a file is refused exactly when a FROM, or a USER after one, lacks its argument |
| DockerfileUser.LineIsItsOwn | executor/worker.py:284-306 | the line reported with the user is that of the last USER, counted from one |
| DockerfileUser.InspectUser | executor/worker.py:325-375 | the inspection prints exactly the specified verdict |
| DockerfileUser.VerdictMeansUser | executor/worker.py:341-359 | confirmed exactly when the final user is absent or its name, the trimmed text before its first colon, is 0 or root in any case; rejected exactly when that name is another one without a variable in it; inconclusive otherwise |
| DockerfileUser.VerdictNeedsAFile | executor/worker.py:280-311 | the inspection prints a verdict exactly for a file with a FROM in which no FROM, and no USER after one, lacks its argument |
| DockerfileUser.ReportSaysWhatTheFileSays | evidence/guard.py:42-63 | in every run, once the inspection has run, is stored and parses, the next report says what the Dockerfile says, and otherwise the loop goes on until its limit |
| DockerfileRuns.RunReportsWhatTheFileSays | agent/graph.py:18-95 | every run that reports and judged only inspections of one file, broken or unreadable ones included, reports confirmed exactly when an inspection succeeded and was read back and the file runs as root, rejected exactly when one did and it runs as another user, policy_blocked exactly when a validator refused, and inconclusive on every other way out, step limit and clock included |
| SandboxSessions.SandboxSession.Teardown | executor/sandbox_session.py:395-447 | the body runs to its end at most once, later calls are no-ops, and the final status and error are those the commands call for |
| SandboxSessions.ClosedExactly | executor/sandbox_session.py:402-447 | CLOSED exactly when nothing broke the teardown off, all three label queries came back empty and a fallback met no error; FAILED whenever it came to its end otherwise |
| SandboxSessions.EscapesExactly | executor/sandbox_session.py:402-447 | a teardown is broken off exactly when `down`, a final query or, after a failed `down`, a query or a needed removal meets an unexpected exception |
| SandboxSessions.ComposeErrorIs | executor/sandbox_session.py:261-320 | the error of a start of the services is that of the try or clean-up that decided it |
| SandboxSessions.SandboxSession.Start | executor/sandbox_session.py:287-308 | a failing start runs the teardown body once before it raises its error |
| SandboxSessions.SandboxSession.StartCompose | executor/sandbox_session.py:310-320 | succeeds exactly when the first try did, or it failed, the clean-up ran and the second succeeded |
| SandboxSessions.ComposeUpExactly | executor/sandbox_session.py:310-320 | the services are up exactly when the first try succeeded, or it failed, the clean-up ran and the second succeeded |
| SandboxSessions.ManagedSession.Start | executor/sandbox_manager.py:90-108 | a failing start is torn down across both layers exactly once unless the first teardown was broken off |
| SandboxSessions.ManagedSession.Teardown | executor/sandbox_manager.py:120-130 | the first call ends the session whatever its clean-up does; later calls are no-ops |
| SandboxSessions.ManagedSession.Use | executor/sandbox_manager.py:132-137 | entering, using and leaving runs the teardown body exactly once, or twice after an unexpected exception, and the last one decides the inner status; the session calls itself closed exactly after a start that succeeded, whatever the inner status is |
| GitDiff.ParseGitDiff | pr_analysis/git_diff.py:56-88 | the loop computes the specified parse of the text, errors included |
| GitDiff.SortedSetIsSorted | pr_analysis/git_diff.py:87-87 | the reported lines are strictly increasing and exactly the collected ones |
| GitDiff.SplitUndoesUnlines | pr_analysis/git_diff.py:61-61 | splitting a text into lines gives back the lines it was joined from, if none holds a separator |
| GitDiff.SplitsEachLine | pr_analysis/git_diff.py:61-61 | splitting a joined text splits each of its lines on its own, whatever separators they hold |
| GitDiff.TranslationSplitsAlike | pr_analysis/git_diff.py:40-48 | reading the output with universal newlines does not change how it is split |
| GitDiff.PlainIsAWord | pr_analysis/git_diff.py:63-64 | the shell split of a plain path is that path, also after others |
| GitDiff.RangeReadsBack | pr_analysis/git_diff.py:9-9 | a printed hunk range is read back, with the count left out when it is one |
| GitDiffPrinter.HeaderReadsBack | pr_analysis/git_diff.py:78-83 | a printed hunk header yields its new-side start and count |
| GitDiffPrinter.BodyLineIsInert | pr_analysis/git_diff.py:61-80 | a printed content line, taken as one line, looks like a file or hunk line exactly when it is added text starting with `++ ` |
| GitDiffPrinter.BodyLineIsPassed | pr_analysis/git_diff.py:69-80 | while a listed file is read, the parser passes over a content line, taken as one line, exactly unless it is added text `++ x` and x is neither `/dev/null` nor that file |
| GitDiffMarks.LineIsPassed | pr_analysis/git_diff.py:61-83 | while a listed file is read, the parser passes over any line exactly when the line names nothing but that file, covers nothing and is not refused |
| GitDiffMarks.TextIsRead | pr_analysis/git_diff.py:56-88 | for every text: the parse fails with the first line that is refused; otherwise the files are those named in the order of first mention, and each has the lines covered while it was the file named last |
| GitDiffLines.WrittenWordsAreRead | pr_analysis/git_diff.py:63-64 | words written with any of the shell's quotations and escapes, with blanks between them, are read as what they mean |
| GitDiffLines.UnfinishedWordsFail | pr_analysis/git_diff.py:63-64 | a quotation or escape left open at the end makes the line unreadable, wherever it begins |
| GitDiffLines.NormalizesExactly | pr_analysis/git_diff.py:91-98 | a path is accepted exactly if, with slashes for backslashes and one leading `a/` or `b/` taken off, it is neither empty nor absolute and has no segment `..` |
| GitDiffLines.HunkExactly | pr_analysis/git_diff.py:9-9 | a line is a hunk header exactly if it can be taken apart into the two ranges and the marks between them, and the new side's start and count are those |
| GitDiffLines.FirstLineMarks | pr_analysis/git_diff.py:62-68 | the first line of a file names the last of its words if it has four or more, and no file any more if it has fewer |
| GitDiffLines.OtherLinesSayNothing | pr_analysis/git_diff.py:69-80 | a line that is neither a name nor a hunk header means nothing |
| GitDiffLines.AnswerIs | pr_analysis/git_diff.py:56-88 | what the parse of a text answers: the files named, and for each the lines credited to it, in order and once |
| GitDiffReading.ContentMarks | pr_analysis/git_diff.py:61-83 | a printed content line means what the lines after its first separator mean, and besides that only added text starting with `++ ` means something |
| GitDiffReading.FileReadsBack | pr_analysis/git_diff.py:61-83 | after any lines, the parser adds a printed file whose texts keep to it at the end, with exactly the lines its hunks cover, and leaves the other files alone |
| GitDiffReading.PrintedDiffIsRead | pr_analysis/git_diff.py:56-98 | for every printed diff, whatever its notes, headings and content hold: the parse fails with the first refused line, or returns the files in order of first mention, each with the lines covered while it was the file named last |
| GitDiffReading.ReadsBackExactly | pr_analysis/git_diff.py:56-98 | for every printed diff, the round trip holds exactly when no line is refused, the names enter the files in order, and each file is credited with the lines of its own hunks |
| GitDiffReading.PrintedDiffReadsBack | pr_analysis/git_diff.py:56-98 | for every printed zero-context diff with plain paths whose texts are harmless to their own files, the parser returns the files in order and per file exactly the strictly increasing new-side lines, none for a deleted file |
| GitDiffReading.ReadsBackIfPrintable | pr_analysis/git_diff.py:61-83 | when no text names another file of the same diff, or none, the round trip holds exactly when every text is harmless to its own file |
| GitDiffPosing.AddedTextCanPoseAsAFile | pr_analysis/git_diff.py:69-80 | for every path and every text x that means nothing after its first separator, a printed diff that adds `++ x` is read back exactly when the name x begins with is `/dev/null` or the path; otherwise it is refused, or lists that file and counts the following lines for it |
| GitDiffPosing.AddedTextCanPoseAsAHunk | pr_analysis/git_diff.py:61-83 | for every text without a separator that does not pose as a name, and every separator, an added line with a hunk header behind them also counts the lines of that header, and is read back exactly when the header covers nothing but the line itself |
| GitDiffPosing.SpacedPathIsMisread | pr_analysis/git_diff.py:63-76 | for every path of two plain words with a space between them, the lines that introduce its file name other files and never that one |
| Ownership.ResolveComponent | schemas/discovery.py:208-219 | answers the largest candidate among all components that contain the path, or that there is none |
| Ownership.ResolveService | schemas/target.py:290-303 | the same for the services of a profile, in whatever order they are met |
| Ownership.DepthsDiffer | schemas/discovery.py:212-215 | two roots that contain the same file lie at different depths, one inside the other |
| Ownership.AnswerIsDeepest | schemas/target.py:290-303 | with distinct roots the answer is the owner with the unique deepest root; the tie-break never decides |
| Ownership.OwnerIsAnswered | schemas/discovery.py:208-219 | for any components: nobody answers for a file nobody owns; otherwise an owner does whose root lies below every other owner's, or is the same under the greater id |
| Ownership.BuildServices | discovery/profile.py:35-43 | the services of a profile built without a base list the last component under each id and nothing else, so exactly the components if their ids are distinct |
| Ownership.BuildingPreservesOwnership | discovery/profile.py:35-49 | a file resolves to the same owner before and after building the profile |
| FreshIds.FreshId | discovery/resolver.py:180-197 | the loop ends within one attempt more than there are names in use and returns the base, or the first free one of base-2, base-3 and so on |
| FreshIds.FreshIsUnique | discovery/resolver.py:180-197 | the answer is a function of the base and the names in use, and is not in use |
| FreshIds.NamesAreDetermined | discovery/resolver.py:18-30 | two namings of the same bases in the same order agree on every id |
| FreshIds.NameComponents | discovery/resolver.py:18-30 | one component per root in order, each with the first name free beside those before it, pairwise distinct ids, and distinct roots if the roots were |
| FreshIds.RegisterArtifacts | discovery/profile.py:50-61 | no registered artifact is overwritten, every path found is registered, a new one under its kind and an id made from its own base, and paths stay unique |
| FreshIds.ArtifactIdForPath | schemas/target.py:305-317 | answers the one artifact that matches path and kind, and fails exactly when none or several do |
| FreshIds.RegisteredIsFound | schemas/target.py:305-317 | where paths are unique the lookup of a registered path succeeds, under a kind exactly when registered under it |
| Benchmark.MatchReports | evaluation/runner.py:75-87 | pairs each expected finding with the last report of its id, or, when no report has that id, with the last of its fingerprint, and leaves out exactly those with neither |
| Benchmark.ReportForBelongs | evaluation/runner.py:69-84 | the lookup answers that report, and none exactly when no report has the id or the fingerprint |
| Benchmark.Round4IsNear | evaluation/runner.py:237-238 | rounding to four places moves a value by at most 1/20000 |
| Benchmark.TargetSharesHold | evaluation/runner.py:69-174 | coverage, accuracies, precision and recall of a target lie in [0, 1] for every dataset and report set |
| Benchmark.PrecisionAndRecall | evaluation/runner.py:89-104 | precision is the share of vulnerable findings among the pairs whose report confirms, recall the share of vulnerable findings that a report confirms |
| Benchmark.AccuraciesAre | evaluation/runner.py:105-128 | each accuracy is the share of pairs that agree among those that state the field, texts compared without case |
| Benchmark.TotalsAre | evaluation/runner.py:130-150 | the totals, the coverage and the average of a target, from its findings and reports |
| Benchmark.OneMoreAggregated | evaluation/runner.py:177-190 | one more target adds each of its counts to the aggregate's own |
| Benchmark.AggregateRatiosAre | evaluation/runner.py:192-229 | the ratios of the aggregate are those of its counts, not averages of the targets' ratios |
| Benchmark.Round4IsNearestEven | evaluation/runner.py:237-238 | rounding takes the nearest ten-thousandth, and of two equally near the even one |
| Benchmark.AggregateSharesHold | evaluation/runner.py:177-229 | so do those of the aggregate of any targets whose parts do not exceed their wholes |
| Benchmark.BenchmarkSharesHold | evaluation/runner.py:69-229 | for every dataset and all report sets the ratios of each target and of the aggregate lie in [0, 1] |
| Benchmark.AverageIsNear | evaluation/runner.py:177-206 | the average recomputed from rounded averages is within 1/10000 of the true overall average |
| Benchmark.NoReportsNoAverage | evaluation/runner.py:237-238 | without any report the average is zero |
| StreamReader.ReadStream | executor/sandbox.py:89-109 | for every chunking exactly the first bytes up to the limit are kept, and the flag is set exactly when the stream was longer |

## Left out

- The routes, chat sessions and summaries, progress views and the front end of the API.
- The transport, prompts and failover of the language model; its replies are arbitrary values.
- Docker, subprocess, HTTP, file system and SQLite calls, except for what they come to.
- Redaction by regular expressions, JSON and YAML parsing, and the Python and React inspections.
- Scoring tables, gate classification and the rendering of reports.
- The free-text fields of plans, evidence and reports and their length limits, except the purpose and expectation of an action; a breach makes the node raise.
- How the candidates of a composed plan are listed; the plan may pick from any registered capabilities.
- The rule names the validators collect; the model reports the first broken check instead.
- How the readiness wait of a session polls; it ends well or with any error.
- The normalization of file paths before ownership is resolved, which both lookups share.
- The characters of component and artifact base names, and merging with a base profile's services.
- The `_closed` flag of the orchestrator: runs may be created until the scheduler refuses them.
- RunTheorems.RunningHoldsItsLease: states the promise while the scheduler accepts; RunStranding.RunningHeldExactly has the exact condition without that.
- RunTheorems.TerminalRowsNeverChange: covers the columns of the model's rows; started_at, finished_at and the error text are not among them.
- GitDiffReading.PrintedDiffReadsBack: does not cover quoted or spaced paths, because git prints those in another layout; GitDiffMarks.TextIsRead covers every text, and GitDiffPosing.SpacedPathIsMisread a path with a space.
- Benchmark.AverageIsNear: speaks of exact rationals, because the bound is about decimal places and not about binary floating point.
