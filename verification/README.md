# AIOps-X: verified model of the control plane and the edge agent

This project models the stateful core of AIOps-X in Dafny and proves what its
parts promise together: the edge-agent control protocol between the Go agent and
the Python control plane, and the state machines and algorithms around it.

`dafny verify dfyconfig.toml` checks everything.

## What is modelled

| module | models |
|---|---|
| `AgentCertificates`, `AgentIdentity`, `RenewalProtocol` | certificate renewal: the agent's row on the control plane, the agent's file and memory, and both together over a lossy channel with crashes |
| `TaskLedger`, `TaskRedelivery`, `ControlPlane`, `RequestOutcomes`, `ControlPlaneService`, `TaskTimes` | tasks, the agent's result ledger, automation jobs and approvals: each side alone, when an action can run twice, what each request leaves on the rows, and the handlers that update them in place |
| `TaskExecution`, `TaskDurability`, `TaskProgress` | both sides together over an unordered channel, what becomes of a computed result, and how a task gets through |
| `AuditChain`, `AuditOutbox`, `OutboxDelivery` | the audit hash chain, its verification and its backfill; delivery of audit events through the outbox, and the retries of one event |
| `CorrelationKey` | the bounded component search behind incident correlation |
| `DiscoveryScheduler`, `DiscoveryReconciliation` | claiming and starting discovery runs; reconciling their observations with the candidate table |
| `LoginLockout`, `RefreshFamilies` | the lockout branches of the login; rotation and reuse detection of refresh tokens |
| `ChangeApproval`, `ChangeOutcomes` | a change request from draft to its end, and what each request leaves on its columns |

A module holds the operations as functions on a state, the steps and runs of the
state machine, the invariant every step keeps, and theorems about every run.
Where the program updates objects or rows in place, a class does the same, and
each of its methods is proved to do exactly what the function says. The agent's
task loop is proved to perform a run of its state machine.

## Assumptions

- A request (its authentication and its transaction) is one atomic step. A
  handler that raises leaves the rows as they were: the rollback of
  `session.begin()` is part of the model.
- Ids, serials and tokens drawn at random are distinct. Rows are named by their
  position in the order of insertion.
- There is one clock, which does not go back where a time is compared with a
  stored one: agent and control plane read the same clock. `DiscoveryScheduler`
  needs no assumption about the order of its times.
- The database keeps microseconds, a certificate whole seconds: an issued
  certificate expires up to a second before its row says so.
- The backfill reads its rows with decoded values, as the ORM does.
- A file is replaced by a rename, so a save that reports an error leaves the old
  file.
- Renewal requests are processed in the order they were sent; an abandoned one may
  still commit, but never after a later one. `OvertakenRequestStrandsAgent` shows
  that the promise fails without this. Task requests may be lost, repeated and
  reordered freely.
- Hashes are arbitrary functions: a theorem that needs more ends in "or two
  documents collide".
- The event stream keeps one message per row id, also when the worker publishes a
  row again because its acknowledgement was lost. NATS promises this within its
  duplicate window only, which the source leaves at its default, while a retry can
  wait up to 300 seconds.
- What a query selects is a parameter that satisfies the query's condition
  (`IsOldestReady`, `IsBatch`, `IsNextDue`); facts read from tables outside the
  model are part of the request.

## Findings

- In every chain of more than 200 assets the two ends get different correlation
  keys: the bound of 200 is exact (`KeysDifferBeyondBound`;
  apps/api/src/aiops_x_api/modules/cmdb/application.py:243).
- A renewal request overtaken by its own retry strands the agent. In whatever order
  the requests in flight are processed, the installed certificate is known to the
  control plane if and only if the awaited request is processed last
  (`KnownIffAwaitedServedLast`); after every enrollment one timeout reaches a state
  where it is not (`OvertakenRequestStrandsAgent`, `OneTimeoutCanStrand`;
  agents/edge-agent/internal/agent/client.go:266-300,
  apps/api/src/aiops_x_api/modules/agent_control/api.py:242-274).
- A computed result whose save failed stays in memory. It survives a crash exactly
  when the control plane has stored it by then, and is lost for ever exactly when
  besides no submission of it is in flight; its task then stays running
  (`ResultSurvivesIffSavedOrStored`, `LostIffNeverStored`;
  agents/edge-agent/internal/agent/client.go:402-409).
- An executed action can never run again exactly when its result was saved and its
  envelopes expire within seven days of the save, or they have expired already
  (`NeverRunsAgainIff`; agents/edge-agent/internal/agent/client.go:404-428). The
  control plane hands an envelope out once, which is why the whole system still
  executes once (`ActionOnceAndResultExact`).
- An approval does not look at the agent. Given after the agent was disabled it
  queues the job and its task for ever (`ApprovedForDisabledAgentIsStuck`;
  apps/api/src/aiops_x_api/modules/automation/api.py:491-526,
  apps/api/src/aiops_x_api/modules/agent_control/contracts.py:34-63).
- Of all rows that can be drawn from a valid audit chain exactly the prefixes
  verify, so deleting the newest entries, and nothing else, goes unnoticed
  (`OnlyPrefixesVerify`, `DeletionVerifiesIff`;
  apps/api/src/aiops_x_api/modules/audit/api.py:73-84).
- A blocked login leaves no audit entry: the handler writes one and then raises
  inside the transaction (`LockHolds`, `TrailCountsWhatWasChecked`;
  apps/api/src/aiops_x_api/modules/identity/api.py:145-158). The lock does not hold
  back a login through the identity provider.
- The revocations that `refresh` writes before it refuses an expired session, a
  wrong CSRF token or an inactive user are rolled back (`RefusalKeepsTheSession`;
  apps/api/src/aiops_x_api/modules/identity/api.py:254-263). Only the one for reuse
  persists.
- A logout with an older token of a family leaves the newest session alive
  (`LogoutEndsTheFamilyIff`; apps/api/src/aiops_x_api/modules/identity/api.py:313-328).
- An R3 change needs a configuration backup reference only when it is created. At
  the end of a run it still has one exactly when each accepted update that set an
  empty one was followed by one that set another (`R3BackupIsKeptIff`); without one
  it can be approved and started (`BackupCanBeLost`;
  apps/api/src/aiops_x_api/modules/change/schemas.py:58-77,
  apps/api/src/aiops_x_api/modules/change/api.py:246).
- A completed or rolled back change accepts its own status again and rewrites its
  time of completion and failure reason (`TerminalIsFinal`;
  apps/api/src/aiops_x_api/modules/change/application.py:40-42,
  apps/api/src/aiops_x_api/modules/change/api.py:440-443).
- Four checks cannot fail in any run: the dispatch conflict of
  `start_automation_job` and the missing job of `complete_automation_job`
  (`DispatchAndCompletionNeverConflict`;
  apps/api/src/aiops_x_api/modules/automation/contracts.py:75 and 97), the second
  decision of one user in `decide_approval`, because one decision settles every
  request (`ApprovalOutcome`;
  apps/api/src/aiops_x_api/modules/automation/api.py:464-471), and the missing
  approval in `change_status` (`StartIsNeverUnapproved`;
  apps/api/src/aiops_x_api/modules/change/api.py:427).

## Model

| member | source | states |
|---|---|---|
| AgentCertificates.AuthenticatesExactlyRecorded | apps/api/src/aiops_x_api/modules/agent_control/security.py:31-79 | For any row and any presented certificate: accepted exactly when the agent is enabled, neither the certificate nor the recorded expiry has passed, and the row holds its serial and fingerprint as current or, failing that, as previous; the principal says which of the two |
| AgentCertificates.RefusalNamesTheReason | apps/api/src/aiops_x_api/modules/agent_control/security.py:31-79 | A refusal is for an unknown serial exactly when the row does not know it, for a disabled agent exactly when it knows it, and otherwise for what it names |
| AgentCertificates.RenewalRefusalNamesTheReason | apps/api/src/aiops_x_api/modules/agent_control/api.py:232-258 | Every refusal of an accepted certificate's renewal carries the code of the check that failed |
| AgentCertificates.RenewalOutcome | apps/api/src/aiops_x_api/modules/agent_control/api.py:232-274 | One renewal request, whatever the order of its checks: answered exactly for the current certificate inside its window or the previous one repeating the recorded request; then the answer is current and the presented certificate previous; a refusal changes nothing |
| AgentCertificates.AgentRecord.constructor | apps/api/src/aiops_x_api/modules/agent_control/api.py:135-222 | Enrollment records the first certificate as current and no previous one |
| AgentCertificates.AgentRecord.RenewAgentCertificate | apps/api/src/aiops_x_api/modules/agent_control/api.py:235-274 | The handler's updates in place leave exactly the row and the answer of the renewal transaction, on every branch |
| AgentIdentity.CallLeavesDiskAndMemoryAgreeing | agents/edge-agent/internal/agent/client.go:245-325 | After any uninterrupted call, whatever failed, file and memory agree and the key fits the certificate; the certificate changes only when everything succeeded; a saved request is repeated until then |
| AgentIdentity.IdentityFile.Save | agents/edge-agent/internal/agent/client.go:593-609 | A save replaces the file or leaves it as it was |
| AgentIdentity.Client.constructor | agents/edge-agent/internal/agent/client.go:119-141 | A start takes identity and HTTP client from the saved file |
| AgentIdentity.Client.RenewCertificateIfNeeded | agents/edge-agent/internal/agent/client.go:245-325 | The method's assignments and saves end in the state of the step sequence, and it reports an error exactly when a due renewal was not installed or the certificate had expired |
| RenewalProtocol.SavedCertificateAlwaysKnown | agents/edge-agent/internal/agent/client.go:245-325 | In every reachable state of agent, control plane and lossy channel, with crashes between any two steps, the saved certificate is the current one, or the previous one with a saved request equal to the recorded one, and the saved key is its own |
| RenewalProtocol.StepKeepsInv | agents/edge-agent/internal/agent/client.go:245-325 | Every step of either side, the channel or a crash keeps the joint invariant |
| RenewalProtocol.RequestNeverUnknown | apps/api/src/aiops_x_api/modules/agent_control/api.py:242-258 | The next request to be processed is never refused as unknown or mismatched: only for a disabled agent, an expired certificate, or a current one outside the window, and exactly then; the answer certifies the saved key |
| RenewalProtocol.DeliveredReplyRestoresAgreement | agents/edge-agent/internal/agent/client.go:292-318 | One delivered, still valid reply makes file, memory and control plane agree on its certificate, whose key is the saved one |
| RenewalProtocol.DrainAnswersNewest | apps/api/src/aiops_x_api/modules/agent_control/api.py:242-274 | However many abandoned requests are in flight, processing them in order ends with an answer for the newest |
| RenewalProtocol.RenewalRecovers | agents/edge-agent/internal/agent/client.go:262-318 | From any such state with an enabled agent and a due, unexpired certificate, the next renewal succeeds and restores agreement |
| RenewalProtocol.RestartThenRenewalRecovers | agents/edge-agent/internal/agent/client.go:611-631 | The same after a crash at any point of a renewal |
| RenewalProtocol.EnrolledIsAgreed | apps/api/src/aiops_x_api/modules/agent_control/api.py:135-222 | An enrollment leaves agent and control plane on one certificate, with nothing on its way |
| RenewalProtocol.ClockAndStatusOutcome | apps/api/src/aiops_x_api/modules/agent_control/api.py:414-455 | A heartbeat is taken exactly from an enabled agent's current, unexpired certificate and brings it online; a disable and the clock change nothing else |
| RenewalProtocol.AgreedAgentComesOnline | apps/api/src/aiops_x_api/modules/agent_control/api.py:414-455 | An agent that agrees with the control plane comes online with its next heartbeat unless it is disabled or its certificate expired |
| RenewalProtocol.DisableIsFinal | apps/api/src/aiops_x_api/modules/agent_control/api.py:232-242 | In every run after a disable the agent's row stays as it is and no request is answered |
| RenewalProtocol.CallIsARun | agents/edge-agent/internal/agent/client.go:245-325 | One uninterrupted call of the agent, with anything happening outside while it waits, is a run of the protocol, so the joint invariant holds around every call |
| RenewalProtocol.KnownIffAwaitedServedLast | apps/api/src/aiops_x_api/modules/agent_control/api.py:242-274 | With the requests in flight processed in any order, and the awaited reply installed at any point after its arrival: the installed certificate is known to the control plane if and only if the awaited request was processed last |
| RenewalProtocol.OvertakenRequestStrandsAgent | apps/api/src/aiops_x_api/modules/agent_control/api.py:242-274 | So the promise fails in every state with a retried request: after the newest is processed and installed, processing the oldest makes the installed certificate unknown, and the agent is refused |
| RenewalProtocol.RetryPutsTwoInFlight | agents/edge-agent/internal/agent/client.go:266-300 | Every due renewal that times out once and is retried is such a state |
| RenewalProtocol.OneTimeoutCanStrand | agents/edge-agent/internal/agent/client.go:266-300 | So it can happen after every enrollment, once the first certificate is due |
| TaskLedger.AtMostOneUnsentResult | agents/edge-agent/internal/agent/client.go:345-435 | In every run, also when saves fail, memory and file hold at most one unsent result, and the agent polls or executes only while memory holds none |
| TaskLedger.SavedResultNeverRunsAgain | agents/edge-agent/internal/agent/client.go:362-377 | Once a task's result is saved, no number of deliveries of its envelope, across restarts, runs its action again, if the envelope expires within seven days of the save |
| TaskRedelivery.NeverRunsAgainIff | agents/edge-agent/internal/agent/client.go:362-377 | From any state whose file has no trace of the executed task: no later events ever run its action again, if and only if its envelopes have expired, or the result was saved and they expire within seven days of the save |
| TaskRedelivery.UnsavedResultCanRunAgain | agents/edge-agent/internal/agent/client.go:404-409 | From every such state with a failed save, a crash and a delivery of an unexpired envelope run the action again |
| TaskRedelivery.OutlivingEnvelopeCanRunAgain | agents/edge-agent/internal/agent/client.go:424-428 | From every executed state with a saved result, an envelope that outlives the seven days runs the action again after another acknowledgement has pruned the entry |
| TaskRedelivery.EntryIsPruned | agents/edge-agent/internal/agent/client.go:727-733 | More than seven days after a completion, one acknowledgement of any other task removes the entry |
| TaskLedger.LedgerFile.Save | agents/edge-agent/internal/agent/client.go:709-725 | A save replaces the ledger file or leaves it as it was |
| TaskLedger.TaskAgent.constructor | agents/edge-agent/internal/agent/client.go:691-707 | A start takes the ledger from the saved file |
| TaskLedger.TaskAgent.PruneCompletedTasks | agents/edge-agent/internal/agent/client.go:727-733 | The deleting loop keeps exactly the entries not before the cutoff |
| TaskLedger.TaskAgent.QueueResult | agents/edge-agent/internal/agent/client.go:404-409 | The result is pending in memory in any case, and in the file when the save succeeds |
| TaskLedger.TaskAgent.CompleteTask | agents/edge-agent/internal/agent/client.go:424-428 | An acknowledged result leaves the pending ones, its task is completed at that time, older entries are pruned, and the file holds that ledger if the save succeeds |
| TaskLedger.TaskAgent.FlushPendingResults | agents/edge-agent/internal/agent/client.go:411-435 | The loop performs a run of the state machine; it succeeds exactly when every submission and save does, and then nothing is pending |
| TaskLedger.TaskAgent.RunAction | agents/edge-agent/internal/agent/client.go:369-398 | The result is a success with the disk usage if and only if the envelope is genuine and unexpired, names the registered action with one to eight absolute paths, and the query answered; otherwise a failure with the code of the first check that fails; the action runs exactly for such an envelope |
| TaskLedger.ResultFits | agents/edge-agent/internal/agent/client.go:369-398 | The checks in their order give exactly that result, whatever the envelope, the time and the query's answer |
| TaskLedger.TaskAgent.ExecuteTask | agents/edge-agent/internal/agent/client.go:362-402 | An execution performs a run of the state machine, and runs the action at most once, only for a verified, unexpired, registered task that is not completed |
| TaskLedger.TaskAgent.TaskLoop | agents/edge-agent/internal/agent/client.go:345-360 | One turn of the loop, whatever the network answers, is a run of the state machine from loop top to loop top |
| ControlPlane.JobTaskAndApprovalStayCoupled | apps/api/src/aiops_x_api/modules/automation/contracts.py:56-106 | In every reachable state a job has at most one task, which carries its status, times and result; a job has none exactly while it awaits approval or is rejected; it awaits approval exactly when its approval is pending, and is rejected exactly when its approval is |
| ControlPlane.DispatchAndCompletionNeverConflict | apps/api/src/aiops_x_api/modules/automation/contracts.py:69-106 | In every reachable state the conflict of starting a job and the missing job of completing one are unreachable |
| ControlPlane.DisableLeavesNoJobBehind | apps/api/src/aiops_x_api/modules/agent_control/api.py:357-385 | After a disable no task of the agent and no job that has one is queued or running |
| ControlPlane.RiskyJobsRunOnlyApproved | apps/api/src/aiops_x_api/modules/automation/api.py:441-530 | In every run no R4 job exists, and an R2 or R3 job leaves the approval stage only after someone other than its requester approved it before expiry and nobody rejected it |
| ControlPlane.FinishedIsFinal | apps/api/src/aiops_x_api/modules/agent_control/api.py:604-624 | No step changes a finished or canceled task or the progress of its job |
| ControlPlane.CompletionLoggedExactlyOnce | apps/api/src/aiops_x_api/modules/agent_control/api.py:624-662 | In every run a job's completion is on its event's timeline exactly once when it is done, and never before |
| ControlPlane.StepKeepsInv | apps/api/src/aiops_x_api/modules/agent_control/contracts.py:34-63 | Every request of agents, requesters and approvers keeps tasks, jobs, approvals and timeline coupled |
| RequestOutcomes.SubmissionOutcome | apps/api/src/aiops_x_api/modules/agent_control/api.py:604-662 | A submission is accepted exactly from an enabled agent for its own running or done task; a running task, its job and the timeline entry then carry success exactly for a reported success, with the result and the time, and nothing else changes |
| RequestOutcomes.StoredStatusIsTheReported | apps/api/src/aiops_x_api/modules/automation/contracts.py:95-106 | Over every run a task and its job are stored as succeeded exactly if success was reported, and as failed exactly if failure was |
| RequestOutcomes.DispatchPicksTheOldest | apps/api/src/aiops_x_api/modules/agent_control/api.py:535-545 | The dispatch query always has an answer, and every answer is an oldest queued, unexpired task of the agent, or none when there is none |
| RequestOutcomes.PollOutcome | apps/api/src/aiops_x_api/modules/agent_control/api.py:535-555 | A poll is refused exactly for an unknown or disabled agent; otherwise the picked task and its job run from now on |
| RequestOutcomes.TaskRequestOutcome | apps/api/src/aiops_x_api/modules/agent_control/api.py:475-510 | A task request with a new key adds one queued task, as asked, for an online and capable agent |
| RequestOutcomes.FirstFailingCheckIsTheError | apps/api/src/aiops_x_api/modules/automation/api.py:184-252 | A new job request fails with the error of the first check in the handler's order that it does not pass |
| RequestOutcomes.JobRequestOutcome | apps/api/src/aiops_x_api/modules/automation/api.py:172-312 | A new job request is accepted exactly when every check passes; the job row then names the requester, key, event, agent and risk of the request, and an R2 or R3 job gets an approval request of the same requester that ends after a day, any other its task |
| RequestOutcomes.ApprovalOutcome | apps/api/src/aiops_x_api/modules/automation/api.py:447-526 | A decision is accepted exactly while the request is open, from someone who neither made it nor decided it, and settles request and job, so nobody ever decides twice; an approval adds the task |
| RequestOutcomes.RequesterNeverDecides | apps/api/src/aiops_x_api/modules/automation/api.py:460-463 | Over every run no decision of the user who made a request is ever accepted or recorded for its job |
| RequestOutcomes.RiskyRequestNeedsAnother | apps/api/src/aiops_x_api/modules/automation/api.py:276-292 | Over every run a job requested at R2 or R3 leaves the approval stage only after someone other than the user who made that request approved it within a day |
| RequestOutcomes.DisableOutcome | apps/api/src/aiops_x_api/modules/agent_control/api.py:346-384 | A disable is refused exactly for an unknown agent or one with a running task; otherwise exactly its queued tasks and the jobs that have one are canceled |
| RequestOutcomes.AgentAndClockOutcome | apps/api/src/aiops_x_api/modules/agent_control/api.py:414-455 | A heartbeat brings exactly an agent that is not disabled online |
| RequestOutcomes.DisabledAgentsTasksAreFrozen | apps/api/src/aiops_x_api/modules/agent_control/api.py:346-384 | In every run a disabled agent stays disabled and none of its tasks ever changes again |
| RequestOutcomes.ApprovedForDisabledAgentIsStuck | apps/api/src/aiops_x_api/modules/automation/api.py:491-526 | An approval given after the agent was disabled is accepted, and leaves its job and the job's task queued in every later state |
| TaskTimes.StartedBeforeExpiry | apps/api/src/aiops_x_api/modules/agent_control/api.py:535-550 | In every run a task is started before its expiry and after its creation, and finished after its start; exactly running and finished tasks have a start, exactly finished and canceled ones an end |
| ControlPlaneService.Database.HandleNextTask | apps/api/src/aiops_x_api/modules/agent_control/api.py:535-555 | Updating task and job in place is the dispatch transaction; it keeps the tables coupled and fails for an unknown or disabled agent only, never with the conflict |
| ControlPlaneService.Database.HandleSubmitTaskResult | apps/api/src/aiops_x_api/modules/agent_control/api.py:604-662 | Updating task, job and timeline in place is the completion transaction: a running task and its job end with the status, result and time of the submission, a done one stays; the tables stay coupled and no job is missing |
| ControlPlaneService.Database.CancelQueuedTasks | apps/api/src/aiops_x_api/modules/agent_control/api.py:368-383 | The loop over the agent's queued tasks cancels exactly them and exactly their queued jobs |
| ControlPlaneService.Database.HandleDisableAgent | apps/api/src/aiops_x_api/modules/agent_control/api.py:346-384 | Checking for running tasks, canceling queued ones and disabling the agent, in place, is the disable transaction; it keeps the tables coupled and leaves no task of the agent, and no job that has one, queued or running |
| ControlPlaneService.Database.HandleCreateTask | apps/api/src/aiops_x_api/modules/agent_control/api.py:475-510 | A known key changes nothing; otherwise one queued task is added for an online, capable agent; the tables stay coupled |
| ControlPlaneService.Database.HandleCreateAutomationJob | apps/api/src/aiops_x_api/modules/automation/api.py:172-324 | Adding the job in place is the job transaction: a new request is accepted only if it passes every check, and adds the job, with the request's own requester on job and approval, and its task or approval request; the tables stay coupled |
| ControlPlaneService.Database.HandleDecideApproval | apps/api/src/aiops_x_api/modules/automation/api.py:449-526 | Recording a decision in place is the decision transaction: accepted only from someone who may decide, recorded with the user and the time, and settling the job, queued with its task or rejected without one; the job is never missing |
| ControlPlaneService.Database.GrantIfEnough | apps/api/src/aiops_x_api/modules/automation/api.py:491-526 | The job is queued with its task exactly when the approvals suffice, or nothing changes |
| TaskExecution.ActionOnceAndResultExact | agents/edge-agent/internal/agent/client.go:345-435 | Over every run of both sides with lost, repeated and late requests, failed saves and crashes: an action runs at most once; a computed result is that of executing an envelope the run delivered; a finished task holds exactly it, succeeded if and only if it is a success; and its job holds it too with one completion entry of that status |
| TaskExecution.ComputedResultsFit | agents/edge-agent/internal/agent/client.go:362-402 | Every result ever computed fits the envelope, the clock and the query's answer of one delivery in the run |
| TaskExecution.ComputedIsFinal | agents/edge-agent/internal/agent/client.go:362-402 | No step replaces a result the agent once computed for a task |
| TaskExecution.SubmissionsNeverConflict | apps/api/src/aiops_x_api/modules/agent_control/api.py:604-624 | No submission in flight, however late or often processed, meets a missing or conflicting row; only a disabled agent is refused |
| TaskExecution.CompletedTasksAreStored | agents/edge-agent/internal/agent/client.go:422-430 | A task id is in the completed part of the ledger only when the control plane has stored exactly the computed result |
| TaskProgress.NextTaskCanFinish | agents/edge-agent/internal/agent/client.go:345-435 | After any run, a task whose turn it is can be fetched, executed, stored and acknowledged in ten steps once the agent is at rest and enabled: its action runs once more, the control plane holds the usage as a success, and memory and file call it completed |
| TaskProgress.CreatedTaskIsNext | apps/api/src/aiops_x_api/modules/agent_control/api.py:475-545 | A task that a user creates for an online agent with nothing waiting is the next one |
| TaskProgress.ClocksAgree | agents/edge-agent/internal/agent/client.go:374-374 | In every run the two sides read one clock, so what is unexpired when handed out is unexpired when received at once |
| TaskDurability.SavedResultIsNeverLost | agents/edge-agent/internal/agent/client.go:404-435 | Once a result is saved, in every later state of every run it waits in memory and in the file, or the control plane has stored it |
| TaskDurability.PendingLeavesStoredOrByCrash | agents/edge-agent/internal/agent/client.go:411-435 | A result leaves the memory only when the control plane has stored it, or in a crash |
| TaskDurability.ResultSurvivesIffSaved | agents/edge-agent/internal/agent/client.go:404-409 | After a crash that comes right after the attempt to save, in every later state: the computed result is held or stored if and only if the save succeeded; if not it is nowhere and its task runs on |
| TaskDurability.ResultSurvivesIffSavedOrStored | agents/edge-agent/internal/agent/client.go:404-435 | After the first crash since the attempt to save, however late it comes: the result is still held if and only if the save succeeded or the control plane had stored it by then, and lost if and only if neither holds and no submission of it is in flight; both last for ever |
| TaskDurability.LostIffNeverStored | agents/edge-agent/internal/agent/client.go:345-435 | In every reachable state, a computed result is lost if and only if no continuation whatever stores it: as long as it is in memory, in the file, just computed or in flight, some continuation does |
| TaskDurability.EverySubmissionStores | apps/api/src/aiops_x_api/modules/agent_control/api.py:604-624 | In every run, processing any submission in flight leaves exactly the computed result stored; it is refused only when the result was stored already and the agent has been disabled since |
| TaskExecution.StepKeepsSound | apps/api/src/aiops_x_api/modules/agent_control/api.py:527-662 | Every step of agent, channel or control plane keeps rows, envelopes, ledger, memory and channel consistent |
| AuditChain.VerifyAuditIntegrity | apps/api/src/aiops_x_api/modules/audit/api.py:62-93 | The loop accepts exactly the valid chains, and otherwise reports the first row that breaks one |
| AuditChain.ChainsBind | apps/api/src/aiops_x_api/modules/audit/application.py:142-172 | Two lists that verify and end in the same hash are the same entries, or exhibit a collision or a preimage of the genesis value |
| AuditChain.TamperingDetected | apps/api/src/aiops_x_api/modules/audit/application.py:162-165 | Rows that keep the last hash of a valid chain verify if and only if they are that chain, unless the hash is broken |
| AuditChain.OnlyPrefixesVerify | apps/api/src/aiops_x_api/modules/audit/api.py:73-84 | Of all rows drawn from a valid chain, with any left out, repeated or reordered, exactly the prefixes verify, unless the hash is broken |
| AuditChain.DeletionVerifiesIff | apps/api/src/aiops_x_api/modules/audit/api.py:73-84 | Deleting a block of entries goes unnoticed if and only if it is empty or the newest ones, unless the hash is broken |
| AuditChain.BuiltChainSound | apps/api/src/aiops_x_api/modules/audit/application.py:39-80 | A chain built entry by entry verifies, keeps the contents and is numbered from 1 without gaps |
| AuditChain.AppendExtends | apps/api/src/aiops_x_api/modules/audit/application.py:27-80 | Appending through the row with the highest number extends exactly its partition's chain by the next link |
| AuditChain.AppendAllKeepsLogSound | apps/api/src/aiops_x_api/modules/audit/application.py:27-104 | Any interleaving of appends keeps every partition the chain built from its own contents |
| AuditChain.Backfill | migrations/versions/0011_audit_hash_chain.py:54-94 | The single loop with two dictionaries keeps the rows' contents and builds, for every partition, the chain folded over that partition alone |
| AuditChain.EveryPartitionVerifies | migrations/versions/0011_audit_hash_chain.py:54-94 | After the backfill and any later appends the rows of every partition, the platform's included, verify, are numbered 1..n, and hold exactly the contents written for it, in order; a tenant's are those the endpoint reads |
| AuditOutbox.EveryTenantEntryHasOneEvent | apps/api/src/aiops_x_api/modules/audit/application.py:104-138 | In every run each tenant entry has exactly one outbox row, a row marked published is in the stream, and every message is its row's |
| AuditOutbox.RunConserves | apps/worker/src/aiops_x_worker/tasks.py:537-567 | Along any run no entry or message is lost or altered, a row changes only in its delivery columns, and a published row not at all |
| AuditOutbox.CrashLeavesNoTrace | apps/worker/src/aiops_x_worker/tasks.py:537-567 | A batch that crashes after any number of messages and is published again, with any outcomes: rows are those of the second attempt alone, the stream has besides exactly the messages that had reached it before, none twice; if they reach it again it is as if the crash had not happened |
| AuditOutbox.StreamGains | apps/worker/src/aiops_x_worker/tasks.py:549-565 | A batch adds to the stream exactly the rows that reached it, acknowledged or not, each under its own id |
| AuditOutbox.BackoffBounds | apps/worker/src/aiops_x_worker/tasks.py:559-565 | The retry delay never shrinks and stays between 1 and 300 seconds: two to the power of the attempts up to the eighth, 300 from the ninth on |
| OutboxDelivery.MessagesTellTheirEntries | apps/api/src/aiops_x_api/modules/audit/application.py:104-138 | Over every run each message carries its row's id and tells of one tenant entry: its audit id, its action up to 160 characters, its creation time |
| OutboxDelivery.BatchTakesTheOldest | apps/worker/src/aiops_x_worker/tasks.py:537-548 | The batch query always has an answer; every answer is at most 100 different pending rows whose time has come, oldest first, and leaves one out only for 100 that are no newer |
| OutboxDelivery.NewEventIsDueAtOnce | apps/api/src/aiops_x_api/modules/audit/application.py:104-138 | A new event is pending and due from its entry's time on, until it is first attempted |
| OutboxDelivery.AttemptDecidesTheRow | apps/worker/src/aiops_x_worker/tasks.py:549-565 | After an attempt, until the next: an acknowledged row is published with its time and no error; any other is pending with the error's name and one more attempt, and due again exactly after 2, 4, ... 256, then 300 seconds |
| OutboxDelivery.AttemptsCountFailures | apps/worker/src/aiops_x_worker/tasks.py:559-565 | Over every run a row's attempts are its failed deliveries, and a batch lost in a crash counts for none |
| OutboxDelivery.PendingIsCounted | apps/worker/src/aiops_x_worker/tasks.py:566-573 | The gauge is the number of pending rows |
| AuditOutbox.Outbox.AppendEntry | apps/api/src/aiops_x_api/modules/audit/application.py:27-138 | Entry and outbox row are written together, the row only for a tenant entry |
| AuditOutbox.Outbox.DeliverRow | apps/worker/src/aiops_x_worker/tasks.py:549-565 | One row ends as its delivery says; after a lost acknowledgement the message is in the stream and the row is retried |
| AuditOutbox.Outbox.PublishPending | apps/worker/src/aiops_x_worker/tasks.py:537-576 | The loop delivers exactly the batch, counts it, and reports the rows still pending, fewer by those published; when the process dies in it, the rows are rolled back and the messages stay |
| CorrelationKey.BuildGraph | apps/api/src/aiops_x_api/modules/cmdb/application.py:237-240 | The adjacency dictionary holds exactly the undirected edges |
| CorrelationKey.VisitNeighbors | apps/api/src/aiops_x_api/modules/cmdb/application.py:245-248 | The inner loop adds exactly the neighbours of one asset and queues the new ones |
| CorrelationKey.SearchComponent | apps/api/src/aiops_x_api/modules/cmdb/application.py:241-248 | The search terminates inside the component and returns all of it up to and including 200 assets; a larger one is cut only after an asset's neighbours are complete |
| CorrelationKey.DependencyCorrelationKey | apps/api/src/aiops_x_api/modules/cmdb/application.py:199-252 | The key is that of the asset's connected component, for every component of at most 200 assets, and the asset's own for a retired or unknown one |
| CorrelationKey.RetiredStandsAlone | apps/api/src/aiops_x_api/modules/cmdb/application.py:208-220 | An asset that is not live is its own component |
| CorrelationKey.AdjacentIff | apps/api/src/aiops_x_api/modules/cmdb/application.py:221-240 | Two assets are adjacent if and only if both are live and a relation of one of the five types, without an expiry or with a later one, joins them in either direction |
| CorrelationKey.InertRowsChangeNoKey | apps/api/src/aiops_x_api/modules/cmdb/application.py:221-252 | Removing an expired relation, one of another type or one with an end that is not live changes no component and no key |
| CorrelationKey.JoinedAssetsShareTheirKey | apps/api/src/aiops_x_api/modules/cmdb/application.py:221-252 | A relation in force between two different live assets gives them one dependency key |
| CorrelationKey.KeyNamesComponent | apps/api/src/aiops_x_api/modules/cmdb/application.py:249-252 | Two assets get the same component key if and only if they are connected |
| CorrelationKey.KeysDifferBeyondBound | apps/api/src/aiops_x_api/modules/cmdb/application.py:243-252 | The bound is exact: in every chain of more than 200 assets the ends are connected and get different keys from every order of the search |
| DiscoveryScheduler.ClaimNeverRefused | apps/api/src/aiops_x_api/modules/discovery/application.py:71-86 | A claim never raises the errors of `start_run`, and starts the selected job unless it is running |
| DiscoveryScheduler.OneRunAtATime | apps/api/src/aiops_x_api/modules/discovery/application.py:89-121 | In every run no job has two running runs, and its counter is the number of runs it ever had |
| DiscoveryScheduler.SelectionsAreSpaced | apps/api/src/aiops_x_api/modules/discovery/application.py:77-79 | Two selections of a job, whatever happens in between, are at least its interval apart |
| DiscoveryScheduler.WaitingIsBounded | apps/api/src/aiops_x_api/modules/discovery/application.py:58-79 | In every reachable state a due job with n jobs ahead is passed over by at most n claim calls, plus one for each job created no later than the instant it was due |
| DiscoveryScheduler.DueAgainAfterOneInterval | apps/api/src/aiops_x_api/modules/discovery/application.py:78-78 | After a selection, whatever happens until the next, the job is due exactly from one interval later on |
| DiscoveryScheduler.ClaimPicksTheLongestWaiting | apps/api/src/aiops_x_api/modules/discovery/application.py:58-70 | The claim query has exactly one answer: the enabled, scheduled job with the earliest next run time that has come, ties broken by id, or none if there is none |
| DiscoveryScheduler.StartIsRefusedIff | apps/api/src/aiops_x_api/modules/discovery/application.py:96-107 | A start is refused exactly for a missing, disabled or running job, each with its own code |
| DiscoveryScheduler.JobReportsItsHistory | apps/api/src/aiops_x_api/modules/discovery/application.py:113-120 | Over every run a job's counter, times, status and error code are those of its starts, last start, last end and last activity |
| DiscoveryScheduler.RunIsAddedIff | apps/api/src/aiops_x_api/modules/discovery/application.py:108-118 | A run is added exactly for a start, as running since then |
| DiscoveryScheduler.RunRowSaysHowItEnded | apps/api/src/aiops_x_api/modules/discovery/application.py:219-250 | Only its end changes a run's row, which then says when and how it ended |
| DiscoveryScheduler.NewJobIsDueIff | apps/api/src/aiops_x_api/modules/discovery/api.py:108-114 | A new job has never run and is due from its creation on exactly if enabled and scheduled, with an interval of five minutes to a day |
| DiscoveryScheduler.Scheduler.AddJob | apps/api/src/aiops_x_api/modules/discovery/api.py:108-114 | A new job is due at once exactly when it is enabled and scheduled |
| DiscoveryScheduler.Scheduler.StartJobRun | apps/api/src/aiops_x_api/modules/discovery/application.py:89-121 | A run is added and the job marked running, or the error leaves both as they were |
| DiscoveryScheduler.Scheduler.ClaimScheduledRun | apps/api/src/aiops_x_api/modules/discovery/application.py:55-86 | The selected job is rescheduled in any case; a run is returned exactly when it was not running |
| DiscoveryScheduler.Scheduler.FinishRun | apps/api/src/aiops_x_api/modules/discovery/application.py:219-250 | Completing or failing a run updates it and its own job only |
| DiscoveryReconciliation.PendingIsWhatWasSeen | apps/api/src/aiops_x_api/modules/discovery/application.py:148-218 | After a completion the job's pending candidates are exactly what the run saw and nobody had confirmed; confirmed ones stay confirmed with their review |
| DiscoveryReconciliation.SeenIsUpToDateAndTheRestIsKept | apps/api/src/aiops_x_api/modules/discovery/application.py:151-218 | A seen candidate carries the ports, match, run and time of its last observation and keeps its first-seen time; an unseen one keeps everything but becomes stale if it was this job's pending one |
| DiscoveryReconciliation.MatchTellsHowManyHoldTheAddress | apps/api/src/aiops_x_api/modules/discovery/application.py:161-190 | After a completion a seen candidate is matched uniquely exactly if one asset holds its address, which it names, ambiguously exactly if several do, and not at all exactly if none does |
| DiscoveryReconciliation.GoesStaleIff | apps/api/src/aiops_x_api/modules/discovery/application.py:206-218 | An unseen candidate goes stale exactly if it awaited review in the run's project for the run's job, and keeps everything else |
| DiscoveryReconciliation.ConfirmationOutcome | apps/api/src/aiops_x_api/modules/discovery/application.py:253-311 | A confirmation succeeds exactly for a candidate not yet confirmed and an acceptable asset; the candidate is then confirmed under the review and matched to that asset, and nothing else changes |
| DiscoveryReconciliation.CreatedAssetIsAsAsked | apps/api/src/aiops_x_api/modules/discovery/application.py:283-304 | A created asset has the fields asked for, the candidate's project, address and host name, and its origin |
| DiscoveryReconciliation.RejectionOutcome | apps/api/src/aiops_x_api/modules/discovery/application.py:314-323 | A rejection succeeds exactly for a candidate not confirmed, records the review, and is undone exactly if a later run sees the candidate |
| DiscoveryReconciliation.LoopsReconcile | apps/api/src/aiops_x_api/modules/discovery/application.py:151-218 | The loop over observations, with repeated addresses, followed by the loop over pending rows is one declarative map update |
| DiscoveryReconciliation.SightsOfKey | apps/api/src/aiops_x_api/modules/discovery/application.py:151-204 | Whatever the observations repeat, a key ends as its first and its last sight say |
| DiscoveryReconciliation.OneCandidatePerAddress | apps/api/src/aiops_x_api/modules/discovery/application.py:170-188 | In every run an address has at most one candidate in its project; a candidate has a review exactly when confirmed or rejected, and its evidence is that of the last run that saw it |
| DiscoveryReconciliation.ObservedAddressHasItsCandidate | apps/api/src/aiops_x_api/modules/discovery/application.py:326-328 | An observed address then has a pending or confirmed candidate with that address, or two addresses collide |
| DiscoveryReconciliation.ConfirmedIsForever | apps/api/src/aiops_x_api/modules/discovery/application.py:253-323 | In every run a confirmed candidate stays confirmed by the same user, and no candidate disappears or changes address |
| DiscoveryReconciliation.CandidateTable.RecordSights | apps/api/src/aiops_x_api/modules/discovery/application.py:148-204 | The first loop leaves the table as the sights in order make it, with the set of seen fingerprints and the count |
| DiscoveryReconciliation.CandidateTable.MarkUnseen | apps/api/src/aiops_x_api/modules/discovery/application.py:206-218 | The second loop makes exactly the unseen ones among the job's pending candidates stale |
| DiscoveryReconciliation.CandidateTable.CompleteRun | apps/api/src/aiops_x_api/modules/discovery/application.py:141-227 | The whole completion is the map update, and the run row counts every observation |
| DiscoveryReconciliation.ChosenAssetHoldsTheAddress | apps/api/src/aiops_x_api/modules/discovery/application.py:271-304 | The linked or created asset lies in the candidate's project and holds its address, so it could be linked again |
| DiscoveryReconciliation.CandidateTable.ConfirmCandidate | apps/api/src/aiops_x_api/modules/discovery/application.py:253-311 | A confirmation returns the linked asset or the created one with its fields and origin, and records it with the reviewing user, or names the first failing check and changes nothing |
| DiscoveryReconciliation.CandidateTable.RejectCandidate | apps/api/src/aiops_x_api/modules/discovery/application.py:314-323 | Only a candidate that is not confirmed is rejected |
| LoginLockout.FailuresAreBounded | apps/api/src/aiops_x_api/modules/identity/api.py:145-178 | From any state of the user, the failures checked in any run are at most M for every success, M more, and one for every lock period passed |
| LoginLockout.CreditPaysForFailures | apps/api/src/aiops_x_api/modules/identity/api.py:159-162 | Every failure checked costs a lock period of what the state still allows |
| LoginLockout.BoundIsTight | apps/api/src/aiops_x_api/modules/identity/api.py:159-162 | The bound is met for every number of lock periods: an expired lock buys one attempt, not M |
| LoginLockout.LockHolds | apps/api/src/aiops_x_api/modules/identity/api.py:145-158 | While a lock lasts no password login succeeds, is checked, or changes counter, lock or audit trail |
| LoginLockout.SuccessStartsAfresh | apps/api/src/aiops_x_api/modules/identity/api.py:173-178 | A password login succeeds exactly for an active, unlocked user with the right password; it is recorded, and nothing is blocked after it until M further failures have been checked |
| LoginLockout.SwitchedOffNeverLogsIn | apps/api/src/aiops_x_api/modules/identity/api.py:159-159 | A user who was switched off does not log in, whatever is tried, until switched on again |
| LoginLockout.TrailCountsWhatWasChecked | apps/api/src/aiops_x_api/modules/identity/api.py:145-200 | The audit trail gains one entry for each failure checked and each success, and none for a blocked attempt |
| LoginLockout.UserRow.SignIn | apps/api/src/aiops_x_api/modules/identity/api.py:145-178 | The branches' updates in place leave exactly the user and the outcome of the login transaction |
| RefreshFamilies.AtMostOneLiveSession | apps/api/src/aiops_x_api/modules/identity/api.py:228-275 | In every run a family has at most one unrevoked session, its newest, and belongs to one user |
| RefreshFamilies.OnlyTheNewestRotates | apps/api/src/aiops_x_api/modules/identity/api.py:234-275 | A token is exchanged exactly when it is unrevoked and newest in its family, unexpired, with the right CSRF token and an active user; the new session is then the only live one of the family |
| RefreshFamilies.IssuedTokenRotatesIff | apps/api/src/aiops_x_api/modules/identity/api.py:224-275 | Whatever happened since it was issued by a login or an exchange: a token is exchanged exactly with the CSRF token issued with it, for an active user, before its time to live is over, and unless revoked |
| RefreshFamilies.RevocationsAreStamped | apps/api/src/aiops_x_api/modules/identity/api.py:234-260 | Every revocation carries the time of the request that made it |
| RefreshFamilies.ReuseEndsTheFamily | apps/api/src/aiops_x_api/modules/identity/api.py:234-256 | Once an exchanged token is presented again, no token of its family is exchanged in any later run |
| RefreshFamilies.RefusalKeepsTheSession | apps/api/src/aiops_x_api/modules/identity/api.py:254-263 | After a refusal a known token is revoked if and only if it was before; a refusal of an unrevoked token changes nothing at all, and the token is still good for a correct request |
| RefreshFamilies.LogoutEndsTheFamilyIff | apps/api/src/aiops_x_api/modules/identity/api.py:313-328 | A logout ends the family exactly when no newer session of it is live |
| RefreshFamilies.LogoutRevokesIff | apps/api/src/aiops_x_api/modules/identity/api.py:311-328 | A logout revokes exactly the presented session, and only if it is the user's own and the CSRF token is right; it is refused exactly for a wrong CSRF token |
| RefreshFamilies.SessionTable.OpenSession | apps/api/src/aiops_x_api/modules/identity/api.py:178-190 | A login opens a family of its own |
| RefreshFamilies.SessionTable.RefreshSession | apps/api/src/aiops_x_api/modules/identity/api.py:224-275 | Writing and rolling back as the handler does is the refresh transaction |
| RefreshFamilies.SessionTable.EndSession | apps/api/src/aiops_x_api/modules/identity/api.py:311-328 | Only the user's own session with the right CSRF token is revoked |
| ChangeApproval.ApprovedMeansEnoughApprovals | apps/api/src/aiops_x_api/modules/change/api.py:342-380 | In every run a change at or after approval has exactly two approvals if it is R3 or has GxP impact, exactly one if it is R2 without it, and none otherwise, by different people other than its requester, and no rejection |
| ChangeApproval.SubmissionApprovesIff | apps/api/src/aiops_x_api/modules/change/application.py:32-37 | In every run a submission approves at once exactly a change of R0 or R1 without GxP impact |
| ChangeOutcomes.CreationOutcome | apps/api/src/aiops_x_api/modules/change/schemas.py:38-63 | A creation is accepted exactly for R0 to R3, a proper window and the plans and backup its risk demands; the draft holds what was asked for and the number of approvals its risk needs |
| ChangeOutcomes.UpdateOutcome | apps/api/src/aiops_x_api/modules/change/api.py:211-260 | An update is accepted exactly for a draft whose window stays proper, and sets exactly the fields it names |
| ChangeOutcomes.SubmissionOutcome | apps/api/src/aiops_x_api/modules/change/api.py:285-312 | In every run a submission is accepted exactly in draft, or again in the status it led to, with all plans under control, and records its times |
| ChangeOutcomes.DecisionOutcome | apps/api/src/aiops_x_api/modules/change/api.py:338-380 | In every run a decision is accepted exactly while approval is pending, from anyone but the requester, once each; it is recorded, and the last approval needed or any rejection settles the change |
| ChangeOutcomes.StatusOutcome | apps/api/src/aiops_x_api/modules/change/api.py:424-450 | In every run a status request is accepted exactly along the transition table or for the present status, with a reason where one is due and inside the window; it records reason and times |
| ChangeOutcomes.PhasesComeInOrder | apps/api/src/aiops_x_api/modules/change/application.py:13-25 | In every run no phase is skipped: in progress only after approval, validating only after that, completed only after that; failed or rolled back only after a start |
| ChangeApproval.ControlledRunsArePlannedAndInWindow | apps/api/src/aiops_x_api/modules/change/api.py:290-310 | In every run a controlled change outside draft and cancelled has all five plans, and any recorded start lies in its window |
| ChangeApproval.TimelineFollowsTheTable | apps/api/src/aiops_x_api/modules/change/application.py:13-25 | In every run the timeline is a path through the transition table from draft to the present status |
| ChangeApproval.StartIsNeverUnapproved | apps/api/src/aiops_x_api/modules/change/api.py:424-442 | A controlled change starts exactly from approved, scheduled or in progress inside its window; whenever the table allows a start it has been approved |
| ChangeApproval.TerminalIsFinal | apps/api/src/aiops_x_api/modules/change/application.py:21-48 | In every run a completed, rolled back, rejected or cancelled change changes exactly when its own status is requested again; then only completion time, failure reason and timeline do, and they are those of the last repetition |
| ChangeApproval.StepKeepsInv | apps/api/src/aiops_x_api/modules/change/application.py:32-48 | Every accepted or refused request keeps approvals, plans, times, window and timeline consistent with the status |
| ChangeApproval.BackupIsKeptIff | apps/api/src/aiops_x_api/modules/change/api.py:211-260 | Over every run a change that was created with a backup reference still has one if and only if each accepted update that set an empty one was followed by one that set another |
| ChangeApproval.R3BackupIsKeptIff | apps/api/src/aiops_x_api/modules/change/schemas.py:58-77 | Every created R3 change has a backup reference, and over every run it still has one if and only if each accepted update that set an empty one was followed by one that set another |
| ChangeApproval.BackupCanBeLost | apps/api/src/aiops_x_api/modules/change/schemas.py:58-77 | Every complete R3 draft can lose the backup reference its creation demanded, and still be approved and started |
| ChangeApproval.ChangeRow.constructor | apps/api/src/aiops_x_api/modules/change/api.py:89-141 | An accepted request becomes a draft as asked, with two approvals needed at R3 or with GxP impact, one at R2, else none |
| ChangeApproval.ChangeRow.UpdateFields | apps/api/src/aiops_x_api/modules/change/api.py:211-260 | A draft takes the fields that are set; a window that ends before it starts undoes them |
| ChangeApproval.ChangeRow.SubmitForApproval | apps/api/src/aiops_x_api/modules/change/api.py:285-310 | Submission is the transaction with its two refusals |
| ChangeApproval.ChangeRow.RecordDecision | apps/api/src/aiops_x_api/modules/change/api.py:338-380 | A decision is the transaction with its three refusals, and moves the change when it settles it |
| ChangeApproval.ChangeRow.MoveTo | apps/api/src/aiops_x_api/modules/change/api.py:423-450 | A status request is the transaction with its four refusals and its times |

## Left out

- X.509, RSA, PEM, TLS, task signatures, password hashes and JSON encoding: a certificate is its serial, key, expiry and fingerprint, a signature a yes or no; a certificate's not-before date is taken as past.
- HTTP, NATS, SQL, Celery, files and clocks: only the updates of rows, files and memory are modelled.
- Races between transactions below the level of one request, row locks and `skip_locked`.
- Liveness: a lost dispatch reply leaves a task running for ever, and that a result is delivered in the end is shown to be possible (`LostIffNeverStored`), not promised.
- Reading effective actor, metadata, request and trace ids in `append_audit`: they arrive as the entry's content.
- Enrollment tokens, heartbeats beyond the status they set, scope and permission checks, references to assets, incidents, evidence and jobs: they only refuse a request, and are part of it where the model needs them.
- RenewalProtocol.RequestNeverUnknown: an unconfigured certificate authority answers 503 to every request, which is not modelled.
- RenewalProtocol.RenewalRecovers: assumes that the agent's saves succeed and its request is answered; that it will ever be answered is not claimed.
- TaskExecution.ActionOnceAndResultExact: follows one agent in full; the others act on the control plane in any way its requests allow.
- TaskDurability.EverySubmissionStores: takes the agent's certificate as accepted; a request with an expired or replaced one is refused before it is processed and counts as lost.
- AuditOutbox.Outbox.PublishPending: the stream's seven-day retention is not modelled, and its duplicate window is taken as long enough; any other exception than a NATS error or a timeout is a crash.
- CorrelationKey.SearchComponent: above 200 assets it states what kind of set is returned, not which one, because that depends on the order of a Python set.
- LoginLockout.UserRow.SignIn: covers an existing user; an unknown user or tenant changes no row but the audit log.
- ChangeApproval.ChangeRow.MoveTo: the linked automation job and the text fields of a change are not modelled.
- Rate limiter, WORM archive, knowledge search, AI gateway, plugins, telemetry, metrics, the web application and the other migrations: thin wrappers or easy bounds.
