/**
  What each request to the control plane leaves on the rows, column by column,
  when it is accepted and when it is refused; and what follows over whole runs
  for the people and results that the rows name.
 */
module RequestOutcomes {
  import opened Wrappers
  import opened ControlPlane
  import TaskLedger

  predicate Usable(s: State, agent: AgentId) {
    agent < |s.agents| && s.agents[agent] != Disabled
  }

  // ------------------------------------------------------------------ results

  /** Success is stored as success and failure as failure. */
  predicate Says(status: Status, result: TaskResult) {
    && (status == Succeeded <==> result.status == TaskLedger.Succeeded)
    && (status == Failed <==> result.status == TaskLedger.Failed)
  }

  /** The running task `id` ends with the result, its job alike, with one entry on the job's event's timeline. */
  predicate Finishes(s: State, id: TaskId, result: TaskResult, later: State)
    requires id < |s.tasks|
  {
    && |later.tasks| == |s.tasks| && later.tasks == s.tasks[id := later.tasks[id]]
    && var before, after := s.tasks[id], later.tasks[id];
    && after.agent == before.agent && after.job == before.job && after.key == before.key
    && after.createdAt == before.createdAt && after.expiresAt == before.expiresAt
    && Says(after.progress.status, result) && after.progress.outcome == Reported(result)
    && after.progress.startedAt == before.progress.startedAt && after.progress.completedAt == Some(s.now)
    && later.agents == s.agents && later.approvals == s.approvals && later.now == s.now
    && if before.job.None? then later.jobs == s.jobs && later.timeline == s.timeline
       else
         && before.job.value < |s.jobs|
         && var job := s.jobs[before.job.value];
         && later.jobs == s.jobs[before.job.value := job.(progress := after.progress)]
         && later.timeline == s.timeline
              + if job.event.None? then multiset{}
                else multiset{TimelineEntry(job.event.value, before.job.value, Completed(after.progress.status))}
  }

  /**
    A submission is accepted exactly from an enabled agent for its own task that
    runs or is done. A running task then ends with the reported status and
    result; a done one, and everything else, stays as it is.
   */
  lemma SubmissionOutcome(s: State, agent: AgentId, id: TaskId, result: TaskResult)
    requires Inv(s)
    ensures var own := id < |s.tasks| && s.tasks[id].agent == agent;
      var outcome := SubmitTaskResult(s, agent, id, result);
      if !Usable(s, agent) then outcome == Err(AgentUnauthorized)
      else if !own then outcome == Err(TaskMissing)
      else if s.tasks[id].progress.status == Running then outcome.Ok? && Finishes(s, id, result, outcome.value)
      else if s.tasks[id].progress.status in {Succeeded, Failed} then outcome == Ok(s)
      else outcome == Err(TaskConflict)
  {
  }

  lemma ReportedStatus(p: Progress)
    requires ProgressSound(p) && p.outcome.Reported?
    ensures Says(p.status, p.outcome.result)
  {
  }

  /**
    Over every run a task, and its job with it, is stored as succeeded exactly if
    the agent reported success for it, and as failed exactly if it reported failure.
   */
  lemma StoredStatusIsTheReported(now: Time, events: seq<Event>, t: TaskId)
    requires t < |Run(Empty(now), events).tasks|
    ensures var s := Run(Empty(now), events);
      var p := s.tasks[t].progress;
      && (p.status in {Succeeded, Failed} <==> p.outcome.Reported?)
      && (p.outcome.Reported? ==> Says(p.status, p.outcome.result))
      && (s.tasks[t].job.Some? ==> s.tasks[t].job.value < |s.jobs| && s.jobs[s.tasks[t].job.value].progress == p)
  {
    ReachableInv(now, events);
    var p := Run(Empty(now), events).tasks[t].progress;
    if p.outcome.Reported? {
      ReportedStatus(p);
    }
  }

  // ----------------------------------------------------------------- dispatch

  predicate Waits(task: Task, agent: AgentId, now: Time) {
    task.agent == agent && task.progress.status == Queued && now < task.expiresAt
  }

  /** The task is handed out: it and its job run from now on. */
  predicate Starts(s: State, id: TaskId, later: State)
    requires id < |s.tasks|
  {
    && |later.tasks| == |s.tasks| && later.tasks == s.tasks[id := later.tasks[id]]
    && var before, after := s.tasks[id], later.tasks[id];
    && after.agent == before.agent && after.job == before.job && after.key == before.key
    && after.createdAt == before.createdAt && after.expiresAt == before.expiresAt
    && after.progress.status == Running && after.progress.startedAt == Some(s.now)
    && after.progress.completedAt == before.progress.completedAt && after.progress.outcome == before.progress.outcome
    && later == s.(tasks := later.tasks, jobs := later.jobs)
    && if before.job.None? then later.jobs == s.jobs
       else
         && before.job.value < |s.jobs|
         && later.jobs == s.jobs[before.job.value := s.jobs[before.job.value].(progress := after.progress)]
  }

  lemma {:induction false} OldestAmong(s: State, agent: AgentId, n: nat) returns (pick: Option<TaskId>)
    requires n <= |s.tasks|
    ensures pick.None? ==> forall t :: 0 <= t < n ==> !Waits(s.tasks[t], agent, s.now)
    ensures pick.Some? ==>
      && pick.value < n && Waits(s.tasks[pick.value], agent, s.now)
      && forall t :: 0 <= t < n && Waits(s.tasks[t], agent, s.now) ==>
           s.tasks[pick.value].createdAt <= s.tasks[t].createdAt
    decreases n
  {
    pick := None;
    if n > 0 {
      pick := OldestAmong(s, agent, n - 1);
      if Waits(s.tasks[n - 1], agent, s.now)
         && (pick.None? || s.tasks[n - 1].createdAt < s.tasks[pick.value].createdAt)
      {
        pick := Some(n - 1);
      }
    }
  }

  /**
    The dispatch query always has an answer: none exactly when no queued,
    unexpired task of the agent waits, otherwise one of those created first.
   */
  lemma DispatchPicksTheOldest(s: State, agent: AgentId) returns (pick: Option<TaskId>)
    ensures IsOldestReady(s, agent, pick)
    ensures forall any: Option<TaskId> :: IsOldestReady(s, agent, any) ==>
      && (any.None? <==> forall t :: 0 <= t < |s.tasks| ==> !Waits(s.tasks[t], agent, s.now))
      && (any.Some? ==>
            && any.value < |s.tasks| && Waits(s.tasks[any.value], agent, s.now)
            && forall t :: 0 <= t < |s.tasks| && Waits(s.tasks[t], agent, s.now) ==>
                 s.tasks[any.value].createdAt <= s.tasks[t].createdAt)
  {
    pick := OldestAmong(s, agent, |s.tasks|);
    assert forall t :: 0 <= t < |s.tasks| ==> (Ready(s.tasks[t], agent, s.now) <==> Waits(s.tasks[t], agent, s.now));
  }

  /** A poll is refused exactly for an unknown or disabled agent; otherwise the picked task, if any, starts. */
  lemma PollOutcome(s: State, agent: AgentId, pick: Option<TaskId>)
    requires Inv(s) && IsOldestReady(s, agent, pick)
    ensures var outcome := NextTask(s, agent, pick);
      if !Usable(s, agent) then outcome == Err(AgentUnauthorized)
      else if pick.None? then outcome == Ok(s)
      else outcome.Ok? && Starts(s, pick.value, outcome.value)
  {
  }

  // ------------------------------------------------------------ tasks by hand

  predicate Untouched(p: Progress, status: Status) {
    p.status == status && p.startedAt.None? && p.completedAt.None? && p.outcome == NoOutcome
  }

  /** A request with a new key adds one queued task for an online agent that can run it, and nothing else. */
  lemma TaskRequestOutcome(s: State, r: TaskRequest)
    ensures var outcome := CreateTask(s, r);
      if exists t :: 0 <= t < |s.tasks| && s.tasks[t].key == r.key then outcome == Ok(s)
      else if r.agent >= |s.agents| || s.agents[r.agent] != Online then outcome == Err(AgentOffline)
      else if !r.capable then outcome == Err(ActionNotCapable)
      else
        && outcome.Ok?
        && var later := outcome.value;
        && |later.tasks| == |s.tasks| + 1 && later == s.(tasks := s.tasks + [later.tasks[|s.tasks|]])
        && var task := later.tasks[|s.tasks|];
        && task.agent == r.agent && task.job.None? && task.key == r.key && Untouched(task.progress, Queued)
        && task.createdAt == s.now && task.expiresAt == s.now + r.expiresInSeconds
  {
  }

  // ------------------------------------------------------------- job requests

  /** The checks of a new job request in their order, by the error each one raises. */
  const JOB_CHECKS: seq<Error> :=
    [RunbookMissing, RunbookVersionChanged, VersionMissing, DestructiveForbidden, PermissionMissing, InputsInvalid,
     AssetOutOfScope, AssetTypeRefused, AgentOffline, ActionNotCapable, EventOutOfScope, OutsideMaintenance]

  /** The condition that a check demands. */
  predicate Passes(s: State, r: JobRequest, check: Error) {
    match check
    case RunbookMissing => r.runbook.Some?
    case RunbookVersionChanged => r.runbook.Some? ==> r.runbook.value.currentVersion == r.requestedVersion
    case VersionMissing => r.version.Some?
    case DestructiveForbidden => r.version.Some? ==> r.version.value.risk != R4
    case PermissionMissing => r.permitted
    case InputsInvalid => r.inputsValid
    case AssetOutOfScope => r.assetInProject
    case AssetTypeRefused => r.assetTypeAllowed
    case AgentOffline => r.agent.Some? && r.agent.value < |s.agents| && s.agents[r.agent.value] == Online
    case ActionNotCapable => r.capable
    case EventOutOfScope => r.eventInScope
    case OutsideMaintenance => r.maintenanceAllowed
    case _ => true
  }

  predicate Known(s: State, r: JobRequest) {
    exists j :: 0 <= j < |s.jobs| && s.jobs[j].key == r.key
  }

  lemma FirstFailing(s: State, r: JobRequest, k: nat)
    requires k < |JOB_CHECKS|
    requires !Passes(s, r, JOB_CHECKS[k]) && forall i :: 0 <= i < k ==> Passes(s, r, JOB_CHECKS[i])
    ensures RequestError(s, r) == Some(JOB_CHECKS[k])
  {
    assert k > 0 ==> Passes(s, r, JOB_CHECKS[0]);
    assert k > 1 ==> Passes(s, r, JOB_CHECKS[1]);
    assert k > 2 ==> Passes(s, r, JOB_CHECKS[2]);
    assert k > 3 ==> Passes(s, r, JOB_CHECKS[3]);
    assert k > 4 ==> Passes(s, r, JOB_CHECKS[4]);
    assert k > 5 ==> Passes(s, r, JOB_CHECKS[5]);
    assert k > 6 ==> Passes(s, r, JOB_CHECKS[6]);
    assert k > 7 ==> Passes(s, r, JOB_CHECKS[7]);
    assert k > 8 ==> Passes(s, r, JOB_CHECKS[8]);
    assert k > 9 ==> Passes(s, r, JOB_CHECKS[9]);
    assert k > 10 ==> Passes(s, r, JOB_CHECKS[10]);
  }

  /** A new request fails with the error of the first check that it does not pass. */
  lemma FirstFailingCheckIsTheError(s: State, r: JobRequest, k: nat)
    requires !Known(s, r) && k < |JOB_CHECKS|
    requires !Passes(s, r, JOB_CHECKS[k]) && forall i :: 0 <= i < k ==> Passes(s, r, JOB_CHECKS[i])
    ensures CreateAutomationJob(s, r) == Err(JOB_CHECKS[k])
  {
    FirstFailing(s, r, k);
  }

  predicate PassesAll(s: State, r: JobRequest) {
    && r.runbook.Some? && r.runbook.value.currentVersion == r.requestedVersion
    && r.version.Some? && r.version.value.risk != R4
    && r.permitted && r.inputsValid && r.assetInProject && r.assetTypeAllowed
    && r.agent.Some? && r.agent.value < |s.agents| && s.agents[r.agent.value] == Online && r.capable
    && r.eventInScope && r.maintenanceAllowed
  }

  predicate Risky(risk: Risk) {
    risk == R2 || risk == R3
  }

  /** The row of the new job: who asked for what, and where it stands. */
  predicate JobRowIs(job: Job, r: JobRequest)
    requires r.version.Some? && r.agent.Some?
  {
    && job.requestedBy == r.requester && job.key == r.key && job.event == r.event
    && job.agent == r.agent.value && job.risk == r.version.value.risk
    && Untouched(job.progress, if Risky(job.risk) then AwaitingApproval else Queued)
    && job.approvalStatus == if Risky(job.risk) then ApprovalPending else NotRequired
  }

  /** The approval request of a risky job: one approval is asked of others, within a day. */
  predicate ApprovalRowIs(approval: Approval, id: JobId, requester: UserId, now: Time) {
    && approval.job == id && approval.requester == requester && approval.status == ApprovalPending
    && approval.required == 1 && approval.expiresAt == now + 24 * 60 * 60
    && approval.resolvedAt.None? && approval.decisions == []
  }

  /** The task of a job that may run. */
  predicate TaskRowIs(task: Task, agent: AgentId, id: JobId, now: Time, timeout: nat) {
    && task.agent == agent && task.job == Some(id) && task.key == AutomationKey(id)
    && task.createdAt == now && task.expiresAt == now + timeout && Untouched(task.progress, Queued)
  }

  /** The request adds a job, and with it an approval request if it is risky, otherwise its task. */
  predicate AddsJob(s: State, r: JobRequest, later: State)
    requires r.version.Some? && r.agent.Some?
  {
    var id := |s.jobs|;
    && |later.jobs| == id + 1 && later.jobs == s.jobs + [later.jobs[id]] && JobRowIs(later.jobs[id], r)
    && later.agents == s.agents && later.now == s.now
    && later.timeline == s.timeline + (if r.event.None? then multiset{}
                                       else multiset{TimelineEntry(r.event.value, id, Requested)})
    && if Risky(r.version.value.risk) then
         && |later.approvals| == |s.approvals| + 1 && later.tasks == s.tasks
         && later.approvals == s.approvals + [later.approvals[|s.approvals|]]
         && ApprovalRowIs(later.approvals[|s.approvals|], id, r.requester, s.now)
       else
         && |later.tasks| == |s.tasks| + 1 && later.approvals == s.approvals
         && later.tasks == s.tasks + [later.tasks[|s.tasks|]]
         && TaskRowIs(later.tasks[|s.tasks|], r.agent.value, id, s.now, r.version.value.timeoutSeconds)
  }

  /** No task made by hand has taken the key of the next job's task. */
  predicate KeyIsFree(s: State, id: JobId) {
    forall t :: 0 <= t < |s.tasks| ==> s.tasks[t].key != AutomationKey(id)
  }

  /**
    A request with a known key changes nothing. A new one is accepted exactly
    when it passes every check and the key of its task, if it gets one at once, is
    free; then it adds its job with what the request says.
   */
  lemma JobRequestOutcome(s: State, r: JobRequest)
    requires Inv(s)
    ensures Known(s, r) ==> CreateAutomationJob(s, r) == Ok(s)
    ensures !Known(s, r) ==>
      var outcome := CreateAutomationJob(s, r);
      && (outcome.Ok?
          <==> PassesAll(s, r) && (Risky(r.version.value.risk) || KeyIsFree(s, |s.jobs|)))
      && (outcome.Ok? ==> AddsJob(s, r, outcome.value))
  {
    assert forall t :: 0 <= t < |s.tasks| ==> s.tasks[t].job != Some(|s.jobs|);
  }

  // ---------------------------------------------------------------- decisions

  /** The request is still open, and this user neither made it nor has decided it. */
  predicate MayDecide(s: State, id: ApprovalId, user: UserId) {
    && id < |s.approvals| && s.approvals[id].status == ApprovalPending && s.now < s.approvals[id].expiresAt
    && s.approvals[id].requester != user
    && forall i :: 0 <= i < |s.approvals[id].decisions| ==> s.approvals[id].decisions[i].approver != user
  }

  /** The decision is recorded and settles the request and its job, which gets its task if it was approved. */
  predicate Settles(s: State, id: ApprovalId, user: UserId, approved: bool, timeout: Option<nat>, later: State)
    requires id < |s.approvals| && (approved ==> timeout.Some?)
  {
    var j := s.approvals[id].job;
    var status := if approved then ApprovalGranted else ApprovalRejected;
    && j < |s.jobs|
    && later.approvals == s.approvals[id := s.approvals[id].(
                            status := status, resolvedAt := Some(s.now),
                            decisions := s.approvals[id].decisions + [Decision(user, approved, s.now)])]
    && later.jobs == s.jobs[j := s.jobs[j].(
                       progress := s.jobs[j].progress.(status := if approved then Queued else Rejected),
                       approvalStatus := status)]
    && later == s.(approvals := later.approvals, jobs := later.jobs, tasks := later.tasks)
    && if !approved then later.tasks == s.tasks
       else
         && |later.tasks| == |s.tasks| + 1 && later.tasks == s.tasks + [later.tasks[|s.tasks|]]
         && TaskRowIs(later.tasks[|s.tasks|], s.jobs[j].agent, j, s.now, timeout.value)
  }

  /**
    A decision is accepted exactly from someone who may decide, and for an
    approval only if the runbook version still exists and the key of the job's
    task is free; one decision settles the request, so the refusal of a second
    one by the same user can never be given.
   */
  lemma ApprovalOutcome(s: State, id: ApprovalId, user: UserId, approved: bool, timeout: Option<nat>)
    requires Inv(s)
    ensures var outcome := DecideApproval(s, id, user, approved, timeout);
      && (outcome.Ok?
          <==> MayDecide(s, id, user) && (approved ==> timeout.Some? && KeyIsFree(s, s.approvals[id].job)))
      && (outcome.Ok? ==> Settles(s, id, user, approved, timeout, outcome.value))
      && (outcome.Err? && id < |s.approvals| && s.approvals[id].status == ApprovalPending
          && s.now < s.approvals[id].expiresAt && s.approvals[id].requester == user ==>
            outcome.error == OwnApproval)
      && outcome != Err(AlreadyDecided)
  {
    if id < |s.approvals| && s.approvals[id].status == ApprovalPending {
      PendingApproval(s, id);
      NoTaskBeforeApproval(s, id);
      OneDecisionSettles(user, approved, s.now);
    }
    if DecideApproval(s, id, user, approved, timeout).Ok? {
      DecisionEffect(s, id, user, approved, timeout);
    }
  }

  lemma NoTaskBeforeApproval(s: State, id: ApprovalId)
    requires Inv(s) && id < |s.approvals| && s.approvals[id].status == ApprovalPending
    ensures forall t :: 0 <= t < |s.tasks| ==> s.tasks[t].job != Some(s.approvals[id].job)
  {
    var j := s.approvals[id].job;
    assert ApprovalStatusFollows(s.jobs[j]);
    assert !HasTask(s.tasks, j);
  }

  // ------------------------------------------------------------------- agents

  /** The agent's task was queued, and is canceled now because the agent is disabled. */
  predicate Cancels(before: Progress, after: Progress, now: Time) {
    && after.status == Canceled && after.completedAt == Some(now) && after.outcome == AgentDisabledOutcome
    && after.startedAt == before.startedAt
  }

  predicate QueuedTaskOf(task: Task, agent: AgentId) {
    task.agent == agent && task.progress.status == Queued
  }

  /** Exactly the agent's queued tasks, and the jobs that have one, are canceled; the agent is disabled. */
  predicate Disables(s: State, agent: AgentId, later: State)
    requires agent < |s.agents|
  {
    && later == s.(agents := s.agents[agent := Disabled], tasks := later.tasks, jobs := later.jobs)
    && |later.tasks| == |s.tasks| && |later.jobs| == |s.jobs|
    && (forall t :: 0 <= t < |s.tasks| ==>
          if QueuedTaskOf(s.tasks[t], agent)
          then later.tasks[t] == s.tasks[t].(progress := later.tasks[t].progress)
               && Cancels(s.tasks[t].progress, later.tasks[t].progress, s.now)
          else later.tasks[t] == s.tasks[t])
    && (forall j :: 0 <= j < |s.jobs| ==>
          if exists t :: 0 <= t < |s.tasks| && QueuedTaskOf(s.tasks[t], agent) && s.tasks[t].job == Some(j)
          then later.jobs[j] == s.jobs[j].(progress := later.jobs[j].progress)
               && Cancels(s.jobs[j].progress, later.jobs[j].progress, s.now)
          else later.jobs[j] == s.jobs[j])
  }

  /** A disable is refused exactly for an unknown agent and for one with a running task. */
  lemma DisableOutcome(s: State, agent: AgentId)
    requires Inv(s)
    ensures var outcome := DisableAgent(s, agent);
      if agent >= |s.agents| then outcome == Err(AgentMissing)
      else if s.agents[agent] == Disabled then outcome == Ok(s)
      else if exists t :: 0 <= t < |s.tasks| && s.tasks[t].agent == agent && s.tasks[t].progress.status == Running
        then outcome == Err(AgentBusy)
      else outcome.Ok? && Disables(s, agent, outcome.value)
  {
    forall j: JobId | j < |s.jobs|
      ensures HasQueuedTask(s.tasks, agent, j)
        <==> exists t :: 0 <= t < |s.tasks| && QueuedTaskOf(s.tasks[t], agent) && s.tasks[t].job == Some(j)
      ensures HasQueuedTask(s.tasks, agent, j) ==> s.jobs[j].progress.status == Queued
    {
      if HasQueuedTask(s.tasks, agent, j) {
        var t :| 0 <= t < |s.tasks| && QueuedFor(s.tasks[t], agent) && s.tasks[t].job == Some(j);
        assert QueuedTaskOf(s.tasks[t], agent);
      }
      if t :| 0 <= t < |s.tasks| && QueuedTaskOf(s.tasks[t], agent) && s.tasks[t].job == Some(j) {
        assert QueuedFor(s.tasks[t], agent);
      }
    }
  }

  /** A heartbeat brings any agent online that is not disabled; a new agent is only registered; time only passes. */
  lemma AgentAndClockOutcome(s: State, agent: AgentId, elapsed: nat)
    ensures Step(s, Heartbeat(agent)) == if Usable(s, agent) then s.(agents := s.agents[agent := Online]) else s
    ensures Step(s, Enroll) == s.(agents := s.agents + [Registered])
    ensures Step(s, Tick(elapsed)) == s.(now := s.now + elapsed)
  {
  }

  /** A disabled agent stays disabled, and none of its tasks ever changes again, a queued one included. */
  lemma {:induction false} DisabledAgentsTasksAreFrozen(s: State, events: seq<Event>, t: TaskId)
    requires t < |s.tasks| && s.tasks[t].agent < |s.agents| && s.agents[s.tasks[t].agent] == Disabled
    ensures var later := Run(s, events);
      && t < |later.tasks| && later.tasks[t] == s.tasks[t]
      && s.tasks[t].agent < |later.agents| && later.agents[s.tasks[t].agent] == Disabled
    decreases |events|
  {
    if events != [] {
      FrozenStep(s, events[0], t);
      DisabledAgentsTasksAreFrozen(Step(s, events[0]), events[1..], t);
    }
  }

  lemma FrozenStep(s: State, e: Event, t: TaskId)
    requires t < |s.tasks| && s.tasks[t].agent < |s.agents| && s.agents[s.tasks[t].agent] == Disabled
    ensures var later := Step(s, e);
      && t < |later.tasks| && later.tasks[t] == s.tasks[t]
      && s.tasks[t].agent < |later.agents| && later.agents[s.tasks[t].agent] == Disabled
  {
  }

  predicate ForDisabledAgent(s: State, j: JobId) {
    j < |s.jobs| && s.jobs[j].agent < |s.agents| && s.agents[s.jobs[j].agent] == Disabled
  }

  /**
    An approval does not look at the agent: given after the agent was disabled it
    queues the job and its task, and both stay queued for ever, since nobody can
    poll for the task and disabling the agent again does nothing.
   */
  lemma ApprovedForDisabledAgentIsStuck(now: Time, before: seq<Event>, id: ApprovalId, user: UserId, timeout: nat,
                                        after: seq<Event>)
    requires var s := Run(Empty(now), before);
      && MayDecide(s, id, user) && KeyIsFree(s, s.approvals[id].job)
      && ForDisabledAgent(s, s.approvals[id].job)
    ensures var s := Run(Empty(now), before);
      var later := Run(Step(s, ApprovalDecided(id, user, true, Some(timeout))), after);
      && |s.tasks| < |later.tasks| && later.tasks[|s.tasks|].job == Some(s.approvals[id].job)
      && later.tasks[|s.tasks|].progress.status == Queued
      && s.approvals[id].job < |later.jobs| && later.jobs[s.approvals[id].job].progress.status == Queued
  {
    var s := Run(Empty(now), before);
    var decided := Step(s, ApprovalDecided(id, user, true, Some(timeout)));
    ReachableInv(now, before);
    ApprovalOutcome(s, id, user, true, Some(timeout));
    StepKeepsInv(s, ApprovalDecided(id, user, true, Some(timeout)));
    DisabledAgentsTasksAreFrozen(decided, after, |s.tasks|);
    RunKeepsInv(decided, after);
    var later := Run(decided, after);
    assert TasksFollowJobs(|later.agents|, later.tasks, later.jobs);
  }

  // -------------------------------------------------------- who asked, who decides

  /** What a job and an approval request say about their making never changes. */
  lemma {:induction false} MakingIsFixed(s: State, events: seq<Event>, j: JobId, a: ApprovalId)
    ensures var later := Run(s, events);
      && |s.jobs| <= |later.jobs| && |s.approvals| <= |later.approvals|
      && (j < |s.jobs| ==>
            && later.jobs[j].requestedBy == s.jobs[j].requestedBy && later.jobs[j].key == s.jobs[j].key
            && later.jobs[j].risk == s.jobs[j].risk && later.jobs[j].agent == s.jobs[j].agent
            && later.jobs[j].event == s.jobs[j].event)
      && (a < |s.approvals| ==>
            && later.approvals[a].job == s.approvals[a].job
            && later.approvals[a].requester == s.approvals[a].requester
            && later.approvals[a].expiresAt == s.approvals[a].expiresAt)
    decreases |events|
  {
    if events != [] {
      StepKeepsMaking(s, events[0], j, a);
      MakingIsFixed(Step(s, events[0]), events[1..], j, a);
    }
  }

  lemma StepKeepsMaking(s: State, e: Event, j: JobId, a: ApprovalId)
    ensures var later := Step(s, e);
      && |s.jobs| <= |later.jobs| && |s.approvals| <= |later.approvals|
      && (j < |s.jobs| ==>
            && later.jobs[j].requestedBy == s.jobs[j].requestedBy && later.jobs[j].key == s.jobs[j].key
            && later.jobs[j].risk == s.jobs[j].risk && later.jobs[j].agent == s.jobs[j].agent
            && later.jobs[j].event == s.jobs[j].event)
      && (a < |s.approvals| ==>
            && later.approvals[a].job == s.approvals[a].job
            && later.approvals[a].requester == s.approvals[a].requester
            && later.approvals[a].expiresAt == s.approvals[a].expiresAt)
  {
  }

  /**
    Over every run: whoever made a request never decides on it. In whatever happens
    after a request has added its job, a decision of the same user on that job's
    approval request is refused, and none of theirs is ever recorded.
   */
  lemma RequesterNeverDecides(now: Time, before: seq<Event>, r: JobRequest, after: seq<Event>, a: ApprovalId,
                              approved: bool, timeout: Option<nat>)
    requires var s := Run(Empty(now), before); !Known(s, r) && CreateAutomationJob(s, r).Ok?
    ensures var s := Run(Empty(now), before);
      var later := Run(Step(s, JobCreated(r)), after);
      a < |later.approvals| && later.approvals[a].job == |s.jobs| ==>
        && DecideApproval(later, a, r.requester, approved, timeout).Err?
        && forall i :: 0 <= i < |later.approvals[a].decisions| ==>
             later.approvals[a].decisions[i].approver != r.requester
  {
    var s := Run(Empty(now), before);
    ReachableInv(now, before);
    JobRequestOutcome(s, r);
    StepKeepsInv(s, JobCreated(r));
    RunKeepsInv(Step(s, JobCreated(r)), after);
    MakingIsFixed(Step(s, JobCreated(r)), after, |s.jobs|, a);
    var later := Run(Step(s, JobCreated(r)), after);
    if a < |later.approvals| && later.approvals[a].job == |s.jobs| {
      assert later.approvals[a].requester == r.requester;
      assert DecisionsSound(later.approvals[a]);
    }
  }

  /**
    Over every run: a job requested at R2 or R3 is queued, running, finished or
    canceled only after someone other than the user who made that request has
    approved it within a day of the request.
   */
  lemma RiskyRequestNeedsAnother(now: Time, before: seq<Event>, r: JobRequest, after: seq<Event>)
    requires var s := Run(Empty(now), before);
      !Known(s, r) && CreateAutomationJob(s, r).Ok? && Risky(r.version.value.risk)
    ensures var s := Run(Empty(now), before);
      var later := Run(Step(s, JobCreated(r)), after);
      && |s.jobs| < |later.jobs|
      && (later.jobs[|s.jobs|].progress.status in {Queued, Running, Succeeded, Failed, Canceled} ==>
            exists a, i ::
              && 0 <= a < |later.approvals| && later.approvals[a].job == |s.jobs|
              && 0 <= i < |later.approvals[a].decisions|
              && var decision := later.approvals[a].decisions[i];
              decision.approved && decision.approver != r.requester && decision.at < s.now + 24 * 60 * 60)
  {
    var s := Run(Empty(now), before);
    ReachableInv(now, before);
    JobRequestOutcome(s, r);
    StepKeepsInv(s, JobCreated(r));
    RunKeepsInv(Step(s, JobCreated(r)), after);
    MakingIsFixed(Step(s, JobCreated(r)), after, |s.jobs|, |s.approvals|);
    var later := Run(Step(s, JobCreated(r)), after);
    if later.jobs[|s.jobs|].progress.status in {Queued, Running, Succeeded, Failed, Canceled} {
      assert ApprovalStatusFollows(later.jobs[|s.jobs|]);
      assert DecisionsSound(later.approvals[|s.approvals|]);
      assert later.approvals[|s.approvals|].decisions[0].approved;
    }
  }
}
