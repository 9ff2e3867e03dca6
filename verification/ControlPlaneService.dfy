/**
  The control plane's handlers as they update their rows in place. A failing
  handler rolls its transaction back: the rows are as before the request.
 */
module ControlPlaneService {
  import opened Wrappers
  import opened ControlPlane
  import O = RequestOutcomes

  function ErrorOf(outcome: Result<State, Error>): Option<Error> {
    if outcome.Ok? then None else Some(outcome.error)
  }

  /** Neither queued nor running. */
  predicate Settled(status: Status) {
    status == Canceled || Done(status)
  }

  /**
    The tables. Every handler keeps them coupled; the errors that only coupled
    tables rule out are absent from what it returns.
   */
  class Database {
    var agents: seq<AgentStatus>
    var tasks: seq<Task>
    var jobs: seq<Job>
    var approvals: seq<Approval>
    var timeline: multiset<TimelineEntry>

    constructor ()
      ensures Valid()
      ensures forall now :: Rows(now) == Empty(now)
    {
      agents, tasks, jobs, approvals, timeline := [], [], [], [], multiset{};
      new;
      EmptyInv(0);
    }

    function Rows(now: Time): State
      reads this
    {
      State(now, agents, tasks, jobs, approvals, timeline)
    }

    /** Tasks, jobs, approvals and timeline are coupled; the invariant does not depend on the clock. */
    ghost predicate Valid()
      reads this
    {
      Inv(Rows(0))
    }

    method StartJob(job: JobId, now: Time) returns (error: Option<Error>)
      modifies this`jobs
      ensures var outcome := StartAutomationJob(old(jobs), job, now);
        jobs == (if outcome.Ok? then outcome.value else old(jobs)) && (error.None? <==> outcome.Ok?)
          && (error.Some? ==> error == Some(outcome.error))
    {
      if job >= |jobs| || jobs[job].progress.status != Queued {
        return Some(JobConflict);
      }
      var progress := jobs[job].progress;
      progress := progress.(status := Running);
      progress := progress.(startedAt := Some(now));
      jobs := jobs[job := jobs[job].(progress := progress)];
      return None;
    }

    method CompleteJob(job: JobId, startedAt: Option<Time>, now: Time, result: TaskResult)
      returns (error: Option<Error>)
      modifies this`jobs
      ensures var outcome := CompleteAutomationJob(old(jobs), job, startedAt, now, result);
        jobs == (if outcome.Ok? then outcome.value else old(jobs)) && (error.None? <==> outcome.Ok?)
          && (error.Some? ==> error == Some(outcome.error))
    {
      if job >= |jobs| {
        return Some(JobMissing);
      }
      var progress := jobs[job].progress;
      progress := progress.(status := StatusOf(result));
      progress := progress.(startedAt := startedAt);
      progress := progress.(completedAt := Some(now));
      progress := progress.(outcome := Reported(result));
      jobs := jobs[job := jobs[job].(progress := progress)];
      return None;
    }

    method CancelQueuedJob(job: JobId, now: Time)
      modifies this`jobs
      ensures jobs == CancelQueuedAutomationJob(old(jobs), job, now)
    {
      if job < |jobs| && jobs[job].progress.status == Queued {
        var progress := jobs[job].progress;
        progress := progress.(status := Canceled);
        progress := progress.(completedAt := Some(now));
        progress := progress.(outcome := AgentDisabledOutcome);
        jobs := jobs[job := jobs[job].(progress := progress)];
      }
    }

    method Enqueue(agent: AgentId, job: JobId, now: Time, timeoutSeconds: nat) returns (error: Option<Error>)
      modifies this`tasks
      ensures var outcome := EnqueueAutomationTask(old(tasks), agent, job, now, timeoutSeconds);
        tasks == (if outcome.Ok? then outcome.value else old(tasks)) && (error.None? <==> outcome.Ok?)
          && (error.Some? ==> error == Some(outcome.error))
    {
      if exists t :: 0 <= t < |tasks| && (tasks[t].key == AutomationKey(job) || tasks[t].job == Some(job)) {
        return Some(UniqueViolation);
      }
      tasks := tasks + [Task(agent, Some(job), AutomationKey(job), now, now + timeoutSeconds, FRESH)];
      return None;
    }

    /** The dispatch transaction, for any tables: a refused start undoes the task. */
    method DispatchTask(agent: AgentId, pick: Option<TaskId>, now: Time) returns (error: Option<Error>)
      requires IsOldestReady(Rows(now), agent, pick)
      modifies this
      ensures Rows(now) == Committed(old(Rows(now)), NextTask(old(Rows(now)), agent, pick))
      ensures error == ErrorOf(NextTask(old(Rows(now)), agent, pick))
    {
      if agent >= |agents| || agents[agent] == Disabled {
        return Some(AgentUnauthorized);
      }
      if pick.None? {
        return None;
      }
      var id := pick.value;
      var before := tasks;
      tasks := tasks[id := tasks[id].(progress := tasks[id].progress.(status := Running))];
      tasks := tasks[id := tasks[id].(progress := tasks[id].progress.(startedAt := Some(now)))];
      error := None;
      if tasks[id].job.Some? {
        error := StartJob(tasks[id].job.value, now);
        if error.Some? {
          tasks := before;
        }
      }
    }

    method HandleNextTask(agent: AgentId, pick: Option<TaskId>, now: Time) returns (error: Option<Error>)
      requires IsOldestReady(Rows(now), agent, pick)
      requires Valid()
      modifies this
      ensures Rows(now) == Committed(old(Rows(now)), NextTask(old(Rows(now)), agent, pick))
      ensures error == ErrorOf(NextTask(old(Rows(now)), agent, pick))
      ensures Valid()
      ensures error == if agent < |agents| && agents[agent] != Disabled then None else Some(AgentUnauthorized)
      ensures error.None? && pick.Some? ==> O.Starts(old(Rows(now)), pick.value, Rows(now))
    {
      ghost var before := Rows(now);
      error := DispatchTask(agent, pick, now);
      NextTaskKeepsInv(before, agent, pick);
      O.PollOutcome(before, agent, pick);
    }

    /** The completion transaction, for any tables. */
    method StoreResult(agent: AgentId, id: TaskId, result: TaskResult, now: Time) returns (error: Option<Error>)
      modifies this
      ensures Rows(now) == Committed(old(Rows(now)), SubmitTaskResult(old(Rows(now)), agent, id, result))
      ensures error == ErrorOf(SubmitTaskResult(old(Rows(now)), agent, id, result))
    {
      if agent >= |agents| || agents[agent] == Disabled {
        return Some(AgentUnauthorized);
      }
      if id >= |tasks| || tasks[id].agent != agent {
        return Some(TaskMissing);
      }
      if Done(tasks[id].progress.status) {
        return None;
      }
      if tasks[id].progress.status != Running {
        return Some(TaskConflict);
      }
      var before := tasks;
      var progress := tasks[id].progress;
      progress := progress.(status := StatusOf(result), outcome := Reported(result));
      progress := progress.(completedAt := Some(now));
      tasks := tasks[id := tasks[id].(progress := progress)];
      error := None;
      if tasks[id].job.Some? {
        var job := tasks[id].job.value;
        error := CompleteJob(job, progress.startedAt, now, result);
        if error.Some? {
          tasks := before;
        } else if jobs[job].event.Some? {
          timeline := timeline + multiset{TimelineEntry(jobs[job].event.value, job, Completed(StatusOf(result)))};
        }
      }
    }

    method HandleSubmitTaskResult(agent: AgentId, id: TaskId, result: TaskResult, now: Time)
      returns (error: Option<Error>)
      requires Valid()
      modifies this
      ensures Rows(now) == Committed(old(Rows(now)), SubmitTaskResult(old(Rows(now)), agent, id, result))
      ensures error == ErrorOf(SubmitTaskResult(old(Rows(now)), agent, id, result))
      ensures Valid()
      ensures error.Some? ==> error.value in {AgentUnauthorized, TaskMissing, TaskConflict}
      ensures error.None? ==> id < |old(tasks)| && old(tasks)[id].agent == agent
      ensures error.None? ==>
        if old(tasks)[id].progress.status == Running then O.Finishes(old(Rows(now)), id, result, Rows(now))
        else Rows(now) == old(Rows(now))
    {
      ghost var before := Rows(now);
      error := StoreResult(agent, id, result, now);
      SubmitKeepsInv(before, agent, id, result);
      O.SubmissionOutcome(before, agent, id, result);
    }

    /** The loop over the agent's queued tasks. */
    method CancelQueuedTasks(agent: AgentId, now: Time)
      modifies this`tasks, this`jobs
      ensures tasks == CanceledTasks(old(tasks), agent, now)
      ensures jobs == CanceledJobs(old(tasks), old(jobs), agent, now)
    {
      var rows := tasks;
      for t := 0 to |rows|
        invariant |tasks| == |rows| && |jobs| == |old(jobs)|
        invariant forall u :: 0 <= u < t ==> tasks[u] == CanceledTasks(rows, agent, now)[u]
        invariant forall u :: t <= u < |rows| ==> tasks[u] == rows[u]
        invariant forall j :: 0 <= j < |jobs| ==>
          jobs[j] == (if old(jobs)[j].progress.status == Queued && HasQueuedTask(rows[..t], agent, j)
                      then old(jobs)[j].(progress := CanceledProgress(old(jobs)[j].progress, now)) else old(jobs)[j])
      {
        if QueuedFor(rows[t], agent) {
          tasks := tasks[t := tasks[t].(progress := CanceledProgress(tasks[t].progress, now))];
          if rows[t].job.Some? {
            CancelQueuedJob(rows[t].job.value, now);
          }
        }
        QueuedTaskInPrefix(rows, agent, t);
      }
      assert rows[..|rows|] == rows;
    }

    method HandleDisableAgent(agent: AgentId, now: Time) returns (error: Option<Error>)
      requires Valid()
      modifies this
      ensures Rows(now) == Committed(old(Rows(now)), DisableAgent(old(Rows(now)), agent))
      ensures error == ErrorOf(DisableAgent(old(Rows(now)), agent))
      ensures Valid()
      ensures error.None? && old(agents)[agent] != Disabled ==>
        && (forall t :: 0 <= t < |tasks| && tasks[t].agent == agent ==> Settled(tasks[t].progress.status))
        && (forall j :: 0 <= j < |jobs| && jobs[j].agent == agent && HasTask(tasks, j) ==>
            Settled(jobs[j].progress.status))
      ensures error.None? && old(agents)[agent] != Disabled ==> O.Disables(old(Rows(now)), agent, Rows(now))
    {
      DisableKeepsInv(Rows(now), agent);
      O.DisableOutcome(Rows(now), agent);
      if agent >= |agents| {
        return Some(AgentMissing);
      }
      if agents[agent] == Disabled {
        return None;
      }
      if exists t :: 0 <= t < |tasks| && tasks[t].agent == agent && tasks[t].progress.status == Running {
        return Some(AgentBusy);
      }
      CancelQueuedTasks(agent, now);
      agents := agents[agent := Disabled];
      return None;
    }

    method HandleCreateTask(r: TaskRequest, now: Time) returns (error: Option<Error>)
      requires Valid()
      modifies this
      ensures Rows(now) == Committed(old(Rows(now)), CreateTask(old(Rows(now)), r))
      ensures error == ErrorOf(CreateTask(old(Rows(now)), r))
      ensures Valid()
    {
      CreateTaskKeepsInv(Rows(now), r);
      if exists t :: 0 <= t < |tasks| && tasks[t].key == r.key {
        return None;
      }
      if r.agent >= |agents| || agents[r.agent] != Online {
        return Some(AgentOffline);
      }
      if !r.capable {
        return Some(ActionNotCapable);
      }
      tasks := tasks + [Task(r.agent, None, r.key, now, now + r.expiresInSeconds, FRESH)];
      return None;
    }

    /** The inserts of the job transaction, once the request has passed its checks. */
    method InsertAutomationJob(r: JobRequest, now: Time) returns (error: Option<Error>)
      requires forall j :: 0 <= j < |jobs| ==> jobs[j].key != r.key
      requires RequestError(Rows(now), r).None?
      modifies this
      ensures Rows(now) == Committed(old(Rows(now)), CreateAutomationJob(old(Rows(now)), r))
      ensures error == ErrorOf(CreateAutomationJob(old(Rows(now)), r))
    {
      error := None;
      var version := r.version.value;
      var approvalRequired := RequiresApproval(version.risk);
      var before := jobs;
      var id := |jobs|;
      var status := if approvalRequired then AwaitingApproval else Queued;
      var approvalStatus := if approvalRequired then ApprovalPending else NotRequired;
      jobs := jobs + [Job(r.agent.value, version.risk, FRESH.(status := status), approvalStatus, r.requester, r.event,
                          r.key)];
      if approvalRequired {
        var required := if version.risk == R4 then 2 else 1;
        approvals := approvals
          + [Approval(id, ApprovalPending, required, r.requester, now + APPROVAL_LIFETIME, None, [])];
      } else {
        error := Enqueue(r.agent.value, id, now, version.timeoutSeconds);
        if error.Some? {
          jobs := before;
          return;
        }
      }
      if r.event.Some? {
        timeline := timeline + multiset{TimelineEntry(r.event.value, id, Requested)};
      }
    }

    /** The job transaction, for any tables. */
    method AddAutomationJob(r: JobRequest, now: Time) returns (error: Option<Error>)
      modifies this
      ensures Rows(now) == Committed(old(Rows(now)), CreateAutomationJob(old(Rows(now)), r))
      ensures error == ErrorOf(CreateAutomationJob(old(Rows(now)), r))
    {
      if exists j :: 0 <= j < |jobs| && jobs[j].key == r.key {
        return None;
      }
      error := RequestError(Rows(now), r);
      if error.None? {
        error := InsertAutomationJob(r, now);
      }
    }

    method HandleCreateAutomationJob(r: JobRequest, now: Time) returns (error: Option<Error>)
      requires Valid()
      modifies this
      ensures Rows(now) == Committed(old(Rows(now)), CreateAutomationJob(old(Rows(now)), r))
      ensures error == ErrorOf(CreateAutomationJob(old(Rows(now)), r))
      ensures Valid()
      ensures |jobs| > |old(jobs)| ==> HasTask(tasks, |old(jobs)|) != HasApproval(approvals, |old(jobs)|)
      ensures error.None? && !O.Known(old(Rows(now)), r) ==>
        O.PassesAll(old(Rows(now)), r) && O.AddsJob(old(Rows(now)), r, Rows(now))
    {
      ghost var before := Rows(now);
      error := AddAutomationJob(r, now);
      CreateJobKeepsInv(before, r);
      O.JobRequestOutcome(before, r);
    }

    /** The decision transaction, for any tables. */
    method ApplyDecision(id: ApprovalId, user: UserId, approved: bool, timeout: Option<nat>, now: Time)
      returns (error: Option<Error>)
      modifies this
      ensures Rows(now) == Committed(old(Rows(now)), DecideApproval(old(Rows(now)), id, user, approved, timeout))
      ensures error == ErrorOf(DecideApproval(old(Rows(now)), id, user, approved, timeout))
    {
      if id >= |approvals| {
        return Some(ApprovalMissing);
      }
      var approval := approvals[id];
      if approval.status != ApprovalPending || approval.expiresAt <= now {
        return Some(ApprovalClosed);
      }
      if approval.requester == user {
        return Some(OwnApproval);
      }
      if exists i :: 0 <= i < |approval.decisions| && approval.decisions[i].approver == user {
        return Some(AlreadyDecided);
      }
      if approval.job >= |jobs| {
        return Some(JobMissing);
      }
      approval := approval.(decisions := approval.decisions + [Decision(user, approved, now)]);
      if approved {
        error := GrantIfEnough(id, approval, timeout, now);
        return;
      }
      var job := jobs[approval.job];
      approvals := approvals[id := approval.(status := ApprovalRejected, resolvedAt := Some(now))];
      jobs := jobs[approval.job :=
                   job.(progress := job.progress.(status := Rejected), approvalStatus := ApprovalRejected)];
      return None;
    }

    method HandleDecideApproval(id: ApprovalId, user: UserId, approved: bool, timeout: Option<nat>, now: Time)
      returns (error: Option<Error>)
      requires Valid()
      modifies this
      ensures Rows(now) == Committed(old(Rows(now)), DecideApproval(old(Rows(now)), id, user, approved, timeout))
      ensures error == ErrorOf(DecideApproval(old(Rows(now)), id, user, approved, timeout))
      ensures Valid()
      ensures error != Some(JobMissing)
      ensures error.None? ==> id < |approvals| && DecisionSettled(tasks, jobs, approvals[id].job, approved)
      ensures error.None? ==>
        && O.MayDecide(old(Rows(now)), id, user) && (approved ==> timeout.Some?)
        && O.Settles(old(Rows(now)), id, user, approved, timeout, Rows(now))
    {
      ghost var before := Rows(now);
      DecisionFindsItsJob(before, id, user, approved, timeout);
      DecideKeepsInv(before, id, user, approved, timeout);
      O.ApprovalOutcome(before, id, user, approved, timeout);
      error := ApplyDecision(id, user, approved, timeout, now);
      if error.None? {
        DecisionSettles(before, id, user, approved, timeout);
      }
    }

    /** Records one more approval; the job is queued with its task once there are enough. */
    method GrantIfEnough(id: ApprovalId, approval: Approval, timeout: Option<nat>, now: Time)
      returns (error: Option<Error>)
      requires id < |approvals| && approval.job < |jobs|
      modifies this`approvals, this`jobs, this`tasks
      ensures var job := old(jobs)[approval.job];
        var queued := EnqueueAutomationTask(old(tasks), job.agent, approval.job, now, timeout.GetOr(0));
        if Grants(approval.decisions) < approval.required then
          error == None && approvals == old(approvals)[id := approval] && jobs == old(jobs) && tasks == old(tasks)
        else if timeout.None? || queued.Err? then
          && error == Some(if timeout.None? then VersionMissing else queued.error)
          && approvals == old(approvals) && jobs == old(jobs) && tasks == old(tasks)
        else
          && error == None
          && approvals == old(approvals)[id := approval.(status := ApprovalGranted, resolvedAt := Some(now))]
          && jobs == old(jobs)[approval.job :=
                               job.(progress := job.progress.(status := Queued), approvalStatus := ApprovalGranted)]
          && tasks == queued.value
    {
      var approvalsBefore, jobsBefore := approvals, jobs;
      approvals := approvals[id := approval];
      if Grants(approval.decisions) < approval.required {
        return None;
      }
      var job := jobs[approval.job];
      approvals := approvals[id := approval.(status := ApprovalGranted, resolvedAt := Some(now))];
      jobs := jobs[approval.job :=
                   job.(progress := job.progress.(status := Queued), approvalStatus := ApprovalGranted)];
      error := Some(VersionMissing);
      if timeout.Some? {
        error := Enqueue(job.agent, approval.job, now, timeout.value);
      }
      if error.Some? {
        approvals, jobs := approvalsBefore, jobsBefore;
      }
    }
  }

  lemma DecisionFindsItsJob(s: State, id: ApprovalId, user: UserId, approved: bool, timeout: Option<nat>)
    requires id < |s.approvals| ==> s.approvals[id].job < |s.jobs|
    ensures DecideApproval(s, id, user, approved, timeout) != Err(JobMissing)
  {
  }

  /** One decision settles a request: its job is queued with its task, or rejected without one. */
  predicate DecisionSettled(tasks: seq<Task>, jobs: seq<Job>, job: JobId, approved: bool) {
    && job < |jobs|
    && jobs[job].progress.status == (if approved then Queued else Rejected)
    && HasTask(tasks, job) == approved
  }

  lemma CoupledJobIsSettled(tasks: seq<Task>, jobs: seq<Job>, job: JobId, approved: bool)
    requires JobsHaveTasks(tasks, jobs) && job < |jobs|
    requires jobs[job].progress.status == if approved then Queued else Rejected
    ensures DecisionSettled(tasks, jobs, job, approved)
  {
  }

  lemma DecisionSettles(s: State, id: ApprovalId, user: UserId, approved: bool, timeout: Option<nat>)
    requires Inv(s) && DecideApproval(s, id, user, approved, timeout).Ok?
    ensures var s' := DecideApproval(s, id, user, approved, timeout).value;
      id < |s'.approvals| && DecisionSettled(s'.tasks, s'.jobs, s'.approvals[id].job, approved)
  {
    var s' := DecideApproval(s, id, user, approved, timeout).value;
    DecisionEffect(s, id, user, approved, timeout);
    DecideKeepsTasks(s, id, user, approved, timeout);
    CoupledJobIsSettled(s'.tasks, s'.jobs, s.approvals[id].job, approved);
  }

  /** The queued tasks among the first `t + 1` rows are those among the first `t` and row `t`. */
  lemma QueuedTaskInPrefix(rows: seq<Task>, agent: AgentId, t: nat)
    requires t < |rows|
    ensures forall j: JobId ::
      (HasQueuedTask(rows[..t + 1], agent, j)
       <==> HasQueuedTask(rows[..t], agent, j) || (QueuedFor(rows[t], agent) && rows[t].job == Some(j)))
  {
    forall j: JobId
      ensures HasQueuedTask(rows[..t + 1], agent, j)
        <==> HasQueuedTask(rows[..t], agent, j) || (QueuedFor(rows[t], agent) && rows[t].job == Some(j))
    {
      assert rows[..t + 1][t] == rows[t];
      if HasQueuedTask(rows[..t], agent, j) {
        var u :| 0 <= u < t && QueuedFor(rows[..t][u], agent) && rows[..t][u].job == Some(j);
        assert rows[..t + 1][u] == rows[u];
      }
      if HasQueuedTask(rows[..t + 1], agent, j) {
        var u :| 0 <= u < t + 1 && QueuedFor(rows[..t + 1][u], agent) && rows[..t + 1][u].job == Some(j);
        assert u < t ==> rows[..t][u] == rows[u];
      }
    }
  }
}
