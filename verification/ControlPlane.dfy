/**
  Agent tasks, automation jobs and approvals on the control plane: the rows
  that agent_control/api.py, agent_control/contracts.py, automation/api.py and
  automation/contracts.py move through separate functions.

  Each request is one atomic transaction: it either commits the returned state
  or fails and leaves the state as it was. Rows are kept in insertion order and
  named by their position, so fresh ids are distinct. Facts read from tables
  outside the model (runbooks, assets, permissions, maintenance windows) are
  part of the request.
 */
module ControlPlane {
  import opened Wrappers
  import TaskLedger

  type Time = int
  type UserId = nat
  type AgentId = nat
  type TaskId = nat
  type JobId = nat
  type ApprovalId = nat
  type EventId = nat
  type TaskResult = TaskLedger.TaskResult

  datatype Risk = R0 | R1 | R2 | R3 | R4

  datatype AgentStatus = Registered | Online | Disabled

  /** Job statuses; tasks use those from `Queued` on. */
  datatype Status = AwaitingApproval | Rejected | Queued | Running | Succeeded | Failed | Canceled

  /** The result columns of a task or job: nothing yet, AGENT_DISABLED, or what the agent reported. */
  datatype Outcome = NoOutcome | AgentDisabledOutcome | Reported(result: TaskResult)

  /** The columns that a task and its job carry alike. */
  datatype Progress = Progress(status: Status, startedAt: Option<Time>, completedAt: Option<Time>, outcome: Outcome)

  /** Task idempotency keys are free text; one text per job is the key used for that job's task. */
  datatype TaskKey = AutomationKey(job: JobId) | OtherKey(text: nat)

  datatype Task = Task(
    agent: AgentId, job: Option<JobId>, key: TaskKey, createdAt: Time, expiresAt: Time, progress: Progress)

  datatype ApprovalStatus = NotRequired | ApprovalPending | ApprovalGranted | ApprovalRejected

  datatype Job = Job(
    agent: AgentId, risk: Risk, progress: Progress, approvalStatus: ApprovalStatus,
    requestedBy: UserId, event: Option<EventId>, key: nat)

  datatype Decision = Decision(approver: UserId, approved: bool, at: Time)

  datatype Approval = Approval(
    job: JobId, status: ApprovalStatus, required: nat, requester: UserId, expiresAt: Time,
    resolvedAt: Option<Time>, decisions: seq<Decision>)

  datatype TimelineKind = Requested | Completed(status: Status)

  datatype TimelineEntry = TimelineEntry(event: EventId, job: JobId, kind: TimelineKind)

  datatype State = State(
    now: Time, agents: seq<AgentStatus>, tasks: seq<Task>, jobs: seq<Job>,
    approvals: seq<Approval>, timeline: multiset<TimelineEntry>)

  datatype Error =
    | AgentUnauthorized     // AIOPS_4001
    | AgentMissing          // AIOPS_4004
    | AgentOffline          // AIOPS_4201
    | ActionNotCapable      // AIOPS_4202
    | TaskMissing           // AIOPS_4204
    | TaskConflict          // AIOPS_4205
    | AgentBusy             // AIOPS_4301
    | RunbookMissing        // AIOPS_6004
    | RunbookVersionChanged // AIOPS_6005
    | VersionMissing        // AIOPS_6006
    | DestructiveForbidden  // AIOPS_6104
    | PermissionMissing
    | InputsInvalid
    | AssetOutOfScope       // AIOPS_3104
    | AssetTypeRefused      // AIOPS_6101
    | EventOutOfScope
    | OutsideMaintenance    // AIOPS_6102
    | JobMissing            // AIOPS_6204
    | JobConflict           // AIOPS_6205
    | ApprovalClosed        // AIOPS_6301
    | OwnApproval           // AIOPS_6302
    | AlreadyDecided        // AIOPS_6303
    | ApprovalMissing       // AIOPS_6304
    | UniqueViolation

  const FRESH := Progress(Queued, None, None, NoOutcome)

  function StatusOf(result: TaskResult): Status {
    if result.status == TaskLedger.Succeeded then Succeeded else Failed
  }

  predicate Done(status: Status) {
    status == Succeeded || status == Failed
  }

  predicate RequiresApproval(risk: Risk) {
    risk == R2 || risk == R3 || risk == R4
  }

  // ------------------------------------------------------------- tasks and jobs

  /** agent_control/contracts.py: the only place a job gets its task. */
  function EnqueueAutomationTask(tasks: seq<Task>, agent: AgentId, job: JobId, now: Time, timeoutSeconds: nat)
    : Result<seq<Task>, Error>
  {
    if exists t :: 0 <= t < |tasks| && (tasks[t].key == AutomationKey(job) || tasks[t].job == Some(job)) then
      Err(UniqueViolation)
    else
      Ok(tasks + [Task(agent, Some(job), AutomationKey(job), now, now + timeoutSeconds, FRESH)])
  }

  function StartAutomationJob(jobs: seq<Job>, job: JobId, now: Time): Result<seq<Job>, Error> {
    if job >= |jobs| || jobs[job].progress.status != Queued then Err(JobConflict)
    else Ok(jobs[job := jobs[job].(progress := jobs[job].progress.(status := Running, startedAt := Some(now)))])
  }

  function CompleteAutomationJob(jobs: seq<Job>, job: JobId, startedAt: Option<Time>, now: Time, result: TaskResult)
    : Result<seq<Job>, Error>
  {
    if job >= |jobs| then Err(JobMissing)
    else Ok(jobs[job := jobs[job].(progress := Progress(StatusOf(result), startedAt, Some(now), Reported(result)))])
  }

  function CanceledProgress(p: Progress, now: Time): Progress {
    p.(status := Canceled, completedAt := Some(now), outcome := AgentDisabledOutcome)
  }

  function CancelQueuedAutomationJob(jobs: seq<Job>, job: JobId, now: Time): seq<Job> {
    if job < |jobs| && jobs[job].progress.status == Queued
    then jobs[job := jobs[job].(progress := CanceledProgress(jobs[job].progress, now))]
    else jobs
  }

  datatype TaskRequest = TaskRequest(agent: AgentId, key: TaskKey, capable: bool, expiresInSeconds: nat)

  function CreateTask(s: State, r: TaskRequest): Result<State, Error> {
    if exists t :: 0 <= t < |s.tasks| && s.tasks[t].key == r.key then Ok(s)
    else if r.agent >= |s.agents| || s.agents[r.agent] != Online then Err(AgentOffline)
    else if !r.capable then Err(ActionNotCapable)
    else Ok(s.(tasks := s.tasks + [Task(r.agent, None, r.key, s.now, s.now + r.expiresInSeconds, FRESH)]))
  }

  predicate Ready(task: Task, agent: AgentId, now: Time) {
    task.agent == agent && task.progress.status == Queued && task.expiresAt > now
  }

  /** An answer of the dispatch query: a ready task of the agent with the earliest creation time, if any. */
  predicate IsOldestReady(s: State, agent: AgentId, pick: Option<TaskId>) {
    match pick
    case None => forall t :: 0 <= t < |s.tasks| ==> !Ready(s.tasks[t], agent, s.now)
    case Some(p) =>
      && p < |s.tasks| && Ready(s.tasks[p], agent, s.now)
      && forall t :: 0 <= t < |s.tasks| && Ready(s.tasks[t], agent, s.now) ==>
          s.tasks[p].createdAt <= s.tasks[t].createdAt
  }

  function NextTask(s: State, agent: AgentId, pick: Option<TaskId>): Result<State, Error>
    requires IsOldestReady(s, agent, pick)
  {
    if agent >= |s.agents| || s.agents[agent] == Disabled then Err(AgentUnauthorized)
    else if pick.None? then Ok(s)
    else
      var task := s.tasks[pick.value];
      var running := task.(progress := task.progress.(status := Running, startedAt := Some(s.now)));
      var jobs := if task.job.None? then Ok(s.jobs) else StartAutomationJob(s.jobs, task.job.value, s.now);
      if jobs.Err? then Err(jobs.error)
      else Ok(s.(tasks := s.tasks[pick.value := running], jobs := jobs.value))
  }

  function SubmitTaskResult(s: State, agent: AgentId, id: TaskId, result: TaskResult): Result<State, Error> {
    if agent >= |s.agents| || s.agents[agent] == Disabled then Err(AgentUnauthorized)
    else if id >= |s.tasks| || s.tasks[id].agent != agent then Err(TaskMissing)
    else if Done(s.tasks[id].progress.status) then Ok(s)
    else if s.tasks[id].progress.status != Running then Err(TaskConflict)
    else
      var task := s.tasks[id];
      var progress := Progress(StatusOf(result), task.progress.startedAt, Some(s.now), Reported(result));
      var finished := task.(progress := progress);
      var tasks := s.tasks[id := finished];
      if task.job.None? then Ok(s.(tasks := tasks))
      else
        var jobs := CompleteAutomationJob(s.jobs, task.job.value, task.progress.startedAt, s.now, result);
        if jobs.Err? then Err(jobs.error)
        else
          var event := jobs.value[task.job.value].event;
          var timeline := if event.None? then s.timeline
                          else
                            s.timeline
                            + multiset{TimelineEntry(event.value, task.job.value, Completed(StatusOf(result)))};
          Ok(s.(tasks := tasks, jobs := jobs.value, timeline := timeline))
  }

  predicate QueuedFor(task: Task, agent: AgentId) {
    task.agent == agent && task.progress.status == Queued
  }

  function DisableAgent(s: State, agent: AgentId): Result<State, Error> {
    if agent >= |s.agents| then Err(AgentMissing)
    else if s.agents[agent] == Disabled then Ok(s)
    else if exists t :: 0 <= t < |s.tasks| && s.tasks[t].agent == agent && s.tasks[t].progress.status == Running then
      Err(AgentBusy)
    else
      Ok(s.(agents := s.agents[agent := Disabled],
            tasks := CanceledTasks(s.tasks, agent, s.now),
            jobs := CanceledJobs(s.tasks, s.jobs, agent, s.now)))
  }

  function CanceledTasks(tasks: seq<Task>, agent: AgentId, now: Time): seq<Task> {
    seq(|tasks|, t requires 0 <= t < |tasks| =>
      if QueuedFor(tasks[t], agent) then tasks[t].(progress := CanceledProgress(tasks[t].progress, now)) else tasks[t])
  }

  predicate HasQueuedTask(tasks: seq<Task>, agent: AgentId, job: JobId) {
    exists t :: 0 <= t < |tasks| && QueuedFor(tasks[t], agent) && tasks[t].job == Some(job)
  }

  function CanceledJobs(tasks: seq<Task>, jobs: seq<Job>, agent: AgentId, now: Time): seq<Job> {
    seq(|jobs|, j requires 0 <= j < |jobs| =>
      if jobs[j].progress.status == Queued && HasQueuedTask(tasks, agent, j)
      then jobs[j].(progress := CanceledProgress(jobs[j].progress, now)) else jobs[j])
  }

  // -------------------------------------------------------- jobs and approvals

  datatype Runbook = Runbook(currentVersion: nat)

  datatype RunbookVersion = RunbookVersion(risk: Risk, timeoutSeconds: nat)

  /** A job request with what its checks read: a published runbook, its version, the asset's agent, ... */
  datatype JobRequest = JobRequest(
    key: nat, requester: UserId, runbook: Option<Runbook>, requestedVersion: nat, version: Option<RunbookVersion>,
    permitted: bool, inputsValid: bool, assetInProject: bool, assetTypeAllowed: bool,
    agent: Option<AgentId>, capable: bool, event: Option<EventId>, eventInScope: bool, maintenanceAllowed: bool)

  /** The first check a new job request fails. */
  function RequestError(s: State, r: JobRequest): Option<Error> {
    if r.runbook.None? then Some(RunbookMissing)
    else if r.runbook.value.currentVersion != r.requestedVersion then Some(RunbookVersionChanged)
    else if r.version.None? then Some(VersionMissing)
    else if r.version.value.risk == R4 then Some(DestructiveForbidden)
    else if !r.permitted then Some(PermissionMissing)
    else if !r.inputsValid then Some(InputsInvalid)
    else if !r.assetInProject then Some(AssetOutOfScope)
    else if !r.assetTypeAllowed then Some(AssetTypeRefused)
    else if r.agent.None? || r.agent.value >= |s.agents| || s.agents[r.agent.value] != Online then Some(AgentOffline)
    else if !r.capable then Some(ActionNotCapable)
    else if !r.eventInScope then Some(EventOutOfScope)
    else if !r.maintenanceAllowed then Some(OutsideMaintenance)
    else None
  }

  const APPROVAL_LIFETIME: Time := 24 * 60 * 60

  function CreateAutomationJob(s: State, r: JobRequest): Result<State, Error> {
    if exists j :: 0 <= j < |s.jobs| && s.jobs[j].key == r.key then Ok(s)
    else if RequestError(s, r).Some? then Err(RequestError(s, r).value)
    else
      var version := r.version.value;
      var approvalRequired := RequiresApproval(version.risk);
      var id := |s.jobs|;
      var job := Job(r.agent.value, version.risk,
                     if approvalRequired then FRESH.(status := AwaitingApproval) else FRESH,
                     if approvalRequired then ApprovalPending else NotRequired,
                     r.requester, r.event, r.key);
      var timeline := if r.event.None? then s.timeline
                      else s.timeline + multiset{TimelineEntry(r.event.value, id, Requested)};
      var requested := s.(jobs := s.jobs + [job], timeline := timeline);
      if approvalRequired then
        var required := if version.risk == R4 then 2 else 1;
        Ok(requested.(approvals := s.approvals
             + [Approval(id, ApprovalPending, required, r.requester, s.now + APPROVAL_LIFETIME, None, [])]))
      else
        var tasks := EnqueueAutomationTask(s.tasks, job.agent, id, s.now, version.timeoutSeconds);
        if tasks.Err? then Err(tasks.error) else Ok(requested.(tasks := tasks.value))
  }

  function Grants(decisions: seq<Decision>): nat {
    if decisions == [] then 0
    else Grants(decisions[..|decisions| - 1]) + (if decisions[|decisions| - 1].approved then 1 else 0)
  }

  /** `timeout` is the timeout of the job's runbook version, when that row is found. */
  function DecideApproval(s: State, id: ApprovalId, user: UserId, approved: bool, timeout: Option<nat>)
    : Result<State, Error>
  {
    if id >= |s.approvals| then Err(ApprovalMissing)
    else
      var a := s.approvals[id];
      if a.status != ApprovalPending || a.expiresAt <= s.now then Err(ApprovalClosed)
      else if a.requester == user then Err(OwnApproval)
      else if exists i :: 0 <= i < |a.decisions| && a.decisions[i].approver == user then Err(AlreadyDecided)
      else if a.job >= |s.jobs| then Err(JobMissing)
      else
        var decided := a.(decisions := a.decisions + [Decision(user, approved, s.now)]);
        var job := s.jobs[a.job];
        if !approved then
          Ok(s.(approvals := s.approvals[id := decided.(status := ApprovalRejected, resolvedAt := Some(s.now))],
                jobs := s.jobs[a.job :=
                               job.(progress := job.progress.(status := Rejected),
                                    approvalStatus := ApprovalRejected)]))
        else if Grants(decided.decisions) < a.required then
          Ok(s.(approvals := s.approvals[id := decided]))
        else if timeout.None? then Err(VersionMissing)
        else
          var tasks := EnqueueAutomationTask(s.tasks, job.agent, a.job, s.now, timeout.value);
          if tasks.Err? then Err(tasks.error)
          else
            Ok(s.(approvals := s.approvals[id := decided.(status := ApprovalGranted, resolvedAt := Some(s.now))],
                  jobs := s.jobs[a.job :=
                                 job.(progress := job.progress.(status := Queued), approvalStatus := ApprovalGranted)],
                  tasks := tasks.value))
  }

  // --------------------------------------------------------------------- runs

  datatype Event =
    | Tick(elapsed: nat)
    | Enroll
    | Heartbeat(agent: AgentId)
    | TaskCreated(taskRequest: TaskRequest)
    | JobCreated(jobRequest: JobRequest)
    | ApprovalDecided(approval: ApprovalId, user: UserId, approved: bool, timeout: Option<nat>)
    | TaskPolled(agent: AgentId, pick: Option<TaskId>)
    | ResultSubmitted(agent: AgentId, task: TaskId, result: TaskResult)
    | AgentDisabled(agent: AgentId)

  function Committed(s: State, outcome: Result<State, Error>): State {
    if outcome.Ok? then outcome.value else s
  }

  function Step(s: State, e: Event): State {
    match e
    case Tick(elapsed) => s.(now := s.now + elapsed)
    case Enroll => s.(agents := s.agents + [Registered])
    case Heartbeat(agent) =>
      if agent < |s.agents| && s.agents[agent] != Disabled then s.(agents := s.agents[agent := Online]) else s
    case TaskCreated(r) => Committed(s, CreateTask(s, r))
    case JobCreated(r) => Committed(s, CreateAutomationJob(s, r))
    case ApprovalDecided(approval, user, approved, timeout) =>
      Committed(s, DecideApproval(s, approval, user, approved, timeout))
    case TaskPolled(agent, pick) => if IsOldestReady(s, agent, pick) then Committed(s, NextTask(s, agent, pick)) else s
    case ResultSubmitted(agent, task, result) => Committed(s, SubmitTaskResult(s, agent, task, result))
    case AgentDisabled(agent) => Committed(s, DisableAgent(s, agent))
  }

  function Run(s: State, events: seq<Event>): State
    decreases |events|
  {
    if events == [] then s else Run(Step(s, events[0]), events[1..])
  }

  function Empty(now: Time): State {
    State(now, [], [], [], [], multiset{})
  }

  // ---------------------------------------------------------------- invariant

  predicate ProgressSound(p: Progress) {
    && (Done(p.status) <==> p.outcome.Reported?)
    && (p.outcome.Reported? ==> p.status == StatusOf(p.outcome.result))
    && (p.status == Canceled <==> p.outcome == AgentDisabledOutcome)
  }

  /** Before its task exists a job is awaiting approval or rejected. */
  predicate Undispatched(status: Status) {
    status == AwaitingApproval || status == Rejected
  }

  predicate TasksFollowJobs(agents: nat, tasks: seq<Task>, jobs: seq<Job>) {
    && (forall j :: 0 <= j < |jobs| ==> jobs[j].agent < agents)
    && (forall t :: 0 <= t < |tasks| ==>
          && tasks[t].agent < agents
          && ProgressSound(tasks[t].progress)
          && !Undispatched(tasks[t].progress.status)
          && (tasks[t].job.Some? ==>
                && tasks[t].job.value < |jobs|
                && tasks[t].progress == jobs[tasks[t].job.value].progress
                && tasks[t].agent == jobs[tasks[t].job.value].agent))
    && (forall t, u :: 0 <= t < |tasks| && 0 <= u < |tasks| && tasks[t].job.Some? && tasks[t].job == tasks[u].job ==>
        t == u)
  }

  predicate HasTask(tasks: seq<Task>, job: JobId) {
    exists t :: 0 <= t < |tasks| && tasks[t].job == Some(job)
  }

  predicate JobsHaveTasks(tasks: seq<Task>, jobs: seq<Job>) {
    forall j :: 0 <= j < |jobs| ==> (HasTask(tasks, j) <==> !Undispatched(jobs[j].progress.status))
  }

  predicate HasApproval(approvals: seq<Approval>, job: JobId) {
    exists a :: 0 <= a < |approvals| && approvals[a].job == job
  }

  predicate ApprovalStatusFollows(job: Job) {
    && job.risk != R4
    && (job.progress.status == AwaitingApproval <==> job.approvalStatus == ApprovalPending)
    && (job.progress.status == Rejected <==> job.approvalStatus == ApprovalRejected)
    && (job.progress.status == AwaitingApproval ==> job.progress == FRESH.(status := AwaitingApproval))
    && (job.approvalStatus == NotRequired <==> !RequiresApproval(job.risk))
  }

  predicate ApprovalsFollowJobs(approvals: seq<Approval>, jobs: seq<Job>) {
    && (forall j :: 0 <= j < |jobs| ==>
          ApprovalStatusFollows(jobs[j]) && (HasApproval(approvals, j) <==> RequiresApproval(jobs[j].risk)))
    && (forall a :: 0 <= a < |approvals| ==>
          && approvals[a].job < |jobs|
          && approvals[a].status == jobs[approvals[a].job].approvalStatus
          && approvals[a].requester == jobs[approvals[a].job].requestedBy
          && approvals[a].required == 1)
    && (forall a, b :: 0 <= a < |approvals| && 0 <= b < |approvals| && approvals[a].job == approvals[b].job ==> a == b)
  }

  /** Every decision was taken in time by someone other than the requester, and one decision settles the request. */
  predicate DecisionsSound(a: Approval) {
    && (forall i :: 0 <= i < |a.decisions| ==>
        a.decisions[i].approver != a.requester && a.decisions[i].at < a.expiresAt)
    && (a.status == ApprovalPending ==> a.decisions == [])
    && (a.status == ApprovalGranted ==> |a.decisions| == 1 && a.decisions[0].approved)
    && (a.status == ApprovalRejected ==> |a.decisions| == 1 && !a.decisions[0].approved)
    && a.status != NotRequired
  }

  predicate ApprovalsSound(approvals: seq<Approval>) {
    forall a :: 0 <= a < |approvals| ==> DecisionsSound(approvals[a])
  }

  function Logged(timeline: multiset<TimelineEntry>, event: EventId, job: JobId, status: Status): nat {
    timeline[TimelineEntry(event, job, Completed(status))]
  }

  function ExpectedLogs(jobs: seq<Job>, event: EventId, job: JobId, status: Status): nat {
    if job < |jobs| && jobs[job].event == Some(event) && jobs[job].progress.status == status && Done(status)
    then 1 else 0
  }

  /** A job's completion is on its event's timeline exactly once, and only when it is done. */
  ghost predicate TimelineSound(timeline: multiset<TimelineEntry>, jobs: seq<Job>) {
    forall event: EventId, job: JobId, status: Status ::
      Logged(timeline, event, job, status) == ExpectedLogs(jobs, event, job, status)
  }

  ghost predicate Inv(s: State) {
    && TasksFollowJobs(|s.agents|, s.tasks, s.jobs)
    && JobsHaveTasks(s.tasks, s.jobs)
    && ApprovalsFollowJobs(s.approvals, s.jobs)
    && ApprovalsSound(s.approvals)
    && TimelineSound(s.timeline, s.jobs)
  }

  lemma EmptyInv(now: Time)
    ensures Inv(Empty(now))
  {
  }

  /** `later` differs from `jobs` only in the progress of jobs that already have their task. */
  predicate Advanced(jobs: seq<Job>, later: seq<Job>) {
    && |later| == |jobs|
    && forall j :: 0 <= j < |jobs| ==>
         && later[j] == jobs[j].(progress := later[j].progress)
         && (later[j].progress == jobs[j].progress
             || (!Undispatched(jobs[j].progress.status) && !Undispatched(later[j].progress.status)))
  }

  lemma AdvanceKeepsApprovals(approvals: seq<Approval>, jobs: seq<Job>, later: seq<Job>)
    requires ApprovalsFollowJobs(approvals, jobs) && Advanced(jobs, later)
    ensures ApprovalsFollowJobs(approvals, later)
  {
    forall j | 0 <= j < |later|
      ensures ApprovalStatusFollows(later[j]) && (HasApproval(approvals, j) <==> RequiresApproval(later[j].risk))
    {
      assert ApprovalStatusFollows(jobs[j]);
    }
  }

  lemma SameTasksSameJobs(tasks: seq<Task>, changed: seq<Task>, job: JobId)
    requires |tasks| == |changed| && forall t :: 0 <= t < |tasks| ==> changed[t].job == tasks[t].job
    ensures HasTask(tasks, job) <==> HasTask(changed, job)
  {
    if HasTask(tasks, job) {
      var t :| 0 <= t < |tasks| && tasks[t].job == Some(job);
      assert changed[t].job == Some(job);
    }
  }

  lemma AdvanceKeepsTasks(tasks: seq<Task>, changed: seq<Task>, jobs: seq<Job>, later: seq<Job>)
    requires JobsHaveTasks(tasks, jobs) && Advanced(jobs, later)
    requires |tasks| == |changed| && forall t :: 0 <= t < |tasks| ==> changed[t].job == tasks[t].job
    ensures JobsHaveTasks(changed, later)
  {
    forall j | 0 <= j < |later|
      ensures HasTask(changed, j) <==> !Undispatched(later[j].progress.status)
    {
      SameTasksSameJobs(tasks, changed, j);
    }
  }

  /** The timeline stays right while no job becomes done. */
  lemma AdvanceKeepsTimeline(timeline: multiset<TimelineEntry>, jobs: seq<Job>, later: seq<Job>)
    requires TimelineSound(timeline, jobs) && Advanced(jobs, later)
    requires forall j :: 0 <= j < |jobs| && later[j] != jobs[j] ==>
        !Done(jobs[j].progress.status) && !Done(later[j].progress.status)
    ensures TimelineSound(timeline, later)
  {
    forall event: EventId, job: JobId, status: Status
      ensures Logged(timeline, event, job, status) == ExpectedLogs(later, event, job, status)
    {
      assert ExpectedLogs(later, event, job, status) == ExpectedLogs(jobs, event, job, status);
    }
  }

  function MovedTasks(tasks: seq<Task>, id: TaskId, p: Progress): seq<Task>
    requires id < |tasks|
  {
    tasks[id := tasks[id].(progress := p)]
  }

  function MovedJobs(jobs: seq<Job>, job: Option<JobId>, p: Progress): seq<Job> {
    if job.None? || job.value >= |jobs| then jobs else jobs[job.value := jobs[job.value].(progress := p)]
  }

  /** A task and its job that move to the same progress stay coupled with each other and apart from the rest. */
  lemma MoveKeepsTasks(agents: nat, tasks: seq<Task>, jobs: seq<Job>, id: TaskId, p: Progress)
    requires TasksFollowJobs(agents, tasks, jobs) && id < |tasks| && ProgressSound(p) && !Undispatched(p.status)
    ensures TasksFollowJobs(agents, MovedTasks(tasks, id, p), MovedJobs(jobs, tasks[id].job, p))
  {
  }

  lemma MoveAdvances(agents: nat, tasks: seq<Task>, jobs: seq<Job>, id: TaskId, p: Progress)
    requires TasksFollowJobs(agents, tasks, jobs) && id < |tasks| && !Undispatched(p.status)
    ensures Advanced(jobs, MovedJobs(jobs, tasks[id].job, p))
  {
  }

  lemma MoveKeepsCoupling(s: State, id: TaskId, p: Progress)
    requires Inv(s) && id < |s.tasks| && ProgressSound(p) && !Undispatched(p.status)
    ensures var tasks, jobs := MovedTasks(s.tasks, id, p), MovedJobs(s.jobs, s.tasks[id].job, p);
      && TasksFollowJobs(|s.agents|, tasks, jobs) && JobsHaveTasks(tasks, jobs)
      && ApprovalsFollowJobs(s.approvals, jobs)
      && Advanced(s.jobs, jobs)
  {
    var tasks, jobs := MovedTasks(s.tasks, id, p), MovedJobs(s.jobs, s.tasks[id].job, p);
    MoveKeepsTasks(|s.agents|, s.tasks, s.jobs, id, p);
    MoveAdvances(|s.agents|, s.tasks, s.jobs, id, p);
    AdvanceKeepsApprovals(s.approvals, s.jobs, jobs);
    AdvanceKeepsTasks(s.tasks, tasks, s.jobs, jobs);
  }

  function StartedProgress(p: Progress, now: Time): Progress {
    p.(status := Running, startedAt := Some(now))
  }

  lemma NextTaskEffect(s: State, agent: AgentId, id: TaskId)
    requires TasksFollowJobs(|s.agents|, s.tasks, s.jobs) && IsOldestReady(s, agent, Some(id))
    ensures agent < |s.agents| && s.agents[agent] != Disabled ==>
      var p := StartedProgress(s.tasks[id].progress, s.now);
      NextTask(s, agent, Some(id))
      == Ok(s.(tasks := MovedTasks(s.tasks, id, p), jobs := MovedJobs(s.jobs, s.tasks[id].job, p)))
  {
  }

  lemma StartKeepsInv(s: State, id: TaskId, p: Progress)
    requires Inv(s) && id < |s.tasks| && s.tasks[id].progress.status == Queued
    requires p == StartedProgress(s.tasks[id].progress, s.now)
    ensures Inv(s.(tasks := MovedTasks(s.tasks, id, p), jobs := MovedJobs(s.jobs, s.tasks[id].job, p)))
  {
    MoveKeepsCoupling(s, id, p);
    AdvanceKeepsTimeline(s.timeline, s.jobs, MovedJobs(s.jobs, s.tasks[id].job, p));
  }

  lemma NextTaskKeepsInv(s: State, agent: AgentId, pick: Option<TaskId>)
    requires Inv(s) && IsOldestReady(s, agent, pick)
    ensures Inv(Committed(s, NextTask(s, agent, pick)))
  {
    if agent < |s.agents| && s.agents[agent] != Disabled && pick.Some? {
      NextTaskEffect(s, agent, pick.value);
      StartKeepsInv(s, pick.value, StartedProgress(s.tasks[pick.value].progress, s.now));
    }
  }

  function FinishedProgress(p: Progress, now: Time, result: TaskResult): Progress {
    Progress(StatusOf(result), p.startedAt, Some(now), Reported(result))
  }

  /** The timeline once a task's job, if it has one and belongs to an event, is done. */
  function LoggedDone(timeline: multiset<TimelineEntry>, jobs: seq<Job>, job: Option<JobId>, status: Status)
    : multiset<TimelineEntry>
  {
    if job.None? || job.value >= |jobs| || jobs[job.value].event.None? then timeline
    else timeline + multiset{TimelineEntry(jobs[job.value].event.value, job.value, Completed(status))}
  }

  function Finished(s: State, id: TaskId, result: TaskResult): State
    requires id < |s.tasks|
  {
    var p := FinishedProgress(s.tasks[id].progress, s.now, result);
    s.(tasks := MovedTasks(s.tasks, id, p), jobs := MovedJobs(s.jobs, s.tasks[id].job, p),
       timeline := LoggedDone(s.timeline, s.jobs, s.tasks[id].job, StatusOf(result)))
  }

  lemma SubmitEffect(s: State, agent: AgentId, id: TaskId, result: TaskResult)
    requires TasksFollowJobs(|s.agents|, s.tasks, s.jobs)
    ensures var outcome := SubmitTaskResult(s, agent, id, result);
      outcome.Ok? && outcome.value != s ==>
        id < |s.tasks| && s.tasks[id].progress.status == Running && outcome.value == Finished(s, id, result)
  {
  }

  lemma FinishKeepsTimeline(timeline: multiset<TimelineEntry>, jobs: seq<Job>, job: Option<JobId>, p: Progress)
    requires TimelineSound(timeline, jobs) && Done(p.status)
    requires job.Some? && job.value < |jobs| ==> !Done(jobs[job.value].progress.status)
    ensures TimelineSound(LoggedDone(timeline, jobs, job, p.status), MovedJobs(jobs, job, p))
  {
    var later, moved := LoggedDone(timeline, jobs, job, p.status), MovedJobs(jobs, job, p);
    forall event: EventId, j: JobId, status: Status
      ensures Logged(later, event, j, status) == ExpectedLogs(moved, event, j, status)
    {
      assert Logged(timeline, event, j, status) == ExpectedLogs(jobs, event, j, status);
      assert job != Some(j) ==> ExpectedLogs(moved, event, j, status) == ExpectedLogs(jobs, event, j, status);
    }
  }

  lemma FinishKeepsInv(s: State, id: TaskId, result: TaskResult)
    requires Inv(s) && id < |s.tasks| && s.tasks[id].progress.status == Running
    ensures Inv(Finished(s, id, result))
  {
    var p := FinishedProgress(s.tasks[id].progress, s.now, result);
    MoveKeepsCoupling(s, id, p);
    FinishKeepsTimeline(s.timeline, s.jobs, s.tasks[id].job, p);
  }

  lemma SubmitKeepsInv(s: State, agent: AgentId, id: TaskId, result: TaskResult)
    requires Inv(s)
    ensures Inv(Committed(s, SubmitTaskResult(s, agent, id, result)))
  {
    var outcome := SubmitTaskResult(s, agent, id, result);
    if outcome.Ok? && outcome.value != s {
      SubmitEffect(s, agent, id, result);
      FinishKeepsInv(s, id, result);
    }
  }

  lemma CancelAdvances(tasks: seq<Task>, jobs: seq<Job>, agent: AgentId, now: Time)
    ensures var later := CanceledJobs(tasks, jobs, agent, now);
      && Advanced(jobs, later)
      && forall j :: 0 <= j < |jobs| && later[j] != jobs[j] ==>
           !Done(jobs[j].progress.status) && !Done(later[j].progress.status)
  {
  }

  lemma CancelKeepsTasks(s: State, agent: AgentId)
    requires TasksFollowJobs(|s.agents|, s.tasks, s.jobs)
    ensures TasksFollowJobs(|s.agents|, CanceledTasks(s.tasks, agent, s.now),
                            CanceledJobs(s.tasks, s.jobs, agent, s.now))
  {
    var tasks, jobs := CanceledTasks(s.tasks, agent, s.now), CanceledJobs(s.tasks, s.jobs, agent, s.now);
    forall t | 0 <= t < |s.tasks| && s.tasks[t].job.Some?
      ensures tasks[t].progress == jobs[s.tasks[t].job.value].progress
    {
      CanceledTogether(s, agent, t);
    }
  }

  lemma CancelKeepsInv(s: State, agent: AgentId)
    requires Inv(s) && agent < |s.agents|
    ensures Inv(s.(agents := s.agents[agent := Disabled],
                   tasks := CanceledTasks(s.tasks, agent, s.now),
                   jobs := CanceledJobs(s.tasks, s.jobs, agent, s.now)))
  {
    var tasks, jobs := CanceledTasks(s.tasks, agent, s.now), CanceledJobs(s.tasks, s.jobs, agent, s.now);
    CancelAdvances(s.tasks, s.jobs, agent, s.now);
    CancelKeepsTasks(s, agent);
    AdvanceKeepsApprovals(s.approvals, s.jobs, jobs);
    AdvanceKeepsTasks(s.tasks, tasks, s.jobs, jobs);
    AdvanceKeepsTimeline(s.timeline, s.jobs, jobs);
  }

  lemma DisableKeepsInv(s: State, agent: AgentId)
    requires Inv(s)
    ensures Inv(Committed(s, DisableAgent(s, agent)))
  {
    if agent < |s.agents| {
      CancelKeepsInv(s, agent);
    }
  }

  /** A task of the agent is canceled exactly when its job is. */
  lemma CanceledTogether(s: State, agent: AgentId, t: TaskId)
    requires TasksFollowJobs(|s.agents|, s.tasks, s.jobs)
    requires t < |s.tasks| && s.tasks[t].job.Some?
    ensures CanceledTasks(s.tasks, agent, s.now)[t].progress
      == CanceledJobs(s.tasks, s.jobs, agent, s.now)[s.tasks[t].job.value].progress
  {
    var j := s.tasks[t].job.value;
    if HasQueuedTask(s.tasks, agent, j) {
      var u :| 0 <= u < |s.tasks| && QueuedFor(s.tasks[u], agent) && s.tasks[u].job == Some(j);
      assert u == t;
    }
  }

  lemma CreateTaskKeepsInv(s: State, r: TaskRequest)
    requires Inv(s)
    ensures Inv(Committed(s, CreateTask(s, r)))
  {
    var s' := Committed(s, CreateTask(s, r));
    if s' != s {
      TaskAdded(s.tasks, s'.tasks[|s.tasks|]);
      forall j | 0 <= j < |s.jobs|
        ensures HasTask(s'.tasks, j) <==> HasTask(s.tasks, j)
      {
      }
    }
  }

  /** A new row gives a task to its own job and to no other. */
  lemma TaskAdded(tasks: seq<Task>, task: Task)
    ensures forall j: JobId :: HasTask(tasks + [task], j) <==> HasTask(tasks, j) || task.job == Some(j)
  {
    var more := tasks + [task];
    assert more[|tasks|] == task;
    forall j: JobId
      ensures HasTask(more, j) <==> HasTask(tasks, j) || task.job == Some(j)
    {
      if HasTask(tasks, j) {
        var t :| 0 <= t < |tasks| && tasks[t].job == Some(j);
        assert more[t].job == Some(j);
      }
    }
  }

  lemma ApprovalAdded(approvals: seq<Approval>, approval: Approval)
    ensures forall j: JobId ::
      (HasApproval(approvals + [approval], j) <==> HasApproval(approvals, j) || approval.job == j)
  {
    var more := approvals + [approval];
    assert more[|approvals|] == approval;
    forall j: JobId
      ensures HasApproval(more, j) <==> HasApproval(approvals, j) || approval.job == j
    {
      if HasApproval(approvals, j) {
        var a :| 0 <= a < |approvals| && approvals[a].job == j;
        assert more[a].job == j;
      }
    }
  }

  lemma ApprovalChanged(approvals: seq<Approval>, id: ApprovalId, approval: Approval)
    requires id < |approvals| && approval.job == approvals[id].job
    ensures forall j: JobId :: HasApproval(approvals[id := approval], j) <==> HasApproval(approvals, j)
  {
    var other := approvals[id := approval];
    forall j: JobId
      ensures HasApproval(other, j) <==> HasApproval(approvals, j)
    {
      if HasApproval(approvals, j) {
        var a :| 0 <= a < |approvals| && approvals[a].job == j;
        assert other[a].job == j;
      }
    }
  }

  lemma RequestKeepsTimeline(s: State, r: JobRequest)
    requires Inv(s)
    ensures var s' := Committed(s, CreateAutomationJob(s, r)); TimelineSound(s'.timeline, s'.jobs)
  {
    var s' := Committed(s, CreateAutomationJob(s, r));
    if s' != s {
      forall event: EventId, job: JobId, status: Status
        ensures Logged(s'.timeline, event, job, status) == ExpectedLogs(s'.jobs, event, job, status)
      {
        assert Logged(s.timeline, event, job, status) == ExpectedLogs(s.jobs, event, job, status);
      }
    }
  }

  lemma JobAddedWithoutTask(agents: nat, tasks: seq<Task>, jobs: seq<Job>, job: Job)
    requires TasksFollowJobs(agents, tasks, jobs) && JobsHaveTasks(tasks, jobs)
    requires job.agent < agents && Undispatched(job.progress.status)
    ensures TasksFollowJobs(agents, tasks, jobs + [job]) && JobsHaveTasks(tasks, jobs + [job])
  {
    assert !HasTask(tasks, |jobs|);
  }

  lemma JobAddedWithTask(agents: nat, tasks: seq<Task>, jobs: seq<Job>, job: Job, task: Task)
    requires TasksFollowJobs(agents, tasks, jobs) && JobsHaveTasks(tasks, jobs)
    requires job.agent < agents && !Undispatched(job.progress.status) && ProgressSound(job.progress)
    requires task.job == Some(|jobs|) && task.progress == job.progress && task.agent == job.agent
    ensures TasksFollowJobs(agents, tasks + [task], jobs + [job]) && JobsHaveTasks(tasks + [task], jobs + [job])
  {
    TaskAdded(tasks, task);
  }

  lemma RequestKeepsRows(s: State, r: JobRequest)
    requires Inv(s)
    ensures var s' := Committed(s, CreateAutomationJob(s, r));
      TasksFollowJobs(|s'.agents|, s'.tasks, s'.jobs) && JobsHaveTasks(s'.tasks, s'.jobs)
  {
    var s' := Committed(s, CreateAutomationJob(s, r));
    if s' != s {
      var job := s'.jobs[|s.jobs|];
      if RequiresApproval(r.version.value.risk) {
        JobAddedWithoutTask(|s.agents|, s.tasks, s.jobs, job);
      } else {
        JobAddedWithTask(|s.agents|, s.tasks, s.jobs, job, s'.tasks[|s.tasks|]);
      }
    }
  }

  lemma RequestKeepsApprovals(s: State, r: JobRequest)
    requires Inv(s)
    ensures var s' := Committed(s, CreateAutomationJob(s, r));
      ApprovalsFollowJobs(s'.approvals, s'.jobs) && ApprovalsSound(s'.approvals)
  {
    var s' := Committed(s, CreateAutomationJob(s, r));
    if s' != s {
      assert !HasApproval(s.approvals, |s.jobs|);
      if RequiresApproval(r.version.value.risk) {
        ApprovalAdded(s.approvals, s'.approvals[|s.approvals|]);
      }
      forall j | 0 <= j < |s'.jobs|
        ensures ApprovalStatusFollows(s'.jobs[j])
          && (HasApproval(s'.approvals, j) <==> RequiresApproval(s'.jobs[j].risk))
      {
        assert j < |s.jobs| ==> ApprovalStatusFollows(s.jobs[j]);
      }
    }
  }

  lemma CreateJobKeepsInv(s: State, r: JobRequest)
    requires Inv(s)
    ensures Inv(Committed(s, CreateAutomationJob(s, r)))
  {
    RequestKeepsTimeline(s, r);
    RequestKeepsRows(s, r);
    RequestKeepsApprovals(s, r);
  }

  /** A pending approval has no decisions yet, and its job is as it was requested. */
  lemma PendingApproval(s: State, id: ApprovalId)
    requires Inv(s) && id < |s.approvals| && s.approvals[id].status == ApprovalPending
    ensures var a := s.approvals[id];
      a.decisions == [] && a.required == 1 && a.job < |s.jobs|
        && s.jobs[a.job].progress == FRESH.(status := AwaitingApproval)
  {
    assert DecisionsSound(s.approvals[id]);
    assert ApprovalStatusFollows(s.jobs[s.approvals[id].job]);
  }

  /** What a committed decision does to the approval, its job and the tasks. */
  lemma DecisionEffect(s: State, id: ApprovalId, user: UserId, approved: bool, timeout: Option<nat>)
    requires Inv(s) && DecideApproval(s, id, user, approved, timeout).Ok?
    ensures var s' := DecideApproval(s, id, user, approved, timeout).value;
      && id < |s.approvals|
      && var a := s.approvals[id];
      && a.status == ApprovalPending && a.job < |s.jobs|
      && s.jobs[a.job].progress == FRESH.(status := AwaitingApproval)
      && s' == s.(tasks := s'.tasks, jobs := s'.jobs, approvals := s'.approvals)
      && s'.approvals == s.approvals[id := a.(status := if approved then ApprovalGranted else ApprovalRejected,
                                             resolvedAt := Some(s.now), decisions := [Decision(user, approved, s.now)])]
      && s'.jobs == s.jobs[a.job := s.jobs[a.job].(
           progress := FRESH.(status := if approved then Queued else Rejected),
           approvalStatus := if approved then ApprovalGranted else ApprovalRejected)]
      && s'.tasks == (if !approved then s.tasks
                      else s.tasks + [Task(s.jobs[a.job].agent, Some(a.job), AutomationKey(a.job), s.now,
                                           s.now + timeout.GetOr(0), FRESH)])
      && user != a.requester && s.now < a.expiresAt
  {
    var a := s.approvals[id];
    PendingApproval(s, id);
    OneDecisionSettles(user, approved, s.now);
    assert [] + [Decision(user, approved, s.now)] == [Decision(user, approved, s.now)];
    DecisionCases(s, id, user, approved, timeout);
  }

  /** The committed state, case by case. */
  lemma DecisionCases(s: State, id: ApprovalId, user: UserId, approved: bool, timeout: Option<nat>)
    requires DecideApproval(s, id, user, approved, timeout).Ok?
    requires id < |s.approvals| && s.approvals[id].job < |s.jobs|
    requires s.approvals[id].required == 1
      && Grants(s.approvals[id].decisions + [Decision(user, approved, s.now)]) == if approved then 1 else 0
    ensures var s' := DecideApproval(s, id, user, approved, timeout).value;
      var a := s.approvals[id];
      var job := s.jobs[a.job];
      var decided := a.(resolvedAt := Some(s.now), decisions := a.decisions + [Decision(user, approved, s.now)]);
      s' == if !approved then
              s.(approvals := s.approvals[id := decided.(status := ApprovalRejected)],
                 jobs := s.jobs[a.job :=
                                job.(progress := job.progress.(status := Rejected),
                                     approvalStatus := ApprovalRejected)])
            else
              s.(approvals := s.approvals[id := decided.(status := ApprovalGranted)],
                 jobs := s.jobs[a.job :=
                                job.(progress := job.progress.(status := Queued), approvalStatus := ApprovalGranted)],
                 tasks := s.tasks + [Task(job.agent, Some(a.job), AutomationKey(a.job), s.now, s.now + timeout.GetOr(0),
                                          FRESH)])
  {
  }

  lemma DecideKeepsApprovals(s: State, id: ApprovalId, user: UserId, approved: bool, timeout: Option<nat>)
    requires Inv(s) && DecideApproval(s, id, user, approved, timeout).Ok?
    ensures var s' := DecideApproval(s, id, user, approved, timeout).value;
      ApprovalsFollowJobs(s'.approvals, s'.jobs) && ApprovalsSound(s'.approvals)
  {
    DecisionEffect(s, id, user, approved, timeout);
    var s' := DecideApproval(s, id, user, approved, timeout).value;
    ApprovalChanged(s.approvals, id, s'.approvals[id]);
    forall j | 0 <= j < |s'.jobs|
      ensures ApprovalStatusFollows(s'.jobs[j]) && (HasApproval(s'.approvals, j) <==> RequiresApproval(s'.jobs[j].risk))
    {
      assert ApprovalStatusFollows(s.jobs[j]);
    }
  }

  /** A job that had no task gets one, and moves on with it. */
  lemma JobGetsTask(agents: nat, tasks: seq<Task>, jobs: seq<Job>, j: JobId, later: Job, task: Task)
    requires TasksFollowJobs(agents, tasks, jobs) && JobsHaveTasks(tasks, jobs)
    requires j < |jobs| && Undispatched(jobs[j].progress.status) && !Undispatched(later.progress.status)
    requires later.agent == jobs[j].agent && ProgressSound(later.progress)
    requires task.job == Some(j) && task.progress == later.progress && task.agent == later.agent
    ensures TasksFollowJobs(agents, tasks + [task], jobs[j := later]) && JobsHaveTasks(tasks + [task], jobs[j := later])
  {
    assert !HasTask(tasks, j);
    TaskAdded(tasks, task);
  }

  lemma JobStaysWithoutTask(agents: nat, tasks: seq<Task>, jobs: seq<Job>, j: JobId, later: Job)
    requires TasksFollowJobs(agents, tasks, jobs) && JobsHaveTasks(tasks, jobs)
    requires j < |jobs| && Undispatched(jobs[j].progress.status) && Undispatched(later.progress.status)
    requires later.agent == jobs[j].agent
    ensures TasksFollowJobs(agents, tasks, jobs[j := later]) && JobsHaveTasks(tasks, jobs[j := later])
  {
    assert !HasTask(tasks, j);
  }

  lemma DecideKeepsTasks(s: State, id: ApprovalId, user: UserId, approved: bool, timeout: Option<nat>)
    requires Inv(s) && DecideApproval(s, id, user, approved, timeout).Ok?
    ensures var s' := DecideApproval(s, id, user, approved, timeout).value;
      TasksFollowJobs(|s'.agents|, s'.tasks, s'.jobs) && JobsHaveTasks(s'.tasks, s'.jobs)
  {
    DecisionEffect(s, id, user, approved, timeout);
    var s' := DecideApproval(s, id, user, approved, timeout).value;
    var j := s.approvals[id].job;
    if approved {
      JobGetsTask(|s.agents|, s.tasks, s.jobs, j, s'.jobs[j], s'.tasks[|s.tasks|]);
    } else {
      JobStaysWithoutTask(|s.agents|, s.tasks, s.jobs, j, s'.jobs[j]);
    }
  }

  lemma DecideKeepsTimeline(s: State, id: ApprovalId, user: UserId, approved: bool, timeout: Option<nat>)
    requires Inv(s) && DecideApproval(s, id, user, approved, timeout).Ok?
    ensures var s' := DecideApproval(s, id, user, approved, timeout).value;
      TimelineSound(s'.timeline, s'.jobs) && s'.agents == s.agents
  {
    DecisionEffect(s, id, user, approved, timeout);
    var job := s.approvals[id].job;
    var progress := FRESH.(status := if approved then Queued else Rejected);
    UndoneKeepsTimeline(s.timeline, s.jobs, job,
                        s.jobs[job].(progress := progress,
                                     approvalStatus := if approved then ApprovalGranted else ApprovalRejected));
  }

  /** The timeline stays right while a job that is not done changes and still is not. */
  lemma UndoneKeepsTimeline(timeline: multiset<TimelineEntry>, jobs: seq<Job>, j: JobId, later: Job)
    requires TimelineSound(timeline, jobs) && j < |jobs|
    requires !Done(jobs[j].progress.status) && !Done(later.progress.status)
    ensures TimelineSound(timeline, jobs[j := later])
  {
    forall event: EventId, job: JobId, status: Status
      ensures Logged(timeline, event, job, status) == ExpectedLogs(jobs[j := later], event, job, status)
    {
      assert Logged(timeline, event, job, status) == ExpectedLogs(jobs, event, job, status);
    }
  }

  lemma DecideKeepsInv(s: State, id: ApprovalId, user: UserId, approved: bool, timeout: Option<nat>)
    requires Inv(s)
    ensures Inv(Committed(s, DecideApproval(s, id, user, approved, timeout)))
  {
    if DecideApproval(s, id, user, approved, timeout).Ok? {
      DecideKeepsApprovals(s, id, user, approved, timeout);
      DecideKeepsTasks(s, id, user, approved, timeout);
      DecideKeepsTimeline(s, id, user, approved, timeout);
    }
  }

  lemma OneDecisionSettles(user: UserId, approved: bool, now: Time)
    ensures Grants([] + [Decision(user, approved, now)]) == if approved then 1 else 0
  {
    var decisions := [] + [Decision(user, approved, now)];
    assert decisions[..0] == [];
  }

  lemma AgentsAndClockKeepInv(s: State, e: Event)
    requires Inv(s) && (e.Tick? || e.Enroll? || e.Heartbeat?)
    ensures Inv(Step(s, e))
  {
  }

  lemma StepKeepsInv(s: State, e: Event)
    requires Inv(s)
    ensures Inv(Step(s, e))
  {
    match e
    case Tick(_) => AgentsAndClockKeepInv(s, e);
    case Enroll => AgentsAndClockKeepInv(s, e);
    case Heartbeat(_) => AgentsAndClockKeepInv(s, e);
    case TaskCreated(r) => CreateTaskKeepsInv(s, r);
    case JobCreated(r) => CreateJobKeepsInv(s, r);
    case ApprovalDecided(approval, user, approved, timeout) => DecideKeepsInv(s, approval, user, approved, timeout);
    case TaskPolled(agent, pick) =>
      if IsOldestReady(s, agent, pick) {
        NextTaskKeepsInv(s, agent, pick);
      }
    case ResultSubmitted(agent, task, result) => SubmitKeepsInv(s, agent, task, result);
    case AgentDisabled(agent) => DisableKeepsInv(s, agent);
  }

  lemma {:induction false} RunKeepsInv(s: State, events: seq<Event>)
    requires Inv(s)
    ensures Inv(Run(s, events))
    decreases |events|
  {
    if events != [] {
      StepKeepsInv(s, events[0]);
      RunKeepsInv(Step(s, events[0]), events[1..]);
    }
  }

  // ----------------------------------------------------------------- theorems

  lemma ReachableInv(now: Time, events: seq<Event>)
    ensures Inv(Run(Empty(now), events))
  {
    EmptyInv(now);
    RunKeepsInv(Empty(now), events);
  }

  /** Job `j` has an approval in this status. */
  predicate ApprovalIs(s: State, j: JobId, status: ApprovalStatus) {
    exists a :: 0 <= a < |s.approvals| && s.approvals[a].job == j && s.approvals[a].status == status
  }

  /**
    In every reachable state: a job has at most one task, and its task carries
    the same status, times and result; a job without a task is awaiting
    approval or rejected; and it awaits approval exactly when its approval is
    pending, is rejected exactly when its approval is.
   */
  lemma JobTaskAndApprovalStayCoupled(now: Time, events: seq<Event>)
    ensures var s := Run(Empty(now), events);
      && (forall t, u :: 0 <= t < |s.tasks| && 0 <= u < |s.tasks| ==>
            s.tasks[t].job.Some? && s.tasks[t].job == s.tasks[u].job ==> t == u)
      && (forall t :: 0 <= t < |s.tasks| && s.tasks[t].job.Some? ==>
            && s.tasks[t].job.value < |s.jobs|
            && s.jobs[s.tasks[t].job.value].progress == s.tasks[t].progress
            && s.jobs[s.tasks[t].job.value].agent == s.tasks[t].agent)
      && (forall j :: 0 <= j < |s.jobs| ==>
            && (!HasTask(s.tasks, j) <==> Undispatched(s.jobs[j].progress.status))
            && (s.jobs[j].progress.status == AwaitingApproval <==> ApprovalIs(s, j, ApprovalPending))
            && (s.jobs[j].progress.status == Rejected <==> ApprovalIs(s, j, ApprovalRejected)))
  {
    ReachableInv(now, events);
    var s := Run(Empty(now), events);
    forall j | 0 <= j < |s.jobs|
      ensures s.jobs[j].progress.status == AwaitingApproval <==> ApprovalIs(s, j, ApprovalPending)
      ensures s.jobs[j].progress.status == Rejected <==> ApprovalIs(s, j, ApprovalRejected)
    {
      assert ApprovalStatusFollows(s.jobs[j]);
      if RequiresApproval(s.jobs[j].risk) {
        var a :| 0 <= a < |s.approvals| && s.approvals[a].job == j;
      }
    }
  }

  /** The conflict check of `start_automation_job` and the missing-job check of `complete_automation_job` never fire. */
  lemma DispatchAndCompletionNeverConflict(now: Time, events: seq<Event>, agent: AgentId, pick: Option<TaskId>,
                                           task: TaskId, result: TaskResult)
    ensures var s := Run(Empty(now), events);
      && (IsOldestReady(s, agent, pick) ==> NextTask(s, agent, pick) != Err(JobConflict))
      && SubmitTaskResult(s, agent, task, result) != Err(JobMissing)
  {
    ReachableInv(now, events);
  }

  /** After a disable nothing of the agent is queued or running, in the tasks or in the jobs that have one. */
  lemma DisableLeavesNoJobBehind(now: Time, events: seq<Event>, agent: AgentId)
    requires var s := Run(Empty(now), events);
      agent < |s.agents| && s.agents[agent] != Disabled && DisableAgent(s, agent).Ok?
    ensures var s' := DisableAgent(Run(Empty(now), events), agent).value;
      && s'.agents[agent] == Disabled
      && (forall t :: 0 <= t < |s'.tasks| && s'.tasks[t].agent == agent ==>
            s'.tasks[t].progress.status == Canceled || Done(s'.tasks[t].progress.status))
      && (forall j :: 0 <= j < |s'.jobs| && s'.jobs[j].agent == agent && HasTask(s'.tasks, j) ==>
            s'.jobs[j].progress.status == Canceled || Done(s'.jobs[j].progress.status))
  {
    ReachableInv(now, events);
    var s := Run(Empty(now), events);
    DisableKeepsInv(s, agent);
  }

  /** Someone other than the requester approved job `j` before the request expired, and nobody rejected it. */
  predicate ApprovedByAnother(s: State, j: JobId)
    requires j < |s.jobs|
  {
    exists a :: 0 <= a < |s.approvals| && s.approvals[a].job == j
      && (exists i :: 0 <= i < |s.approvals[a].decisions|
            && s.approvals[a].decisions[i].approved
            && s.approvals[a].decisions[i].approver != s.jobs[j].requestedBy
            && s.approvals[a].decisions[i].at < s.approvals[a].expiresAt)
      && (forall i :: 0 <= i < |s.approvals[a].decisions| ==> s.approvals[a].decisions[i].approved)
  }

  /**
    Over every run no R4 job exists, and an R2 or R3 job is queued, running,
    finished or canceled only once someone other than its requester approved it
    in time and nobody rejected it.
   */
  lemma RiskyJobsRunOnlyApproved(now: Time, events: seq<Event>)
    ensures var s := Run(Empty(now), events);
      forall j :: 0 <= j < |s.jobs| ==>
        && s.jobs[j].risk != R4
        && (s.jobs[j].risk in {R2, R3} && !Undispatched(s.jobs[j].progress.status) ==> ApprovedByAnother(s, j))
  {
    ReachableInv(now, events);
    RiskyJobsAreApproved(Run(Empty(now), events));
  }

  lemma RiskyJobsAreApproved(s: State)
    requires Inv(s)
    ensures forall j :: 0 <= j < |s.jobs| ==>
      && s.jobs[j].risk != R4
      && (s.jobs[j].risk in {R2, R3} && !Undispatched(s.jobs[j].progress.status) ==> ApprovedByAnother(s, j))
  {
    forall j | 0 <= j < |s.jobs|
      ensures s.jobs[j].risk != R4
      ensures s.jobs[j].risk in {R2, R3} && !Undispatched(s.jobs[j].progress.status) ==> ApprovedByAnother(s, j)
    {
      assert ApprovalStatusFollows(s.jobs[j]);
      if s.jobs[j].risk in {R2, R3} && !Undispatched(s.jobs[j].progress.status) {
        RiskyJobIsApproved(s, j);
      }
    }
  }

  lemma RiskyJobIsApproved(s: State, j: JobId)
    requires ApprovalsFollowJobs(s.approvals, s.jobs) && ApprovalsSound(s.approvals)
    requires j < |s.jobs| && RequiresApproval(s.jobs[j].risk) && !Undispatched(s.jobs[j].progress.status)
    ensures ApprovedByAnother(s, j)
  {
    assert ApprovalStatusFollows(s.jobs[j]);
    var a :| 0 <= a < |s.approvals| && s.approvals[a].job == j;
    assert DecisionsSound(s.approvals[a]);
    assert s.approvals[a].decisions[0].approved;
  }

  lemma FinishedTaskUntouched(s: State, e: Event, t: TaskId)
    requires t < |s.tasks|
    requires Done(s.tasks[t].progress.status) || s.tasks[t].progress.status == Canceled
    ensures t < |Step(s, e).tasks| && Step(s, e).tasks[t] == s.tasks[t]
  {
  }

  /** A finished or canceled task never changes again, nor does its job's progress. */
  lemma FinishedIsFinal(s: State, e: Event, t: TaskId)
    requires Inv(s) && t < |s.tasks|
    requires Done(s.tasks[t].progress.status) || s.tasks[t].progress.status == Canceled
    ensures var s' := Step(s, e);
      && t < |s'.tasks| && s'.tasks[t] == s.tasks[t]
      && (s.tasks[t].job.Some? ==>
            s.tasks[t].job.value < |s'.jobs| && s'.jobs[s.tasks[t].job.value].progress == s.tasks[t].progress)
  {
    StepKeepsInv(s, e);
    FinishedTaskUntouched(s, e, t);
    var s' := Step(s, e);
    assert TasksFollowJobs(|s'.agents|, s'.tasks, s'.jobs);
  }

  /** Each job's completion entry is on the timeline exactly once when it is done, and never before. */
  lemma CompletionLoggedExactlyOnce(now: Time, events: seq<Event>, job: JobId, event: EventId, status: Status)
    ensures var s := Run(Empty(now), events);
      s.timeline[TimelineEntry(event, job, Completed(status))]
      == if job < |s.jobs| && s.jobs[job].event == Some(event) && Done(status) && s.jobs[job].progress.status == status
        then 1 else 0
  {
    ReachableInv(now, events);
    var s := Run(Empty(now), events);
    assert Logged(s.timeline, event, job, status) == ExpectedLogs(s.jobs, event, job, status);
  }
}
