/**
  Task execution end to end: the control plane's rows, one agent's task loop
  and ledger, and an unordered channel between them.

  A request in flight may be processed at any later time, any number of times,
  or never; a reply reaches the agent only while it waits for that request.
  Every other agent and user acts freely on the control plane. `computed`
  records the result the agent computed for each task.
 */
module TaskExecution {
  import opened Wrappers
  import CP = ControlPlane
  import L = TaskLedger

  type TaskId = nat
  type RequestId = nat

  datatype Submission = Submission(task: TaskId, result: L.TaskResult)

  datatype System = System(
    server: CP.State,
    me: CP.AgentId,
    worker: L.Worker,
    nextRequest: RequestId,
    current: RequestId,
    polls: set<RequestId>,
    submissions: map<RequestId, Submission>,
    accepted: set<RequestId>,
    envelopes: map<TaskId, RequestId>,
    computed: map<TaskId, L.TaskResult>)

  datatype Event =
    | Tick(elapsed: nat)
    | Elsewhere(event: CP.Event)
    | StartLoop
    | SendResult(task: TaskId)
    | FlushDone
    | ServeSubmission(request: RequestId)
    | ReceiveAck(saveOk: bool)
    | SubmissionFailed
    | SendPoll
    | ServePoll(request: RequestId, pick: Option<TaskId>)
    | ReceiveTask(task: TaskId, signatureValid: bool, actionId: string, paths: seq<string>, attempt: L.Attempt)
    | PollFailed
    | QueueResult(saveOk: bool)
    | Crash

  /** The requests of other agents and users, and the enrollment, heartbeat and disabling of any agent. */
  predicate IsElsewhere(e: CP.Event, me: CP.AgentId) {
    match e
    case Tick(_) => false
    case TaskPolled(agent, _) => agent != me
    case ResultSubmitted(agent, _, _) => agent != me
    case _ => true
  }

  function Start(server: CP.State, me: CP.AgentId): System {
    System(server, me, L.Initial(server.now), 0, 0, {}, map[], {}, map[], map[])
  }

  function ReceiveEnvelope(s: System, e: L.Envelope, attempt: L.Attempt): System {
    var worker := L.Step(s.worker, L.Receive(e, attempt));
    s.(worker := worker,
       envelopes := s.envelopes - {e.taskId},
       computed := if worker.phase.Executed? then s.computed[e.taskId := worker.phase.result] else s.computed)
  }

  function Step(s: System, e: Event): System {
    match e
    case Tick(elapsed) => s.(server := CP.Step(s.server, CP.Tick(elapsed)), worker := L.Step(s.worker, L.Tick(elapsed)))
    case Elsewhere(event) => if IsElsewhere(event, s.me) then s.(server := CP.Step(s.server, event)) else s
    case StartLoop => s.(worker := L.Step(s.worker, L.StartLoop))
    case SendResult(task) =>
      if s.worker.phase.Flushing? && task in s.worker.phase.todo then
        s.(worker := L.Step(s.worker, L.SendResult(task)),
           submissions := s.submissions[s.nextRequest := Submission(task, s.worker.phase.todo[task])],
           current := s.nextRequest, nextRequest := s.nextRequest + 1)
      else s
    case FlushDone => s.(worker := L.Step(s.worker, L.FlushDone))
    case ServeSubmission(request) =>
      if request in s.submissions then
        var submission := s.submissions[request];
        var outcome := CP.SubmitTaskResult(s.server, s.me, submission.task, submission.result);
        s.(server := CP.Step(s.server, CP.ResultSubmitted(s.me, submission.task, submission.result)),
           accepted := if outcome.Ok? then s.accepted + {request} else s.accepted)
      else s
    case ReceiveAck(saveOk) =>
      if s.worker.phase.AwaitingAck? && s.current in s.accepted
      then s.(worker := L.Step(s.worker, L.Acknowledged(saveOk)))
      else s
    case SubmissionFailed => s.(worker := L.Step(s.worker, L.SubmissionFailed))
    case SendPoll =>
      if s.worker.phase.ReadyToPoll? then
        s.(worker := L.Step(s.worker, L.Poll), polls := s.polls + {s.nextRequest},
           current := s.nextRequest, nextRequest := s.nextRequest + 1)
      else s
    case ServePoll(request, pick) =>
      if request in s.polls && CP.IsOldestReady(s.server, s.me, pick)
         && CP.NextTask(s.server, s.me, pick).Ok? && pick.Some? then
        s.(server := CP.Step(s.server, CP.TaskPolled(s.me, pick)), envelopes := s.envelopes[pick.value := request])
      else s
    case ReceiveTask(task, signatureValid, actionId, paths, attempt) =>
      if s.worker.phase.AwaitingTask? && task in s.envelopes && s.envelopes[task] == s.current
         && task < |s.server.tasks|
      then
        var signed := L.SignedTask(task, actionId, s.server.tasks[task].expiresAt, paths);
        ReceiveEnvelope(s, L.Envelope(task, signatureValid, signed), attempt)
      else s
    case PollFailed => s.(worker := L.Step(s.worker, L.PollFailed))
    case QueueResult(saveOk) => s.(worker := L.Step(s.worker, L.QueueResult(saveOk)))
    case Crash => s.(worker := L.Step(s.worker, L.Crash))
  }

  function Run(s: System, events: seq<Event>): System
    decreases |events|
  {
    if events == [] then s else Run(Step(s, events[0]), events[1..])
  }

  // ---------------------------------------------------------------- invariant

  type Tasks = seq<CP.Task>

  /** A task of the agent that has been handed out and whose envelope is no longer on its way. */
  predicate HandedOver(tasks: Tasks, me: CP.AgentId, envelopes: map<TaskId, RequestId>, t: TaskId) {
    && t < |tasks|
    && tasks[t].agent == me
    && (tasks[t].progress.status == CP.Running || CP.Done(tasks[t].progress.status))
    && t !in envelopes
  }

  /** The control plane holds exactly the result the agent computed. */
  predicate Stored(tasks: Tasks, computed: map<TaskId, L.TaskResult>, t: TaskId) {
    && t < |tasks|
    && CP.Done(tasks[t].progress.status)
    && t in computed
    && tasks[t].progress.outcome == CP.Reported(computed[t])
  }

  /** Rows, envelopes on their way, computed results and executions agree. */
  ghost predicate RowsSound(tasks: Tasks, me: CP.AgentId, envelopes: map<TaskId, RequestId>,
                            computed: map<TaskId, L.TaskResult>, ran: multiset<TaskId>)
  {
    && (forall t :: t in envelopes ==> t < |tasks| && tasks[t].agent == me && tasks[t].progress.status == CP.Running)
    && (forall t :: 0 <= t < |tasks| && tasks[t].agent == me && CP.Done(tasks[t].progress.status) ==>
        Stored(tasks, computed, t))
    && (forall t :: t in computed ==> HandedOver(tasks, me, envelopes, t))
    && (forall t: TaskId :: ran[t] <= 1)
    && (forall t: TaskId :: ran[t] == 1 ==> t in computed)
  }

  /** A ledger mentions computed results only, and calls completed only what the control plane has stored. */
  ghost predicate LedgerSound(tasks: Tasks, computed: map<TaskId, L.TaskResult>, ledger: L.Ledger) {
    && (forall t :: t in ledger.pending ==> t in computed && ledger.pending[t] == computed[t])
    && (forall t :: t in ledger.completed ==> Stored(tasks, computed, t))
  }

  ghost predicate ChannelSound(tasks: Tasks, computed: map<TaskId, L.TaskResult>,
                               submissions: map<RequestId, Submission>, accepted: set<RequestId>,
                               nextRequest: RequestId)
  {
    && (forall r :: r in submissions ==>
          r < nextRequest && submissions[r].task in computed && submissions[r].result == computed[submissions[r].task])
    && (forall r :: r in accepted ==> r in submissions && Stored(tasks, computed, submissions[r].task))
  }

  ghost predicate PhaseSound(worker: L.Worker, computed: map<TaskId, L.TaskResult>,
                             submissions: map<RequestId, Submission>, current: RequestId)
  {
    && (worker.phase.Executed? ==> worker.phase.id in computed && worker.phase.result == computed[worker.phase.id])
    && (worker.phase.AwaitingAck? ==> current in submissions && submissions[current].task == worker.phase.id)
  }

  ghost predicate Sound(s: System) {
    && RowsSound(s.server.tasks, s.me, s.envelopes, s.computed, s.worker.ran)
    && LedgerSound(s.server.tasks, s.computed, s.worker.memory)
    && LedgerSound(s.server.tasks, s.computed, s.worker.disk)
    && ChannelSound(s.server.tasks, s.computed, s.submissions, s.accepted, s.nextRequest)
    && PhaseSound(s.worker, s.computed, s.submissions, s.current)
  }

  ghost predicate Inv(s: System) {
    CP.Inv(s.server) && L.Inv(s.worker) && Sound(s)
  }

  lemma StartSound(server: CP.State, me: CP.AgentId)
    requires forall t :: 0 <= t < |server.tasks| && server.tasks[t].agent == me ==>
        !CP.Done(server.tasks[t].progress.status)
    ensures Sound(Start(server, me))
  {
  }

  /** What others can do to the rows: queue new tasks, cancel this agent's queued ones, change other agents' own. */
  predicate MovedElsewhere(tasks: Tasks, later: Tasks, me: CP.AgentId) {
    && |tasks| <= |later|
    && (forall t :: 0 <= t < |tasks| ==>
          && later[t].agent == tasks[t].agent
          && (tasks[t].agent == me ==>
                later[t] == tasks[t]
                || (tasks[t].progress.status == CP.Queued && later[t].progress.status == CP.Canceled)))
    && (forall t :: |tasks| <= t < |later| ==> later[t].progress.status == CP.Queued)
  }

  lemma RequestsMove(server: CP.State, e: CP.Event, me: CP.AgentId)
    requires e.TaskCreated? || e.JobCreated? || e.ApprovalDecided?
    ensures MovedElsewhere(server.tasks, CP.Step(server, e).tasks, me)
  {
  }

  lemma AgentsMove(server: CP.State, e: CP.Event, me: CP.AgentId)
    requires IsElsewhere(e, me) && (e.TaskPolled? || e.ResultSubmitted?)
    ensures MovedElsewhere(server.tasks, CP.Step(server, e).tasks, me)
  {
  }

  lemma ElsewhereMoves(server: CP.State, e: CP.Event, me: CP.AgentId)
    requires IsElsewhere(e, me)
    ensures MovedElsewhere(server.tasks, CP.Step(server, e).tasks, me)
  {
    if e.TaskCreated? || e.JobCreated? || e.ApprovalDecided? {
      RequestsMove(server, e, me);
    } else if e.TaskPolled? || e.ResultSubmitted? {
      AgentsMove(server, e, me);
    }
  }

  /** Every result stored before is stored after. */
  ghost predicate KeepsStored(tasks: Tasks, later: Tasks, computed: map<TaskId, L.TaskResult>) {
    forall t: TaskId :: Stored(tasks, computed, t) ==> Stored(later, computed, t)
  }

  lemma LedgerFrame(tasks: Tasks, later: Tasks, computed: map<TaskId, L.TaskResult>, ledger: L.Ledger)
    requires LedgerSound(tasks, computed, ledger) && KeepsStored(tasks, later, computed)
    ensures LedgerSound(later, computed, ledger)
  {
  }

  lemma ChannelFrame(tasks: Tasks, later: Tasks, computed: map<TaskId, L.TaskResult>,
                     submissions: map<RequestId, Submission>, accepted: set<RequestId>, nextRequest: RequestId)
    requires ChannelSound(tasks, computed, submissions, accepted, nextRequest) && KeepsStored(tasks, later, computed)
    ensures ChannelSound(later, computed, submissions, accepted, nextRequest)
  {
  }

  /** A change of the rows that keeps them sound and keeps what is stored keeps everything sound. */
  lemma RowsFrame(s: System, later: CP.State, envelopes: map<TaskId, RequestId>)
    requires Sound(s)
    requires RowsSound(later.tasks, s.me, envelopes, s.computed, s.worker.ran)
    requires KeepsStored(s.server.tasks, later.tasks, s.computed)
    ensures Sound(s.(server := later, envelopes := envelopes))
  {
    LedgerFrame(s.server.tasks, later.tasks, s.computed, s.worker.memory);
    LedgerFrame(s.server.tasks, later.tasks, s.computed, s.worker.disk);
    ChannelFrame(s.server.tasks, later.tasks, s.computed, s.submissions, s.accepted, s.nextRequest);
  }

  lemma ElsewhereKeepsRows(tasks: Tasks, later: Tasks, me: CP.AgentId, envelopes: map<TaskId, RequestId>,
                           computed: map<TaskId, L.TaskResult>, ran: multiset<TaskId>)
    requires RowsSound(tasks, me, envelopes, computed, ran) && MovedElsewhere(tasks, later, me)
    ensures RowsSound(later, me, envelopes, computed, ran) && KeepsStored(tasks, later, computed)
  {
    forall t | t in computed
      ensures HandedOver(later, me, envelopes, t) && later[t] == tasks[t]
    {
      assert HandedOver(tasks, me, envelopes, t);
    }
  }

  /** Dispatch of a queued task of this agent. */
  lemma DispatchKeepsRows(tasks: Tasks, task: CP.Task, me: CP.AgentId, envelopes: map<TaskId, RequestId>,
                          computed: map<TaskId, L.TaskResult>, ran: multiset<TaskId>, p: TaskId, request: RequestId)
    requires RowsSound(tasks, me, envelopes, computed, ran)
    requires p < |tasks| && tasks[p].agent == me && tasks[p].progress.status == CP.Queued
    requires task.agent == me && task.progress.status == CP.Running
    ensures RowsSound(tasks[p := task], me, envelopes[p := request], computed, ran)
    ensures KeepsStored(tasks, tasks[p := task], computed)
  {
    forall t | t in computed
      ensures t != p && HandedOver(tasks[p := task], me, envelopes[p := request], t)
    {
      assert HandedOver(tasks, me, envelopes, t);
    }
  }

  /** The first accepted submission of a running task's computed result. */
  lemma StoreKeepsRows(tasks: Tasks, task: CP.Task, me: CP.AgentId, envelopes: map<TaskId, RequestId>,
                       computed: map<TaskId, L.TaskResult>, ran: multiset<TaskId>, id: TaskId)
    requires RowsSound(tasks, me, envelopes, computed, ran)
    requires id in computed && id < |tasks| && task.agent == tasks[id].agent
    requires CP.Done(task.progress.status) && task.progress.outcome == CP.Reported(computed[id])
    ensures RowsSound(tasks[id := task], me, envelopes, computed, ran)
    ensures KeepsStored(tasks, tasks[id := task], computed) && Stored(tasks[id := task], computed, id)
  {
    assert HandedOver(tasks, me, envelopes, id);
    forall t | t in computed
      ensures HandedOver(tasks[id := task], me, envelopes, t)
    {
      assert HandedOver(tasks, me, envelopes, t);
    }
  }

  /** The agent takes an envelope and computes the task's result, running its action at most once. */
  lemma ReceiveKeepsRows(tasks: Tasks, me: CP.AgentId, envelopes: map<TaskId, RequestId>,
                         computed: map<TaskId, L.TaskResult>, ran: multiset<TaskId>, id: TaskId, result: L.TaskResult)
    requires RowsSound(tasks, me, envelopes, computed, ran) && id in envelopes
    ensures id !in computed
    ensures RowsSound(tasks, me, envelopes - {id}, computed[id := result], ran)
    ensures RowsSound(tasks, me, envelopes - {id}, computed[id := result], ran + multiset{id})
  {
    assert id in computed ==> HandedOver(tasks, me, envelopes, id);
    forall t | t in computed[id := result]
      ensures HandedOver(tasks, me, envelopes - {id}, t)
    {
      assert t != id ==> HandedOver(tasks, me, envelopes, t);
    }
  }

  lemma ServePollKeepsSound(s: System, request: RequestId, pick: Option<TaskId>)
    requires Sound(s)
    ensures Sound(Step(s, ServePoll(request, pick)))
  {
    if request in s.polls && CP.IsOldestReady(s.server, s.me, pick)
       && CP.NextTask(s.server, s.me, pick).Ok? && pick.Some?
    {
      var later := CP.Step(s.server, CP.TaskPolled(s.me, pick));
      var p := pick.value;
      assert later.tasks == s.server.tasks[p := later.tasks[p]];
      DispatchKeepsRows(s.server.tasks, later.tasks[p], s.me, s.envelopes, s.computed, s.worker.ran, p, request);
      RowsFrame(s, later, s.envelopes[p := request]);
    }
  }

  /** A submission in flight always finds its task running or already holding the same result. */
  lemma SubmissionEffect(s: System, request: RequestId)
    requires Sound(s) && request in s.submissions
    ensures var submission := s.submissions[request];
      var outcome := CP.SubmitTaskResult(s.server, s.me, submission.task, submission.result);
      && submission.task < |s.server.tasks|
      && (outcome == Ok(s.server) ==>
          s.server.tasks[submission.task].progress.status == CP.Running
          || Stored(s.server.tasks, s.computed, submission.task))
      && (outcome.Err? ==> outcome.error in {CP.AgentUnauthorized, CP.JobMissing})
  {
    assert HandedOver(s.server.tasks, s.me, s.envelopes, s.submissions[request].task);
  }

  /** What the control plane does with a submission in flight. */
  lemma SubmissionStores(s: System, request: RequestId)
    requires Sound(s) && request in s.submissions
    ensures var submission := s.submissions[request];
      var later := CP.Step(s.server, CP.ResultSubmitted(s.me, submission.task, submission.result));
      var accepted := CP.SubmitTaskResult(s.server, s.me, submission.task, submission.result).Ok?;
      && RowsSound(later.tasks, s.me, s.envelopes, s.computed, s.worker.ran)
      && KeepsStored(s.server.tasks, later.tasks, s.computed)
      && (accepted ==> Stored(later.tasks, s.computed, submission.task))
  {
    var submission := s.submissions[request];
    var later := CP.Step(s.server, CP.ResultSubmitted(s.me, submission.task, submission.result));
    assert HandedOver(s.server.tasks, s.me, s.envelopes, submission.task);
    var outcome := CP.SubmitTaskResult(s.server, s.me, submission.task, submission.result);
    if outcome.Ok? && !CP.Done(s.server.tasks[submission.task].progress.status) {
      assert later.tasks == s.server.tasks[submission.task := later.tasks[submission.task]];
      StoreKeepsRows(s.server.tasks, later.tasks[submission.task], s.me, s.envelopes, s.computed, s.worker.ran,
                     submission.task);
    } else {
      assert later == s.server;
    }
  }

  lemma ServeSubmissionKeepsSound(s: System, request: RequestId)
    requires Sound(s)
    ensures Sound(Step(s, ServeSubmission(request)))
  {
    if request in s.submissions {
      SubmissionStores(s, request);
      RowsFrame(s, Step(s, ServeSubmission(request)).server, s.envelopes);
    }
  }

  /** New results leave stored and pending ones as they are. */
  lemma LedgerGrows(tasks: Tasks, computed: map<TaskId, L.TaskResult>, ledger: L.Ledger, id: TaskId,
                    result: L.TaskResult)
    requires LedgerSound(tasks, computed, ledger) && id !in computed
    ensures LedgerSound(tasks, computed[id := result], ledger)
    ensures id !in ledger.completed
  {
    forall t | t in ledger.completed
      ensures t != id && Stored(tasks, computed[id := result], t)
    {
      assert Stored(tasks, computed, t);
    }
  }

  lemma ChannelGrows(tasks: Tasks, computed: map<TaskId, L.TaskResult>, submissions: map<RequestId, Submission>,
                     accepted: set<RequestId>, nextRequest: RequestId, id: TaskId, result: L.TaskResult)
    requires ChannelSound(tasks, computed, submissions, accepted, nextRequest) && id !in computed
    ensures ChannelSound(tasks, computed[id := result], submissions, accepted, nextRequest)
  {
  }

  lemma ReceiveKeepsSound(s: System, e: L.Envelope, attempt: L.Attempt)
    requires Sound(s) && s.worker.phase.AwaitingTask? && e.taskId in s.envelopes
    ensures Sound(ReceiveEnvelope(s, e, attempt))
  {
    var result := L.ExecutionResult(e, s.worker.now, attempt);
    ReceiveKeepsRows(s.server.tasks, s.me, s.envelopes, s.computed, s.worker.ran, e.taskId, result);
    LedgerGrows(s.server.tasks, s.computed, s.worker.memory, e.taskId, result);
    LedgerGrows(s.server.tasks, s.computed, s.worker.disk, e.taskId, result);
    ChannelGrows(s.server.tasks, s.computed, s.submissions, s.accepted, s.nextRequest, e.taskId, result);
  }

  /** A step of the task loop, put back together from its parts. */
  lemma WorkerFrame(s: System, worker: L.Worker)
    requires Sound(s) && worker.ran == s.worker.ran
    requires LedgerSound(s.server.tasks, s.computed, worker.memory)
    requires LedgerSound(s.server.tasks, s.computed, worker.disk)
    requires PhaseSound(worker, s.computed, s.submissions, s.current)
    ensures Sound(s.(worker := worker))
  {
  }

  /** The task loop moves on by itself: the memory stays, or is reloaded. */
  lemma LoopKeepsSound(s: System, worker: L.Worker)
    requires Sound(s)
    requires worker.ran == s.worker.ran && worker.disk == s.worker.disk
    requires worker.memory == s.worker.memory || worker.memory == s.worker.disk
    requires !worker.phase.Executed? && (worker.phase.AwaitingAck? ==> worker.phase == s.worker.phase)
    ensures Sound(s.(worker := worker))
  {
  }

  lemma LocalKeepsSound(s: System, e: L.Event)
    requires Sound(s)
    requires e.StartLoop? || e.FlushDone? || e.SubmissionFailed? || e.Poll? || e.PollFailed? || e.Crash?
    ensures Sound(s.(worker := L.Step(s.worker, e)))
  {
    if L.Step(s.worker, e) != s.worker {
      LoopKeepsSound(s, L.Step(s.worker, e));
    }
  }

  lemma AckKeepsSound(s: System, saveOk: bool)
    requires Sound(s)
    ensures Sound(Step(s, ReceiveAck(saveOk)))
  {
    if s.worker.phase.AwaitingAck? && s.current in s.accepted {
      var worker := L.Step(s.worker, L.Acknowledged(saveOk));
      assert Stored(s.server.tasks, s.computed, s.worker.phase.id);
      AckKeepsLedger(s.server.tasks, s.computed, s.worker.memory, s.worker.phase.id, s.worker.now);
      WorkerFrame(s, worker);
    }
  }

  lemma AckKeepsLedger(tasks: Tasks, computed: map<TaskId, L.TaskResult>, ledger: L.Ledger, id: TaskId, now: L.Time)
    requires LedgerSound(tasks, computed, ledger) && Stored(tasks, computed, id)
    ensures LedgerSound(tasks, computed, L.Acknowledge(ledger, id, now))
  {
  }

  lemma SendResultKeepsSound(s: System, task: TaskId)
    requires Sound(s) && L.Inv(s.worker)
    ensures Sound(Step(s, SendResult(task)))
  {
    if s.worker.phase.Flushing? && task in s.worker.phase.todo {
      SendKeepsChannel(s.server.tasks, s.computed, s.submissions, s.accepted, s.nextRequest, task);
    }
  }

  lemma SendKeepsChannel(tasks: Tasks, computed: map<TaskId, L.TaskResult>, submissions: map<RequestId, Submission>,
                         accepted: set<RequestId>, nextRequest: RequestId, task: TaskId)
    requires ChannelSound(tasks, computed, submissions, accepted, nextRequest) && task in computed
    ensures ChannelSound(tasks, computed, submissions[nextRequest := Submission(task, computed[task])], accepted,
                         nextRequest + 1)
  {
  }

  lemma QueueKeepsSound(s: System, saveOk: bool)
    requires Sound(s)
    ensures Sound(Step(s, QueueResult(saveOk)))
  {
    if s.worker.phase.Executed? {
      var worker := L.Queue(s.worker, s.worker.phase.id, s.worker.phase.result, saveOk);
      QueueKeepsLedger(s.server.tasks, s.computed, s.worker.memory, s.worker.phase.id);
      WorkerFrame(s, worker);
      assert Step(s, QueueResult(saveOk)) == s.(worker := worker);
    } else {
      assert Step(s, QueueResult(saveOk)) == s;
    }
  }

  lemma QueueKeepsLedger(tasks: Tasks, computed: map<TaskId, L.TaskResult>, ledger: L.Ledger, id: TaskId)
    requires LedgerSound(tasks, computed, ledger) && id in computed
    ensures LedgerSound(tasks, computed, ledger.(pending := ledger.pending[id := computed[id]]))
  {
  }

  lemma NewRequestKeepsSound(s: System, polls: set<RequestId>)
    requires Sound(s) && !s.worker.phase.AwaitingAck?
    ensures Sound(s.(polls := polls, current := s.nextRequest, nextRequest := s.nextRequest + 1))
  {
    ChannelNext(s.server.tasks, s.computed, s.submissions, s.accepted, s.nextRequest);
  }

  lemma ChannelNext(tasks: Tasks, computed: map<TaskId, L.TaskResult>, submissions: map<RequestId, Submission>,
                    accepted: set<RequestId>, nextRequest: RequestId)
    requires ChannelSound(tasks, computed, submissions, accepted, nextRequest)
    ensures ChannelSound(tasks, computed, submissions, accepted, nextRequest + 1)
  {
  }

  lemma SendPollKeepsSound(s: System)
    requires Sound(s)
    ensures Sound(Step(s, SendPoll))
  {
    if s.worker.phase.ReadyToPoll? {
      LocalKeepsSound(s, L.Poll);
      NewRequestKeepsSound(s.(worker := L.Step(s.worker, L.Poll)), s.polls + {s.nextRequest});
    }
  }

  lemma ElsewhereKeepsSound(s: System, e: CP.Event)
    requires Sound(s) && IsElsewhere(e, s.me)
    ensures Sound(s.(server := CP.Step(s.server, e)))
  {
    var later := CP.Step(s.server, e);
    ElsewhereMoves(s.server, e, s.me);
    ElsewhereKeepsRows(s.server.tasks, later.tasks, s.me, s.envelopes, s.computed, s.worker.ran);
    RowsFrame(s, later, s.envelopes);
  }

  lemma TickKeepsSound(s: System, elapsed: nat)
    requires Sound(s)
    ensures Sound(Step(s, Tick(elapsed)))
  {
    RowsFrame(s, CP.Step(s.server, CP.Tick(elapsed)), s.envelopes);
    WorkerFrame(s.(server := CP.Step(s.server, CP.Tick(elapsed))), L.Step(s.worker, L.Tick(elapsed)));
  }

  lemma LoopStepKeepsSound(s: System, e: Event)
    requires Sound(s)
    requires e.StartLoop? || e.FlushDone? || e.SubmissionFailed? || e.PollFailed? || e.Crash?
    ensures Sound(Step(s, e))
  {
    var local := match e
      case StartLoop => L.StartLoop
      case FlushDone => L.FlushDone
      case SubmissionFailed => L.SubmissionFailed
      case PollFailed => L.PollFailed
      case Crash => L.Crash;
    LocalKeepsSound(s, local);
    assert Step(s, e) == s.(worker := L.Step(s.worker, local));
  }

  lemma ReceiveTaskKeepsSound(s: System, e: Event)
    requires Sound(s) && e.ReceiveTask?
    ensures Sound(Step(s, e))
  {
    if s.worker.phase.AwaitingTask? && e.task in s.envelopes && s.envelopes[e.task] == s.current
      && e.task < |s.server.tasks| {
      var signed := L.SignedTask(e.task, e.actionId, s.server.tasks[e.task].expiresAt, e.paths);
      ReceiveKeepsSound(s, L.Envelope(e.task, e.signatureValid, signed), e.attempt);
    }
  }

  lemma ElsewhereStepKeepsSound(s: System, e: CP.Event)
    requires Sound(s)
    ensures Sound(Step(s, Elsewhere(e)))
  {
    if IsElsewhere(e, s.me) {
      ElsewhereKeepsSound(s, e);
    }
  }

  lemma StepKeepsSound(s: System, e: Event)
    requires Sound(s) && L.Inv(s.worker)
    ensures Sound(Step(s, e))
  {
    match e
    case Tick(elapsed) => TickKeepsSound(s, elapsed);
    case Elsewhere(event) => ElsewhereStepKeepsSound(s, event);
    case SendResult(task) => SendResultKeepsSound(s, task);
    case ServeSubmission(request) => ServeSubmissionKeepsSound(s, request);
    case ReceiveAck(saveOk) => AckKeepsSound(s, saveOk);
    case SendPoll => SendPollKeepsSound(s);
    case ServePoll(request, pick) => ServePollKeepsSound(s, request, pick);
    case ReceiveTask(_, _, _, _, _) => ReceiveTaskKeepsSound(s, e);
    case QueueResult(saveOk) => QueueKeepsSound(s, saveOk);
    case _ => LoopStepKeepsSound(s, e);
  }

  /** The control plane's own invariant: every step is one of its steps, or leaves it alone. */
  lemma StepKeepsServer(s: System, e: Event)
    requires CP.Inv(s.server)
    ensures CP.Inv(Step(s, e).server)
  {
    match e
    case Tick(elapsed) => CP.StepKeepsInv(s.server, CP.Tick(elapsed));
    case Elsewhere(event) => CP.StepKeepsInv(s.server, event);
    case ServeSubmission(request) =>
      if request in s.submissions {
        CP.StepKeepsInv(s.server, CP.ResultSubmitted(s.me, s.submissions[request].task, s.submissions[request].result));
      }
    case ServePoll(request, pick) => CP.StepKeepsInv(s.server, CP.TaskPolled(s.me, pick));
    case _ =>
  }

  /** The task loop's own invariant: every step is one of its steps, or leaves it alone. */
  lemma StepKeepsWorker(s: System, e: Event)
    requires L.Inv(s.worker)
    ensures L.Inv(Step(s, e).worker)
  {
    match e
    case Tick(elapsed) => L.StepKeepsInv(s.worker, L.Tick(elapsed));
    case StartLoop => L.StepKeepsInv(s.worker, L.StartLoop);
    case SendResult(task) => L.StepKeepsInv(s.worker, L.SendResult(task));
    case FlushDone => L.StepKeepsInv(s.worker, L.FlushDone);
    case ReceiveAck(saveOk) => L.StepKeepsInv(s.worker, L.Acknowledged(saveOk));
    case SubmissionFailed => L.StepKeepsInv(s.worker, L.SubmissionFailed);
    case SendPoll => L.StepKeepsInv(s.worker, L.Poll);
    case ReceiveTask(task, signatureValid, actionId, paths, attempt) =>
      if task < |s.server.tasks| {
        var envelope := L.Envelope(task, signatureValid,
                                   L.SignedTask(task, actionId, s.server.tasks[task].expiresAt, paths));
        L.StepKeepsInv(s.worker, L.Receive(envelope, attempt));
      }
    case PollFailed => L.StepKeepsInv(s.worker, L.PollFailed);
    case QueueResult(saveOk) => L.StepKeepsInv(s.worker, L.QueueResult(saveOk));
    case Crash => L.StepKeepsInv(s.worker, L.Crash);
    case _ =>
  }

  lemma {:induction false} RunKeepsInv(s: System, events: seq<Event>)
    requires Inv(s)
    ensures Inv(Run(s, events))
    decreases |events|
  {
    if events != [] {
      StepKeepsSound(s, events[0]);
      StepKeepsServer(s, events[0]);
      StepKeepsWorker(s, events[0]);
      RunKeepsInv(Step(s, events[0]), events[1..]);
    }
  }

  // ----------------------------------------------------------------- theorems

  /** An agent that starts with an empty ledger, on a control plane with any history of other agents and users. */
  ghost predicate Deployed(server: CP.State, me: CP.AgentId) {
    && CP.Inv(server)
    && forall t :: 0 <= t < |server.tasks| && server.tasks[t].agent == me ==> !CP.Done(server.tasks[t].progress.status)
  }

  lemma ReachableInv(server: CP.State, me: CP.AgentId, events: seq<Event>)
    requires Deployed(server, me)
    ensures Inv(Run(Start(server, me), events))
  {
    StartSound(server, me);
    RunKeepsInv(Start(server, me), events);
  }

  /** The event has delivered the task's envelope, and this result fits its execution. */
  predicate ComputesResult(s: System, e: Event, t: TaskId, result: L.TaskResult) {
    && e.ReceiveTask? && e.task == t < |s.server.tasks|
    && var signed := L.SignedTask(t, e.actionId, s.server.tasks[t].expiresAt, e.paths);
    L.Fits(result, L.Envelope(t, e.signatureValid, signed), s.worker.now, e.attempt)
  }

  lemma StepComputes(s: System, e: Event, t: TaskId)
    requires t in Step(s, e).computed && !(t in s.computed && s.computed[t] == Step(s, e).computed[t])
    ensures ComputesResult(s, e, t, Step(s, e).computed[t])
  {
    var signed := L.SignedTask(e.task, e.actionId, s.server.tasks[e.task].expiresAt, e.paths);
    L.ResultFits(L.Envelope(e.task, e.signatureValid, signed), s.worker.now, e.attempt);
  }

  lemma RunToLast(s: System, events: seq<Event>)
    requires events != []
    ensures Run(s, events) == Step(Run(s, events[..|events| - 1]), events[|events| - 1])
    decreases |events|
  {
    if |events| > 1 {
      RunToLast(Step(s, events[0]), events[1..]);
      assert events[1..][..|events| - 2] == events[..|events| - 1][1..];
    }
  }

  /** Every result ever computed fits the execution of an envelope that the run delivered. */
  lemma {:induction false} ComputedResultsFit(s: System, events: seq<Event>, t: TaskId)
    requires s.computed == map[] && t in Run(s, events).computed
    ensures exists i ::
      0 <= i < |events| && ComputesResult(Run(s, events[..i]), events[i], t, Run(s, events).computed[t])
    decreases |events|
  {
    var n := |events| - 1;
    RunToLast(s, events);
    var before := Run(s, events[..n]);
    if t in before.computed && before.computed[t] == Run(s, events).computed[t] {
      ComputedResultsFit(s, events[..n], t);
      var i :| 0 <= i < n && ComputesResult(Run(s, events[..n][..i]), events[..n][i], t, before.computed[t]);
      assert events[..n][..i] == events[..i];
    } else {
      StepComputes(before, events[n], t);
    }
  }

  /**
    Over every run with lost, repeated and late requests, failed saves and
    crashes: a task's action runs at most once; a computed result is that of
    executing an envelope the run delivered; a finished task of the agent holds
    exactly the result the agent computed for it, succeeded if and only if that
    is a success; and its job carries the result too, with exactly one
    completion entry, of the same status, on its event's timeline.
   */
  lemma ActionOnceAndResultExact(server: CP.State, me: CP.AgentId, events: seq<Event>, t: TaskId)
    requires Deployed(server, me)
    ensures var s := Run(Start(server, me), events);
      && s.worker.ran[t] <= 1
      && (t in s.computed ==> exists i ::
            0 <= i < |events| && ComputesResult(Run(Start(server, me), events[..i]), events[i], t, s.computed[t]))
      && (t < |s.server.tasks| && s.server.tasks[t].agent == me && CP.Done(s.server.tasks[t].progress.status) ==>
            && t in s.computed
            && s.server.tasks[t].progress.outcome == CP.Reported(s.computed[t])
            && (s.server.tasks[t].progress.status == CP.Succeeded <==> s.computed[t].status == L.Succeeded)
            && (s.server.tasks[t].job.Some? ==>
                  && var j := s.server.tasks[t].job.value;
                  && j < |s.server.jobs|
                  && s.server.jobs[j].progress == s.server.tasks[t].progress
                  && (s.server.jobs[j].event.Some? ==>
                        s.server.timeline[CP.TimelineEntry(s.server.jobs[j].event.value, j,
                                                           CP.Completed(s.server.tasks[t].progress.status))] == 1)))
  {
    ReachableInv(server, me, events);
    var s := Run(Start(server, me), events);
    MeStays(Start(server, me), events);
    if t in s.computed {
      ComputedResultsFit(Start(server, me), events, t);
    }
    if t < |s.server.tasks| && s.server.tasks[t].agent == me && CP.Done(s.server.tasks[t].progress.status) {
      assert Stored(s.server.tasks, s.computed, t);
      if s.server.tasks[t].job.Some? && s.server.jobs[s.server.tasks[t].job.value].event.Some? {
        var j := s.server.tasks[t].job.value;
        var event, status := s.server.jobs[j].event.value, s.server.tasks[t].progress.status;
        assert CP.Logged(s.server.timeline, event, j, status) == CP.ExpectedLogs(s.server.jobs, event, j, status);
      }
    }
  }

  lemma {:induction false} MeStays(s: System, events: seq<Event>)
    ensures Run(s, events).me == s.me
    decreases |events|
  {
    if events != [] {
      MeStays(Step(s, events[0]), events[1..]);
    }
  }

  /** A computed result is never replaced: there is one per task. */
  lemma ComputedIsFinal(s: System, e: Event, t: TaskId)
    requires Sound(s) && t in s.computed
    ensures t in Step(s, e).computed && Step(s, e).computed[t] == s.computed[t]
  {
    assert t !in s.envelopes by {
      assert HandedOver(s.server.tasks, s.me, s.envelopes, t);
    }
  }

  /** No submission ever meets a missing or conflicting task or job: only a disabled agent is refused. */
  lemma SubmissionsNeverConflict(server: CP.State, me: CP.AgentId, events: seq<Event>, request: RequestId)
    requires Deployed(server, me)
    requires request in Run(Start(server, me), events).submissions
    ensures var s := Run(Start(server, me), events);
      var outcome := CP.SubmitTaskResult(s.server, me, s.submissions[request].task, s.submissions[request].result);
      outcome.Ok? || outcome.error == CP.AgentUnauthorized
  {
    ReachableInv(server, me, events);
    MeStays(Start(server, me), events);
    SubmissionMeetsItsTask(Run(Start(server, me), events), request);
  }

  lemma SubmissionMeetsItsTask(s: System, request: RequestId)
    requires CP.Inv(s.server) && Sound(s) && request in s.submissions
    ensures var submission := s.submissions[request];
      var outcome := CP.SubmitTaskResult(s.server, s.me, submission.task, submission.result);
      outcome.Ok? || outcome.error == CP.AgentUnauthorized
  {
    SubmissionEffect(s, request);
  }

  /** The agent calls a task completed only when the control plane has stored exactly the result it computed. */
  lemma CompletedTasksAreStored(server: CP.State, me: CP.AgentId, events: seq<Event>, t: TaskId)
    requires Deployed(server, me)
    requires t in Run(Start(server, me), events).worker.memory.completed
    ensures Stored(Run(Start(server, me), events).server.tasks, Run(Start(server, me), events).computed, t)
  {
    ReachableInv(server, me, events);
  }
}
