/**
  A task can get through: from a request on the control plane to the agent, its
  execution, and back, whatever has happened before. What holds of every run in
  `TaskExecution` is not for want of runs that do something.
 */
module TaskProgress {
  import opened Wrappers
  import opened TaskExecution
  import D = TaskDurability
  import CP = ControlPlane
  import L = TaskLedger

  /** Agent and control plane read one clock, in every run. */
  lemma {:induction false} ClocksAgree(s: System, events: seq<Event>)
    requires s.worker.now == s.server.now
    ensures Run(s, events).worker.now == Run(s, events).server.now
    decreases |events|
  {
    if events != [] {
      ClocksAgreeAfterStep(s, events[0]);
      ClocksAgree(Step(s, events[0]), events[1..]);
    }
  }

  lemma ClocksAgreeAfterStep(s: System, e: Event)
    requires s.worker.now == s.server.now
    ensures Step(s, e).worker.now == Step(s, e).server.now
  {
    D.LocalStepIsStep(s, e);
  }

  /** The agent is between two turns of its loop, with nothing to submit. */
  predicate AtRest(w: L.Worker) {
    w.phase.LoopTop? && w.memory.pending == map[]
  }

  /** The task's turn: it waits for the agent, and none of the agent's tasks was created earlier. */
  predicate IsNext(s: System, t: TaskId) {
    CP.IsOldestReady(s.server, s.me, Some(t)) && D.Enabled(s)
  }

  /** A poll, its answer, and the execution of the envelope. */
  function Fetching(s: System, t: TaskId, usage: nat): seq<Event> {
    [StartLoop, FlushDone, SendPoll, ServePoll(s.nextRequest, Some(t)),
     ReceiveTask(t, true, "system.disk_usage", ["/"], L.Attempt(Some(usage), 0))]
  }

  /** The result saved, submitted, processed and acknowledged. */
  function Returning(s: System, t: TaskId): seq<Event> {
    [QueueResult(true), SendResult(t), ServeSubmission(s.nextRequest), ReceiveAck(true), FlushDone]
  }

  lemma TwoSteps(s: System, first: Event, rest: seq<Event>)
    ensures Run(s, [first] + rest) == Run(Step(s, first), rest)
  {
    assert ([first] + rest)[1..] == rest;
  }

  lemma Polls(s: System) returns (polled: System)
    requires AtRest(s.worker)
    ensures polled == Step(Step(Step(s, StartLoop), FlushDone), SendPoll)
    ensures polled == s.(worker := s.worker.(phase := L.AwaitingTask), polls := s.polls + {s.nextRequest},
                         current := s.nextRequest, nextRequest := s.nextRequest + 1)
  {
    polled := Step(Step(Step(s, StartLoop), FlushDone), SendPoll);
  }

  lemma Served(s: System, request: RequestId, t: TaskId) returns (served: System)
    requires Sound(s) && CP.Inv(s.server) && IsNext(s, t) && request in s.polls
    ensures served == Step(s, ServePoll(request, Some(t)))
    ensures served == s.(server := served.server, envelopes := s.envelopes[t := request])
    ensures t < |served.server.tasks| && served.server.tasks[t].expiresAt == s.server.tasks[t].expiresAt
    ensures served.server.now == s.server.now < s.server.tasks[t].expiresAt
    ensures D.Enabled(served)
  {
    served := Step(s, ServePoll(request, Some(t)));
  }

  lemma Executes(s: System, t: TaskId, usage: nat) returns (executed: System)
    requires s.worker.phase.AwaitingTask? && t in s.envelopes && s.envelopes[t] == s.current
    requires t < |s.server.tasks| && s.worker.now <= s.server.tasks[t].expiresAt && t !in s.worker.memory.completed
    ensures executed == Step(s, ReceiveTask(t, true, "system.disk_usage", ["/"], L.Attempt(Some(usage), 0)))
    ensures var result := L.TaskResult(L.Succeeded, 0, Some(usage), None);
      executed == s.(worker := s.worker.(phase := L.Executed(t, result), ran := s.worker.ran + multiset{t}),
                     envelopes := s.envelopes - {t}, computed := s.computed[t := result])
  {
    executed := Step(s, ReceiveTask(t, true, "system.disk_usage", ["/"], L.Attempt(Some(usage), 0)));
  }

  /** A queued task is neither computed nor completed yet. */
  lemma NextIsFresh(s: System, t: TaskId)
    requires Sound(s) && IsNext(s, t)
    ensures t !in s.computed && t !in s.worker.memory.completed
  {
    assert t in s.computed ==> HandedOver(s.server.tasks, s.me, s.envelopes, t);
    assert t in s.worker.memory.completed ==> Stored(s.server.tasks, s.computed, t);
  }

  lemma FetchingRuns(s: System, t: TaskId, usage: nat)
    ensures Run(s, Fetching(s, t, usage)) ==
      Step(Step(Step(Step(Step(s, StartLoop), FlushDone), SendPoll), ServePoll(s.nextRequest, Some(t))),
           ReceiveTask(t, true, "system.disk_usage", ["/"], L.Attempt(Some(usage), 0)))
  {
    var receive := ReceiveTask(t, true, "system.disk_usage", ["/"], L.Attempt(Some(usage), 0));
    var a, b := Step(s, StartLoop), Step(Step(s, StartLoop), FlushDone);
    var c := Step(b, SendPoll);
    var d := Step(c, ServePoll(s.nextRequest, Some(t)));
    TwoSteps(s, StartLoop, [FlushDone, SendPoll, ServePoll(s.nextRequest, Some(t)), receive]);
    TwoSteps(a, FlushDone, [SendPoll, ServePoll(s.nextRequest, Some(t)), receive]);
    TwoSteps(b, SendPoll, [ServePoll(s.nextRequest, Some(t)), receive]);
    TwoSteps(c, ServePoll(s.nextRequest, Some(t)), [receive]);
    TwoSteps(d, receive, []);
  }

  lemma Fetched(s: System, t: TaskId, usage: nat) returns (executed: System)
    requires Inv(s) && IsNext(s, t) && AtRest(s.worker) && s.worker.now == s.server.now
    ensures executed == Run(s, Fetching(s, t, usage))
    ensures executed.worker.phase == L.Executed(t, L.TaskResult(L.Succeeded, 0, Some(usage), None))
    ensures t in executed.computed && executed.computed[t] == L.TaskResult(L.Succeeded, 0, Some(usage), None)
    ensures executed.worker.ran == s.worker.ran + multiset{t} && executed.worker.memory == s.worker.memory
    ensures D.Enabled(executed) && executed.me == s.me
  {
    NextIsFresh(s, t);
    var polled := Polls(s);
    PolledIsSound(s);
    var served := Served(polled, s.nextRequest, t);
    executed := Executes(served, t, usage);
    FetchingRuns(s, t, usage);
  }

  lemma PolledIsSound(s: System)
    requires Inv(s)
    ensures Sound(Step(Step(Step(s, StartLoop), FlushDone), SendPoll))
  {
    D.StepKeepsInv(s, StartLoop);
    D.StepKeepsInv(Step(s, StartLoop), FlushDone);
    D.StepKeepsInv(Step(Step(s, StartLoop), FlushDone), SendPoll);
  }

  lemma Submits(s: System, t: TaskId, result: L.TaskResult) returns (sent: System)
    requires s.worker.phase == L.Executed(t, result) && s.worker.memory.pending == map[]
    ensures sent == Step(Step(s, QueueResult(true)), SendResult(t))
    ensures sent.worker.phase == L.AwaitingAck(t, map[], false) && sent.worker.memory.pending == map[t := result]
    ensures sent.submissions == s.submissions[s.nextRequest := Submission(t, result)] && sent.current == s.nextRequest
    ensures sent.worker.ran == s.worker.ran && sent.server == s.server && sent.me == s.me
    ensures sent.computed == s.computed
  {
    sent := Step(Step(s, QueueResult(true)), SendResult(t));
    assert map[][t := result] - {t} == map[];
  }

  lemma Acknowledges(s: System, t: TaskId) returns (done: System)
    requires s.worker.phase == L.AwaitingAck(t, map[], false) && s.current in s.accepted
    requires s.worker.memory.pending.Keys == {t}
    ensures done == Step(Step(s, ReceiveAck(true)), FlushDone)
    ensures AtRest(done.worker) && t in done.worker.memory.completed && t in done.worker.disk.completed
    ensures done.server == s.server && done.computed == s.computed && done.worker.ran == s.worker.ran
  {
    done := Step(Step(s, ReceiveAck(true)), FlushDone);
    assert s.worker.memory.pending - {t} == map[];
  }

  lemma ReturningRuns(s: System, t: TaskId)
    ensures Run(s, Returning(s, t)) ==
      Step(Step(Step(Step(Step(s, QueueResult(true)), SendResult(t)), ServeSubmission(s.nextRequest)),
                ReceiveAck(true)), FlushDone)
  {
    var a, b := Step(s, QueueResult(true)), Step(Step(s, QueueResult(true)), SendResult(t));
    var c := Step(b, ServeSubmission(s.nextRequest));
    var d := Step(c, ReceiveAck(true));
    TwoSteps(s, QueueResult(true), [SendResult(t), ServeSubmission(s.nextRequest), ReceiveAck(true), FlushDone]);
    TwoSteps(a, SendResult(t), [ServeSubmission(s.nextRequest), ReceiveAck(true), FlushDone]);
    TwoSteps(b, ServeSubmission(s.nextRequest), [ReceiveAck(true), FlushDone]);
    TwoSteps(c, ReceiveAck(true), [FlushDone]);
    TwoSteps(d, FlushDone, []);
  }

  lemma ServedOk(s: System, request: RequestId) returns (served: System)
    requires request in s.submissions
    requires CP.SubmitTaskResult(s.server, s.me, s.submissions[request].task, s.submissions[request].result).Ok?
    ensures served == Step(s, ServeSubmission(request)) && request in served.accepted
    ensures served.worker == s.worker && served.current == s.current && served.computed == s.computed
  {
    served := Step(s, ServeSubmission(request));
  }

  lemma Accepts(s: System, request: RequestId) returns (served: System)
    requires Inv(s) && request in s.submissions && D.Enabled(s)
    ensures served == Step(s, ServeSubmission(request))
    ensures request in served.accepted && D.StoredIn(served, s.submissions[request].task)
    ensures served.worker == s.worker && served.current == s.current && served.computed == s.computed
  {
    D.RunningIsAccepted(s, request);
    D.AcceptedIsStored(s, request);
    served := ServedOk(s, request);
  }

  lemma SentIsSound(s: System, t: TaskId)
    requires Inv(s)
    ensures Inv(Step(Step(s, QueueResult(true)), SendResult(t)))
  {
    D.StepKeepsInv(s, QueueResult(true));
    D.StepKeepsInv(Step(s, QueueResult(true)), SendResult(t));
  }

  lemma Delivered(s: System, t: TaskId, result: L.TaskResult) returns (served: System)
    requires Inv(s) && D.Enabled(s) && s.worker.phase == L.Executed(t, result) && s.worker.memory.pending == map[]
    ensures served == Step(Step(Step(s, QueueResult(true)), SendResult(t)), ServeSubmission(s.nextRequest))
    ensures D.StoredIn(served, t) && served.computed == s.computed && served.worker.ran == s.worker.ran
    ensures served.worker.phase == L.AwaitingAck(t, map[], false) && served.current in served.accepted
    ensures served.worker.memory.pending == map[t := result]
  {
    var sent := Submits(s, t, result);
    SentIsSound(s, t);
    served := Accepts(sent, s.nextRequest);
  }

  lemma Returned(s: System, t: TaskId, result: L.TaskResult) returns (done: System)
    requires Inv(s) && D.Enabled(s) && s.worker.phase == L.Executed(t, result) && s.worker.memory.pending == map[]
    ensures done == Run(s, Returning(s, t))
    ensures D.StoredIn(done, t) && done.computed == s.computed && done.worker.ran == s.worker.ran
    ensures AtRest(done.worker) && t in done.worker.memory.completed && t in done.worker.disk.completed
  {
    var served := Delivered(s, t, result);
    done := Acknowledges(served, t);
    ReturningRuns(s, t);
  }

  /**
    Whatever the run before, a task whose turn it is can be fetched, executed and
    stored in ten steps, once the agent is at rest and enabled: its action runs,
    the control plane holds the disk usage as a success, and the ledger in memory
    and on disk calls it completed.
   */
  lemma NextTaskCanFinish(server: CP.State, me: CP.AgentId, events: seq<Event>, t: TaskId, usage: nat)
    requires Deployed(server, me)
    requires var s := Run(Start(server, me), events); AtRest(s.worker) && IsNext(s, t)
    ensures var s := Run(Start(server, me), events);
      var fetched := Run(s, Fetching(s, t, usage));
      var done := Run(fetched, Returning(fetched, t));
      && done.worker.ran[t] == s.worker.ran[t] + 1 && AtRest(done.worker)
      && t in done.worker.memory.completed && t in done.worker.disk.completed
      && t < |done.server.tasks| && done.server.tasks[t].progress.status == CP.Succeeded
      && done.server.tasks[t].progress.outcome == CP.Reported(L.TaskResult(L.Succeeded, 0, Some(usage), None))
  {
    var s := Run(Start(server, me), events);
    ReachableInv(server, me, events);
    ClocksAgree(Start(server, me), events);
    var fetched := Fetched(s, t, usage);
    RunKeepsInv(s, Fetching(s, t, usage));
    var done := Returned(fetched, t, L.TaskResult(L.Succeeded, 0, Some(usage), None));
    RunKeepsInv(fetched, Returning(fetched, t));
    StoredSuccess(done, t);
  }

  lemma StoredSuccess(s: System, t: TaskId)
    requires CP.Inv(s.server) && D.StoredIn(s, t) && s.computed[t].status == L.Succeeded
    ensures s.server.tasks[t].progress.status == CP.Succeeded
  {
    assert CP.ProgressSound(s.server.tasks[t].progress);
  }

  /** What others do on the control plane is done: a task they create for an idle agent is the next one. */
  lemma CreatedTaskIsNext(s: System, r: CP.TaskRequest)
    requires r.agent == s.me < |s.server.agents| && s.server.agents[s.me] == CP.Online && r.capable
    requires r.expiresInSeconds > 0 && forall t :: 0 <= t < |s.server.tasks| ==> s.server.tasks[t].key != r.key
    requires CP.IsOldestReady(s.server, s.me, None)
    ensures IsNext(Step(s, Elsewhere(CP.TaskCreated(r))), |s.server.tasks|)
    ensures Step(s, Elsewhere(CP.TaskCreated(r))).worker == s.worker
  {
    var created := Step(s, Elsewhere(CP.TaskCreated(r)));
    assert forall t :: 0 <= t < |s.server.tasks| ==> created.server.tasks[t] == s.server.tasks[t];
  }
}
