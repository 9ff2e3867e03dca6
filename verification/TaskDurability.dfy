/**
  What becomes of a computed result. Once it has been saved it is never lost.
  One that could not be saved waits in memory; a crash then leaves it alone if
  the control plane has stored it, and if not, leaves its fate to the
  submissions still in flight: without one it is lost, with its task running
  for ever on the control plane.
 */
module TaskDurability {
  import opened Wrappers
  import opened TaskExecution
  import CP = ControlPlane
  import L = TaskLedger

  predicate StoredIn(s: System, t: TaskId) {
    Stored(s.server.tasks, s.computed, t)
  }

  predicate Waits(w: L.Worker, t: TaskId) {
    t in w.memory.pending && t in w.disk.pending
  }

  /** The result waits in memory and in the file, or the control plane has it. */
  predicate Held(s: System, t: TaskId) {
    Waits(s.worker, t) || StoredIn(s, t)
  }

  /** The result exists nowhere any more, its envelope is used up, and its task is running. */
  predicate Lost(s: System, t: TaskId) {
    t in s.computed && t !in s.envelopes && RowRuns(s, t) && NotKept(s.worker, t) && NotSubmitted(s.submissions, t)
  }

  predicate RowRuns(s: System, t: TaskId) {
    t < |s.server.tasks| && s.server.tasks[t].agent == s.me && s.server.tasks[t].progress.status == CP.Running
  }

  predicate NotKept(w: L.Worker, t: TaskId) {
    t !in w.memory.pending && t !in w.disk.pending && (w.phase.Executed? ==> w.phase.id != t)
  }

  predicate NotSubmitted(submissions: map<RequestId, Submission>, t: TaskId) {
    forall r :: r in submissions ==> submissions[r].task != t
  }

  lemma StoredIsFinal(s: System, e: Event, t: TaskId)
    requires Sound(s) && StoredIn(s, t)
    ensures StoredIn(Step(s, e), t)
  {
    ComputedIsFinal(s, e, t);
    match e
    case Tick(elapsed) => CP.FinishedTaskUntouched(s.server, CP.Tick(elapsed), t);
    case Elsewhere(event) => CP.FinishedTaskUntouched(s.server, event, t);
    case ServeSubmission(request) =>
      if request in s.submissions {
        var submission := s.submissions[request];
        CP.FinishedTaskUntouched(s.server, CP.ResultSubmitted(s.me, submission.task, submission.result), t);
      }
    case ServePoll(_, pick) => CP.FinishedTaskUntouched(s.server, CP.TaskPolled(s.me, pick), t);
    case _ =>
  }

  lemma StepKeepsInv(s: System, e: Event)
    requires Inv(s)
    ensures Inv(Step(s, e))
  {
    StepKeepsSound(s, e);
    StepKeepsServer(s, e);
    StepKeepsWorker(s, e);
  }

  /** What a step of the whole system is for the task loop. */
  function LocalStep(s: System, e: Event): L.Event {
    match e
    case StartLoop => L.StartLoop
    case SendResult(task) => L.SendResult(task)
    case FlushDone => L.FlushDone
    case ReceiveAck(saveOk) => if s.current in s.accepted then L.Acknowledged(saveOk) else L.Tick(0)
    case SubmissionFailed => L.SubmissionFailed
    case SendPoll => L.Poll
    case ReceiveTask(task, signatureValid, actionId, paths, attempt) =>
      if task in s.envelopes && s.envelopes[task] == s.current && task < |s.server.tasks| then
        L.Receive(L.Envelope(task, signatureValid, L.SignedTask(task, actionId, s.server.tasks[task].expiresAt, paths)),
                  attempt)
      else L.Tick(0)
    case PollFailed => L.PollFailed
    case QueueResult(saveOk) => L.QueueResult(saveOk)
    case Crash => L.Crash
    case Tick(elapsed) => L.Tick(elapsed)
    case Elsewhere(_) => L.Tick(0)
    case ServeSubmission(_) => L.Tick(0)
    case ServePoll(_, _) => L.Tick(0)
  }

  lemma LocalStepIsStep(s: System, e: Event)
    ensures Step(s, e).worker == L.Step(s.worker, LocalStep(s, e))
  {
  }

  /** The same step, and where its acknowledgement, envelope or crash comes from. */
  lemma WorkerStep(s: System, e: Event) returns (l: L.Event)
    ensures Step(s, e).worker == L.Step(s.worker, l)
    ensures l.Acknowledged? ==> s.current in s.accepted
    ensures l.Receive? ==> l.envelope.taskId in s.envelopes
    ensures l.Crash? ==> e.Crash?
  {
    LocalStepIsStep(s, e);
    l := LocalStep(s, e);
  }

  lemma StepKeepsWaiting(w: L.Worker, e: L.Event, t: TaskId)
    requires Waits(w, t)
    requires e.Acknowledged? && w.phase.AwaitingAck? ==> w.phase.id != t
    ensures Waits(L.Step(w, e), t)
  {
  }

  lemma StepKeepsWaitingOrStored(s: System, e: Event, t: TaskId)
    requires Sound(s) && Waits(s.worker, t) && !StoredIn(s, t)
    ensures Waits(Step(s, e).worker, t)
  {
    var l := WorkerStep(s, e);
    if l.Acknowledged? && s.worker.phase.AwaitingAck? {
      AcknowledgedIsStored(s);
    }
    StepKeepsWaiting(s.worker, l, t);
  }

  lemma StepKeepsHeld(s: System, e: Event, t: TaskId)
    requires Sound(s) && Held(s, t)
    ensures Held(Step(s, e), t)
  {
    if StoredIn(s, t) {
      StoredIsFinal(s, e, t);
    } else {
      StepKeepsWaitingOrStored(s, e, t);
    }
  }

  lemma AcknowledgedIsStored(s: System)
    requires Sound(s) && s.worker.phase.AwaitingAck? && s.current in s.accepted
    ensures StoredIn(s, s.worker.phase.id)
  {
  }

  lemma {:induction false} RunKeepsHeld(s: System, events: seq<Event>, t: TaskId)
    requires Inv(s) && Held(s, t)
    ensures Held(Run(s, events), t)
    decreases |events|
  {
    if events != [] {
      StepKeepsHeld(s, events[0], t);
      StepKeepsInv(s, events[0]);
      RunKeepsHeld(Step(s, events[0]), events[1..], t);
    }
  }

  lemma QueueHolds(s: System)
    requires s.worker.phase.Executed?
    ensures Held(Step(s, QueueResult(true)), s.worker.phase.id)
  {
  }

  lemma SavedStaysHeld(s: System, after: seq<Event>)
    requires Inv(s) && s.worker.phase.Executed?
    ensures Held(Run(Step(s, QueueResult(true)), after), s.worker.phase.id)
  {
    QueueHolds(s);
    StepKeepsInv(s, Event.QueueResult(true));
    RunKeepsHeld(Step(s, Event.QueueResult(true)), after, s.worker.phase.id);
  }

  /**
    Once an executed task's result has been saved it is never lost: in every
    later state of every run, with requests lost, repeated or late, failed saves
    and crashes, it waits in memory and in the file, or the control plane has
    stored exactly that result.
   */
  lemma SavedResultIsNeverLost(server: CP.State, me: CP.AgentId, before: seq<Event>, after: seq<Event>)
    requires Deployed(server, me) && Run(Start(server, me), before).worker.phase.Executed?
    ensures var executed := Run(Start(server, me), before);
      Held(Run(Step(executed, QueueResult(true)), after), executed.worker.phase.id)
  {
    ReachableInv(server, me, before);
    SavedStaysHeld(Run(Start(server, me), before), after);
  }

  /** A result leaves the memory only when the control plane has stored it, or in a crash. */
  lemma PendingLeavesStoredOrByCrash(s: System, e: Event, t: TaskId)
    requires Sound(s) && t in s.worker.memory.pending
    ensures t in Step(s, e).worker.memory.pending || e.Crash? || StoredIn(Step(s, e), t)
  {
    var l := WorkerStep(s, e);
    if t !in Step(s, e).worker.memory.pending && !e.Crash? {
      OnlyAckOrCrashDrops(s.worker, l, t);
      AcknowledgedIsStored(s);
      StoredIsFinal(s, e, t);
    }
  }

  lemma OnlyAckOrCrashDrops(w: L.Worker, e: L.Event, t: TaskId)
    requires t in w.memory.pending && t !in L.Step(w, e).memory.pending
    ensures e.Crash? || (e.Acknowledged? && w.phase.AwaitingAck? && w.phase.id == t)
  {
  }

  // ------------------------------------------------------------------ the loss

  lemma StepKeepsNotKept(w: L.Worker, e: L.Event, t: TaskId)
    requires NotKept(w, t) && (e.Receive? ==> e.envelope.taskId != t)
    ensures NotKept(L.Step(w, e), t)
  {
  }

  /** The step is the processing of a submission for this task. */
  predicate Serves(s: System, e: Event, t: TaskId) {
    e.ServeSubmission? && e.request in s.submissions && s.submissions[e.request].task == t
  }

  lemma StepKeepsRowRunning(s: System, e: Event, t: TaskId)
    requires RowRuns(s, t) && !Serves(s, e, t)
    ensures RowRuns(Step(s, e), t)
  {
    match e
    case Elsewhere(event) =>
      if IsElsewhere(event, s.me) {
        ElsewhereMoves(s.server, event, s.me);
      }
    case ServeSubmission(request) =>
      if request in s.submissions {
        assert s.submissions[request].task != t;
      }
    case _ =>
  }

  lemma StepKeepsNotSubmitted(s: System, e: Event, t: TaskId)
    requires L.Inv(s.worker) && NotKept(s.worker, t) && NotSubmitted(s.submissions, t)
    ensures NotSubmitted(Step(s, e).submissions, t)
  {
  }

  lemma StepKeepsEnvelopeUsed(s: System, e: Event, t: TaskId)
    requires t in s.computed && t !in s.envelopes && RowRuns(s, t)
    ensures t in Step(s, e).computed && t !in Step(s, e).envelopes
  {
  }

  lemma StepKeepsLost(s: System, e: Event, t: TaskId)
    requires Inv(s) && Lost(s, t)
    ensures Lost(Step(s, e), t)
  {
    var l := WorkerStep(s, e);
    StepKeepsNotKept(s.worker, l, t);
    StepKeepsRowRunning(s, e, t);
    StepKeepsNotSubmitted(s, e, t);
    StepKeepsEnvelopeUsed(s, e, t);
  }

  lemma {:induction false} RunKeepsLost(s: System, events: seq<Event>, t: TaskId)
    requires Inv(s) && Lost(s, t)
    ensures Lost(Run(s, events), t)
    decreases |events|
  {
    if events != [] {
      StepKeepsLost(s, events[0], t);
      StepKeepsInv(s, events[0]);
      RunKeepsLost(Step(s, events[0]), events[1..], t);
    }
  }

  /** The envelope of a task has just been received and its result computed. */
  predicate JustExecuted(s: System, receive: Event, t: TaskId) {
    s.worker.phase.AwaitingTask? && Step(s, receive).worker.phase.Executed? && Step(s, receive).worker.phase.id == t
  }

  lemma OnlyReceiveExecutes(w: L.Worker, e: L.Event)
    requires w.phase.AwaitingTask? && L.Step(w, e).phase.Executed?
    ensures e.Receive? && e.envelope.taskId == L.Step(w, e).phase.id
  {
  }

  /** While a task's envelope is on its way nothing of its result exists. */
  lemma EnvelopeIsFirst(s: System, t: TaskId)
    requires Sound(s) && t in s.envelopes
    ensures RowRuns(s, t) && t !in s.computed && NotSubmitted(s.submissions, t)
    ensures t !in s.worker.memory.pending && t !in s.worker.disk.pending
  {
    assert t in s.computed ==> HandedOver(s.server.tasks, s.me, s.envelopes, t);
  }

  lemma ReceiveEffect(s: System, receive: Event)
    requires receive.ReceiveTask? && s.worker.phase.AwaitingTask?
    requires LocalStep(s, receive).Receive? && Step(s, receive).worker.phase.Executed?
    ensures var executed := Step(s, receive);
      && receive.task in s.envelopes && receive.task in executed.computed
        && executed.envelopes == s.envelopes - {receive.task}
      && executed.server == s.server && executed.me == s.me && executed.submissions == s.submissions
      && executed.worker.memory == s.worker.memory && executed.worker.disk == s.worker.disk
  {
  }

  lemma ExecutedFirst(s: System, receive: Event, t: TaskId)
    requires Sound(s) && JustExecuted(s, receive, t)
    ensures var executed := Step(s, receive);
      && t in executed.computed && t !in executed.envelopes && RowRuns(executed, t)
      && t !in executed.worker.memory.pending && t !in executed.worker.disk.pending
      && NotSubmitted(executed.submissions, t)
  {
    LocalStepIsStep(s, receive);
    OnlyReceiveExecutes(s.worker, LocalStep(s, receive));
    ReceiveEffect(s, receive);
    EnvelopeIsFirst(s, t);
  }

  lemma UnsavedThenCrash(s: System, t: TaskId)
    requires s.worker.phase.Executed? && s.worker.phase.id == t
    requires t in s.computed && t !in s.envelopes && RowRuns(s, t)
    requires t !in s.worker.disk.pending && NotSubmitted(s.submissions, t)
    ensures Lost(Step(Step(s, QueueResult(false)), Crash), t)
  {
  }

  lemma LostIsNotHeld(s: System, t: TaskId)
    requires Lost(s, t)
    ensures !Held(s, t)
  {
  }

  /**
    A crash that comes right after the attempt to save: the result survives it,
    and is then held for ever, exactly if the save succeeded; otherwise it is
    lost for ever, and its task runs on whatever happens afterwards.
    `ResultSurvivesIffSavedOrStored` is the condition for a later crash.
   */
  lemma ResultSurvivesIffSaved(server: CP.State, me: CP.AgentId, before: seq<Event>, receive: Event, t: TaskId,
                               saveOk: bool, after: seq<Event>)
    requires Deployed(server, me) && JustExecuted(Run(Start(server, me), before), receive, t)
    ensures var executed := Step(Run(Start(server, me), before), receive);
      var late := Run(Step(Step(executed, QueueResult(saveOk)), Crash), after);
      && (Held(late, t) <==> saveOk)
      && (Lost(late, t) <==> !saveOk)
  {
    ReachableInv(server, me, before);
    SurvivesIffSaved(Run(Start(server, me), before), receive, t, saveOk, after);
  }

  lemma SurvivesIffSaved(s: System, receive: Event, t: TaskId, saveOk: bool, after: seq<Event>)
    requires Inv(s) && JustExecuted(s, receive, t)
    ensures var late := Run(Step(Step(Step(s, receive), QueueResult(saveOk)), Crash), after);
      && (Held(late, t) <==> saveOk)
      && (Lost(late, t) <==> !saveOk)
  {
    var executed := Step(s, receive);
    var queued := Step(executed, Event.QueueResult(saveOk));
    var crashed := Step(queued, Event.Crash);
    ExecutedFirst(s, receive, t);
    StepKeepsInv(s, receive);
    StepKeepsInv(executed, Event.QueueResult(saveOk));
    StepKeepsInv(queued, Event.Crash);
    if saveOk {
      QueueHolds(executed);
      StepKeepsHeld(queued, Event.Crash, t);
      RunKeepsHeld(crashed, after, t);
    } else {
      UnsavedThenCrash(executed, t);
      RunKeepsLost(crashed, after, t);
    }
    if Lost(Run(crashed, after), t) {
      LostIsNotHeld(Run(crashed, after), t);
    }
  }

  // ------------------------------------------------- a later crash, exactly

  /**
    A computed result that is not in the file: it waits in memory until the
    control plane has stored it, and its task runs until then.
   */
  predicate Unsaved(s: System, t: TaskId) {
    && t in s.computed && UnsavedBy(s.worker, t)
    && (t in s.worker.memory.pending || StoredIn(s, t))
    && (RowRuns(s, t) || StoredIn(s, t))
  }

  predicate UnsavedBy(w: L.Worker, t: TaskId) {
    t !in w.disk.pending && (w.phase.Executed? ==> w.phase.id != t)
  }

  lemma WorkerKeepsUnsaved(w: L.Worker, e: L.Event, t: TaskId)
    requires L.Inv(w) && UnsavedBy(w, t) && !e.Crash? && (e.Receive? ==> e.envelope.taskId != t)
    ensures UnsavedBy(L.Step(w, e), t)
  {
    if e.Acknowledged? && w.phase.AwaitingAck? && t in w.memory.pending {
      L.OnlyPending(w.memory.pending, w.phase.id);
    }
  }

  lemma ServingStoresOrKeeps(s: System, request: RequestId)
    requires Sound(s) && request in s.submissions && RowRuns(s, s.submissions[request].task)
    ensures var t, s' := s.submissions[request].task, Step(s, ServeSubmission(request));
      StoredIn(s', t) || RowRuns(s', t)
  {
    SubmissionStores(s, request);
  }

  lemma RunningOrStored(s: System, e: Event, t: TaskId)
    requires Sound(s) && (RowRuns(s, t) || StoredIn(s, t))
    ensures RowRuns(Step(s, e), t) || StoredIn(Step(s, e), t)
  {
    if StoredIn(s, t) {
      StoredIsFinal(s, e, t);
    } else if Serves(s, e, t) {
      ServingStoresOrKeeps(s, e.request);
    } else {
      StepKeepsRowRunning(s, e, t);
    }
  }

  lemma StepKeepsUnsaved(s: System, e: Event, t: TaskId)
    requires Inv(s) && Unsaved(s, t) && !e.Crash?
    ensures Unsaved(Step(s, e), t)
  {
    ComputedIsFinal(s, e, t);
    RunningOrStored(s, e, t);
    UsedEnvelope(s, t);
    var l := WorkerStep(s, e);
    WorkerKeepsUnsaved(s.worker, l, t);
    if t in s.worker.memory.pending {
      PendingLeavesStoredOrByCrash(s, e, t);
    } else {
      StoredIsFinal(s, e, t);
    }
  }

  lemma UsedEnvelope(s: System, t: TaskId)
    requires Sound(s) && t in s.computed
    ensures t !in s.envelopes
  {
    assert HandedOver(s.server.tasks, s.me, s.envelopes, t);
  }

  predicate CrashFree(events: seq<Event>)
    decreases |events|
  {
    events == [] || (!events[0].Crash? && CrashFree(events[1..]))
  }

  lemma NextUnsaved(s: System, e: Event, t: TaskId) returns (s': System)
    requires Inv(s) && Unsaved(s, t) && !e.Crash?
    ensures s' == Step(s, e) && Inv(s') && Unsaved(s', t)
  {
    StepKeepsUnsaved(s, e, t);
    StepKeepsInv(s, e);
    s' := Step(s, e);
  }

  lemma {:induction false} RunKeepsUnsaved(s: System, events: seq<Event>, t: TaskId)
    requires Inv(s) && Unsaved(s, t) && CrashFree(events)
    ensures Unsaved(Run(s, events), t)
    decreases |events|
  {
    if events != [] {
      var s' := NextUnsaved(s, events[0], t);
      RunKeepsUnsaved(s', events[1..], t);
    }
  }

  lemma CrashClears(s: System, t: TaskId) returns (crashed: System)
    requires UnsavedBy(s.worker, t)
    ensures crashed == Step(s, Crash) && NotKept(crashed.worker, t) && !Waits(crashed.worker, t)
    ensures crashed == s.(worker := crashed.worker)
  {
    crashed := Step(s, Crash);
  }

  /** What a crash leaves of an unsaved result. */
  lemma CrashOfUnsaved(s: System, t: TaskId)
    requires t !in s.envelopes && Unsaved(s, t)
    ensures Held(Step(s, Crash), t) <==> StoredIn(s, t)
    ensures Lost(Step(s, Crash), t) <==> !StoredIn(s, t) && NotSubmitted(s.submissions, t)
  {
    var crashed := CrashClears(s, t);
    assert RowRuns(crashed, t) <==> !StoredIn(s, t);
  }

  // ----------------------- a submission for a running task is never refused

  predicate Enabled(s: System) {
    s.me < |s.server.agents| && s.server.agents[s.me] != CP.Disabled
  }

  /** While a task the agent was handed is running the agent is enabled. */
  ghost predicate EnabledWhileRunning(s: System) {
    forall t: TaskId :: (t in s.envelopes || t in s.computed) && RowRuns(s, t) ==> Enabled(s)
  }

  /** Only an agent without running tasks is ever disabled. */
  lemma BusyStaysEnabled(s: System, e: CP.Event, t: TaskId)
    requires RowRuns(s, t) && Enabled(s)
    ensures var server := CP.Step(s.server, e); s.me < |server.agents| && server.agents[s.me] != CP.Disabled
  {
  }

  lemma ElsewhereKeepsEnabled(s: System, e: CP.Event, t: TaskId)
    requires IsElsewhere(e, s.me) && RowRuns(Step(s, Elsewhere(e)), t) && (RowRuns(s, t) ==> Enabled(s))
    ensures Enabled(Step(s, Elsewhere(e)))
  {
    ElsewhereMoves(s.server, e, s.me);
    assert RowRuns(s, t);
    BusyStaysEnabled(s, e, t);
  }

  lemma ServingKeepsEnabled(s: System, e: Event, t: TaskId)
    requires (e.ServeSubmission? || e.ServePoll?) && RowRuns(Step(s, e), t) && (RowRuns(s, t) ==> Enabled(s))
    ensures Enabled(Step(s, e))
  {
  }

  lemma HandedOutBefore(s: System, e: Event, t: TaskId)
    requires !e.Elsewhere? && !e.ServeSubmission? && !e.ServePoll?
    requires t in Step(s, e).envelopes || t in Step(s, e).computed
    ensures t in s.envelopes || t in s.computed
    ensures (RowRuns(Step(s, e), t) <==> RowRuns(s, t)) && (Enabled(Step(s, e)) <==> Enabled(s))
  {
  }

  lemma StepKeepsEnabled(s: System, e: Event)
    requires EnabledWhileRunning(s)
    ensures EnabledWhileRunning(Step(s, e))
  {
    var s' := Step(s, e);
    forall t: TaskId | (t in s'.envelopes || t in s'.computed) && RowRuns(s', t)
      ensures Enabled(s')
    {
      if e.Elsewhere? {
        if IsElsewhere(e.event, s.me) {
          ElsewhereKeepsEnabled(s, e.event, t);
        }
      } else if e.ServeSubmission? || e.ServePoll? {
        ServingKeepsEnabled(s, e, t);
      } else {
        HandedOutBefore(s, e, t);
      }
    }
  }

  lemma {:induction false} RunKeepsEnabled(s: System, events: seq<Event>)
    requires EnabledWhileRunning(s)
    ensures EnabledWhileRunning(Run(s, events))
    decreases |events|
  {
    if events != [] {
      StepKeepsEnabled(s, events[0]);
      RunKeepsEnabled(Step(s, events[0]), events[1..]);
    }
  }

  ghost predicate Live(s: System) {
    Inv(s) && EnabledWhileRunning(s)
  }

  lemma ReachableEnabled(server: CP.State, me: CP.AgentId, events: seq<Event>)
    requires Deployed(server, me)
    ensures Live(Run(Start(server, me), events))
  {
    ReachableInv(server, me, events);
    RunKeepsEnabled(Start(server, me), events);
  }

  lemma StepKeepsLive(s: System, e: Event, t: TaskId)
    requires Live(s) && t in s.computed
    ensures Live(Step(s, e)) && t in Step(s, e).computed
  {
    StepKeepsInv(s, e);
    StepKeepsEnabled(s, e);
    ComputedIsFinal(s, e, t);
  }

  lemma ComputedRunsOrIsStored(s: System, t: TaskId)
    requires Sound(s) && t in s.computed
    ensures RowRuns(s, t) || StoredIn(s, t)
  {
    assert HandedOver(s.server.tasks, s.me, s.envelopes, t);
  }

  lemma RunningIsAccepted(s: System, request: RequestId)
    requires CP.Inv(s.server) && Sound(s) && request in s.submissions && Enabled(s)
    ensures CP.SubmitTaskResult(s.server, s.me, s.submissions[request].task, s.submissions[request].result).Ok?
  {
    SubmissionMeetsItsTask(s, request);
  }

  lemma AcceptedIsStored(s: System, request: RequestId)
    requires Sound(s) && request in s.submissions
    requires CP.SubmitTaskResult(s.server, s.me, s.submissions[request].task, s.submissions[request].result).Ok?
    ensures StoredIn(Step(s, ServeSubmission(request)), s.submissions[request].task)
  {
    SubmissionStores(s, request);
  }

  lemma ServingStores(s: System, request: RequestId)
    requires Live(s) && request in s.submissions
    ensures StoredIn(Step(s, ServeSubmission(request)), s.submissions[request].task)
  {
    var t := s.submissions[request].task;
    ComputedRunsOrIsStored(s, t);
    if StoredIn(s, t) {
      StoredIsFinal(s, ServeSubmission(request), t);
    } else {
      assert Enabled(s);
      RunningIsAccepted(s, request);
      AcceptedIsStored(s, request);
    }
  }

  lemma RefusedIsStored(s: System, request: RequestId)
    requires Live(s) && request in s.submissions
    requires CP.SubmitTaskResult(s.server, s.me, s.submissions[request].task, s.submissions[request].result).Err?
    ensures StoredIn(s, s.submissions[request].task) && !Enabled(s)
  {
    if Enabled(s) {
      RunningIsAccepted(s, request);
    }
    ComputedRunsOrIsStored(s, s.submissions[request].task);
  }

  /**
    In every run, whatever has been lost, repeated or delayed: processing a
    submission leaves exactly the computed result stored. It is refused only
    when that had happened before and the agent has been disabled since.
   */
  lemma EverySubmissionStores(server: CP.State, me: CP.AgentId, events: seq<Event>, request: RequestId)
    requires Deployed(server, me)
    requires request in Run(Start(server, me), events).submissions
    ensures var s := Run(Start(server, me), events);
      var submission := s.submissions[request];
      && StoredIn(Step(s, ServeSubmission(request)), submission.task)
      && (CP.SubmitTaskResult(s.server, s.me, submission.task, submission.result).Err? ==>
            StoredIn(s, submission.task) && !Enabled(s))
  {
    ReachableEnabled(server, me, events);
    var s := Run(Start(server, me), events);
    ServingStores(s, request);
    if CP.SubmitTaskResult(s.server, s.me, s.submissions[request].task, s.submissions[request].result).Err? {
      RefusedIsStored(s, request);
    }
  }

  // --------------------------------------- what can still be stored, exactly

  ghost predicate NeverStored(s: System, t: TaskId) {
    forall after: seq<Event> :: !StoredIn(Run(s, after), t)
  }

  lemma RunFirst(s: System, e: Event, after: seq<Event>)
    ensures Run(s, [e] + after) == Run(Step(s, e), after)
  {
    assert ([e] + after)[1..] == after;
  }

  lemma StoredOnceServed(s: System, t: TaskId) returns (after: seq<Event>)
    requires Live(s) && !NotSubmitted(s.submissions, t)
    ensures StoredIn(Run(s, after), t)
  {
    var request :| request in s.submissions && s.submissions[request].task == t;
    ServingStores(s, request);
    RunFirst(s, ServeSubmission(request), []);
    after := [Event.ServeSubmission(request)] + [];
  }

  lemma SendingSubmits(s: System, t: TaskId)
    requires s.worker.phase.Flushing? && t in s.worker.phase.todo
    ensures !NotSubmitted(Step(s, SendResult(t)).submissions, t)
  {
    assert Step(s, SendResult(t)).submissions[s.nextRequest].task == t;
  }

  lemma StoredOnceSent(s: System, t: TaskId) returns (after: seq<Event>)
    requires Live(s) && t in s.computed && s.worker.phase.Flushing? && t in s.worker.phase.todo
    ensures StoredIn(Run(s, after), t)
  {
    StepKeepsLive(s, SendResult(t), t);
    SendingSubmits(s, t);
    var rest := StoredOnceServed(Step(s, SendResult(t)), t);
    RunFirst(s, SendResult(t), rest);
    after := [Event.SendResult(t)] + rest;
  }

  lemma FlushStarts(s: System, t: TaskId) returns (flushing: System)
    requires s.worker.phase.LoopTop? && t in s.worker.memory.pending
    ensures flushing == Step(s, StartLoop)
    ensures flushing.worker.phase.Flushing? && t in flushing.worker.phase.todo
  {
    flushing := Step(s, StartLoop);
  }

  lemma StoredFromLoopTop(s: System, t: TaskId) returns (after: seq<Event>)
    requires Live(s) && t in s.computed && t in s.worker.memory.pending && s.worker.phase.LoopTop?
    ensures StoredIn(Run(s, after), t)
  {
    StepKeepsLive(s, StartLoop, t);
    var flushing := FlushStarts(s, t);
    var rest := StoredOnceSent(flushing, t);
    RunFirst(s, StartLoop, rest);
    after := [Event.StartLoop] + rest;
  }

  /** In memory: before the flush, in it, or already sent. */
  lemma PendingPhase(s: System, t: TaskId)
    requires L.Inv(s.worker) && Sound(s) && t in s.worker.memory.pending
    ensures || s.worker.phase.LoopTop?
            || (s.worker.phase.Flushing? && t in s.worker.phase.todo)
            || !NotSubmitted(s.submissions, t)
  {
    if s.worker.phase.AwaitingAck? {
      L.OnlyPending(s.worker.memory.pending, s.worker.phase.id);
      assert s.submissions[s.current].task == t;
    }
  }

  /** A result in memory can be sent, or has been: while it waits for its acknowledgement it is in flight. */
  lemma StoredFromMemory(s: System, t: TaskId) returns (after: seq<Event>)
    requires Live(s) && t in s.computed && t in s.worker.memory.pending
    ensures StoredIn(Run(s, after), t)
  {
    PendingPhase(s, t);
    if s.worker.phase.LoopTop? {
      after := StoredFromLoopTop(s, t);
    } else if s.worker.phase.Flushing? && t in s.worker.phase.todo {
      after := StoredOnceSent(s, t);
    } else {
      after := StoredOnceServed(s, t);
    }
  }

  lemma StoredAfter(s: System, e: Event, t: TaskId) returns (after: seq<Event>)
    requires Live(s) && t in s.computed && t in Step(s, e).worker.memory.pending
    ensures StoredIn(Run(s, after), t)
  {
    StepKeepsLive(s, e, t);
    var rest := StoredFromMemory(Step(s, e), t);
    RunFirst(s, e, rest);
    after := [e] + rest;
  }

  lemma LostUnlessKept(s: System, t: TaskId)
    requires Sound(s) && t in s.computed
    ensures StoredIn(s, t) || !NotSubmitted(s.submissions, t) || !NotKept(s.worker, t) || Lost(s, t)
  {
    ComputedRunsOrIsStored(s, t);
    UsedEnvelope(s, t);
  }

  lemma ReloadsOrQueues(w: L.Worker, t: TaskId) returns (e: Event)
    requires !NotKept(w, t) && t !in w.memory.pending
    ensures e == Event.Crash || e == Event.QueueResult(true)
    ensures forall s: System :: s.worker == w ==> t in Step(s, e).worker.memory.pending
  {
    e := if t in w.disk.pending then Event.Crash else Event.QueueResult(true);
  }

  lemma StoredWhileKept(s: System, t: TaskId) returns (after: seq<Event>)
    requires Live(s) && t in s.computed && !NotKept(s.worker, t)
    ensures StoredIn(Run(s, after), t)
  {
    if t in s.worker.memory.pending {
      after := StoredFromMemory(s, t);
    } else {
      var e := ReloadsOrQueues(s.worker, t);
      after := StoredAfter(s, e, t);
    }
  }

  /** From every other state some continuation stores the result. */
  lemma StoredUnlessLost(s: System, t: TaskId) returns (after: seq<Event>)
    requires Live(s) && t in s.computed && !Lost(s, t)
    ensures StoredIn(Run(s, after), t)
  {
    LostUnlessKept(s, t);
    if StoredIn(s, t) {
      after := [];
    } else if !NotKept(s.worker, t) {
      after := StoredWhileKept(s, t);
    } else {
      after := StoredOnceServed(s, t);
    }
  }

  lemma LostStaysLost(s: System, t: TaskId)
    requires Live(s) && Lost(s, t)
    ensures NeverStored(s, t)
  {
    forall after: seq<Event>
      ensures !StoredIn(Run(s, after), t)
    {
      RunKeepsLost(s, after, t);
    }
  }

  /**
    In every reachable state a computed result can still reach the control plane
    unless it is lost: some continuation stores it if and only if it is stored,
    waits in memory or file, has just been computed, or is in flight.
   */
  lemma LostIffNeverStored(server: CP.State, me: CP.AgentId, events: seq<Event>, t: TaskId)
    requires Deployed(server, me) && t in Run(Start(server, me), events).computed
    ensures var s := Run(Start(server, me), events);
      Lost(s, t) <==> NeverStored(s, t)
  {
    ReachableEnabled(server, me, events);
    var s := Run(Start(server, me), events);
    if Lost(s, t) {
      LostStaysLost(s, t);
    } else {
      var after := StoredUnlessLost(s, t);
    }
  }

  /** The result has been computed and its save not yet attempted. */
  predicate BeforeSave(s: System, t: TaskId) {
    && s.worker.phase.Executed? && s.worker.phase.id == t
    && t in s.computed && RowRuns(s, t) && t !in s.worker.disk.pending
  }

  lemma QueuedUnsaved(s: System, t: TaskId)
    requires BeforeSave(s, t)
    ensures Unsaved(Step(s, QueueResult(false)), t)
  {
  }

  lemma FateOfSaved(executed: System, t: TaskId, between: seq<Event>) returns (mid: System)
    requires Inv(executed) && BeforeSave(executed, t)
    ensures mid == Run(Step(executed, QueueResult(true)), between) && Inv(mid)
    ensures Held(Step(mid, Crash), t) && !Lost(Step(mid, Crash), t)
  {
    var queued := Step(executed, Event.QueueResult(true));
    mid := Run(queued, between);
    StepKeepsInv(executed, Event.QueueResult(true));
    RunKeepsInv(queued, between);
    QueueHolds(executed);
    RunKeepsHeld(queued, between, t);
    StepKeepsHeld(mid, Event.Crash, t);
    if Lost(Step(mid, Event.Crash), t) {
      LostIsNotHeld(Step(mid, Event.Crash), t);
    }
  }

  lemma FateOfUnsaved(executed: System, t: TaskId, between: seq<Event>) returns (mid: System)
    requires Inv(executed) && BeforeSave(executed, t) && CrashFree(between)
    ensures mid == Run(Step(executed, QueueResult(false)), between) && Inv(mid)
    ensures Held(Step(mid, Crash), t) <==> StoredIn(mid, t)
    ensures Lost(Step(mid, Crash), t) <==> !StoredIn(mid, t) && NotSubmitted(mid.submissions, t)
  {
    var queued := Step(executed, Event.QueueResult(false));
    mid := Run(queued, between);
    StepKeepsInv(executed, Event.QueueResult(false));
    RunKeepsInv(queued, between);
    QueuedUnsaved(executed, t);
    RunKeepsUnsaved(queued, between, t);
    UsedEnvelope(mid, t);
    CrashOfUnsaved(mid, t);
  }

  lemma FateIsFinal(mid: System, t: TaskId)
    requires Inv(mid)
    ensures forall after: seq<Event> :: Held(Step(mid, Crash), t) ==> Held(Run(Step(mid, Crash), after), t)
    ensures forall after: seq<Event> :: Lost(Step(mid, Crash), t) ==> Lost(Run(Step(mid, Crash), after), t)
  {
    var crashed := Step(mid, Event.Crash);
    StepKeepsInv(mid, Event.Crash);
    if Held(crashed, t) {
      forall after: seq<Event>
        ensures Held(Run(crashed, after), t)
      {
        RunKeepsHeld(crashed, after, t);
      }
    }
    if Lost(crashed, t) {
      forall after: seq<Event>
        ensures Lost(Run(crashed, after), t)
      {
        RunKeepsLost(crashed, after, t);
      }
    }
  }

  /**
    When exactly a computed result survives the first crash after the attempt to
    save it, however late that crash comes: if the save succeeded, or the
    control plane has stored the result by then. It is lost, for ever, exactly
    if neither holds and no submission of it is in flight. (In between, a
    submission in flight can still store it.)
   */
  lemma ResultSurvivesIffSavedOrStored(server: CP.State, me: CP.AgentId, before: seq<Event>, receive: Event,
                                       t: TaskId, saveOk: bool, between: seq<Event>)
    requires Deployed(server, me) && JustExecuted(Run(Start(server, me), before), receive, t) && CrashFree(between)
    ensures var executed := Step(Run(Start(server, me), before), receive);
      var mid := Run(Step(executed, QueueResult(saveOk)), between);
      var crashed := Step(mid, Crash);
      && (Held(crashed, t) <==> saveOk || StoredIn(mid, t))
      && (Lost(crashed, t) <==> !saveOk && !StoredIn(mid, t) && NotSubmitted(mid.submissions, t))
      && (forall after: seq<Event> :: Held(crashed, t) ==> Held(Run(crashed, after), t))
      && (forall after: seq<Event> :: Lost(crashed, t) ==> Lost(Run(crashed, after), t))
  {
    var start := Run(Start(server, me), before);
    var executed := Step(start, receive);
    ReachableInv(server, me, before);
    ExecutedFirst(start, receive, t);
    StepKeepsInv(start, receive);
    if saveOk {
      var mid := FateOfSaved(executed, t, between);
      FateIsFinal(mid, t);
    } else {
      var mid := FateOfUnsaved(executed, t, between);
      FateIsFinal(mid, t);
    }
  }
}
