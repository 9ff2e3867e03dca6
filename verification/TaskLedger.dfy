/**
  The agent's task loop and result ledger (edge-agent client.go): results are
  saved before they are submitted, submitted until acknowledged, and a task
  whose id is completed is not executed again.

  Two forms of the same code: a state machine whose steps are the points at
  which a request can fail, a save can fail or the agent can crash, and the
  imperative `TaskAgent`, whose methods are proved to perform runs of it.
 */
module TaskLedger {
  import opened Wrappers

  type Time = int
  type TaskId = nat

  const PRUNE_AFTER: Time := 7 * 24 * 60 * 60

  datatype ResultStatus = Succeeded | Failed

  datatype ErrorCode =
    | AGENT_TASK_SIGNATURE_INVALID
    | AGENT_TASK_EXPIRED
    | AGENT_ACTION_NOT_REGISTERED
    | AGENT_PARAMETERS_INVALID
    | AGENT_ACTION_FAILED

  /** `output` stands for the sanitized file system listing. */
  datatype TaskResult = TaskResult(status: ResultStatus, durationMs: int, output: Option<nat>,
                                   errorCode: Option<ErrorCode>)

  datatype SignedTask = SignedTask(taskId: TaskId, actionId: string, expiresAt: Time, paths: seq<string>)

  /** `signatureValid` is the outcome of the certificate, signature and decoding checks. */
  datatype Envelope = Envelope(taskId: TaskId, signatureValid: bool, task: SignedTask)

  datatype Ledger = Ledger(completed: map<TaskId, Time>, pending: map<TaskId, TaskResult>)

  predicate Verified(e: Envelope) {
    e.signatureValid && e.task.taskId == e.taskId
  }

  predicate ValidPaths(paths: seq<string>) {
    && 0 < |paths| <= 8
    && forall i :: 0 <= i < |paths| ==> |paths[i]| > 0 && paths[i][0] == '/'
  }

  /** What an execution meets: how the disk query ends and how long it takes. */
  datatype Attempt = Attempt(usage: Option<nat>, durationMs: int)

  /** The action runs only for a verified, unexpired envelope naming the registered action with valid paths. */
  predicate ActionRuns(e: Envelope, now: Time) {
    Verified(e) && now <= e.task.expiresAt && e.task.actionId == "system.disk_usage" && ValidPaths(e.task.paths)
  }

  function ExecutionResult(e: Envelope, now: Time, attempt: Attempt): TaskResult {
    if !Verified(e) then
      TaskResult(Failed, attempt.durationMs, None, Some(AGENT_TASK_SIGNATURE_INVALID))
    else if now > e.task.expiresAt then
      TaskResult(Failed, attempt.durationMs, None, Some(AGENT_TASK_EXPIRED))
    else if e.task.actionId != "system.disk_usage" then
      TaskResult(Failed, attempt.durationMs, None, Some(AGENT_ACTION_NOT_REGISTERED))
    else if !ValidPaths(e.task.paths) then
      TaskResult(Failed, attempt.durationMs, None, Some(AGENT_PARAMETERS_INVALID))
    else if attempt.usage.None? then
      TaskResult(Failed, attempt.durationMs, None, Some(AGENT_ACTION_FAILED))
    else
      TaskResult(Succeeded, attempt.durationMs, attempt.usage, None)
  }

  /** A signed envelope for this very task, not expired, naming disk usage for one to eight absolute paths. */
  predicate Executable(e: Envelope, now: Time) {
    && Genuine(e) && now <= e.task.expiresAt && e.task.actionId == "system.disk_usage" && Absolute(e.task.paths)
  }

  predicate Genuine(e: Envelope) {
    e.signatureValid && e.task.taskId == e.taskId
  }

  predicate Absolute(paths: seq<string>) {
    1 <= |paths| <= 8 && forall path :: path in paths ==> path != "" && path[0] == '/'
  }

  /**
    The result of executing an envelope: a success, with the disk usage and no
    error, if and only if it was executable and the query answered; otherwise a
    failure without output whose code names the first condition that fails.
   */
  predicate Fits(result: TaskResult, e: Envelope, now: Time, attempt: Attempt) {
    && result.durationMs == attempt.durationMs
    && (result.status == Succeeded <==> Executable(e, now) && attempt.usage.Some?)
    && (result.status == Failed <==> result.errorCode.Some?)
    && result.output == (if result.status == Succeeded then attempt.usage else None)
    && (result.errorCode == Some(AGENT_TASK_SIGNATURE_INVALID) <==> !Genuine(e))
    && (result.errorCode == Some(AGENT_TASK_EXPIRED) <==> Genuine(e) && now > e.task.expiresAt)
    && (result.errorCode == Some(AGENT_ACTION_NOT_REGISTERED)
        <==> Genuine(e) && now <= e.task.expiresAt && e.task.actionId != "system.disk_usage")
    && (result.errorCode == Some(AGENT_PARAMETERS_INVALID)
        <==> Genuine(e) && now <= e.task.expiresAt && e.task.actionId == "system.disk_usage"
             && !Absolute(e.task.paths))
    && (result.errorCode == Some(AGENT_ACTION_FAILED) <==> Executable(e, now) && attempt.usage.None?)
  }

  /** The order of the checks gives exactly that result, and runs the action exactly for an executable envelope. */
  lemma ResultFits(e: Envelope, now: Time, attempt: Attempt)
    ensures Fits(ExecutionResult(e, now, attempt), e, now, attempt)
    ensures ActionRuns(e, now) <==> Executable(e, now)
  {
    assert forall i :: 0 <= i < |e.task.paths| ==> e.task.paths[i] in e.task.paths;
    assert ValidPaths(e.task.paths) <==> Absolute(e.task.paths);
  }

  function Pruned(completed: map<TaskId, Time>, cutoff: Time): map<TaskId, Time> {
    map id | id in completed && completed[id] >= cutoff :: completed[id]
  }

  /** The ledger once the control plane has acknowledged one result. */
  function Acknowledge(ledger: Ledger, id: TaskId, now: Time): Ledger {
    Ledger(Pruned(ledger.completed[id := now], now - PRUNE_AFTER), ledger.pending - {id})
  }

  // ------------------------------------------------------------ state machine

  /** `polling` tells the flush at the top of the loop from the one after an execution. */
  datatype Phase =
    | LoopTop
    | Flushing(todo: map<TaskId, TaskResult>, polling: bool)
    | AwaitingAck(id: TaskId, rest: map<TaskId, TaskResult>, polling: bool)
    | ReadyToPoll
    | AwaitingTask
    | Executed(id: TaskId, result: TaskResult)

  /** `ran` counts the executions of each task's action. */
  datatype Worker = Worker(now: Time, memory: Ledger, disk: Ledger, phase: Phase, ran: multiset<TaskId>)

  datatype Event =
    | Tick(elapsed: nat)
    | StartLoop
    | SendResult(id: TaskId)
    | FlushDone
    | Acknowledged(saveOk: bool)
    | SubmissionFailed
    | Poll
    | PollFailed
    | NoTask
    | Receive(envelope: Envelope, attempt: Attempt)
    | QueueResult(saveOk: bool)
    | Crash

  function Initial(now: Time): Worker {
    Worker(now, Ledger(map[], map[]), Ledger(map[], map[]), LoopTop, multiset{})
  }

  function ReceiveTask(w: Worker, e: Envelope, attempt: Attempt): Worker {
    if e.taskId in w.memory.completed then w.(phase := LoopTop)
    else w.(phase := Executed(e.taskId, ExecutionResult(e, w.now, attempt)),
            ran := if ActionRuns(e, w.now) then w.ran + multiset{e.taskId} else w.ran)
  }

  function Queue(w: Worker, id: TaskId, result: TaskResult, saveOk: bool): Worker {
    var memory := w.memory.(pending := w.memory.pending[id := result]);
    if saveOk then w.(memory := memory, disk := memory, phase := Flushing(memory.pending, false))
    else w.(memory := memory, phase := LoopTop)
  }

  function Acked(w: Worker, id: TaskId, rest: map<TaskId, TaskResult>, polling: bool, saveOk: bool): Worker {
    var memory := Acknowledge(w.memory, id, w.now);
    if saveOk then w.(memory := memory, disk := memory, phase := Flushing(rest, polling))
    else w.(memory := memory, phase := LoopTop)
  }

  /** One step; an event that is not enabled leaves the worker as it is. */
  function Step(w: Worker, e: Event): Worker {
    match e
    case Tick(elapsed) => w.(now := w.now + elapsed)
    case StartLoop => if w.phase.LoopTop? then w.(phase := Flushing(w.memory.pending, true)) else w
    case SendResult(id) =>
      if w.phase.Flushing? && id in w.phase.todo
      then w.(phase := AwaitingAck(id, w.phase.todo - {id}, w.phase.polling))
      else w
    case FlushDone =>
      if w.phase.Flushing? && w.phase.todo == map[]
      then w.(phase := if w.phase.polling then ReadyToPoll else LoopTop)
      else w
    case Acknowledged(saveOk) =>
      if w.phase.AwaitingAck? then Acked(w, w.phase.id, w.phase.rest, w.phase.polling, saveOk) else w
    case SubmissionFailed => if w.phase.AwaitingAck? then w.(phase := LoopTop) else w
    case Poll => if w.phase.ReadyToPoll? then w.(phase := AwaitingTask) else w
    case PollFailed => if w.phase.AwaitingTask? then w.(phase := LoopTop) else w
    case NoTask => if w.phase.AwaitingTask? then w.(phase := LoopTop) else w
    case Receive(envelope, attempt) => if w.phase.AwaitingTask? then ReceiveTask(w, envelope, attempt) else w
    case QueueResult(saveOk) => if w.phase.Executed? then Queue(w, w.phase.id, w.phase.result, saveOk) else w
    case Crash => w.(memory := w.disk, phase := LoopTop)
  }

  function Run(w: Worker, events: seq<Event>): Worker
    decreases |events|
  {
    if events == [] then w else Run(Step(w, events[0]), events[1..])
  }

  // --------------------------------------------------- at most one unsent result

  predicate Inv(w: Worker) {
    && |w.memory.pending| <= 1
    && |w.disk.pending| <= 1
    && match w.phase {
         case LoopTop => true
         case Flushing(todo, _) => todo == w.memory.pending
         case AwaitingAck(id, rest, _) => id in w.memory.pending && rest == w.memory.pending - {id}
         case ReadyToPoll => w.memory.pending == map[]
         case AwaitingTask => w.memory.pending == map[]
         case Executed(_, _) => w.memory.pending == map[]
       }
  }

  lemma RemovingShrinks(pending: map<TaskId, TaskResult>, id: TaskId)
    ensures |pending - {id}| <= |pending|
  {
    var smaller := pending - {id};
    assert smaller.Keys <= pending.Keys;
    SubsetSize(smaller.Keys, pending.Keys);
  }

  lemma {:induction false} SubsetSize(a: set<TaskId>, b: set<TaskId>)
    requires a <= b
    ensures |a| <= |b|
  {
    if a != {} {
      var x :| x in a;
      SubsetSize(a - {x}, b - {x});
    }
  }

  lemma OnlyPending(pending: map<TaskId, TaskResult>, id: TaskId)
    requires |pending| <= 1 && id in pending
    ensures pending - {id} == map[] && forall t :: t in pending ==> t == id
  {
    var rest := pending - {id};
    assert rest.Keys == pending.Keys - {id};
    assert |rest.Keys| == 0;
    assert forall t :: t in pending ==> t == id || t in rest.Keys;
  }

  lemma StepKeepsInv(w: Worker, e: Event)
    requires Inv(w)
    ensures Inv(Step(w, e))
  {
    match e
    case Acknowledged(saveOk) =>
      if w.phase.AwaitingAck? {
        RemovingShrinks(w.memory.pending, w.phase.id);
      }
    case QueueResult(saveOk) =>
      if w.phase.Executed? {
        assert map[][w.phase.id := w.phase.result].Keys == {w.phase.id};
      }
    case _ =>
  }

  lemma {:induction false} RunKeepsInv(w: Worker, events: seq<Event>)
    requires Inv(w)
    ensures Inv(Run(w, events))
    decreases |events|
  {
    if events != [] {
      StepKeepsInv(w, events[0]);
      RunKeepsInv(Step(w, events[0]), events[1..]);
    }
  }

  /**
    Whatever the control plane answers, and whichever saves fail: there is at
    most one unsent result in memory and on disk, and the agent asks for work
    or executes a task only while memory holds none.
   */
  lemma AtMostOneUnsentResult(now: Time, events: seq<Event>)
    ensures var w := Run(Initial(now), events);
      && |w.memory.pending| <= 1 && |w.disk.pending| <= 1
      && (w.phase.ReadyToPoll? || w.phase.AwaitingTask? || w.phase.Executed? ==> w.memory.pending == map[])
  {
    RunKeepsInv(Initial(now), events);
  }

  // ------------------------------------------------------ no second execution

  /** The ledger still protects task `id`, whose envelopes expire at `expiry`, or they have expired. */
  predicate Remembered(ledger: Ledger, id: TaskId, expiry: Time, now: Time) {
    || (id in ledger.pending && expiry <= now + PRUNE_AFTER)
    || (id in ledger.completed && ledger.completed[id] <= now && expiry <= ledger.completed[id] + PRUNE_AFTER)
    || expiry < now
  }

  predicate Settled(w: Worker, id: TaskId, expiry: Time) {
    Inv(w) && Remembered(w.memory, id, expiry, w.now) && Remembered(w.disk, id, expiry, w.now)
  }

  /** Every verified envelope for `id` carries at most this expiry. */
  predicate EnvelopeExpiresBy(e: Event, id: TaskId, expiry: Time) {
    e.Receive? && Verified(e.envelope) && e.envelope.taskId == id ==> e.envelope.task.expiresAt <= expiry
  }

  lemma AckKeepsRemembered(ledger: Ledger, done: TaskId, id: TaskId, expiry: Time, now: Time)
    requires Remembered(ledger, id, expiry, now)
    ensures Remembered(Acknowledge(ledger, done, now), id, expiry, now)
  {
  }

  lemma QueueKeepsRemembered(ledger: Ledger, queued: TaskId, result: TaskResult, id: TaskId, expiry: Time, now: Time)
    requires Remembered(ledger, id, expiry, now)
    ensures Remembered(ledger.(pending := ledger.pending[queued := result]), id, expiry, now)
  {
  }

  /** With an empty ledger of pending results a remembered task is completed, or its envelopes have expired. */
  lemma ReceiveRunsNothing(w: Worker, e: Envelope, attempt: Attempt, id: TaskId, expiry: Time)
    requires w.memory.pending == map[] && Remembered(w.memory, id, expiry, w.now)
    requires EnvelopeExpiresBy(Receive(e, attempt), id, expiry)
    ensures ReceiveTask(w, e, attempt).ran[id] == w.ran[id]
  {
  }

  lemma SettledStep(w: Worker, e: Event, id: TaskId, expiry: Time)
    requires Settled(w, id, expiry) && EnvelopeExpiresBy(e, id, expiry)
    ensures Settled(Step(w, e), id, expiry)
    ensures Step(w, e).ran[id] == w.ran[id]
  {
    StepKeepsInv(w, e);
    match e
    case Acknowledged(_) =>
      if w.phase.AwaitingAck? {
        AckKeepsRemembered(w.memory, w.phase.id, id, expiry, w.now);
      }
    case QueueResult(_) =>
      if w.phase.Executed? {
        QueueKeepsRemembered(w.memory, w.phase.id, w.phase.result, id, expiry, w.now);
      }
    case Receive(envelope, attempt) =>
      if w.phase.AwaitingTask? {
        ReceiveRunsNothing(w, envelope, attempt, id, expiry);
      }
    case _ =>
  }

  lemma {:induction false} SettledRun(w: Worker, events: seq<Event>, id: TaskId, expiry: Time)
    requires Settled(w, id, expiry)
    requires forall i :: 0 <= i < |events| ==> EnvelopeExpiresBy(events[i], id, expiry)
    ensures Run(w, events).ran[id] == w.ran[id]
    decreases |events|
  {
    if events != [] {
      SettledStep(w, events[0], id, expiry);
      SettledRun(Step(w, events[0]), events[1..], id, expiry);
    }
  }

  /**
    Once a task's result has been saved, delivering its envelope again, any
    number of times, interleaved with anything else and across restarts, never
    runs its action again, provided the envelope expires within seven days of
    the save.
   */
  lemma SavedResultNeverRunsAgain(before: Worker, events: seq<Event>, expiry: Time)
    requires Inv(before) && before.phase.Executed?
    requires expiry <= before.now + 7 * 24 * 60 * 60
    requires forall i :: 0 <= i < |events| ==> EnvelopeExpiresBy(events[i], before.phase.id, expiry)
    ensures Run(Step(before, QueueResult(true)), events).ran[before.phase.id] == before.ran[before.phase.id]
  {
    StepKeepsInv(before, QueueResult(true));
    SettledRun(Step(before, QueueResult(true)), events, before.phase.id, expiry);
  }

  lemma {:induction false} RunAppend(w: Worker, first: seq<Event>, second: seq<Event>)
    ensures Run(w, first + second) == Run(Run(w, first), second)
    decreases |first|
  {
    if first == [] {
      assert first + second == second;
    } else {
      assert (first + second)[1..] == first[1..] + second;
      RunAppend(Step(w, first[0]), first[1..], second);
    }
  }

  // ----------------------------------------------------------- imperative form

  /** task-ledger.json; replaced as a whole, or left as it was when the save fails. */
  class LedgerFile {
    var content: Ledger

    constructor ()
      ensures content == Ledger(map[], map[])
    {
      content := Ledger(map[], map[]);
    }

    method Save(value: Ledger, writeOk: bool) returns (ok: bool)
      modifies this
      ensures ok == writeOk
      ensures content == if writeOk then value else old(content)
    {
      if writeOk {
        content := value;
      }
      return writeOk;
    }
  }

  /** How the submission of one result ends. */
  datatype Exchange = Exchange(elapsed: nat, acknowledged: bool, saveOk: bool)

  /** How a poll ends: an error, no task, or an envelope whose execution meets `attempt`. */
  datatype Answer = Failure | Empty | Task(envelope: Envelope, attempt: Attempt, saveOk: bool)

  class TaskAgent {
    const file: LedgerFile
    var completed: map<TaskId, Time>
    var pending: map<TaskId, TaskResult>
    ghost var ran: multiset<TaskId>

    /** A start: the ledger in memory is the saved one. */
    constructor (file: LedgerFile)
      ensures this.file == file && ran == multiset{}
      ensures Ledger(completed, pending) == file.content
    {
      this.file := file;
      completed := file.content.completed;
      pending := file.content.pending;
      ran := multiset{};
    }

    ghost function Local(now: Time, phase: Phase): Worker
      reads this, file
    {
      Worker(now, Ledger(completed, pending), file.content, phase, ran)
    }

    method PruneCompletedTasks(cutoff: Time)
      modifies this`completed
      ensures completed == Pruned(old(completed), cutoff)
    {
      var todo := completed.Keys;
      while todo != {}
        invariant todo <= completed.Keys <= old(completed).Keys
        invariant forall id :: id in completed ==> completed[id] == old(completed)[id]
        invariant forall id :: id in old(completed) && id !in todo ==>
            (id in completed <==> old(completed)[id] >= cutoff)
        decreases todo
      {
        var id :| id in todo;
        todo := todo - {id};
        if completed[id] < cutoff {
          completed := completed - {id};
        }
      }
    }

    method QueueResult(id: TaskId, result: TaskResult, saveOk: bool) returns (ok: bool)
      modifies this`pending, file
      ensures ok == saveOk
      ensures pending == old(pending)[id := result]
      ensures file.content == if saveOk then Ledger(completed, pending) else old(file.content)
    {
      pending := pending[id := result];
      ok := file.Save(Ledger(completed, pending), saveOk);
    }

    /** An acknowledged result leaves the pending ones, and its task is completed. */
    method CompleteTask(id: TaskId, now: Time, saveOk: bool) returns (saved: bool)
      modifies this`completed, this`pending, file
      ensures saved == saveOk
      ensures Ledger(completed, pending) == Acknowledge(old(Ledger(completed, pending)), id, now)
      ensures file.content == if saveOk then Ledger(completed, pending) else old(file.content)
    {
      pending := pending - {id};
      completed := completed[id := now];
      PruneCompletedTasks(now - PRUNE_AFTER);
      saved := file.Save(Ledger(completed, pending), saveOk);
    }

    /** Submits every pending result in some order, until one submission or save fails. */
    method FlushPendingResults(now: Time, world: TaskId -> Exchange, ghost polling: bool)
      returns (failed: bool, clock: Time, ghost trace: seq<Event>)
      modifies this`completed, this`pending, file
      ensures Run(old(Local(now, Flushing(pending, polling))), trace)
              == Local(clock, if failed then LoopTop else Flushing(map[], polling))
      ensures !failed <==> forall id :: id in old(pending) ==> world(id).acknowledged && world(id).saveOk
      ensures !failed ==> pending == map[]
    {
      ghost var start := Local(now, Flushing(pending, polling));
      var todo := pending.Keys;
      clock, trace, failed := now, [], false;
      while todo != {}
        invariant todo == pending.Keys <= old(pending).Keys
        invariant Run(start, trace) == Local(clock, Flushing(pending, polling))
        invariant forall id :: id in old(pending) && id !in todo ==> world(id).acknowledged && world(id).saveOk
        decreases todo
      {
        var id :| id in todo;
        ghost var before := Local(clock, Flushing(pending, polling));
        var exchange := world(id);
        todo := todo - {id};
        clock := clock + exchange.elapsed;
        if !exchange.acknowledged {
          SubmissionStep(start, trace, before, id, exchange);
          trace := trace + [SendResult(id), Tick(exchange.elapsed), SubmissionFailed];
          return true, clock, trace;
        }
        var saved := CompleteTask(id, clock, exchange.saveOk);
        SubmissionStep(start, trace, before, id, exchange);
        trace := trace + [SendResult(id), Tick(exchange.elapsed), Acknowledged(exchange.saveOk)];
        if !saved {
          return true, clock, trace;
        }
      }
      assert pending == map[];
    }

    /** Verifies the envelope and runs the registered action, or names the first failing check. */
    method RunAction(envelope: Envelope, now: Time, attempt: Attempt) returns (result: TaskResult)
      modifies this`ran
      ensures Fits(result, envelope, now, attempt)
      ensures ran == if Executable(envelope, now) then old(ran) + multiset{envelope.taskId} else old(ran)
      ensures result == ExecutionResult(envelope, now, attempt)
      ensures ran == if ActionRuns(envelope, now) then old(ran) + multiset{envelope.taskId} else old(ran)
    {
      ResultFits(envelope, now, attempt);
      result := TaskResult(Failed, attempt.durationMs, None, None);
      if !Verified(envelope) {
        result := result.(errorCode := Some(AGENT_TASK_SIGNATURE_INVALID));
      } else if now > envelope.task.expiresAt {
        result := result.(errorCode := Some(AGENT_TASK_EXPIRED));
      } else if envelope.task.actionId != "system.disk_usage" {
        result := result.(errorCode := Some(AGENT_ACTION_NOT_REGISTERED));
      } else if !ValidPaths(envelope.task.paths) {
        result := result.(errorCode := Some(AGENT_PARAMETERS_INVALID));
      } else {
        ran := ran + multiset{envelope.taskId};
        if attempt.usage.None? {
          result := result.(errorCode := Some(AGENT_ACTION_FAILED));
        } else {
          result := result.(status := Succeeded, output := attempt.usage);
        }
      }
    }

    method ExecuteTask(envelope: Envelope, now: Time, attempt: Attempt, saveOk: bool, world: TaskId -> Exchange)
      returns (failed: bool, clock: Time, ghost trace: seq<Event>)
      modifies this, file
      ensures Run(old(Local(now, AwaitingTask)), trace) == Local(clock, LoopTop)
      ensures ran[envelope.taskId] <= old(ran)[envelope.taskId] + 1
      ensures ran != old(ran) ==> envelope.taskId !in old(completed) && ActionRuns(envelope, now)
    {
      ghost var start := Local(now, AwaitingTask);
      clock, trace := now, [Receive(envelope, attempt)];
      if envelope.taskId in completed {
        return false, clock, trace;
      }
      var result := RunAction(envelope, now, attempt);
      var queued := QueueResult(envelope.taskId, result, saveOk);
      trace := trace + [Event.QueueResult(saveOk)];
      ReceiveThenQueue(start, envelope, attempt, saveOk);
      assert Run(start, trace) == Local(now, if saveOk then Flushing(pending, false) else LoopTop);
      if !queued {
        return true, clock, trace;
      }
      ghost var flush;
      failed, clock, flush := FlushPendingResults(now, world, false);
      RunAppend(start, trace, flush);
      trace := trace + flush;
      if !failed {
        RunAppend(start, trace, [FlushDone]);
        trace := trace + [FlushDone];
      }
    }

    /** One turn of the loop: flush, poll, execute. */
    method TaskLoop(now: Time, world: TaskId -> Exchange, answer: Answer)
      returns (clock: Time, ghost trace: seq<Event>)
      modifies this, file
      ensures Run(old(Local(now, LoopTop)), trace) == Local(clock, LoopTop)
    {
      ghost var start := Local(now, LoopTop);
      var failed;
      ghost var flush;
      failed, clock, flush := FlushPendingResults(now, world, true);
      trace := [StartLoop] + flush;
      RunAppend(start, [StartLoop], flush);
      if failed {
        return;
      }
      RunTwo(Local(clock, Flushing(map[], true)), FlushDone, Poll);
      RunAppend(start, trace, [FlushDone, Poll]);
      trace := trace + [FlushDone, Poll];
      match answer
      case Failure =>
        RunAppend(start, trace, [PollFailed]);
        trace := trace + [PollFailed];
      case Empty =>
        RunAppend(start, trace, [NoTask]);
        trace := trace + [NoTask];
      case Task(envelope, attempt, saveOk) =>
        ghost var execution;
        failed, clock, execution := ExecuteTask(envelope, clock, attempt, saveOk, world);
        RunAppend(start, trace, execution);
        trace := trace + execution;
    }
  }

  lemma RunTwo(w: Worker, first: Event, second: Event)
    ensures Run(w, [first, second]) == Step(Step(w, first), second)
  {
    assert Run(w, [first, second]) == Run(Step(w, first), [second]);
    assert Run(Step(w, first), [second]) == Step(Step(w, first), second);
  }

  /** An execution up to its queued result, as two steps of a run. */
  lemma ReceiveThenQueue(w: Worker, e: Envelope, attempt: Attempt, saveOk: bool)
    requires w.phase.AwaitingTask? && e.taskId !in w.memory.completed
    ensures Run(w, [Receive(e, attempt), QueueResult(saveOk)])
            == Queue(w.(ran := if ActionRuns(e, w.now) then w.ran + multiset{e.taskId} else w.ran),
                     e.taskId, ExecutionResult(e, w.now, attempt), saveOk)
  {
    RunTwo(w, Receive(e, attempt), Event.QueueResult(saveOk));
  }

  /** One iteration of the flush loop, as three steps appended to a run. */
  lemma SubmissionStep(start: Worker, trace: seq<Event>, before: Worker, id: TaskId, exchange: Exchange)
    requires Run(start, trace) == before
    requires before.phase.Flushing? && id in before.memory.pending && before.phase.todo == before.memory.pending
    ensures var waiting := before.(now := before.now + exchange.elapsed);
      var last := if exchange.acknowledged then Acknowledged(exchange.saveOk) else SubmissionFailed;
      Run(start, trace + [SendResult(id), Tick(exchange.elapsed), last])
      == if exchange.acknowledged
         then Acked(waiting, id, before.memory.pending - {id}, before.phase.polling, exchange.saveOk)
         else waiting.(phase := LoopTop)
  {
    var last := if exchange.acknowledged then Acknowledged(exchange.saveOk) else SubmissionFailed;
    RunAppend(start, trace, [SendResult(id), Tick(exchange.elapsed), last]);
    assert [SendResult(id), Tick(exchange.elapsed), last][1..] == [Tick(exchange.elapsed), last];
    RunTwo(Step(before, SendResult(id)), Tick(exchange.elapsed), last);
  }
}
