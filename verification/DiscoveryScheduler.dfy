/**
  The discovery scheduler (discovery/application.py): `claim_scheduled_run` picks
  the due job with the least (next run time, id), moves its next run time on
  whether or not it may start, and starts it unless it is still running; users
  start jobs by hand through `start_run`.

  A job's id stands for its UUID, of which only the order matters. A run's id is
  its index in the table.
 */
module DiscoveryScheduler {
  import opened Wrappers

  type JobId = nat
  type RunId = nat
  type Time = nat

  datatype Job = Job(
    enabled: bool, scheduleEnabled: bool, interval: nat, nextRunAt: Option<Time>, runCount: nat,
    lastRunStatus: string, lastStartedAt: Option<Time>, lastCompletedAt: Option<Time>, lastErrorCode: Option<string>)

  datatype RunStatus = Running | Succeeded | Failed

  datatype RunRow = RunRow(job: JobId, status: RunStatus, startedAt: Time, completedAt: Option<Time>,
                           errorCode: Option<string>)

  datatype State = State(jobs: map<JobId, Job>, runs: seq<RunRow>)

  const MIN_INTERVAL := 300
  const MAX_INTERVAL := 86400

  predicate Scheduled(job: Job) {
    job.enabled && job.scheduleEnabled && job.nextRunAt.Some?
  }

  predicate Due(job: Job, now: Time) {
    Scheduled(job) && job.nextRunAt.value <= now
  }

  /** The query's order: next run time, then id. */
  predicate Earlier(at: Time, id: JobId, otherAt: Time, other: JobId) {
    at < otherAt || (at == otherAt && id < other)
  }

  /** The answer of the claim query. */
  predicate IsNextDue(jobs: map<JobId, Job>, now: Time, pick: Option<JobId>) {
    match pick
    case None => forall k: JobId :: k in jobs ==> !Due(jobs[k], now)
    case Some(id) =>
      && id in jobs && Due(jobs[id], now)
      && forall k: JobId :: k in jobs && Due(jobs[k], now) && k != id ==>
           Earlier(jobs[id].nextRunAt.value, id, jobs[k].nextRunAt.value, k)
  }

  predicate HasRunning(runs: seq<RunRow>, id: JobId) {
    exists r :: 0 <= r < |runs| && runs[r].job == id && runs[r].status == Running
  }

  function StartRun(s: State, id: JobId, at: Time): Result<State, string> {
    if id !in s.jobs then Err("AIOPS_3304")
    else if !s.jobs[id].enabled then Err("AIOPS_3306")
    else if HasRunning(s.runs, id) then Err("AIOPS_3307")
    else
      var job := s.jobs[id];
      Ok(State(
           s.jobs[id := job.(runCount := job.runCount + 1, lastRunStatus := "running", lastStartedAt := Some(at),
                             lastErrorCode := None)],
           s.runs + [RunRow(id, Running, at, None, None)]))
  }

  function Reschedule(s: State, id: JobId, now: Time): State
    requires id in s.jobs
  {
    s.(jobs := s.jobs[id := s.jobs[id].(nextRunAt := Some(now + s.jobs[id].interval))])
  }

  /** One claim: the selected job is rescheduled, and started when it is not running. */
  function Claim(s: State, now: Time, pick: Option<JobId>, at: Time): Result<State, string>
    requires IsNextDue(s.jobs, now, pick)
  {
    if pick.None? then Ok(s)
    else if HasRunning(s.runs, pick.value) then Ok(Reschedule(s, pick.value, now))
    else StartRun(Reschedule(s, pick.value, now), pick.value, at)
  }

  function CompleteRun(s: State, run: RunId, at: Time): State {
    if run >= |s.runs| || s.runs[run].job !in s.jobs then s
    else
      var job := s.jobs[s.runs[run].job];
      State(
        s.jobs[s.runs[run].job :=
               job.(lastRunStatus := "succeeded", lastCompletedAt := Some(at), lastErrorCode := None)],
        s.runs[run := s.runs[run].(status := Succeeded, completedAt := Some(at))])
  }

  function FailRun(s: State, run: RunId, code: string, at: Time): State {
    if run >= |s.runs| || s.runs[run].job !in s.jobs then s
    else
      var job := s.jobs[s.runs[run].job];
      State(
        s.jobs[s.runs[run].job :=
               job.(lastRunStatus := "failed", lastCompletedAt := Some(at), lastErrorCode := Some(code))],
        s.runs[run := s.runs[run].(status := Failed, completedAt := Some(at), errorCode := Some(code))])
  }

  function CreateJob(s: State, id: JobId, enabled: bool, scheduleEnabled: bool, interval: nat, at: Time): State {
    if id in s.jobs || !(MIN_INTERVAL <= interval <= MAX_INTERVAL) then s
    else
      s.(jobs := s.jobs[id :=
        Job(enabled, scheduleEnabled, interval, if scheduleEnabled then Some(at) else None,
            0, "never", None, None, None)])
  }

  // --------------------------------------------------------------------- runs

  datatype Event =
    | Created(id: JobId, enabled: bool, scheduleEnabled: bool, interval: nat, createdAt: Time)
    | Claimed(now: Time, pick: Option<JobId>, startedAt: Time)
    | StartedByUser(job: JobId, at: Time)
    | Completed(run: RunId, at: Time)
    | Aborted(run: RunId, code: string, at: Time)

  function Step(s: State, e: Event): State {
    match e
    case Created(id, enabled, scheduleEnabled, interval, at) => CreateJob(s, id, enabled, scheduleEnabled, interval, at)
    case Claimed(now, pick, at) =>
      if !IsNextDue(s.jobs, now, pick) then s
      else (match Claim(s, now, pick, at) case Ok(s') => s' case Err(_) => s)
    case StartedByUser(job, at) => (match StartRun(s, job, at) case Ok(s') => s' case Err(_) => s)
    case Completed(run, at) => CompleteRun(s, run, at)
    case Aborted(run, code, at) => FailRun(s, run, code, at)
  }

  function Run(s: State, events: seq<Event>): State
    decreases |events|
  {
    if events == [] then s else Run(Step(s, events[0]), events[1..])
  }

  /** The event is a claim call, with the query's own answer. */
  predicate IsClaim(s: State, e: Event) {
    e.Claimed? && IsNextDue(s.jobs, e.now, e.pick)
  }

  predicate Selects(s: State, e: Event, id: JobId) {
    IsClaim(s, e) && e.pick == Some(id)
  }

  /**
    `start_run` never refuses a job the scheduler selected: the errors for a
    missing, disabled or running job cannot reach the worker.
   */
  lemma ClaimNeverRefused(s: State, now: Time, pick: Option<JobId>, at: Time)
    requires IsNextDue(s.jobs, now, pick)
    ensures Claim(s, now, pick, at).Ok?
    ensures pick.Some? && !HasRunning(s.runs, pick.value) ==>
      HasRunning(Claim(s, now, pick, at).value.runs, pick.value)
  {
    if pick.Some? && !HasRunning(s.runs, pick.value) {
      var later := Claim(s, now, pick, at).value;
      assert later.runs[|s.runs|].job == pick.value;
    }
  }

  // ---------------------------------------------------- what the query answers

  /** Some job among these, or none, answers the query. */
  lemma {:induction false} EarliestAmong(jobs: map<JobId, Job>, now: Time, among: set<JobId>)
    returns (pick: Option<JobId>)
    requires among <= jobs.Keys
    ensures pick.None? ==> forall k :: k in among ==> !Due(jobs[k], now)
    ensures pick.Some? ==>
      && pick.value in among && Due(jobs[pick.value], now)
      && forall k :: k in among && Due(jobs[k], now) && k != pick.value ==>
           Earlier(jobs[pick.value].nextRunAt.value, pick.value, jobs[k].nextRunAt.value, k)
    decreases among
  {
    pick := None;
    if k :| k in among {
      var rest := among - {k};
      assert among == rest + {k};
      pick := EarliestAmong(jobs, now, rest);
      if Due(jobs[k], now)
         && (pick.None? || Earlier(jobs[k].nextRunAt.value, k, jobs[pick.value].nextRunAt.value, pick.value))
      {
        pick := Some(k);
      }
    }
  }

  lemma OneAnswer(jobs: map<JobId, Job>, now: Time, pick: Option<JobId>, other: Option<JobId>)
    requires IsNextDue(jobs, now, pick) && IsNextDue(jobs, now, other)
    ensures pick == other
  {
    if pick.Some? {
      assert Due(jobs[pick.value], now);
    }
    if other.Some? {
      assert Due(jobs[other.value], now);
    }
  }

  /** The job is one of those the claim query looks for: enabled, scheduled, and its next run time has come. */
  predicate Waiting(jobs: map<JobId, Job>, k: JobId, now: Time) {
    && k in jobs && jobs[k].enabled && jobs[k].scheduleEnabled
    && jobs[k].nextRunAt.Some? && jobs[k].nextRunAt.value <= now
  }

  /**
    The claim query has exactly one answer: none if no enabled and scheduled job's
    next run time has come, otherwise the job among them with the earliest next
    run time, and of several at one instant the one with the least id.
   */
  lemma ClaimPicksTheLongestWaiting(jobs: map<JobId, Job>, now: Time) returns (pick: Option<JobId>)
    ensures IsNextDue(jobs, now, pick) && forall other :: IsNextDue(jobs, now, other) ==> other == pick
    ensures pick.None? <==> forall k :: k in jobs ==> !Waiting(jobs, k, now)
    ensures pick.Some? ==>
      && Waiting(jobs, pick.value, now)
      && forall k :: k in jobs && Waiting(jobs, k, now) ==>
           && jobs[pick.value].nextRunAt.value <= jobs[k].nextRunAt.value
           && (jobs[pick.value].nextRunAt == jobs[k].nextRunAt ==> pick.value <= k)
  {
    pick := EarliestAmong(jobs, now, jobs.Keys);
    assert forall k :: k in jobs ==> (Waiting(jobs, k, now) <==> Due(jobs[k], now));
    forall other | IsNextDue(jobs, now, other)
      ensures other == pick
    {
      OneAnswer(jobs, now, pick, other);
    }
  }

  // -------------------------------------------------- what the columns report

  predicate Idle(s: State, id: JobId) {
    forall r :: 0 <= r < |s.runs| && s.runs[r].job == id ==> s.runs[r].status != Running
  }

  /** A start is refused exactly for a missing, a disabled or a running job, each with its own code. */
  lemma StartIsRefusedIff(s: State, id: JobId, at: Time)
    ensures StartRun(s, id, at).Ok? <==> id in s.jobs && s.jobs[id].enabled && Idle(s, id)
    ensures StartRun(s, id, at).Err? ==>
      StartRun(s, id, at).error ==
        if id !in s.jobs then "AIOPS_3304" else if s.jobs[id].enabled then "AIOPS_3307" else "AIOPS_3306"
  {
  }

  /** What an event does to the runs of one job. */
  datatype Activity = Starts(at: Time) | Ends(at: Time, code: Option<string>)

  function ActivityOf(s: State, e: Event, id: JobId): seq<Activity> {
    if id !in s.jobs then []
    else
      match e
      case Created(_, _, _, _, _) => []
      case Claimed(_, _, at) => if Selects(s, e, id) && Idle(s, id) then [Starts(at)] else []
      case StartedByUser(job, at) => if job == id && s.jobs[id].enabled && Idle(s, id) then [Starts(at)] else []
      case Completed(run, at) => if run < |s.runs| && s.runs[run].job == id then [Ends(at, None)] else []
      case Aborted(run, code, at) => if run < |s.runs| && s.runs[run].job == id then [Ends(at, Some(code))] else []
  }

  function History(s: State, events: seq<Event>, id: JobId): seq<Activity>
    decreases |events|
  {
    if events == [] then [] else ActivityOf(s, events[0], id) + History(Step(s, events[0]), events[1..], id)
  }

  function StartsIn(h: seq<Activity>): nat {
    if h == [] then 0 else (if h[0].Starts? then 1 else 0) + StartsIn(h[1..])
  }

  function LastStart(h: seq<Activity>, otherwise: Option<Time>): Option<Time> {
    if h == [] then otherwise else LastStart(h[1..], if h[0].Starts? then Some(h[0].at) else otherwise)
  }

  function LastEnd(h: seq<Activity>, otherwise: Option<Time>): Option<Time> {
    if h == [] then otherwise else LastEnd(h[1..], if h[0].Ends? then Some(h[0].at) else otherwise)
  }

  function StatusAfter(h: seq<Activity>, otherwise: string): string {
    if h == [] then otherwise
    else
      match h[|h| - 1]
      case Starts(_) => "running"
      case Ends(_, code) => if code.None? then "succeeded" else "failed"
  }

  function CodeAfter(h: seq<Activity>, otherwise: Option<string>): Option<string> {
    if h == [] then otherwise
    else
      match h[|h| - 1]
      case Starts(_) => None
      case Ends(_, code) => code
  }

  /** The job's columns are what the activities make of the columns before. */
  predicate Reports(before: Job, h: seq<Activity>, after: Job) {
    && after.runCount == before.runCount + StartsIn(h)
    && after.lastStartedAt == LastStart(h, before.lastStartedAt)
    && after.lastCompletedAt == LastEnd(h, before.lastCompletedAt)
    && after.lastRunStatus == StatusAfter(h, before.lastRunStatus)
    && after.lastErrorCode == CodeAfter(h, before.lastErrorCode)
    && after.enabled == before.enabled && after.scheduleEnabled == before.scheduleEnabled
    && after.interval == before.interval
  }

  lemma StepReports(s: State, e: Event, id: JobId)
    requires id in s.jobs
    ensures id in Step(s, e).jobs && Reports(s.jobs[id], ActivityOf(s, e, id), Step(s, e).jobs[id])
  {
    if e.Claimed? && IsNextDue(s.jobs, e.now, e.pick) {
      ClaimNeverRefused(s, e.now, e.pick, e.startedAt);
    }
  }

  lemma ReportsTransitive(a: Job, h: seq<Activity>, b: Job, more: seq<Activity>, c: Job)
    requires |h| <= 1 && Reports(a, h, b) && Reports(b, more, c)
    ensures Reports(a, h + more, c)
  {
    if h != [] {
      assert h == [h[0]] && (h + more)[1..] == more;
      assert StartsIn([h[0]]) == if h[0].Starts? then 1 else 0;
      assert LastStart([h[0]], a.lastStartedAt) == if h[0].Starts? then Some(h[0].at) else a.lastStartedAt;
      assert LastEnd([h[0]], a.lastCompletedAt) == if h[0].Ends? then Some(h[0].at) else a.lastCompletedAt;
    } else {
      assert h + more == more;
    }
  }

  /**
    Over every run a job's columns report its history: the counter its starts, the
    times its last start and its last end, status and error code its last
    activity; and nothing changes whether and how often it is scheduled.
   */
  lemma {:induction false} JobReportsItsHistory(s: State, events: seq<Event>, id: JobId)
    requires id in s.jobs
    ensures id in Run(s, events).jobs && Reports(s.jobs[id], History(s, events, id), Run(s, events).jobs[id])
    decreases |events|
  {
    if events != [] {
      var s' := Step(s, events[0]);
      StepReports(s, events[0], id);
      JobReportsItsHistory(s', events[1..], id);
      ReportsTransitive(s.jobs[id], ActivityOf(s, events[0], id), s'.jobs[id], History(s', events[1..], id),
                        Run(s, events).jobs[id]);
    }
  }

  /** The event ends this run of a job that exists. */
  predicate EndsRun(s: State, e: Event, r: RunId) {
    (e.Completed? || e.Aborted?) && e.run == r < |s.runs| && s.runs[r].job in s.jobs
  }

  /** A run's row says when and how it ended; it keeps its job and its start, and changes in no other way. */
  lemma RunRowSaysHowItEnded(s: State, e: Event, r: RunId)
    requires r < |s.runs|
    ensures var before := s.runs[r];
      && r < |Step(s, e).runs|
      && var after := Step(s, e).runs[r];
      if !EndsRun(s, e, r) then after == before
      else
        && after.job == before.job && after.startedAt == before.startedAt && after.completedAt == Some(e.at)
        && after.status == (if e.Completed? then Succeeded else Failed)
        && after.errorCode == (if e.Completed? then before.errorCode else Some(e.code))
  {
  }

  /** A run is added exactly for a start, in the state running since then. */
  lemma RunIsAddedIff(s: State, e: Event, id: JobId)
    ensures (exists at :: ActivityOf(s, e, id) == [Starts(at)])
      <==> |Step(s, e).runs| == |s.runs| + 1 && Step(s, e).runs[|s.runs|].job == id
    ensures forall at :: ActivityOf(s, e, id) == [Starts(at)] ==>
      Step(s, e).runs == s.runs + [RunRow(id, Running, at, None, None)]
  {
    if e.Claimed? && IsNextDue(s.jobs, e.now, e.pick) {
      ClaimNeverRefused(s, e.now, e.pick, e.startedAt);
      assert e.pick == Some(id) && Idle(s, id) ==> ActivityOf(s, e, id) == [Starts(e.startedAt)];
    } else if e.StartedByUser? {
      StartIsRefusedIff(s, e.job, e.at);
      assert e.job == id && id in s.jobs && s.jobs[id].enabled && Idle(s, id) ==>
          ActivityOf(s, e, id) == [Starts(e.at)];
    }
  }

  /**
    A new job needs a free id and an interval of five minutes to a day. It has
    never run, and is due from its creation on exactly if it is enabled and
    scheduled; no other job is touched.
   */
  lemma NewJobIsDueIff(s: State, id: JobId, enabled: bool, scheduled: bool, interval: nat, at: Time, now: Time)
    ensures var s' := Step(s, Created(id, enabled, scheduled, interval, at));
      if id in s.jobs || interval < 300 || interval > 24 * 60 * 60 then s' == s
      else
        && s'.runs == s.runs && s'.jobs == s.jobs[id := s'.jobs[id]]
        && (Due(s'.jobs[id], now) <==> enabled && scheduled && at <= now)
        && s'.jobs[id].enabled == enabled && s'.jobs[id].scheduleEnabled == scheduled
        && s'.jobs[id].interval == interval && s'.jobs[id].runCount == 0 && s'.jobs[id].lastRunStatus == "never"
        && s'.jobs[id].lastStartedAt.None? && s'.jobs[id].lastCompletedAt.None? && s'.jobs[id].lastErrorCode.None?
  {
  }

  // ------------------------------------------------------ one run at a time

  predicate OneRunningEach(runs: seq<RunRow>) {
    forall i, j :: 0 <= i < j < |runs| && runs[i].job == runs[j].job ==>
        runs[i].status != Running || runs[j].status != Running
  }

  function RunsOf(runs: seq<RunRow>, id: JobId): nat {
    if runs == [] then 0
    else RunsOf(runs[..|runs| - 1], id) + (if runs[|runs| - 1].job == id then 1 else 0)
  }

  predicate CountsMatch(s: State) {
    && (forall r :: 0 <= r < |s.runs| ==> s.runs[r].job in s.jobs)
    && (forall id: JobId :: id in s.jobs ==> s.jobs[id].runCount == RunsOf(s.runs, id))
  }

  predicate IntervalsInRange(jobs: map<JobId, Job>) {
    forall id: JobId :: id in jobs ==> MIN_INTERVAL <= jobs[id].interval <= MAX_INTERVAL
  }

  predicate Inv(s: State) {
    OneRunningEach(s.runs) && CountsMatch(s) && IntervalsInRange(s.jobs)
  }

  lemma {:induction false} UpdateKeepsCount(runs: seq<RunRow>, r: nat, row: RunRow, id: JobId)
    requires r < |runs| && row.job == runs[r].job
    ensures RunsOf(runs[r := row], id) == RunsOf(runs, id)
  {
    var n := |runs| - 1;
    if r < n {
      UpdateKeepsCount(runs[..n], r, row, id);
      assert runs[r := row][..n] == runs[..n][r := row];
    } else {
      assert runs[r := row][..n] == runs[..n];
    }
  }

  lemma {:induction false} NoRunsBeforeCreation(runs: seq<RunRow>, id: JobId)
    requires forall r :: 0 <= r < |runs| ==> runs[r].job != id
    ensures RunsOf(runs, id) == 0
  {
    if runs != [] {
      NoRunsBeforeCreation(runs[..|runs| - 1], id);
    }
  }

  lemma StartKeepsInv(s: State, id: JobId, at: Time)
    requires Inv(s) && StartRun(s, id, at).Ok?
    ensures Inv(StartRun(s, id, at).value)
  {
    var s' := StartRun(s, id, at).value;
    assert s'.runs[..|s.runs|] == s.runs;
  }

  lemma FinishKeepsInv(s: State, s': State, run: RunId)
    requires Inv(s) && run < |s.runs|
    requires |s'.runs| == |s.runs| && s'.runs == s.runs[run := s'.runs[run]]
    requires s'.runs[run].job == s.runs[run].job && s'.runs[run].status != Running
    requires s'.jobs.Keys == s.jobs.Keys && forall id: JobId :: id in s.jobs ==>
        s'.jobs[id].runCount == s.jobs[id].runCount
    requires IntervalsInRange(s'.jobs)
    ensures Inv(s')
  {
    forall id: JobId | id in s.jobs
      ensures s'.jobs[id].runCount == RunsOf(s'.runs, id)
    {
      UpdateKeepsCount(s.runs, run, s'.runs[run], id);
    }
  }

  lemma CreateKeepsInv(s: State, e: Event)
    requires Inv(s) && e.Created?
    ensures Inv(Step(s, e))
  {
    if e.id !in s.jobs {
      NoRunsBeforeCreation(s.runs, e.id);
    }
  }

  lemma ClaimKeepsInv(s: State, e: Event)
    requires Inv(s) && e.Claimed?
    ensures Inv(Step(s, e))
  {
    if IsNextDue(s.jobs, e.now, e.pick) && e.pick.Some? && !HasRunning(s.runs, e.pick.value) {
      StartKeepsInv(Reschedule(s, e.pick.value, e.now), e.pick.value, e.startedAt);
    }
  }

  lemma StepKeepsInv(s: State, e: Event)
    requires Inv(s)
    ensures Inv(Step(s, e))
  {
    match e
    case Created(_, _, _, _, _) => CreateKeepsInv(s, e);
    case Claimed(_, _, _) => ClaimKeepsInv(s, e);
    case StartedByUser(job, at) =>
      if StartRun(s, job, at).Ok? {
        StartKeepsInv(s, job, at);
      }
    case Completed(run, at) =>
      if run < |s.runs| {
        FinishKeepsInv(s, CompleteRun(s, run, at), run);
      }
    case Aborted(run, code, at) =>
      if run < |s.runs| {
        FinishKeepsInv(s, FailRun(s, run, code, at), run);
      }
  }

  lemma {:induction false} RunKeepsInv(s: State, events: seq<Event>)
    requires Inv(s)
    ensures Inv(Run(s, events))
    decreases |events|
  {
    if events != [] {
      StepKeepsInv(s, events[0]);
      RunKeepsInv(Step(s, events[0]), events[1..]);
    }
  }

  /**
    Over every run of claims, starts by hand, completions and failures, no job
    has two running runs, and its counter is the number of runs it ever had.
   */
  lemma OneRunAtATime(events: seq<Event>, i: RunId, j: RunId, id: JobId)
    ensures var s := Run(State(map[], []), events);
      && (i < j < |s.runs| && s.runs[i].job == s.runs[j].job ==>
          s.runs[i].status != Running || s.runs[j].status != Running)
      && (id in s.jobs ==> s.jobs[id].runCount == RunsOf(s.runs, id))
  {
    RunKeepsInv(State(map[], []), events);
  }

  // ------------------------------------------------------------------ spacing

  /** The job is not due before `at`. */
  predicate NotDueBefore(s: State, id: JobId, at: Time) {
    id in s.jobs && s.jobs[id].nextRunAt.Some? && s.jobs[id].nextRunAt.value >= at
  }

  lemma {:induction false} RunKeepsNotDue(s: State, events: seq<Event>, id: JobId, at: Time)
    requires NotDueBefore(s, id, at)
    ensures NotDueBefore(Run(s, events), id, at)
    ensures Run(s, events).jobs[id].interval == s.jobs[id].interval
    decreases |events|
  {
    if events != [] {
      RunKeepsNotDue(Step(s, events[0]), events[1..], id, at);
    }
  }

  /**
    Two selections of one job in one run, whatever happens in between, are at
    least the job's interval apart, even when the first found it running.
   */
  lemma SelectionsAreSpaced(s: State, first: Event, between: seq<Event>, second: Event, id: JobId)
    requires Selects(s, first, id)
    requires Selects(Run(Step(s, first), between), second, id)
    ensures second.now >= first.now + s.jobs[id].interval
  {
    ClaimNeverRefused(s, first.now, first.pick, first.startedAt);
    RunKeepsNotDue(Step(s, first), between, id, first.now + s.jobs[id].interval);
  }

  predicate NeverSelected(s: State, events: seq<Event>, id: JobId)
    decreases |events|
  {
    events == [] || (!Selects(s, events[0], id) && NeverSelected(Step(s, events[0]), events[1..], id))
  }

  lemma UnselectedKeepsSchedule(s: State, e: Event, id: JobId)
    requires id in s.jobs && Scheduled(s.jobs[id]) && !Selects(s, e, id)
    ensures id in Step(s, e).jobs && Scheduled(Step(s, e).jobs[id])
    ensures Step(s, e).jobs[id].nextRunAt == s.jobs[id].nextRunAt
  {
  }

  lemma {:induction false} UnselectedKeepsDueTime(s: State, events: seq<Event>, id: JobId)
    requires id in s.jobs && Scheduled(s.jobs[id]) && NeverSelected(s, events, id)
    ensures id in Run(s, events).jobs && Scheduled(Run(s, events).jobs[id])
    ensures Run(s, events).jobs[id].nextRunAt == s.jobs[id].nextRunAt
    decreases |events|
  {
    if events != [] {
      UnselectedKeepsSchedule(s, events[0], id);
      UnselectedKeepsDueTime(Step(s, events[0]), events[1..], id);
    }
  }

  /** A selected job is due again exactly one interval later, whatever happens until its next selection. */
  lemma DueAgainAfterOneInterval(s: State, selection: Event, between: seq<Event>, id: JobId, now: Time)
    requires Selects(s, selection, id) && NeverSelected(Step(s, selection), between, id)
    ensures var later := Run(Step(s, selection), between);
      id in later.jobs && (Due(later.jobs[id], now) <==> now >= selection.now + s.jobs[id].interval)
  {
    ClaimNeverRefused(s, selection.now, selection.pick, selection.startedAt);
    UnselectedKeepsDueTime(Step(s, selection), between, id);
  }

  // ---------------------------------------------------------- bounded waiting

  /** The scheduled jobs that the claim query prefers to a job due at `at`. */
  function Ahead(jobs: map<JobId, Job>, id: JobId, at: Time): set<JobId> {
    set k | k in jobs && Scheduled(jobs[k]) && Earlier(jobs[k].nextRunAt.value, k, at, id)
  }

  function ClaimCalls(s: State, events: seq<Event>): nat
    decreases |events|
  {
    if events == [] then 0
    else (if IsClaim(s, events[0]) then 1 else 0) + ClaimCalls(Step(s, events[0]), events[1..])
  }

  /** Jobs created no later than `at`: the only way to get ahead of a job due at `at`. */
  function CreatedBy(events: seq<Event>, at: Time): nat
    decreases |events|
  {
    if events == [] then 0
    else (if events[0].Created? && events[0].createdAt <= at then 1 else 0) + CreatedBy(events[1..], at)
  }

  predicate ClaimsNotBefore(events: seq<Event>, at: Time) {
    forall i :: 0 <= i < |events| && events[i].Claimed? ==> events[i].now >= at
  }

  /** A claim that passes over a due job takes one of those ahead of it, which then is no longer ahead. */
  lemma ClaimShrinksAhead(s: State, e: Event, id: JobId)
    requires IntervalsInRange(s.jobs)
    requires IsClaim(s, e) && id in s.jobs && Due(s.jobs[id], e.now) && e.pick != Some(id)
    ensures var at := s.jobs[id].nextRunAt.value;
      && |Ahead(Step(s, e).jobs, id, at)| < |Ahead(s.jobs, id, at)|
  {
    var at := s.jobs[id].nextRunAt.value;
    var k := e.pick.value;
    ClaimNeverRefused(s, e.now, e.pick, e.startedAt);
    assert k in Ahead(s.jobs, id, at);
    SubsetCardinality(Ahead(Step(s, e).jobs, id, at), Ahead(s.jobs, id, at) - {k});
  }

  lemma {:induction false} SubsetCardinality<T>(a: set<T>, b: set<T>)
    requires a <= b
    ensures |a| <= |b|
  {
    if x :| x in a {
      SubsetCardinality(a - {x}, b - {x});
    }
  }

  lemma OtherStepsKeepAhead(s: State, e: Event, id: JobId)
    requires id in s.jobs && Scheduled(s.jobs[id]) && !IsClaim(s, e)
    ensures var at := s.jobs[id].nextRunAt.value;
      && |Ahead(Step(s, e).jobs, id, at)| <= |Ahead(s.jobs, id, at)| + CreatedBy([e], at)
  {
    var at := s.jobs[id].nextRunAt.value;
    if e.Created? && e.createdAt <= at {
      SubsetCardinality(Ahead(Step(s, e).jobs, id, at), Ahead(s.jobs, id, at) + {e.id});
    } else {
      SubsetCardinality(Ahead(Step(s, e).jobs, id, at), Ahead(s.jobs, id, at));
    }
  }

  lemma {:induction false} PassedOverCalls(s: State, events: seq<Event>, id: JobId)
    requires Inv(s)
    requires id in s.jobs && Scheduled(s.jobs[id])
    requires ClaimsNotBefore(events, s.jobs[id].nextRunAt.value)
    requires NeverSelected(s, events, id)
    ensures var at := s.jobs[id].nextRunAt.value;
      && ClaimCalls(s, events) <= |Ahead(s.jobs, id, at)| + CreatedBy(events, at)
    decreases |events|
  {
    if events != [] {
      var e := events[0];
      UnselectedKeepsSchedule(s, e, id);
      StepKeepsInv(s, e);
      assert forall i :: 0 <= i < |events[1..]| ==> events[1..][i] == events[i + 1];
      PassedOverCalls(Step(s, e), events[1..], id);
      if IsClaim(s, e) {
        ClaimShrinksAhead(s, e, id);
      } else {
        OtherStepsKeepAhead(s, e, id);
      }
    }
  }

  /**
    Bounded waiting: while a due job is passed over, there are at most as many
    claim calls as jobs ahead of it, plus the jobs created at or before the
    instant it was due. So with n jobs ahead it is selected by call n + 1, and
    neither running jobs nor starts by hand can hold it back.
   */
  lemma WaitingIsBounded(before: seq<Event>, events: seq<Event>, id: JobId)
    requires var s := Run(State(map[], []), before);
      && id in s.jobs && Scheduled(s.jobs[id])
      && ClaimsNotBefore(events, s.jobs[id].nextRunAt.value)
      && NeverSelected(s, events, id)
    ensures var s := Run(State(map[], []), before);
      var at := s.jobs[id].nextRunAt.value;
      && ClaimCalls(s, events) <= |Ahead(s.jobs, id, at)| + CreatedBy(events, at)
  {
    RunKeepsInv(State(map[], []), before);
    PassedOverCalls(Run(State(map[], []), before), events, id);
  }

  // ----------------------------------------------------------- imperative form

  class Scheduler {
    var jobs: map<JobId, Job>
    var runs: seq<RunRow>

    constructor ()
      ensures Contents() == State(map[], [])
    {
      jobs, runs := map[], [];
    }

    function Contents(): State
      reads this
    {
      State(jobs, runs)
    }

    /** `interval` has passed the request schema. */
    method AddJob(id: JobId, enabled: bool, scheduleEnabled: bool, interval: nat, at: Time)
      requires id !in jobs && MIN_INTERVAL <= interval <= MAX_INTERVAL
      modifies this
      ensures Contents() == CreateJob(old(Contents()), id, enabled, scheduleEnabled, interval, at)
      ensures id in jobs && (Due(jobs[id], at) <==> enabled && scheduleEnabled)
    {
      var nextRunAt: Option<Time> := None;
      if scheduleEnabled {
        nextRunAt := Some(at);
      }
      jobs := jobs[id := Job(enabled, scheduleEnabled, interval, nextRunAt, 0, "never", None, None, None)];
    }

    method StartJobRun(id: JobId, at: Time) returns (result: Result<RunId, string>)
      modifies this
      ensures result.Ok? == StartRun(old(Contents()), id, at).Ok?
      ensures result.Ok? ==> Contents() == StartRun(old(Contents()), id, at).value && result.value == |old(runs)|
      ensures result.Err? ==> Contents() == old(Contents()) && result.error == StartRun(old(Contents()), id, at).error
    {
      if id !in jobs {
        return Err("AIOPS_3304");
      }
      if !jobs[id].enabled {
        return Err("AIOPS_3306");
      }
      if HasRunning(runs, id) {
        return Err("AIOPS_3307");
      }
      runs := runs + [RunRow(id, Running, at, None, None)];
      jobs := jobs[id := jobs[id].(runCount := jobs[id].runCount + 1)];
      jobs := jobs[id := jobs[id].(lastRunStatus := "running")];
      jobs := jobs[id := jobs[id].(lastStartedAt := Some(at))];
      jobs := jobs[id := jobs[id].(lastErrorCode := None)];
      return Ok(|runs| - 1);
    }

    /** `pick` is the answer of the claim query. */
    method ClaimScheduledRun(now: Time, pick: Option<JobId>, at: Time) returns (claimed: Option<RunId>)
      requires IsNextDue(jobs, now, pick)
      modifies this
      ensures Claim(old(Contents()), now, pick, at) == Ok(Contents())
      ensures claimed == if pick.Some? && !HasRunning(old(runs), pick.value) then Some(|old(runs)|) else None
    {
      ClaimNeverRefused(Contents(), now, pick, at);
      if pick.None? {
        return None;
      }
      var running := HasRunning(runs, pick.value);
      jobs := jobs[pick.value := jobs[pick.value].(nextRunAt := Some(now + jobs[pick.value].interval))];
      if running {
        return None;
      }
      var started := StartJobRun(pick.value, at);
      return Some(started.value);
    }

    method FinishRun(run: RunId, failure: Option<string>, at: Time)
      modifies this
      ensures Contents() ==
        if failure.Some? then FailRun(old(Contents()), run, failure.value, at)
          else CompleteRun(old(Contents()), run, at)
    {
      if run >= |runs| || runs[run].job !in jobs {
        return;
      }
      var id := runs[run].job;
      runs := runs[run := runs[run].(status := if failure.Some? then Failed else Succeeded)];
      runs := runs[run := runs[run].(completedAt := Some(at))];
      if failure.Some? {
        runs := runs[run := runs[run].(errorCode := failure)];
      }
      jobs := jobs[id := jobs[id].(lastRunStatus := if failure.Some? then "failed" else "succeeded")];
      jobs := jobs[id := jobs[id].(lastCompletedAt := Some(at))];
      jobs := jobs[id := jobs[id].(lastErrorCode := failure)];
    }
  }
}
