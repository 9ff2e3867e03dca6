/**
  When tasks start and finish: what the times on a task row say, over every run
  of the control plane with its clock never going back.
 */
module TaskTimes {
  import opened ControlPlane

  /** A task starts before its expiry, finishes after its start, and is started and finished when its status says so. */
  predicate TimesOrdered(task: Task, now: Time) {
    var p := task.progress;
    && task.createdAt <= now
    && (p.startedAt.Some? <==> p.status == Running || Done(p.status))
    && (p.completedAt.Some? <==> p.status == Canceled || Done(p.status))
    && (p.startedAt.Some? ==> task.createdAt <= p.startedAt.value <= now && p.startedAt.value < task.expiresAt)
    && (p.completedAt.Some? ==> task.createdAt <= p.completedAt.value <= now)
    && (p.startedAt.Some? && p.completedAt.Some? ==> p.startedAt.value <= p.completedAt.value)
  }

  predicate AllTimesOrdered(tasks: seq<Task>, now: Time) {
    forall t :: 0 <= t < |tasks| ==> TimesOrdered(tasks[t], now)
  }

  lemma RequestsKeepTimes(s: State, e: Event)
    requires AllTimesOrdered(s.tasks, s.now) && (e.TaskCreated? || e.JobCreated? || e.ApprovalDecided?)
    ensures AllTimesOrdered(Step(s, e).tasks, s.now)
  {
  }

  lemma DispatchKeepsTimes(s: State, e: Event)
    requires AllTimesOrdered(s.tasks, s.now) && (e.TaskPolled? || e.ResultSubmitted? || e.AgentDisabled?)
    ensures AllTimesOrdered(Step(s, e).tasks, s.now)
  {
  }

  lemma StepKeepsTimes(s: State, e: Event)
    requires AllTimesOrdered(s.tasks, s.now)
    ensures AllTimesOrdered(Step(s, e).tasks, Step(s, e).now)
  {
    if e.TaskCreated? || e.JobCreated? || e.ApprovalDecided? {
      RequestsKeepTimes(s, e);
    } else if e.TaskPolled? || e.ResultSubmitted? || e.AgentDisabled? {
      DispatchKeepsTimes(s, e);
    }
  }

  lemma {:induction false} RunKeepsTimes(s: State, events: seq<Event>)
    requires AllTimesOrdered(s.tasks, s.now)
    ensures AllTimesOrdered(Run(s, events).tasks, Run(s, events).now)
    decreases |events|
  {
    if events != [] {
      StepKeepsTimes(s, events[0]);
      RunKeepsTimes(Step(s, events[0]), events[1..]);
    }
  }

  /** Over every run no task is handed out after its expiry, and none is finished that was not handed out before. */
  lemma StartedBeforeExpiry(now: Time, events: seq<Event>, t: TaskId)
    requires t < |Run(Empty(now), events).tasks|
    ensures TimesOrdered(Run(Empty(now), events).tasks[t], Run(Empty(now), events).now)
  {
    RunKeepsTimes(Empty(now), events);
  }
}
