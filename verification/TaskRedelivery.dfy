/**
  When a delivered envelope can run its action a second time: exactly when its
  first result was not saved, or outlives the seven days for which the ledger
  remembers it.
 */
module TaskRedelivery {
  import opened Wrappers
  import opened TaskLedger

  /** No event delivers an envelope of the task that expires later. */
  predicate AllExpireBy(events: seq<Event>, id: TaskId, expiry: Time) {
    forall i :: 0 <= i < |events| ==> EnvelopeExpiresBy(events[i], id, expiry)
  }

  /** Whatever happens from here on, the task's action does not run again. */
  ghost predicate NeverRunsAgain(w: Worker, id: TaskId, expiry: Time) {
    forall events: seq<Event> :: AllExpireBy(events, id, expiry) ==> Run(w, events).ran[id] == w.ran[id]
  }

  /** The ledger once the pending results of `w` are acknowledged at once. */
  predicate Flushed(w: Worker, ledger: Ledger) {
    && ledger.pending == map[]
    && (forall t :: t in ledger.completed && t !in w.memory.pending ==> t in w.memory.completed)
    && (w.memory.pending != map[] ==> forall t :: t in ledger.completed ==> ledger.completed[t] >= w.now - PRUNE_AFTER)
    && (forall t :: t in ledger.completed ==>
          ledger.completed[t] == if t in w.memory.pending then w.now else w.memory.completed[t])
  }

  /** The flush of at most one result, acknowledged and saved. */
  lemma Flush(w: Worker, id: TaskId, expiry: Time) returns (events: seq<Event>)
    requires Inv(w) && w.phase.Flushing?
    ensures AllExpireBy(events, id, expiry)
    ensures var w' := Run(w, events);
      && w'.phase == Flushing(map[], w.phase.polling) && Flushed(w, w'.memory)
      && w'.now == w.now && w'.ran == w.ran
  {
    if w.memory.pending == map[] {
      events := [];
    } else {
      var o :| o in w.memory.pending;
      OnlyPending(w.memory.pending, o);
      events := [SendResult(o), Acknowledged(true)];
      RunTwo(w, SendResult(o), Acknowledged(true));
    }
  }

  /** From the top of the loop to a poll that has been answered with the envelope. */
  lemma FlushAndReceive(w: Worker, e: Envelope, id: TaskId, expiry: Time) returns (events: seq<Event>)
    requires Inv(w) && w.phase.LoopTop? && EnvelopeExpiresBy(Receive(e, Attempt(None, 0)), id, expiry)
    requires e.taskId !in w.memory.completed && e.taskId !in w.memory.pending
    ensures AllExpireBy(events, id, expiry)
    ensures var w' := Run(w, events);
      && Inv(w') && w'.phase == Executed(e.taskId, ExecutionResult(e, w.now, Attempt(None, 0)))
      && Flushed(w, w'.memory) && w'.now == w.now
      && w'.ran == if ActionRuns(e, w.now) then w.ran + multiset{e.taskId} else w.ran
  {
    var started := Step(w, StartLoop);
    var flush := Flush(started, id, expiry);
    var flushed := Run(started, flush);
    var receive := Receive(e, Attempt(None, 0));
    var polled := Step(Step(flushed, FlushDone), Poll);
    events := [StartLoop] + (flush + ([FlushDone, Poll] + [receive]));
    RunAppend(w, [StartLoop], flush + ([FlushDone, Poll] + [receive]));
    assert Run(w, [StartLoop]) == started;
    RunAppend(started, flush, [FlushDone, Poll] + [receive]);
    RunAppend(flushed, [FlushDone, Poll], [receive]);
    RunTwo(flushed, FlushDone, Poll);
    assert Run(polled, [receive]) == Step(polled, receive);
    RunKeepsInv(w, events);
  }

  /** A queued and saved result is acknowledged at once. */
  lemma FlushQueued(w: Worker, id: TaskId, expiry: Time) returns (events: seq<Event>)
    requires Inv(w) && w.phase.Executed?
    ensures AllExpireBy(events, id, expiry)
    ensures var queued := Step(w, QueueResult(true));
      var w' := Run(queued, events);
      && Inv(w') && w'.phase == LoopTop && w'.now == w.now && w'.ran == w.ran && Flushed(queued, w'.memory)
  {
    var queued := Step(w, Event.QueueResult(true));
    StepKeepsInv(w, Event.QueueResult(true));
    var flush := Flush(queued, id, expiry);
    var flushed := Run(queued, flush);
    events := flush + [FlushDone];
    RunAppend(queued, flush, [FlushDone]);
    assert Run(flushed, [FlushDone]) == Step(flushed, FlushDone);
    RunKeepsInv(queued, events);
  }

  lemma {:induction false} FreshTask(ids: set<TaskId>) returns (newId: TaskId)
    ensures forall t :: t in ids ==> t < newId
  {
    if ids == {} {
      newId := 0;
    } else {
      var t :| t in ids;
      var above := FreshTask(ids - {t});
      newId := if t < above then above else t + 1;
      assert forall u :: u in ids ==> u == t || u in ids - {t};
    }
  }

  function Redelivery(id: TaskId, expiry: Time): Envelope {
    Envelope(id, true, SignedTask(id, "system.disk_usage", expiry, ["/"]))
  }

  /**
    A result that was not saved is forgotten by a crash: from any state in which
    the file has no trace of the task, its envelope then runs the action again,
    as long as it has not expired.
   */
  lemma UnsavedResultCanRunAgain(before: Worker, expiry: Time) returns (events: seq<Event>)
    requires Inv(before) && before.phase.Executed? && before.now <= expiry
    requires before.phase.id !in before.disk.pending && before.phase.id !in before.disk.completed
    ensures AllExpireBy(events, before.phase.id, expiry)
    ensures Run(Step(before, QueueResult(false)), events).ran[before.phase.id] == before.ran[before.phase.id] + 1
  {
    var id, queued := before.phase.id, Step(before, Event.QueueResult(false));
    var crashed := Step(queued, Crash);
    StepKeepsInv(before, Event.QueueResult(false));
    StepKeepsInv(queued, Crash);
    var again := FlushAndReceive(crashed, Redelivery(id, expiry), id, expiry);
    events := [Crash] + again;
    RunAppend(queued, [Crash], again);
    assert Run(queued, [Crash]) == crashed;
  }

  /** More than seven days later one acknowledgement of any other task prunes the entry. */
  lemma EntryIsPruned(w: Worker, id: TaskId, expiry: Time) returns (events: seq<Event>)
    requires Inv(w) && w.phase.LoopTop? && w.memory.pending == map[]
    requires id in w.memory.completed ==> w.memory.completed[id] < w.now - 7 * 24 * 60 * 60
    ensures AllExpireBy(events, id, expiry)
    ensures var w' := Run(w, events);
      && Inv(w') && w'.phase.LoopTop? && w'.now == w.now && w'.ran == w.ran
      && id !in w'.memory.completed && id !in w'.memory.pending
  {
    var other := FreshTask(w.memory.completed.Keys + {id});
    assert other !in w.memory.completed.Keys + {id};
    var received := FlushAndReceive(w, Redelivery(other, 0).(signatureValid := false), id, expiry);
    var executed := Run(w, received);
    var flushed := FlushQueued(executed, id, expiry);
    events := received + ([Event.QueueResult(true)] + flushed);
    RunAppend(w, received, [Event.QueueResult(true)] + flushed);
    RunAppend(executed, [Event.QueueResult(true)], flushed);
    assert Run(executed, [Event.QueueResult(true)]) == Step(executed, Event.QueueResult(true));
    assert other in Step(executed, Event.QueueResult(true)).memory.pending;
  }

  /**
    A saved result is remembered for seven days only: an envelope that outlives
    them runs the action again, once another acknowledgement has pruned its entry.
   */
  lemma OutlivingEnvelopeCanRunAgain(before: Worker, expiry: Time) returns (events: seq<Event>)
    requires Inv(before) && before.phase.Executed? && before.now + 7 * 24 * 60 * 60 < expiry
    ensures AllExpireBy(events, before.phase.id, expiry)
    ensures Run(Step(before, QueueResult(true)), events).ran[before.phase.id] == before.ran[before.phase.id] + 1
  {
    var id, queued := before.phase.id, Step(before, Event.QueueResult(true));
    var saved := FlushQueued(before, id, expiry);
    var top := Run(queued, saved);
    var wait := [Tick((PRUNE_AFTER + 1) as nat)];
    var later := Step(top, wait[0]);
    StepKeepsInv(top, wait[0]);
    var pruned := EntryIsPruned(later, id, expiry);
    var empty := Run(later, pruned);
    var again := FlushAndReceive(empty, Redelivery(id, expiry), id, expiry);
    events := saved + (wait + (pruned + again));
    RunAppend(queued, saved, wait + (pruned + again));
    RunAppend(top, wait, pruned + again);
    assert Run(top, wait) == later;
    RunAppend(later, pruned, again);
  }

  /**
    Exactly when the action of an executed task can never run again, whatever is
    delivered afterwards: its result was saved and its envelopes expire within
    seven days of the save, or they have expired already. The file is taken to
    have no trace of the task from before.
   */
  lemma NeverRunsAgainIff(before: Worker, saveOk: bool, expiry: Time)
    requires Inv(before) && before.phase.Executed?
    requires before.phase.id !in before.disk.pending && before.phase.id !in before.disk.completed
    ensures NeverRunsAgain(Step(before, QueueResult(saveOk)), before.phase.id, expiry)
      <==> expiry < before.now || (saveOk && expiry <= before.now + 7 * 24 * 60 * 60)
  {
    var id, queued := before.phase.id, Step(before, Event.QueueResult(saveOk));
    StepKeepsInv(before, Event.QueueResult(saveOk));
    if expiry < before.now || (saveOk && expiry <= before.now + PRUNE_AFTER) {
      forall events: seq<Event> | AllExpireBy(events, id, expiry)
        ensures Run(queued, events).ran[id] == queued.ran[id]
      {
        SettledRun(queued, events, id, expiry);
      }
    } else if saveOk {
      var events := OutlivingEnvelopeCanRunAgain(before, expiry);
    } else {
      var events := UnsavedResultCanRunAgain(before, expiry);
    }
  }
}
