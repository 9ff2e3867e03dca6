/**
  What becomes of one outbox row: which entry its event tells of, when it is
  selected, and when it is retried.
 */
module OutboxDelivery {
  import opened Wrappers
  import opened AuditChain
  import opened AuditOutbox

  // ------------------------------------------------ an event tells of its entry

  /** The event type is the entry's action, cut after 160 characters; the time is the entry's. */
  predicate Tells(eventType: string, at: Time, content: Content) {
    && eventType == (if |content.action| <= 160 then content.action else content.action[..160])
    && at == content.createdAt
  }

  predicate RowsTell(s: State) {
    forall id :: 0 <= id < |s.rows| ==>
      && s.rows[id].audit < |s.log|
      && Tells(s.rows[id].eventType, s.rows[id].createdAt, s.log[s.rows[id].audit].document.content)
  }

  lemma AppendTells(hash: Document -> Digest, s: State, content: Content)
    requires RowsTell(s)
    ensures RowsTell(Append(hash, s, content))
  {
    var s' := Append(hash, s, content);
    assert s'.log[..|s.log|] == s.log && s'.log[|s.log|].document.content == content;
    forall id | 0 <= id < |s.rows|
      ensures s'.rows[id] == s.rows[id]
    {
    }
  }

  lemma {:induction false} RunTells(hash: Document -> Digest, s: State, events: seq<Event>)
    requires RowsTell(s)
    ensures RowsTell(Run(hash, s, events))
    decreases |events|
  {
    if events != [] {
      if events[0].Audited? {
        AppendTells(hash, s, events[0].content);
      }
      RunTells(hash, Step(hash, s, events[0]), events[1..]);
    }
  }

  /**
    Over every run each message in the stream carries its row's id and tells of
    one tenant entry of the log: its audit id, its action up to 160 characters
    and its creation time.
   */
  lemma MessagesTellTheirEntries(hash: Document -> Digest, events: seq<Event>, id: RowId)
    ensures var s := Run(hash, State([], [], map[]), events);
      id in s.stream ==>
        && id < |s.rows| && s.stream[id].eventId == id && s.stream[id].audit == s.rows[id].audit < |s.log|
        && var content := s.log[s.stream[id].audit].document.content;
        && content.tenant.Some? && Tells(s.stream[id].eventType, s.stream[id].occurredAt, content)
  {
    RunConserves(hash, State([], [], map[]), events);
    RunTells(hash, State([], [], map[]), events);
  }

  // ------------------------------------------------------ which rows are selected

  predicate SortedDue(rows: seq<OutboxRow>, now: Time, list: seq<RowId>) {
    && (forall i :: 0 <= i < |list| ==> list[i] < |rows| && Due(rows[list[i]], now))
    && (forall i, j :: 0 <= i < j < |list| ==>
        list[i] != list[j] && rows[list[i]].createdAt <= rows[list[j]].createdAt)
  }

  /** A row that is newer than all of the list goes to its end. */
  lemma AppendSorted(rows: seq<OutboxRow>, now: Time, list: seq<RowId>, id: RowId)
    requires SortedDue(rows, now, list) && id < |rows| && Due(rows[id], now)
    requires forall i :: 0 <= i < |list| ==> list[i] != id && rows[list[i]].createdAt <= rows[id].createdAt
    ensures SortedDue(rows, now, list + [id])
  {
  }

  lemma LastOf(list: seq<RowId>)
    requires list != []
    ensures forall x :: x in list <==> x in list[..|list| - 1] || x == list[|list| - 1]
  {
    assert list == list[..|list| - 1] + [list[|list| - 1]];
  }

  /** The list with one more row in its place. */
  lemma {:induction false} Inserted(rows: seq<OutboxRow>, now: Time, list: seq<RowId>, id: RowId)
    returns (longer: seq<RowId>)
    requires SortedDue(rows, now, list) && id < |rows| && Due(rows[id], now) && id !in list
    ensures SortedDue(rows, now, longer)
    ensures forall x :: x in longer <==> x in list || x == id
    decreases |list|
  {
    if list == [] || rows[list[|list| - 1]].createdAt <= rows[id].createdAt {
      AppendSorted(rows, now, list, id);
      longer := list + [id];
    } else {
      var n := |list| - 1;
      LastOf(list);
      var front := Inserted(rows, now, list[..n], id);
      forall i | 0 <= i < |front|
        ensures front[i] != list[n] && rows[front[i]].createdAt <= rows[list[n]].createdAt
      {
        assert front[i] in front;
        if front[i] != id {
          var k :| 0 <= k < n && list[..n][k] == front[i];
        }
      }
      AppendSorted(rows, now, front, list[n]);
      longer := front + [list[n]];
    }
  }

  /** All due rows in order of creation. */
  lemma {:induction false} AllDueSorted(rows: seq<OutboxRow>, now: Time, n: nat) returns (list: seq<RowId>)
    requires n <= |rows|
    ensures SortedDue(rows, now, list)
    ensures forall id: RowId :: id in list <==> id < n && Due(rows[id], now)
    decreases n
  {
    if n == 0 {
      list := [];
    } else {
      list := AllDueSorted(rows, now, n - 1);
      if Due(rows[n - 1], now) {
        list := Inserted(rows, now, list, n - 1);
      }
    }
  }

  /**
    The batch query always has an answer, and every answer takes the oldest rows:
    at most 100 different pending rows whose time has come, in order of creation;
    a row whose time has come is left out only for 100 rows none of which is newer.
   */
  lemma BatchTakesTheOldest(rows: seq<OutboxRow>, now: Time) returns (batch: seq<RowId>)
    ensures IsBatch(rows, now, batch)
    ensures forall any: seq<RowId>, id: RowId ::
      IsBatch(rows, now, any) && id < |rows| && rows[id].status == Pending && rows[id].nextAttemptAt <= now ==>
        || id in any
        || (|any| == 100 && forall i :: 0 <= i < |any| ==> rows[any[i]].createdAt <= rows[id].createdAt)
    ensures forall any: seq<RowId> :: IsBatch(rows, now, any) ==>
      && |any| <= 100
      && (forall i :: 0 <= i < |any| ==>
            any[i] < |rows| && rows[any[i]].status == Pending && rows[any[i]].nextAttemptAt <= now)
      && (forall i, j :: 0 <= i < j < |any| ==>
            any[i] != any[j] && rows[any[i]].createdAt <= rows[any[j]].createdAt)
  {
    var list := AllDueSorted(rows, now, |rows|);
    batch := if |list| <= BATCH_LIMIT then list else list[..BATCH_LIMIT];
    forall id | 0 <= id < |rows| && Due(rows[id], now) && id !in batch
      ensures |batch| == BATCH_LIMIT && forall i :: 0 <= i < |batch| ==> rows[batch[i]].createdAt <= rows[id].createdAt
    {
      var k :| 0 <= k < |list| && list[k] == id;
      assert forall j :: 0 <= j < |batch| ==> batch[j] == list[j];
    }
  }

  /** The gauge counts the pending rows. */
  lemma {:induction false} PendingIsCounted(rows: seq<OutboxRow>)
    ensures CountPending(rows) == |set id: nat | id < |rows| && rows[id].status == Pending|
  {
    var pending := set id: nat | id < |rows| && rows[id].status == Pending;
    if rows != [] {
      var n := |rows| - 1;
      PendingIsCounted(rows[..n]);
      var before := set id: nat | id < |rows[..n]| && rows[..n][id].status == Pending;
      assert pending == if rows[n].status == Pending then before + {n} else before;
    }
  }

  // ------------------------------------------------------------ one row's retries

  /** The event delivers the row, or tries to, and commits how that ended. */
  predicate Attempts(s: State, e: Event, id: RowId) {
    e.BatchPublished? && IsBatch(s.rows, e.now, e.batch) && id in e.batch
  }

  predicate LeftAlone(hash: Document -> Digest, s: State, events: seq<Event>, id: RowId)
    decreases |events|
  {
    events == [] || (!Attempts(s, events[0], id) && LeftAlone(hash, Step(hash, s, events[0]), events[1..], id))
  }

  lemma {:induction false} LeftAloneIsUnchanged(hash: Document -> Digest, s: State, events: seq<Event>, id: RowId)
    requires id < |s.rows| && LeftAlone(hash, s, events, id)
    ensures id < |Run(hash, s, events).rows| && Run(hash, s, events).rows[id] == s.rows[id]
    decreases |events|
  {
    if events != [] {
      LeftAloneIsUnchanged(hash, Step(hash, s, events[0]), events[1..], id);
    }
  }

  /** A new event is pending and due from its entry's time on, until it is first attempted. */
  lemma NewEventIsDueAtOnce(hash: Document -> Digest, s: State, content: Content, between: seq<Event>, now: Time)
    requires content.tenant.Some? && LeftAlone(hash, Step(hash, s, Audited(content)), between, |s.rows|)
    ensures var later := Run(hash, Step(hash, s, Audited(content)), between);
      && |s.rows| < |later.rows|
      && var row := later.rows[|s.rows|];
      && row.attempts == 0 && row.lastError.None? && row.publishedAt.None?
      && (Due(row, now) <==> content.createdAt <= now)
  {
    LeftAloneIsUnchanged(hash, Step(hash, s, Audited(content)), between, |s.rows|);
  }

  /** Seconds until the next attempt after `n` failures: 2, 4, 8, ... 256, then 300. */
  function Wait(n: nat): int {
    if n <= 8 then Pow2(n) else 300
  }

  /**
    What an attempt leaves on its row, until the next one. Acknowledged, the row is
    published with the time and no error, for ever. Refused or unconfirmed, it is
    pending with the error's name and one more attempt, and is due again exactly
    when the wait for that number of attempts is over.
   */
  lemma AttemptDecidesTheRow(hash: Document -> Digest, s: State, e: Event, id: RowId, between: seq<Event>, now: Time)
    requires Attempts(s, e, id) && LeftAlone(hash, Step(hash, s, e), between, id)
    ensures var later := Run(hash, Step(hash, s, e), between);
      && id < |s.rows| && id < |later.rows|
      && var row, delivery := later.rows[id], e.world(id);
      && row.createdAt == s.rows[id].createdAt && row.audit == s.rows[id].audit
      && if delivery.Delivered? then
           row.status == Published && row.publishedAt == Some(delivery.at) && row.lastError.None?
             && row.attempts == s.rows[id].attempts
         else
           && row.status == Pending && row.attempts == s.rows[id].attempts + 1
           && row.lastError == Some(if delivery.Refused? then delivery.error else "TimeoutError")
           && (Due(row, now) <==> delivery.at + Wait(row.attempts) <= now)
  {
    BackoffBounds(s.rows[id].attempts + 1);
    LeftAloneIsUnchanged(hash, Step(hash, s, e), between, id);
  }

  /** How many attempts of the run fail for the row. */
  function Failures(hash: Document -> Digest, s: State, events: seq<Event>, id: RowId): nat
    decreases |events|
  {
    if events == [] then 0
    else
      (if Attempts(s, events[0], id) && !events[0].world(id).Delivered? then 1 else 0)
        + Failures(hash, Step(hash, s, events[0]), events[1..], id)
  }

  /** Over every run the attempts of a row are the deliveries that failed; a batch lost to a crash counts for none. */
  lemma {:induction false} AttemptsCountFailures(hash: Document -> Digest, s: State, events: seq<Event>, id: RowId)
    requires id < |s.rows|
    ensures id < |Run(hash, s, events).rows|
    ensures Run(hash, s, events).rows[id].attempts == s.rows[id].attempts + Failures(hash, s, events, id)
    decreases |events|
  {
    if events != [] {
      AttemptsCountFailures(hash, Step(hash, s, events[0]), events[1..], id);
    }
  }
}
