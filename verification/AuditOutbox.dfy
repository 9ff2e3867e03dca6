/**
  The event outbox: audit entries and their outbox rows are written in one
  transaction (audit/application.py) and delivered in batches by the worker
  (apps/worker tasks.py, `_publish_pending`).

  Publishing leaves the process at once, while the row updates of a batch are
  committed together: a crash rolls the rows back but not the messages. The
  stream identifies a message by its row id, so publishing a row twice keeps one.
 */
module AuditOutbox {
  import opened Wrappers
  import opened AuditChain

  type RowId = nat

  datatype RowStatus = Pending | Published

  datatype OutboxRow = OutboxRow(
    audit: nat, eventType: string, createdAt: Time,
    status: RowStatus, attempts: nat, nextAttemptAt: Time, lastError: Option<string>, publishedAt: Option<Time>)

  datatype Message = Message(eventId: RowId, audit: nat, eventType: string, occurredAt: Time)

  /** Audit entries and outbox rows in insertion order, and the stream outside the database. */
  datatype State = State(log: seq<Entry>, rows: seq<OutboxRow>, stream: map<RowId, Message>)

  const BATCH_LIMIT := 100
  const MAX_BACKOFF := 300

  function Truncated(text: string, limit: nat): string {
    if |text| <= limit then text else text[..limit]
  }

  function Append(hash: Document -> Digest, s: State, content: Content): State {
    var log := AppendAudit(hash, s.log, content);
    if content.tenant.None? then s.(log := log)
    else s.(log := log,
            rows := s.rows + [OutboxRow(|s.log|, Truncated(content.action, 160), content.createdAt, Pending, 0,
                                        content.createdAt, None, None)])
  }

  function MessageOf(rows: seq<OutboxRow>, id: RowId): Message
    requires id < |rows|
  {
    Message(id, rows[id].audit, rows[id].eventType, rows[id].createdAt)
  }

  predicate Due(row: OutboxRow, now: Time) {
    row.status == Pending && row.nextAttemptAt <= now
  }

  /** An answer of the batch query: up to 100 distinct due rows, the oldest ones when there are more. */
  predicate IsBatch(rows: seq<OutboxRow>, now: Time, batch: seq<RowId>) {
    && |batch| <= BATCH_LIMIT
    && (forall i :: 0 <= i < |batch| ==> batch[i] < |rows| && Due(rows[batch[i]], now))
    && (forall i, j :: 0 <= i < j < |batch| ==>
        batch[i] != batch[j] && rows[batch[i]].createdAt <= rows[batch[j]].createdAt)
    && (forall id :: 0 <= id < |rows| && Due(rows[id], now) && id !in batch ==>
          |batch| == BATCH_LIMIT && forall i :: 0 <= i < |batch| ==> rows[batch[i]].createdAt <= rows[id].createdAt)
  }

  function Pow2(n: nat): nat {
    if n == 0 then 1 else 2 * Pow2(n - 1)
  }

  function Backoff(attempts: nat): nat {
    if Pow2(attempts) < MAX_BACKOFF then Pow2(attempts) else MAX_BACKOFF
  }

  /**
    How publishing one row ends, and when: acknowledged, refused, or stored by
    the stream without the acknowledgement arriving in time, which the worker
    cannot tell from a refusal.
   */
  datatype Delivery = Delivered(at: Time) | Unconfirmed(at: Time) | Refused(at: Time, error: string) {
    predicate InStream() {
      Delivered? || Unconfirmed?
    }

    function Error(): string
      requires !Delivered?
    {
      if Unconfirmed? then "TimeoutError" else error
    }
  }

  function AfterDelivery(row: OutboxRow, delivery: Delivery): OutboxRow {
    match delivery
    case Delivered(at) => row.(status := Published, publishedAt := Some(at), lastError := None)
    case _ =>
      row.(attempts := row.attempts + 1, lastError := Some(delivery.Error()),
           nextAttemptAt := delivery.at + Backoff(row.attempts + 1))
  }

  /** The rows after a batch: each of its rows by its own delivery, every other row untouched. */
  function RowsAfter(rows: seq<OutboxRow>, batch: seq<RowId>, world: RowId -> Delivery): seq<OutboxRow> {
    seq(|rows|, id requires 0 <= id < |rows| => if id in batch then AfterDelivery(rows[id], world(id)) else rows[id])
  }

  /** The stream after publishing the batch's rows in order: one message per row that reached it. */
  function StreamAfter(rows: seq<OutboxRow>, batch: seq<RowId>, world: RowId -> Delivery, stream: map<RowId, Message>)
    : map<RowId, Message>
    requires forall i :: 0 <= i < |batch| ==> batch[i] < |rows|
  {
    if batch == [] then stream
    else
      var id := batch[|batch| - 1];
      var before := StreamAfter(rows, batch[..|batch| - 1], world, stream);
      if world(id).InStream() then before[id := MessageOf(rows, id)] else before
  }

  function Successes(batch: seq<RowId>, world: RowId -> Delivery): nat {
    if batch == [] then 0
    else Successes(batch[..|batch| - 1], world) + (if world(batch[|batch| - 1]).Delivered? then 1 else 0)
  }

  function CountPending(rows: seq<OutboxRow>): nat {
    if rows == [] then 0
    else CountPending(rows[..|rows| - 1]) + (if rows[|rows| - 1].status == Pending then 1 else 0)
  }

  lemma {:induction false} CountAfterUpdate(rows: seq<OutboxRow>, id: RowId, row: OutboxRow)
    requires id < |rows|
    ensures CountPending(rows[id := row]) + (if rows[id].status == Pending then 1 else 0)
            == CountPending(rows) + (if row.status == Pending then 1 else 0)
  {
    var n := |rows| - 1;
    if id < n {
      CountAfterUpdate(rows[..n], id, row);
      assert rows[id := row][..n] == rows[..n][id := row];
    } else {
      assert rows[id := row][..n] == rows[..n];
    }
  }

  /** The stream gains exactly the rows that reached it, acknowledged or not, each under its own id. */
  lemma {:induction false} StreamGains(rows: seq<OutboxRow>, batch: seq<RowId>, world: RowId -> Delivery,
                                       stream: map<RowId, Message>, id: RowId)
    requires forall i :: 0 <= i < |batch| ==> batch[i] < |rows|
    ensures var later := StreamAfter(rows, batch, world, stream);
      && (id in later <==> id in stream || (id in batch && world(id).InStream()))
      && (id in later ==>
            later[id] == if id in batch && world(id).InStream() then MessageOf(rows, id) else stream[id])
  {
    if batch != [] {
      var n := |batch| - 1;
      StreamGains(rows, batch[..n], world, stream, id);
      assert id in batch <==> id in batch[..n] || id == batch[n];
    }
  }

  function Publish(s: State, batch: seq<RowId>, world: RowId -> Delivery): State
    requires forall i :: 0 <= i < |batch| ==> batch[i] < |s.rows|
  {
    s.(rows := RowsAfter(s.rows, batch, world), stream := StreamAfter(s.rows, batch, world, s.stream))
  }

  /** A crash after the first `done` rows: their messages are out, the row updates are rolled back. */
  function CrashedPublish(s: State, batch: seq<RowId>, done: nat, world: RowId -> Delivery): State
    requires forall i :: 0 <= i < |batch| ==> batch[i] < |s.rows|
    requires done <= |batch|
  {
    s.(stream := StreamAfter(s.rows, batch[..done], world, s.stream))
  }

  // --------------------------------------------------------------------- runs

  datatype Event =
    | Audited(content: Content)
    | BatchPublished(now: Time, batch: seq<RowId>, world: RowId -> Delivery)
    | BatchCrashed(now: Time, batch: seq<RowId>, done: nat, world: RowId -> Delivery)

  function Step(hash: Document -> Digest, s: State, e: Event): State {
    match e
    case Audited(content) => Append(hash, s, content)
    case BatchPublished(now, batch, world) => if IsBatch(s.rows, now, batch) then Publish(s, batch, world) else s
    case BatchCrashed(now, batch, done, world) =>
      if IsBatch(s.rows, now, batch) && done <= |batch| then CrashedPublish(s, batch, done, world) else s
  }

  function Run(hash: Document -> Digest, s: State, events: seq<Event>): State
    decreases |events|
  {
    if events == [] then s else Run(hash, Step(hash, s, events[0]), events[1..])
  }

  predicate HasRow(s: State, audit: nat) {
    exists id :: 0 <= id < |s.rows| && s.rows[id].audit == audit
  }

  /** Rows and tenant entries correspond one to one. */
  predicate RowsMatchLog(s: State) {
    && (forall id :: 0 <= id < |s.rows| ==>
        s.rows[id].audit < |s.log| && s.log[s.rows[id].audit].document.content.tenant.Some?)
    && (forall id, other :: 0 <= id < other < |s.rows| ==> s.rows[id].audit != s.rows[other].audit)
    && (forall a :: 0 <= a < |s.log| && s.log[a].document.content.tenant.Some? ==> HasRow(s, a))
  }

  /** Published rows are in the stream, and every message is its row's. */
  predicate StreamMatchesRows(s: State) {
    && (forall id :: 0 <= id < |s.rows| && s.rows[id].status == Published ==> id in s.stream)
    && (forall id :: id in s.stream ==> id < |s.rows| && s.stream[id] == MessageOf(s.rows, id))
  }

  predicate Inv(s: State) {
    RowsMatchLog(s) && StreamMatchesRows(s)
  }

  lemma HasRowKept(s: State, s': State, audit: nat)
    requires HasRow(s, audit) && |s.rows| <= |s'.rows|
    requires forall id :: 0 <= id < |s.rows| ==> s'.rows[id].audit == s.rows[id].audit
    ensures HasRow(s', audit)
  {
    var id :| 0 <= id < |s.rows| && s.rows[id].audit == audit;
    assert s'.rows[id].audit == audit;
  }

  lemma AppendKeepsRows(s: State, s': State, entry: Entry)
    requires RowsMatchLog(s) && s'.log == s.log + [entry]
    requires entry.document.content.tenant.None? ==> s'.rows == s.rows
    requires entry.document.content.tenant.Some? ==>
      |s'.rows| == |s.rows| + 1 && s'.rows[..|s.rows|] == s.rows && s'.rows[|s.rows|].audit == |s.log|
    ensures RowsMatchLog(s')
  {
    forall id | 0 <= id < |s.rows|
      ensures s'.rows[id] == s.rows[id]
    {
      assert entry.document.content.tenant.Some? ==> s'.rows[..|s.rows|][id] == s'.rows[id];
    }
    forall a | 0 <= a < |s'.log| && s'.log[a].document.content.tenant.Some?
      ensures HasRow(s', a)
    {
      if a < |s.log| {
        HasRowKept(s, s', a);
      } else {
        assert s'.rows[|s.rows|].audit == a;
      }
    }
  }

  lemma AppendKeepsInv(hash: Document -> Digest, s: State, content: Content)
    requires Inv(s)
    ensures Inv(Append(hash, s, content))
  {
    var s' := Append(hash, s, content);
    assert s'.log[|s.log|].document.content == content;
    AppendKeepsRows(s, s', s'.log[|s.log|]);
  }

  lemma SameIdentitiesMatch(s: State, s': State)
    requires RowsMatchLog(s) && s'.log == s.log && |s'.rows| == |s.rows|
    requires forall id :: 0 <= id < |s.rows| ==> s'.rows[id].audit == s.rows[id].audit
    ensures RowsMatchLog(s')
  {
    forall a | 0 <= a < |s.log| && s.log[a].document.content.tenant.Some?
      ensures HasRow(s', a)
    {
      HasRowKept(s, s', a);
    }
  }

  lemma PublishKeepsStream(s: State, batch: seq<RowId>, world: RowId -> Delivery)
    requires Inv(s) && forall i :: 0 <= i < |batch| ==> batch[i] < |s.rows|
    ensures StreamMatchesRows(Publish(s, batch, world))
  {
    var s' := Publish(s, batch, world);
    forall id: RowId
      ensures id in s'.stream ==> id < |s'.rows| && s'.stream[id] == MessageOf(s'.rows, id)
      ensures id < |s'.rows| && s'.rows[id].status == Published ==> id in s'.stream
    {
      StreamGains(s.rows, batch, world, s.stream, id);
    }
  }

  lemma PublishKeepsInv(s: State, batch: seq<RowId>, world: RowId -> Delivery)
    requires Inv(s) && forall i :: 0 <= i < |batch| ==> batch[i] < |s.rows|
    ensures Inv(Publish(s, batch, world))
  {
    PublishKeepsStream(s, batch, world);
    SameIdentitiesMatch(s, Publish(s, batch, world));
  }

  lemma CrashKeepsInv(s: State, batch: seq<RowId>, done: nat, world: RowId -> Delivery)
    requires Inv(s) && (forall i :: 0 <= i < |batch| ==> batch[i] < |s.rows|) && done <= |batch|
    ensures Inv(CrashedPublish(s, batch, done, world))
  {
    var s' := CrashedPublish(s, batch, done, world);
    forall id: RowId
      ensures id in s'.stream ==> id < |s.rows| && s'.stream[id] == MessageOf(s.rows, id)
      ensures id in s.stream ==> id in s'.stream
    {
      StreamGains(s.rows, batch[..done], world, s.stream, id);
    }
    SameIdentitiesMatch(s, s');
  }

  lemma StepKeepsInv(hash: Document -> Digest, s: State, e: Event)
    requires Inv(s)
    ensures Inv(Step(hash, s, e))
  {
    match e
    case Audited(content) => AppendKeepsInv(hash, s, content);
    case BatchPublished(now, batch, world) =>
      if IsBatch(s.rows, now, batch) {
        PublishKeepsInv(s, batch, world);
      }
    case BatchCrashed(now, batch, done, world) =>
      if IsBatch(s.rows, now, batch) && done <= |batch| {
        CrashKeepsInv(s, batch, done, world);
      }
  }

  /** Nothing written is lost: entries, rows up to their delivery columns, published rows entirely, messages. */
  predicate Conserved(s: State, t: State) {
    && s.log <= t.log && |s.rows| <= |t.rows|
    && (forall id :: 0 <= id < |s.rows| ==> RowKept(s.rows[id], t.rows[id]))
    && (forall id :: id in s.stream ==> id in t.stream && t.stream[id] == s.stream[id])
  }

  predicate RowKept(row: OutboxRow, later: OutboxRow) {
    && later.audit == row.audit && later.eventType == row.eventType && later.createdAt == row.createdAt
    && later.attempts >= row.attempts
    && (row.status == Published ==> later == row)
  }

  /** A crash changes no row, so the rows keep after a step what they were before. */
  lemma StepKeepsRow(hash: Document -> Digest, s: State, e: Event, id: RowId)
    requires id < |s.rows|
    ensures id < |Step(hash, s, e).rows| && RowKept(s.rows[id], Step(hash, s, e).rows[id])
  {
  }

  lemma StepConserves(hash: Document -> Digest, s: State, e: Event)
    requires Inv(s)
    ensures Conserved(s, Step(hash, s, e))
  {
    forall id | 0 <= id < |s.rows|
      ensures id < |Step(hash, s, e).rows| && RowKept(s.rows[id], Step(hash, s, e).rows[id])
    {
      StepKeepsRow(hash, s, e, id);
    }
    forall id | id in s.stream
      ensures id in Step(hash, s, e).stream && Step(hash, s, e).stream[id] == s.stream[id]
    {
      match e
      case Audited(_) =>
      case BatchPublished(now, batch, world) =>
        if IsBatch(s.rows, now, batch) {
          StreamGains(s.rows, batch, world, s.stream, id);
        }
      case BatchCrashed(now, batch, done, world) =>
        if IsBatch(s.rows, now, batch) && done <= |batch| {
          StreamGains(s.rows, batch[..done], world, s.stream, id);
        }
    }
  }

  lemma ConservedTransitive(s: State, t: State, u: State)
    requires Conserved(s, t) && Conserved(t, u)
    ensures Conserved(s, u)
  {
    forall id | 0 <= id < |s.rows|
      ensures RowKept(s.rows[id], u.rows[id])
    {
      assert RowKept(s.rows[id], t.rows[id]) && RowKept(t.rows[id], u.rows[id]);
    }
  }

  /** Along any run nothing written is lost, and a row that was published stays as it is. */
  lemma {:induction false} RunConserves(hash: Document -> Digest, s: State, events: seq<Event>)
    requires Inv(s)
    ensures Inv(Run(hash, s, events)) && Conserved(s, Run(hash, s, events))
    decreases |events|
  {
    if events != [] {
      StepKeepsInv(hash, s, events[0]);
      StepConserves(hash, s, events[0]);
      RunConserves(hash, Step(hash, s, events[0]), events[1..]);
      ConservedTransitive(s, Step(hash, s, events[0]), Run(hash, s, events));
    }
  }

  /**
    Over every run, with refused deliveries and crashes in the middle of a
    batch: each committed tenant entry has exactly one outbox row, and that row
    is pending or already in the stream; every message in the stream belongs to
    exactly one row and says what the row says.
   */
  lemma EveryTenantEntryHasOneEvent(hash: Document -> Digest, events: seq<Event>, audit: nat)
    ensures var s := Run(hash, State([], [], map[]), events);
      audit < |s.log| && s.log[audit].document.content.tenant.Some? ==>
        exists id ::
          && 0 <= id < |s.rows| && s.rows[id].audit == audit
          && (s.rows[id].status == Pending || id in s.stream)
          && (id in s.stream ==> s.stream[id] == MessageOf(s.rows, id))
          && (forall other :: 0 <= other < |s.rows| && s.rows[other].audit == audit ==> other == id)
  {
    RunConserves(hash, State([], [], map[]), events);
    var s := Run(hash, State([], [], map[]), events);
    if audit < |s.log| && s.log[audit].document.content.tenant.Some? {
      assert HasRow(s, audit);
    }
  }

  /** Every message is that of its row. */
  ghost predicate OwnMessages(rows: seq<OutboxRow>, stream: map<RowId, Message>) {
    forall id :: id in stream ==> id < |rows| && stream[id] == MessageOf(rows, id)
  }

  /** The stream holds the other one's rows and those of the list that had reached it. */
  ghost predicate AddsReached(stream: map<RowId, Message>, other: map<RowId, Message>, list: seq<RowId>,
                              world: RowId -> Delivery)
  {
    forall id :: id in stream <==> id in other || (id in list && world(id).InStream())
  }

  /** Whatever of the list had reached the stream reaches it again. */
  predicate ReachAgain(list: seq<RowId>, world: RowId -> Delivery, retry: RowId -> Delivery) {
    forall i :: 0 <= i < |list| && world(list[i]).InStream() ==> retry(list[i]).InStream()
  }

  /** What a crash adds to the stream of the next attempt: the rows that had reached it. */
  lemma RetryStreamAt(rows: seq<OutboxRow>, batch: seq<RowId>, done: nat, world: RowId -> Delivery,
                      retry: RowId -> Delivery, stream: map<RowId, Message>, id: RowId)
    requires forall i :: 0 <= i < |batch| ==> batch[i] < |rows|
    requires done <= |batch| && OwnMessages(rows, stream)
    ensures var again := StreamAfter(rows, batch, retry, StreamAfter(rows, batch[..done], world, stream));
      var alone := StreamAfter(rows, batch, retry, stream);
      && (id in again <==> id in alone || (id in batch[..done] && world(id).InStream()))
      && (id in again ==> id < |rows| && again[id] == MessageOf(rows, id))
      && (id in alone ==> id < |rows| && alone[id] == MessageOf(rows, id))
      && (id in batch[..done] && retry(id).InStream() ==> id in alone)
  {
    var before := StreamAfter(rows, batch[..done], world, stream);
    StreamGains(rows, batch[..done], world, stream, id);
    StreamGains(rows, batch, retry, before, id);
    StreamGains(rows, batch, retry, stream, id);
    assert id in batch[..done] ==> id in batch;
  }

  lemma RetryStream(rows: seq<OutboxRow>, batch: seq<RowId>, done: nat, world: RowId -> Delivery,
                    retry: RowId -> Delivery, stream: map<RowId, Message>)
    requires forall i :: 0 <= i < |batch| ==> batch[i] < |rows|
    requires done <= |batch| && OwnMessages(rows, stream)
    ensures var again := StreamAfter(rows, batch, retry, StreamAfter(rows, batch[..done], world, stream));
      var alone := StreamAfter(rows, batch, retry, stream);
      && AddsReached(again, alone, batch[..done], world)
      && OwnMessages(rows, again) && OwnMessages(rows, alone)
      && (ReachAgain(batch[..done], world, retry) ==> again == alone)
  {
    var again := StreamAfter(rows, batch, retry, StreamAfter(rows, batch[..done], world, stream));
    var alone := StreamAfter(rows, batch, retry, stream);
    forall id: RowId
      ensures id in again <==> id in alone || (id in batch[..done] && world(id).InStream())
      ensures id in again ==> id < |rows| && again[id] == MessageOf(rows, id)
      ensures id in alone ==> id < |rows| && alone[id] == MessageOf(rows, id)
      ensures id in batch[..done] && retry(id).InStream() ==> id in alone
    {
      RetryStreamAt(rows, batch, done, world, retry, stream, id);
    }
    if ReachAgain(batch[..done], world, retry) {
      SameMessages(rows, again, alone);
    }
  }

  lemma SameMessages(rows: seq<OutboxRow>, a: map<RowId, Message>, b: map<RowId, Message>)
    requires OwnMessages(rows, a) && OwnMessages(rows, b)
    requires forall id :: id in a <==> id in b
    ensures a == b
  {
  }

  /**
    A crash in the middle of a batch loses and doubles nothing, however the next
    attempt ends: its rows are those of that attempt alone, and the stream holds
    besides only the rows that had reached it before the crash, each once. If the
    attempt delivers those too, it ends as if the crash had not happened.
   */
  lemma CrashLeavesNoTrace(s: State, now: Time, batch: seq<RowId>, done: nat, world: RowId -> Delivery,
                           retry: RowId -> Delivery)
    requires Inv(s) && IsBatch(s.rows, now, batch) && done <= |batch|
    ensures var crashed := CrashedPublish(s, batch, done, world);
      var again, alone := Publish(crashed, batch, retry), Publish(s, batch, retry);
      && crashed.rows == s.rows && again.rows == alone.rows && again.log == alone.log
      && AddsReached(again.stream, alone.stream, batch[..done], world)
      && OwnMessages(s.rows, again.stream)
      && (ReachAgain(batch[..done], world, retry) ==> again == alone)
  {
    RetryStream(s.rows, batch, done, world, retry, s.stream);
  }

  /** A refused row is retried after 2, 4, 8, ... seconds, never after more than 300. */
  lemma {:induction false} BackoffBounds(attempts: nat)
    ensures 1 <= Backoff(attempts) <= 300
    ensures Backoff(attempts) <= Backoff(attempts + 1)
    ensures Backoff(attempts) == if attempts <= 8 then Pow2(attempts) else 300
  {
    if attempts > 0 {
      BackoffBounds(attempts - 1);
      assert Pow2(8) == 256;
    }
  }

  // ----------------------------------------------------------- imperative form

  class Outbox {
    var log: seq<Entry>
    var rows: seq<OutboxRow>
    var stream: map<RowId, Message>

    constructor ()
      ensures Contents() == State([], [], map[])
    {
      log, rows, stream := [], [], map[];
    }

    function Contents(): State
      reads this
    {
      State(log, rows, stream)
    }

    /** The entry and its outbox row, in the caller's transaction. */
    method AppendEntry(hash: Document -> Digest, content: Content)
      modifies this
      ensures Contents() == Append(hash, old(Contents()), content)
    {
      var partitionKey := PartitionOf(content);
      var previous := Latest(Project(log, partitionKey));
      var sequence := if previous.Some? then previous.value.document.sequence + 1 else 1;
      var previousHash := if previous.Some? then previous.value.entryHash else GENESIS;
      var document := Document(partitionKey, sequence, previousHash, content);
      var audit := |log|;
      log := log + [Entry(document, hash(document))];
      if content.tenant.Some? {
        var eventType := Truncated(content.action, 160);
        rows := rows + [OutboxRow(audit, eventType, content.createdAt, Pending, 0, content.createdAt, None, None)];
      }
    }

    /** Publishes one row and writes how that ended. */
    method DeliverRow(id: RowId, message: Message, delivery: Delivery) returns (acknowledged: bool)
      requires id < |rows|
      modifies this
      ensures log == old(log) && acknowledged == delivery.Delivered?
      ensures rows == old(rows)[id := AfterDelivery(old(rows)[id], delivery)]
      ensures stream == if delivery.InStream() then old(stream)[id := message] else old(stream)
    {
      var row := rows[id];
      if delivery.InStream() {
        stream := stream[id := message];
      }
      if delivery.Delivered? {
        row := row.(status := Published);
        row := row.(publishedAt := Some(delivery.at));
        row := row.(lastError := None);
      } else {
        row := row.(attempts := row.attempts + 1);
        row := row.(lastError := Some(delivery.Error()));
        row := row.(nextAttemptAt := delivery.at + Backoff(row.attempts));
      }
      rows := rows[id := row];
      return delivery.Delivered?;
    }

    /** One batch, in order; `crashAfter` is where the process dies, if it does. */
    method PublishPending(now: Time, batch: seq<RowId>, world: RowId -> Delivery, crashAfter: Option<nat>)
      returns (published: nat, failed: nat, pending: nat)
      requires IsBatch(rows, now, batch)
      modifies this
      ensures crashAfter.None? || crashAfter.value >= |batch| ==>
        && Contents() == Publish(old(Contents()), batch, world)
        && published + failed == |batch|
        && published == Successes(batch, world)
        && pending == CountPending(rows) == CountPending(old(rows)) - published
      ensures crashAfter.Some? && crashAfter.value < |batch| ==>
        Contents() == CrashedPublish(old(Contents()), batch, crashAfter.value, world)
    {
      var before := rows;
      published, failed, pending := 0, 0, 0;
      DeliveryStarts(before, stream, batch, world);
      for k := 0 to |batch|
        invariant log == old(log)
        invariant crashAfter.Some? ==> k <= crashAfter.value || crashAfter.value >= |batch|
        invariant DeliveredSoFar(before, old(stream), batch[..k], world, rows, stream, published)
        invariant published + failed == k
      {
        if crashAfter == Some(k) {
          rows := before;
          return;
        }
        var id := batch[k];
        DeliveryStep(before, old(stream), now, batch, k, world, rows, stream, published);
        var delivered := DeliverRow(id, MessageOf(before, id), world(id));
        if delivered {
          published := published + 1;
        } else {
          failed := failed + 1;
        }
      }
      assert batch[..|batch|] == batch;
      pending := CountPending(rows);
    }
  }

  /** Rows, stream and count after the first rows of a batch. */
  predicate DeliveredSoFar(before: seq<OutboxRow>, start: map<RowId, Message>, batch: seq<RowId>,
                           world: RowId -> Delivery,
                           rows: seq<OutboxRow>, stream: map<RowId, Message>, published: nat)
    requires forall i :: 0 <= i < |batch| ==> batch[i] < |before|
  {
    && rows == RowsAfter(before, batch, world)
    && stream == StreamAfter(before, batch, world, start)
    && published == Successes(batch, world)
    && CountPending(rows) == CountPending(before) - published
  }

  lemma DeliveryStarts(rows: seq<OutboxRow>, stream: map<RowId, Message>, batch: seq<RowId>, world: RowId -> Delivery)
    requires forall i :: 0 <= i < |batch| ==> batch[i] < |rows|
    ensures DeliveredSoFar(rows, stream, batch[..0], world, rows, stream, 0)
  {
    assert batch[..0] == [];
  }

  lemma DeliveryStep(before: seq<OutboxRow>, start: map<RowId, Message>, now: Time, batch: seq<RowId>, k: nat,
                     world: RowId -> Delivery, rows: seq<OutboxRow>, stream: map<RowId, Message>, published: nat)
    requires IsBatch(before, now, batch) && k < |batch|
    requires DeliveredSoFar(before, start, batch[..k], world, rows, stream, published)
    ensures var id := batch[k];
      && id < |rows| == |before|
      && DeliveredSoFar(before, start, batch[..k + 1], world, rows[id := AfterDelivery(rows[id], world(id))],
                        if world(id).InStream() then stream[id := MessageOf(before, id)] else stream,
                        if world(id).Delivered? then published + 1 else published)
  {
    var id := batch[k];
    BatchStep(before, now, batch, k, world, start);
    CountAfterUpdate(rows, id, AfterDelivery(before[id], world(id)));
  }

  /** What one more row of a batch does to rows, stream and count. */
  lemma BatchStep(rows: seq<OutboxRow>, now: Time, batch: seq<RowId>, k: nat, world: RowId -> Delivery,
                  stream: map<RowId, Message>)
    requires IsBatch(rows, now, batch) && k < |batch|
    ensures var id := batch[k];
      && id < |rows| && rows[id].status == Pending
      && RowsAfter(rows, batch[..k], world)[id] == rows[id]
      && RowsAfter(rows, batch[..k + 1], world)
         == RowsAfter(rows, batch[..k], world)[id := AfterDelivery(rows[id], world(id))]
      && var later := StreamAfter(rows, batch[..k], world, stream);
      && StreamAfter(rows, batch[..k + 1], world, stream)
         == (if world(id).InStream() then later[id := MessageOf(rows, id)] else later)
      && Successes(batch[..k + 1], world) == Successes(batch[..k], world) + (if world(id).Delivered? then 1 else 0)
  {
    NextRow(rows, batch, k, world);
    assert batch[..k + 1][..k] == batch[..k];
  }

  /** The next row of a batch of distinct rows still is as the query read it. */
  lemma NextRow(rows: seq<OutboxRow>, batch: seq<RowId>, k: nat, world: RowId -> Delivery)
    requires k < |batch| && batch[k] < |rows|
    requires forall i, j :: 0 <= i < j < |batch| ==> batch[i] != batch[j]
    ensures RowsAfter(rows, batch[..k], world)[batch[k]] == rows[batch[k]]
    ensures RowsAfter(rows, batch[..k + 1], world)
            == RowsAfter(rows, batch[..k], world)[batch[k] := AfterDelivery(rows[batch[k]], world(batch[k]))]
  {
    assert batch[k] !in batch[..k];
    forall id: RowId
      ensures id in batch[..k + 1] <==> id in batch[..k] || id == batch[k]
    {
    }
  }
}
