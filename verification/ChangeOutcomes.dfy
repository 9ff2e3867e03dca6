/**
  What each request to a change leaves on its columns, when it is accepted and
  with which code it is refused; and the order of a change's phases.
 */
module ChangeOutcomes {
  import opened Wrappers
  import opened ChangeApproval

  predicate Given<T>(column: Option<seq<T>>) {
    column.Some? && column.value != []
  }

  predicate AllGiven(p: Plans) {
    Given(p.precheck) && Given(p.implementation) && Given(p.validation) && Given(p.success) && Given(p.rollback)
  }

  predicate Proper(w: Window) {
    w.start.None? || w.end.None? || w.start.value < w.end.value
  }

  /** Under change control: R2, R3, or any risk with GxP impact. */
  predicate UnderControl(p: Policy) {
    p.risk in {R2, R3} || p.gxpImpact
  }

  // -------------------------------------------------------------- the columns

  /** A draft holds what was asked for, and needs two approvals at R3 or with GxP impact, one at R2, else none. */
  predicate IsDraftOf(c: Change, risk: Risk, gxpImpact: bool, requester: UserId, plans: Plans, window: Window,
                      backupRef: Option<string>)
  {
    && c.policy.risk == risk && c.policy.gxpImpact == gxpImpact && c.policy.requestedBy == requester
    && c.policy.requiredApprovals == (if risk == R3 || gxpImpact then 2 else if risk == R2 then 1 else 0)
    && c.plans == plans && c.window == window && c.backupRef == backupRef
    && c.status == Draft && c.decisions == [] && c.failureReason.None? && c.timeline == [Draft]
    && c.stamps.submittedAt.None? && c.stamps.approvedAt.None?
    && c.stamps.startedAt.None? && c.stamps.completedAt.None?
  }

  /** A creation is accepted exactly for R0 to R3, a proper window, and the plans and backup the risk demands. */
  lemma CreationOutcome(risk: Risk, gxpImpact: bool, requester: UserId, plans: Plans, window: Window,
                        backupRef: Option<string>)
    ensures var outcome := Create(risk, gxpImpact, requester, plans, window, backupRef);
      && (outcome.Ok? <==>
            && risk in {R0, R1, R2, R3} && Proper(window)
            && (risk in {R2, R3} || gxpImpact ==>
                  Given(plans.precheck) && Given(plans.validation) && Given(plans.rollback))
            && (risk == R3 ==> Given(backupRef)))
      && (outcome.Ok? ==> IsDraftOf(outcome.value, risk, gxpImpact, requester, plans, window, backupRef))
      && (outcome.Err? ==> outcome.error == Unprocessable)
  {
  }

  predicate Applied<T(==)>(edit: Edit<T>, before: T, after: T) {
    match edit
    case Unset => after == before
    case Set(value) => after == value
  }

  /** An update is accepted exactly for a draft whose window stays proper, and sets exactly the fields it names. */
  lemma UpdateOutcome(c: Change, u: Update)
    ensures var outcome := Handle(c, Updated(u));
      var window := Window(if u.start.Set? then u.start.value else c.window.start,
                           if u.end.Set? then u.end.value else c.window.end);
      if c.status != Draft then outcome == Err(AIOPS(8210))
      else if !Proper(window) then outcome == Err(AIOPS(8211))
      else
        && outcome.Ok?
        && var after := outcome.value;
        && after == c.(plans := after.plans, window := window, backupRef := after.backupRef)
        && Applied(u.precheck, c.plans.precheck, after.plans.precheck)
        && Applied(u.implementation, c.plans.implementation, after.plans.implementation)
        && Applied(u.validation, c.plans.validation, after.plans.validation)
        && Applied(u.success, c.plans.success, after.plans.success)
        && Applied(u.rollback, c.plans.rollback, after.plans.rollback)
        && Applied(u.backupRef, c.backupRef, after.backupRef)
  {
  }

  predicate Submits(c: Change, at: Time, outcome: Result<Change, Error>) {
    var target := if UnderControl(c.policy) then PendingApproval else Approved;
    if c.status !in {Draft, target} then outcome == Err(AIOPS(8209))
    else if UnderControl(c.policy) && !AllGiven(c.plans) then outcome == Err(AIOPS(8212))
    else
      && outcome.Ok?
      && var after := outcome.value;
      && after == c.(status := target, stamps := after.stamps, timeline := c.timeline + [target])
      && after.stamps.submittedAt == Some(at)
      && after.stamps.approvedAt == (if target == Approved then Some(at) else c.stamps.approvedAt)
      && after.stamps.startedAt == c.stamps.startedAt && after.stamps.completedAt == c.stamps.completedAt
  }

  lemma SubmissionOf(c: Change, at: Time)
    requires PolicyHolds(c.policy) && (c.policy.requiredApprovals == 0 ==> c.status != PendingApproval)
    ensures Submits(c, at, Submit(c, at))
  {
  }

  /**
    Over every run a submission is accepted exactly in draft, or again in the
    status it led to, with all plans if the change is under control; it records
    its time, and that of the approval if none is needed.
   */
  lemma SubmissionOutcome(c: Change, events: seq<Event>, at: Time)
    requires Created(c)
    ensures Submits(Run(c, events), at, Handle(Run(c, events), Submitted(at)))
  {
    RunOfCreated(c, events);
    SubmissionOf(Run(c, events), at);
  }

  /** The approvals that settle a change under control. */
  function Needed(p: Policy): nat {
    if p.risk == R3 || p.gxpImpact then 2 else 1
  }

  predicate Recorded(c: Change, user: UserId, approves: bool, at: Time, after: Change) {
    && after == c.(decisions := c.decisions + [Decision(user, approves)], status := after.status,
                   stamps := after.stamps, timeline := c.timeline + [after.status])
    && after.status == (if !approves then Rejected
                        else if |c.decisions| + 1 == Needed(c.policy) then Approved else PendingApproval)
    && after.stamps == (if after.status == Approved then c.stamps.(approvedAt := Some(at)) else c.stamps)
  }

  lemma RejectionIsRecorded(c: Change, user: UserId, at: Time)
    requires Decide(c, user, false, at).Ok?
    ensures Recorded(c, user, false, at, Decide(c, user, false, at).value)
  {
  }

  lemma ApprovalIsRecorded(c: Change, user: UserId, at: Time)
    requires Decide(c, user, true, at).Ok? && NoRejection(c.decisions)
    requires |c.decisions| < c.policy.requiredApprovals == Needed(c.policy)
    ensures Recorded(c, user, true, at, Decide(c, user, true, at).value)
  {
    ApprovalsCountDeciders(c.decisions, user);
  }

  /** The code with which a decision is refused, if it is. */
  function DecisionRefusal(c: Change, user: UserId): Option<Error> {
    if c.status != PendingApproval then Some(AIOPS(8213))
    else if user == c.policy.requestedBy then Some(AIOPS(8214))
    else if exists i :: 0 <= i < |c.decisions| && c.decisions[i].approver == user then Some(AIOPS(8215))
    else None
  }

  lemma DecisionIsRefused(c: Change, user: UserId, approves: bool, at: Time)
    ensures var refusal := DecisionRefusal(c, user);
      if refusal.Some? then Decide(c, user, approves, at) == Err(refusal.value) else Decide(c, user, approves, at).Ok?
  {
    assert HasDecided(c.decisions, user) <==> exists i :: 0 <= i < |c.decisions| && c.decisions[i].approver == user;
  }

  /** What the invariant says of a change that awaits approval. */
  lemma PendingIsShort(c: Change)
    requires Inv(c) && c.status == PendingApproval
    ensures NoRejection(c.decisions) && |c.decisions| < c.policy.requiredApprovals == Needed(c.policy)
  {
  }

  /**
    Over every run a decision is accepted exactly while approval is pending, from
    anyone but the requester, once each. It is recorded; a rejection ends the
    change, and an approval moves it on exactly when it is the last one needed.
   */
  lemma DecisionOutcome(c: Change, events: seq<Event>, user: UserId, approves: bool, at: Time)
    requires Created(c)
    ensures var now := Run(c, events);
      var refusal, outcome := DecisionRefusal(now, user), Handle(now, Decided(user, approves, at));
      if refusal.Some? then outcome == Err(refusal.value)
      else outcome.Ok? && Recorded(now, user, approves, at, outcome.value)
  {
    RunOfCreated(c, events);
    var now := Run(c, events);
    DecisionIsRefused(now, user, approves, at);
    if DecisionRefusal(now, user).None? {
      if approves {
        PendingIsShort(now);
        ApprovalIsRecorded(now, user, at);
      } else {
        RejectionIsRecorded(now, user, at);
      }
    }
  }

  /** The statuses that can follow each other, other than one following itself. */
  const TRANSITIONS: set<(Status, Status)> :=
    {(Draft, PendingApproval), (Draft, Approved), (Draft, Cancelled),
     (PendingApproval, Approved), (PendingApproval, Rejected), (PendingApproval, Cancelled),
     (Approved, Scheduled), (Approved, InProgress), (Approved, Cancelled),
     (Scheduled, InProgress), (Scheduled, Cancelled),
     (InProgress, Validating), (InProgress, Failed), (InProgress, RolledBack),
     (Validating, Completed), (Validating, Failed), (Validating, RolledBack),
     (Failed, RolledBack)}

  /** A status that a request can name: any of the later ones. */
  predicate Requestable(target: Status) {
    target in {Scheduled, InProgress, Validating, Completed, Failed, RolledBack, Cancelled}
  }

  lemma TableIs(current: Status, target: Status)
    ensures Allowed(current, target) <==> current == target || (current, target) in TRANSITIONS
  {
  }

  /** The code with which a status request is refused, if it is. */
  function StatusRefusal(c: Change, target: Status, reason: Option<string>, at: Time): Option<Error> {
    if !Requestable(target) || (target in {Failed, RolledBack} && !Given(reason)) then Some(Unprocessable)
    else if c.status != target && (c.status, target) !in TRANSITIONS then Some(AIOPS(8209))
    else if target != InProgress || !UnderControl(c.policy) then None
    else if c.window.start.None? || c.window.end.None? then Some(AIOPS(8217))
    else if !(c.window.start.value <= at <= c.window.end.value) then Some(AIOPS(8218))
    else None
  }

  lemma StatusIsRefused(c: Change, target: Status, reason: Option<string>, at: Time)
    requires Allowed(c.status, target) && target == InProgress ==> c.stamps.approvedAt.Some?
    ensures var refusal := StatusRefusal(c, target, reason, at);
      if refusal.Some? then SetStatus(c, target, reason, at) == Err(refusal.value)
      else SetStatus(c, target, reason, at).Ok?
  {
    TableIs(c.status, target);
  }

  predicate StatusRecorded(c: Change, target: Status, reason: Option<string>, at: Time, after: Change) {
    && after == c.(status := target, failureReason := reason, stamps := after.stamps,
                   timeline := c.timeline + [target])
    && after.stamps == c.stamps.(
         startedAt := if target == InProgress then Some(at) else c.stamps.startedAt,
         completedAt := if target in {Completed, Failed, RolledBack} then Some(at) else c.stamps.completedAt)
  }

  lemma StatusEffect(c: Change, target: Status, reason: Option<string>, at: Time)
    requires SetStatus(c, target, reason, at).Ok?
    ensures StatusRecorded(c, target, reason, at, SetStatus(c, target, reason, at).value)
  {
  }

  lemma ApprovedBeforeStart(c: Change)
    requires StampsMatchStatus(c) && Allowed(c.status, InProgress)
    ensures c.stamps.approvedAt.Some?
  {
  }

  predicate Answers(c: Change, target: Status, reason: Option<string>, at: Time, outcome: Result<Change, Error>) {
    var refusal := StatusRefusal(c, target, reason, at);
    if refusal.Some? then outcome == Err(refusal.value)
    else outcome.Ok? && StatusRecorded(c, target, reason, at, outcome.value)
  }

  lemma StatusOf(c: Change, target: Status, reason: Option<string>, at: Time)
    requires StampsMatchStatus(c)
    ensures Answers(c, target, reason, at, SetStatus(c, target, reason, at))
  {
    if Allowed(c.status, InProgress) {
      ApprovedBeforeStart(c);
    }
    StatusIsRefused(c, target, reason, at);
    if SetStatus(c, target, reason, at).Ok? {
      StatusEffect(c, target, reason, at);
    }
  }

  /**
    Over every run a status request is accepted exactly along the table or for the
    present status, with a reason for a failure or rollback, and for a start of a
    controlled change inside its window; it records the reason, and the time of a
    start or an end.
   */
  lemma StatusOutcome(c: Change, events: seq<Event>, target: Status, reason: Option<string>, at: Time)
    requires Created(c)
    ensures Answers(Run(c, events), target, reason, at, Handle(Run(c, events), StatusSet(target, reason, at)))
  {
    RunOfCreated(c, events);
    StatusOf(Run(c, events), target, reason, at);
  }

  // --------------------------------------------------------------- the phases

  lemma {:induction false} ComesAfter(timeline: seq<Status>, i: nat, s: Status, earlier: set<Status>)
    requires i < |timeline| && timeline[i] == s && timeline[0] == Draft && s != Draft
    requires forall k :: 0 < k < |timeline| ==> Allowed(timeline[k - 1], timeline[k])
    requires forall p: Status :: p != s && s in AllowedTransitions(p) ==> p in earlier
    ensures exists k :: 0 <= k < i && timeline[k] in earlier
    decreases i
  {
    assert Allowed(timeline[i - 1], timeline[i]);
    if timeline[i - 1] == s {
      ComesAfter(timeline, i - 1, s, earlier);
    } else {
      assert timeline[i - 1] in earlier;
    }
  }

  predicate Earlier(timeline: seq<Status>, i: nat, earlier: set<Status>) {
    exists k :: 0 <= k < i && k < |timeline| && timeline[k] in earlier
  }

  /**
    Over every run no phase is skipped: a change is in progress only after it was
    approved, is validated only after it was in progress, and completed only after
    it was validated; it fails or is rolled back only once it was in progress, and
    is rejected only while it was pending.
   */
  lemma PhasesComeInOrder(c: Change, events: seq<Event>, i: nat)
    requires Created(c) && i < |Run(c, events).timeline|
    ensures var timeline := Run(c, events).timeline;
      match timeline[i]
      case Draft => true
      case PendingApproval => Earlier(timeline, i, {Draft})
      case Approved => Earlier(timeline, i, {Draft, PendingApproval})
      case Scheduled => Earlier(timeline, i, {Approved})
      case InProgress => Earlier(timeline, i, {Approved})
      case Validating => Earlier(timeline, i, {InProgress})
      case Completed => Earlier(timeline, i, {Validating})
      case Failed => Earlier(timeline, i, {InProgress})
      case RolledBack => Earlier(timeline, i, {InProgress})
      case Rejected => Earlier(timeline, i, {PendingApproval})
      case Cancelled => Earlier(timeline, i, {Draft, PendingApproval, Approved, Scheduled})
  {
    RunOfCreated(c, events);
    PhasesOf(Run(c, events).timeline, i);
  }

  predicate FollowsTable(timeline: seq<Status>) {
    |timeline| > 0 && timeline[0] == Draft
    && forall k :: 0 < k < |timeline| ==> Allowed(timeline[k - 1], timeline[k])
  }

  lemma ComesDirectlyAfter(timeline: seq<Status>, i: nat, earlier: set<Status>)
    requires FollowsTable(timeline) && i < |timeline| && timeline[i] != Draft
    requires forall p: Status :: p != timeline[i] && timeline[i] in AllowedTransitions(p) ==> p in earlier
    ensures Earlier(timeline, i, earlier)
  {
    ComesAfter(timeline, i, timeline[i], earlier);
    var k :| 0 <= k < i && timeline[k] in earlier;
  }

  /** What came before one of the statuses came before this one, too. */
  lemma ThenBefore(timeline: seq<Status>, i: nat, middle: set<Status>, earlier: set<Status>)
    requires i < |timeline| && Earlier(timeline, i, middle)
    requires forall k :: 0 <= k < i && timeline[k] in middle ==>
      timeline[k] in earlier || Earlier(timeline, k, earlier)
    ensures Earlier(timeline, i, earlier)
  {
    var k :| 0 <= k < i && k < |timeline| && timeline[k] in middle;
    if timeline[k] !in earlier {
      var m :| 0 <= m < k && m < |timeline| && timeline[m] in earlier;
    }
  }

  lemma StartedAfterApproval(timeline: seq<Status>, i: nat)
    requires FollowsTable(timeline) && i < |timeline| && timeline[i] == InProgress
    ensures Earlier(timeline, i, {Approved})
  {
    ComesDirectlyAfter(timeline, i, {Approved, Scheduled});
    forall k | 0 <= k < i && timeline[k] in {Approved, Scheduled}
      ensures timeline[k] in {Approved} || Earlier(timeline, k, {Approved})
    {
      if timeline[k] == Scheduled {
        ComesDirectlyAfter(timeline, k, {Approved});
      }
    }
    ThenBefore(timeline, i, {Approved, Scheduled}, {Approved});
  }

  lemma EndedAfterStart(timeline: seq<Status>, i: nat)
    requires FollowsTable(timeline) && i < |timeline| && timeline[i] in {Failed, RolledBack}
    ensures Earlier(timeline, i, {InProgress})
    decreases i
  {
    ComesDirectlyAfter(timeline, i, {InProgress, Validating, Failed});
    forall k | 0 <= k < i && timeline[k] in {InProgress, Validating, Failed}
      ensures timeline[k] in {InProgress} || Earlier(timeline, k, {InProgress})
    {
      if timeline[k] == Validating {
        ComesDirectlyAfter(timeline, k, {InProgress});
      } else if timeline[k] == Failed {
        EndedAfterStart(timeline, k);
      }
    }
    ThenBefore(timeline, i, {InProgress, Validating, Failed}, {InProgress});
  }

  lemma PhasesOf(timeline: seq<Status>, i: nat)
    requires FollowsTable(timeline) && i < |timeline|
    ensures match timeline[i]
            case Draft => true
            case PendingApproval => Earlier(timeline, i, {Draft})
            case Approved => Earlier(timeline, i, {Draft, PendingApproval})
            case Scheduled => Earlier(timeline, i, {Approved})
            case InProgress => Earlier(timeline, i, {Approved})
            case Validating => Earlier(timeline, i, {InProgress})
            case Completed => Earlier(timeline, i, {Validating})
            case Failed => Earlier(timeline, i, {InProgress})
            case RolledBack => Earlier(timeline, i, {InProgress})
            case Rejected => Earlier(timeline, i, {PendingApproval})
            case Cancelled => Earlier(timeline, i, {Draft, PendingApproval, Approved, Scheduled})
  {
    match timeline[i]
    case Draft =>
    case PendingApproval => ComesDirectlyAfter(timeline, i, {Draft});
    case Approved => ComesDirectlyAfter(timeline, i, {Draft, PendingApproval});
    case Scheduled => ComesDirectlyAfter(timeline, i, {Approved});
    case InProgress => StartedAfterApproval(timeline, i);
    case Validating => ComesDirectlyAfter(timeline, i, {InProgress});
    case Completed => ComesDirectlyAfter(timeline, i, {Validating});
    case Failed => EndedAfterStart(timeline, i);
    case RolledBack => EndedAfterStart(timeline, i);
    case Rejected => ComesDirectlyAfter(timeline, i, {PendingApproval});
    case Cancelled => ComesDirectlyAfter(timeline, i, {Draft, PendingApproval, Approved, Scheduled});
  }
}
