/**
  One change request from draft to its end (change/api.py, change/application.py).

  The handlers do not share a guard: `update_change` looks at the status alone,
  `submit_change` at the plans, `decide_change` counts decisions, and
  `change_status` trusts `approved_at`. References to assets, incidents, evidence
  and automation jobs are not modelled.
 */
module ChangeApproval {
  import opened Wrappers

  type Time = int
  type UserId = nat

  datatype Risk = R0 | R1 | R2 | R3 | R4

  /** A request refused by its schema, or by the handler with an error code. */
  datatype Error = Unprocessable | AIOPS(code: nat)

  datatype Status =
    | Draft | PendingApproval | Approved | Scheduled | InProgress | Validating
    | Completed | Failed | RolledBack | Rejected | Cancelled

  /** A JSON list column; `None` is a stored null. */
  type Plan = Option<seq<string>>

  datatype Plans = Plans(precheck: Plan, implementation: Plan, validation: Plan, success: Plan, rollback: Plan)

  datatype Window = Window(start: Option<Time>, end: Option<Time>)

  datatype Decision = Decision(approver: UserId, approves: bool)

  /** Fixed when the change is created. */
  datatype Policy = Policy(risk: Risk, gxpImpact: bool, requiredApprovals: nat, requestedBy: UserId)

  datatype Stamps = Stamps(submittedAt: Option<Time>, approvedAt: Option<Time>, startedAt: Option<Time>,
                           completedAt: Option<Time>)

  datatype Change = Change(
    policy: Policy, plans: Plans, window: Window, backupRef: Option<string>, status: Status,
    decisions: seq<Decision>, stamps: Stamps, failureReason: Option<string>, timeline: seq<Status>)

  function AllowedTransitions(s: Status): set<Status> {
    match s
    case Draft => {PendingApproval, Approved, Cancelled}
    case PendingApproval => {Approved, Rejected, Cancelled}
    case Approved => {Scheduled, InProgress, Cancelled}
    case Scheduled => {InProgress, Cancelled}
    case InProgress => {Validating, Failed, RolledBack}
    case Validating => {Completed, Failed, RolledBack}
    case Failed => {RolledBack}
    case Completed | RolledBack | Rejected | Cancelled => {}
  }

  predicate Allowed(current: Status, target: Status) {
    current == target || target in AllowedTransitions(current)
  }

  function RequiredApprovals(risk: Risk, gxpImpact: bool): nat {
    if (risk == R0 || risk == R1) && !gxpImpact then 0
    else if risk == R3 || gxpImpact then 2
    else 1
  }

  predicate Controlled(p: Policy) {
    p.risk == R2 || p.risk == R3 || p.gxpImpact
  }

  predicate Filled<T>(value: Option<seq<T>>) {
    value.Some? && |value.value| > 0
  }

  predicate PlansComplete(p: Plans) {
    Filled(p.precheck) && Filled(p.implementation) && Filled(p.validation) && Filled(p.success) && Filled(p.rollback)
  }

  predicate Ordered(w: Window) {
    w.start.Some? && w.end.Some? ==> w.start.value < w.end.value
  }

  predicate Inside(w: Window, at: Time) {
    w.start.Some? && w.end.Some? && w.start.value <= at <= w.end.value
  }

  // --------------------------------------------------------------- operations

  function Create(risk: Risk, gxpImpact: bool, requester: UserId, plans: Plans, window: Window,
                  backupRef: Option<string>)
    : Result<Change, Error>
  {
    var policy := Policy(risk, gxpImpact, RequiredApprovals(risk, gxpImpact), requester);
    if risk == R4 then Err(Unprocessable)
    else if !Ordered(window) then Err(Unprocessable)
    else if Controlled(policy) && !(Filled(plans.precheck) && Filled(plans.validation) && Filled(plans.rollback)) then
      Err(Unprocessable)
    else if risk == R3 && !Filled(backupRef) then Err(Unprocessable)
    else Ok(Change(policy, plans, window, backupRef, Draft, [], Stamps(None, None, None, None), None, [Draft]))
  }

  /** A field of a partial update: absent, or present with a value that may be null. */
  datatype Edit<T> = Unset | Set(value: T) {
    function Over(current: T): T {
      if Set? then value else current
    }
  }

  datatype Update = Update(
    precheck: Edit<Plan>, implementation: Edit<Plan>, validation: Edit<Plan>, success: Edit<Plan>, rollback: Edit<Plan>,
    start: Edit<Option<Time>>, end: Edit<Option<Time>>, backupRef: Edit<Option<string>>)

  function EditedPlans(p: Plans, u: Update): Plans {
    Plans(u.precheck.Over(p.precheck), u.implementation.Over(p.implementation), u.validation.Over(p.validation),
          u.success.Over(p.success), u.rollback.Over(p.rollback))
  }

  function EditedWindow(w: Window, u: Update): Window {
    Window(u.start.Over(w.start), u.end.Over(w.end))
  }

  function UpdateChange(c: Change, u: Update): Result<Change, Error> {
    if c.status != Draft then Err(AIOPS(8210))
    else if !Ordered(EditedWindow(c.window, u)) then Err(AIOPS(8211))
    else Ok(c.(plans := EditedPlans(c.plans, u), window := EditedWindow(c.window, u),
               backupRef := u.backupRef.Over(c.backupRef)))
  }

  function Moved(c: Change, target: Status): Change {
    c.(status := target, timeline := c.timeline + [target])
  }

  function Submit(c: Change, now: Time): Result<Change, Error> {
    var target := if c.policy.requiredApprovals > 0 then PendingApproval else Approved;
    if !Allowed(c.status, target) then Err(AIOPS(8209))
    else if Controlled(c.policy) && !PlansComplete(c.plans) then Err(AIOPS(8212))
    else
      Ok(Moved(c, target).(stamps := c.stamps.(
                             submittedAt := Some(now),
                             approvedAt := if target == Approved then Some(now) else c.stamps.approvedAt)))
  }

  function Approvals(ds: seq<Decision>): nat {
    if ds == [] then 0
    else Approvals(ds[..|ds| - 1]) + (if ds[|ds| - 1].approves then 1 else 0)
  }

  predicate HasDecided(ds: seq<Decision>, user: UserId) {
    exists i :: 0 <= i < |ds| && ds[i].approver == user
  }

  function Decide(c: Change, user: UserId, approves: bool, now: Time): Result<Change, Error> {
    if c.status != PendingApproval then Err(AIOPS(8213))
    else if c.policy.requestedBy == user then Err(AIOPS(8214))
    else if HasDecided(c.decisions, user) then Err(AIOPS(8215))
    else
      var decided := c.(decisions := c.decisions + [Decision(user, approves)]);
      if !approves then Ok(Moved(decided, Rejected))
      else if Approvals(decided.decisions) >= c.policy.requiredApprovals then
        Ok(Moved(decided, Approved).(stamps := c.stamps.(approvedAt := Some(now))))
      else Ok(Moved(decided, PendingApproval))
  }

  /** The targets that a status request can name. */
  const SETTABLE: set<Status> := {Scheduled, InProgress, Validating, Completed, Failed, RolledBack, Cancelled}

  function StampedFor(s: Stamps, target: Status, now: Time): Stamps {
    if target == InProgress then s.(startedAt := Some(now))
    else if target == Completed || target == Failed || target == RolledBack then s.(completedAt := Some(now))
    else s
  }

  function SetStatus(c: Change, target: Status, reason: Option<string>, now: Time): Result<Change, Error> {
    if target !in SETTABLE then Err(Unprocessable)
    else if (target == Failed || target == RolledBack) && !Filled(reason) then Err(Unprocessable)
    else if !Allowed(c.status, target) then Err(AIOPS(8209))
    else if target == InProgress && Controlled(c.policy) && c.stamps.approvedAt.None? then Err(AIOPS(8216))
    else if target == InProgress && Controlled(c.policy) && !(c.window.start.Some? && c.window.end.Some?)
      then Err(AIOPS(8217))
    else if target == InProgress && Controlled(c.policy) && !Inside(c.window, now) then Err(AIOPS(8218))
    else Ok(Moved(c, target).(stamps := StampedFor(c.stamps, target, now), failureReason := reason))
  }

  // --------------------------------------------------------------------- runs

  datatype Event =
    | Updated(update: Update)
    | Submitted(at: Time)
    | Decided(user: UserId, approves: bool, at: Time)
    | StatusSet(target: Status, reason: Option<string>, at: Time)

  function Handle(c: Change, e: Event): Result<Change, Error> {
    match e
    case Updated(update) => UpdateChange(c, update)
    case Submitted(at) => Submit(c, at)
    case Decided(user, approves, at) => Decide(c, user, approves, at)
    case StatusSet(target, reason, at) => SetStatus(c, target, reason, at)
  }

  function Step(c: Change, e: Event): Change {
    match Handle(c, e)
    case Ok(c') => c'
    case Err(_) => c
  }

  function Run(c: Change, events: seq<Event>): Change
    decreases |events|
  {
    if events == [] then c else Run(Step(c, events[0]), events[1..])
  }

  predicate AfterApproval(s: Status) {
    s == Approved || s == Scheduled || Started(s)
  }

  predicate Started(s: Status) {
    s == InProgress || s == Validating || s == Completed || s == Failed || s == RolledBack
  }

  predicate PolicyHolds(p: Policy) {
    p.risk != R4 && p.requiredApprovals == RequiredApprovals(p.risk, p.gxpImpact)
  }

  /** No one decides twice, nor the requester at all. */
  predicate DecidersDistinct(p: Policy, ds: seq<Decision>) {
    && (forall i :: 0 <= i < |ds| ==> ds[i].approver != p.requestedBy)
    && (forall i, j :: 0 <= i < j < |ds| ==> ds[i].approver != ds[j].approver)
  }

  predicate NoRejection(ds: seq<Decision>) {
    forall i :: 0 <= i < |ds| ==> ds[i].approves
  }

  predicate DecisionsMatchStatus(p: Policy, ds: seq<Decision>, s: Status) {
    && (s == Draft ==> ds == [])
    && (s != Rejected ==> NoRejection(ds))
    && (s == PendingApproval ==> |ds| < p.requiredApprovals)
    && (AfterApproval(s) ==> |ds| == p.requiredApprovals)
  }

  predicate StampsMatchStatus(c: Change) {
    && (AfterApproval(c.status) ==> c.stamps.approvedAt.Some?)
    && (Started(c.status) <==> c.stamps.startedAt.Some?)
    && (Controlled(c.policy) && c.stamps.startedAt.Some? ==> Inside(c.window, c.stamps.startedAt.value))
    && ((c.status == Completed || c.status == Failed || c.status == RolledBack) <==> c.stamps.completedAt.Some?)
    && (c.status == Failed || c.status == RolledBack ==> Filled(c.failureReason))
  }

  predicate PlansMatchStatus(c: Change) {
    Controlled(c.policy) && c.status != Draft && c.status != Cancelled ==> PlansComplete(c.plans)
  }

  /** The timeline starts in draft, ends in the present status, and follows the transition table. */
  predicate TimelineIsAPath(timeline: seq<Status>, s: Status) {
    && |timeline| > 0 && timeline[0] == Draft && timeline[|timeline| - 1] == s
    && forall i :: 0 < i < |timeline| ==> Allowed(timeline[i - 1], timeline[i])
  }

  predicate Inv(c: Change) {
    && PolicyHolds(c.policy) && DecidersDistinct(c.policy, c.decisions)
    && DecisionsMatchStatus(c.policy, c.decisions, c.status)
    && StampsMatchStatus(c) && PlansMatchStatus(c) && TimelineIsAPath(c.timeline, c.status) && Ordered(c.window)
  }

  lemma {:induction false} UnanimousApprovals(ds: seq<Decision>)
    ensures Approvals(ds) <= |ds|
    ensures NoRejection(ds) <==> Approvals(ds) == |ds|
  {
    if ds != [] {
      var n := |ds| - 1;
      UnanimousApprovals(ds[..n]);
      assert forall i :: 0 <= i < n ==> ds[..n][i] == ds[i];
      assert NoRejection(ds) <==> NoRejection(ds[..n]) && ds[n].approves;
    }
  }

  lemma PathExtends(timeline: seq<Status>, s: Status, target: Status)
    requires TimelineIsAPath(timeline, s) && Allowed(s, target)
    ensures TimelineIsAPath(timeline + [target], target)
  {
  }

  lemma DecidersStayDistinct(p: Policy, ds: seq<Decision>, user: UserId, approves: bool)
    requires DecidersDistinct(p, ds) && user != p.requestedBy && !HasDecided(ds, user)
    ensures DecidersDistinct(p, ds + [Decision(user, approves)])
  {
  }

  /** One more approval leaves the approvals unanimous. */
  lemma ApprovalsCountDeciders(ds: seq<Decision>, user: UserId)
    requires NoRejection(ds)
    ensures NoRejection(ds + [Decision(user, true)]) && Approvals(ds + [Decision(user, true)]) == |ds| + 1
  {
    UnanimousApprovals(ds + [Decision(user, true)]);
  }

  predicate MayDecide(c: Change, user: UserId) {
    c.status == PendingApproval && c.policy.requestedBy != user && !HasDecided(c.decisions, user)
  }

  lemma RejectionKeepsInv(c: Change, user: UserId, now: Time)
    requires Inv(c) && MayDecide(c, user)
    ensures Decide(c, user, false, now).Ok? && Inv(Decide(c, user, false, now).value)
  {
    DecidersStayDistinct(c.policy, c.decisions, user, false);
    PathExtends(c.timeline, PendingApproval, Rejected);
  }

  lemma SettlingApprovalKeepsInv(c: Change, user: UserId, now: Time)
    requires Inv(c) && MayDecide(c, user) && |c.decisions| + 1 == c.policy.requiredApprovals
    ensures Decide(c, user, true, now).Ok? && Inv(Decide(c, user, true, now).value)
  {
    DecidersStayDistinct(c.policy, c.decisions, user, true);
    ApprovalsCountDeciders(c.decisions, user);
    PathExtends(c.timeline, PendingApproval, Approved);
  }

  lemma FurtherApprovalKeepsInv(c: Change, user: UserId, now: Time)
    requires Inv(c) && MayDecide(c, user) && |c.decisions| + 1 < c.policy.requiredApprovals
    ensures Decide(c, user, true, now).Ok? && Inv(Decide(c, user, true, now).value)
  {
    DecidersStayDistinct(c.policy, c.decisions, user, true);
    ApprovalsCountDeciders(c.decisions, user);
    PathExtends(c.timeline, PendingApproval, PendingApproval);
  }

  lemma DecideKeepsInv(c: Change, user: UserId, approves: bool, now: Time)
    requires Inv(c) && MayDecide(c, user)
    ensures Decide(c, user, approves, now).Ok? && Inv(Decide(c, user, approves, now).value)
  {
    if !approves {
      RejectionKeepsInv(c, user, now);
    } else if |c.decisions| + 1 == c.policy.requiredApprovals {
      SettlingApprovalKeepsInv(c, user, now);
    } else {
      FurtherApprovalKeepsInv(c, user, now);
    }
  }

  lemma StartKeepsStamps(c: Change, reason: Option<string>, now: Time)
    requires StampsMatchStatus(c) && SetStatus(c, InProgress, reason, now).Ok?
    ensures StampsMatchStatus(SetStatus(c, InProgress, reason, now).value)
  {
  }

  lemma LaterStatusKeepsStamps(c: Change, target: Status, reason: Option<string>, now: Time)
    requires StampsMatchStatus(c) && target != InProgress && SetStatus(c, target, reason, now).Ok?
    ensures StampsMatchStatus(SetStatus(c, target, reason, now).value)
  {
  }

  lemma SetStatusKeepsStamps(c: Change, target: Status, reason: Option<string>, now: Time)
    requires StampsMatchStatus(c) && SetStatus(c, target, reason, now).Ok?
    ensures StampsMatchStatus(SetStatus(c, target, reason, now).value)
  {
    if target == InProgress {
      StartKeepsStamps(c, reason, now);
    } else {
      LaterStatusKeepsStamps(c, target, reason, now);
    }
  }

  lemma SetStatusKeepsDecisions(c: Change, target: Status)
    requires DecisionsMatchStatus(c.policy, c.decisions, c.status) && PlansMatchStatus(c)
    requires target in SETTABLE && Allowed(c.status, target)
    ensures DecisionsMatchStatus(c.policy, c.decisions, target) && PlansMatchStatus(c.(status := target))
  {
  }

  lemma SetStatusKeepsInv(c: Change, target: Status, reason: Option<string>, now: Time)
    requires Inv(c) && SetStatus(c, target, reason, now).Ok?
    ensures Inv(SetStatus(c, target, reason, now).value)
  {
    SetStatusKeepsStamps(c, target, reason, now);
    SetStatusKeepsDecisions(c, target);
    PathExtends(c.timeline, c.status, target);
  }

  lemma StepKeepsInv(c: Change, e: Event)
    requires Inv(c)
    ensures Inv(Step(c, e))
  {
    if Handle(c, e).Ok? {
      match e
      case Updated(_) =>
      case Submitted(at) => PathExtends(c.timeline, c.status, Step(c, e).status);
      case Decided(user, approves, at) => DecideKeepsInv(c, user, approves, at);
      case StatusSet(target, reason, at) => SetStatusKeepsInv(c, target, reason, at);
    }
  }

  lemma {:induction false} RunKeepsInv(c: Change, events: seq<Event>)
    requires Inv(c)
    ensures Inv(Run(c, events))
    decreases |events|
  {
    if events != [] {
      StepKeepsInv(c, events[0]);
      RunKeepsInv(Step(c, events[0]), events[1..]);
    }
  }

  /** A change as `create_change` makes it. */
  predicate Created(c: Change) {
    Create(c.policy.risk, c.policy.gxpImpact, c.policy.requestedBy, c.plans, c.window, c.backupRef) == Ok(c)
  }

  lemma RunOfCreated(c: Change, events: seq<Event>)
    requires Created(c)
    ensures Inv(Run(c, events)) && Run(c, events).policy == c.policy
  {
    RunKeepsInv(c, events);
    PolicyIsFixed(c, events);
  }

  /**
    In every run a change that is approved, or anywhere after approval, has been
    approved by exactly two people if it is R3 or has GxP impact, by exactly one
    if it is R2 without it, and by nobody otherwise; they differ from each other
    and from its requester, and nobody rejected it.
   */
  lemma ApprovedMeansEnoughApprovals(c: Change, events: seq<Event>, i: nat, j: nat)
    requires Created(c)
    ensures var now := Run(c, events);
      AfterApproval(now.status) ==>
        && (c.policy.risk == R3 || c.policy.gxpImpact ==> |now.decisions| == 2)
        && (c.policy.risk == R2 && !c.policy.gxpImpact ==> |now.decisions| == 1)
        && (c.policy.risk in {R0, R1} && !c.policy.gxpImpact ==> |now.decisions| == 0)
        && (i < |now.decisions| ==> now.decisions[i].approves && now.decisions[i].approver != c.policy.requestedBy)
        && (i < j < |now.decisions| ==> now.decisions[i].approver != now.decisions[j].approver)
  {
    RunOfCreated(c, events);
  }

  /**
    In every run an accepted submission leaves a change approved at once exactly if
    it is R0 or R1 without GxP impact; any other waits for its approvals.
   */
  lemma SubmissionApprovesIff(c: Change, events: seq<Event>, at: Time)
    requires Created(c) && Submit(Run(c, events), at).Ok?
    ensures var submitted := Submit(Run(c, events), at).value;
      && submitted.stamps.submittedAt == Some(at)
      && (submitted.status == Approved <==> c.policy.risk in {R0, R1} && !c.policy.gxpImpact)
      && (submitted.status != Approved ==> submitted.status == PendingApproval)
  {
    RunOfCreated(c, events);
  }

  lemma {:induction false} PolicyIsFixed(c: Change, events: seq<Event>)
    ensures Run(c, events).policy == c.policy
    decreases |events|
  {
    if events != [] {
      PolicyIsFixed(Step(c, events[0]), events[1..]);
    }
  }

  /**
    In every run a controlled change outside draft and cancelled has all five
    plans, and if it ever started it did so inside the window it still has.
   */
  lemma ControlledRunsArePlannedAndInWindow(c: Change, events: seq<Event>)
    requires Created(c) && Controlled(c.policy)
    ensures var now := Run(c, events);
      && (now.status != Draft && now.status != Cancelled ==> PlansComplete(now.plans))
      && (now.stamps.startedAt.Some? ==> Inside(now.window, now.stamps.startedAt.value))
      && (Started(now.status) ==> now.stamps.startedAt.Some?)
  {
    RunOfCreated(c, events);
  }

  /** In every run the timeline is a path through the transition table from draft to the present status. */
  lemma TimelineFollowsTheTable(c: Change, events: seq<Event>, i: nat)
    requires Created(c)
    ensures var now := Run(c, events);
      && |now.timeline| > 0 && now.timeline[0] == Draft && now.timeline[|now.timeline| - 1] == now.status
      && (0 < i < |now.timeline| ==> Allowed(now.timeline[i - 1], now.timeline[i]))
  {
    RunOfCreated(c, events);
  }

  /**
    The refusal for a controlled change without `approved_at` cannot happen:
    whenever the transition table lets one start, it has been approved.
   */
  lemma StartIsNeverUnapproved(c: Change, events: seq<Event>, reason: Option<string>, at: Time)
    requires Created(c)
    ensures var now := Run(c, events);
      Controlled(c.policy) ==>
        (SetStatus(now, InProgress, reason, at).Ok? <==>
          (now.status == Approved || now.status == Scheduled || now.status == InProgress) && Inside(now.window, at))
    ensures Allowed(Run(c, events).status, InProgress) ==> Run(c, events).stamps.approvedAt.Some?
  {
    RunOfCreated(c, events);
  }

  predicate Terminal(s: Status) {
    s == Completed || s == RolledBack || s == Rejected || s == Cancelled
  }

  /** A status request that names the status the change already has. */
  predicate Repeats(s: Status, e: Event) {
    e.StatusSet? && e.target == s && e.target in SETTABLE
      && (e.target == Failed || e.target == RolledBack ==> Filled(e.reason))
  }

  lemma TerminalStep(c: Change, e: Event)
    requires Terminal(c.status)
    ensures Step(c, e) ==
      if !Repeats(c.status, e) then c
      else Moved(c, c.status).(stamps := StampedFor(c.stamps, c.status, e.at), failureReason := e.reason)
  {
  }

  function LastRepeat(s: Status, events: seq<Event>): (last: Option<Event>)
    ensures last.Some? ==> Repeats(s, last.value)
    decreases |events|
  {
    if events == [] then None
    else
      var later := LastRepeat(s, events[1..]);
      if later.Some? then later else if Repeats(s, events[0]) then Some(events[0]) else None
  }

  /**
    A completed, rolled back, rejected or cancelled change keeps its status,
    plans, window, decisions and times of submission, approval and start. A
    repeated request for the same status is accepted, though, and rewrites the
    failure reason and, unless cancelled, the time of completion, which are those
    of the last repetition; the timeline gains an entry for each. Without a
    repetition nothing changes, and a rejected change cannot be repeated.
   */
  lemma {:induction false} TerminalIsFinal(c: Change, events: seq<Event>)
    requires Terminal(c.status)
    ensures var now := Run(c, events);
      var last := LastRepeat(c.status, events);
      && now == c.(stamps := now.stamps, failureReason := now.failureReason, timeline := now.timeline)
      && now.stamps == (if last.None? then c.stamps else StampedFor(c.stamps, c.status, last.value.at))
      && now.failureReason == (if last.None? then c.failureReason else last.value.reason)
      && (now == c <==> last.None?) && (now != c ==> |now.timeline| > |c.timeline|)
      && (c.status == Rejected ==> now == c)
    decreases |events|
  {
    if events != [] {
      TerminalStep(c, events[0]);
      TerminalIsFinal(Step(c, events[0]), events[1..]);
    }
  }

  // -------------------------------------------- the backup of an R3 change

  /** The guards of `update_change`, as a caller can check them, and a backup reference among the fields. */
  predicate EditsBackup(c: Change, e: Event) {
    e.Updated? && c.status == Draft && Ordered(EditedWindow(c.window, e.update)) && e.update.backupRef.Set?
  }

  predicate ClearsBackup(c: Change, e: Event) {
    EditsBackup(c, e) && !Filled(e.update.backupRef.value)
  }

  predicate RefillsBackup(c: Change, e: Event) {
    EditsBackup(c, e) && Filled(e.update.backupRef.value)
  }

  /** Event `i` clears the reference of the change as it then is. */
  predicate ClearsAt(c: Change, events: seq<Event>, i: nat) {
    i < |events| && ClearsBackup(Run(c, events[..i]), events[i])
  }

  predicate RefillsAt(c: Change, events: seq<Event>, i: nat) {
    i < |events| && RefillsBackup(Run(c, events[..i]), events[i])
  }

  predicate RefilledAfter(c: Change, events: seq<Event>, i: nat) {
    exists j: nat :: i < j < |events| && RefillsAt(c, events, j)
  }

  lemma {:induction false} RunAppend(c: Change, first: seq<Event>, second: seq<Event>)
    ensures Run(c, first + second) == Run(Run(c, first), second)
    decreases |first|
  {
    if first == [] {
      assert first + second == second;
    } else {
      assert (first + second)[1..] == first[1..] + second;
      RunAppend(Step(c, first[0]), first[1..], second);
    }
  }

  lemma PrefixEvents(c: Change, events: seq<Event>, n: nat, i: nat)
    requires i < n <= |events|
    ensures ClearsAt(c, events[..n], i) <==> ClearsAt(c, events, i)
    ensures RefillsAt(c, events[..n], i) <==> RefillsAt(c, events, i)
  {
    assert events[..n][..i] == events[..i];
  }

  lemma BackupAfterStep(c: Change, e: Event)
    ensures Filled(Step(c, e).backupRef) <==> RefillsBackup(c, e) || (!ClearsBackup(c, e) && Filled(c.backupRef))
  {
  }

  lemma RunToLast(c: Change, events: seq<Event>)
    requires events != []
    ensures Run(c, events) == Step(Run(c, events[..|events| - 1]), events[|events| - 1])
  {
    var n := |events| - 1;
    assert events == events[..n] + [events[n]];
    RunAppend(c, events[..n], [events[n]]);
  }

  lemma BackupAfterLast(c: Change, events: seq<Event>)
    requires events != []
    ensures var n := |events| - 1;
      Filled(Run(c, events).backupRef)
      <==> RefillsAt(c, events, n) || (!ClearsAt(c, events, n) && Filled(Run(c, events[..n]).backupRef))
  {
    RunToLast(c, events);
    BackupAfterStep(Run(c, events[..|events| - 1]), events[|events| - 1]);
  }

  /**
    Over every run that starts with a backup reference there still is one at the
    end exactly when each accepted update that set an empty one was followed by an
    accepted update that set another.
   */
  lemma {:induction false} BackupIsKeptIff(c: Change, events: seq<Event>)
    requires Filled(c.backupRef)
    ensures Filled(Run(c, events).backupRef)
      <==> forall i: nat :: ClearsAt(c, events, i) ==> RefilledAfter(c, events, i)
    decreases |events|
  {
    if events != [] {
      var n := |events| - 1;
      BackupIsKeptIff(c, events[..n]);
      BackupAfterLast(c, events);
      forall i: nat | i < n
        ensures ClearsAt(c, events[..n], i) <==> ClearsAt(c, events, i)
        ensures RefillsAt(c, events[..n], i) <==> RefillsAt(c, events, i)
      {
        PrefixEvents(c, events, n, i);
      }
      if RefillsAt(c, events, n) {
        assert forall i: nat :: i < n ==> RefilledAfter(c, events, i);
      } else if ClearsAt(c, events, n) {
        assert !RefilledAfter(c, events, n);
      } else {
        forall i: nat | i < n
          ensures RefilledAfter(c, events[..n], i) <==> RefilledAfter(c, events, i)
        {
        }
      }
    }
  }

  lemma CreatedR3HasBackup(c: Change)
    requires Created(c) && c.policy.risk == R3
    ensures Filled(c.backupRef)
  {
  }

  /** Every R3 change starts with one, so this decides whether it still has one at the end of any run. */
  lemma R3BackupIsKeptIff(c: Change, events: seq<Event>)
    requires Created(c) && c.policy.risk == R3
    ensures Filled(Run(c, events).backupRef)
      <==> forall i: nat :: ClearsAt(c, events, i) ==> RefilledAfter(c, events, i)
  {
    CreatedR3HasBackup(c);
    BackupIsKeptIff(c, events);
  }

  const CLEAR_BACKUP := Update(Unset, Unset, Unset, Unset, Unset, Unset, Unset, Set(None))

  lemma TwoApprovalsApprove(c: Change, first: UserId, second: UserId, at: Time)
    requires c.status == PendingApproval && c.decisions == [] && c.policy.requiredApprovals == 2
    requires first != second && first != c.policy.requestedBy && second != c.policy.requestedBy
    ensures var c' := Step(Step(c, Decided(first, true, at)), Decided(second, true, at));
      c'.status == Approved && c'.stamps.approvedAt.Some? && c'.window == c.window && c'.policy == c.policy
      && c'.backupRef == c.backupRef
  {
    var one := [Decision(first, true)];
    assert one[..0] == [] && Approvals(one) == 1;
    var two := one + [Decision(second, true)];
    assert two[..1] == one && Approvals(two) == 2;
    assert c.decisions + one == one;
  }

  lemma ClearedDraftIsSubmitted(c: Change, at: Time)
    requires Created(c) && c.policy.risk == R3 && PlansComplete(c.plans)
    ensures var pending := Step(Step(c, Updated(CLEAR_BACKUP)), Submitted(at));
      && pending.status == PendingApproval && pending.decisions == [] && pending.policy == c.policy
      && pending.window == c.window && pending.backupRef.None?
  {
    assert UpdateChange(c, CLEAR_BACKUP) == Ok(c.(backupRef := None));
  }

  lemma ApprovedStarts(c: Change, at: Time)
    requires c.status == Approved && c.stamps.approvedAt.Some? && Inside(c.window, at)
    ensures var started := Step(c, StatusSet(InProgress, None, at));
      started.status == InProgress && started.backupRef == c.backupRef
  {
  }

  /**
    Creating an R3 change demands a configuration backup reference, but nothing
    demands it later: every draft with its plans and window can lose it through
    an update, be approved by two people, and start.
   */
  lemma BackupCanBeLost(c: Change, first: UserId, second: UserId, at: Time)
    requires Created(c) && c.policy.risk == R3 && PlansComplete(c.plans) && Inside(c.window, at)
    requires first != second && first != c.policy.requestedBy && second != c.policy.requestedBy
    ensures Filled(c.backupRef)
    ensures var pending := Step(Step(c, Updated(CLEAR_BACKUP)), Submitted(at));
      var approved := Step(Step(pending, Decided(first, true, at)), Decided(second, true, at));
      var started := Step(approved, StatusSet(InProgress, None, at));
      started.status == InProgress && started.backupRef.None?
  {
    ClearedDraftIsSubmitted(c, at);
    var pending := Step(Step(c, Updated(CLEAR_BACKUP)), Submitted(at));
    TwoApprovalsApprove(pending, first, second, at);
    ApprovedStarts(Step(Step(pending, Decided(first, true, at)), Decided(second, true, at)), at);
  }

  // ----------------------------------------------------------- imperative form

  class ChangeRow {
    const policy: Policy
    var plans: Plans
    var window: Window
    var backupRef: Option<string>
    var status: Status
    var decisions: seq<Decision>
    var stamps: Stamps
    var failureReason: Option<string>
    var timeline: seq<Status>

    constructor (risk: Risk, gxpImpact: bool, requester: UserId, plans: Plans, window: Window,
                 backupRef: Option<string>)
      requires Create(risk, gxpImpact, requester, plans, window, backupRef).Ok?
      ensures Create(risk, gxpImpact, requester, plans, window, backupRef) == Ok(Contents())
      ensures policy.risk == risk && policy.gxpImpact == gxpImpact && policy.requestedBy == requester
      ensures policy.requiredApprovals == if risk == R3 || gxpImpact then 2 else if risk == R2 then 1 else 0
    {
      policy := Policy(risk, gxpImpact, RequiredApprovals(risk, gxpImpact), requester);
      this.plans, this.window, this.backupRef := plans, window, backupRef;
      status, decisions, stamps, failureReason, timeline := Draft, [], Stamps(None, None, None, None), None, [Draft];
    }

    function Contents(): Change
      reads this
    {
      Change(policy, plans, window, backupRef, status, decisions, stamps, failureReason, timeline)
    }

    /** The fields are set before the window is checked; the raise undoes them. */
    method UpdateFields(u: Update) returns (error: Option<Error>)
      modifies this
      ensures error.None? ==> UpdateChange(old(Contents()), u) == Ok(Contents())
      ensures error.Some? ==> UpdateChange(old(Contents()), u) == Err(error.value) && Contents() == old(Contents())
    {
      if status != Draft {
        return Some(AIOPS(8210));
      }
      var begunPlans, begunWindow, begunBackup := plans, window, backupRef;
      plans := EditedPlans(plans, u);
      window := EditedWindow(window, u);
      backupRef := u.backupRef.Over(backupRef);
      if window.start.Some? && window.end.Some? && window.end.value <= window.start.value {
        plans, window, backupRef := begunPlans, begunWindow, begunBackup;
        return Some(AIOPS(8211));
      }
      return None;
    }

    method SubmitForApproval(now: Time) returns (error: Option<Error>)
      modifies this
      ensures error.None? ==> Submit(old(Contents()), now) == Ok(Contents())
      ensures error.Some? ==> Submit(old(Contents()), now) == Err(error.value) && Contents() == old(Contents())
    {
      var target := if policy.requiredApprovals > 0 then PendingApproval else Approved;
      if !Allowed(status, target) {
        return Some(AIOPS(8209));
      }
      if Controlled(policy) && !PlansComplete(plans) {
        return Some(AIOPS(8212));
      }
      status := target;
      stamps := stamps.(submittedAt := Some(now));
      if target == Approved {
        stamps := stamps.(approvedAt := Some(now));
      }
      timeline := timeline + [target];
      return None;
    }

    method RecordDecision(user: UserId, approves: bool, now: Time) returns (error: Option<Error>)
      modifies this
      ensures error.None? ==> Decide(old(Contents()), user, approves, now) == Ok(Contents())
      ensures error.Some? ==>
          Decide(old(Contents()), user, approves, now) == Err(error.value) && Contents() == old(Contents())
    {
      if status != PendingApproval {
        return Some(AIOPS(8213));
      }
      if policy.requestedBy == user {
        return Some(AIOPS(8214));
      }
      if HasDecided(decisions, user) {
        return Some(AIOPS(8215));
      }
      decisions := decisions + [Decision(user, approves)];
      if !approves {
        status := Rejected;
      } else if Approvals(decisions) >= policy.requiredApprovals {
        status := Approved;
        stamps := stamps.(approvedAt := Some(now));
      }
      timeline := timeline + [status];
      return None;
    }

    method MoveTo(target: Status, reason: Option<string>, now: Time) returns (error: Option<Error>)
      requires target in SETTABLE && (target == Failed || target == RolledBack ==> Filled(reason))
      modifies this
      ensures error.None? ==> SetStatus(old(Contents()), target, reason, now) == Ok(Contents())
      ensures error.Some? ==>
          SetStatus(old(Contents()), target, reason, now) == Err(error.value) && Contents() == old(Contents())
    {
      if !Allowed(status, target) {
        return Some(AIOPS(8209));
      }
      if target == InProgress {
        if Controlled(policy) {
          if stamps.approvedAt.None? {
            return Some(AIOPS(8216));
          }
          if window.start.None? || window.end.None? {
            return Some(AIOPS(8217));
          }
          if !(window.start.value <= now <= window.end.value) {
            return Some(AIOPS(8218));
          }
        }
        stamps := stamps.(startedAt := Some(now));
      }
      if target == Completed || target == Failed || target == RolledBack {
        stamps := stamps.(completedAt := Some(now));
      }
      status := target;
      failureReason := reason;
      timeline := timeline + [target];
      return None;
    }
  }
}
