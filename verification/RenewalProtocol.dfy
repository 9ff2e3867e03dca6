/**
  Certificate renewal as a two-party protocol: one agent with its file and
  memory, one control plane row, and a channel that loses requests and replies.

  Channel assumption: requests are processed in the order they were sent. An
  abandoned request may still commit, but never after a later one. Any request
  or reply may be lost, and the agent may crash between any two steps.
  `OvertakenRequestStrandsAgent` shows that the order matters.
 */
module RenewalProtocol {
  import opened Wrappers
  import opened AgentCertificates
  import opened AgentIdentity

  datatype Request = Request(id: RequestId, presented: Certificate, csr: Csr)

  /** `serials` are all serials ever issued; `renewBefore` is the agent's lead time. */
  datatype System = System(
    now: Time,
    settings: Settings,
    renewBefore: Time,
    row: EdgeAgent,
    agent: Agent,
    requests: seq<Request>,
    replies: map<RequestId, Certificate>,
    nextId: RequestId,
    serials: set<Serial>)

  datatype Event =
    | Tick(elapsed: nat)
    | Heartbeat
    | Disable
    | Begin(generated: PendingRenewal, saveOk: bool)
    | PublishPending
    | Send
    | LoseRequest(position: nat)
    | Serve(issuance: Issuance)
    | Deliver
    | Abandon
    | SaveRenewed(saveOk: bool)
    | Activate
    | Crash

  /** A system just after enrollment, with the exact expiry of the first certificate. */
  function Enrolled(first: Certificate, notAfter: Time, now: Time, settings: Settings, renewBefore: Time): System {
    var identity := Identity(first, first.key, None);
    System(now, settings, renewBefore,
           EdgeAgent(Registered, first.serial, first.fingerprint, notAfter, None, None, None, None),
           Agent(identity, identity, first, Idle), [], map[], 0, {first.serial})
  }

  /** The control plane takes the oldest request in flight. */
  function ServeOldest(s: System, issuance: Issuance): System {
    if s.requests == [] || issuance.serial in s.serials then s
    else
      var r := s.requests[0];
      var (row, answer) := HandleRenewal(s.row, r.presented, r.csr, issuance, s.now, s.settings);
      s.(row := row,
         requests := s.requests[1..],
         replies := if answer.Ok? then s.replies[r.id := answer.value] else s.replies,
         serials := if answer.Ok? then s.serials + {issuance.serial} else s.serials)
  }

  /** A heartbeat puts an accepted, current certificate's agent online. */
  function ServeHeartbeat(s: System): System {
    var authenticated := GetCurrentAgent(s.row, s.agent.http, s.now);
    if authenticated.Ok? && authenticated.value.isCurrent then s.(row := s.row.(status := Online)) else s
  }

  /** One step; an event that is not enabled leaves the system as it is. */
  function Step(s: System, e: Event): System {
    match e
    case Tick(elapsed) => s.(now := s.now + elapsed)
    case Heartbeat => ServeHeartbeat(s)
    case Disable => s.(row := s.row.(status := Disabled))
    case Begin(generated, saveOk) =>
      if !ValidPending(generated) then s
      else s.(agent := AgentIdentity.Begin(s.agent, s.now, s.renewBefore, generated, saveOk))
    case PublishPending => s.(agent := AgentIdentity.PublishPending(s.agent))
    case Send =>
      if !s.agent.phase.ReadyToSend? || s.agent.identity.pending.None? then s
      else s.(agent := s.agent.(phase := AwaitingReply(s.nextId)),
              requests := s.requests + [Request(s.nextId, s.agent.http, s.agent.identity.pending.value.csr)],
              nextId := s.nextId + 1)
    case LoseRequest(position) =>
      if position >= |s.requests| then s
      else s.(requests := s.requests[..position] + s.requests[position + 1..])
    case Serve(issuance) => ServeOldest(s, issuance)
    case Deliver =>
      if s.agent.phase.AwaitingReply? && s.agent.phase.id in s.replies
      then s.(agent := Receive(s.agent, s.replies[s.agent.phase.id], s.now))
      else s
    case Abandon => s.(agent := AgentIdentity.Abandon(s.agent))
    case SaveRenewed(saveOk) => s.(agent := AgentIdentity.SaveRenewed(s.agent, saveOk))
    case Activate => s.(agent := AgentIdentity.Activate(s.agent))
    case Crash => s.(agent := Restart(s.agent))
  }

  function Run(s: System, events: seq<Event>): System
    decreases |events|
  {
    if events == [] then s else Run(Step(s, events[0]), events[1..])
  }

  // ---------------------------------------------------------------- invariant

  /** The saved certificate is one the control plane still accepts for renewal. */
  predicate SavedCertificateKnown(s: System) {
    || RecordsCurrent(s.row, s.agent.disk.certificate)
    || (&& RecordsPrevious(s.row, s.agent.disk.certificate)
        && s.agent.disk.pending.Some?
        && s.row.lastRenewalCsr == Some(s.agent.disk.pending.value.csr.fingerprint))
  }

  predicate SerialsRecorded(s: System) {
    && WellFormed(s.row)
    && s.row.serial in s.serials
    && (s.row.previousSerial.Some? ==> s.row.previousSerial.value in s.serials)
  }

  predicate KeysMatch(i: Identity) {
    && i.privateKey == i.certificate.key
    && (i.pending.Some? ==> ValidPending(i.pending.value))
  }

  /** How file and memory may differ at each point of a renewal. */
  predicate LocalConsistent(a: Agent) {
    && KeysMatch(a.disk) && KeysMatch(a.identity) && a.http == a.identity.certificate
    && match a.phase {
         case Idle => a.disk == a.identity
         case PendingOnDisk(saved) => a.disk == saved && saved.pending.Some? && a.identity == saved.(pending := None)
         case ReadyToSend => a.disk == a.identity && a.disk.pending.Some?
         case AwaitingReply(_) => a.disk == a.identity && a.disk.pending.Some?
         case Validated(renewed) => a.disk == a.identity && a.disk.pending.Some? && KeysMatch(renewed)
           && renewed.pending.None?
         case RenewedOnDisk(renewed) => a.disk == renewed && renewed.pending.None?
       }
  }

  /** Every request in flight repeats the saved certificate and signing request. */
  predicate RequestsRepeatSaved(s: System) {
    && (forall i :: 0 <= i < |s.requests| ==>
          && s.requests[i].id < s.nextId
          && s.requests[i].presented == s.agent.disk.certificate
          && s.agent.disk.pending.Some?
          && s.requests[i].csr == s.agent.disk.pending.value.csr)
    && (forall i, j :: 0 <= i < j < |s.requests| ==> s.requests[i].id < s.requests[j].id)
    && (forall i :: 0 <= i < |s.requests| ==> s.requests[i].id !in s.replies)
    && (forall id :: id in s.replies ==> id < s.nextId)
  }

  /** Once the awaited reply exists nothing is in flight, and the reply is the current certificate. */
  predicate ReplyIsCurrent(s: System) {
    match s.agent.phase
    case AwaitingReply(id) =>
      && id < s.nextId
      && (forall i :: 0 <= i < |s.requests| ==> s.requests[i].id <= id)
      && (id in s.replies ==>
            && s.requests == []
            && RecordsCurrent(s.row, s.replies[id])
            && s.agent.disk.pending.Some?
            && s.replies[id].key == s.agent.disk.pending.value.privateKey)
    case Validated(renewed) => s.requests == [] && RecordsCurrent(s.row, renewed.certificate)
    case RenewedOnDisk(renewed) => s.requests == [] && RecordsCurrent(s.row, renewed.certificate)
    case _ => true
  }

  predicate Inv(s: System) {
    && SerialsRecorded(s)
    && LocalConsistent(s.agent)
    && RequestsRepeatSaved(s)
    && ReplyIsCurrent(s)
    && SavedCertificateKnown(s)
  }

  lemma EnrolledInv(first: Certificate, notAfter: Time, now: Time, settings: Settings, renewBefore: Time)
    requires first.notAfter == WholeSeconds(notAfter)
    ensures Inv(Enrolled(first, notAfter, now, settings, renewBefore))
  {
  }

  lemma ServeKeepsInv(s: System, issuance: Issuance)
    requires Inv(s)
    ensures Inv(ServeOldest(s, issuance))
  {
    if s.requests != [] && issuance.serial !in s.serials {
      var r := s.requests[0];
      RenewalOutcome(s.row, r.presented, r.csr, issuance, s.now, s.settings);
      var s' := ServeOldest(s, issuance);
      assert forall i :: 0 <= i < |s'.requests| ==> s'.requests[i] == s.requests[i + 1];
      assert |s.requests| > 1 ==> r.id < s.requests[1].id;
    }
  }

  /** Steps the agent takes on its own leave everything else alone. */
  lemma AgentStepKeepsInv(s: System, agent: Agent)
    requires Inv(s)
    requires LocalConsistent(agent)
    requires agent.disk.certificate == s.agent.disk.certificate
    requires agent.disk.pending == s.agent.disk.pending || s.agent.disk.pending.None?
    requires agent.phase.AwaitingReply? ==> agent.phase == s.agent.phase
    requires agent.phase.Validated? ==>
      s.requests == [] && RecordsCurrent(s.row, agent.phase.renewed.certificate)
    requires !agent.phase.RenewedOnDisk?
    ensures Inv(s.(agent := agent))
  {
  }

  lemma SendKeepsInv(s: System)
    requires Inv(s)
    ensures Inv(Step(s, Send))
  {
    var s' := Step(s, Send);
    if s.agent.phase.ReadyToSend? && s.agent.identity.pending.Some? {
      assert forall i :: 0 <= i < |s.requests| ==> s'.requests[i] == s.requests[i];
    }
  }

  lemma LoseKeepsInv(s: System, position: nat)
    requires Inv(s)
    ensures Inv(Step(s, LoseRequest(position)))
  {
    if position < |s.requests| {
      var s' := Step(s, LoseRequest(position));
      assert forall i :: 0 <= i < |s'.requests| ==> s'.requests[i] == s.requests[if i < position then i else i + 1];
    }
  }

  /** The agent's writes of the renewed identity: nothing is in flight then. */
  lemma InstallKeepsInv(s: System, e: Event)
    requires Inv(s) && (e.SaveRenewed? || e.Activate? || e.Crash?)
    ensures Inv(Step(s, e))
  {
  }

  /** Time and the agent's status: no certificate is touched. */
  lemma StatusKeepsInv(s: System, now: Time, status: AgentStatus)
    requires Inv(s)
    ensures Inv(s.(now := now, row := s.row.(status := status)))
  {
    forall c: Certificate
      ensures RecordsCurrent(s.row.(status := status), c) == RecordsCurrent(s.row, c)
      ensures RecordsPrevious(s.row.(status := status), c) == RecordsPrevious(s.row, c)
    {
    }
    var t := s.(now := now, row := s.row.(status := status));
    assert SerialsRecorded(t) && RequestsRepeatSaved(t) && SavedCertificateKnown(t) && ReplyIsCurrent(t);
  }

  lemma OutsideKeepsInv(s: System, e: Event)
    requires Inv(s) && (e.Tick? || e.Heartbeat? || e.Disable?)
    ensures Inv(Step(s, e))
  {
    var t := Step(s, e);
    assert t == s.(now := t.now, row := s.row.(status := t.row.status));
    StatusKeepsInv(s, t.now, t.row.status);
  }

  lemma BeginKeepsInv(s: System, generated: PendingRenewal, saveOk: bool)
    requires Inv(s)
    ensures Inv(Step(s, Begin(generated, saveOk)))
  {
    if ValidPending(generated) && s.agent.phase.Idle? {
      AgentStepKeepsInv(s, AgentIdentity.Begin(s.agent, s.now, s.renewBefore, generated, saveOk));
    }
  }

  lemma PublishKeepsInv(s: System)
    requires Inv(s)
    ensures Inv(Step(s, PublishPending))
  {
    if s.agent.phase.PendingOnDisk? {
      AgentStepKeepsInv(s, AgentIdentity.PublishPending(s.agent));
    }
  }

  lemma ReplyKeepsInv(s: System, e: Event)
    requires Inv(s) && (e.Deliver? || e.Abandon?)
    ensures Inv(Step(s, e))
  {
    if s.agent.phase.AwaitingReply? {
      AgentStepKeepsInv(s, AgentIdentity.Abandon(s.agent));
      if s.agent.phase.id in s.replies {
        AgentStepKeepsInv(s, Receive(s.agent, s.replies[s.agent.phase.id], s.now));
      }
    }
  }

  lemma StepKeepsInv(s: System, e: Event)
    requires Inv(s)
    ensures Inv(Step(s, e))
  {
    match e
    case Begin(generated, saveOk) => BeginKeepsInv(s, generated, saveOk);
    case PublishPending => PublishKeepsInv(s);
    case Send => SendKeepsInv(s);
    case LoseRequest(position) => LoseKeepsInv(s, position);
    case Serve(issuance) => ServeKeepsInv(s, issuance);
    case Deliver => ReplyKeepsInv(s, e);
    case Abandon => ReplyKeepsInv(s, e);
    case SaveRenewed(_) => InstallKeepsInv(s, e);
    case Activate => InstallKeepsInv(s, e);
    case Crash => InstallKeepsInv(s, e);
    case Tick(_) => OutsideKeepsInv(s, e);
    case Heartbeat => OutsideKeepsInv(s, e);
    case Disable => OutsideKeepsInv(s, e);
  }

  lemma {:induction false} RunKeepsInv(s: System, events: seq<Event>)
    requires Inv(s)
    ensures Inv(Run(s, events))
    decreases |events|
  {
    if events != [] {
      StepKeepsInv(s, events[0]);
      RunKeepsInv(Step(s, events[0]), events[1..]);
    }
  }

  // ---------------------------------------------------------------- theorems

  /**
    In every reachable state, with crashes and losses anywhere, the certificate
    on the agent's disk is the control plane's current one, or its previous one
    together with a saved signing request equal to the recorded one; and the
    saved private key is that certificate's.
   */
  lemma SavedCertificateAlwaysKnown(first: Certificate, notAfter: Time, now: Time, settings: Settings,
                                    renewBefore: Time, events: seq<Event>)
    requires first.notAfter == WholeSeconds(notAfter)
    ensures var s := Run(Enrolled(first, notAfter, now, settings, renewBefore), events);
      && SavedCertificateKnown(s)
      && s.agent.disk.privateKey == s.agent.disk.certificate.key
  {
    EnrolledInv(first, notAfter, now, settings, renewBefore);
    RunKeepsInv(Enrolled(first, notAfter, now, settings, renewBefore), events);
  }

  /**
    No request is ever refused as unknown or mismatched: the oldest request in
    flight gets a certificate exactly when the agent is enabled, the saved
    certificate is unexpired and, if it is still current, inside the window.
   */
  lemma RequestNeverUnknown(s: System, issuance: Issuance)
    requires Inv(s) && s.requests != []
    ensures var r := s.requests[0];
      var answer := HandleRenewal(s.row, r.presented, r.csr, issuance, s.now, s.settings).1;
      && (answer.Ok? <==>
            && s.row.status != Disabled
            && s.now < s.agent.disk.certificate.notAfter
            && (RecordsCurrent(s.row, s.agent.disk.certificate) ==> s.row.notAfter <= s.now + s.settings.renewalWindow))
      && (answer.Err? ==>
            answer.error in {CredentialRefused(AgentDisabled), CredentialRefused(Expired), OutsideRenewalWindow})
      && (answer.Ok? ==> answer.value.key == s.agent.disk.pending.value.privateKey)
  {
    var r := s.requests[0];
    RenewalOutcome(s.row, r.presented, r.csr, issuance, s.now, s.settings);
  }

  /** File, memory and control plane hold one certificate, certified for the saved key. */
  predicate Agreed(s: System) {
    && s.agent.phase.Idle?
    && s.agent.disk == s.agent.identity
    && s.agent.http == s.agent.disk.certificate
    && s.agent.disk.pending.None?
    && s.agent.disk.privateKey == s.agent.disk.certificate.key
    && RecordsCurrent(s.row, s.agent.disk.certificate)
  }

  /** Wherever a run stands, one delivered and still valid reply restores agreement. */
  lemma DeliveredReplyRestoresAgreement(s: System)
    requires Inv(s)
    requires s.agent.phase.AwaitingReply? && s.agent.phase.id in s.replies
    requires s.now < s.replies[s.agent.phase.id].notAfter
    ensures var t := Run(s, [Deliver, SaveRenewed(true), Activate]);
      Agreed(t) && t.agent.disk.certificate == s.replies[s.agent.phase.id]
  {
    var a := Step(s, Deliver);
    var b := Step(a, SaveRenewed(true));
    assert Run(s, [Deliver, SaveRenewed(true), Activate]) == Run(a, [SaveRenewed(true), Activate]);
    assert Run(a, [SaveRenewed(true), Activate]) == Run(b, [Activate]);
    assert Run(b, [Activate]) == Step(b, Activate);
    StepKeepsInv(s, Deliver);
  }

  lemma {:induction false} RunAppend(s: System, first: seq<Event>, second: seq<Event>)
    ensures Run(s, first + second) == Run(Run(s, first), second)
    decreases |first|
  {
    if first == [] {
      assert first + second == second;
    } else {
      assert (first + second)[1..] == first[1..] + second;
      RunAppend(Step(s, first[0]), first[1..], second);
    }
  }

  /** The conditions under which the control plane renews the saved certificate. */
  predicate Renewable(s: System) {
    && s.row.status != Disabled
    && s.now < s.agent.disk.certificate.notAfter
    && (RecordsCurrent(s.row, s.agent.disk.certificate) ==> s.row.notAfter <= s.now + s.settings.renewalWindow)
  }

  /** `count` requests served in order, with fresh serials `base`, `base + 1`, ... */
  function ServeAll(base: Serial, count: nat): (events: seq<Event>)
    ensures |events| == count
    decreases count
  {
    if count == 0 then [] else [Serve(Issuance(base, base))] + ServeAll(base + 1, count - 1)
  }

  /** Processing one request in flight, wherever it stands. */
  function ServeAt(s: System, position: nat, issuance: Issuance): System
    requires position < |s.requests|
  {
    var r := s.requests[position];
    var (row, answer) := HandleRenewal(s.row, r.presented, r.csr, issuance, s.now, s.settings);
    s.(row := row, requests := s.requests[..position] + s.requests[position + 1..],
       replies := if answer.Ok? then s.replies[r.id := answer.value] else s.replies,
       serials := if answer.Ok? then s.serials + {issuance.serial} else s.serials)
  }

  /** The row would renew `saved` for `csr`. */
  predicate WouldRenew(row: EdgeAgent, saved: Certificate, csr: Csr, now: Time, settings: Settings) {
    && row.status != Disabled && now < saved.notAfter && csr.signatureValid && WellFormed(row)
    && (RecordsCurrent(row, saved) ==> row.notAfter <= now + settings.renewalWindow)
    && (RecordsCurrent(row, saved)
        || (RecordsPrevious(row, saved) && row.lastRenewalCsr == Some(csr.fingerprint)))
  }

  predicate AllRepeat(requests: seq<Request>, saved: Certificate, csr: Csr) {
    forall i :: 0 <= i < |requests| ==> requests[i].presented == saved && requests[i].csr == csr
  }

  /** Every request in flight repeats one certificate and signing request, which the row would renew. */
  predicate Answering(s: System, saved: Certificate, csr: Csr) {
    && WouldRenew(s.row, saved, csr, s.now, s.settings) && AllRepeat(s.requests, saved, csr)
    && s.row.serial in s.serials && saved.serial in s.serials
  }

  lemma InvIsAnswering(s: System) returns (csr: Csr)
    requires Inv(s) && Renewable(s) && s.requests != []
    ensures s.agent.disk.pending.Some? && csr == s.agent.disk.pending.value.csr
    ensures Answering(s, s.agent.disk.certificate, csr)
  {
    csr := s.requests[0].csr;
    assert s.requests[0].presented == s.agent.disk.certificate;
  }

  /** What a certificate issued now carries as its end. */
  function Expiry(s: System): Time {
    WholeSeconds(s.now + s.settings.ttl)
  }

  function Answer(s: System, csr: Csr, issuance: Issuance): Certificate {
    Certificate(issuance.serial, csr.key, Expiry(s), issuance.fingerprint)
  }

  lemma RenewedRow(row: EdgeAgent, saved: Certificate, csr: Csr, issuance: Issuance, now: Time, settings: Settings)
    requires WouldRenew(row, saved, csr, now, settings) && issuance.serial != saved.serial
    ensures var (row', answer) := HandleRenewal(row, saved, csr, issuance, now, settings);
      && answer == Ok(Certificate(issuance.serial, csr.key, WholeSeconds(now + settings.ttl), issuance.fingerprint))
      && RecordsCurrent(row', answer.value) && row'.serial == issuance.serial
      && WouldRenew(row', saved, csr, now, settings)
  {
    RenewalOutcome(row, saved, csr, issuance, now, settings);
  }

  /** Whichever request is processed, its answer becomes current, and the others can still be answered. */
  lemma ServeAtEffect(s: System, position: nat, issuance: Issuance, saved: Certificate, csr: Csr)
    requires Answering(s, saved, csr) && position < |s.requests| && issuance.serial !in s.serials
    ensures var t := ServeAt(s, position, issuance);
      && Answering(t, saved, csr) && RecordsCurrent(t.row, Answer(s, csr, issuance))
      && t.replies == s.replies[s.requests[position].id := Answer(s, csr, issuance)]
      && t.serials == s.serials + {issuance.serial} && t.agent == s.agent && t.now == s.now && t.settings == s.settings
  {
    RenewedRow(s.row, saved, csr, issuance, s.now, s.settings);
    var t := ServeAt(s, position, issuance);
    forall i | 0 <= i < |t.requests|
      ensures t.requests[i].presented == saved && t.requests[i].csr == csr
    {
      assert t.requests[i] == s.requests[if i < position then i else i + 1];
    }
  }

  predicate SerialsBelow(serials: set<Serial>, base: Serial) {
    forall serial :: serial in serials ==> serial < base
  }

  lemma ServeIsServeAt(s: System, issuance: Issuance)
    requires s.requests != [] && issuance.serial !in s.serials
    ensures Step(s, Serve(issuance)) == ServeAt(s, 0, issuance)
  {
    assert s.requests[..0] + s.requests[1..] == s.requests[1..];
  }

  lemma ServeAllUnfolds(s: System, base: Serial, count: nat)
    requires count > 0
    ensures Run(s, ServeAll(base, count)) == Run(Step(s, Serve(Issuance(base, base))), ServeAll(base + 1, count - 1))
  {
    assert ServeAll(base, count)[1..] == ServeAll(base + 1, count - 1);
  }

  predicate HasReply(s: System, id: RequestId, expiry: Time) {
    id in s.replies && s.replies[id].notAfter == expiry
  }

  lemma FirstServed(s: System, issuance: Issuance, saved: Certificate, csr: Csr) returns (t: System)
    requires Answering(s, saved, csr) && s.requests != [] && issuance.serial !in s.serials
    ensures t == Step(s, Serve(issuance)) && Answering(t, saved, csr) && t.requests == s.requests[1..]
    ensures t.agent == s.agent && t.now == s.now && t.settings == s.settings
    ensures t.serials == s.serials + {issuance.serial} && HasReply(t, s.requests[0].id, Expiry(s))
  {
    ServeIsServeAt(s, issuance);
    ServeAtEffect(s, 0, issuance, saved, csr);
    t := ServeAt(s, 0, issuance);
  }

  lemma ServeFirst(s: System, base: Serial, saved: Certificate, csr: Csr) returns (t: System)
    requires Answering(s, saved, csr) && s.requests != [] && SerialsBelow(s.serials, base)
    ensures Run(s, ServeAll(base, |s.requests|)) == Run(t, ServeAll(base + 1, |t.requests|))
    ensures Answering(t, saved, csr) && SerialsBelow(t.serials, base + 1) && t.requests == s.requests[1..]
    ensures t.agent == s.agent && t.now == s.now && t.settings == s.settings
    ensures HasReply(t, s.requests[0].id, Expiry(s))
  {
    t := FirstServed(s, Issuance(base, base), saved, csr);
    ServeAllUnfolds(s, base, |s.requests|);
  }

  /** Processing the requests in flight in order ends with an answer for the newest. */
  lemma {:induction false} ServeAllAnswersLast(s: System, base: Serial, saved: Certificate, csr: Csr)
    requires Answering(s, saved, csr) && s.requests != [] && SerialsBelow(s.serials, base)
    ensures var t := Run(s, ServeAll(base, |s.requests|));
      && HasReply(t, s.requests[|s.requests| - 1].id, Expiry(s))
      && t.agent == s.agent && t.now == s.now && t.settings == s.settings
    decreases |s.requests|
  {
    var t := ServeFirst(s, base, saved, csr);
    if |s.requests| > 1 {
      ServeAllAnswersLast(t, base + 1, saved, csr);
    }
  }

  /** The agent awaits the reply to the newest request in flight, and the serials from `base` on are fresh. */
  predicate AwaitsNewest(s: System, base: Serial) {
    && s.agent.phase.AwaitingReply? && s.requests != [] && s.requests[|s.requests| - 1].id == s.agent.phase.id
    && SerialsBelow(s.serials, base)
  }

  /** Serving every request in flight, oldest first, ends with a reply for the newest one. */
  lemma DrainAnswersNewest(s: System, base: Serial)
    requires Inv(s) && Renewable(s) && AwaitsNewest(s, base)
    ensures var t := Run(s, ServeAll(base, |s.requests|));
      && Inv(t) && t.agent == s.agent && t.now == s.now && t.settings == s.settings
      && HasReply(t, s.agent.phase.id, Expiry(s))
  {
    var csr := InvIsAnswering(s);
    ServeAllAnswersLast(s, base, s.agent.disk.certificate, csr);
    RunKeepsInv(s, ServeAll(base, |s.requests|));
  }

  lemma FreshOutlivesNow(s: System)
    requires s.settings.ttl >= SECOND
    ensures s.now < Expiry(s)
  {
  }

  lemma InstallFresh(s: System, expiry: Time)
    requires Inv(s) && s.agent.phase.AwaitingReply? && HasReply(s, s.agent.phase.id, expiry) && s.now < expiry
    ensures var t := Run(s, [Deliver, SaveRenewed(true), Activate]);
      Agreed(t) && t.agent.disk.certificate.notAfter == expiry
  {
    DeliveredReplyRestoresAgreement(s);
  }

  lemma DrainThenInstall(s: System, base: Serial, expiry: Time)
    requires Inv(s) && Renewable(s) && AwaitsNewest(s, base)
    requires s.now < expiry == Expiry(s)
    ensures var t := Run(Run(s, ServeAll(base, |s.requests|)), [Deliver, SaveRenewed(true), Activate]);
      Agreed(t) && t.agent.disk.certificate.notAfter == expiry
  {
    DrainAnswersNewest(s, base);
    InstallFresh(Run(s, ServeAll(base, |s.requests|)), expiry);
  }

  function Starting(generated: PendingRenewal): seq<Event> {
    [Begin(generated, true), PublishPending, Send]
  }

  /** The complete recovery: start, send, drain what is in flight, deliver, save, activate. */
  function Recovery(s: System, generated: PendingRenewal, base: Serial): seq<Event> {
    Starting(generated) + ServeAll(base, |s.requests| + 1) + [Deliver, SaveRenewed(true), Activate]
  }

  lemma RecoverySplits(s: System, generated: PendingRenewal, base: Serial)
    ensures Run(s, Recovery(s, generated, base))
            == Run(Run(Run(s, Starting(generated)), ServeAll(base, |s.requests| + 1)),
                   [Deliver, SaveRenewed(true), Activate])
  {
    var drain := ServeAll(base, |s.requests| + 1);
    RunAppend(s, Starting(generated) + drain, [Deliver, SaveRenewed(true), Activate]);
    RunAppend(s, Starting(generated), drain);
  }

  lemma StartCanDrain(s: System, generated: PendingRenewal, base: Serial)
    requires Inv(s) && Renewable(s) && s.agent.phase.Idle? && SerialsBelow(s.serials, base)
    requires RenewalDue(s.agent.disk, s.now, s.renewBefore) && ValidPending(generated)
    ensures var w := Run(s, Starting(generated));
      && Inv(w) && Renewable(w) && AwaitsNewest(w, base) && |w.requests| == |s.requests| + 1
      && w.now == s.now && w.settings == s.settings
  {
    RunReachesWaiting(s, generated);
  }

  lemma StartThenDrain(s: System, generated: PendingRenewal, base: Serial)
    requires Inv(s) && Renewable(s) && s.agent.phase.Idle?
    requires RenewalDue(s.agent.disk, s.now, s.renewBefore) && ValidPending(generated)
    requires s.settings.ttl >= SECOND && SerialsBelow(s.serials, base)
    ensures var t := Run(Run(Run(s, Starting(generated)), ServeAll(base, |s.requests| + 1)),
                         [Deliver, SaveRenewed(true), Activate]);
      Agreed(t) && t.agent.disk.certificate.notAfter == Expiry(s)
  {
    StartCanDrain(s, generated, base);
    FreshOutlivesNow(s);
    DrainThenInstall(Run(s, Starting(generated)), base, Expiry(s));
  }

  /**
    Renewal is always recoverable: from any reachable state in which the agent
    is between renewals, enabled, and holds a due, unexpired certificate (in
    the window if it is current), the next renewal succeeds and leaves file,
    memory and control plane on one certificate for the saved key, whatever
    older requests are still in flight.
   */
  lemma RenewalRecovers(s: System, generated: PendingRenewal, base: Serial)
    requires Inv(s) && Renewable(s) && s.agent.phase.Idle?
    requires RenewalDue(s.agent.disk, s.now, s.renewBefore)
    requires s.settings.ttl >= SECOND
    requires ValidPending(generated)
    requires SerialsBelow(s.serials, base)
    ensures var t := Run(s, Recovery(s, generated, base));
      Agreed(t) && t.agent.disk.certificate.notAfter == Expiry(s)
  {
    RecoverySplits(s, generated, base);
    StartThenDrain(s, generated, base);
  }

  /** A restart first makes the same true wherever in a renewal the agent stood. */
  lemma RestartThenRenewalRecovers(s: System, generated: PendingRenewal, base: Serial)
    requires Inv(s) && Renewable(s)
    requires RenewalDue(s.agent.disk, s.now, s.renewBefore)
    requires s.settings.ttl >= SECOND
    requires ValidPending(generated)
    requires SerialsBelow(s.serials, base)
    ensures var restarted := Step(s, Crash);
      Agreed(Run(restarted, Recovery(restarted, generated, base)))
  {
    StepKeepsInv(s, Crash);
    RenewalRecovers(Step(s, Crash), generated, base);
  }

  lemma RunReachesWaiting(s: System, generated: PendingRenewal)
    requires Inv(s) && Renewable(s) && s.agent.phase.Idle?
    requires RenewalDue(s.agent.disk, s.now, s.renewBefore) && ValidPending(generated)
    ensures var w := Run(s, Starting(generated));
      && Inv(w) && Renewable(w)
      && w.agent.phase == AwaitingReply(s.nextId) && w.agent.disk.certificate == s.agent.disk.certificate
      && |w.requests| == |s.requests| + 1 && w.requests[|s.requests|].id == s.nextId
      && w.serials == s.serials && w.now == s.now && w.settings == s.settings && w.renewBefore == s.renewBefore
  {
    var a := Step(s, Begin(generated, true));
    var b := Step(a, PublishPending);
    assert Run(s, Starting(generated)) == Run(a, [PublishPending, Send]);
    assert Run(a, [PublishPending, Send]) == Run(b, [Send]);
    assert Run(b, [Send]) == Step(b, Send);
    RunKeepsInv(s, Starting(generated));
  }

  // ------------------------------------------------------- time and status

  /** Time only passes, a disable only sets the status, and a heartbeat is taken from the current certificate only. */
  lemma ClockAndStatusOutcome(s: System, elapsed: nat)
    ensures Step(s, Tick(elapsed)) == s.(now := s.now + elapsed)
    ensures Step(s, Disable) == s.(row := s.row.(status := Disabled))
    ensures Step(s, Heartbeat) ==
      if s.row.status != Disabled && s.row.serial == s.agent.http.serial
         && s.row.fingerprint == s.agent.http.fingerprint && s.now < s.agent.http.notAfter && s.now < s.row.notAfter
      then s.(row := s.row.(status := Online)) else s
  {
    AuthenticatesExactlyRecorded(s.row, s.agent.http, s.now);
  }

  /** After an enrollment agent and control plane agree, and nothing is on its way. */
  lemma EnrolledIsAgreed(first: Certificate, notAfter: Time, now: Time, settings: Settings, renewBefore: Time)
    requires first.notAfter == WholeSeconds(notAfter)
    ensures var s := Enrolled(first, notAfter, now, settings, renewBefore);
      && Agreed(s) && s.agent.disk.certificate == first && s.requests == [] && s.replies == map[]
      && s.row.status == Registered && s.row.notAfter == notAfter && s.now == now
  {
  }

  /** An agent that agrees with the control plane comes online with its next heartbeat, unless disabled or expired. */
  lemma AgreedAgentComesOnline(s: System)
    requires Agreed(s)
    ensures Step(s, Heartbeat).row.status == Online
      <==> s.row.status == Online || (s.row.status != Disabled && s.now < s.agent.disk.certificate.notAfter)
  {
    ClockAndStatusOutcome(s, 0);
  }

  lemma DisabledStep(s: System, e: Event)
    requires s.row.status == Disabled
    ensures Step(s, e).row == s.row && Step(s, e).replies == s.replies
  {
    if e.Serve? && s.requests != [] {
      AuthenticatesExactlyRecorded(s.row, s.requests[0].presented, s.now);
    }
    ClockAndStatusOutcome(s, 0);
  }

  /** Once disabled an agent stays disabled: in no run does its row change or a request get an answer. */
  lemma {:induction false} DisableIsFinal(s: System, events: seq<Event>)
    ensures var disabled := Step(s, Disable);
      Run(disabled, events).row == disabled.row && Run(disabled, events).replies == disabled.replies
    decreases |events|
  {
    var disabled := Step(s, Disable);
    if events != [] {
      DisabledStep(disabled, events[0]);
      var later := Step(disabled, events[0]);
      assert Step(later, Disable) == later;
      DisableIsFinal(later, events[1..]);
    }
  }

  // ------------------------------------------------- one call of the agent

  /** What happens outside the agent while it waits. */
  predicate Outside(e: Event) {
    e.Tick? || e.Heartbeat? || e.Disable? || e.LoseRequest? || e.Serve?
  }

  lemma {:induction false} OutsideKeepsAgent(s: System, events: seq<Event>)
    requires forall i :: 0 <= i < |events| ==> Outside(events[i])
    ensures Run(s, events).agent == s.agent
    decreases |events|
  {
    if events != [] {
      assert Outside(events[0]);
      OutsideKeepsAgent(Step(s, events[0]), events[1..]);
    }
  }

  function CallStarts(e: Encounter): seq<Event> {
    [Begin(e.generated, e.pendingSaveOk), PublishPending, Send]
  }

  function CallEnds(e: Encounter): seq<Event> {
    if e.reply.None? then [Abandon] else [Deliver, SaveRenewed(e.renewedSaveOk), Activate]
  }

  /** The encounter is what the call meets in this system: its clock, its request, and the reply that has arrived. */
  predicate Meets(sent: System, arrived: System, e: Encounter) {
    sent.agent.phase.AwaitingReply? && e.reply.Some? ==>
      && sent.agent.phase.id in arrived.replies && arrived.replies[sent.agent.phase.id] == e.reply.value
      && arrived.now == e.receivedAt
  }

  lemma CallSends(s: System, e: Encounter)
    requires s.agent.phase.Idle? && e.now == s.now && e.renewBefore == s.renewBefore && e.id == s.nextId
    requires ValidPending(e.generated)
    ensures var begun := AgentIdentity.Begin(s.agent, e.now, e.renewBefore, e.generated, e.pendingSaveOk);
      var ready := AgentIdentity.PublishPending(begun);
      && Run(s, CallStarts(e)).agent
        == (if ready.phase.ReadyToSend? then ready.(phase := AwaitingReply(e.id)) else ready)
      && !ready.phase.AwaitingReply? && (!ready.phase.ReadyToSend? ==> ready.phase.Idle?)
  {
    var a := Step(s, Begin(e.generated, e.pendingSaveOk));
    var b := Step(a, PublishPending);
    assert Run(s, CallStarts(e)) == Run(a, [PublishPending, Send]);
    assert Run(a, [PublishPending, Send]) == Run(b, [Send]);
    assert Run(b, [Send]) == Step(b, Send);
  }

  lemma CallReturns(s: System, e: Encounter)
    requires s.agent.phase.Idle? || s.agent.phase.AwaitingReply?
    requires Meets(s, s, e)
    ensures var waiting := s.agent;
      Run(s, CallEnds(e)).agent ==
        if waiting.phase.Idle? then waiting
        else if e.reply.None? then AgentIdentity.Abandon(waiting)
        else
          var received := Receive(waiting, e.reply.value, e.receivedAt);
          AgentIdentity.Activate(AgentIdentity.SaveRenewed(received, e.renewedSaveOk))
  {
    if e.reply.None? {
      assert Run(s, [Abandon]) == Step(s, Abandon);
    } else {
      var a := Step(s, Deliver);
      var b := Step(a, SaveRenewed(e.renewedSaveOk));
      assert Run(s, CallEnds(e)) == Run(a, [SaveRenewed(e.renewedSaveOk), Activate]);
      assert Run(a, [SaveRenewed(e.renewedSaveOk), Activate]) == Run(b, [Activate]);
      assert Run(b, [Activate]) == Step(b, Activate);
    }
  }

  /**
    One uninterrupted call of the agent is a run of the protocol: its first
    steps, whatever then happens outside, and its last steps. So what holds of
    every run holds around every call.
   */
  lemma CallIsARun(s: System, e: Encounter, outside: seq<Event>)
    requires Inv(s) && s.agent.phase.Idle?
    requires e.now == s.now && e.renewBefore == s.renewBefore && e.id == s.nextId && ValidPending(e.generated)
    requires forall i :: 0 <= i < |outside| ==> Outside(outside[i])
    requires Meets(Run(s, CallStarts(e)), Run(Run(s, CallStarts(e)), outside), e)
    ensures var t := Run(s, CallStarts(e) + outside + CallEnds(e));
      && t.agent == RenewCall(s.agent, e)
      && Inv(t) && SavedCertificateKnown(t)
  {
    var sent := Run(s, CallStarts(e));
    RunAppend(s, CallStarts(e) + outside, CallEnds(e));
    RunAppend(s, CallStarts(e), outside);
    RunKeepsInv(s, CallStarts(e) + outside + CallEnds(e));
    CallSends(s, e);
    OutsideKeepsAgent(sent, outside);
    CallReturns(Run(sent, outside), e);
  }

  // ---------------------------------------------------- why the order matters

  /** One request processed, and the values drawn for its answer. */
  datatype Serving = Serving(position: nat, issuance: Issuance)

  /** The requests in flight processed in any order. */
  function ServeInOrder(s: System, order: seq<Serving>): System
    requires CanServe(s, order)
    decreases |order|
  {
    if order == [] then s else ServeInOrder(ServeAt(s, order[0].position, order[0].issuance), order[1..])
  }

  /** Each position is that of a request still in flight, each serial fresh. */
  predicate CanServe(s: System, order: seq<Serving>)
    decreases |order|
  {
    order == [] ||
      (order[0].position < |s.requests| && order[0].issuance.serial !in s.serials
       && CanServe(ServeAt(s, order[0].position, order[0].issuance), order[1..]))
  }

  /** The request processed last. */
  function LastServed(s: System, order: seq<Serving>): RequestId
    requires CanServe(s, order) && order != []
    decreases |order|
  {
    if |order| == 1 then s.requests[order[0].position].id
    else LastServed(ServeAt(s, order[0].position, order[0].issuance), order[1..])
  }

  /** Whatever reply a request has, it was issued here for the signing request, or was there before. */
  predicate ReplyIssued(s: System, id: RequestId, csr: Csr, expiry: Time) {
    id in s.replies ==>
      s.replies[id].serial in s.serials && s.replies[id].key == csr.key && s.replies[id].notAfter == expiry
  }

  /** After any order the row records the answer to the last request, which no reply to another one shares. */
  lemma {:induction false} OrderEffect(s: System, order: seq<Serving>, saved: Certificate, csr: Csr, id: RequestId)
    requires Answering(s, saved, csr) && CanServe(s, order)
    requires ReplyIssued(s, id, csr, Expiry(s))
    ensures var t := ServeInOrder(s, order);
      && Answering(t, saved, csr) && ReplyIssued(t, id, csr, Expiry(s))
      && t.agent == s.agent && t.now == s.now && t.settings == s.settings && s.serials <= t.serials
      && (order != [] ==>
            && t.row.serial !in s.serials
            && (LastServed(s, order) == id <==> id in t.replies && t.replies[id].serial == t.row.serial)
            && (LastServed(s, order) == id ==> RecordsCurrent(t.row, t.replies[id])))
    decreases |order|
  {
    if order != [] {
      var v := order[0];
      ServeAtEffect(s, v.position, v.issuance, saved, csr);
      OrderEffect(ServeAt(s, v.position, v.issuance), order[1..], saved, csr, id);
    }
  }

  function Installing(): seq<Event> {
    [Deliver, SaveRenewed(true), Activate]
  }

  /** Installing a reply touches nothing but the agent. */
  lemma InstallEffect(s: System)
    requires s.agent.phase.AwaitingReply? && s.agent.phase.id in s.replies && s.agent.identity.pending.Some?
    requires s.now < s.replies[s.agent.phase.id].notAfter
    requires s.replies[s.agent.phase.id].key == s.agent.identity.pending.value.privateKey
    ensures var t := Run(s, Installing());
      var certificate := s.replies[s.agent.phase.id];
      var renewed := Identity(certificate, s.agent.identity.pending.value.privateKey, None);
      t == s.(agent := Agent(renewed, renewed, certificate, Idle))
  {
    var a := Step(s, Deliver);
    var b := Step(a, SaveRenewed(true));
    assert Run(s, Installing()) == Run(a, [SaveRenewed(true), Activate]);
    assert Run(a, [SaveRenewed(true), Activate]) == Run(b, [Activate]);
    assert Run(b, [Activate]) == Step(b, Activate);
  }

  /** What the agent holds after it has installed `certificate` and `rest` has been processed. */
  lemma KnownAfterInstall(s: System, rest: seq<Serving>, certificate: Certificate, saved: Certificate, csr: Csr)
    requires Answering(s, saved, csr) && CanServe(s, rest)
    requires s.agent.disk.certificate == certificate && s.agent.disk.pending.None? && certificate.serial in s.serials
    requires certificate.serial == s.row.serial ==> RecordsCurrent(s.row, certificate)
    ensures var t := ServeInOrder(s, rest);
      SavedCertificateKnown(t) <==> rest == [] && certificate.serial == s.row.serial
  {
    OrderFromHere(s, rest, saved, csr);
  }

  lemma {:induction false} OrderFromHere(s: System, rest: seq<Serving>, saved: Certificate, csr: Csr)
    requires Answering(s, saved, csr) && CanServe(s, rest)
    ensures var t := ServeInOrder(s, rest);
      && Answering(t, saved, csr) && t.agent == s.agent
      && (rest != [] ==> t.row.serial !in s.serials)
    decreases |rest|
  {
    if rest != [] {
      var v := rest[0];
      ServeAtEffect(s, v.position, v.issuance, saved, csr);
      OrderFromHere(ServeAt(s, v.position, v.issuance), rest[1..], saved, csr);
    }
  }

  /**
    Why the order of requests matters, exactly: let the requests in flight be
    processed in any order, and let the agent install the reply it awaits at any
    point once it is there, with `first` processed before and `rest` after. Then
    the installed certificate is known to the control plane if and only if the
    awaited request was the last one processed.
   */
  lemma KnownIffAwaitedServedLast(s: System, first: seq<Serving>, rest: seq<Serving>)
    requires Inv(s) && Renewable(s) && s.settings.ttl >= SECOND
    requires s.agent.phase.AwaitingReply? && s.requests != [] && CanServe(s, first)
    requires s.agent.phase.id in ServeInOrder(s, first).replies
    requires CanServe(Run(ServeInOrder(s, first), Installing()), rest)
    ensures var final := ServeInOrder(Run(ServeInOrder(s, first), Installing()), rest);
      && first != []
      && (SavedCertificateKnown(final) <==> rest == [] && LastServed(s, first) == s.agent.phase.id)
  {
    var id, saved := s.agent.phase.id, s.agent.disk.certificate;
    var csr := InvIsAnswering(s);
    OrderEffect(s, first, saved, csr, id);
    var served := ServeInOrder(s, first);
    InstallEffect(served);
    KnownAfterInstall(Run(served, Installing()), rest, served.replies[id], saved, csr);
  }

  /**
    In particular a request overtaken by its own retry replaces the serial the
    agent has just installed. Wherever a renewal that has been retried stands,
    processing the newest request first and then the oldest leaves the agent,
    which has installed the first answer, with a certificate the control plane
    refuses as unknown.
   */
  lemma OvertakenRequestStrandsAgent(s: System, newest: Issuance, oldest: Issuance)
    requires Inv(s) && Renewable(s) && s.settings.ttl >= SECOND
    requires |s.requests| >= 2 && s.agent.phase == AwaitingReply(s.requests[|s.requests| - 1].id)
    requires newest.serial !in s.serials && oldest.serial !in s.serials && newest.serial != oldest.serial
    ensures var installed := Run(ServeAt(s, |s.requests| - 1, newest), Installing());
      var stranded := Step(installed, Serve(oldest));
      && Agreed(installed)
      && !SavedCertificateKnown(stranded)
      && GetCurrentAgent(stranded.row, stranded.agent.http, stranded.now) == Err(CredentialRefused(UnknownSerial))
  {
    var saved := s.agent.disk.certificate;
    var csr := InvIsAnswering(s);
    var served := ServeAt(s, |s.requests| - 1, newest);
    ServeAtEffect(s, |s.requests| - 1, newest, saved, csr);
    InstallEffect(served);
    var installed := Run(served, Installing());
    ServeIsServeAt(installed, oldest);
    ServeAtEffect(installed, 0, oldest, saved, csr);
    RefusedOnceReplaced(installed, oldest, saved, csr);
  }

  lemma RefusedOnceReplaced(s: System, issuance: Issuance, saved: Certificate, csr: Csr)
    requires Answering(s, saved, csr) && s.requests != [] && issuance.serial !in s.serials
    requires s.agent.http.serial in s.serials && s.agent.http.serial != saved.serial
    ensures var t := ServeAt(s, 0, issuance);
      GetCurrentAgent(t.row, s.agent.http, s.now) == Err(CredentialRefused(UnknownSerial))
  {
    ServeAtEffect(s, 0, issuance, saved, csr);
  }

  /** One timed-out request and one retry: every due renewal reaches such a state. */
  function Retry(generated: PendingRenewal): seq<Event> {
    Starting(generated) + [Abandon, Begin(generated, true), Send]
  }

  lemma RetryAfterTimeout(w: System, generated: PendingRenewal)
    requires Inv(w) && Renewable(w) && w.agent.phase.AwaitingReply? && |w.requests| == 1
    requires RenewalDue(w.agent.disk, w.now, w.renewBefore) && ValidPending(generated)
    ensures var r := Run(w, [Abandon, Begin(generated, true), Send]);
      && Inv(r) && |r.requests| == 2 && r.agent.phase == AwaitingReply(r.requests[1].id)
      && r == w.(agent := w.agent.(phase := r.agent.phase), requests := r.requests, nextId := r.nextId)
  {
    var a := Step(w, Abandon);
    var b := Step(a, Begin(generated, true));
    assert Run(w, [Abandon, Begin(generated, true), Send]) == Run(a, [Begin(generated, true), Send]);
    assert Run(a, [Begin(generated, true), Send]) == Run(b, [Send]);
    assert Run(b, [Send]) == Step(b, Send);
    RunKeepsInv(w, [Abandon, Begin(generated, true), Send]);
  }

  lemma RetryPutsTwoInFlight(s: System, generated: PendingRenewal)
    requires Inv(s) && Renewable(s) && s.agent.phase.Idle? && s.requests == []
    requires RenewalDue(s.agent.disk, s.now, s.renewBefore) && ValidPending(generated)
    ensures var w := Run(s, Retry(generated));
      && Inv(w) && Renewable(w) && |w.requests| == 2 && w.agent.phase == AwaitingReply(w.requests[1].id)
      && w.serials == s.serials && w.settings == s.settings
  {
    RunAppend(s, Starting(generated), [Abandon, Begin(generated, true), Send]);
    RunReachesWaiting(s, generated);
    RetryAfterTimeout(Run(s, Starting(generated)), generated);
  }

  /** So after every enrollment, once the first certificate is due, one timeout is enough to be stranded. */
  lemma OneTimeoutCanStrand(first: Certificate, notAfter: Time, now: Time, settings: Settings, renewBefore: Time,
                            generated: PendingRenewal, newest: Issuance, oldest: Issuance)
    requires first.notAfter == WholeSeconds(notAfter) && notAfter <= now + settings.renewalWindow
    requires now < first.notAfter <= now + renewBefore && settings.ttl >= SECOND && ValidPending(generated)
    requires newest.serial != first.serial && oldest.serial != first.serial && newest.serial != oldest.serial
    ensures var sent := Run(Enrolled(first, notAfter, now, settings, renewBefore), Retry(generated));
      && |sent.requests| == 2
      && var installed := Run(ServeAt(sent, 1, newest), Installing());
      && Agreed(installed) && !SavedCertificateKnown(Step(installed, Serve(oldest)))
  {
    var s := Enrolled(first, notAfter, now, settings, renewBefore);
    EnrolledInv(first, notAfter, now, settings, renewBefore);
    RetryPutsTwoInFlight(s, generated);
    OvertakenRequestStrandsAgent(Run(s, Retry(generated)), newest, oldest);
  }
}
