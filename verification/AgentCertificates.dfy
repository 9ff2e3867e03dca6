/**
  Agent certificates on the control plane: authentication of a presented
  certificate (agent_control/security.py) and the renewal endpoint
  (agent_control/api.py).

  A certificate is kept as its serial, public key, expiry and fingerprint, a
  signing request as its public key, fingerprint and signature validity.
  The model follows one agent's row; serials are never reused.
 */
module AgentCertificates {
  import opened Wrappers

  /** Microseconds, as the database stores them. */
  type Time = int
  type Serial = nat
  type Key = nat
  type Fingerprint = nat

  datatype Csr = Csr(key: Key, fingerprint: Fingerprint, signatureValid: bool)

  datatype Certificate = Certificate(serial: Serial, key: Key, notAfter: Time, fingerprint: Fingerprint)

  datatype AgentStatus = Registered | Online | Disabled

  /** The certificate columns of one `edge_agents` row. */
  datatype EdgeAgent = EdgeAgent(
    status: AgentStatus,
    serial: Serial,
    fingerprint: Fingerprint,
    notAfter: Time,
    previousSerial: Option<Serial>,
    previousFingerprint: Option<Fingerprint>,
    previousNotAfter: Option<Time>,
    lastRenewalCsr: Option<Fingerprint>)

  datatype AgentPrincipal = AgentPrincipal(serial: Serial, isCurrent: bool)

  /** Why a credential is refused; the API answers AIOPS_4001 in every case. */
  datatype Refusal = UnknownSerial | AgentDisabled | IncompleteRecord | FingerprintMismatch | Expired

  datatype ApiError =
    | CredentialRefused(why: Refusal)  // AIOPS_4001
    | CsrInvalid                       // AIOPS_4004
    | OutsideRenewalWindow             // AIOPS_4105
    | CsrMismatch                      // AIOPS_4106

  datatype Settings = Settings(ttl: Time, renewalWindow: Time)

  /** The values drawn when a certificate is issued: a random serial and the digest of the DER. */
  datatype Issuance = Issuance(serial: Serial, fingerprint: Fingerprint)

  const SECOND: Time := 1_000_000

  /** A certificate holds its expiry in whole seconds; the row keeps the microseconds. */
  function WholeSeconds(t: Time): (r: Time)
    ensures r <= t < r + 1_000_000 && r % 1_000_000 == 0
  {
    t - t % SECOND
  }

  /** The row records `c` as the current certificate. */
  predicate RecordsCurrent(row: EdgeAgent, c: Certificate) {
    row.serial == c.serial && row.fingerprint == c.fingerprint && WholeSeconds(row.notAfter) == c.notAfter
  }

  /** The row records `c` as the previous certificate. */
  predicate RecordsPrevious(row: EdgeAgent, c: Certificate) {
    && row.previousSerial == Some(c.serial)
    && row.previousFingerprint == Some(c.fingerprint)
    && row.previousNotAfter.Some? && WholeSeconds(row.previousNotAfter.value) == c.notAfter
  }

  function GetCurrentAgent(row: EdgeAgent, presented: Certificate, now: Time): Result<AgentPrincipal, ApiError> {
    if row.serial != presented.serial && row.previousSerial != Some(presented.serial) then
      Err(CredentialRefused(UnknownSerial))
    else if row.status == Disabled then
      Err(CredentialRefused(AgentDisabled))
    else
      var isCurrent := row.serial == presented.serial;
      var expected := if isCurrent then Some(row.fingerprint) else row.previousFingerprint;
      var notAfter := if isCurrent then Some(row.notAfter) else row.previousNotAfter;
      if expected.None? || notAfter.None? then
        Err(CredentialRefused(IncompleteRecord))
      else if presented.notAfter <= now then
        Err(CredentialRefused(Expired))
      else if presented.fingerprint != expected.value then
        Err(CredentialRefused(FingerprintMismatch))
      else if notAfter.value <= now then
        Err(CredentialRefused(Expired))
      else
        Ok(AgentPrincipal(presented.serial, isCurrent))
  }

  /** Every certificate handed out for one signing request certifies that request's key. */
  function IssueCertificate(csr: Csr, issuance: Issuance, now: Time, settings: Settings): Certificate {
    Certificate(issuance.serial, csr.key, WholeSeconds(now + settings.ttl), issuance.fingerprint)
  }

  /** The renewal transaction: the row it commits and the answer it gives. */
  function Renew(row: EdgeAgent, principal: AgentPrincipal, csr: Csr, issuance: Issuance, now: Time, settings: Settings)
    : (EdgeAgent, Result<Certificate, ApiError>)
  {
    var renewingCurrent := row.serial == principal.serial;
    var retryingPrevious := row.previousSerial == Some(principal.serial);
    if row.status == Disabled then
      (row, Err(CredentialRefused(AgentDisabled)))
    else if !renewingCurrent && !retryingPrevious then
      (row, Err(CredentialRefused(UnknownSerial)))
    else if renewingCurrent && row.notAfter > now + settings.renewalWindow then
      (row, Err(OutsideRenewalWindow))
    else if !csr.signatureValid then
      (row, Err(CsrInvalid))
    else if retryingPrevious && row.lastRenewalCsr != Some(csr.fingerprint) then
      (row, Err(CsrMismatch))
    else
      var issued := IssueCertificate(csr, issuance, now, settings);
      var kept :=
        if renewingCurrent then
          row.(previousSerial := Some(row.serial),
               previousFingerprint := Some(row.fingerprint),
               previousNotAfter := Some(row.notAfter),
               lastRenewalCsr := Some(csr.fingerprint))
        else row;
      (kept.(serial := issued.serial, fingerprint := issued.fingerprint, notAfter := now + settings.ttl), Ok(issued))
  }

  /** One renewal request: authentication and its transaction, as one atomic step. */
  function HandleRenewal(row: EdgeAgent, presented: Certificate, csr: Csr, issuance: Issuance, now: Time,
                         settings: Settings)
    : (EdgeAgent, Result<Certificate, ApiError>)
  {
    match GetCurrentAgent(row, presented, now)
    case Err(e) => (row, Err(e))
    case Ok(principal) => Renew(row, principal, csr, issuance, now, settings)
  }

  /** A row whose two serials differ, as fresh serials guarantee. */
  predicate WellFormed(row: EdgeAgent) {
    && row.previousSerial != Some(row.serial)
    && (row.previousSerial.Some? ==> row.previousFingerprint.Some? && row.previousNotAfter.Some?)
  }

  /**
    Whatever the row holds, a certificate is accepted exactly when the agent is
    enabled, neither the certificate nor its recorded expiry has passed, and the
    row holds its serial and fingerprint as current or, failing that, as previous.
   */
  lemma AuthenticatesExactlyRecorded(row: EdgeAgent, presented: Certificate, now: Time)
    ensures GetCurrentAgent(row, presented, now).Ok? <==>
      && row.status != Disabled && now < presented.notAfter
      && if row.serial == presented.serial
         then row.fingerprint == presented.fingerprint && now < row.notAfter
         else row.previousSerial == Some(presented.serial) && row.previousFingerprint == Some(presented.fingerprint)
              && row.previousNotAfter.Some? && now < row.previousNotAfter.value
    ensures GetCurrentAgent(row, presented, now).Ok? ==>
      GetCurrentAgent(row, presented, now).value == AgentPrincipal(presented.serial, row.serial == presented.serial)
  {
  }

  /** The row knows the serial, as the agent's current or previous certificate. */
  predicate KnowsSerial(row: EdgeAgent, serial: Serial) {
    row.serial == serial || row.previousSerial == Some(serial)
  }

  /**
    Why a certificate is refused: an unknown serial before anything else, then a
    disabled agent, an incomplete record of the previous certificate, the end of
    the certificate, another fingerprint, and last the end that is recorded.
   */
  lemma RefusalNamesTheReason(row: EdgeAgent, presented: Certificate, now: Time, why: Refusal)
    requires GetCurrentAgent(row, presented, now) == Err(CredentialRefused(why))
    ensures why == UnknownSerial <==> !KnowsSerial(row, presented.serial)
    ensures why == AgentDisabled <==> KnowsSerial(row, presented.serial) && row.status == Disabled
    ensures why == IncompleteRecord ==>
      row.serial != presented.serial && (row.previousFingerprint.None? || row.previousNotAfter.None?)
    ensures why == FingerprintMismatch ==>
      && now < presented.notAfter
      && (if row.serial == presented.serial then row.fingerprint != presented.fingerprint
          else row.previousFingerprint.Some? && row.previousFingerprint.value != presented.fingerprint)
    ensures why == Expired ==>
      || presented.notAfter <= now
      || (if row.serial == presented.serial then row.notAfter <= now
          else row.previousNotAfter.Some? && row.previousNotAfter.value <= now)
  {
  }

  /**
    Why a renewal is refused once the certificate has been accepted, whoever the
    row has come to know since: a disabled agent, a serial it no longer knows, a
    current certificate before its window, a request that does not verify, and a
    retry with another request than the recorded one.
   */
  lemma RenewalRefusalNamesTheReason(row: EdgeAgent, principal: AgentPrincipal, csr: Csr, issuance: Issuance,
                                     now: Time, settings: Settings)
    ensures var error := Renew(row, principal, csr, issuance, now, settings).1;
      var early := row.serial == principal.serial && now + settings.renewalWindow < row.notAfter;
      if row.status == Disabled then error == Err(CredentialRefused(AgentDisabled))
      else if !KnowsSerial(row, principal.serial) then error == Err(CredentialRefused(UnknownSerial))
      else if early then error == Err(OutsideRenewalWindow)
      else if !csr.signatureValid then error == Err(CsrInvalid)
      else if row.previousSerial == Some(principal.serial) && row.lastRenewalCsr != Some(csr.fingerprint)
        then error == Err(CsrMismatch)
      else error.Ok?
  {
  }

  /**
    What one renewal request does, without reference to the order of the checks:
    it is answered with a certificate exactly when the presented certificate is
    the current one inside its window, or the previous one repeating the
    recorded signing request; the previous certificate is replaced only by a
    renewal of the current one; a refused request changes nothing.
   */
  lemma RenewalOutcome(row: EdgeAgent, presented: Certificate, csr: Csr, issuance: Issuance, now: Time,
                       settings: Settings)
    requires WellFormed(row)
    requires RecordsCurrent(row, presented) || RecordsPrevious(row, presented)
    ensures var (row', answer) := HandleRenewal(row, presented, csr, issuance, now, settings);
      && (answer.Ok? <==>
            && row.status != Disabled && now < presented.notAfter && csr.signatureValid
            && (RecordsCurrent(row, presented) ==> row.notAfter <= now + settings.renewalWindow)
            && (RecordsPrevious(row, presented) ==> row.lastRenewalCsr == Some(csr.fingerprint)))
      && (answer.Err? ==> row' == row)
      && (answer.Ok? ==>
            && answer.value == Certificate(issuance.serial, csr.key, WholeSeconds(now + settings.ttl),
                                           issuance.fingerprint)
            && RecordsCurrent(row', answer.value)
            && RecordsPrevious(row', presented)
            && row'.lastRenewalCsr == Some(csr.fingerprint)
            && row'.status == row.status)
  {
    AuthenticatesExactlyRecorded(row, presented, now);
  }

  /** One `edge_agents` row as the endpoint updates it in place. */
  class AgentRecord {
    var status: AgentStatus
    var serial: Serial
    var fingerprint: Fingerprint
    var notAfter: Time
    var previousSerial: Option<Serial>
    var previousFingerprint: Option<Fingerprint>
    var previousNotAfter: Option<Time>
    var lastRenewalCsr: Option<Fingerprint>

    function Row(): EdgeAgent
      reads this
    {
      EdgeAgent(status, serial, fingerprint, notAfter, previousSerial, previousFingerprint, previousNotAfter,
                lastRenewalCsr)
    }

    /** Enrollment records the first certificate; nothing has been renewed yet. */
    constructor (first: Certificate, notAfter: Time)
      requires first.notAfter == WholeSeconds(notAfter)
      ensures RecordsCurrent(Row(), first) && WellFormed(Row())
      ensures Row() == EdgeAgent(Registered, first.serial, first.fingerprint, notAfter, None, None, None, None)
    {
      status := Registered;
      serial, fingerprint := first.serial, first.fingerprint;
      this.notAfter := notAfter;
      previousSerial, previousFingerprint, previousNotAfter, lastRenewalCsr := None, None, None, None;
    }

    method RenewAgentCertificate(principal: AgentPrincipal, csr: Csr, issuance: Issuance, now: Time, settings: Settings)
      returns (answer: Result<Certificate, ApiError>)
      modifies this
      ensures (Row(), answer) == Renew(old(Row()), principal, csr, issuance, now, settings)
    {
      if status == Disabled {
        return Err(CredentialRefused(AgentDisabled));
      }
      var renewingCurrent := serial == principal.serial;
      var retryingPrevious := previousSerial == Some(principal.serial);
      if !renewingCurrent && !retryingPrevious {
        return Err(CredentialRefused(UnknownSerial));
      }
      if renewingCurrent && notAfter > now + settings.renewalWindow {
        return Err(OutsideRenewalWindow);
      }
      if !csr.signatureValid {
        return Err(CsrInvalid);
      }
      if retryingPrevious && lastRenewalCsr != Some(csr.fingerprint) {
        return Err(CsrMismatch);
      }
      var issued := IssueCertificate(csr, issuance, now, settings);
      if renewingCurrent {
        previousSerial := Some(serial);
        previousFingerprint := Some(fingerprint);
        previousNotAfter := Some(notAfter);
        lastRenewalCsr := Some(csr.fingerprint);
      }
      serial := issued.serial;
      fingerprint := issued.fingerprint;
      notAfter := now + settings.ttl;
      return Ok(issued);
    }
  }
}
