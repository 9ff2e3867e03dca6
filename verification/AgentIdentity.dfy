/**
  The agent's side of a certificate renewal (edge-agent client.go): the saved
  identity file, the identity and HTTP client held in memory, and the points
  of `renewCertificateIfNeeded` between which a crash can fall.

  A file is replaced by writing a temporary file and renaming it, so a save
  that reports an error leaves the old file.
 */
module AgentIdentity {
  import opened Wrappers
  import opened AgentCertificates

  type RequestId = nat

  datatype PendingRenewal = PendingRenewal(privateKey: Key, csr: Csr)

  datatype Identity = Identity(certificate: Certificate, privateKey: Key, pending: Option<PendingRenewal>)

  datatype Phase =
    | Idle
    | PendingOnDisk(saved: Identity)
    | ReadyToSend
    | AwaitingReply(id: RequestId)
    | Validated(renewed: Identity)
    | RenewedOnDisk(renewed: Identity)

  /** `http` is the certificate the authenticated HTTP client presents. */
  datatype Agent = Agent(disk: Identity, identity: Identity, http: Certificate, phase: Phase)

  /** A key pair whose signing request the control plane can check. */
  predicate ValidPending(p: PendingRenewal) {
    p.csr.key == p.privateKey && p.csr.signatureValid
  }

  predicate RenewalDue(identity: Identity, now: Time, renewBefore: Time) {
    now < identity.certificate.notAfter <= now + renewBefore
  }

  /** The checks, then either reuse of the saved request or a fresh one, saved before anything is sent. */
  function Begin(a: Agent, now: Time, renewBefore: Time, generated: PendingRenewal, saveOk: bool): Agent {
    if !a.phase.Idle? || !RenewalDue(a.identity, now, renewBefore) then a
    else if a.identity.pending.Some? then a.(phase := ReadyToSend)
    else if !saveOk then a
    else
      var saved := a.identity.(pending := Some(generated));
      a.(disk := saved, phase := PendingOnDisk(saved))
  }

  function PublishPending(a: Agent): Agent {
    if !a.phase.PendingOnDisk? then a
    else a.(identity := a.phase.saved, phase := ReadyToSend)
  }

  /** A failed, timed-out or refused request. */
  function Abandon(a: Agent): Agent {
    if a.phase.AwaitingReply? then a.(phase := Idle) else a
  }

  /** A reply is used only while its certificate is valid; the key is the one saved with the request. */
  function Receive(a: Agent, issued: Certificate, now: Time): Agent {
    if !a.phase.AwaitingReply? || a.identity.pending.None? then a
    else if issued.notAfter <= now || issued.key != a.identity.pending.value.privateKey then a.(phase := Idle)
    else a.(phase := Validated(Identity(issued, a.identity.pending.value.privateKey, None)))
  }

  function SaveRenewed(a: Agent, saveOk: bool): Agent {
    if !a.phase.Validated? then a
    else if !saveOk then a.(phase := Idle)
    else a.(disk := a.phase.renewed, phase := RenewedOnDisk(a.phase.renewed))
  }

  function Activate(a: Agent): Agent {
    if !a.phase.RenewedOnDisk? then a
    else a.(identity := a.phase.renewed, http := a.phase.renewed.certificate, phase := Idle)
  }

  /** A crash at any point, followed by a start that loads the saved identity. */
  function Restart(a: Agent): Agent {
    Agent(a.disk, a.disk, a.disk.certificate, Idle)
  }

  /** What one uninterrupted call meets: two clock readings, two saves and the answer. */
  datatype Encounter = Encounter(
    now: Time, renewBefore: Time, generated: PendingRenewal, pendingSaveOk: bool,
    id: RequestId, reply: Option<Certificate>, receivedAt: Time, renewedSaveOk: bool)

  /** One uninterrupted call, as the sequence of the steps above. */
  function RenewCall(a: Agent, e: Encounter): Agent {
    var ready := PublishPending(Begin(a, e.now, e.renewBefore, e.generated, e.pendingSaveOk));
    if !ready.phase.ReadyToSend? then ready
    else
      var waiting := ready.(phase := AwaitingReply(e.id));
      if e.reply.None? then Abandon(waiting)
      else Activate(SaveRenewed(Receive(waiting, e.reply.value, e.receivedAt), e.renewedSaveOk))
  }

  /** Everything a call needs to install a renewed certificate. */
  predicate Installs(a: Agent, e: Encounter) {
    && e.now < a.identity.certificate.notAfter <= e.now + e.renewBefore
    && (a.identity.pending.Some? || e.pendingSaveOk)
    && e.reply.Some?
    && e.receivedAt < e.reply.value.notAfter
    && e.reply.value.key == a.identity.pending.GetOr(e.generated).privateKey
    && e.renewedSaveOk
  }

  /**
    After any call the file and memory hold the same identity, whatever failed
    on the way, and the key in use is the certificate's own. Unless the call
    installs the reply, the certificate stays; once a signing request has been
    saved, every later call repeats it until a certificate is installed.
   */
  lemma CallLeavesDiskAndMemoryAgreeing(a: Agent, e: Encounter)
    requires a.phase.Idle? && a.disk == a.identity && a.http == a.identity.certificate
    requires a.identity.privateKey == a.identity.certificate.key
    ensures var b := RenewCall(a, e);
      && b.phase.Idle? && b.disk == b.identity && b.http == b.identity.certificate
      && b.identity.privateKey == b.identity.certificate.key
      && (Installs(a, e) ==> b.identity.certificate == e.reply.value && b.identity.pending.None?)
      && (!Installs(a, e) ==> b.identity.certificate == a.identity.certificate)
      && (!Installs(a, e) && a.identity.pending.Some? ==> b == a)
  {
  }

  /** identity.json */
  class IdentityFile {
    var content: Identity

    constructor (initial: Identity)
      ensures content == initial
    {
      content := initial;
    }

    method Save(value: Identity, writeOk: bool) returns (ok: bool)
      modifies this
      ensures ok == writeOk
      ensures content == if writeOk then value else old(content)
    {
      if writeOk {
        content := value;
      }
      return writeOk;
    }
  }

  class Client {
    const file: IdentityFile
    var identity: Identity
    var http: Certificate

    /** A start: everything in memory comes from the saved identity. */
    constructor (file: IdentityFile)
      ensures this.file == file
      ensures identity == file.content && http == file.content.certificate
    {
      this.file := file;
      identity := file.content;
      http := file.content.certificate;
    }

    function Local(): Agent
      reads this, file
    {
      Agent(file.content, identity, http, Idle)
    }

    method RenewCertificateIfNeeded(e: Encounter) returns (failed: bool)
      modifies this, file
      ensures Local() == RenewCall(old(Local()), e)
      ensures failed <==>
        && !Installs(old(Local()), e)
        && !(old(identity).certificate.notAfter > e.now && old(identity).certificate.notAfter > e.now + e.renewBefore)
    {
      var current := identity;
      var expiresAt := current.certificate.notAfter;
      if !(expiresAt > e.now) {
        return true;
      }
      if expiresAt > e.now + e.renewBefore {
        return false;
      }
      if current.pending.None? {
        current := current.(pending := Some(e.generated));
        var saved := file.Save(current, e.pendingSaveOk);
        if !saved {
          return true;
        }
        identity := current;
      }
      if e.reply.None? {
        return true;
      }
      var newIdentity := Identity(e.reply.value, current.pending.value.privateKey, None);
      if newIdentity.certificate.key != newIdentity.privateKey {
        return true;
      }
      if newIdentity.certificate.notAfter <= e.receivedAt {
        return true;
      }
      var installed := file.Save(newIdentity, e.renewedSaveOk);
      if !installed {
        return true;
      }
      identity := newIdentity;
      http := newIdentity.certificate;
      return false;
    }
  }
}
