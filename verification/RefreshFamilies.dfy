/**
  Refresh-token families (identity/api.py: `login`, `refresh`, `logout`):
  rotation with reuse detection, as section 4.14.2 of RFC 9700 asks for.

  A session is known by its index in the table and so is its refresh token:
  tokens are fresh random values and only their hashes are stored. A family is
  known by the index of the session that opened it.

  A `raise` inside the transaction rolls the request back. So the revocations
  written before the refusals for expiry, a wrong CSRF token and an inactive user
  do not persist; only the one for reuse does.
 */
module RefreshFamilies {
  import opened Wrappers

  type Time = int
  type UserId = nat
  type Token = nat
  type Secret = nat

  datatype Session = Session(user: UserId, family: Token, csrf: Secret, expiresAt: Time, revokedAt: Option<Time>)

  type Sessions = seq<Session>

  datatype Reply = Rotated(token: Token) | InvalidSession

  function Open(ss: Sessions, user: UserId, csrf: Secret, now: Time, ttl: nat): Sessions {
    ss + [Session(user, |ss|, csrf, now + ttl, None)]
  }

  function RevokeFamily(ss: Sessions, family: Token, now: Time): Sessions {
    seq(|ss|, i requires 0 <= i < |ss| => if ss[i].family == family then ss[i].(revokedAt := Some(now)) else ss[i])
  }

  /** What a refresh request carries, and what the user table says about the session's user. */
  datatype Request = Request(token: Option<Token>, csrf: Option<Secret>, userActive: bool)

  predicate Known(ss: Sessions, r: Request) {
    r.token.Some? && r.csrf.Some? && r.token.value < |ss|
  }

  function Refresh(ss: Sessions, r: Request, freshCsrf: Secret, now: Time, ttl: nat): (Sessions, Reply) {
    if !Known(ss, r) then (ss, InvalidSession)
    else
      var t := r.token.value;
      var current := ss[t];
      if current.revokedAt.Some? then (RevokeFamily(ss, current.family, now), InvalidSession)
      else if current.expiresAt <= now || current.csrf != r.csrf.value then (ss, InvalidSession)
      else if !r.userActive then (ss, InvalidSession)
      else (ss[t := current.(revokedAt := Some(now))]
            + [Session(current.user, current.family, freshCsrf, now + ttl, None)], Rotated(|ss|))
  }

  /** The result says whether the CSRF check passed, when there was a session to check. */
  function Logout(ss: Sessions, user: UserId, token: Option<Token>, csrf: Option<Secret>, now: Time): (Sessions, bool) {
    if token.None? || token.value >= |ss| || ss[token.value].user != user then (ss, true)
    else if csrf != Some(ss[token.value].csrf) then (ss, false)
    else (ss[token.value := ss[token.value].(revokedAt := Some(now))], true)
  }

  // --------------------------------------------------------------------- runs

  datatype Event =
    | Opened(user: UserId, csrf: Secret, at: Time, ttl: nat)
    | Refreshed(request: Request, freshCsrf: Secret, at: Time, ttl: nat)
    | LoggedOut(user: UserId, token: Option<Token>, csrfSent: Option<Secret>, at: Time)

  function Step(ss: Sessions, e: Event): Sessions {
    match e
    case Opened(user, csrf, at, ttl) => Open(ss, user, csrf, at, ttl)
    case Refreshed(r, freshCsrf, at, ttl) => Refresh(ss, r, freshCsrf, at, ttl).0
    case LoggedOut(user, token, csrf, at) => Logout(ss, user, token, csrf, at).0
  }

  function Run(ss: Sessions, events: seq<Event>): Sessions
    decreases |events|
  {
    if events == [] then ss else Run(Step(ss, events[0]), events[1..])
  }

  /** The event exchanges the token for a new one. */
  predicate Accepts(ss: Sessions, e: Event, token: Token) {
    e.Refreshed? && e.request.token == Some(token) && Refresh(ss, e.request, e.freshCsrf, e.at, e.ttl).1.Rotated?
  }

  /** Within a family every session but the newest is revoked, and all belong to the user who opened it. */
  predicate OneChain(ss: Sessions) {
    forall i: Token, j: Token :: i < j < |ss| && ss[i].family == ss[j].family ==>
        ss[i].revokedAt.Some? && ss[i].user == ss[j].user
  }

  predicate FamiliesOpened(ss: Sessions) {
    forall i: Token :: i < |ss| ==> ss[i].family <= i && ss[ss[i].family].family == ss[i].family
  }

  predicate Inv(ss: Sessions) {
    OneChain(ss) && FamiliesOpened(ss)
  }

  /** Nothing but a revocation or a new session at the end ever happens to the table. */
  predicate OnlyGrows(ss: Sessions, later: Sessions) {
    && |ss| <= |later|
    && forall i: Token :: i < |ss| ==>
         later[i] == ss[i].(revokedAt := later[i].revokedAt) && (ss[i].revokedAt.Some? ==> later[i].revokedAt.Some?)
  }

  lemma StepOnlyGrows(ss: Sessions, e: Event)
    ensures OnlyGrows(ss, Step(ss, e))
  {
  }

  lemma RefreshKeepsInv(ss: Sessions, e: Event)
    requires Inv(ss) && e.Refreshed?
    ensures Inv(Step(ss, e))
  {
  }

  lemma StepKeepsInv(ss: Sessions, e: Event)
    requires Inv(ss)
    ensures Inv(Step(ss, e))
  {
    if e.Refreshed? {
      RefreshKeepsInv(ss, e);
    }
  }

  lemma {:induction false} RunKeepsInv(ss: Sessions, events: seq<Event>)
    requires Inv(ss)
    ensures Inv(Run(ss, events))
    decreases |events|
  {
    if events != [] {
      StepKeepsInv(ss, events[0]);
      RunKeepsInv(Step(ss, events[0]), events[1..]);
    }
  }

  lemma {:induction false} RunOnlyGrows(ss: Sessions, events: seq<Event>)
    ensures OnlyGrows(ss, Run(ss, events))
    decreases |events|
  {
    if events != [] {
      StepOnlyGrows(ss, events[0]);
      RunOnlyGrows(Step(ss, events[0]), events[1..]);
    }
  }

  /**
    Over every run a family has at most one unrevoked session, the newest one,
    and it belongs to one user.
   */
  lemma AtMostOneLiveSession(events: seq<Event>, i: Token, j: Token)
    ensures var ss := Run([], events);
      i < j < |ss| && ss[i].family == ss[j].family ==> ss[i].revokedAt.Some? && ss[i].user == ss[j].user
  {
    RunKeepsInv([], events);
  }

  /**
    When exactly a token is exchanged: it is the newest of its family and not
    revoked, unexpired, its CSRF token is right and its user active. The session
    it yields is then the newest of the family, so the sessions of a family are
    one chain, each obtained from the one before.
   */
  lemma OnlyTheNewestRotates(events: seq<Event>, r: Request, freshCsrf: Secret, now: Time, ttl: nat)
    ensures var ss := Run([], events);
      Refresh(ss, r, freshCsrf, now, ttl).1.Rotated? <==>
        (Known(ss, r) && r.userActive
         && ss[r.token.value].revokedAt.None? && now < ss[r.token.value].expiresAt
           && r.csrf.value == ss[r.token.value].csrf
         && forall j: Token :: r.token.value < j < |ss| ==> ss[j].family != ss[r.token.value].family)
    ensures var ss := Run([], events);
      var (later, reply) := Refresh(ss, r, freshCsrf, now, ttl);
      reply.Rotated? ==>
        && reply.token == |ss| < |later| && later[|ss|].family == ss[r.token.value].family
          && later[|ss|].user == ss[r.token.value].user
        && forall i: Token :: i < |later| && later[i].family == later[|ss|].family && later[i].revokedAt.None? ==>
            i == |ss|
  {
    RunKeepsInv([], events);
    var ss := Run([], events);
    StepKeepsInv(ss, Refreshed(r, freshCsrf, now, ttl));
  }

  // -------------------------------------------------------------------- reuse

  predicate Dead(ss: Sessions, family: Token) {
    family < |ss| && forall i: Token :: i < |ss| && ss[i].family == family ==> ss[i].revokedAt.Some?
  }

  lemma {:induction false} DeadStaysDead(ss: Sessions, events: seq<Event>, family: Token)
    requires Dead(ss, family)
    ensures Dead(Run(ss, events), family)
    decreases |events|
  {
    if events != [] {
      DeadStaysDead(Step(ss, events[0]), events[1..], family);
    }
  }

  /**
    Reuse detection: once a token has been exchanged, presenting it again, at any
    later time and with any CSRF token, ends its family for good. In whatever
    happens afterwards no token of the family is ever exchanged, whichever of the
    two presenters holds it.
   */
  lemma ReuseEndsTheFamily(before: seq<Event>, use: Event, between: seq<Event>, reuse: Event, after: seq<Event>,
                           last: Event, token: Token, other: Token)
    requires Accepts(Run([], before), use, token)
    requires reuse.Refreshed? && reuse.request.token == Some(token) && reuse.request.csrf.Some?
    ensures var ss := Run(Step(Run(Step(Run([], before), use), between), reuse), after);
      && token < |ss|
      && (other < |ss| && ss[other].family == ss[token].family ==> !Accepts(ss, last, other))
  {
    RunKeepsInv([], before);
    var used := Step(Run([], before), use);
    StepKeepsInv(Run([], before), use);
    RunOnlyGrows(used, between);
    RunKeepsInv(used, between);
    var found := Run(used, between);
    var family := found[token].family;
    assert found[token].revokedAt.Some?;
    assert Dead(Step(found, reuse), family);
    DeadStaysDead(Step(found, reuse), after, family);
    RunOnlyGrows(Step(found, reuse), after);
    StepOnlyGrows(found, reuse);
  }

  /**
    A refused refresh never revokes the session it was tried on: the token is
    revoked afterwards exactly when it was before. The refusals for expiry, CSRF
    and an inactive user write a revocation that is rolled back, so they change
    nothing, and the same token is still good for a later, correct request.
   */
  lemma RefusalKeepsTheSession(ss: Sessions, r: Request, freshCsrf: Secret, now: Time, ttl: nat)
    requires Refresh(ss, r, freshCsrf, now, ttl).1.InvalidSession? && Known(ss, r)
    ensures var after, t := Refresh(ss, r, freshCsrf, now, ttl).0, r.token.value;
      && |after| == |ss|
      && (after[t].revokedAt.Some? <==> ss[t].revokedAt.Some?)
      && (ss[t].revokedAt.None? ==> after == ss)
      && (ss[t].revokedAt.None? && now < ss[t].expiresAt ==>
            Refresh(after, Request(r.token, Some(ss[t].csrf), true), freshCsrf, now, ttl).1.Rotated?)
  {
  }

  /**
    A logout with the right CSRF token ends the family exactly when the token is
    the newest of its family or the newest was revoked already. An older token is
    accepted here too, and then leaves the newest session alive.
   */
  lemma LogoutEndsTheFamilyIff(events: seq<Event>, token: Token, now: Time)
    requires token < |Run([], events)|
    ensures var ss := Run([], events);
      var (after, passed) := Logout(ss, ss[token].user, Some(token), Some(ss[token].csrf), now);
      && passed
      && (Dead(after, ss[token].family) <==>
          forall j: Token :: token < j < |ss| && ss[j].family == ss[token].family ==> ss[j].revokedAt.Some?)
  {
    RunKeepsInv([], events);
    var ss := Run([], events);
    var after := Logout(ss, ss[token].user, Some(token), Some(ss[token].csrf), now).0;
    forall j: Token | token < j < |ss|
      ensures after[j] == ss[j]
    {
    }
  }

  // --------------------------------------------------- what a new token is good for

  /** The event issues a token: a login always does, an exchange when it is accepted. */
  predicate Issues(ss: Sessions, e: Event) {
    e.Opened? || (e.Refreshed? && Refresh(ss, e.request, e.freshCsrf, e.at, e.ttl).1.Rotated?)
  }

  /** The CSRF token handed out with it. */
  function SecretOf(e: Event): Secret
    requires e.Opened? || e.Refreshed?
  {
    if e.Opened? then e.csrf else e.freshCsrf
  }

  /**
    What an issued token is good for, whatever has happened since: it is exchanged
    exactly together with the CSRF token that was handed out with it, for an
    active user, before its time to live has passed, and as long as nothing has
    revoked it. A login's token opens a family for the user who logged in, an
    exchanged one continues the family of the token it was exchanged for.
   */
  lemma IssuedTokenRotatesIff(ss: Sessions, e: Event, between: seq<Event>, sent: Secret, active: bool,
                              nextCsrf: Secret, now: Time, ttl: nat)
    requires Issues(ss, e)
    ensures var issued := Step(ss, e);
      && |issued| == |ss| + 1 && issued[|ss|].revokedAt.None?
      && (e.Opened? ==> issued[|ss|].user == e.user && issued[|ss|].family == |ss|)
      && (e.Refreshed? ==> issued[|ss|].family == ss[e.request.token.value].family)
    ensures var later := Run(Step(ss, e), between);
      && |ss| < |later|
      && (Refresh(later, Request(Some(|ss|), Some(sent), active), nextCsrf, now, ttl).1.Rotated?
          <==> active && sent == SecretOf(e) && now < e.at + e.ttl && later[|ss|].revokedAt.None?)
  {
    RunOnlyGrows(Step(ss, e), between);
  }

  /** Every revocation carries the time of the request that made it. */
  lemma RevocationsAreStamped(ss: Sessions, e: Event, i: Token)
    requires i < |ss|
    ensures Step(ss, e)[i].revokedAt != ss[i].revokedAt ==> Step(ss, e)[i].revokedAt == Some(e.at)
  {
  }

  /**
    A logout revokes the presented session exactly when it is the user's own and
    the CSRF token is its, and no other session in any case. It is refused for a
    wrong CSRF token only; a foreign or unknown token passes without effect.
   */
  lemma LogoutRevokesIff(ss: Sessions, user: UserId, token: Option<Token>, csrf: Option<Secret>, now: Time, i: Token)
    requires i < |ss| && ss[i].revokedAt.None?
    ensures var after := Step(ss, LoggedOut(user, token, csrf, now));
      && |after| == |ss|
      && (after[i].revokedAt.Some? <==> token == Some(i) && ss[i].user == user && csrf == Some(ss[i].csrf))
    ensures !Logout(ss, user, token, csrf, now).1
      <==> token.Some? && token.value < |ss| && ss[token.value].user == user && csrf != Some(ss[token.value].csrf)
  {
  }

  // ----------------------------------------------------------- imperative form

  class SessionTable {
    var sessions: Sessions

    constructor ()
      ensures sessions == []
    {
      sessions := [];
    }

    method OpenSession(user: UserId, csrf: Secret, now: Time, ttl: nat) returns (token: Token)
      modifies this
      ensures sessions == Open(old(sessions), user, csrf, now, ttl) && token == |old(sessions)|
    {
      token := |sessions|;
      sessions := sessions + [Session(user, token, csrf, now + ttl, None)];
    }

    /** Writes as the handler does, and undoes them where it raises. */
    method RefreshSession(r: Request, freshCsrf: Secret, now: Time, ttl: nat) returns (reply: Reply)
      modifies this
      ensures (sessions, reply) == Refresh(old(sessions), r, freshCsrf, now, ttl)
    {
      if r.token.None? || r.csrf.None? || r.token.value >= |sessions| {
        return InvalidSession;
      }
      var begun := sessions;
      var t := r.token.value;
      if sessions[t].revokedAt.Some? {
        sessions := RevokeFamily(sessions, sessions[t].family, now);
        return InvalidSession;
      }
      if sessions[t].expiresAt <= now || sessions[t].csrf != r.csrf.value {
        sessions := sessions[t := sessions[t].(revokedAt := Some(now))];
        sessions := begun;
        return InvalidSession;
      }
      sessions := sessions[t := sessions[t].(revokedAt := Some(now))];
      if !r.userActive {
        sessions := begun;
        return InvalidSession;
      }
      sessions := sessions + [Session(begun[t].user, begun[t].family, freshCsrf, now + ttl, None)];
      return Rotated(|begun|);
    }

    method EndSession(user: UserId, token: Option<Token>, csrf: Option<Secret>, now: Time) returns (passed: bool)
      modifies this
      ensures (sessions, passed) == Logout(old(sessions), user, token, csrf, now)
    {
      if token.Some? && token.value < |sessions| && sessions[token.value].user == user {
        var t := token.value;
        if csrf.None? || csrf.value != sessions[t].csrf {
          return false;
        }
        sessions := sessions[t := sessions[t].(revokedAt := Some(now))];
      }
      return true;
    }
  }
}
