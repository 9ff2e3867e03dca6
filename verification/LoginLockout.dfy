/**
  The lockout branches of `login` (identity/api.py) for one existing user.

  A failed attempt below the limit only counts; from the limit on every failed
  attempt locks the account again, because the counter is not reset when a lock
  expires. A blocked attempt raises inside the transaction, so it leaves no trace
  at all, not even the audit entry written before the raise.
 */
module LoginLockout {
  import opened Wrappers

  type Time = int

  datatype Settings = Settings(maxFailures: nat, lockSeconds: nat) {
    /** The ranges that core/config.py enforces. */
    predicate Valid() {
      3 <= maxFailures <= 20 && 60 <= lockSeconds <= 86400
    }
  }

  datatype TrailEntry = LoginFailed | LoginSucceeded

  datatype User = User(active: bool, failedAttempts: nat, lockedUntil: Option<Time>, lastLoginAt: Option<Time>,
                       trail: seq<TrailEntry>)

  datatype Outcome = InvalidCredentials | AccountLocked | LoggedIn

  predicate Locked(u: User, now: Time) {
    u.lockedUntil.Some? && u.lockedUntil.value > now
  }

  function Login(settings: Settings, u: User, now: Time, matches: bool): (User, Outcome) {
    if Locked(u, now) then (u, AccountLocked)
    else if !u.active || !matches then
      var failed := u.failedAttempts + 1;
      (u.(failedAttempts := failed,
          lockedUntil := if failed >= settings.maxFailures then Some(now + settings.lockSeconds) else u.lockedUntil,
          trail := u.trail + [LoginFailed]),
       InvalidCredentials)
    else (u.(failedAttempts := 0, lockedUntil := None, lastLoginAt := Some(now), trail := u.trail + [LoginSucceeded]),
          LoggedIn)
  }

  // --------------------------------------------------------------------- runs

  /** `matches` says whether the password is right. */
  datatype Event = Attempt(now: Time, matches: bool) | ActiveSet(active: bool)

  function Step(settings: Settings, u: User, e: Event): User {
    match e
    case Attempt(now, matches) => Login(settings, u, now, matches).0
    case ActiveSet(active) => u.(active := active)
  }

  function Run(settings: Settings, u: User, events: seq<Event>): User
    decreases |events|
  {
    if events == [] then u else Run(settings, Step(settings, u, events[0]), events[1..])
  }

  predicate Ends(settings: Settings, u: User, e: Event, outcome: Outcome) {
    e.Attempt? && Login(settings, u, e.now, e.matches).1 == outcome
  }

  /** How many attempts of the run end so. */
  function Count(settings: Settings, u: User, events: seq<Event>, outcome: Outcome): nat
    decreases |events|
  {
    if events == [] then 0
    else
      var later := Count(settings, Step(settings, u, events[0]), events[1..], outcome);
      if Ends(settings, u, events[0], outcome) then 1 + later else later
  }

  /** The attempts are in time order, within the period. */
  predicate Within(events: seq<Event>, from: Time, until: Time)
    decreases |events|
  {
    if events == [] then from <= until
    else if events[0].ActiveSet? then Within(events[1..], from, until)
    else from <= events[0].now && Within(events[1..], events[0].now, until)
  }

  lemma {:induction false} WithinIsAPeriod(events: seq<Event>, from: Time, until: Time)
    requires Within(events, from, until)
    ensures from <= until
    decreases |events|
  {
    if events != [] {
      WithinIsAPeriod(events[1..], if events[0].Attempt? then events[0].now else from, until);
    }
  }

  // -------------------------------------------------------------- the bound

  /** The product, unfolded one period at a time. */
  function Periods(n: nat, length: nat): nat {
    if n == 0 then 0 else length + Periods(n - 1, length)
  }

  lemma {:induction false} PeriodsMultiply(n: nat, length: nat)
    ensures Periods(n, length) == n * length
  {
    if n > 0 {
      PeriodsMultiply(n - 1, length);
      assert n * length == (n - 1) * length + length;
    }
  }

  lemma {:induction false} PeriodsGrow(a: nat, b: nat, length: nat)
    requires a <= b
    ensures Periods(a, length) <= Periods(b, length)
  {
    if a < b {
      PeriodsGrow(a, b - 1, length);
    }
  }

  /** Seconds of lock that the failures still possible until `until` can cost; each one costs `lockSeconds`. */
  function Credit(settings: Settings, u: User, from: Time, until: Time): int {
    if u.failedAttempts < settings.maxFailures then
      Periods(settings.maxFailures - u.failedAttempts, settings.lockSeconds) + (until - from)
    else
      var free := if Locked(u, from) then u.lockedUntil.value else from;
      if until + settings.lockSeconds >= free then until + settings.lockSeconds - free else 0
  }

  lemma AttemptCosts(settings: Settings, u: User, e: Event, from: Time, until: Time)
    requires settings.Valid() && e.Attempt? && from <= e.now <= until
    ensures var L := settings.lockSeconds;
      Credit(settings, Step(settings, u, e), e.now, until) + (if Ends(settings, u, e, InvalidCredentials) then L else 0)
      <= Credit(settings, u, from, until)
        + (if Ends(settings, u, e, LoggedIn) then Periods(settings.maxFailures, L) else 0)
  {
  }

  lemma {:induction false} CreditPaysForFailures(settings: Settings, u: User, events: seq<Event>, from: Time,
                                                 until: Time)
    requires settings.Valid() && Within(events, from, until)
    ensures Credit(settings, u, from, until) >= 0
    ensures Periods(Count(settings, u, events, InvalidCredentials), settings.lockSeconds)
            <= Periods(Count(settings, u, events, LoggedIn), Periods(settings.maxFailures, settings.lockSeconds))
               + Credit(settings, u, from, until)
    decreases |events|
  {
    WithinIsAPeriod(events, from, until);
    if events != [] {
      var e := events[0];
      var u' := Step(settings, u, e);
      if e.ActiveSet? {
        CreditPaysForFailures(settings, u', events[1..], from, until);
      } else {
        WithinIsAPeriod(events[1..], e.now, until);
        CreditPaysForFailures(settings, u', events[1..], e.now, until);
        AttemptCosts(settings, u, e, from, until);
      }
    }
  }

  lemma CreditIsAtMostAll(settings: Settings, u: User, from: Time, until: Time)
    requires settings.Valid() && from <= until
    ensures Credit(settings, u, from, until) <= Periods(settings.maxFailures, settings.lockSeconds) + (until - from)
  {
    PeriodsGrow(1, settings.maxFailures, settings.lockSeconds);
    if u.failedAttempts < settings.maxFailures {
      PeriodsGrow(settings.maxFailures - u.failedAttempts, settings.maxFailures, settings.lockSeconds);
    }
  }

  /** From seconds of lock back to numbers of failures. */
  lemma FailuresFromPeriods(n: nat, s: nat, m: nat, length: nat, elapsed: nat)
    requires length > 0 && Periods(n, length) <= Periods(s, Periods(m, length)) + Periods(m, length) + elapsed
    ensures n <= (s + 1) * m + elapsed / length
  {
    PeriodsMultiply(n, length);
    PeriodsMultiply(m, length);
    PeriodsMultiply(s, m * length);
    Regroup(s, m, length);
    DivideBound(n, (s + 1) * m, elapsed, length);
  }

  lemma Distribute(a: nat, b: nat, c: nat)
    ensures (a + b) * c == a * c + b * c
  {
  }

  lemma Regroup(s: nat, m: nat, length: nat)
    ensures s * (m * length) + m * length == ((s + 1) * m) * length
  {
    Distribute(s, 1, m);
    Distribute(s * m, m, length);
    assert (s * m) * length == s * (m * length);
  }

  lemma {:induction false} DivideBound(n: nat, k: nat, elapsed: nat, length: nat)
    requires length > 0 && n * length <= k * length + elapsed
    ensures n <= k + elapsed / length
    decreases k
  {
    if k > 0 && n > 0 {
      assert (n - 1) * length == n * length - length;
      assert (k - 1) * length == k * length - length;
      DivideBound(n - 1, k - 1, elapsed, length);
    } else if n > 0 {
      assert k * length == 0;
      AtMostQuotient(n, elapsed, length);
    }
  }

  lemma AtMostQuotient(n: nat, elapsed: nat, length: nat)
    requires length > 0 && n * length <= elapsed
    ensures n <= elapsed / length
  {
    var q := elapsed / length;
    PeriodsMultiply(n, length);
    PeriodsMultiply(q, length);
    if q + 1 <= n {
      PeriodsGrow(q + 1, n, length);
    }
  }

  /**
    The lockout bound, from any state of the user: over any run of attempts
    between `from` and `until`, with the account switched on and off at will, the
    failures actually checked are at most M for every success, M more, and one
    for every lock period that fits into the time passed.
   */
  lemma FailuresAreBounded(settings: Settings, u: User, events: seq<Event>, from: Time, until: Time)
    requires settings.Valid() && Within(events, from, until)
    ensures from <= until
    ensures Count(settings, u, events, InvalidCredentials)
            <= (Count(settings, u, events, LoggedIn) + 1) * settings.maxFailures + (until - from) / settings.lockSeconds
  {
    WithinIsAPeriod(events, from, until);
    CreditPaysForFailures(settings, u, events, from, until);
    CreditIsAtMostAll(settings, u, from, until);
    FailuresFromPeriods(
      Count(settings, u, events, InvalidCredentials), Count(settings, u, events, LoggedIn),
      settings.maxFailures, settings.lockSeconds, until - from);
  }

  /** One failure at each of `n` instants, a lock period apart. */
  function Patient(start: Time, n: nat, lockSeconds: nat): (events: seq<Event>)
    ensures |events| == n
    decreases n
  {
    if n == 0 then [] else [Attempt(start, false)] + Patient(start + lockSeconds, n - 1, lockSeconds)
  }

  /** `n` failures at one instant. */
  function Burst(start: Time, n: nat): (events: seq<Event>)
    ensures |events| == n
    decreases n
  {
    if n == 0 then [] else [Attempt(start, false)] + Burst(start, n - 1)
  }

  lemma {:induction false} PatientIsNeverBlocked(settings: Settings, u: User, start: Time, n: nat)
    requires settings.Valid() && u.failedAttempts + 1 >= settings.maxFailures && !Locked(u, start)
    ensures Count(settings, u, Patient(start, n, settings.lockSeconds), InvalidCredentials) == n
    ensures n > 0 ==> Within(Patient(start, n, settings.lockSeconds), start, start + (n - 1) * settings.lockSeconds)
    decreases n
  {
    if n > 0 {
      var events := Patient(start, n, settings.lockSeconds);
      assert events[1..] == Patient(start + settings.lockSeconds, n - 1, settings.lockSeconds);
      PatientIsNeverBlocked(settings, Step(settings, u, events[0]), start + settings.lockSeconds, n - 1);
      assert start + (n - 1) * settings.lockSeconds == start + settings.lockSeconds + (n - 2) * settings.lockSeconds;
    }
  }

  lemma {:induction false} BurstThenPatient(settings: Settings, u: User, start: Time, burst: nat, n: nat)
    requires settings.Valid() && n > 0 && u.failedAttempts + burst + 1 == settings.maxFailures && !Locked(u, start)
    ensures var events := Burst(start, burst) + Patient(start, n, settings.lockSeconds);
      && Count(settings, u, events, InvalidCredentials) == burst + n
      && Within(events, start, start + (n - 1) * settings.lockSeconds)
    decreases burst
  {
    var events := Burst(start, burst) + Patient(start, n, settings.lockSeconds);
    if burst == 0 {
      assert events == Patient(start, n, settings.lockSeconds);
      PatientIsNeverBlocked(settings, u, start, n);
    } else {
      assert events[0] == Attempt(start, false);
      assert events[1..] == Burst(start, burst - 1) + Patient(start, n, settings.lockSeconds);
      BurstThenPatient(settings, Step(settings, u, events[0]), start, burst - 1, n);
    }
  }

  /**
    The bound is met: for every k an attacker gets M + k passwords checked in k
    lock periods, so a lock that has expired buys one attempt, not M.
   */
  lemma BoundIsTight(settings: Settings, u: User, start: Time, k: nat)
    requires settings.Valid() && u.failedAttempts == 0 && u.lockedUntil.None?
    ensures exists events ::
      && Within(events, start, start + k * settings.lockSeconds)
      && Count(settings, u, events, InvalidCredentials) == settings.maxFailures + k
  {
    var events := Burst(start, settings.maxFailures - 1) + Patient(start, k + 1, settings.lockSeconds);
    BurstThenPatient(settings, u, start, settings.maxFailures - 1, k + 1);
    assert Within(events, start, start + k * settings.lockSeconds);
  }

  // ----------------------------------------------------------- after a success

  lemma {:induction false} FewFailuresNeverLock(settings: Settings, u: User, events: seq<Event>)
    requires u.lockedUntil.None?
    requires u.failedAttempts + Count(settings, u, events, InvalidCredentials) < settings.maxFailures
    ensures Count(settings, u, events, AccountLocked) == 0 && Run(settings, u, events).lockedUntil.None?
    decreases |events|
  {
    if events != [] {
      FewFailuresNeverLock(settings, Step(settings, u, events[0]), events[1..]);
    }
  }

  /**
    A login succeeds exactly for an active user with the right password and no
    lock in force. It is recorded as the last login and forgets every failure
    before it: however close to the lock the account was, nothing is blocked
    until M further failures have been checked.
   */
  lemma SuccessStartsAfresh(settings: Settings, u: User, now: Time, matches: bool, events: seq<Event>)
    ensures Login(settings, u, now, matches).1 == LoggedIn
      <==> u.active && matches && (u.lockedUntil.None? || u.lockedUntil.value <= now)
    ensures var (after, outcome) := Login(settings, u, now, matches);
      outcome == LoggedIn ==>
        && after.lastLoginAt == Some(now) && after.active
        && (Count(settings, after, events, InvalidCredentials) < settings.maxFailures ==>
              Count(settings, after, events, AccountLocked) == 0)
  {
    var (after, outcome) := Login(settings, u, now, matches);
    if outcome == LoggedIn && Count(settings, after, events, InvalidCredentials) < settings.maxFailures {
      FewFailuresNeverLock(settings, after, events);
    }
  }

  lemma {:induction false} InactiveNeverLogsIn(settings: Settings, u: User, events: seq<Event>)
    requires !u.active && forall i :: 0 <= i < |events| ==> events[i] != ActiveSet(true)
    ensures Count(settings, u, events, LoggedIn) == 0 && Run(settings, u, events).lastLoginAt == u.lastLoginAt
    decreases |events|
  {
    if events != [] {
      assert events[0] != ActiveSet(true);
      InactiveNeverLogsIn(settings, Step(settings, u, events[0]), events[1..]);
    }
  }

  /** A user who has been switched off does not log in, whatever is tried, until switched on again. */
  lemma SwitchedOffNeverLogsIn(settings: Settings, u: User, events: seq<Event>)
    requires forall i :: 0 <= i < |events| ==> events[i] != ActiveSet(true)
    ensures Count(settings, Step(settings, u, ActiveSet(false)), events, LoggedIn) == 0
    ensures Run(settings, u, [ActiveSet(false)] + events).lastLoginAt == u.lastLoginAt
  {
    assert ([ActiveSet(false)] + events)[1..] == events;
    InactiveNeverLogsIn(settings, Step(settings, u, ActiveSet(false)), events);
  }

  // ------------------------------------------------------------- while locked

  /**
    While a lock lasts no password login opens the account, changes the counter or
    the lock, or reaches the audit trail, whatever passwords are tried. A login
    through the identity provider is not held back by the lock.
   */
  lemma {:induction false} LockHolds(settings: Settings, u: User, events: seq<Event>)
    requires u.lockedUntil.Some?
    requires forall i :: 0 <= i < |events| && events[i].Attempt? ==> events[i].now < u.lockedUntil.value
    ensures var after := Run(settings, u, events);
      after == u.(active := after.active)
    ensures Count(settings, u, events, InvalidCredentials) == Count(settings, u, events, LoggedIn) == 0
    decreases |events|
  {
    if events != [] {
      LockHolds(settings, Step(settings, u, events[0]), events[1..]);
    }
  }

  function Entries(trail: seq<TrailEntry>, entry: TrailEntry): nat {
    multiset(trail)[entry]
  }

  /** The trail gains one entry for every failure checked and for every success, and none for a blocked attempt. */
  lemma {:induction false} TrailCountsWhatWasChecked(settings: Settings, u: User, events: seq<Event>)
    ensures var after := Run(settings, u, events);
      && Entries(after.trail, LoginFailed) == Entries(u.trail, LoginFailed)
        + Count(settings, u, events, InvalidCredentials)
      && Entries(after.trail, LoginSucceeded) == Entries(u.trail, LoginSucceeded) + Count(settings, u, events, LoggedIn)
      && |after.trail| == |u.trail| + Count(settings, u, events, InvalidCredentials)
        + Count(settings, u, events, LoggedIn)
    decreases |events|
  {
    if events != [] {
      TrailCountsWhatWasChecked(settings, Step(settings, u, events[0]), events[1..]);
    }
  }

  // ----------------------------------------------------------- imperative form

  class UserRow {
    var active: bool
    var failedAttempts: nat
    var lockedUntil: Option<Time>
    var lastLoginAt: Option<Time>
    var trail: seq<TrailEntry>

    constructor ()
      ensures Contents() == User(true, 0, None, None, [])
    {
      active, failedAttempts, lockedUntil, lastLoginAt, trail := true, 0, None, None, [];
    }

    function Contents(): User
      reads this
    {
      User(active, failedAttempts, lockedUntil, lastLoginAt, trail)
    }

    method SignIn(settings: Settings, now: Time, matches: bool) returns (outcome: Outcome)
      modifies this
      ensures (Contents(), outcome) == Login(settings, old(Contents()), now, matches)
    {
      if lockedUntil.Some? && lockedUntil.value > now {
        return AccountLocked;
      }
      if !active || !matches {
        failedAttempts := failedAttempts + 1;
        if failedAttempts >= settings.maxFailures {
          lockedUntil := Some(now + settings.lockSeconds);
        }
        trail := trail + [LoginFailed];
        return InvalidCredentials;
      }
      failedAttempts := 0;
      lockedUntil := None;
      lastLoginAt := Some(now);
      trail := trail + [LoginSucceeded];
      return LoggedIn;
    }
  }
}
