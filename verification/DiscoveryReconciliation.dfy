/**
  Reconciling what a discovery run saw with the candidate table
  (discovery/application.py, `complete_run`), and the reviews of a candidate
  (`confirm_candidate`, `reject_candidate`).

  The fingerprint hash is a parameter and need not be injective. The assets that
  hold an address are the answer of a query, given as a function of the address.
 */
module DiscoveryReconciliation {
  import opened Wrappers

  type Time = int
  type Ip = nat
  type Fingerprint = nat
  type Port = nat
  type JobId = nat
  type RunId = nat
  type AssetId = nat
  type UserId = nat

  /** A tenant's project. */
  datatype Scope = Scope(tenant: nat, project: nat)

  /** The table's unique key. */
  datatype Key = Key(scope: Scope, fingerprint: Fingerprint)

  datatype Status = Pending | Confirmed | Rejected | Stale

  datatype MatchStatus = NoMatch | Unique | Ambiguous

  datatype Match = Match(status: MatchStatus, asset: Option<AssetId>)

  datatype Evidence = Evidence(observedAt: Time, openPorts: seq<Port>, run: RunId, job: JobId)

  datatype Review = Review(reviewedBy: UserId, at: Time)

  datatype Candidate = Candidate(
    job: JobId, lastRun: RunId, ip: Ip, hostname: Option<string>, ports: seq<Port>, evidence: Evidence, status: Status,
    found: Match, firstSeenAt: Time, lastSeenAt: Time, review: Option<Review>)

  type Candidates = map<Key, Candidate>

  datatype Observation = Observation(ip: Ip, openPorts: seq<Port>)

  /** One run being completed: whose it is, and when. */
  datatype Completion = Completion(scope: Scope, job: JobId, run: RunId, now: Time)

  type Hash = (Scope, Ip) -> Fingerprint

  function MatchOf(assets: seq<AssetId>): Match {
    if |assets| == 1 then Match(Unique, Some(assets[0]))
    else if |assets| > 1 then Match(Ambiguous, None)
    else Match(NoMatch, None)
  }

  function KeyOf(hash: Hash, scope: Scope, o: Observation): Key {
    Key(scope, hash(scope, o.ip))
  }

  predicate Sees(hash: Hash, scope: Scope, seen: seq<Observation>, key: Key) {
    exists i :: 0 <= i < |seen| && KeyOf(hash, scope, seen[i]) == key
  }

  lemma SeesLast(hash: Hash, scope: Scope, seen: seq<Observation>, key: Key)
    requires seen != []
    ensures var n := |seen| - 1;
      Sees(hash, scope, seen, key) <==> Sees(hash, scope, seen[..n], key) || KeyOf(hash, scope, seen[n]) == key
  {
    var n := |seen| - 1;
    if Sees(hash, scope, seen, key) {
      var i :| 0 <= i < |seen| && KeyOf(hash, scope, seen[i]) == key;
      assert i < n ==> seen[..n][i] == seen[i];
    }
  }

  function FirstSight(hash: Hash, scope: Scope, seen: seq<Observation>, key: Key): (o: Observation)
    requires Sees(hash, scope, seen, key)
    ensures o in seen && KeyOf(hash, scope, o) == key
  {
    var n := |seen| - 1;
    SeesLast(hash, scope, seen, key);
    if Sees(hash, scope, seen[..n], key) then FirstSight(hash, scope, seen[..n], key) else seen[n]
  }

  function LastSight(hash: Hash, scope: Scope, seen: seq<Observation>, key: Key): (o: Observation)
    requires Sees(hash, scope, seen, key)
    ensures o in seen && KeyOf(hash, scope, o) == key
  {
    var n := |seen| - 1;
    SeesLast(hash, scope, seen, key);
    if KeyOf(hash, scope, seen[n]) == key then seen[n] else LastSight(hash, scope, seen[..n], key)
  }

  /** What one sight makes of a candidate; `ip` is used only when there was none. */
  function Sighted(was: Option<Candidate>, ip: Ip, ports: seq<Port>, found: Match, c: Completion): Candidate {
    var evidence := Evidence(c.now, ports, c.run, c.job);
    match was
    case None => Candidate(c.job, c.run, ip, None, ports, evidence, Pending, found, c.now, c.now, None)
    case Some(previous) =>
      var reopened := previous.status in {Rejected, Stale};
      previous.(job := c.job, lastRun := c.run, ports := ports, evidence := evidence, lastSeenAt := c.now,
                found := found, status := if reopened then Pending else previous.status,
                review := if reopened then None else previous.review)
  }

  function Lookup(candidates: Candidates, key: Key): Option<Candidate> {
    if key in candidates then Some(candidates[key]) else None
  }

  /** A seen key: first seen through its first sight, described by its last one. */
  function SightedAll(hash: Hash, candidates: Candidates, seen: seq<Observation>, world: Ip -> seq<AssetId>,
                      c: Completion, key: Key): Candidate
    requires Sees(hash, c.scope, seen, key)
  {
    var first := FirstSight(hash, c.scope, seen, key);
    var last := LastSight(hash, c.scope, seen, key);
    Sighted(Lookup(candidates, key), first.ip, last.openPorts, MatchOf(world(last.ip)), c)
  }

  function SeenKeys(hash: Hash, scope: Scope, seen: seq<Observation>): (keys: set<Key>)
    ensures forall key :: key in keys <==> Sees(hash, scope, seen, key)
  {
    set i | 0 <= i < |seen| :: KeyOf(hash, scope, seen[i])
  }

  /** The run's job found it before, it awaits review, and the run did not see it. */
  predicate GoesStale(hash: Hash, candidates: Candidates, seen: seq<Observation>, c: Completion, key: Key)
    requires key in candidates
  {
    && !Sees(hash, c.scope, seen, key)
    && key.scope == c.scope && candidates[key].job == c.job && candidates[key].status == Pending
  }

  /** The whole completion as one map update. */
  ghost function Reconciled(hash: Hash, candidates: Candidates, seen: seq<Observation>, world: Ip -> seq<AssetId>,
                            c: Completion): Candidates
  {
    map key | key in candidates.Keys + SeenKeys(hash, c.scope, seen) ::
      if Sees(hash, c.scope, seen, key) then SightedAll(hash, candidates, seen, world, c, key)
      else if GoesStale(hash, candidates, seen, c, key) then candidates[key].(status := Stale)
      else candidates[key]
  }

  // ----------------------------------------------------------------- reviews

  /** Where a discovered asset comes from. */
  datatype Origin = Origin(candidate: Key, job: JobId, lastRun: RunId, confirmedAt: Time)

  datatype Asset = Asset(
    id: AssetId, scope: Scope, assetId: string, assetType: string, name: string, hostname: Option<string>, ips: seq<Ip>,
    environment: string, criticality: string, gxpClassification: string, tags: seq<string>, origin: Option<Origin>)

  datatype NewAsset = NewAsset(
    assetId: Option<string>, assetType: Option<string>, name: Option<string>,
    environment: string, criticality: string, gxpClassification: string, tags: seq<string>)

  /** An asset to link, as looked up, or the fields of one to create; `taken` says that its name is in use. */
  datatype Choice = Existing(asset: Option<Asset>) | Create(fields: NewAsset, taken: bool, created: AssetId)

  function ChosenAsset(key: Key, candidate: Candidate, choice: Choice, now: Time): Result<Asset, string> {
    match choice
    case Existing(None) => Err("AIOPS_3104")
    case Existing(Some(asset)) =>
      if asset.scope != key.scope || candidate.ip !in asset.ips then Err("AIOPS_3309") else Ok(asset)
    case Create(f, taken, created) =>
      if f.assetId.None? || f.assetType.None? || f.name.None? then Err("AIOPS_3310")
      else if taken then Err("AIOPS_3102")
      else
        Ok(Asset(created, key.scope, f.assetId.value, f.assetType.value, f.name.value, candidate.hostname,
                 [candidate.ip], f.environment, f.criticality, f.gxpClassification, f.tags,
                 Some(Origin(key, candidate.job, candidate.lastRun, now))))
  }

  /**
    Whichever way it was chosen, the asset lies in the candidate's project and
    holds its address, so it could be linked again.
   */
  lemma ChosenAssetHoldsTheAddress(key: Key, candidate: Candidate, choice: Choice, now: Time)
    requires ChosenAsset(key, candidate, choice, now).Ok?
    ensures var asset := ChosenAsset(key, candidate, choice, now).value;
      && asset.scope == key.scope && candidate.ip in asset.ips
      && ChosenAsset(key, candidate, Existing(Some(asset)), now) == Ok(asset)
  {
  }

  function Confirm(candidates: Candidates, key: Key, choice: Choice, review: Review): Result<Candidates, string> {
    if key !in candidates then Err("AIOPS_3305")
    else if candidates[key].status == Confirmed then Err("AIOPS_3308")
    else
      match ChosenAsset(key, candidates[key], choice, review.at)
      case Err(code) => Err(code)
      case Ok(asset) =>
        Ok(candidates[key := candidates[key].(status := Confirmed, found := Match(Unique, Some(asset.id)),
                                              review := Some(review))])
  }

  function Reject(candidates: Candidates, key: Key, review: Review): Result<Candidates, string> {
    if key !in candidates then Err("AIOPS_3305")
    else if candidates[key].status == Confirmed then Err("AIOPS_3311")
    else Ok(candidates[key := candidates[key].(status := Rejected, review := Some(review))])
  }

  // ------------------------------------------------- what one completion does

  /**
    After a completion, what still awaits review among the candidates of the
    run's job is exactly what the run saw and nobody had confirmed; what it saw
    and somebody had confirmed stays confirmed.
   */
  lemma PendingIsWhatWasSeen(hash: Hash, candidates: Candidates, seen: seq<Observation>, world: Ip -> seq<AssetId>,
                             c: Completion, key: Key)
    requires key.scope == c.scope
    ensures var after := Reconciled(hash, candidates, seen, world, c);
      var wasConfirmed := key in candidates && candidates[key].status == Confirmed;
      && ((key in after && after[key].job == c.job && after[key].status == Pending)
          <==> (Sees(hash, c.scope, seen, key) && !wasConfirmed))
      && (wasConfirmed ==>
            key in after && after[key].status == Confirmed && after[key].review == candidates[key].review)
  {
    var after := Reconciled(hash, candidates, seen, world, c);
    assert key in after <==> key in candidates || Sees(hash, c.scope, seen, key);
  }

  /**
    What the run saw is described by its last sight; what it did not see keeps
    everything but, for its own pending candidates, the status. Nothing is removed.
   */
  lemma SeenIsUpToDateAndTheRestIsKept(hash: Hash, candidates: Candidates, seen: seq<Observation>,
                                       world: Ip -> seq<AssetId>, c: Completion, i: nat, key: Key)
    requires i < |seen| && key == KeyOf(hash, c.scope, seen[i])
    requires forall j :: i < j < |seen| ==> KeyOf(hash, c.scope, seen[j]) != key
    ensures var after := Reconciled(hash, candidates, seen, world, c);
      && key in after
      && after[key].ports == after[key].evidence.openPorts == seen[i].openPorts
      && after[key].found == MatchOf(world(seen[i].ip))
      && after[key].lastRun == after[key].evidence.run == c.run && after[key].lastSeenAt == c.now
      && after[key].firstSeenAt == (if key in candidates then candidates[key].firstSeenAt else c.now)
    ensures var after := Reconciled(hash, candidates, seen, world, c);
      forall other: Key :: other in candidates && !Sees(hash, c.scope, seen, other) ==>
        && other in after
        && after[other] == candidates[other].(status := after[other].status)
        && (after[other].status != candidates[other].status ==>
              after[other].status == Stale && candidates[other].status == Pending && candidates[other].job == c.job
                && other.scope == c.scope)
  {
    LastSightIs(hash, c.scope, seen, key, i);
  }

  lemma {:induction false} LastSightIs(hash: Hash, scope: Scope, seen: seq<Observation>, key: Key, i: nat)
    requires i < |seen| && key == KeyOf(hash, scope, seen[i])
    requires forall j :: i < j < |seen| ==> KeyOf(hash, scope, seen[j]) != key
    ensures Sees(hash, scope, seen, key) && LastSight(hash, scope, seen, key) == seen[i]
  {
    var n := |seen| - 1;
    if i < n {
      assert seen[..n][i] == seen[i];
      LastSightIs(hash, scope, seen[..n], key, i);
    }
  }

  /**
    What a completion says about the assets holding an observed address: unique
    exactly for one, which it then names, ambiguous exactly for several, and no
    match exactly for none.
   */
  lemma MatchTellsHowManyHoldTheAddress(hash: Hash, candidates: Candidates, seen: seq<Observation>,
                                        world: Ip -> seq<AssetId>, c: Completion, i: nat, key: Key)
    requires i < |seen| && key == KeyOf(hash, c.scope, seen[i])
    requires forall j :: i < j < |seen| ==> KeyOf(hash, c.scope, seen[j]) != key
    ensures var found, holders := Reconciled(hash, candidates, seen, world, c)[key].found, world(seen[i].ip);
      && (found.status == Unique <==> |holders| == 1)
      && (found.status == Ambiguous <==> |holders| >= 2)
      && (found.status == NoMatch <==> holders == [])
      && (found.asset == if |holders| == 1 then Some(holders[0]) else None)
  {
    LastSightIs(hash, c.scope, seen, key, i);
  }

  /** An unseen candidate goes stale exactly when it awaited review, in the run's project, for the run's job. */
  lemma GoesStaleIff(hash: Hash, candidates: Candidates, seen: seq<Observation>, world: Ip -> seq<AssetId>,
                     c: Completion, key: Key)
    requires key in candidates && forall i :: 0 <= i < |seen| ==> KeyOf(hash, c.scope, seen[i]) != key
    ensures var after := Reconciled(hash, candidates, seen, world, c);
      && key in after
      && after[key] == candidates[key].(status := after[key].status)
      && (after[key].status == Stale
          <==> candidates[key].status == Stale
               || (candidates[key].status == Pending && candidates[key].job == c.job && key.scope == c.scope))
  {
  }

  /** The choice names an asset of the candidate's project with its address, or describes one under a free name. */
  predicate Acceptable(key: Key, candidate: Candidate, choice: Choice) {
    if choice.Existing? then
      choice.asset.Some? && choice.asset.value.scope == key.scope && candidate.ip in choice.asset.value.ips
    else
      choice.fields.assetId.Some? && choice.fields.assetType.Some? && choice.fields.name.Some? && !choice.taken
  }

  /**
    When a confirmation succeeds and what it leaves: any candidate not confirmed
    yet, with an acceptable choice, is confirmed under the review and matched to
    the one asset chosen; nothing else of it, and no other candidate, changes.
   */
  lemma ConfirmationOutcome(candidates: Candidates, key: Key, choice: Choice, review: Review)
    ensures Confirm(candidates, key, choice, review).Ok?
      <==> key in candidates && candidates[key].status != Confirmed && Acceptable(key, candidates[key], choice)
    ensures Confirm(candidates, key, choice, review).Ok? ==>
      var after := Confirm(candidates, key, choice, review).value;
      var asset := if choice.Existing? then choice.asset.value.id else choice.created;
      && after[key].status == Confirmed && after[key].review == Some(review)
      && after[key].found.status == Unique && after[key].found.asset == Some(asset)
      && after == candidates[key := candidates[key].(status := after[key].status, found := after[key].found,
                                                     review := after[key].review)]
  {
  }

  /** An asset created for a candidate is the one asked for, at the candidate's address, and says where it came from. */
  lemma CreatedAssetIsAsAsked(key: Key, candidate: Candidate, choice: Choice, now: Time)
    requires choice.Create? && Acceptable(key, candidate, choice)
    ensures ChosenAsset(key, candidate, choice, now).Ok?
    ensures var asset, asked := ChosenAsset(key, candidate, choice, now).value, choice.fields;
      && asset.id == choice.created && asset.scope == key.scope && asset.ips == [candidate.ip]
      && asset.assetId == asked.assetId.value && asset.assetType == asked.assetType.value
      && asset.name == asked.name.value && asset.hostname == candidate.hostname
      && asset.environment == asked.environment && asset.criticality == asked.criticality
      && asset.gxpClassification == asked.gxpClassification && asset.tags == asked.tags
      && asset.origin.Some?
      && var origin := asset.origin.value;
      && origin.candidate == key && origin.job == candidate.job && origin.lastRun == candidate.lastRun
      && origin.confirmedAt == now
  {
  }

  /**
    Any candidate not confirmed yet can be rejected, under the review; a rejected
    or stale one awaits review again, without it, exactly when a run sees it.
   */
  lemma RejectionOutcome(hash: Hash, candidates: Candidates, key: Key, review: Review, seen: seq<Observation>,
                         world: Ip -> seq<AssetId>, c: Completion)
    ensures Reject(candidates, key, review).Ok? <==> key in candidates && candidates[key].status != Confirmed
    ensures Reject(candidates, key, review).Ok? ==>
      var after := Reject(candidates, key, review).value;
      && after[key].status == Rejected && after[key].review == Some(review)
      && after == candidates[key := candidates[key].(status := after[key].status, review := after[key].review)]
      && var later := Reconciled(hash, after, seen, world, c);
      && key in later
      && (if Sees(hash, c.scope, seen, key) then later[key].status == Pending && later[key].review.None?
          else later[key] == after[key])
  {
  }

  // --------------------------------------------------------------------- runs

  datatype Event =
    | RunCompleted(seen: seq<Observation>, world: Ip -> seq<AssetId>, completion: Completion)
    | CandidateConfirmed(key: Key, choice: Choice, review: Review)
    | CandidateRejected(key: Key, review: Review)

  function Settled(result: Result<Candidates, string>, otherwise: Candidates): Candidates {
    if result.Ok? then result.value else otherwise
  }

  ghost function Step(hash: Hash, candidates: Candidates, e: Event): Candidates {
    match e
    case RunCompleted(seen, world, c) => Reconciled(hash, candidates, seen, world, c)
    case CandidateConfirmed(key, choice, review) => Settled(Confirm(candidates, key, choice, review), candidates)
    case CandidateRejected(key, review) => Settled(Reject(candidates, key, review), candidates)
  }

  ghost function Run(hash: Hash, candidates: Candidates, events: seq<Event>): Candidates
    decreases |events|
  {
    if events == [] then candidates else Run(hash, Step(hash, candidates, events[0]), events[1..])
  }

  /** What every candidate satisfies, whatever happened to it. */
  predicate WellKept(hash: Hash, key: Key, candidate: Candidate) {
    && hash(key.scope, candidate.ip) == key.fingerprint
    && (candidate.review.Some? <==> candidate.status in {Confirmed, Rejected})
    && candidate.evidence.run == candidate.lastRun && candidate.evidence.job == candidate.job
    && candidate.evidence.openPorts == candidate.ports && candidate.evidence.observedAt == candidate.lastSeenAt
    && (candidate.found.status == Unique <==> candidate.found.asset.Some?)
  }

  predicate Inv(hash: Hash, candidates: Candidates) {
    forall key: Key :: key in candidates ==> WellKept(hash, key, candidates[key])
  }

  lemma StepKeepsInv(hash: Hash, candidates: Candidates, e: Event)
    requires Inv(hash, candidates)
    ensures Inv(hash, Step(hash, candidates, e))
  {
    if e.RunCompleted? {
      var c := e.completion;
      forall key: Key | key in Step(hash, candidates, e)
        ensures WellKept(hash, key, Step(hash, candidates, e)[key])
      {
        assert key in candidates ==> WellKept(hash, key, candidates[key]);
      }
    }
  }

  lemma {:induction false} RunKeepsInv(hash: Hash, candidates: Candidates, events: seq<Event>)
    requires Inv(hash, candidates)
    ensures Inv(hash, Run(hash, candidates, events))
    decreases |events|
  {
    if events != [] {
      StepKeepsInv(hash, candidates, events[0]);
      RunKeepsInv(hash, Step(hash, candidates, events[0]), events[1..]);
    }
  }

  /**
    Over every run an address has at most one candidate in its project, a
    candidate carries a review exactly when it is confirmed or rejected, and its
    evidence is that of the last run that saw it.
   */
  lemma OneCandidatePerAddress(hash: Hash, events: seq<Event>, key: Key, other: Key)
    ensures var candidates := Run(hash, map[], events);
      && (key in candidates && other in candidates && key.scope == other.scope
          && candidates[key].ip == candidates[other].ip
          ==> key == other)
      && (key in candidates ==> WellKept(hash, key, candidates[key]))
  {
    RunKeepsInv(hash, map[], events);
  }

  /** Two addresses of a project with one fingerprint. */
  predicate Collision(hash: Hash, scope: Scope, a: Ip, b: Ip) {
    a != b && hash(scope, a) == hash(scope, b)
  }

  /** An observed address gets a candidate with that address, or the hash collides. */
  lemma ObservedAddressHasItsCandidate(hash: Hash, events: seq<Event>, last: Event, o: Observation)
    requires last.RunCompleted? && o in last.seen
    ensures var after := Run(hash, map[], events + [last]);
      var key := KeyOf(hash, last.completion.scope, o);
      && key in after && (after[key].status == Pending || after[key].status == Confirmed)
      && (after[key].ip == o.ip || Collision(hash, key.scope, after[key].ip, o.ip))
  {
    var key := KeyOf(hash, last.completion.scope, o);
    RunOfAppended(hash, map[], events, last);
    RunKeepsInv(hash, map[], events + [last]);
    assert Sees(hash, last.completion.scope, last.seen, key);
  }

  lemma {:induction false} RunOfAppended(hash: Hash, candidates: Candidates, events: seq<Event>, last: Event)
    ensures Run(hash, candidates, events + [last]) == Step(hash, Run(hash, candidates, events), last)
    decreases |events|
  {
    if events == [] {
      assert events + [last] == [last];
    } else {
      RunOfAppended(hash, Step(hash, candidates, events[0]), events[1..], last);
      assert (events + [last])[1..] == events[1..] + [last];
    }
  }

  /** Over every run a confirmed candidate stays confirmed, by the same user, and none disappears or changes address. */
  lemma {:induction false} ConfirmedIsForever(hash: Hash, candidates: Candidates, events: seq<Event>, key: Key)
    requires key in candidates
    ensures var after := Run(hash, candidates, events);
      && key in after && after[key].ip == candidates[key].ip && after[key].firstSeenAt == candidates[key].firstSeenAt
      && (candidates[key].status == Confirmed ==>
          after[key].status == Confirmed && after[key].review == candidates[key].review)
    decreases |events|
  {
    if events != [] {
      ConfirmedIsForever(hash, Step(hash, candidates, events[0]), events[1..], key);
    }
  }

  // --------------------------------------------- the loops make the map update

  /** The first loop: one sight after the other. */
  function AfterSights(hash: Hash, candidates: Candidates, seen: seq<Observation>, world: Ip -> seq<AssetId>,
                       c: Completion): Candidates
  {
    if seen == [] then candidates
    else
      var o := seen[|seen| - 1];
      var done := AfterSights(hash, candidates, seen[..|seen| - 1], world, c);
      var key := KeyOf(hash, c.scope, o);
      done[key := Sighted(Lookup(done, key), o.ip, o.openPorts, MatchOf(world(o.ip)), c)]
  }

  function Fingerprints(hash: Hash, scope: Scope, seen: seq<Observation>): set<Fingerprint> {
    if seen == [] then {} else Fingerprints(hash, scope, seen[..|seen| - 1]) + {hash(scope, seen[|seen| - 1].ip)}
  }

  function PendingOf(candidates: Candidates, c: Completion): set<Key> {
    set key | key in candidates && key.scope == c.scope && candidates[key].job == c.job
      && candidates[key].status == Pending
  }

  /** The second loop: the unseen ones among `keys` become stale. */
  function Staled(candidates: Candidates, fingerprints: set<Fingerprint>, keys: set<Key>): Candidates {
    map key | key in candidates ::
      if key in keys && key.fingerprint !in fingerprints then candidates[key].(status := Stale) else candidates[key]
  }

  lemma StaleOneMore(candidates: Candidates, fingerprints: set<Fingerprint>, keys: set<Key>, key: Key)
    requires key in candidates
    ensures var staled := Staled(candidates, fingerprints, keys);
      Staled(candidates, fingerprints, keys + {key})
      == if key.fingerprint in fingerprints then staled else staled[key := staled[key].(status := Stale)]
  {
  }

  lemma {:induction false} FingerprintsAreSeen(hash: Hash, scope: Scope, seen: seq<Observation>, key: Key)
    requires key.scope == scope
    ensures key.fingerprint in Fingerprints(hash, scope, seen) <==> Sees(hash, scope, seen, key)
  {
    if seen != [] {
      SeesLast(hash, scope, seen, key);
      FingerprintsAreSeen(hash, scope, seen[..|seen| - 1], key);
    }
  }

  /** Sight after sight, a key ends as its first and last sight say. */
  lemma {:induction false} SightsOfKey(hash: Hash, candidates: Candidates, seen: seq<Observation>,
                                       world: Ip -> seq<AssetId>, c: Completion, key: Key)
    ensures Lookup(AfterSights(hash, candidates, seen, world, c), key)
            == if Sees(hash, c.scope, seen, key) then Some(SightedAll(hash, candidates, seen, world, c, key))
               else Lookup(candidates, key)
  {
    if seen != [] {
      SeesLast(hash, c.scope, seen, key);
      SightsOfKey(hash, candidates, seen[..|seen| - 1], world, c, key);
    }
  }

  lemma LoopsReconcileKey(hash: Hash, candidates: Candidates, seen: seq<Observation>, world: Ip -> seq<AssetId>,
                          c: Completion, key: Key)
    ensures var sighted := AfterSights(hash, candidates, seen, world, c);
      Lookup(Staled(sighted, Fingerprints(hash, c.scope, seen), PendingOf(sighted, c)), key)
      == Lookup(Reconciled(hash, candidates, seen, world, c), key)
  {
    SightsOfKey(hash, candidates, seen, world, c, key);
    if key.scope == c.scope {
      FingerprintsAreSeen(hash, c.scope, seen, key);
    }
  }

  /** The two loops of `complete_run` together are the map update. */
  lemma LoopsReconcile(hash: Hash, candidates: Candidates, seen: seq<Observation>, world: Ip -> seq<AssetId>,
                       c: Completion)
    ensures var sighted := AfterSights(hash, candidates, seen, world, c);
      Staled(sighted, Fingerprints(hash, c.scope, seen), PendingOf(sighted, c))
        == Reconciled(hash, candidates, seen, world, c)
  {
    var sighted := AfterSights(hash, candidates, seen, world, c);
    var looped := Staled(sighted, Fingerprints(hash, c.scope, seen), PendingOf(sighted, c));
    var updated := Reconciled(hash, candidates, seen, world, c);
    forall key: Key
      ensures Lookup(looped, key) == Lookup(updated, key)
    {
      LoopsReconcileKey(hash, candidates, seen, world, c, key);
    }
    SameLookups(looped, updated);
  }

  lemma SameLookups(a: Candidates, b: Candidates)
    requires forall key: Key :: Lookup(a, key) == Lookup(b, key)
    ensures a == b
  {
    forall key: Key
      ensures key in a <==> key in b
      ensures key in a ==> a[key] == b[key]
    {
      assert Lookup(a, key) == Lookup(b, key);
    }
  }

  // ----------------------------------------------------------- imperative form

  class RunRecord {
    var succeeded: bool
    var observedHosts: nat
    var candidateCount: nat
    var completedAt: Option<Time>

    constructor ()
      ensures !succeeded && completedAt.None?
    {
      succeeded, observedHosts, candidateCount, completedAt := false, 0, 0, None;
    }
  }

  class CandidateTable {
    var candidates: Candidates

    constructor ()
      ensures candidates == map[]
    {
      candidates := map[];
    }

    /** The first loop: every observation in order, with the set of what was seen. */
    method RecordSights(hash: Hash, seen: seq<Observation>, world: Ip -> seq<AssetId>, c: Completion)
      returns (fingerprints: set<Fingerprint>, count: nat)
      modifies this
      ensures candidates == AfterSights(hash, old(candidates), seen, world, c)
      ensures fingerprints == Fingerprints(hash, c.scope, seen) && count == |seen|
    {
      fingerprints, count := {}, 0;
      ghost var before := candidates;
      for i := 0 to |seen|
        invariant candidates == AfterSights(hash, before, seen[..i], world, c)
        invariant fingerprints == Fingerprints(hash, c.scope, seen[..i])
        invariant count == i
      {
        assert seen[..i + 1][..i] == seen[..i];
        var o := seen[i];
        var key := KeyOf(hash, c.scope, o);
        fingerprints := fingerprints + {key.fingerprint};
        ghost var done := candidates;
        var found := MatchOf(world(o.ip));
        var evidence := Evidence(c.now, o.openPorts, c.run, c.job);
        if key !in candidates {
          var candidate := Candidate(c.job, c.run, o.ip, None, o.openPorts, evidence, Pending, found,
                                     c.now, c.now, None);
          candidates := candidates[key := candidate];
        } else {
          var candidate := candidates[key].(job := c.job, lastRun := c.run, ports := o.openPorts, evidence := evidence);
          candidate := candidate.(lastSeenAt := c.now, found := found);
          if candidate.status in {Rejected, Stale} {
            candidate := candidate.(status := Pending, review := None);
          }
          candidates := candidates[key := candidate];
        }
        assert candidates == done[key := Sighted(Lookup(done, key), o.ip, o.openPorts, found, c)];
        count := count + 1;
      }
      assert seen[..|seen|] == seen;
    }

    /** The second loop: the job's pending candidates, in any order. */
    method MarkUnseen(fingerprints: set<Fingerprint>, c: Completion)
      modifies this
      ensures candidates == Staled(old(candidates), fingerprints, PendingOf(old(candidates), c))
    {
      ghost var before := candidates;
      var previous := PendingOf(candidates, c);
      var todo := previous;
      while todo != {}
        invariant todo <= previous
        invariant candidates == Staled(before, fingerprints, previous - todo)
        decreases |todo|
      {
        var key :| key in todo;
        StaleOneMore(before, fingerprints, previous - todo, key);
        assert previous - (todo - {key}) == (previous - todo) + {key};
        if key.fingerprint !in fingerprints {
          candidates := candidates[key := candidates[key].(status := Stale)];
        }
        todo := todo - {key};
      }
      assert previous - todo == previous;
    }

    method CompleteRun(hash: Hash, run: RunRecord, seen: seq<Observation>, world: Ip -> seq<AssetId>, c: Completion)
      modifies this, run
      ensures candidates == Reconciled(hash, old(candidates), seen, world, c)
      ensures run.succeeded && run.observedHosts == run.candidateCount == |seen| && run.completedAt == Some(c.now)
    {
      var fingerprints, count := RecordSights(hash, seen, world, c);
      MarkUnseen(fingerprints, c);
      LoopsReconcile(hash, old(candidates), seen, world, c);
      run.succeeded := true;
      run.observedHosts := |seen|;
      run.candidateCount := count;
      run.completedAt := Some(c.now);
    }

    method ConfirmCandidate(key: Key, choice: Choice, review: Review) returns (confirmed: Result<Asset, string>)
      modifies this
      ensures confirmed.Ok? ==>
        && Confirm(old(candidates), key, choice, review) == Ok(candidates)
        && key in old(candidates) && ChosenAsset(key, old(candidates)[key], choice, review.at) == confirmed
      ensures confirmed.Err? ==>
        candidates == old(candidates) && Confirm(old(candidates), key, choice, review) == Err(confirmed.error)
    {
      if key !in candidates {
        return Err("AIOPS_3305");
      }
      var candidate := candidates[key];
      if candidate.status == Confirmed {
        return Err("AIOPS_3308");
      }
      confirmed := ChosenAsset(key, candidate, choice, review.at);
      if confirmed.Ok? {
        candidate := candidate.(status := Confirmed);
        candidate := candidate.(found := Match(Unique, Some(confirmed.value.id)));
        candidate := candidate.(review := Some(review));
        candidates := candidates[key := candidate];
      }
    }

    method RejectCandidate(key: Key, review: Review) returns (error: Option<string>)
      modifies this
      ensures error.None? == Reject(old(candidates), key, review).Ok?
      ensures error.None? ==> candidates == Reject(old(candidates), key, review).value
      ensures error.Some? ==> candidates == old(candidates) && Reject(old(candidates), key, review) == Err(error.value)
    {
      if key !in candidates {
        return Some("AIOPS_3305");
      }
      var candidate := candidates[key];
      if candidate.status == Confirmed {
        return Some("AIOPS_3311");
      }
      candidate := candidate.(status := Rejected);
      candidate := candidate.(review := Some(review));
      candidates := candidates[key := candidate];
      return None;
    }
  }
}
