/**
 * Several server instances over one key store (dex/server/server.go,
 * dex/server/rotation.go, dex/server/oauth2.go). Each instance caches keys; calls
 * of keyCacher.GetKeys, rotations and the signing of ID tokens interleave freely
 * under a shared clock. The model keeps every record the store ever held, in
 * commit order, so that a value can be traced to the moment it was stored.
 */
module KeyProtocol {
  import opened Common
  import opened KeyRotation

  /**
   * The shared configuration, and the two delays a run is allowed: from the moment
   * a key was current to the time stamp of the token it signs, and from the clock
   * reading of a rotation to its commit. A store that blocks readers while an
   * updater runs behaves as commitDelay == 0.
   */
  datatype Config = Config(strategy: Strategy, signDelay: Time, commitDelay: Time) {
    ghost predicate Valid() {
      strategy.Valid() && signDelay >= 0 && commitDelay >= 0
    }
    function Slack(): Time {
      signDelay + commitDelay
    }
    /** How long a demoted key outlives its expiry, because nothing drops it before the next rotation. */
    function Extra(): Time {
      if strategy.frequency <= strategy.validFor then 0 else strategy.frequency - strategy.validFor - 1
    }
    /** How long after a key was current it is sure to be found in the store. */
    function Reach(): Time {
      strategy.validFor - commitDelay + Extra()
    }
  }

  /**
   * A call of keyCacher.GetKeys. The field start is the newest commit when the call
   * began; point and at name the commit and the time the returned keys were current.
   */
  datatype Call =
    | Loaded(instance: nat, start: nat, cached: Option<Keys>)
    | Reading(instance: nat, start: nat)
    | Fetched(instance: nat, start: nat, keys: Keys, point: nat, at: Time)
    | Caching(instance: nat, start: nat, keys: Keys, point: nat, at: Time)
    | Returned(start: nat, keys: Keys, point: nat, at: Time)

  /** A running updater: the commit it read and its first clock reading. */
  datatype Attempt = Attempt(seen: nat, tNow: Time)

  datatype Token = Token(key: Key, issuedAt: Time, expiry: Time, point: nat)

  /** A key set handed to a relying party, with the lifetime its Cache-Control header allows. */
  datatype KeySet = KeySet(keys: Keys, point: nat, servedAt: Time, lifetime: Time)

  datatype State = State(
    clock: Time,
    commits: seq<Keys>,
    rotatedAt: seq<Time>,
    caches: map<nat, Keys>,
    calls: map<nat, Call>,
    attempts: map<nat, Attempt>,
    tokens: set<Token>,
    served: set<KeySet>)

  const INIT: State := State(0, [NO_KEYS], [], map[], map[], map[], {}, {})

  datatype Action =
    | Tick(to: Time)
    | Load(call: nat, instance: nat)
    | CheckCache(call: nat)
    | ReadStore(call: nat)
    | CheckFetched(call: nat)
    | StoreCache(call: nat)
    | BeginRotation(rotation: nat)
    | CommitRotation(rotation: nat, tNext: Time, key: Key)
    | Sign(call: nat)
    | Serve(call: nat)

  /** The max-age, in whole seconds, that the keys endpoint announces at now. */
  function MaxAge(nextRotation: Time, now: Time): (seconds: nat)
    ensures seconds >= 120
  {
    var age := nextRotation - now;
    (if age < 2 * MINUTE then 2 * MINUTE else age) / SECOND
  }

  function SetCall(s: State, call: nat, next: Option<Call>): (r: State) {
    if next.None? then s else s.(calls := s.calls[call := next.value])
  }

  /** The cached record is returned while its rotation time lies ahead. */
  function Checked(s: State, call: nat): (r: Option<Call>)
    requires |s.commits| > 0
  {
    if call !in s.calls || !s.calls[call].Loaded? then None
    else
      var c := s.calls[call];
      if c.cached.Some? && s.clock < c.cached.value.nextRotation
      then Some(Returned(c.start, c.cached.value, |s.commits| - 1, s.clock))
      else Some(Reading(c.instance, c.start))
  }

  function Read(s: State, call: nat): (r: Option<Call>)
    requires |s.commits| > 0
  {
    if call !in s.calls || !s.calls[call].Reading? then None
    else
      var c, newest := s.calls[call], |s.commits| - 1;
      Some(Fetched(c.instance, c.start, s.commits[newest], newest, s.clock))
  }

  function Rechecked(s: State, call: nat): (r: Option<Call>) {
    if call !in s.calls || !s.calls[call].Fetched? then None
    else
      var c := s.calls[call];
      if s.clock < c.keys.nextRotation then Some(Caching(c.instance, c.start, c.keys, c.point, c.at))
      else Some(Returned(c.start, c.keys, c.point, c.at))
  }

  function DoLoad(s: State, call: nat, instance: nat): (r: State)
    requires |s.commits| > 0
  {
    if call in s.calls then s
    else
      var cached := if instance in s.caches then Some(s.caches[instance]) else None;
      s.(calls := s.calls[call := Loaded(instance, |s.commits| - 1, cached)])
  }

  function DoStoreCache(s: State, call: nat): (r: State) {
    if call !in s.calls || !s.calls[call].Caching? then s
    else
      var c := s.calls[call];
      s.(caches := s.caches[c.instance := c.keys],
         calls := s.calls[call := Returned(c.start, c.keys, c.point, c.at)])
  }

  /** Before the recorded time the updater returns errAlreadyRotated. */
  function DoBeginRotation(s: State, rotation: nat): (r: State)
    requires |s.commits| > 0
  {
    if rotation in s.attempts || s.clock < Last(s.commits).nextRotation then s
    else s.(attempts := s.attempts[rotation := Attempt(|s.commits| - 1, s.clock)])
  }

  /** The commit of a rotation; it fails if another came first. */
  function DoCommitRotation(cfg: Config, s: State, rotation: nat, tNext: Time, key: Key): (r: State)
    requires |s.commits| > 0
  {
    if rotation !in s.attempts then s
    else
      var attempt := s.attempts[rotation];
      var rest := s.(attempts := s.attempts - {rotation});
      if attempt.seen != |s.commits| - 1 || !(attempt.tNow <= tNext <= s.clock) ||
         s.clock - attempt.tNow > cfg.commitDelay then rest
      else
        rest.(commits := s.commits + [Rotated(Last(s.commits), cfg.strategy, attempt.tNow, tNext, key)],
              rotatedAt := s.rotatedAt + [attempt.tNow])
  }

  function DoSign(cfg: Config, s: State, call: nat): (r: State) {
    if call !in s.calls || !s.calls[call].Returned? then s
    else
      var c := s.calls[call];
      var rest := s.(calls := s.calls - {call});
      if c.keys.signing.None? || s.clock - c.at > cfg.signDelay then rest
      else
        rest.(tokens := s.tokens +
          {Token(c.keys.signing.value, s.clock, s.clock + cfg.strategy.validFor, c.point)})
  }

  function DoServe(s: State, call: nat): (r: State) {
    if call !in s.calls || !s.calls[call].Returned? then s
    else
      var c := s.calls[call];
      var rest := s.(calls := s.calls - {call});
      if c.keys.signing.None? then rest
      else
        rest.(served := s.served +
          {KeySet(c.keys, c.point, s.clock, MaxAge(c.keys.nextRotation, s.clock) * SECOND)})
  }

  /** One step; an action whose moment has not come leaves the state as it is. */
  function Apply(cfg: Config, s: State, a: Action): (r: State)
    requires |s.commits| > 0
    ensures |r.commits| > 0
  {
    match a
    case Tick(to) => if to < s.clock then s else s.(clock := to)
    case Load(call, instance) => DoLoad(s, call, instance)
    case CheckCache(call) => SetCall(s, call, Checked(s, call))
    case ReadStore(call) => SetCall(s, call, Read(s, call))
    case CheckFetched(call) => SetCall(s, call, Rechecked(s, call))
    case StoreCache(call) => DoStoreCache(s, call)
    case BeginRotation(rotation) => DoBeginRotation(s, rotation)
    case CommitRotation(rotation, tNext, key) => DoCommitRotation(cfg, s, rotation, tNext, key)
    case Sign(call) => DoSign(cfg, s, call)
    case Serve(call) => DoServe(s, call)
  }

  function Run(cfg: Config, s: State, actions: seq<Action>): (r: State)
    requires |s.commits| > 0
    ensures |r.commits| > 0
    decreases |actions|
  {
    if actions == [] then s else Run(cfg, Apply(cfg, s, actions[0]), actions[1..])
  }

  // ----- Invariants -----

  ghost predicate HistoryInv(cfg: Config, s: State)
    requires cfg.Valid()
  {
    && s.clock >= 0
    && |s.commits| > 0
    && |s.rotatedAt| == |s.commits| - 1
    && (forall i :: 0 <= i < |s.commits| - 1 ==> s.commits[i].nextRotation <= s.clock)
    && Paced(Last(s.commits), cfg.strategy)
    && (forall i, j :: 0 <= i < j < |s.rotatedAt| ==> s.rotatedAt[i] + cfg.strategy.frequency <= s.rotatedAt[j])
    && (forall i :: 0 <= i < |s.rotatedAt| ==>
                      s.rotatedAt[i] + cfg.strategy.frequency <= Last(s.commits).nextRotation)
    && |Last(s.commits).verification| <= cfg.strategy.validFor / cfg.strategy.frequency + 1
    && (forall r :: r in s.attempts ==>
                      && s.attempts[r].seen < |s.commits|
                      && s.commits[s.attempts[r].seen].nextRotation <= s.attempts[r].tNow <= s.clock)
  }

  ghost predicate CallInv(s: State, c: Call) {
    match c
    case Loaded(_, start, cached) => start < |s.commits| && (cached.Some? ==> cached.value in s.commits)
    case Reading(_, start) => start < |s.commits|
    case Fetched(_, start, keys, point, at) => Current(s, start, keys, point, at)
    case Caching(_, start, keys, point, at) => Current(s, start, keys, point, at)
    case Returned(start, keys, point, at) => Current(s, start, keys, point, at)
  }

  /** The keys were the stored record at commit point, no earlier than commit start. */
  ghost predicate Current(s: State, start: nat, keys: Keys, point: nat, at: Time) {
    start <= point < |s.commits| && s.commits[point] == keys && at <= s.clock
  }

  ghost predicate CacheInv(s: State) {
    && (forall i :: i in s.caches ==> s.caches[i] in s.commits)
    && CallsInv(s)
    && (forall k :: k in s.served ==> k.point < |s.commits| && s.commits[k.point] == k.keys && k.servedAt <= s.clock
                                      && k.lifetime == MaxAge(k.keys.nextRotation, k.servedAt) * SECOND)
    && (forall t :: t in s.tokens ==> t.point < |s.commits| && s.commits[t.point].signing == Some(t.key))
  }

  /** The record holds the key, and no rotation will drop it up to that time. */
  ghost predicate InRecord(cfg: Config, keys: Keys, key: Key, until: Time) {
    || keys.signing == Some(key)
    || exists v :: v in keys.verification && v.key == key && until <= v.expiry + cfg.Extra()
  }

  /** The key can be found in the stored record at every moment up to until. */
  ghost predicate Covered(cfg: Config, s: State, key: Key, until: Time)
    requires |s.commits| > 0
  {
    until < s.clock || InRecord(cfg, Last(s.commits), key, until)
  }

  /** The last moment at which a token's key is sure to be published. */
  function CoveredUntil(cfg: Config, t: Token): (r: Time) {
    t.expiry - cfg.Slack() + cfg.Extra()
  }

  ghost predicate HoldsKeys(c: Call) {
    c.Fetched? || c.Caching? || c.Returned?
  }

  ghost predicate CallCovered(cfg: Config, s: State, c: Call)
    requires |s.commits| > 0
  {
    HoldsKeys(c) && c.keys.signing.Some? ==>
      Covered(cfg, s, c.keys.signing.value, c.at + cfg.Reach())
  }

  ghost predicate CoverInv(cfg: Config, s: State)
    requires |s.commits| > 0
  {
    && (forall c :: c in s.calls ==> CallCovered(cfg, s, s.calls[c]))
    && (forall t :: t in s.tokens ==>
          && t.issuedAt <= s.clock
          && t.expiry == t.issuedAt + cfg.strategy.validFor
          && Covered(cfg, s, t.key, CoveredUntil(cfg, t)))
  }

  ghost predicate Inv(cfg: Config, s: State)
    requires cfg.Valid()
  {
    HistoryInv(cfg, s) && CacheInv(s) && CoverInv(cfg, s)
  }

  /** A record the store once held and whose rotation time lies ahead is the stored record. */
  lemma UnexpiredIsCurrent(cfg: Config, s: State, keys: Keys)
    requires cfg.Valid() && HistoryInv(cfg, s) && keys in s.commits && s.clock < keys.nextRotation
    ensures keys == Last(s.commits)
  {
    var i :| 0 <= i < |s.commits| && s.commits[i] == keys;
  }

  lemma CommitKeepsHistory(cfg: Config, s: State, a: Action)
    requires cfg.Valid() && HistoryInv(cfg, s) && a.CommitRotation?
    ensures HistoryInv(cfg, Apply(cfg, s, a))
  {
    var r := Apply(cfg, s, a);
    if r.commits != s.commits {
      var attempt := s.attempts[a.rotation];
      RotationKeepsPace(Last(s.commits), cfg.strategy, attempt.tNow, a.tNext, a.key);
      RetainedKeysBound(Last(s.commits), cfg.strategy, attempt.tNow, a.tNext, a.key);
    }
  }

  /** Time passes and the commit history only grows. */
  ghost predicate Later(s: State, r: State) {
    s.commits <= r.commits && s.clock <= r.clock
  }

  /** The clock, the stored records and the running updaters are as they were. */
  ghost predicate SameRecord(s: State, r: State) {
    r.clock == s.clock && r.commits == s.commits && r.rotatedAt == s.rotatedAt && r.attempts == s.attempts
  }

  lemma RecordFrame(cfg: Config, s: State, a: Action)
    requires |s.commits| > 0 && !a.CommitRotation? && !a.BeginRotation? && !a.Tick?
    ensures SameRecord(s, Apply(cfg, s, a))
  {
  }

  lemma SameRecordKeepsHistory(cfg: Config, s: State, r: State)
    requires cfg.Valid() && HistoryInv(cfg, s) && SameRecord(s, r)
    ensures HistoryInv(cfg, r)
  {
  }

  lemma TickKeepsHistory(cfg: Config, s: State, to: Time)
    requires cfg.Valid() && HistoryInv(cfg, s) && s.clock <= to
    ensures HistoryInv(cfg, s.(clock := to))
  {
  }

  lemma BeginKeepsHistory(cfg: Config, s: State, rotation: nat)
    requires cfg.Valid() && HistoryInv(cfg, s)
    ensures HistoryInv(cfg, DoBeginRotation(s, rotation))
  {
  }

  lemma StepKeepsHistory(cfg: Config, s: State, a: Action)
    requires cfg.Valid() && HistoryInv(cfg, s)
    ensures HistoryInv(cfg, Apply(cfg, s, a))
  {
    if a.CommitRotation? {
      CommitKeepsHistory(cfg, s, a);
    } else if a.BeginRotation? {
      BeginKeepsHistory(cfg, s, a.rotation);
    } else if a.Tick? {
      if s.clock <= a.to { TickKeepsHistory(cfg, s, a.to); }
    } else {
      RecordFrame(cfg, s, a);
      SameRecordKeepsHistory(cfg, s, Apply(cfg, s, a));
    }
  }

  lemma LaterKeepsCall(s: State, r: State, c: Call)
    requires Later(s, r) && CallInv(s, c)
    ensures CallInv(r, c)
  {
    assert forall k :: k in s.commits ==> k in r.commits;
  }

  lemma CheckedKeepsCall(cfg: Config, s: State, call: nat)
    requires cfg.Valid() && HistoryInv(cfg, s) && CacheInv(s) && Checked(s, call).Some?
    ensures CallInv(s, Checked(s, call).value)
  {
    var c := s.calls[call];
    assert CallInv(s, c);
    if c.cached.Some? && s.clock < c.cached.value.nextRotation {
      UnexpiredIsCurrent(cfg, s, c.cached.value);
    }
  }

  lemma ReadKeepsCall(s: State, call: nat)
    requires |s.commits| > 0 && CacheInv(s)
    ensures Read(s, call).Some? ==> CallInv(s, Read(s, call).value)
    ensures Rechecked(s, call).Some? ==> CallInv(s, Rechecked(s, call).value)
  {
    if call in s.calls {
      assert CallInv(s, s.calls[call]);
    }
  }

  predicate IsCallStep(a: Action) {
    a.CheckCache? || a.ReadStore? || a.CheckFetched? || a.StoreCache?
  }

  /** All calls are in order. */
  ghost predicate CallsInv(s: State) {
    forall c :: c in s.calls ==> CallInv(s, s.calls[c])
  }

  lemma SetCallKeepsCalls(s: State, call: nat, next: Option<Call>)
    requires CallsInv(s) && (next.Some? ==> CallInv(s, next.value))
    ensures CallsInv(SetCall(s, call, next))
  {
    var r := SetCall(s, call, next);
    forall c | c in r.calls ensures CallInv(r, r.calls[c]) {
      LaterKeepsCall(s, r, r.calls[c]);
    }
  }

  lemma StoreCacheKeepsCalls(s: State, call: nat)
    requires CallsInv(s)
    ensures CallsInv(DoStoreCache(s, call))
  {
    var r := DoStoreCache(s, call);
    forall c | c in r.calls ensures CallInv(r, r.calls[c]) {
      assert c in s.calls && CallInv(s, s.calls[c]);
    }
  }

  lemma LoadKeepsCalls(s: State, call: nat, instance: nat)
    requires |s.commits| > 0 && CacheInv(s)
    ensures CallsInv(DoLoad(s, call, instance))
  {
    var r := DoLoad(s, call, instance);
    forall c | c in r.calls ensures CallInv(r, r.calls[c]) {
      if c in s.calls { LaterKeepsCall(s, r, s.calls[c]); }
    }
  }

  /** The other steps leave calls as they were, or end them. */
  lemma CallFrame(cfg: Config, s: State, a: Action)
    requires |s.commits| > 0 && !IsCallStep(a) && !a.Load?
    ensures var r := Apply(cfg, s, a);
            Later(s, r) && forall c :: c in r.calls ==> c in s.calls && r.calls[c] == s.calls[c]
  {
  }

  lemma StepKeepsCalls(cfg: Config, s: State, a: Action)
    requires cfg.Valid() && HistoryInv(cfg, s) && CacheInv(s)
    ensures CallsInv(Apply(cfg, s, a))
  {
    if a.CheckCache? {
      if Checked(s, a.call).Some? { CheckedKeepsCall(cfg, s, a.call); }
      SetCallKeepsCalls(s, a.call, Checked(s, a.call));
    } else if a.ReadStore? {
      ReadKeepsCall(s, a.call);
      SetCallKeepsCalls(s, a.call, Read(s, a.call));
    } else if a.CheckFetched? {
      ReadKeepsCall(s, a.call);
      SetCallKeepsCalls(s, a.call, Rechecked(s, a.call));
    } else if a.StoreCache? {
      StoreCacheKeepsCalls(s, a.call);
    } else if a.Load? {
      LoadKeepsCalls(s, a.call, a.instance);
    } else {
      CallFrame(cfg, s, a);
      var r := Apply(cfg, s, a);
      forall c | c in r.calls ensures CallInv(r, r.calls[c]) { LaterKeepsCall(s, r, s.calls[c]); }
    }
  }

  lemma StepKeepsCached(cfg: Config, s: State, a: Action, instance: nat)
    requires cfg.Valid() && HistoryInv(cfg, s) && CacheInv(s)
    requires instance in Apply(cfg, s, a).caches
    ensures Apply(cfg, s, a).caches[instance] in Apply(cfg, s, a).commits
  {
    if a.StoreCache? && a.call in s.calls {
      assert CallInv(s, s.calls[a.call]);
    }
    if instance in s.caches {
      assert s.caches[instance] in s.commits;
    }
  }

  lemma StepKeepsCaches(cfg: Config, s: State, a: Action)
    requires cfg.Valid() && HistoryInv(cfg, s) && CacheInv(s)
    ensures CacheInv(Apply(cfg, s, a))
  {
    var r := Apply(cfg, s, a);
    forall i | i in r.caches ensures r.caches[i] in r.commits { StepKeepsCached(cfg, s, a, i); }
    StepKeepsCalls(cfg, s, a);
    if (a.Sign? || a.Serve?) && a.call in s.calls {
      assert CallInv(s, s.calls[a.call]);
    }
  }

  /** A rotation drops a verification key only after it expired and a whole period after it was demoted. */
  lemma DroppedKeysAreOld(cfg: Config, keys: Keys, v: VerificationKey, now: Time)
    requires cfg.Valid() && Paced(keys, cfg.strategy) && v in keys.verification && keys.nextRotation <= now
    ensures v in Unexpired(keys.verification, now) || v.expiry + cfg.Extra() < now
  {
    UnexpiredMembers(keys.verification, now, v);
  }

  /** The same for a stored record: a key found until then still is, or the time has passed. */
  lemma RotatedKeepsCovered(cfg: Config, keys: Keys, tNow: Time, tNext: Time, newKey: Key, key: Key, until: Time)
    requires cfg.Valid() && Paced(keys, cfg.strategy) && keys.nextRotation <= tNow
    requires keys.signing == Some(key) ==> until <= tNow + cfg.strategy.validFor + cfg.Extra()
    requires InRecord(cfg, keys, key, until)
    ensures until < tNow || InRecord(cfg, Rotated(keys, cfg.strategy, tNow, tNext, newKey), key, until)
  {
    var after := Rotated(keys, cfg.strategy, tNow, tNext, newKey);
    if keys.signing == Some(key) {
      assert Last(after.verification) == VerificationKey(key, tNow + cfg.strategy.validFor);
    } else {
      var v :| v in keys.verification && v.key == key && until <= v.expiry + cfg.Extra();
      DroppedKeysAreOld(cfg, keys, v, tNow);
      assert v in Unexpired(keys.verification, tNow) ==> v in after.verification;
    }
  }

  /** A rotation keeps a key available for as long as it was. */
  lemma CommitKeepsCovered(cfg: Config, s: State, a: Action, key: Key, until: Time)
    requires cfg.Valid() && HistoryInv(cfg, s) && a.CommitRotation?
    requires Covered(cfg, s, key, until)
    requires Last(s.commits).signing == Some(key) ==> until <= s.clock + cfg.Reach()
    ensures Covered(cfg, Apply(cfg, s, a), key, until)
  {
    var r := Apply(cfg, s, a);
    if r.commits != s.commits && !(until < s.clock) {
      var attempt := s.attempts[a.rotation];
      RotatedKeepsCovered(cfg, Last(s.commits), attempt.tNow, a.tNext, a.key, key, until);
    }
  }

  lemma CommitKeepsCoverage(cfg: Config, s: State, a: Action)
    requires cfg.Valid() && Inv(cfg, s) && a.CommitRotation?
    ensures CoverInv(cfg, Apply(cfg, s, a))
  {
    var r := Apply(cfg, s, a);
    forall c | c in r.calls ensures CallCovered(cfg, r, r.calls[c]) {
      var call := s.calls[c];
      assert CallInv(s, call) && CallCovered(cfg, s, call);
      if HoldsKeys(call) && call.keys.signing.Some? {
        CommitKeepsCovered(cfg, s, a, call.keys.signing.value, call.at + cfg.Reach());
      }
    }
    forall t | t in r.tokens ensures Covered(cfg, r, t.key, CoveredUntil(cfg, t)) {
      CommitKeepsCovered(cfg, s, a, t.key, CoveredUntil(cfg, t));
    }
  }

  /** What a call comes to hold is covered: newly read keys are the stored ones. */
  lemma CallStepKeepsCoverage(cfg: Config, s: State, a: Action, id: nat)
    requires cfg.Valid() && Inv(cfg, s) && IsCallStep(a) && id in Apply(cfg, s, a).calls
    ensures CallCovered(cfg, s, Apply(cfg, s, a).calls[id])
  {
    if id in s.calls {
      assert CallInv(s, s.calls[id]) && CallCovered(cfg, s, s.calls[id]);
    }
    if a.CheckCache? && Checked(s, a.call).Some? {
      var c := s.calls[a.call];
      assert CallInv(s, c);
      if c.cached.Some? && s.clock < c.cached.value.nextRotation {
        UnexpiredIsCurrent(cfg, s, c.cached.value);
      }
    }
  }

  /** Only a commit changes the stored record, and time does not go back. */
  lemma CommitFrame(cfg: Config, s: State, a: Action)
    requires |s.commits| > 0 && !a.CommitRotation?
    ensures Apply(cfg, s, a).commits == s.commits && s.clock <= Apply(cfg, s, a).clock
  {
  }

  lemma LaterKeepsCallCovered(cfg: Config, s: State, r: State, c: Call)
    requires |s.commits| > 0 && r.commits == s.commits && s.clock <= r.clock && CallCovered(cfg, s, c)
    ensures CallCovered(cfg, r, c)
  {
  }

  lemma StepKeepsCallCoverage(cfg: Config, s: State, a: Action, id: nat)
    requires cfg.Valid() && Inv(cfg, s) && !a.CommitRotation? && id in Apply(cfg, s, a).calls
    ensures CallCovered(cfg, Apply(cfg, s, a), Apply(cfg, s, a).calls[id])
  {
    var r := Apply(cfg, s, a);
    CommitFrame(cfg, s, a);
    if IsCallStep(a) {
      CallStepKeepsCoverage(cfg, s, a, id);
    } else if !a.Load? {
      CallFrame(cfg, s, a);
      assert CallCovered(cfg, s, s.calls[id]);
    } else if id in s.calls {
      assert CallCovered(cfg, s, s.calls[id]);
    }
    LaterKeepsCallCovered(cfg, s, r, r.calls[id]);
  }

  lemma StepKeepsCoverage(cfg: Config, s: State, a: Action)
    requires cfg.Valid() && Inv(cfg, s)
    ensures CoverInv(cfg, Apply(cfg, s, a))
  {
    if a.CommitRotation? {
      CommitKeepsCoverage(cfg, s, a);
    } else {
      var r := Apply(cfg, s, a);
      assert r.commits == s.commits;
      forall c | c in r.calls ensures CallCovered(cfg, r, r.calls[c]) { StepKeepsCallCoverage(cfg, s, a, c); }
      forall t | t in r.tokens
        ensures t.issuedAt <= r.clock && t.expiry == t.issuedAt + cfg.strategy.validFor
        ensures Covered(cfg, r, t.key, CoveredUntil(cfg, t))
      {
        if t in s.tokens {
          assert Covered(cfg, s, t.key, CoveredUntil(cfg, t));
        } else {
          var c := s.calls[a.call];
          assert CallCovered(cfg, s, c);
        }
      }
    }
  }

  lemma StepKeepsInv(cfg: Config, s: State, a: Action)
    requires cfg.Valid() && Inv(cfg, s)
    ensures Inv(cfg, Apply(cfg, s, a))
  {
    StepKeepsHistory(cfg, s, a);
    StepKeepsCaches(cfg, s, a);
    StepKeepsCoverage(cfg, s, a);
  }

  lemma {:induction false} RunKeepsInv(cfg: Config, s: State, actions: seq<Action>)
    requires cfg.Valid() && Inv(cfg, s)
    ensures Inv(cfg, Run(cfg, s, actions))
    decreases |actions|
  {
    if actions != [] {
      StepKeepsInv(cfg, s, actions[0]);
      RunKeepsInv(cfg, Apply(cfg, s, actions[0]), actions[1..]);
    }
  }

  lemma InitInv(cfg: Config)
    requires cfg.Valid()
    ensures Inv(cfg, INIT)
  {
    MultiplesBelow(0, cfg.strategy.validFor / cfg.strategy.frequency,
                   cfg.strategy.validFor % cfg.strategy.frequency, cfg.strategy.frequency);
  }

  // ----- Theorems over every run -----

  /** Every completed GetKeys call returned a record that was stored at some moment during the call. */
  lemma CacheCoherence(cfg: Config, actions: seq<Action>, call: nat)
    requires cfg.Valid()
    requires call in Run(cfg, INIT, actions).calls && Run(cfg, INIT, actions).calls[call].Returned?
    ensures var s := Run(cfg, INIT, actions);
            s.calls[call].start < |s.commits| && s.calls[call].keys in s.commits[s.calls[call].start..]
  {
    InitInv(cfg);
    RunKeepsInv(cfg, INIT, actions);
    var s := Run(cfg, INIT, actions);
    var c := s.calls[call];
    assert CallInv(s, c);
    assert s.commits[c.start..][c.point - c.start] == c.keys;
  }

  /** No instance ever serves a cached record that differs from the stored one. */
  lemma CacheMatchesStore(cfg: Config, actions: seq<Action>, instance: nat)
    requires cfg.Valid()
    ensures var s := Run(cfg, INIT, actions);
            instance in s.caches && s.clock < s.caches[instance].nextRotation ==>
              s.caches[instance] == Last(s.commits)
  {
    InitInv(cfg);
    RunKeepsInv(cfg, INIT, actions);
    var s := Run(cfg, INIT, actions);
    if instance in s.caches && s.clock < s.caches[instance].nextRotation {
      UnexpiredIsCurrent(cfg, s, s.caches[instance]);
    }
  }

  /**
   * The key that signed a token stays published until the token expires, less the run's
   * delays, plus the time a demoted key waits for the rotation that drops it.
   */
  lemma KeyCoverage(cfg: Config, actions: seq<Action>, token: Token)
    requires cfg.Valid()
    requires token in Run(cfg, INIT, actions).tokens
    ensures var s := Run(cfg, INIT, actions);
            s.clock <= CoveredUntil(cfg, token) ==> Published(Last(s.commits), token.key)
  {
    InitInv(cfg);
    RunKeepsInv(cfg, INIT, actions);
  }

  /** Rotations lie at least one period apart, and the verification list stays bounded. */
  lemma RotationsArePaced(cfg: Config, actions: seq<Action>)
    requires cfg.Valid()
    ensures var s := Run(cfg, INIT, actions);
            && (forall i, j :: 0 <= i < j < |s.rotatedAt| ==>
                  s.rotatedAt[i] + cfg.strategy.frequency <= s.rotatedAt[j])
            && Spaced(Last(s.commits).verification, cfg.strategy.frequency)
            && |Last(s.commits).verification| <= cfg.strategy.validFor / cfg.strategy.frequency + 1
  {
    InitInv(cfg);
    RunKeepsInv(cfg, INIT, actions);
  }

  /**
   * The announced lifetime ends by the next rotation exactly when two minutes were left, and then
   * within a second of it; otherwise it is two minutes.
   */
  lemma MaxAgeWithinRotation(nextRotation: Time, now: Time)
    ensures now + MaxAge(nextRotation, now) * SECOND <= nextRotation <==> now + 2 * MINUTE <= nextRotation
    ensures now + 2 * MINUTE <= nextRotation ==> nextRotation - SECOND < now + MaxAge(nextRotation, now) * SECOND
    ensures now + 2 * MINUTE > nextRotation ==> MaxAge(nextRotation, now) * SECOND == 2 * MINUTE
  {
    var age := nextRotation - now;
    if age >= 2 * MINUTE {
      assert age == (age / SECOND) * SECOND + age % SECOND;
    }
  }

  /**
   * A relying party that fetched the key set at least two minutes before the next
   * rotation holds the stored key set for its whole lifetime. So it can verify every
   * token whose key was read since, and every older token until that expires.
   */
  lemma KeySetStaysCurrent(cfg: Config, actions: seq<Action>, held: KeySet)
    requires cfg.Valid()
    requires held in Run(cfg, INIT, actions).served
    requires held.servedAt + 2 * MINUTE <= held.keys.nextRotation
    ensures var s := Run(cfg, INIT, actions);
            s.clock < held.servedAt + held.lifetime ==>
              && held.keys == Last(s.commits)
              && (forall t :: t in s.tokens && (t.point >= held.point || s.clock <= CoveredUntil(cfg, t)) ==>
                    Published(held.keys, t.key))
  {
    InitInv(cfg);
    RunKeepsInv(cfg, INIT, actions);
    var s := Run(cfg, INIT, actions);
    if s.clock < held.servedAt + held.lifetime {
      MaxAgeWithinRotation(held.keys.nextRotation, held.servedAt);
      UnexpiredIsCurrent(cfg, s, held.keys);
    }
  }

  /** No record, and no key set handed out, is more than one period ahead of its rotation. */
  ghost predicate AheadInv(cfg: Config, s: State) {
    && (forall i :: 0 <= i < |s.commits| ==> s.commits[i].nextRotation <= s.clock + cfg.strategy.frequency)
    && (forall k :: k in s.served ==> k.keys.nextRotation <= k.servedAt + cfg.strategy.frequency)
  }

  lemma StepKeepsAhead(cfg: Config, s: State, a: Action)
    requires cfg.Valid() && Inv(cfg, s) && AheadInv(cfg, s)
    ensures AheadInv(cfg, Apply(cfg, s, a))
  {
    if a.Serve? && a.call in s.calls {
      assert CallInv(s, s.calls[a.call]);
    }
  }

  lemma {:induction false} RunKeepsAhead(cfg: Config, s: State, actions: seq<Action>)
    requires cfg.Valid() && Inv(cfg, s) && AheadInv(cfg, s)
    ensures AheadInv(cfg, Run(cfg, s, actions))
    decreases |actions|
  {
    if actions != [] {
      StepKeepsInv(cfg, s, actions[0]);
      StepKeepsAhead(cfg, s, actions[0]);
      RunKeepsAhead(cfg, Apply(cfg, s, actions[0]), actions[1..]);
    }
  }

  /** Every key set is handed out within one period of the rotation it is good for, and lasts until then. */
  lemma KeySetsAreServedWithinPeriod(cfg: Config, actions: seq<Action>, held: KeySet)
    requires cfg.Valid() && held in Run(cfg, INIT, actions).served
    ensures held.keys.nextRotation <= held.servedAt + cfg.strategy.frequency
    ensures if held.servedAt + 2 * MINUTE <= held.keys.nextRotation
            then held.keys.nextRotation - SECOND < held.servedAt + held.lifetime <= held.keys.nextRotation
            else held.lifetime == 2 * MINUTE
  {
    InitInv(cfg);
    RunKeepsAhead(cfg, INIT, actions);
    RunKeepsInv(cfg, INIT, actions);
    MaxAgeWithinRotation(held.keys.nextRotation, held.servedAt);
  }
}
