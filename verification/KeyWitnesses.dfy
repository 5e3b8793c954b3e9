/**
 * Runs that show the guarantees of KeyProtocol cannot be stated more strongly: the
 * delays really shorten the time a key stays published, and a key set fetched within
 * two minutes of a rotation can miss the key of a new token.
 */
module KeyWitnesses {
  import opened Common
  import opened KeyRotation
  import opened KeyProtocol

  ghost predicate Reachable(cfg: Config, s: State) {
    exists actions :: Run(cfg, INIT, actions) == s
  }

  lemma {:induction false} RunAppend(cfg: Config, s: State, actions: seq<Action>, a: Action)
    requires |s.commits| > 0
    ensures Run(cfg, s, actions + [a]) == Apply(cfg, Run(cfg, s, actions), a)
    decreases |actions|
  {
    if actions == [] {
      assert Run(cfg, Apply(cfg, s, a), [a][1..]) == Apply(cfg, s, a);
      assert actions + [a] == [a];
    } else {
      assert (actions + [a])[1..] == actions[1..] + [a];
      RunAppend(cfg, Apply(cfg, s, actions[0]), actions[1..], a);
    }
  }

  lemma Step(cfg: Config, s: State, a: Action, t: State)
    requires |s.commits| > 0 && Reachable(cfg, s) && Apply(cfg, s, a) == t
    ensures Reachable(cfg, t)
  {
    var actions :| Run(cfg, INIT, actions) == s;
    RunAppend(cfg, INIT, actions, a);
  }

  /** The state after a rotation whose clock readings all coincide. */
  function AfterRotation(cfg: Config, s: State, key: Key): (r: State)
    requires |s.commits| > 0
  {
    s.(commits := s.commits + [Rotated(Last(s.commits), cfg.strategy, s.clock, s.clock, key)],
       rotatedAt := s.rotatedAt + [s.clock])
  }

  lemma Rotate(cfg: Config, s: State, key: Key)
    requires cfg.Valid() && |s.commits| > 0 && Reachable(cfg, s) && s.attempts == map[]
    requires s.clock >= Last(s.commits).nextRotation
    ensures Reachable(cfg, AfterRotation(cfg, s, key))
  {
    var t := s.(attempts := map[0 := Attempt(|s.commits| - 1, s.clock)]);
    Step(cfg, s, BeginRotation(0), t);
    assert t.attempts - {0} == map[];
    Step(cfg, t, CommitRotation(0, s.clock, key), AfterRotation(cfg, s, key));
  }

  /** The state with call 0 in progress and no other. */
  function InCall(s: State, c: Call): (r: State) {
    s.(calls := map[0 := c])
  }

  /** A GetKeys call that does not find usable keys in the cache of instance 0. */
  lemma MissCache(cfg: Config, s: State)
    requires |s.commits| > 0 && Reachable(cfg, s) && s.calls == map[]
    requires 0 in s.caches ==> s.clock >= s.caches[0].nextRotation
    ensures Reachable(cfg, InCall(s, Reading(0, |s.commits| - 1)))
  {
    var n := |s.commits| - 1;
    var loaded := Loaded(0, n, if 0 in s.caches then Some(s.caches[0]) else None);
    Step(cfg, s, Load(0, 0), InCall(s, loaded));
    assert Checked(InCall(s, loaded), 0) == Some(Reading(0, n));
    Step(cfg, InCall(s, loaded), CheckCache(0), InCall(s, Reading(0, n)));
  }

  lemma ReadOnce(cfg: Config, s: State)
    requires |s.commits| > 0 && Reachable(cfg, s) && s.calls == map[]
    requires 0 in s.caches ==> s.clock >= s.caches[0].nextRotation
    ensures var n := |s.commits| - 1;
            Reachable(cfg, InCall(s, Fetched(0, n, s.commits[n], n, s.clock)))
  {
    var n := |s.commits| - 1;
    MissCache(cfg, s);
    assert KeyProtocol.Read(InCall(s, Reading(0, n)), 0) == Some(Fetched(0, n, s.commits[n], n, s.clock));
    Step(cfg, InCall(s, Reading(0, n)), ReadStore(0), InCall(s, Fetched(0, n, s.commits[n], n, s.clock)));
  }

  /** The state after the first rotation, at time 0, with key 1. */
  function Started(cfg: Config): (r: State) {
    State(0, [NO_KEYS, Keys(Some(1), [], cfg.strategy.frequency)], [0], map[], map[], map[], {}, {})
  }

  lemma Start(cfg: Config)
    requires cfg.Valid()
    ensures Reachable(cfg, Started(cfg))
  {
    assert Run(cfg, INIT, []) == INIT;
    Rotate(cfg, INIT, 1);
    assert Rotated(NO_KEYS, cfg.strategy, 0, 0, 1) == Keys(Some(1), [], cfg.strategy.frequency);
  }

  /** A slow commit demotes key 1 as of F while a reader still picks it up at F + c. */
  function LateRead(cfg: Config): (r: State) {
    var f, v, t := cfg.strategy.frequency, cfg.strategy.validFor, cfg.strategy.frequency + cfg.commitDelay;
    var k1 := Keys(Some(1), [], f);
    State(t, [NO_KEYS, k1, Keys(Some(2), [VerificationKey(1, f + v)], 2 * f)], [0, f],
          map[], map[0 := Returned(1, k1, 1, t)], map[], {}, {})
  }

  /** A rotation begun at F has not committed at F + c. */
  function Pending(cfg: Config): (r: State) {
    var f := cfg.strategy.frequency;
    Started(cfg).(clock := f + cfg.commitDelay, attempts := map[0 := Attempt(1, f)])
  }

  lemma ReachPending(cfg: Config)
    requires cfg.Valid()
    ensures Reachable(cfg, Pending(cfg))
  {
    var f := cfg.strategy.frequency;
    var s0 := Started(cfg);
    Start(cfg);
    var s1 := s0.(clock := f);
    Step(cfg, s0, Tick(f), s1);
    var s2 := s1.(attempts := map[0 := Attempt(1, f)]);
    Step(cfg, s1, BeginRotation(0), s2);
    Step(cfg, s2, Tick(f + cfg.commitDelay), Pending(cfg));
  }

  /** The reader has its answer while that rotation is pending. */
  function Answered(cfg: Config): (r: State) {
    var f, t := cfg.strategy.frequency, cfg.strategy.frequency + cfg.commitDelay;
    Pending(cfg).(calls := map[0 := Returned(1, Keys(Some(1), [], f), 1, t)])
  }

  lemma ReachAnswered(cfg: Config)
    requires cfg.Valid()
    ensures Reachable(cfg, Answered(cfg))
  {
    var f, t := cfg.strategy.frequency, cfg.strategy.frequency + cfg.commitDelay;
    ReachPending(cfg);
    ReadOnce(cfg, Pending(cfg));
    var s1 := Pending(cfg).(calls := map[0 := Fetched(0, 1, Keys(Some(1), [], f), 1, t)]);
    Step(cfg, s1, CheckFetched(0), Answered(cfg));
  }

  lemma ReachLateRead(cfg: Config)
    requires cfg.Valid()
    ensures Reachable(cfg, LateRead(cfg))
  {
    ReachAnswered(cfg);
    CommitLateRead(cfg, Answered(cfg));
  }

  lemma CommitLateRead(cfg: Config, s: State)
    requires cfg.Valid() && Reachable(cfg, s)
    requires s == LateRead(cfg).(commits := LateRead(cfg).commits[..2], rotatedAt := [0],
                                 attempts := map[0 := Attempt(1, cfg.strategy.frequency)])
    ensures Reachable(cfg, LateRead(cfg))
  {
    var f := cfg.strategy.frequency;
    var k1 := Keys(Some(1), [], f);
    assert s.attempts - {0} == map[];
    assert s.commits == [NO_KEYS, k1];
    assert Rotated(k1, cfg.strategy, f, f, 2).verification == [VerificationKey(1, f + cfg.strategy.validFor)];
    Step(cfg, s, CommitRotation(0, f, 2), LateRead(cfg));
  }

  /** The token that the late read's key signs. */
  function LateToken(cfg: Config): (r: Token) {
    var signed := cfg.strategy.frequency + cfg.Slack();
    Token(1, signed, signed + cfg.strategy.validFor, 1)
  }

  /** The first moment after which key 1 is gone once it was demoted as of F. */
  function DropTime(cfg: Config): (r: Time) {
    cfg.strategy.frequency + cfg.strategy.validFor + cfg.Extra() + 1
  }

  /** A rotation after the drop time removes key 1, the only verification key. */
  lemma DropsFirstKey(cfg: Config, s: State)
    requires cfg.Valid() && s.commits == LateRead(cfg).commits && s.clock >= DropTime(cfg)
    ensures s.clock >= Last(s.commits).nextRotation && !Published(Last(AfterRotation(cfg, s, 3).commits), 1)
  {
    var f, v := cfg.strategy.frequency, cfg.strategy.validFor;
    var vs := Last(s.commits).verification;
    assert vs == [VerificationKey(1, f + v)] && Unexpired(vs, s.clock) == Unexpired(vs[1..], s.clock) == [];
    assert Last(AfterRotation(cfg, s, 3).commits).verification == [VerificationKey(2, s.clock + v)];
  }

  /** Signing with the key that call 0 holds. */
  lemma SignLate(cfg: Config, s: State)
    requires cfg.Valid() && |s.commits| > 0 && Reachable(cfg, s) && s.clock <= cfg.strategy.frequency + cfg.Slack()
    requires s.calls == LateRead(cfg).calls && s.tokens == {}
    ensures Reachable(cfg, s.(clock := cfg.strategy.frequency + cfg.Slack(), calls := map[],
                              tokens := {LateToken(cfg)}))
  {
    var signed := cfg.strategy.frequency + cfg.Slack();
    var t := s.(clock := signed);
    Step(cfg, s, Tick(signed), t);
    assert t.calls - {0} == map[];
    Step(cfg, t, Sign(0), t.(calls := map[], tokens := {LateToken(cfg)}));
  }

  /** Short delays: the token is signed, and then its key dropped. */
  lemma SignThenDrop(cfg: Config) returns (s: State)
    requires cfg.Valid() && cfg.strategy.frequency + cfg.Slack() <= DropTime(cfg)
    ensures Reachable(cfg, s) && |s.commits| > 0 && s.clock == DropTime(cfg)
    ensures LateToken(cfg) in s.tokens && !Published(Last(s.commits), 1)
  {
    ReachLateRead(cfg);
    SignLate(cfg, LateRead(cfg));
    var signed := LateRead(cfg).(clock := cfg.strategy.frequency + cfg.Slack(), calls := map[],
                                 tokens := {LateToken(cfg)});
    var waited := signed.(clock := DropTime(cfg));
    Step(cfg, signed, Tick(DropTime(cfg)), waited);
    DropsFirstKey(cfg, waited);
    Rotate(cfg, waited, 3);
    s := AfterRotation(cfg, waited, 3);
  }

  /** Long delays: the key is dropped before the token is signed with it. */
  lemma DropThenSign(cfg: Config) returns (s: State)
    requires cfg.Valid() && DropTime(cfg) < cfg.strategy.frequency + cfg.Slack()
    ensures Reachable(cfg, s) && |s.commits| > 0 && s.clock == cfg.strategy.frequency + cfg.Slack()
    ensures LateToken(cfg) in s.tokens && !Published(Last(s.commits), 1)
  {
    ReachLateRead(cfg);
    var s0 := LateRead(cfg);
    var drop := if DropTime(cfg) < s0.clock then s0.clock else DropTime(cfg);
    var waited := s0.(clock := drop);
    Step(cfg, s0, Tick(drop), waited);
    DropsFirstKey(cfg, waited);
    Rotate(cfg, waited, 3);
    var dropped := AfterRotation(cfg, waited, 3);
    SignLate(cfg, dropped);
    s := dropped.(clock := cfg.strategy.frequency + cfg.Slack(), calls := map[], tokens := {LateToken(cfg)});
  }

  /**
   * In every configuration some token's key is gone right after the time that coverage
   * promises, or already when the token is signed if that is later.
   */
  lemma CoverageIsTight(cfg: Config) returns (s: State, t: Token)
    requires cfg.Valid()
    ensures Reachable(cfg, s) && |s.commits| > 0 && t in s.tokens && !Published(Last(s.commits), t.key)
    ensures t.expiry == t.issuedAt + cfg.strategy.validFor
    ensures s.clock == if t.issuedAt <= CoveredUntil(cfg, t) then CoveredUntil(cfg, t) + 1 else t.issuedAt
  {
    t := LateToken(cfg);
    if t.issuedAt <= DropTime(cfg) {
      s := SignThenDrop(cfg);
    } else {
      s := DropThenSign(cfg);
    }
  }

  /** No unexpired token lacks its key in the published set. */
  ghost predicate CoversTokens(s: State)
    requires |s.commits| > 0
  {
    forall t :: t in s.tokens && s.clock <= t.expiry ==> Published(Last(s.commits), t.key)
  }

  /**
   * Keys outlive the tokens they signed in every run exactly when the delays are no longer
   * than a demoted key waits to be dropped. Without that wait only zero delays will do.
   */
  lemma KeysOutliveTokensIff(cfg: Config)
    requires cfg.Valid()
    ensures (forall actions :: CoversTokens(Run(cfg, INIT, actions))) <==> cfg.Slack() <= cfg.Extra()
  {
    if cfg.Slack() <= cfg.Extra() {
      forall actions, t | t in Run(cfg, INIT, actions).tokens && Run(cfg, INIT, actions).clock <= t.expiry
        ensures Published(Last(Run(cfg, INIT, actions).commits), t.key)
      {
        KeyCoverage(cfg, actions, t);
      }
    } else {
      var s, t := CoverageIsTight(cfg);
      var actions :| Run(cfg, INIT, actions) == s;
      assert !CoversTokens(Run(cfg, INIT, actions));
    }
  }

  /** A relying party fetched the key set with the given time left before the rotation at F. */
  function LateFetch(cfg: Config, age: Time): (r: State) {
    var f := cfg.strategy.frequency;
    var k1 := Keys(Some(1), [], f);
    State(f - age, [NO_KEYS, k1], [0], if age > 0 then map[0 := k1] else map[], map[], map[], {},
          {KeySet(k1, 1, f - age, MaxAge(f, f - age) * SECOND)})
  }

  lemma ReadFresh(cfg: Config, s: State)
    requires |s.commits| > 0 && Reachable(cfg, s) && s.calls == map[] && s.clock < Last(s.commits).nextRotation
    requires 0 in s.caches ==> s.clock >= s.caches[0].nextRotation
    ensures var n := |s.commits| - 1; Reachable(cfg, InCall(s, Caching(0, n, s.commits[n], n, s.clock)))
  {
    var n := |s.commits| - 1;
    ReadOnce(cfg, s);
    var t := InCall(s, Fetched(0, n, s.commits[n], n, s.clock));
    assert Rechecked(t, 0) == Some(Caching(0, n, s.commits[n], n, s.clock));
    Step(cfg, t, CheckFetched(0), InCall(s, Caching(0, n, s.commits[n], n, s.clock)));
  }

  /** A call that read the store before its rotation time also fills the cache. */
  lemma ReadAndCache(cfg: Config, s: State)
    requires |s.commits| > 0 && Reachable(cfg, s) && s.calls == map[] && s.clock < Last(s.commits).nextRotation
    requires 0 in s.caches ==> s.clock >= s.caches[0].nextRotation
    ensures var n := |s.commits| - 1;
            Reachable(cfg, s.(calls := map[0 := Returned(n, s.commits[n], n, s.clock)],
                              caches := s.caches[0 := s.commits[n]]))
  {
    var n := |s.commits| - 1;
    ReadFresh(cfg, s);
    Step(cfg, InCall(s, Caching(0, n, s.commits[n], n, s.clock)), StoreCache(0),
         s.(calls := map[0 := Returned(n, s.commits[n], n, s.clock)], caches := s.caches[0 := s.commits[n]]));
  }

  /** A call that read the store at or after its rotation time does not. */
  lemma ReadOverdue(cfg: Config, s: State)
    requires |s.commits| > 0 && Reachable(cfg, s) && s.calls == map[] && s.clock >= Last(s.commits).nextRotation
    requires 0 in s.caches ==> s.clock >= s.caches[0].nextRotation
    ensures var n := |s.commits| - 1; Reachable(cfg, InCall(s, Returned(n, s.commits[n], n, s.clock)))
  {
    var n := |s.commits| - 1;
    ReadOnce(cfg, s);
    var t := InCall(s, Fetched(0, n, s.commits[n], n, s.clock));
    assert Rechecked(t, 0) == Some(Returned(n, s.commits[n], n, s.clock));
    Step(cfg, t, CheckFetched(0), InCall(s, Returned(n, s.commits[n], n, s.clock)));
  }

  lemma ReachLateFetch(cfg: Config, age: Time)
    requires cfg.Valid() && age <= cfg.strategy.frequency
    ensures Reachable(cfg, LateFetch(cfg, age))
  {
    var f := cfg.strategy.frequency;
    var k1 := Keys(Some(1), [], f);
    Start(cfg);
    var s0 := Started(cfg);
    var s1 := s0.(clock := f - age);
    Step(cfg, s0, Tick(f - age), s1);
    if age > 0 { ReadAndCache(cfg, s1); } else { ReadOverdue(cfg, s1); }
    var s2 := s1.(calls := map[0 := Returned(1, k1, 1, f - age)], caches := if age > 0 then map[0 := k1] else map[]);
    assert s2.calls - {0} == map[];
    Step(cfg, s2, Serve(0), LateFetch(cfg, age));
  }

  /**
   * A key set fetched less than two minutes before a rotation, or when one is overdue, can
   * outlive it: the relying party still holds it when a token arrives whose key it lacks.
   * None is served more than one period before the rotation (KeySetsAreServedWithinPeriod).
   */
  lemma LateKeySetGoesStale(cfg: Config, age: Time)
    requires cfg.Valid() && age <= cfg.strategy.frequency && age < 2 * MINUTE
    ensures exists s, held, t :: Reachable(cfg, s) && held in s.served && t in s.tokens
                                 && held.servedAt + age == held.keys.nextRotation
                                 && s.clock < held.servedAt + held.lifetime
                                 && t.issuedAt == s.clock && !Published(held.keys, t.key)
  {
    var f := cfg.strategy.frequency;
    var now := if age > 0 then f else f - age;
    var s := SignAfterFetch(cfg, age, now);
    var held := KeySet(Keys(Some(1), [], f), 1, f - age, MaxAge(f, f - age) * SECOND);
    var token := Token(2, now, now + cfg.strategy.validFor, 2);
    assert held in s.served && token in s.tokens && !Published(held.keys, token.key);
  }

  /** A call at once after a rotation, and a token signed with the new key. */
  lemma SignNewKey(cfg: Config, s: State, k: Keys)
    requires cfg.Valid() && Reachable(cfg, s) && |s.commits| == 3 && s.calls == map[] && s.tokens == {}
    requires Last(s.commits) == k && k.signing == Some(2) && s.clock < k.nextRotation
    requires 0 in s.caches ==> s.clock >= s.caches[0].nextRotation
    ensures Reachable(cfg, s.(caches := s.caches[0 := k],
                              tokens := {Token(2, s.clock, s.clock + cfg.strategy.validFor, 2)}))
  {
    ReadAndCache(cfg, s);
    var t := s.(calls := map[0 := Returned(2, k, 2, s.clock)], caches := s.caches[0 := k]);
    assert t.calls - {0} == map[];
    Step(cfg, t, Sign(0), s.(caches := s.caches[0 := k],
                             tokens := {Token(2, s.clock, s.clock + cfg.strategy.validFor, 2)}));
  }

  /** After that fetch, a rotation and a token signed with the new key. */
  lemma SignAfterFetch(cfg: Config, age: Time, now: Time) returns (s: State)
    requires cfg.Valid() && age <= cfg.strategy.frequency
    requires now == if age > 0 then cfg.strategy.frequency else cfg.strategy.frequency - age
    ensures Reachable(cfg, s) && s.clock == now && s.served == LateFetch(cfg, age).served
    ensures s.tokens == {Token(2, now, now + cfg.strategy.validFor, 2)}
  {
    ReachLateFetch(cfg, age);
    var s0 := LateFetch(cfg, age);
    var s1 := s0.(clock := now);
    Step(cfg, s0, Tick(now), s1);
    Rotate(cfg, s1, 2);
    var s2 := AfterRotation(cfg, s1, 2);
    var k := Last(s2.commits);
    SignNewKey(cfg, s2, k);
    s := s2.(caches := s2.caches[0 := k], tokens := {Token(2, now, now + cfg.strategy.validFor, 2)});
  }
}
