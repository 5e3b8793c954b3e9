/**
 * The ID tokens of dex/server/oauth2.go are the tokens of the key protocol: issued by a call of
 * GetKeys under one configuration, each is signed with a key that stays published while it lasts.
 */
module TokenCoverage {
  import opened Common
  import opened Scopes
  import opened Storage
  import opened IDTokens
  import KeyRotation
  import KeyProtocol

  /** The issuer reads the clock and the keys of the call, and shares the configured validity. */
  ghost predicate IssuesAt(cfg: KeyProtocol.Config, s: KeyProtocol.State, call: nat, i: Issuer) {
    && call in s.calls && s.calls[call].Returned? && s.clock - s.calls[call].at <= cfg.signDelay
    && i.hasKey == s.calls[call].keys.signing.Some? && i.now == s.clock && i.validFor == cfg.strategy.validFor
  }

  lemma {:induction false} RunSplit(cfg: KeyProtocol.Config, s: KeyProtocol.State, a: seq<KeyProtocol.Action>,
                                    b: seq<KeyProtocol.Action>)
    requires |s.commits| > 0
    ensures KeyProtocol.Run(cfg, s, a + b) == KeyProtocol.Run(cfg, KeyProtocol.Run(cfg, s, a), b)
    decreases |a|
  {
    if a == [] {
      assert a + b == b;
    } else {
      RunSplit(cfg, KeyProtocol.Apply(cfg, s, a[0]), a[1..], b);
      assert (a + b)[1..] == a[1..] + b;
    }
  }

  lemma {:induction false} TokensStay(cfg: KeyProtocol.Config, s: KeyProtocol.State, actions: seq<KeyProtocol.Action>)
    requires |s.commits| > 0
    ensures s.tokens <= KeyProtocol.Run(cfg, s, actions).tokens
    decreases |actions|
  {
    if actions != [] {
      TokensStay(cfg, KeyProtocol.Apply(cfg, s, actions[0]), actions[1..]);
    }
  }

  /**
   * Whatever runs before and after, the key of an issued ID token is published until the token's
   * own expiry, less the delays, plus the time a demoted key waits to be dropped.
   */
  lemma IssuedTokensAreCovered(cfg: KeyProtocol.Config, before: seq<KeyProtocol.Action>, call: nat,
                               after: seq<KeyProtocol.Action>, i: Issuer, client: ClientID, claims: Claims,
                               scopes: seq<Scope>, nonce: Nonce, accessToken: ID, connector: ConnectorID)
    requires cfg.Valid() && IssuesAt(cfg, KeyProtocol.Run(cfg, KeyProtocol.INIT, before), call, i)
    ensures var r := Issue(i, client, claims, scopes, nonce, accessToken, connector);
            r.Ok? ==>
              var keys := KeyProtocol.Run(cfg, KeyProtocol.INIT, before).calls[call].keys;
              var s := KeyProtocol.Run(cfg, KeyProtocol.INIT, before + [KeyProtocol.Sign(call)] + after);
              && (exists t :: t in s.tokens && Some(t.key) == keys.signing
                              && t.issuedAt == r.value.issuedAt && t.expiry == r.value.expiry)
              && (s.clock <= r.value.expiry - cfg.Slack() + cfg.Extra() ==>
                    KeyRotation.Published(Last(s.commits), keys.signing.value))
  {
    var r := Issue(i, client, claims, scopes, nonce, accessToken, connector);
    if r.Ok? {
      var s0 := KeyProtocol.Run(cfg, KeyProtocol.INIT, before);
      var sign := [KeyProtocol.Sign(call)];
      RunSplit(cfg, KeyProtocol.INIT, before, sign);
      RunSplit(cfg, KeyProtocol.INIT, before + sign, after);
      var c := s0.calls[call];
      var t := KeyProtocol.Token(c.keys.signing.value, r.value.issuedAt, r.value.expiry, c.point);
      var s1 := KeyProtocol.Apply(cfg, s0, KeyProtocol.Sign(call));
      assert KeyProtocol.Run(cfg, s1, []) == s1;
      assert t in s1.tokens;
      TokensStay(cfg, s1, after);
      KeyProtocol.KeyCoverage(cfg, before + sign + after, t);
    }
  }
}
