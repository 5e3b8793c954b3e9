/** What holds in every interleaving of the token handlers. */
module TokenTheorems {
  import opened Common
  import opened Scopes
  import opened IDTokens
  import opened TokenProtocol
  import opened TokenOnce
  import opened TokenLinks
  import opened TokenValues
  import opened TokenGrants

  ghost predicate Inv(s: State) {
    RequestInv(s) && CodeInv(s) && LinkInv(s) && ValueInv(s) && GrantInv(s)
  }

  lemma StepKeepsInv(s: State, a: Action)
    requires Inv(s)
    ensures Inv(Apply(s, a))
  {
    StepKeepsRequests(s, a);
    StepKeepsCodes(s, a);
    StepKeepsLinks(s, a);
    StepKeepsValues(s, a);
    StepKeepsGrants(s, a);
  }

  lemma {:induction false} RunKeepsInv(s: State, actions: seq<Action>)
    requires Inv(s)
    ensures Inv(Run(s, actions))
    decreases |actions|
  {
    if actions != [] {
      StepKeepsInv(s, actions[0]);
      RunKeepsInv(Apply(s, actions[0]), actions[1..]);
    }
  }

  lemma InvAlways(actions: seq<Action>)
    ensures Inv(Run(INIT, actions))
  {
    RunKeepsInv(INIT, actions);
  }

  lemma RefHasOwner(s: State, slot: Slot, id: ID)
    requires LinkInv(s) && Names(s.store.sessions, slot, id)
    ensures || (id in s.store.refreshTokens && SlotOfToken(s.store.refreshTokens[id]) == slot)
            || exists t :: && t in s.threads && Replaces(s.threads[t], id) && SlotOfCode(s.threads[t].code) == slot
                           && forall u :: u in s.threads && Replaces(s.threads[u], id) ==> u == t
  {
    if id !in s.store.refreshTokens {
      var t :| t in s.threads && Replaces(s.threads[t], id);
      assert ThreadInv(s, s.threads[t]);
    }
  }

  /**
   * Every session reference names a stored refresh token of the same user, connector and
   * client, or belongs to exactly one exchange that deleted the token and has yet to write
   * its own reference.
   */
  lemma SessionRefsHaveOwners(actions: seq<Action>, slot: Slot)
    ensures var s := Run(INIT, actions);
            var ref := Ref(s.store.sessions, slot);
            ref.Some? ==>
              || (ref.value.id in s.store.refreshTokens && SlotOfToken(s.store.refreshTokens[ref.value.id]) == slot)
              || exists t :: && t in s.threads && Replaces(s.threads[t], ref.value.id)
                             && SlotOfCode(s.threads[t].code) == slot
                             && forall u :: u in s.threads && Replaces(s.threads[u], ref.value.id) ==> u == t
  {
    InvAlways(actions);
    var s := Run(INIT, actions);
    if Ref(s.store.sessions, slot).Some? {
      RefHasOwner(s, slot, Ref(s.store.sessions, slot).value.id);
    }
  }

  /** When no handler is running, every session reference names a stored token. */
  lemma QuiescentRefsAreLive(actions: seq<Action>, slot: Slot)
    requires Run(INIT, actions).threads == map[]
    ensures var s := Run(INIT, actions);
            var ref := Ref(s.store.sessions, slot);
            ref.Some? ==>
              ref.value.id in s.store.refreshTokens && SlotOfToken(s.store.refreshTokens[ref.value.id]) == slot
  {
    SessionRefsHaveOwners(actions, slot);
  }

  /** A request passes its deletion once, a code is answered once, and only codes that were redeemed are. */
  lemma AtMostOnce(actions: seq<Action>)
    ensures var s := Run(INIT, actions);
            && NoRepeats(s.requests.passed)
            && NoRepeats(s.codes.redeemed)
            && NoRepeats(s.codes.answered)
            && (forall id :: id in s.codes.answered ==> id in s.codes.redeemed && id !in s.store.authCodes)
  {
    InvAlways(actions);
  }

  /** No refresh token value is used up twice, and none that was used up is stored. */
  lemma RefreshIsSingleUse(actions: seq<Action>)
    ensures var s := Run(INIT, actions);
            && NoRepeats(s.refreshes.consumed)
            && (forall c, id :: c in s.refreshes.consumed && id in s.store.refreshTokens ==>
                                  s.store.refreshTokens[id].token != c.value)
  {
    InvAlways(actions);
  }

  /** From the moment a refresh token is deleted it stays deleted, and no refresh of it succeeds. */
  lemma {:induction false} NoRefreshAfterRemoval(s: State, actions: seq<Action>)
    requires LinkInv(s)
    ensures var r := Run(s, actions);
            && Accumulates(s, r)
            && (forall id :: id in s.refreshes.removed ==> id !in r.store.refreshTokens)
    decreases |actions|
  {
    if actions != [] {
      var m := Apply(s, actions[0]);
      StepKeepsLinks(s, actions[0]);
      StepAfterRemoval(s, actions[0]);
      NoRefreshAfterRemoval(m, actions[1..]);
      var r := Run(s, actions);
      forall c | c in r.refreshes.consumed[|s.refreshes.consumed|..] ensures c.refresh !in s.refreshes.removed {
        if c !in r.refreshes.consumed[|m.refreshes.consumed|..] {
          assert c in m.refreshes.consumed[|s.refreshes.consumed|..];
        }
      }
    }
  }

  /** Deletions and consumed values only accumulate, and what is consumed was not deleted. */
  ghost predicate Accumulates(s: State, r: State) {
    && s.refreshes.removed <= r.refreshes.removed
    && s.refreshes.consumed <= r.refreshes.consumed
    && (forall c :: c in r.refreshes.consumed[|s.refreshes.consumed|..] ==> c.refresh !in s.refreshes.removed)
  }

  lemma SessionAccumulates(s: State, a: Action)
    requires a.ExchangeCreate? || IsSession(a)
    ensures Accumulates(s, Apply(s, a))
  {
    assert Apply(s, a).refreshes.consumed == s.refreshes.consumed;
  }

  lemma CommitAccumulates(s: State, t: nat)
    requires LinkInv(s)
    ensures Accumulates(s, DoRefreshCommit(s, t))
  {
  }

  lemma RefreshAccumulates(s: State, a: Action)
    requires a.RefreshTouch? || IsRevoke(a)
    ensures Accumulates(s, Apply(s, a))
  {
    assert Apply(s, a).refreshes.consumed == s.refreshes.consumed;
  }

  lemma StepAfterRemoval(s: State, a: Action)
    requires LinkInv(s)
    ensures Accumulates(s, Apply(s, a))
  {
    if a.ExchangeCreate? || IsSession(a) {
      SessionAccumulates(s, a);
    } else if a.RefreshCommit? {
      CommitAccumulates(s, a.t);
    } else if a.RefreshTouch? || IsRevoke(a) {
      RefreshAccumulates(s, a);
    } else {
      StepFrame(s, a);
    }
  }

  /**
   * Every ID token sent descends from an accepted request: same client and nonce, no scope
   * that was not accepted, an audience of the client plus the peers its scopes name, all of
   * which trusted the client, and an authorizing party only for those. Sent on approval or for
   * a code, it is for the user the request was approved for; sent on refresh, for the user the
   * connector named, so for that one exactly if the connector named the same.
   */
  lemma IssuedTokensFollowRequests(actions: seq<Action>, i: Issued)
    requires i in Run(INIT, actions).grants.issued
    ensures var s := Run(INIT, actions);
            var token := i.minted.token;
            && RequestOf(BookOf(s), i.grant) in s.requests.accepted
            && var req := s.requests.accepted[RequestOf(BookOf(s), i.grant)];
               && i.client == req.clientID
               && token.nonce == req.nonce
               && (forall x :: x in i.scopes ==> x in req.scopes)
               && (forall p :: p in token.audience <==> p == i.client || CrossClient(p) in i.scopes)
               && (forall p :: CrossClient(p) in i.scopes ==> Trusts(i.minted.clients, i.client, p))
               && token.authorizingParty == (if AsksForPeers(i.scopes) then Some(i.client) else None)
               && RequestOf(BookOf(s), i.grant) in s.requests.approved
               && var user := s.requests.approved[RequestOf(BookOf(s), i.grant)].claims.userID;
                  && token.user == i.minted.user
                  && (!i.channel.ByRefresh? ==> token.user == user)
                  && (i.channel.ByRefresh? ==> (token.user == user <==> i.minted.user == user))
  {
    InvAlways(actions);
    assert IssuedOK(BookOf(Run(INIT, actions)), i);
  }

  /** A stored refresh token keeps the client, nonce, scopes and user of the grant it stems from. */
  lemma RefreshTokensKeepTheirGrant(actions: seq<Action>, id: ID)
    requires id in Run(INIT, actions).store.refreshTokens
    ensures var s := Run(INIT, actions);
            var r := s.store.refreshTokens[id];
            && id in s.grants.origins
            && var request := s.grants.origins[id].request;
               && request in s.requests.accepted && request in s.requests.approved
               && r.claims.userID == s.requests.approved[request].claims.userID
               && var req := s.requests.accepted[request];
                  r.clientID == req.clientID && r.nonce == req.nonce && r.scopes == req.scopes
  {
    InvAlways(actions);
    var s := Run(INIT, actions);
    assert RefreshOK(BookOf(s), s.store.refreshTokens[id]) && s.store.refreshTokens[id].id == id;
  }
}
