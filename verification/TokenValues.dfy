/**
 * Refresh token rotation: the value a refresh uses up is never accepted again and
 * never stored again, and a deleted refresh token is never refreshed.
 */
module TokenValues {
  import opened Common
  import opened TokenProtocol

  ghost predicate ValueInv(s: State) {
    && (forall id :: id in s.store.refreshTokens ==> s.store.refreshTokens[id].token in s.used)
    && (forall i, j :: i in s.store.refreshTokens && j in s.store.refreshTokens && i != j ==>
                         s.store.refreshTokens[i].token != s.store.refreshTokens[j].token)
    && (forall c :: c in s.refreshes.consumed ==> c.value in s.used)
    && (forall c, id :: c in s.refreshes.consumed && id in s.store.refreshTokens ==>
        s.store.refreshTokens[id].token != c.value)
    && (forall i, j :: 0 <= i < j < |s.refreshes.consumed| ==>
        s.refreshes.consumed[i].value != s.refreshes.consumed[j].value)
    && (forall t :: t in s.threads && s.threads[t].Refresh? ==> Unspent(s, s.threads[t].newToken))
    && (forall t, u :: t in s.threads && u in s.threads && t != u && s.threads[t].Refresh? && s.threads[u].Refresh? ==>
                         s.threads[t].newToken != s.threads[u].newToken)
  }

  /** A value that was handed out but is neither stored nor used up. */
  ghost predicate Unspent(s: State, value: ID) {
    && value in s.used
    && (forall id :: id in s.store.refreshTokens ==> s.store.refreshTokens[id].token != value)
    && (forall c :: c in s.refreshes.consumed ==> c.value != value)
  }

  /** Tokens are only deleted, and no refresh moves. */
  ghost predicate KeepsValues(s: State, r: State) {
    && (forall id :: id in r.store.refreshTokens ==>
                       id in s.store.refreshTokens && r.store.refreshTokens[id] == s.store.refreshTokens[id])
    && r.refreshes.consumed == s.refreshes.consumed && s.used <= r.used
    && (forall t :: t in r.threads && r.threads[t].Refresh? ==>
                      t in s.threads && s.threads[t].Refresh? && r.threads[t].newToken == s.threads[t].newToken)
  }

  lemma FrameKeepsValues(s: State, r: State)
    requires ValueInv(s) && KeepsValues(s, r)
    ensures ValueInv(r)
  {
    forall t | t in r.threads && r.threads[t].Refresh? ensures Unspent(r, r.threads[t].newToken) {
      assert Unspent(s, s.threads[t].newToken);
    }
  }

  lemma LoginFrame(s: State, a: Action)
    requires IsLogin(a)
    ensures KeepsValues(s, Apply(s, a))
  {
  }

  lemma ApprovalFrame(s: State, a: Action)
    requires IsApproval(a)
    ensures KeepsValues(s, Apply(s, a))
  {
  }

  lemma RedeemFrame(s: State, a: Action)
    requires IsRedeem(a) && !a.ExchangeCreate?
    ensures KeepsValues(s, Apply(s, a))
  {
  }

  lemma SessionFrame(s: State, a: Action)
    requires IsSession(a)
    ensures KeepsValues(s, Apply(s, a))
  {
  }

  lemma RefreshFrame(s: State, a: Action)
    requires a.RefreshTouch? || IsRevoke(a)
    ensures KeepsValues(s, Apply(s, a))
  {
  }

  lemma CreateKeepsValues(s: State, t: nat, newID: ID, newToken: ID)
    requires ValueInv(s)
    ensures ValueInv(DoExchangeCreate(s, t, newID, newToken))
  {
  }

  lemma GetKeepsValues(s: State, a: Action)
    requires ValueInv(s) && a.RefreshGet?
    ensures ValueInv(Apply(s, a))
  {
  }

  lemma CommitKeepsValues(s: State, t: nat)
    requires ValueInv(s)
    ensures ValueInv(DoRefreshCommit(s, t))
  {
  }

  lemma StepKeepsValues(s: State, a: Action)
    requires ValueInv(s)
    ensures ValueInv(Apply(s, a))
  {
    if a.ExchangeCreate? {
      CreateKeepsValues(s, a.t, a.newID, a.newToken);
    } else if a.RefreshGet? {
      GetKeepsValues(s, a);
    } else if a.RefreshCommit? {
      CommitKeepsValues(s, a.t);
    } else {
      if IsLogin(a) {
        LoginFrame(s, a);
      } else if IsApproval(a) {
        ApprovalFrame(s, a);
      } else if IsRedeem(a) {
        RedeemFrame(s, a);
      } else if IsSession(a) {
        SessionFrame(s, a);
      } else {
        RefreshFrame(s, a);
      }
      FrameKeepsValues(s, Apply(s, a));
    }
  }
}
