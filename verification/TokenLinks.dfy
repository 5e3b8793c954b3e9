/**
 * Session references under interleaving: every reference names a stored refresh token
 * of its own user, connector and client, or belongs to exactly one exchange that has
 * deleted the token and is about to overwrite the reference.
 */
module TokenLinks {
  import opened Common
  import opened Storage
  import opened TokenProtocol

  /** An exchange that has stored a refresh token of its own. */
  predicate Owns(th: Thread) {
    Redeeming(th) && !th.stage.Redeemed?
  }

  /** An exchange that deleted the token and has not written its own reference yet. */
  predicate Replaces(th: Thread, id: ID) {
    th.Exchange? && th.stage == Link(Some(id))
  }

  ghost predicate Replacing(s: State, id: ID) {
    exists t :: t in s.threads && Replaces(s.threads[t], id)
  }

  /** The reference in the slot names the refresh token. */
  predicate Names(sessions: map<SessionID, Session>, slot: Slot, id: ID) {
    Ref(sessions, slot).Some? && Ref(sessions, slot).value.id == id
  }

  ghost predicate TableInv(s: State) {
    && (forall id :: id in s.store.refreshTokens ==>
                       && s.store.refreshTokens[id].id == id
                       && id in s.refreshes.slots && s.refreshes.slots[id] == SlotOfToken(s.store.refreshTokens[id])
                       && id !in s.refreshes.removed)
    && (forall id :: id in s.refreshes.linked ==> id in s.refreshes.slots)
    && (forall id :: id in s.refreshes.removed ==> id in s.refreshes.slots)
    && (forall id :: id in s.refreshes.slots ==> id in s.used)
  }

  /** A token that was linked once and created for the slot. */
  ghost predicate LinkedFor(s: State, id: ID, slot: Slot) {
    id in s.refreshes.linked && id in s.refreshes.slots && s.refreshes.slots[id] == slot
  }

  ghost predicate ThreadInv(s: State, th: Thread) {
    match th
    case Exchange(stage, code, _, refresh) =>
      && (Owns(th) ==>
            && refresh.id in s.store.refreshTokens && refresh.id !in s.refreshes.linked
            && refresh.id in s.refreshes.slots && s.refreshes.slots[refresh.id] == SlotOfCode(code))
      && (stage.Replace? ==> LinkedFor(s, stage.stale, SlotOfCode(code)))
      && (stage.Link? && stage.replaced.Some? ==>
            LinkedFor(s, stage.replaced.value, SlotOfCode(code)) && stage.replaced.value in s.refreshes.removed)
    case Revoke(id) =>
      id in s.refreshes.linked && forall slot :: !Names(s.store.sessions, slot, id)
    case _ => true
  }

  ghost predicate DistinctInv(s: State) {
    && (forall t, u :: t in s.threads && u in s.threads && t != u && Owns(s.threads[t]) && Owns(s.threads[u]) ==>
                         s.threads[t].refresh.id != s.threads[u].refresh.id)
    && (forall t, u, id :: t in s.threads && u in s.threads ==>
                             Replaces(s.threads[t], id) && Replaces(s.threads[u], id) ==> t == u)
  }

  ghost predicate RefInv(s: State) {
    forall slot, id :: Names(s.store.sessions, slot, id) ==>
                         LinkedFor(s, id, slot) && (id in s.store.refreshTokens || Replacing(s, id))
  }

  ghost predicate LinkInv(s: State) {
    && TableInv(s)
    && (forall t :: t in s.threads ==> ThreadInv(s, s.threads[t]))
    && DistinctInv(s)
    && RefInv(s)
  }

  // ----- Steps that leave refresh tokens and sessions alone -----

  predicate Tracked(th: Thread) {
    Owns(th) || th.Revoke?
  }

  ghost predicate KeepsLinks(s: State, r: State) {
    && r.store.refreshTokens == s.store.refreshTokens && r.store.sessions == s.store.sessions
    && r.refreshes == s.refreshes && s.used <= r.used
    && (forall t :: t in r.threads && Tracked(r.threads[t]) ==> t in s.threads && r.threads[t] == s.threads[t])
    && (forall t :: t in s.threads && Tracked(s.threads[t]) ==> t in r.threads && r.threads[t] == s.threads[t])
  }

  /** What the rest of the state must keep for a thread that does not move. */
  ghost predicate Supports(s: State, r: State, th: Thread) {
    && s.refreshes.linked <= r.refreshes.linked && s.refreshes.removed <= r.refreshes.removed
    && (forall id :: id in s.refreshes.slots ==>
                       id in r.refreshes.slots && r.refreshes.slots[id] == s.refreshes.slots[id])
    && (Owns(th) && th.refresh.id in s.store.refreshTokens && th.refresh.id !in s.refreshes.linked ==>
          th.refresh.id in r.store.refreshTokens && th.refresh.id !in r.refreshes.linked)
    && (th.Revoke? && th.revoked in s.refreshes.linked ==>
          forall slot :: Names(r.store.sessions, slot, th.revoked) ==> Names(s.store.sessions, slot, th.revoked))
  }

  lemma SupportKeepsThread(s: State, r: State, th: Thread)
    requires ThreadInv(s, th) && Supports(s, r, th)
    ensures ThreadInv(r, th)
  {
  }

  lemma FrameKeepsLinks(s: State, r: State)
    requires LinkInv(s) && KeepsLinks(s, r)
    ensures LinkInv(r)
  {
    forall t | t in r.threads ensures ThreadInv(r, r.threads[t]) {
      if Tracked(r.threads[t]) {
        SupportKeepsThread(s, r, s.threads[t]);
      }
    }
    forall slot, id | Names(r.store.sessions, slot, id)
      ensures LinkedFor(r, id, slot) && (id in r.store.refreshTokens || Replacing(r, id))
    {
      if id !in s.store.refreshTokens {
        var t :| t in s.threads && Replaces(s.threads[t], id);
        assert t in r.threads && Replaces(r.threads[t], id);
      }
    }
  }

  lemma LoginFrame(s: State, a: Action)
    requires IsLogin(a)
    ensures KeepsLinks(s, Apply(s, a))
  {
  }

  lemma ApprovalFrame(s: State, a: Action)
    requires IsApproval(a)
    ensures KeepsLinks(s, Apply(s, a))
  {
  }

  lemma RedeemFrame(s: State, a: Action)
    requires IsRedeem(a) && !a.ExchangeCreate?
    ensures KeepsLinks(s, Apply(s, a))
  {
  }

  lemma RefreshGetFrame(s: State, a: Action)
    requires a.RefreshGet?
    ensures KeepsLinks(s, Apply(s, a))
  {
  }

  /** The remaining steps leave tokens, references and busy threads alone. */
  lemma StepFrame(s: State, a: Action)
    requires IsLogin(a) || IsApproval(a) || (IsRedeem(a) && !a.ExchangeCreate?) || a.RefreshGet?
    ensures KeepsLinks(s, Apply(s, a))
  {
    if IsLogin(a) {
      LoginFrame(s, a);
    } else if IsApproval(a) {
      ApprovalFrame(s, a);
    } else if IsRedeem(a) {
      RedeemFrame(s, a);
    } else {
      RefreshGetFrame(s, a);
    }
  }

  // ----- Steps of one thread -----

  ghost predicate OthersSame(s: State, r: State, t: nat) {
    forall u :: u != t ==> (u in r.threads <==> u in s.threads) && (u in s.threads ==> r.threads[u] == s.threads[u])
  }

  lemma OthersKeepInv(s: State, r: State, t: nat)
    requires LinkInv(s) && OthersSame(s, r, t)
    requires forall u :: u in s.threads && u != t ==> Supports(s, r, s.threads[u])
    requires t in r.threads ==> ThreadInv(r, r.threads[t])
    ensures forall u :: u in r.threads ==> ThreadInv(r, r.threads[u])
  {
    forall u | u in r.threads ensures ThreadInv(r, r.threads[u]) {
      if u != t {
        SupportKeepsThread(s, r, s.threads[u]);
      }
    }
  }

  /** A reference keeps its owner unless the owner itself moved. */
  lemma StillReplacing(s: State, r: State, t: nat, id: ID)
    requires OthersSame(s, r, t) && Replacing(s, id)
    requires t in s.threads && Replaces(s.threads[t], id) ==> t in r.threads && Replaces(r.threads[t], id)
    ensures Replacing(r, id)
  {
    var u :| u in s.threads && Replaces(s.threads[u], id);
    assert u in r.threads && Replaces(r.threads[u], id);
  }

  lemma CreateKeepsLinks(s: State, t: nat, newID: ID, newToken: ID)
    requires LinkInv(s)
    ensures LinkInv(DoExchangeCreate(s, t, newID, newToken))
  {
    var r := DoExchangeCreate(s, t, newID, newToken);
    if r != s {
      assert newID !in s.refreshes.slots;
      OthersKeepInv(s, r, t);
      CreateKeepsRefs(s, t, newID, newToken);
    }
  }

  lemma CreateKeepsRefs(s: State, t: nat, newID: ID, newToken: ID)
    requires LinkInv(s)
    ensures RefInv(DoExchangeCreate(s, t, newID, newToken)) && DistinctInv(DoExchangeCreate(s, t, newID, newToken))
  {
    var r := DoExchangeCreate(s, t, newID, newToken);
    if r != s {
      forall u | u in s.threads && Owns(s.threads[u]) ensures s.threads[u].refresh.id != newID {
        assert ThreadInv(s, s.threads[u]);
      }
      forall slot, id | Names(r.store.sessions, slot, id) && id !in r.store.refreshTokens ensures Replacing(r, id) {
        StillReplacing(s, r, t, id);
      }
    }
  }

  lemma FindKeepsLinks(s: State, t: nat)
    requires LinkInv(s)
    ensures LinkInv(DoExchangeFindSession(s, t))
  {
    var r := DoExchangeFindSession(s, t);
    if r != s {
      FindKeepsThread(s, t);
      FindKeepsRefs(s, t);
      OthersKeepInv(s, r, t);
    }
  }

  lemma FindKeepsRefs(s: State, t: nat)
    requires LinkInv(s) && AtStage(s, t, Created)
    ensures RefInv(DoExchangeFindSession(s, t)) && DistinctInv(DoExchangeFindSession(s, t))
  {
    var r := DoExchangeFindSession(s, t);
    forall slot, id | Names(r.store.sessions, slot, id) && id !in r.store.refreshTokens ensures Replacing(r, id) {
      StillReplacing(s, r, t, id);
    }
  }

  /** A reference that an exchange finds was linked for its slot. */
  lemma FindKeepsThread(s: State, t: nat)
    requires LinkInv(s) && AtStage(s, t, Created)
    ensures ThreadInv(DoExchangeFindSession(s, t), DoExchangeFindSession(s, t).threads[t])
  {
    assert ThreadInv(s, s.threads[t]);
    var slot := SlotOfCode(s.threads[t].code);
    var ref := Ref(s.store.sessions, slot);
    if ref.Some? {
      assert Names(s.store.sessions, slot, ref.value.id);
    }
  }

  /** Writing the reference in a slot changes what that slot names and nothing else. */
  lemma NamesAfterLink(s: State, t: nat, session: Session)
    requires t in s.threads && s.threads[t].Exchange?
    requires var slot := SlotOfCode(s.threads[t].code);
             forall c :: c != slot.client ==>
               (c in session <==> Ref(s.store.sessions, Slot(slot.session, c)).Some?) &&
               (c in session ==> Ref(s.store.sessions, Slot(slot.session, c)) == Some(session[c]))
    ensures var r := LinkRefresh(s, t, session);
            forall slot :: Ref(r.store.sessions, slot) ==
              if slot == SlotOfCode(s.threads[t].code)
              then Some(NewRef(s.threads[t].refresh)) else Ref(s.store.sessions, slot)
  {
    var r := LinkRefresh(s, t, session);
    var mine := SlotOfCode(s.threads[t].code);
    forall slot
      ensures Ref(r.store.sessions, slot) ==
              if slot == mine then Some(NewRef(s.threads[t].refresh)) else Ref(s.store.sessions, slot)
    {
      if slot.session == mine.session && slot.client != mine.client {
        assert slot == Slot(mine.session, slot.client);
      }
    }
  }

  /** The exchange writes its own reference over whatever the slot held. */
  lemma LinkKeepsLinks(s: State, t: nat, session: Session)
    requires LinkInv(s) && t in s.threads && Owns(s.threads[t])
    requires var r := LinkRefresh(s, t, session);
             forall slot :: Ref(r.store.sessions, slot) ==
               if slot == SlotOfCode(s.threads[t].code)
               then Some(NewRef(s.threads[t].refresh)) else Ref(s.store.sessions, slot)
    ensures LinkInv(LinkRefresh(s, t, session))
  {
    var r := LinkRefresh(s, t, session);
    var mine, own := SlotOfCode(s.threads[t].code), s.threads[t].refresh.id;
    assert ThreadInv(s, s.threads[t]);
    forall u | u in s.threads && u != t ensures Supports(s, r, s.threads[u]) {
      assert ThreadInv(s, s.threads[u]);
    }
    OthersKeepInv(s, r, t);
    forall slot, id | Names(r.store.sessions, slot, id)
      ensures LinkedFor(r, id, slot) && (id in r.store.refreshTokens || Replacing(r, id))
    {
      if slot != mine {
        assert Names(s.store.sessions, slot, id);
        if id !in s.store.refreshTokens {
          StillReplacing(s, r, t, id);
        }
      }
    }
  }

  lemma OpenKeepsLinks(s: State, t: nat)
    requires LinkInv(s)
    ensures LinkInv(DoExchangeOpenSession(s, t))
  {
    var r := DoExchangeOpenSession(s, t);
    if AtStage(s, t, NoSession) {
      if SlotOfCode(s.threads[t].code).session in s.store.sessions {
        UndoKeepsLinks(s, t);
      } else {
        NamesAfterLink(s, t, map[]);
        LinkKeepsLinks(s, t, map[]);
      }
    }
  }

  lemma WriteRefKeepsLinks(s: State, t: nat)
    requires LinkInv(s)
    ensures LinkInv(DoExchangeWriteRef(s, t))
  {
    if t in s.threads && s.threads[t].Exchange? && s.threads[t].stage.Link? {
      var slot := SlotOfCode(s.threads[t].code);
      if slot.session in s.store.sessions {
        NamesAfterLink(s, t, s.store.sessions[slot.session]);
        LinkKeepsLinks(s, t, s.store.sessions[slot.session]);
      } else {
        assert ThreadInv(s, s.threads[t]);
        UndoKeepsLinks(s, t);
      }
    }
  }

  /** An exchange can give up when no reference waits for it. */
  lemma UndoKeepsLinks(s: State, t: nat)
    requires LinkInv(s) && t in s.threads && Owns(s.threads[t])
    requires forall slot, id :: Names(s.store.sessions, slot, id) ==> !Replaces(s.threads[t], id)
    ensures LinkInv(Advance(s, t, Undo))
  {
    var r := Advance(s, t, Undo);
    assert ThreadInv(s, s.threads[t]);
    OthersKeepInv(s, r, t);
    forall slot, id | Names(r.store.sessions, slot, id) && id !in r.store.refreshTokens ensures Replacing(r, id) {
      StillReplacing(s, r, t, id);
    }
  }

  /** The exchange that deletes a stale token is the only one to replace it. */
  lemma DropStaleKeepsDistinct(s: State, t: nat)
    requires LinkInv(s) && t in s.threads && s.threads[t].Exchange? && s.threads[t].stage.Replace?
    requires s.threads[t].stage.stale in s.store.refreshTokens
    ensures DistinctInv(DoExchangeDropStale(s, t))
  {
    var r := DoExchangeDropStale(s, t);
    var stale := s.threads[t].stage.stale;
    forall u, id | u in s.threads && Replaces(s.threads[u], id) ensures id != stale {
      assert ThreadInv(s, s.threads[u]);
    }
    assert forall u :: u in r.threads && u != t ==> r.threads[u] == s.threads[u];
    assert forall id :: Replaces(r.threads[t], id) ==> id == stale;
  }

  lemma DropStaleKeepsRefs(s: State, t: nat)
    requires LinkInv(s) && t in s.threads && s.threads[t].Exchange? && s.threads[t].stage.Replace?
    requires s.threads[t].stage.stale in s.store.refreshTokens
    ensures RefInv(DoExchangeDropStale(s, t))
  {
    var r := DoExchangeDropStale(s, t);
    forall slot, id | Names(r.store.sessions, slot, id)
      ensures LinkedFor(r, id, slot) && (id in r.store.refreshTokens || Replacing(r, id))
    {
      assert Names(s.store.sessions, slot, id) && LinkedFor(s, id, slot);
      if id == s.threads[t].stage.stale {
        assert Replaces(r.threads[t], id);
      } else if id !in s.store.refreshTokens {
        StillReplacing(s, r, t, id);
      }
    }
  }

  lemma DropStaleKeepsLinks(s: State, t: nat)
    requires LinkInv(s)
    ensures LinkInv(DoExchangeDropStale(s, t))
  {
    var r := DoExchangeDropStale(s, t);
    if r != s {
      assert ThreadInv(s, s.threads[t]);
      if s.threads[t].stage.stale !in s.store.refreshTokens {
        UndoKeepsLinks(s, t);
      } else {
        DropStaleKeepsDistinct(s, t);
        DropStaleKeepsRefs(s, t);
        forall u | u in s.threads && u != t ensures Supports(s, r, s.threads[u]) {
          assert ThreadInv(s, s.threads[u]);
        }
        OthersKeepInv(s, r, t);
      }
    }
  }

  /** Deleting a refresh token that no slot names and no other exchange owns. */
  lemma DropKeepsLinks(s: State, t: nat, id: ID)
    requires LinkInv(s) && t in s.threads && id in s.refreshes.slots
    requires forall slot :: !Names(s.store.sessions, slot, id)
    requires forall u :: u in s.threads && u != t && Owns(s.threads[u]) ==> s.threads[u].refresh.id != id
    requires forall i :: !Replaces(s.threads[t], i)
    ensures LinkInv(DropRefresh(s, t, id))
  {
    var r := DropRefresh(s, t, id);
    OthersKeepInv(s, r, t);
    forall slot, i | Names(r.store.sessions, slot, i) && i !in r.store.refreshTokens ensures Replacing(r, i) {
      StillReplacing(s, r, t, i);
    }
  }

  lemma DropOwnKeepsLinks(s: State, t: nat)
    requires LinkInv(s)
    ensures LinkInv(DoExchangeDropOwn(s, t))
  {
    if AtStage(s, t, Undo) {
      assert ThreadInv(s, s.threads[t]);
      DropKeepsLinks(s, t, s.threads[t].refresh.id);
    }
  }

  lemma RevokeDeleteKeepsLinks(s: State, t: nat)
    requires LinkInv(s)
    ensures LinkInv(DoRevokeDelete(s, t))
  {
    if t in s.threads && s.threads[t].Revoke? {
      assert ThreadInv(s, s.threads[t]);
      forall u | u in s.threads && Owns(s.threads[u]) ensures s.threads[u].refresh.id != s.threads[t].revoked {
        assert ThreadInv(s, s.threads[u]);
      }
      DropKeepsLinks(s, t, s.threads[t].revoked);
    }
  }

  lemma TouchKeepsLinks(s: State, t: nat)
    requires LinkInv(s)
    ensures LinkInv(DoRefreshTouch(s, t))
  {
    var r := DoRefreshTouch(s, t);
    if r != s {
      forall slot, id ensures Names(r.store.sessions, slot, id) <==> Names(s.store.sessions, slot, id) {
      }
      OthersKeepInv(s, r, t);
      forall slot, id | Names(r.store.sessions, slot, id) && id !in r.store.refreshTokens ensures Replacing(r, id) {
        StillReplacing(s, r, t, id);
      }
    }
  }

  lemma CommitKeepsLinks(s: State, t: nat)
    requires LinkInv(s)
    ensures LinkInv(DoRefreshCommit(s, t))
  {
    var r := DoRefreshCommit(s, t);
    if r != s {
      OthersKeepInv(s, r, t);
      forall slot, id | Names(r.store.sessions, slot, id) && id !in r.store.refreshTokens ensures Replacing(r, id) {
        StillReplacing(s, r, t, id);
      }
    }
  }

  lemma UnlinkKeepsLinks(s: State, t: nat, slot: Slot)
    requires LinkInv(s)
    ensures LinkInv(DoRevokeUnlink(s, t, slot))
  {
    var r := DoRevokeUnlink(s, t, slot);
    if r != s {
      var id := Ref(s.store.sessions, slot).value.id;
      assert Names(s.store.sessions, slot, id);
      forall other, i
        ensures Names(r.store.sessions, other, i) <==> other != slot && Names(s.store.sessions, other, i)
      {
      }
      forall other ensures !Names(r.store.sessions, other, id) {
        assert Names(r.store.sessions, other, id) ==> other != slot && Names(s.store.sessions, other, id);
      }
      OthersKeepInv(s, r, t);
      forall other, i | Names(r.store.sessions, other, i) && i !in r.store.refreshTokens ensures Replacing(r, i) {
        StillReplacing(s, r, t, i);
      }
    }
  }

  lemma ExchangeStepKeepsLinks(s: State, a: Action)
    requires LinkInv(s) && (a.ExchangeCreate? || IsSession(a))
    ensures LinkInv(Apply(s, a))
  {
    if a.ExchangeCreate? {
      CreateKeepsLinks(s, a.t, a.newID, a.newToken);
    } else if a.ExchangeFindSession? {
      FindKeepsLinks(s, a.t);
    } else if a.ExchangeOpenSession? {
      OpenKeepsLinks(s, a.t);
    } else {
      LinkStepKeepsLinks(s, a);
    }
  }

  lemma LinkStepKeepsLinks(s: State, a: Action)
    requires LinkInv(s) && (a.ExchangeDropStale? || a.ExchangeWriteRef? || a.ExchangeDropOwn?)
    ensures LinkInv(Apply(s, a))
  {
    if a.ExchangeDropStale? {
      DropStaleKeepsLinks(s, a.t);
    } else if a.ExchangeWriteRef? {
      WriteRefKeepsLinks(s, a.t);
    } else {
      DropOwnKeepsLinks(s, a.t);
    }
  }

  lemma RefreshStepKeepsLinks(s: State, a: Action)
    requires LinkInv(s) && (a.RefreshTouch? || a.RefreshCommit?)
    ensures LinkInv(Apply(s, a))
  {
    if a.RefreshTouch? {
      TouchKeepsLinks(s, a.t);
    } else {
      CommitKeepsLinks(s, a.t);
    }
  }

  lemma RevokeStepKeepsLinks(s: State, a: Action)
    requires LinkInv(s) && IsRevoke(a)
    ensures LinkInv(Apply(s, a))
  {
    if a.RevokeUnlink? {
      UnlinkKeepsLinks(s, a.t, a.slot);
    } else {
      RevokeDeleteKeepsLinks(s, a.t);
    }
  }

  lemma StepKeepsLinks(s: State, a: Action)
    requires LinkInv(s)
    ensures LinkInv(Apply(s, a))
  {
    if a.ExchangeCreate? || IsSession(a) {
      ExchangeStepKeepsLinks(s, a);
    } else if a.RefreshTouch? || a.RefreshCommit? {
      RefreshStepKeepsLinks(s, a);
    } else if IsRevoke(a) {
      RevokeStepKeepsLinks(s, a);
    } else {
      if IsLogin(a) {
        LoginFrame(s, a);
      } else if IsApproval(a) {
        ApprovalFrame(s, a);
      } else if IsRedeem(a) {
        RedeemFrame(s, a);
      } else {
        RefreshGetFrame(s, a);
      }
      FrameKeepsLinks(s, Apply(s, a));
    }
  }
}
