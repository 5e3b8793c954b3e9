/**
 * Exactly when refresh tokens and session references come apart under interleaving. A stored
 * token is held while its slot names it, while the exchange that made it or a revocation still
 * has it in hand, or while an exchange is about to delete it. Only one step ever lets go of a
 * token: an exchange that writes its reference over one whose token is still stored, with no
 * other exchange about to delete that token. And what is let go stays stored for good.
 */
module TokenOrphans {
  import opened Common
  import opened Storage
  import opened TokenProtocol
  import opened TokenLinks
  import opened TokenTheorems
  import opened TokenSlots
  import SerialRuns

  /** The slot the token was made for names it. */
  ghost predicate Named(s: State, id: ID) {
    id in s.refreshes.slots && Names(s.store.sessions, s.refreshes.slots[id], id)
  }

  /** The thread has the token in hand; with doomed, also if it is about to delete it as stale. */
  predicate Grips(th: Thread, id: ID, doomed: bool) {
    || (Owns(th) && th.refresh.id == id)
    || th == Revoke(id)
    || (doomed && th.Exchange? && th.stage == Replace(id))
  }

  ghost predicate Gripped(s: State, id: ID, doomed: bool) {
    exists t :: t in s.threads && Grips(s.threads[t], id, doomed)
  }

  ghost predicate Held(s: State, id: ID, doomed: bool) {
    Named(s, id) || Gripped(s, id, doomed)
  }

  /** Every stored token of the slot is held. */
  ghost predicate SlotHeld(s: State, slot: Slot, doomed: bool) {
    forall id :: Own(s.store.refreshTokens, slot, id) ==> Held(s, id, doomed)
  }

  /** Every stored token is named, or in the hand of the exchange that made it or of a revocation. */
  ghost predicate Accounted(s: State) {
    forall id :: id in s.store.refreshTokens ==> Held(s, id, false)
  }

  /** The step writes a reference over one that names this stored token. */
  ghost predicate Overwrites(s: State, a: Action, id: ID) {
    && a.ExchangeWriteRef? && a.t in s.threads && s.threads[a.t].Exchange? && s.threads[a.t].stage.Link?
    && Names(s.store.sessions, SlotOfCode(s.threads[a.t].code), id) && id in s.store.refreshTokens
  }

  ghost predicate Loses(s: State, a: Action, id: ID, doomed: bool) {
    Overwrites(s, a, id) && !Gripped(s, id, doomed)
  }

  /** The step lets go of a stored token of the slot. */
  ghost predicate Orphans(s: State, a: Action, slot: Slot) {
    exists id :: Own(s.store.refreshTokens, slot, id) && Loses(s, a, id, true)
  }

  // ----- Every other step keeps hold of a token -----

  /** The token is as it was: named as before, and gripped by the same threads. */
  lemma SameHold(s: State, r: State, t: nat, id: ID, doomed: bool)
    requires Held(s, id, doomed) && OthersSame(s, r, t)
    requires Named(s, id) ==> Named(r, id)
    requires t in s.threads && Grips(s.threads[t], id, doomed) ==> t in r.threads && Grips(r.threads[t], id, doomed)
    ensures Held(r, id, doomed)
  {
    if !Named(s, id) {
      var u :| u in s.threads && Grips(s.threads[u], id, doomed);
      assert u in r.threads && Grips(r.threads[u], id, doomed);
    }
  }

  lemma FrameHold(s: State, r: State, id: ID, doomed: bool)
    requires KeepsLinks(s, r)
    ensures Held(s, id, doomed) <==> Held(r, id, doomed)
  {
    if Gripped(s, id, doomed) {
      var u :| u in s.threads && Grips(s.threads[u], id, doomed);
      assert u in r.threads && Grips(r.threads[u], id, doomed);
    }
    if Gripped(r, id, doomed) {
      var u :| u in r.threads && Grips(r.threads[u], id, doomed);
      assert u in s.threads && Grips(s.threads[u], id, doomed);
    }
  }

  /** The token was stored and held, or is new. */
  ghost predicate WasHeld(s: State, id: ID, doomed: bool) {
    id in s.store.refreshTokens ==> Held(s, id, doomed)
  }

  lemma CreateHolds(s: State, t: nat, newID: ID, newToken: ID, id: ID, doomed: bool)
    requires LinkInv(s) && WasHeld(s, id, doomed)
    requires id in DoExchangeCreate(s, t, newID, newToken).store.refreshTokens
    ensures Held(DoExchangeCreate(s, t, newID, newToken), id, doomed)
  {
    var r := DoExchangeCreate(s, t, newID, newToken);
    if r != s {
      if id == newID {
        assert Grips(r.threads[t], id, doomed);
      } else {
        SameHold(s, r, t, id, doomed);
      }
    }
  }

  lemma FindHolds(s: State, t: nat, id: ID, doomed: bool)
    requires Held(s, id, doomed)
    ensures Held(DoExchangeFindSession(s, t), id, doomed)
  {
    SameHold(s, DoExchangeFindSession(s, t), t, id, doomed);
  }

  /** After an exchange wrote its reference, its own token is named, and only the one it wrote over is not any more. */
  lemma LinkHolds(s: State, t: nat, session: Session, id: ID, doomed: bool)
    requires LinkInv(s) && t in s.threads && Owns(s.threads[t]) && !s.threads[t].stage.Replace? && Held(s, id, doomed)
    requires var r := LinkRefresh(s, t, session);
             forall slot :: Ref(r.store.sessions, slot) ==
               if slot == SlotOfCode(s.threads[t].code)
               then Some(NewRef(s.threads[t].refresh)) else Ref(s.store.sessions, slot)
    requires Names(s.store.sessions, SlotOfCode(s.threads[t].code), id) ==> Gripped(s, id, doomed)
    ensures Held(LinkRefresh(s, t, session), id, doomed)
  {
    var r := LinkRefresh(s, t, session);
    var mine := SlotOfCode(s.threads[t].code);
    assert ThreadInv(s, s.threads[t]);
    if id == s.threads[t].refresh.id {
      assert Names(r.store.sessions, mine, id);
    } else if Gripped(s, id, doomed) {
      var u :| u in s.threads && Grips(s.threads[u], id, doomed);
      assert u != t && u in r.threads && Grips(r.threads[u], id, doomed);
    } else {
      assert Ref(r.store.sessions, s.refreshes.slots[id]) == Ref(s.store.sessions, s.refreshes.slots[id]);
    }
  }

  lemma OpenHolds(s: State, t: nat, id: ID, doomed: bool)
    requires LinkInv(s) && Held(s, id, doomed)
    ensures Held(DoExchangeOpenSession(s, t), id, doomed)
  {
    if AtStage(s, t, NoSession) {
      if SlotOfCode(s.threads[t].code).session in s.store.sessions {
        SameHold(s, Advance(s, t, Undo), t, id, doomed);
      } else {
        NamesAfterLink(s, t, map[]);
        LinkHolds(s, t, map[], id, doomed);
      }
    }
  }

  lemma DropStaleHolds(s: State, t: nat, id: ID, doomed: bool)
    requires Held(s, id, doomed) && id in DoExchangeDropStale(s, t).store.refreshTokens
    ensures Held(DoExchangeDropStale(s, t), id, doomed)
  {
    SameHold(s, DoExchangeDropStale(s, t), t, id, doomed);
  }

  lemma WriteRefHolds(s: State, t: nat, id: ID, doomed: bool)
    requires LinkInv(s) && Held(s, id, doomed) && id in s.store.refreshTokens
    requires !Loses(s, ExchangeWriteRef(t), id, doomed)
    ensures Held(DoExchangeWriteRef(s, t), id, doomed)
  {
    if t in s.threads && s.threads[t].Exchange? && s.threads[t].stage.Link? {
      var mine := SlotOfCode(s.threads[t].code);
      if mine.session in s.store.sessions {
        NamesAfterLink(s, t, s.store.sessions[mine.session]);
        LinkHolds(s, t, s.store.sessions[mine.session], id, doomed);
      } else {
        SameHold(s, Advance(s, t, Undo), t, id, doomed);
      }
    }
  }

  lemma DropHolds(s: State, t: nat, own: ID, id: ID, doomed: bool)
    requires Held(s, id, doomed) && id in DropRefresh(s, t, own).store.refreshTokens && t in s.threads
    requires Grips(s.threads[t], id, doomed) ==> id == own
    ensures Held(DropRefresh(s, t, own), id, doomed)
  {
    SameHold(s, DropRefresh(s, t, own), t, id, doomed);
  }

  lemma DropOwnHolds(s: State, t: nat, id: ID, doomed: bool)
    requires Held(s, id, doomed) && id in DoExchangeDropOwn(s, t).store.refreshTokens
    ensures Held(DoExchangeDropOwn(s, t), id, doomed)
  {
    if AtStage(s, t, Undo) {
      DropHolds(s, t, s.threads[t].refresh.id, id, doomed);
    }
  }

  lemma SessionStepHolds(s: State, a: Action, id: ID, doomed: bool)
    requires LinkInv(s) && IsSession(a) && !a.ExchangeWriteRef? && Held(s, id, doomed)
    requires id in Apply(s, a).store.refreshTokens
    ensures Held(Apply(s, a), id, doomed)
  {
    if a.ExchangeFindSession? {
      FindHolds(s, a.t, id, doomed);
    } else if a.ExchangeOpenSession? {
      OpenHolds(s, a.t, id, doomed);
    } else {
      DropStepHolds(s, a, id, doomed);
    }
  }

  lemma DropStepHolds(s: State, a: Action, id: ID, doomed: bool)
    requires LinkInv(s) && (a.ExchangeDropStale? || a.ExchangeDropOwn?) && Held(s, id, doomed)
    requires id in Apply(s, a).store.refreshTokens
    ensures Held(Apply(s, a), id, doomed)
  {
    if a.ExchangeDropStale? {
      assert Apply(s, a) == DoExchangeDropStale(s, a.t);
      DropStaleHolds(s, a.t, id, doomed);
    } else {
      assert Apply(s, a) == DoExchangeDropOwn(s, a.t);
      DropOwnHolds(s, a.t, id, doomed);
    }
  }

  lemma TouchHolds(s: State, t: nat, id: ID, doomed: bool)
    requires Held(s, id, doomed)
    ensures Held(DoRefreshTouch(s, t), id, doomed)
  {
    var r := DoRefreshTouch(s, t);
    forall slot, i ensures Names(r.store.sessions, slot, i) <==> Names(s.store.sessions, slot, i) {
    }
    SameHold(s, r, t, id, doomed);
  }

  lemma UnlinkHolds(s: State, t: nat, slot: Slot, id: ID, doomed: bool)
    requires LinkInv(s) && Held(s, id, doomed)
    ensures Held(DoRevokeUnlink(s, t, slot), id, doomed)
  {
    var r := DoRevokeUnlink(s, t, slot);
    if r != s {
      forall other, i
        ensures Names(r.store.sessions, other, i) <==> other != slot && Names(s.store.sessions, other, i)
      {
      }
      if Named(s, id) && s.refreshes.slots[id] == slot {
        assert Grips(r.threads[t], id, doomed);
      } else {
        SameHold(s, r, t, id, doomed);
      }
    }
  }

  lemma CommitHolds(s: State, t: nat, id: ID, doomed: bool)
    requires Held(s, id, doomed)
    ensures Held(DoRefreshCommit(s, t), id, doomed)
  {
    SameHold(s, DoRefreshCommit(s, t), t, id, doomed);
  }

  lemma RevokeDeleteHolds(s: State, t: nat, id: ID, doomed: bool)
    requires Held(s, id, doomed) && id in DoRevokeDelete(s, t).store.refreshTokens
    ensures Held(DoRevokeDelete(s, t), id, doomed)
  {
    if t in s.threads && s.threads[t].Revoke? {
      DropHolds(s, t, s.threads[t].revoked, id, doomed);
    }
  }

  lemma RefreshStepHolds(s: State, a: Action, id: ID, doomed: bool)
    requires a.RefreshTouch? || a.RefreshCommit?
    requires Held(s, id, doomed)
    ensures Held(Apply(s, a), id, doomed)
  {
    if a.RefreshTouch? {
      TouchHolds(s, a.t, id, doomed);
    } else {
      CommitHolds(s, a.t, id, doomed);
    }
  }

  lemma RevokeStepHolds(s: State, a: Action, id: ID, doomed: bool)
    requires LinkInv(s) && IsRevoke(a) && Held(s, id, doomed) && id in Apply(s, a).store.refreshTokens
    ensures Held(Apply(s, a), id, doomed)
  {
    if a.RevokeUnlink? {
      UnlinkHolds(s, a.t, a.slot, id, doomed);
    } else {
      RevokeDeleteHolds(s, a.t, id, doomed);
    }
  }

  /** A step keeps hold of every token that it does not write over. */
  lemma StepHolds(s: State, a: Action, id: ID, doomed: bool)
    requires LinkInv(s) && WasHeld(s, id, doomed) && !Loses(s, a, id, doomed)
    requires id in Apply(s, a).store.refreshTokens
    ensures Held(Apply(s, a), id, doomed)
  {
    if a.ExchangeCreate? {
      CreateHolds(s, a.t, a.newID, a.newToken, id, doomed);
    } else {
      OnlyCreateStores(s, a, id);
      if a.ExchangeWriteRef? {
        WriteRefHolds(s, a.t, id, doomed);
      } else if IsSession(a) {
        SessionStepHolds(s, a, id, doomed);
      } else if a.RefreshTouch? || a.RefreshCommit? {
        RefreshStepHolds(s, a, id, doomed);
      } else if IsRevoke(a) {
        RevokeStepHolds(s, a, id, doomed);
      } else {
        StepFrame(s, a);
        FrameHold(s, Apply(s, a), id, doomed);
      }
    }
  }

  lemma OnlyCreateStores(s: State, a: Action, id: ID)
    requires !a.ExchangeCreate? && id in Apply(s, a).store.refreshTokens
    ensures id in s.store.refreshTokens
  {
    if IsSession(a) || a.RefreshTouch? || a.RefreshCommit? || IsRevoke(a) {
    } else {
      StepFrame(s, a);
    }
  }

  // ----- What is let go stays stored -----

  /** A stored token that was linked once and that nobody holds any more. */
  ghost predicate Lost(s: State, id: ID) {
    id in s.store.refreshTokens && id in s.refreshes.linked && !Held(s, id, true)
  }

  /** A token of the slot is lost. */
  ghost predicate LostAt(s: State, slot: Slot) {
    exists id :: Lost(s, id) && Own(s.store.refreshTokens, slot, id)
  }

  lemma LosesMeansLost(s: State, a: Action, id: ID, doomed: bool)
    requires LinkInv(s) && Loses(s, a, id, doomed)
    ensures var r := Apply(s, a);
            && r.store.refreshTokens == s.store.refreshTokens && id in r.refreshes.linked && !Held(r, id, doomed)
  {
    var t := a.t;
    var r := DoExchangeWriteRef(s, t);
    var mine := SlotOfCode(s.threads[t].code);
    assert ThreadInv(s, s.threads[t]);
    assert LinkedFor(s, id, mine) && id != s.threads[t].refresh.id;
    NamesAfterLink(s, t, s.store.sessions[mine.session]);
    assert Ref(r.store.sessions, mine) == Some(NewRef(s.threads[t].refresh));
    forall u | u in r.threads ensures !Grips(r.threads[u], id, doomed) {
      assert u in s.threads && r.threads[u] == s.threads[u];
    }
  }

  /** Nobody takes hold of the token again. */
  lemma NoNewHold(s: State, r: State, t: nat, id: ID)
    requires Lost(s, id) && OthersSame(s, r, t) && id in r.store.refreshTokens && id in r.refreshes.linked
    requires r.refreshes.slots == s.refreshes.slots && id in s.refreshes.slots
    requires Names(r.store.sessions, s.refreshes.slots[id], id) ==> Names(s.store.sessions, s.refreshes.slots[id], id)
    requires t in r.threads ==> !Grips(r.threads[t], id, true)
    ensures Lost(r, id)
  {
    forall u | u in r.threads ensures !Grips(r.threads[u], id, true) {
      assert u != t ==> u in s.threads && r.threads[u] == s.threads[u];
    }
  }

  /** Of a token nobody holds: no thread grips it, and no slot names it. */
  lemma LostIsFree(s: State, id: ID)
    requires LinkInv(s) && Lost(s, id)
    ensures id in s.refreshes.slots && forall slot :: !Names(s.store.sessions, slot, id)
    ensures forall t :: t in s.threads ==> !Grips(s.threads[t], id, true)
    ensures forall t :: t in s.threads && Owns(s.threads[t]) ==> s.threads[t].refresh.id != id
  {
    forall slot ensures !Names(s.store.sessions, slot, id) {
      assert Names(s.store.sessions, slot, id) ==> LinkedFor(s, id, slot) && Named(s, id);
    }
    forall t | t in s.threads ensures !Grips(s.threads[t], id, true) {
      assert Grips(s.threads[t], id, true) ==> Gripped(s, id, true);
    }
  }

  lemma CreateStaysLost(s: State, t: nat, newID: ID, newToken: ID, id: ID)
    requires LinkInv(s) && Lost(s, id)
    ensures Lost(DoExchangeCreate(s, t, newID, newToken), id)
  {
    var r := DoExchangeCreate(s, t, newID, newToken);
    LostIsFree(s, id);
    if r != s {
      assert id != newID && r.refreshes.slots[id] == s.refreshes.slots[id];
      forall u | u in r.threads ensures !Grips(r.threads[u], id, true) {
        assert u != t ==> u in s.threads && r.threads[u] == s.threads[u];
      }
    }
  }

  lemma LinkStaysLost(s: State, t: nat, session: Session, id: ID)
    requires LinkInv(s) && Lost(s, id) && t in s.threads && Owns(s.threads[t])
    requires var r := LinkRefresh(s, t, session);
             forall slot :: Ref(r.store.sessions, slot) ==
               if slot == SlotOfCode(s.threads[t].code)
               then Some(NewRef(s.threads[t].refresh)) else Ref(s.store.sessions, slot)
    ensures Lost(LinkRefresh(s, t, session), id)
  {
    var r := LinkRefresh(s, t, session);
    LostIsFree(s, id);
    assert Ref(r.store.sessions, s.refreshes.slots[id]) == Some(NewRef(s.threads[t].refresh))
           || Ref(r.store.sessions, s.refreshes.slots[id]) == Ref(s.store.sessions, s.refreshes.slots[id]);
    NoNewHold(s, r, t, id);
  }

  lemma AdvanceStaysLost(s: State, t: nat, stage: Stage, id: ID)
    requires LinkInv(s) && Lost(s, id) && t in s.threads && Owns(s.threads[t]) && stage != Replace(id)
    ensures Lost(Advance(s, t, stage), id)
  {
    LostIsFree(s, id);
    NoNewHold(s, Advance(s, t, stage), t, id);
  }

  lemma FindStaysLost(s: State, t: nat, id: ID)
    requires LinkInv(s) && Lost(s, id)
    ensures Lost(DoExchangeFindSession(s, t), id)
  {
    if AtStage(s, t, Created) {
      LostIsFree(s, id);
      var slot := SlotOfCode(s.threads[t].code);
      assert !Names(s.store.sessions, slot, id);
      AdvanceStaysLost(s, t, DoExchangeFindSession(s, t).threads[t].stage, id);
    }
  }

  lemma OpenStaysLost(s: State, t: nat, id: ID)
    requires LinkInv(s) && Lost(s, id)
    ensures Lost(DoExchangeOpenSession(s, t), id)
  {
    if AtStage(s, t, NoSession) {
      AdvanceStaysLost(s, t, Undo, id);
      if SlotOfCode(s.threads[t].code).session !in s.store.sessions {
        NamesAfterLink(s, t, map[]);
        LinkStaysLost(s, t, map[], id);
      }
    }
  }

  lemma WriteRefStaysLost(s: State, t: nat, id: ID)
    requires LinkInv(s) && Lost(s, id)
    ensures Lost(DoExchangeWriteRef(s, t), id)
  {
    if t in s.threads && s.threads[t].Exchange? && s.threads[t].stage.Link? {
      var mine := SlotOfCode(s.threads[t].code);
      AdvanceStaysLost(s, t, Undo, id);
      if mine.session in s.store.sessions {
        NamesAfterLink(s, t, s.store.sessions[mine.session]);
        LinkStaysLost(s, t, s.store.sessions[mine.session], id);
      }
    }
  }

  lemma DropStaysLost(s: State, t: nat, other: ID, id: ID)
    requires LinkInv(s) && Lost(s, id) && other != id && t in s.threads
    ensures Lost(DropRefresh(s, t, other), id)
  {
    LostIsFree(s, id);
    NoNewHold(s, DropRefresh(s, t, other), t, id);
  }

  lemma DropStaleStaysLost(s: State, t: nat, id: ID)
    requires LinkInv(s) && Lost(s, id)
    ensures Lost(DoExchangeDropStale(s, t), id)
  {
    if t in s.threads && s.threads[t].Exchange? && s.threads[t].stage.Replace? {
      LostIsFree(s, id);
      NoNewHold(s, DoExchangeDropStale(s, t), t, id);
    }
  }

  lemma SessionStepStaysLost(s: State, a: Action, id: ID)
    requires LinkInv(s) && Lost(s, id) && IsSession(a)
    ensures Lost(Apply(s, a), id)
  {
    LostIsFree(s, id);
    match a {
      case ExchangeFindSession(t) => FindStaysLost(s, t, id);
      case ExchangeOpenSession(t) => OpenStaysLost(s, t, id);
      case ExchangeDropStale(t) => DropStaleStaysLost(s, t, id);
      case ExchangeWriteRef(t) => WriteRefStaysLost(s, t, id);
      case ExchangeDropOwn(t) => if AtStage(s, t, Undo) { DropStaysLost(s, t, s.threads[t].refresh.id, id); }
    }
  }

  lemma TouchStaysLost(s: State, t: nat, id: ID)
    requires LinkInv(s) && Lost(s, id)
    ensures Lost(DoRefreshTouch(s, t), id)
  {
    var r := DoRefreshTouch(s, t);
    LostIsFree(s, id);
    forall slot, i ensures Names(r.store.sessions, slot, i) <==> Names(s.store.sessions, slot, i) {
    }
    NoNewHold(s, r, t, id);
  }

  lemma UnlinkStaysLost(s: State, t: nat, slot: Slot, id: ID)
    requires LinkInv(s) && Lost(s, id)
    ensures Lost(DoRevokeUnlink(s, t, slot), id)
  {
    var r := DoRevokeUnlink(s, t, slot);
    LostIsFree(s, id);
    if r != s {
      assert !Names(s.store.sessions, slot, id);
      forall other, i
        ensures Names(r.store.sessions, other, i) <==> other != slot && Names(s.store.sessions, other, i)
      {
      }
      NoNewHold(s, r, t, id);
    }
  }

  lemma CommitStaysLost(s: State, t: nat, id: ID)
    requires LinkInv(s) && Lost(s, id)
    ensures Lost(DoRefreshCommit(s, t), id)
  {
    LostIsFree(s, id);
    NoNewHold(s, DoRefreshCommit(s, t), t, id);
  }

  lemma RevokeDeleteStaysLost(s: State, t: nat, id: ID)
    requires LinkInv(s) && Lost(s, id)
    ensures Lost(DoRevokeDelete(s, t), id)
  {
    LostIsFree(s, id);
    if t in s.threads && s.threads[t].Revoke? {
      DropStaysLost(s, t, s.threads[t].revoked, id);
    }
  }

  lemma RefreshStepStaysLost(s: State, a: Action, id: ID)
    requires LinkInv(s) && Lost(s, id) && (a.RefreshTouch? || a.RefreshCommit? || IsRevoke(a))
    ensures Lost(Apply(s, a), id)
  {
    if a.RefreshTouch? {
      TouchStaysLost(s, a.t, id);
    } else if a.RefreshCommit? {
      CommitStaysLost(s, a.t, id);
    } else if a.RevokeUnlink? {
      UnlinkStaysLost(s, a.t, a.slot, id);
    } else {
      RevokeDeleteStaysLost(s, a.t, id);
    }
  }

  lemma StepStaysLost(s: State, a: Action, id: ID)
    requires LinkInv(s) && Lost(s, id)
    ensures Lost(Apply(s, a), id)
  {
    if a.ExchangeCreate? {
      CreateStaysLost(s, a.t, a.newID, a.newToken, id);
    } else if IsSession(a) {
      SessionStepStaysLost(s, a, id);
    } else if a.RefreshTouch? || a.RefreshCommit? || IsRevoke(a) {
      RefreshStepStaysLost(s, a, id);
    } else {
      StepFrame(s, a);
      FrameHold(s, Apply(s, a), id, true);
    }
  }

  // ----- One step, exactly -----

  /** A step keeps every stored token accounted for exactly if it writes over no reference to a stored token. */
  lemma AccountedIffNotOverwritten(s: State, a: Action)
    requires LinkInv(s) && Accounted(s)
    ensures Accounted(Apply(s, a)) <==> forall id :: !Overwrites(s, a, id)
  {
    forall id | Overwrites(s, a, id) ensures !Accounted(Apply(s, a)) {
      NamedIsFree(s, id);
      LosesMeansLost(s, a, id, false);
    }
    if forall id :: !Overwrites(s, a, id) {
      forall id | id in Apply(s, a).store.refreshTokens ensures Held(Apply(s, a), id, false) {
        StepHolds(s, a, id, false);
      }
    }
  }

  /** A token that is named is in nobody's hand. */
  lemma NamedIsFree(s: State, id: ID)
    requires LinkInv(s) && exists slot :: Names(s.store.sessions, slot, id)
    ensures !Gripped(s, id, false)
  {
    var slot :| Names(s.store.sessions, slot, id);
    assert LinkedFor(s, id, slot);
    forall t | t in s.threads ensures !Grips(s.threads[t], id, false) {
      assert ThreadInv(s, s.threads[t]);
    }
  }

  // ----- Runs, exactly -----

  /** No step of the run lets go of a token of the slot. */
  ghost predicate NeverOrphans(s: State, actions: seq<Action>, slot: Slot)
    decreases |actions|
  {
    actions != [] ==> !Orphans(s, actions[0], slot) && NeverOrphans(Apply(s, actions[0]), actions[1..], slot)
  }

  lemma StepKeepsSlotOf(s: State, a: Action, id: ID)
    requires id in s.refreshes.slots && (a.ExchangeCreate? ==> a.newID != id)
    ensures id in Apply(s, a).refreshes.slots && Apply(s, a).refreshes.slots[id] == s.refreshes.slots[id]
  {
    if a.ExchangeCreate? || IsSession(a) || a.RefreshTouch? || a.RefreshCommit? || IsRevoke(a) {
    } else {
      StepFrame(s, a);
    }
  }

  /** What is recorded of a token's slot stays so. */
  lemma SlotOfIsFixed(s: State, a: Action, id: ID)
    requires LinkInv(s) && id in s.refreshes.slots
    ensures id in Apply(s, a).refreshes.slots && Apply(s, a).refreshes.slots[id] == s.refreshes.slots[id]
  {
    if a.ExchangeCreate? && a.newID == id {
      assert id in s.used && Apply(s, a) == s;
    } else {
      StepKeepsSlotOf(s, a, id);
    }
  }

  /** No step of the run from the start lets go of a token of the slot. */
  ghost predicate KeepsTokens(actions: seq<Action>, slot: Slot) {
    NeverOrphans(INIT, actions, slot)
  }

  lemma {:induction false} LostForGood(s: State, actions: seq<Action>, id: ID, slot: Slot)
    requires LinkInv(s) && Lost(s, id) && Own(s.store.refreshTokens, slot, id)
    ensures Lost(Run(s, actions), id) && Own(Run(s, actions).store.refreshTokens, slot, id)
    decreases |actions|
  {
    if actions != [] {
      var m := Apply(s, actions[0]);
      StepKeepsLinks(s, actions[0]);
      StepStaysLost(s, actions[0], id);
      SlotOfIsFixed(s, actions[0], id);
      LostForGood(m, actions[1..], id, slot);
    }
  }

  lemma StepHoldsSlot(s: State, a: Action, slot: Slot)
    requires LinkInv(s) && SlotHeld(s, slot, true) && !Orphans(s, a, slot)
    ensures SlotHeld(Apply(s, a), slot, true)
  {
    StepKeepsLinks(s, a);
    var r := Apply(s, a);
    forall id | Own(r.store.refreshTokens, slot, id) ensures Held(r, id, true) {
      if id in s.store.refreshTokens {
        SlotOfIsFixed(s, a, id);
        assert Own(s.store.refreshTokens, slot, id);
      }
      StepHolds(s, a, id, true);
    }
  }

  /** Over a run, the slot's tokens stay held, or one of them is let go and stays stored. */
  lemma {:induction false} RunHoldsSlot(s: State, actions: seq<Action>, slot: Slot)
    requires LinkInv(s) && SlotHeld(s, slot, true)
    ensures NeverOrphans(s, actions, slot) ==> SlotHeld(Run(s, actions), slot, true)
    ensures !NeverOrphans(s, actions, slot) ==> LostAt(Run(s, actions), slot)
    decreases |actions|
  {
    if actions != [] {
      var a := actions[0];
      StepKeepsLinks(s, a);
      if Orphans(s, a, slot) {
        var id :| Own(s.store.refreshTokens, slot, id) && Loses(s, a, id, true);
        LosesMeansLost(s, a, id, true);
        LostForGood(Apply(s, a), actions[1..], id, slot);
      } else {
        StepHoldsSlot(s, a, slot);
        RunHoldsSlot(Apply(s, a), actions[1..], slot);
      }
    }
  }

  // ----- Slots and stores at rest -----

  ghost predicate IdleAt(s: State, slot: Slot) {
    forall t :: !BusyAt(s, t, slot)
  }

  /** A thread with a token of the slot in hand is at work on the slot. */
  lemma GripIsBusy(s: State, t: nat, id: ID, slot: Slot)
    requires LinkInv(s) && t in s.threads && Grips(s.threads[t], id, true)
    requires id in s.refreshes.slots && s.refreshes.slots[id] == slot
    ensures BusyAt(s, t, slot)
  {
    assert ThreadInv(s, s.threads[t]);
  }

  lemma IdleNamesAreStored(s: State, slot: Slot, id: ID)
    requires LinkInv(s) && IdleAt(s, slot) && Names(s.store.sessions, slot, id)
    ensures Own(s.store.refreshTokens, slot, id)
  {
    assert LinkedFor(s, id, slot);
    if id !in s.store.refreshTokens {
      var t :| t in s.threads && Replaces(s.threads[t], id);
      assert ThreadInv(s, s.threads[t]) && BusyAt(s, t, slot);
    }
  }

  lemma IdleSlotSettledIff(s: State, slot: Slot)
    requires LinkInv(s) && IdleAt(s, slot)
    ensures Settled(s, slot) <==> SlotHeld(s, slot, true)
  {
    forall id | Names(s.store.sessions, slot, id) ensures Own(s.store.refreshTokens, slot, id) {
      IdleNamesAreStored(s, slot, id);
    }
    forall id | Own(s.store.refreshTokens, slot, id)
      ensures Held(s, id, true) <==> Names(s.store.sessions, slot, id)
    {
      if t :| t in s.threads && Grips(s.threads[t], id, true) {
        GripIsBusy(s, t, id, slot);
      }
    }
  }

  /**
   * In every run, a slot that no thread is working on has a reference exactly for its token if
   * and only if no step of the run let go of a token of the slot.
   */
  lemma SettledIffNeverOrphans(actions: seq<Action>, slot: Slot)
    requires IdleAt(Run(INIT, actions), slot)
    ensures Settled(Run(INIT, actions), slot) <==> KeepsTokens(actions, slot)
  {
    InvAlways(actions);
    var s := Run(INIT, actions);
    RunHoldsSlot(INIT, actions, slot);
    IdleSlotSettledIff(s, slot);
    if !KeepsTokens(actions, slot) {
      var id :| Lost(s, id) && Own(s.store.refreshTokens, slot, id);
      assert !Held(s, id, true);
    }
  }

  lemma RestBijectiveIffSettled(s: State)
    requires LinkInv(s) && s.threads == map[]
    ensures SerialRuns.Bijective(s.store) <==> forall slot :: Settled(s, slot)
  {
    if forall slot :: Settled(s, slot) {
      forall slot, id | Names(s.store.sessions, slot, id) ensures Own(s.store.refreshTokens, slot, id) {
        assert Settled(s, slot);
      }
      forall id | id in s.store.refreshTokens
        ensures Names(s.store.sessions, SlotOfToken(s.store.refreshTokens[id]), id)
      {
        var slot := SlotOfToken(s.store.refreshTokens[id]);
        assert Settled(s, slot) && Own(s.store.refreshTokens, slot, id);
      }
    }
  }

  /** At rest, references and tokens are in bijection exactly if every token is accounted for. */
  lemma RestBijectiveIffAccounted(s: State)
    requires LinkInv(s) && s.threads == map[]
    ensures SerialRuns.Bijective(s.store) <==> Accounted(s)
  {
    RestBijectiveIffSettled(s);
    forall slot ensures Settled(s, slot) <==> SlotHeld(s, slot, true) {
      IdleSlotSettledIff(s, slot);
    }
    forall id ensures Held(s, id, true) <==> Held(s, id, false) {
    }
    if Accounted(s) {
      forall slot ensures SlotHeld(s, slot, true) {
      }
    }
    if forall slot :: Settled(s, slot) {
      forall id | id in s.store.refreshTokens ensures Held(s, id, true) {
        assert SlotHeld(s, SlotOfToken(s.store.refreshTokens[id]), true);
        assert Own(s.store.refreshTokens, SlotOfToken(s.store.refreshTokens[id]), id);
      }
    }
  }

  /** A run that comes to rest leaves references and tokens in bijection if and only if it never let go of a token. */
  lemma RestBijectiveIffNeverOrphans(actions: seq<Action>)
    requires Run(INIT, actions).threads == map[]
    ensures SerialRuns.Bijective(Run(INIT, actions).store) <==> forall slot :: KeepsTokens(actions, slot)
  {
    InvAlways(actions);
    var s := Run(INIT, actions);
    RestBijectiveIffSettled(s);
    if SerialRuns.Bijective(s.store) {
      forall slot ensures KeepsTokens(actions, slot) {
        assert Settled(s, slot);
        SettledIffNeverOrphans(actions, slot);
      }
    }
    if forall slot :: KeepsTokens(actions, slot) {
      forall slot ensures Settled(s, slot) {
        SettledIffNeverOrphans(actions, slot);
      }
    }
  }

  // ----- Sufficient conditions -----

  /** No step of the run writes over a reference to a stored token. */
  ghost predicate NeverOverwrites(s: State, actions: seq<Action>)
    decreases |actions|
  {
    actions != [] ==>
      (forall id :: !Overwrites(s, actions[0], id)) && NeverOverwrites(Apply(s, actions[0]), actions[1..])
  }

  lemma {:induction false} NeverOverwritesNeverOrphans(s: State, actions: seq<Action>, slot: Slot)
    requires NeverOverwrites(s, actions)
    ensures NeverOrphans(s, actions, slot)
    decreases |actions|
  {
    if actions != [] {
      NeverOverwritesNeverOrphans(Apply(s, actions[0]), actions[1..], slot);
    }
  }

  /** Every run that never writes over a reference to a stored token ends in bijection. */
  lemma NeverOverwritingEndsBijective(actions: seq<Action>)
    requires NeverOverwrites(INIT, actions) && Run(INIT, actions).threads == map[]
    ensures SerialRuns.Bijective(Run(INIT, actions).store)
  {
    forall slot ensures KeepsTokens(actions, slot) {
      NeverOverwritesNeverOrphans(INIT, actions, slot);
    }
    RestBijectiveIffNeverOrphans(actions);
  }

  /** A thread that is alone on its slot finds there no reference to a stored token when it writes its own. */
  lemma ExclusiveNeverOverwrites(s: State, a: Action, id: ID)
    requires LinkInv(s) && SlotsInv(s) && Exclusive(s)
    ensures !Overwrites(s, a, id)
  {
    if Overwrites(s, a, id) {
      AtWork(s, a.t);
      var mine := SlotOfCode(s.threads[a.t].code);
      assert LinkedFor(s, id, mine) && ThreadInv(s, s.threads[a.t]);
      assert Own(s.store.refreshTokens, mine, id);
      assert false;
    }
  }

  lemma {:induction false} ExclusiveRunNeverOverwrites(s: State, actions: seq<Action>)
    requires LinkInv(s) && SlotsInv(s) && ExclusiveRun(s, actions)
    ensures NeverOverwrites(s, actions)
    decreases |actions|
  {
    if actions != [] {
      var m := Apply(s, actions[0]);
      assert ExclusiveRun(m, actions[1..]);
      forall id ensures !Overwrites(s, actions[0], id) { ExclusiveNeverOverwrites(s, actions[0], id); }
      StepKeepsLinks(s, actions[0]);
      StepKeepsSlots(s, actions[0]);
      ExclusiveRunNeverOverwrites(m, actions[1..]);
    }
  }

  /**
   * In runs where no two exchanges past storing their token, or revocations, overlap on one slot,
   * a slot that none is working on has a reference exactly for its token, and at most one token.
   */
  lemma IdleSlotsAreSettled(actions: seq<Action>, slot: Slot)
    requires ExclusiveRun(INIT, actions) && IdleAt(Run(INIT, actions), slot)
    ensures Settled(Run(INIT, actions), slot)
    ensures var tokens := Run(INIT, actions).store.refreshTokens;
            forall i, j :: Own(tokens, slot, i) && Own(tokens, slot, j) ==> i == j
  {
    ExclusiveRunNeverOverwrites(INIT, actions);
    NeverOverwritesNeverOrphans(INIT, actions, slot);
    SettledIffNeverOrphans(actions, slot);
  }

  /** So do runs in which no two exchanges past storing their token, or revocations, overlap on one slot. */
  lemma ExclusiveRunsEndBijective(actions: seq<Action>)
    requires ExclusiveRun(INIT, actions) && Run(INIT, actions).threads == map[]
    ensures SerialRuns.Bijective(Run(INIT, actions).store)
  {
    ExclusiveRunNeverOverwrites(INIT, actions);
    NeverOverwritingEndsBijective(actions);
  }
}
