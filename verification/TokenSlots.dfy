/**
 * Slots one at a time: handlers of different slots may overlap freely, and so may refreshes and
 * everything an exchange does before it stores a refresh token. As long as no two exchanges or
 * revocations are past that point for one slot, what each slot holds follows from the stage of
 * the one thread that is at work on it.
 */
module TokenSlots {
  import opened Common
  import opened Storage
  import opened TokenProtocol
  import opened TokenLinks

  /** A stored refresh token of the slot. */
  predicate Own(tokens: map<ID, RefreshToken>, slot: Slot, id: ID) {
    id in tokens && SlotOfToken(tokens[id]) == slot
  }

  /** The thread is changing the slot: an exchange with a stored refresh token, or half a revocation. */
  ghost predicate BusyAt(s: State, t: nat, slot: Slot) {
    && t in s.threads
    && (Owns(s.threads[t]) || s.threads[t].Revoke?)
    && (Owns(s.threads[t]) ==> SlotOfCode(s.threads[t].code) == slot)
    && (s.threads[t].Revoke? ==>
          s.threads[t].revoked in s.refreshes.slots && s.refreshes.slots[s.threads[t].revoked] == slot)
  }

  /** No slot is changed by two threads. */
  ghost predicate Exclusive(s: State) {
    forall t, u, slot :: BusyAt(s, t, slot) && BusyAt(s, u, slot) ==> t == u
  }

  /** The slot's reference names its one token, or there is neither. */
  ghost predicate Settled(s: State, slot: Slot) {
    forall id :: Names(s.store.sessions, slot, id) <==> Own(s.store.refreshTokens, slot, id)
  }

  /** The slot's tokens are the one named, if any, and the exchange's own. */
  ghost predicate WithOwn(s: State, slot: Slot, own: ID) {
    && (forall id :: Own(s.store.refreshTokens, slot, id) <==> id == own || Names(s.store.sessions, slot, id))
    && !Names(s.store.sessions, slot, own)
  }

  /** What is left to do for the one thread that is changing the slot. */
  ghost predicate Pending(s: State, slot: Slot, th: Thread) {
    match th
    case Exchange(stage, _, _, refresh) =>
      (match stage
       case Replace(stale) => WithOwn(s, slot, refresh.id) && Names(s.store.sessions, slot, stale)
       case Link(replaced) =>
         && slot.session in s.store.sessions
         && (forall id :: Own(s.store.refreshTokens, slot, id) <==> id == refresh.id)
         && (forall id: ID :: Names(s.store.sessions, slot, id) <==> replaced == Some(id))
       case _ => WithOwn(s, slot, refresh.id))
    case Revoke(id) =>
      forall i :: !Names(s.store.sessions, slot, i) && (Own(s.store.refreshTokens, slot, i) <==> i == id)
    case _ => true
  }

  ghost predicate SlotInv(s: State, slot: Slot) {
    && (forall t :: BusyAt(s, t, slot) ==> Pending(s, slot, s.threads[t]))
    && ((forall t :: !BusyAt(s, t, slot)) ==> Settled(s, slot))
  }

  ghost predicate SlotsInv(s: State) {
    forall slot :: SlotInv(s, slot)
  }

  // ----- Slots that a step does not concern -----

  ghost predicate SameTable(s: State, r: State, slot: Slot) {
    && (forall id :: Names(r.store.sessions, slot, id) <==> Names(s.store.sessions, slot, id))
    && (forall id :: Own(r.store.refreshTokens, slot, id) <==> Own(s.store.refreshTokens, slot, id))
    && (slot.session in s.store.sessions ==> slot.session in r.store.sessions)
  }

  ghost predicate SameBusy(s: State, r: State, slot: Slot) {
    && (forall t :: BusyAt(r, t, slot) ==> BusyAt(s, t, slot) && r.threads[t] == s.threads[t])
    && (forall t :: BusyAt(s, t, slot) ==> BusyAt(r, t, slot))
  }

  lemma UntouchedKeepsSlot(s: State, r: State, slot: Slot)
    requires SlotInv(s, slot) && SameTable(s, r, slot) && SameBusy(s, r, slot)
    ensures SlotInv(r, slot)
  {
    forall t | BusyAt(r, t, slot) ensures Pending(r, slot, r.threads[t]) {
      assert Pending(s, slot, s.threads[t]);
    }
  }

  lemma FrameKeepsSlots(s: State, r: State)
    requires SlotsInv(s) && KeepsLinks(s, r)
    ensures SlotsInv(r)
  {
    forall slot ensures SlotInv(r, slot) {
      UntouchedKeepsSlot(s, r, slot);
    }
  }

  /** Only this thread moved, and it was not past storing its token, nor is it now. */
  lemma QuietKeepsSlots(s: State, r: State, t: nat)
    requires SlotsInv(s) && OthersSame(s, r, t) && r.refreshes.slots == s.refreshes.slots
    requires forall slot :: SameTable(s, r, slot)
    requires t in s.threads ==> !Tracked(s.threads[t])
    requires t in r.threads ==> !Tracked(r.threads[t])
    ensures SlotsInv(r)
  {
    forall slot ensures SlotInv(r, slot) {
      UntouchedKeepsSlot(s, r, slot);
    }
  }

  lemma TouchKeepsSlots(s: State, t: nat)
    requires SlotsInv(s)
    ensures SlotsInv(DoRefreshTouch(s, t))
  {
    var r := DoRefreshTouch(s, t);
    if r != s {
      forall slot, id ensures Names(r.store.sessions, slot, id) <==> Names(s.store.sessions, slot, id) {
      }
      QuietKeepsSlots(s, r, t);
    }
  }

  lemma CommitKeepsSlots(s: State, t: nat)
    requires SlotsInv(s)
    ensures SlotsInv(DoRefreshCommit(s, t))
  {
    var r := DoRefreshCommit(s, t);
    if r != s {
      QuietKeepsSlots(s, r, t);
    }
  }

  // ----- Steps that change a slot -----

  /** A step of one thread leaves the slots alone that it is not busy at. */
  lemma OthersKeepSlots(s: State, r: State, t: nat, mine: Slot)
    requires SlotsInv(s) && OthersSame(s, r, t)
    requires forall slot :: BusyAt(s, t, slot) || BusyAt(r, t, slot) ==> slot == mine
    requires forall id :: id in s.refreshes.slots ==>
                            id in r.refreshes.slots && r.refreshes.slots[id] == s.refreshes.slots[id]
    requires forall u :: u in s.threads && s.threads[u].Revoke? ==> s.threads[u].revoked in s.refreshes.slots
    requires forall slot :: slot != mine ==> SameTable(s, r, slot)
    requires SlotInv(r, mine)
    ensures SlotsInv(r)
  {
    forall slot ensures SlotInv(r, slot) {
      if slot != mine {
        UntouchedKeepsSlot(s, r, slot);
      }
    }
  }

  lemma RevokesKnown(s: State)
    requires LinkInv(s)
    ensures forall u :: u in s.threads && s.threads[u].Revoke? ==> s.threads[u].revoked in s.refreshes.slots
  {
    forall u | u in s.threads && s.threads[u].Revoke? ensures s.threads[u].revoked in s.refreshes.slots {
      assert ThreadInv(s, s.threads[u]);
    }
  }

  /** Only thread t can be busy at the slot. */
  ghost predicate Alone(r: State, t: nat, slot: Slot) {
    forall u :: BusyAt(r, u, slot) ==> u == t
  }

  lemma CreateKeepsSlots(s: State, t: nat, newID: ID, newToken: ID)
    requires LinkInv(s) && SlotsInv(s) && Exclusive(DoExchangeCreate(s, t, newID, newToken))
    ensures SlotsInv(DoExchangeCreate(s, t, newID, newToken))
  {
    var r := DoExchangeCreate(s, t, newID, newToken);
    if r != s {
      var mine := SlotOfCode(s.threads[t].code);
      RevokesKnown(s);
      assert BusyAt(r, t, mine);
      forall u ensures !BusyAt(s, u, mine) {
        assert BusyAt(s, u, mine) ==> BusyAt(r, u, mine);
      }
      assert SlotInv(s, mine) && Settled(s, mine);
      assert forall slot :: !Names(s.store.sessions, slot, newID);
      assert WithOwn(r, mine, newID);
      OthersKeepSlots(s, r, t, mine);
    }
  }

  /** An exchange of its own slot, alone there. */
  ghost predicate Working(s: State, t: nat) {
    && t in s.threads && Owns(s.threads[t])
    && Pending(s, SlotOfCode(s.threads[t].code), s.threads[t]) && Alone(s, t, SlotOfCode(s.threads[t].code))
  }

  lemma AtWork(s: State, t: nat)
    requires SlotsInv(s) && Exclusive(s) && t in s.threads && Owns(s.threads[t])
    ensures Working(s, t)
  {
    assert SlotInv(s, SlotOfCode(s.threads[t].code)) && BusyAt(s, t, SlotOfCode(s.threads[t].code));
  }

  /** The exchange moved on, and only its own slot changed. */
  lemma WorkKeepsSlots(s: State, r: State, t: nat)
    requires LinkInv(s) && SlotsInv(s) && Working(s, t) && OthersSame(s, r, t) && r.refreshes.slots == s.refreshes.slots
    requires t in r.threads ==> Owns(r.threads[t]) && r.threads[t].code == s.threads[t].code
    requires var mine := SlotOfCode(s.threads[t].code);
             && (forall slot :: slot != mine ==> SameTable(s, r, slot))
             && (if t in r.threads then Pending(r, mine, r.threads[t]) else Settled(r, mine))
    ensures SlotsInv(r)
  {
    var mine := SlotOfCode(s.threads[t].code);
    RevokesKnown(s);
    forall u | BusyAt(r, u, mine) ensures u == t {
      assert u != t ==> BusyAt(s, u, mine);
    }
    if t in r.threads {
      assert BusyAt(r, t, mine);
    }
    OthersKeepSlots(s, r, t, mine);
  }

  lemma FindKeepsSlots(s: State, t: nat)
    requires LinkInv(s) && SlotsInv(s) && Exclusive(s)
    ensures SlotsInv(DoExchangeFindSession(s, t))
  {
    var r := DoExchangeFindSession(s, t);
    if r != s {
      AtWork(s, t);
      var mine := SlotOfCode(s.threads[t].code);
      assert ThreadInv(s, s.threads[t]);
      var ref := Ref(s.store.sessions, mine);
      assert forall id :: Names(s.store.sessions, mine, id) <==> ref.Some? && ref.value.id == id;
      WorkKeepsSlots(s, r, t);
    }
  }

  lemma LinkKeepsSlots(s: State, t: nat, session: Session)
    requires LinkInv(s) && SlotsInv(s) && Working(s, t)
    requires var mine := SlotOfCode(s.threads[t].code);
             && (forall id :: Own(s.store.refreshTokens, mine, id) <==> id == s.threads[t].refresh.id)
             && (forall slot :: Ref(LinkRefresh(s, t, session).store.sessions, slot) ==
                   if slot == mine then Some(NewRef(s.threads[t].refresh)) else Ref(s.store.sessions, slot))
    ensures SlotsInv(LinkRefresh(s, t, session))
  {
    var r := LinkRefresh(s, t, session);
    var mine := SlotOfCode(s.threads[t].code);
    forall slot | slot != mine ensures SameTable(s, r, slot) {
      assert Ref(r.store.sessions, slot) == Ref(s.store.sessions, slot);
    }
    assert Ref(r.store.sessions, mine) == Some(NewRef(s.threads[t].refresh));
    WorkKeepsSlots(s, r, t);
  }

  lemma UndoKeepsSlots(s: State, t: nat)
    requires LinkInv(s) && SlotsInv(s) && Working(s, t) && s.threads[t].stage.NoSession?
    ensures SlotsInv(Advance(s, t, Undo))
  {
    WorkKeepsSlots(s, Advance(s, t, Undo), t);
  }

  lemma OpenKeepsSlots(s: State, t: nat)
    requires LinkInv(s) && SlotsInv(s) && Exclusive(s)
    ensures SlotsInv(DoExchangeOpenSession(s, t))
  {
    if AtStage(s, t, NoSession) {
      AtWork(s, t);
      var mine := SlotOfCode(s.threads[t].code);
      if mine.session in s.store.sessions {
        UndoKeepsSlots(s, t);
      } else {
        assert forall id :: !Names(s.store.sessions, mine, id);
        NamesAfterLink(s, t, map[]);
        LinkKeepsSlots(s, t, map[]);
      }
    }
  }

  lemma DropStaleKeepsSlots(s: State, t: nat)
    requires LinkInv(s) && SlotsInv(s) && Exclusive(s)
    ensures SlotsInv(DoExchangeDropStale(s, t))
  {
    var r := DoExchangeDropStale(s, t);
    if r != s {
      AtWork(s, t);
      var mine, stale := SlotOfCode(s.threads[t].code), s.threads[t].stage.stale;
      assert Names(s.store.sessions, mine, stale) && Own(s.store.refreshTokens, mine, stale);
      forall slot | slot != mine ensures SameTable(s, r, slot) {
      }
      assert forall id :: Names(s.store.sessions, mine, id) <==> id == stale;
      assert forall id :: Own(r.store.refreshTokens, mine, id) <==> Own(s.store.refreshTokens, mine, id) && id != stale;
      assert r.threads[t].stage == Link(Some(stale)) && Pending(r, mine, r.threads[t]);
      WorkKeepsSlots(s, r, t);
    }
  }

  lemma WriteRefKeepsSlots(s: State, t: nat)
    requires LinkInv(s) && SlotsInv(s) && Exclusive(s)
    ensures SlotsInv(DoExchangeWriteRef(s, t))
  {
    if t in s.threads && s.threads[t].Exchange? && s.threads[t].stage.Link? {
      AtWork(s, t);
      var mine := SlotOfCode(s.threads[t].code);
      NamesAfterLink(s, t, s.store.sessions[mine.session]);
      LinkKeepsSlots(s, t, s.store.sessions[mine.session]);
    }
  }

  lemma DropOwnKeepsSlots(s: State, t: nat)
    requires LinkInv(s) && SlotsInv(s) && Exclusive(s)
    ensures SlotsInv(DoExchangeDropOwn(s, t))
  {
    var r := DoExchangeDropOwn(s, t);
    if AtStage(s, t, Undo) {
      AtWork(s, t);
      var mine, own := SlotOfCode(s.threads[t].code), s.threads[t].refresh.id;
      assert Own(s.store.refreshTokens, mine, own);
      WorkKeepsSlots(s, r, t);
    }
  }

  lemma UnlinkKeepsSlots(s: State, t: nat, slot: Slot)
    requires LinkInv(s) && SlotsInv(s) && Exclusive(DoRevokeUnlink(s, t, slot))
    ensures SlotsInv(DoRevokeUnlink(s, t, slot))
  {
    var r := DoRevokeUnlink(s, t, slot);
    if r != s {
      var id := Ref(s.store.sessions, slot).value.id;
      assert Names(s.store.sessions, slot, id) && LinkedFor(s, id, slot);
      RevokesKnown(s);
      assert BusyAt(r, t, slot);
      forall u ensures !BusyAt(s, u, slot) {
        assert BusyAt(s, u, slot) ==> BusyAt(r, u, slot);
      }
      assert SlotInv(s, slot) && Settled(s, slot);
      forall other, i
        ensures Names(r.store.sessions, other, i) <==> other != slot && Names(s.store.sessions, other, i)
      {
      }
      OthersKeepSlots(s, r, t, slot);
    }
  }

  lemma RevokeDeleteKeepsSlots(s: State, t: nat)
    requires LinkInv(s) && SlotsInv(s) && Exclusive(s)
    ensures SlotsInv(DoRevokeDelete(s, t))
  {
    var r := DoRevokeDelete(s, t);
    if t in s.threads && s.threads[t].Revoke? {
      RevokesKnown(s);
      var id := s.threads[t].revoked;
      var slot := s.refreshes.slots[id];
      assert SlotInv(s, slot) && BusyAt(s, t, slot);
      assert Own(s.store.refreshTokens, slot, id);
      forall u ensures !BusyAt(r, u, slot) {
        assert BusyAt(r, u, slot) ==> BusyAt(s, u, slot);
      }
      OthersKeepSlots(s, r, t, slot);
    }
  }

  lemma SessionStepKeepsSlots(s: State, a: Action)
    requires LinkInv(s) && SlotsInv(s) && Exclusive(s) && Exclusive(Apply(s, a)) && (a.ExchangeCreate? || IsSession(a))
    ensures SlotsInv(Apply(s, a))
  {
    match a {
      case ExchangeCreate(t, newID, newToken) => CreateKeepsSlots(s, t, newID, newToken);
      case ExchangeFindSession(t) => FindKeepsSlots(s, t);
      case ExchangeOpenSession(t) => OpenKeepsSlots(s, t);
      case ExchangeDropStale(t) => DropStaleKeepsSlots(s, t);
      case ExchangeWriteRef(t) => WriteRefKeepsSlots(s, t);
      case ExchangeDropOwn(t) => DropOwnKeepsSlots(s, t);
    }
  }

  lemma RefreshStepKeepsSlots(s: State, a: Action)
    requires SlotsInv(s) && (a.RefreshTouch? || a.RefreshCommit?)
    ensures SlotsInv(Apply(s, a))
  {
    match a {
      case RefreshTouch(t) => TouchKeepsSlots(s, t);
      case RefreshCommit(t) => CommitKeepsSlots(s, t);
    }
  }

  lemma RevokeStepKeepsSlots(s: State, a: Action)
    requires LinkInv(s) && SlotsInv(s) && Exclusive(s) && Exclusive(Apply(s, a)) && IsRevoke(a)
    ensures SlotsInv(Apply(s, a))
  {
    if a.RevokeUnlink? {
      assert Apply(s, a) == DoRevokeUnlink(s, a.t, a.slot);
      UnlinkKeepsSlots(s, a.t, a.slot);
    } else {
      assert Apply(s, a) == DoRevokeDelete(s, a.t);
      RevokeDeleteKeepsSlots(s, a.t);
    }
  }

  lemma StepKeepsSlots(s: State, a: Action)
    requires LinkInv(s) && SlotsInv(s) && Exclusive(s) && Exclusive(Apply(s, a))
    ensures SlotsInv(Apply(s, a))
  {
    if a.ExchangeCreate? || IsSession(a) {
      SessionStepKeepsSlots(s, a);
    } else if a.RefreshTouch? || a.RefreshCommit? {
      RefreshStepKeepsSlots(s, a);
    } else if IsRevoke(a) {
      RevokeStepKeepsSlots(s, a);
    } else {
      StepFrame(s, a);
      FrameKeepsSlots(s, Apply(s, a));
    }
  }

  // ----- Runs -----

  /** No two threads ever change one slot at the same time. */
  ghost predicate ExclusiveRun(s: State, actions: seq<Action>)
    decreases |actions|
  {
    Exclusive(s) && (actions != [] ==> ExclusiveRun(Apply(s, actions[0]), actions[1..]))
  }

  lemma {:induction false} RunKeepsSlots(s: State, actions: seq<Action>)
    requires LinkInv(s) && SlotsInv(s) && ExclusiveRun(s, actions)
    ensures SlotsInv(Run(s, actions))
    decreases |actions|
  {
    if actions != [] {
      assert ExclusiveRun(Apply(s, actions[0]), actions[1..]);
      StepKeepsLinks(s, actions[0]);
      StepKeepsSlots(s, actions[0]);
      RunKeepsSlots(Apply(s, actions[0]), actions[1..]);
    }
  }
}
