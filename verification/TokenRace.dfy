/**
 * Two overlaps on one slot: a reachable state from which two exchanges leave a refresh token
 * that no reference names, and one from which two exchanges lose nothing.
 */
module TokenRace {
  import opened Common
  import opened Scopes
  import opened Storage
  import opened IDTokens
  import opened TokenProtocol
  import opened TokenLinks
  import opened TokenSlots
  import opened TokenOrphans
  import opened Handlers
  import opened Uninterrupted

  // ----- Two exchanges of one slot -----

  /** An exchange about to write its reference into a slot it found empty. */
  ghost predicate AboutToLink(s: State, t: nat, slot: Slot) {
    AtStage(s, t, Link(None)) && SlotOfCode(s.threads[t].code) == slot
        && Own(s.store.refreshTokens, slot, s.threads[t].refresh.id)
  }

  /** The writes of two exchanges that both found the slot empty: both answer, and the first token is named no more. */
  lemma LinkTwice(s: State, t: nat, u: nat, slot: Slot)
    requires t != u && AboutToLink(s, t, slot) && AboutToLink(s, u, slot) && slot.session in s.store.sessions
    requires s.threads[t].refresh.id != s.threads[u].refresh.id
    ensures var r := Run(s, [ExchangeWriteRef(t), ExchangeWriteRef(u)]);
            && r.threads == s.threads - {t, u}
            && r.codes.answered == s.codes.answered + [s.threads[t].code.id, s.threads[u].code.id]
            && Own(r.store.refreshTokens, slot, s.threads[t].refresh.id)
            && !Names(r.store.sessions, slot, s.threads[t].refresh.id)
  {
    RunTwo(s, ExchangeWriteRef(t), ExchangeWriteRef(u));
  }

  /** The code may be exchanged for a refresh token, in a session that has no reference for the client. */
  ghost predicate FindsEmptySlot(s: State, x: CodeExchange, slot: Slot) {
    && x.code in s.store.authCodes && x.issuer.now == s.clock && FreshFor(s, x)
    && slot.session in s.store.sessions && Ref(s.store.sessions, slot).None?
    && var code := s.store.authCodes[x.code];
       && code.id == x.code && SlotOfCode(code) == slot && OfflineAccess in code.scopes
       && s.clock <= code.expiry && code.clientID == x.client && code.redirectURI == x.uri
       && Issue(x.issuer, x.client, code.claims, code.scopes, code.nonce, x.accessToken, code.connectorID).Ok?
  }

  function OpeningSteps(t: nat, x: CodeExchange): (r: seq<Action>) {
    [ExchangeGet(t, x.code, x.client, x.uri, x.issuer, x.accessToken), ExchangeDelete(t)]
    + [ExchangeCreate(t, x.newID, x.newToken), ExchangeFindSession(t)]
  }

  /** The rest of the state as steps of one thread that does not answer leave it. */
  ghost predicate Beside(s: State, r: State, t: nat, drawn: set<ID>) {
    r.clock == s.clock && r.codes.answered == s.codes.answered && r.threads - {t} == s.threads - {t}
        && r.used == s.used + drawn
  }

  lemma OpenRedeem(s: State, t: nat, x: CodeExchange, slot: Slot)
    requires t !in s.threads && FindsEmptySlot(s, x, slot)
    ensures var r := DoExchangeDelete(DoExchangeGet(s, t, x.code, x.client, x.uri, x.issuer, x.accessToken), t);
            && AtStage(r, t, Redeemed) && r.threads[t].code == s.store.authCodes[x.code]
            && Beside(s, r, t, {x.accessToken}) && r.store == s.store.(authCodes := s.store.authCodes - {x.code})
  {
  }

  lemma OpenCreate(s: State, t: nat, newID: ID, newToken: ID, slot: Slot)
    requires AtStage(s, t, Redeemed) && OfflineAccess in s.threads[t].code.scopes
             && SlotOfCode(s.threads[t].code) == slot
    requires newID !in s.used && newToken !in s.used && newID != newToken && newID !in s.store.refreshTokens
    requires slot.session in s.store.sessions && Ref(s.store.sessions, slot).None?
    ensures var r := DoExchangeFindSession(DoExchangeCreate(s, t, newID, newToken), t);
            && AboutToLink(r, t, slot) && r.threads[t].refresh.id == newID && r.threads[t].code == s.threads[t].code
            && Beside(s, r, t, {newID, newToken})
            && r.store.sessions == s.store.sessions && r.store.authCodes == s.store.authCodes
            && r.store.refreshTokens.Keys == s.store.refreshTokens.Keys + {newID}
            && (forall id :: id in s.store.refreshTokens ==> r.store.refreshTokens[id] == s.store.refreshTokens[id])
  {
    var created := DoExchangeCreate(s, t, newID, newToken);
    assert AtStage(created, t, Created) && created.store.sessions == s.store.sessions;
  }

  lemma RunOpening(s: State, t: nat, x: CodeExchange)
    ensures var redeemed := DoExchangeDelete(DoExchangeGet(s, t, x.code, x.client, x.uri, x.issuer, x.accessToken), t);
            Run(s, OpeningSteps(t, x)) == DoExchangeFindSession(DoExchangeCreate(redeemed, t, x.newID, x.newToken), t)
  {
    var steps := OpeningSteps(t, x);
    RunSplit(s, [steps[0], steps[1]], [steps[2], steps[3]]);
    RunTwo(s, steps[0], steps[1]);
    RunTwo(Run(s, [steps[0], steps[1]]), steps[2], steps[3]);
  }

  /** What an exchange has done by the time it found the slot empty. */
  lemma OpenExchange(s: State, t: nat, x: CodeExchange, slot: Slot) returns (r: State)
    requires t !in s.threads && FindsEmptySlot(s, x, slot)
    ensures r == Run(s, OpeningSteps(t, x))
    ensures AboutToLink(r, t, slot) && r.threads[t].refresh.id == x.newID && r.threads[t].code.id == x.code
    ensures Beside(s, r, t, {x.accessToken} + {x.newID, x.newToken})
    ensures r.store.sessions == s.store.sessions && r.store.authCodes == s.store.authCodes - {x.code}
    ensures r.store.refreshTokens.Keys == s.store.refreshTokens.Keys + {x.newID}
    ensures forall id :: id in s.store.refreshTokens ==> r.store.refreshTokens[id] == s.store.refreshTokens[id]
  {
    RunOpening(s, t, x);
    OpenRedeem(s, t, x, slot);
    var redeemed := DoExchangeDelete(DoExchangeGet(s, t, x.code, x.client, x.uri, x.issuer, x.accessToken), t);
    OpenCreate(redeemed, t, x.newID, x.newToken, slot);
    r := Run(s, OpeningSteps(t, x));
  }

  lemma TwoThreadsGone(before: map<nat, Thread>, middle: map<nat, Thread>, after: map<nat, Thread>, t: nat, u: nat)
    requires t !in before && u !in before && middle - {t} == before - {t} && after - {u} == middle - {u}
    ensures after - {t, u} == before
  {
    assert after - {t, u} == (after - {u}) - {t} == (middle - {t}) - {u} == before - {t} - {u} == before;
  }

  /** The identifiers of two exchanges do not overlap. */
  ghost predicate Disjoint(x: CodeExchange, y: CodeExchange) {
    {x.accessToken, x.newID, x.newToken} !! {y.accessToken, y.newID, y.newToken} && x.code != y.code
  }

  function RaceSteps(t: nat, x: CodeExchange, u: nat, y: CodeExchange): (r: seq<Action>) {
    OpeningSteps(t, x) + (OpeningSteps(u, y) + [ExchangeWriteRef(t), ExchangeWriteRef(u)])
  }

  /**
   * Whenever a user's session has no reference for a client, as after a revocation, two
   * exchanges for them can interleave so that both answer with a refresh token and the
   * first of the two is stored but named by no reference.
   */
  lemma RaceLeavesUnnamedToken(s: State, t: nat, x: CodeExchange, u: nat, y: CodeExchange, slot: Slot)
    requires t != u && t !in s.threads && u !in s.threads && Disjoint(x, y)
    requires FindsEmptySlot(s, x, slot) && FindsEmptySlot(s, y, slot)
    ensures var r := Run(s, RaceSteps(t, x, u, y));
            && r.threads == s.threads
            && r.codes.answered == s.codes.answered + [x.code, y.code]
            && Own(r.store.refreshTokens, slot, x.newID) && !Names(r.store.sessions, slot, x.newID)
  {
    var writes := [ExchangeWriteRef(t), ExchangeWriteRef(u)];
    RunSplit(s, OpeningSteps(t, x), OpeningSteps(u, y) + writes);
    var s1 := OpenExchange(s, t, x, slot);
    assert u !in s1.threads by { assert u !in s1.threads - {t}; }
    assert FindsEmptySlot(s1, y, slot);
    RunSplit(s1, OpeningSteps(u, y), writes);
    var s2 := OpenExchange(s1, u, y, slot);
    assert t in s2.threads && s2.threads[t] == s1.threads[t] by {
      assert (s2.threads - {u})[t] == (s1.threads - {u})[t];
    }
    assert Own(s2.store.refreshTokens, slot, x.newID);
    LinkTwice(s2, t, u, slot);
    TwoThreadsGone(s.threads, s1.threads, s2.threads, t, u);
  }

  // ----- A user with a revoked session and two codes -----

  ghost predicate Reachable(s: State) {
    exists actions :: Run(INIT, actions) == s
  }

  lemma Then(s: State, a: Action)
    requires Reachable(s)
    ensures Reachable(Apply(s, a))
  {
    var actions :| Run(INIT, actions) == s;
    RunSplit(INIT, actions, [a]);
    RunOne(s, a);
  }

  const USER: Claims := Claims(0, "", "", false, [])
  const CLIENT: ClientID := "client"
  const SESSION: SessionID := SessionID(0, 0)
  const SLOT: Slot := Slot(SESSION, CLIENT)
  const REQUEST: AuthRequest :=
    AuthRequest(1, CLIENT, [WantCode, WantCode, WantCode], [OfflineAccess], 1, 0, 0, false, USER, 0, 0)
  const GRANTED: AuthRequest := REQUEST.(loggedIn := true)
  const ISSUER: Issuer := Issuer(map[], true, 0, 0)

  function Code(id: ID): (r: AuthCode) {
    NewCode(GRANTED, id, 30 * MINUTE)
  }

  /** A state of the witness run, up to its logs. */
  ghost predicate At(s: State, store: Store, threads: map<nat, Thread>, used: set<ID>) {
    Reachable(s) && s.clock == 0 && s.store == store && s.threads == threads && s.used == used
  }

  function Approving(types: seq<ResponseType>): (r: map<nat, Thread>) {
    map[0 := Approval(GRANTED, Some(2), types, None)]
  }

  lemma ReachLogin() returns (s: State)
    ensures At(s, EMPTY.(authReqs := map[1 := GRANTED]), map[], {1})
  {
    assert Run(INIT, []) == INIT;
    s := INIT;
    Then(s, Accept(REQUEST));
    s := Apply(s, Accept(REQUEST));
    var login := Login(1, Identity(USER, 0));
    Then(s, login);
    s := Apply(s, login);
  }

  lemma ReachApproval() returns (s: State)
    ensures At(s, EMPTY, Approving([WantCode, WantCode, WantCode]), {1, 2})
  {
    s := ReachLogin();
    Then(s, ApprovalGet(0, 1));
    s := Apply(s, ApprovalGet(0, 1));
    Then(s, ApprovalDelete(0, 2));
    s := Apply(s, ApprovalDelete(0, 2));
    assert s.store.authReqs == map[];
  }

  lemma ReachCode(s: State, codes: map<ID, AuthCode>, types: seq<ResponseType>, used: set<ID>, id: ID)
      returns (r: State)
    requires At(s, EMPTY.(authCodes := codes), Approving([WantCode] + types), used) && id !in used
    ensures At(r, EMPTY.(authCodes := codes[id := Code(id)]), Approving(types), used + {id})
  {
    Then(s, ApprovalCode(0, id));
    r := Apply(s, ApprovalCode(0, id));
    assert ([WantCode] + types)[1..] == types;
  }

  lemma ReachCodes() returns (s: State)
    ensures At(s, EMPTY.(authCodes := map[3 := Code(3), 4 := Code(4), 5 := Code(5)]), map[], {1, 2, 3, 4, 5})
  {
    s := ReachApproval();
    assert [WantCode, WantCode, WantCode] == [WantCode] + [WantCode, WantCode];
    s := ReachCode(s, map[], [WantCode, WantCode], {1, 2}, 3);
    assert [WantCode, WantCode] == [WantCode] + [WantCode];
    s := ReachCode(s, map[3 := Code(3)], [WantCode], {1, 2, 3}, 4);
    assert [WantCode] == [WantCode] + [];
    s := ReachCode(s, map[3 := Code(3), 4 := Code(4)], [], {1, 2, 3, 4}, 5);
    Then(s, ApprovalRespond(0));
    s := Apply(s, ApprovalRespond(0));
  }

  lemma TokensAreIssued(id: ID, accessToken: ID)
    ensures Issue(ISSUER, CLIENT, Code(id).claims, Code(id).scopes, Code(id).nonce, accessToken,
                  Code(id).connectorID).Ok?
  {
    AudienceIsClientAndTrustedPeers(ISSUER, CLIENT, USER, [OfflineAccess], 0, accessToken, 0);
  }

  lemma ReachRedeemed() returns (s: State)
    ensures Reachable(s) && s.clock == 0 && s.used == {1, 2, 3, 4, 5, 6}
    ensures AtStage(s, 0, Redeemed) && s.threads.Keys == {0} && s.threads[0].code == Code(3)
    ensures s.store == EMPTY.(authCodes := map[4 := Code(4), 5 := Code(5)])
  {
    s := ReachCodes();
    TokensAreIssued(3, 6);
    var get := ExchangeGet(0, 3, CLIENT, 1, ISSUER, 6);
    Then(s, get);
    s := Apply(s, get);
    Then(s, ExchangeDelete(0));
    s := Apply(s, ExchangeDelete(0));
    assert s.store.authCodes == map[4 := Code(4), 5 := Code(5)];
  }

  lemma ReachNoSession() returns (s: State)
    ensures Reachable(s) && s.clock == 0 && s.used == {1, 2, 3, 4, 5, 6, 7, 8}
    ensures AtStage(s, 0, NoSession) && s.threads.Keys == {0} && SlotOfCode(s.threads[0].code) == SLOT
    ensures s.threads[0].refresh.id == 7 && s.threads[0].refresh.clientID == CLIENT
    ensures s.store.authCodes == map[4 := Code(4), 5 := Code(5)] && s.store.refreshTokens.Keys == {7}
    ensures s.store.sessions == map[]
  {
    s := ReachRedeemed();
    Then(s, ExchangeCreate(0, 7, 8));
    s := Apply(s, ExchangeCreate(0, 7, 8));
    Then(s, ExchangeFindSession(0));
    s := Apply(s, ExchangeFindSession(0));
  }

  /** The exchange of code 3 opens the session. */
  lemma ReachSession() returns (s: State)
    ensures Reachable(s) && s.clock == 0 && s.threads == map[] && s.used == {1, 2, 3, 4, 5, 6, 7, 8}
    ensures s.store.authCodes == map[4 := Code(4), 5 := Code(5)] && s.store.refreshTokens.Keys == {7}
    ensures SESSION in s.store.sessions && CLIENT in s.store.sessions[SESSION]
    ensures s.store.sessions[SESSION][CLIENT].id == 7
  {
    s := ReachNoSession();
    Then(s, ExchangeOpenSession(0));
    s := Apply(s, ExchangeOpenSession(0));
  }

  /** A revocation leaves the session without a reference. */
  lemma ReachEmptySlot() returns (s: State)
    ensures Reachable(s) && s.clock == 0 && s.threads == map[] && s.used == {1, 2, 3, 4, 5, 6, 7, 8}
    ensures s.store.authCodes == map[4 := Code(4), 5 := Code(5)] && s.store.refreshTokens == map[]
    ensures SESSION in s.store.sessions && Ref(s.store.sessions, SLOT).None?
  {
    s := ReachSession();
    Then(s, RevokeUnlink(0, SLOT));
    s := Apply(s, RevokeUnlink(0, SLOT));
    Then(s, RevokeDelete(0));
    s := Apply(s, RevokeDelete(0));
    assert s.store.refreshTokens.Keys == {};
  }

  /** A run that writes over a reference and comes to rest with references and tokens not in bijection. */
  lemma OverlapsBreakBijection() returns (actions: seq<Action>)
    ensures Run(INIT, actions).threads == map[] && !SerialRuns.Bijective(Run(INIT, actions).store)
    ensures !NeverOverwrites(INIT, actions)
  {
    var s := ReachEmptySlot();
    var x := CodeExchange(4, CLIENT, 1, ISSUER, true, 9, 10, 11);
    var y := CodeExchange(5, CLIENT, 1, ISSUER, true, 12, 13, 14);
    TokensAreIssued(4, 9);
    TokensAreIssued(5, 12);
    assert FindsEmptySlot(s, x, SLOT) && FindsEmptySlot(s, y, SLOT);
    RaceLeavesUnnamedToken(s, 0, x, 1, y, SLOT);
    var before :| Run(INIT, before) == s;
    actions := before + RaceSteps(0, x, 1, y);
    RunSplit(INIT, before, RaceSteps(0, x, 1, y));
    var r := Run(INIT, actions);
    assert Own(r.store.refreshTokens, SLOT, 10) && !Names(r.store.sessions, SLOT, 10);
    if NeverOverwrites(INIT, actions) {
      NeverOverwritingEndsBijective(actions);
    }
  }

  // ----- An overlap that loses nothing -----

  lemma RedeemSecond(s: State) returns (r: State)
    requires Reachable(s) && s.clock == 0 && s.used == {1, 2, 3, 4, 5, 6, 7, 8} && s.threads.Keys == {0}
    requires s.store.authCodes == map[4 := Code(4), 5 := Code(5)]
    ensures Reachable(r) && r.used == {1, 2, 3, 4, 5, 6, 7, 8, 9} && r.threads.Keys == {0, 1}
    ensures r.threads[0] == s.threads[0] && AtStage(r, 1, Redeemed) && r.threads[1].code == Code(4)
    ensures r.store.refreshTokens == s.store.refreshTokens && r.store.sessions == s.store.sessions
  {
    TokensAreIssued(4, 9);
    var get := ExchangeGet(1, 4, CLIENT, 1, ISSUER, 9);
    Then(s, get);
    r := Apply(s, get);
    Then(r, ExchangeDelete(1));
    r := Apply(r, ExchangeDelete(1));
  }

  /** A second exchange of the slot, while the first is about to open the session. */
  lemma ReachTwoAtWork() returns (s: State)
    ensures Reachable(s) && s.threads.Keys == {0, 1} && AtStage(s, 0, NoSession) && AtStage(s, 1, NoSession)
    ensures forall t :: t in s.threads ==> SlotOfCode(s.threads[t].code) == SLOT
    ensures s.threads[0].refresh.id == 7 && s.threads[1].refresh.id == 10
    ensures s.store.refreshTokens.Keys == {7, 10} && s.store.sessions == map[]
  {
    s := ReachNoSession();
    s := RedeemSecond(s);
    s := StoreAndFind(s);
  }

  lemma StoreAndFind(s: State) returns (r: State)
    requires Reachable(s) && s.threads.Keys == {0, 1} && AtStage(s, 0, NoSession) && AtStage(s, 1, Redeemed)
    requires s.threads[1].code == Code(4) && s.used == {1, 2, 3, 4, 5, 6, 7, 8, 9}
    requires s.store.refreshTokens.Keys == {7} && s.store.sessions == map[]
    ensures Reachable(r) && r.threads.Keys == {0, 1} && r.threads[0] == s.threads[0] && AtStage(r, 1, NoSession)
    ensures r.threads[1].code == Code(4) && r.threads[1].refresh.id == 10
    ensures r.store.refreshTokens.Keys == {7, 10} && r.store.sessions == map[]
  {
    Then(s, ExchangeCreate(1, 10, 11));
    r := Apply(s, ExchangeCreate(1, 10, 11));
    Then(r, ExchangeFindSession(1));
    r := Apply(r, ExchangeFindSession(1));
  }

  /** The first opens the session, the second finds it there and takes its own token back. */
  lemma OnlyOneOpens(s: State) returns (r: State)
    requires Reachable(s) && s.threads.Keys == {0, 1} && AtStage(s, 0, NoSession) && AtStage(s, 1, NoSession)
    requires forall t :: t in s.threads ==> SlotOfCode(s.threads[t].code) == SLOT
    requires s.threads[0].refresh.id == 7 && s.threads[1].refresh.id == 10
    requires s.store.refreshTokens.Keys == {7, 10} && s.store.sessions == map[]
    ensures r == DoExchangeDropOwn(DoExchangeOpenSession(DoExchangeOpenSession(s, 0), 1), 1)
    ensures r.threads == map[] && r.store.refreshTokens.Keys == {7} && Names(r.store.sessions, SLOT, 7)
  {
    var begun := DoExchangeOpenSession(s, 0);
    assert begun.threads.Keys == {1} && SESSION in begun.store.sessions;
    var undone := DoExchangeOpenSession(begun, 1);
    assert AtStage(undone, 1, Undo) && undone.threads.Keys == {1};
    r := DoExchangeDropOwn(undone, 1);
    assert r.threads.Keys == {};
  }

  function UndoSteps(): (r: seq<Action>) {
    [ExchangeOpenSession(0), ExchangeOpenSession(1)] + [ExchangeDropOwn(1)]
  }

  lemma RunUndo(s: State)
    ensures Run(s, UndoSteps()) == DoExchangeDropOwn(DoExchangeOpenSession(DoExchangeOpenSession(s, 0), 1), 1)
  {
    var steps := UndoSteps();
    RunSplit(s, [steps[0], steps[1]], [steps[2]]);
    RunTwo(s, steps[0], steps[1]);
    RunOne(Run(s, [steps[0], steps[1]]), steps[2]);
  }

  lemma OneNamedToken(s: State)
    requires LinkInv(s) && s.threads == map[] && s.store.refreshTokens.Keys == {7} && Names(s.store.sessions, SLOT, 7)
    ensures SerialRuns.Bijective(s.store)
  {
    assert LinkedFor(s, 7, SLOT) && Named(s, 7);
    RestBijectiveIffAccounted(s);
  }

  /** Exclusion is more than is needed: a run with two exchanges at work on one slot that ends in bijection. */
  lemma ExclusionIsNotNeeded() returns (actions: seq<Action>)
    ensures !ExclusiveRun(INIT, actions)
    ensures Run(INIT, actions).threads == map[] && SerialRuns.Bijective(Run(INIT, actions).store)
  {
    var s := ReachTwoAtWork();
    assert BusyAt(s, 0, SLOT) && BusyAt(s, 1, SLOT);
    var before :| Run(INIT, before) == s;
    actions := before + UndoSteps();
    RunSplit(INIT, before, UndoSteps());
    RunUndo(s);
    var r := OnlyOneOpens(s);
    TokenTheorems.InvAlways(actions);
    OneNamedToken(r);
    NotExclusiveAt(INIT, before, UndoSteps());
  }

  lemma {:induction false} NotExclusiveAt(s: State, before: seq<Action>, rest: seq<Action>)
    requires !Exclusive(Run(s, before))
    ensures !ExclusiveRun(s, before + rest)
    decreases |before|
  {
    if before == [] {
      assert before + rest == rest;
    } else {
      NotExclusiveAt(Apply(s, before[0]), before[1..], rest);
      assert (before + rest)[1..] == before[1..] + rest;
    }
  }
}
