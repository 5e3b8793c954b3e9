/**
 * A thread of the interleaved protocol that nobody interrupts does exactly what the handler
 * run alone does. Actions that are not enabled change nothing, so one list of actions
 * covers every branch.
 */
module Uninterrupted {
  import opened Common
  import opened Scopes
  import opened Storage
  import opened IDTokens
  import opened TokenProtocol
  import opened Handlers

  /** The storage calls of an exchange after its code is deleted, for a refresh token. */
  function RefreshSteps(t: nat, x: CodeExchange): (r: seq<Action>) {
    [ExchangeCreate(t, x.newID, x.newToken)] + SessionSteps(t)
  }

  function SessionSteps(t: nat): (r: seq<Action>) {
    [ExchangeFindSession(t), ExchangeOpenSession(t), ExchangeDropStale(t), ExchangeWriteRef(t), ExchangeDropOwn(t)]
  }

  function ExchangeSteps(t: nat, x: CodeExchange, offline: bool): (r: seq<Action>) {
    [ExchangeGet(t, x.code, x.client, x.uri, x.issuer, x.accessToken), ExchangeDelete(t)]
    + if x.canRefresh && offline then RefreshSteps(t, x) else [ExchangeAnswer(t)]
  }

  lemma {:induction false} RunSplit(s: State, a: seq<Action>, b: seq<Action>)
    ensures Run(s, a + b) == Run(Run(s, a), b)
    decreases |a|
  {
    if a == [] {
      assert a + b == b;
    } else {
      RunSplit(Apply(s, a[0]), a[1..], b);
      assert (a + b)[1..] == a[1..] + b;
    }
  }

  lemma RunOne(s: State, a: Action)
    ensures Run(s, [a]) == Apply(s, a)
  {
    assert Run(Apply(s, a), []) == Apply(s, a);
  }

  lemma RunTwo(s: State, a: Action, b: Action)
    ensures Run(s, [a, b]) == Apply(Apply(s, a), b)
  {
    assert [a, b] == [a] + [b];
    RunSplit(s, [a], [b]);
    RunOne(s, a);
    RunOne(Apply(s, a), b);
  }

  lemma RunThree(s: State, a: Action, b: Action, c: Action)
    ensures Run(s, [a] + [b, c]) == Apply(Apply(Apply(s, a), b), c)
  {
    RunSplit(s, [a], [b, c]);
    RunOne(s, a);
    RunTwo(Apply(s, a), b, c);
  }

  lemma RunSession(s: State, t: nat)
    ensures var begun := DoExchangeOpenSession(DoExchangeFindSession(s, t), t);
            Run(s, SessionSteps(t)) == DoExchangeDropOwn(DoExchangeWriteRef(DoExchangeDropStale(begun, t), t), t)
  {
    var steps := SessionSteps(t);
    assert steps == [steps[0], steps[1]] + ([steps[2], steps[3]] + [steps[4]]);
    RunSplit(s, [steps[0], steps[1]], [steps[2], steps[3]] + [steps[4]]);
    RunTwo(s, steps[0], steps[1]);
    var s1 := Run(s, [steps[0], steps[1]]);
    RunSplit(s1, [steps[2], steps[3]], [steps[4]]);
    RunTwo(s1, steps[2], steps[3]);
    RunOne(Run(s1, [steps[2], steps[3]]), steps[4]);
  }

  /** The outcome of an exchange's thread: its end, the store, and whether it answered. */
  ghost predicate Ends(s: State, r: State, t: nat, store: Store, code: ID, ok: bool) {
    t !in r.threads && r.store == store && r.codes.answered == s.codes.answered + if ok then [code] else []
  }

  /** From the stored refresh token to the answer or the undo. */
  lemma SessionAlone(s: State, t: nat, st: Store, x: CodeExchange)
    requires AtStage(s, t, Created) && x.newID !in st.refreshTokens
    requires s.threads[t].refresh == NewRefresh(s.threads[t].code, x.newID, x.newToken, x.issuer.now)
    requires s.store == st.(refreshTokens := st.refreshTokens[x.newID := s.threads[t].refresh])
    ensures var code := s.threads[t].code;
            Ends(s, Run(s, SessionSteps(t)), t, AddRefresh(st, code, x).0, code.id, AddRefresh(st, code, x).1)
  {
    RunSession(s, t);
    var code := s.threads[t].code;
    var slot := SlotOfCode(code);
    var found := DoExchangeFindSession(s, t);
    if slot.session !in st.sessions {
      assert AtStage(found, t, NoSession);
      assert DoExchangeOpenSession(found, t).store == LinkStore(s.store, slot, s.threads[t].refresh);
    } else if Ref(st.sessions, slot).None? {
      assert AtStage(found, t, Link(None));
    } else {
      ReplaceAlone(s, t, st, x);
    }
  }

  lemma ReplaceAlone(s: State, t: nat, st: Store, x: CodeExchange)
    requires AtStage(s, t, Created) && x.newID !in st.refreshTokens
    requires s.threads[t].refresh == NewRefresh(s.threads[t].code, x.newID, x.newToken, x.issuer.now)
    requires s.store == st.(refreshTokens := st.refreshTokens[x.newID := s.threads[t].refresh])
    requires Ref(st.sessions, SlotOfCode(s.threads[t].code)).Some?
    ensures var code := s.threads[t].code;
            Ends(s, Run(s, SessionSteps(t)), t, AddRefresh(st, code, x).0, code.id, AddRefresh(st, code, x).1)
  {
    RunSession(s, t);
    var code := s.threads[t].code;
    var stale := Ref(st.sessions, SlotOfCode(code)).value.id;
    var found := DoExchangeFindSession(s, t);
    assert found == Advance(s, t, Replace(stale));
    assert DoExchangeOpenSession(found, t) == found;
    var dropped := DoExchangeDropStale(found, t);
    if stale in s.store.refreshTokens {
      assert AtStage(dropped, t, Link(Some(stale)));
      var written := DoExchangeWriteRef(dropped, t);
      assert t !in written.threads && DoExchangeDropOwn(written, t) == written;
    } else {
      assert AtStage(dropped, t, Undo);
      assert DoExchangeWriteRef(dropped, t) == dropped;
      assert (st.refreshTokens[x.newID := s.threads[t].refresh] - {x.newID}) == st.refreshTokens;
    }
  }

  /** The identifiers the exchange draws have not been used. */
  ghost predicate FreshFor(s: State, x: CodeExchange) {
    && x.accessToken !in s.used && x.newID !in s.used && x.newToken !in s.used
    && x.accessToken != x.newID && x.accessToken != x.newToken && x.newID != x.newToken
    && x.newID !in s.store.refreshTokens
  }

  /** An exchange that nobody interrupts is the exchange handler. */
  lemma ExchangeAlone(s: State, t: nat, x: CodeExchange)
    requires t !in s.threads && x.issuer.now == s.clock && FreshFor(s, x)
    requires x.code in s.store.authCodes ==> s.store.authCodes[x.code].id == x.code
    ensures var offline := x.code in s.store.authCodes && OfflineAccess in s.store.authCodes[x.code].scopes;
            Ends(s, Run(s, ExchangeSteps(t, x, offline)), t, ExchangeCode(s.store, x).0, x.code,
                 ExchangeCode(s.store, x).1.Ok?)
  {
    var offline := x.code in s.store.authCodes && OfflineAccess in s.store.authCodes[x.code].scopes;
    var first := [ExchangeGet(t, x.code, x.client, x.uri, x.issuer, x.accessToken), ExchangeDelete(t)];
    var rest := if x.canRefresh && offline then RefreshSteps(t, x) else [ExchangeAnswer(t)];
    RunSplit(s, first, rest);
    RunTwo(s, first[0], first[1]);
    var r := Run(s, first);
    if AtStage(r, t, Redeemed) {
      GetAndDelete(s, r, t, x);
      RedeemedAlone(s, r, t, x);
    } else {
      IdleSteps(r, t, rest, x);
    }
  }

  /** Without its thread the remaining actions do nothing. */
  lemma {:induction false} IdleSteps(s: State, t: nat, steps: seq<Action>, x: CodeExchange)
    requires t !in s.threads
    requires forall i :: 0 <= i < |steps| ==> steps[i] in [ExchangeAnswer(t)] + RefreshSteps(t, x)
    ensures Run(s, steps) == s
    decreases |steps|
  {
    if steps != [] {
      var a := steps[0];
      assert a in [ExchangeAnswer(t)] + RefreshSteps(t, x);
      assert Apply(s, a) == s;
      IdleSteps(s, t, steps[1..], x);
    }
  }

  /** The exchange passed its checks and deleted its code. */
  ghost predicate JustRedeemed(s: State, r: State, t: nat, x: CodeExchange)
    requires x.code in s.store.authCodes
  {
    var code := s.store.authCodes[x.code];
    && code.id == x.code && x.issuer.now <= code.expiry && code.clientID == x.client && code.redirectURI == x.uri
    && Issue(x.issuer, x.client, code.claims, code.scopes, code.nonce, x.accessToken, code.connectorID).Ok?
    && AtStage(r, t, Redeemed) && r.threads[t].code == code && r.clock == s.clock
    && r.store == s.store.(authCodes := s.store.authCodes - {x.code})
    && r.used == s.used + {x.accessToken} && r.codes.answered == s.codes.answered
  }

  lemma GetAndDelete(s: State, r: State, t: nat, x: CodeExchange)
    requires t !in s.threads && x.issuer.now == s.clock && x.code in s.store.authCodes
             && s.store.authCodes[x.code].id == x.code
    requires r == DoExchangeDelete(DoExchangeGet(s, t, x.code, x.client, x.uri, x.issuer, x.accessToken), t)
    requires AtStage(r, t, Redeemed)
    ensures JustRedeemed(s, r, t, x)
  {
  }

  lemma RedeemedAlone(s: State, r: State, t: nat, x: CodeExchange)
    requires x.issuer.now == s.clock && FreshFor(s, x) && x.code in s.store.authCodes && JustRedeemed(s, r, t, x)
    ensures var offline := OfflineAccess in s.store.authCodes[x.code].scopes;
            var rest := if x.canRefresh && offline then RefreshSteps(t, x) else [ExchangeAnswer(t)];
            Ends(s, Run(r, rest), t, ExchangeCode(s.store, x).0, x.code, ExchangeCode(s.store, x).1.Ok?)
  {
    var code := s.store.authCodes[x.code];
    if x.canRefresh && OfflineAccess in code.scopes {
      var create := ExchangeCreate(t, x.newID, x.newToken);
      RunSplit(r, [create], SessionSteps(t));
      RunOne(r, create);
      SessionAlone(Apply(r, create), t, r.store, x);
    } else {
      RunOne(r, ExchangeAnswer(t));
    }
  }

  // ----- Refreshing and revoking -----

  /** The steps of a refresh; without an answer of the connector it makes no storage call that matters. */
  function RefreshOf(s: State, t: nat, q: RefreshRequest): (r: seq<Action>)
    requires q.id in s.store.refreshTokens
  {
    var identity := IdentityFor(s.store.refreshTokens[q.id], q.reply);
    if identity.None? then []
    else [RefreshGet(t, q.id, q.value, q.client, q.wanted, identity.value, q.issuer, q.accessToken, q.newToken)]
         + [RefreshTouch(t), RefreshCommit(t)]
  }

  /** The state after the steps of a refresh whose first step leads to `got`. */
  lemma RunRefresh(s: State, t: nat, get: Action, got: State)
    requires Apply(s, get) == got
    ensures Run(s, [get] + [RefreshTouch(t), RefreshCommit(t)]) == DoRefreshCommit(DoRefreshTouch(got, t), t)
  {
    RunThree(s, get, RefreshTouch(t), RefreshCommit(t));
  }

  /** A refresh that nobody interrupts is the refresh handler. */
  lemma RefreshAlone(s: State, t: nat, q: RefreshRequest)
    requires t !in s.threads && q.issuer.now == s.clock && q.id in s.store.refreshTokens
    requires q.accessToken !in s.used && q.newToken !in s.used && q.accessToken != q.newToken
    requires s.store.refreshTokens[q.id].id == q.id
    ensures var r := Run(s, RefreshOf(s, t, q));
            && t !in r.threads && r.store == RefreshStore(s.store, q).0
            && r.refreshes.consumed ==
                 s.refreshes.consumed + if RefreshStore(s.store, q).1.Ok? then [Consumed(q.id, q.value)] else []
  {
    var identity := IdentityFor(s.store.refreshTokens[q.id], q.reply);
    if identity.Some? {
      var get := RefreshGet(t, q.id, q.value, q.client, q.wanted, identity.value, q.issuer, q.accessToken, q.newToken);
      var got := DoRefreshGet(s, t, q.id, q.value, q.client, q.wanted, identity.value, q.issuer, q.accessToken,
                              q.newToken);
      RunRefresh(s, t, get, got);
    }
  }

  /** A revocation that nobody interrupts is the revocation handler. */
  lemma RevokeAlone(s: State, t: nat, slot: Slot)
    requires t !in s.threads
    ensures var r := Run(s, [RevokeUnlink(t, slot), RevokeDelete(t)]);
            t !in r.threads && r.store == RevokeStore(s.store, slot).0
  {
    RunTwo(s, RevokeUnlink(t, slot), RevokeDelete(t));
  }
}
