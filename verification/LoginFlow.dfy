/**
 * From opening a request to holding tokens (dex/server/handlers.go): the connector that was
 * chosen, the identity that logged in and the scopes and nonce that were asked for are the ones
 * the ID token and the refresh token carry in the end.
 */
module LoginFlow {
  import opened Common
  import opened Scopes
  import opened Storage
  import opened IDTokens
  import opened TokenProtocol
  import opened Handlers
  import opened SerialRuns
  import opened Uninterrupted
  import opened GarbageCollection
  import opened Approvals
  import opened Replies

  /** The store after the request was opened, sent to a connector and logged in with an identity. */
  function LoggedIn(st: Store, req: AuthRequest, connector: ConnectorID, identity: Identity, now: Time): (r: Store) {
    var begun := Handle(st, now, Open(req)).0;
    var chosen := Handle(begun, now, Choose(req.id, connector)).0;
    Handle(chosen, now, Authenticate(req.id, identity)).0
  }

  /** The request is then stored with that connector and identity; nothing else differs. */
  lemma LoginOutcome(st: Store, req: AuthRequest, connector: ConnectorID, identity: Identity, now: Time)
    requires req.id !in st.authReqs && !req.loggedIn
    ensures LoggedIn(st, req, connector, identity, now) ==
            st.(authReqs := st.authReqs[req.id := req.(loggedIn := true, connectorID := connector,
                                                       claims := identity.claims, connectorData := identity.data)])
  {
  }

  /** The three calls of the interleaved protocol do the same when nobody interrupts them. */
  lemma LoginAlone(s: State, req: AuthRequest, connector: ConnectorID, identity: Identity)
    requires req.id !in s.used && req.id !in s.store.authReqs && !req.loggedIn
    ensures Run(s, [Accept(req)] + [ChooseConnector(req.id, connector), Login(req.id, identity)]).store ==
            LoggedIn(s.store, req, connector, identity, s.clock)
  {
    RunThree(s, Accept(req), ChooseConnector(req.id, connector), Login(req.id, identity));
  }

  lemma {:induction false} LastCodeIsDrawn(newIDs: seq<ID>, n: nat, types: seq<ResponseType>)
    requires LastCode(newIDs, n, types).Some?
    ensures Draws(newIDs, n, types, LastCode(newIDs, n, types).value)
    decreases |types|
  {
    if LastCode(newIDs, n + 1, types[1..]).Some? {
      LastCodeIsDrawn(newIDs, n + 1, types[1..]);
    }
    DrawsShift(newIDs, n, types, LastCode(newIDs, n, types).value);
  }

  /** The code of a redirect stands for the request, and an ID token in it says what was asked for. */
  lemma RedirectStandsFor(st: Store, q: ApprovalRequest)
    requires Supplied(st, q) && NewFrom(st, q.newIDs, 0) && ApproveStore(st, q).1.Ok?
    ensures q.id in st.authReqs
    ensures var (after, r) := ApproveStore(st, q);
            var req := st.authReqs[q.id];
            && after == st.(authReqs := st.authReqs - {q.id}, authCodes := after.authCodes)
            && (r.value.code.Some? ==>
                  && r.value.code.value in after.authCodes
                  && StandsFor(after.authCodes[r.value.code.value], req, r.value.code.value, q.issuer.now))
            && (r.value.idToken.Some? ==>
                  Describes(r.value.idToken.value, q.issuer, req.clientID, req.claims, req.scopes, req.nonce,
                            q.accessToken, req.connectorID))
  {
    ApprovalOutcome(st, q);
    var req := st.authReqs[q.id];
    var types := Handled(req.responseTypes, req.redirectURI == OUT_OF_BAND);
    if LastCode(q.newIDs, 0, types).Some? {
      LastCodeIsDrawn(q.newIDs, 0, types);
    }
    IssuedTokenDescribes(q.issuer, req.clientID, req.claims, req.scopes, req.nonce, q.accessToken, req.connectorID);
  }

  /** The client redeems the code of the redirect in time, as itself and for its own URI. */
  ghost predicate Redeems(x: CodeExchange, req: AuthRequest, approved: Time) {
    && x.client == req.clientID && x.uri == req.redirectURI && x.issuer.now <= approved + 30 * MINUTE
    && CanIssue(x.issuer, x.client, req.scopes)
  }

  /**
   * Whatever is stored besides, redeeming the code of a login succeeds, and its tokens are for the
   * user that logged in at the chosen connector, with the scopes and nonce of the request.
   */
  lemma LoginToTokens(st: Store, req: AuthRequest, connector: ConnectorID, identity: Identity, now: Time,
                      q: ApprovalRequest, x: CodeExchange)
    requires Bijective(st) && req.id !in st.authReqs && !req.loggedIn && q.id == req.id
    requires var s := LoggedIn(st, req, connector, identity, now);
             && Supplied(s, q) && NewFrom(s, q.newIDs, 0) && ApproveStore(s, q).1.Ok?
             && ApproveStore(s, q).1.value.code == Some(x.code)
    requires Redeems(x, req, q.issuer.now) && x.newID !in st.refreshTokens
    ensures var (after, r) := ExchangeCode(ApproveStore(LoggedIn(st, req, connector, identity, now), q).0, x);
            && r.Ok?
            && Describes(r.value.idToken, x.issuer, req.clientID, identity.claims, req.scopes, req.nonce,
                         x.accessToken, connector)
            && (r.value.refresh.Some? <==> x.canRefresh && OfflineAccess in req.scopes)
            && (r.value.refresh.Some? ==>
                  && HandsOut(after, r.value, x.newID)
                  && var t := after.refreshTokens[x.newID];
                     && t.clientID == req.clientID && t.scopes == req.scopes && t.nonce == req.nonce
                     && t.claims == identity.claims && t.connectorID == connector && t.connectorData == identity.data)
  {
    LoginOutcome(st, req, connector, identity, now);
    var s := LoggedIn(st, req, connector, identity, now);
    RedirectStandsFor(s, q);
    var approved := ApproveStore(s, q).0;
    assert Bijective(approved);
    ExchangeKeepsBijection(approved, x);
    ExchangeReply(approved, x);
  }
}
