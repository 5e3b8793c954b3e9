/**
 * Authorization codes and refresh tokens under interleaving (dex/server/handlers.go,
 * dex/server/api.go). Every storage call is one atomic step on the shared store; the
 * handlers sendCodeResponse, handleAuthCode, handleRefreshToken and RevokeRefresh run
 * as threads whose steps interleave in any order. Random identifiers are never handed
 * out twice. A thread that fails simply ends; the log records what succeeded.
 */
module TokenProtocol {
  import opened Common
  import opened Scopes
  import opened Storage
  import opened IDTokens

  /** The out-of-band redirect URI. */
  const OUT_OF_BAND: URI := 0

  /** The slot of the session table that refers to a refresh token. */
  datatype Slot = Slot(session: SessionID, client: ClientID)

  /** How far an exchange has come: the storage call it made last. */
  datatype Stage = Got | Redeemed | Created | NoSession | Replace(stale: ID) | Link(replaced: Option<ID>) | Undo

  /** An ID token, the registered clients as they were when it was made, and the user its claims named. */
  datatype Minted = Minted(token: IDToken, clients: map<ClientID, Client>, user: UserID)

  /**
   * A handler between two storage calls. An approval draws its access token once it deleted
   * the request; an exchange's refresh token means nothing before stage Created.
   */
  datatype Thread =
    | Approval(req: AuthRequest, accessToken: Option<ID>, types: seq<ResponseType>, idToken: Option<Minted>)
    | Exchange(stage: Stage, code: AuthCode, token: Minted, refresh: RefreshToken)
    | Refresh(touched: Option<Time>, record: RefreshToken, response: Minted, scopes: seq<Scope>, newToken: ID,
              identity: Identity)
    | Revoke(revoked: ID)

  /** What a connector returns when it refreshes a user. */
  datatype Identity = Identity(claims: Claims, data: ConnectorData)

  /** The refresh token and the value of it that a successful refresh used up. */
  datatype Consumed = Consumed(refresh: ID, value: ID)

  /** What an ID token was sent in answer to. */
  datatype Channel = ByApproval | ByCode | ByRefresh

  /** An ID token sent to a client, the scopes it covers, and the request, code or refresh token behind it. */
  datatype Issued = Issued(minted: Minted, scopes: seq<Scope>, client: ClientID, grant: ID, channel: Channel)

  /** The request that an authorization code or refresh token stems from, and its user. */
  datatype Grant = Grant(request: ID, user: UserID)

  /** Requests as they were accepted, those that got past their deletion, and as which they were then approved. */
  datatype RequestLog = RequestLog(accepted: map<ID, AuthRequest>, passed: seq<ID>, approved: map<ID, AuthRequest>)

  /** Codes deleted by an exchange, and codes that yielded a token response. */
  datatype CodeLog = CodeLog(redeemed: seq<ID>, answered: seq<ID>)

  /**
   * The slot each refresh token was created for, the tokens whose reference was ever
   * written, the tokens deleted from the store, and the successful refreshes.
   */
  datatype RefreshLog = RefreshLog(slots: map<ID, Slot>, linked: set<ID>, removed: set<ID>, consumed: seq<Consumed>)

  /** The origin of codes and refresh tokens, and the ID tokens sent to clients. */
  datatype GrantLog = GrantLog(origins: map<ID, Grant>, issued: seq<Issued>)

  datatype State = State(
    clock: Time, store: Store, threads: map<nat, Thread>, used: set<ID>,
    requests: RequestLog, codes: CodeLog, refreshes: RefreshLog, grants: GrantLog)

  const INIT: State := State(0, EMPTY, map[], {}, RequestLog(map[], [], map[]), CodeLog([], []),
                             RefreshLog(map[], {}, {}, []), GrantLog(map[], []))

  datatype Action =
    | Tick(to: Time)
    | Accept(req: AuthRequest)
    | ChooseConnector(id: ID, chosen: ConnectorID)
    | Login(id: ID, identity: Identity)
    | Collect
    | ApprovalGet(t: nat, id: ID)
    | ApprovalDelete(t: nat, newID: ID)
    | ApprovalCode(t: nat, newID: ID)
    | ApprovalToken(t: nat, issuer: Issuer)
    | ApprovalRespond(t: nat)
    | ExchangeGet(t: nat, id: ID, client: ClientID, uri: URI, issuer: Issuer, newID: ID)
    | ExchangeDelete(t: nat)
    | ExchangeAnswer(t: nat)
    | ExchangeCreate(t: nat, newID: ID, newToken: ID)
    | ExchangeFindSession(t: nat)
    | ExchangeOpenSession(t: nat)
    | ExchangeDropStale(t: nat)
    | ExchangeWriteRef(t: nat)
    | ExchangeDropOwn(t: nat)
    | RefreshGet(t: nat, id: ID, value: ID, client: ClientID, wanted: Option<seq<Scope>>, refreshed: Identity,
                 issuer: Issuer, newID: ID, newToken: ID)
    | RefreshTouch(t: nat)
    | RefreshCommit(t: nat)
    | RevokeUnlink(t: nat, slot: Slot)
    | RevokeDelete(t: nat)

  function SlotOfCode(c: AuthCode): (r: Slot) {
    Slot(SessionID(c.claims.userID, c.connectorID), c.clientID)
  }

  function SlotOfToken(r: RefreshToken): (s: Slot) {
    Slot(SessionID(r.claims.userID, r.connectorID), r.clientID)
  }

  /** The reference stored in a slot. */
  function Ref(sessions: map<SessionID, Session>, slot: Slot): (r: Option<RefreshTokenRef>) {
    if slot.session in sessions && slot.client in sessions[slot.session]
    then Some(sessions[slot.session][slot.client]) else None
  }

  function End(s: State, t: nat): (r: State) {
    s.(threads := s.threads - {t})
  }

  function Continue(s: State, t: nat, th: Thread): (r: State) {
    s.(threads := s.threads[t := th])
  }

  function Issuing(log: GrantLog, i: Issued): (r: GrantLog) {
    log.(issued := log.issued + [i])
  }

  /** The exchange wrote its token response. */
  function Answer(s: State, t: nat, code: AuthCode, minted: Minted): (r: State) {
    s.(threads := s.threads - {t},
       codes := s.codes.(answered := s.codes.answered + [code.id]),
       grants := Issuing(s.grants, Issued(minted, code.scopes, code.clientID, code.id, ByCode)))
  }

  /** A stage that an exchange reaches only after it deleted its code. */
  predicate Redeeming(th: Thread) {
    th.Exchange? && !th.stage.Got?
  }

  function NewCode(req: AuthRequest, id: ID, expiry: Time): (r: AuthCode) {
    AuthCode(id, req.clientID, req.redirectURI, req.nonce, req.scopes, req.connectorID, req.connectorData, req.claims,
             expiry)
  }

  function NewRefresh(code: AuthCode, id: ID, token: ID, now: Time): (r: RefreshToken) {
    RefreshToken(id, token, now, now, code.clientID, code.connectorID, code.connectorData, code.claims, code.scopes,
                 code.nonce)
  }

  function NewRef(r: RefreshToken): (ref: RefreshTokenRef) {
    RefreshTokenRef(r.id, r.clientID, r.createdAt, r.lastUsed)
  }

  /** The stored token after a refresh: a new value and new claims, but never a new user. */
  function Refreshed(stored: RefreshToken, newToken: ID, identity: Identity, now: Time): (r: RefreshToken) {
    stored.(token := newToken, claims := identity.claims.(userID := stored.claims.userID),
          connectorData := identity.data, lastUsed := now)
  }

  // ----- The browser side: requests, logins, approval -----

  function DoAccept(s: State, req: AuthRequest): (r: State) {
    if req.id in s.used || req.loggedIn then s
    else s.(store := s.store.(authReqs := s.store.authReqs[req.id := req]), used := s.used + {req.id},
            requests := s.requests.(accepted := s.requests.accepted[req.id := req]))
  }

  function DoUpdateRequest(s: State, id: ID, req: AuthRequest): (r: State) {
    s.(store := s.store.(authReqs := s.store.authReqs[id := req]))
  }

  function DoChooseConnector(s: State, id: ID, chosen: ConnectorID): (r: State) {
    if id !in s.store.authReqs then s
    else DoUpdateRequest(s, id, s.store.authReqs[id].(connectorID := chosen))
  }

  function DoLogin(s: State, id: ID, identity: Identity): (r: State) {
    if id !in s.store.authReqs then s
    else DoUpdateRequest(s, id, s.store.authReqs[id].(loggedIn := true, claims := identity.claims,
                                                      connectorData := identity.data))
  }

  /** Reads the request and checks that it has not expired; it may expire before it is deleted. */
  function DoApprovalGet(s: State, t: nat, id: ID): (r: State) {
    if t in s.threads || id !in s.store.authReqs then s
    else
      var req := s.store.authReqs[id];
      if !req.loggedIn || s.clock > req.expiry then s else Continue(s, t, Approval(req, None, [], None))
  }

  /** Deletes the request and draws the access token. */
  function DoApprovalDelete(s: State, t: nat, newID: ID): (r: State) {
    if t !in s.threads || !s.threads[t].Approval? || s.threads[t].accessToken.Some? || newID in s.used then s
    else
      var req := s.threads[t].req;
      if req.id !in s.store.authReqs then End(s, t)
      else
        s.(threads := s.threads[t := Approval(req, Some(newID), req.responseTypes, None)],
           store := s.store.(authReqs := s.store.authReqs - {req.id}),
           used := s.used + {newID},
           requests := s.requests.(passed := s.requests.passed + [req.id],
                                   approved := s.requests.approved[req.id := req]))
  }

  /** The thread has passed the deletion. */
  predicate Responding(s: State, t: nat) {
    t in s.threads && s.threads[t].Approval? && s.threads[t].accessToken.Some?
  }

  /** Stores a code; the out-of-band flow shows it right away and stops. */
  function DoApprovalCode(s: State, t: nat, newID: ID): (r: State) {
    if !Responding(s, t) || s.threads[t].types == [] || !s.threads[t].types[0].WantCode? || newID in s.used then s
    else
      var th := s.threads[t];
      s.(threads := if th.req.redirectURI == OUT_OF_BAND then s.threads - {t}
                    else s.threads[t := th.(types := th.types[1..])],
         store := s.store.(authCodes := s.store.authCodes[newID := NewCode(th.req, newID, s.clock + 30 * MINUTE)]),
         used := s.used + {newID},
         grants := s.grants.(origins := s.grants.origins[newID := Grant(th.req.id, th.req.claims.userID)]))
  }

  /** Handles a response type other than code. */
  function DoApprovalToken(s: State, t: nat, issuer: Issuer): (r: State) {
    if !Responding(s, t) || s.threads[t].types == [] || s.threads[t].types[0].WantCode? then s
    else
      var th := s.threads[t];
      var req := th.req;
      var token := Issue(issuer, req.clientID, req.claims, req.scopes, req.nonce, th.accessToken.value,
                         req.connectorID);
      if th.types[0].WantToken? then Continue(s, t, th.(types := th.types[1..]))
      else if token.Err? then End(s, t)
      else
        var minted := Minted(token.value, issuer.clients, req.claims.userID);
        Continue(s, t, th.(types := th.types[1..], idToken := Some(minted)))
  }

  function DoApprovalRespond(s: State, t: nat): (r: State) {
    if !Responding(s, t) || s.threads[t].types != [] then s
    else
      var th := s.threads[t];
      if th.idToken.None? then End(s, t)
      else s.(threads := s.threads - {t},
              grants := Issuing(s.grants,
                                Issued(th.idToken.value, th.req.scopes, th.req.clientID, th.req.id, ByApproval)))
  }

  // ----- Exchanging an authorization code -----

  predicate AtStage(s: State, t: nat, stage: Stage) {
    t in s.threads && s.threads[t].Exchange? && s.threads[t].stage == stage
  }

  function Advance(s: State, t: nat, stage: Stage): (r: State)
    requires t in s.threads && s.threads[t].Exchange?
  {
    s.(threads := s.threads[t := s.threads[t].(stage := stage)])
  }

  function DoExchangeGet(s: State, t: nat, id: ID, client: ClientID, uri: URI, issuer: Issuer, newID: ID): (r: State) {
    if t in s.threads || id !in s.store.authCodes || newID in s.used then s
    else
      var code := s.store.authCodes[id];
      var token := Issue(issuer, client, code.claims, code.scopes, code.nonce, newID, code.connectorID);
      if s.clock > code.expiry || code.clientID != client || code.redirectURI != uri || token.Err? then s
      else
        var minted := Minted(token.value, issuer.clients, code.claims.userID);
        s.(threads := s.threads[t := Exchange(Got, code, minted, NewRefresh(code, newID, newID, s.clock))],
           used := s.used + {newID})
  }

  function DoExchangeDelete(s: State, t: nat): (r: State) {
    if !AtStage(s, t, Got) then s
    else
      var code := s.threads[t].code;
      if code.id !in s.store.authCodes then End(s, t)
      else
        Advance(s, t, Redeemed)
        .(store := s.store.(authCodes := s.store.authCodes - {code.id}),
          codes := s.codes.(redeemed := s.codes.redeemed + [code.id]))
  }

  /** No refresh token: the connector does not support it, or the scope does not ask for it. */
  function DoExchangeAnswer(s: State, t: nat): (r: State) {
    if !AtStage(s, t, Redeemed) then s else Answer(s, t, s.threads[t].code, s.threads[t].token)
  }

  function DoExchangeCreate(s: State, t: nat, newID: ID, newToken: ID): (r: State) {
    if !AtStage(s, t, Redeemed) || OfflineAccess !in s.threads[t].code.scopes ||
       newID in s.used || newToken in s.used || newID == newToken then s
    else
      var th := s.threads[t];
      var refresh := NewRefresh(th.code, newID, newToken, s.clock);
      s.(threads := s.threads[t := Exchange(Created, th.code, th.token, refresh)],
         store := s.store.(refreshTokens := s.store.refreshTokens[newID := refresh]),
         used := s.used + {newID, newToken},
         refreshes := s.refreshes.(slots := s.refreshes.slots[newID := SlotOfCode(th.code)]),
         grants := Inherit(s.grants, th.code.id, newID))
  }

  /** The refresh token stems from whatever its code stems from. */
  function Inherit(log: GrantLog, code: ID, refresh: ID): (r: GrantLog) {
    if code in log.origins then log.(origins := log.origins[refresh := log.origins[code]]) else log
  }

  function DoExchangeFindSession(s: State, t: nat): (r: State) {
    if !AtStage(s, t, Created) then s
    else
      var slot := SlotOfCode(s.threads[t].code);
      var ref := Ref(s.store.sessions, slot);
      Advance(s, t, if slot.session !in s.store.sessions then NoSession
                    else if ref.None? then Link(None) else Replace(ref.value.id))
  }

  /** Writes the reference to the exchange's own refresh token into the session and answers. */
  function LinkRefresh(s: State, t: nat, session: Session): (r: State)
    requires t in s.threads && s.threads[t].Exchange?
  {
    var th := s.threads[t];
    var slot := SlotOfCode(th.code);
    Answer(s, t, th.code, th.token)
    .(store := s.store.(sessions := s.store.sessions[slot.session := session[slot.client := NewRef(th.refresh)]]),
      refreshes := s.refreshes.(linked := s.refreshes.linked + {th.refresh.id}))
  }

  function DoExchangeOpenSession(s: State, t: nat): (r: State) {
    if !AtStage(s, t, NoSession) then s
    else if SlotOfCode(s.threads[t].code).session in s.store.sessions then Advance(s, t, Undo)
    else LinkRefresh(s, t, map[])
  }

  function DoExchangeDropStale(s: State, t: nat): (r: State) {
    if t !in s.threads || !s.threads[t].Exchange? || !s.threads[t].stage.Replace? then s
    else
      var stale := s.threads[t].stage.stale;
      if stale !in s.store.refreshTokens then Advance(s, t, Undo)
      else
        Advance(s, t, Link(Some(stale)))
        .(store := s.store.(refreshTokens := s.store.refreshTokens - {stale}),
          refreshes := s.refreshes.(removed := s.refreshes.removed + {stale}))
  }

  function DoExchangeWriteRef(s: State, t: nat): (r: State) {
    if t !in s.threads || !s.threads[t].Exchange? || !s.threads[t].stage.Link? then s
    else
      var slot := SlotOfCode(s.threads[t].code);
      if slot.session !in s.store.sessions then Advance(s, t, Undo)
      else LinkRefresh(s, t, s.store.sessions[slot.session])
  }

  /** Ends the thread and deletes a refresh token if it is still there. */
  function DropRefresh(s: State, t: nat, id: ID): (r: State) {
    if id !in s.store.refreshTokens then End(s, t)
    else s.(threads := s.threads - {t},
            store := s.store.(refreshTokens := s.store.refreshTokens - {id}),
            refreshes := s.refreshes.(removed := s.refreshes.removed + {id}))
  }

  function DoExchangeDropOwn(s: State, t: nat): (r: State) {
    if !AtStage(s, t, Undo) then s else DropRefresh(s, t, s.threads[t].refresh.id)
  }

  // ----- Refreshing and revoking -----

  /** The scopes a refresh request may use: all of them by default, never more. */
  function RefreshScopes(granted: seq<Scope>, wanted: Option<seq<Scope>>): (r: Option<seq<Scope>>) {
    match wanted
    case None => Some(granted)
    case Some(ws) => if forall w :: w in ws ==> w in granted then Some(ws) else None
  }

  function DoRefreshGet(s: State, t: nat, id: ID, value: ID, client: ClientID, wanted: Option<seq<Scope>>,
                        refreshed: Identity, issuer: Issuer, newID: ID, newToken: ID): (r: State)
  {
    if t in s.threads || id !in s.store.refreshTokens || newID in s.used || newToken in s.used || newID == newToken
       then s
    else
      var record := s.store.refreshTokens[id];
      var scopes := RefreshScopes(record.scopes, wanted);
      if record.clientID != client || record.token != value || scopes.None? then s
      else
        var token := Issue(issuer, client, refreshed.claims, scopes.value, record.nonce, newID, record.connectorID);
        if token.Err? then s
        else
          var minted := Minted(token.value, issuer.clients, refreshed.claims.userID);
          s.(threads := s.threads[t := Refresh(None, record, minted, scopes.value, newToken, refreshed)],
             used := s.used + {newID, newToken})
  }

  /** A missing reference makes the updater fail just like one that names another token. */
  function DoRefreshTouch(s: State, t: nat): (r: State) {
    if t !in s.threads || !s.threads[t].Refresh? || s.threads[t].touched.Some? then s
    else
      var th := s.threads[t];
      var slot := SlotOfToken(th.record);
      var ref := Ref(s.store.sessions, slot);
      if ref.None? || ref.value.id != th.record.id then End(s, t)
      else
        var session := s.store.sessions[slot.session][slot.client := ref.value.(lastUsed := s.clock)];
        s.(threads := s.threads[t := th.(touched := Some(s.clock))],
           store := s.store.(sessions := s.store.sessions[slot.session := session]))
  }

  function DoRefreshCommit(s: State, t: nat): (r: State) {
    if t !in s.threads || !s.threads[t].Refresh? || s.threads[t].touched.None? then s
    else
      var th := s.threads[t];
      var id := th.record.id;
      if id !in s.store.refreshTokens || s.store.refreshTokens[id].token != th.record.token then End(s, t)
      else
        var updated := Refreshed(s.store.refreshTokens[id], th.newToken, th.identity, th.touched.value);
        s.(threads := s.threads - {t},
           store := s.store.(refreshTokens := s.store.refreshTokens[id := updated]),
           refreshes := s.refreshes.(consumed := s.refreshes.consumed + [Consumed(id, th.record.token)]),
           grants := Issuing(s.grants, Issued(th.response, th.scopes, th.record.clientID, id, ByRefresh)))
  }

  function DoRevokeUnlink(s: State, t: nat, slot: Slot): (r: State) {
    var ref := Ref(s.store.sessions, slot);
    if t in s.threads || ref.None? then s
    else
      var session := s.store.sessions[slot.session] - {slot.client};
      s.(threads := s.threads[t := Revoke(ref.value.id)],
         store := s.store.(sessions := s.store.sessions[slot.session := session]))
  }

  function DoRevokeDelete(s: State, t: nat): (r: State) {
    if t !in s.threads || !s.threads[t].Revoke? then s
    else DropRefresh(s, t, s.threads[t].revoked)
  }

  /** One step of some thread; an action that is not enabled leaves the state as it is. */
  function Apply(s: State, a: Action): (r: State) {
    match a
    case Tick(to) => if to < s.clock then s else s.(clock := to)
    case Accept(req) => DoAccept(s, req)
    case ChooseConnector(id, chosen) => DoChooseConnector(s, id, chosen)
    case Login(id, identity) => DoLogin(s, id, identity)
    case Collect => s.(store := Collected(s.store, s.clock))
    case ApprovalGet(t, id) => DoApprovalGet(s, t, id)
    case ApprovalDelete(t, newID) => DoApprovalDelete(s, t, newID)
    case ApprovalCode(t, newID) => DoApprovalCode(s, t, newID)
    case ApprovalToken(t, issuer) => DoApprovalToken(s, t, issuer)
    case ApprovalRespond(t) => DoApprovalRespond(s, t)
    case ExchangeGet(t, id, client, uri, issuer, newID) => DoExchangeGet(s, t, id, client, uri, issuer, newID)
    case ExchangeDelete(t) => DoExchangeDelete(s, t)
    case ExchangeAnswer(t) => DoExchangeAnswer(s, t)
    case ExchangeCreate(t, newID, newToken) => DoExchangeCreate(s, t, newID, newToken)
    case ExchangeFindSession(t) => DoExchangeFindSession(s, t)
    case ExchangeOpenSession(t) => DoExchangeOpenSession(s, t)
    case ExchangeDropStale(t) => DoExchangeDropStale(s, t)
    case ExchangeWriteRef(t) => DoExchangeWriteRef(s, t)
    case ExchangeDropOwn(t) => DoExchangeDropOwn(s, t)
    case RefreshGet(t, id, value, client, wanted, refreshed, issuer, newID, newToken) =>
      DoRefreshGet(s, t, id, value, client, wanted, refreshed, issuer, newID, newToken)
    case RefreshTouch(t) => DoRefreshTouch(s, t)
    case RefreshCommit(t) => DoRefreshCommit(s, t)
    case RevokeUnlink(t, slot) => DoRevokeUnlink(s, t, slot)
    case RevokeDelete(t) => DoRevokeDelete(s, t)
  }

  predicate IsLogin(a: Action) {
    a.Tick? || a.Accept? || a.ChooseConnector? || a.Login? || a.Collect?
  }

  predicate IsApproval(a: Action) {
    a.ApprovalGet? || a.ApprovalDelete? || a.ApprovalCode? || a.ApprovalToken? || a.ApprovalRespond?
  }

  predicate IsRefresh(a: Action) {
    a.RefreshGet? || a.RefreshTouch? || a.RefreshCommit?
  }

  predicate IsRevoke(a: Action) {
    a.RevokeUnlink? || a.RevokeDelete?
  }

  /** The steps of an exchange up to the creation of its refresh token. */
  predicate IsRedeem(a: Action) {
    a.ExchangeGet? || a.ExchangeDelete? || a.ExchangeAnswer? || a.ExchangeCreate?
  }

  /** The steps of an exchange that concern the offline session. */
  predicate IsSession(a: Action) {
    a.ExchangeFindSession? || a.ExchangeOpenSession? || a.ExchangeDropStale? || a.ExchangeWriteRef?
        || a.ExchangeDropOwn?
  }

  function Run(s: State, actions: seq<Action>): (r: State)
    decreases |actions|
  {
    if actions == [] then s else Run(Apply(s, actions[0]), actions[1..])
  }
}
