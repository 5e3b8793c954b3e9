/**
 * The token handlers run one at a time (dex/server/handlers.go, dex/server/api.go), as
 * methods over the in-memory store, each proved against a function on its contents.
 */
module Handlers {
  import opened Common
  import opened Scopes
  import opened Storage
  import opened IDTokens
  import opened TokenProtocol

  datatype HandlerError = InvalidRequest | ServerError | SessionError

  datatype TokenResponse = TokenResponse(idToken: IDToken, accessToken: ID, refresh: Option<(ID, ID)>)

  /** The redirect after approval: a code, an ID token, or both. */
  datatype Redirect = Redirect(code: Option<ID>, idToken: Option<IDToken>)

  /** What an exchange presents, and what the server and the connector contribute. */
  datatype CodeExchange = CodeExchange(
    code: ID, client: ClientID, uri: URI, issuer: Issuer, canRefresh: bool, accessToken: ID, newID: ID, newToken: ID)

  /** The connector behind a refresh token: it does not refresh users, refreshed this one, or is missing or failed. */
  datatype ConnectorReply = CannotRefresh | Identified(identity: Identity) | Unavailable

  datatype RefreshRequest = RefreshRequest(
    id: ID, value: ID, client: ClientID, wanted: Option<seq<Scope>>, reply: ConnectorReply,
    issuer: Issuer, accessToken: ID, newToken: ID)

  // ----- Specifications -----

  function LinkStore(st: Store, slot: Slot, r: RefreshToken): (r': Store) {
    var session := if slot.session in st.sessions then st.sessions[slot.session] else map[];
    st.(sessions := st.sessions[slot.session := session[slot.client := NewRef(r)]])
  }

  /** The refresh token part of an exchange: store it, replace the old one, link it. */
  function AddRefresh(st: Store, code: AuthCode, x: CodeExchange): (r: (Store, bool)) {
    var refresh := NewRefresh(code, x.newID, x.newToken, x.issuer.now);
    var slot := SlotOfCode(code);
    var ref := Ref(st.sessions, slot);
    if x.newID in st.refreshTokens then (st, false)
    else
      var stored := st.(refreshTokens := st.refreshTokens[x.newID := refresh]);
      if ref.None? then (LinkStore(stored, slot, refresh), true)
      else if ref.value.id !in stored.refreshTokens then (st, false)
      else (LinkStore(stored.(refreshTokens := stored.refreshTokens - {ref.value.id}), slot, refresh), true)
  }

  function ExchangeCode(st: Store, x: CodeExchange): (r: (Store, Result<TokenResponse, HandlerError>)) {
    if x.code !in st.authCodes then (st, Err(InvalidRequest))
    else
      var code := st.authCodes[x.code];
      if x.issuer.now > code.expiry || code.clientID != x.client then (st, Err(ServerError))
      else if code.redirectURI != x.uri then (st, Err(InvalidRequest))
      else
        var token := Issue(x.issuer, x.client, code.claims, code.scopes, code.nonce, x.accessToken, code.connectorID);
        if token.Err? then (st, Err(ServerError))
        else
          var redeemed := st.(authCodes := st.authCodes - {x.code});
          if !x.canRefresh || OfflineAccess !in code.scopes then
            (redeemed, Ok(TokenResponse(token.value, x.accessToken, None)))
          else
            var (linked, ok) := AddRefresh(redeemed, code, x);
            if ok then (linked, Ok(TokenResponse(token.value, x.accessToken, Some((x.newID, x.newToken)))))
            else (redeemed, Err(ServerError))
  }

  /** The identity a refresh uses: the connector's, or the stored one if it cannot refresh. */
  function IdentityFor(record: RefreshToken, reply: ConnectorReply): (r: Option<Identity>) {
    match reply
    case CannotRefresh => Some(Identity(record.claims, record.connectorData))
    case Identified(identity) => Some(identity)
    case Unavailable => None
  }

  function RefreshStore(st: Store, q: RefreshRequest): (r: (Store, Result<TokenResponse, HandlerError>)) {
    if q.id !in st.refreshTokens then (st, Err(InvalidRequest))
    else
      var record := st.refreshTokens[q.id];
      var scopes := RefreshScopes(record.scopes, q.wanted);
      if record.clientID != q.client || record.token != q.value || scopes.None? then (st, Err(InvalidRequest))
      else if IdentityFor(record, q.reply).None? then (st, Err(ServerError))
      else
        var identity := IdentityFor(record, q.reply).value;
        var token := Issue(q.issuer, q.client, identity.claims, scopes.value, record.nonce, q.accessToken,
                           record.connectorID);
        var slot := SlotOfToken(record);
        var ref := Ref(st.sessions, slot);
        if token.Err? || ref.None? || ref.value.id != record.id then (st, Err(ServerError))
        else
          var session := st.sessions[slot.session][slot.client := ref.value.(lastUsed := q.issuer.now)];
          var touched := st.(sessions := st.sessions[slot.session := session]);
          if record.id !in st.refreshTokens || st.refreshTokens[record.id].token != record.token then
            (touched, Err(ServerError))
          else
            (touched.(refreshTokens := st.refreshTokens[record.id :=
                       Refreshed(st.refreshTokens[record.id], q.newToken, identity, q.issuer.now)]),
             Ok(TokenResponse(token.value, q.accessToken, Some((record.id, q.newToken)))))
  }

  datatype Revocation = Revoked | NoReference | DeleteFailed

  /** Unlinks the slot, then deletes the token it named. */
  function RevokeStore(st: Store, slot: Slot): (r: (Store, Revocation)) {
    var ref := Ref(st.sessions, slot);
    if ref.None? then (st, NoReference)
    else
      var unlinked := st.(sessions := st.sessions[slot.session := st.sessions[slot.session] - {slot.client}]);
      if ref.value.id !in st.refreshTokens then (unlinked, DeleteFailed)
      else (unlinked.(refreshTokens := st.refreshTokens - {ref.value.id}), Revoked)
  }

  /** An approval and the identifiers it may draw, one for each response type. */
  datatype ApprovalRequest = ApprovalRequest(id: ID, issuer: Issuer, accessToken: ID, newIDs: seq<ID>)

  /** Handles the response types in order; the out-of-band flow stops at the first code. */
  function Respond(st: Store, q: ApprovalRequest, req: AuthRequest, n: nat, sent: Redirect)
    : (r: (Store, Result<Redirect, HandlerError>))
    requires n <= |req.responseTypes| <= |q.newIDs|
    decreases |req.responseTypes| - n
  {
    if n == |req.responseTypes| then (st, Ok(sent))
    else match req.responseTypes[n]
         case WantCode =>
           var id := q.newIDs[n];
           if id in st.authCodes then (st, Err(ServerError))
           else
             var created := st.(authCodes := st.authCodes[id := NewCode(req, id, q.issuer.now + 30 * MINUTE)]);
             var sent' := sent.(code := Some(id));
             if req.redirectURI == OUT_OF_BAND then (created, Ok(Redirect(Some(id), None)))
             else Respond(created, q, req, n + 1, sent')
         case WantToken => Respond(st, q, req, n + 1, sent)
         case WantIDToken =>
           var token := Issue(q.issuer, req.clientID, req.claims, req.scopes, req.nonce, q.accessToken,
                              req.connectorID);
           if token.Err? then (st, Err(ServerError))
           else Respond(st, q, req, n + 1, sent.(idToken := Some(token.value)))
  }

  /** The request has no more response types than identifiers are at hand. */
  predicate Supplied(st: Store, q: ApprovalRequest) {
    q.id in st.authReqs ==> |st.authReqs[q.id].responseTypes| <= |q.newIDs|
  }

  function ApproveStore(st: Store, q: ApprovalRequest): (r: (Store, Result<Redirect, HandlerError>))
    requires Supplied(st, q)
  {
    if q.id !in st.authReqs then (st, Err(ServerError))
    else
      var req := st.authReqs[q.id];
      if !req.loggedIn then (st, Err(ServerError))
      else if q.issuer.now > req.expiry then (st, Err(SessionError))
      else Respond(st.(authReqs := st.authReqs - {q.id}), q, req, 0, Redirect(None, None))
  }

  // ----- Exchanging a code -----

  /** Deletes the code and, if asked to, creates and links a refresh token; a failure takes the new token back. */
  method HandleAuthCode(s: MemStorage, x: CodeExchange) returns (r: Result<TokenResponse, HandlerError>)
    modifies s
    ensures (s.Contents(), r) == ExchangeCode(old(s.Contents()), x)
  {
    if x.code !in s.authCodes {
      return Err(InvalidRequest);
    }
    var code := s.authCodes[x.code];
    if x.issuer.now > code.expiry || code.clientID != x.client {
      return Err(ServerError);
    }
    if code.redirectURI != x.uri {
      return Err(InvalidRequest);
    }
    var token := NewIDToken(x.issuer, x.client, code.claims, code.scopes, code.nonce, x.accessToken, code.connectorID);
    if token.Err? {
      return Err(ServerError);
    }
    var _ := s.DeleteAuthCode(x.code);
    if !x.canRefresh || OfflineAccess !in code.scopes {
      return Ok(TokenResponse(token.value, x.accessToken, None));
    }
    var ok := StoreRefresh(s, code, x);
    if !ok {
      return Err(ServerError);
    }
    return Ok(TokenResponse(token.value, x.accessToken, Some((x.newID, x.newToken))));
  }

  method StoreRefresh(s: MemStorage, code: AuthCode, x: CodeExchange) returns (ok: bool)
    modifies s
    ensures (s.Contents(), ok) == AddRefresh(old(s.Contents()), code, x)
  {
    var refresh := NewRefresh(code, x.newID, x.newToken, x.issuer.now);
    var err := s.CreateRefresh(refresh);
    if err.Some? {
      return false;
    }
    ok := LinkOrReplace(s, code, refresh);
    if !ok {
      var _ := s.DeleteRefresh(refresh.id);
      assert s.refreshTokens == old(s.refreshTokens);
    }
  }

  /** Looks up the offline session and makes the client's reference name the new token. */
  method LinkOrReplace(s: MemStorage, code: AuthCode, refresh: RefreshToken) returns (ok: bool)
    modifies s
    ensures var slot := SlotOfCode(code);
            var ref := Ref(old(s.sessions), slot);
            var before := old(s.Contents());
            && ok == (ref.None? || ref.value.id in before.refreshTokens)
            && s.Contents() ==
                 if !ok then before
                 else if ref.None? then LinkStore(before, slot, refresh)
                 else LinkStore(before.(refreshTokens := before.refreshTokens - {ref.value.id}), slot, refresh)
  {
    var slot := SlotOfCode(code);
    var ref := NewRef(refresh);
    if slot.session !in s.sessions {
      var err := s.CreateOfflineSessions(slot.session, map[slot.client := ref]);
      return err.None?;
    }
    if slot.client in s.sessions[slot.session] {
      var err := s.DeleteRefresh(s.sessions[slot.session][slot.client].id);
      if err.Some? {
        return false;
      }
    }
    var err := s.UpdateOfflineSessions(slot.session, (session: Session) => Ok(session[slot.client := ref]));
    return err.None?;
  }

  // ----- Refreshing -----

  method HandleRefreshToken(s: MemStorage, q: RefreshRequest) returns (r: Result<TokenResponse, HandlerError>)
    modifies s
    ensures (s.Contents(), r) == RefreshStore(old(s.Contents()), q)
  {
    if q.id !in s.refreshTokens {
      return Err(InvalidRequest);
    }
    var record := s.refreshTokens[q.id];
    if record.clientID != q.client || record.token != q.value {
      return Err(InvalidRequest);
    }
    var scopes := record.scopes;
    if q.wanted.Some? {
      var allowed := AllGranted(record.scopes, q.wanted.value);
      if !allowed {
        return Err(InvalidRequest);
      }
      scopes := q.wanted.value;
    }
    if q.reply.Unavailable? {
      return Err(ServerError);
    }
    var identity := IdentityFor(record, q.reply).value;
    var token := NewIDToken(q.issuer, q.client, identity.claims, scopes, record.nonce, q.accessToken,
                            record.connectorID);
    if token.Err? {
      return Err(ServerError);
    }
    var slot := SlotOfToken(record);
    var now := q.issuer.now;
    var err := s.UpdateOfflineSessions(slot.session, (session: Session) =>
      if slot.client !in session || session[slot.client].id != record.id then Err(Rejected)
      else Ok(session[slot.client := session[slot.client].(lastUsed := now)]));
    if err.Some? {
      return Err(ServerError);
    }
    err := s.UpdateRefreshToken(record.id, (stored: RefreshToken) =>
      if stored.token != record.token then Err(Rejected) else Ok(Refreshed(stored, q.newToken, identity, now)));
    if err.Some? {
      return Err(ServerError);
    }
    return Ok(TokenResponse(token.value, q.accessToken, Some((record.id, q.newToken))));
  }

  /** Collects the requested scopes that were not granted. */
  method AllGranted(granted: seq<Scope>, wanted: seq<Scope>) returns (ok: bool)
    ensures ok <==> forall w :: w in wanted ==> w in granted
  {
    var unauthorized := [];
    for i := 0 to |wanted|
      invariant unauthorized == [] <==> forall w :: w in wanted[..i] ==> w in granted
    {
      assert wanted[..i + 1] == wanted[..i] + [wanted[i]];
      if wanted[i] !in granted {
        unauthorized := unauthorized + [wanted[i]];
      }
    }
    assert wanted[..|wanted|] == wanted;
    return unauthorized == [];
  }

  // ----- Revoking and listing -----

  method RevokeRefresh(s: MemStorage, slot: Slot) returns (r: Revocation)
    modifies s
    ensures (s.Contents(), r) == RevokeStore(old(s.Contents()), slot)
  {
    if slot.session !in s.sessions || slot.client !in s.sessions[slot.session] {
      return NoReference;
    }
    var id := s.sessions[slot.session][slot.client].id;
    var _ := s.UpdateOfflineSessions(slot.session, (session: Session) => Ok(session - {slot.client}));
    var err := s.DeleteRefresh(id);
    assert err.Some? ==> s.refreshTokens == old(s.refreshTokens);
    return if err.Some? then DeleteFailed else Revoked;
  }

  /** The references of one user and connector, in no particular order. */
  method ListRefresh(s: MemStorage, session: SessionID) returns (refs: seq<RefreshTokenRef>)
    ensures forall ref :: ref in refs <==> exists c :: Ref(s.sessions, Slot(session, c)) == Some(ref)
    ensures |refs| == if session in s.sessions then |s.sessions[session].Keys| else 0
  {
    refs := [];
    if session !in s.sessions {
      return;
    }
    var clients := s.sessions[session];
    var todo := clients.Keys;
    while todo != {}
      invariant todo <= clients.Keys
      invariant |refs| + |todo| == |clients.Keys|
      invariant forall ref :: ref in refs <==> exists c :: c in clients && c !in todo && clients[c] == ref
      decreases |todo|
    {
      var c :| c in todo;
      refs := refs + [clients[c]];
      todo := todo - {c};
    }
    forall c | c in clients ensures Ref(s.sessions, Slot(session, c)) == Some(clients[c]) {}
  }

  // ----- Approval -----

  /** handleApproval and sendCodeResponse: claims the request, then builds the redirect. */
  method HandleApproval(s: MemStorage, q: ApprovalRequest) returns (r: Result<Redirect, HandlerError>)
    requires Supplied(s.Contents(), q)
    modifies s
    ensures (s.Contents(), r) == ApproveStore(old(s.Contents()), q)
  {
    if q.id !in s.authReqs {
      return Err(ServerError);
    }
    var req := s.authReqs[q.id];
    if !req.loggedIn {
      return Err(ServerError);
    }
    if q.issuer.now > req.expiry {
      return Err(SessionError);
    }
    var _ := s.DeleteAuthRequest(q.id);
    var sent := Redirect(None, None);
    ghost var outcome := Respond(s.Contents(), q, req, 0, sent);
    for n := 0 to |req.responseTypes|
      invariant Respond(s.Contents(), q, req, n, sent) == outcome
    {
      match req.responseTypes[n] {
        case WantCode =>
          var id := q.newIDs[n];
          var err := s.CreateAuthCode(NewCode(req, id, q.issuer.now + 30 * MINUTE));
          if err.Some? {
            return Err(ServerError);
          }
          if req.redirectURI == OUT_OF_BAND {
            return Ok(Redirect(Some(id), None));
          }
          sent := sent.(code := Some(id));
        case WantToken =>
        case WantIDToken =>
          var token := NewIDToken(q.issuer, req.clientID, req.claims, req.scopes, req.nonce, q.accessToken,
                                  req.connectorID);
          if token.Err? {
            return Err(ServerError);
          }
          sent := sent.(idToken := Some(token.value));
      }
    }
    return Ok(sent);
  }
}
