/**
 * The stored records of dex (dex/storage/storage.go) and the locked in-memory
 * store (dex/storage/memory/memory.go). Values that the server only carries or
 * compares are numbers.
 */
module Storage {
  import opened Common
  import opened Scopes

  type UserID = nat
  type ConnectorID = nat
  type URI = nat
  type Nonce = nat
  type ConnectorData = nat

  datatype StorageError = NotFound | AlreadyExists | Rejected

  datatype Client = Client(id: ClientID, secret: string, redirectURIs: seq<URI>, trustedPeers: seq<ClientID>,
                           isPublic: bool)

  datatype Claims = Claims(userID: UserID, username: string, email: string, emailVerified: bool, groups: seq<string>)

  datatype ResponseType = WantCode | WantToken | WantIDToken

  datatype AuthRequest = AuthRequest(
    id: ID, clientID: ClientID, responseTypes: seq<ResponseType>, scopes: seq<Scope>, redirectURI: URI, nonce: Nonce,
    expiry: Time, loggedIn: bool, claims: Claims, connectorID: ConnectorID, connectorData: ConnectorData)

  datatype AuthCode = AuthCode(
    id: ID, clientID: ClientID, redirectURI: URI, nonce: Nonce, scopes: seq<Scope>,
    connectorID: ConnectorID, connectorData: ConnectorData, claims: Claims, expiry: Time)

  datatype RefreshToken = RefreshToken(
    id: ID, token: ID, createdAt: Time, lastUsed: Time, clientID: ClientID,
    connectorID: ConnectorID, connectorData: ConnectorData, claims: Claims, scopes: seq<Scope>, nonce: Nonce)

  datatype RefreshTokenRef = RefreshTokenRef(id: ID, clientID: ClientID, createdAt: Time, lastUsed: Time)

  datatype SessionID = SessionID(userID: UserID, connID: ConnectorID)

  /** The offline sessions of one user and connector: one reference per client. */
  type Session = map<ClientID, RefreshTokenRef>

  datatype Store = Store(
    authReqs: map<ID, AuthRequest>,
    authCodes: map<ID, AuthCode>,
    refreshTokens: map<ID, RefreshToken>,
    sessions: map<SessionID, Session>)

  const EMPTY: Store := Store(map[], map[], map[], map[])

  function LiveRequests(m: map<ID, AuthRequest>, now: Time): (r: map<ID, AuthRequest>) {
    map id | id in m && now <= m[id].expiry :: m[id]
  }

  function LiveCodes(m: map<ID, AuthCode>, now: Time): (r: map<ID, AuthCode>) {
    map id | id in m && now <= m[id].expiry :: m[id]
  }

  function Collected(st: Store, now: Time): (r: Store) {
    st.(authReqs := LiveRequests(st.authReqs, now), authCodes := LiveCodes(st.authCodes, now))
  }

  /** The in-memory store. Every method is one critical section of the source's lock. */
  class MemStorage {
    var authReqs: map<ID, AuthRequest>
    var authCodes: map<ID, AuthCode>
    var refreshTokens: map<ID, RefreshToken>
    var sessions: map<SessionID, Session>

    ghost function Contents(): (r: Store)
      reads this
    {
      Store(authReqs, authCodes, refreshTokens, sessions)
    }

    constructor ()
      ensures Contents() == EMPTY
    {
      authReqs, authCodes, refreshTokens, sessions := map[], map[], map[], map[];
    }

    method CreateAuthRequest(a: AuthRequest) returns (err: Option<StorageError>)
      modifies this`authReqs
      ensures err == if a.id in old(authReqs) then Some(AlreadyExists) else None
      ensures authReqs == if a.id in old(authReqs) then old(authReqs) else old(authReqs)[a.id := a]
    {
      if a.id in authReqs { return Some(AlreadyExists); }
      authReqs := authReqs[a.id := a];
      return None;
    }

    method CreateAuthCode(c: AuthCode) returns (err: Option<StorageError>)
      modifies this`authCodes
      ensures err == if c.id in old(authCodes) then Some(AlreadyExists) else None
      ensures authCodes == if c.id in old(authCodes) then old(authCodes) else old(authCodes)[c.id := c]
    {
      if c.id in authCodes { return Some(AlreadyExists); }
      authCodes := authCodes[c.id := c];
      return None;
    }

    method CreateRefresh(r: RefreshToken) returns (err: Option<StorageError>)
      modifies this`refreshTokens
      ensures err == if r.id in old(refreshTokens) then Some(AlreadyExists) else None
      ensures refreshTokens == if r.id in old(refreshTokens) then old(refreshTokens) else old(refreshTokens)[r.id := r]
    {
      if r.id in refreshTokens { return Some(AlreadyExists); }
      refreshTokens := refreshTokens[r.id := r];
      return None;
    }

    method CreateOfflineSessions(id: SessionID, session: Session) returns (err: Option<StorageError>)
      modifies this`sessions
      ensures err == if id in old(sessions) then Some(AlreadyExists) else None
      ensures sessions == if id in old(sessions) then old(sessions) else old(sessions)[id := session]
    {
      if id in sessions { return Some(AlreadyExists); }
      sessions := sessions[id := session];
      return None;
    }

    method DeleteAuthRequest(id: ID) returns (err: Option<StorageError>)
      modifies this`authReqs
      ensures err == if id in old(authReqs) then None else Some(NotFound)
      ensures authReqs == old(authReqs) - {id}
    {
      if id !in authReqs { return Some(NotFound); }
      authReqs := authReqs - {id};
      return None;
    }

    method DeleteAuthCode(id: ID) returns (err: Option<StorageError>)
      modifies this`authCodes
      ensures err == if id in old(authCodes) then None else Some(NotFound)
      ensures authCodes == old(authCodes) - {id}
    {
      if id !in authCodes { return Some(NotFound); }
      authCodes := authCodes - {id};
      return None;
    }

    method DeleteRefresh(id: ID) returns (err: Option<StorageError>)
      modifies this`refreshTokens
      ensures err == if id in old(refreshTokens) then None else Some(NotFound)
      ensures refreshTokens == old(refreshTokens) - {id}
    {
      if id !in refreshTokens { return Some(NotFound); }
      refreshTokens := refreshTokens - {id};
      return None;
    }

    method UpdateAuthRequest(id: ID, updater: AuthRequest -> Result<AuthRequest, StorageError>)
      returns (err: Option<StorageError>)
      modifies this`authReqs
      ensures err == if id !in old(authReqs) then Some(NotFound)
                     else match updater(old(authReqs)[id]) case Ok(_) => None case Err(e) => Some(e)
      ensures authReqs == if err.None? then old(authReqs)[id := updater(old(authReqs)[id]).value] else old(authReqs)
    {
      if id !in authReqs { return Some(NotFound); }
      var updated := updater(authReqs[id]);
      if updated.Err? { return Some(updated.error); }
      authReqs := authReqs[id := updated.value];
      return None;
    }

    method UpdateRefreshToken(id: ID, updater: RefreshToken -> Result<RefreshToken, StorageError>)
      returns (err: Option<StorageError>)
      modifies this`refreshTokens
      ensures err == if id !in old(refreshTokens) then Some(NotFound)
                     else match updater(old(refreshTokens)[id]) case Ok(_) => None case Err(e) => Some(e)
      ensures refreshTokens ==
              if err.None? then old(refreshTokens)[id := updater(old(refreshTokens)[id]).value] else old(refreshTokens)
    {
      if id !in refreshTokens { return Some(NotFound); }
      var updated := updater(refreshTokens[id]);
      if updated.Err? { return Some(updated.error); }
      refreshTokens := refreshTokens[id := updated.value];
      return None;
    }

    method UpdateOfflineSessions(id: SessionID, updater: Session -> Result<Session, StorageError>)
      returns (err: Option<StorageError>)
      modifies this`sessions
      ensures err == if id !in old(sessions) then Some(NotFound)
                     else match updater(old(sessions)[id]) case Ok(_) => None case Err(e) => Some(e)
      ensures sessions == if err.None? then old(sessions)[id := updater(old(sessions)[id]).value] else old(sessions)
    {
      if id !in sessions { return Some(NotFound); }
      var updated := updater(sessions[id]);
      if updated.Err? { return Some(updated.error); }
      sessions := sessions[id := updated.value];
      return None;
    }

    method CollectAuthCodes(now: Time) returns (deleted: nat)
      modifies this`authCodes
      ensures authCodes == LiveCodes(old(authCodes), now)
      ensures deleted == |old(authCodes).Keys| - |authCodes.Keys|
    {
      deleted := 0;
      var todo := authCodes.Keys;
      while todo != {}
        invariant todo <= authCodes.Keys <= old(authCodes).Keys
        invariant forall id :: id in authCodes ==> authCodes[id] == old(authCodes)[id]
        invariant forall id :: id in old(authCodes) && id !in todo ==>
                  (id in authCodes <==> now <= old(authCodes)[id].expiry)
        invariant deleted == |old(authCodes).Keys| - |authCodes.Keys|
        decreases |todo|
      {
        var id :| id in todo;
        todo := todo - {id};
        if now > authCodes[id].expiry {
          ghost var before := authCodes.Keys;
          authCodes := authCodes - {id};
          assert authCodes.Keys == before - {id};
          deleted := deleted + 1;
        }
      }
    }

    method CollectAuthRequests(now: Time) returns (deleted: nat)
      modifies this`authReqs
      ensures authReqs == LiveRequests(old(authReqs), now)
      ensures deleted == |old(authReqs).Keys| - |authReqs.Keys|
    {
      deleted := 0;
      var todo := authReqs.Keys;
      while todo != {}
        invariant todo <= authReqs.Keys <= old(authReqs).Keys
        invariant forall id :: id in authReqs ==> authReqs[id] == old(authReqs)[id]
        invariant forall id :: id in old(authReqs) && id !in todo ==>
                  (id in authReqs <==> now <= old(authReqs)[id].expiry)
        invariant deleted == |old(authReqs).Keys| - |authReqs.Keys|
        decreases |todo|
      {
        var id :| id in todo;
        todo := todo - {id};
        if now > authReqs[id].expiry {
          ghost var before := authReqs.Keys;
          authReqs := authReqs - {id};
          assert authReqs.Keys == before - {id};
          deleted := deleted + 1;
        }
      }
    }

    /** Deletes what has expired while iterating over both tables, and counts the deletions. */
    method GarbageCollect(now: Time) returns (requests: nat, codes: nat)
      modifies this
      ensures Contents() == Collected(old(Contents()), now)
      ensures codes == |old(authCodes).Keys| - |authCodes.Keys|
      ensures requests == |old(authReqs).Keys| - |authReqs.Keys|
    {
      codes := CollectAuthCodes(now);
      requests := CollectAuthRequests(now);
    }
  }
}
