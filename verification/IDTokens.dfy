/**
 * ID tokens (dex/server/oauth2.go): which claims, audience and authorizing party a
 * token carries for the scopes it was requested with.
 */
module IDTokens {
  import opened Common
  import opened Scopes
  import opened Storage

  /** The claims of an ID token. The subject encodes the user and the connector. */
  datatype IDToken = IDToken(
    user: UserID, connector: ConnectorID, audience: seq<ClientID>, authorizingParty: Option<ClientID>,
    nonce: Nonce, accessToken: ID, issuedAt: Time, expiry: Time,
    email: Option<(string, bool)>, groups: Option<seq<string>>, name: Option<string>,
    federated: Option<(ConnectorID, UserID)>)

  datatype TokenError = NoSigningKey | Untrusted(peer: ClientID)

  /** What issuing a token depends on besides its arguments. */
  datatype Issuer = Issuer(clients: map<ClientID, Client>, hasKey: bool, now: Time, validFor: Time)

  /** Does the peer let the client request tokens on its behalf? Clients trust themselves. */
  predicate Trusts(clients: map<ClientID, Client>, client: ClientID, peer: ClientID) {
    peer == client || (peer in clients && client in clients[peer].trustedPeers)
  }

  /** The peers named by the scopes, in order. */
  function Peers(scopes: seq<Scope>): (r: seq<ClientID>) {
    if scopes == [] then []
    else if Last(scopes).CrossClient? then Peers(scopes[..|scopes| - 1]) + [Last(scopes).peer]
    else Peers(scopes[..|scopes| - 1])
  }

  lemma {:induction false} PeersMembers(scopes: seq<Scope>, peer: ClientID)
    ensures peer in Peers(scopes) <==> CrossClient(peer) in scopes
  {
    if scopes != [] {
      var front := scopes[..|scopes| - 1];
      PeersMembers(front, peer);
      assert scopes == front + [Last(scopes)];
    }
  }

  function Audience(client: ClientID, scopes: seq<Scope>): (r: seq<ClientID>) {
    var peers := Peers(scopes);
    if peers == [] then [client] else if client in peers then peers else peers + [client]
  }

  /** The token for an authenticated user, or the first reason not to issue one. */
  function Issue(i: Issuer, client: ClientID, claims: Claims, scopes: seq<Scope>, nonce: Nonce, accessToken: ID,
                 connector: ConnectorID): (r: Result<IDToken, TokenError>)
  {
    if !i.hasKey then Err(NoSigningKey)
    else match FirstUntrusted(i.clients, client, Peers(scopes))
         case Some(peer) => Err(Untrusted(peer))
         case None =>
           Ok(IDToken(claims.userID, connector, Audience(client, scopes),
                      if Peers(scopes) == [] then None else Some(client),
                      nonce, accessToken, i.now, i.now + i.validFor,
                      if Email in scopes then Some((claims.email, claims.emailVerified)) else None,
                      if Groups in scopes then Some(claims.groups) else None,
                      if Profile in scopes then Some(claims.username) else None,
                      if FederatedID in scopes then Some((connector, claims.userID)) else None))
  }

  function FirstUntrusted(clients: map<ClientID, Client>, client: ClientID, peers: seq<ClientID>): (r: Option<ClientID>)
    ensures r.None? <==> forall p :: p in peers ==> Trusts(clients, client, p)
    ensures r.Some? ==> r.value in peers && !Trusts(clients, client, r.value)
  {
    if peers == [] then None
    else
      var front := FirstUntrusted(clients, client, peers[..|peers| - 1]);
      if front.Some? then front
      else if Trusts(clients, client, Last(peers)) then None
      else Some(Last(peers))
  }

  /** What one scope adds to a token under construction. */
  function AddScope(tok: IDToken, claims: Claims, connector: ConnectorID, scope: Scope): (r: IDToken) {
    match scope
    case Email => tok.(email := Some((claims.email, claims.emailVerified)))
    case Groups => tok.(groups := Some(claims.groups))
    case Profile => tok.(name := Some(claims.username))
    case FederatedID => tok.(federated := Some((connector, claims.userID)))
    case CrossClient(peer) => tok.(audience := tok.audience + [peer])
    case _ => tok
  }

  function AddScopes(tok: IDToken, claims: Claims, connector: ConnectorID, scopes: seq<Scope>): (r: IDToken) {
    if scopes == [] then tok
    else AddScope(AddScopes(tok, claims, connector, scopes[..|scopes| - 1]), claims, connector, Last(scopes))
  }

  /** Each claim is present exactly when its scope is, and the audience lists the peers in order. */
  lemma {:induction false} AddScopesForm(tok: IDToken, claims: Claims, connector: ConnectorID, scopes: seq<Scope>)
    requires tok.audience == [] && tok.email.None? && tok.groups.None? && tok.name.None? && tok.federated.None?
    ensures AddScopes(tok, claims, connector, scopes) ==
            tok.(audience := Peers(scopes),
                 email := if Email in scopes then Some((claims.email, claims.emailVerified)) else None,
                 groups := if Groups in scopes then Some(claims.groups) else None,
                 name := if Profile in scopes then Some(claims.username) else None,
                 federated := if FederatedID in scopes then Some((connector, claims.userID)) else None)
  {
    if scopes != [] {
      var front := scopes[..|scopes| - 1];
      AddScopesForm(tok, claims, connector, front);
      assert scopes == front + [Last(scopes)];
      assert forall x :: x in scopes <==> x in front || x == Last(scopes);
    }
  }

  /** Looks the peer up and searches its trusted peers; an unknown peer trusts nobody. */
  method ValidateCrossClientTrust(clients: map<ClientID, Client>, client: ClientID, peer: ClientID)
    returns (trusted: bool)
    ensures trusted <==>
            peer == client || (peer in clients && exists n :: 0 <= n < |clients[peer].trustedPeers|
                                                              && clients[peer].trustedPeers[n] == client)
    ensures trusted == Trusts(clients, client, peer)
  {
    if peer == client { return true; }
    if peer !in clients { return false; }
    var peers := clients[peer].trustedPeers;
    for n := 0 to |peers|
      invariant forall m :: 0 <= m < n ==> peers[m] != client
    {
      if peers[n] == client { return true; }
    }
    return false;
  }

  /** Adds one scope to the token, unless it names a peer that does not trust the client. */
  method ApplyScope(clients: map<ClientID, Client>, client: ClientID, claims: Claims, connector: ConnectorID,
                    tok: IDToken, scope: Scope) returns (r: Result<IDToken, TokenError>)
    ensures r == if scope.CrossClient? && !Trusts(clients, client, scope.peer) then Err(Untrusted(scope.peer))
                 else Ok(AddScope(tok, claims, connector, scope))
  {
    match scope {
      case Email => return Ok(tok.(email := Some((claims.email, claims.emailVerified))));
      case Groups => return Ok(tok.(groups := Some(claims.groups)));
      case Profile => return Ok(tok.(name := Some(claims.username)));
      case FederatedID => return Ok(tok.(federated := Some((connector, claims.userID))));
      case CrossClient(peer) =>
        var trusted := ValidateCrossClientTrust(clients, client, peer);
        if !trusted {
          return Err(Untrusted(peer));
        }
        return Ok(tok.(audience := tok.audience + [peer]));
      case _ => return Ok(tok);
    }
  }

  /** Builds the token claim by claim while looping over the scopes. */
  method NewIDToken(i: Issuer, client: ClientID, claims: Claims, scopes: seq<Scope>, nonce: Nonce, accessToken: ID,
                    connector: ConnectorID) returns (r: Result<IDToken, TokenError>)
    ensures r == Issue(i, client, claims, scopes, nonce, accessToken, connector)
  {
    if !i.hasKey {
      return Err(NoSigningKey);
    }
    var start := IDToken(claims.userID, connector, [], None, nonce, accessToken, i.now, i.now + i.validFor,
                         None, None, None, None);
    var tok := start;
    for n := 0 to |scopes|
      invariant tok == AddScopes(start, claims, connector, scopes[..n])
      invariant FirstUntrusted(i.clients, client, Peers(scopes[..n])).None?
    {
      var scope := scopes[n];
      ghost var done := scopes[..n + 1];
      assert done[..|done| - 1] == scopes[..n] && Last(done) == scope;
      assert AddScopes(start, claims, connector, done) == AddScope(tok, claims, connector, scope);
      var added := ApplyScope(i.clients, client, claims, connector, tok, scope);
      if added.Err? {
        FirstUntrustedExtends(i.clients, client, Peers(scopes[..n]), scope.peer, scopes, n);
        return added;
      }
      tok := added.value;
      KeepsTrusted(i.clients, client, scopes[..n], scope);
      assert done == scopes[..n] + [scope];
    }
    assert scopes[..|scopes|] == scopes;
    AddScopesForm(start, claims, connector, scopes);
    if tok.audience == [] {
      tok := tok.(audience := [client]);
    } else {
      if client !in tok.audience {
        tok := tok.(audience := tok.audience + [client]);
      }
      tok := tok.(authorizingParty := Some(client));
    }
    return Ok(tok);
  }

  lemma KeepsTrusted(clients: map<ClientID, Client>, client: ClientID, front: seq<Scope>, scope: Scope)
    requires FirstUntrusted(clients, client, Peers(front)).None?
    requires scope.CrossClient? ==> Trusts(clients, client, scope.peer)
    ensures FirstUntrusted(clients, client, Peers(front + [scope])).None?
  {
    assert (front + [scope])[..|front|] == front && Last(front + [scope]) == scope;
  }

  /** The first untrusted peer stays the first one however many scopes follow. */
  lemma {:induction false} FirstUntrustedExtends(clients: map<ClientID, Client>, client: ClientID, front: seq<ClientID>,
                                                 peer: ClientID, scopes: seq<Scope>, n: nat)
    requires n < |scopes| && front == Peers(scopes[..n]) && scopes[n] == CrossClient(peer)
    requires FirstUntrusted(clients, client, front).None? && !Trusts(clients, client, peer)
    ensures FirstUntrusted(clients, client, Peers(scopes)) == Some(peer)
    decreases |scopes|
  {
    var init := scopes[..|scopes| - 1];
    if n == |scopes| - 1 {
      assert Peers(scopes)[..|Peers(scopes)| - 1] == front;
    } else {
      assert init[..n] == scopes[..n];
      FirstUntrustedExtends(clients, client, front, peer, init, n);
      if Last(scopes).CrossClient? {
        assert Peers(scopes)[..|Peers(scopes)| - 1] == Peers(init);
      }
    }
  }

  /**
   * An issued token is for the client and exactly the requested peers, all of which
   * trust the client; the client is the authorizing party when peers were requested.
   */
  lemma AudienceIsClientAndTrustedPeers(i: Issuer, client: ClientID, claims: Claims, scopes: seq<Scope>, nonce: Nonce,
                                        accessToken: ID, connector: ConnectorID)
    ensures var r := Issue(i, client, claims, scopes, nonce, accessToken, connector);
            && (r.Ok? <==> i.hasKey && forall p :: CrossClient(p) in scopes ==> Trusts(i.clients, client, p))
            && (r.Ok? ==>
                  && (forall p :: p in r.value.audience <==> p == client || CrossClient(p) in scopes)
                  && (r.value.authorizingParty == Some(client) <==> exists p :: CrossClient(p) in scopes)
                  && (r.value.authorizingParty.None? <==> !exists p :: CrossClient(p) in scopes))
  {
    forall p ensures p in Peers(scopes) <==> CrossClient(p) in scopes {
      PeersMembers(scopes, p);
    }
    if Peers(scopes) != [] {
      assert CrossClient(Peers(scopes)[0]) in scopes;
    }
  }

  // ----- What an issued token says -----

  /** There is a key, and every requested peer trusts the client. */
  ghost predicate CanIssue(i: Issuer, client: ClientID, scopes: seq<Scope>) {
    i.hasKey && forall p :: CrossClient(p) in scopes ==> Trusts(i.clients, client, p)
  }

  /** A claim is present exactly when its scope was requested, and then holds the user's value. */
  ghost predicate ClaimOK<T>(claim: Option<T>, scope: Scope, scopes: seq<Scope>, value: T) {
    (claim.Some? <==> scope in scopes) && (claim.Some? ==> claim.value == value)
  }

  /** The token names its user, connector, audience, nonce, access token, lifetime and requested claims. */
  ghost predicate Describes(tok: IDToken, i: Issuer, client: ClientID, claims: Claims, scopes: seq<Scope>, nonce: Nonce,
                            accessToken: ID, connector: ConnectorID) {
    && tok.user == claims.userID && tok.connector == connector
    && tok.nonce == nonce && tok.accessToken == accessToken
    && tok.issuedAt == i.now && tok.expiry - tok.issuedAt == i.validFor
    && (forall p :: p in tok.audience <==> p == client || CrossClient(p) in scopes)
    && (tok.authorizingParty == Some(client) <==> exists p :: CrossClient(p) in scopes)
    && (tok.authorizingParty.None? <==> !exists p :: CrossClient(p) in scopes)
    && ClaimOK(tok.email, Email, scopes, (claims.email, claims.emailVerified))
    && ClaimOK(tok.groups, Groups, scopes, claims.groups)
    && ClaimOK(tok.name, Profile, scopes, claims.username)
    && ClaimOK(tok.federated, FederatedID, scopes, (connector, claims.userID))
  }

  /** The first scope that names a peer which does not trust the client. */
  ghost predicate FirstDistrust(clients: map<ClientID, Client>, client: ClientID, scopes: seq<Scope>, n: nat) {
    && n < |scopes| && scopes[n].CrossClient? && !Trusts(clients, client, scopes[n].peer)
    && forall m :: 0 <= m < n && scopes[m].CrossClient? ==> Trusts(clients, client, scopes[m].peer)
  }

  lemma TrustedPeers(clients: map<ClientID, Client>, client: ClientID, scopes: seq<Scope>, m: nat)
    requires FirstUntrusted(clients, client, Peers(scopes)).None? && m < |scopes| && scopes[m].CrossClient?
    ensures Trusts(clients, client, scopes[m].peer)
  {
    PeersMembers(scopes, scopes[m].peer);
    assert CrossClient(scopes[m].peer) == scopes[m];
  }

  /** Of the peers that do not trust the client, the first in the list is found. */
  lemma {:induction false} DistrustIsFirst(clients: map<ClientID, Client>, client: ClientID, scopes: seq<Scope>)
    returns (n: nat)
    requires FirstUntrusted(clients, client, Peers(scopes)).Some?
    ensures FirstDistrust(clients, client, scopes, n)
    ensures FirstUntrusted(clients, client, Peers(scopes)) == Some(scopes[n].peer)
  {
    var init := scopes[..|scopes| - 1];
    PeersGrow(clients, client, scopes);
    if FirstUntrusted(clients, client, Peers(init)).Some? {
      n := DistrustIsFirst(clients, client, init);
    } else {
      n := |init|;
      forall m | 0 <= m < n && scopes[m].CrossClient? ensures Trusts(clients, client, scopes[m].peer) {
        TrustedPeers(clients, client, init, m);
      }
    }
  }

  lemma PeersGrow(clients: map<ClientID, Client>, client: ClientID, scopes: seq<Scope>)
    requires scopes != []
    ensures var init := FirstUntrusted(clients, client, Peers(scopes[..|scopes| - 1]));
            FirstUntrusted(clients, client, Peers(scopes)) ==
            if init.Some? then init
            else if Last(scopes).CrossClient? && !Trusts(clients, client, Last(scopes).peer)
            then Some(Last(scopes).peer) else None
  {
    if Last(scopes).CrossClient? {
      assert Peers(scopes)[..|Peers(scopes)| - 1] == Peers(scopes[..|scopes| - 1]);
    }
  }

  /** A token is issued exactly when it can be, says what it should, and otherwise the first obstacle is named. */
  lemma IssuedTokenDescribes(i: Issuer, client: ClientID, claims: Claims, scopes: seq<Scope>, nonce: Nonce,
                             accessToken: ID, connector: ConnectorID)
    ensures var r := Issue(i, client, claims, scopes, nonce, accessToken, connector);
            && (r.Ok? <==> CanIssue(i, client, scopes))
            && (r.Ok? ==> Describes(r.value, i, client, claims, scopes, nonce, accessToken, connector))
            && (r == Err(NoSigningKey) <==> !i.hasKey)
            && (r.Err? && i.hasKey ==>
                  exists n: nat ::
                    FirstDistrust(i.clients, client, scopes, n) && r.error == Untrusted(scopes[n].peer))
  {
    AudienceIsClientAndTrustedPeers(i, client, claims, scopes, nonce, accessToken, connector);
    if FirstUntrusted(i.clients, client, Peers(scopes)).Some? {
      var n := DistrustIsFirst(i.clients, client, scopes);
    }
  }
}
