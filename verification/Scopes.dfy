/** OAuth2 scopes as the server reads them (dex/server/oauth2.go). */
module Scopes {

  type ClientID = string

  datatype Scope =
    | OfflineAccess
    | OpenID
    | Groups
    | Email
    | Profile
    | FederatedID
    | CrossClient(peer: ClientID)
    | Unrecognized(text: string)

  const CROSS_CLIENT_PREFIX: string := "audience:server:client_id:"

  /** The scope that a scope string denotes. */
  function Parse(text: string): (r: Scope)
    ensures Text(r) == text
  {
    if text == "offline_access" then OfflineAccess
    else if text == "openid" then OpenID
    else if text == "groups" then Groups
    else if text == "email" then Email
    else if text == "profile" then Profile
    else if text == "federated:id" then FederatedID
    else if CROSS_CLIENT_PREFIX <= text then CrossClient(text[|CROSS_CLIENT_PREFIX|..])
    else Unrecognized(text)
  }

  function Text(scope: Scope): (r: string) {
    match scope
    case OfflineAccess => "offline_access"
    case OpenID => "openid"
    case Groups => "groups"
    case Email => "email"
    case Profile => "profile"
    case FederatedID => "federated:id"
    case CrossClient(peer) => CROSS_CLIENT_PREFIX + peer
    case Unrecognized(text) => text
  }

  /** Comparing scope strings is comparing scopes, and every peer can be named. */
  lemma ParseIsInjective(a: string, b: string, peer: ClientID)
    ensures Parse(a) == Parse(b) <==> a == b
    ensures Parse(CROSS_CLIENT_PREFIX + peer) == CrossClient(peer)
  {
    assert Text(Parse(a)) == a && Text(Parse(b)) == b;
    var text := CROSS_CLIENT_PREFIX + peer;
    assert text[|CROSS_CLIENT_PREFIX|..] == peer;
    assert text[0] == 'a' && text[1] == 'u';
  }
}
