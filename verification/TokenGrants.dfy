/**
 * What a grant keeps: along any chain from an accepted request through its code to a
 * refresh token and refreshed ID tokens, the client, the nonce and the stored user
 * stay the same, scopes never widen, and the audience follows from the scopes.
 */
module TokenGrants {
  import opened Common
  import opened Scopes
  import opened Storage
  import opened IDTokens
  import opened TokenProtocol

  /** What is on record about grants: requests as accepted and as approved, and where codes and tokens stem from. */
  datatype Book = Book(accepted: map<ID, AuthRequest>, approved: map<ID, AuthRequest>, origins: map<ID, Grant>)

  function BookOf(s: State): (r: Book) {
    Book(s.requests.accepted, s.requests.approved, s.grants.origins)
  }

  /** The client, nonce and scopes of the accepted request. */
  ghost predicate FromRequest(b: Book, id: ID, client: ClientID, nonce: Nonce, scopes: seq<Scope>) {
    && id in b.accepted
    && b.accepted[id].clientID == client
    && b.accepted[id].nonce == nonce
    && b.accepted[id].scopes == scopes
  }

  ghost predicate RequestOK(b: Book, req: AuthRequest) {
    FromRequest(b, req.id, req.clientID, req.nonce, req.scopes)
  }

  /** The user who was logged in when the request was approved. */
  ghost predicate ApprovedFor(b: Book, id: ID, user: UserID) {
    id in b.approved && b.approved[id].claims.userID == user
  }

  ghost predicate GrantOK(b: Book, id: ID, user: UserID, client: ClientID, nonce: Nonce, scopes: seq<Scope>) {
    && id in b.origins
    && b.origins[id].user == user
    && ApprovedFor(b, b.origins[id].request, user)
    && FromRequest(b, b.origins[id].request, client, nonce, scopes)
  }

  ghost predicate CodeOK(b: Book, c: AuthCode) {
    GrantOK(b, c.id, c.claims.userID, c.clientID, c.nonce, c.scopes)
  }

  ghost predicate RefreshOK(b: Book, r: RefreshToken) {
    GrantOK(b, r.id, r.claims.userID, r.clientID, r.nonce, r.scopes)
  }

  /** The scopes name some peer. */
  ghost predicate AsksForPeers(scopes: seq<Scope>) {
    exists p :: CrossClient(p) in scopes
  }

  /**
   * The token carries the nonce and is meant for the client and the peers that the scopes
   * name, all of which trusted the client when it was made, and it is for the user who was named.
   */
  ghost predicate Fits(m: Minted, client: ClientID, nonce: Nonce, scopes: seq<Scope>) {
    && m.token.nonce == nonce && m.token.user == m.user
    && (forall p :: p in m.token.audience <==> p == client || CrossClient(p) in scopes)
    && (forall p :: CrossClient(p) in scopes ==> Trusts(m.clients, client, p))
    && m.token.authorizingParty == if AsksForPeers(scopes) then Some(client) else None
  }

  lemma IssueFits(i: Issuer, client: ClientID, claims: Claims, scopes: seq<Scope>, nonce: Nonce, accessToken: ID,
                  connector: ConnectorID)
    ensures var r := Issue(i, client, claims, scopes, nonce, accessToken, connector);
            r.Ok? ==> Fits(Minted(r.value, i.clients, claims.userID), client, nonce, scopes)
  {
    AudienceIsClientAndTrustedPeers(i, client, claims, scopes, nonce, accessToken, connector);
  }

  /** The accepted request that an issued token descends from. */
  function RequestOf(b: Book, grant: ID): (r: ID) {
    if grant in b.origins then b.origins[grant].request else grant
  }

  ghost predicate IssuedOK(b: Book, i: Issued) {
    var id := RequestOf(b, i.grant);
    && id in b.accepted && id in b.approved
    && i.client == b.accepted[id].clientID
    && (forall x :: x in i.scopes ==> x in b.accepted[id].scopes)
    && Fits(i.minted, i.client, b.accepted[id].nonce, i.scopes)
    && (!i.channel.ByRefresh? ==> ApprovedFor(b, id, i.minted.user))
  }

  ghost predicate ThreadOK(b: Book, th: Thread) {
    match th
    case Approval(req, accessToken, _, idToken) =>
      && RequestOK(b, req)
      && (accessToken.Some? ==> ApprovedFor(b, req.id, req.claims.userID))
      && (idToken.Some? ==>
            && Fits(idToken.value, req.clientID, req.nonce, req.scopes)
            && accessToken.Some? && idToken.value.user == req.claims.userID)
    case Exchange(_, code, minted, _) =>
      CodeOK(b, code) && Fits(minted, code.clientID, code.nonce, code.scopes) && minted.user == code.claims.userID
    case Refresh(_, record, response, scopes, _, _) =>
      && RefreshOK(b, record)
      && (forall x :: x in scopes ==> x in record.scopes)
      && Fits(response, record.clientID, record.nonce, scopes)
    case Revoke(_) => true
  }

  ghost predicate IDsInv(s: State) {
    && (forall id :: id in s.requests.accepted ==> id in s.used && id !in s.grants.origins)
    && (forall id :: id in s.grants.origins ==> id in s.used)
    && (forall id :: id in s.requests.approved ==> id in s.used && id !in s.store.authReqs)
    && (forall id :: id in s.store.authReqs ==> s.store.authReqs[id].id == id)
  }

  ghost predicate StoreOK(b: Book, st: Store) {
    && (forall id :: id in st.authReqs ==> RequestOK(b, st.authReqs[id]))
    && (forall id :: id in st.authCodes ==> CodeOK(b, st.authCodes[id]))
    && (forall id :: id in st.refreshTokens ==> RefreshOK(b, st.refreshTokens[id]))
  }

  ghost predicate ThreadsOK(b: Book, threads: map<nat, Thread>) {
    forall t :: t in threads ==> ThreadOK(b, threads[t])
  }

  ghost predicate SentOK(b: Book, issued: seq<Issued>) {
    forall i :: i in issued ==> IssuedOK(b, i)
  }

  ghost predicate GrantInv(s: State) {
    && IDsInv(s)
    && StoreOK(BookOf(s), s.store)
    && ThreadsOK(BookOf(s), s.threads)
    && SentOK(BookOf(s), s.grants.issued)
  }

  // ----- A growing book -----

  /** Nothing on record is changed or forgotten, and requests do not become codes. */
  ghost predicate Extends(b: Book, c: Book) {
    && (forall id :: id in b.accepted ==> id in c.accepted && c.accepted[id] == b.accepted[id] && id !in c.origins)
    && (forall id :: id in b.approved ==> id in c.approved && c.approved[id] == b.approved[id])
    && (forall id :: id in b.origins ==> id in c.origins && c.origins[id] == b.origins[id])
  }

  lemma ExtendsKeepsThread(b: Book, c: Book, th: Thread)
    requires Extends(b, c) && ThreadOK(b, th)
    ensures ThreadOK(c, th)
  {
  }

  lemma ExtendsKeepsIssued(b: Book, c: Book, i: Issued)
    requires Extends(b, c) && IssuedOK(b, i)
    ensures IssuedOK(c, i)
  {
  }

  lemma ExtendsKeepsStore(b: Book, c: Book, st: Store)
    requires Extends(b, c) && StoreOK(b, st)
    ensures StoreOK(c, st)
  {
  }

  lemma ExtendsKeepsAll(b: Book, s: State)
    requires GrantInv(s) && Extends(BookOf(s), b)
    ensures StoreOK(b, s.store) && ThreadsOK(b, s.threads) && SentOK(b, s.grants.issued)
  {
    ExtendsKeepsStore(BookOf(s), b, s.store);
    forall t | t in s.threads ensures ThreadOK(b, s.threads[t]) { ExtendsKeepsThread(BookOf(s), b, s.threads[t]); }
    forall i | i in s.grants.issued ensures IssuedOK(b, i) { ExtendsKeepsIssued(BookOf(s), b, i); }
  }

  // ----- Steps that leave the book alone -----

  /** Stored records at most disappear. */
  ghost predicate Shrinks(st: Store, r: Store) {
    && (forall id :: id in r.authReqs ==> id in st.authReqs && r.authReqs[id] == st.authReqs[id])
    && (forall id :: id in r.authCodes ==> id in st.authCodes && r.authCodes[id] == st.authCodes[id])
    && (forall id :: id in r.refreshTokens ==>
                       id in st.refreshTokens && r.refreshTokens[id] == st.refreshTokens[id])
  }

  /** Thread t, if it goes on, stays within its grant; the others do not move. */
  ghost predicate Moves(s: State, r: State, t: nat) {
    && (forall u :: u in r.threads && u != t ==> u in s.threads && r.threads[u] == s.threads[u])
    && (t in r.threads ==> ThreadOK(BookOf(s), r.threads[t]))
  }

  /** A step that stores nothing and sends at most a token that is within its grant. */
  lemma QuietKeepsGrants(s: State, r: State, t: nat)
    requires GrantInv(s) && BookOf(r) == BookOf(s) && s.used <= r.used && Shrinks(s.store, r.store) && Moves(s, r, t)
    requires forall i :: i in r.grants.issued ==> i in s.grants.issued || IssuedOK(BookOf(s), i)
    ensures GrantInv(r)
  {
  }

  lemma ApprovalGetKeepsGrants(s: State, t: nat, id: ID)
    requires GrantInv(s)
    ensures GrantInv(DoApprovalGet(s, t, id))
  {
    QuietKeepsGrants(s, DoApprovalGet(s, t, id), t);
  }

  /** An approval with the ID token it just made. */
  lemma ApprovalTokenFits(b: Book, th: Thread, types: seq<ResponseType>, issuer: Issuer)
    requires th.Approval? && th.accessToken.Some? && ThreadOK(b, th)
    ensures var req := th.req;
            var token := Issue(issuer, req.clientID, req.claims, req.scopes, req.nonce, th.accessToken.value,
                               req.connectorID);
            && ThreadOK(b, th.(types := types))
            && (token.Ok? ==>
                  var minted := Minted(token.value, issuer.clients, req.claims.userID);
                  ThreadOK(b, th.(types := types, idToken := Some(minted))))
  {
    var req := th.req;
    IssueFits(issuer, req.clientID, req.claims, req.scopes, req.nonce, th.accessToken.value, req.connectorID);
  }

  lemma ApprovalTokenKeepsGrants(s: State, t: nat, issuer: Issuer)
    requires GrantInv(s)
    ensures GrantInv(DoApprovalToken(s, t, issuer))
  {
    if Responding(s, t) && s.threads[t].types != [] {
      ApprovalTokenFits(BookOf(s), s.threads[t], s.threads[t].types[1..], issuer);
      var r := DoApprovalToken(s, t, issuer);
      if t in r.threads {
        ContinueKeepsGrants(s, t, r.threads[t]);
      } else {
        QuietKeepsGrants(s, End(s, t), t);
      }
    }
  }

  lemma ContinueKeepsGrants(s: State, t: nat, th: Thread)
    requires GrantInv(s) && ThreadOK(BookOf(s), th)
    ensures GrantInv(Continue(s, t, th))
  {
    QuietKeepsGrants(s, Continue(s, t, th), t);
  }

  lemma RespondKeepsGrants(s: State, t: nat)
    requires GrantInv(s)
    ensures GrantInv(DoApprovalRespond(s, t))
  {
    if Responding(s, t) && s.threads[t].types == [] {
      var th := s.threads[t];
      assert ThreadOK(BookOf(s), th);
      if th.idToken.Some? {
        var i := Issued(th.idToken.value, th.req.scopes, th.req.clientID, th.req.id, ByApproval);
        assert IssuedOK(BookOf(s), i);
      }
      QuietKeepsGrants(s, DoApprovalRespond(s, t), t);
    }
  }

  lemma ExchangeGetKeepsGrants(s: State, a: Action)
    requires GrantInv(s) && a.ExchangeGet?
    ensures GrantInv(Apply(s, a))
  {
    if a.id in s.store.authCodes {
      var code := s.store.authCodes[a.id];
      assert CodeOK(BookOf(s), code);
      IssueFits(a.issuer, a.client, code.claims, code.scopes, code.nonce, a.newID, code.connectorID);
      QuietKeepsGrants(s, Apply(s, a), a.t);
    }
  }

  lemma DeleteKeepsGrants(s: State, t: nat)
    requires GrantInv(s)
    ensures GrantInv(DoExchangeDelete(s, t))
  {
    if AtStage(s, t, Got) {
      assert ThreadOK(BookOf(s), s.threads[t]);
      QuietKeepsGrants(s, DoExchangeDelete(s, t), t);
    }
  }

  lemma AdvanceKeepsGrants(s: State, t: nat, stage: Stage)
    requires GrantInv(s) && t in s.threads && s.threads[t].Exchange?
    ensures GrantInv(Advance(s, t, stage))
  {
    assert ThreadOK(BookOf(s), s.threads[t]);
    QuietKeepsGrants(s, Advance(s, t, stage), t);
  }

  lemma FindKeepsGrants(s: State, t: nat)
    requires GrantInv(s)
    ensures GrantInv(DoExchangeFindSession(s, t))
  {
    if AtStage(s, t, Created) {
      AdvanceKeepsGrants(s, t, DoExchangeFindSession(s, t).threads[t].stage);
    }
  }

  lemma DropStaleKeepsGrants(s: State, t: nat)
    requires GrantInv(s)
    ensures GrantInv(DoExchangeDropStale(s, t))
  {
    if t in s.threads && s.threads[t].Exchange? && s.threads[t].stage.Replace? {
      assert ThreadOK(BookOf(s), s.threads[t]);
      QuietKeepsGrants(s, DoExchangeDropStale(s, t), t);
    }
  }

  lemma DropKeepsGrants(s: State, t: nat, id: ID)
    requires GrantInv(s)
    ensures GrantInv(DropRefresh(s, t, id))
  {
    QuietKeepsGrants(s, DropRefresh(s, t, id), t);
  }

  lemma UnlinkKeepsGrants(s: State, t: nat, slot: Slot)
    requires GrantInv(s)
    ensures GrantInv(DoRevokeUnlink(s, t, slot))
  {
    QuietKeepsGrants(s, DoRevokeUnlink(s, t, slot), t);
  }

  lemma TouchKeepsGrants(s: State, t: nat)
    requires GrantInv(s)
    ensures GrantInv(DoRefreshTouch(s, t))
  {
    if t in s.threads && s.threads[t].Refresh? {
      assert ThreadOK(BookOf(s), s.threads[t]);
      QuietKeepsGrants(s, DoRefreshTouch(s, t), t);
    }
  }

  /** The token that an exchange answers with. */
  lemma AnswerFits(s: State, t: nat)
    requires GrantInv(s) && t in s.threads && s.threads[t].Exchange?
    ensures var th := s.threads[t];
            IssuedOK(BookOf(s), Issued(th.token, th.code.scopes, th.code.clientID, th.code.id, ByCode))
  {
    assert ThreadOK(BookOf(s), s.threads[t]);
  }

  lemma AnswerKeepsGrants(s: State, t: nat)
    requires GrantInv(s) && t in s.threads && s.threads[t].Exchange?
    ensures GrantInv(Answer(s, t, s.threads[t].code, s.threads[t].token))
  {
    AnswerFits(s, t);
    QuietKeepsGrants(s, Answer(s, t, s.threads[t].code, s.threads[t].token), t);
  }

  lemma LinkKeepsGrants(s: State, t: nat, session: Session)
    requires GrantInv(s) && t in s.threads && s.threads[t].Exchange?
    ensures GrantInv(LinkRefresh(s, t, session))
  {
    AnswerFits(s, t);
    QuietKeepsGrants(s, LinkRefresh(s, t, session), t);
  }

  lemma OpenKeepsGrants(s: State, t: nat)
    requires GrantInv(s)
    ensures GrantInv(DoExchangeOpenSession(s, t))
  {
    if AtStage(s, t, NoSession) {
      AdvanceKeepsGrants(s, t, Undo);
      LinkKeepsGrants(s, t, map[]);
    }
  }

  lemma WriteRefKeepsGrants(s: State, t: nat)
    requires GrantInv(s)
    ensures GrantInv(DoExchangeWriteRef(s, t))
  {
    if t in s.threads && s.threads[t].Exchange? {
      var slot := SlotOfCode(s.threads[t].code);
      AdvanceKeepsGrants(s, t, Undo);
      if slot.session in s.store.sessions {
        LinkKeepsGrants(s, t, s.store.sessions[slot.session]);
      }
    }
  }

  lemma RefreshGetKeepsGrants(s: State, a: Action)
    requires GrantInv(s) && a.RefreshGet?
    ensures GrantInv(Apply(s, a))
  {
    if a.id in s.store.refreshTokens {
      var record := s.store.refreshTokens[a.id];
      var scopes := RefreshScopes(record.scopes, a.wanted);
      assert RefreshOK(BookOf(s), record);
      if scopes.Some? {
        IssueFits(a.issuer, a.client, a.refreshed.claims, scopes.value, record.nonce, a.newID, record.connectorID);
      }
      QuietKeepsGrants(s, Apply(s, a), a.t);
    }
  }

  // ----- Steps that store or record something -----

  /** Stored requests change, and stay within what was accepted. */
  lemma RequestsKeepGrants(s: State, reqs: map<ID, AuthRequest>)
    requires GrantInv(s)
    requires forall id :: id in reqs ==> reqs[id].id == id && RequestOK(BookOf(s), reqs[id])
    requires forall id :: id in reqs ==> id in s.store.authReqs
    ensures GrantInv(s.(store := s.store.(authReqs := reqs)))
  {
  }

  lemma AcceptKeepsGrants(s: State, req: AuthRequest)
    requires GrantInv(s)
    ensures GrantInv(DoAccept(s, req))
  {
    var r := DoAccept(s, req);
    if r != s {
      ExtendsKeepsAll(BookOf(r), s);
    }
  }

  lemma LoginKeepsGrants(s: State, a: Action)
    requires GrantInv(s) && IsLogin(a)
    ensures GrantInv(Apply(s, a))
  {
    match a {
      case Accept(req) => AcceptKeepsGrants(s, req);
      case ChooseConnector(id, _) =>
        if id in s.store.authReqs { RequestsKeepGrants(s, Apply(s, a).store.authReqs); }
      case Login(id, _) =>
        if id in s.store.authReqs { RequestsKeepGrants(s, Apply(s, a).store.authReqs); }
      case Collect => assert Shrinks(s.store, Collected(s.store, s.clock));
      case Tick(_) =>
    }
  }

  lemma ApprovalDeleteKeepsGrants(s: State, t: nat, newID: ID)
    requires GrantInv(s)
    ensures GrantInv(DoApprovalDelete(s, t, newID))
  {
    var r := DoApprovalDelete(s, t, newID);
    if r != s {
      assert ThreadOK(BookOf(s), s.threads[t]);
      ExtendsKeepsAll(BookOf(r), s);
    }
  }

  lemma ApprovalCodeKeepsGrants(s: State, t: nat, newID: ID)
    requires GrantInv(s)
    ensures GrantInv(DoApprovalCode(s, t, newID))
  {
    var r := DoApprovalCode(s, t, newID);
    if r != s {
      assert ThreadOK(BookOf(s), s.threads[t]);
      ExtendsKeepsAll(BookOf(r), s);
      assert CodeOK(BookOf(r), NewCode(s.threads[t].req, newID, s.clock + 30 * MINUTE));
    }
  }

  lemma CreateKeepsGrants(s: State, t: nat, newID: ID, newToken: ID)
    requires GrantInv(s)
    ensures GrantInv(DoExchangeCreate(s, t, newID, newToken))
  {
    var r := DoExchangeCreate(s, t, newID, newToken);
    if r != s {
      assert ThreadOK(BookOf(s), s.threads[t]);
      ExtendsKeepsAll(BookOf(r), s);
      assert RefreshOK(BookOf(r), NewRefresh(s.threads[t].code, newID, newToken, s.clock));
    }
  }

  lemma CommitKeepsGrants(s: State, t: nat)
    requires GrantInv(s)
    ensures GrantInv(DoRefreshCommit(s, t))
  {
    var r := DoRefreshCommit(s, t);
    if t in s.threads && s.threads[t].Refresh? {
      var th := s.threads[t];
      assert ThreadOK(BookOf(s), th);
      assert IssuedOK(BookOf(s), Issued(th.response, th.scopes, th.record.clientID, th.record.id, ByRefresh));
      forall id | id in r.store.refreshTokens ensures RefreshOK(BookOf(s), r.store.refreshTokens[id]) {
        assert RefreshOK(BookOf(s), s.store.refreshTokens[id]);
      }
    }
  }

  lemma ApprovalStepKeepsGrants(s: State, a: Action)
    requires GrantInv(s) && IsApproval(a)
    ensures GrantInv(Apply(s, a))
  {
    match a {
      case ApprovalGet(t, id) => ApprovalGetKeepsGrants(s, t, id);
      case ApprovalDelete(t, newID) => ApprovalDeleteKeepsGrants(s, t, newID);
      case ApprovalCode(t, newID) => ApprovalCodeKeepsGrants(s, t, newID);
      case ApprovalToken(t, issuer) => ApprovalTokenKeepsGrants(s, t, issuer);
      case ApprovalRespond(t) => RespondKeepsGrants(s, t);
    }
  }

  lemma RedeemStepKeepsGrants(s: State, a: Action)
    requires GrantInv(s) && IsRedeem(a)
    ensures GrantInv(Apply(s, a))
  {
    match a {
      case ExchangeGet(_, _, _, _, _, _) => ExchangeGetKeepsGrants(s, a);
      case ExchangeDelete(t) => DeleteKeepsGrants(s, t);
      case ExchangeAnswer(t) => if AtStage(s, t, Redeemed) { AnswerKeepsGrants(s, t); }
      case ExchangeCreate(t, newID, newToken) => CreateKeepsGrants(s, t, newID, newToken);
    }
  }

  lemma SessionStepKeepsGrants(s: State, a: Action)
    requires GrantInv(s) && IsSession(a)
    ensures GrantInv(Apply(s, a))
  {
    match a {
      case ExchangeFindSession(t) => FindKeepsGrants(s, t);
      case ExchangeOpenSession(t) => OpenKeepsGrants(s, t);
      case ExchangeDropStale(t) => DropStaleKeepsGrants(s, t);
      case ExchangeWriteRef(t) => WriteRefKeepsGrants(s, t);
      case ExchangeDropOwn(t) => if AtStage(s, t, Undo) { DropKeepsGrants(s, t, s.threads[t].refresh.id); }
    }
  }

  lemma RefreshStepKeepsGrants(s: State, a: Action)
    requires GrantInv(s) && (IsRefresh(a) || IsRevoke(a))
    ensures GrantInv(Apply(s, a))
  {
    match a {
      case RefreshGet(_, _, _, _, _, _, _, _, _) => RefreshGetKeepsGrants(s, a);
      case RefreshTouch(t) => TouchKeepsGrants(s, t);
      case RefreshCommit(t) => CommitKeepsGrants(s, t);
      case RevokeUnlink(t, slot) => UnlinkKeepsGrants(s, t, slot);
      case RevokeDelete(t) =>
        if t in s.threads && s.threads[t].Revoke? { DropKeepsGrants(s, t, s.threads[t].revoked); }
    }
  }

  lemma StepKeepsGrants(s: State, a: Action)
    requires GrantInv(s)
    ensures GrantInv(Apply(s, a))
  {
    if IsLogin(a) {
      LoginKeepsGrants(s, a);
    } else if IsApproval(a) {
      ApprovalStepKeepsGrants(s, a);
    } else if IsRedeem(a) {
      RedeemStepKeepsGrants(s, a);
    } else if IsSession(a) {
      SessionStepKeepsGrants(s, a);
    } else {
      RefreshStepKeepsGrants(s, a);
    }
  }
}
