/**
 * What the token endpoint answers (dex/server/handlers.go), stated from the stores before and
 * after and the reply alone: an ID token that says what it should, and a refresh token that is
 * the stored one. A value handed out stays good in every serial run until it is presented, its
 * user redeems another code for the client, or it is revoked.
 */
module Replies {
  import opened Common
  import opened Scopes
  import opened Storage
  import opened IDTokens
  import opened TokenProtocol
  import opened TokenLinks
  import opened Handlers
  import opened SerialRuns
  import opened GarbageCollection

  /** The reply carries a refresh token, and that is stored with the value it carries. */
  ghost predicate HandsOut(st: Store, r: TokenResponse, id: ID) {
    r.refresh.Some? && r.refresh.value.0 == id && id in st.refreshTokens
        && st.refreshTokens[id].token == r.refresh.value.1
  }

  // ----- Refreshing -----

  function ClaimsFor(record: RefreshToken, reply: ConnectorReply): (r: Claims) {
    if reply.Identified? then reply.identity.claims else record.claims
  }

  /** The stored token has a new value, and the connector's claims and data, but its old user and grant. */
  ghost predicate Renewed(record: RefreshToken, after: RefreshToken, q: RefreshRequest) {
    && after == record.(token := q.newToken, claims := after.claims, connectorData := after.connectorData,
                        lastUsed := q.issuer.now)
    && after.claims == ClaimsFor(record, q.reply).(userID := record.claims.userID)
    && after.connectorData == if q.reply.Identified? then q.reply.identity.data else record.connectorData
  }

  /** Nothing but this refresh token and the time in its reference differs. */
  ghost predicate OnlyRenewed(before: Store, after: Store, id: ID, now: Time)
    requires id in before.refreshTokens && id in after.refreshTokens
  {
    && after.authReqs == before.authReqs && after.authCodes == before.authCodes
    && after.refreshTokens == before.refreshTokens[id := after.refreshTokens[id]]
    && forall slot :: Ref(after.sessions, slot) ==
                        if slot == SlotOfToken(before.refreshTokens[id]) && Ref(before.sessions, slot).Some?
                        then Some(Ref(before.sessions, slot).value.(lastUsed := now)) else Ref(before.sessions, slot)
  }

  lemma RefreshRenews(st: Store, q: RefreshRequest)
    requires Bijective(st) && RefreshStore(st, q).1.Ok?
    ensures var (after, r) := RefreshStore(st, q);
            && q.id in st.refreshTokens && HandsOut(after, r.value, q.id)
            && Renewed(st.refreshTokens[q.id], after.refreshTokens[q.id], q)
            && OnlyRenewed(st, after, q.id, q.issuer.now)
  {
  }

  lemma RefreshAnswers(st: Store, q: RefreshRequest)
    requires RefreshStore(st, q).1.Ok?
    ensures var r := RefreshStore(st, q).1.value;
            && q.id in st.refreshTokens
            && var record := st.refreshTokens[q.id];
               && r.accessToken == q.accessToken
               && Ok(r.idToken) == Issue(q.issuer, q.client, ClaimsFor(record, q.reply), ScopesFor(record, q),
                                         record.nonce, q.accessToken, record.connectorID)
  {
  }

  /** A successful refresh hands out the value it stored, and renews that token only. */
  lemma RefreshReply(st: Store, q: RefreshRequest)
    requires Bijective(st) && RefreshStore(st, q).1.Ok?
    ensures var (after, r) := RefreshStore(st, q);
            && q.id in st.refreshTokens && HandsOut(after, r.value, q.id)
            && var record := st.refreshTokens[q.id];
               && Renewed(record, after.refreshTokens[q.id], q) && OnlyRenewed(st, after, q.id, q.issuer.now)
               && r.value.accessToken == q.accessToken
               && Describes(r.value.idToken, q.issuer, q.client, ClaimsFor(record, q.reply), ScopesFor(record, q),
                            record.nonce, q.accessToken, record.connectorID)
  {
    RefreshRenews(st, q);
    RefreshAnswers(st, q);
    var record := st.refreshTokens[q.id];
    IssuedTokenDescribes(q.issuer, q.client, ClaimsFor(record, q.reply), ScopesFor(record, q), record.nonce,
                         q.accessToken, record.connectorID);
  }

  /** The next refresh by the client succeeds exactly with the value of the last reply. */
  lemma NextRefreshNeedsTheReply(st: Store, q: RefreshRequest, next: RefreshRequest)
    requires Bijective(st) && RefreshStore(st, q).1.Ok? && next.id == q.id && next.client == q.client
    requires q.id in st.refreshTokens ==> AsksWithin(st.refreshTokens[q.id], next)
    ensures var (after, r) := RefreshStore(st, q);
            && (RefreshStore(after, next).1.Ok? <==> next.value == r.value.refresh.value.1)
            && (next.value != r.value.refresh.value.1 ==> RefreshStore(after, next) == (after, Err(InvalidRequest)))
  {
    RefreshReply(st, q);
    RefreshKeepsBijection(st, q);
    RefreshSucceedsIff(RefreshStore(st, q).0, next);
  }

  /** The request asks for no more than was granted, of a connector that answers, and a token can be issued for it. */
  ghost predicate AsksWithin(record: RefreshToken, q: RefreshRequest) {
    && (q.wanted.Some? ==> forall w :: w in q.wanted.value ==> w in record.scopes)
    && !q.reply.Unavailable? && CanIssue(q.issuer, q.client, ScopesFor(record, q))
  }

  /** A value that was used is refused, whoever presents it. */
  lemma UsedValueIsRefused(st: Store, q: RefreshRequest, next: RefreshRequest)
    requires Bijective(st) && RefreshStore(st, q).1.Ok? && q.newToken != q.value
    requires next.id == q.id && next.value == q.value
    ensures RefreshStore(RefreshStore(st, q).0, next) == (RefreshStore(st, q).0, Err(InvalidRequest))
  {
    RefreshReply(st, q);
  }

  /** The two kinds of refusal, neither of which changes the store. */
  lemma RefreshErrors(st: Store, q: RefreshRequest)
    requires Bijective(st)
    ensures var (after, r) := RefreshStore(st, q);
            && (r == Err(InvalidRequest) <==> !Presents(st, q))
            && (r == Err(ServerError) <==> Presents(st, q) && !Refreshable(st, q))
            && (r.Err? ==> after == st)
  {
    RefreshSucceedsIff(st, q);
    if q.id in st.refreshTokens {
      assert Names(st.sessions, SlotOfToken(st.refreshTokens[q.id]), q.id);
    }
  }

  // ----- Exchanging a code -----

  /** A new refresh token with the code's grant. */
  ghost predicate Stems(t: RefreshToken, code: AuthCode, now: Time) {
    && t.clientID == code.clientID && t.connectorID == code.connectorID && t.connectorData == code.connectorData
    && t.claims == code.claims && t.scopes == code.scopes && t.nonce == code.nonce
    && t.createdAt == now && t.lastUsed == now
  }

  /** What a listing shows of a token. */
  ghost predicate Describe(ref: RefreshTokenRef, t: RefreshToken) {
    ref.id == t.id && ref.clientID == t.clientID && ref.createdAt == t.createdAt && ref.lastUsed == t.lastUsed
  }

  /** The slot's token is now this one, and all others are as they were. */
  ghost predicate Replaced(before: Store, after: Store, slot: Slot, id: ID) {
    && id in after.refreshTokens && Names(after.sessions, slot, id)
    && Describe(Ref(after.sessions, slot).value, after.refreshTokens[id])
    && (forall j :: j != id ==>
                      (j in after.refreshTokens <==>
                       j in before.refreshTokens && SlotOfToken(before.refreshTokens[j]) != slot))
    && (forall j :: j != id && j in after.refreshTokens ==> after.refreshTokens[j] == before.refreshTokens[j])
    && forall other :: other != slot ==> Ref(after.sessions, other) == Ref(before.sessions, other)
  }

  lemma AddRefreshReplaces(st: Store, code: AuthCode, x: CodeExchange)
    requires Bijective(st) && x.newID !in st.refreshTokens
    ensures var after := AddRefresh(st, code, x).0;
            && Replaced(st, after, SlotOfCode(code), x.newID) && Stems(after.refreshTokens[x.newID], code, x.issuer.now)
            && after.refreshTokens[x.newID].token == x.newToken
            && after.authReqs == st.authReqs && after.authCodes == st.authCodes
  {
    AddRefreshKeepsBijection(st, code, x);
    var slot := SlotOfCode(code);
    var ref := Ref(st.sessions, slot);
    var refresh := NewRefresh(code, x.newID, x.newToken, x.issuer.now);
    if ref.Some? {
      assert Names(st.sessions, slot, ref.value.id);
    }
    forall j | j in st.refreshTokens && SlotOfToken(st.refreshTokens[j]) == slot
      ensures ref.Some? && ref.value.id == j
    {
      assert Names(st.sessions, slot, j);
    }
    var stored := st.(refreshTokens := st.refreshTokens[x.newID := refresh]);
    var cleared := if ref.None? then stored else stored.(refreshTokens := stored.refreshTokens - {ref.value.id});
    LinkStoreRefs(cleared, slot, refresh);
    assert AddRefresh(st, code, x).0 == LinkStore(cleared, slot, refresh);
  }

  /**
   * A successful exchange uses up its code. It answers with a refresh token exactly if the
   * connector can refresh and offline access was asked for; that is then stored and linked.
   */
  lemma ExchangeReply(st: Store, x: CodeExchange)
    requires Bijective(st) && x.newID !in st.refreshTokens && ExchangeCode(st, x).1.Ok?
    ensures x.code in st.authCodes
    ensures var (after, r) := ExchangeCode(st, x);
            var code := st.authCodes[x.code];
            && after.authCodes == st.authCodes - {x.code} && after.authReqs == st.authReqs
            && r.value.accessToken == x.accessToken
            && Describes(r.value.idToken, x.issuer, x.client, code.claims, code.scopes, code.nonce, x.accessToken,
                         code.connectorID)
            && (r.value.refresh.Some? <==> x.canRefresh && OfflineAccess in code.scopes)
            && (r.value.refresh.None? ==> after.refreshTokens == st.refreshTokens && after.sessions == st.sessions)
            && (r.value.refresh.Some? ==>
                  && HandsOut(after, r.value, x.newID) && Stems(after.refreshTokens[x.newID], code, x.issuer.now)
                  && Replaced(st, after, Slot(SessionID(code.claims.userID, code.connectorID), x.client), x.newID))
  {
    var code := st.authCodes[x.code];
    var redeemed := st.(authCodes := st.authCodes - {x.code});
    assert Bijective(redeemed);
    AddRefreshReplaces(redeemed, code, x);
    AddRefreshKeepsBijection(redeemed, code, x);
    IssuedTokenDescribes(x.issuer, x.client, code.claims, code.scopes, code.nonce, x.accessToken, code.connectorID);
  }

  /** The refresh token of an exchange can be used by its client, for any scopes of the code. */
  lemma ExchangedTokenRefreshes(st: Store, x: CodeExchange, q: RefreshRequest)
    requires Bijective(st) && x.newID !in st.refreshTokens && ExchangeCode(st, x).1.Ok?
    requires ExchangeCode(st, x).1.value.refresh == Some((q.id, q.value)) && q.client == x.client
    requires q.id in ExchangeCode(st, x).0.refreshTokens ==> AsksWithin(ExchangeCode(st, x).0.refreshTokens[q.id], q)
    ensures RefreshStore(ExchangeCode(st, x).0, q).1.Ok?
  {
    ExchangeReply(st, x);
    ExchangeKeepsBijection(st, x);
    RefreshSucceedsIff(ExchangeCode(st, x).0, q);
  }

  /** The two kinds of refusal, neither of which changes the store. */
  lemma ExchangeErrors(st: Store, x: CodeExchange)
    requires Bijective(st) && x.newID !in st.refreshTokens
    ensures var (after, r) := ExchangeCode(st, x);
            && (r == Err(InvalidRequest) <==>
                  x.code in st.authCodes ==>
                    var code := st.authCodes[x.code];
                    x.issuer.now <= code.expiry && code.clientID == x.client && code.redirectURI != x.uri)
            && (r == Err(ServerError) <==>
                  && x.code in st.authCodes
                  && var code := st.authCodes[x.code];
                     || x.issuer.now > code.expiry || code.clientID != x.client
                     || (code.redirectURI == x.uri && !CanIssue(x.issuer, x.client, code.scopes)))
            && (r.Err? ==> after == st)
  {
    ExchangeKeepsBijection(st, x);
    if x.code in st.authCodes {
      var code := st.authCodes[x.code];
      AddRefreshKeepsBijection(st.(authCodes := st.authCodes - {x.code}), code, x);
      IssuedTokenDescribes(x.issuer, x.client, code.claims, code.scopes, code.nonce, x.accessToken, code.connectorID);
    }
  }

  // ----- How long a value stays good -----

  /** The event may end this token: it presents the value, redeems a code of the same slot or revokes the slot. */
  ghost predicate Touches(st: Store, e: Event, id: ID)
    requires id in st.refreshTokens
  {
    var t := st.refreshTokens[id];
    match e
    case Renew(r) => r.id == id && r.value == t.token
    case Redeem(x) => x.code in st.authCodes && SlotOfCode(st.authCodes[x.code]) == SlotOfToken(t)
    case Withdraw(slot) => slot == SlotOfToken(t)
    case _ => false
  }

  lemma RedeemKeepsToken(st: Store, x: CodeExchange, id: ID)
    requires Bijective(st) && x.newID !in st.refreshTokens && id in st.refreshTokens
    requires x.code in st.authCodes ==> SlotOfCode(st.authCodes[x.code]) != SlotOfToken(st.refreshTokens[id])
    ensures var after := ExchangeCode(st, x).0;
            id in after.refreshTokens && after.refreshTokens[id] == st.refreshTokens[id]
  {
    if ExchangeCode(st, x).1.Ok? {
      ExchangeReply(st, x);
      assert SlotOfCode(st.authCodes[x.code]).client == x.client;
    } else {
      ExchangeErrors(st, x);
    }
  }

  lemma RenewKeepsToken(st: Store, q: RefreshRequest, id: ID)
    requires Bijective(st) && id in st.refreshTokens && !(q.id == id && q.value == st.refreshTokens[id].token)
    ensures var after := RefreshStore(st, q).0;
            id in after.refreshTokens && after.refreshTokens[id] == st.refreshTokens[id]
  {
    RefreshErrors(st, q);
    if RefreshStore(st, q).1.Ok? {
      RefreshReply(st, q);
    }
  }

  lemma HandleKeepsToken(st: Store, now: Time, e: Event, id: ID)
    requires Bijective(st) && id in st.refreshTokens && (e.Redeem? ==> e.x.newID !in st.refreshTokens)
    requires !Touches(st, e, id)
    ensures var after := Handle(st, now, e).0;
            id in after.refreshTokens && after.refreshTokens[id] == st.refreshTokens[id]
  {
    match e {
      case Redeem(x) => RedeemKeepsToken(st, x.(issuer := x.issuer.(now := now)), id);
      case Renew(r) => RenewKeepsToken(st, r.(issuer := r.issuer.(now := now)), id);
      case Withdraw(slot) => RevokeKeepsBijection(st, slot);
      case Approve(q) =>
        if q.id in st.authReqs && |st.authReqs[q.id].responseTypes| <= |q.newIDs| {
          RespondKeepsTokens(st.(authReqs := st.authReqs - {q.id}), q.(issuer := q.issuer.(now := now)),
                             st.authReqs[q.id], 0, Redirect(None, None));
        }
      case _ =>
    }
  }

  /** No event of the run touches the token. */
  ghost predicate Untouched(w: World, steps: seq<Timed>, id: ID)
    decreases |steps|
  {
    steps != [] ==>
      && (id in w.store.refreshTokens ==> !Touches(w.store, steps[0].event, id))
      && Untouched(Exec(w, steps[0]).0, steps[1..], id)
  }

  /** Until one does, it stays stored as it is through every serial run. */
  lemma {:induction false} TokenStays(w: World, steps: seq<Timed>, id: ID)
    requires Bijective(w.store) && IDsKnown(w) && id in w.store.refreshTokens && Untouched(w, steps, id)
    ensures var st := Final(w, steps).store;
            Bijective(st) && id in st.refreshTokens && st.refreshTokens[id] == w.store.refreshTokens[id]
    decreases |steps|
  {
    if steps != [] {
      StepKeepsBijection(w, steps[0]);
      if Fresh(steps[0].event, w.used) {
        HandleKeepsToken(w.store, steps[0].now, steps[0].event, id);
      }
      TokenStays(Exec(w, steps[0]).0, steps[1..], id);
    }
  }

  /**
   * A client that keeps the last refresh token it was handed is never locked out: whatever serial
   * run follows the reply, presenting it succeeds until then, and the next reply hands out another.
   */
  lemma HandedOutValuesStayGood(w: World, t: Timed, steps: seq<Timed>, id: ID, q: RefreshRequest)
    requires Bijective(w.store) && IDsKnown(w) && Exec(w, t).1.Some? && Exec(w, t).1.value.Responded?
    requires Exec(w, t).1.value.response.refresh == Some((id, q.value)) && q.id == id
    requires Untouched(Exec(w, t).0, steps, id)
    requires id in Exec(w, t).0.store.refreshTokens ==>
               var token := Exec(w, t).0.store.refreshTokens[id];
               q.client == token.clientID && AsksWithin(token, q)
    ensures RefreshStore(Final(Exec(w, t).0, steps).store, q).1.Ok?
  {
    var after := Exec(w, t).0;
    StepKeepsBijection(w, t);
    assert id in after.store.refreshTokens && after.store.refreshTokens[id].token == q.value by {
      if t.event.Redeem? {
        ExchangeReply(w.store, t.event.x.(issuer := t.event.x.issuer.(now := t.now)));
      } else {
        RefreshReply(w.store, t.event.r.(issuer := t.event.r.issuer.(now := t.now)));
      }
    }
    TokenStays(after, steps, id);
    RefreshSucceedsIff(Final(after, steps).store, q);
  }
}
