/**
 * Handlers run one at a time. Session references and stored refresh tokens then stay in
 * bijection, so replacing a token never fails and each handler's success has a plain condition.
 */
module SerialRuns {
  import opened Common
  import opened Scopes
  import opened Storage
  import opened IDTokens
  import opened TokenProtocol
  import opened TokenLinks
  import opened Handlers

  // ----- References and tokens in bijection -----

  /** Every reference names a stored token of its slot, and every stored token is named by its slot. */
  ghost predicate Bijective(st: Store) {
    && (forall slot, id :: Names(st.sessions, slot, id) ==>
                             id in st.refreshTokens && SlotOfToken(st.refreshTokens[id]) == slot)
    && (forall id :: id in st.refreshTokens ==>
                       st.refreshTokens[id].id == id && Names(st.sessions, SlotOfToken(st.refreshTokens[id]), id))
  }

  /** A user has at most one refresh token per connector and client. */
  lemma OneTokenPerSlot(st: Store, i: ID, j: ID)
    requires Bijective(st) && i in st.refreshTokens && j in st.refreshTokens
    requires SlotOfToken(st.refreshTokens[i]) == SlotOfToken(st.refreshTokens[j])
    ensures i == j
  {
    assert Names(st.sessions, SlotOfToken(st.refreshTokens[i]), i);
    assert Names(st.sessions, SlotOfToken(st.refreshTokens[j]), j);
  }

  lemma LinkStoreRefs(st: Store, slot: Slot, r: RefreshToken)
    ensures forall other :: Ref(LinkStore(st, slot, r).sessions, other) ==
                              if other == slot then Some(NewRef(r)) else Ref(st.sessions, other)
  {
    forall other ensures Ref(LinkStore(st, slot, r).sessions, other) ==
                         if other == slot then Some(NewRef(r)) else Ref(st.sessions, other) {
    }
  }

  /** Adding a refresh token succeeds unless its identifier is taken. */
  lemma AddRefreshKeepsBijection(st: Store, code: AuthCode, x: CodeExchange)
    requires Bijective(st)
    ensures AddRefresh(st, code, x).1 == (x.newID !in st.refreshTokens)
    ensures Bijective(AddRefresh(st, code, x).0)
  {
    var slot := SlotOfCode(code);
    var refresh := NewRefresh(code, x.newID, x.newToken, x.issuer.now);
    var ref := Ref(st.sessions, slot);
    if ref.Some? {
      assert Names(st.sessions, slot, ref.value.id);
    }
    if x.newID !in st.refreshTokens {
      var stored := st.(refreshTokens := st.refreshTokens[x.newID := refresh]);
      var cleared := if ref.None? then stored else stored.(refreshTokens := stored.refreshTokens - {ref.value.id});
      LinkStoreRefs(cleared, slot, refresh);
      var r := LinkStore(cleared, slot, refresh);
      assert AddRefresh(st, code, x).0 == r;
      forall id | id in r.refreshTokens ensures Names(r.sessions, SlotOfToken(r.refreshTokens[id]), id) {
        if id != x.newID {
          assert Names(st.sessions, SlotOfToken(st.refreshTokens[id]), id);
        }
      }
      forall other, id | Names(r.sessions, other, id)
        ensures id in r.refreshTokens && SlotOfToken(r.refreshTokens[id]) == other
      {
        if other != slot {
          assert Names(st.sessions, other, id);
        }
      }
    }
  }

  /** The code may be exchanged now: known, unexpired, the client's own, for the right URI and with a token to issue. */
  ghost predicate Redeemable(st: Store, x: CodeExchange) {
    && x.code in st.authCodes
    && var code := st.authCodes[x.code];
       && x.issuer.now <= code.expiry && code.clientID == x.client && code.redirectURI == x.uri
       && CanIssue(x.issuer, x.client, code.scopes)
  }

  /** An exchange succeeds exactly when its code may be exchanged: the refresh token never gets in the way. */
  lemma ExchangeKeepsBijection(st: Store, x: CodeExchange)
    requires Bijective(st) && x.newID !in st.refreshTokens
    ensures Bijective(ExchangeCode(st, x).0)
    ensures ExchangeCode(st, x).1.Ok? <==> Redeemable(st, x)
  {
    if x.code in st.authCodes {
      var redeemed := st.(authCodes := st.authCodes - {x.code});
      assert Bijective(redeemed);
      var code := st.authCodes[x.code];
      AddRefreshKeepsBijection(redeemed, code, x);
      IssuedTokenDescribes(x.issuer, x.client, code.claims, code.scopes, code.nonce, x.accessToken, code.connectorID);
    }
  }

  /** The request names a stored token by its current value, as its client, and asks for no more than was granted. */
  ghost predicate Presents(st: Store, q: RefreshRequest) {
    && q.id in st.refreshTokens
    && var record := st.refreshTokens[q.id];
       && record.clientID == q.client && record.token == q.value
       && (q.wanted.Some? ==> forall w :: w in q.wanted.value ==> w in record.scopes)
  }

  /** The scopes of the new ID token: the requested ones, or all that were granted. */
  function ScopesFor(record: RefreshToken, q: RefreshRequest): (r: seq<Scope>) {
    if q.wanted.Some? then q.wanted.value else record.scopes
  }

  ghost predicate Refreshable(st: Store, q: RefreshRequest) {
    && Presents(st, q) && !q.reply.Unavailable?
    && CanIssue(q.issuer, q.client, ScopesFor(st.refreshTokens[q.id], q))
  }

  lemma RefreshSucceedsIff(st: Store, q: RefreshRequest)
    requires Bijective(st)
    ensures RefreshStore(st, q).1.Ok? <==> Refreshable(st, q)
  {
    if q.id in st.refreshTokens {
      var record := st.refreshTokens[q.id];
      assert Names(st.sessions, SlotOfToken(record), q.id);
      if Presents(st, q) && !q.reply.Unavailable? {
        IssuedTokenDescribes(q.issuer, q.client, IdentityFor(record, q.reply).value.claims, ScopesFor(record, q),
                             record.nonce, q.accessToken, record.connectorID);
      }
    }
  }

  /** A refresh succeeds exactly when the value is current, its scopes were granted and the connector answers. */
  lemma RefreshKeepsBijection(st: Store, q: RefreshRequest)
    requires Bijective(st)
    ensures Bijective(RefreshStore(st, q).0)
    ensures RefreshStore(st, q).1.Ok? <==> Refreshable(st, q)
  {
    RefreshSucceedsIff(st, q);
    if q.id in st.refreshTokens {
      assert Names(st.sessions, SlotOfToken(st.refreshTokens[q.id]), q.id);
      var r := RefreshStore(st, q).0;
      forall slot, id ensures Names(r.sessions, slot, id) <==> Names(st.sessions, slot, id) {
      }
      forall id | id in r.refreshTokens
        ensures id in st.refreshTokens && SlotOfToken(r.refreshTokens[id]) == SlotOfToken(st.refreshTokens[id]) {
      }
    }
  }

  /** Revoking finds a token exactly when the slot has one, and then it is gone. */
  lemma RevokeKeepsBijection(st: Store, slot: Slot)
    requires Bijective(st)
    ensures Bijective(RevokeStore(st, slot).0)
    ensures RevokeStore(st, slot).1 == if Ref(st.sessions, slot).Some? then Revoked else NoReference
    ensures forall id :: id in RevokeStore(st, slot).0.refreshTokens <==>
                         id in st.refreshTokens && SlotOfToken(st.refreshTokens[id]) != slot
    ensures forall id :: id in RevokeStore(st, slot).0.refreshTokens ==>
                         RevokeStore(st, slot).0.refreshTokens[id] == st.refreshTokens[id]
    ensures RevokeStore(st, slot).0.authReqs == st.authReqs && RevokeStore(st, slot).0.authCodes == st.authCodes
  {
    var ref := Ref(st.sessions, slot);
    var r := RevokeStore(st, slot).0;
    if ref.Some? {
      assert Names(st.sessions, slot, ref.value.id);
      forall other, id ensures Names(r.sessions, other, id) <==> other != slot && Names(st.sessions, other, id) {
      }
    }
    forall id | id in st.refreshTokens && SlotOfToken(st.refreshTokens[id]) == slot ensures id !in r.refreshTokens {
      assert Names(st.sessions, slot, id);
    }
  }

  /** In a bijective store the listed references are exactly the user's live refresh tokens. */
  lemma ListedRefsAreLiveTokens(st: Store, session: SessionID, id: ID)
    requires Bijective(st)
    ensures (exists c, ref :: Ref(st.sessions, Slot(session, c)) == Some(ref) && ref.id == id) <==>
            id in st.refreshTokens && SlotOfToken(st.refreshTokens[id]).session == session
  {
    if c, ref :| Ref(st.sessions, Slot(session, c)) == Some(ref) && ref.id == id {
      assert Names(st.sessions, Slot(session, c), id);
    }
    if id in st.refreshTokens {
      var slot := SlotOfToken(st.refreshTokens[id]);
      assert Names(st.sessions, slot, id);
      assert slot == Slot(slot.session, slot.client);
      assert Ref(st.sessions, Slot(slot.session, slot.client)) == Some(Ref(st.sessions, slot).value);
    }
  }
}
