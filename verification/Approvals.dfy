/**
 * What an approval does (dex/server/handlers.go): which codes and which redirect come of a
 * request, and that an approval thread nobody interrupts is the approval handler.
 */
module Approvals {
  import opened Common
  import opened Storage
  import opened IDTokens
  import opened TokenProtocol
  import opened Handlers
  import opened Uninterrupted

  // ----- What the handler computes -----

  /** The response types that are handled: all, or up to the first code when that is shown out of band. */
  function Handled(types: seq<ResponseType>, outOfBand: bool): (r: seq<ResponseType>) {
    if types == [] then []
    else if outOfBand && types[0].WantCode? then [WantCode]
    else [types[0]] + Handled(types[1..], outOfBand)
  }

  function CodeCount(types: seq<ResponseType>): (r: nat) {
    if types == [] then 0 else (if types[0].WantCode? then 1 else 0) + CodeCount(types[1..])
  }

  /** The response types before the first ID token. */
  function BeforeToken(types: seq<ResponseType>): (r: seq<ResponseType>) {
    if types == [] || types[0].WantIDToken? then [] else [types[0]] + BeforeToken(types[1..])
  }

  /** The identifier of the last wanted code; the identifiers are those from number n on. */
  function LastCode(newIDs: seq<ID>, n: nat, types: seq<ResponseType>): (r: Option<ID>)
    decreases |types|
  {
    if types == [] || n >= |newIDs| then None
    else
      var later := LastCode(newIDs, n + 1, types[1..]);
      if later.Some? then later else if types[0].WantCode? then Some(newIDs[n]) else None
  }

  /** One of the wanted codes has this identifier; the identifiers are those from number n on. */
  ghost predicate Draws(newIDs: seq<ID>, n: nat, types: seq<ResponseType>, id: ID) {
    exists i :: 0 <= i < |types| && n + i < |newIDs| && types[i].WantCode? && newIDs[n + i] == id
  }

  /** The code stands for the request: its client, redirect, nonce, scopes, user and connector. */
  ghost predicate StandsFor(c: AuthCode, req: AuthRequest, id: ID, now: Time) {
    && c.id == id && c.clientID == req.clientID && c.redirectURI == req.redirectURI && c.nonce == req.nonce
    && c.scopes == req.scopes && c.claims == req.claims
    && c.connectorID == req.connectorID && c.connectorData == req.connectorData && c.expiry == now + 30 * MINUTE
  }

  /** The codes of a store after some were added for a request. */
  ghost predicate CodesAdded(before: map<ID, AuthCode>, after: map<ID, AuthCode>, q: ApprovalRequest, req: AuthRequest,
                             n: nat, types: seq<ResponseType>)
  {
    && (forall id :: id in after <==> id in before || Draws(q.newIDs, n, types, id))
    && (forall id :: id in before ==> id in after && after[id] == before[id])
    && (forall id :: id in after && id !in before ==> StandsFor(after[id], req, id, q.issuer.now))
    && |after| == |before| + CodeCount(types)
  }

  /** Unused, pairwise different identifiers from number n on. */
  ghost predicate NewFrom(st: Store, newIDs: seq<ID>, n: nat) {
    && (forall i :: n <= i < |newIDs| ==> newIDs[i] !in st.authCodes)
    && (forall i, j :: n <= i < j < |newIDs| ==> newIDs[i] != newIDs[j])
  }

  function TokenFor(q: ApprovalRequest, req: AuthRequest): (r: Result<IDToken, TokenError>) {
    Issue(q.issuer, req.clientID, req.claims, req.scopes, req.nonce, q.accessToken, req.connectorID)
  }

  /** The redirect after the given response types: the last code, and the ID token unless a code is shown instead. */
  ghost predicate RedirectOK(q: ApprovalRequest, req: AuthRequest, n: nat, types: seq<ResponseType>, sent: Redirect,
                             r: Redirect) {
    && r.code == (if LastCode(q.newIDs, n, types).Some? then LastCode(q.newIDs, n, types) else sent.code)
    && r.idToken == (if req.redirectURI == OUT_OF_BAND && CodeCount(types) > 0 then None
                     else if WantIDToken in types && TokenFor(q, req).Ok? then Some(TokenFor(q, req).value)
                     else sent.idToken)
  }

  lemma DrawsShift(newIDs: seq<ID>, n: nat, types: seq<ResponseType>, id: ID)
    requires types != [] && n < |newIDs|
    ensures Draws(newIDs, n, types, id) <==>
            (types[0].WantCode? && newIDs[n] == id) || Draws(newIDs, n + 1, types[1..], id)
  {
    if i :| 0 <= i < |types| && n + i < |newIDs| && types[i].WantCode? && newIDs[n + i] == id && i > 0 {
      assert types[1..][i - 1] == types[i] && n + 1 + (i - 1) == n + i;
    }
    if i :| 0 <= i < |types[1..]| && n + 1 + i < |newIDs| && types[1..][i].WantCode? && newIDs[n + 1 + i] == id {
      assert types[i + 1] == types[1..][i] && n + (i + 1) == n + 1 + i;
    }
  }

  lemma CodesAddedStep(before: map<ID, AuthCode>, middle: map<ID, AuthCode>, after: map<ID, AuthCode>,
                       q: ApprovalRequest,
                       req: AuthRequest, n: nat, types: seq<ResponseType>)
    requires types != [] && n < |q.newIDs|
    requires if types[0].WantCode?
             then q.newIDs[n] !in before
                  && middle == before[q.newIDs[n] := NewCode(req, q.newIDs[n], q.issuer.now + 30 * MINUTE)]
             else middle == before
    requires CodesAdded(middle, after, q, req, n + 1, types[1..])
    ensures CodesAdded(before, after, q, req, n, types)
  {
    forall id ensures Draws(q.newIDs, n, types, id) <==>
                      (types[0].WantCode? && q.newIDs[n] == id) || Draws(q.newIDs, n + 1, types[1..], id) {
      DrawsShift(q.newIDs, n, types, id);
    }
  }

  /** From response type n on: what is stored, whether it succeeds, and the redirect. */
  ghost predicate Shaped(st: Store, q: ApprovalRequest, req: AuthRequest, n: nat, sent: Redirect,
                         after: Store, r: Result<Redirect, HandlerError>)
    requires n <= |req.responseTypes|
  {
    var types := Handled(req.responseTypes[n..], req.redirectURI == OUT_OF_BAND);
    && after == st.(authCodes := after.authCodes)
    && (r.Ok? <==> WantIDToken !in types || TokenFor(q, req).Ok?)
    && CodesAdded(st.authCodes, after.authCodes, q, req, n, if r.Ok? then types else BeforeToken(types))
    && (r.Ok? ==> RedirectOK(q, req, n, types, sent, r.value))
  }

  /** The response types that are handled from n on, when n is not the last. */
  lemma HandledStep(req: AuthRequest, n: nat)
    requires n < |req.responseTypes|
    ensures var oob := req.redirectURI == OUT_OF_BAND;
            Handled(req.responseTypes[n..], oob) ==
              if oob && req.responseTypes[n].WantCode? then [WantCode]
              else [req.responseTypes[n]] + Handled(req.responseTypes[n + 1..], oob)
  {
    assert req.responseTypes[n..][1..] == req.responseTypes[n + 1..];
  }

  /** The store and the redirect after one more response type. */
  ghost predicate Advances(st: Store, q: ApprovalRequest, req: AuthRequest, n: nat, sent: Redirect,
                           st': Store, sent': Redirect)
    requires n < |req.responseTypes| <= |q.newIDs|
  {
    var id := q.newIDs[n];
    match req.responseTypes[n]
    case WantCode =>
      && req.redirectURI != OUT_OF_BAND && id !in st.authCodes && sent' == sent.(code := Some(id))
      && st' == st.(authCodes := st.authCodes[id := NewCode(req, id, q.issuer.now + 30 * MINUTE)])
    case WantToken => st' == st && sent' == sent
    case WantIDToken =>
      TokenFor(q, req).Ok? && st' == st && sent' == sent.(idToken := Some(TokenFor(q, req).value))
  }

  lemma RedirectStep(st: Store, q: ApprovalRequest, req: AuthRequest, n: nat, sent: Redirect,
                     st': Store, sent': Redirect, types: seq<ResponseType>, r: Redirect)
    requires n < |req.responseTypes| <= |q.newIDs| && Advances(st, q, req, n, sent, st', sent')
    requires types != [] && types[0] == req.responseTypes[n] && RedirectOK(q, req, n + 1, types[1..], sent', r)
    ensures RedirectOK(q, req, n, types, sent, r)
  {
    assert types == [types[0]] + types[1..];
  }

  lemma ShapeStep(st: Store, q: ApprovalRequest, req: AuthRequest, n: nat, sent: Redirect, st': Store, sent': Redirect,
                  after: Store, r: Result<Redirect, HandlerError>)
    requires n < |req.responseTypes| <= |q.newIDs| && Advances(st, q, req, n, sent, st', sent')
    requires Shaped(st', q, req, n + 1, sent', after, r)
    ensures Shaped(st, q, req, n, sent, after, r)
  {
    HandledStep(req, n);
    var types := Handled(req.responseTypes[n..], req.redirectURI == OUT_OF_BAND);
    assert types[1..] == Handled(req.responseTypes[n + 1..], req.redirectURI == OUT_OF_BAND);
    if r.Ok? {
      CodesAddedStep(st.authCodes, st'.authCodes, after.authCodes, q, req, n, types);
      RedirectStep(st, q, req, n, sent, st', sent', types, r.value);
    } else {
      var before := BeforeToken(types);
      assert before[1..] == BeforeToken(types[1..]);
      CodesAddedStep(st.authCodes, st'.authCodes, after.authCodes, q, req, n, before);
    }
  }

  /** A code that is shown out of band is the last response type. */
  lemma OutOfBandShape(st: Store, q: ApprovalRequest, req: AuthRequest, n: nat)
    requires n < |q.newIDs| && q.newIDs[n] !in st.authCodes
    ensures var id := q.newIDs[n];
            var codes := st.authCodes[id := NewCode(req, id, q.issuer.now + 30 * MINUTE)];
            CodesAdded(st.authCodes, codes, q, req, n, [WantCode]) && LastCode(q.newIDs, n, [WantCode]) == Some(id)
  {
    var id := q.newIDs[n];
    var codes := st.authCodes[id := NewCode(req, id, q.issuer.now + 30 * MINUTE)];
    assert CodesAdded(codes, codes, q, req, n + 1, [WantCode][1..]);
    CodesAddedStep(st.authCodes, codes, codes, q, req, n, [WantCode]);
  }

  /** The handler is done before response type n, or with it. */
  predicate Stops(q: ApprovalRequest, req: AuthRequest, n: nat)
    requires n <= |req.responseTypes|
  {
    || n == |req.responseTypes|
    || (req.responseTypes[n].WantCode? && req.redirectURI == OUT_OF_BAND)
    || (req.responseTypes[n].WantIDToken? && TokenFor(q, req).Err?)
  }

  lemma StopShape(st: Store, q: ApprovalRequest, req: AuthRequest, n: nat, sent: Redirect)
    requires n <= |req.responseTypes| <= |q.newIDs| && NewFrom(st, q.newIDs, n) && Stops(q, req, n)
    ensures Shaped(st, q, req, n, sent, Respond(st, q, req, n, sent).0, Respond(st, q, req, n, sent).1)
  {
    if n == |req.responseTypes| {
      assert req.responseTypes[n..] == [];
    } else {
      HandledStep(req, n);
      if req.responseTypes[n].WantCode? {
        OutOfBandShape(st, q, req, n);
      }
    }
  }

  /** The store and the redirect with which the handler turns to the next response type. */
  function Next(st: Store, q: ApprovalRequest, req: AuthRequest, n: nat, sent: Redirect): (r: (Store, Redirect))
    requires n < |req.responseTypes| <= |q.newIDs| && !Stops(q, req, n)
  {
    match req.responseTypes[n]
    case WantCode =>
      var id := q.newIDs[n];
      (st.(authCodes := st.authCodes[id := NewCode(req, id, q.issuer.now + 30 * MINUTE)]), sent.(code := Some(id)))
    case WantToken => (st, sent)
    case WantIDToken => (st, sent.(idToken := Some(TokenFor(q, req).value)))
  }

  lemma NextAdvances(st: Store, q: ApprovalRequest, req: AuthRequest, n: nat, sent: Redirect)
    requires n < |req.responseTypes| <= |q.newIDs| && NewFrom(st, q.newIDs, n) && !Stops(q, req, n)
    ensures var (st', sent') := Next(st, q, req, n, sent);
            && Advances(st, q, req, n, sent, st', sent') && NewFrom(st', q.newIDs, n + 1)
            && Respond(st, q, req, n, sent) == Respond(st', q, req, n + 1, sent')
  {
  }

  lemma {:induction false} RespondShape(st: Store, q: ApprovalRequest, req: AuthRequest, n: nat, sent: Redirect)
    requires n <= |req.responseTypes| <= |q.newIDs| && NewFrom(st, q.newIDs, n)
    ensures Shaped(st, q, req, n, sent, Respond(st, q, req, n, sent).0, Respond(st, q, req, n, sent).1)
    decreases |req.responseTypes| - n
  {
    if Stops(q, req, n) {
      StopShape(st, q, req, n, sent);
    } else {
      NextAdvances(st, q, req, n, sent);
      var (st', sent') := Next(st, q, req, n, sent);
      RespondShape(st', q, req, n + 1, sent');
      var (after, r) := Respond(st, q, req, n, sent);
      ShapeStep(st, q, req, n, sent, st', sent', after, r);
    }
  }

  /** The request can be approved now. */
  ghost predicate Approvable(st: Store, q: ApprovalRequest) {
    && q.id in st.authReqs && st.authReqs[q.id].loggedIn && q.issuer.now <= st.authReqs[q.id].expiry
  }

  /**
   * An approval that is not possible changes nothing. Otherwise the request is gone, and the
   * approval succeeds exactly unless an ID token is wanted and cannot be issued. Each wanted
   * code, or each one wanted before that ID token, is then stored and stands for the request;
   * nothing else changes. The redirect carries the last code.
   */
  lemma ApprovalOutcome(st: Store, q: ApprovalRequest)
    requires Supplied(st, q) && NewFrom(st, q.newIDs, 0)
    ensures var (after, r) := ApproveStore(st, q);
            if !Approvable(st, q) then after == st && r.Err?
            else
              var req := st.authReqs[q.id];
              var types := Handled(req.responseTypes, req.redirectURI == OUT_OF_BAND);
              && after == st.(authReqs := st.authReqs - {q.id}, authCodes := after.authCodes)
              && (r.Ok? <==> WantIDToken !in types || TokenFor(q, req).Ok?)
              && CodesAdded(st.authCodes, after.authCodes, q, req, 0, if r.Ok? then types else BeforeToken(types))
              && (r.Ok? ==> RedirectOK(q, req, 0, types, Redirect(None, None), r.value))
  {
    if Approvable(st, q) {
      var req := st.authReqs[q.id];
      assert req.responseTypes[0..] == req.responseTypes;
      RespondShape(st.(authReqs := st.authReqs - {q.id}), q, req, 0, Redirect(None, None));
    }
  }

  // ----- The approval thread alone -----

  /** The steps for the response types from number n on. */
  function ResponseSteps(t: nat, q: ApprovalRequest, req: AuthRequest, n: nat): (r: seq<Action>)
    requires n <= |req.responseTypes| <= |q.newIDs|
    decreases |req.responseTypes| - n
  {
    if n == |req.responseTypes| then [ApprovalRespond(t)]
    else [if req.responseTypes[n].WantCode? then ApprovalCode(t, q.newIDs[n]) else ApprovalToken(t, q.issuer)]
         + ResponseSteps(t, q, req, n + 1)
  }

  function ApprovalSteps(t: nat, q: ApprovalRequest, req: AuthRequest): (r: seq<Action>)
    requires |req.responseTypes| <= |q.newIDs|
  {
    [ApprovalGet(t, q.id), ApprovalDelete(t, q.accessToken)] + ResponseSteps(t, q, req, 0)
  }

  lemma {:induction false} IdleResponses(s: State, t: nat, q: ApprovalRequest, req: AuthRequest, n: nat)
    requires t !in s.threads && n <= |req.responseTypes| <= |q.newIDs|
    ensures Run(s, ResponseSteps(t, q, req, n)) == s
    decreases |req.responseTypes| - n
  {
    var steps := ResponseSteps(t, q, req, n);
    if n == |req.responseTypes| {
      RunOne(s, ApprovalRespond(t));
    } else {
      assert Apply(s, steps[0]) == s;
      assert steps[1..] == ResponseSteps(t, q, req, n + 1);
      IdleResponses(s, t, q, req, n + 1);
    }
  }

  /** The thread holds what the handler has gathered. */
  ghost predicate Holds(s: State, t: nat, q: ApprovalRequest, req: AuthRequest, n: nat, sent: Redirect)
    requires n <= |req.responseTypes|
  {
    && t in s.threads
    && s.threads[t] == Approval(req, Some(q.accessToken), req.responseTypes[n..],
                                if sent.idToken.None? then None
                                else Some(Minted(sent.idToken.value, q.issuer.clients, req.claims.userID)))
  }

  /** The approval ended with this store, and sent the redirect's ID token if there is one. */
  ghost predicate EndsApproval(s: State, r: State, t: nat, q: ApprovalRequest, req: AuthRequest, store: Store,
                               res: Result<Redirect, HandlerError>)
  {
    && t !in r.threads && r.store == store
    && r.grants.issued == s.grants.issued +
         if res.Ok? && res.value.idToken.Some?
         then [Issued(Minted(res.value.idToken.value, q.issuer.clients, req.claims.userID),
                      req.scopes, req.clientID, req.id, ByApproval)]
         else []
  }

  /** Unused, pairwise different identifiers from number n on, for a thread. */
  ghost predicate UnusedFrom(s: State, newIDs: seq<ID>, n: nat) {
    NewFrom(s.store, newIDs, n) && forall i :: n <= i < |newIDs| ==> newIDs[i] !in s.used
  }

  lemma {:induction false} ResponsesAlone(s: State, t: nat, q: ApprovalRequest, req: AuthRequest, n: nat,
                                          sent: Redirect)
    requires n <= |req.responseTypes| <= |q.newIDs| && q.issuer.now == s.clock
    requires Holds(s, t, q, req, n, sent) && UnusedFrom(s, q.newIDs, n)
    ensures var (store, res) := Respond(s.store, q, req, n, sent);
            EndsApproval(s, Run(s, ResponseSteps(t, q, req, n)), t, q, req, store, res)
    decreases |req.responseTypes| - n
  {
    var steps := ResponseSteps(t, q, req, n);
    if n == |req.responseTypes| {
      RunOne(s, ApprovalRespond(t));
    } else {
      var m := Apply(s, steps[0]);
      assert steps[1..] == ResponseSteps(t, q, req, n + 1);
      assert req.responseTypes[n..][1..] == req.responseTypes[n + 1..];
      match req.responseTypes[n] {
        case WantCode => CodeAlone(s, t, q, req, n, sent);
        case WantToken => ResponsesAlone(m, t, q, req, n + 1, sent);
        case WantIDToken =>
          if TokenFor(q, req).Ok? {
            ResponsesAlone(m, t, q, req, n + 1, sent.(idToken := Some(TokenFor(q, req).value)));
          } else {
            IdleResponses(m, t, q, req, n + 1);
          }
      }
    }
  }

  lemma CodeAlone(s: State, t: nat, q: ApprovalRequest, req: AuthRequest, n: nat, sent: Redirect)
    requires n < |req.responseTypes| <= |q.newIDs| && q.issuer.now == s.clock && req.responseTypes[n].WantCode?
    requires Holds(s, t, q, req, n, sent) && UnusedFrom(s, q.newIDs, n)
    ensures var (store, res) := Respond(s.store, q, req, n, sent);
            EndsApproval(s, Run(s, ResponseSteps(t, q, req, n)), t, q, req, store, res)
    decreases |req.responseTypes| - n, 0
  {
    var steps := ResponseSteps(t, q, req, n);
    var m := DoApprovalCode(s, t, q.newIDs[n]);
    assert steps[1..] == ResponseSteps(t, q, req, n + 1) && Apply(s, steps[0]) == m;
    assert req.responseTypes[n..][1..] == req.responseTypes[n + 1..];
    if req.redirectURI == OUT_OF_BAND {
      IdleResponses(m, t, q, req, n + 1);
    } else {
      ResponsesAlone(m, t, q, req, n + 1, sent.(code := Some(q.newIDs[n])));
    }
  }

  /** An approval that nobody interrupts is the approval handler. */
  lemma ApprovalAlone(s: State, t: nat, q: ApprovalRequest)
    requires t !in s.threads && q.issuer.now == s.clock && q.id in s.store.authReqs && s.store.authReqs[q.id].id == q.id
    requires Supplied(s.store, q) && UnusedFrom(s, q.newIDs, 0)
    requires q.accessToken !in s.used && q.accessToken !in q.newIDs
    ensures var req := s.store.authReqs[q.id];
            var (store, res) := ApproveStore(s.store, q);
            EndsApproval(s, Run(s, ApprovalSteps(t, q, req)), t, q, req, store, res)
  {
    var req := s.store.authReqs[q.id];
    var first := [ApprovalGet(t, q.id), ApprovalDelete(t, q.accessToken)];
    RunSplit(s, first, ResponseSteps(t, q, req, 0));
    RunTwo(s, first[0], first[1]);
    var r := Run(s, first);
    if req.loggedIn && s.clock <= req.expiry {
      assert req.responseTypes[0..] == req.responseTypes;
      ResponsesAlone(r, t, q, req, 0, Redirect(None, None));
    } else {
      IdleResponses(r, t, q, req, 0);
    }
  }
}
