/**
 * Serial runs of all handlers, with and without garbage collection. Expired requests and
 * codes are refused anyway, so collecting them at any moments changes no successful
 * response; the stores of the two runs differ only in expired entries.
 */
module GarbageCollection {
  import opened Common
  import opened Storage
  import opened IDTokens
  import opened TokenProtocol
  import opened Handlers
  import opened SerialRuns

  /** One request to the server, or a sweep of the garbage collector. */
  datatype Event =
    | Open(req: AuthRequest)
    | Choose(id: ID, connector: ConnectorID)
    | Authenticate(id: ID, identity: Identity)
    | Approve(q: ApprovalRequest)
    | Redeem(x: CodeExchange)
    | Renew(r: RefreshRequest)
    | Withdraw(slot: Slot)
    | Sweep

  datatype Timed = Timed(now: Time, event: Event)

  datatype Success = Redirected(redirect: Redirect) | Responded(response: TokenResponse)

  /** The store and every identifier handed out so far. */
  datatype World = World(store: Store, used: set<ID>)

  const START: World := World(EMPTY, {})

  function NewIDs(e: Event): (r: set<ID>) {
    match e
    case Open(req) => {req.id}
    case Approve(q) => (set id | id in q.newIDs) + {q.accessToken}
    case Redeem(x) => {x.accessToken, x.newID, x.newToken}
    case Renew(r) => {r.accessToken, r.newToken}
    case _ => {}
  }

  /** The identifiers of an event are new and, where several are drawn, distinct. */
  ghost predicate Fresh(e: Event, used: set<ID>) {
    NewIDs(e) !! used && (e.Approve? ==> forall i, j :: 0 <= i < j < |e.q.newIDs| ==> e.q.newIDs[i] != e.q.newIDs[j])
  }

  function UpdateRequest(st: Store, id: ID, req: AuthRequest): (r: Store) {
    st.(authReqs := st.authReqs[id := req])
  }

  /** What an event does to the store, and the success it reports. */
  function Handle(st: Store, now: Time, e: Event): (r: (Store, Option<Success>)) {
    match e
    case Open(req) =>
      if req.id in st.authReqs || req.loggedIn then (st, None) else (UpdateRequest(st, req.id, req), None)
    case Choose(id, connector) =>
      if id !in st.authReqs then (st, None)
      else (UpdateRequest(st, id, st.authReqs[id].(connectorID := connector)), None)
    case Authenticate(id, identity) =>
      if id !in st.authReqs then (st, None)
      else (UpdateRequest(st, id, st.authReqs[id].(loggedIn := true, claims := identity.claims,
                                                   connectorData := identity.data)), None)
    case Approve(q) =>
      var q' := q.(issuer := q.issuer.(now := now));
      if !Supplied(st, q') then (st, None)
      else
        var (st', res) := ApproveStore(st, q');
        (st', if res.Ok? then Some(Redirected(res.value)) else None)
    case Redeem(x) =>
      var (st', res) := ExchangeCode(st, x.(issuer := x.issuer.(now := now)));
      (st', if res.Ok? then Some(Responded(res.value)) else None)
    case Renew(r) =>
      var (st', res) := RefreshStore(st, r.(issuer := r.issuer.(now := now)));
      (st', if res.Ok? then Some(Responded(res.value)) else None)
    case Withdraw(slot) => (RevokeStore(st, slot).0, None)
    case Sweep => (Collected(st, now), None)
  }

  ghost function Exec(w: World, t: Timed): (r: (World, Option<Success>)) {
    if !Fresh(t.event, w.used) then (w, None)
    else
      var (st, success) := Handle(w.store, t.now, t.event);
      (World(st, w.used + NewIDs(t.event)), success)
  }

  /** The successful responses of a run, in order. */
  ghost function Successes(w: World, steps: seq<Timed>): (r: seq<Success>)
    decreases |steps|
  {
    if steps == [] then []
    else
      var (w', success) := Exec(w, steps[0]);
      (if success.Some? then [success.value] else []) + Successes(w', steps[1..])
  }

  ghost function Final(w: World, steps: seq<Timed>): (r: World)
    decreases |steps|
  {
    if steps == [] then w else Final(Exec(w, steps[0]).0, steps[1..])
  }

  // ----- Every serial run keeps references and tokens in bijection -----

  ghost predicate IDsKnown(w: World) {
    && (forall id :: id in w.store.authReqs ==> id in w.used)
    && (forall id :: id in w.store.authCodes ==> id in w.used)
    && (forall id :: id in w.store.refreshTokens ==> id in w.used)
  }

  lemma RespondKeepsTokens(st: Store, q: ApprovalRequest, req: AuthRequest, n: nat, sent: Redirect)
    requires n <= |req.responseTypes| <= |q.newIDs|
    ensures var r := Respond(st, q, req, n, sent).0;
            && r.sessions == st.sessions && r.refreshTokens == st.refreshTokens && r.authReqs == st.authReqs
            && forall id :: id in r.authCodes ==> id in st.authCodes || id in q.newIDs
    decreases |req.responseTypes| - n
  {
  }

  lemma StepKeepsIDs(w: World, t: Timed)
    requires IDsKnown(w)
    ensures IDsKnown(Exec(w, t).0)
  {
    var st := w.store;
    if t.event.Approve? && Fresh(t.event, w.used) {
      var q := t.event.q;
      if q.id in st.authReqs && |st.authReqs[q.id].responseTypes| <= |q.newIDs| {
        RespondKeepsTokens(st.(authReqs := st.authReqs - {q.id}), q.(issuer := q.issuer.(now := t.now)),
                           st.authReqs[q.id], 0, Redirect(None, None));
      }
    }
  }

  lemma HandleKeepsBijection(st: Store, now: Time, e: Event)
    requires Bijective(st) && (e.Redeem? ==> e.x.newID !in st.refreshTokens)
    ensures Bijective(Handle(st, now, e).0)
  {
    match e {
      case Redeem(x) => ExchangeKeepsBijection(st, x.(issuer := x.issuer.(now := now)));
      case Renew(r) => RefreshKeepsBijection(st, r.(issuer := r.issuer.(now := now)));
      case Withdraw(slot) => RevokeKeepsBijection(st, slot);
      case Approve(q) =>
        if q.id in st.authReqs && |st.authReqs[q.id].responseTypes| <= |q.newIDs| {
          RespondKeepsTokens(st.(authReqs := st.authReqs - {q.id}), q.(issuer := q.issuer.(now := now)),
                             st.authReqs[q.id], 0, Redirect(None, None));
        }
      case _ =>
    }
  }

  lemma StepKeepsBijection(w: World, t: Timed)
    requires Bijective(w.store) && IDsKnown(w)
    ensures Bijective(Exec(w, t).0.store) && IDsKnown(Exec(w, t).0)
  {
    StepKeepsIDs(w, t);
    if Fresh(t.event, w.used) {
      HandleKeepsBijection(w.store, t.now, t.event);
    }
  }

  /** After any serial run, stored refresh tokens and session references are in bijection. */
  lemma {:induction false} SerialRunsStayBijective(w: World, steps: seq<Timed>)
    requires Bijective(w.store) && IDsKnown(w)
    ensures Bijective(Final(w, steps).store)
    decreases |steps|
  {
    if steps != [] {
      StepKeepsBijection(w, steps[0]);
      SerialRunsStayBijective(Exec(w, steps[0]).0, steps[1..]);
    }
  }

  // ----- Collecting garbage is invisible to success -----

  /** The first table lacks only entries of the second that expired before now. */
  ghost predicate SameRequests(a: map<ID, AuthRequest>, b: map<ID, AuthRequest>, now: Time) {
    && (forall id :: id in a ==> id in b && a[id] == b[id])
    && (forall id :: id in b && id !in a ==> b[id].expiry < now)
  }

  ghost predicate SameCodes(a: map<ID, AuthCode>, b: map<ID, AuthCode>, now: Time) {
    && (forall id :: id in a ==> id in b && a[id] == b[id])
    && (forall id :: id in b && id !in a ==> b[id].expiry < now)
  }

  ghost predicate SameUpToExpired(a: Store, b: Store, now: Time) {
    && SameRequests(a.authReqs, b.authReqs, now)
    && SameCodes(a.authCodes, b.authCodes, now)
    && a.refreshTokens == b.refreshTokens
    && a.sessions == b.sessions
  }

  lemma SweepIsInvisible(a: Store, b: Store, now: Time)
    requires SameUpToExpired(a, b, now)
    ensures SameUpToExpired(Collected(a, now), b, now)
  {
  }

  lemma RequestEventsAgree(a: Store, b: Store, now: Time, e: Event)
    requires SameUpToExpired(a, b, now) && (e.Open? || e.Choose? || e.Authenticate?)
    requires e.Open? ==> e.req.id !in b.authReqs
    ensures SameUpToExpired(Handle(a, now, e).0, Handle(b, now, e).0, now)
    ensures Handle(a, now, e).1 == Handle(b, now, e).1
  {
    match e {
      case Open(req) => UpdatesAgree(a, b, now, req.id, req);
      case Choose(id, connector) =>
        if id in a.authReqs { UpdatesAgree(a, b, now, id, a.authReqs[id].(connectorID := connector)); }
      case Authenticate(id, i) =>
        if id in a.authReqs {
          UpdatesAgree(a, b, now, id,
                       a.authReqs[id].(loggedIn := true, claims := i.claims, connectorData := i.data));
        }
    }
  }

  /** Writing the same request to both stores. */
  lemma UpdatesAgree(a: Store, b: Store, now: Time, id: ID, req: AuthRequest)
    requires SameUpToExpired(a, b, now)
    ensures SameUpToExpired(UpdateRequest(a, id, req), UpdateRequest(b, id, req), now)
  {
  }

  lemma {:induction false} ResponsesAgree(a: Store, b: Store, q: ApprovalRequest, req: AuthRequest, n: nat,
                                          sent: Redirect)
    requires n <= |req.responseTypes| <= |q.newIDs| && SameUpToExpired(a, b, q.issuer.now)
    requires forall i :: n <= i < |q.newIDs| ==> q.newIDs[i] !in b.authCodes
    requires forall i, j :: 0 <= i < j < |q.newIDs| ==> q.newIDs[i] != q.newIDs[j]
    ensures SameUpToExpired(Respond(a, q, req, n, sent).0, Respond(b, q, req, n, sent).0, q.issuer.now)
    ensures Respond(a, q, req, n, sent).1 == Respond(b, q, req, n, sent).1
    decreases |req.responseTypes| - n
  {
    if n < |req.responseTypes| {
      match req.responseTypes[n] {
        case WantCode =>
          var id := q.newIDs[n];
          var code := NewCode(req, id, q.issuer.now + 30 * MINUTE);
          ResponsesAgree(a.(authCodes := a.authCodes[id := code]), b.(authCodes := b.authCodes[id := code]),
                         q, req, n + 1, sent.(code := Some(id)));
        case WantToken => ResponsesAgree(a, b, q, req, n + 1, sent);
        case WantIDToken =>
          var token := Issue(q.issuer, req.clientID, req.claims, req.scopes, req.nonce, q.accessToken, req.connectorID);
          if token.Ok? {
            ResponsesAgree(a, b, q, req, n + 1, sent.(idToken := Some(token.value)));
          }
      }
    }
  }

  lemma ApprovalsAgree(a: Store, b: Store, now: Time, q: ApprovalRequest)
    requires SameUpToExpired(a, b, now) && Fresh(Approve(q), b.authCodes.Keys)
    ensures SameUpToExpired(Handle(a, now, Approve(q)).0, Handle(b, now, Approve(q)).0, now)
    ensures Handle(a, now, Approve(q)).1 == Handle(b, now, Approve(q)).1
  {
    var q' := q.(issuer := q.issuer.(now := now));
    if q.id in a.authReqs && Supplied(a, q') {
      forall i | 0 <= i < |q.newIDs| ensures q.newIDs[i] !in b.authCodes {
        assert q.newIDs[i] in NewIDs(Approve(q));
      }
      ResponsesAgree(a.(authReqs := a.authReqs - {q.id}), b.(authReqs := b.authReqs - {q.id}), q', a.authReqs[q.id], 0,
                     Redirect(None, None));
    }
  }

  /** The store with other requests and codes. */
  function Swap(st: Store, other: Store): (r: Store) {
    st.(authReqs := other.authReqs, authCodes := other.authCodes)
  }

  lemma AddRefreshAgrees(a: Store, b: Store, code: AuthCode, x: CodeExchange)
    requires b == Swap(a, b)
    ensures AddRefresh(b, code, x) == (Swap(AddRefresh(a, code, x).0, b), AddRefresh(a, code, x).1)
    ensures AddRefresh(a, code, x).0 == Swap(AddRefresh(a, code, x).0, a)
  {
  }

  /** An exchange agrees in both stores: the code is in both, or in one and expired. */
  lemma ExchangeCodeAgrees(a: Store, b: Store, x: CodeExchange)
    requires SameUpToExpired(a, b, x.issuer.now) && x.code in a.authCodes
    ensures SameUpToExpired(ExchangeCode(a, x).0, ExchangeCode(b, x).0, x.issuer.now)
    ensures ExchangeCode(a, x).1 == ExchangeCode(b, x).1
  {
    var ra, rb := a.(authCodes := a.authCodes - {x.code}), b.(authCodes := b.authCodes - {x.code});
    assert SameUpToExpired(ra, rb, x.issuer.now);
    AddRefreshAgrees(ra, rb, a.authCodes[x.code], x);
  }

  lemma ExchangesAgree(a: Store, b: Store, now: Time, x: CodeExchange)
    requires SameUpToExpired(a, b, now)
    ensures SameUpToExpired(Handle(a, now, Redeem(x)).0, Handle(b, now, Redeem(x)).0, now)
    ensures Handle(a, now, Redeem(x)).1 == Handle(b, now, Redeem(x)).1
  {
    var x' := x.(issuer := x.issuer.(now := now));
    if x.code in a.authCodes {
      ExchangeCodeAgrees(a, b, x');
    } else {
      assert ExchangeCode(a, x').0 == a && ExchangeCode(b, x').0 == b;
    }
  }

  lemma RefreshStoreAgrees(a: Store, b: Store, q: RefreshRequest)
    requires b == Swap(a, b)
    ensures RefreshStore(b, q) == (Swap(RefreshStore(a, q).0, b), RefreshStore(a, q).1)
    ensures RefreshStore(a, q).0 == Swap(RefreshStore(a, q).0, a)
  {
  }

  lemma RevokeStoreAgrees(a: Store, b: Store, slot: Slot)
    requires b == Swap(a, b)
    ensures RevokeStore(b, slot) == (Swap(RevokeStore(a, slot).0, b), RevokeStore(a, slot).1)
    ensures RevokeStore(a, slot).0 == Swap(RevokeStore(a, slot).0, a)
  {
  }

  lemma RefreshesAgree(a: Store, b: Store, now: Time, e: Event)
    requires SameUpToExpired(a, b, now) && (e.Renew? || e.Withdraw?)
    ensures SameUpToExpired(Handle(a, now, e).0, Handle(b, now, e).0, now)
    ensures Handle(a, now, e).1 == Handle(b, now, e).1
  {
    match e {
      case Renew(r) => RefreshStoreAgrees(a, b, r.(issuer := r.issuer.(now := now)));
      case Withdraw(slot) => RevokeStoreAgrees(a, b, slot);
    }
  }

  ghost predicate Similar(a: World, b: World, now: Time) {
    SameUpToExpired(a.store, b.store, now) && a.used == b.used && IDsKnown(b)
  }

  lemma StepsAgree(a: World, b: World, t: Timed)
    requires Similar(a, b, t.now) && !t.event.Sweep?
    ensures Similar(Exec(a, t).0, Exec(b, t).0, t.now) && Exec(a, t).1 == Exec(b, t).1
  {
    StepKeepsIDs(b, t);
    if Fresh(t.event, b.used) {
      match t.event {
        case Approve(q) => ApprovalsAgree(a.store, b.store, t.now, q);
        case Redeem(x) => ExchangesAgree(a.store, b.store, t.now, x);
        case Renew(_) => RefreshesAgree(a.store, b.store, t.now, t.event);
        case Withdraw(_) => RefreshesAgree(a.store, b.store, t.now, t.event);
        case _ => RequestEventsAgree(a.store, b.store, t.now, t.event);
      }
    }
  }

  /** The same run without its sweeps. */
  function WithoutSweeps(steps: seq<Timed>): (r: seq<Timed>) {
    if steps == [] then []
    else if steps[0].event.Sweep? then WithoutSweeps(steps[1..])
    else [steps[0]] + WithoutSweeps(steps[1..])
  }

  ghost predicate Ordered(steps: seq<Timed>) {
    forall i, j :: 0 <= i < j < |steps| ==> steps[i].now <= steps[j].now
  }

  lemma {:induction false} SweepsAreInvisibleFrom(a: World, b: World, now: Time, steps: seq<Timed>)
    requires Similar(a, b, now) && Ordered(steps)
    requires steps != [] ==> now <= steps[0].now
    ensures Successes(a, steps) == Successes(b, WithoutSweeps(steps))
    decreases |steps|
  {
    if steps != [] {
      var t := steps[0];
      assert Similar(a, b, t.now);
      if t.event.Sweep? {
        SweepIsInvisible(a.store, b.store, t.now);
        SweepsAreInvisibleFrom(Exec(a, t).0, b, t.now, steps[1..]);
      } else {
        StepsAgree(a, b, t);
        SweepsAreInvisibleFrom(Exec(a, t).0, Exec(b, t).0, t.now, steps[1..]);
        assert WithoutSweeps(steps)[1..] == WithoutSweeps(steps[1..]);
      }
    }
  }

  /** Sweeping at any moments leaves every successful response as it was. */
  lemma SweepsAreInvisible(steps: seq<Timed>)
    requires Ordered(steps)
    ensures Successes(START, steps) == Successes(START, WithoutSweeps(steps))
  {
    SweepsAreInvisibleFrom(START, START, if steps == [] then 0 else steps[0].now, steps);
  }

  // ----- Exactly which replies a sweep changes -----

  ghost predicate ExpiredCode(st: Store, id: ID, at: Time) {
    id in st.authCodes && st.authCodes[id].expiry < at
  }

  ghost predicate ExpiredRequest(st: Store, id: ID, at: Time) {
    id in st.authReqs && st.authReqs[id].expiry < at
  }

  /**
   * A sweep changes the reply to an exchange exactly if it took its code: a server error becomes an
   * invalid request.
   */
  lemma SweepChangesExchangeIff(st: Store, at: Time, x: CodeExchange)
    requires at <= x.issuer.now
    ensures ExchangeCode(st, x).1 == ExchangeCode(Collected(st, at), x).1 <==> !ExpiredCode(st, x.code, at)
    ensures ExpiredCode(st, x.code, at) ==>
              ExchangeCode(st, x).1 == Err(ServerError) && ExchangeCode(Collected(st, at), x).1 == Err(InvalidRequest)
  {
    if x.code in st.authCodes && !ExpiredCode(st, x.code, at) {
      ExchangeCodeAgrees(Collected(st, at), st, x);
    }
  }

  /** A sweep changes the reply to an approval exactly if it took a request that was logged in. */
  lemma SweepChangesApprovalIff(st: Store, at: Time, q: ApprovalRequest)
    requires at <= q.issuer.now && Supplied(st, q) && Fresh(Approve(q), st.authCodes.Keys)
    ensures Supplied(Collected(st, at), q)
    ensures ApproveStore(st, q).1 == ApproveStore(Collected(st, at), q).1 <==>
            !(ExpiredRequest(st, q.id, at) && st.authReqs[q.id].loggedIn)
    ensures ExpiredRequest(st, q.id, at) && st.authReqs[q.id].loggedIn ==>
              ApproveStore(st, q).1 == Err(SessionError) && ApproveStore(Collected(st, at), q).1 == Err(ServerError)
  {
    if q.id in st.authReqs && !ExpiredRequest(st, q.id, at) {
      forall i | 0 <= i < |q.newIDs| ensures q.newIDs[i] !in st.authCodes {
        assert q.newIDs[i] in NewIDs(Approve(q));
      }
      var swept := Collected(st, at);
      ResponsesAgree(swept.(authReqs := swept.authReqs - {q.id}), st.(authReqs := st.authReqs - {q.id}), q,
                     st.authReqs[q.id], 0, Redirect(None, None));
    }
  }

  /** No sweep changes the reply to a refresh or a revocation. */
  lemma SweepNeverChangesRefreshes(st: Store, at: Time, q: RefreshRequest, slot: Slot)
    ensures RefreshStore(st, q).1 == RefreshStore(Collected(st, at), q).1
    ensures RevokeStore(st, slot).1 == RevokeStore(Collected(st, at), slot).1
  {
    RefreshStoreAgrees(Collected(st, at), st, q);
    RevokeStoreAgrees(Collected(st, at), st, slot);
  }
}
