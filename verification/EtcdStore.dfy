/**
 * The etcd backend (dex/storage/etcd/etcd.go): creates and updates are conditional writes on
 * key revisions, and an update reads, computes and then writes if the key is still at the
 * revision it read. Any number of clients interleave; the server's requests are atomic.
 */
module EtcdStore {
  import opened Common

  type Key = nat
  type Value = nat

  /** An update of an encoded value; it sees nothing when the key is missing, and may refuse. */
  type Updater = Option<Value> -> Option<Value>

  datatype Op = Get(key: Key) | Create(key: Key, value: Value) | Delete(key: Key) | Update(key: Key, updater: Updater)

  datatype Reply = Found(value: Value) | Done | NotFound | AlreadyExists | Rejected | Conflict

  // ----- A plain map, the specification -----

  function Lookup(m: map<Key, Value>, k: Key): (r: Option<Value>) {
    if k in m then Some(m[k]) else None
  }

  /** One operation on a plain map. */
  function Perform(m: map<Key, Value>, op: Op): (r: (map<Key, Value>, Reply)) {
    match op
    case Get(k) => (m, if k in m then Found(m[k]) else NotFound)
    case Create(k, v) => if k in m then (m, AlreadyExists) else (m[k := v], Done)
    case Delete(k) => if k in m then (m - {k}, Done) else (m, NotFound)
    case Update(k, f) =>
      var updated := f(Lookup(m, k));
      if updated.None? then (m, Rejected) else (m[k := updated.value], Done)
  }

  /** An operation as it took effect; an update also records the revision it had read and when. */
  datatype Effect = Effect(call: ID, op: Op, reply: Reply, readRev: nat, readAt: nat)

  /** A conflicting update changes nothing; every other operation acts as on a plain map. */
  ghost function After(m: map<Key, Value>, e: Effect): (r: map<Key, Value>) {
    if e.reply.Conflict? then m else Perform(m, e.op).0
  }

  ghost function Replay(log: seq<Effect>): (r: map<Key, Value>) {
    if log == [] then map[] else After(Replay(log[..|log| - 1]), Last(log))
  }

  ghost predicate Explained(m: map<Key, Value>, e: Effect) {
    if e.reply.Conflict? then e.op.Update? else e.reply == Perform(m, e.op).1
  }

  /** Every reply is the one a plain map would give at that point. */
  ghost predicate Legal(log: seq<Effect>) {
    forall i :: 0 <= i < |log| ==> Explained(Replay(log[..i]), log[i])
  }

  predicate Writes(e: Effect, k: Key) {
    e.op.key == k && e.reply.Done?
  }

  // ----- The server -----

  datatype Entry = Entry(value: Value, modRev: nat)

  datatype Server = Server(rev: nat, kv: map<Key, Entry>)

  const EMPTY: Server := Server(0, map[])

  function Contents(kv: map<Key, Entry>): (r: map<Key, Value>) {
    map k | k in kv :: kv[k].value
  }

  function ModRevision(s: Server, k: Key): (r: nat) {
    if k in s.kv then s.kv[k].modRev else 0
  }

  function Put(s: Server, k: Key, v: Value): (r: Server) {
    Server(s.rev + 1, s.kv[k := Entry(v, s.rev + 1)])
  }

  function Remove(s: Server, k: Key): (r: Server) {
    Server(s.rev + 1, s.kv - {k})
  }

  // ----- Clients -----

  datatype Stage =
    | Waiting
    | Computed(updated: Value, seen: Option<Value>, readRev: nat, readAt: nat)
    | Logged(index: nat)
    | Answered(index: nat, until: nat)

  /** A call, invoked when the log had the given length. */
  datatype Call = Call(op: Op, from: nat, stage: Stage)

  datatype State = State(server: Server, calls: map<ID, Call>, log: seq<Effect>)

  const INIT: State := State(EMPTY, map[], [])

  datatype Action =
    | Invoke(id: ID, op: Op)
    | Request(id: ID)
    | Commit(id: ID)
    | Return(id: ID)

  function SetStage(s: State, id: ID, stage: Stage): (r: State)
    requires id in s.calls
  {
    s.(calls := s.calls[id := s.calls[id].(stage := stage)])
  }

  function Log(s: State, id: ID, server: Server, reply: Reply, readRev: nat, readAt: nat): (r: State)
    requires id in s.calls
  {
    State(server, SetStage(s, id, Logged(|s.log|)).calls, s.log + [Effect(id, s.calls[id].op, reply, readRev, readAt)])
  }

  function DoInvoke(s: State, id: ID, op: Op): (r: State) {
    if id in s.calls then s else s.(calls := s.calls[id := Call(op, |s.log|, Waiting)])
  }

  /** The first request of a call: all of it, or the read of an update and its computation. */
  function DoRequest(s: State, id: ID): (r: State)
    requires id in s.calls && s.calls[id].stage.Waiting?
  {
    var server := s.server;
    match s.calls[id].op
    case Get(k) => Log(s, id, server, if k in server.kv then Found(server.kv[k].value) else NotFound, 0, |s.log|)
    case Create(k, v) =>
      if k !in server.kv then Log(s, id, Put(server, k, v), Done, 0, |s.log|)
      else Log(s, id, server, AlreadyExists, 0, |s.log|)
    case Delete(k) =>
      if k in server.kv then Log(s, id, Remove(server, k), Done, 0, |s.log|)
      else Log(s, id, server, NotFound, 0, |s.log|)
    case Update(k, f) =>
      var seen := if k in server.kv then Some(server.kv[k].value) else None;
      var updated := f(seen);
      if updated.None? then Log(s, id, server, Rejected, ModRevision(server, k), |s.log|)
      else SetStage(s, id, Computed(updated.value, seen, ModRevision(server, k), |s.log|))
  }

  /** The conditional write of an update. */
  function DoCommit(s: State, id: ID): (r: State)
    requires id in s.calls && s.calls[id].stage.Computed?
  {
    var c, k := s.calls[id].stage, s.calls[id].op.key;
    if ModRevision(s.server, k) == c.readRev then Log(s, id, Put(s.server, k, c.updated), Done, c.readRev, c.readAt)
    else Log(s, id, s.server, Conflict, c.readRev, c.readAt)
  }

  function Apply(s: State, a: Action): (r: State) {
    match a
    case Invoke(id, op) => DoInvoke(s, id, op)
    case Request(id) => if id in s.calls && s.calls[id].stage.Waiting? then DoRequest(s, id) else s
    case Commit(id) => if id in s.calls && s.calls[id].stage.Computed? then DoCommit(s, id) else s
    case Return(id) =>
      if id !in s.calls || !s.calls[id].stage.Logged? then s
      else SetStage(s, id, Answered(s.calls[id].stage.index, |s.log|))
  }

  function Run(s: State, actions: seq<Action>): (r: State)
    decreases |actions|
  {
    if actions == [] then s else Run(Apply(s, actions[0]), actions[1..])
  }

  // ----- Invariants -----

  ghost predicate ServerOK(s: Server) {
    forall k :: k in s.kv ==> 0 < s.kv[k].modRev <= s.rev
  }

  /** The server holds what the log replays to, and the log is legal. */
  ghost predicate LogInv(s: State) {
    ServerOK(s.server) && Contents(s.server.kv) == Replay(s.log) && Legal(s.log)
  }

  /** Since it was read, the key is at the same revision with the same value, or somebody wrote it. */
  ghost predicate ReadOK(server: Server, log: seq<Effect>, k: Key, c: Stage)
    requires c.Computed?
  {
    && c.readAt <= |log| && c.readRev <= server.rev && (c.readRev == 0 ==> c.seen.None?)
    && (if ModRevision(server, k) == c.readRev then c.seen == Lookup(Contents(server.kv), k)
        else exists j :: c.readAt <= j < |log| && Writes(log[j], k))
    && (c.readRev != 0 && ModRevision(server, k) == c.readRev ==>
          forall j :: c.readAt <= j < |log| ==> !Writes(log[j], k))
  }

  ghost predicate CallOK(s: State, id: ID, c: Call) {
    match c.stage
    case Waiting => c.from <= |s.log|
    case Computed(updated, seen, _, readAt) =>
      c.op.Update? && c.op.updater(seen) == Some(updated) && c.from <= readAt
          && ReadOK(s.server, s.log, c.op.key, c.stage)
    case Logged(index) => c.from <= index < |s.log| && s.log[index].call == id && s.log[index].op == c.op
    case Answered(index, until) =>
      c.from <= index < until <= |s.log| && s.log[index].call == id && s.log[index].op == c.op
  }

  ghost predicate CallsInv(s: State) {
    forall id :: id in s.calls ==> CallOK(s, id, s.calls[id])
  }

  /** Each effect is the one effect of its call. */
  ghost predicate EffectsInv(s: State) {
    forall i :: 0 <= i < |s.log| ==>
                  && s.log[i].call in s.calls
                  && var c := s.calls[s.log[i].call];
                     (c.stage.Logged? || c.stage.Answered?) && c.stage.index == i && c.op == s.log[i].op
  }

  /** A write has overtaken the revision an update read: it is never current again. */
  ghost predicate Overtaken(server: Server, e: Effect) {
    e.op.Update? && e.reply.Done? ==>
      e.readRev <= server.rev && (e.readRev != 0 ==> ModRevision(server, e.op.key) != e.readRev)
  }

  ghost predicate OvertakenInv(s: State) {
    forall i :: 0 <= i < |s.log| ==> Overtaken(s.server, s.log[i])
  }

  /** Updates on one non-zero revision commit at most once. */
  ghost predicate UniqueInv(log: seq<Effect>) {
    forall i, j :: 0 <= i < j < |log| && SameRead(log[i], log[j]) ==> !(log[i].reply.Done? && log[j].reply.Done?)
  }

  predicate SameRead(d: Effect, e: Effect) {
    d.op.Update? && e.op.Update? && d.op.key == e.op.key && d.readRev == e.readRev != 0
  }

  /** A conflict has a cause: a write of the key between the read and the failed commit. */
  ghost predicate Caused(log: seq<Effect>, i: nat)
    requires i < |log|
  {
    log[i].reply.Conflict? ==> exists j :: log[i].readAt <= j < i && Writes(log[j], log[i].op.key)
  }

  /** No update is lost: between reading a stored value and replacing it nobody wrote the key. */
  ghost predicate Unlost(log: seq<Effect>, i: nat)
    requires i < |log|
  {
    log[i].op.Update? && log[i].reply.Done? && log[i].readRev != 0 ==>
      forall j :: log[i].readAt <= j < i ==> !Writes(log[j], log[i].op.key)
  }

  ghost predicate CauseInv(log: seq<Effect>) {
    forall i :: 0 <= i < |log| ==> Caused(log, i) && Unlost(log, i)
  }

  ghost predicate Inv(s: State) {
    LogInv(s) && CallsInv(s) && EffectsInv(s) && OvertakenInv(s) && UniqueInv(s.log) && CauseInv(s.log)
  }

  // ----- One more effect -----

  /** How a logged effect must fit the server's change. */
  ghost predicate Fits(before: Server, after: Server, e: Effect) {
    && Explained(Contents(before.kv), e)
    && (if e.reply.Done? then
          || (exists v :: after == Put(before, e.op.key, v))
          || after == Remove(before, e.op.key)
        else after == before)
    && Contents(after.kv) == After(Contents(before.kv), e)
    && (e.op.Update? && e.reply.Done? ==> e.readRev == ModRevision(before, e.op.key))
  }

  lemma LogKeepsLegal(s: State, id: ID, server: Server, reply: Reply, readRev: nat, readAt: nat)
    requires LogInv(s) && id in s.calls
    requires Fits(s.server, server, Effect(id, s.calls[id].op, reply, readRev, readAt))
    ensures LogInv(Log(s, id, server, reply, readRev, readAt))
  {
    var e := Effect(id, s.calls[id].op, reply, readRev, readAt);
    var log := s.log + [e];
    assert log[..|s.log|] == s.log;
    forall i | 0 <= i < |log| ensures Explained(Replay(log[..i]), log[i]) {
      if i < |s.log| {
        assert log[..i] == s.log[..i];
      }
    }
  }

  /** A read stays accurate, or somebody wrote the key. */
  lemma ReadStaysOK(before: Server, after: Server, log: seq<Effect>, e: Effect, k: Key, c: Stage)
    requires c.Computed? && ServerOK(before) && ReadOK(before, log, k, c) && Fits(before, after, e)
    ensures ReadOK(after, log + [e], k, c)
  {
    var log' := log + [e];
    if j :| c.readAt <= j < |log| && Writes(log[j], k) {
      assert Writes(log'[j], k);
    }
    if Writes(e, k) {
      assert Writes(log'[|log|], k);
    } else {
      assert ModRevision(after, k) == ModRevision(before, k);
      assert Lookup(Contents(after.kv), k) == Lookup(Contents(before.kv), k);
    }
  }

  lemma LogKeepsCalls(s: State, id: ID, server: Server, reply: Reply, readRev: nat, readAt: nat)
    requires LogInv(s) && CallsInv(s) && id in s.calls && s.calls[id].from <= |s.log|
    requires Fits(s.server, server, Effect(id, s.calls[id].op, reply, readRev, readAt))
    ensures CallsInv(Log(s, id, server, reply, readRev, readAt))
  {
    var e := Effect(id, s.calls[id].op, reply, readRev, readAt);
    var r := Log(s, id, server, reply, readRev, readAt);
    forall x | x in r.calls ensures CallOK(r, x, r.calls[x]) {
      if x != id {
        var c := s.calls[x];
        assert CallOK(s, x, c);
        if c.stage.Computed? {
          ReadStaysOK(s.server, server, s.log, e, c.op.key, c.stage);
        }
      }
    }
  }

  lemma LogKeepsEffects(s: State, id: ID, server: Server, reply: Reply, readRev: nat, readAt: nat)
    requires EffectsInv(s) && id in s.calls && (s.calls[id].stage.Waiting? || s.calls[id].stage.Computed?)
    ensures EffectsInv(Log(s, id, server, reply, readRev, readAt))
  {
  }

  lemma LogKeepsOvertaken(s: State, id: ID, server: Server, reply: Reply, readRev: nat, readAt: nat)
    requires ServerOK(s.server) && OvertakenInv(s) && id in s.calls
    requires Fits(s.server, server, Effect(id, s.calls[id].op, reply, readRev, readAt))
    ensures OvertakenInv(Log(s, id, server, reply, readRev, readAt))
  {
    var e := Effect(id, s.calls[id].op, reply, readRev, readAt);
    var r := Log(s, id, server, reply, readRev, readAt);
    forall i | 0 <= i < |r.log| ensures Overtaken(server, r.log[i]) {
      if i < |s.log| {
        assert Overtaken(s.server, s.log[i]);
      }
    }
  }

  lemma LogKeepsUnique(s: State, e: Effect)
    requires OvertakenInv(s) && UniqueInv(s.log)
    requires e.op.Update? && e.reply.Done? ==> e.readRev == ModRevision(s.server, e.op.key)
    ensures UniqueInv(s.log + [e])
  {
    var log := s.log + [e];
    forall i, j | 0 <= i < j < |log| && SameRead(log[i], log[j]) ensures !(log[i].reply.Done? && log[j].reply.Done?) {
      assert Overtaken(s.server, s.log[i]);
    }
  }

  lemma LogKeepsCauses(log: seq<Effect>, e: Effect)
    requires CauseInv(log) && Caused(log + [e], |log|) && Unlost(log + [e], |log|)
    ensures CauseInv(log + [e])
  {
    var log' := log + [e];
    forall i | 0 <= i < |log'| ensures Caused(log', i) && Unlost(log', i) {
      if i < |log| {
        assert Caused(log, i) && Unlost(log, i);
        if log[i].reply.Conflict? {
          var j :| log[i].readAt <= j < i && Writes(log[j], log[i].op.key);
          assert Writes(log'[j], log'[i].op.key);
        }
      }
    }
  }

  lemma LogKeepsInv(s: State, id: ID, server: Server, reply: Reply, readRev: nat, readAt: nat)
    requires Inv(s) && id in s.calls && (s.calls[id].stage.Waiting? || s.calls[id].stage.Computed?)
    requires var e := Effect(id, s.calls[id].op, reply, readRev, readAt);
             Fits(s.server, server, e) && Caused(s.log + [e], |s.log|) && Unlost(s.log + [e], |s.log|)
    ensures Inv(Log(s, id, server, reply, readRev, readAt))
  {
    assert CallOK(s, id, s.calls[id]);
    LogKeepsLegal(s, id, server, reply, readRev, readAt);
    LogKeepsCalls(s, id, server, reply, readRev, readAt);
    LogKeepsEffects(s, id, server, reply, readRev, readAt);
    LogKeepsOvertaken(s, id, server, reply, readRev, readAt);
    LogKeepsUnique(s, Effect(id, s.calls[id].op, reply, readRev, readAt));
    LogKeepsCauses(s.log, Effect(id, s.calls[id].op, reply, readRev, readAt));
  }

  // ----- Each action -----

  lemma PutContents(s: Server, k: Key, v: Value)
    ensures Contents(Put(s, k, v).kv) == Contents(s.kv)[k := v]
    ensures Contents(Remove(s, k).kv) == Contents(s.kv) - {k}
  {
  }

  lemma RequestKeepsInv(s: State, id: ID)
    requires Inv(s) && id in s.calls && s.calls[id].stage.Waiting?
    ensures Inv(DoRequest(s, id))
  {
    var server, op := s.server, s.calls[id].op;
    match op {
      case Get(k) => LogKeepsInv(s, id, server, if k in server.kv then Found(server.kv[k].value) else NotFound, 0,
                                 |s.log|);
      case Create(k, v) =>
        PutContents(server, k, v);
        if k !in server.kv {
          LogKeepsInv(s, id, Put(server, k, v), Done, 0, |s.log|);
        } else {
          LogKeepsInv(s, id, server, AlreadyExists, 0, |s.log|);
        }
      case Delete(k) =>
        PutContents(server, k, 0);
        if k in server.kv {
          LogKeepsInv(s, id, Remove(server, k), Done, 0, |s.log|);
        } else {
          LogKeepsInv(s, id, server, NotFound, 0, |s.log|);
        }
      case Update(k, f) =>
        var seen := if k in server.kv then Some(server.kv[k].value) else None;
        assert seen == Lookup(Contents(server.kv), k);
        if f(seen).None? {
          LogKeepsInv(s, id, server, Rejected, ModRevision(server, k), |s.log|);
        } else {
          ComputedKeepsInv(s, id, k, f, seen);
        }
    }
  }

  lemma ComputedKeepsInv(s: State, id: ID, k: Key, f: Updater, seen: Option<Value>)
    requires Inv(s) && id in s.calls && s.calls[id].stage.Waiting? && s.calls[id].op == Update(k, f)
    requires seen == Lookup(Contents(s.server.kv), k) && f(seen).Some?
    ensures Inv(SetStage(s, id, Computed(f(seen).value, seen, ModRevision(s.server, k), |s.log|)))
  {
    var r := SetStage(s, id, Computed(f(seen).value, seen, ModRevision(s.server, k), |s.log|));
    assert CallOK(s, id, s.calls[id]);
    forall x | x in r.calls ensures CallOK(r, x, r.calls[x]) {
      if x != id {
        assert CallOK(s, x, s.calls[x]);
      }
    }
  }

  lemma CommitKeepsInv(s: State, id: ID)
    requires Inv(s) && id in s.calls && s.calls[id].stage.Computed?
    ensures Inv(DoCommit(s, id))
  {
    var c, k := s.calls[id].stage, s.calls[id].op.key;
    assert CallOK(s, id, s.calls[id]);
    PutContents(s.server, k, c.updated);
    if ModRevision(s.server, k) == c.readRev {
      LogKeepsInv(s, id, Put(s.server, k, c.updated), Done, c.readRev, c.readAt);
    } else {
      var e := Effect(id, s.calls[id].op, Conflict, c.readRev, c.readAt);
      var j :| c.readAt <= j < |s.log| && Writes(s.log[j], k);
      assert Writes((s.log + [e])[j], k);
      LogKeepsInv(s, id, s.server, Conflict, c.readRev, c.readAt);
    }
  }

  lemma InvokeKeepsInv(s: State, id: ID, op: Op)
    requires Inv(s)
    ensures Inv(DoInvoke(s, id, op))
  {
    var r := DoInvoke(s, id, op);
    forall x | x in r.calls ensures CallOK(r, x, r.calls[x]) {
      if x in s.calls {
        assert CallOK(s, x, s.calls[x]);
      }
    }
  }

  lemma ReturnKeepsInv(s: State, id: ID)
    requires Inv(s) && id in s.calls && s.calls[id].stage.Logged?
    ensures Inv(SetStage(s, id, Answered(s.calls[id].stage.index, |s.log|)))
  {
    var r := SetStage(s, id, Answered(s.calls[id].stage.index, |s.log|));
    forall x | x in r.calls ensures CallOK(r, x, r.calls[x]) {
      assert CallOK(s, x, s.calls[x]);
    }
  }

  lemma ApplyKeepsInv(s: State, a: Action)
    requires Inv(s)
    ensures Inv(Apply(s, a))
  {
    match a {
      case Invoke(id, op) => InvokeKeepsInv(s, id, op);
      case Request(id) => if id in s.calls && s.calls[id].stage.Waiting? { RequestKeepsInv(s, id); }
      case Commit(id) => if id in s.calls && s.calls[id].stage.Computed? { CommitKeepsInv(s, id); }
      case Return(id) => if id in s.calls && s.calls[id].stage.Logged? { ReturnKeepsInv(s, id); }
    }
  }

  lemma {:induction false} RunKeepsInv(s: State, actions: seq<Action>)
    requires Inv(s)
    ensures Inv(Run(s, actions))
    decreases |actions|
  {
    if actions != [] {
      ApplyKeepsInv(s, actions[0]);
      RunKeepsInv(Apply(s, actions[0]), actions[1..]);
    }
  }

  lemma InvAlways(actions: seq<Action>)
    ensures Inv(Run(INIT, actions))
  {
    assert Contents(EMPTY.kv) == map[];
    RunKeepsInv(INIT, actions);
  }

  // ----- Theorems -----

  /** The server holds what replaying the effects on a plain map gives, with the same replies. */
  lemma ReplaysOnPlainMap(actions: seq<Action>)
    ensures var s := Run(INIT, actions); Contents(s.server.kv) == Replay(s.log) && Legal(s.log)
  {
    InvAlways(actions);
  }

  /** A call takes effect once, while it runs; calls that do not overlap take effect in their order. */
  lemma EffectsRespectTime(actions: seq<Action>, a: ID, b: ID)
    requires var calls := Run(INIT, actions).calls;
             && a in calls && b in calls && calls[a].stage.Answered? && calls[b].stage.Answered?
             && calls[a].stage.until <= calls[b].from
    ensures var s := Run(INIT, actions);
            var i, j := s.calls[a].stage.index, s.calls[b].stage.index;
            && s.calls[a].from <= i < s.calls[a].stage.until && i < j < |s.log|
            && s.log[i].call == a && s.log[i].op == s.calls[a].op
            && forall n :: 0 <= n < |s.log| && s.log[n].call == a ==> n == i
  {
    InvAlways(actions);
    var s := Run(INIT, actions);
    assert CallOK(s, a, s.calls[a]) && CallOK(s, b, s.calls[b]);
  }

  /** Of the updates that read one non-zero revision of a key, at most one commits. */
  lemma OneCommitPerRevision(actions: seq<Action>, i: nat, j: nat)
    requires var log := Run(INIT, actions).log;
             i < |log| && j < |log| && SameRead(log[i], log[j]) && log[i].reply.Done? && log[j].reply.Done?
    ensures i == j
  {
    InvAlways(actions);
    var log := Run(INIT, actions).log;
    assert SameRead(log[j], log[i]);
  }

  /** A conflict has a cause, and a committed update of a stored value lost no other write. */
  lemma ConflictsHaveCauses(actions: seq<Action>, i: nat)
    requires i < |Run(INIT, actions).log|
    ensures Caused(Run(INIT, actions).log, i) && Unlost(Run(INIT, actions).log, i)
  {
    InvAlways(actions);
  }

  // ----- Replies and values from the log alone -----

  /** The last write of the key before position n. */
  ghost predicate LastWrite(log: seq<Effect>, n: nat, k: Key, j: nat) {
    j < n <= |log| && Writes(log[j], k) && forall i :: j < i < n ==> !Writes(log[i], k)
  }

  /** The key has not been written before n, or was deleted last. */
  ghost predicate Absent(log: seq<Effect>, n: nat, k: Key) {
    forall j: nat :: LastWrite(log, n, k, j) ==> log[j].op.Delete?
  }

  /** What the writes of a key before n leave there: each write counts, whatever was there before it. */
  ghost function Left(log: seq<Effect>, n: nat, k: Key): (r: Option<Value>)
    requires n <= |log|
  {
    if n == 0 then None
    else if !Writes(log[n - 1], k) then Left(log, n - 1, k)
    else match log[n - 1].op
         case Create(_, v) => Some(v)
         case Update(_, f) => f(Left(log, n - 1, k))
         case _ => None
  }

  /** The replayed map holds what the writes left. */
  lemma {:induction false} ReplayedIsLeft(log: seq<Effect>, n: nat, k: Key)
    requires Legal(log) && n <= |log|
    ensures Lookup(Replay(log[..n]), k) == Left(log, n, k)
  {
    if n > 0 {
      ReplayedIsLeft(log, n - 1, k);
      assert log[..n][..n - 1] == log[..n - 1];
      assert Explained(Replay(log[..n - 1]), log[n - 1]);
    }
  }

  /** A write leaves a value unless it deletes. */
  lemma WriteLeaves(log: seq<Effect>, j: nat)
    requires Legal(log) && j < |log| && log[j].reply.Done?
    ensures Left(log, j + 1, log[j].op.key).None? <==> log[j].op.Delete?
  {
    ReplayedIsLeft(log, j, log[j].op.key);
    assert Explained(Replay(log[..j]), log[j]);
  }

  lemma {:induction false} NothingLeftIffAbsent(log: seq<Effect>, n: nat, k: Key)
    requires Legal(log) && n <= |log|
    ensures Left(log, n, k).None? <==> Absent(log, n, k)
  {
    if n > 0 {
      if Writes(log[n - 1], k) {
        assert LastWrite(log, n, k, n - 1);
        WriteLeaves(log, n - 1);
      } else {
        NothingLeftIffAbsent(log, n - 1, k);
        forall j: nat ensures LastWrite(log, n, k, j) <==> LastWrite(log, n - 1, k, j) {
          LastWriteStays(log, n, k, j);
        }
      }
    }
  }

  lemma LastWriteStays(log: seq<Effect>, n: nat, k: Key, j: nat)
    requires 0 < n <= |log| && !Writes(log[n - 1], k)
    ensures LastWrite(log, n, k, j) <==> LastWrite(log, n - 1, k, j)
  {
  }

  /** The reply that the earlier writes of its key call for; a conflict is explained by its cause. */
  ghost predicate RepliesRight(log: seq<Effect>, i: nat)
    requires i < |log|
  {
    var reply, k := log[i].reply, log[i].op.key;
    match log[i].op
    case Get(_) => reply == if Left(log, i, k).Some? then Found(Left(log, i, k).value) else NotFound
    case Create(_, _) => (reply == Done <==> Absent(log, i, k)) && (reply == AlreadyExists <==> !Absent(log, i, k))
    case Delete(_) => (reply == Done <==> !Absent(log, i, k)) && (reply == NotFound <==> Absent(log, i, k))
    case Update(_, f) =>
      reply.Conflict? || ((reply == Done <==> f(Left(log, i, k)).Some?) && (reply == Rejected || reply == Done))
  }

  /**
   * In every run a create succeeds exactly when its key was never written or deleted last, a delete
   * exactly otherwise, and a get finds what the last write left; so does whoever reads the server.
   */
  lemma RepliesFollowTheWrites(actions: seq<Action>, i: nat, k: Key)
    ensures var s := Run(INIT, actions);
            && Lookup(Contents(s.server.kv), k) == Left(s.log, |s.log|, k)
            && (i < |s.log| ==> RepliesRight(s.log, i))
  {
    InvAlways(actions);
    var s := Run(INIT, actions);
    assert s.log[..|s.log|] == s.log;
    ReplayedIsLeft(s.log, |s.log|, k);
    if i < |s.log| {
      ReplayedIsLeft(s.log, i, s.log[i].op.key);
      NothingLeftIffAbsent(s.log, i, s.log[i].op.key);
      assert Explained(Replay(s.log[..i]), s.log[i]);
    }
  }

  /** The last write of a key, when there is one. */
  lemma {:induction false} LastWriteExists(log: seq<Effect>, n: nat, k: Key, i: nat) returns (j: nat)
    requires i < n <= |log| && Writes(log[i], k)
    ensures i <= j && LastWrite(log, n, k, j)
  {
    if Writes(log[n - 1], k) {
      j := n - 1;
    } else {
      j := LastWriteExists(log, n - 1, k, i);
    }
  }

  /** Between two creates that succeed the key was deleted: of concurrent creates of a key one wins. */
  lemma OneCreateBetweenDeletes(actions: seq<Action>, i: nat, j: nat)
    requires var log := Run(INIT, actions).log;
             && i < j < |log| && log[i].op.Create? && log[j].op.Create? && log[i].op.key == log[j].op.key
             && log[i].reply.Done? && log[j].reply.Done?
    ensures var log := Run(INIT, actions).log;
            exists n :: i < n < j && log[n].op == Delete(log[i].op.key) && log[n].reply.Done?
  {
    var log := Run(INIT, actions).log;
    RepliesFollowTheWrites(actions, j, 0);
    var n := LastWriteExists(log, j, log[i].op.key, i);
    assert log[n].op.Delete?;
  }

  // ----- The missing key -----

  ghost predicate Reachable(s: State) {
    exists actions :: Run(INIT, actions) == s
  }

  lemma {:induction false} RunAppend(s: State, actions: seq<Action>, a: Action)
    ensures Run(s, actions + [a]) == Apply(Run(s, actions), a)
    decreases |actions|
  {
    if actions == [] {
      assert Run(Apply(s, a), []) == Apply(s, a);
    } else {
      RunAppend(Apply(s, actions[0]), actions[1..], a);
      assert (actions + [a])[1..] == actions[1..] + [a];
    }
  }

  lemma Reach(s: State, a: Action)
    requires Reachable(s)
    ensures Reachable(Apply(s, a))
  {
    var actions :| Run(INIT, actions) == s;
    RunAppend(INIT, actions, a);
  }

  lemma ReachTwoReads(f: Updater) returns (s: State)
    requires f(None).Some?
    ensures Reachable(s) && s.server == EMPTY && s.log == [] && s.calls.Keys == {0, 1}
    ensures forall id :: id in s.calls ==>
                           s.calls[id] == Call(Update(0, f), 0, Computed(f(None).value, None, 0, 0))
  {
    assert Run(INIT, []) == INIT;
    s := INIT;
    Reach(s, Invoke(0, Update(0, f)));
    s := Apply(s, Invoke(0, Update(0, f)));
    Reach(s, Invoke(1, Update(0, f)));
    s := Apply(s, Invoke(1, Update(0, f)));
    Reach(s, Request(0));
    s := Apply(s, Request(0));
    Reach(s, Request(1));
    s := Apply(s, Request(1));
  }

  /**
   * Revision zero stands for every absence of a key, so it is no version: two updates that
   * both found the key missing may both commit, when a delete comes between them.
   */
  lemma RevisionZeroCommitsTwice(f: Updater)
    requires f(None).Some?
    ensures exists s: State :: Reachable(s) && |s.log| == 3 && WroteOnZero(s.log[0], f) && WroteOnZero(s.log[2], f)
  {
    var s := ReachTwoReads(f);
    Reach(s, Commit(0));
    s := Apply(s, Commit(0));
    Reach(s, Invoke(2, Delete(0)));
    s := Apply(s, Invoke(2, Delete(0)));
    Reach(s, Request(2));
    s := Apply(s, Request(2));
    Reach(s, Commit(1));
    s := Apply(s, Commit(1));
    assert WroteOnZero(s.log[0], f) && WroteOnZero(s.log[2], f);
  }

  ghost predicate WroteOnZero(e: Effect, f: Updater) {
    e.op == Update(0, f) && e.reply.Done? && e.readRev == 0
  }

  /** An update of the in-memory store, which refuses a missing key before the updater sees it. */
  function MemUpdate(m: map<Key, Value>, k: Key, f: Updater): (r: (map<Key, Value>, Reply)) {
    if k !in m then (m, NotFound)
    else
      var updated := f(Some(m[k]));
      if updated.None? then (m, Rejected) else (m[k := updated.value], Done)
  }

  /** The two backends update alike exactly on present keys; on a missing key etcd may create it. */
  lemma BackendsAgreeOnPresentKeys(m: map<Key, Value>, k: Key, f: Updater)
    ensures MemUpdate(m, k, f) == Perform(m, Update(k, f)) <==> k in m
    ensures MemUpdate(m, k, f).0 == Perform(m, Update(k, f)).0 <==> k in m || f(None).None?
  {
    if k !in m && f(None).Some? {
      assert k in Perform(m, Update(k, f)).0 && k !in MemUpdate(m, k, f).0;
    }
  }

  // ----- One client alone -----

  /** A connection whose calls nobody interrupts. */
  class Conn {
    var rev: nat
    var kv: map<Key, Entry>

    ghost predicate Valid()
      reads this
    {
      ServerOK(Server(rev, kv))
    }

    constructor ()
      ensures Valid() && Contents(kv) == map[]
    {
      rev, kv := 0, map[];
    }

    method GetKey(k: Key) returns (r: Reply)
      ensures (Contents(kv), r) == Perform(Contents(kv), Get(k))
      ensures r == if k in kv then Found(kv[k].value) else NotFound
    {
      if k !in kv { return NotFound; }
      return Found(kv[k].value);
    }

    method DeleteKey(k: Key) returns (r: Reply)
      requires Valid()
      modifies this
      ensures Valid()
      ensures (Contents(kv), r) == Perform(old(Contents(kv)), Delete(k))
      ensures r == if k in old(kv) then Done else NotFound
      ensures kv == old(kv) - {k}
    {
      if k !in kv { return NotFound; }
      PutContents(Server(rev, kv), k, 0);
      rev, kv := rev + 1, kv - {k};
      return Done;
    }

    method TxnCreate(k: Key, v: Value) returns (r: Reply)
      requires Valid()
      modifies this
      ensures Valid()
      ensures (Contents(kv), r) == Perform(old(Contents(kv)), Create(k, v))
      ensures r == if k in old(kv) then AlreadyExists else Done
      ensures kv == if k in old(kv) then old(kv) else old(kv)[k := Entry(v, rev)]
    {
      if k in kv { return AlreadyExists; }
      PutContents(Server(rev, kv), k, v);
      rev, kv := rev + 1, kv[k := Entry(v, rev + 1)];
      return Done;
    }

    /** Alone, an update never conflicts and acts as on a plain map. */
    method TxnUpdate(k: Key, f: Updater) returns (r: Reply)
      requires Valid()
      modifies this
      ensures Valid()
      ensures (Contents(kv), r) == Perform(old(Contents(kv)), Update(k, f))
      ensures var updated := f(if k in old(kv) then Some(old(kv)[k].value) else None);
              && r == (if updated.None? then Rejected else Done)
              && kv == if updated.None? then old(kv) else old(kv)[k := Entry(updated.value, rev)]
    {
      var current: Option<Value>, modRev := None, 0;
      if k in kv {
        current, modRev := Some(kv[k].value), kv[k].modRev;
      }
      assert current == Lookup(Contents(kv), k);
      var updated := f(current);
      if updated.None? { return Rejected; }
      if ModRevision(Server(rev, kv), k) != modRev { return Conflict; }
      PutContents(Server(rev, kv), k, updated.value);
      rev, kv := rev + 1, kv[k := Entry(updated.value, rev + 1)];
      return Done;
    }
  }
}
