/**
 * Schema migrations (dex/storage/sql/migrate.go): any number of servers apply the missing
 * statements, one to a transaction. Transactions are serialised; one may fail and is then
 * rolled back.
 */
module Migrations {
  import opened Common

  /** A statement that ran, and the server that ran it. */
  datatype Applied = Applied(server: ID, statement: nat)

  /** The recorded migration numbers and, beside them, what has been done to the schema. */
  datatype Database = Database(nums: seq<nat>, schema: seq<Applied>)

  datatype Status = Running | Finished | Failed

  /** A server in its loop, with the number of migrations it counts as its own. */
  datatype Server = Server(count: nat, status: Status)

  datatype State = State(db: Database, servers: map<ID, Server>)

  /** The largest number, or zero if there is none. */
  function Max(nums: seq<nat>): (r: nat) {
    if nums == [] then 0
    else
      var m := Max(nums[..|nums| - 1]);
      if m < Last(nums) then Last(nums) else m
  }

  // ----- Transactions -----

  /** Applies and records the next statement, if one of the total is left. */
  function Transaction(db: Database, total: nat, id: ID): (r: (Database, bool)) {
    var n := Max(db.nums);
    if n >= total then (db, true) else (Database(db.nums + [n + 1], db.schema + [Applied(id, n)]), false)
  }

  /** A running server's next transaction, which commits or fails. */
  datatype Action = Action(id: ID, commits: bool)

  predicate Enabled(s: State, a: Action) {
    a.id in s.servers && s.servers[a.id].status.Running?
  }

  function Apply(s: State, total: nat, a: Action): (r: State) {
    if !Enabled(s, a) then s
    else
      var server := s.servers[a.id];
      if !a.commits then s.(servers := s.servers[a.id := server.(status := Failed)])
      else
        var (db, done) := Transaction(s.db, total, a.id);
        State(db, s.servers[a.id := if done then server.(status := Finished) else server.(count := server.count + 1)])
  }

  function Run(s: State, total: nat, actions: seq<Action>): (r: State)
    decreases |actions|
  {
    if actions == [] then s else Run(Apply(s, total, actions[0]), total, actions[1..])
  }

  // ----- Invariants -----

  /** Statements were applied once each and in order, and so recorded. */
  ghost predicate InOrder(db: Database) {
    && |db.nums| == |db.schema|
    && forall i :: 0 <= i < |db.schema| ==> db.schema[i].statement == i && db.nums[i] == i + 1
  }

  lemma {:induction false} MaxInOrder(nums: seq<nat>)
    requires forall i :: 0 <= i < |nums| ==> nums[i] == i + 1
    ensures Max(nums) == |nums|
  {
    if nums != [] {
      MaxInOrder(nums[..|nums| - 1]);
    }
  }

  function Count(schema: seq<Applied>, id: ID): (r: nat) {
    if schema == [] then 0 else Count(schema[..|schema| - 1], id) + if Last(schema).server == id then 1 else 0
  }

  lemma CountGrows(schema: seq<Applied>, a: Applied, id: ID)
    ensures Count(schema + [a], id) == Count(schema, id) + if a.server == id then 1 else 0
  {
    assert (schema + [a])[..|schema|] == schema;
  }

  ghost predicate Inv(s: State, total: nat) {
    && InOrder(s.db)
    && forall id :: id in s.servers ==>
                      && s.servers[id].count == Count(s.db.schema, id)
                      && (s.servers[id].status.Finished? ==> total <= |s.db.schema|)
  }

  /** Any recorded prefix, applied by earlier servers, and servers that are about to start. */
  ghost predicate Start(s: State) {
    && InOrder(s.db)
    && forall id :: id in s.servers ==> s.servers[id] == Server(0, Running) && Count(s.db.schema, id) == 0
  }

  lemma StepKeepsInv(s: State, total: nat, a: Action)
    requires Inv(s, total)
    ensures Inv(Apply(s, total, a), total)
    ensures s.db.schema <= Apply(s, total, a).db.schema
    ensures |s.db.schema| <= total ==> |Apply(s, total, a).db.schema| <= total
  {
    MaxInOrder(s.db.nums);
    forall id | id in s.servers
      ensures Count(s.db.schema + [Applied(a.id, |s.db.schema|)], id) ==
              Count(s.db.schema, id) + if a.id == id then 1 else 0
    {
      CountGrows(s.db.schema, Applied(a.id, |s.db.schema|), id);
    }
  }

  lemma {:induction false} RunKeepsInv(s: State, total: nat, actions: seq<Action>)
    requires Inv(s, total)
    ensures Inv(Run(s, total, actions), total)
    ensures s.db.schema <= Run(s, total, actions).db.schema
    ensures |s.db.schema| <= total ==> |Run(s, total, actions).db.schema| <= total
    decreases |actions|
  {
    if actions != [] {
      StepKeepsInv(s, total, actions[0]);
      RunKeepsInv(Apply(s, total, actions[0]), total, actions[1..]);
    }
  }

  // ----- Theorems -----

  /**
   * In every run each statement is applied at most once and in order, nothing applied is
   * undone, no server counts what another applied, and none finishes before all are applied.
   */
  lemma AppliedOnceInOrder(s: State, total: nat, actions: seq<Action>)
    requires Start(s)
    ensures var r := Run(s, total, actions);
            && InOrder(r.db) && s.db.schema <= r.db.schema
            && forall id :: id in r.servers ==>
                              && r.servers[id].count == Count(r.db.schema, id)
                              && (r.servers[id].status.Finished? ==> total <= |r.db.schema|)
  {
    assert Inv(s, total);
    RunKeepsInv(s, total, actions);
  }

  /** Once a server has finished, a database that was not ahead holds exactly the statements 0 to total. */
  lemma FinishedMeansComplete(s: State, total: nat, actions: seq<Action>, id: ID)
    requires Start(s) && |s.db.schema| <= total
    requires var r := Run(s, total, actions); id in r.servers && r.servers[id].status.Finished?
    ensures |Run(s, total, actions).db.schema| == total
  {
    assert Inv(s, total);
    RunKeepsInv(s, total, actions);
  }

  function Left(db: Database, total: nat): (r: nat) {
    if |db.schema| < total then total - |db.schema| else 0
  }

  function Active(servers: map<ID, Server>): (r: set<ID>) {
    set id | id in servers && servers[id].status.Running?
  }

  /** What is left to do: statements to apply and servers to stop. */
  function Measure(s: State, total: nat): (r: nat) {
    Left(s.db, total) + |Active(s.servers)|
  }

  lemma StopShrinks(servers: map<ID, Server>, id: ID, server: Server)
    requires id in Active(servers)
    ensures |Active(servers[id := server])| == |Active(servers)| - if server.status.Running? then 0 else 1
  {
    if server.status.Running? {
      assert Active(servers[id := server]) == Active(servers);
    } else {
      assert Active(servers[id := server]) == Active(servers) - {id};
    }
  }

  /** Every transaction of a running server gets nearer to the end. */
  lemma StepMakesProgress(s: State, total: nat, a: Action)
    requires Inv(s, total) && Enabled(s, a)
    ensures Measure(Apply(s, total, a), total) == Measure(s, total) - 1
  {
    MaxInOrder(s.db.nums);
    assert a.id in Active(s.servers);
    StopShrinks(s.servers, a.id, Apply(s, total, a).servers[a.id]);
  }

  /** The number of transactions that running servers make. */
  function Transactions(s: State, total: nat, actions: seq<Action>): (r: nat)
    decreases |actions|
  {
    if actions == [] then 0
    else (if Enabled(s, actions[0]) then 1 else 0) + Transactions(Apply(s, total, actions[0]), total, actions[1..])
  }

  /** All servers together make at most one transaction for each statement left and one more each. */
  lemma {:induction false} AllServersStop(s: State, total: nat, actions: seq<Action>)
    requires Inv(s, total)
    ensures Transactions(s, total, actions) + Measure(Run(s, total, actions), total) == Measure(s, total)
    decreases |actions|
  {
    if actions != [] {
      StepKeepsInv(s, total, actions[0]);
      if Enabled(s, actions[0]) {
        StepMakesProgress(s, total, actions[0]);
      }
      AllServersStop(Apply(s, total, actions[0]), total, actions[1..]);
    }
  }

  // ----- One server's loop -----

  /** A server's connection; other servers' transactions come between its own. */
  class Conn {
    const id: ID
    var nums: seq<nat>
    ghost var schema: seq<Applied>

    ghost predicate Valid()
      reads this
    {
      InOrder(Database(nums, schema))
    }

    constructor (id: ID, nums: seq<nat>, ghost schema: seq<Applied>)
      requires InOrder(Database(nums, schema))
      ensures Valid() && this.id == id && this.nums == nums && this.schema == schema
    {
      this.id, this.nums, this.schema := id, nums, schema;
    }

    method SelectMax() returns (n: nat)
      requires Valid()
      ensures n == Max(nums) == |nums|
    {
      n := 0;
      for i := 0 to |nums|
        invariant n == Max(nums[..i])
      {
        assert nums[..i + 1][..i] == nums[..i];
        if n < nums[i] { n := nums[i]; }
      }
      assert nums[..|nums|] == nums;
      MaxInOrder(nums);
    }

    /** Others apply any number of the missing statements. */
    method OthersRun(total: nat)
      requires Valid()
      modifies this
      ensures Valid() && old(schema) <= schema && Count(schema, id) == Count(old(schema), id)
      ensures |schema| <= total || schema == old(schema)
    {
      while |nums| < total
        invariant Valid() && old(schema) <= schema && Count(schema, id) == Count(old(schema), id)
        invariant |schema| <= total || schema == old(schema)
        decreases total - |nums|
      {
        var stops: bool := *;
        if stops { return; }
        ghost var other: ID := *;
        if other == id { other := id + 1; }
        CountGrows(schema, Applied(other, |nums|), id);
        nums, schema := nums + [|nums| + 1], schema + [Applied(other, |nums|)];
      }
    }

    /** One migration in a transaction. */
    method ExecTx(total: nat) returns (ok: bool, done: bool)
      requires Valid()
      modifies this
      ensures Valid()
      ensures !ok ==> nums == old(nums) && schema == old(schema)
      ensures ok ==> (Database(nums, schema), done) == Transaction(Database(old(nums), old(schema)), total, id)
    {
      if * { return false, false; }
      var n := SelectMax();
      if n >= total { return true, true; }
      nums, schema := nums + [n + 1], schema + [Applied(id, n)];
      return true, false;
    }

    /** One turn of the loop: what others do, then this server's transaction. */
    method Turn(total: nat) returns (ok: bool, done: bool)
      requires Valid()
      modifies this
      ensures Valid() && old(schema) <= schema && (|schema| <= total || schema == old(schema))
      ensures Count(schema, id) == Count(old(schema), id) + if ok && !done then 1 else 0
      ensures ok && done ==> total <= |schema|
      ensures ok && !done ==> |old(nums)| < |nums| <= total
    {
      OthersRun(total);
      MaxInOrder(nums);
      CountGrows(schema, Applied(id, |nums|), id);
      ok, done := ExecTx(total);
    }

    /**
     * The loop ends whatever the others do; the returned count is what this server applied,
     * and without an error every statement has been applied.
     */
    method Migrate(total: nat) returns (count: nat, ok: bool)
      requires Valid()
      modifies this
      ensures Valid() && old(schema) <= schema
      ensures count == Count(schema, id) - Count(old(schema), id)
      ensures ok ==> total <= |schema|
      ensures |schema| <= total || schema == old(schema)
    {
      count := 0;
      while true
        invariant Valid() && old(schema) <= schema
        invariant count == Count(schema, id) - Count(old(schema), id)
        invariant |schema| <= total || schema == old(schema)
        decreases total - |nums|
      {
        var committed, done := Turn(total);
        if !committed { return count, false; }
        if done { return count, true; }
        count := count + 1;
      }
    }
  }
}
