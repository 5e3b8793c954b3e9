/**
 * Read-only entries over a backing store (dex/storage/static.go). Clients and connectors are
 * looked up by ID, passwords by folded email; the folding is a parameter.
 */
module StaticOverlay {
  import opened Common

  datatype Entry = Entry(id: string, body: nat)

  type Fold = string -> string

  ghost predicate Idempotent(fold: Fold) {
    forall x :: fold(fold(x)) == fold(x)
  }

  /** Lower case, for the letters of ASCII. */
  function Lower(s: string): (r: string)
    ensures |r| == |s|
  {
    if s == "" then "" else [if 'A' <= s[0] <= 'Z' then s[0] + 32 as char else s[0]] + Lower(s[1..])
  }

  lemma {:induction false} LowerIsIdempotent(s: string)
    ensures Lower(Lower(s)) == Lower(s)
  {
    if s != "" {
      LowerIsIdempotent(s[1..]);
      assert Lower(s)[1..] == Lower(s[1..]);
    }
  }

  /** The same character, or the two cases of a letter of ASCII. */
  predicate SameLetter(x: char, y: char) {
    x == y || ('A' <= x <= 'Z' && y as int == x as int + 32) || ('A' <= y <= 'Z' && x as int == y as int + 32)
  }

  /** Two texts fold alike exactly if they differ in the case of letters only. */
  lemma {:induction false} LowerIgnoresCase(a: string, b: string)
    ensures Lower(a) == Lower(b) <==> |a| == |b| && forall i :: 0 <= i < |a| ==> SameLetter(a[i], b[i])
  {
    if a != "" && b != "" {
      LowerIgnoresCase(a[1..], b[1..]);
      assert Lower(a)[1..] == Lower(a[1..]) && Lower(b)[1..] == Lower(b[1..]);
      assert a == [a[0]] + a[1..] && b == [b[0]] + b[1..];
      if Lower(a) == Lower(b) {
        assert Lower(a)[0] == Lower(b)[0];
        forall i | 0 <= i < |a| ensures SameLetter(a[i], b[i]) {
          if i > 0 { assert a[i] == a[1..][i - 1] && b[i] == b[1..][i - 1]; }
        }
      }
    }
  }

  // ----- One map -----

  datatype Op = Create(e: Entry) | Delete(id: string) | Update(id: string, updater: Entry -> Option<Entry>)

  datatype Reply = Done | ReadOnly | AlreadyExists | NotFound | Rejected

  function KeyOf(fold: Fold, op: Op): (r: string) {
    match op
    case Create(e) => fold(e.id)
    case Delete(id) => fold(id)
    case Update(id, _) => fold(id)
  }

  /** An operation on a plain map. */
  function Perform(fold: Fold, m: map<string, Entry>, op: Op): (r: (map<string, Entry>, Reply)) {
    var k := KeyOf(fold, op);
    match op
    case Create(e) => if k in m then (m, AlreadyExists) else (m[k := e], Done)
    case Delete(_) => if k in m then (m - {k}, Done) else (m, NotFound)
    case Update(_, f) =>
      if k !in m then (m, NotFound)
      else
        var updated := f(m[k]);
        if updated.None? then (m, Rejected) else (m[k := updated.value], Done)
  }

  /**
   * A write concerns its key only. A create needs the key to be absent, a delete or an update to
   * find it; when it succeeds the key holds the new entry, nothing, or what the updater made of the
   * old entry, and otherwise nothing changes.
   */
  lemma WritesConcernTheirKey(fold: Fold, m: map<string, Entry>, op: Op)
    ensures var (after, reply) := Perform(fold, m, op);
            var k := KeyOf(fold, op);
            && after - {k} == m - {k} && (reply != Done ==> after == m)
            && (reply == AlreadyExists <==> op.Create? && k in m)
            && (reply == NotFound <==> !op.Create? && k !in m)
            && (reply == Rejected <==> op.Update? && k in m && op.updater(m[k]).None?)
            && (reply == Done ==>
                  && (op.Create? ==> k in after && after[k] == op.e)
                  && (op.Delete? ==> k !in after)
                  && (op.Update? ==> k in after && op.updater(m[k]) == Some(after[k])))
            && reply != ReadOnly
  {
  }

  /** An operation on a map some of whose keys are read-only. */
  function PerformGuarded(fold: Fold, fixed: set<string>, m: map<string, Entry>,
                          op: Op): (r: (map<string, Entry>, Reply)) {
    if KeyOf(fold, op) in fixed then (m, ReadOnly) else Perform(fold, m, op)
  }

  // ----- The overlay -----

  /** The static entries by key; of two with one key the later counts. */
  function ByKey(fold: Fold, statics: seq<Entry>): (r: map<string, Entry>) {
    if statics == [] then map[] else ByKey(fold, statics[..|statics| - 1])[fold(Last(statics).id) := Last(statics)]
  }

  /** The backing entries overridden by the static ones. */
  function View(fixed: map<string, Entry>, backing: map<string, Entry>): (r: map<string, Entry>) {
    backing + fixed
  }

  /** Every entry is stored under its own key. */
  ghost predicate Keyed(fold: Fold, m: map<string, Entry>) {
    forall k :: k in m ==> fold(m[k].id) == k
  }

  /** Updates leave the ID as it was. */
  ghost predicate KeepsID(fold: Fold, op: Op) {
    op.Update? ==> forall e :: op.updater(e).Some? ==> fold(op.updater(e).value.id) == fold(e.id)
  }

  /** An operation of the overlay: the guard looks at the static entries, the rest at the backing ones. */
  function PerformOverlay(fold: Fold, fixed: map<string, Entry>, backing: map<string, Entry>, op: Op)
    : (r: (map<string, Entry>, Reply))
  {
    if KeyOf(fold, op) in fixed then (backing, ReadOnly) else Perform(fold, backing, op)
  }

  /** One step of the overlay is one step on the single map with its static keys read-only. */
  lemma StepRefines(fold: Fold, fixed: map<string, Entry>, backing: map<string, Entry>, op: Op)
    requires Keyed(fold, backing) && KeepsID(fold, op)
    ensures var (after, reply) := PerformOverlay(fold, fixed, backing, op);
            && (View(fixed, after), reply) == PerformGuarded(fold, fixed.Keys, View(fixed, backing), op)
            && Keyed(fold, after)
  {
    var k := KeyOf(fold, op);
    if k !in fixed {
      var after := Perform(fold, backing, op).0;
      assert k in backing <==> k in View(fixed, backing);
      assert View(fixed, after) == Perform(fold, View(fixed, backing), op).0;
    }
  }

  function RunOverlay(fold: Fold, fixed: map<string, Entry>, backing: map<string, Entry>, ops: seq<Op>)
    : (r: (map<string, Entry>, seq<Reply>))
    decreases |ops|
  {
    if ops == [] then (backing, [])
    else
      var (after, reply) := PerformOverlay(fold, fixed, backing, ops[0]);
      var (last, replies) := RunOverlay(fold, fixed, after, ops[1..]);
      (last, [reply] + replies)
  }

  function RunGuarded(fold: Fold, fixed: set<string>, m: map<string, Entry>, ops: seq<Op>)
    : (r: (map<string, Entry>, seq<Reply>))
    decreases |ops|
  {
    if ops == [] then (m, [])
    else
      var (after, reply) := PerformGuarded(fold, fixed, m, ops[0]);
      var (last, replies) := RunGuarded(fold, fixed, after, ops[1..]);
      (last, [reply] + replies)
  }

  /**
   * After any run of ID-preserving operations the overlay is still the one map, and static entries
   * are as they were.
   */
  lemma {:induction false} RunRefines(fold: Fold, fixed: map<string, Entry>, backing: map<string, Entry>, ops: seq<Op>)
    requires Keyed(fold, backing) && forall op :: op in ops ==> KeepsID(fold, op)
    ensures var (last, replies) := RunOverlay(fold, fixed, backing, ops);
            && (View(fixed, last), replies) == RunGuarded(fold, fixed.Keys, View(fixed, backing), ops)
            && Keyed(fold, last)
            && forall k :: k in fixed ==> k in View(fixed, last) && View(fixed, last)[k] == fixed[k]
    decreases |ops|
  {
    if ops != [] {
      assert ops[0] in ops;
      StepRefines(fold, fixed, backing, ops[0]);
      RunRefines(fold, fixed, PerformOverlay(fold, fixed, backing, ops[0]).0, ops[1..]);
    }
  }

  // ----- Listing -----

  ghost predicate DistinctKeys(fold: Fold, entries: seq<Entry>) {
    forall i, j :: 0 <= i < j < |entries| ==> fold(entries[i].id) != fold(entries[j].id)
  }

  /** The list holds the map's values, once each. */
  ghost predicate Lists(fold: Fold, entries: seq<Entry>, m: map<string, Entry>) {
    && DistinctKeys(fold, entries)
    && forall e :: e in entries <==> fold(e.id) in m && m[fold(e.id)] == e
  }

  /** The entries whose key is not static, in order. */
  function Dynamic(fold: Fold, fixed: map<string, Entry>, entries: seq<Entry>): (r: seq<Entry>) {
    if entries == [] then []
    else Dynamic(fold, fixed, entries[..|entries| - 1]) + if fold(Last(entries).id) in fixed then []
         else [Last(entries)]
  }

  lemma {:induction false} DynamicMembers(fold: Fold, fixed: map<string, Entry>, entries: seq<Entry>)
    ensures forall e :: e in Dynamic(fold, fixed, entries) <==> e in entries && fold(e.id) !in fixed
  {
    if entries != [] {
      var init := entries[..|entries| - 1];
      DynamicMembers(fold, fixed, init);
      assert entries == init + [Last(entries)];
    }
  }

  lemma DistinctKeysGrow(fold: Fold, entries: seq<Entry>, e: Entry)
    requires DistinctKeys(fold, entries) && forall x :: x in entries ==> fold(x.id) != fold(e.id)
    ensures DistinctKeys(fold, entries + [e])
  {
  }

  lemma DistinctKeysInit(fold: Fold, entries: seq<Entry>)
    requires entries != [] && DistinctKeys(fold, entries)
    ensures var init := entries[..|entries| - 1];
            DistinctKeys(fold, init) && forall x :: x in init ==> fold(x.id) != fold(Last(entries).id)
  {
    var init := entries[..|entries| - 1];
    forall x | x in init ensures fold(x.id) != fold(Last(entries).id) {
      var i :| 0 <= i < |init| && init[i] == x;
      assert entries[i] == x;
    }
  }

  lemma {:induction false} DynamicDistinct(fold: Fold, fixed: map<string, Entry>, entries: seq<Entry>)
    requires DistinctKeys(fold, entries)
    ensures DistinctKeys(fold, Dynamic(fold, fixed, entries))
  {
    if entries != [] {
      var init := entries[..|entries| - 1];
      DistinctKeysInit(fold, entries);
      DynamicDistinct(fold, fixed, init);
      DynamicMembers(fold, fixed, init);
      if fold(Last(entries).id) !in fixed {
        DistinctKeysGrow(fold, Dynamic(fold, fixed, init), Last(entries));
      }
    }
  }

  lemma {:induction false} ByKeyMembers(fold: Fold, statics: seq<Entry>, k: string)
    ensures k in ByKey(fold, statics) <==> exists e :: e in statics && fold(e.id) == k
    ensures k in ByKey(fold, statics) ==> ByKey(fold, statics)[k] in statics && fold(ByKey(fold, statics)[k].id) == k
  {
    if statics != [] {
      var init := statics[..|statics| - 1];
      ByKeyMembers(fold, init, k);
      assert statics == init + [Last(statics)];
    }
  }

  /** With distinct keys every static entry is the one found under its key. */
  lemma DistinctStatics(fold: Fold, statics: seq<Entry>, e: Entry)
    requires DistinctKeys(fold, statics) && e in statics
    ensures fold(e.id) in ByKey(fold, statics) && ByKey(fold, statics)[fold(e.id)] == e
  {
    ByKeyMembers(fold, statics, fold(e.id));
    var found := ByKey(fold, statics)[fold(e.id)];
    var i :| 0 <= i < |statics| && statics[i] == e;
    var j :| 0 <= j < |statics| && statics[j] == found;
    assert i == j;
  }

  lemma StaticsLists(fold: Fold, statics: seq<Entry>)
    requires DistinctKeys(fold, statics)
    ensures Lists(fold, statics, ByKey(fold, statics))
  {
    forall e ensures e in statics <==> fold(e.id) in ByKey(fold, statics) && ByKey(fold, statics)[fold(e.id)] == e {
      ByKeyMembers(fold, statics, fold(e.id));
      if e in statics {
        DistinctStatics(fold, statics, e);
      }
    }
  }

  lemma AppendedAreDistinct(fold: Fold, fixed: map<string, Entry>, dynamic: seq<Entry>, statics: seq<Entry>)
    requires DistinctKeys(fold, dynamic) && DistinctKeys(fold, statics)
    requires forall e :: e in dynamic ==> fold(e.id) !in fixed
    requires forall e :: e in statics ==> fold(e.id) in fixed
    ensures DistinctKeys(fold, dynamic + statics)
  {
    var all := dynamic + statics;
    forall i, j | 0 <= i < j < |all| ensures fold(all[i].id) != fold(all[j].id) {
      if i < |dynamic| <= j {
        assert all[i] in dynamic && all[j] in statics;
      }
    }
  }

  lemma AppendedAreTheView(fold: Fold, statics: seq<Entry>, backing: map<string, Entry>, entries: seq<Entry>, e: Entry)
    requires Lists(fold, entries, backing) && DistinctKeys(fold, statics)
    ensures var fixed := ByKey(fold, statics);
            e in Dynamic(fold, fixed, entries) + statics <==>
            fold(e.id) in View(fixed, backing) && View(fixed, backing)[fold(e.id)] == e
  {
    var fixed, k := ByKey(fold, statics), fold(e.id);
    StaticsLists(fold, statics);
    DynamicMembers(fold, fixed, entries);
    assert e in statics <==> k in fixed && fixed[k] == e;
    assert e in entries <==> k in backing && backing[k] == e;
  }

  lemma DistinctListTheView(fold: Fold, statics: seq<Entry>, backing: map<string, Entry>, entries: seq<Entry>)
    requires Lists(fold, entries, backing) && DistinctKeys(fold, statics)
    ensures var fixed := ByKey(fold, statics);
            Lists(fold, Dynamic(fold, fixed, entries) + statics, View(fixed, backing))
  {
    var fixed := ByKey(fold, statics);
    DynamicMembers(fold, fixed, entries);
    DynamicDistinct(fold, fixed, entries);
    StaticsLists(fold, statics);
    AppendedAreDistinct(fold, fixed, Dynamic(fold, fixed, entries), statics);
    forall e ensures e in Dynamic(fold, fixed, entries) + statics <==>
                     fold(e.id) in View(fixed, backing) && View(fixed, backing)[fold(e.id)] == e {
      AppendedAreTheView(fold, statics, backing, entries, e);
    }
  }

  lemma AppendedRepeat(fold: Fold, dynamic: seq<Entry>, statics: seq<Entry>)
    requires DistinctKeys(fold, dynamic + statics)
    ensures DistinctKeys(fold, statics)
  {
    var all := dynamic + statics;
    forall i, j | 0 <= i < j < |statics| ensures fold(statics[i].id) != fold(statics[j].id) {
      assert all[|dynamic| + i] == statics[i] && all[|dynamic| + j] == statics[j];
    }
  }

  /** Filtering the backing list and appending the static one lists the view, exactly if static keys are distinct. */
  lemma FilteredListsTheView(fold: Fold, statics: seq<Entry>, backing: map<string, Entry>, entries: seq<Entry>)
    requires Lists(fold, entries, backing)
    ensures var fixed := ByKey(fold, statics);
            Lists(fold, Dynamic(fold, fixed, entries) + statics, View(fixed, backing)) <==> DistinctKeys(fold, statics)
  {
    var fixed := ByKey(fold, statics);
    if DistinctKeys(fold, statics) {
      DistinctListTheView(fold, statics, backing, entries);
    } else if DistinctKeys(fold, Dynamic(fold, fixed, entries) + statics) {
      AppendedRepeat(fold, Dynamic(fold, fixed, entries), statics);
    }
  }

  // ----- The storage -----

  class Storage {
    const fold: Fold
    const statics: seq<Entry>
    const fixed: map<string, Entry>
    var backing: map<string, Entry>

    ghost predicate Valid()
      reads this
    {
      Idempotent(fold) && fixed == ByKey(fold, statics) && Keyed(fold, backing)
    }

    ghost function Contents(): (r: map<string, Entry>)
      reads this
    {
      View(fixed, backing)
    }

    constructor (fold: Fold, statics: seq<Entry>, backing: map<string, Entry>)
      requires Idempotent(fold) && Keyed(fold, backing)
      ensures Valid() && this.fold == fold && this.statics == statics
              && Contents() == View(ByKey(fold, statics), backing)
    {
      var byKey: map<string, Entry> := map[];
      for n := 0 to |statics|
        invariant byKey == ByKey(fold, statics[..n])
      {
        assert statics[..n + 1][..n] == statics[..n];
        byKey := byKey[fold(statics[n].id) := statics[n]];
      }
      assert statics[..|statics|] == statics;
      this.fold, this.statics, this.fixed, this.backing := fold, statics, byKey, backing;
    }

    predicate IsStatic(id: string) {
      fold(id) in fixed
    }

    method Get(id: string) returns (r: Option<Entry>)
      requires Valid()
      ensures r == if fold(id) in Contents() then Some(Contents()[fold(id)]) else None
    {
      var k := fold(id);
      if k in fixed { return Some(fixed[k]); }
      if fold(k) in backing { return Some(backing[fold(k)]); }
      return None;
    }

    /** The backing store's list, in whatever order its map is walked. */
    method ListBacking() returns (a: array<Entry>)
      requires Valid()
      ensures fresh(a) && Lists(fold, a[..], backing)
    {
      var entries: seq<Entry> := [];
      var rest := backing.Keys;
      while rest != {}
        invariant rest <= backing.Keys && DistinctKeys(fold, entries)
        invariant forall e :: e in entries <==> fold(e.id) in backing && fold(e.id) !in rest && backing[fold(e.id)] == e
        decreases rest
      {
        var k :| k in rest;
        entries, rest := entries + [backing[k]], rest - {k};
      }
      a := new Entry[|entries|](i requires 0 <= i < |entries| => entries[i]);
      assert a[..] == entries;
    }

    /** Keeps the dynamic entries at the front of the array. */
    method Compact(a: array<Entry>) returns (n: nat)
      requires Valid()
      modifies a
      ensures n <= a.Length && a[..n] == Dynamic(fold, fixed, old(a[..]))
    {
      n := 0;
      for i := 0 to a.Length
        invariant n <= i && a[..n] == Dynamic(fold, fixed, old(a[..])[..i])
        invariant a[i..] == old(a[..])[i..]
      {
        assert a[i] == a[i..][0] == old(a[..])[i];
        assert old(a[..])[..i + 1][..i] == old(a[..])[..i];
        assert a[i + 1..] == a[i..][1..];
        if !IsStatic(a[i].id) {
          a[n] := a[i];
          n := n + 1;
        }
      }
      assert old(a[..])[..a.Length] == old(a[..]);
    }

    /** With distinct static keys the list holds the contents, once each. */
    method List() returns (r: seq<Entry>)
      requires Valid()
      ensures Lists(fold, r, Contents()) <==> DistinctKeys(fold, statics)
    {
      var a := ListBacking();
      FilteredListsTheView(fold, statics, backing, a[..]);
      var n := Compact(a);
      return a[..n] + statics;
    }

    /** Creates, deletes and updates act on the contents with the static keys read-only. */
    method Write(op: Op) returns (reply: Reply)
      requires Valid() && KeepsID(fold, op)
      modifies this
      ensures Valid()
      ensures (Contents(), reply) == PerformGuarded(fold, fixed.Keys, old(Contents()), op)
    {
      StepRefines(fold, fixed, backing, op);
      var k := KeyOf(fold, op);
      if k in fixed { return ReadOnly; }
      match op {
        case Create(e) =>
          if k in backing { return AlreadyExists; }
          backing := backing[k := e];
        case Delete(_) =>
          if k !in backing { return NotFound; }
          backing := backing - {k};
        case Update(_, f) =>
          if k !in backing { return NotFound; }
          var updated := f(backing[k]);
          if updated.None? { return Rejected; }
          backing := backing[k := updated.value];
      }
      return Done;
    }
  }
}
