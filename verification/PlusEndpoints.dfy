/**
 * Updating endpoints (kubernetes-ingress/internal/nginx/configurator.go, plus/nginx_api.go and
 * the vendored NGINX Plus client): the files are written, and then either the running
 * upstreams are edited through the API or NGINX reloads the files. Any request may fail, with
 * or without having taken effect.
 */
module PlusEndpoints {
  import opened Common
  import opened Ingresses
  import opened NginxConfig
  import opened MergedConfig

  /** The running upstreams: the servers of each, as "address:port". */
  type Running = map<string, seq<string>>

  function Elements(s: seq<string>): (r: set<string>) {
    set x | x in s
  }

  // ----- What a reload gives -----

  /** The table is what NGINX runs after loading the files; two different upstreams of one name cannot load. */
  ghost predicate Loads(files: map<string, NginxCfg>, table: Running) {
    && (forall f, u :: f in files && u in files[f].upstreams ==> u.name in table && table[u.name] == Addresses(u))
    && (forall name :: name in table ==> exists f, u :: f in files && u in files[f].upstreams && u.name == name)
  }

  lemma LoadsAlike(files: map<string, NginxCfg>, a: Running, b: Running, name: string)
    requires Loads(files, a) && Loads(files, b) && name in a
    ensures name in b && a[name] == b[name]
  {
    var f, u :| f in files && u in files[f].upstreams && u.name == name;
    assert a[u.name] == Addresses(u) && b[u.name] == Addresses(u);
  }

  lemma LoadsIsUnique(files: map<string, NginxCfg>, a: Running, b: Running)
    requires Loads(files, a) && Loads(files, b)
    ensures a == b
  {
    assert forall name :: name in a ==> name in b && a[name] == b[name] by {
      forall name | name in a ensures name in b && a[name] == b[name] { LoadsAlike(files, a, b, name); }
    }
    assert forall name :: name in b ==> name in a by {
      forall name | name in b ensures name in a { LoadsAlike(files, b, a, name); }
    }
  }

  // ----- Which upstreams are touched -----

  function FileName(ing: IngressEx): (r: string) {
    ing.namespace + "-" + ing.name
  }

  /** The backend has endpoints to keep up to date; those of external names are left to DNS. */
  predicate Live(ing: IngressEx, ref: Ref) {
    BackendKey(ref.backend) in ing.endpoints && ref.backend.service !in ing.externalNames
  }

  /** What a live upstream should run: the endpoints, or without any on open-source NGINX the default server. */
  function LiveServers(plus: bool, endpoints: seq<string>): (r: seq<string>) {
    if endpoints == [] && !plus then [DEFAULT_SERVER] else endpoints
  }

  ghost predicate Serving(plus: bool, running: Running, ing: IngressEx, ref: Ref) {
    Live(ing, ref) ==>
      && UpstreamName(ing, ref) in running
      && Elements(running[UpstreamName(ing, ref)]) ==
           Elements(LiveServers(plus, ing.endpoints[BackendKey(ref.backend)]))
  }

  ghost predicate Served(plus: bool, running: Running, ing: IngressEx) {
    forall ref :: ref in Refs(ing) ==> Serving(plus, running, ing, ref)
  }

  /** Every upstream of the ingress, live or not, runs exactly the wanted servers in order. */
  ghost predicate ServedInOrder(p: Platform, running: Running, ing: IngressEx) {
    forall ref :: ref in Refs(ing) ==>
                    UpstreamName(ing, ref) in running && running[UpstreamName(ing, ref)] == Wanted(p, ing, ref.backend)
  }

  /** Equal upstream names mean the same backend of the same ingress. */
  ghost predicate Separate(a: IngressEx, b: IngressEx) {
    forall r, q :: r in Refs(a) && q in Refs(b) && UpstreamName(a, r) == UpstreamName(b, q) ==> a == b && r == q
  }

  ghost predicate Ready(ing: IngressEx) {
    WellFormed(ing) && OneColon(ing) && Separate(ing, ing)
  }

  /** One file holds every upstream of the ingress. */
  ghost predicate Covers(p: Platform, files: map<string, NginxCfg>, f: string, ing: IngressEx)
    requires WellFormed(ing)
  {
    f in files && forall name :: name in Upstreams(p, ing) ==> Upstreams(p, ing)[name] in files[f].upstreams
  }

  /** A reload of covering files serves every upstream of the ingress, on any platform. */
  lemma ReloadServes(p: Platform, files: map<string, NginxCfg>, f: string, ing: IngressEx, table: Running)
    requires Ready(ing) && Covers(p, files, f, ing) && Loads(files, table)
    ensures ServedInOrder(p, table, ing) && Served(p.plus, table, ing)
  {
    forall ref | ref in Refs(ing)
      ensures UpstreamName(ing, ref) in table && table[UpstreamName(ing, ref)] == Wanted(p, ing, ref.backend)
    {
      var name := UpstreamName(ing, ref);
      FirstMakesUpstream(p, ing, Refs(ing), name);
      assert Upstreams(p, ing)[name] == UpstreamFor(p, ing, ref);
      UpstreamHasWanted(p, ing, ref);
    }
    forall ref | ref in Refs(ing) ensures Serving(p.plus, table, ing, ref) {
    }
  }

  /** Only the named files differ. */
  ghost predicate SameFiles(before: map<string, NginxCfg>, after: map<string, NginxCfg>, except: set<string>) {
    forall f :: f !in except ==> (f in after <==> f in before) && (f in after ==> after[f] == before[f])
  }

  /** The ingress's own file holds what is generated for it. */
  ghost predicate Written(p: Platform, files: map<string, NginxCfg>, ing: IngressEx)
    requires WellFormed(ing)
  {
    FileName(ing) in files && Generated(p, ing, files[FileName(ing)])
  }

  ghost predicate AllWritten(p: Platform, files: map<string, NginxCfg>, ings: seq<IngressEx>) {
    forall a :: a in ings ==> WellFormed(a) && Written(p, files, a)
  }

  /** Only upstreams of the ingress differ. */
  ghost predicate Confined(before: Running, after: Running, ing: IngressEx) {
    forall name :: (forall ref :: ref in Refs(ing) ==> UpstreamName(ing, ref) != name) ==>
                     (name in before <==> name in after) && (name in before ==> before[name] == after[name])
  }

  ghost predicate OnlyAt(before: Running, after: Running, name: string) {
    forall n :: n != name ==> (n in before <==> n in after) && (n in before ==> before[n] == after[n])
  }

  lemma ServedElsewhere(before: Running, after: Running, a: IngressEx, b: IngressEx)
    requires Served(true, before, a) && Confined(before, after, b) && Separate(a, b) && a != b
    ensures Served(true, after, a)
  {
    forall ref | ref in Refs(a) ensures Serving(true, after, a, ref) {
      assert Serving(true, before, a, ref);
    }
  }

  // ----- The API client's bookkeeping -----

  function Missing(s: seq<string>, from: seq<string>): (r: seq<string>) {
    if s == [] then [] else Missing(s[..|s| - 1], from) + if Last(s) in from then [] else [Last(s)]
  }

  lemma {:induction false} MissingCount(s: seq<string>, from: seq<string>, x: string)
    ensures multiset(Missing(s, from))[x] == if x in from then 0 else multiset(s)[x]
  {
    if s != [] {
      var init := s[..|s| - 1];
      MissingCount(init, from, x);
      assert s == init + [Last(s)];
      var kept := if Last(s) in from then [] else [Last(s)];
      assert Missing(s, from) == Missing(init, from) + kept;
      assert multiset(Missing(s, from))[x] == multiset(Missing(init, from))[x] + multiset(kept)[x];
    }
  }

  method FindMissing(s: seq<string>, from: seq<string>) returns (r: seq<string>)
    ensures r == Missing(s, from)
  {
    r := [];
    for n := 0 to |s|
      invariant r == Missing(s[..n], from)
    {
      var found := false;
      for i := 0 to |from|
        invariant !found && s[n] !in from[..i]
      {
        if s[n] == from[i] {
          found := true;
          break;
        }
      }
      assert s[..n + 1][..n] == s[..n];
      if !found {
        r := r + [s[n]];
      }
    }
    assert s[..|s|] == s;
  }

  function RemoveFirst(s: seq<string>, x: string): (r: seq<string>) {
    if s == [] then [] else if s[0] == x then s[1..] else [s[0]] + RemoveFirst(s[1..], x)
  }

  function RemoveEach(s: seq<string>, xs: seq<string>): (r: seq<string>) {
    if xs == [] then s else RemoveFirst(RemoveEach(s, xs[..|xs| - 1]), Last(xs))
  }

  function Minus(a: nat, b: nat): (r: nat) {
    if a < b then 0 else a - b
  }

  lemma {:induction false} RemoveFirstCount(s: seq<string>, x: string, y: string)
    ensures multiset(RemoveFirst(s, x))[y] == Minus(multiset(s)[y], if x == y then 1 else 0)
  {
    if s != [] {
      assert s == [s[0]] + s[1..];
      if s[0] != x {
        RemoveFirstCount(s[1..], x, y);
      }
    }
  }

  lemma {:induction false} RemoveEachCount(s: seq<string>, xs: seq<string>, y: string)
    ensures multiset(RemoveEach(s, xs))[y] == Minus(multiset(s)[y], multiset(xs)[y])
  {
    if xs != [] {
      var init := xs[..|xs| - 1];
      RemoveEachCount(s, init, y);
      RemoveFirstCount(RemoveEach(s, init), Last(xs), y);
      assert xs == init + [Last(xs)];
    }
  }

  /** Adding what is missing and deleting what is not wanted leaves exactly the wanted servers. */
  lemma UpdatesReach(current: seq<string>, wanted: seq<string>)
    ensures Elements(RemoveEach(current + Missing(wanted, current), Missing(current, wanted))) == Elements(wanted)
  {
    var result := RemoveEach(current + Missing(wanted, current), Missing(current, wanted));
    forall x ensures x in result <==> x in wanted {
      MissingCount(wanted, current, x);
      MissingCount(current, wanted, x);
      RemoveEachCount(current + Missing(wanted, current), Missing(current, wanted), x);
      assert x in result <==> multiset(result)[x] > 0;
      assert x in wanted <==> multiset(wanted)[x] > 0;
      assert x in current <==> multiset(current)[x] > 0;
    }
  }

  // ----- Agreement -----

  /** Each touched upstream of the ingress has the same servers in both tables. */
  ghost predicate Agree(running: Running, table: Running, ing: IngressEx) {
    forall ref :: ref in Refs(ing) && Live(ing, ref) ==>
                    && UpstreamName(ing, ref) in running && UpstreamName(ing, ref) in table
                    && Elements(running[UpstreamName(ing, ref)]) == Elements(table[UpstreamName(ing, ref)])
  }

  ghost predicate Covered(p: Platform, files: map<string, NginxCfg>, ing: IngressEx)
    requires WellFormed(ing)
  {
    exists f :: Covers(p, files, f, ing)
  }

  lemma UpstreamsHold(p: Platform, ing: IngressEx, ref: Ref)
    requires WellFormed(ing) && ref in Refs(ing)
    ensures UpstreamName(ing, ref) in Upstreams(p, ing)
    ensures Upstreams(p, ing)[UpstreamName(ing, ref)].name == UpstreamName(ing, ref)
  {
    FirstMakesUpstream(p, ing, Refs(ing), UpstreamName(ing, ref));
    AddAllNamed(p, ing, map[], Refs(ing));
  }

  lemma CoveredNames(p: Platform, files: map<string, NginxCfg>, ing: IngressEx, table: Running, ref: Ref)
    requires WellFormed(ing) && Covered(p, files, ing) && Loads(files, table) && ref in Refs(ing)
    ensures UpstreamName(ing, ref) in table
  {
    var f :| Covers(p, files, f, ing);
    UpstreamsHold(p, ing, ref);
    assert Upstreams(p, ing)[UpstreamName(ing, ref)] in files[f].upstreams;
  }

  lemma EditsAgree(p: Platform, files: map<string, NginxCfg>, running: Running, ing: IngressEx, table: Running)
    requires Ready(ing) && p.plus && Covered(p, files, ing) && Served(true, running, ing) && Loads(files, table)
    ensures Agree(running, table, ing)
  {
    var f :| Covers(p, files, f, ing);
    ReloadServes(p, files, f, ing, table);
    forall ref | ref in Refs(ing) && Live(ing, ref)
      ensures Serving(true, running, ing, ref) && Serving(true, table, ing, ref) {
    }
  }

  lemma ReloadAgrees(p: Platform, files: map<string, NginxCfg>, running: Running, ing: IngressEx, table: Running)
    requires WellFormed(ing) && Covered(p, files, ing) && Loads(files, running) && Loads(files, table)
    ensures Agree(running, table, ing)
  {
    LoadsIsUnique(files, running, table);
    forall ref | ref in Refs(ing) ensures UpstreamName(ing, ref) in table {
      CoveredNames(p, files, ing, table, ref);
    }
  }

  /** The running upstreams of all these ingresses are what a reload would give. */
  ghost predicate UpToDate(files: map<string, NginxCfg>, running: Running, ings: seq<IngressEx>) {
    forall table, a :: Loads(files, table) && a in ings ==> Agree(running, table, a)
  }

  lemma EndsUpToDate(p: Platform, files: map<string, NginxCfg>, running: Running, ings: seq<IngressEx>)
    requires forall a :: a in ings ==> Ready(a) && Covered(p, files, a)
    requires (p.plus && forall a :: a in ings ==> Served(true, running, a)) || Loads(files, running)
    ensures UpToDate(files, running, ings)
    ensures forall a :: a in ings ==> Served(p.plus, running, a)
    ensures Loads(files, running) ==> forall a :: a in ings ==> ServedInOrder(p, running, a)
  {
    if Loads(files, running) {
      forall a | a in ings ensures Served(p.plus, running, a) && ServedInOrder(p, running, a) {
        var f :| Covers(p, files, f, a);
        ReloadServes(p, files, f, a, running);
      }
    }
    forall table, a | Loads(files, table) && a in ings ensures Agree(running, table, a) {
      if Loads(files, running) {
        ReloadAgrees(p, files, running, a, table);
      } else {
        EditsAgree(p, files, running, a, table);
      }
    }
  }

  lemma {:induction false} RuleRefsListed(rules: seq<Rule>, n: nat, ref: Ref)
    requires n < |rules| && rules[n].http.Some? && ref in PathRefs(rules[n].host, rules[n].http.value)
    ensures ref in RuleRefs(rules)
  {
    if n < |rules| - 1 {
      RuleRefsListed(rules[..|rules| - 1], n, ref);
    }
  }

  lemma {:induction false} PartsListed(p: Platform, minions: seq<IngressEx>, parts: seq<NginxCfg>, minion: IngressEx)
    requires PartsOK(p, minions, parts) && minion in minions
    ensures WellFormed(Stripped(minion))
    ensures forall name :: name in Upstreams(p, Stripped(minion)) ==>
            Upstreams(p, Stripped(minion))[name] in AllUpstreams(parts)
  {
    var init := minions[..|minions| - 1];
    if minion in init {
      PartsListed(p, init, parts[..|parts| - 1], minion);
    } else {
      assert minion == Last(minions);
      assert PartOK(p, minion, Last(parts));
    }
  }

  lemma MergedCovers(p: Platform, master: IngressEx, minions: seq<IngressEx>, files: map<string, NginxCfg>, f: string,
                     minion: IngressEx)
    requires f in files && Merged(p, master, minions, files[f]) && minion in minions
    ensures WellFormed(Stripped(minion)) && Covers(p, files, f, Stripped(minion))
  {
    var own, parts :| MergedFrom(p, master, minions, own, parts, files[f]);
    PartsListed(p, minions, parts, minion);
  }

  /** A master ingress and its minions. */
  datatype Mergeable = Mergeable(master: IngressEx, minions: seq<IngressEx>)

  /** The minions as they are after the files are written. */
  function StripAll(minions: seq<IngressEx>): (r: seq<IngressEx>)
    ensures |r| == |minions|
  {
    seq(|minions|, i requires 0 <= i < |minions| => Stripped(minions[i]))
  }

  function AllMinions(ms: seq<Mergeable>): (r: seq<IngressEx>) {
    if ms == [] then [] else AllMinions(ms[..|ms| - 1]) + StripAll(Last(ms).minions)
  }

  /** No ingress shares an upstream name with another. */
  ghost predicate AllSeparate(ings: seq<IngressEx>) {
    forall a, b :: a in ings && b in ings ==> Separate(a, b)
  }

  lemma {:induction false} MinionsListed(ms: seq<Mergeable>, n: nat)
    requires n < |ms|
    ensures forall a :: a in AllMinions(ms[..n]) ==> a in AllMinions(ms)
    ensures forall a :: a in StripAll(ms[n].minions) ==> a in AllMinions(ms)
    decreases |ms|
  {
    if n < |ms| - 1 {
      var init := ms[..|ms| - 1];
      MinionsListed(init, n);
      assert init[..n] == ms[..n];
    }
  }

  lemma MinionsWellFormed(minions: seq<IngressEx>)
    requires forall a :: a in StripAll(minions) ==> WellFormed(a)
    ensures forall minion :: minion in minions ==> WellFormed(minion)
  {
    forall minion | minion in minions ensures WellFormed(minion) {
      var i :| 0 <= i < |minions| && minions[i] == minion;
      assert StripAll(minions)[i] in StripAll(minions);
    }
  }

  /** The master's file holds the merged configuration. */
  ghost predicate WrittenMerged(p: Platform, files: map<string, NginxCfg>, m: Mergeable) {
    FileName(m.master) in files && Merged(p, m.master, m.minions, files[FileName(m.master)])
  }

  ghost predicate AllMerged(p: Platform, files: map<string, NginxCfg>, ms: seq<Mergeable>) {
    forall m :: m in ms ==> WrittenMerged(p, files, m)
  }

  /** Masters have a rule with paths, minions proper endpoints, and all have names and files of their own. */
  ghost predicate MergeReady(ms: seq<Mergeable>) {
    && (forall m :: m in ms ==> WellFormed(m.master) && HttpRules(m.master.rules) != [])
    && (forall a :: a in AllMinions(ms) ==> Ready(a))
    && AllSeparate(AllMinions(ms))
    && (forall m, k :: m in ms && k in ms && FileName(m.master) == FileName(k.master) ==> m == k)
  }

  function MasterFiles(ms: seq<Mergeable>): (r: set<string>) {
    set m | m in ms :: FileName(m.master)
  }

  /** What one turn of the loop over mergeable ingresses may rely on. */
  lemma ReadyAt(ms: seq<Mergeable>, n: nat)
    requires MergeReady(ms) && n < |ms|
    ensures WellFormed(ms[n].master) && HttpRules(ms[n].master.rules) != []
    ensures forall a :: a in StripAll(ms[n].minions) ==> WellFormed(a)
    ensures AllSeparate(AllMinions(ms[..n]) + StripAll(ms[n].minions))
    ensures AllMinions(ms[..n + 1]) == AllMinions(ms[..n]) + StripAll(ms[n].minions)
    ensures FileName(ms[n].master) in MasterFiles(ms)
  {
    assert ms[n] in ms && ms[..n + 1][..n] == ms[..n];
    MinionsListed(ms, n);
  }

  /** Writing the next file keeps the others, and replaces one only by itself. */
  lemma MergedStays(p: Platform, before: map<string, NginxCfg>, after: map<string, NginxCfg>, ms: seq<Mergeable>,
                    n: nat)
    requires n < |ms| && AllMerged(p, before, ms[..n]) && WrittenMerged(p, after, ms[n])
    requires forall m, k :: m in ms && k in ms && FileName(m.master) == FileName(k.master) ==> m == k
    requires SameFiles(before, after, {FileName(ms[n].master)})
    ensures AllMerged(p, after, ms[..n + 1])
  {
    forall m | m in ms[..n + 1] ensures WrittenMerged(p, after, m) {
      if m != ms[n] {
        assert m in ms[..n] && WrittenMerged(p, before, m);
      }
    }
  }

  lemma {:induction false} CoveredAll(p: Platform, files: map<string, NginxCfg>, ms: seq<Mergeable>)
    requires AllMerged(p, files, ms)
    ensures forall a :: a in AllMinions(ms) ==> WellFormed(a) && Covered(p, files, a)
  {
    if ms != [] {
      CoveredAll(p, files, ms[..|ms| - 1]);
      var m := Last(ms);
      assert WrittenMerged(p, files, m);
      forall i | 0 <= i < |m.minions|
        ensures WellFormed(StripAll(m.minions)[i]) && Covered(p, files, StripAll(m.minions)[i])
      {
        MergedCovers(p, m.master, m.minions, files, FileName(m.master), m.minions[i]);
      }
    }
  }

  ghost predicate OwnFiles(ings: seq<IngressEx>) {
    forall a, b :: a in ings && b in ings && FileName(a) == FileName(b) ==> a == b
  }

  function FileNames(ings: seq<IngressEx>): (r: set<string>) {
    set a | a in ings :: FileName(a)
  }

  /** Writing the next file keeps the others, and replaces one only by itself. */
  lemma WrittenStays(p: Platform, before: map<string, NginxCfg>, after: map<string, NginxCfg>, ings: seq<IngressEx>,
                     n: nat)
    requires n < |ings| && OwnFiles(ings) && AllWritten(p, before, ings[..n]) && WellFormed(ings[n])
             && Written(p, after, ings[n])
    requires SameFiles(before, after, {FileName(ings[n])})
    ensures AllWritten(p, after, ings[..n + 1])
  {
    forall a | a in ings[..n + 1] ensures WellFormed(a) && Written(p, after, a) {
      if a != ings[n] {
        assert a in ings[..n];
      }
    }
  }

  lemma WrittenCovers(p: Platform, files: map<string, NginxCfg>, ing: IngressEx)
    requires WellFormed(ing) && Written(p, files, ing)
    ensures Covered(p, files, ing)
  {
    assert Covers(p, files, FileName(ing), ing);
  }

  // ----- The configurator -----

  class Configurator {
    const p: Platform
    var files: map<string, NginxCfg>
    var running: Running

    constructor (p: Platform)
      ensures this.p == p && files == map[] && running == map[]
    {
      this.p := p;
      files, running := map[], map[];
    }

    method GetHTTPServers(upstream: string) returns (r: Option<seq<string>>)
      ensures r.Some? ==> upstream in running && r.value == running[upstream]
    {
      if * { return None; }
      if upstream !in running { return None; }
      return Some(running[upstream]);
    }

    method AddHTTPServer(upstream: string, server: string) returns (ok: bool)
      modifies this`running
      ensures OnlyAt(old(running), running, upstream)
      ensures ok ==> upstream in old(running) && server !in old(running)[upstream]
      ensures ok ==> running == old(running)[upstream := old(running)[upstream] + [server]]
    {
      var servers := GetHTTPServers(upstream);
      if servers.None? || server in servers.value { return false; }
      var fails: bool := *;
      var effect: bool := *;
      if !fails || effect {
        running := running[upstream := running[upstream] + [server]];
      }
      return !fails;
    }

    method DeleteHTTPServer(upstream: string, server: string) returns (ok: bool)
      modifies this`running
      ensures OnlyAt(old(running), running, upstream)
      ensures ok ==> upstream in old(running) && server in old(running)[upstream]
      ensures ok ==> running == old(running)[upstream := RemoveFirst(old(running)[upstream], server)]
    {
      var servers := GetHTTPServers(upstream);
      if servers.None? || server !in servers.value { return false; }
      var fails: bool := *;
      var effect: bool := *;
      if !fails || effect {
        running := running[upstream := RemoveFirst(running[upstream], server)];
      }
      return !fails;
    }

    method AddAllServers(upstream: string, servers: seq<string>) returns (ok: bool)
      requires upstream in running
      modifies this`running
      ensures OnlyAt(old(running), running, upstream)
      ensures ok ==> upstream in running && running[upstream] == old(running)[upstream] + servers
    {
      for n := 0 to |servers|
        invariant OnlyAt(old(running), running, upstream) && upstream in running
        invariant running[upstream] == old(running)[upstream] + servers[..n]
      {
        ok := AddHTTPServer(upstream, servers[n]);
        if !ok { return false; }
        assert servers[..n + 1] == servers[..n] + [servers[n]];
      }
      assert servers[..|servers|] == servers;
      return true;
    }

    method DeleteAllServers(upstream: string, servers: seq<string>) returns (ok: bool)
      requires upstream in running
      modifies this`running
      ensures OnlyAt(old(running), running, upstream)
      ensures ok ==> upstream in running && running[upstream] == RemoveEach(old(running)[upstream], servers)
    {
      for n := 0 to |servers|
        invariant OnlyAt(old(running), running, upstream) && upstream in running
        invariant running[upstream] == RemoveEach(old(running)[upstream], servers[..n])
      {
        ok := DeleteHTTPServer(upstream, servers[n]);
        if !ok { return false; }
        assert servers[..n + 1][..n] == servers[..n];
      }
      assert servers[..|servers|] == servers;
      return true;
    }

    /** On success the upstream runs exactly the given servers. */
    method UpdateHTTPServers(upstream: string, servers: seq<string>) returns (ok: bool)
      modifies this`running
      ensures OnlyAt(old(running), running, upstream)
      ensures ok ==> upstream in running && Elements(running[upstream]) == Elements(servers)
    {
      var current := GetHTTPServers(upstream);
      if current.None? { return false; }
      var toAdd := FindMissing(servers, current.value);
      var toDelete := FindMissing(current.value, servers);
      ok := AddAllServers(upstream, toAdd);
      if !ok { return; }
      ok := DeleteAllServers(upstream, toDelete);
      if !ok { return; }
      UpdatesReach(current.value, servers);
    }

    /** The API is used only on the worker that has the current configuration version. */
    method UpdateServers(upstream: string, servers: seq<string>) returns (ok: bool)
      modifies this`running
      ensures OnlyAt(old(running), running, upstream)
      ensures ok ==> upstream in running && Elements(running[upstream]) == Elements(servers)
    {
      var current: bool := *;
      if !current { return false; }
      ok := UpdateHTTPServers(upstream, servers);
    }

    method UpdateBackend(ing: IngressEx, ref: Ref) returns (ok: bool)
      modifies this`running
      ensures OnlyAt(old(running), running, UpstreamName(ing, ref))
      ensures ok ==> Serving(true, running, ing, ref)
      ensures !Live(ing, ref) ==> ok && running == old(running)
    {
      if BackendKey(ref.backend) !in ing.endpoints || ref.backend.service in ing.externalNames { return true; }
      ok := UpdateServers(UpstreamName(ing, ref), ing.endpoints[BackendKey(ref.backend)]);
    }

    method UpdateBackends(ing: IngressEx, refs: seq<Ref>, ghost before: seq<Ref>) returns (ok: bool)
      requires Separate(ing, ing) && forall ref :: ref in before + refs ==> ref in Refs(ing)
      requires forall ref :: ref in before ==> Serving(true, running, ing, ref)
      modifies this`running
      ensures Confined(old(running), running, ing)
      ensures ok ==> forall ref :: ref in before + refs ==> Serving(true, running, ing, ref)
    {
      for n := 0 to |refs|
        invariant Confined(old(running), running, ing)
        invariant forall ref :: ref in before + refs[..n] ==> Serving(true, running, ing, ref)
      {
        var ref := refs[n];
        assert ref in before + refs;
        ghost var r := running;
        ok := UpdateBackend(ing, ref);
        if !ok { return; }
        forall q | q in before + refs[..n + 1] ensures Serving(true, running, ing, q) {
          if q != ref {
            assert q in before + refs[..n] && q in before + refs;
            assert Serving(true, r, ing, q);
          }
        }
      }
      assert refs[..|refs|] == refs;
      return true;
    }

    /** The upstreams of one rule, when those of the default backend and the rules before it are served. */
    method UpdateRule(ing: IngressEx, n: nat, ghost before: seq<Ref>) returns (ok: bool)
      requires Separate(ing, ing) && n < |ing.rules| && before == DefaultRefs(ing) + RuleRefs(ing.rules[..n])
      requires forall ref :: ref in before ==> ref in Refs(ing) && Serving(true, running, ing, ref)
      modifies this`running
      ensures Confined(old(running), running, ing)
      ensures ok ==> forall ref :: ref in DefaultRefs(ing) + RuleRefs(ing.rules[..n + 1]) ==>
                                     ref in Refs(ing) && Serving(true, running, ing, ref)
    {
      assert ing.rules[..n + 1][..n] == ing.rules[..n];
      var rule := ing.rules[n];
      if rule.http.None? { return true; }
      var refs := PathRefs(rule.host, rule.http.value);
      forall ref | ref in refs ensures ref in Refs(ing) { RuleRefsListed(ing.rules, n, ref); }
      ok := UpdateBackends(ing, refs, before);
      assert DefaultRefs(ing) + RuleRefs(ing.rules[..n + 1]) == before + refs;
    }

    /** On success every touched upstream runs exactly its endpoints. */
    method UpdatePlusEndpoints(ing: IngressEx) returns (ok: bool)
      requires Separate(ing, ing)
      modifies this`running
      ensures Confined(old(running), running, ing)
      ensures ok ==> Served(true, running, ing)
    {
      ok := UpdateBackends(ing, DefaultRefs(ing), []);
      if !ok { return; }
      ghost var done := DefaultRefs(ing);
      for n := 0 to |ing.rules|
        invariant done == DefaultRefs(ing) + RuleRefs(ing.rules[..n])
        invariant Confined(old(running), running, ing)
        invariant forall ref :: ref in done ==> ref in Refs(ing) && Serving(true, running, ing, ref)
      {
        ok := UpdateRule(ing, n, done);
        if !ok { return; }
        done := DefaultRefs(ing) + RuleRefs(ing.rules[..n + 1]);
      }
      assert ing.rules[..|ing.rules|] == ing.rules;
      return true;
    }

    /** Reads one file into the table; fails on a name that is taken. */
    method LoadFile(cfg: NginxCfg, table: Running) returns (ok: bool, table': Running)
      ensures ok ==> forall name :: name in table ==> name in table' && table'[name] == table[name]
      ensures ok ==> forall u :: u in cfg.upstreams ==> u.name in table' && table'[u.name] == Addresses(u)
      ensures ok ==> forall name :: name in table' ==> name in table || exists u :: u in cfg.upstreams && u.name == name
    {
      table' := table;
      for n := 0 to |cfg.upstreams|
        invariant forall name :: name in table ==> name in table' && table'[name] == table[name]
        invariant forall u :: u in cfg.upstreams[..n] ==> u.name in table' && table'[u.name] == Addresses(u)
        invariant forall name :: name in table' ==>
                                   name in table || exists i :: 0 <= i < n && cfg.upstreams[i].name == name
      {
        var u := cfg.upstreams[n];
        if u.name in table' { return false, table'; }
        table' := table'[u.name := Addresses(u)];
      }
      return true, table';
    }

    /**
     * On success NGINX runs what the files say; on failure it keeps what it ran, or the check of
     * the new version failed.
     */
    method Reload() returns (ok: bool)
      modifies this`running
      ensures ok ==> Loads(files, running)
    {
      var table: Running := map[];
      var rest := files.Keys;
      while rest != {}
        invariant rest <= files.Keys
        invariant forall f, u :: f in files && f !in rest && u in files[f].upstreams ==>
                                   u.name in table && table[u.name] == Addresses(u)
        invariant forall name :: name in table ==>
                                   exists f, u :: f in files && u in files[f].upstreams && u.name == name
        decreases rest
      {
        var f :| f in rest;
        var loaded, table' := LoadFile(files[f], table);
        if !loaded { return false; }
        table, rest := table', rest - {f};
      }
      if * { return false; }
      running := table;
      if * { return false; }
      return true;
    }

    method AddOrUpdateIngress(ing: IngressEx) returns (ok: bool)
      requires WellFormed(ing)
      modifies this`files
      ensures ok ==> Written(p, files, ing)
      ensures SameFiles(old(files), files, if ok then {FileName(ing)} else {})
    {
      var cfg := GenerateNginxCfg(p, ing);
      if * { return false; }
      files := files[FileName(ing) := cfg];
      return true;
    }

    /** Edits one more ingress; those already served stay served. */
    method UpdateAlso(ing: IngressEx, ghost done: seq<IngressEx>) returns (ok: bool)
      requires AllSeparate(done + [ing])
      modifies this`running
      ensures ok && (forall a :: a in done ==> Served(true, old(running), a)) ==> forall a :: a in done + [ing] ==>
              Served(true, running, a)
    {
      assert ing in done + [ing];
      ok := UpdatePlusEndpoints(ing);
      if ok && forall a :: a in done ==> Served(true, old(running), a) {
        forall a | a in done + [ing] ensures Served(true, running, a) {
          if a != ing { ServedElsewhere(old(running), running, a, ing); }
        }
      }
    }

    /**
     * If no error is returned, every touched upstream runs exactly the servers that a reload
     * of the files would give it, whether NGINX was reloaded or edited.
     */
    method UpdateEndpoints(ings: seq<IngressEx>) returns (ok: bool)
      requires AllSeparate(ings) && OwnFiles(ings) && forall a :: a in ings ==> Ready(a)
      modifies this
      ensures ok ==> UpToDate(files, running, ings) && AllWritten(p, files, ings)
      ensures ok ==> forall a :: a in ings ==> Served(p.plus, running, a)
      ensures ok && !p.plus ==>
                Loads(files, running) && forall a :: a in ings ==> ServedInOrder(p, running, a)
      ensures SameFiles(old(files), files, FileNames(ings))
    {
      var reload := false;
      for n := 0 to |ings|
        invariant AllWritten(p, files, ings[..n]) && SameFiles(old(files), files, FileNames(ings))
        invariant p.plus && !reload ==> forall a :: a in ings[..n] ==> Served(true, running, a)
      {
        assert ings[n] in ings;
        ghost var before := files;
        ok := AddOrUpdateIngress(ings[n]);
        if !ok { return; }
        WrittenStays(p, before, files, ings, n);
        assert ings[..n + 1] == ings[..n] + [ings[n]];
        if p.plus {
          ok := UpdateAlso(ings[n], ings[..n]);
          reload := reload || !ok;
        }
      }
      assert ings[..|ings|] == ings;
      ok := true;
      if !p.plus || reload {
        ok := Reload();
      }
      if ok {
        forall a | a in ings ensures Covered(p, files, a) { WrittenCovers(p, files, a); }
        EndsUpToDate(p, files, running, ings);
      }
    }

    method AddOrUpdateMergeable(m: Mergeable) returns (ok: bool)
      requires WellFormed(m.master) && HttpRules(m.master.rules) != []
      requires forall minion :: minion in m.minions ==> WellFormed(minion)
      modifies this`files
      ensures ok ==> WrittenMerged(p, files, m)
      ensures SameFiles(old(files), files, if ok then {FileName(m.master)} else {})
    {
      var cfg := GenerateNginxCfgForMergeableIngresses(p, m.master, m.minions);
      if * { return false; }
      files := files[FileName(m.master) := cfg];
      return true;
    }

    /** Edits the minions in turn; one failure does not stop the others. */
    method UpdateMinions(minions: seq<IngressEx>, ghost done: seq<IngressEx>) returns (ok: bool)
      requires AllSeparate(done + minions)
      modifies this`running
      ensures ok && (forall a :: a in done ==> Served(true, old(running), a)) ==> forall a :: a in done + minions ==>
              Served(true, running, a)
    {
      ok := true;
      for n := 0 to |minions|
        invariant ok && (forall a :: a in done ==> Served(true, old(running), a)) ==>
                  forall a :: a in done + minions[..n] ==> Served(true, running, a)
      {
        assert minions[..n + 1] == minions[..n] + [minions[n]];
        forall a | a in done + minions[..n] + [minions[n]] ensures a in done + minions {
        }
        var updated := UpdateAlso(minions[n], done + minions[..n]);
        ok := ok && updated;
      }
      assert minions[..|minions|] == minions;
    }

    /** Writes one file and edits its minions' upstreams. */
    method UpdateMergeable(m: Mergeable, ghost done: seq<IngressEx>) returns (ok: bool, edited: bool)
      requires WellFormed(m.master) && HttpRules(m.master.rules) != []
      requires forall a :: a in StripAll(m.minions) ==> WellFormed(a)
      requires AllSeparate(done + StripAll(m.minions))
      modifies this
      ensures ok ==> WrittenMerged(p, files, m)
      ensures SameFiles(old(files), files, if ok then {FileName(m.master)} else {})
      ensures ok && edited && p.plus && (forall a :: a in done ==> Served(true, old(running), a)) ==>
                forall a :: a in done + StripAll(m.minions) ==> Served(true, running, a)
    {
      MinionsWellFormed(m.minions);
      edited := true;
      ok := AddOrUpdateMergeable(m);
      if ok && p.plus {
        edited := UpdateMinions(StripAll(m.minions), done);
      }
    }

    /** Writes all files and edits as far as that works. */
    method UpdateMergeables(ms: seq<Mergeable>) returns (ok: bool, edited: bool)
      requires MergeReady(ms)
      modifies this
      ensures ok ==> AllMerged(p, files, ms)
      ensures ok && edited && p.plus ==> forall a :: a in AllMinions(ms) ==> Served(true, running, a)
      ensures SameFiles(old(files), files, MasterFiles(ms))
    {
      ok, edited := true, true;
      for n := 0 to |ms|
        invariant ok && AllMerged(p, files, ms[..n]) && SameFiles(old(files), files, MasterFiles(ms))
        invariant p.plus && edited ==> forall a :: a in AllMinions(ms[..n]) ==> Served(true, running, a)
      {
        ReadyAt(ms, n);
        ghost var before := files;
        var now: bool;
        ok, now := UpdateMergeable(ms[n], AllMinions(ms[..n]));
        if !ok { return; }
        edited := edited && now;
        MergedStays(p, before, files, ms, n);
      }
      assert ms[..|ms|] == ms;
    }

    /** The same for mergeable ingresses, where the API edits the minions' upstreams. */
    method UpdateEndpointsMergeableIngress(ms: seq<Mergeable>) returns (ok: bool)
      requires MergeReady(ms)
      modifies this
      ensures ok ==> UpToDate(files, running, AllMinions(ms)) && AllMerged(p, files, ms)
      ensures ok ==> forall a :: a in AllMinions(ms) ==> Served(p.plus, running, a)
      ensures ok && !p.plus ==>
                Loads(files, running) && forall a :: a in AllMinions(ms) ==> ServedInOrder(p, running, a)
      ensures SameFiles(old(files), files, MasterFiles(ms))
    {
      var edited: bool;
      ok, edited := UpdateMergeables(ms);
      if !ok { return; }
      if !p.plus || !edited {
        ok := Reload();
      }
      if ok {
        CoveredAll(p, files, ms);
        EndsUpToDate(p, files, running, AllMinions(ms));
      }
    }
  }
}
