/**
 * One configuration for a master ingress and its minions
 * (kubernetes-ingress/internal/nginx/configurator.go): the master gives the server, the
 * minions its locations, and all of them the upstreams.
 */
module MergedConfig {
  import opened Common
  import opened Ingresses
  import opened NginxConfig
  import MinionMerge

  /** A minion's default backend is ignored. */
  function Stripped(minion: IngressEx): (r: IngressEx) {
    minion.(backend := None)
  }

  /** A location, marked with the minion it comes from. */
  function Tag(loc: Location, minion: IngressEx): (r: Location) {
    loc.(minion := Some((minion.namespace, minion.name)))
  }

  function TagAll(locs: seq<Location>, minion: IngressEx): (r: seq<Location>)
    ensures |r| == |locs|
  {
    seq(|locs|, i requires 0 <= i < |locs| => Tag(locs[i], minion))
  }

  function ServerLocations(servers: seq<Server>, minion: IngressEx): (r: seq<Location>) {
    if servers == [] then []
    else ServerLocations(servers[..|servers| - 1], minion) + TagAll(Last(servers).locations, minion)
  }

  function ServerChecks(servers: seq<Server>): (r: set<string>) {
    if servers == [] then {} else ServerChecks(servers[..|servers| - 1]) + Last(servers).healthChecks
  }

  function AllLocations(parts: seq<NginxCfg>, minions: seq<IngressEx>): (r: seq<Location>)
    requires |parts| == |minions|
  {
    if parts == [] then []
    else AllLocations(parts[..|parts| - 1], minions[..|minions| - 1])
         + ServerLocations(Last(parts).servers, Last(minions))
  }

  function AllUpstreams(parts: seq<NginxCfg>): (r: seq<Upstream>) {
    if parts == [] then [] else AllUpstreams(parts[..|parts| - 1]) + Last(parts).upstreams
  }

  function AllChecks(parts: seq<NginxCfg>): (r: set<string>) {
    if parts == [] then {} else AllChecks(parts[..|parts| - 1]) + ServerChecks(Last(parts).servers)
  }

  ghost predicate PartOK(p: Platform, minion: IngressEx, part: NginxCfg) {
    WellFormed(Stripped(minion)) && Generated(p, Stripped(minion), part)
  }

  ghost predicate PartsOK(p: Platform, minions: seq<IngressEx>, parts: seq<NginxCfg>) {
    && |parts| == |minions|
    && (minions != [] ==>
          PartOK(p, Last(minions), Last(parts)) && PartsOK(p, minions[..|minions| - 1], parts[..|parts| - 1]))
  }

  /** The merge of the master's configuration and the minions'. */
  ghost predicate MergedFrom(p: Platform, master: IngressEx, minions: seq<IngressEx>, own: NginxCfg,
                             parts: seq<NginxCfg>, cfg: NginxCfg) {
    && WellFormed(master) && Generated(p, master, own) && own.servers != [] && PartsOK(p, minions, parts)
    && cfg.upstreams == own.upstreams + AllUpstreams(parts)
    && cfg.servers == [own.servers[0].(locations := AllLocations(parts, minions), healthChecks := AllChecks(parts))]
  }

  ghost predicate Merged(p: Platform, master: IngressEx, minions: seq<IngressEx>, cfg: NginxCfg) {
    exists own, parts :: MergedFrom(p, master, minions, own, parts, cfg)
  }

  /** What the minions contribute. */
  datatype Collection = Collection(locations: seq<Location>, upstreams: seq<Upstream>, checks: set<string>)

  ghost predicate Collects(p: Platform, minions: seq<IngressEx>, parts: seq<NginxCfg>, c: Collection) {
    PartsOK(p, minions, parts) && c == Collection(AllLocations(parts, minions), AllUpstreams(parts), AllChecks(parts))
  }

  /** Marks a server's locations. */
  method TagLocations(own: seq<Location>, minion: IngressEx) returns (r: seq<Location>)
    ensures r == TagAll(own, minion)
  {
    r := [];
    for i := 0 to |own|
      invariant |r| == i && forall j :: 0 <= j < i ==> r[j] == Tag(own[j], minion)
    {
      r := r + [Tag(own[i], minion)];
    }
  }

  /** Collects the locations and health checks of one minion's servers. */
  method CollectServers(servers: seq<Server>, minion: IngressEx) returns (locs: seq<Location>, checks: set<string>)
    ensures locs == ServerLocations(servers, minion) && checks == ServerChecks(servers)
  {
    locs, checks := [], {};
    for n := 0 to |servers|
      invariant locs == ServerLocations(servers[..n], minion) && checks == ServerChecks(servers[..n])
    {
      var own := TagLocations(servers[n].locations, minion);
      assert servers[..n + 1][..n] == servers[..n];
      locs, checks := locs + own, checks + servers[n].healthChecks;
    }
    assert servers[..|servers|] == servers;
  }

  lemma CollectionsGrow(p: Platform, minions: seq<IngressEx>, parts: seq<NginxCfg>, minion: IngressEx, part: NginxCfg)
    requires |parts| == |minions|
    ensures PartsOK(p, minions, parts) && PartOK(p, minion, part) ==> PartsOK(p, minions + [minion], parts + [part])
    ensures AllLocations(parts + [part], minions + [minion]) == AllLocations(parts, minions)
            + ServerLocations(part.servers, minion)
    ensures AllUpstreams(parts + [part]) == AllUpstreams(parts) + part.upstreams
    ensures AllChecks(parts + [part]) == AllChecks(parts) + ServerChecks(part.servers)
  {
    assert (parts + [part])[..|parts|] == parts && (minions + [minion])[..|minions|] == minions;
  }

  method GeneratePart(p: Platform, minion: IngressEx) returns (part: NginxCfg)
    requires WellFormed(minion)
    ensures PartOK(p, minion, part)
  {
    assert WellFormed(Stripped(minion));
    part := GenerateNginxCfg(p, Stripped(minion));
  }

  /** Generates every minion's configuration and collects its parts. */
  method CollectMinions(p: Platform, minions: seq<IngressEx>) returns (c: Collection)
    requires forall minion :: minion in minions ==> WellFormed(minion)
    ensures exists parts :: Collects(p, minions, parts, c)
  {
    c := Collection([], [], {});
    ghost var parts: seq<NginxCfg> := [];
    for n := 0 to |minions|
      invariant Collects(p, minions[..n], parts, c)
    {
      var part := GeneratePart(p, minions[n]);
      var locs, checks := CollectServers(part.servers, minions[n]);
      CollectionsGrow(p, minions[..n], parts, minions[n], part);
      assert minions[..n + 1] == minions[..n] + [minions[n]];
      c := Collection(c.locations + locs, c.upstreams + part.upstreams, c.checks + checks);
      parts := parts + [part];
    }
    assert minions[..|minions|] == minions;
  }

  method GenerateNginxCfgForMergeableIngresses(p: Platform, master: IngressEx, minions: seq<IngressEx>)
      returns (cfg: NginxCfg)
    requires WellFormed(master) && HttpRules(master.rules) != []
    requires forall minion :: minion in minions ==> WellFormed(minion)
    ensures Merged(p, master, minions, cfg)
  {
    var own := GenerateNginxCfg(p, master);
    var c := CollectMinions(p, minions);
    ghost var parts :| Collects(p, minions, parts, c);
    cfg := NginxCfg(own.upstreams + c.upstreams, [own.servers[0].(locations := c.locations, healthChecks := c.checks)]);
    assert MergedFrom(p, master, minions, own, parts, cfg);
  }

  // ----- Closure and conservation -----

  lemma {:induction false} ServerLocationsFrom(servers: seq<Server>, minion: IngressEx, loc: Location)
    requires loc in ServerLocations(servers, minion)
    ensures exists i, j :: 0 <= i < |servers| && 0 <= j < |servers[i].locations| &&
                           loc == Tag(servers[i].locations[j], minion)
  {
    var init := servers[..|servers| - 1];
    if loc in ServerLocations(init, minion) {
      ServerLocationsFrom(init, minion, loc);
      var i, j :| 0 <= i < |init| && 0 <= j < |init[i].locations| && loc == Tag(init[i].locations[j], minion);
      assert servers[i] == init[i];
    } else {
      var last := TagAll(Last(servers).locations, minion);
      var j :| 0 <= j < |last| && last[j] == loc;
      assert loc == Tag(servers[|servers| - 1].locations[j], minion);
    }
  }

  lemma {:induction false} LocationsClosed(p: Platform, minions: seq<IngressEx>, parts: seq<NginxCfg>, loc: Location)
    requires PartsOK(p, minions, parts) && loc in AllLocations(parts, minions)
    ensures loc.upstream in AllUpstreams(parts)
  {
    var init, last := parts[..|parts| - 1], Last(parts);
    var minion := Last(minions);
    if loc in AllLocations(init, minions[..|minions| - 1]) {
      LocationsClosed(p, minions[..|minions| - 1], init, loc);
    } else {
      ServerLocationsFrom(last.servers, minion, loc);
      GeneratedIsClosed(p, Stripped(minion), last);
    }
  }

  /** Every location of the merged server has its upstream listed with the same value. */
  lemma MergedIsClosed(p: Platform, master: IngressEx, minions: seq<IngressEx>, cfg: NginxCfg)
    requires Merged(p, master, minions, cfg)
    ensures Closed(cfg)
  {
    var own, parts :| MergedFrom(p, master, minions, own, parts, cfg);
    forall i, j | 0 <= i < |cfg.servers| && 0 <= j < |cfg.servers[i].locations|
      ensures cfg.servers[i].locations[j].upstream in cfg.upstreams
    {
      LocationsClosed(p, minions, parts, cfg.servers[0].locations[j]);
    }
  }

  /** The paths as the rules declare them. */
  function RawPaths(rules: seq<Rule>): (r: seq<Path>) {
    if rules == [] then []
    else RawPaths(rules[..|rules| - 1]) + if Last(rules).http.Some? then Last(rules).http.value else []
  }

  function AllRawPaths(minions: seq<IngressEx>): (r: seq<Path>) {
    if minions == [] then [] else AllRawPaths(minions[..|minions| - 1]) + RawPaths(Last(minions).rules)
  }

  ghost predicate Render(paths: seq<Path>, locs: seq<Location>) {
    |locs| == |paths| && forall i :: 0 <= i < |paths| ==> locs[i].path == PathOrDefault(paths[i].path)
  }

  lemma RenderAppend(a: seq<Path>, b: seq<Path>, la: seq<Location>, lb: seq<Location>)
    requires Render(a, la) && Render(b, lb)
    ensures Render(a + b, la + lb)
  {
  }

  lemma {:induction false} ServersRender(ing: IngressEx, rules: seq<Rule>, ups: map<string, Upstream>,
                                         servers: seq<Server>, minion: IngressEx)
    requires ing.backend.None? && ServersOK(ing, HttpRules(rules), ups, servers)
    ensures Render(RawPaths(rules), ServerLocations(servers, minion))
    decreases |rules|
  {
    if rules != [] {
      var init, rule := rules[..|rules| - 1], Last(rules);
      if rule.http.Some? {
        assert ServersOK(ing, HttpRules(init), ups, servers[..|servers| - 1]);
        ServersRender(ing, init, ups, servers[..|servers| - 1], minion);
        ServerRenders(ing, rule, ups, Last(servers), minion);
        RenderAppend(RawPaths(init), rule.http.value, ServerLocations(servers[..|servers| - 1], minion),
                     TagAll(Last(servers).locations, minion));
      } else {
        ServersRender(ing, init, ups, servers, minion);
        assert RawPaths(rules) == RawPaths(init);
      }
    }
  }

  lemma ServerRenders(ing: IngressEx, rule: Rule, ups: map<string, Upstream>, s: Server, minion: IngressEx)
    requires ing.backend.None? && ServerOK(ing, rule, ups, s)
    ensures Render(rule.http.value, TagAll(s.locations, minion))
  {
    var paths := rule.http.value;
    forall i | 0 <= i < |paths| ensures s.locations[i].path == PathOrDefault(paths[i].path) {
      assert LocationOK(ing, rule.host, paths[i], ups, s.locations[i]);
    }
  }

  lemma {:induction false} PartsRender(p: Platform, minions: seq<IngressEx>, parts: seq<NginxCfg>)
    requires PartsOK(p, minions, parts)
    ensures Render(AllRawPaths(minions), AllLocations(parts, minions))
  {
    if minions != [] {
      var minion, init := Last(minions), minions[..|minions| - 1];
      PartsRender(p, init, parts[..|parts| - 1]);
      ServersRender(Stripped(minion), minion.rules, Upstreams(p, Stripped(minion)), Last(parts).servers, minion);
      RenderAppend(AllRawPaths(init), RawPaths(minion.rules), AllLocations(parts[..|parts| - 1], init),
                   ServerLocations(Last(parts).servers, minion));
    }
  }

  /** The merged server is the only one, and has one location for each path of the minions, in their order. */
  lemma LocationsAreTheMinionsPaths(p: Platform, master: IngressEx, minions: seq<IngressEx>, cfg: NginxCfg)
    requires Merged(p, master, minions, cfg)
    ensures |cfg.servers| == 1 && Render(AllRawPaths(minions), cfg.servers[0].locations)
  {
    var own, parts :| MergedFrom(p, master, minions, own, parts, cfg);
    PartsRender(p, minions, parts);
  }

  // ----- Where merged locations go -----

  /** A path as some minion's rule declares it. */
  datatype Source = Source(minion: IngressEx, host: string, path: Path)

  function RuleSources(minion: IngressEx, rules: seq<Rule>): (r: seq<Source>)
    requires forall i :: 0 <= i < |rules| ==> rules[i].http.Some?
  {
    if rules == [] then []
    else RuleSources(minion, rules[..|rules| - 1]) + PathSources(minion, Last(rules))
  }

  function PathSources(minion: IngressEx, rule: Rule): (r: seq<Source>)
    requires rule.http.Some?
    ensures |r| == |rule.http.value|
  {
    seq(|rule.http.value|, i requires 0 <= i < |rule.http.value| => Source(minion, rule.host, rule.http.value[i]))
  }

  function AllSources(minions: seq<IngressEx>): (r: seq<Source>) {
    if minions == [] then []
    else AllSources(minions[..|minions| - 1]) + RuleSources(Last(minions), HttpRules(Last(minions).rules))
  }

  /** The location is marked with its minion, and reaches the endpoints of its own path's backend. */
  ghost predicate Goes(p: Platform, src: Source, loc: Location) {
    && loc.minion == Some((src.minion.namespace, src.minion.name))
    && Reaches(p, Stripped(src.minion), src.path.backend, src.path.path, loc)
  }

  ghost predicate GoAll(p: Platform, srcs: seq<Source>, locs: seq<Location>) {
    |locs| == |srcs| && forall i :: 0 <= i < |srcs| ==> Goes(p, srcs[i], locs[i])
  }

  /** The minion's endpoints have one colon each and its backends different upstream names. */
  ghost predicate Plain(minion: IngressEx) {
    OneColon(minion) && DistinctNames(Stripped(minion))
  }

  lemma GoAppend(p: Platform, a: seq<Source>, b: seq<Source>, la: seq<Location>, lb: seq<Location>)
    requires GoAll(p, a, la) && GoAll(p, b, lb)
    ensures GoAll(p, a + b, la + lb)
  {
  }

  lemma ServerGoes(p: Platform, minion: IngressEx, part: NginxCfg, n: nat)
    requires PartOK(p, minion, part) && Plain(minion) && n < |part.servers|
    ensures n < |HttpRules(minion.rules)|
    ensures GoAll(p, PathSources(minion, HttpRules(minion.rules)[n]), TagAll(part.servers[n].locations, minion))
  {
    PathsGiveLocations(p, Stripped(minion), part, n);
    var paths := HttpRules(minion.rules)[n].http.value;
    forall j | 0 <= j < |paths|
      ensures Goes(p, PathSources(minion, HttpRules(minion.rules)[n])[j], TagAll(part.servers[n].locations, minion)[j])
    {
      LocationReaches(p, Stripped(minion), part, n, j);
    }
  }

  lemma {:induction false} ServersGo(p: Platform, minion: IngressEx, part: NginxCfg, n: nat)
    requires PartOK(p, minion, part) && Plain(minion) && n <= |part.servers|
    ensures |part.servers| == |HttpRules(minion.rules)|
    ensures GoAll(p, RuleSources(minion, HttpRules(minion.rules)[..n]), ServerLocations(part.servers[..n], minion))
  {
    if n > 0 {
      var rules := HttpRules(minion.rules);
      ServersGo(p, minion, part, n - 1);
      ServerGoes(p, minion, part, n - 1);
      assert rules[..n][..n - 1] == rules[..n - 1] && part.servers[..n][..n - 1] == part.servers[..n - 1];
      GoAppend(p, RuleSources(minion, rules[..n - 1]), PathSources(minion, rules[n - 1]),
               ServerLocations(part.servers[..n - 1], minion), TagAll(part.servers[n - 1].locations, minion));
    }
  }

  lemma {:induction false} PartsGo(p: Platform, minions: seq<IngressEx>, parts: seq<NginxCfg>)
    requires PartsOK(p, minions, parts) && forall m :: m in minions ==> Plain(m)
    ensures GoAll(p, AllSources(minions), AllLocations(parts, minions))
  {
    if minions != [] {
      var minion, init, part := Last(minions), minions[..|minions| - 1], Last(parts);
      PartsGo(p, init, parts[..|parts| - 1]);
      ServersGo(p, minion, part, |part.servers|);
      var rules := HttpRules(minion.rules);
      assert rules[..|rules|] == rules && part.servers[..|part.servers|] == part.servers;
      GoAppend(p, AllSources(init), RuleSources(minion, rules), AllLocations(parts[..|parts| - 1], init),
               ServerLocations(part.servers, minion));
    }
  }

  /** Path for path, the merged locations reach the endpoints of their own minion's backends. */
  lemma MergedLocationsReachTheirBackends(p: Platform, master: IngressEx, minions: seq<IngressEx>, cfg: NginxCfg)
    requires Merged(p, master, minions, cfg) && forall m :: m in minions ==> Plain(m)
    ensures |cfg.servers| == 1 && GoAll(p, AllSources(minions), cfg.servers[0].locations)
    ensures HttpRules(master.rules) != [] && cfg.servers[0].name == HttpRules(master.rules)[0].host
  {
    var own, parts :| MergedFrom(p, master, minions, own, parts, cfg);
    PartsGo(p, minions, parts);
    PathsGiveLocations(p, master, own, 0);
  }

  // ----- From the controller's minions to the merged server -----

  ghost predicate DistinctPaths(paths: seq<Path>) {
    forall i, j :: 0 <= i < j < |paths| ==> paths[i].path != paths[j].path
  }

  ghost predicate DistinctLocations(locs: seq<Location>) {
    forall i, j :: 0 <= i < j < |locs| ==> locs[i].path != locs[j].path
  }

  predicate HasPath(paths: seq<Path>, p: string) {
    exists i :: 0 <= i < |paths| && paths[i].path == p
  }

  /** The rules that the controller hands over with each minion. */
  ghost predicate SameRules(minions: seq<IngressEx>, ings: seq<MinionMerge.Ingress>) {
    |minions| == |ings| && forall i :: 0 <= i < |ings| ==> minions[i].rules == ings[i].rules && |ings[i].rules| == 1
  }

  lemma OneRulePaths(ing: MinionMerge.Ingress)
    requires |ing.rules| == 1
    ensures RawPaths(ing.rules) == MinionMerge.Paths(ing)
  {
    assert ing.rules[..0] == [];
  }

  lemma {:induction false} RawPathFrom(minions: seq<IngressEx>, ings: seq<MinionMerge.Ingress>, q: Path)
      returns (n: nat)
    requires SameRules(minions, ings) && q in AllRawPaths(minions)
    ensures n < |ings| && q in MinionMerge.Paths(ings[n])
  {
    var init, initIngs := minions[..|minions| - 1], ings[..|ings| - 1];
    if q in AllRawPaths(init) {
      n := RawPathFrom(init, initIngs, q);
      assert ings[n] == initIngs[n];
    } else {
      n := |ings| - 1;
      OneRulePaths(ings[n]);
    }
  }

  lemma AppendDistinct(a: seq<Path>, b: seq<Path>)
    requires DistinctPaths(a) && DistinctPaths(b)
    requires forall q, r :: q in a && r in b ==> q.path != r.path
    ensures DistinctPaths(a + b)
  {
  }

  lemma {:induction false} RawPathsDistinct(minions: seq<IngressEx>, ings: seq<MinionMerge.Ingress>)
    requires SameRules(minions, ings) && MinionMerge.NoPathTwice(ings)
    ensures DistinctPaths(AllRawPaths(minions))
  {
    if minions != [] {
      var last := |ings| - 1;
      var init, initIngs := minions[..last], ings[..last];
      var a, b := AllRawPaths(init), RawPaths(Last(minions).rules);
      assert MinionMerge.NoPathTwice(initIngs);
      RawPathsDistinct(init, initIngs);
      OneRulePaths(ings[last]);
      forall q, r | q in a && r in b ensures q.path != r.path {
        var n := RawPathFrom(init, initIngs, q);
        assert MinionMerge.Declares(ings[n], q.path) && MinionMerge.Declares(ings[last], r.path);
      }
      AppendDistinct(a, b);
    }
  }

  lemma RenderedCollide(paths: seq<Path>, locs: seq<Location>)
    requires Render(paths, locs) && HasPath(paths, "") && HasPath(paths, "/")
    ensures !DistinctLocations(locs)
  {
    var i, j :| 0 <= i < |paths| && 0 <= j < |paths| && paths[i].path == "" && paths[j].path == "/";
    assert locs[i].path == locs[j].path;
    assert i < j || j < i;
  }

  lemma RenderedDistinct(paths: seq<Path>, locs: seq<Location>)
    requires Render(paths, locs) && DistinctPaths(paths)
    ensures DistinctLocations(locs) <==> !(HasPath(paths, "") && HasPath(paths, "/"))
  {
    if HasPath(paths, "") && HasPath(paths, "/") {
      RenderedCollide(paths, locs);
    }
    if !DistinctLocations(locs) {
      var i, j :| 0 <= i < j < |locs| && locs[i].path == locs[j].path;
      assert paths[i].path != paths[j].path;
    }
  }

  lemma {:induction false} MergeHasOneRule(c: MinionMerge.Controller, host: string, items: seq<MinionMerge.Ingress>,
                                           taken: set<string>)
    ensures forall m :: m in MinionMerge.Merge(c, host, items, taken) ==> |m.rules| == 1 && m.rules[0].host == host
  {
    if items != [] {
      MergeHasOneRule(c, host, items[1..], taken);
      MergeHasOneRule(c, host, items[1..], taken + MinionMerge.Names(MinionMerge.Paths(items[0])));
    }
  }

  /**
   * From any list of ingresses to the merged server: each location path occurs once, exactly
   * unless the minions hold both the empty path and "/", which render alike.
   */
  lemma MergedLocationsAreDistinct(p: Platform, c: MinionMerge.Controller, host: string,
                                   items: seq<MinionMerge.Ingress>,
                                   master: IngressEx, minions: seq<IngressEx>, cfg: NginxCfg)
    requires Merged(p, master, minions, cfg) && |minions| == |MinionMerge.Merge(c, host, items, {})|
    requires forall i :: 0 <= i < |minions| ==> minions[i].rules == MinionMerge.Merge(c, host, items, {})[i].rules
    ensures |cfg.servers| == 1
    ensures DistinctLocations(cfg.servers[0].locations) <==>
            !(HasPath(AllRawPaths(minions), "") && HasPath(AllRawPaths(minions), "/"))
  {
    var ings := MinionMerge.Merge(c, host, items, {});
    MinionMerge.MergeHasNoPathTwice(c, host, items, {});
    MergeHasOneRule(c, host, items, {});
    RawPathsDistinct(minions, ings);
    LocationsAreTheMinionsPaths(p, master, minions, cfg);
    RenderedDistinct(AllRawPaths(minions), cfg.servers[0].locations);
  }

  lemma OneMinionPaths(minion: IngressEx, rule: Rule)
    requires minion.rules == [rule] && rule.http.Some?
    ensures AllRawPaths([minion]) == rule.http.value
  {
    assert [rule][..0] == [] && [minion][..0] == [];
    assert RawPaths([rule]) == rule.http.value;
  }

  /** A minion that declares both the empty path and "/" gives two "/" locations. */
  lemma EmptyAndRootPathsCollide(p: Platform, master: IngressEx, minion: IngressEx, rule: Rule, cfg: NginxCfg)
    requires minion.rules == [rule] && rule.http.Some? && Merged(p, master, [minion], cfg)
    requires HasPath(rule.http.value, "") && HasPath(rule.http.value, "/")
    ensures |cfg.servers| == 1 && !DistinctLocations(cfg.servers[0].locations)
  {
    LocationsAreTheMinionsPaths(p, master, [minion], cfg);
    OneMinionPaths(minion, rule);
    RenderedCollide(rule.http.value, cfg.servers[0].locations);
  }
}
