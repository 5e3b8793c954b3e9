/**
 * Generating NGINX configuration from ingresses
 * (kubernetes-ingress/internal/nginx/configurator.go): upstreams are created once per name
 * while locations are, so the configuration is closed; merging keeps it so.
 */
module NginxConfig {
  import opened Common
  import opened Ingresses

  /** The settings of one ingress; those only copied into servers or locations are numbers. */
  datatype Config = Config(
    http2: bool, healthChecks: bool, mandatory: bool, queue: int, lbMethod: string,
    serverParams: nat, locationParams: nat)

  /** An ingress with its endpoints and probes by service and port, and its services by annotation. */
  datatype IngressEx = IngressEx(
    namespace: string, name: string, backend: Option<Backend>, rules: seq<Rule>, config: Config,
    endpoints: map<string, seq<string>>, externalNames: set<string>, probes: map<string, int>,
    cookies: map<string, string>,
    websockets: set<string>, rewrites: map<string, string>, ssl: set<string>, grpc: set<string>)

  datatype Platform = Platform(plus: bool, resolver: bool)

  datatype UpstreamServer = UpstreamServer(address: string, port: string, params: nat, resolve: bool)

  datatype Upstream = Upstream(
    name: string, servers: seq<UpstreamServer>, cookie: string, lbMethod: string, queue: int, queueTimeout: int)

  datatype Location = Location(
    path: string, upstream: Upstream, params: nat, websocket: bool, rewrite: string, ssl: bool, grpc: bool,
    minion: Option<(string, string)>)

  datatype Server = Server(name: string, locations: seq<Location>, healthChecks: set<string>, grpcOnly: bool)

  datatype NginxCfg = NginxCfg(upstreams: seq<Upstream>, servers: seq<Server>)

  const DEFAULT_PARAMS: nat := 0

  // ----- Endpoints -----

  /** The parts of a text between colons. */
  function Split(s: string): (r: seq<string>)
    ensures |r| >= 1
  {
    if s == "" then [""]
    else
      var rest := Split(s[1..]);
      if s[0] == ':' then [""] + rest else [[s[0]] + rest[0]] + rest[1..]
  }

  function Colons(s: string): (r: nat) {
    if s == "" then 0 else (if s[0] == ':' then 1 else 0) + Colons(s[1..])
  }

  lemma {:induction false} SplitCounts(s: string)
    ensures |Split(s)| == Colons(s) + 1
  {
    if s != "" {
      SplitCounts(s[1..]);
    }
  }

  function JoinColon(parts: seq<string>): (r: string)
    requires parts != []
  {
    if |parts| == 1 then parts[0] else parts[0] + ":" + JoinColon(parts[1..])
  }

  lemma {:induction false} JoinSplit(s: string)
    ensures JoinColon(Split(s)) == s
  {
    if s != "" {
      var rest := Split(s[1..]);
      JoinSplit(s[1..]);
      if s[0] == ':' {
        assert ([""] + rest)[1..] == rest;
      } else {
        var parts := [[s[0]] + rest[0]] + rest[1..];
        assert parts[1..] == rest[1..];
        if |rest| > 1 {
          assert JoinColon(parts) == [s[0]] + (rest[0] + ":" + JoinColon(rest[1..]));
        }
      }
    }
  }

  /** The address and port a configuration file has for an endpoint. */
  function Rendered(endpoint: string): (r: string)
    requires Colons(endpoint) > 0
  {
    SplitCounts(endpoint);
    Split(endpoint)[0] + ":" + Split(endpoint)[1]
  }

  /** The file names the endpoint itself exactly when it has one colon. */
  lemma RenderedIffOneColon(endpoint: string)
    requires Colons(endpoint) > 0
    ensures Rendered(endpoint) == endpoint <==> Colons(endpoint) == 1
  {
    SplitCounts(endpoint);
    JoinSplit(endpoint);
    var parts := Split(endpoint);
    assert JoinColon(parts) == parts[0] + ":" + JoinColon(parts[1..]);
    if |parts| > 2 {
      assert JoinColon(parts[1..]) == parts[1] + ":" + JoinColon(parts[2..]);
      assert |Rendered(endpoint)| < |endpoint|;
    }
  }

  // ----- Specification -----

  function BackendKey(b: Backend): (r: string) {
    b.service + b.port
  }

  function ValueOr(m: map<string, string>, k: string): (r: string) {
    if k in m then m[k] else ""
  }

  function PathOrDefault(path: string): (r: string) {
    if path == "" then "/" else path
  }

  /** A backend of a host; the default backend has the empty host. */
  datatype Ref = Ref(host: string, backend: Backend)

  function UpstreamName(ing: IngressEx, ref: Ref): (r: string) {
    ing.namespace + "-" + ing.name + "-" + ref.host + "-" + ref.backend.service + "-" + ref.backend.port
  }

  /** Every endpoint has an address and a port. */
  predicate WellFormed(ing: IngressEx) {
    forall k, i :: k in ing.endpoints && 0 <= i < |ing.endpoints[k]| ==> Colons(ing.endpoints[k][i]) > 0
  }

  ghost predicate OneColon(ing: IngressEx) {
    forall k, i :: k in ing.endpoints && 0 <= i < |ing.endpoints[k]| ==> Colons(ing.endpoints[k][i]) == 1
  }

  function ServerFor(ing: IngressEx, endpoint: string, resolve: bool): (r: UpstreamServer)
    requires Colons(endpoint) > 0
  {
    SplitCounts(endpoint);
    UpstreamServer(Split(endpoint)[0], Split(endpoint)[1], ing.config.serverParams, resolve)
  }

  /** The endpoints an upstream gets: none for an external name that nothing resolves. */
  function EndpointsFor(p: Platform, ing: IngressEx, b: Backend): (r: seq<string>) {
    if BackendKey(b) !in ing.endpoints || (b.service in ing.externalNames && !p.resolver) then []
    else ing.endpoints[BackendKey(b)]
  }

  function BareUpstream(p: Platform, ing: IngressEx, name: string, b: Backend): (r: Upstream) {
    var key, c := BackendKey(b), ing.config;
    var queued := p.plus && c.healthChecks && c.mandatory && c.queue > 0 && key in ing.probes;
    if p.plus then
      Upstream(name, [], ValueOr(ing.cookies, b.service), c.lbMethod,
               if queued then c.queue else 0, if queued then ing.probes[key] else 0)
    else Upstream(name, [UpstreamServer("127.0.0.1", "8181", DEFAULT_PARAMS, false)], "", c.lbMethod, 0, 0)
  }

  /** The upstream has the servers of the backend, or what it is created with if there are none. */
  function UpstreamFor(p: Platform, ing: IngressEx, ref: Ref): (r: Upstream)
    requires WellFormed(ing)
    ensures r.name == UpstreamName(ing, ref)
  {
    var b := ref.backend;
    var bare := BareUpstream(p, ing, UpstreamName(ing, ref), b);
    var endpoints := EndpointsFor(p, ing, b);
    if endpoints == [] then bare
    else
      var external := b.service in ing.externalNames;
      bare.(servers := seq(|endpoints|, i requires 0 <= i < |endpoints| => ServerFor(ing, endpoints[i], external)))
  }

  /** The first backend of a name makes the upstream. */
  function Add(p: Platform, ing: IngressEx, ups: map<string, Upstream>, ref: Ref): (r: map<string, Upstream>)
    requires WellFormed(ing)
  {
    var name := UpstreamName(ing, ref);
    if name in ups then ups else ups[name := UpstreamFor(p, ing, ref)]
  }

  function AddAll(p: Platform, ing: IngressEx, ups: map<string, Upstream>, refs: seq<Ref>): (r: map<string, Upstream>)
    requires WellFormed(ing)
  {
    if refs == [] then ups else Add(p, ing, AddAll(p, ing, ups, refs[..|refs| - 1]), Last(refs))
  }

  function PathRefs(host: string, paths: seq<Path>): (r: seq<Ref>)
    ensures |r| == |paths|
  {
    seq(|paths|, i requires 0 <= i < |paths| => Ref(host, paths[i].backend))
  }

  function DefaultRefs(ing: IngressEx): (r: seq<Ref>) {
    if ing.backend.Some? then [Ref("", ing.backend.value)] else []
  }

  function RuleRefs(rules: seq<Rule>): (r: seq<Ref>) {
    if rules == [] then []
    else
      RuleRefs(rules[..|rules| - 1]) +
      if Last(rules).http.Some? then PathRefs(Last(rules).host, Last(rules).http.value) else []
  }

  function Refs(ing: IngressEx): (r: seq<Ref>) {
    DefaultRefs(ing) + RuleRefs(ing.rules)
  }

  /** The rules that have paths. */
  function HttpRules(rules: seq<Rule>): (r: seq<Rule>)
    ensures forall i :: 0 <= i < |r| ==> r[i].http.Some? && r[i] in rules
  {
    if rules == [] then []
    else HttpRules(rules[..|rules| - 1]) + if Last(rules).http.Some? then [Last(rules)] else []
  }

  function GrpcServices(ing: IngressEx): (r: set<string>) {
    if ing.config.http2 then ing.grpc else {}
  }

  function CreateLocation(ing: IngressEx, path: string, upstream: Upstream, service: string): (r: Location) {
    Location(path, upstream, ing.config.locationParams, service in ing.websockets, ValueOr(ing.rewrites, service),
             service in ing.ssl, service in GrpcServices(ing), None)
  }

  ghost predicate LocationOK(ing: IngressEx, host: string, path: Path, ups: map<string, Upstream>, loc: Location) {
    var name := UpstreamName(ing, Ref(host, path.backend));
    name in ups && loc == CreateLocation(ing, PathOrDefault(path.path), ups[name], path.backend.service)
  }

  /** A "/" location is added for the default backend when no path is one. */
  predicate NeedsRoot(ing: IngressEx, paths: seq<Path>) {
    ing.backend.Some? && forall i :: 0 <= i < |paths| ==> PathOrDefault(paths[i].path) != "/"
  }

  ghost predicate RootOK(ing: IngressEx, ups: map<string, Upstream>, loc: Location) {
    && ing.backend.Some?
    && var name := UpstreamName(ing, Ref("", ing.backend.value));
       name in ups && loc == CreateLocation(ing, "/", ups[name], ing.backend.value.service)
  }

  predicate Checked(ing: IngressEx, b: Backend) {
    ing.config.healthChecks && BackendKey(b) in ing.probes
  }

  function CheckedNames(ing: IngressEx, host: string, paths: seq<Path>): (r: set<string>) {
    set i | 0 <= i < |paths| && Checked(ing, paths[i].backend) :: UpstreamName(ing, Ref(host, paths[i].backend))
  }

  function CheckedRoot(ing: IngressEx, paths: seq<Path>): (r: set<string>) {
    if NeedsRoot(ing, paths) && Checked(ing, ing.backend.value)
    then {UpstreamName(ing, Ref("", ing.backend.value))} else {}
  }

  /** One location for each path, in order, then the default one. */
  ghost predicate LocationsOK(ing: IngressEx, host: string, paths: seq<Path>, ups: map<string, Upstream>,
                              locs: seq<Location>) {
    && |locs| == |paths| + (if NeedsRoot(ing, paths) then 1 else 0)
    && (forall i :: 0 <= i < |paths| ==> LocationOK(ing, host, paths[i], ups, locs[i]))
    && (NeedsRoot(ing, paths) ==> RootOK(ing, ups, locs[|paths|]))
  }

  ghost predicate ServerOK(ing: IngressEx, rule: Rule, ups: map<string, Upstream>, s: Server) {
    && rule.http.Some? && s.name == rule.host
    && LocationsOK(ing, rule.host, rule.http.value, ups, s.locations)
    && (s.grpcOnly <==> GrpcServices(ing) != {} && forall i :: 0 <= i < |s.locations| ==> s.locations[i].grpc)
    && s.healthChecks == CheckedNames(ing, rule.host, rule.http.value) + CheckedRoot(ing, rule.http.value)
  }

  // ----- The generating loops -----

  /** Builds an upstream from the endpoints of its backend. */
  method CreateUpstream(p: Platform, ing: IngressEx, ref: Ref) returns (ups: Upstream)
    requires WellFormed(ing)
    ensures ups == UpstreamFor(p, ing, ref)
  {
    var b := ref.backend;
    ups := BareUpstream(p, ing, UpstreamName(ing, ref), b);
    if BackendKey(b) in ing.endpoints {
      var endpoints := EndpointsFor(p, ing, b);
      var servers: seq<UpstreamServer> := [];
      for n := 0 to |endpoints|
        invariant |servers| == n
        invariant forall i :: 0 <= i < n ==> servers[i] == ServerFor(ing, endpoints[i], b.service in ing.externalNames)
      {
        servers := servers + [ServerFor(ing, endpoints[n], b.service in ing.externalNames)];
      }
      if |servers| > 0 {
        ups := ups.(servers := servers);
      }
    }
  }

  lemma AddKeeps(p: Platform, ing: IngressEx, ups: map<string, Upstream>, ref: Ref)
    requires WellFormed(ing)
    ensures forall name :: name in ups ==> name in Add(p, ing, ups, ref) && Add(p, ing, ups, ref)[name] == ups[name]
    ensures UpstreamName(ing, ref) in Add(p, ing, ups, ref)
  {
  }

  /** Whether every path's service is a gRPC one; false if there are no such services. */
  method AllGrpc(ing: IngressEx, paths: seq<Path>) returns (all: bool)
    ensures all <==> GrpcServices(ing) != {} && forall i :: 0 <= i < |paths| ==>
            paths[i].backend.service in GrpcServices(ing)
  {
    if GrpcServices(ing) == {} { return false; }
    for n := 0 to |paths|
      invariant forall i :: 0 <= i < n ==> paths[i].backend.service in GrpcServices(ing)
    {
      if paths[n].backend.service !in GrpcServices(ing) { return false; }
    }
    return true;
  }

  ghost predicate Named(ups: map<string, Upstream>) {
    forall name :: name in ups ==> ups[name].name == name
  }

  lemma LocationsKept(p: Platform, ing: IngressEx, host: string, paths: seq<Path>, ups: map<string, Upstream>,
                      locs: seq<Location>, path: Path)
    requires WellFormed(ing) && |locs| == |paths|
    requires forall i :: 0 <= i < |paths| ==> LocationOK(ing, host, paths[i], ups, locs[i])
    ensures var ups' := Add(p, ing, ups, Ref(host, path.backend));
            var loc := CreateLocation(ing, PathOrDefault(path.path), ups'[UpstreamName(ing, Ref(host, path.backend))],
                                      path.backend.service);
            forall i :: 0 <= i < |paths| + 1 ==> LocationOK(ing, host, (paths + [path])[i], ups', (locs + [loc])[i])
  {
    AddKeeps(p, ing, ups, Ref(host, path.backend));
    var ups' := Add(p, ing, ups, Ref(host, path.backend));
    forall i | 0 <= i < |paths| ensures LocationOK(ing, host, paths[i], ups', locs[i]) {
      assert LocationOK(ing, host, paths[i], ups, locs[i]);
    }
  }

  lemma PathRefsGrow(host: string, paths: seq<Path>, path: Path)
    ensures PathRefs(host, paths + [path]) == PathRefs(host, paths) + [Ref(host, path.backend)]
  {
  }

  lemma AddAllGrows(p: Platform, ing: IngressEx, ups: map<string, Upstream>, refs: seq<Ref>, ref: Ref)
    requires WellFormed(ing)
    ensures AddAll(p, ing, ups, refs + [ref]) == Add(p, ing, AddAll(p, ing, ups, refs), ref)
  {
    assert (refs + [ref])[..|refs|] == refs;
  }

  lemma CheckedNamesGrow(ing: IngressEx, host: string, paths: seq<Path>, path: Path)
    ensures CheckedNames(ing, host, paths + [path]) == CheckedNames(ing, host, paths) +
            if Checked(ing, path.backend) then {UpstreamName(ing, Ref(host, path.backend))} else {}
  {
    var all := paths + [path];
    forall name | name in CheckedNames(ing, host, paths) ensures name in CheckedNames(ing, host, all) {
      var i :| 0 <= i < |paths| && Checked(ing, paths[i].backend)
          && name == UpstreamName(ing, Ref(host, paths[i].backend));
      assert all[i] == paths[i];
    }
    if Checked(ing, path.backend) {
      assert Checked(ing, all[|paths|].backend);
    }
  }

  /** Creates an upstream unless there is one of its name. */
  method AddUpstream(p: Platform, ing: IngressEx, ups: map<string, Upstream>, ref: Ref)
      returns (ups': map<string, Upstream>)
    requires WellFormed(ing)
    ensures ups' == Add(p, ing, ups, ref)
  {
    if UpstreamName(ing, ref) in ups { return ups; }
    var upstream := CreateUpstream(p, ing, ref);
    return ups[UpstreamName(ing, ref) := upstream];
  }

  /** The locations of a host's paths, the upstreams they need and the names to health-check. */
  method PathLocations(p: Platform, ing: IngressEx, host: string, paths: seq<Path>, before: map<string, Upstream>)
    returns (locs: seq<Location>, ups: map<string, Upstream>, checks: set<string>)
    requires WellFormed(ing)
    ensures ups == AddAll(p, ing, before, PathRefs(host, paths))
    ensures |locs| == |paths| && forall i :: 0 <= i < |paths| ==> LocationOK(ing, host, paths[i], ups, locs[i])
    ensures checks == CheckedNames(ing, host, paths)
  {
    locs, ups, checks := [], before, {};
    for n := 0 to |paths|
      invariant |locs| == n && checks == CheckedNames(ing, host, paths[..n])
      invariant ups == AddAll(p, ing, before, PathRefs(host, paths[..n]))
      invariant forall i :: 0 <= i < n ==> LocationOK(ing, host, paths[..n][i], ups, locs[i])
    {
      var path := paths[n];
      var ref := Ref(host, path.backend);
      LocationsKept(p, ing, host, paths[..n], ups, locs, path);
      PathRefsGrow(host, paths[..n], path);
      AddAllGrows(p, ing, before, PathRefs(host, paths[..n]), ref);
      CheckedNamesGrow(ing, host, paths[..n], path);
      assert paths[..n + 1] == paths[..n] + [path];
      if Checked(ing, path.backend) {
        checks := checks + {UpstreamName(ing, ref)};
      }
      ups := AddUpstream(p, ing, ups, ref);
      locs := locs + [CreateLocation(ing, PathOrDefault(path.path), ups[UpstreamName(ing, ref)], path.backend.service)];
    }
    assert paths[..|paths|] == paths;
  }

  method HasRootPath(paths: seq<Path>) returns (root: bool)
    ensures root <==> exists i :: 0 <= i < |paths| && PathOrDefault(paths[i].path) == "/"
  {
    root := false;
    for n := 0 to |paths|
      invariant root <==> exists i :: 0 <= i < n && PathOrDefault(paths[i].path) == "/"
    {
      if PathOrDefault(paths[n].path) == "/" {
        root := true;
      }
    }
  }

  /** The "/" location of the default backend, after those of the paths. */
  lemma RootCompletes(ing: IngressEx, host: string, paths: seq<Path>, ups: map<string, Upstream>, locs: seq<Location>,
                      loc: Location)
    requires |locs| == |paths| && forall i :: 0 <= i < |paths| ==> LocationOK(ing, host, paths[i], ups, locs[i])
    requires NeedsRoot(ing, paths) && RootOK(ing, ups, loc)
    ensures LocationsOK(ing, host, paths, ups, locs + [loc])
    ensures (forall i :: 0 <= i < |locs| + 1 ==> (locs + [loc])[i].grpc) <==>
            (forall i :: 0 <= i < |locs| ==> locs[i].grpc) && loc.grpc
  {
    var all := locs + [loc];
    if forall i :: 0 <= i < |all| ==> all[i].grpc {
      assert all[|locs|] == loc;
      forall i | 0 <= i < |locs| ensures locs[i].grpc {
        assert all[i] == locs[i];
      }
    }
  }

  method GenerateServer(p: Platform, ing: IngressEx, rule: Rule, before: map<string, Upstream>)
    returns (s: Server, ups: map<string, Upstream>)
    requires WellFormed(ing) && rule.http.Some?
    requires ing.backend.Some? ==> UpstreamName(ing, Ref("", ing.backend.value)) in before
    ensures ups == AddAll(p, ing, before, PathRefs(rule.host, rule.http.value))
    ensures ServerOK(ing, rule, ups, s)
  {
    var paths := rule.http.value;
    var grpcOnly := AllGrpc(ing, paths);
    var locs, ups', checks := PathLocations(p, ing, rule.host, paths, before);
    ups := ups';
    var root := HasRootPath(paths);
    GrpcLocations(ing, rule.host, paths, ups, locs);
    if root || ing.backend.None? { return Server(rule.host, locs, checks, grpcOnly), ups; }
    var b := ing.backend.value;
    var name := UpstreamName(ing, Ref("", b));
    AddAllKeeps(p, ing, before, PathRefs(rule.host, paths));
    var loc := CreateLocation(ing, "/", ups[name], b.service);
    RootCompletes(ing, rule.host, paths, ups, locs, loc);
    s := Server(rule.host, locs + [loc], if Checked(ing, b) then checks + {name} else checks,
                grpcOnly && b.service in GrpcServices(ing));
  }

  lemma GrpcLocations(ing: IngressEx, host: string, paths: seq<Path>, ups: map<string, Upstream>, locs: seq<Location>)
    requires |locs| == |paths| && forall i :: 0 <= i < |paths| ==> LocationOK(ing, host, paths[i], ups, locs[i])
    ensures (forall i :: 0 <= i < |paths| ==> paths[i].backend.service in GrpcServices(ing)) <==>
            (forall i :: 0 <= i < |locs| ==> locs[i].grpc)
  {
    forall i | 0 <= i < |paths| ensures locs[i].grpc <==> paths[i].backend.service in GrpcServices(ing) {
      assert LocationOK(ing, host, paths[i], ups, locs[i]);
    }
  }

  lemma {:induction false} AddAllKeeps(p: Platform, ing: IngressEx, ups: map<string, Upstream>, refs: seq<Ref>)
    requires WellFormed(ing)
    ensures forall name :: name in ups ==>
                             name in AddAll(p, ing, ups, refs) && AddAll(p, ing, ups, refs)[name] == ups[name]
  {
    if refs != [] {
      AddAllKeeps(p, ing, ups, refs[..|refs| - 1]);
    }
  }

  lemma {:induction false} AddAllAppend(p: Platform, ing: IngressEx, ups: map<string, Upstream>, a: seq<Ref>,
                                        b: seq<Ref>)
    requires WellFormed(ing)
    ensures AddAll(p, ing, ups, a + b) == AddAll(p, ing, AddAll(p, ing, ups, a), b)
    decreases |b|
  {
    if b == [] {
      assert a + b == a;
    } else {
      AddAllAppend(p, ing, ups, a, b[..|b| - 1]);
      assert (a + b)[..|a + b| - 1] == a + b[..|b| - 1];
      assert Last(a + b) == Last(b);
    }
  }

  // ----- Listing the upstreams -----

  /** The order of strings: by the first character that differs, a prefix before what it begins. */
  predicate Less(a: string, b: string) {
    b != "" && (a == "" || a[0] < b[0] || (a[0] == b[0] && Less(a[1..], b[1..])))
  }

  lemma {:induction false} LessIsTotal(a: string, b: string)
    ensures a == b || Less(a, b) || Less(b, a)
  {
    if a != "" && b != "" && a[0] == b[0] {
      LessIsTotal(a[1..], b[1..]);
      assert a == [a[0]] + a[1..] && b == [b[0]] + b[1..];
    }
  }

  lemma {:induction false} LessIsTransitive(a: string, b: string, c: string)
    requires Less(a, b) && Less(b, c)
    ensures Less(a, c)
  {
    if a != "" && a[0] == b[0] == c[0] {
      LessIsTransitive(a[1..], b[1..], c[1..]);
    }
  }

  ghost predicate StrictlySorted(keys: seq<string>) {
    forall i, j :: 0 <= i < j < |keys| ==> Less(keys[i], keys[j])
  }

  function Insert(keys: seq<string>, k: string): (r: seq<string>) {
    if keys == [] || Less(k, keys[0]) then [k] + keys else [keys[0]] + Insert(keys[1..], k)
  }

  lemma {:induction false} InsertMembers(keys: seq<string>, k: string)
    ensures forall x :: x in Insert(keys, k) <==> x in keys || x == k
  {
    if keys == [] || Less(k, keys[0]) {
    } else {
      InsertMembers(keys[1..], k);
      assert keys == [keys[0]] + keys[1..];
    }
  }

  lemma PrependSorted(k: string, keys: seq<string>)
    requires StrictlySorted(keys) && (forall x :: x in keys ==> Less(k, x))
    ensures StrictlySorted([k] + keys)
  {
  }

  lemma {:induction false} InsertSorts(keys: seq<string>, k: string)
    requires StrictlySorted(keys) && k !in keys
    ensures StrictlySorted(Insert(keys, k))
  {
    if keys == [] {
    } else if Less(k, keys[0]) {
      forall x | x in keys ensures Less(k, x) {
        if x != keys[0] {
          LessIsTransitive(k, keys[0], x);
        }
      }
      PrependSorted(k, keys);
    } else {
      LessIsTotal(k, keys[0]);
      InsertSorts(keys[1..], k);
      InsertMembers(keys[1..], k);
      PrependSorted(keys[0], Insert(keys[1..], k));
    }
  }

  method SortedKeys(ups: map<string, Upstream>) returns (keys: seq<string>)
    ensures StrictlySorted(keys) && forall k :: k in keys <==> k in ups
  {
    keys := [];
    var rest := ups.Keys;
    while rest != {}
      invariant StrictlySorted(keys) && rest <= ups.Keys
      invariant forall k :: k in keys <==> k in ups && k !in rest
      decreases rest
    {
      var k :| k in rest;
      InsertSorts(keys, k);
      InsertMembers(keys, k);
      keys, rest := Insert(keys, k), rest - {k};
    }
  }

  /** The list holds the map's upstreams once each, in strict order of their names. */
  ghost predicate Listed(ups: map<string, Upstream>, list: seq<Upstream>) {
    && (forall i, j :: 0 <= i < j < |list| ==> Less(list[i].name, list[j].name))
    && (forall i :: 0 <= i < |list| ==> list[i].name in ups && list[i] == ups[list[i].name])
    && (forall name :: name in ups ==> ups[name] in list)
  }

  method UpstreamMapToSlice(ups: map<string, Upstream>) returns (list: seq<Upstream>)
    requires Named(ups)
    ensures Listed(ups, list)
  {
    var keys := SortedKeys(ups);
    list := [];
    for n := 0 to |keys|
      invariant |list| == n && forall i :: 0 <= i < n ==> keys[i] in ups && list[i] == ups[keys[i]]
    {
      list := list + [ups[keys[n]]];
    }
    forall name | name in ups ensures ups[name] in list {
      var i :| 0 <= i < |keys| && keys[i] == name;
      assert list[i] == ups[name];
    }
  }

  // ----- The configuration of an ingress -----

  ghost function Upstreams(p: Platform, ing: IngressEx): (r: map<string, Upstream>)
    requires WellFormed(ing)
  {
    AddAll(p, ing, map[], Refs(ing))
  }

  ghost predicate ServersOK(ing: IngressEx, rules: seq<Rule>, ups: map<string, Upstream>, servers: seq<Server>) {
    |servers| == |rules| && forall i :: 0 <= i < |rules| ==> ServerOK(ing, rules[i], ups, servers[i])
  }

  /** What is generated for an ingress: a server for each rule with paths, and the upstreams listed. */
  ghost predicate Generated(p: Platform, ing: IngressEx, cfg: NginxCfg)
    requires WellFormed(ing)
  {
    Listed(Upstreams(p, ing), cfg.upstreams) && ServersOK(ing, HttpRules(ing.rules), Upstreams(p, ing), cfg.servers)
  }

  lemma ServerStaysOK(ing: IngressEx, rule: Rule, ups: map<string, Upstream>, ups': map<string, Upstream>, s: Server)
    requires ServerOK(ing, rule, ups, s)
    requires forall name :: name in ups ==> name in ups' && ups'[name] == ups[name]
    ensures ServerOK(ing, rule, ups', s)
  {
    var paths := rule.http.value;
    forall i | 0 <= i < |paths| ensures LocationOK(ing, rule.host, paths[i], ups', s.locations[i]) {
      assert LocationOK(ing, rule.host, paths[i], ups, s.locations[i]);
    }
  }

  lemma {:induction false} AddAllNamed(p: Platform, ing: IngressEx, ups: map<string, Upstream>, refs: seq<Ref>)
    requires WellFormed(ing) && Named(ups)
    ensures Named(AddAll(p, ing, ups, refs))
  {
    if refs != [] {
      AddAllNamed(p, ing, ups, refs[..|refs| - 1]);
    }
  }

  method GenerateServers(p: Platform, ing: IngressEx, before: map<string, Upstream>)
    returns (servers: seq<Server>, ups: map<string, Upstream>)
    requires WellFormed(ing) && before == AddAll(p, ing, map[], DefaultRefs(ing))
    requires ing.backend.Some? ==> UpstreamName(ing, Ref("", ing.backend.value)) in before
    ensures ups == Upstreams(p, ing) && ServersOK(ing, HttpRules(ing.rules), ups, servers)
  {
    servers, ups := [], before;
    for n := 0 to |ing.rules|
      invariant ups == AddAll(p, ing, before, RuleRefs(ing.rules[..n]))
      invariant ServersOK(ing, HttpRules(ing.rules[..n]), ups, servers)
    {
      var rule := ing.rules[n];
      assert ing.rules[..n + 1][..n] == ing.rules[..n] && Last(ing.rules[..n + 1]) == rule;
      AddAllKeeps(p, ing, before, RuleRefs(ing.rules[..n]));
      if rule.http.None? {
        assert RuleRefs(ing.rules[..n + 1]) == RuleRefs(ing.rules[..n]);
        assert HttpRules(ing.rules[..n + 1]) == HttpRules(ing.rules[..n]);
      } else {
        var refs := PathRefs(rule.host, rule.http.value);
        AddAllAppend(p, ing, before, RuleRefs(ing.rules[..n]), refs);
        AddAllKeeps(p, ing, ups, refs);
        var s, ups' := GenerateServer(p, ing, rule, ups);
        ServersGrow(ing, HttpRules(ing.rules[..n]), ups, ups', servers, rule, s);
        servers, ups := servers + [s], ups';
      }
    }
    assert ing.rules[..|ing.rules|] == ing.rules;
    AddAllAppend(p, ing, map[], DefaultRefs(ing), RuleRefs(ing.rules));
  }

  lemma ServersGrow(ing: IngressEx, rules: seq<Rule>, ups: map<string, Upstream>, ups': map<string, Upstream>,
                    servers: seq<Server>, rule: Rule, s: Server)
    requires ServersOK(ing, rules, ups, servers) && ServerOK(ing, rule, ups', s)
    requires forall name :: name in ups ==> name in ups' && ups'[name] == ups[name]
    ensures ServersOK(ing, rules + [rule], ups', servers + [s])
  {
    forall i | 0 <= i < |rules| ensures ServerOK(ing, rules[i], ups', servers[i]) {
      ServerStaysOK(ing, rules[i], ups, ups', servers[i]);
    }
  }

  method GenerateNginxCfg(p: Platform, ing: IngressEx) returns (cfg: NginxCfg)
    requires WellFormed(ing)
    ensures Generated(p, ing, cfg)
  {
    var ups: map<string, Upstream> := map[];
    if ing.backend.Some? {
      var ref := Ref("", ing.backend.value);
      AddAllGrows(p, ing, map[], [], ref);
      assert [] + [ref] == DefaultRefs(ing);
      var upstream := CreateUpstream(p, ing, ref);
      ups := ups[UpstreamName(ing, ref) := upstream];
    }
    var servers, all := GenerateServers(p, ing, ups);
    AddAllNamed(p, ing, map[], Refs(ing));
    var list := UpstreamMapToSlice(all);
    cfg := NginxCfg(list, servers);
  }

  // ----- What a generated configuration satisfies -----

  /** Every location's upstream is listed, with the same servers and settings. */
  ghost predicate Closed(cfg: NginxCfg) {
    forall i, j :: 0 <= i < |cfg.servers| && 0 <= j < |cfg.servers[i].locations| ==>
                     cfg.servers[i].locations[j].upstream in cfg.upstreams
  }

  lemma LocationUpstream(ing: IngressEx, rule: Rule, ups: map<string, Upstream>, s: Server, j: nat)
    requires ServerOK(ing, rule, ups, s) && j < |s.locations|
    ensures exists name :: name in ups && s.locations[j].upstream == ups[name]
  {
    var paths := rule.http.value;
    if j < |paths| {
      assert LocationOK(ing, rule.host, paths[j], ups, s.locations[j]);
    }
  }

  lemma GeneratedIsClosed(p: Platform, ing: IngressEx, cfg: NginxCfg)
    requires WellFormed(ing) && Generated(p, ing, cfg)
    ensures Closed(cfg)
  {
    var ups, rules := Upstreams(p, ing), HttpRules(ing.rules);
    forall i, j | 0 <= i < |cfg.servers| && 0 <= j < |cfg.servers[i].locations|
      ensures cfg.servers[i].locations[j].upstream in cfg.upstreams
    {
      LocationUpstream(ing, rules[i], ups, cfg.servers[i], j);
    }
  }

  /** Each path gives the one location of its place, and a default backend always has a "/" location. */
  lemma PathsGiveLocations(p: Platform, ing: IngressEx, cfg: NginxCfg, i: nat)
    requires WellFormed(ing) && Generated(p, ing, cfg) && i < |cfg.servers|
    ensures i < |HttpRules(ing.rules)| && cfg.servers[i].name == HttpRules(ing.rules)[i].host
    ensures var paths, locs := HttpRules(ing.rules)[i].http.value, cfg.servers[i].locations;
            && |locs| == |paths| + (if NeedsRoot(ing, paths) then 1 else 0)
            && (forall j :: 0 <= j < |paths| ==> locs[j].path == PathOrDefault(paths[j].path))
            && (ing.backend.Some? ==> exists j :: 0 <= j < |locs| && locs[j].path == "/")
  {
    var rule := HttpRules(ing.rules)[i];
    var paths, locs := rule.http.value, cfg.servers[i].locations;
    assert ServerOK(ing, rule, Upstreams(p, ing), cfg.servers[i]);
    forall j | 0 <= j < |paths| ensures locs[j].path == PathOrDefault(paths[j].path) {
      assert LocationOK(ing, rule.host, paths[j], Upstreams(p, ing), locs[j]);
    }
    if ing.backend.Some? && !NeedsRoot(ing, paths) {
      var j :| 0 <= j < |paths| && PathOrDefault(paths[j].path) == "/";
      assert locs[j].path == "/";
    }
  }

  /** Different backends of the ingress have different upstream names. */
  ghost predicate DistinctNames(ing: IngressEx) {
    forall r, q :: r in Refs(ing) && q in Refs(ing) && UpstreamName(ing, r) == UpstreamName(ing, q) ==> r == q
  }

  /** The first of the backends that has the name. */
  ghost predicate FirstNamed(ing: IngressEx, refs: seq<Ref>, k: nat, name: string) {
    && k < |refs| && UpstreamName(ing, refs[k]) == name
    && forall i :: 0 <= i < k ==> UpstreamName(ing, refs[i]) != name
  }

  lemma {:induction false} FirstMakesUpstream(p: Platform, ing: IngressEx, refs: seq<Ref>, name: string)
    requires WellFormed(ing)
    ensures name in AddAll(p, ing, map[], refs) <==> exists r :: r in refs && UpstreamName(ing, r) == name
    ensures name in AddAll(p, ing, map[], refs) ==>
              exists k: nat :: FirstNamed(ing, refs, k, name)
                  && AddAll(p, ing, map[], refs)[name] == UpstreamFor(p, ing, refs[k])
  {
    if refs != [] {
      var init := refs[..|refs| - 1];
      assert refs == init + [Last(refs)];
      FirstMakesUpstream(p, ing, init, name);
      if name in AddAll(p, ing, map[], init) {
        var k: nat :| FirstNamed(ing, init, k, name) &&
          AddAll(p, ing, map[], init)[name] == UpstreamFor(p, ing, init[k]);
        assert FirstNamed(ing, refs, k, name) && refs[k] == init[k];
      } else if UpstreamName(ing, Last(refs)) == name {
        forall i | 0 <= i < |init| ensures UpstreamName(ing, refs[i]) != name {
          assert init[i] in init;
        }
        assert FirstNamed(ing, refs, |init|, name);
      }
      if r :| r in refs && UpstreamName(ing, r) == name && r != Last(refs) {
        assert r in init;
      }
    }
  }

  lemma {:induction false} PathRefsListed(rules: seq<Rule>, i: nat, j: nat)
    requires i < |HttpRules(rules)| && j < |HttpRules(rules)[i].http.value|
    ensures Ref(HttpRules(rules)[i].host, HttpRules(rules)[i].http.value[j].backend) in RuleRefs(rules)
  {
    var init := rules[..|rules| - 1];
    if i < |HttpRules(init)| {
      PathRefsListed(init, i, j);
    } else {
      var refs := PathRefs(Last(rules).host, Last(rules).http.value);
      assert refs[j] in refs;
    }
  }

  /** The backend of a path of the generated servers. */
  function PathRef(ing: IngressEx, i: nat, j: nat): (r: Ref)
    requires i < |HttpRules(ing.rules)| && j < |HttpRules(ing.rules)[i].http.value|
  {
    Ref(HttpRules(ing.rules)[i].host, HttpRules(ing.rules)[i].http.value[j].backend)
  }

  /** Each location goes to the first backend of the ingress that has its own backend's upstream name. */
  lemma LocationsGoToFirstOfName(p: Platform, ing: IngressEx, cfg: NginxCfg, i: nat, j: nat) returns (k: nat)
    requires WellFormed(ing) && Generated(p, ing, cfg) && i < |cfg.servers|
    requires j < |HttpRules(ing.rules)[i].http.value|
    ensures j < |cfg.servers[i].locations|
    ensures FirstNamed(ing, Refs(ing), k, UpstreamName(ing, PathRef(ing, i, j)))
    ensures cfg.servers[i].locations[j].upstream == UpstreamFor(p, ing, Refs(ing)[k])
    ensures PathRef(ing, i, j) in Refs(ing)
  {
    var rule := HttpRules(ing.rules)[i];
    var ref := PathRef(ing, i, j);
    assert ServerOK(ing, rule, Upstreams(p, ing), cfg.servers[i]);
    assert LocationOK(ing, rule.host, rule.http.value[j], Upstreams(p, ing), cfg.servers[i].locations[j]);
    PathRefsListed(ing.rules, i, j);
    assert ref in Refs(ing);
    var name := UpstreamName(ing, ref);
    FirstMakesUpstream(p, ing, Refs(ing), name);
    k :| FirstNamed(ing, Refs(ing), k, name) && Upstreams(p, ing)[name] == UpstreamFor(p, ing, Refs(ing)[k]);
  }

  /** With distinct names, that is the path's own backend. */
  lemma LocationsGoToTheirBackends(p: Platform, ing: IngressEx, cfg: NginxCfg, i: nat, j: nat)
    requires WellFormed(ing) && Generated(p, ing, cfg) && DistinctNames(ing) && i < |cfg.servers|
    requires j < |HttpRules(ing.rules)[i].http.value|
    ensures j < |cfg.servers[i].locations|
    ensures cfg.servers[i].locations[j].upstream == UpstreamFor(p, ing, PathRef(ing, i, j))
  {
    var k := LocationsGoToFirstOfName(p, ing, cfg, i, j);
    assert Refs(ing)[k] in Refs(ing);
  }

  // ----- Which servers a location reaches -----

  function Addresses(u: Upstream): (r: seq<string>)
    ensures |r| == |u.servers|
  {
    seq(|u.servers|, i requires 0 <= i < |u.servers| => u.servers[i].address + ":" + u.servers[i].port)
  }

  const DEFAULT_SERVER := "127.0.0.1:8181"

  /** The service has endpoints, and is no external name that nothing resolves. */
  predicate HasEndpoints(p: Platform, ing: IngressEx, b: Backend) {
    var key := b.service + b.port;
    key in ing.endpoints && ing.endpoints[key] != [] && (b.service in ing.externalNames ==> p.resolver)
  }

  /** The service's endpoints; without any, none on Plus and otherwise a default server. */
  function Wanted(p: Platform, ing: IngressEx, b: Backend): (r: seq<string>) {
    if HasEndpoints(p, ing, b) then ing.endpoints[b.service + b.port] else if p.plus then [] else [DEFAULT_SERVER]
  }

  /** The settings of an upstream apart from its servers' addresses. */
  ghost predicate SettingsOK(p: Platform, ing: IngressEx, b: Backend, u: Upstream) {
    var c, key := ing.config, b.service + b.port;
    && u.lbMethod == c.lbMethod
    && u.cookie == (if p.plus && b.service in ing.cookies then ing.cookies[b.service] else "")
    && (u.queue != 0 <==> p.plus && c.healthChecks && c.mandatory && c.queue > 0 && key in ing.probes)
    && (u.queue != 0 ==> u.queue == c.queue && u.queueTimeout == ing.probes[key])
    && (u.queue == 0 ==> u.queueTimeout == 0)
    && forall s :: s in u.servers && HasEndpoints(p, ing, b) ==>
                     s.params == c.serverParams && (s.resolve <==> b.service in ing.externalNames)
  }

  /** On every platform an upstream has exactly the wanted servers, in order. */
  lemma UpstreamHasWanted(p: Platform, ing: IngressEx, ref: Ref)
    requires WellFormed(ing) && OneColon(ing)
    ensures Addresses(UpstreamFor(p, ing, ref)) == Wanted(p, ing, ref.backend)
    ensures SettingsOK(p, ing, ref.backend, UpstreamFor(p, ing, ref))
  {
    var u, wanted := UpstreamFor(p, ing, ref), Wanted(p, ing, ref.backend);
    var endpoints := EndpointsFor(p, ing, ref.backend);
    if endpoints != [] {
      assert wanted == endpoints;
      forall i | 0 <= i < |endpoints| ensures Addresses(u)[i] == endpoints[i] {
        RenderedIffOneColon(endpoints[i]);
        assert u.servers[i] == ServerFor(ing, endpoints[i], ref.backend.service in ing.externalNames);
      }
    } else if !p.plus {
      assert Addresses(u)[0] == DEFAULT_SERVER;
    }
  }

  /** The location is for the path and carries its service's settings and servers. */
  ghost predicate Reaches(p: Platform, ing: IngressEx, b: Backend, path: string, loc: Location) {
    && loc.path == (if path == "" then "/" else path)
    && Addresses(loc.upstream) == Wanted(p, ing, b) && SettingsOK(p, ing, b, loc.upstream)
    && loc.params == ing.config.locationParams
    && (loc.websocket <==> b.service in ing.websockets) && (loc.ssl <==> b.service in ing.ssl)
    && (loc.grpc <==> ing.config.http2 && b.service in ing.grpc)
    && loc.rewrite == if b.service in ing.rewrites then ing.rewrites[b.service] else ""
  }

  /** How many of the rules have paths. */
  function HttpCount(rules: seq<Rule>): (r: nat) {
    if rules == [] then 0 else HttpCount(rules[..|rules| - 1]) + if Last(rules).http.Some? then 1 else 0
  }

  lemma {:induction false} HttpRuleAt(rules: seq<Rule>, n: nat)
    requires n < |rules|
    ensures |HttpRules(rules)| == HttpCount(rules)
    ensures rules[n].http.Some? ==>
              HttpCount(rules[..n]) < HttpCount(rules) && HttpRules(rules)[HttpCount(rules[..n])] == rules[n]
    decreases |rules|
  {
    var init := rules[..|rules| - 1];
    if n < |init| {
      HttpRuleAt(init, n);
      assert init[..n] == rules[..n];
    } else if init != [] {
      HttpRuleAt(init, 0);
    }
  }

  lemma LocationReaches(p: Platform, ing: IngressEx, cfg: NginxCfg, i: nat, j: nat)
    requires WellFormed(ing) && OneColon(ing) && Generated(p, ing, cfg) && DistinctNames(ing) && i < |cfg.servers|
    requires j < |HttpRules(ing.rules)[i].http.value|
    ensures var path := HttpRules(ing.rules)[i].http.value[j];
            j < |cfg.servers[i].locations| && Reaches(p, ing, path.backend, path.path, cfg.servers[i].locations[j])
  {
    var rule := HttpRules(ing.rules)[i];
    LocationsGoToTheirBackends(p, ing, cfg, i, j);
    UpstreamHasWanted(p, ing, PathRef(ing, i, j));
    assert ServerOK(ing, rule, Upstreams(p, ing), cfg.servers[i]);
    assert LocationOK(ing, rule.host, rule.http.value[j], Upstreams(p, ing), cfg.servers[i].locations[j]);
  }

  /**
   * Every path of every rule has the location of its place in the server of its rule, and that
   * reaches exactly the endpoints of the path's own backend.
   */
  lemma PathsReachTheirEndpoints(p: Platform, ing: IngressEx, cfg: NginxCfg, n: nat, j: nat)
    requires WellFormed(ing) && OneColon(ing) && Generated(p, ing, cfg) && DistinctNames(ing)
    requires n < |ing.rules| && ing.rules[n].http.Some? && j < |ing.rules[n].http.value|
    ensures |cfg.servers| == HttpCount(ing.rules)
    ensures var i, path := HttpCount(ing.rules[..n]), ing.rules[n].http.value[j];
            && i < |cfg.servers| && cfg.servers[i].name == ing.rules[n].host
            && j < |cfg.servers[i].locations|
            && Reaches(p, ing, path.backend, path.path, cfg.servers[i].locations[j])
  {
    HttpRuleAt(ing.rules, n);
    var i := HttpCount(ing.rules[..n]);
    PathsGiveLocations(p, ing, cfg, i);
    LocationReaches(p, ing, cfg, i, j);
  }

  /** With a default backend, each server has a "/" location: that of a path, or one more for the default backend. */
  lemma RootReachesDefault(p: Platform, ing: IngressEx, cfg: NginxCfg, n: nat)
    requires WellFormed(ing) && OneColon(ing) && Generated(p, ing, cfg) && DistinctNames(ing)
    requires n < |ing.rules| && ing.rules[n].http.Some?
    ensures HttpCount(ing.rules[..n]) < |cfg.servers|
    ensures var locs, paths := cfg.servers[HttpCount(ing.rules[..n])].locations, ing.rules[n].http.value;
            if ing.backend.Some? && forall j :: 0 <= j < |paths| ==> paths[j].path != "" && paths[j].path != "/"
            then |locs| == |paths| + 1 && Reaches(p, ing, ing.backend.value, "/", locs[|paths|])
            else |locs| == |paths|
  {
    HttpRuleAt(ing.rules, n);
    var paths, s := ing.rules[n].http.value, cfg.servers[HttpCount(ing.rules[..n])];
    assert ServerOK(ing, ing.rules[n], Upstreams(p, ing), s);
    if NeedsRoot(ing, paths) {
      var ref := Ref("", ing.backend.value);
      assert ref in Refs(ing);
      FirstMakesUpstream(p, ing, Refs(ing), UpstreamName(ing, ref));
      assert Upstreams(p, ing)[UpstreamName(ing, ref)] == UpstreamFor(p, ing, ref);
      UpstreamHasWanted(p, ing, ref);
      forall j | 0 <= j < |paths| ensures paths[j].path != "" && paths[j].path != "/" {
        assert PathOrDefault(paths[j].path) != "/";
      }
    }
  }

  // ----- Which upstreams there are -----

  /** The backend is the default one, or that of a path of one of the rules. */
  ghost predicate Mentions(ing: IngressEx, ref: Ref) {
    || (ing.backend == Some(ref.backend) && ref.host == "")
    || exists rule: Rule, path :: rule in ing.rules && rule.http.Some? && rule.host == ref.host
         && path in rule.http.value && path.backend == ref.backend
  }

  lemma {:induction false} RuleRefsMembers(rules: seq<Rule>, ref: Ref)
    ensures ref in RuleRefs(rules) <==>
            exists rule: Rule, path :: rule in rules && rule.http.Some? && rule.host == ref.host
              && path in rule.http.value && path.backend == ref.backend
  {
    if rules != [] {
      var init, last := rules[..|rules| - 1], Last(rules);
      assert rules == init + [last];
      RuleRefsMembers(init, ref);
      if last.http.Some? {
        var refs := PathRefs(last.host, last.http.value);
        if ref in refs {
          var i :| 0 <= i < |refs| && refs[i] == ref;
          assert last in rules && last.http.value[i] in last.http.value;
        }
        if path :| path in last.http.value && path.backend == ref.backend && last.host == ref.host {
          var i :| 0 <= i < |refs| && last.http.value[i] == path;
          assert refs[i] == ref;
        }
      }
    }
  }

  /** An upstream is configured exactly for the names of the backends that the ingress mentions. */
  lemma UpstreamsAreTheBackends(p: Platform, ing: IngressEx, cfg: NginxCfg, name: string)
    requires WellFormed(ing) && Generated(p, ing, cfg)
    ensures (exists u :: u in cfg.upstreams && u.name == name) <==>
            (exists ref :: Mentions(ing, ref) && UpstreamName(ing, ref) == name)
  {
    var ups := Upstreams(p, ing);
    FirstMakesUpstream(p, ing, Refs(ing), name);
    AddAllNamed(p, ing, map[], Refs(ing));
    forall ref ensures ref in Refs(ing) <==> Mentions(ing, ref) {
      RuleRefsMembers(ing.rules, ref);
    }
    if name in ups {
      assert ups[name] in cfg.upstreams && ups[name].name == name;
    }
  }

  // ----- Upstream names -----

  predicate NoDash(s: string) {
    '-' !in s
  }

  lemma LastDash(a: string, b: string)
    requires NoDash(b)
    ensures var s := a + "-" + b; s[|a|] == '-' && forall i :: |a| < i < |s| ==> s[i] != '-'
  {
    var s := a + "-" + b;
    forall i | |a| < i < |s| ensures s[i] != '-' {
      assert s[i] == b[i - |a| - 1] && b[i - |a| - 1] in b;
    }
  }

  /** What stands before and after the last dash is determined. */
  lemma SplitAtLastDash(a: string, b: string, c: string, d: string)
    requires a + "-" + b == c + "-" + d && NoDash(b) && NoDash(d)
    ensures a == c && b == d
  {
    var s, t := a + "-" + b, c + "-" + d;
    LastDash(a, b);
    LastDash(c, d);
    assert a == s[..|a|] && c == t[..|c|] && b == s[|a| + 1..] && d == t[|c| + 1..];
  }

  /** Backends whose services and ports have no dash never share an upstream name. */
  lemma NamesWithoutDashesDiffer(ing: IngressEx, r: Ref, q: Ref)
    requires NoDash(r.backend.service) && NoDash(r.backend.port)
    requires NoDash(q.backend.service) && NoDash(q.backend.port)
    requires UpstreamName(ing, r) == UpstreamName(ing, q)
    ensures r == q
  {
    var start := ing.namespace + "-" + ing.name + "-";
    SplitAtLastDash(start + r.host + "-" + r.backend.service, r.backend.port,
                    start + q.host + "-" + q.backend.service, q.backend.port);
    SplitAtLastDash(start + r.host, r.backend.service, start + q.host, q.backend.service);
    assert r.host == (start + r.host)[|start|..] && q.host == (start + q.host)[|start|..];
  }

  const FIRST: Ref := Ref("h", Backend("a-b", "80"))
  const SECOND: Ref := Ref("h-a", Backend("b", "80"))

  /** Names are plain concatenations, so two backends of an ingress can share one. */
  lemma NamesCollide(ing: IngressEx)
    ensures UpstreamName(ing, FIRST) == UpstreamName(ing, SECOND)
  {
    assert "h" + "-" + "a-b" == "h-a" + "-" + "b";
    assert UpstreamName(ing, FIRST) == ing.namespace + "-" + ing.name + "-" + ("h" + "-" + "a-b") + "-" + "80";
    assert UpstreamName(ing, SECOND) == ing.namespace + "-" + ing.name + "-" + ("h-a" + "-" + "b") + "-" + "80";
  }

  /** An ingress with these two backends, one to a host. */
  ghost predicate Colliding(ing: IngressEx) {
    && WellFormed(ing) && ing.backend.None?
    && ing.rules == [Rule(FIRST.host, Some([Path("/", FIRST.backend)])),
                     Rule(SECOND.host, Some([Path("/", SECOND.backend)]))]
  }

  lemma CollidingRefs(ing: IngressEx)
    requires Colliding(ing)
    ensures HttpRules(ing.rules) == ing.rules && Refs(ing) == [FIRST, SECOND]
  {
    var first, second := ing.rules[0], ing.rules[1];
    assert ing.rules[..1] == [first] && [first][..0] == [];
    assert HttpRules([first]) == [first];
    assert PathRefs(first.host, first.http.value) == [FIRST] && PathRefs(second.host, second.http.value) == [SECOND];
    assert RuleRefs([first]) == [FIRST];
  }

  /** There the second host is sent to the first host's backend. */
  lemma UpstreamNamesCollide(p: Platform, ing: IngressEx, cfg: NginxCfg)
    requires Colliding(ing) && Generated(p, ing, cfg)
    ensures |cfg.servers| == 2 && cfg.servers[1].name == SECOND.host && |cfg.servers[1].locations| == 1
    ensures cfg.servers[1].locations[0].upstream == UpstreamFor(p, ing, FIRST)
  {
    CollidingRefs(ing);
    NamesCollide(ing);
    PathsGiveLocations(p, ing, cfg, 1);
    var k := LocationsGoToFirstOfName(p, ing, cfg, 1, 0);
    assert PathRef(ing, 1, 0) == SECOND && UpstreamName(ing, Refs(ing)[0]) == UpstreamName(ing, SECOND);
    assert k == 0;
  }

  /** Health checks are for upstreams that the server's own locations use. */
  lemma HealthChecksAreUsed(p: Platform, ing: IngressEx, cfg: NginxCfg, i: nat, name: string)
    requires WellFormed(ing) && Generated(p, ing, cfg) && i < |cfg.servers| && name in cfg.servers[i].healthChecks
    ensures exists j :: 0 <= j < |cfg.servers[i].locations| && cfg.servers[i].locations[j].upstream.name == name
  {
    var rule := HttpRules(ing.rules)[i];
    var ups, paths, locs := Upstreams(p, ing), rule.http.value, cfg.servers[i].locations;
    assert ServerOK(ing, rule, ups, cfg.servers[i]);
    AddAllNamed(p, ing, map[], Refs(ing));
    if name in CheckedNames(ing, rule.host, paths) {
      var j :| 0 <= j < |paths| && Checked(ing, paths[j].backend)
          && name == UpstreamName(ing, Ref(rule.host, paths[j].backend));
      assert LocationOK(ing, rule.host, paths[j], ups, locs[j]);
      assert locs[j].upstream.name == name;
    } else {
      assert locs[|paths|].upstream.name == name;
    }
  }

  /** Health checks are on, and the backend has a probe. */
  predicate Probed(ing: IngressEx, b: Backend) {
    ing.config.healthChecks && b.service + b.port in ing.probes
  }

  /** The upstreams checked are those of the probed paths, and of a probed default backend where it is used. */
  lemma HealthChecksAreExact(p: Platform, ing: IngressEx, cfg: NginxCfg, i: nat, name: string)
    requires WellFormed(ing) && Generated(p, ing, cfg) && i < |cfg.servers|
    ensures var rule := HttpRules(ing.rules)[i];
            var paths := rule.http.value;
            name in cfg.servers[i].healthChecks <==>
              || (exists j :: 0 <= j < |paths| && Probed(ing, paths[j].backend)
                              && name == UpstreamName(ing, Ref(rule.host, paths[j].backend)))
              || (NeedsRoot(ing, paths) && Probed(ing, ing.backend.value)
                  && name == UpstreamName(ing, Ref("", ing.backend.value)))
  {
    var rule := HttpRules(ing.rules)[i];
    assert ServerOK(ing, rule, Upstreams(p, ing), cfg.servers[i]);
    CheckedNamesMembers(ing, rule.host, rule.http.value, name);
  }

  lemma CheckedNamesMembers(ing: IngressEx, host: string, paths: seq<Path>, name: string)
    ensures name in CheckedNames(ing, host, paths) <==>
            exists j :: 0 <= j < |paths| && Probed(ing, paths[j].backend)
                        && name == UpstreamName(ing, Ref(host, paths[j].backend))
  {
    forall b ensures Probed(ing, b) <==> Checked(ing, b) {
    }
    if name in CheckedNames(ing, host, paths) {
      var j :| 0 <= j < |paths| && Checked(ing, paths[j].backend)
          && name == UpstreamName(ing, Ref(host, paths[j].backend));
      assert Probed(ing, paths[j].backend);
    }
  }
}
