/**
 * Collecting the minions of a mergeable ingress (kubernetes-ingress/internal/controller/controller.go):
 * candidates are taken in order of creation, and each path goes to the first that declares it.
 */
module MinionMerge {
  import opened Common
  import opened Ingresses

  type SecretKey = nat

  datatype Kind = Regular | Master | Minion

  datatype Ingress = Ingress(
    name: string, created: Time, className: Option<string>, kind: Kind, rules: seq<Rule>, tls: seq<SecretKey>)

  /** The controller's class settings and the secrets that are valid TLS secrets. */
  datatype Controller = Controller(ingressClass: string, classOnly: bool, tlsSecrets: set<SecretKey>)

  /** Why no mergeable ingress results; reading the first rule of an ingress without rules stops the controller. */
  datatype Fault = NoRules | NotOneHost | MasterHasPaths | EmptyHost

  predicate IsNginxIngress(c: Controller, ing: Ingress) {
    match ing.className
    case Some(name) => name == c.ingressClass || (!c.classOnly && name == "")
    case None => !c.classOnly
  }

  predicate Candidate(c: Controller, ing: Ingress) {
    IsNginxIngress(c, ing) && ing.kind.Minion?
  }

  /** A candidate for this host with one rule and paths. */
  predicate Eligible(c: Controller, host: string, ing: Ingress) {
    Candidate(c, ing) && |ing.rules| == 1 && ing.rules[0].host == host && ing.rules[0].http.Some?
  }

  function Paths(ing: Ingress): (r: seq<Path>) {
    if |ing.rules| == 1 && ing.rules[0].http.Some? then ing.rules[0].http.value else []
  }

  predicate Declares(ing: Ingress, p: string) {
    exists q :: q in Paths(ing) && q.path == p
  }

  /** An eligible minion is dropped after all if its host is empty or it brings a TLS secret. */
  predicate Kept(c: Controller, ing: Ingress) {
    |ing.rules| == 1 && ing.rules[0].host != "" && forall k :: k in ing.tls ==> k !in c.tlsSecrets
  }

  function WithPaths(ing: Ingress, paths: seq<Path>): (r: Ingress)
    requires |ing.rules| == 1
  {
    ing.(rules := [ing.rules[0].(http := Some(paths))])
  }

  // ----- Specification -----

  /** The paths not yet taken, in order and once each. */
  function Claim(paths: seq<Path>, taken: set<string>): (r: seq<Path>) {
    if paths == [] then []
    else if paths[0].path in taken then Claim(paths[1..], taken)
    else [paths[0]] + Claim(paths[1..], taken + {paths[0].path})
  }

  function Names(paths: seq<Path>): (r: set<string>) {
    set q | q in paths :: q.path
  }

  /** Every eligible candidate claims its paths; only kept ones are returned. */
  function Merge(c: Controller, host: string, items: seq<Ingress>, taken: set<string>): (r: seq<Ingress>) {
    if items == [] then []
    else
      var ing := items[0];
      if !Eligible(c, host, ing) then Merge(c, host, items[1..], taken)
      else
        (if Kept(c, ing) then [WithPaths(ing, Claim(Paths(ing), taken))] else [])
        + Merge(c, host, items[1..], taken + Names(Paths(ing)))
  }

  ghost predicate Sorted(items: seq<Ingress>) {
    forall i, j :: 0 <= i < j < |items| ==> items[i].created <= items[j].created
  }

  // ----- The controller's loops -----

  function Insert(items: seq<Ingress>, ing: Ingress): (r: seq<Ingress>) {
    if items == [] || ing.created < items[0].created then [ing] + items else [items[0]] + Insert(items[1..], ing)
  }

  /** The ingresses in order of creation. */
  function SortByCreation(ings: seq<Ingress>): (r: seq<Ingress>) {
    if ings == [] then [] else Insert(SortByCreation(ings[1..]), ings[0])
  }

  lemma {:induction false} InsertPermutes(items: seq<Ingress>, ing: Ingress)
    ensures multiset(Insert(items, ing)) == multiset(items) + multiset{ing}
  {
    if items == [] || ing.created < items[0].created {
    } else {
      InsertPermutes(items[1..], ing);
      assert items == [items[0]] + items[1..];
    }
  }

  lemma PrependSorted(first: Ingress, rest: seq<Ingress>)
    requires Sorted(rest) && (rest != [] ==> first.created <= rest[0].created)
    ensures Sorted([first] + rest)
  {
  }

  lemma {:induction false} InsertSorts(items: seq<Ingress>, ing: Ingress)
    requires Sorted(items)
    ensures Sorted(Insert(items, ing))
    ensures Insert(items, ing)[0].created ==
            if items == [] || ing.created < items[0].created then ing.created else items[0].created
  {
    if items == [] || ing.created < items[0].created {
      PrependSorted(ing, items);
    } else {
      InsertSorts(items[1..], ing);
      PrependSorted(items[0], Insert(items[1..], ing));
    }
  }

  lemma {:induction false} SortByCreationSorts(ings: seq<Ingress>)
    ensures Sorted(SortByCreation(ings)) && multiset(SortByCreation(ings)) == multiset(ings)
  {
    if ings != [] {
      SortByCreationSorts(ings[1..]);
      InsertSorts(SortByCreation(ings[1..]), ings[0]);
      InsertPermutes(SortByCreation(ings[1..]), ings[0]);
      assert ings == [ings[0]] + ings[1..];
    }
  }

  /** Takes the paths of one candidate that are still free. */
  method ClaimPaths(paths: seq<Path>, taken: set<string>) returns (unique: seq<Path>, taken': set<string>)
    ensures unique == Claim(paths, taken) && taken' == taken + Names(paths)
  {
    unique, taken' := [], taken;
    for n := 0 to |paths|
      invariant taken' == taken + Names(paths[..n])
      invariant unique + Claim(paths[n..], taken') == Claim(paths, taken)
    {
      var rest := Claim(paths[n + 1..], taken' + {paths[n].path});
      assert paths[n..][1..] == paths[n + 1..];
      if paths[n].path in taken' {
        assert taken' + {paths[n].path} == taken';
      } else {
        assert unique + ([paths[n]] + rest) == unique + [paths[n]] + rest;
        unique := unique + [paths[n]];
      }
      taken' := taken' + {paths[n].path};
      assert paths[..n + 1] == paths[..n] + [paths[n]];
    }
    assert paths[..|paths|] == paths;
  }

  method HasTLS(c: Controller, ing: Ingress) returns (found: bool)
    ensures found <==> exists k :: k in ing.tls && k in c.tlsSecrets
  {
    found := false;
    for n := 0 to |ing.tls|
      invariant found <==> exists k :: k in ing.tls[..n] && k in c.tlsSecrets
    {
      found := found || ing.tls[n] in c.tlsSecrets;
    }
  }

  /** What one ingress adds to the minions, and the paths taken after it. */
  method Consider(c: Controller, host: string, ing: Ingress, taken: set<string>, ghost rest: seq<Ingress>)
    returns (r: Result<(seq<Ingress>, set<string>), Fault>)
    ensures r.Err? <==> Candidate(c, ing) && |ing.rules| == 0
    ensures r.Ok? ==> Merge(c, host, [ing] + rest, taken) == r.value.0 + Merge(c, host, rest, r.value.1)
  {
    assert ([ing] + rest)[1..] == rest;
    if !IsNginxIngress(c, ing) || !ing.kind.Minion? { return Ok(([], taken)); }
    if |ing.rules| == 0 { return Err(NoRules); }
    if ing.rules[0].host != host || |ing.rules| != 1 || ing.rules[0].http.None? { return Ok(([], taken)); }
    var unique, taken' := ClaimPaths(ing.rules[0].http.value, taken);
    var tls := HasTLS(c, ing);
    if ing.rules[0].host == "" || tls { return Ok(([], taken')); }
    return Ok(([WithPaths(ing, unique)], taken'));
  }

  method MergeInOrder(c: Controller, host: string, items: seq<Ingress>) returns (r: Result<seq<Ingress>, Fault>)
    ensures r.Err? <==> exists i :: 0 <= i < |items| && Candidate(c, items[i]) && |items[i].rules| == 0
    ensures r.Ok? ==> r.value == Merge(c, host, items, {})
  {
    var minions: seq<Ingress>, taken := [], {};
    for n := 0 to |items|
      invariant forall i :: 0 <= i < n && Candidate(c, items[i]) ==> |items[i].rules| > 0
      invariant minions + Merge(c, host, items[n..], taken) == Merge(c, host, items, {})
    {
      var step := Consider(c, host, items[n], taken, items[n + 1..]);
      if step.Err? { return Err(NoRules); }
      assert items[n..] == [items[n]] + items[n + 1..];
      minions, taken := minions + step.value.0, step.value.1;
    }
    return Ok(minions);
  }

  /** The minions for a master's host: a merge of the ingresses in some order of creation, or a fault. */
  method GetMinionsForMaster(c: Controller, host: string, ings: seq<Ingress>) returns (r: Result<seq<Ingress>, Fault>)
    ensures r.Err? <==> exists ing :: ing in ings && Candidate(c, ing) && |ing.rules| == 0
    ensures r.Ok? ==>
              exists items :: Sorted(items) && multiset(items) == multiset(ings) && r.value == Merge(c, host, items, {})
  {
    var items := SortByCreation(ings);
    SortByCreationSorts(ings);
    SameMembers(items, ings);
    r := MergeInOrder(c, host, items);
    assert r.Ok? ==> Sorted(items) && multiset(items) == multiset(ings) && r.value == Merge(c, host, items, {});
  }

  /** A master, its paths emptied, and its minions. */
  method CreateMergeable(c: Controller, master: Ingress, ings: seq<Ingress>)
      returns (r: Result<(Ingress, seq<Ingress>), Fault>)
    ensures r.Ok? <==>
            && |master.rules| == 1 && Paths(master) == [] && master.rules[0].host != ""
            && !exists ing :: ing in ings && Candidate(c, ing) && |ing.rules| == 0
    ensures r.Ok? ==>
              && r.value.0 == master.(rules := [Rule(master.rules[0].host, Some([]))])
              && exists items :: Sorted(items) && multiset(items) == multiset(ings)
                                 && r.value.1 == Merge(c, master.rules[0].host, items, {})
  {
    if |master.rules| != 1 { return Err(NotOneHost); }
    if master.rules[0].http.Some? && |master.rules[0].http.value| != 0 { return Err(MasterHasPaths); }
    if master.rules[0].host == "" { return Err(EmptyHost); }
    var minions := GetMinionsForMaster(c, master.rules[0].host, ings);
    if minions.Err? { return Err(minions.error); }
    return Ok((WithPaths(master, []), minions.value));
  }

  lemma SameMembers(items: seq<Ingress>, ings: seq<Ingress>)
    requires multiset(items) == multiset(ings)
    ensures forall ing :: ing in items <==> ing in ings
  {
    forall ing ensures ing in items <==> ing in ings {
      assert ing in items <==> ing in multiset(items);
      assert ing in ings <==> ing in multiset(ings);
    }
  }

  // ----- Who holds a path -----

  lemma {:induction false} ClaimNames(paths: seq<Path>, taken: set<string>)
    ensures Names(Claim(paths, taken)) == Names(paths) - taken
    ensures forall i, j :: 0 <= i < j < |Claim(paths, taken)| ==>
            Claim(paths, taken)[i].path != Claim(paths, taken)[j].path
    ensures forall q :: q in Claim(paths, taken) ==> q in paths
  {
    if paths != [] {
      var p := paths[0].path;
      assert paths == [paths[0]] + paths[1..];
      assert Names(paths) == {p} + Names(paths[1..]);
      if p in taken {
        ClaimNames(paths[1..], taken);
      } else {
        var rest := Claim(paths[1..], taken + {p});
        ClaimNames(paths[1..], taken + {p});
        assert Names([paths[0]] + rest) == {p} + Names(rest);
        forall j | 0 <= j < |rest| ensures rest[j].path != p {
          assert rest[j].path in Names(rest);
        }
      }
    }
  }

  /** The first eligible candidate that declares the path. */
  ghost predicate First(c: Controller, host: string, items: seq<Ingress>, p: string, i: nat) {
    && i < |items| && Eligible(c, host, items[i]) && Declares(items[i], p)
    && forall j :: 0 <= j < i && Eligible(c, host, items[j]) ==> !Declares(items[j], p)
  }

  /** The ingress holds the path as the source declares it first, with that backend; nothing but paths differs. */
  ghost predicate Holds(ing: Ingress, source: Ingress, p: string) {
    && |source.rules| == 1 && |ing.rules| == 1 && ing == source.(rules := ing.rules)
    && ing.rules[0].host == source.rules[0].host && Declares(ing, p)
    && forall q :: q in Paths(ing) ==> FirstPath(Paths(source), q)
  }

  /** The first of the paths with its name. */
  ghost predicate FirstPath(paths: seq<Path>, q: Path) {
    exists i :: 0 <= i < |paths| && paths[i] == q && forall j :: 0 <= j < i ==> paths[j].path != q.path
  }

  lemma {:induction false} ClaimKeepsFirsts(paths: seq<Path>, taken: set<string>, q: Path)
    requires q in Claim(paths, taken)
    ensures FirstPath(paths, q) && q.path !in taken
  {
    if q != paths[0] || paths[0].path in taken {
      var rest := paths[1..];
      ClaimKeepsFirsts(rest, if paths[0].path in taken then taken else taken + {paths[0].path}, q);
      var i :| 0 <= i < |rest| && rest[i] == q && forall j :: 0 <= j < i ==> rest[j].path != q.path;
      assert paths[i + 1] == q;
      forall j | 0 <= j < i + 1 ensures paths[j].path != q.path {
        if j > 0 {
          assert paths[j] == rest[j - 1];
        }
      }
    } else {
      assert paths[0] == q;
    }
  }

  lemma DeclaresNames(ing: Ingress, p: string)
    ensures Declares(ing, p) <==> p in Names(Paths(ing))
  {
  }

  lemma FirstShifts(c: Controller, host: string, items: seq<Ingress>, p: string, i: nat)
    requires items != [] && !(Eligible(c, host, items[0]) && Declares(items[0], p))
    ensures First(c, host, items[1..], p, i) <==> First(c, host, items, p, i + 1)
  {
    var rest := items[1..];
    if First(c, host, rest, p, i) {
      forall j | 0 <= j < i + 1 && Eligible(c, host, items[j]) ensures !Declares(items[j], p) {
        if j > 0 {
          assert items[j] == rest[j - 1];
        }
      }
    }
    if First(c, host, items, p, i + 1) {
      forall j | 0 <= j < i && Eligible(c, host, rest[j]) ensures !Declares(rest[j], p) {
        assert rest[j] == items[j + 1];
      }
    }
  }

  lemma ClaimDeclares(c: Controller, ing: Ingress, taken: set<string>, p: string)
    requires |ing.rules| == 1 && ing.rules[0].http.Some?
    ensures Declares(WithPaths(ing, Claim(Paths(ing), taken)), p) <==> Declares(ing, p) && p !in taken
  {
    var own := WithPaths(ing, Claim(Paths(ing), taken));
    ClaimNames(Paths(ing), taken);
    DeclaresNames(own, p);
    DeclaresNames(ing, p);
  }

  lemma ClaimedHolds(ing: Ingress, taken: set<string>, p: string)
    requires |ing.rules| == 1 && ing.rules[0].http.Some? && Declares(WithPaths(ing, Claim(Paths(ing), taken)), p)
    ensures Holds(WithPaths(ing, Claim(Paths(ing), taken)), ing, p)
  {
    forall q | q in Claim(Paths(ing), taken) ensures FirstPath(Paths(ing), q) {
      ClaimKeepsFirsts(Paths(ing), taken, q);
    }
  }

  /** A minion that holds a path is the kept first declarer of it. */
  lemma {:induction false} HolderIsFirst(c: Controller, host: string, items: seq<Ingress>, taken: set<string>, n: nat,
                                         p: string)
    returns (i: nat)
    requires n < |Merge(c, host, items, taken)| && Declares(Merge(c, host, items, taken)[n], p)
    ensures First(c, host, items, p, i) && Kept(c, items[i]) && Holds(Merge(c, host, items, taken)[n], items[i], p)
    ensures p !in taken
  {
    var ing := items[0];
    var rest := items[1..];
    if !Eligible(c, host, ing) {
      var i' := HolderIsFirst(c, host, rest, taken, n, p);
      FirstShifts(c, host, items, p, i');
      i := i' + 1;
    } else {
      ClaimDeclares(c, ing, taken, p);
      DeclaresNames(ing, p);
      if Kept(c, ing) && n == 0 {
        i := 0;
        ClaimedHolds(ing, taken, p);
      } else {
        var i' := HolderIsFirst(c, host, rest, taken + Names(Paths(ing)), if Kept(c, ing) then n - 1 else n, p);
        FirstShifts(c, host, items, p, i');
        i := i' + 1;
      }
    }
  }

  /** The first declarer holds its path if it is kept. */
  lemma {:induction false} FirstHolds(c: Controller, host: string, items: seq<Ingress>, taken: set<string>, i: nat,
                                      p: string)
    returns (n: nat)
    requires First(c, host, items, p, i) && Kept(c, items[i]) && p !in taken
    ensures n < |Merge(c, host, items, taken)| && Holds(Merge(c, host, items, taken)[n], items[i], p)
  {
    var ing := items[0];
    if i == 0 {
      ClaimDeclares(c, ing, taken, p);
      ClaimedHolds(ing, taken, p);
      n := 0;
    } else {
      FirstShifts(c, host, items, p, i - 1);
      DeclaresNames(ing, p);
      if !Eligible(c, host, ing) {
        n := FirstHolds(c, host, items[1..], taken, i - 1, p);
      } else {
        n := FirstHolds(c, host, items[1..], taken + Names(Paths(ing)), i - 1, p);
        n := if Kept(c, ing) then n + 1 else n;
      }
    }
  }

  /** No path twice in one minion, nor in two. */
  ghost predicate NoPathTwice(minions: seq<Ingress>) {
    && (forall n, i, j :: 0 <= n < |minions| && 0 <= i < j < |Paths(minions[n])| ==>
                            Paths(minions[n])[i].path != Paths(minions[n])[j].path)
    && (forall n, m, p :: 0 <= n < m < |minions| && Declares(minions[n], p) ==> !Declares(minions[m], p))
  }

  lemma {:induction false} MergeHasNoPathTwice(c: Controller, host: string, items: seq<Ingress>, taken: set<string>)
    ensures NoPathTwice(Merge(c, host, items, taken))
  {
    if items != [] {
      var ing := items[0];
      if !Eligible(c, host, ing) {
        MergeHasNoPathTwice(c, host, items[1..], taken);
      } else {
        var taken' := taken + Names(Paths(ing));
        var own := WithPaths(ing, Claim(Paths(ing), taken));
        var rest := Merge(c, host, items[1..], taken');
        MergeHasNoPathTwice(c, host, items[1..], taken');
        ClaimNames(Paths(ing), taken);
        forall m, p | 0 <= m < |rest| && Declares(own, p) ensures !Declares(rest[m], p) {
          DeclaresNames(own, p);
          if Declares(rest[m], p) {
            var i := HolderIsFirst(c, host, items[1..], taken', m, p);
          }
        }
      }
    }
  }

  // ----- Theorems -----

  /**
   * Whatever order the ingresses are listed in and equal creation times are broken in: no path
   * is held twice, and its holder was created no later than every eligible candidate declaring it.
   */
  lemma PathsGoToTheOldest(c: Controller, host: string, ings: seq<Ingress>, items: seq<Ingress>)
    requires Sorted(items) && multiset(items) == multiset(ings)
    ensures var minions := Merge(c, host, items, {});
            && NoPathTwice(minions)
            && forall m, ing, p :: m in minions && Declares(m, p) ==>
                                     ing in ings && Eligible(c, host, ing) && Declares(ing, p) ==>
                                       m.created <= ing.created
  {
    var minions := Merge(c, host, items, {});
    MergeHasNoPathTwice(c, host, items, {});
    SameMembers(items, ings);
    forall m, ing, p | m in minions && Declares(m, p) && ing in ings && Eligible(c, host, ing) && Declares(ing, p)
      ensures m.created <= ing.created
    {
      var n :| 0 <= n < |minions| && minions[n] == m;
      var i := HolderIsFirst(c, host, items, {}, n, p);
      var j :| 0 <= j < |items| && items[j] == ing;
      assert i <= j;
    }
  }

  /**
   * A path is served exactly when its first declarer brings no TLS secret, and the host is not empty: a dropped
   * minion still shadows younger ones.
   */
  lemma PathServedIffFirstIsKept(c: Controller, host: string, items: seq<Ingress>, p: string, i: nat)
    requires First(c, host, items, p, i)
    ensures (exists m :: m in Merge(c, host, items, {}) && Declares(m, p)) <==>
            host != "" && forall k :: k in items[i].tls ==> k !in c.tlsSecrets
  {
    if m :| m in Merge(c, host, items, {}) && Declares(m, p) {
      var n :| 0 <= n < |Merge(c, host, items, {})| && Merge(c, host, items, {})[n] == m;
      var j := HolderIsFirst(c, host, items, {}, n, p);
      assert i == j;
    }
    if Kept(c, items[i]) {
      var n := FirstHolds(c, host, items, {}, i, p);
      assert Merge(c, host, items, {})[n] in Merge(c, host, items, {});
    }
  }

  /** A path no eligible candidate declares is held by nobody. */
  lemma UndeclaredPathsAreAbsent(c: Controller, host: string, items: seq<Ingress>, m: Ingress, p: string)
    requires m in Merge(c, host, items, {}) && Declares(m, p)
    ensures exists i: nat :: First(c, host, items, p, i) && Holds(m, items[i], p)
  {
    var n :| 0 <= n < |Merge(c, host, items, {})| && Merge(c, host, items, {})[n] == m;
    var i := HolderIsFirst(c, host, items, {}, n, p);
  }

  /** The class of the controller, or no class where ingresses without one are its own too. */
  predicate OfClass(c: Controller, ing: Ingress) {
    || ing.className == Some(c.ingressClass)
    || (!c.classOnly && (ing.className == None || ing.className == Some("")))
  }

  function OfClassOnly(c: Controller, items: seq<Ingress>): (r: seq<Ingress>) {
    if items == [] then []
    else (if OfClass(c, items[0]) then [items[0]] else []) + OfClassOnly(c, items[1..])
  }

  /** Ingresses of other classes are as if they were not there: they hold no path and shadow none. */
  lemma {:induction false} OtherClassesAreIgnored(c: Controller, host: string, items: seq<Ingress>, taken: set<string>)
    ensures Merge(c, host, items, taken) == Merge(c, host, OfClassOnly(c, items), taken)
    ensures forall ing :: ing in items ==> (IsNginxIngress(c, ing) <==> OfClass(c, ing))
  {
    if items != [] {
      OtherClassesAreIgnored(c, host, items[1..], taken);
      OtherClassesAreIgnored(c, host, items[1..], taken + Names(Paths(items[0])));
      var rest := OfClassOnly(c, items[1..]);
      if OfClass(c, items[0]) {
        assert ([items[0]] + rest)[1..] == rest;
        assert OfClassOnly(c, items) == [items[0]] + rest;
      } else {
        assert OfClassOnly(c, items) == rest;
      }
    }
  }

  /** An older minion with a TLS secret is dropped, and the younger one's path with it. */
  lemma DroppedMinionShadowsPath() returns (c: Controller, items: seq<Ingress>)
    ensures Sorted(items) && |items| == 2 && Eligible(c, "host", items[1]) && Kept(c, items[1])
            && Declares(items[1], "/p")
    ensures forall m :: m in Merge(c, "host", items, {}) ==> !Declares(m, "/p")
  {
    c := Controller("nginx", false, {7});
    var path := Path("/p", Backend("svc", "80"));
    var rules := [Rule("host", Some([path]))];
    items := [Ingress("ns/old", 1, None, Minion, rules, [7]), Ingress("ns/new", 2, None, Minion, rules, [])];
    assert path in Paths(items[0]) && path in Paths(items[1]);
    assert 7 in items[0].tls;
    PathServedIffFirstIsKept(c, "host", items, "/p", 0);
  }
}
