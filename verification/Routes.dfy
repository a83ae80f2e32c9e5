/**
 From a validated kubeconfig and the allowlist targets to the operator's route list. The two host
 parsers are parameters here; `ProxyTable` puts in the real ones.
 */
module Routes {
  import opened Prelude
  import opened HostPort
  import opened Kubeconfig

  datatype Injector = KubernetesInjector | NoneInjector | OtherInjector(name: string)

  /** A CA field: empty, the base64 of some bytes, or text that is not base64. */
  datatype CaText = NoCA | Base64(raw: seq<bv8>) | NotBase64

  datatype Route = Route(domain: string, injector: Injector, path: string, ca: CaText)

  type Parser = string -> Result<string, HostError>

  // ----- The order of domains -----

  /** Go's `<` on strings. */
  predicate Less(a: string, b: string)
    decreases |a|
  {
    b != "" && (a == "" || a[0] < b[0] || (a[0] == b[0] && Less(a[1..], b[1..])))
  }

  lemma {:induction false} LessIsTotal(a: string, b: string)
    ensures a == b || Less(a, b) || Less(b, a)
    decreases |a|
  {
    if a != "" && b != "" && a[0] == b[0] {
      LessIsTotal(a[1..], b[1..]);
      assert a == [a[0]] + a[1..] && b == [b[0]] + b[1..];
    }
  }

  lemma {:induction false} LessIsTransitive(a: string, b: string, c: string)
    requires Less(a, b) && Less(b, c)
    ensures Less(a, c)
    decreases |a|
  {
    if a != "" && a[0] == b[0] == c[0] {
      LessIsTransitive(a[1..], b[1..], c[1..]);
    }
  }

  lemma {:induction false} LessIsStrict(a: string)
    ensures !Less(a, a)
    decreases |a|
  {
    if a != "" {
      LessIsStrict(a[1..]);
    }
  }

  predicate Sorted(rs: seq<Route>) { forall i, j :: 0 <= i < j < |rs| ==> Less(rs[i].domain, rs[j].domain) }

  predicate Distinct(rs: seq<Route>) { forall i, j :: 0 <= i < j < |rs| ==> rs[i].domain != rs[j].domain }

  lemma SortedIsDistinct(rs: seq<Route>)
    requires Sorted(rs)
    ensures Distinct(rs)
  {
    forall i, j | 0 <= i < j < |rs| ensures rs[i].domain != rs[j].domain {
      LessIsStrict(rs[i].domain);
    }
  }

  ghost predicate SameRoutes(a: seq<Route>, b: seq<Route>) { |a| == |b| && forall r :: r in a <==> r in b }

  predicate AtMost(a: string, b: string) { a == b || Less(a, b) }

  lemma AtMostIsTransitive(a: string, b: string, c: string)
    requires AtMost(a, b) && AtMost(b, c)
    ensures AtMost(a, c)
  {
    if a != b && b != c {
      LessIsTransitive(a, b, c);
    }
  }

  predicate InOrder(rs: seq<Route>) { forall i, j :: 0 <= i < j < |rs| ==> AtMost(rs[i].domain, rs[j].domain) }

  /** Where a domain goes in a list that is in order. */
  method InsertAt(rs: seq<Route>, d: string) returns (k: nat)
    requires InOrder(rs)
    ensures k <= |rs|
    ensures forall i :: 0 <= i < k ==> AtMost(rs[i].domain, d)
    ensures forall i :: k <= i < |rs| ==> AtMost(d, rs[i].domain)
  {
    k := 0;
    while k < |rs| && Less(rs[k].domain, d)
      invariant k <= |rs|
      invariant forall i :: 0 <= i < k ==> AtMost(rs[i].domain, d)
    {
      k := k + 1;
    }
    if k < |rs| {
      LessIsTotal(rs[k].domain, d);
      forall i | k < i < |rs| ensures AtMost(d, rs[i].domain) {
        AtMostIsTransitive(d, rs[k].domain, rs[i].domain);
      }
    }
  }

  /** `slices.SortFunc` by domain; the library's algorithm is not modelled. */
  method SortRoutes(rs: seq<Route>) returns (sorted: seq<Route>)
    ensures InOrder(sorted) && multiset(sorted) == multiset(rs) && SameRoutes(rs, sorted)
    ensures Distinct(rs) ==> Sorted(sorted)
  {
    sorted := [];
    for i := 0 to |rs|
      invariant InOrder(sorted) && multiset(sorted) == multiset(rs[..i]) && SameRoutes(rs[..i], sorted)
      invariant Distinct(rs) ==> Distinct(sorted)
    {
      var k := InsertAt(sorted, rs[i].domain);
      assert rs[..i + 1] == rs[..i] + [rs[i]];
      InsertKeepsOrder(sorted, rs[i], k);
      if Distinct(rs) {
        InsertKeepsDistinct(rs, i, sorted, k);
      }
      sorted := sorted[..k] + [rs[i]] + sorted[k..];
    }
    assert rs[..|rs|] == rs;
    if Distinct(rs) {
      DistinctInOrderIsSorted(sorted);
    }
  }

  lemma DistinctInOrderIsSorted(rs: seq<Route>)
    requires InOrder(rs) && Distinct(rs)
    ensures Sorted(rs)
  {
    forall i, j | 0 <= i < j < |rs| ensures Less(rs[i].domain, rs[j].domain) {
      assert AtMost(rs[i].domain, rs[j].domain);
    }
  }

  lemma InsertKeepsDistinct(rs: seq<Route>, i: nat, sorted: seq<Route>, k: nat)
    requires i < |rs| && Distinct(rs) && Distinct(sorted) && SameRoutes(rs[..i], sorted) && k <= |sorted|
    ensures Distinct(sorted[..k] + [rs[i]] + sorted[k..])
  {
    var all := sorted[..k] + [rs[i]] + sorted[k..];
    forall j | 0 <= j < |sorted| ensures sorted[j].domain != rs[i].domain {
      assert sorted[j] in rs[..i];
    }
    forall x, y | 0 <= x < y < |all| ensures all[x].domain != all[y].domain {
      assert x < k ==> all[x] == sorted[x];
      assert k < x ==> all[x] == sorted[x - 1];
      assert y < k ==> all[y] == sorted[y];
      assert k < y ==> all[y] == sorted[y - 1];
    }
  }

  lemma InsertKeepsOrder(rs: seq<Route>, r: Route, k: nat)
    requires InOrder(rs) && k <= |rs|
    requires forall i :: 0 <= i < k ==> AtMost(rs[i].domain, r.domain)
    requires forall i :: k <= i < |rs| ==> AtMost(r.domain, rs[i].domain)
    ensures var all := rs[..k] + [r] + rs[k..];
            InOrder(all) && multiset(all) == multiset(rs + [r]) && SameRoutes(rs + [r], all)
  {
    var all := rs[..k] + [r] + rs[k..];
    assert rs == rs[..k] + rs[k..];
    forall i, j | 0 <= i < j < |all| ensures AtMost(all[i].domain, all[j].domain) {
      if j < k {
        assert all[i] == rs[i] && all[j] == rs[j];
      } else if i > k {
        assert all[i] == rs[i - 1] && all[j] == rs[j - 1];
      } else if i < k < j {
        AtMostIsTransitive(rs[i].domain, r.domain, rs[j - 1].domain);
      }
    }
  }

  // ----- Routes from a kubeconfig -----

  predicate Routed(rs: seq<Route>, h: string) { exists i :: 0 <= i < |rs| && rs[i].domain == h }

  function RouteOf(c: Cluster, path: string): Route
    requires ServerOf(c).Ok?
  {
    Route(ServerOf(c).value, KubernetesInjector, path, if c.ca == [] then NoCA else Base64(c.ca))
  }

  predicate FromCluster(cfg: Config, path: string, r: Route) {
    exists n <- cfg.clusters :: ServerOf(cfg.clusters[n]).Ok? && r == RouteOf(cfg.clusters[n], path)
  }

  predicate ServerRouted(c: Cluster, rs: seq<Route>) { ServerOf(c).Ok? && Routed(rs, ServerOf(c).value) }

  /** One kubernetes route for each server of these clusters, with the CA of a cluster on it. */
  ghost predicate KubeRoutes(cfg: Config, done: set<string>, path: string, rs: seq<Route>) {
    && done <= cfg.clusters.Keys
    && Distinct(rs)
    && (forall i :: 0 <= i < |rs| ==> FromCluster(cfg, path, rs[i]))
    && (forall n <- done {:trigger ServerRouted(cfg.clusters[n], rs)} :: ServerRouted(cfg.clusters[n], rs))
  }

  ghost predicate SeenAre(seen: set<string>, rs: seq<Route>) { forall h :: h in seen <==> Routed(rs, h) }

  lemma RoutedGrows(rs: seq<Route>, r: Route, h: string)
    ensures Routed(rs + [r], h) <==> Routed(rs, h) || r.domain == h
  {
    var all := rs + [r];
    if Routed(rs, h) {
      var i :| 0 <= i < |rs| && rs[i].domain == h;
      assert all[i].domain == h;
    }
    if r.domain == h {
      assert all[|rs|].domain == h;
    }
  }

  lemma KubeRoutesGrow(cfg: Config, done: set<string>, path: string, rs: seq<Route>, n: string)
    requires KubeRoutes(cfg, done, path, rs) && n in cfg.clusters && ServerOf(cfg.clusters[n]).Ok?
    requires !Routed(rs, ServerOf(cfg.clusters[n]).value)
    ensures KubeRoutes(cfg, done + {n}, path, rs + [RouteOf(cfg.clusters[n], path)])
  {
    var r := RouteOf(cfg.clusters[n], path);
    forall m <- done + {n} ensures ServerRouted(cfg.clusters[m], rs + [r]) {
      if m in done {
        assert ServerRouted(cfg.clusters[m], rs);
      }
      RoutedGrows(rs, r, ServerOf(cfg.clusters[m]).value);
    }
  }

  lemma KubeRoutesStay(cfg: Config, done: set<string>, path: string, rs: seq<Route>, n: string)
    requires KubeRoutes(cfg, done, path, rs) && n in cfg.clusters && ServerRouted(cfg.clusters[n], rs)
    ensures KubeRoutes(cfg, done + {n}, path, rs)
  {
  }

  /** `routesFromClusters`, taking the clusters in any order. */
  method RoutesFromClusters(cfg: Config, path: string) returns (r: Result<seq<Route>, KubeError>)
    ensures r.Ok? <==> forall n <- cfg.clusters :: ServerOf(cfg.clusters[n]).Ok?
    ensures r.Ok? ==> KubeRoutes(cfg, cfg.clusters.Keys, path, r.value)
    ensures r.Err? ==> r.error.BadServer? && Fault(cfg, r.error)
  {
    var names, seen, routes := cfg.clusters.Keys, {}, [];
    while names != {}
      invariant names <= cfg.clusters.Keys && SeenAre(seen, routes)
      invariant KubeRoutes(cfg, cfg.clusters.Keys - names, path, routes)
      decreases |names|
    {
      var n :| n in names;
      var host := ServerOf(cfg.clusters[n]);
      if host.Err? {
        return Err(BadServer(n, host.error));
      }
      assert cfg.clusters.Keys - names + {n} == cfg.clusters.Keys - (names - {n});
      if host.value in seen {
        KubeRoutesStay(cfg, cfg.clusters.Keys - names, path, routes, n);
      } else {
        KubeRoutesGrow(cfg, cfg.clusters.Keys - names, path, routes, n);
        var route := RouteOf(cfg.clusters[n], path);
        forall h ensures Routed(routes + [route], h) <==> Routed(routes, h) || route.domain == h {
          RoutedGrows(routes, route, h);
        }
        seen := seen + {host.value};
        routes := routes + [route];
      }
      names := names - {n};
    }
    assert cfg.clusters.Keys - names == cfg.clusters.Keys;
    forall n <- cfg.clusters ensures ServerOf(cfg.clusters[n]).Ok? {
      assert ServerRouted(cfg.clusters[n], routes);
    }
    r := Ok(routes);
  }

  datatype BuildError = EmptyPath | BadKubeconfig(why: KubeError)

  lemma SortingKeepsKubeRoutes(cfg: Config, path: string, rs: seq<Route>, sorted: seq<Route>)
    requires KubeRoutes(cfg, cfg.clusters.Keys, path, rs) && SameRoutes(rs, sorted) && Sorted(sorted)
    ensures KubeRoutes(cfg, cfg.clusters.Keys, path, sorted)
  {
    SortedIsDistinct(sorted);
    forall i | 0 <= i < |sorted| ensures FromCluster(cfg, path, sorted[i]) {
      assert sorted[i] in rs;
    }
    forall n <- cfg.clusters ensures ServerRouted(cfg.clusters[n], sorted) {
      assert ServerRouted(cfg.clusters[n], rs);
      var i :| 0 <= i < |rs| && rs[i].domain == ServerOf(cfg.clusters[n]).value;
      assert rs[i] in sorted;
    }
  }

  /** `BuildProxyRoutes`, on a parsed file. */
  method BuildProxyRoutes(cfg: Config, path: string) returns (r: Result<seq<Route>, BuildError>)
    ensures r.Ok? <==> path != "" && Accepts(cfg)
    ensures r.Ok? ==> Sorted(r.value) && KubeRoutes(cfg, cfg.clusters.Keys, path, r.value)
  {
    if path == "" {
      return Err(EmptyPath);
    }
    var err := Validate(cfg);
    match err {
      case Some(e) => return Err(BadKubeconfig(e));
      case None =>
    }
    var routes := RoutesFromClusters(cfg, path);
    match routes {
      case Err(e) => return Err(BadKubeconfig(e));
      case Ok(rs) =>
        var sorted := SortRoutes(rs);
        SortingKeepsKubeRoutes(cfg, path, rs, sorted);
        r := Ok(sorted);
    }
  }

  // ----- Routes from allowlist entries -----

  datatype Problem = Conflict(host: string) | BadEntry(entry: string, why: HostError)

  function NoneRoute(h: string): Route { Route(h, NoneInjector, "", NoCA) }

  /** One problem for each entry that does not parse, in order. */
  function BadEntries(domains: seq<string>, parse: Parser): seq<Problem> {
    if domains == [] then []
    else
      var last := domains[|domains| - 1];
      var front := BadEntries(domains[..|domains| - 1], parse);
      if parse(last).Ok? then front else front + [BadEntry(last, parse(last).error)]
  }

  ghost predicate Lists(domains: seq<string>, parse: Parser, h: string) {
    exists i :: 0 <= i < |domains| && parse(domains[i]) == Ok(h)
  }

  lemma ListsGrows(domains: seq<string>, parse: Parser, d: string, h: string)
    ensures Lists(domains + [d], parse, h) <==> Lists(domains, parse, h) || parse(d) == Ok(h)
  {
    var all := domains + [d];
    if Lists(domains, parse, h) {
      var i :| 0 <= i < |domains| && parse(domains[i]) == Ok(h);
      assert parse(all[i]) == Ok(h);
    }
    if parse(d) == Ok(h) {
      assert parse(all[|domains|]) == Ok(h);
    }
  }

  /** A none route for each listed host, and no other route. */
  ghost predicate ListRoutes(domains: seq<string>, parse: Parser, rs: seq<Route>) {
    && (forall i :: 0 <= i < |rs| ==> rs[i] == NoneRoute(rs[i].domain))
    && (forall h :: Routed(rs, h) <==> Lists(domains, parse, h))
  }

  /** `allowlistRoutes`. */
  method AllowlistRoutes(domains: seq<string>, parse: Parser) returns (routes: seq<Route>, problems: seq<Problem>)
    ensures Distinct(routes) && ListRoutes(domains, parse, routes)
    ensures problems == BadEntries(domains, parse)
  {
    var seen := {};
    routes, problems := [], [];
    for i := 0 to |domains|
      invariant SeenAre(seen, routes) && Distinct(routes)
      invariant ListRoutes(domains[..i], parse, routes)
      invariant problems == BadEntries(domains[..i], parse)
    {
      assert domains[..i + 1] == domains[..i] + [domains[i]];
      forall h ensures Lists(domains[..i + 1], parse, h) <==> Lists(domains[..i], parse, h) || parse(domains[i]) == Ok(h) {
        ListsGrows(domains[..i], parse, domains[i], h);
      }
      var host := parse(domains[i]);
      if host.Err? {
        problems := problems + [BadEntry(domains[i], host.error)];
      } else if host.value !in seen {
        forall h ensures Routed(routes + [NoneRoute(host.value)], h) <==> Routed(routes, h) || host.value == h {
          RoutedGrows(routes, NoneRoute(host.value), h);
        }
        seen := seen + {host.value};
        routes := routes + [NoneRoute(host.value)];
      }
    }
    assert domains[..|domains|] == domains;
  }

  // ----- Merging -----

  /** The first route for a host. */
  function First(rs: seq<Route>, h: string): (f: Option<Route>)
    ensures f.Some? ==> f.value.domain == h && f.value in rs
  {
    if rs == [] then None
    else
      var front, last := First(rs[..|rs| - 1], h), rs[|rs| - 1];
      if front.Some? then front else if last.domain == h then Some(last) else None
  }

  /** Some later route for the host disagrees with the first one about the injector. */
  predicate Clash(rs: seq<Route>, h: string) {
    rs != [] &&
    var front, last := rs[..|rs| - 1], rs[|rs| - 1];
    Clash(front, h)
    || (last.domain == h && First(front, h).Some? && last.injector != First(front, h).value.injector)
  }

  datatype Seen = Seen(route: Route, conflict: bool)

  /** The map and the order `mergeRoutes` has after its first loop over these routes. */
  ghost predicate Tallied(rs: seq<Route>, byHost: map<string, Seen>, order: seq<string>) {
    && (forall h :: h in byHost <==> First(rs, h).Some?)
    && (forall h <- byHost :: byHost[h] == Seen(First(rs, h).value, Clash(rs, h)))
    && (forall h :: h in order <==> h in byHost)
    && (forall i, j :: 0 <= i < j < |order| ==> order[i] != order[j])
  }

  lemma MoreRoutes(rs: seq<Route>, r: Route, h: string)
    ensures First(rs + [r], h) == if First(rs, h).Some? then First(rs, h) else if r.domain == h then Some(r) else None
    ensures Clash(rs + [r], h) <==>
              Clash(rs, h) || (r.domain == h && First(rs, h).Some? && r.injector != First(rs, h).value.injector)
  {
    assert (rs + [r])[..|rs|] == rs;
  }

  lemma TallyNew(rs: seq<Route>, r: Route, byHost: map<string, Seen>, order: seq<string>)
    requires Tallied(rs, byHost, order) && r.domain !in byHost
    ensures Tallied(rs + [r], byHost[r.domain := Seen(r, false)], order + [r.domain])
  {
    NoClashBeforeTheFirst(rs, r.domain);
    forall h {
      MoreRoutes(rs, r, h);
    }
  }

  lemma TallyKnown(rs: seq<Route>, r: Route, byHost: map<string, Seen>, order: seq<string>)
    requires Tallied(rs, byHost, order) && r.domain in byHost
    ensures var s := byHost[r.domain];
            Tallied(rs + [r], byHost[r.domain := s.(conflict := s.conflict || s.route.injector != r.injector)], order)
  {
    forall h {
      MoreRoutes(rs, r, h);
    }
  }

  method Tally(rs: seq<Route>) returns (byHost: map<string, Seen>, order: seq<string>)
    ensures Tallied(rs, byHost, order)
  {
    byHost, order := map[], [];
    for i := 0 to |rs|
      invariant Tallied(rs[..i], byHost, order)
    {
      var r := rs[i];
      assert rs[..i + 1] == rs[..i] + [r];
      if r.domain !in byHost {
        TallyNew(rs[..i], r, byHost, order);
        byHost := byHost[r.domain := Seen(r, false)];
        order := order + [r.domain];
      } else {
        TallyKnown(rs[..i], r, byHost, order);
        var s := byHost[r.domain];
        ghost var due := byHost[r.domain := s.(conflict := s.conflict || s.route.injector != r.injector)];
        if s.route.injector != r.injector {
          byHost := byHost[r.domain := s.(conflict := true)];
        }
        assert byHost == due;
      }
    }
    assert rs[..|rs|] == rs;
  }

  lemma {:induction false} NoClashBeforeTheFirst(rs: seq<Route>, h: string)
    requires First(rs, h).None?
    ensures !Clash(rs, h)
  {
    if rs != [] {
      NoClashBeforeTheFirst(rs[..|rs| - 1], h);
    }
  }

  predicate Chosen(rs: seq<Route>, r: Route) { First(rs, r.domain) == Some(r) && !Clash(rs, r.domain) }

  /** The routes that survive: the first one of each host whose routes agree on the injector. */
  ghost predicate Kept(rs: seq<Route>, kept: seq<Route>) { forall r :: r in kept <==> Chosen(rs, r) }

  /** One problem for each host whose routes disagree. */
  ghost predicate Conflicting(rs: seq<Route>, conflicts: seq<Problem>) {
    && (forall i :: 0 <= i < |conflicts| ==> conflicts[i].Conflict?)
    && (forall h :: Conflict(h) in conflicts <==> Clash(rs, h))
    && (forall i, j :: 0 <= i < j < |conflicts| ==> conflicts[i] != conflicts[j])
  }

  lemma {:induction false} ClashNeedsARoute(rs: seq<Route>, h: string)
    requires Clash(rs, h)
    ensures First(rs, h).Some?
  {
    if Clash(rs[..|rs| - 1], h) {
      ClashNeedsARoute(rs[..|rs| - 1], h);
    }
  }

  /** `mergeRoutes`. */
  method MergeRoutes(rs: seq<Route>) returns (kept: seq<Route>, conflicts: seq<Problem>)
    ensures Sorted(kept) && Kept(rs, kept) && Conflicting(rs, conflicts)
  {
    var byHost, order := Tally(rs);
    kept, conflicts := [], [];
    for i := 0 to |order|
      invariant Distinct(kept)
      invariant forall r :: r in kept <==> r.domain in order[..i] && Chosen(rs, r)
      invariant forall j :: 0 <= j < |conflicts| ==> conflicts[j].Conflict?
      invariant forall h :: Conflict(h) in conflicts <==> h in order[..i] && Clash(rs, h)
      invariant forall j, k :: 0 <= j < k < |conflicts| ==> conflicts[j] != conflicts[k]
    {
      var h := order[i];
      assert order[..i + 1] == order[..i] + [h];
      assert h !in order[..i];
      assert byHost[h] == Seen(First(rs, h).value, Clash(rs, h));
      if byHost[h].conflict {
        conflicts := conflicts + [Conflict(h)];
      } else {
        forall j | 0 <= j < |kept| ensures kept[j].domain != h {
          assert kept[j] in kept;
        }
        kept := kept + [byHost[h].route];
      }
    }
    assert order[..|order|] == order;
    forall h | Clash(rs, h) ensures h in order {
      ClashNeedsARoute(rs, h);
    }
    kept := SortRoutes(kept);
  }

  lemma {:induction false} FirstIffRouted(rs: seq<Route>, h: string)
    ensures First(rs, h).Some? <==> Routed(rs, h)
  {
    if rs != [] {
      var front := rs[..|rs| - 1];
      FirstIffRouted(front, h);
      assert rs == front + [rs[|rs| - 1]];
      RoutedGrows(front, rs[|rs| - 1], h);
    }
  }

  /** The first route for a host stands before every other one. */
  lemma {:induction false} FirstIsFirst(rs: seq<Route>, h: string, k: nat)
    requires k < |rs| && rs[k].domain == h
    ensures exists i :: 0 <= i <= k && First(rs, h) == Some(rs[i])
  {
    var front := rs[..|rs| - 1];
    if k < |front| {
      FirstIsFirst(front, h, k);
      var i :| 0 <= i <= k && First(front, h) == Some(front[i]);
      assert front[i] == rs[i];
    } else if First(front, h).Some? {
      var i :| 0 <= i < |front| && front[i] == First(front, h).value;
      assert front[i] == rs[i];
    }
  }

  /** A host clashes exactly when two of its routes have different injectors. */
  lemma {:induction false} ClashIffInjectorsDiffer(rs: seq<Route>, h: string)
    ensures Clash(rs, h) <==>
              exists i, j :: 0 <= i < |rs| && 0 <= j < |rs| && rs[i].domain == h && rs[j].domain == h
                             && rs[i].injector != rs[j].injector
  {
    if Clash(rs, h) {
      var i, j := ClashWitness(rs, h);
    }
    if i, j :| 0 <= i < |rs| && 0 <= j < |rs| && rs[i].domain == h && rs[j].domain == h && rs[i].injector != rs[j].injector {
      var k := if First(rs, h).Some? && rs[i].injector == First(rs, h).value.injector then j else i;
      FirstIsFirst(rs, h, k);
      DisagreementClashes(rs, h, k);
    }
  }

  lemma {:induction false} ClashWitness(rs: seq<Route>, h: string) returns (i: nat, j: nat)
    requires Clash(rs, h)
    ensures i < |rs| && j < |rs| && rs[i].domain == h && rs[j].domain == h && rs[i].injector != rs[j].injector
  {
    var front := rs[..|rs| - 1];
    if Clash(front, h) {
      i, j := ClashWitness(front, h);
    } else {
      j := |rs| - 1;
      i :| 0 <= i < |front| && front[i] == First(front, h).value;
      assert front[i] == rs[i];
    }
  }

  lemma {:induction false} DisagreementClashes(rs: seq<Route>, h: string, k: nat)
    requires k < |rs| && rs[k].domain == h && First(rs, h).Some? && rs[k].injector != First(rs, h).value.injector
    ensures Clash(rs, h)
  {
    var front := rs[..|rs| - 1];
    if k < |front| {
      FirstIsFirst(front, h, k);
      DisagreementClashes(front, h, k);
    }
  }

  lemma {:induction false} FirstOfTwo(a: seq<Route>, b: seq<Route>, h: string)
    ensures First(a + b, h) == if First(a, h).Some? then First(a, h) else First(b, h)
    decreases b
  {
    if b == [] {
      assert a + b == a;
    } else {
      FirstOfTwo(a, b[..|b| - 1], h);
      assert (a + b)[..|a + b| - 1] == a + b[..|b| - 1];
    }
  }

  // ----- The operator's list -----

  datatype Target = Allowlist(domains: seq<string>) | KubernetesTarget | UnknownTarget

  ghost predicate Listed(targets: seq<Target>, parse: Parser, h: string) {
    exists i :: 0 <= i < |targets| && targets[i].Allowlist? && Lists(targets[i].domains, parse, h)
  }

  function BadTargets(targets: seq<Target>, parse: Parser): seq<Problem> {
    if targets == [] then []
    else
      var front, last := BadTargets(targets[..|targets| - 1], parse), targets[|targets| - 1];
      if last.Allowlist? then front + BadEntries(last.domains, parse) else front
  }

  /** Only none routes, for exactly the listed hosts. */
  ghost predicate TargetRoutes(targets: seq<Target>, parse: Parser, rs: seq<Route>) {
    && (forall i :: 0 <= i < |rs| ==> rs[i] == NoneRoute(rs[i].domain))
    && (forall h :: Routed(rs, h) <==> Listed(targets, parse, h))
  }

  lemma ListedGrows(targets: seq<Target>, parse: Parser, t: Target, h: string)
    ensures Listed(targets + [t], parse, h) <==> Listed(targets, parse, h) || (t.Allowlist? && Lists(t.domains, parse, h))
  {
    var all := targets + [t];
    if Listed(targets, parse, h) {
      var i :| 0 <= i < |targets| && targets[i].Allowlist? && Lists(targets[i].domains, parse, h);
      assert all[i].Allowlist? && Lists(all[i].domains, parse, h);
    }
    if t.Allowlist? && Lists(t.domains, parse, h) {
      assert all[|targets|].Allowlist?;
    }
  }

  lemma RoutedConcat(a: seq<Route>, b: seq<Route>, h: string)
    ensures Routed(a + b, h) <==> Routed(a, h) || Routed(b, h)
  {
    var all := a + b;
    if Routed(a, h) {
      var i :| 0 <= i < |a| && a[i].domain == h;
      assert all[i].domain == h;
    }
    if Routed(b, h) {
      var i :| 0 <= i < |b| && b[i].domain == h;
      assert all[|a| + i].domain == h;
    }
  }

  /** The routes of the kubeconfigs for this host agree, and so does the allowlist if it has the host too. */
  ghost predicate Agreed(targets: seq<Target>, kube: seq<Route>, parse: Parser, h: string) {
    !Clash(kube, h) && (First(kube, h).Some? && Listed(targets, parse, h) ==> First(kube, h).value.injector == NoneInjector)
  }

  /**
   What is kept of a host on whose injector everyone agrees: the first kubeconfig route, or the none
   route if only the allowlist has it.
   */
  ghost predicate Survives(targets: seq<Target>, kube: seq<Route>, parse: Parser, r: Route) {
    && Agreed(targets, kube, parse, r.domain)
    && (if Routed(kube, r.domain) then First(kube, r.domain) == Some(r)
        else Listed(targets, parse, r.domain) && r == NoneRoute(r.domain))
  }

  lemma ClashOfTwo(kube: seq<Route>, lists: seq<Route>, h: string)
    requires forall i :: 0 <= i < |lists| ==> lists[i] == NoneRoute(lists[i].domain)
    ensures Clash(kube + lists, h) <==>
              Clash(kube, h) || (First(kube, h).Some? && Routed(lists, h) && First(kube, h).value.injector != NoneInjector)
    decreases lists
  {
    if lists == [] {
      assert kube + lists == kube;
    } else {
      var front, last := lists[..|lists| - 1], lists[|lists| - 1];
      ClashOfTwo(kube, front, h);
      FirstOfTwo(kube, front, h);
      assert kube + lists == (kube + front) + [last] && lists == front + [last];
      MoreRoutes(kube + front, last, h);
      RoutedGrows(front, last, h);
    }
  }

  lemma ChosenOfTwo(targets: seq<Target>, parse: Parser, kube: seq<Route>, lists: seq<Route>, r: Route)
    requires TargetRoutes(targets, parse, lists)
    ensures Chosen(kube + lists, r) <==> Survives(targets, kube, parse, r)
  {
    var h := r.domain;
    ClashOfTwo(kube, lists, h);
    FirstOfTwo(kube, lists, h);
    FirstIffRouted(kube, h);
    FirstIffRouted(lists, h);
    if !Routed(kube, h) {
      NoClashBeforeTheFirst(kube, h);
    }
  }

  /** `collectProxyRoutes`: conflicts are reported first, then the bad entries of every target in order. */
  method CollectProxyRoutes(targets: seq<Target>, kube: seq<Route>, parse: Parser)
    returns (kept: seq<Route>, conflicts: seq<Problem>, problems: seq<Problem>)
    ensures Sorted(kept) && forall r :: r in kept <==> Survives(targets, kube, parse, r)
    ensures problems == conflicts + BadTargets(targets, parse)
    ensures forall i :: 0 <= i < |conflicts| ==> conflicts[i].Conflict?
    ensures forall h :: Conflict(h) in conflicts <==> !Agreed(targets, kube, parse, h)
    ensures forall i, j :: 0 <= i < j < |conflicts| ==> conflicts[i] != conflicts[j]
  {
    var routes := kube;
    problems := [];
    ghost var lists := [];
    for i := 0 to |targets|
      invariant routes == kube + lists
      invariant TargetRoutes(targets[..i], parse, lists)
      invariant problems == BadTargets(targets[..i], parse)
    {
      assert targets[..i + 1] == targets[..i] + [targets[i]];
      forall h ensures Listed(targets[..i + 1], parse, h) <==>
          Listed(targets[..i], parse, h) || (targets[i].Allowlist? && Lists(targets[i].domains, parse, h)) {
        ListedGrows(targets[..i], parse, targets[i], h);
      }
      if targets[i].Allowlist? {
        var part, skipped := AllowlistRoutes(targets[i].domains, parse);
        forall h ensures Routed(lists + part, h) <==> Routed(lists, h) || Routed(part, h) {
          RoutedConcat(lists, part, h);
        }
        routes := routes + part;
        problems := problems + skipped;
        lists := lists + part;
      }
    }
    assert targets[..|targets|] == targets;
    kept, conflicts := MergeRoutes(routes);
    problems := conflicts + problems;
    forall r ensures Chosen(routes, r) <==> Survives(targets, kube, parse, r) {
      ChosenOfTwo(targets, parse, kube, lists, r);
    }
    forall h ensures Clash(routes, h) <==> !Agreed(targets, kube, parse, h) {
      ClashOfTwo(kube, lists, h);
    }
  }

  lemma {:induction false} BadEntriesAre(domains: seq<string>, parse: Parser, p: Problem)
    ensures p in BadEntries(domains, parse) <==> p.BadEntry? && p.entry in domains && parse(p.entry) == Err(p.why)
  {
    if domains != [] {
      var front := domains[..|domains| - 1];
      BadEntriesAre(front, parse, p);
      assert domains == front + [domains[|domains| - 1]];
    }
  }

  lemma {:induction false} BadTargetsAre(targets: seq<Target>, parse: Parser, p: Problem)
    ensures p in BadTargets(targets, parse) <==>
              exists t :: t in targets && t.Allowlist? && p in BadEntries(t.domains, parse)
  {
    if targets != [] {
      var front, last := targets[..|targets| - 1], targets[|targets| - 1];
      BadTargetsAre(front, parse, p);
      assert targets == front + [last];
      assert forall t :: t in targets <==> t in front || t == last;
    }
  }

  /**
   Every allowlist entry ends in exactly one way: its host is kept, its host is reported as a conflict, or
   the entry itself is reported as bad.
   */
  lemma EveryEntryIsAccountedFor(targets: seq<Target>, kube: seq<Route>, parse: Parser, t: Target, entry: string)
    requires t in targets && t.Allowlist? && entry in t.domains
    ensures parse(entry).Ok? ==>
              var h := parse(entry).value;
              && ((exists r :: Survives(targets, kube, parse, r) && r.domain == h) <==> Agreed(targets, kube, parse, h))
              && forall why :: BadEntry(entry, why) !in BadTargets(targets, parse)
    ensures parse(entry).Err? ==> BadEntry(entry, parse(entry).error) in BadTargets(targets, parse)
  {
    if parse(entry).Ok? {
      var h := parse(entry).value;
      assert Lists(t.domains, parse, h);
      assert Listed(targets, parse, h);
      FirstIffRouted(kube, h);
      if Agreed(targets, kube, parse, h) {
        var r := if Routed(kube, h) then First(kube, h).value else NoneRoute(h);
        assert Survives(targets, kube, parse, r);
      }
      forall why ensures BadEntry(entry, why) !in BadTargets(targets, parse) {
        BadTargetsAre(targets, parse, BadEntry(entry, why));
        forall u | u in targets && u.Allowlist? ensures BadEntry(entry, why) !in BadEntries(u.domains, parse) {
          BadEntriesAre(u.domains, parse, BadEntry(entry, why));
        }
      }
    } else {
      var p := BadEntry(entry, parse(entry).error);
      BadEntriesAre(t.domains, parse, p);
      BadTargetsAre(targets, parse, p);
    }
  }

  predicate AllKubernetes(rs: seq<Route>) { forall i :: 0 <= i < |rs| ==> rs[i].injector == KubernetesInjector }

  lemma {:induction false} KubernetesNeverClash(rs: seq<Route>, h: string)
    requires AllKubernetes(rs)
    ensures !Clash(rs, h)
  {
    ClashIffInjectorsDiffer(rs, h);
  }

  /** With kubernetes routes only, a host is a conflict exactly when the allowlist has it too. */
  lemma ConflictIffBothClaim(targets: seq<Target>, kube: seq<Route>, parse: Parser, h: string)
    requires AllKubernetes(kube)
    ensures !Agreed(targets, kube, parse, h) <==> Routed(kube, h) && Listed(targets, parse, h)
  {
    KubernetesNeverClash(kube, h);
    FirstIffRouted(kube, h);
  }
}
