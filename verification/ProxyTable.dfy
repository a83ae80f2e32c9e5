/**
 The proxy's side of the routes: indexing the operator's list, loading a token for every kubernetes
 route, and deciding on a request. A header map is keyed by the lower-cased name, which stands for
 the canonical spelling net/http keeps.
 */
module ProxyTable {
  import opened Prelude
  import opened HostPort
  import opened Kubeconfig
  import opened Routes

  // ----- The index -----

  datatype IndexError = NoRoutes | BadRoute(index: nat) | DuplicateDomain(domain: string)

  predicate CaOk(ca: CaText, isPem: seq<bv8> -> bool) { ca == NoCA || (ca.Base64? && isPem(ca.raw)) }

  /** `prepareRoute`: the route with its domain in canonical form, if it is usable. */
  function PrepareRoute(r: Route, canon: Parser, isPem: seq<bv8> -> bool): Option<Route> {
    var host := canon(r.domain);
    if host.Err? then None
    else
      match r.injector
      case KubernetesInjector => if r.path == "" || !CaOk(r.ca, isPem) then None else Some(r.(domain := host.value))
      case NoneInjector => Some(r.(domain := host.value))
      case OtherInjector(_) => None
  }

  predicate Prepares(rs: seq<Route>, i: nat, canon: Parser, isPem: seq<bv8> -> bool)
    requires i < |rs|
  {
    PrepareRoute(rs[i], canon, isPem).Some?
  }

  predicate AllPrepare(rs: seq<Route>, canon: Parser, isPem: seq<bv8> -> bool) {
    forall i :: 0 <= i < |rs| ==> Prepares(rs, i, canon, isPem)
  }

  /** No two routes share a canonical domain. */
  predicate NoDuplicates(rs: seq<Route>, canon: Parser) {
    forall i, j :: 0 <= i < j < |rs| ==> canon(rs[i].domain) != canon(rs[j].domain)
  }

  /** The map finds each of these routes under its domain, and nothing else. */
  ghost predicate IndexOf(rs: seq<Route>, byHost: map<string, Route>) {
    && (forall h :: h in byHost <==> Routed(rs, h))
    && (forall h <- byHost :: byHost[h].domain == h && byHost[h] in rs)
  }

  lemma IndexGrows(rs: seq<Route>, byHost: map<string, Route>, r: Route)
    requires IndexOf(rs, byHost) && r.domain !in byHost
    ensures IndexOf(rs + [r], byHost[r.domain := r])
  {
    forall h ensures Routed(rs + [r], h) <==> Routed(rs, h) || r.domain == h {
      RoutedGrows(rs, r, h);
    }
  }

  /** `index` after its first `i` routes: those are prepared and indexed, the others are as they were. */
  ghost predicate IndexedTo(was: seq<Route>, rs: seq<Route>, byHost: map<string, Route>, i: nat, canon: Parser, isPem: seq<bv8> -> bool) {
    && i <= |rs| == |was| && rs[i..] == was[i..]
    && (forall j :: 0 <= j < i ==> Some(rs[j]) == PrepareRoute(was[j], canon, isPem))
    && IndexOf(rs[..i], byHost)
    && NoDuplicates(was[..i], canon)
  }

  lemma IndexDuplicate(was: seq<Route>, rs: seq<Route>, byHost: map<string, Route>, i: nat, p: Route, canon: Parser, isPem: seq<bv8> -> bool)
    requires IndexedTo(was, rs, byHost, i, canon, isPem) && i < |was| && PrepareRoute(was[i], canon, isPem) == Some(p)
    ensures p.domain in byHost <==> exists j :: 0 <= j < i && canon(was[j].domain) == canon(was[i].domain)
  {
    assert p.domain in byHost <==> Routed(rs[..i], p.domain);
    forall j | 0 <= j < i ensures rs[..i][j].domain == p.domain <==> canon(was[j].domain) == canon(was[i].domain) {
      assert Some(rs[j]) == PrepareRoute(was[j], canon, isPem);
    }
  }

  lemma IndexNext(was: seq<Route>, rs: seq<Route>, byHost: map<string, Route>, i: nat, p: Route, canon: Parser, isPem: seq<bv8> -> bool)
    requires IndexedTo(was, rs, byHost, i, canon, isPem) && i < |was| && PrepareRoute(was[i], canon, isPem) == Some(p)
    requires p.domain !in byHost
    ensures IndexedTo(was, rs[i := p], byHost[p.domain := p], i + 1, canon, isPem)
  {
    IndexGrows(rs[..i], byHost, p);
    IndexDuplicate(was, rs, byHost, i, p, canon, isPem);
    assert rs[i := p][..i + 1] == rs[..i] + [p];
    assert rs[i := p][i + 1..] == rs[i..][1..] && was[i + 1..] == was[i..][1..];
    assert was[..i + 1] == was[..i] + [was[i]];
  }

  lemma IndexComplete(was: seq<Route>, rs: seq<Route>, byHost: map<string, Route>, canon: Parser, isPem: seq<bv8> -> bool)
    requires IndexedTo(was, rs, byHost, |was|, canon, isPem)
    ensures AllPrepare(was, canon, isPem) && NoDuplicates(was, canon) && IndexOf(rs, byHost)
  {
    assert rs[..|rs|] == rs && was[..|was|] == was;
    forall i | 0 <= i < |was| ensures Prepares(was, i, canon, isPem) {
      assert Some(rs[i]) == PrepareRoute(was[i], canon, isPem);
    }
  }

  class ProxyConfig {
    var routes: seq<Route>
    var byHost: map<string, Route>

    constructor (routes: seq<Route>)
      ensures this.routes == routes && byHost == map[]
    {
      this.routes, byHost := routes, map[];
    }

    /** `index`. */
    method Index(canon: Parser, isPem: seq<bv8> -> bool) returns (err: Option<IndexError>)
      modifies this
      ensures err.None? <==> |old(routes)| > 0 && AllPrepare(old(routes), canon, isPem) && NoDuplicates(old(routes), canon)
      ensures err.None? ==> |routes| == |old(routes)| && IndexOf(routes, byHost)
      ensures err.None? ==>
                forall i :: 0 <= i < |routes| ==> Some(routes[i]) == PrepareRoute(old(routes)[i], canon, isPem)
    {
      if |routes| == 0 {
        return Some(NoRoutes);
      }
      byHost := map[];
      for i := 0 to |routes|
        invariant IndexedTo(old(routes), routes, byHost, i, canon, isPem)
      {
        assert routes[i] == routes[i..][0] == old(routes)[i];
        var prepared := PrepareRoute(routes[i], canon, isPem);
        if prepared.None? {
          assert !Prepares(old(routes), i, canon, isPem);
          return Some(BadRoute(i));
        }
        IndexDuplicate(old(routes), routes, byHost, i, prepared.value, canon, isPem);
        if prepared.value.domain in byHost {
          return Some(DuplicateDomain(prepared.value.domain));
        }
        IndexNext(old(routes), routes, byHost, i, prepared.value, canon, isPem);
        routes := routes[i := prepared.value];
        byHost := byHost[prepared.value.domain := prepared.value];
      }
      IndexComplete(old(routes), routes, byHost, canon, isPem);
      err := None;
    }
  }

  /** `Match`. */
  function Match(byHost: map<string, Route>, host: string, canon: Parser): Option<Route> {
    var key := canon(host);
    if key.Err? || key.value !in byHost then None else Some(byHost[key.value])
  }

  /** A host matches exactly when it has the canonical form of some route, and then that route. */
  lemma MatchIffSameForm(rs: seq<Route>, indexed: seq<Route>, byHost: map<string, Route>, host: string, canon: Parser, isPem: seq<bv8> -> bool)
    requires |indexed| == |rs| && IndexOf(indexed, byHost) && NoDuplicates(rs, canon)
    requires forall i :: 0 <= i < |rs| ==> Some(indexed[i]) == PrepareRoute(rs[i], canon, isPem)
    ensures Match(byHost, host, canon).Some? <==>
              exists i :: 0 <= i < |rs| && canon(host).Ok? && canon(rs[i].domain) == canon(host)
    ensures forall i :: 0 <= i < |rs| && canon(host).Ok? && canon(rs[i].domain) == canon(host) ==>
              Match(byHost, host, canon) == PrepareRoute(rs[i], canon, isPem)
  {
    forall i | 0 <= i < |rs| && canon(host).Ok? && canon(rs[i].domain) == canon(host)
      ensures Match(byHost, host, canon) == Some(indexed[i])
    {
      var h := canon(host).value;
      assert indexed[i].domain == h;
      assert Routed(indexed, h);
      var j :| 0 <= j < |indexed| && indexed[j] == byHost[h];
      assert Some(indexed[j]) == PrepareRoute(rs[j], canon, isPem);
      assert i == j;
    }
    if Match(byHost, host, canon).Some? {
      assert Routed(indexed, canon(host).value);
      var i :| 0 <= i < |indexed| && indexed[i].domain == canon(host).value;
      assert Some(indexed[i]) == PrepareRoute(rs[i], canon, isPem);
    }
  }

  // ----- The injectors -----

  datatype Injection = NoInjection | TokenInjection(tokens: map<string, string>)

  datatype TableError = UnreadableFile(path: string) | BadFile(path: string) | NoTokenFor(host: string) | UnknownInjector

  /** A kubernetes route needs an acceptable file at its path with a cluster on its host. */
  ghost predicate Injectable(r: Route, h: string, files: map<string, Config>) {
    match r.injector
    case NoneInjector => true
    case KubernetesInjector => r.path in files && Accepts(files[r.path]) && Known(files[r.path], files[r.path].clusters.Keys, h)
    case OtherInjector(_) => false
  }

  /** The injection fits the route: nothing for a none route, the file's own tokens for a kubernetes one. */
  ghost predicate Fits(r: Route, h: string, files: map<string, Config>, i: Injection) {
    match r.injector
    case NoneInjector => i == NoInjection
    case KubernetesInjector =>
      && r.path in files && Accepts(files[r.path])
      && i.TokenInjection? && h in i.tokens && IsTokenMap(files[r.path], i.tokens)
    case OtherInjector(_) => false
  }

  ghost predicate CacheOk(cache: map<string, map<string, string>>, files: map<string, Config>) {
    forall p <- cache :: p in files && Accepts(files[p]) && IsTokenMap(files[p], cache[p])
  }

  /** `newInjectors` with its cache of token maps by path. */
  class Injectors {
    var cache: map<string, map<string, string>>
    var byHost: map<string, Injection>

    constructor ()
      ensures cache == map[] && byHost == map[]
    {
      cache, byHost := map[], map[];
    }

    /** `cachedKubernetesInjector`. */
    method Cached(path: string, files: map<string, Config>) returns (r: Result<map<string, string>, TableError>)
      requires CacheOk(cache, files)
      modifies this`cache
      ensures CacheOk(cache, files)
      ensures r.Ok? <==> path in files && Accepts(files[path])
      ensures r.Ok? ==> IsTokenMap(files[path], r.value)
    {
      if path in cache {
        return Ok(cache[path]);
      }
      if path !in files {
        return Err(UnreadableFile(path));
      }
      var tokens := LoadTokens(files[path]);
      match tokens {
        case Err(_) => return Err(BadFile(path));
        case Ok(t) =>
          cache := cache[path := t];
          r := Ok(t);
      }
    }

    method AddRoute(h: string, route: Route, files: map<string, Config>) returns (err: Option<TableError>)
      requires CacheOk(cache, files)
      modifies this
      ensures CacheOk(cache, files)
      ensures err.None? <==> Injectable(route, h, files)
      ensures err.None? ==> exists i :: Fits(route, h, files, i) && byHost == old(byHost)[h := i]
    {
      match route.injector {
        case NoneInjector =>
          assert Fits(route, h, files, NoInjection);
          byHost := byHost[h := NoInjection];
        case KubernetesInjector =>
          var tokens := Cached(route.path, files);
          match tokens {
            case Err(e) => return Some(e);
            case Ok(t) =>
              if h !in t {
                return Some(NoTokenFor(h));
              }
              assert Fits(route, h, files, TokenInjection(t));
              byHost := byHost[h := TokenInjection(t)];
          }
        case OtherInjector(_) =>
          return Some(UnknownInjector);
      }
      err := None;
    }

    method AddRoutes(routes: map<string, Route>, files: map<string, Config>) returns (err: Option<TableError>)
      requires cache == map[] && byHost == map[]
      modifies this
      ensures err.None? <==> forall h <- routes :: Injectable(routes[h], h, files)
      ensures err.None? ==> byHost.Keys == routes.Keys && forall h <- routes :: Fits(routes[h], h, files, byHost[h])
    {
      var todo := routes.Keys;
      while todo != {}
        invariant todo <= routes.Keys && CacheOk(cache, files)
        invariant forall h <- routes.Keys - todo :: Injectable(routes[h], h, files)
        invariant byHost.Keys == routes.Keys - todo && forall h <- byHost :: Fits(routes[h], h, files, byHost[h])
        decreases |todo|
      {
        var h :| h in todo;
        err := AddRoute(h, routes[h], files);
        if err.Some? {
          return;
        }
        todo := todo - {h};
      }
      err := None;
    }
  }

  // ----- The transports -----

  /** What an upstream's certificate is checked against. */
  datatype Roots = Pinned(raw: seq<bv8>) | PublicRoots

  /** A kubernetes route with a CA trusts that CA alone, every other route the public roots. */
  function RootsFor(r: Route): Roots {
    if r.injector == KubernetesInjector && r.ca.Base64? then Pinned(r.ca.raw) else PublicRoots
  }

  /** The roots of a route can be loaded; `appends` says whether bytes hold a certificate. */
  predicate Loadable(r: Route, appends: seq<bv8> -> bool, publicRoots: bool) {
    match r.injector
    case KubernetesInjector => if r.ca.NoCA? then publicRoots else r.ca.Base64? && appends(r.ca.raw)
    case NoneInjector => publicRoots
    case OtherInjector(_) => false
  }

  /** `newHostTransport`, over the routes in any order. */
  method NewHostTransport(routes: map<string, Route>, appends: seq<bv8> -> bool, publicRoots: bool)
    returns (pools: Option<map<string, Roots>>)
    ensures pools.Some? <==> forall h <- routes :: Loadable(routes[h], appends, publicRoots)
    ensures pools.Some? ==> pools.value == map h <- routes :: RootsFor(routes[h])
  {
    var todo, filled := routes.Keys, map[];
    while todo != {}
      invariant todo <= routes.Keys && filled.Keys == routes.Keys - todo
      invariant forall h <- filled :: Loadable(routes[h], appends, publicRoots) && filled[h] == RootsFor(routes[h])
      decreases |todo|
    {
      var h :| h in todo;
      if !Loadable(routes[h], appends, publicRoots) {
        return None;
      }
      filled := filled[h := RootsFor(routes[h])];
      todo := todo - {h};
    }
    pools := Some(filled);
  }

  // ----- Requests -----

  type Headers = map<string, seq<string>>

  const AUTH_HEADERS: seq<string> := [
    "authorization", "cookie", "x-api-key", "x-goog-api-key", "proxy-authorization",
    "impersonate-user", "impersonate-group", "impersonate-uid"]

  /** Headers that carry a caller's own credentials or an identity to act as. */
  predicate Credential(name: string) { name in AUTH_HEADERS || ExtraIdentity(name) }

  predicate ExtraIdentity(name: string) { "impersonate-extra-" <= name }

  function Stripped(hs: Headers): Headers { map name <- hs | !Credential(name) :: hs[name] }

  /** Exactly the caller's own credentials and the identities to act as are taken away. */
  lemma StrippedHeaders(hs: Headers, name: string)
    ensures name in Stripped(hs) <==>
              && name in hs
              && name != "authorization" && name != "proxy-authorization" && name != "cookie"
              && name != "x-api-key" && name != "x-goog-api-key"
              && name != "impersonate-user" && name != "impersonate-group" && name != "impersonate-uid"
              && !("impersonate-extra-" <= name)
    ensures name in Stripped(hs) ==> Stripped(hs)[name] == hs[name]
  {
  }

  class Request {
    const urlHost: string
    const host: string
    const scheme: string
    const path: string
    var headers: Headers

    constructor (urlHost: string, host: string, scheme: string, path: string, headers: Headers)
      ensures this.urlHost == urlHost && this.host == host && this.scheme == scheme && this.path == path
      ensures this.headers == headers
    {
      this.urlHost, this.host, this.scheme, this.path, this.headers := urlHost, host, scheme, path, headers;
    }

    /** `requestHost`. */
    function Target(): string { if urlHost != "" then urlHost else host }

    method DeleteListed()
      modifies this
      ensures headers == map name <- old(headers) | name !in AUTH_HEADERS :: old(headers)[name]
    {
      for i := 0 to |AUTH_HEADERS|
        invariant headers == map name <- old(headers) | name !in AUTH_HEADERS[..i] :: old(headers)[name]
      {
        assert AUTH_HEADERS[..i + 1] == AUTH_HEADERS[..i] + [AUTH_HEADERS[i]];
        headers := headers - {AUTH_HEADERS[i]};
      }
      assert AUTH_HEADERS[..|AUTH_HEADERS|] == AUTH_HEADERS;
    }

    method DeleteExtras()
      modifies this
      ensures headers == map name <- old(headers) | !ExtraIdentity(name) :: old(headers)[name]
    {
      var keys := headers.Keys;
      while keys != {}
        invariant keys <= old(headers).Keys
        invariant headers == map name <- old(headers) | name in keys || !ExtraIdentity(name) :: old(headers)[name]
        decreases |keys|
      {
        var name :| name in keys;
        if ExtraIdentity(name) {
          headers := headers - {name};
        }
        keys := keys - {name};
      }
    }

    /** `stripAuthHeaders`: the list first, then the keys with the prefix, in any order. */
    method StripAuthHeaders()
      modifies this
      ensures headers == Stripped(old(headers))
    {
      DeleteListed();
      DeleteExtras();
    }
  }

  /** `routeTable`: the index, and an injection and trusted roots for each of its hosts. */
  datatype Table = Table(byHost: map<string, Route>, injections: map<string, Injection>, roots: map<string, Roots>)

  ghost predicate Sound(t: Table, files: map<string, Config>) {
    && t.injections.Keys == t.byHost.Keys
    && t.roots == (map h <- t.byHost :: RootsFor(t.byHost[h]))
    && forall h <- t.byHost :: t.byHost[h].domain == h && Fits(t.byHost[h], h, files, t.injections[h])
  }

  /** Refusals by status 403, and the one failure by status 502. */
  datatype Response = DomainNotAllowed | PathNotAllowed | HttpsRequired | InjectionFailed

  /** What is left of the caller's headers on a forwarded request. */
  function Bare(hs: Headers): Headers { Stripped(hs) - {"via", "x-forwarded-for"} }

  /** The token is the one some context of the file gives for a cluster on the host. */
  ghost predicate TokenFor(cfg: Config, h: string, token: string) {
    token != "" && exists x <- cfg.contexts :: Gives(cfg, cfg.contexts[x], h, token)
  }

  /** `Inject` of either injector: the headers it leaves, or nothing when it fails. */
  function Inject(i: Injection, host: string, hs: Headers, canon: Parser): Option<Headers> {
    match i
    case NoInjection => Some(hs)
    case TokenInjection(tokens) =>
      var key := canon(host);
      if key.Err? || key.value !in tokens || tokens[key.value] == "" then None
      else Some(hs["authorization" := ["Bearer " + tokens[key.value]]])
  }

  predicate Kube(route: Option<Route>) { route.Some? && route.value.injector == KubernetesInjector }

  function InjectFor(t: Table, domain: string, host: string, hs: Headers, canon: Parser): Option<Headers> {
    if domain in t.injections then Inject(t.injections[domain], host, hs, canon) else None
  }

  lemma InjectCommutes(i: Injection, host: string, hs: Headers, canon: Parser)
    ensures var whole, bare := Inject(i, host, hs, canon), Inject(i, host, hs - {"via", "x-forwarded-for"}, canon);
            if whole.None? then bare.None? else bare == Some(whole.value - {"via"} - {"x-forwarded-for"})
  {
    var whole, bare := Inject(i, host, hs, canon), Inject(i, host, hs - {"via", "x-forwarded-for"}, canon);
    assert |"authorization"| != |"via"| && |"authorization"| != |"x-forwarded-for"|;
    if whole.Some? {
      assert bare.value == whole.value - {"via"} - {"x-forwarded-for"};
    }
  }

  lemma NoCredentialIsLeft(hs: Headers, name: string)
    requires name in Bare(hs)
    ensures name in hs && !Credential(name) && Bare(hs)[name] == hs[name]
  {
  }

  /** On a sound table a none route forwards no credential header. */
  lemma NoneRouteCarriesNoCredential(t: Table, files: map<string, Config>, host: string, hs: Headers, canon: Parser)
    requires Sound(t, files) && Match(t.byHost, host, canon).Some?
    requires Match(t.byHost, host, canon).value.injector == NoneInjector
    ensures InjectFor(t, Match(t.byHost, host, canon).value.domain, host, Bare(hs), canon) == Some(Bare(hs))
    ensures forall name <- Bare(hs) :: !Credential(name)
  {
    var route := Match(t.byHost, host, canon).value;
    assert Fits(route, route.domain, files, t.injections[route.domain]);
    forall name <- Bare(hs) ensures !Credential(name) {
      NoCredentialIsLeft(hs, name);
    }
  }

  lemma FittingToken(r: Route, files: map<string, Config>, i: Injection)
    requires r.injector == KubernetesInjector && Fits(r, r.domain, files, i)
    ensures TokenFor(files[r.path], r.domain, i.tokens[r.domain])
  {
    var x := TokenComesFromAContext(files[r.path], i.tokens, r.domain);
  }

  /** On a sound table a kubernetes route forwards exactly the bearer token its file gives for the matched host. */
  lemma KubeRouteCarriesItsToken(t: Table, files: map<string, Config>, host: string, hs: Headers, canon: Parser)
    returns (token: string)
    requires Sound(t, files) && Match(t.byHost, host, canon).Some?
    requires Match(t.byHost, host, canon).value.injector == KubernetesInjector
    ensures var route := Match(t.byHost, host, canon).value;
            && route.path in files && TokenFor(files[route.path], route.domain, token)
            && InjectFor(t, route.domain, host, Bare(hs), canon)
               == Some(Bare(hs)["authorization" := ["Bearer " + token]])
  {
    var route := Match(t.byHost, host, canon).value;
    assert Fits(route, route.domain, files, t.injections[route.domain]);
    token := t.injections[route.domain].tokens[route.domain];
    FittingToken(route, files, t.injections[route.domain]);
  }

  /** A request that may go on carries these headers: its host's bearer token, or no credential. */
  ghost predicate Forwardable(route: Route, files: map<string, Config>, before: Headers, after: Headers) {
    match route.injector
    case NoneInjector => after == Bare(before)
    case KubernetesInjector =>
      && route.path in files
      && exists token :: TokenFor(files[route.path], route.domain, token)
                         && after == Bare(before)["authorization" := ["Bearer " + token]]
    case OtherInjector(_) => false
  }

  lemma ForwardedAsDue(t: Table, files: map<string, Config>, host: string, hs: Headers, canon: Parser)
    requires Sound(t, files) && Match(t.byHost, host, canon).Some?
    ensures var route := Match(t.byHost, host, canon).value;
            var injected := InjectFor(t, route.domain, host, Bare(hs), canon);
            injected.Some? && Forwardable(route, files, hs, injected.value)
  {
    var route := Match(t.byHost, host, canon).value;
    assert Fits(route, route.domain, files, t.injections[route.domain]);
    if route.injector == KubernetesInjector {
      var token := KubeRouteCarriesItsToken(t, files, host, hs, canon);
    } else {
      NoneRouteCarriesNoCredential(t, files, host, hs, canon);
    }
  }

  /** The injecting half of `handle`, on a request whose credentials are already gone. */
  method InjectAndForward(t: Table, route: Route, req: Request, canon: Parser) returns (resp: Option<Response>)
    modifies req
    ensures var injected := InjectFor(t, route.domain, req.Target(), old(req.headers) - {"via", "x-forwarded-for"}, canon);
            if injected.None? then resp == Some(InjectionFailed) else resp == None && req.headers == injected.value
  {
    if route.domain !in t.injections {
      return Some(InjectionFailed);
    }
    InjectCommutes(t.injections[route.domain], req.Target(), req.headers, canon);
    var injected := Inject(t.injections[route.domain], req.Target(), req.headers, canon);
    if injected.None? {
      return Some(InjectionFailed);
    }
    req.headers := injected.value - {"via"};
    req.headers := req.headers - {"x-forwarded-for"};
    resp := None;
  }

  /**
   `handle`: no response means the request goes on with the headers left in it. On a sound table
   injection does not fail, and what goes on carries exactly what is due.
   */
  method Handle(t: Table, ghost files: map<string, Config>, req: Request, canon: Parser, denied: string -> bool)
    returns (resp: Option<Response>)
    modifies req
    ensures resp == Some(DomainNotAllowed) <==> Match(t.byHost, req.Target(), canon).None?
    ensures resp == Some(PathNotAllowed) <==> Kube(Match(t.byHost, req.Target(), canon)) && denied(req.path)
    ensures resp == Some(HttpsRequired) <==>
              Kube(Match(t.byHost, req.Target(), canon)) && !denied(req.path) && req.scheme != "https"
    ensures resp == None || resp == Some(InjectionFailed) ==>
              var route := Match(t.byHost, req.Target(), canon).value;
              var injected := InjectFor(t, route.domain, req.Target(), Bare(old(req.headers)), canon);
              if resp.None? then injected == Some(req.headers) else injected == None
    ensures Sound(t, files) ==> resp != Some(InjectionFailed)
    ensures Sound(t, files) && resp.None? ==>
              Forwardable(Match(t.byHost, req.Target(), canon).value, files, old(req.headers), req.headers)
  {
    var route := Match(t.byHost, req.Target(), canon);
    if route.None? {
      return Some(DomainNotAllowed);
    }
    req.StripAuthHeaders();
    if route.value.injector == KubernetesInjector && denied(req.path) {
      return Some(PathNotAllowed);
    }
    if route.value.injector == KubernetesInjector && req.scheme != "https" {
      return Some(HttpsRequired);
    }
    if Sound(t, files) {
      ForwardedAsDue(t, files, req.Target(), old(req.headers), canon);
    }
    resp := InjectAndForward(t, route.value, req, canon);
  }

  /** There is one such token, so the host decides it. */
  lemma OneTokenPerHost(cfg: Config, h: string, token: string, other: string)
    requires Accepts(cfg) && TokenFor(cfg, h, token) && TokenFor(cfg, h, other)
    ensures token == other
  {
    var x :| x in cfg.contexts && Gives(cfg, cfg.contexts[x], h, token);
    var y :| y in cfg.contexts && Gives(cfg, cfg.contexts[y], h, other);
    assert SameToken(cfg, cfg.contexts[x], cfg.contexts[y]);
  }

  // ----- From the spec to the table -----

  /** Every host the parsers accept is its own canonical form. */
  ghost predicate Agree(parse: Parser, canon: Parser) {
    forall s :: parse(s).Ok? ==> canon(parse(s).value) == parse(s)
  }

  ghost predicate ServersAgree(cfg: Config, canon: Parser) {
    forall n <- cfg.clusters :: ServerOf(cfg.clusters[n]).Ok? ==>
      canon(ServerOf(cfg.clusters[n]).value) == ServerOf(cfg.clusters[n])
  }

  predicate CasOk(cfg: Config, isPem: seq<bv8> -> bool) {
    forall n <- cfg.clusters :: cfg.clusters[n].ca == [] || isPem(cfg.clusters[n].ca)
  }

  /** What the operator finds of the kubeconfig: an API error, nothing it may use, or a file. */
  datatype KubeFile = Unreadable | Withheld | File(cfg: Config, sanitizes: bool)

  /** The files the proxy finds mounted. */
  function Mounted(file: KubeFile, path: string): map<string, Config> { if file.File? then map[path := file.cfg] else map[] }

  /** A route the operator may emit: already in the form the proxy stores, with a token behind it if kubernetes. */
  ghost predicate Emittable(r: Route, files: map<string, Config>, canon: Parser, isPem: seq<bv8> -> bool) {
    && PrepareRoute(r, canon, isPem) == Some(r)
    && Injectable(r, r.domain, files)
  }

  lemma KubeRouteIsEmittable(cfg: Config, path: string, r: Route, canon: Parser, isPem: seq<bv8> -> bool)
    requires path != "" && Accepts(cfg) && CasOk(cfg, isPem) && ServersAgree(cfg, canon) && FromCluster(cfg, path, r)
    ensures Emittable(r, map[path := cfg], canon, isPem)
  {
    var n :| n in cfg.clusters && ServerOf(cfg.clusters[n]).Ok? && r == RouteOf(cfg.clusters[n], path);
    assert Known(cfg, cfg.clusters.Keys, r.domain);
  }

  lemma NoneRouteIsEmittable(targets: seq<Target>, parse: Parser, h: string, files: map<string, Config>, canon: Parser, isPem: seq<bv8> -> bool)
    requires Agree(parse, canon) && Listed(targets, parse, h)
    ensures Emittable(NoneRoute(h), files, canon, isPem)
  {
    var i :| 0 <= i < |targets| && targets[i].Allowlist? && Lists(targets[i].domains, parse, h);
    var j :| 0 <= j < |targets[i].domains| && parse(targets[i].domains[j]) == Ok(h);
    assert canon(parse(targets[i].domains[j]).value) == Ok(h);
  }

  /** Every route comes from a cluster of the acceptable file. */
  ghost predicate FromFile(file: KubeFile, path: string, kube: seq<Route>) {
    forall r <- kube :: file.File? && Accepts(file.cfg) && FromCluster(file.cfg, path, r)
  }

  ghost predicate FileOk(file: KubeFile, canon: Parser, isPem: seq<bv8> -> bool) {
    file.File? ==> CasOk(file.cfg, isPem) && ServersAgree(file.cfg, canon)
  }

  lemma SurvivorsAreEmittable(targets: seq<Target>, kube: seq<Route>, parse: Parser, path: string, file: KubeFile, canon: Parser, isPem: seq<bv8> -> bool, r: Route)
    requires path != "" && FileOk(file, canon, isPem) && Agree(parse, canon) && FromFile(file, path, kube)
    requires Survives(targets, kube, parse, r)
    ensures Emittable(r, Mounted(file, path), canon, isPem)
  {
    if Routed(kube, r.domain) {
      KubeRouteIsEmittable(file.cfg, path, r, canon, isPem);
    } else {
      NoneRouteIsEmittable(targets, parse, r.domain, Mounted(file, path), canon, isPem);
    }
  }

  /** Every cluster of an acceptable file has a route. */
  ghost predicate CoversFile(file: KubeFile, kube: seq<Route>) {
    file.File? && Accepts(file.cfg) ==> forall n <- file.cfg.clusters :: ServerRouted(file.cfg.clusters[n], kube)
  }

  /** What makes `loadProxyBuild` fail: an unknown target, or a kubernetes target whose file cannot be used at all. */
  predicate BuildFails(targets: seq<Target>, file: KubeFile) {
    || UnknownTarget in targets
    || (KubernetesTarget in targets && (file.Unreadable? || (file.File? && Accepts(file.cfg) && !file.sanitizes)))
  }

  /** The kubernetes part of `loadProxyBuild`: each kubernetes target adds the routes of an acceptable file, or none. */
  method KubernetesRoutes(targets: seq<Target>, file: KubeFile, path: string) returns (kube: Option<seq<Route>>)
    requires path != ""
    ensures kube.None? <==> BuildFails(targets, file)
    ensures kube.Some? ==> AllKubernetes(kube.value) && FromFile(file, path, kube.value)
    ensures kube.Some? && KubernetesTarget in targets ==> CoversFile(file, kube.value)
  {
    var routes := [];
    for i := 0 to |targets|
      invariant FromFile(file, path, routes) && AllKubernetes(routes)
      invariant !BuildFails(targets[..i], file)
      invariant KubernetesTarget in targets[..i] ==> CoversFile(file, routes)
    {
      assert targets[..i + 1] == targets[..i] + [targets[i]];
      match targets[i] {
        case Allowlist(_) =>
        case UnknownTarget => return None;
        case KubernetesTarget =>
          var part := RoutesOfFile(file, path);
          match part {
            case None => return None;
            case Some(rs) =>
              MoreKubeRoutes(file, path, routes, rs);
              routes := routes + rs;
          }
      }
    }
    assert targets[..|targets|] == targets;
    kube := Some(routes);
  }

  /** `kubernetesRoutes`. */
  method RoutesOfFile(file: KubeFile, path: string) returns (part: Option<seq<Route>>)
    requires path != ""
    ensures part.None? <==> BuildFails([KubernetesTarget], file)
    ensures part.Some? ==> FromFile(file, path, part.value) && CoversFile(file, part.value)
  {
    match file {
      case Unreadable => return None;
      case Withheld => return Some([]);
      case File(cfg, sanitizes) =>
        var err := Validate(cfg);
        if err.Some? {
          return Some([]);
        }
        if !sanitizes {
          return None;
        }
        var built := BuildProxyRoutes(cfg, path);
        match built {
          case Err(_) => return None;
          case Ok(rs) =>
            RoutesComeFromTheFile(cfg, sanitizes, path, rs);
            part := Some(rs);
        }
    }
  }

  lemma RoutesComeFromTheFile(cfg: Config, sanitizes: bool, path: string, rs: seq<Route>)
    requires Accepts(cfg) && KubeRoutes(cfg, cfg.clusters.Keys, path, rs)
    ensures FromFile(File(cfg, sanitizes), path, rs) && CoversFile(File(cfg, sanitizes), rs)
  {
    forall n <- cfg.clusters ensures ServerRouted(cfg.clusters[n], rs) {
    }
  }

  lemma MoreKubeRoutes(file: KubeFile, path: string, kube: seq<Route>, part: seq<Route>)
    requires AllKubernetes(kube) && FromFile(file, path, kube) && FromFile(file, path, part) && CoversFile(file, part)
    ensures AllKubernetes(kube + part) && FromFile(file, path, kube + part) && CoversFile(file, kube + part)
  {
    forall i | 0 <= i < |part| ensures part[i].injector == KubernetesInjector {
      assert part[i] in part;
    }
    if file.File? && Accepts(file.cfg) {
      forall n <- file.cfg.clusters ensures ServerRouted(file.cfg.clusters[n], kube + part) {
        assert ServerRouted(file.cfg.clusters[n], part);
        RoutedConcat(kube, part, ServerOf(file.cfg.clusters[n]).value);
      }
    }
  }

  lemma EmittableListIsAccepted(rs: seq<Route>, files: map<string, Config>, canon: Parser, isPem: seq<bv8> -> bool)
    requires Sorted(rs) && forall r <- rs :: Emittable(r, files, canon, isPem)
    ensures AllPrepare(rs, canon, isPem) && NoDuplicates(rs, canon)
  {
    SortedIsDistinct(rs);
    forall i | 0 <= i < |rs| ensures PrepareRoute(rs[i], canon, isPem) == Some(rs[i]) {
      assert rs[i] in rs;
    }
  }

  /** A certificate the index accepts is one the transports can load. */
  ghost predicate PemLoads(isPem: seq<bv8> -> bool, appends: seq<bv8> -> bool) { forall raw :: isPem(raw) ==> appends(raw) }

  /** The public roots are there, or no route needs them. */
  predicate RootsSuffice(rs: seq<Route>, publicRoots: bool) { publicRoots || forall r <- rs :: RootsFor(r).Pinned? }

  /**
   The operator's route list taken by the proxy. Whatever the spec and the kubeconfig, a non-empty list
   is indexed without a change, every kubernetes route finds its token and every host its roots.
   */
  method BuildTable(targets: seq<Target>, file: KubeFile, path: string, parse: Parser, canon: Parser,
                    isPem: seq<bv8> -> bool, appends: seq<bv8> -> bool, publicRoots: bool)
    returns (built: Option<(seq<Route>, seq<Route>)>, table: Option<Table>)
    requires path != "" && FileOk(file, canon, isPem) && Agree(parse, canon) && PemLoads(isPem, appends)
    ensures built.None? <==> BuildFails(targets, file)
    ensures built.None? ==> table.None?
    ensures built.Some? ==>
              var (kube, kept) := built.value;
              && AllKubernetes(kube) && FromFile(file, path, kube)
              && (KubernetesTarget in targets ==> CoversFile(file, kube))
              && Sorted(kept) && (forall r :: r in kept <==> Survives(targets, kube, parse, r))
              && (table.Some? <==> kept != [] && RootsSuffice(kept, publicRoots))
              && (table.Some? ==> Sound(table.value, Mounted(file, path)) && IndexOf(kept, table.value.byHost))
  {
    var kube := KubernetesRoutes(targets, file, path);
    if kube.None? {
      return None, None;
    }
    var kept, conflicts, problems := CollectProxyRoutes(targets, kube.value, parse);
    built := Some((kube.value, kept));
    if kept == [] {
      return built, None;
    }
    forall r <- kept ensures Emittable(r, Mounted(file, path), canon, isPem) {
      SurvivorsAreEmittable(targets, kube.value, parse, path, file, canon, isPem, r);
    }
    EmittableListIsAccepted(kept, Mounted(file, path), canon, isPem);
    table := Load(kept, Mounted(file, path), canon, isPem, appends, publicRoots);
  }

  lemma AllLoadableIff(rs: seq<Route>, byHost: map<string, Route>, files: map<string, Config>, canon: Parser,
                       isPem: seq<bv8> -> bool, appends: seq<bv8> -> bool, publicRoots: bool)
    requires IndexOf(rs, byHost) && Distinct(rs) && PemLoads(isPem, appends)
    requires forall r <- rs :: Emittable(r, files, canon, isPem)
    ensures (forall h <- byHost :: Loadable(byHost[h], appends, publicRoots)) <==> RootsSuffice(rs, publicRoots)
  {
    forall r <- rs ensures Loadable(r, appends, publicRoots) <==> publicRoots || RootsFor(r).Pinned? {
      assert Emittable(r, files, canon, isPem);
    }
    forall r <- rs ensures r.domain in byHost && byHost[r.domain] == r {
      var i :| 0 <= i < |rs| && rs[i] == r;
      assert Routed(rs, r.domain);
      var j :| 0 <= j < |rs| && rs[j] == byHost[r.domain];
      assert i == j;
    }
  }

  /** `ParseConfig` and `newRouteTable` on a list the operator emitted: they fail only for want of public roots. */
  method Load(rs: seq<Route>, files: map<string, Config>, canon: Parser, isPem: seq<bv8> -> bool,
              appends: seq<bv8> -> bool, publicRoots: bool) returns (table: Option<Table>)
    requires rs != [] && Sorted(rs) && AllPrepare(rs, canon, isPem) && NoDuplicates(rs, canon) && PemLoads(isPem, appends)
    requires forall r <- rs :: Emittable(r, files, canon, isPem)
    ensures table.Some? <==> RootsSuffice(rs, publicRoots)
    ensures table.Some? ==> Sound(table.value, files) && IndexOf(rs, table.value.byHost)
  {
    var config := new ProxyConfig(rs);
    var err := config.Index(canon, isPem);
    forall i | 0 <= i < |rs| ensures config.routes[i] == rs[i] {
      assert rs[i] in rs;
    }
    assert config.routes == rs;
    SortedIsDistinct(rs);
    AllLoadableIff(rs, config.byHost, files, canon, isPem, appends, publicRoots);
    forall h <- config.byHost ensures Injectable(config.byHost[h], h, files) {
      assert Emittable(config.byHost[h], files, canon, isPem);
    }
    var pools := NewHostTransport(config.byHost, appends, publicRoots);
    if pools.None? {
      return None;
    }
    var injectors := new Injectors();
    var failed := injectors.AddRoutes(config.byHost, files);
    table := if err.Some? || failed.Some? then None else Some(Table(config.byHost, injectors.byHost, pools.value));
  }

  // ----- The real parsers -----

  /** Every server in the file is what `HostPortFromServerURL` makes of some URL. */
  ghost predicate FromURLs(cfg: Config, isIP: string -> bool) {
    forall n <- cfg.clusters :: cfg.clusters[n].server.Some? ==>
      exists u :: cfg.clusters[n].server.value == HostPortFromServerURL(u, isIP)
  }

  function AllowlistParser(isIP: string -> bool): Parser { s => ParseAllowlistDomain(s, isIP) }

  /** The two canonicalisations agree: what the operator emits is what the proxy looks up. */
  lemma ParsersAgree(isIP: string -> bool)
    ensures Agree(AllowlistParser(isIP), CanonicalHostPort)
  {
    forall s | AllowlistParser(isIP)(s).Ok? ensures CanonicalHostPort(AllowlistParser(isIP)(s).value) == AllowlistParser(isIP)(s) {
      var host, port := AllowlistRouteShape(s, isIP);
      CanonicalJoin(host, port);
    }
  }

  lemma ServersFromURLsAgree(cfg: Config, isIP: string -> bool)
    requires FromURLs(cfg, isIP)
    ensures ServersAgree(cfg, CanonicalHostPort)
  {
    forall n <- cfg.clusters | ServerOf(cfg.clusters[n]).Ok?
      ensures CanonicalHostPort(ServerOf(cfg.clusters[n]).value) == ServerOf(cfg.clusters[n])
    {
      var u :| cfg.clusters[n].server.value == HostPortFromServerURL(u, isIP);
      var host, port := ServerRouteIsCanonical(u, isIP);
    }
  }

  const KUBECONFIG_PATH := "/etc/kube/config"

  /** The pipeline with the program's own parsers and mount path. */
  method ProxyFor(targets: seq<Target>, file: KubeFile, isIP: string -> bool,
                  isPem: seq<bv8> -> bool, appends: seq<bv8> -> bool, publicRoots: bool)
    returns (built: Option<(seq<Route>, seq<Route>)>, table: Option<Table>)
    requires file.File? ==> FromURLs(file.cfg, isIP) && CasOk(file.cfg, isPem)
    requires PemLoads(isPem, appends)
    ensures built.None? <==> BuildFails(targets, file)
    ensures built.None? ==> table.None?
    ensures built.Some? ==>
              var (kube, kept) := built.value;
              && AllKubernetes(kube) && FromFile(file, KUBECONFIG_PATH, kube)
              && (KubernetesTarget in targets ==> CoversFile(file, kube))
              && Sorted(kept) && (forall r :: r in kept <==> Survives(targets, kube, AllowlistParser(isIP), r))
              && (table.Some? <==> kept != [] && RootsSuffice(kept, publicRoots))
              && (table.Some? ==> Sound(table.value, Mounted(file, KUBECONFIG_PATH)) && IndexOf(kept, table.value.byHost))
  {
    ParsersAgree(isIP);
    if file.File? {
      ServersFromURLsAgree(file.cfg, isIP);
    }
    built, table := BuildTable(targets, file, KUBECONFIG_PATH, AllowlistParser(isIP), CanonicalHostPort, isPem, appends, publicRoots);
  }
}
