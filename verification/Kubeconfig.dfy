/**
 Kubeconfig validation: the loops over its maps, in whatever order the runtime picks, against the
 declarative rule for an acceptable file.
 */
module Kubeconfig {
  import opened Prelude
  import opened HostPort

  /** The ways of authenticating that a user may set, besides a token. */
  datatype User = User(certificate: bool, exec: bool, provider: bool, basic: bool, tokenFile: bool, token: string)

  /** `server` is absent when the text is empty, and otherwise what `HostPortFromServerURL` makes of it. */
  datatype Cluster = Cluster(server: Option<Result<string, HostError>>, caFile: bool, insecure: bool, ca: seq<bv8>)

  datatype Context = Context(cluster: string, user: string)

  datatype Config = Config(clusters: map<string, Cluster>, users: map<string, User>, contexts: map<string, Context>)

  datatype KubeError =
    | NoClusters
    | BadUser(name: string)
    | BadCluster(name: string)
    | BadServer(name: string, why: HostError)
    | ConflictingCA(host: string)
    | UnknownCluster(name: string)
    | UnknownUser(name: string)
    | ConflictingTokens(name: string, host: string)
    | NoContext(name: string)
    | NoToken(host: string)

  // ----- The declarative rule -----

  predicate TokenOnly(u: User) {
    !u.certificate && !u.exec && !u.provider && !u.basic && !u.tokenFile && u.token != ""
  }

  predicate Usable(c: Cluster) { c.server.Some? && !c.caFile && !c.insecure }

  /** An empty server text parses as a URL without a scheme. */
  function ServerOf(c: Cluster): Result<string, HostError> {
    if c.server.None? then Err(NotHttps) else c.server.value
  }

  predicate GoodCluster(c: Cluster) { Usable(c) && ServerOf(c).Ok? }

  predicate UsersOk(cfg: Config) { forall n <- cfg.users :: TokenOnly(cfg.users[n]) }

  predicate ClustersOk(cfg: Config) {
    forall n <- cfg.clusters :: GoodCluster(cfg.clusters[n])
  }

  /** Clusters on one server carry one CA. */
  predicate SameCA(c: Cluster, d: Cluster) { ServerOf(c) == ServerOf(d) ==> c.ca == d.ca }

  predicate OneCA(cfg: Config) {
    forall m <- cfg.clusters, n <- cfg.clusters {:trigger SameCA(cfg.clusters[m], cfg.clusters[n])} ::
      SameCA(cfg.clusters[m], cfg.clusters[n])
  }

  predicate Resolves(cfg: Config, x: Context) { x.cluster in cfg.clusters && x.user in cfg.users }

  predicate ContextsOk(cfg: Config) { forall x <- cfg.contexts :: Resolves(cfg, cfg.contexts[x]) }

  function HostOfContext(cfg: Config, x: Context): Result<string, HostError>
    requires Resolves(cfg, x)
  {
    ServerOf(cfg.clusters[x.cluster])
  }

  function TokenOfContext(cfg: Config, x: Context): string
    requires Resolves(cfg, x)
  {
    cfg.users[x.user].token
  }

  predicate SameToken(cfg: Config, x: Context, y: Context) {
    Resolves(cfg, x) && Resolves(cfg, y) && HostOfContext(cfg, x) == HostOfContext(cfg, y)
    ==> TokenOfContext(cfg, x) == TokenOfContext(cfg, y)
  }

  /** Contexts on one server carry one token. */
  predicate OneToken(cfg: Config) {
    forall x <- cfg.contexts, y <- cfg.contexts {:trigger SameToken(cfg, cfg.contexts[x], cfg.contexts[y])} ::
      SameToken(cfg, cfg.contexts[x], cfg.contexts[y])
  }

  predicate Covered(cfg: Config, cluster: string) {
    exists x <- cfg.contexts :: cfg.contexts[x].cluster == cluster
  }

  predicate AllCovered(cfg: Config) { forall n <- cfg.clusters :: Covered(cfg, n) }

  predicate Accepts(cfg: Config) {
    && |cfg.clusters| != 0
    && UsersOk(cfg)
    && ClustersOk(cfg)
    && OneCA(cfg)
    && ContextsOk(cfg)
    && OneToken(cfg)
    && AllCovered(cfg)
  }

  /** What each error says of the file. A server without a token is never reported. */
  predicate Fault(cfg: Config, e: KubeError) {
    match e
    case NoClusters => |cfg.clusters| == 0
    case BadUser(n) => n in cfg.users && !TokenOnly(cfg.users[n])
    case BadCluster(n) => n in cfg.clusters && !Usable(cfg.clusters[n])
    case BadServer(n, why) => n in cfg.clusters && ServerOf(cfg.clusters[n]) == Err(why)
    case ConflictingCA(host) =>
      exists m <- cfg.clusters, n <- cfg.clusters ::
        !SameCA(cfg.clusters[m], cfg.clusters[n]) && ServerOf(cfg.clusters[m]) == Ok(host)
    case UnknownCluster(n) => n in cfg.contexts && cfg.contexts[n].cluster !in cfg.clusters
    case UnknownUser(n) => n in cfg.contexts && cfg.contexts[n].user !in cfg.users
    case ConflictingTokens(n, host) =>
      && n in cfg.contexts && Resolves(cfg, cfg.contexts[n]) && HostOfContext(cfg, cfg.contexts[n]) == Ok(host)
      && exists m <- cfg.contexts :: !SameToken(cfg, cfg.contexts[m], cfg.contexts[n])
    case NoContext(n) => n in cfg.clusters && !Covered(cfg, n)
    case NoToken(_) => false
  }

  /** A file with a fault breaks the rule. */
  lemma FaultsBreakTheRule(cfg: Config, e: KubeError)
    requires Fault(cfg, e)
    ensures !Accepts(cfg)
  {
  }

  // ----- The code -----

  datatype Identity = Identity(token: string, ca: seq<bv8>)

  /** The cluster is good, and its server is in the hosts map with its CA. */
  predicate IsIndexed(c: Cluster, hosts: map<string, Identity>) {
    GoodCluster(c) && ServerOf(c).value in hosts && hosts[ServerOf(c).value].ca == c.ca
  }

  ghost predicate Known(cfg: Config, done: set<string>, h: string) {
    exists n <- done :: n in cfg.clusters && ServerOf(cfg.clusters[n]) == Ok(h)
  }

  /** The hosts map holds the servers of these clusters, each with its CA, and nothing else. */
  ghost predicate Indexed(cfg: Config, done: set<string>, hosts: map<string, Identity>) {
    && done <= cfg.clusters.Keys
    && (forall n <- done {:trigger IsIndexed(cfg.clusters[n], hosts)} :: IsIndexed(cfg.clusters[n], hosts))
    && (forall h <- hosts {:trigger Known(cfg, done, h)} :: Known(cfg, done, h))
  }

  predicate Unassigned(hosts: map<string, Identity>) { forall h <- hosts :: hosts[h].token == "" }

  lemma KnownGrows(cfg: Config, done: set<string>, n: string, h: string)
    requires Known(cfg, done, h)
    ensures Known(cfg, done + {n}, h)
  {
    var m :| m in done && m in cfg.clusters && ServerOf(cfg.clusters[m]) == Ok(h);
    assert m in done + {n};
  }

  lemma IndexStep(cfg: Config, done: set<string>, n: string, hosts: map<string, Identity>, next: map<string, Identity>)
    requires Indexed(cfg, done, hosts) && n in cfg.clusters && IsIndexed(cfg.clusters[n], next)
    requires next == hosts
          || (ServerOf(cfg.clusters[n]).value !in hosts
              && next == hosts[ServerOf(cfg.clusters[n]).value := Identity("", cfg.clusters[n].ca)])
    ensures Indexed(cfg, done + {n}, next)
  {
    forall m <- done + {n} ensures IsIndexed(cfg.clusters[m], next) {
      if m != n {
        assert IsIndexed(cfg.clusters[m], hosts);
      }
    }
    forall h <- next ensures Known(cfg, done + {n}, h) {
      if h in hosts {
        KnownGrows(cfg, done, n, h);
      } else {
        assert n in done + {n};
      }
    }
  }

  /** A host indexed with another CA: some cluster already there disagrees with this one. */
  lemma IndexConflict(cfg: Config, done: set<string>, n: string, hosts: map<string, Identity>, h: string)
    requires Indexed(cfg, done, hosts) && n in cfg.clusters && ServerOf(cfg.clusters[n]) == Ok(h)
    requires h in hosts && hosts[h].ca != cfg.clusters[n].ca
    ensures Fault(cfg, ConflictingCA(h))
  {
    assert Known(cfg, done, h);
    var m :| m in done && m in cfg.clusters && ServerOf(cfg.clusters[m]) == Ok(h);
    assert IsIndexed(cfg.clusters[m], hosts);
    assert !SameCA(cfg.clusters[m], cfg.clusters[n]);
  }

  lemma IndexedMeansOneCA(cfg: Config, hosts: map<string, Identity>)
    requires Indexed(cfg, cfg.clusters.Keys, hosts)
    ensures ClustersOk(cfg) && OneCA(cfg)
  {
    forall n <- cfg.clusters ensures GoodCluster(cfg.clusters[n]) {
      assert IsIndexed(cfg.clusters[n], hosts);
    }
    forall m <- cfg.clusters, n <- cfg.clusters ensures SameCA(cfg.clusters[m], cfg.clusters[n]) {
      assert IsIndexed(cfg.clusters[m], hosts) && IsIndexed(cfg.clusters[n], hosts);
    }
  }

  /** The context resolves and its host has the context's token. */
  predicate IsAssigned(cfg: Config, x: Context, hosts: map<string, Identity>) {
    && Resolves(cfg, x) && HostOfContext(cfg, x).Ok?
    && HostOfContext(cfg, x).value in hosts && hosts[HostOfContext(cfg, x).value].token == TokenOfContext(cfg, x)
  }

  predicate Gives(cfg: Config, x: Context, h: string, token: string) {
    Resolves(cfg, x) && HostOfContext(cfg, x) == Ok(h) && TokenOfContext(cfg, x) == token
  }

  ghost predicate Sourced(cfg: Config, done: set<string>, h: string, token: string) {
    token == "" || exists x <- done :: x in cfg.contexts && Gives(cfg, cfg.contexts[x], h, token)
  }

  /** Each of these contexts agrees with its host's token; a token that is set comes from one of them. */
  ghost predicate Assigned(cfg: Config, done: set<string>, hosts: map<string, Identity>) {
    && done <= cfg.contexts.Keys
    && (forall x <- done {:trigger IsAssigned(cfg, cfg.contexts[x], hosts)} :: IsAssigned(cfg, cfg.contexts[x], hosts))
    && (forall h <- hosts {:trigger Sourced(cfg, done, h, hosts[h].token)} :: Sourced(cfg, done, h, hosts[h].token))
  }

  lemma SourcedGrows(cfg: Config, done: set<string>, x: string, h: string, token: string)
    requires Sourced(cfg, done, h, token)
    ensures Sourced(cfg, done + {x}, h, token)
  {
    if token != "" {
      var y :| y in done && y in cfg.contexts && Gives(cfg, cfg.contexts[y], h, token);
      assert y in done + {x};
    }
  }

  /** Giving a host its first token, or finding it already there. */
  lemma AssignStep(cfg: Config, done: set<string>, x: string, hosts: map<string, Identity>, next: map<string, Identity>, h: string)
    requires UsersOk(cfg) && Assigned(cfg, done, hosts) && x in cfg.contexts && Resolves(cfg, cfg.contexts[x])
    requires HostOfContext(cfg, cfg.contexts[x]) == Ok(h) && h in hosts
    requires hosts[h].token == "" || hosts[h].token == TokenOfContext(cfg, cfg.contexts[x])
    requires next == hosts[h := hosts[h].(token := TokenOfContext(cfg, cfg.contexts[x]))]
    ensures Assigned(cfg, done + {x}, next)
  {
    forall y <- done + {x} ensures IsAssigned(cfg, cfg.contexts[y], next) {
      if y in done {
        assert IsAssigned(cfg, cfg.contexts[y], hosts);
        assert TokenOnly(cfg.users[cfg.contexts[y].user]);
      }
    }
    forall k <- next ensures Sourced(cfg, done + {x}, k, next[k].token) {
      if k != h {
        assert Sourced(cfg, done, k, hosts[k].token);
        SourcedGrows(cfg, done, x, k, hosts[k].token);
      } else {
        assert x in done + {x} && Gives(cfg, cfg.contexts[x], h, next[h].token);
      }
    }
  }

  lemma TokensKeepTheIndex(cfg: Config, hosts: map<string, Identity>, next: map<string, Identity>)
    requires Indexed(cfg, cfg.clusters.Keys, hosts)
    requires next.Keys == hosts.Keys && forall h <- hosts :: next[h].ca == hosts[h].ca
    ensures Indexed(cfg, cfg.clusters.Keys, next)
  {
    forall n <- cfg.clusters ensures IsIndexed(cfg.clusters[n], next) {
      assert IsIndexed(cfg.clusters[n], hosts);
    }
    forall h <- next ensures Known(cfg, cfg.clusters.Keys, h) {
      assert h in hosts;
    }
  }

  /** A host with another token: some context looked at before disagrees with this one. */
  lemma AssignConflict(cfg: Config, done: set<string>, x: string, hosts: map<string, Identity>, h: string)
    requires Assigned(cfg, done, hosts) && x in cfg.contexts && Resolves(cfg, cfg.contexts[x])
    requires HostOfContext(cfg, cfg.contexts[x]) == Ok(h) && h in hosts
    requires hosts[h].token != "" && hosts[h].token != TokenOfContext(cfg, cfg.contexts[x])
    ensures Fault(cfg, ConflictingTokens(x, h)) && !OneToken(cfg)
  {
    assert Sourced(cfg, done, h, hosts[h].token);
    var y :| y in done && y in cfg.contexts && Gives(cfg, cfg.contexts[y], h, hosts[h].token);
    assert !SameToken(cfg, cfg.contexts[y], cfg.contexts[x]);
  }

  lemma AssignedMeansOneToken(cfg: Config, hosts: map<string, Identity>)
    requires Assigned(cfg, cfg.contexts.Keys, hosts)
    ensures ContextsOk(cfg) && OneToken(cfg)
  {
    forall x <- cfg.contexts ensures Resolves(cfg, cfg.contexts[x]) {
      assert IsAssigned(cfg, cfg.contexts[x], hosts);
    }
    forall x <- cfg.contexts, y <- cfg.contexts ensures SameToken(cfg, cfg.contexts[x], cfg.contexts[y]) {
      assert IsAssigned(cfg, cfg.contexts[x], hosts) && IsAssigned(cfg, cfg.contexts[y], hosts);
    }
  }

  /** Once every cluster is covered, no host is left without a token. */
  lemma EveryHostHasAToken(cfg: Config, hosts: map<string, Identity>, h: string)
    requires UsersOk(cfg) && Indexed(cfg, cfg.clusters.Keys, hosts) && Assigned(cfg, cfg.contexts.Keys, hosts)
    requires AllCovered(cfg) && h in hosts
    ensures hosts[h].token != ""
  {
    assert Known(cfg, cfg.clusters.Keys, h);
    var n :| n in cfg.clusters && ServerOf(cfg.clusters[n]) == Ok(h);
    assert Covered(cfg, n);
    var x :| x in cfg.contexts && cfg.contexts[x].cluster == n;
    assert IsAssigned(cfg, cfg.contexts[x], hosts);
    assert TokenOnly(cfg.users[cfg.contexts[x].user]);
  }

  /** The identities by host, filled by one loop and completed by the next. */
  class Hosts {
    var byHost: map<string, Identity>

    constructor ()
      ensures byHost == map[]
    {
      byHost := map[];
    }

    /** One turn of `indexClusters`. */
    method IndexOne(cfg: Config, n: string, ghost done: set<string>) returns (err: Option<KubeError>)
      requires n in cfg.clusters && Indexed(cfg, done, byHost) && Unassigned(byHost)
      modifies this
      ensures err.Some? ==> Fault(cfg, err.value) && !(ClustersOk(cfg) && OneCA(cfg))
      ensures err.None? ==> Indexed(cfg, done + {n}, byHost) && Unassigned(byHost)
    {
      var c := cfg.clusters[n];
      if !Usable(c) {
        return Some(BadCluster(n));
      }
      var server := ServerOf(c);
      if server.Err? {
        return Some(BadServer(n, server.error));
      }
      ghost var before := byHost;
      if server.value !in byHost {
        byHost := byHost[server.value := Identity("", c.ca)];
      } else if byHost[server.value].ca != c.ca {
        IndexConflict(cfg, done, n, byHost, server.value);
        return Some(ConflictingCA(server.value));
      }
      IndexStep(cfg, done, n, before, byHost);
      err := None;
    }

    method IndexClusters(cfg: Config) returns (err: Option<KubeError>)
      requires byHost == map[]
      modifies this
      ensures err.None? <==> ClustersOk(cfg) && OneCA(cfg)
      ensures err.None? ==> Indexed(cfg, cfg.clusters.Keys, byHost) && Unassigned(byHost)
      ensures err.Some? ==> Fault(cfg, err.value)
    {
      var todo := cfg.clusters.Keys;
      while todo != {}
        invariant todo <= cfg.clusters.Keys
        invariant Indexed(cfg, cfg.clusters.Keys - todo, byHost) && Unassigned(byHost)
        decreases |todo|
      {
        var n :| n in todo;
        err := IndexOne(cfg, n, cfg.clusters.Keys - todo);
        if err.Some? {
          return;
        }
        assert cfg.clusters.Keys - todo + {n} == cfg.clusters.Keys - (todo - {n});
        todo := todo - {n};
      }
      assert cfg.clusters.Keys - todo == cfg.clusters.Keys;
      IndexedMeansOneCA(cfg, byHost);
      err := None;
    }

    /** One turn of the context loop in `assignContextTokens`. */
    method AssignOne(cfg: Config, x: string, ghost done: set<string>) returns (err: Option<KubeError>)
      requires x in cfg.contexts && UsersOk(cfg)
      requires Indexed(cfg, cfg.clusters.Keys, byHost) && Assigned(cfg, done, byHost)
      modifies this
      ensures err.Some? ==> Fault(cfg, err.value) && !(ContextsOk(cfg) && OneToken(cfg))
      ensures err.None? ==> Indexed(cfg, cfg.clusters.Keys, byHost) && Assigned(cfg, done + {x}, byHost)
      ensures err.None? ==> cfg.contexts[x].cluster in cfg.clusters
    {
      var ctx := cfg.contexts[x];
      if ctx.cluster !in cfg.clusters {
        return Some(UnknownCluster(x));
      }
      if ctx.user !in cfg.users {
        return Some(UnknownUser(x));
      }
      assert IsIndexed(cfg.clusters[ctx.cluster], byHost);
      var host, token := ServerOf(cfg.clusters[ctx.cluster]).value, cfg.users[ctx.user].token;
      ghost var before := byHost;
      var id := byHost[host];
      if id.token == "" {
        byHost := byHost[host := id.(token := token)];
      } else if id.token != token {
        AssignConflict(cfg, done, x, byHost, host);
        return Some(ConflictingTokens(x, host));
      }
      assert byHost == before[host := before[host].(token := token)];
      AssignStep(cfg, done, x, before, byHost, host);
      TokensKeepTheIndex(cfg, before, byHost);
      err := None;
    }

    method AssignContextTokens(cfg: Config) returns (err: Option<KubeError>)
      requires UsersOk(cfg) && Indexed(cfg, cfg.clusters.Keys, byHost) && Unassigned(byHost)
      modifies this
      ensures err.None? <==> ContextsOk(cfg) && OneToken(cfg) && AllCovered(cfg)
      ensures err.Some? ==> Fault(cfg, err.value)
      ensures err.None? ==> Indexed(cfg, cfg.clusters.Keys, byHost) && Assigned(cfg, cfg.contexts.Keys, byHost)
    {
      var covered := {};
      var todo := cfg.contexts.Keys;
      while todo != {}
        invariant todo <= cfg.contexts.Keys
        invariant Indexed(cfg, cfg.clusters.Keys, byHost) && Assigned(cfg, cfg.contexts.Keys - todo, byHost)
        invariant covered == set x <- cfg.contexts.Keys - todo :: cfg.contexts[x].cluster
        decreases |todo|
      {
        var x :| x in todo;
        err := AssignOne(cfg, x, cfg.contexts.Keys - todo);
        if err.Some? {
          return;
        }
        assert cfg.contexts.Keys - todo + {x} == cfg.contexts.Keys - (todo - {x});
        covered := covered + {cfg.contexts[x].cluster};
        todo := todo - {x};
      }
      assert cfg.contexts.Keys - todo == cfg.contexts.Keys;
      AssignedMeansOneToken(cfg, byHost);
      err := CheckCovered(cfg, covered);
      if err.None? {
        err := CheckTokens(cfg);
      }
    }

    /** The last loop of `assignContextTokens`: it never finds anything. */
    method CheckTokens(cfg: Config) returns (err: Option<KubeError>)
      requires UsersOk(cfg) && AllCovered(cfg)
      requires Indexed(cfg, cfg.clusters.Keys, byHost) && Assigned(cfg, cfg.contexts.Keys, byHost)
      ensures err.None?
    {
      var todo := byHost.Keys;
      while todo != {}
        invariant todo <= byHost.Keys
        decreases |todo|
      {
        var h :| h in todo;
        EveryHostHasAToken(cfg, byHost, h);
        if byHost[h].token == "" {
          return Some(NoToken(h));
        }
        todo := todo - {h};
      }
      err := None;
    }
  }

  method CheckCovered(cfg: Config, covered: set<string>) returns (err: Option<KubeError>)
    requires covered == set x <- cfg.contexts.Keys :: cfg.contexts[x].cluster
    ensures err.None? <==> AllCovered(cfg)
    ensures err.Some? ==> Fault(cfg, err.value)
  {
    var todo := cfg.clusters.Keys;
    while todo != {}
      invariant todo <= cfg.clusters.Keys
      invariant forall n <- cfg.clusters.Keys - todo :: Covered(cfg, n)
      decreases |todo|
    {
      var n :| n in todo;
      if n !in covered {
        return Some(NoContext(n));
      }
      todo := todo - {n};
    }
    err := None;
  }

  /** `validateAuthInfos`. */
  method ValidateAuthInfos(cfg: Config) returns (err: Option<KubeError>)
    ensures err.None? <==> UsersOk(cfg)
    ensures err.Some? ==> Fault(cfg, err.value)
  {
    var todo := cfg.users.Keys;
    while todo != {}
      invariant todo <= cfg.users.Keys
      invariant forall n <- cfg.users.Keys - todo :: TokenOnly(cfg.users[n])
      decreases |todo|
    {
      var n :| n in todo;
      if !TokenOnly(cfg.users[n]) {
        return Some(BadUser(n));
      }
      todo := todo - {n};
    }
    err := None;
  }

  /** `Validate`, on a parsed file: it accepts exactly what the rule accepts, and reports a fault the file has. */
  method Validate(cfg: Config) returns (err: Option<KubeError>)
    ensures err.None? <==> Accepts(cfg)
    ensures err.Some? ==> Fault(cfg, err.value)
  {
    if |cfg.clusters| == 0 {
      return Some(NoClusters);
    }
    err := ValidateAuthInfos(cfg);
    if err.Some? {
      return;
    }
    var hosts := new Hosts();
    err := hosts.IndexClusters(cfg);
    if err.Some? {
      return;
    }
    err := hosts.AssignContextTokens(cfg);
  }

  /** The hosts of the clusters, each with the token of the contexts on it. */
  ghost predicate IsTokenMap(cfg: Config, tokens: map<string, string>) {
    && (forall h :: h in tokens <==> Known(cfg, cfg.clusters.Keys, h))
    && (forall x <- cfg.contexts :: Carries(cfg, cfg.contexts[x], tokens))
  }

  predicate Carries(cfg: Config, x: Context, tokens: map<string, string>) {
    && Resolves(cfg, x) && HostOfContext(cfg, x).Ok?
    && HostOfContext(cfg, x).value in tokens && tokens[HostOfContext(cfg, x).value] == TokenOfContext(cfg, x)
  }

  /** `LoadTokens`, on a parsed file. */
  method LoadTokens(cfg: Config) returns (r: Result<map<string, string>, KubeError>)
    ensures r.Ok? <==> Accepts(cfg)
    ensures r.Ok? ==> IsTokenMap(cfg, r.value)
    ensures r.Err? ==> Fault(cfg, r.error)
  {
    var err := Validate(cfg);
    match err {
      case Some(e) => return Err(e);
      case None =>
    }
    var hosts := new Hosts();
    err := hosts.IndexClusters(cfg);
    match err {
      case Some(e) => return Err(e);
      case None =>
    }
    err := hosts.AssignContextTokens(cfg);
    match err {
      case Some(e) => return Err(e);
      case None =>
    }
    var tokens := map[];
    var todo := hosts.byHost.Keys;
    while todo != {}
      invariant todo <= hosts.byHost.Keys && tokens.Keys == hosts.byHost.Keys - todo
      invariant forall h <- tokens :: tokens[h] == hosts.byHost[h].token
      decreases |todo|
    {
      var h :| h in todo;
      tokens := tokens[h := hosts.byHost[h].token];
      todo := todo - {h};
    }
    TokensOfHosts(cfg, hosts.byHost, tokens);
    r := Ok(tokens);
  }

  lemma TokensOfHosts(cfg: Config, hosts: map<string, Identity>, tokens: map<string, string>)
    requires Indexed(cfg, cfg.clusters.Keys, hosts) && Assigned(cfg, cfg.contexts.Keys, hosts)
    requires tokens.Keys == hosts.Keys && forall h <- tokens :: tokens[h] == hosts[h].token
    ensures IsTokenMap(cfg, tokens)
  {
    forall h ensures h in tokens <==> Known(cfg, cfg.clusters.Keys, h) {
      if Known(cfg, cfg.clusters.Keys, h) {
        var n :| n in cfg.clusters && ServerOf(cfg.clusters[n]) == Ok(h);
        assert IsIndexed(cfg.clusters[n], hosts);
      }
    }
    forall x <- cfg.contexts ensures Carries(cfg, cfg.contexts[x], tokens) {
      assert IsAssigned(cfg, cfg.contexts[x], hosts);
    }
  }

  /** The token of a known host is the token of some context that covers its cluster. */
  lemma TokenComesFromAContext(cfg: Config, tokens: map<string, string>, h: string) returns (x: string)
    requires Accepts(cfg) && IsTokenMap(cfg, tokens) && h in tokens
    ensures x in cfg.contexts && Gives(cfg, cfg.contexts[x], h, tokens[h]) && tokens[h] != ""
  {
    assert Known(cfg, cfg.clusters.Keys, h);
    var n :| n in cfg.clusters && ServerOf(cfg.clusters[n]) == Ok(h);
    assert Covered(cfg, n);
    x :| x in cfg.contexts && cfg.contexts[x].cluster == n;
    assert Carries(cfg, cfg.contexts[x], tokens);
    assert TokenOnly(cfg.users[cfg.contexts[x].user]);
  }

  /** Whatever order the loops take, there is one token map to arrive at. */
  lemma TokenMapIsUnique(cfg: Config, one: map<string, string>, other: map<string, string>)
    requires Accepts(cfg) && IsTokenMap(cfg, one) && IsTokenMap(cfg, other)
    ensures one == other
  {
    assert one.Keys == other.Keys;
    forall h <- one ensures one[h] == other[h] {
      var x := TokenComesFromAContext(cfg, one, h);
      assert Carries(cfg, cfg.contexts[x], other);
    }
  }
}
