/**
 The proxy put together: a route table built from a spec and a kubeconfig with the program's own host
 parsers, and one request decided with the program's own verdict on paths.
 */
module Proxy {
  import opened Prelude
  import opened HostPort
  import opened Routes
  import opened ProxyTable
  import KubePath
  import Text

  /** Once cleaned, the path is this API request. */
  ghost predicate Spells(path: string, r: KubePath.ApiRequest) {
    && KubePath.WellFormed(r) && KubePath.Unambiguous(r)
    && KubePath.CleanSegments(Text.Split(path, '/')) == KubePath.Render(r)
  }

  predicate Streams(r: KubePath.ApiRequest) {
    KubePath.VerbOf(r) == "proxy" || KubePath.SubresourceOf(r) in KubePath.STREAMING
  }

  /** As it stands, or decoded once, the path is an API request that proxies or opens a stream into a pod. */
  ghost predicate NamesStreaming(path: string) {
    exists plain, r :: (plain == path || KubePath.Encodes(path, plain)) && Spells(plain, r) && Streams(r)
  }

  lemma SpelledStreamingIsDenied(plain: string, r: KubePath.ApiRequest)
    requires Spells(plain, r)
    ensures KubePath.DeniedKubePath(plain) <==> Streams(r)
  {
    KubePath.DeniedBySegments(plain);
    KubePath.ParseRecoversIffUnambiguous(r);
  }

  lemma StreamingIsDenied(path: string)
    requires NamesStreaming(path)
    ensures KubePath.KubePathDenied(path)
  {
    var plain, r :| (plain == path || KubePath.Encodes(path, plain)) && Spells(plain, r) && Streams(r);
    SpelledStreamingIsDenied(plain, r);
    KubePath.DeniedThroughOneEncoding(path);
  }

  /**
   One request against the proxy of a spec. Injection never fails. A request that goes on to a Kubernetes
   API came over https, names no streaming subresource and carries exactly the token its host has in the
   kubeconfig; any other that goes on carries no credential header.
   */
  method Serve(targets: seq<Target>, file: KubeFile, isIP: string -> bool,
               isPem: seq<bv8> -> bool, appends: seq<bv8> -> bool, publicRoots: bool, req: Request)
    returns (table: Option<Table>, resp: Option<Response>)
    requires file.File? ==> FromURLs(file.cfg, isIP) && CasOk(file.cfg, isPem)
    requires PemLoads(isPem, appends)
    modifies req
    ensures table.None? ==> resp.None? && req.headers == old(req.headers)
    ensures table.Some? ==>
              var route := Match(table.value.byHost, req.Target(), CanonicalHostPort);
              && resp != Some(InjectionFailed) && (resp == Some(DomainNotAllowed) <==> route.None?)
              && (resp.None? && Kube(route) ==>
                    && file.File? && req.scheme == "https" && !NamesStreaming(req.path)
                    && exists token :: TokenFor(file.cfg, route.value.domain, token)
                                       && req.headers == Bare(old(req.headers))["authorization" := ["Bearer " + token]])
              && (resp.None? && !Kube(route) ==>
                    req.headers == Bare(old(req.headers)) && forall name <- req.headers :: !Credential(name))
  {
    var built;
    built, table := ProxyFor(targets, file, isIP, isPem, appends, publicRoots);
    resp := None;
    if table.Some? {
      resp := Handle(table.value, Mounted(file, KUBECONFIG_PATH), req, CanonicalHostPort, KubePath.KubePathDenied);
      ForwardedSafely(table.value, file, req.Target(), req.path, req.scheme, old(req.headers), req.headers, resp);
    }
  }

  lemma ForwardedSafely(t: Table, file: KubeFile, host: string, path: string, scheme: string,
                        before: Headers, after: Headers, resp: Option<Response>)
    requires var route := Match(t.byHost, host, CanonicalHostPort);
             && (resp == Some(DomainNotAllowed) <==> route.None?)
             && (resp == Some(PathNotAllowed) <==> Kube(route) && KubePath.KubePathDenied(path))
             && (resp == Some(HttpsRequired) <==> Kube(route) && !KubePath.KubePathDenied(path) && scheme != "https")
             && (resp.None? ==> Forwardable(route.value, Mounted(file, KUBECONFIG_PATH), before, after))
    ensures var route := Match(t.byHost, host, CanonicalHostPort);
            && (resp.None? && Kube(route) ==>
                  && file.File? && scheme == "https" && !NamesStreaming(path)
                  && exists token :: TokenFor(file.cfg, route.value.domain, token)
                                     && after == Bare(before)["authorization" := ["Bearer " + token]])
            && (resp.None? && !Kube(route) ==> after == Bare(before) && forall name <- after :: !Credential(name))
  {
    if resp.None? {
      if NamesStreaming(path) {
        StreamingIsDenied(path);
      }
      forall name <- Bare(before) ensures !Credential(name) {
        NoCredentialIsLeft(before, name);
      }
    }
  }
}
