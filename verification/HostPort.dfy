/**
 host:port text: Go's split and join, the canonical form every route and request is compared
 in, and the two parsers that feed it. Whether a host is an IP address is left to a parameter.
 */
module HostPort {
  import opened Prelude
  import opened Text

  datatype HostError =
    | MissingPort
    | TooManyColons
    | BadBrackets
    | EmptyHost
    | Wildcard
    | LeadingDot
    | InvalidPort
    | NotAHost
    | TrailingDot
    | NotHttps
    | Userinfo

  predicate Bracketless(s: string) { '[' !in s && ']' !in s }

  /** `net.SplitHostPort`. */
  function SplitHostPort(s: string): Result<(string, string), HostError> {
    var i := LastIndex(s, ':');
    if i < 0 then Err(MissingPort)
    else if s[0] == '[' then
      var end := Index(s, ']');
      if end < 0 then Err(BadBrackets)
      else if end + 1 == |s| then Err(MissingPort)
      else if end + 1 != i then Err(if s[end + 1] == ':' then TooManyColons else MissingPort)
      else if '[' in s[1..] || ']' in s[end + 1..] then Err(BadBrackets)
      else Ok((s[1..end], s[i + 1..]))
    else if ':' in s[..i] then Err(TooManyColons)
    else if !Bracketless(s) then Err(BadBrackets)
    else Ok((s[..i], s[i + 1..]))
  }

  /** `net.JoinHostPort`: a host with a colon is bracketed. */
  function JoinHostPort(host: string, port: string): string {
    if ':' in host then "[" + host + "]:" + port else host + ":" + port
  }

  /** Exactly the pairs that survive joining and splitting: no brackets anywhere, no colon in the port. */
  predicate Plain(host: string, port: string) { Bracketless(host) && Bracketless(port) && ':' !in port }

  lemma SplitIsPlain(s: string)
    ensures SplitHostPort(s).Ok? ==> Plain(SplitHostPort(s).value.0, SplitHostPort(s).value.1)
  {
    if SplitHostPort(s).Ok? {
      var i := LastIndex(s, ':');
      var host, port := SplitHostPort(s).value.0, SplitHostPort(s).value.1;
      forall k | 0 <= k < |port| ensures port[k] != ':' && port[k] != '[' && port[k] != ']' {
        assert port[k] == s[i + 1 + k] == s[1..][i + k] == s[i..][k + 1];
      }
      forall k | 0 <= k < |host| ensures host[k] != '[' && host[k] != ']' {
        assert if s[0] == '[' then host[k] == s[k + 1] == s[1..][k] else host[k] == s[k];
      }
    }
  }

  /** Where the colon and the closing bracket of a bracketed form stand. */
  lemma BracketedForm(host: string, port: string)
    requires Plain(host, port)
    ensures LastIndex("[" + host + "]:" + port, ':') == |host| + 2
    ensures Index("[" + host + "]:" + port, ']') == |host| + 1
  {
    var s := "[" + host + "]:" + port;
    assert ("[" + host + "]") + [':'] + port == s;
    LastIndexAt("[" + host + "]", ':', port);
    assert ("[" + host) + [']'] + (":" + port) == s;
    IndexAt("[" + host, ']', ":" + port);
  }

  lemma BracketedSplits(host: string, port: string)
    requires Plain(host, port)
    ensures SplitHostPort("[" + host + "]:" + port) == Ok((host, port))
  {
    var s, i := "[" + host + "]:" + port, |host| + 2;
    BracketedForm(host, port);
    assert s[1..] == host + "]:" + port;
    assert s[i..] == [':'] + port;
    assert s[1..i - 1] == host;
    assert s[i + 1..] == port;
  }

  lemma UnbracketedSplits(host: string, port: string)
    requires Plain(host, port) && ':' !in host
    ensures SplitHostPort(host + ":" + port) == Ok((host, port))
  {
    var s := host + ":" + port;
    LastIndexAt(host, ':', port);
    assert s[..|host|] == host && s[|host| + 1..] == port;
    assert s[0] == if host == "" then ':' else host[0];
  }

  lemma JoinedSplits(host: string, port: string)
    requires Plain(host, port)
    ensures SplitHostPort(JoinHostPort(host, port)) == Ok((host, port))
  {
    if ':' in host {
      BracketedSplits(host, port);
    } else {
      UnbracketedSplits(host, port);
    }
  }

  /** Split undoes join exactly on plain pairs. */
  lemma SplitUndoesJoinIffPlain(host: string, port: string)
    ensures SplitHostPort(JoinHostPort(host, port)) == Ok((host, port)) <==> Plain(host, port)
  {
    SplitIsPlain(JoinHostPort(host, port));
    if Plain(host, port) {
      JoinedSplits(host, port);
    }
  }

  // ----- The canonical form -----

  function HostOf(host: string): string { Lower(TrimSpace(host)) }

  function CanonicalForm(host: string, port: Option<int>): Result<string, HostError> {
    if host == "" then Err(EmptyHost)
    else if '*' in host then Err(Wildcard)
    else if host[0] == '.' then Err(LeadingDot)
    else if port.None? || port.value < 1 || port.value > 65535 then Err(InvalidPort)
    else Ok(JoinHostPort(host, Itoa(port.value)))
  }

  /** `CanonicalHostPort`. */
  function CanonicalHostPort(s: string): Result<string, HostError> {
    var parts := SplitHostPort(s);
    if parts.Err? then Err(parts.error) else CanonicalForm(HostOf(parts.value.0), Atoi(parts.value.1))
  }

  /** A host as it stands in a canonical form. */
  predicate CanonicalHost(h: string) {
    h != "" && Trimmed(h) && Lower(h) == h && Bracketless(h) && '*' !in h && h[0] != '.'
  }

  predicate PortNumber(p: int) { 1 <= p <= 65535 }

  lemma CanonicalHostHasNoCapitals(h: string, i: nat)
    requires CanonicalHost(h) && i < |h|
    ensures h[i] !in CAPITALS
  {
    assert h[i] == LowerChar(h[i]);
    LowerHasNoCapitals(h[i]);
  }

  lemma DigitsPlain(s: string)
    requires AllDigits(s)
    ensures Bracketless(s) && ':' !in s
  {
  }

  lemma HostOfPlain(h: string)
    requires Bracketless(h)
    ensures Bracketless(HostOf(h)) && Trimmed(HostOf(h)) && Lower(HostOf(h)) == HostOf(h)
  {
    var t := TrimSpace(h);
    LowerTrimmed(t);
    LowerTwice(t);
    LowerBringsNothing(t, '[');
    LowerBringsNothing(t, ']');
  }

  /** Every accepted text has a canonical host and port behind it, and the result is their join. */
  lemma CanonicalShape(s: string) returns (host: string, port: int)
    requires CanonicalHostPort(s).Ok?
    ensures CanonicalHost(host) && PortNumber(port) && CanonicalHostPort(s).value == JoinHostPort(host, Itoa(port))
    ensures host == HostOf(SplitHostPort(s).value.0) && Atoi(SplitHostPort(s).value.1) == Some(port)
  {
    var parts := SplitHostPort(s).value;
    host, port := HostOf(parts.0), Atoi(parts.1).value;
    SplitIsPlain(s);
    HostOfPlain(parts.0);
  }

  /** A canonical host and port join to a text that is its own canonical form. */
  lemma CanonicalJoin(host: string, port: int)
    requires CanonicalHost(host) && PortNumber(port)
    ensures CanonicalHostPort(JoinHostPort(host, Itoa(port))) == Ok(JoinHostPort(host, Itoa(port)))
  {
    DigitsPlain(Itoa(port));
    JoinedSplits(host, Itoa(port));
    AtoiDigits(Itoa(port));
  }

  /** `CanonicalHostPort` is idempotent. */
  lemma CanonicalIdempotent(s: string)
    ensures CanonicalHostPort(s).Ok? ==> CanonicalHostPort(CanonicalHostPort(s).value) == CanonicalHostPort(s)
  {
    if CanonicalHostPort(s).Ok? {
      var host, port := CanonicalShape(s);
      CanonicalJoin(host, port);
    }
  }

  /** The canonical forms are exactly the joins of a canonical host and a port number. */
  lemma CanonicalForms(s: string)
    ensures CanonicalHostPort(s) == Ok(s) <==>
              exists host, port :: CanonicalHost(host) && PortNumber(port) && s == JoinHostPort(host, Itoa(port))
  {
    if CanonicalHostPort(s) == Ok(s) {
      var host, port := CanonicalShape(s);
    }
    if host, port :| CanonicalHost(host) && PortNumber(port) && s == JoinHostPort(host, Itoa(port)) {
      CanonicalJoin(host, port);
    }
  }

  /** Two accepted texts have the same canonical form exactly when hosts agree up to case and outer space, and ports as numbers. */
  lemma SameCanonicalForm(a: string, b: string)
    requires CanonicalHostPort(a).Ok? && CanonicalHostPort(b).Ok?
    ensures CanonicalHostPort(a) == CanonicalHostPort(b) <==>
              && HostOf(SplitHostPort(a).value.0) == HostOf(SplitHostPort(b).value.0)
              && Atoi(SplitHostPort(a).value.1) == Atoi(SplitHostPort(b).value.1)
  {
    var h1, p1 := CanonicalShape(a);
    var h2, p2 := CanonicalShape(b);
    DigitsPlain(Itoa(p1));
    DigitsPlain(Itoa(p2));
    JoinedSplits(h1, Itoa(p1));
    JoinedSplits(h2, Itoa(p2));
    AtoiDigits(Itoa(p1));
    AtoiDigits(Itoa(p2));
  }

  /** Zeros in front of a port do not matter. */
  lemma ZeroPaddedPort(host: string, zeros: nat, port: int)
    requires Bracketless(host) && PortNumber(port)
    ensures CanonicalHostPort(JoinHostPort(host, Zeros(zeros) + Itoa(port)))
            == CanonicalHostPort(JoinHostPort(host, Itoa(port)))
  {
    var padded := Zeros(zeros) + Itoa(port);
    LeadingZeros(zeros, Itoa(port));
    DigitsPlain(padded);
    DigitsPlain(Itoa(port));
    JoinedSplits(host, padded);
    JoinedSplits(host, Itoa(port));
    AtoiDigits(padded);
    AtoiDigits(Itoa(port));
  }

  // ----- Host names -----

  predicate LabelChar(c: char) { 'a' <= c <= 'z' || '0' <= c <= '9' || c == '-' }

  predicate IsLabel(l: string) {
    && 0 < |l| <= 63
    && l[0] != '-' && l[|l| - 1] != '-'
    && forall i :: 0 <= i < |l| ==> LabelChar(l[i])
  }

  predicate AllLabels(labels: seq<string>) { forall k :: 0 <= k < |labels| ==> IsLabel(labels[k]) }

  /** At most 253 characters, every dot-separated part a label. */
  predicate IsDnsName(host: string) { 0 < |host| <= 253 && AllLabels(Split(host, '.')) }

  /** `dnsName`: the two loops over labels and their characters. */
  method DnsName(host: string) returns (ok: bool)
    ensures ok == IsDnsName(host)
  {
    if host == "" || |host| > 253 {
      return false;
    }
    var labels := Split(host, '.');
    for k := 0 to |labels|
      invariant AllLabels(labels[..k])
    {
      var l := labels[k];
      if |l| == 0 || |l| > 63 {
        return false;
      }
      if l[0] == '-' || l[|l| - 1] == '-' {
        return false;
      }
      for i := 0 to |l|
        invariant forall j :: 0 <= j < i ==> LabelChar(l[j])
      {
        if !LabelChar(l[i]) {
          return false;
        }
      }
    }
    assert labels[..|labels|] == labels;
    ok := true;
  }

  lemma LabelsAreDotless(labels: seq<string>)
    requires AllLabels(labels)
    ensures forall k :: 0 <= k < |labels| ==> '.' !in labels[k]
  {
  }

  /** The DNS names are exactly the texts of at most 253 characters that labels joined by dots spell. */
  lemma DnsNamesAreJoinedLabels(host: string)
    ensures IsDnsName(host) <==>
              |host| <= 253 && exists labels :: labels != [] && AllLabels(labels) && Join(labels, '.') == host
  {
    if IsDnsName(host) {
      JoinSplit(host, '.');
    }
    if exists labels :: labels != [] && AllLabels(labels) && Join(labels, '.') == host {
      var labels :| labels != [] && AllLabels(labels) && Join(labels, '.') == host;
      LabelsAreDotless(labels);
      SplitJoin(labels, '.');
      assert IsLabel(labels[0]);
    }
  }

  // ----- The two parsers -----

  /** `validateAllowlistHost`. */
  function ValidateHost(host: string, isIP: string -> bool): Result<(), HostError> {
    if isIP(host) then Ok(())
    else if host != "" && host[|host| - 1] == '.' then Err(TrailingDot)
    else if !IsDnsName(host) then Err(NotAHost)
    else Ok(())
  }

  /** A canonical form whose host is an IP address or a DNS name. */
  function Routable(form: Result<string, HostError>, isIP: string -> bool): Result<string, HostError> {
    if form.Err? then form else
    var parts := SplitHostPort(form.value);
    if parts.Err? then Err(parts.error) else
    var valid := ValidateHost(parts.value.0, isIP);
    if valid.Err? then Err(valid.error) else form
  }

  predicate InBrackets(d: string) { |d| > 2 && d[0] == '[' && d[|d| - 1] == ']' }

  /** The host:port text an allowlist entry stands for: its own, or port 443 on a bare or bracketed host. */
  function AllowlistText(d: string): string {
    if SplitHostPort(d).Ok? then d
    else if InBrackets(d) then JoinHostPort(d[1..|d| - 1], "443")
    else JoinHostPort(d, "443")
  }

  function AllowlistForm(d: string): Result<string, HostError> {
    if SplitHostPort(d).Err? && !InBrackets(d) && ':' in d then Err(BadBrackets)
    else CanonicalHostPort(AllowlistText(d))
  }

  /** A trimmed entry that the first checks let through. A text containing "://" contains a slash. */
  function RefusedOutright(d: string): Option<HostError> {
    if d == "" then Some(EmptyHost)
    else if '/' in d then Some(NotAHost)
    else if '*' in d then Some(Wildcard)
    else if d[0] == '.' then Some(LeadingDot)
    else None
  }

  /** `ParseAllowlistDomain`. */
  function ParseAllowlistDomain(domain: string, isIP: string -> bool): Result<string, HostError> {
    var d := TrimSpace(domain);
    var refusal := RefusedOutright(d);
    if refusal.Some? then Err(refusal.value) else Routable(AllowlistForm(d), isIP)
  }

  /** What `url.Parse` makes of a server URL. */
  datatype ServerURL = Unparseable | Parsed(scheme: string, user: bool, host: string, port: string)

  /** `HostPortFromServerURL`. */
  function HostPortFromServerURL(u: ServerURL, isIP: string -> bool): Result<string, HostError> {
    if u.Unparseable? then Err(NotAHost)
    else if u.scheme != "https" then Err(NotHttps)
    else if u.user then Err(Userinfo)
    else if u.host == "" then Err(EmptyHost)
    else Routable(CanonicalHostPort(JoinHostPort(u.host, if u.port == "" then "443" else u.port)), isIP)
  }

  /** What a route's domain looks like: a canonical host that is an IP address or a DNS name, and a port. */
  predicate IsRoute(host: string, port: int, isIP: string -> bool) {
    CanonicalHost(host) && PortNumber(port) && (isIP(host) || IsDnsName(host))
  }

  lemma RoutableShape(s: string, isIP: string -> bool) returns (host: string, port: int)
    requires Routable(CanonicalHostPort(s), isIP).Ok?
    ensures IsRoute(host, port, isIP) && CanonicalHostPort(s) == Ok(JoinHostPort(host, Itoa(port)))
    ensures Routable(CanonicalHostPort(s), isIP) == CanonicalHostPort(s)
    ensures host == HostOf(SplitHostPort(s).value.0)
  {
    host, port := CanonicalShape(s);
    DigitsPlain(Itoa(port));
    JoinedSplits(host, Itoa(port));
  }

  lemma RouteIsRoutable(host: string, port: int, isIP: string -> bool)
    requires IsRoute(host, port, isIP)
    ensures Routable(Ok(JoinHostPort(host, Itoa(port))), isIP) == Ok(JoinHostPort(host, Itoa(port)))
  {
    DigitsPlain(Itoa(port));
    JoinedSplits(host, Itoa(port));
    if !isIP(host) {
      NoTrailingDot(host);
    }
  }

  /** A server URL's route is in the same form as an allowlist route. */
  lemma ServerRouteIsCanonical(u: ServerURL, isIP: string -> bool) returns (host: string, port: int)
    requires HostPortFromServerURL(u, isIP).Ok?
    ensures IsRoute(host, port, isIP) && HostPortFromServerURL(u, isIP).value == JoinHostPort(host, Itoa(port))
    ensures CanonicalHostPort(HostPortFromServerURL(u, isIP).value) == HostPortFromServerURL(u, isIP)
  {
    var joined := JoinHostPort(u.host, if u.port == "" then "443" else u.port);
    host, port := RoutableShape(joined, isIP);
    CanonicalIdempotent(joined);
  }

  lemma JoinedForm(host: string, text: string, port: int)
    requires Plain(host, text) && Atoi(text) == Some(port)
    ensures CanonicalHostPort(JoinHostPort(host, text)) == CanonicalForm(HostOf(host), Some(port))
  {
    JoinedSplits(host, text);
  }

  lemma FormIsRoute(host: string, port: int, isIP: string -> bool)
    requires Bracketless(host)
    ensures Routable(CanonicalForm(HostOf(host), Some(port)), isIP).Ok? <==> IsRoute(HostOf(host), port, isIP)
    ensures IsRoute(HostOf(host), port, isIP) ==>
              Routable(CanonicalForm(HostOf(host), Some(port)), isIP) == Ok(JoinHostPort(HostOf(host), Itoa(port)))
  {
    HostOfPlain(host);
    if IsRoute(HostOf(host), port, isIP) {
      RouteIsRoutable(HostOf(host), port, isIP);
    } else if CanonicalForm(HostOf(host), Some(port)).Ok? {
      DigitsPlain(Itoa(port));
      JoinedSplits(HostOf(host), Itoa(port));
    }
  }

  /**
   A server URL becomes a route exactly if it is an https URL without user information whose host is an IP address or a
   DNS name, up to case and outer space, and whose port is a port number. Without a port it is 443.
   */
  lemma ServerRouteExactlyWhen(u: ServerURL, port: int, isIP: string -> bool)
    requires u.Parsed? && Plain(u.host, u.port) && if u.port == "" then port == 443 else Atoi(u.port) == Some(port)
    ensures HostPortFromServerURL(u, isIP).Ok? <==> u.scheme == "https" && !u.user && IsRoute(HostOf(u.host), port, isIP)
    ensures HostPortFromServerURL(u, isIP).Ok? ==>
              HostPortFromServerURL(u, isIP).value == JoinHostPort(HostOf(u.host), Itoa(port))
  {
    assert Itoa(443) == "443";
    AtoiDigits("443");
    JoinedForm(u.host, if u.port == "" then "443" else u.port, port);
    FormIsRoute(u.host, port, isIP);
  }

  /** So every DNS name is taken as it stands. */
  lemma EveryDnsNameIsAServer(name: string, port: int, isIP: string -> bool)
    requires IsDnsName(name) && PortNumber(port)
    ensures HostPortFromServerURL(Parsed("https", false, name, ""), isIP) == Ok(JoinHostPort(name, Itoa(443)))
    ensures HostPortFromServerURL(Parsed("https", false, name, Itoa(port)), isIP) == Ok(JoinHostPort(name, Itoa(port)))
  {
    DnsNameIsCanonical(name);
    DigitsPlain(Itoa(port));
    AtoiDigits(Itoa(port));
    ServerRouteExactlyWhen(Parsed("https", false, name, ""), 443, isIP);
    ServerRouteExactlyWhen(Parsed("https", false, name, Itoa(port)), port, isIP);
  }

  lemma FormIsCanonical(d: string)
    requires AllowlistForm(d).Ok?
    ensures AllowlistForm(d) == CanonicalHostPort(AllowlistText(d))
  {
  }

  /** The characters of a split's parts and of a join come from its arguments. */
  lemma PartsBringNothing(s: string, c: char)
    requires c !in s && SplitHostPort(s).Ok?
    ensures c !in SplitHostPort(s).value.0 && c !in SplitHostPort(s).value.1
  {
    var i := LastIndex(s, ':');
    assert forall k :: 0 <= k < |s| ==> s[k] != c;
  }

  lemma JoinedBringsNothing(host: string, port: string, c: char)
    requires c !in host && c !in port && c !in "[]:"
    ensures c !in JoinHostPort(host, port)
  {
    assert c != "[]:"[0] && c != "[]:"[1] && c != "[]:"[2];
  }

  lemma AllowlistHostHasNoSlash(d: string)
    requires '/' !in d && AllowlistForm(d).Ok?
    ensures '/' !in HostOf(SplitHostPort(AllowlistText(d)).value.0)
  {
    var s := AllowlistText(d);
    if SplitHostPort(d).Err? {
      var host := if InBrackets(d) then d[1..|d| - 1] else d;
      assert '/' !in host;
      JoinedBringsNothing(host, "443", '/');
    }
    PartsBringNothing(s, '/');
    LowerBringsNothing(TrimSpace(SplitHostPort(s).value.0), '/');
  }

  lemma AllowlistRouteShape(domain: string, isIP: string -> bool) returns (host: string, port: int)
    requires ParseAllowlistDomain(domain, isIP).Ok?
    ensures IsRoute(host, port, isIP)
    ensures ParseAllowlistDomain(domain, isIP).value == JoinHostPort(host, Itoa(port))
    ensures '/' !in host
  {
    var d := TrimSpace(domain);
    FormIsCanonical(d);
    host, port := RoutableShape(AllowlistText(d), isIP);
    AllowlistHostHasNoSlash(d);
  }

  lemma JoinedEnds(host: string, port: string)
    requires host != "" && port != ""
    ensures JoinHostPort(host, port)[0] == if ':' in host then '[' else host[0]
    ensures JoinHostPort(host, port)[|JoinHostPort(host, port)| - 1] == port[|port| - 1]
  {
  }

  /** A route's text passes the checks made before it is split. */
  lemma RouteTextPasses(host: string, port: int)
    requires CanonicalHost(host) && PortNumber(port) && '/' !in host
    ensures Trimmed(JoinHostPort(host, Itoa(port)))
    ensures RefusedOutright(JoinHostPort(host, Itoa(port))).None?
  {
    var p := Itoa(port);
    JoinedEnds(host, p);
    assert IsDigit(p[|p| - 1]);
    JoinedBringsNothing(host, p, '/');
    JoinedBringsNothing(host, p, '*');
  }

  lemma NoTrailingDot(host: string)
    requires IsDnsName(host)
    ensures host[|host| - 1] != '.'
  {
    var labels := Split(host, '.');
    assert IsLabel(labels[|labels| - 1]);
    if host[|host| - 1] == '.' {
      SeparatorAtTheEnd(host, '.');
    }
  }

  lemma NoLeadingDot(host: string)
    requires IsDnsName(host)
    ensures host[0] != '.'
  {
    assert IsLabel(Split(host, '.')[0]);
  }

  predicate NameChars(s: string) { forall i :: 0 <= i < |s| ==> LabelChar(s[i]) || s[i] == '.' }

  lemma DnsNameChars(host: string)
    requires IsDnsName(host)
    ensures NameChars(host)
  {
    JoinSplit(host, '.');
    forall i | 0 <= i < |host| && !LabelChar(host[i]) && host[i] != '.' ensures false {
      Text.JoinBringsNothing(Split(host, '.'), '.', host[i]);
    }
  }

  lemma NameCharsAreCanonical(host: string)
    requires host != "" && NameChars(host) && host[0] != '.'
    ensures CanonicalHost(host) && ':' !in host && '/' !in host
  {
  }

  /** A DNS name is already in canonical form. */
  lemma DnsNameIsCanonical(host: string)
    requires IsDnsName(host)
    ensures CanonicalHost(host) && ':' !in host && '/' !in host
  {
    DnsNameChars(host);
    NoLeadingDot(host);
    NameCharsAreCanonical(host);
  }

  lemma ParsesTo(d: string, r: string, isIP: string -> bool)
    requires Trimmed(d) && RefusedOutright(d).None? && AllowlistForm(d) == Ok(r)
    requires Routable(Ok(r), isIP) == Ok(r)
    ensures ParseAllowlistDomain(d, isIP) == Ok(r)
  {
  }

  /** A route re-parses to itself. */
  lemma RouteParsesToItself(host: string, port: int, isIP: string -> bool)
    requires IsRoute(host, port, isIP) && '/' !in host
    ensures ParseAllowlistDomain(JoinHostPort(host, Itoa(port)), isIP) == Ok(JoinHostPort(host, Itoa(port)))
  {
    var r := JoinHostPort(host, Itoa(port));
    RouteTextPasses(host, port);
    assert AllowlistForm(r) == Ok(r) by {
      DigitsPlain(Itoa(port));
      JoinedSplits(host, Itoa(port));
      CanonicalJoin(host, port);
    }
    RouteIsRoutable(host, port, isIP);
    ParsesTo(r, r, isIP);
  }

  /** The results of `ParseAllowlistDomain` are its fixed points. */
  lemma AllowlistRoutesAreFixedPoints(domain: string, isIP: string -> bool)
    ensures ParseAllowlistDomain(domain, isIP).Ok? ==>
              ParseAllowlistDomain(ParseAllowlistDomain(domain, isIP).value, isIP) == ParseAllowlistDomain(domain, isIP)
  {
    if ParseAllowlistDomain(domain, isIP).Ok? {
      var host, port := AllowlistRouteShape(domain, isIP);
      RouteParsesToItself(host, port, isIP);
    }
  }

  lemma BareName(name: string)
    requires IsDnsName(name)
    ensures Trimmed(name) && RefusedOutright(name).None? && AllowlistForm(name) == Ok(JoinHostPort(name, Itoa(443)))
  {
    DnsNameIsCanonical(name);
    assert Itoa(443) == "443";
    CanonicalJoin(name, 443);
  }

  /** Every DNS name is accepted, bare and with any port, and a bare name means port 443. */
  lemma EveryDnsNameIsAccepted(name: string, port: int, isIP: string -> bool)
    requires IsDnsName(name) && PortNumber(port)
    ensures ParseAllowlistDomain(name, isIP) == Ok(JoinHostPort(name, Itoa(443)))
    ensures ParseAllowlistDomain(JoinHostPort(name, Itoa(port)), isIP) == Ok(JoinHostPort(name, Itoa(port)))
  {
    DnsNameIsCanonical(name);
    RouteParsesToItself(name, port, isIP);
    BareName(name);
    RouteIsRoutable(name, 443, isIP);
    ParsesTo(name, JoinHostPort(name, Itoa(443)), isIP);
  }
}
