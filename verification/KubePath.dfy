/**
 Kubernetes API paths: cleaning, parsing and percent-decoding a request path, and the verdict on
 the subresources that would open a stream into a pod.
 */
module KubePath {
  import opened Prelude
  import opened Text

  // ----- Cleaning -----

  /** One segment onto the cleaned ones: empty and "." say nothing, ".." takes the last one back. */
  function Push(stack: seq<string>, segment: string): seq<string> {
    if segment == "" || segment == "." then stack
    else if segment == ".." then if stack == [] then [] else stack[..|stack| - 1]
    else stack + [segment]
  }

  function CleanOnto(stack: seq<string>, segments: seq<string>): seq<string>
    decreases segments
  {
    if segments == [] then stack else CleanOnto(Push(stack, segments[0]), segments[1..])
  }

  function CleanSegments(segments: seq<string>): seq<string> { CleanOnto([], segments) }

  /** `path.Clean` of a rooted path, by its lexical rules. */
  function CleanPath(rooted: string): string { "/" + Join(CleanSegments(Split(rooted, '/')), '/') }

  /** `strings.Trim(s, "/")`. */
  function TrimSlashes(s: string): string
    decreases |s|
  {
    if s != "" && s[0] == '/' then TrimSlashes(s[1..])
    else if s != "" && s[|s| - 1] == '/' then TrimSlashes(s[..|s| - 1])
    else s
  }

  /** A segment that cleaning keeps. */
  predicate IsSegment(s: string) { s != "" && s != "." && s != ".." && '/' !in s }

  predicate AllSegments(ss: seq<string>) { forall i :: 0 <= i < |ss| ==> IsSegment(ss[i]) }

  predicate NoSlashes(ss: seq<string>) { forall i :: 0 <= i < |ss| ==> '/' !in ss[i] }

  lemma {:induction false} CleanOntoSegments(stack: seq<string>, segments: seq<string>)
    requires AllSegments(stack) && NoSlashes(segments)
    ensures AllSegments(CleanOnto(stack, segments))
    decreases segments
  {
    if segments != [] {
      CleanOntoSegments(Push(stack, segments[0]), segments[1..]);
    }
  }

  lemma {:induction false} CleanOntoSplit(stack: seq<string>, a: seq<string>, b: seq<string>)
    ensures CleanOnto(stack, a + b) == CleanOnto(CleanOnto(stack, a), b)
    decreases a
  {
    if a == [] {
      assert a + b == b;
    } else {
      CleanOntoSplit(Push(stack, a[0]), a[1..], b);
      assert (a + b)[1..] == a[1..] + b;
    }
  }

  lemma {:induction false} CleanOntoKeeps(stack: seq<string>, segments: seq<string>)
    requires AllSegments(segments)
    ensures CleanOnto(stack, segments) == stack + segments
    decreases segments
  {
    if segments == [] {
      assert stack + segments == stack;
    } else {
      CleanOntoKeeps(stack + [segments[0]], segments[1..]);
      assert stack + [segments[0]] + segments[1..] == stack + segments;
    }
  }

  /** Segments that say nothing between two others can be left out. */
  lemma NoiseCleansAway(a: seq<string>, noise: seq<string>, b: seq<string>)
    requires || noise == [""] || noise == ["."]
             || (|noise| == 2 && IsSegment(noise[0]) && noise[1] == "..")
    ensures CleanSegments(a + noise + b) == CleanSegments(a + b)
  {
    var s := CleanSegments(a);
    CleanOntoSplit([], a + noise, b);
    CleanOntoSplit([], a, noise);
    CleanOntoSplit([], a, b);
    assert CleanOnto(s, noise) == s by {
      if |noise| == 2 {
        assert noise == [noise[0]] + [noise[1]];
        CleanOntoSplit(s, [noise[0]], [noise[1]]);
        assert (s + [noise[0]])[..|s|] == s;
        assert CleanOnto(s, [noise[0]]) == s + [noise[0]];
      }
    }
  }

  // ----- Parsing -----

  /** What is left once prefix, version and verb are gone. */
  function ParseScoped(parts: seq<string>, verb: string): (string, string) {
    var scoped := if |parts| > 2 && parts[0] == "namespaces" && parts[2] != "status" && parts[2] != "finalize"
      then parts[2..] else parts;
    if verb == "proxy" || |scoped| < 3 then ("", verb) else (scoped[2], verb)
  }

  /** What is left once prefix and version are gone: the subresource and the leading verb. */
  function ParseResource(parts: seq<string>): (string, string) {
    if |parts| == 0 then ("", "")
    else if parts[0] == "proxy" || parts[0] == "watch" then
      if |parts| < 2 then ("", "") else ParseScoped(parts[1..], parts[0])
    else ParseScoped(parts, "")
  }

  function ParseParts(parts: seq<string>): (string, string) {
    if |parts| < 3 || (parts[0] != "api" && parts[0] != "apis") then ("", "")
    else if parts[0] == "api" then ParseResource(parts[2..])
    else if |parts| < 4 then ("", "")
    else ParseResource(parts[3..])
  }

  /** `parseKubePath`. */
  function ParseKubePath(clean: string): (string, string) { ParseParts(Split(TrimSlashes(clean), '/')) }

  const STREAMING: set<string> := {"exec", "attach", "portforward", "proxy", "ephemeralcontainers"}

  predicate Verdict(parsed: (string, string)) { parsed.1 == "proxy" || parsed.0 in STREAMING }

  function TrimPrefixSlash(p: string): string { if p != "" && p[0] == '/' then p[1..] else p }

  /** `deniedKubePath`. */
  predicate DeniedKubePath(p: string) {
    var clean := CleanPath("/" + TrimPrefixSlash(p));
    clean != "/" && clean != "." && Verdict(ParseKubePath(clean))
  }

  lemma {:induction false} JoinedEnds(ss: seq<string>)
    requires ss != [] && AllSegments(ss)
    ensures var s := Join(ss, '/'); s != "" && s[0] != '/' && s[|s| - 1] != '/'
  {
    assert IsSegment(ss[0]);
    if |ss| > 1 {
      JoinedEnds(ss[1..]);
    }
  }

  /** Splitting a cleaned path gives back its segments. */
  lemma CleanPathParts(ss: seq<string>)
    requires ss != [] && AllSegments(ss)
    ensures Split(TrimSlashes("/" + Join(ss, '/')), '/') == ss
  {
    var s := Join(ss, '/');
    JoinedEnds(ss);
    assert ("/" + s)[1..] == s;
    SplitJoin(ss, '/');
  }

  lemma SlashInFront(q: string)
    ensures CleanSegments(Split("/" + q, '/')) == CleanSegments(Split(q, '/'))
  {
    assert "/" + q == "" + ['/'] + q;
    SplitStep("", '/', q);
    assert ([""] + Split(q, '/'))[1..] == Split(q, '/');
  }

  lemma LeadingSlash(p: string)
    ensures CleanSegments(Split("/" + TrimPrefixSlash(p), '/')) == CleanSegments(Split(p, '/'))
  {
    if p != "" && p[0] == '/' {
      assert p == "/" + p[1..];
    } else {
      SlashInFront(p);
    }
  }

  lemma CleanedAreSegments(p: string)
    ensures AllSegments(CleanSegments(Split(p, '/')))
  {
    forall k | 0 <= k < |Split(p, '/')| ensures '/' !in Split(p, '/')[k] {
      SplitParts(p, '/', k);
    }
    CleanOntoSegments([], Split(p, '/'));
  }

  lemma VerdictOnCleaned(ss: seq<string>)
    requires AllSegments(ss)
    ensures ss == [] ==> "/" + Join(ss, '/') == "/"
    ensures ss != [] ==> "/" + Join(ss, '/') != "/" && "/" + Join(ss, '/') != "."
                         && ParseKubePath("/" + Join(ss, '/')) == ParseParts(ss)
  {
    if ss != [] {
      JoinedEnds(ss);
      CleanPathParts(ss);
    }
  }

  lemma DeniedAfterCleaning(p: string)
    ensures DeniedKubePath(p) <==>
              var clean := "/" + Join(CleanSegments(Split(p, '/')), '/');
              clean != "/" && clean != "." && Verdict(ParseKubePath(clean))
  {
    LeadingSlash(p);
  }

  lemma NothingIsNotDenied()
    ensures !Verdict(ParseParts([]))
  {
  }

  /** The verdict depends on the cleaned segments alone. */
  lemma DeniedBySegments(p: string)
    ensures DeniedKubePath(p) <==> Verdict(ParseParts(CleanSegments(Split(p, '/'))))
  {
    var ss := CleanSegments(Split(p, '/'));
    DeniedAfterCleaning(p);
    CleanedAreSegments(p);
    VerdictOnCleaned(ss);
    if ss == [] {
      NothingIsNotDenied();
    }
  }

  ghost predicate IsNoise(noise: string) {
    noise == "" || noise == "." || exists x :: IsSegment(x) && noise == x + "/.."
  }

  lemma NoiseParts(noise: string)
    requires IsNoise(noise)
    ensures var n := Split(noise, '/'); n == [""] || n == ["."] || (|n| == 2 && IsSegment(n[0]) && n[1] == "..")
  {
    if noise != "" && noise != "." {
      var x :| IsSegment(x) && noise == x + "/..";
      assert noise == x + ['/'] + "..";
      SplitStep(x, '/', "..");
      assert Split("..", '/') == [".."];
    }
  }

  lemma SplitThree(a: string, m: string, b: string)
    ensures Split(a + "/" + m + "/" + b, '/') == Split(a, '/') + Split(m, '/') + Split(b, '/')
    ensures Split(a + "/" + b, '/') == Split(a, '/') + Split(b, '/')
  {
    SplitConcat(a + "/" + m, '/', b);
    SplitConcat(a, '/', m);
    SplitConcat(a, '/', b);
  }

  /** Redundant slashes, "." segments and a segment taken back by ".." do not change the verdict. */
  lemma NoiseKeepsTheVerdict(a: string, noise: string, b: string)
    requires IsNoise(noise)
    ensures DeniedKubePath(a + "/" + noise + "/" + b) <==> DeniedKubePath(a + "/" + b)
  {
    NoiseParts(noise);
    SplitThree(a, noise, b);
    NoiseCleansAway(Split(a, '/'), Split(noise, '/'), Split(b, '/'));
    DeniedBySegments(a + "/" + noise + "/" + b);
    DeniedBySegments(a + "/" + b);
  }

  /** Nor do they at the end of a path: a trailing slash, a final "/." or a final segment taken back. */
  lemma TrailingNoiseKeepsTheVerdict(a: string, noise: string)
    requires IsNoise(noise)
    ensures DeniedKubePath(a + "/" + noise) <==> DeniedKubePath(a)
  {
    var front, parts := Split(a, '/'), Split(noise, '/');
    NoiseParts(noise);
    SplitConcat(a, '/', noise);
    NoiseCleansAway(front, parts, []);
    assert front + parts + [] == front + parts && front + [] == front;
    DeniedBySegments(a + "/" + noise);
    DeniedBySegments(a);
  }

  // ----- Structured requests -----

  /** What follows the resource. */
  datatype Tail =
    | Collection
    | Named(name: string)
    | Sub(name: string, subresource: string, trailing: seq<string>)

  datatype ApiRequest = ApiRequest(
    group: Option<string>, version: string, verb: Option<string>, namespace: Option<string>, resource: string, tail: Tail)

  function RenderTail(t: Tail): seq<string> {
    match t
    case Collection => []
    case Named(name) => [name]
    case Sub(name, subresource, trailing) => [name, subresource] + trailing
  }

  function RenderScoped(r: ApiRequest): seq<string> {
    (if r.namespace.Some? then ["namespaces", r.namespace.value] else []) + ([r.resource] + RenderTail(r.tail))
  }

  function RenderResource(r: ApiRequest): seq<string> {
    (if r.verb.Some? then [r.verb.value] else []) + RenderScoped(r)
  }

  function Render(r: ApiRequest): seq<string> {
    (if r.group.Some? then ["apis", r.group.value, r.version] else ["api", r.version]) + RenderResource(r)
  }

  /** Every part is a plain segment and the verb, if any, is one of the two special ones. */
  predicate WellFormed(r: ApiRequest) {
    AllSegments(Render(r)) && (r.verb.Some? ==> r.verb.value == "proxy" || r.verb.value == "watch")
  }

  function VerbOf(r: ApiRequest): string { if r.verb.Some? then r.verb.value else "" }

  /** The subresource; a proxy verb has none, whatever follows. */
  function SubresourceOf(r: ApiRequest): string {
    if VerbOf(r) == "proxy" || !r.tail.Sub? then "" else r.tail.subresource
  }

  predicate IsStatus(s: string) { s == "status" || s == "finalize" }

  /** The layouts the namespace rule reads as they were written. */
  predicate ScopedUnambiguous(r: ApiRequest) {
    if VerbOf(r) == "proxy" then true
    else if r.namespace.Some? && IsStatus(r.resource) then SubresourceOf(r) == r.resource
    else if r.namespace.None? && r.resource == "namespaces" && r.tail.Sub? && !IsStatus(r.tail.subresource) then
      |r.tail.trailing| >= 2 && r.tail.trailing[1] == r.tail.subresource
    else true
  }

  lemma SubresourceIsASegment(r: ApiRequest)
    requires WellFormed(r) && r.tail.Sub?
    ensures r.tail.subresource != ""
  {
    assert Render(r)[|Render(r)| - |r.tail.trailing| - 1] == r.tail.subresource;
  }

  lemma ScopedRecovers(r: ApiRequest)
    requires WellFormed(r)
    ensures ParseScoped(RenderScoped(r), VerbOf(r)) == (SubresourceOf(r), VerbOf(r)) <==> ScopedUnambiguous(r)
  {
    var s := RenderScoped(r);
    if r.namespace.Some? {
      assert s[2..] == [r.resource] + RenderTail(r.tail);
    } else if r.tail.Sub? {
      SubresourceIsASegment(r);
      assert s[2] == r.tail.subresource;
      assert s[2..] == [r.tail.subresource] + r.tail.trailing;
    }
  }

  /**
   A request is unambiguous unless its resource reads as a verb, or a namespaced resource reads as a
   namespace's subresource, or a namespace's subresource reads as a resource.
   */
  predicate Unambiguous(r: ApiRequest) {
    if r.verb.None? && r.namespace.None? && (r.resource == "proxy" || r.resource == "watch") then r.tail.Collection?
    else ScopedUnambiguous(r)
  }

  lemma PrefixAndVersionGo(r: ApiRequest)
    ensures ParseParts(Render(r)) == ParseResource(RenderResource(r))
  {
    assert Render(r)[if r.group.Some? then 3 else 2..] == RenderResource(r);
  }

  lemma VerbGoes(r: ApiRequest)
    requires WellFormed(r) && r.verb.Some?
    ensures ParseResource(RenderResource(r)) == ParseScoped(RenderScoped(r), VerbOf(r))
  {
    assert RenderResource(r)[1..] == RenderScoped(r);
  }

  /** Without a verb the first part is taken for one exactly when it is called so. */
  lemma NoVerbGoes(r: ApiRequest)
    requires r.verb.None?
    ensures if r.namespace.None? && (r.resource == "proxy" || r.resource == "watch")
            then ParseResource(RenderResource(r)).1 == (if r.tail.Collection? then "" else r.resource)
                 && (r.tail.Collection? ==> ParseResource(RenderResource(r)).0 == "")
            else ParseResource(RenderResource(r)) == ParseScoped(RenderScoped(r), "")
  {
    assert RenderResource(r) == RenderScoped(r);
  }

  /** Parsing a rendered request gives back its subresource and verb exactly when the layout is unambiguous. */
  lemma ParseRecoversIffUnambiguous(r: ApiRequest)
    requires WellFormed(r)
    ensures ParseParts(Render(r)) == (SubresourceOf(r), VerbOf(r)) <==> Unambiguous(r)
  {
    PrefixAndVersionGo(r);
    ScopedRecovers(r);
    if r.verb.Some? {
      VerbGoes(r);
    } else {
      NoVerbGoes(r);
    }
  }

  /** A namespace's "exec" reads as a resource in that namespace, so nothing comes back. */
  lemma AmbiguousLayout()
    ensures var r := ApiRequest(None, "v1", None, None, "namespaces", Sub("team", "exec", []));
            WellFormed(r) && SubresourceOf(r) == "exec" && ParseParts(Render(r)) == ("", "")
  {
    var r := ApiRequest(None, "v1", None, None, "namespaces", Sub("team", "exec", []));
    assert Render(r) == ["api", "v1", "namespaces", "team", "exec"];
  }

  lemma CleaningKeepsSegments(ss: seq<string>)
    requires ss != [] && AllSegments(ss)
    ensures CleanSegments(Split("/" + Join(ss, '/'), '/')) == ss
  {
    JoinedEnds(ss);
    LeadingSlash(Join(ss, '/'));
    SplitJoin(ss, '/');
    CleanOntoKeeps([], ss);
  }

  /** A rendered request is denied exactly when it proxies or names a streaming subresource. */
  lemma DeniedIffStreaming(r: ApiRequest)
    requires WellFormed(r) && Unambiguous(r)
    ensures DeniedKubePath("/" + Join(Render(r), '/')) <==>
              VerbOf(r) == "proxy" || SubresourceOf(r) in STREAMING
  {
    CleaningKeepsSegments(Render(r));
    DeniedBySegments("/" + Join(Render(r), '/'));
    ParseRecoversIffUnambiguous(r);
  }

  // ----- Percent-encoding -----

  predicate IsHex(c: char) { '0' <= c <= '9' || 'a' <= c <= 'f' || 'A' <= c <= 'F' }

  function HexValue(c: char): (v: nat)
    requires IsHex(c)
    ensures v < 16
  {
    if '0' <= c <= '9' then c as int - '0' as int
    else if 'a' <= c <= 'f' then c as int - 'a' as int + 10
    else c as int - 'A' as int + 10
  }

  /** Whether the text starts with a percent sign and two hexadecimal digits. */
  predicate StartsEncoded(s: string) { |s| >= 3 && s[0] == '%' && IsHex(s[1]) && IsHex(s[2]) }

  function EncodedByte(s: string): char
    requires StartsEncoded(s)
  {
    (HexValue(s[1]) * 16 + HexValue(s[2])) as char
  }

  /** `url.PathUnescape`: one decode of every escape, failing on a malformed one. */
  function PathUnescape(s: string): Option<string>
    decreases |s|
  {
    if s == "" then Some("")
    else if s[0] != '%' then
      var rest := PathUnescape(s[1..]);
      if rest.None? then None else Some([s[0]] + rest.value)
    else if !StartsEncoded(s) then None
    else
      var rest := PathUnescape(s[3..]);
      if rest.None? then None else Some([EncodedByte(s)] + rest.value)
  }

  /** `kubePathDenied`. */
  predicate KubePathDenied(urlPath: string) {
    if DeniedKubePath(urlPath) then true
    else
      var unescaped := PathUnescape(urlPath);
      if unescaped.None? || unescaped.value == urlPath then false else DeniedKubePath(unescaped.value)
  }

  // Percent-encoding as section 2.1 of RFC 3986 writes it, on texts of one-byte characters.

  function HexDigit(v: nat, upper: bool): char
    requires v < 16
  {
    (v + (if v < 10 then '0' as int else if upper then 'A' as int - 10 else 'a' as int - 10)) as char
  }

  lemma HexDigits(v: nat)
    requires v < 16
    ensures HexDigit(v, true) == "0123456789ABCDEF"[v] && HexDigit(v, false) == "0123456789abcdef"[v]
  {
  }

  /** A character as itself, or as an escape whose two digits are in either case. */
  datatype Spelling = Plain | Escape(upperHigh: bool, upperLow: bool)

  /** Only one-byte characters can be escaped, and a percent sign has to be. */
  predicate MaySpell(how: Spelling, c: char) { if how.Plain? then c != '%' else c as int < 256 }

  function Spell(c: char, how: Spelling): string
    requires MaySpell(how, c)
  {
    match how
    case Plain => [c]
    case Escape(high, low) => ['%', HexDigit(c as int / 16, high), HexDigit(c as int % 16, low)]
  }

  predicate Spells(how: seq<Spelling>, plain: string) {
    |how| == |plain| && forall i :: 0 <= i < |plain| ==> MaySpell(how[i], plain[i])
  }

  function Encode(plain: string, how: seq<Spelling>): string
    requires Spells(how, plain)
    decreases |plain|
  {
    if plain == "" then "" else Spell(plain[0], how[0]) + Encode(plain[1..], how[1..])
  }

  ghost predicate Encodes(encoded: string, plain: string) {
    exists how :: Spells(how, plain) && Encode(plain, how) == encoded
  }

  lemma HexDigitValue(v: nat, upper: bool)
    requires v < 16
    ensures IsHex(HexDigit(v, upper)) && HexValue(HexDigit(v, upper)) == v
  {
  }

  lemma HexValueDigit(c: char)
    requires IsHex(c)
    ensures HexDigit(HexValue(c), 'A' <= c <= 'F') == c
  {
  }

  lemma SpellingIsUndone(c: char, how: Spelling, rest: string)
    requires MaySpell(how, c) && PathUnescape(rest).Some?
    ensures PathUnescape(Spell(c, how) + rest) == Some([c] + PathUnescape(rest).value)
  {
    var encoded := Spell(c, how) + rest;
    if how.Plain? {
      assert encoded[1..] == rest;
    } else {
      HexDigitValue(c as int / 16, how.upperHigh);
      HexDigitValue(c as int % 16, how.upperLow);
      assert encoded[3..] == rest;
    }
  }

  lemma EscapeOfNibbles(high: nat, low: nat, how: Spelling)
    requires high < 16 && low < 16 && how.Escape?
    ensures var c := (high * 16 + low) as char;
            MaySpell(how, c) && Spell(c, how) == ['%', HexDigit(high, how.upperHigh), HexDigit(low, how.upperLow)]
  {
    assert (high * 16 + low) / 16 == high && (high * 16 + low) % 16 == low;
  }

  lemma EscapeOf(high: char, low: char) returns (how: Spelling)
    requires IsHex(high) && IsHex(low)
    ensures var c := (HexValue(high) * 16 + HexValue(low)) as char;
            MaySpell(how, c) && Spell(c, how) == ['%', high, low]
  {
    how := Escape('A' <= high <= 'F', 'A' <= low <= 'F');
    EscapeOfNibbles(HexValue(high), HexValue(low), how);
    HexValueDigit(high);
    HexValueDigit(low);
  }

  /** What can be unescaped begins with a spelling of the first character. */
  lemma FirstSpelling(encoded: string) returns (how: Spelling, rest: string)
    requires encoded != "" && PathUnescape(encoded).Some?
    ensures |rest| < |encoded| && PathUnescape(rest).Some? && PathUnescape(encoded).value != ""
    ensures var plain := PathUnescape(encoded).value;
            plain[1..] == PathUnescape(rest).value && MaySpell(how, plain[0]) && encoded == Spell(plain[0], how) + rest
  {
    if encoded[0] != '%' {
      how, rest := Plain, encoded[1..];
    } else {
      how := EscapeOf(encoded[1], encoded[2]);
      rest := encoded[3..];
      assert encoded == ['%', encoded[1], encoded[2]] + rest;
    }
  }

  /** Every encoding of a text is undone. */
  lemma {:induction false} EncodingIsUndone(plain: string, how: seq<Spelling>)
    requires Spells(how, plain)
    ensures PathUnescape(Encode(plain, how)) == Some(plain)
    decreases |plain|
  {
    if plain != "" {
      EncodingIsUndone(plain[1..], how[1..]);
      SpellingIsUndone(plain[0], how[0], Encode(plain[1..], how[1..]));
      assert plain == [plain[0]] + plain[1..];
    }
  }

  /** What can be unescaped is an encoding of the result. */
  lemma {:induction false} UndoneIsEncoding(encoded: string) returns (how: seq<Spelling>)
    requires PathUnescape(encoded).Some?
    ensures Spells(how, PathUnescape(encoded).value) && Encode(PathUnescape(encoded).value, how) == encoded
    decreases |encoded|
  {
    if encoded == "" {
      how := [];
    } else {
      var first, rest := FirstSpelling(encoded);
      var others := UndoneIsEncoding(rest);
      how := [first] + others;
      assert how[1..] == others;
    }
  }

  /** Unescaping undoes exactly the percent-encodings. */
  lemma UnescapeUndoesEncoding(encoded: string, plain: string)
    ensures Encodes(encoded, plain) <==> PathUnescape(encoded) == Some(plain)
  {
    if Encodes(encoded, plain) {
      var how :| Spells(how, plain) && Encode(plain, how) == encoded;
      EncodingIsUndone(plain, how);
    }
    if PathUnescape(encoded) == Some(plain) {
      var how := UndoneIsEncoding(encoded);
    }
  }

  /** A path is denied exactly when it, or a path it percent-encodes, is: no single encoding hides one. */
  lemma DeniedThroughOneEncoding(urlPath: string)
    ensures KubePathDenied(urlPath) <==>
              DeniedKubePath(urlPath) || exists plain :: Encodes(urlPath, plain) && DeniedKubePath(plain)
  {
    var unescaped := PathUnescape(urlPath);
    if unescaped.Some? {
      UnescapeUndoesEncoding(urlPath, unescaped.value);
    }
    forall plain | Encodes(urlPath, plain) ensures unescaped == Some(plain) {
      UnescapeUndoesEncoding(urlPath, plain);
    }
  }

  /** However the characters of a denied path are escaped, the result is denied. */
  lemma EncodingsOfDeniedAreDenied(plain: string, how: seq<Spelling>)
    requires Spells(how, plain) && DeniedKubePath(plain)
    ensures KubePathDenied(Encode(plain, how))
  {
    DeniedThroughOneEncoding(Encode(plain, how));
  }

  // ----- The pod paths by name -----

  /** On a pod of a namespace, exactly the five streaming subresources are denied. */
  lemma PodSubresourceDenied(ns: string, pod: string, sub: string)
    requires IsSegment(ns) && IsSegment(pod) && IsSegment(sub)
    ensures DeniedKubePath("/" + Join(["api", "v1", "namespaces", ns, "pods", pod, sub], '/')) <==>
              || sub == "exec" || sub == "attach" || sub == "portforward" || sub == "proxy" || sub == "ephemeralcontainers"
  {
    var r := ApiRequest(None, "v1", None, Some(ns), "pods", Sub(pod, sub, []));
    PodRequest(ns, pod, sub);
    DeniedIffStreaming(r);
  }

  lemma PodRequest(ns: string, pod: string, sub: string)
    requires IsSegment(ns) && IsSegment(pod) && IsSegment(sub)
    ensures var r := ApiRequest(None, "v1", None, Some(ns), "pods", Sub(pod, sub, []));
            && Render(r) == ["api", "v1", "namespaces", ns, "pods", pod, sub]
            && WellFormed(r) && Unambiguous(r) && VerbOf(r) == "" && SubresourceOf(r) == sub
  {
  }
}
