/** `resolve_redirect`: a Location header against the URL that answered with it. */
module Redirects {
  import opened Wrappers
  import opened Text
  import opened Urls

  /** A location that names its own scheme. */
  predicate Absolute(location: string) {
    StartsWith(location, "http://") || StartsWith(location, "https://")
  }

  /** The port as the root shows it: the default port is left out. */
  function ShownPort(u: Url): string {
    if (u.protocol == Http && u.port != "80") || (u.protocol == Https && u.port != "443")
    then u.port else ""
  }

  function Root(u: Url): string {
    Prefix(u.protocol) + (u.host + PrintPort(ShownPort(u)))
  }

  function Directory(path: string): string {
    match FindLast(path, '/')
    case None => "/"
    case Some(slash) => path[..slash + 1]
  }

  /** What is appended to the root. */
  function Target(u: Url, location: string): string {
    if location != "" && location[0] == '/' then location else Directory(u.path) + location
  }

  /** `resolve_redirect` for a base that parses to `u`. */
  function Resolve(u: Url, location: string): string {
    if StartsWith(location, "http://") || StartsWith(location, "https://") then location
    else Root(u) + Target(u, location)
  }

  /** `resolve_redirect`; a relative location needs a base that parses. */
  function ResolveRedirect(base: string, location: string): string
    requires Absolute(location) || ParseUrl(base).Some?
  {
    if ParseUrl(base) == None then location else Resolve(ParseUrl(base).value, location)
  }

  // ---------------------------------------------------------------- reparsing

  predicate SameOrigin(u: Url, v: Url) {
    u.protocol == v.protocol && u.host == v.host && u.port == v.port
  }

  predicate Rooted(path: string) {
    path != "" && path[0] == '/'
  }

  /** What parsing promises of its result. */
  predicate Parsed(u: Url) {
    && u.host != "" && All(u.host, HostChar)
    && u.port != "" && All(u.port, Digit)
    && u.path != "" && u.path[0] != '?' && All(u.path, QueryChar)
    && (u.port != DefaultPort(u.protocol) ==> !Digit(u.path[0]))
  }

  lemma FullPathIsClean(t: Tail)
    requires TailMatches(t)
    ensures var path := FullPath(t);
      path != "" && path[0] != '?' && All(path, QueryChar)
      && (t.path != "" ==> path[0] == t.path[0]) && (t.path == "" ==> path[0] == '/')
  {
  }

  lemma DefaultPortIsPort(protocol: Protocol)
    ensures DefaultPort(protocol) != "" && All(DefaultPort(protocol), Digit)
  {
  }

  lemma PathStart(port: string, t: Tail)
    requires TailMatches(t) && port != "" && Greedy(port, PrintTail(t))
    ensures !Digit(FullPath(t)[0])
  {
    FullPathIsClean(t);
    if t.path != "" { assert PrintTail(t)[0] == t.path[0]; }
  }

  lemma ParsedUrl(url: string)
    requires ParseUrl(url).Some?
    ensures Parsed(ParseUrl(url).value)
  {
    var p := Scan(url).value;
    ScanIff(url, p);
    FullPathIsClean(p.tail);
    DefaultPortIsPort(p.protocol);
    if p.port != "" { PathStart(p.port, p.tail); }
  }

  /** Protocol, host and port as they are printed, and the rest scanned on its own. */
  lemma ReparseGreedy(u: Url, port: string, rest: string)
    requires Parsed(u) && All(port, Digit) && Greedy(port, rest)
    ensures Scan(Prefix(u.protocol) + (u.host + (PrintPort(port) + rest)))
         == match ScanTail(rest)
            case None => None
            case Some(tail) => Some(Parts(u.protocol, u.host, port, tail))
  {
    SchemeOf(u.protocol, PrintAuthority(u.host, port, rest));
    AuthorityOf(u.protocol, u.host, port, rest);
  }

  lemma RootIsPrinted(u: Url, target: string)
    ensures Root(u) + target
         == Prefix(u.protocol) + (u.host + (PrintPort(ShownPort(u)) + target))
  {
  }

  /** Leaving out the default port is undone by the parser. */
  lemma ReparseTarget(u: Url, target: string)
    requires Parsed(u) && Greedy(ShownPort(u), target)
    ensures ParseUrl(Root(u) + target)
         == match ScanTail(target)
            case None => None
            case Some(tail) => Some(Url(u.protocol, u.host, u.port, FullPath(tail)))
  {
    RootIsPrinted(u, target);
    ReparseGreedy(u, ShownPort(u), target);
  }

  /** The directory part has no '#', and starts as the path does if it is not just "/". */
  lemma DirectoryOf(path: string)
    requires path != "" && All(path, QueryChar)
    ensures var dir := Directory(path);
      dir != "" && All(dir, QueryChar) && dir[|dir| - 1] == '/'
      && (dir == "/" || dir[0] == path[0]) && (Rooted(path) ==> Rooted(dir))
  {
  }

  lemma TargetIsClean(u: Url, location: string)
    requires Parsed(u)
    ensures CleanFragment(Target(u, location)) == CleanFragment(location)
  {
    DirectoryOf(u.path);
    CleanAfter(Directory(u.path), location);
  }

  lemma RootedTail(target: string)
    requires Rooted(target) && ScanTail(target).Some?
    ensures Rooted(FullPath(ScanTail(target).value))
  {
    assert Span(target, PathChar) > 0;
  }

  lemma ResolvedStaysOnOrigin(u: Url, location: string)
    requires Parsed(u) && Rooted(u.path) && !Absolute(location)
    ensures var v := ParseUrl(Resolve(u, location));
      && (v.Some? <==> CleanFragment(location))
      && (v.Some? ==> SameOrigin(u, v.value) && Rooted(v.value.path))
  {
    var target := Target(u, location);
    DirectoryOf(u.path);
    assert Rooted(target);
    ReparseTarget(u, target);
    TargetIsClean(u, location);
    TailExists(target);
    if ScanTail(target).Some? { RootedTail(target); }
  }

  /** A relative location on a '/'-rooted base: the result parses exactly when the fragment of
      the location has no line break, it has the origin of the base, and it is rooted again. */
  lemma RelativeStaysOnOrigin(base: string, location: string)
    requires ParseUrl(base).Some? && Rooted(ParseUrl(base).value.path) && !Absolute(location)
    ensures var v := ParseUrl(ResolveRedirect(base, location));
      && (v.Some? <==> CleanFragment(location))
      && (v.Some? ==> SameOrigin(ParseUrl(base).value, v.value) && Rooted(v.value.path))
  {
    ParsedUrl(base);
    ResolvedStaysOnOrigin(ParseUrl(base).value, location);
  }

  // ---------------------------------------------------------------- any base at all

  lemma ReparseExists(u: Url, target: string)
    requires Parsed(u)
    ensures ParseUrl(Root(u) + target).Some? == CleanFragment(target)
  {
    var port := ShownPort(u);
    var s := PrintAuthority(u.host, port, target);
    RootIsPrinted(u, target);
    SchemeOf(u.protocol, s);
    AuthorityExists(u.protocol, s);
    CleanAfterAuthority(u.host, port, target);
    SpanOf(u.host, PrintPort(port) + target, HostChar);
  }

  /** Text that a host can hold is taken into the host. */
  lemma HostGrows(u: Url, target: string)
    requires Parsed(u) && ShownPort(u) == "" && target != "" && HostChar(target[0])
    ensures ParseUrl(Root(u) + target).Some? ==>
      ParseUrl(Root(u) + target).value.host != u.host
  {
    RootIsPrinted(u, target);
    assert PrintPort(ShownPort(u)) + target == target;
    SchemeOf(u.protocol, u.host + target);
    SpanOf(u.host, target, HostChar);
    assert |(u.host + target)[..Span(u.host + target, HostChar)]| > |u.host|;
  }

  /** Digits after a ':' are taken as the port. */
  lemma PortAppears(u: Url, target: string)
    requires Parsed(u) && ShownPort(u) == "" && target != "" && target[0] == ':'
    ensures ParseUrl(Root(u) + target).Some? ==>
      var v := ParseUrl(Root(u) + target).value;
      var port := ScanPort(target).0;
      v.protocol == u.protocol && v.host == u.host && v.port == if port == "" then u.port else port
  {
    var (port, rest) := ScanPort(target);
    PortIsPrinted(target);
    ReparseGreedy(u, port, rest);
    RootIsPrinted(u, target);
    assert PrintPort(ShownPort(u)) + target == PrintPort(port) + rest;
  }

  /** The digits that a reader would take for a port at the start of `path`. */
  function LeadingPort(path: string): string {
    ScanPort(path).0
  }

  lemma TailsAgree(a: string, b: string, n: nat)
    requires 0 < n < |a| && n < |b| && a[..n + 1] == b[..n + 1]
    ensures a[1..][..n] == b[1..][..n] && a[1..][n - 1] == a[n]
  {
    assert a[1..][..n] == a[..n + 1][1..];
    assert b[1..][..n] == b[..n + 1][1..];
  }

  /** Texts that agree up to a '/' have the same leading port. */
  lemma LeadingPortStops(a: string, b: string, n: nat)
    requires 0 < n < |a| && n < |b| && a[..n + 1] == b[..n + 1] && a[0] == ':' && a[n] == '/'
    ensures LeadingPort(a) == LeadingPort(b)
  {
    TailsAgree(a, b, n);
    assert b[0] == b[..n + 1][0] == a[0];
    SpanStops(a[1..], b[1..], n - 1);
    LeadingDigits(a);
    LeadingDigits(b);
  }

  lemma LeadingPortOfDirectory(path: string, location: string)
    requires path != "" && path[0] == ':' && FindLast(path, '/').Some?
    ensures LeadingPort(Directory(path) + location) == LeadingPort(path)
  {
    var n := FindLast(path, '/').value;
    var target := Directory(path) + location;
    assert target[..n + 1] == path[..n + 1];
    LeadingPortStops(path, target, n);
  }

  lemma LeadingDigits(path: string)
    requires path != "" && path[0] == ':'
    ensures LeadingPort(path) == path[1..][..Span(path[1..], Digit)]
  {
  }

  /** Two texts that agree up to a character that is not a digit have the same leading digits. */
  lemma {:induction false} SpanStops(a: string, b: string, n: nat)
    requires n < |a| && n < |b| && a[..n + 1] == b[..n + 1] && !Digit(a[n])
    ensures Span(a, Digit) == Span(b, Digit) <= n
    ensures a[..Span(a, Digit)] == b[..Span(b, Digit)]
    decreases n
  {
    assert a[0] == a[..n + 1][0] == b[0];
    if n > 0 && Digit(a[0]) {
      assert a[1..][..n] == a[..n + 1][1..] == b[..n + 1][1..] == b[1..][..n];
      SpanStops(a[1..], b[1..], n - 1);
    }
    assert a[..Span(a, Digit)] == a[..n + 1][..Span(a, Digit)];
    assert b[..Span(a, Digit)] == b[..n + 1][..Span(a, Digit)];
  }

  /** When a relative location keeps the origin of its base: it is rooted; or the path of the
      base is; or the port is printed; or the text that comes to stand after the host starts
      with a ':' that introduces no other port. */
  predicate KeepsOrigin(u: Url, location: string) {
    || Rooted(location)
    || Rooted(Directory(u.path))
    || u.port != DefaultPort(u.protocol)
    || (u.path != "" && u.path[0] == ':' && (LeadingPort(u.path) == "" || LeadingPort(u.path) == u.port))
  }

  lemma ShownPortOf(u: Url)
    requires Parsed(u)
    ensures ShownPort(u) == if u.port != DefaultPort(u.protocol) then u.port else ""
  {
  }

  lemma TargetStart(u: Url, location: string)
    requires Parsed(u)
    ensures var target := Target(u, location);
      && target != "" && PathChar(target[0])
      && (Rooted(location) || Rooted(Directory(u.path)) <==> Rooted(target))
      && (!Rooted(target) ==> target[0] == u.path[0] && FindLast(u.path, '/').Some?
                              && target == Directory(u.path) + location)
  {
    DirectoryOf(u.path);
  }

  lemma OriginKept(u: Url, location: string)
    requires Parsed(u) && (Rooted(Target(u, location)) || ShownPort(u) != "")
    ensures KeepsOrigin(u, location)
    ensures var v := ParseUrl(Root(u) + Target(u, location)); v.Some? ==> SameOrigin(u, v.value)
  {
    ShownPortOf(u);
    TargetStart(u, location);
    ReparseTarget(u, Target(u, location));
  }

  lemma KeepsAtColon(u: Url, location: string)
    requires Parsed(u) && !Rooted(Target(u, location)) && ShownPort(u) == "" && u.path[0] == ':'
    ensures var port := LeadingPort(Target(u, location));
      KeepsOrigin(u, location) <==> port == "" || port == u.port
    ensures Target(u, location) != "" && Target(u, location)[0] == ':'
  {
    ShownPortOf(u);
    TargetStart(u, location);
    LeadingPortOfDirectory(u.path, location);
  }

  lemma OriginAtColon(u: Url, location: string)
    requires Parsed(u) && !Rooted(Target(u, location)) && ShownPort(u) == "" && u.path[0] == ':'
    ensures var v := ParseUrl(Root(u) + Target(u, location));
      v.Some? ==> (SameOrigin(u, v.value) <==> KeepsOrigin(u, location))
  {
    KeepsAtColon(u, location);
    PortAppears(u, Target(u, location));
  }

  lemma OriginLost(u: Url, location: string)
    requires Parsed(u) && !Rooted(Target(u, location)) && ShownPort(u) == "" && u.path[0] != ':'
    ensures !KeepsOrigin(u, location)
    ensures var v := ParseUrl(Root(u) + Target(u, location)); v.Some? ==> !SameOrigin(u, v.value)
  {
    ShownPortOf(u);
    TargetStart(u, location);
    HostGrows(u, Target(u, location));
  }

  lemma OriginOfTarget(u: Url, location: string)
    requires Parsed(u)
    ensures var v := ParseUrl(Root(u) + Target(u, location));
      v.Some? ==> (SameOrigin(u, v.value) <==> KeepsOrigin(u, location))
  {
    if Rooted(Target(u, location)) || ShownPort(u) != "" {
      OriginKept(u, location);
    } else if u.path[0] == ':' {
      OriginAtColon(u, location);
    } else {
      OriginLost(u, location);
    }
  }

  /** For every base that parses, rooted or not, and every relative location. */
  lemma OriginKeptIff(base: string, location: string)
    requires ParseUrl(base).Some? && !Absolute(location)
    ensures var u := ParseUrl(base).value; var v := ParseUrl(ResolveRedirect(base, location));
      && Parsed(u)
      && (v.Some? <==> CleanFragment(location))
      && (v.Some? ==> (SameOrigin(u, v.value) <==> KeepsOrigin(u, location)))
  {
    var u := ParseUrl(base).value;
    ParsedUrl(base);
    ReparseExists(u, Target(u, location));
    TargetIsClean(u, location);
    OriginOfTarget(u, location);
  }

  /** A URL whose path starts right after its port, as in "http://h:80x/y". */
  function BareBase(host: string, path: string): Parts {
    Parts(Http, host, "80", Tail(path, None, None))
  }

  predicate BarePath(path: string) {
    && path != "" && All(path, PathChar) && !Digit(path[0]) && HostChar(path[0])
    && FindLast(path, '/').Some?
  }

  lemma BareBaseParses(host: string, path: string)
    requires host != "" && All(host, HostChar) && BarePath(path)
    ensures ParseUrl(Print(BareBase(host, path))) == Some(Url(Http, host, "80", path))
  {
    assert PrintTail(Tail(path, None, None)) == path;
    ParsePrinted(BareBase(host, path));
  }

  /** Such a base loses its origin to every location that is relative to its directory: "z"
      resolves to "http://hx/z". */
  lemma OriginIsLost(host: string, path: string, location: string)
    requires host != "" && All(host, HostChar) && BarePath(path)
    requires !Absolute(location) && !Rooted(location) && CleanFragment(location)
    ensures var base := Print(BareBase(host, path));
      && ParseUrl(base).Some? && ParseUrl(ResolveRedirect(base, location)).Some?
      && !SameOrigin(ParseUrl(base).value, ParseUrl(ResolveRedirect(base, location)).value)
  {
    var base := Print(BareBase(host, path));
    BareBaseParses(host, path);
    OriginKeptIff(base, location);
    BareOrigin(Url(Http, host, "80", path), location);
  }

  lemma BareOrigin(u: Url, location: string)
    requires Parsed(u) && BarePath(u.path) && u.port == DefaultPort(u.protocol)
    requires !Rooted(location)
    ensures !KeepsOrigin(u, location)
  {
    DirectoryOf(u.path);
  }

  // ---------------------------------------------------------------- chains of locations

  /** The URL after a chain of locations, as far as the URLs parse. */
  function Follow(base: string, locations: seq<string>): string
    decreases |locations|
  {
    if locations == [] || (ParseUrl(base) == None && !Absolute(locations[0])) then base
    else Follow(ResolveRedirect(base, locations[0]), locations[1..])
  }

  /** No chain of relative locations leaves the origin of a rooted base. */
  lemma {:induction false} ChainStaysOnOrigin(base: string, locations: seq<string>)
    requires ParseUrl(base).Some? && Rooted(ParseUrl(base).value.path)
    requires forall location :: location in locations ==>
      !Absolute(location) && CleanFragment(location)
    ensures var v := ParseUrl(Follow(base, locations));
      v.Some? && SameOrigin(ParseUrl(base).value, v.value) && Rooted(v.value.path)
    decreases |locations|
  {
    if locations != [] {
      RelativeStaysOnOrigin(base, locations[0]);
      ChainStaysOnOrigin(ResolveRedirect(base, locations[0]), locations[1..]);
    }
  }

  // ---------------------------------------------------------------- the path that results

  /** A text with a path, and a query that is not empty if there is one, is its own full path. */
  lemma FullPathOf(target: string)
    requires Rooted(target) && All(target, QueryChar) && target[|target| - 1] != '?'
    ensures ScanTail(target).Some? && FullPath(ScanTail(target).value) == target
  {
    assert Span(target, QueryChar) == |target|;
    TailExists(target);
    TailIsPrinted(target);
    assert Span(target, PathChar) > 0;
    PrintedPath(ScanTail(target).value);
  }

  lemma FragmentShows(t: Tail)
    requires t.fragment.Some?
    ensures '#' in PrintTail(t)
  {
    assert PrintTail(t)[|t.path| + |PrintQuery(t.query)|] == '#';
  }

  lemma PrintedPath(t: Tail)
    requires t.path != "" && All(PrintTail(t), QueryChar)
    requires PrintTail(t)[|PrintTail(t)| - 1] != '?'
    ensures FullPath(t) == PrintTail(t)
  {
    if t.fragment.Some? { FragmentShows(t); }
    assert PrintTail(t) == t.path + PrintQuery(t.query);
  }

  lemma PathTarget(u: Url, location: string)
    requires Parsed(u) && Rooted(u.path) && All(location, PathChar) && !Rooted(location)
    ensures var target := Directory(u.path) + location;
      && target == Target(u, location)
      && Rooted(target) && All(target, QueryChar) && target[|target| - 1] != '?'
  {
    DirectoryOf(u.path);
  }

  /** A relative location of path characters replaces what follows the last '/' of path and
      query. */
  lemma PathOfTarget(base: string, location: string)
    requires ParseUrl(base).Some? && Rooted(ParseUrl(base).value.path)
    requires !Absolute(location) && All(location, PathChar) && !Rooted(location)
    ensures var v := ParseUrl(ResolveRedirect(base, location));
      v.Some? && v.value.path == Directory(ParseUrl(base).value.path) + location
  {
    var u := ParseUrl(base).value;
    ParsedUrl(base);
    PathTarget(u, location);
    ReparseTarget(u, Target(u, location));
    FullPathOf(Target(u, location));
  }

  /** The base directory of section 5.2.3 of RFC 3986, which looks at the path alone. */
  function MergeDirectory(t: Tail): string {
    Directory(PathOf(t))
  }

  /** Looking for the last '/' in a path and its query finds that of the path exactly when the
      query has none. */
  lemma DirectoryWithQuery(path: string, query: string)
    requires Rooted(path)
    ensures Directory(path + "?" + query) == Directory(path) <==> '/' !in query
  {
    var rest := "?" + query;
    var whole := path + "?" + query;
    assert whole == path + rest;
    assert '/' in query <==> '/' in rest;
    LastOfAppended(path, rest, '/');
    var slash := FindLast(whole, '/').value;
    if '/' in query {
      assert |Directory(whole)| == slash + 1 > |path|;
    } else {
      assert whole[..slash + 1] == path[..slash + 1];
    }
  }

  /** The code's directory is that of the RFC exactly when the query has no '/'. */
  lemma MergesLikeRfc3986Iff(t: Tail)
    requires t.path == "" || Rooted(t.path)
    ensures Directory(FullPath(t)) == MergeDirectory(t)
       <==> t.query == None || '/' !in t.query.value
  {
    if t.query.Some? && t.query.value != "" {
      DirectoryWithQuery(PathOf(t), t.query.value);
    }
  }

  lemma SameWithSuffix(a: string, b: string, c: string)
    ensures a + c == b + c <==> a == b
  {
    if a + c == b + c { assert a == (a + c)[..|a|] == (b + c)[..|b|] == b; }
  }

  /** Through `resolve_redirect`: a relative location of path characters is merged as the RFC
      merges it exactly when the query of the base has no '/'. */
  lemma RedirectMergesIff(base: string, p: Parts, location: string)
    requires Scan(base) == Some(p) && (p.tail.path == "" || Rooted(p.tail.path))
    requires !Absolute(location) && All(location, PathChar) && !Rooted(location)
    ensures var v := ParseUrl(ResolveRedirect(base, location));
      && v.Some?
      && (v.value.path == MergeDirectory(p.tail) + location
          <==> p.tail.query == None || '/' !in p.tail.query.value)
  {
    PathOfTarget(base, location);
    MergesLikeRfc3986Iff(p.tail);
    SameWithSuffix(Directory(FullPath(p.tail)), MergeDirectory(p.tail), location);
  }

  /** A URL with a query but no path, as in "http://h?next=/a". */
  function PathlessBase(host: string, query: string): Parts {
    Parts(Http, host, "", Tail("", Some(query), None))
  }

  lemma PathlessScans(host: string, query: string)
    requires host != "" && All(host, HostChar) && All(query, QueryChar)
    ensures Scan(Print(PathlessBase(host, query))) == Some(PathlessBase(host, query))
  {
    var t := Tail("", Some(query), None);
    assert PrintTail(t) == "?" + query;
    ScanIff(Print(PathlessBase(host, query)), PathlessBase(host, query));
  }

  /** Every such base with a '/' in its query is merged differently: "b" resolves to
      "/?next=/b", not to "/b". */
  lemma PathlessBaseDiffers(host: string, query: string, location: string)
    requires host != "" && All(host, HostChar) && All(query, QueryChar) && '/' in query
    requires !Absolute(location) && All(location, PathChar) && !Rooted(location)
    ensures var base := Print(PathlessBase(host, query));
      ParseUrl(base).Some? &&
      var v := ParseUrl(ResolveRedirect(base, location));
      v.Some? && v.value.path != "/" + location
  {
    PathlessScans(host, query);
    RedirectMergesIff(Print(PathlessBase(host, query)), PathlessBase(host, query), location);
    DirectoryOfSlash(PathOf(PathlessBase(host, query).tail));
  }

  lemma DirectoryOfSlash(path: string)
    requires |path| == 1 && path[0] == '/'
    ensures Directory(path) == path
  {
    var slash := FindLast(path, '/').value;
    assert path[..1] == path;
  }
}
