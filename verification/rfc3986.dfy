/** `resolve_redirect` against reference resolution as section 5.2 of RFC 3986 defines it: for
    which relative references, on which bases, both request the same path and query. */
module Rfc3986 {
  import opened Wrappers
  import opened Text
  import opened Urls
  import opened Redirects

  // ---------------------------------------------------------------- dot segments

  predicate NotSlash(c: char) {
    c != '/'
  }

  /** The length of the first segment of `s`, with its leading '/'. */
  function FirstSegment(s: string): (n: nat)
    requires Rooted(s)
    ensures 0 < n <= |s| && (n < |s| ==> s[n] == '/')
  {
    1 + Span(s[1..], NotSlash)
  }

  /** "/.." */
  predicate IsUp(segment: string) {
    |segment| == 3 && segment[1] == '.' && segment[2] == '.'
  }

  /** "/." or "/.." */
  predicate IsDots(segment: string) {
    (|segment| == 2 && segment[1] == '.') || IsUp(segment)
  }

  /** The output without its last segment. */
  function Parent(output: string): (r: string)
    ensures |r| <= |output|
  {
    match FindLast(output, '/')
    case None => ""
    case Some(slash) => output[..slash]
  }

  /** Section 5.2.4 for an input that starts with '/', as merged paths do. */
  function RemoveDots(input: string, output: string): string
    requires input == "" || Rooted(input)
    decreases |input|
  {
    if input == "" then output
    else
      var n := FirstSegment(input);
      var rest := input[n..];
      if IsDots(input[..n]) then
        var kept := if IsUp(input[..n]) then Parent(output) else output;
        if rest == "" then kept + "/" else RemoveDots(rest, kept)
      else
        RemoveDots(rest, output + input[..n])
  }

  predicate NoDots(input: string)
    requires input == "" || Rooted(input)
    decreases |input|
  {
    input == "" ||
      var n := FirstSegment(input); !IsDots(input[..n]) && NoDots(input[n..])
  }

  /** Removing dot segments never makes a path longer, and leaves it alone exactly if it has
      none. */
  lemma {:induction false} RemoveDotsIff(input: string, output: string)
    requires input == "" || Rooted(input)
    ensures NoDots(input) ==> RemoveDots(input, output) == output + input
    ensures |RemoveDots(input, output)|
         <= |output| + |input| - if NoDots(input) then 0 else 1
    decreases |input|
  {
    if input == "" {
      assert output + "" == output;
    } else {
      var n := FirstSegment(input);
      if IsDots(input[..n]) {
        DotsRemoved(input, output, n);
      } else {
        RemoveDotsIff(input[n..], output + input[..n]);
        assert (output + input[..n]) + input[n..] == output + input;
      }
    }
  }

  lemma DotsRemoved(input: string, output: string, n: nat)
    requires Rooted(input) && n == FirstSegment(input) && IsDots(input[..n])
    ensures |RemoveDots(input, output)| < |output| + |input|
    decreases |input|, 0
  {
    var kept := if IsUp(input[..n]) then Parent(output) else output;
    if n < |input| { RemoveDotsIff(input[n..], kept); }
  }

  // ---------------------------------------------------------------- resolution

  /** A relative reference, section 4.2: it has no scheme. */
  predicate IsRelative(r: Tail) {
    TailMatches(r) && ':' !in r.path[..Span(r.path, NotSlash)]
  }

  /** A network-path reference, which names an authority of its own. */
  predicate HasAuthority(r: Tail) {
    StartsWith(r.path, "//")
  }

  /** What follows the authority. */
  function AfterAuthority(path: string): (rest: string)
    requires StartsWith(path, "//")
    ensures (rest == "" || Rooted(rest)) && |rest| + 2 <= |path|
  {
    path[2..][Span(path[2..], NotSlash)..]
  }

  lemma RootedDirectory(path: string)
    requires Rooted(path)
    ensures Rooted(Directory(path)) && |Directory(path)| <= |path|
  {
    var slash := FindLast(path, '/').value;
    assert path[..slash + 1][0] == path[0];
  }

  /** The path of a rooted reference. */
  function OwnPath(r: Tail): string {
    if HasAuthority(r) then AfterAuthority(r.path) else r.path
  }

  /** Path and query of the target, section 5.2.2. Its authority is that of the base unless the
      reference has one. */
  function RfcTarget(base: Tail, r: Tail): Tail
    requires Rooted(PathOf(base))
  {
    if r.path == "" then
      Tail(base.path, if r.query.Some? then r.query else base.query, r.fragment)
    else if Rooted(r.path) then Tail(RemoveDots(OwnPath(r), ""), r.query, r.fragment)
    else
      RootedDirectory(PathOf(base));
      Tail(RemoveDots(MergeDirectory(base) + r.path, ""), r.query, r.fragment)
  }

  /** The relative references for which the code requests what the RFC says, on a base with path
      and query `base`: an empty one, if the base ends in '/'; a query alone, if the path does and
      the query of the base has no '/'; a rooted one without authority and dot segments; and any
      other whose merged path has none, if the query of the base has no '/'. */
  predicate Agrees(base: Tail, r: Tail)
    requires Rooted(PathOf(base))
  {
    var path := PathOf(base);
    if r.path == "" then
      if r.query == None then EndsInSlash(FullPath(base))
      else !SlashInQuery(base) && EndsInSlash(path)
    else if Rooted(r.path) then !HasAuthority(r) && NoDots(r.path)
    else
      RootedDirectory(path);
      !SlashInQuery(base) && NoDots(MergeDirectory(base) + r.path)
  }

  predicate EndsInSlash(path: string) {
    path != "" && path[|path| - 1] == '/'
  }

  // ---------------------------------------------------------------- what the code requests

  /** A ':' after characters of a path segment is in the first segment of the path. */
  lemma ColonInFirst(location: string, path: string, k: nat)
    requires k < |location| && location[k] == ':' && path <= location
    requires |path| < |location| ==> !PathChar(location[|path|])
    requires forall i :: 0 <= i <= k ==> NotSlash(location[i]) && PathChar(location[i])
    ensures ':' in path[..Span(path, NotSlash)]
  {
    assert k < |path|;
    var n := Span(path, NotSlash);
    assert n < |path| ==> location[n] == path[n];
    assert n > k;
    assert path[..n][k] == location[k];
  }

  lemma PathIsPrefix(t: Tail)
    ensures t.path <= PrintTail(t)
    ensures |t.path| < |PrintTail(t)| ==> !PathChar(PrintTail(t)[|t.path|])
  {
  }

  lemma SchemeStart(location: string, prefix: string)
    requires StartsWith(location, prefix)
    ensures forall i :: 0 <= i < |prefix| ==> location[i] == prefix[i]
  {
  }

  lemma NoScheme(r: Tail, prefix: string, k: nat)
    requires IsRelative(r) && k < |prefix| && prefix[k] == ':'
    requires forall i :: 0 <= i <= k ==> NotSlash(prefix[i]) && PathChar(prefix[i])
    ensures !StartsWith(PrintTail(r), prefix)
  {
    PathIsPrefix(r);
    if StartsWith(PrintTail(r), prefix) {
      SchemeStart(PrintTail(r), prefix);
      ColonInFirst(PrintTail(r), r.path, k);
    }
  }

  lemma RelativeIsNotAbsolute(r: Tail)
    requires IsRelative(r)
    ensures !Absolute(PrintTail(r))
  {
    NoScheme(r, "http://", 4);
    NoScheme(r, "https://", 5);
  }

  /** `resolve_redirect` on base `u` gives the scheme, host and port of the base, and the path
      and query that the tail of its target has. */
  lemma Resolved(u: Url, r: Tail, tail: Tail)
    requires Parsed(u) && Rooted(u.path) && IsRelative(r)
    requires ScanTail(Target(u, PrintTail(r))) == Some(tail)
    ensures ParseUrl(Resolve(u, PrintTail(r)))
         == Some(Url(u.protocol, u.host, u.port, FullPath(tail)))
  {
    RelativeIsNotAbsolute(r);
    DirectoryOf(u.path);
    ReparseTarget(u, Target(u, PrintTail(r)));
  }

  lemma RootedTarget(u: Url, r: Tail)
    requires Rooted(r.path) && TailMatches(r)
    ensures ScanTail(Target(u, PrintTail(r))) == Some(r)
  {
    assert PrintTail(r)[0] == r.path[0];
    TailOf(r);
  }

  lemma NotRooted(r: Tail)
    requires !Rooted(r.path)
    ensures !Rooted(PrintTail(r))
  {
    if r.path != "" { assert PrintTail(r)[0] == r.path[0]; }
  }

  lemma Assoc(a: string, b: string, c: string)
    ensures a + (b + c) == (a + b) + c
  {
  }

  lemma AllConcat(a: string, b: string, ok: char -> bool)
    requires All(a, ok) && All(b, ok)
    ensures All(a + b, ok)
  {
  }

  /** The directory is within the path of the base. */
  lemma PlainTarget(u: Url, r: Tail)
    requires !Rooted(r.path) && TailMatches(r) && All(Directory(u.path), PathChar)
    ensures ScanTail(Target(u, PrintTail(r)))
         == Some(Tail(Directory(u.path) + r.path, r.query, r.fragment))
  {
    NotRooted(r);
    var dir := Directory(u.path);
    Assoc(dir, r.path, PrintQuery(r.query) + PrintFragment(r.fragment));
    AllConcat(dir, r.path, PathChar);
    TailOf(Tail(dir + r.path, r.query, r.fragment));
  }

  /** The query that the target has when the directory ends within `query` of the base. */
  function LateQuery(query: string, r: Tail): string {
    query + (r.path + PrintQuery(r.query))
  }

  lemma LateQueryIsQuery(query: string, r: Tail)
    requires TailMatches(r) && All(query, QueryChar)
    ensures All(LateQuery(query, r), QueryChar)
  {
    AllConcat(r.path, PrintQuery(r.query), QueryChar);
    AllConcat(query, r.path + PrintQuery(r.query), QueryChar);
  }

  lemma LatePrint(path: string, query: string, r: Tail)
    ensures (path + ("?" + query)) + PrintTail(r)
         == PrintTail(Tail(path, Some(LateQuery(query, r)), r.fragment))
  {
    var fragment := PrintFragment(r.fragment);
    var more := r.path + PrintQuery(r.query);
    Assoc(r.path, PrintQuery(r.query), fragment);
    Assoc(path, "?" + query, more + fragment);
    Assoc("?" + query, more, fragment);
    Assoc("?", query, more);
  }

  /** The directory ends within the query of the base. */
  lemma QueryTarget(u: Url, r: Tail, path: string, query: string)
    requires !Rooted(r.path) && TailMatches(r) && All(path, PathChar) && All(query, QueryChar)
    requires Directory(u.path) == path + ("?" + query)
    ensures ScanTail(Target(u, PrintTail(r)))
         == Some(Tail(path, Some(LateQuery(query, r)), r.fragment))
  {
    NotRooted(r);
    LatePrint(path, query, r);
    LateQueryIsQuery(query, r);
    TailOf(Tail(path, Some(LateQuery(query, r)), r.fragment));
  }

  // ---------------------------------------------------------------- comparing the two

  predicate SlashInQuery(t: Tail) {
    t.query.Some? && '/' in t.query.value
  }

  lemma PlainDirectory(t: Tail)
    requires TailMatches(t) && Rooted(PathOf(t)) && !SlashInQuery(t)
    ensures Directory(FullPath(t)) == MergeDirectory(t) && All(MergeDirectory(t), PathChar)
  {
    MergesLikeRfc3986Iff(t);
    assert All(PathOf(t), PathChar);
    var slash := FindLast(PathOf(t), '/').value;
    assert MergeDirectory(t) == PathOf(t)[..slash + 1];
  }

  lemma QueryDirectory(t: Tail) returns (query: string)
    requires TailMatches(t) && Rooted(PathOf(t)) && SlashInQuery(t)
    ensures query != "" && All(query, QueryChar)
    ensures Directory(FullPath(t)) == PathOf(t) + ("?" + query)
  {
    var path, rest := PathOf(t), "?" + t.query.value;
    assert FullPath(t) == path + rest;
    assert '/' in rest;
    LastOfAppended(path, rest, '/');
    var slash := FindLast(path + rest, '/').value;
    var k := slash + 1 - |path|;
    assert (path + rest)[slash] == rest[k - 1] == '/';
    query := rest[1..k];
    assert rest[..k] == "?" + query;
    assert (path + rest)[..slash + 1] == path + rest[..k];
  }

  lemma DirectoryIsSelfIff(path: string)
    requires Rooted(path)
    ensures Directory(path) == path <==> EndsInSlash(path)
  {
    var slash := FindLast(path, '/').value;
    if Directory(path) == path { assert |path| == slash + 1; }
    if EndsInSlash(path) { assert slash == |path| - 1 && path[..|path|] == path; }
  }

  lemma FullPathSame(a: Tail, b: Tail)
    requires a.query == b.query
    ensures FullPath(a) == FullPath(b) <==> PathOf(a) == PathOf(b)
  {
    if a.query.Some? && a.query.value != "" {
      var rest := "?" + a.query.value;
      assert FullPath(a) == PathOf(a) + rest && FullPath(b) == PathOf(b) + rest;
      SameWithSuffix(PathOf(a), PathOf(b), rest);
    }
  }

  lemma {:induction false} RemoveDotsLeavesSome(input: string, output: string)
    requires Rooted(input)
    ensures RemoveDots(input, output) != ""
    decreases |input|
  {
    var n := FirstSegment(input);
    var rest := input[n..];
    if rest != "" {
      if IsDots(input[..n]) {
        RemoveDotsLeavesSome(rest, if IsUp(input[..n]) then Parent(output) else output);
      } else {
        RemoveDotsLeavesSome(rest, output + input[..n]);
      }
    }
  }

  /** A path whose dot segments are removed is the same request exactly if it has none. */
  lemma DotFreeIff(path: string, query: Option<string>, f: Option<string>, g: Option<string>)
    requires Rooted(path)
    ensures FullPath(Tail(path, query, f)) == FullPath(Tail(RemoveDots(path, ""), query, g))
       <==> NoDots(path)
  {
    RemoveDotsIff(path, "");
    RemoveDotsLeavesSome(path, "");
    assert "" + path == path;
    FullPathSame(Tail(path, query, f), Tail(RemoveDots(path, ""), query, g));
  }

  lemma PlainAgrees(t: Tail, r: Tail)
    requires TailMatches(t) && Rooted(PathOf(t)) && !SlashInQuery(t) && !Rooted(r.path)
    ensures FullPath(Tail(MergeDirectory(t) + r.path, r.query, r.fragment))
         == FullPath(RfcTarget(t, r))
       <==> Agrees(t, r)
  {
    RootedDirectory(PathOf(t));
    if r.path != "" {
      DotFreeIff(MergeDirectory(t) + r.path, r.query, r.fragment, r.fragment);
    } else {
      assert MergeDirectory(t) + r.path == MergeDirectory(t);
      PathlessAgrees(t, r);
    }
  }

  lemma PathlessAgrees(t: Tail, r: Tail)
    requires TailMatches(t) && Rooted(PathOf(t)) && !SlashInQuery(t) && r.path == ""
    ensures FullPath(Tail(MergeDirectory(t), r.query, r.fragment)) == FullPath(RfcTarget(t, r))
       <==> Agrees(t, r)
  {
    DirectoryIsSelfIff(PathOf(t));
    PlainDirectory(t);
    if r.query.Some? {
      RootedDirectory(PathOf(t));
      FullPathSame(Tail(MergeDirectory(t), r.query, r.fragment), RfcTarget(t, r));
    } else {
      assert FullPath(t)[0] == PathOf(t)[0];
      DirectoryIsSelfIff(FullPath(t));
    }
  }

  lemma FullPathLength(t: Tail)
    ensures |FullPath(t)| <= |PathOf(t)| + |PrintQuery(t.query)|
  {
  }

  lemma QueryAgrees(t: Tail, r: Tail, query: string)
    requires TailMatches(t) && Rooted(PathOf(t)) && SlashInQuery(t) && !Rooted(r.path)
    requires query != "" && Directory(FullPath(t)) == PathOf(t) + ("?" + query)
    ensures FullPath(Tail(PathOf(t), Some(LateQuery(query, r)), r.fragment))
         == FullPath(RfcTarget(t, r))
       <==> Agrees(t, r)
  {
    var code := FullPath(Tail(PathOf(t), Some(LateQuery(query, r)), r.fragment));
    assert |code| == |PathOf(t)| + 1 + |query| + |r.path| + |PrintQuery(r.query)|;
    if r.path == "" && r.query == None {
      assert LateQuery(query, r) == query;
      assert code == PathOf(t) + ("?" + query);
      DirectoryIsSelfIff(FullPath(t));
    } else {
      QueryTargetIsShorter(t, r);
    }
  }

  lemma QueryTargetIsShorter(t: Tail, r: Tail)
    requires Rooted(PathOf(t)) && !Rooted(r.path) && (r.path != "" || r.query.Some?)
    ensures |FullPath(RfcTarget(t, r))| <= |PathOf(t)| + |r.path| + |PrintQuery(r.query)|
  {
    FullPathLength(RfcTarget(t, r));
    RootedDirectory(PathOf(t));
    if r.path != "" {
      RemoveDotsIff(MergeDirectory(t) + r.path, "");
      RemoveDotsLeavesSome(MergeDirectory(t) + r.path, "");
    }
  }

  /** What is compared, for a base that parses to `u` with tail `t`. */
  ghost predicate Compared(u: Url, t: Tail, r: Tail)
    requires Rooted(PathOf(t))
  {
    var v := ParseUrl(Resolve(u, PrintTail(r)));
    && v.Some? && SameOrigin(u, v.value)
    && (v.value.path == FullPath(RfcTarget(t, r)) <==> Agrees(t, r))
  }

  ghost predicate BaseOf(u: Url, t: Tail) {
    Parsed(u) && TailMatches(t) && Rooted(PathOf(t)) && u.path == FullPath(t) && Rooted(u.path)
  }

  lemma AuthorityDiffers(r: Tail, target: Tail)
    requires HasAuthority(r) && target.query == r.query
    requires target.path == RemoveDots(OwnPath(r), "")
    ensures FullPath(r) != FullPath(target)
  {
    RemoveDotsIff(AfterAuthority(r.path), "");
    assert |PathOf(target)| < |PathOf(r)|;
    FullPathSame(r, target);
  }

  /** The code takes the authority of the reference for a part of the path. */
  lemma AuthorityCase(u: Url, t: Tail, r: Tail)
    requires BaseOf(u, t) && IsRelative(r) && Rooted(r.path) && HasAuthority(r)
    ensures Compared(u, t, r) && !Agrees(t, r)
  {
    RootedTarget(u, r);
    Resolved(u, r, r);
    AuthorityDiffers(r, RfcTarget(t, r));
  }

  lemma RootedCase(u: Url, t: Tail, r: Tail)
    requires BaseOf(u, t) && IsRelative(r) && Rooted(r.path) && !HasAuthority(r)
    ensures Compared(u, t, r)
  {
    RootedTarget(u, r);
    Resolved(u, r, r);
    DotFreeIff(r.path, r.query, r.fragment, r.fragment);
  }

  lemma QueryCase(u: Url, t: Tail, r: Tail)
    requires BaseOf(u, t) && IsRelative(r) && !Rooted(r.path) && SlashInQuery(t)
    ensures Compared(u, t, r)
  {
    var query := QueryDirectory(t);
    QueryTarget(u, r, PathOf(t), query);
    Resolved(u, r, Tail(PathOf(t), Some(LateQuery(query, r)), r.fragment));
    QueryAgrees(t, r, query);
  }

  lemma PlainCase(u: Url, t: Tail, r: Tail)
    requires BaseOf(u, t) && IsRelative(r) && !Rooted(r.path) && !SlashInQuery(t)
    ensures Compared(u, t, r)
  {
    PlainDirectory(t);
    PlainTarget(u, r);
    Resolved(u, r, Tail(MergeDirectory(t) + r.path, r.query, r.fragment));
    PlainAgrees(t, r);
  }

  lemma AgreesFor(u: Url, t: Tail, r: Tail)
    requires BaseOf(u, t) && IsRelative(r)
    ensures Compared(u, t, r)
  {
    if Rooted(r.path) {
      if HasAuthority(r) { AuthorityCase(u, t, r); } else { RootedCase(u, t, r); }
    } else if SlashInQuery(t) {
      QueryCase(u, t, r);
    } else {
      PlainCase(u, t, r);
    }
  }

  lemma ScannedBase(base: string, p: Parts)
    requires Scan(base) == Some(p) && Rooted(PathOf(p.tail))
    ensures BaseOf(ToUrl(p), p.tail)
  {
    ScanIff(base, p);
    ParsedUrl(base);
    assert FullPath(p.tail)[0] == PathOf(p.tail)[0];
  }

  /** For every base with an empty or rooted path and every relative reference: the code keeps
      scheme, host and port, and requests the path and query of section 5.2.2 exactly when
      `Agrees` says so. For a reference with an authority that is never. */
  lemma AgreesIff(base: string, p: Parts, r: Tail)
    requires Scan(base) == Some(p) && Rooted(PathOf(p.tail)) && IsRelative(r)
    ensures ParseUrl(base).Some?
    ensures var v := ParseUrl(ResolveRedirect(base, PrintTail(r)));
      && v.Some? && SameOrigin(ToUrl(p), v.value)
      && (v.value.path == FullPath(RfcTarget(p.tail, r)) <==> Agrees(p.tail, r))
  {
    ScannedBase(base, p);
    RelativeIsNotAbsolute(r);
    AgreesFor(ToUrl(p), p.tail, r);
    assert ResolveRedirect(base, PrintTail(r)) == Resolve(ToUrl(p), PrintTail(r));
  }
}
