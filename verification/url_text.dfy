/** `parse_url` and `resolve_redirect` as texts: which texts are URLs and what they stand for, and
    the text that a location is resolved to. */
module UrlText {
  import opened Wrappers
  import opened Text
  import opened Urls
  import opened Redirects

  // ---------------------------------------------------------------- the texts

  predicate IsHost(s: string) {
    s != "" && forall i :: 0 <= i < |s| ==> s[i] != ':' && s[i] != '/' && s[i] != '?' && s[i] != '#'
  }

  predicate IsPort(s: string) {
    forall i :: 0 <= i < |s| ==> '0' <= s[i] <= '9'
  }

  predicate IsPath(s: string) {
    forall i :: 0 <= i < |s| ==> s[i] != '?' && s[i] != '#'
  }

  predicate IsQuery(s: string) {
    forall i :: 0 <= i < |s| ==> s[i] != '#'
  }

  predicate IsFragment(s: string) {
    forall i :: 0 <= i < |s| ==> s[i] != '\n' && s[i] != '\r'
  }

  /** What follows host and port. */
  function Rest(path: string, query: Option<string>, fragment: Option<string>): string {
    path + ((if query.Some? then "?" + query.value else "")
            + (if fragment.Some? then "#" + fragment.value else ""))
  }

  /** A text that starts with `rest` cannot have a longer host or port. */
  predicate Stops(port: string, rest: string) {
    || rest == ""
    || (if port != "" then !('0' <= rest[0] <= '9')
        else rest[0] == '/' || rest[0] == '?' || rest[0] == '#'
             || (rest[0] == ':' && (|rest| == 1 || !('0' <= rest[1] <= '9'))))
  }

  /** The parts of a URL; no port is "". */
  datatype Split = Split(
    https: bool, host: string, port: string, path: string, query: Option<string>,
    fragment: Option<string>)

  predicate IsSplit(x: Split) {
    && IsHost(x.host) && IsPort(x.port) && IsPath(x.path)
    && (x.query.Some? ==> IsQuery(x.query.value))
    && (x.fragment.Some? ==> IsFragment(x.fragment.value))
    && Stops(x.port, Rest(x.path, x.query, x.fragment))
  }

  function TextOf(x: Split): string {
    (if x.https then "https://" else "http://")
    + (x.host + ((if x.port == "" then "" else ":" + x.port) + Rest(x.path, x.query, x.fragment)))
  }

  /** What the URL stands for. */
  function Meaning(x: Split): Url {
    Url(if x.https then Https else Http, x.host,
        if x.port != "" then x.port else if x.https then "443" else "80",
        (if x.path == "" then "/" else x.path)
        + (if x.query == None || x.query == Some("") then "" else "?" + x.query.value))
  }

  // ---------------------------------------------------------------- parse_url

  function PartsOf(x: Split): Parts {
    Parts(if x.https then Https else Http, x.host, x.port, Tail(x.path, x.query, x.fragment))
  }

  function SplitOf(p: Parts): Split {
    Split(p.protocol == Https, p.host, p.port, p.tail.path, p.tail.query, p.tail.fragment)
  }

  lemma SplitIff(x: Split)
    ensures Print(PartsOf(x)) == TextOf(x)
    ensures Matches(PartsOf(x)) && Greedy(x.port, PrintTail(PartsOf(x).tail)) <==> IsSplit(x)
  {
    assert PrintTail(PartsOf(x).tail) == Rest(x.path, x.query, x.fragment);
  }

  lemma MeaningOf(x: Split)
    ensures ToUrl(PartsOf(x)) == Meaning(x)
  {
    var path := if x.path == "" then "/" else x.path;
    assert path + "" == path;
    if x.query.Some? { assert path + "?" + x.query.value == path + ("?" + x.query.value); }
  }

  /** A URL that is put together from its parts is read as these parts. */
  lemma SplitIsRead(x: Split)
    requires IsSplit(x)
    ensures ParseUrl(TextOf(x)) == Some(Meaning(x))
  {
    SplitIff(x);
    MeaningOf(x);
    ParsePrinted(PartsOf(x));
  }

  lemma ReadIsSplit(url: string, u: Url) returns (x: Split)
    requires ParseUrl(url) == Some(u)
    ensures IsSplit(x) && url == TextOf(x) && u == Meaning(x)
  {
    var p := Scan(url).value;
    ScanIff(url, p);
    x := SplitOf(p);
    assert PartsOf(x) == p;
    SplitIff(x);
    MeaningOf(x);
  }

  /** `parse_url` reads `u` from a text exactly if the text can be put together from parts that
      stand for `u`; every other text is refused. */
  lemma ReadIff(url: string, u: Url)
    ensures ParseUrl(url) == Some(u)
       <==> exists x :: IsSplit(x) && url == TextOf(x) && u == Meaning(x)
  {
    if ParseUrl(url) == Some(u) {
      var x := ReadIsSplit(url, u);
    }
    if x :| IsSplit(x) && url == TextOf(x) && u == Meaning(x) {
      SplitIsRead(x);
    }
  }

  // ---------------------------------------------------------------- resolve_redirect

  /** On every base that parses, a location that starts with a scheme of the web is the result as
      it stands. */
  lemma AbsoluteIsKept(base: string, rest: string)
    requires ParseUrl(base).Some?
    ensures ResolveRedirect(base, "http://" + rest) == "http://" + rest
    ensures ResolveRedirect(base, "https://" + rest) == "https://" + rest
  {
    assert ("http://" + rest)[..7] == "http://" && ("https://" + rest)[..8] == "https://";
  }

  /** So a location that is a URL leads to that URL, whatever the base. */
  lemma UrlIsKept(base: string, x: Split)
    requires ParseUrl(base).Some? && IsSplit(x)
    ensures ResolveRedirect(base, TextOf(x)) == TextOf(x)
    ensures ParseUrl(ResolveRedirect(base, TextOf(x))) == Some(Meaning(x))
  {
    SplitIsRead(x);
    AbsoluteIsKept(base, TextOf(x)[if x.https then 8 else 7..]);
    if x.https {
      assert TextOf(x) == "https://" + TextOf(x)[8..];
    } else {
      assert TextOf(x) == "http://" + TextOf(x)[7..];
    }
  }

  /** Scheme, host and port of `u`; the default port is not shown. */
  function Site(u: Url): string {
    (match u.protocol case Http => "http://" case Https => "https://")
    + (u.host
       + (if (u.protocol == Http && u.port == "80") || (u.protocol == Https && u.port == "443")
          then "" else ":" + u.port))
  }

  lemma SiteIsRoot(base: string, u: Url)
    requires ParseUrl(base) == Some(u)
    ensures Site(u) == Root(u)
  {
    ParsedUrl(base);
  }

  lemma LastSlash(dir: string, name: string)
    requires dir != "" && dir[|dir| - 1] == '/' && '/' !in name
    ensures Directory(dir + name) == dir
  {
    var path := dir + name;
    var slash := FindLast(path, '/');
    assert path[|dir| - 1] == '/';
    assert forall j :: |dir| <= j < |path| ==> path[j] == name[j - |dir|];
    assert path[..|dir|] == dir;
  }

  lemma DirectoryIs(path: string, dir: string, name: string)
    requires path == dir + name && '/' !in name && (dir == "" || dir[|dir| - 1] == '/')
    ensures Directory(path) == if dir == "" then "/" else dir
  {
    if dir == "" {
      assert path == name && FindLast(path, '/') == None;
    } else {
      LastSlash(dir, name);
    }
  }

  lemma PrefixIff(location: string, prefix: string)
    ensures StartsWith(location, prefix) <==> prefix <= location
  {
  }

  /** A location with a leading '/' replaces path and query of the base. */
  lemma RootedIsAppended(base: string, u: Url, location: string)
    requires ParseUrl(base) == Some(u) && location != "" && location[0] == '/'
    ensures ResolveRedirect(base, location) == Site(u) + location
  {
    SiteIsRoot(base, u);
    NoScheme(location, "http://");
    NoScheme(location, "https://");
  }

  lemma NoScheme(location: string, prefix: string)
    requires location != "" && prefix != "" && location[0] != prefix[0]
    ensures !StartsWith(location, prefix)
  {
  }

  /** Any other location without a scheme replaces what follows the last '/' of path and query, or
      all of it if there is none. */
  lemma RelativeIsAppended(base: string, u: Url, dir: string, name: string, location: string)
    requires ParseUrl(base) == Some(u) && u.path == dir + name && '/' !in name
    requires dir == "" || dir[|dir| - 1] == '/'
    requires location == "" || location[0] != '/'
    requires !("http://" <= location) && !("https://" <= location)
    ensures ResolveRedirect(base, location)
         == Site(u) + ((if dir == "" then "/" else dir) + location)
  {
    SiteIsRoot(base, u);
    DirectoryIs(u.path, dir, name);
    PrefixIff(location, "http://");
    PrefixIff(location, "https://");
  }
}
