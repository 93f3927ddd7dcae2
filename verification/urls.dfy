/** `parse_url`: the regular expression of the HTTP client as a scanner. Its groups are greedy,
    and `ScanIff` says which texts they match and how. */
module Urls {
  import opened Wrappers
  import opened Text

  // ---------------------------------------------------------------- character classes

  predicate HostChar(c: char) {
    c != ':' && c != '/' && c != '?' && c != '#'
  }

  predicate Digit(c: char) {
    '0' <= c <= '9'
  }

  predicate PathChar(c: char) {
    c != '?' && c != '#'
  }

  predicate QueryChar(c: char) {
    c != '#'
  }

  /** What `.` matches. */
  predicate FragmentChar(c: char) {
    c != '\n' && c != '\r'
  }

  // ---------------------------------------------------------------- the groups

  /** What follows the authority. */
  datatype Tail = Tail(path: string, query: Option<string>, fragment: Option<string>)

  /** `(https?)`. */
  datatype Protocol = Http | Https

  function Prefix(protocol: Protocol): string {
    match protocol
    case Http => "http://"
    case Https => "https://"
  }

  /** The groups of a match; an absent port is "". */
  datatype Parts = Parts(protocol: Protocol, host: string, port: string, tail: Tail)

  /** `([^\?#]*)?(?:\?([^#]*))?(?:#(.*))?$` */
  function ScanTail(s: string): Option<Tail> {
    var p := Span(s, PathChar);
    var (query, rest) := ScanQuery(s[p..]);
    ScanFragment(s[..p], query, rest)
  }

  function ScanQuery(s: string): (Option<string>, string) {
    if s != "" && s[0] == '?' then
      var q := Span(s[1..], QueryChar);
      (Some(s[1..][..q]), s[1..][q..])
    else (None, s)
  }

  function ScanFragment(path: string, query: Option<string>, s: string): Option<Tail> {
    if s == "" then Some(Tail(path, query, None))
    else if s[0] == '#' && All(s[1..], FragmentChar) then Some(Tail(path, query, Some(s[1..])))
    else None
  }

  /** `(?::(\d+))?` and what follows it. */
  function ScanPort(s: string): (string, string) {
    if s != "" && s[0] == ':' && Span(s[1..], Digit) > 0 then
      var d := Span(s[1..], Digit);
      (s[1..][..d], s[1..][d..])
    else ("", s)
  }

  function ScanAuthority(protocol: Protocol, s: string): Option<Parts> {
    var h := Span(s, HostChar);
    if h == 0 then None
    else
      var (port, rest) := ScanPort(s[h..]);
      match ScanTail(rest)
      case None => None
      case Some(tail) => Some(Parts(protocol, s[..h], port, tail))
  }

  /** `(https?)://` */
  function Scheme(url: string): (r: Option<Protocol>)
    ensures r.Some? ==> StartsWith(url, Prefix(r.value))
  {
    if StartsWith(url, "https://") then Some(Https)
    else if StartsWith(url, "http://") then Some(Http)
    else None
  }

  /** `std::regex_match`. */
  function Scan(url: string): Option<Parts> {
    match Scheme(url)
    case None => None
    case Some(protocol) => ScanAuthority(protocol, url[|Prefix(protocol)|..])
  }

  // ---------------------------------------------------------------- the grammar

  function PrintQuery(query: Option<string>): string {
    if query.Some? then "?" + query.value else ""
  }

  function PrintFragment(fragment: Option<string>): string {
    if fragment.Some? then "#" + fragment.value else ""
  }

  function PrintTail(t: Tail): string {
    t.path + (PrintQuery(t.query) + PrintFragment(t.fragment))
  }

  function PrintPort(port: string): string {
    if port == "" then "" else ":" + port
  }

  function PrintAuthority(host: string, port: string, rest: string): string {
    host + (PrintPort(port) + rest)
  }

  function Print(p: Parts): string {
    Prefix(p.protocol) + PrintAuthority(p.host, p.port, PrintTail(p.tail))
  }

  predicate TailMatches(t: Tail) {
    && All(t.path, PathChar)
    && (t.query.Some? ==> All(t.query.value, QueryChar))
    && (t.fragment.Some? ==> All(t.fragment.value, FragmentChar))
  }

  /** `p` is one way to split its text over the groups of the expression. */
  predicate Matches(p: Parts) {
    && p.host != "" && All(p.host, HostChar)
    && All(p.port, Digit)
    && TailMatches(p.tail)
  }

  /** Neither host nor port could take more of `rest`, the text that follows them. */
  predicate Greedy(port: string, rest: string) {
    rest == "" ||
      if port != "" then !Digit(rest[0])
      else !HostChar(rest[0]) && (rest[0] == ':' ==> |rest| == 1 || !Digit(rest[1]))
  }

  // ---------------------------------------------------------------- scanning and printing

  lemma FragmentOf(path: string, query: Option<string>, fragment: Option<string>)
    requires fragment.Some? ==> All(fragment.value, FragmentChar)
    ensures ScanFragment(path, query, PrintFragment(fragment)) == Some(Tail(path, query, fragment))
  {
    if fragment.Some? { assert ("#" + fragment.value)[1..] == fragment.value; }
  }

  lemma QueryOf(query: Option<string>, rest: string)
    requires query.Some? ==> All(query.value, QueryChar)
    requires rest == "" || rest[0] == '#'
    ensures ScanQuery(PrintQuery(query) + rest) == (query, rest)
  {
    if query.Some? {
      assert PrintQuery(query) + rest == "?" + (query.value + rest);
      SomeQuery(query.value, rest);
    } else {
      assert PrintQuery(query) + rest == rest;
    }
  }

  lemma SomeQuery(query: string, rest: string)
    requires All(query, QueryChar) && (rest == "" || rest[0] == '#')
    ensures ScanQuery("?" + (query + rest)) == (Some(query), rest)
  {
    SpanOf(query, rest, QueryChar);
    assert Span(rest, QueryChar) == 0;
    assert ("?" + (query + rest))[1..] == query + rest;
    assert (query + rest)[..|query|] == query && (query + rest)[|query|..] == rest;
  }

  lemma QueryIsPrinted(s: string)
    ensures var (query, rest) := ScanQuery(s);
      s == PrintQuery(query) + rest && (query.Some? ==> All(query.value, QueryChar))
  {
    if s != "" && s[0] == '?' {
      var q := Span(s[1..], QueryChar);
      assert s == "?" + s[1..][..q] + s[1..][q..];
    } else {
      assert s == "" + s;
    }
  }

  lemma FragmentIsPrinted(path: string, query: Option<string>, s: string)
    ensures ScanFragment(path, query, s).Some? ==>
      var t := ScanFragment(path, query, s).value;
      && t == Tail(path, query, t.fragment) && s == PrintFragment(t.fragment)
      && (t.fragment.Some? ==> All(t.fragment.value, FragmentChar))
  {
    if s != "" && s[0] == '#' { assert s == "#" + s[1..]; }
  }

  lemma TailOf(t: Tail)
    requires TailMatches(t)
    ensures ScanTail(PrintTail(t)) == Some(t)
  {
    var after := PrintQuery(t.query) + PrintFragment(t.fragment);
    SpanOf(t.path, after, PathChar);
    assert PrintTail(t)[|t.path|..] == after && PrintTail(t)[..|t.path|] == t.path;
    assert Span(after, PathChar) == 0;
    QueryOf(t.query, PrintFragment(t.fragment));
    FragmentOf(t.path, t.query, t.fragment);
  }

  lemma TailIsPrinted(s: string)
    ensures ScanTail(s).Some? ==>
      TailMatches(ScanTail(s).value) && PrintTail(ScanTail(s).value) == s
  {
    var p := Span(s, PathChar);
    var (query, rest) := ScanQuery(s[p..]);
    assert s == s[..p] + s[p..];
    QueryIsPrinted(s[p..]);
    FragmentIsPrinted(s[..p], query, rest);
  }

  lemma NoPort(rest: string)
    requires Greedy("", rest)
    ensures ScanPort(rest) == ("", rest)
  {
    if rest != "" && rest[0] == ':' {
      assert Span(rest[1..], Digit) == 0;
    }
  }

  lemma SomePort(port: string, rest: string)
    requires port != "" && All(port, Digit) && Greedy(port, rest)
    ensures ScanPort(":" + (port + rest)) == (port, rest)
  {
    SpanOf(port, rest, Digit);
    assert (":" + (port + rest))[1..] == port + rest;
    assert Span(rest, Digit) == 0;
    assert (port + rest)[..|port|] == port && (port + rest)[|port|..] == rest;
  }

  lemma PortOf(port: string, rest: string)
    requires All(port, Digit) && Greedy(port, rest)
    ensures ScanPort(PrintPort(port) + rest) == (port, rest)
    ensures PrintPort(port) + rest == "" || !HostChar((PrintPort(port) + rest)[0])
  {
    if port == "" {
      NoPort(rest);
      assert PrintPort(port) + rest == rest;
    } else {
      SomePort(port, rest);
      assert PrintPort(port) + rest == ":" + (port + rest);
    }
  }

  lemma PortIsPrinted(s: string)
    requires s == "" || !HostChar(s[0])
    ensures var (port, rest) := ScanPort(s);
      s == PrintPort(port) + rest && All(port, Digit) && Greedy(port, rest)
  {
    var (port, rest) := ScanPort(s);
    if port != "" {
      assert s == ":" + s[1..][..|port|] + s[1..][|port|..];
    } else {
      assert s == "" + s;
    }
  }

  /** Where host and port end is forced by greed; the rest is scanned on its own. */
  lemma AuthorityOf(protocol: Protocol, host: string, port: string, rest: string)
    requires host != "" && All(host, HostChar) && All(port, Digit) && Greedy(port, rest)
    ensures ScanAuthority(protocol, PrintAuthority(host, port, rest))
         == match ScanTail(rest)
            case None => None
            case Some(tail) => Some(Parts(protocol, host, port, tail))
  {
    var s := PrintAuthority(host, port, rest);
    var after := PrintPort(port) + rest;
    PortOf(port, rest);
    SpanOf(host, after, HostChar);
    assert s[..|host|] == host && s[|host|..] == after;
  }

  lemma AuthorityIsPrinted(protocol: Protocol, s: string)
    ensures ScanAuthority(protocol, s).Some? ==>
      var p := ScanAuthority(protocol, s).value;
      Matches(p) && p.protocol == protocol && Greedy(p.port, PrintTail(p.tail))
      && s == PrintAuthority(p.host, p.port, PrintTail(p.tail))
  {
    var h := Span(s, HostChar);
    assert s == s[..h] + s[h..];
    PortIsPrinted(s[h..]);
    TailIsPrinted(ScanPort(s[h..]).1);
  }

  lemma SchemeOf(protocol: Protocol, s: string)
    ensures Scheme(Prefix(protocol) + s) == Some(protocol)
    ensures Scan(Prefix(protocol) + s) == ScanAuthority(protocol, s)
  {
    var url := Prefix(protocol) + s;
    assert StartsWith(url, Prefix(protocol));
    assert protocol == Http ==> url[4] == ':';
    assert url[|Prefix(protocol)|..] == s;
  }

  lemma SchemeIsPrinted(url: string)
    ensures Scheme(url).Some? ==>
      url == Prefix(Scheme(url).value) + url[|Prefix(Scheme(url).value)|..]
  {
  }

  /** The scanner and the printer are inverse: `p` is the match of `url` exactly when it splits
      `url` over the groups with host and port as long as they can be. */
  lemma ScanIff(url: string, p: Parts)
    ensures Scan(url) == Some(p)
       <==> url == Print(p) && Matches(p) && Greedy(p.port, PrintTail(p.tail))
  {
    if Scan(url) == Some(p) {
      var protocol := Scheme(url).value;
      SchemeIsPrinted(url);
      AuthorityIsPrinted(protocol, url[|Prefix(protocol)|..]);
    }
    if url == Print(p) && Matches(p) && Greedy(p.port, PrintTail(p.tail)) {
      SchemeOf(p.protocol, PrintAuthority(p.host, p.port, PrintTail(p.tail)));
      AuthorityOf(p.protocol, p.host, p.port, PrintTail(p.tail));
      TailOf(p.tail);
    }
  }

  // ---------------------------------------------------------------- which texts match at all

  /** What follows the first '#' has no line break. */
  predicate CleanFragment(s: string) {
    All(s[Span(s, QueryChar)..], FragmentChar)
  }

  lemma CleanAfter(a: string, b: string)
    requires All(a, QueryChar)
    ensures CleanFragment(a + b) == CleanFragment(b)
  {
    SpanOf(a, b, QueryChar);
    assert (a + b)[|a| + Span(b, QueryChar)..] == b[Span(b, QueryChar)..];
  }

  lemma CleanAfterSpan(s: string, ok: char -> bool)
    requires forall c :: ok(c) ==> QueryChar(c)
    ensures CleanFragment(s[Span(s, ok)..]) == CleanFragment(s)
  {
    var n := Span(s, ok);
    assert s == s[..n] + s[n..];
    CleanAfter(s[..n], s[n..]);
  }

  lemma CleanAfterQuery(s: string)
    requires s == "" || !PathChar(s[0])
    ensures var rest := ScanQuery(s).1;
      (rest == "" || rest[0] == '#') && CleanFragment(rest) == CleanFragment(s)
  {
    if s != "" && s[0] == '?' {
      assert s == "?" + s[1..];
      CleanAfter("?", s[1..]);
      CleanAfterSpan(s[1..], QueryChar);
    }
  }

  lemma CleanAfterPort(s: string)
    ensures CleanFragment(ScanPort(s).1) == CleanFragment(s)
  {
    if s != "" && s[0] == ':' && Span(s[1..], Digit) > 0 {
      assert s == ":" + s[1..];
      CleanAfter(":", s[1..]);
      CleanAfterSpan(s[1..], Digit);
    }
  }

  lemma FragmentExists(path: string, query: Option<string>, s: string)
    requires s == "" || s[0] == '#'
    ensures ScanFragment(path, query, s).Some? == CleanFragment(s)
  {
    assert Span(s, QueryChar) == 0 && s[0..] == s;
    if s != "" && All(s[1..], FragmentChar) {
      forall i | 0 <= i < |s| ensures FragmentChar(s[i]) {
        if i > 0 { assert s[i] == s[1..][i - 1]; }
      }
    }
  }

  lemma TailExists(s: string)
    ensures ScanTail(s).Some? == CleanFragment(s)
  {
    var p := Span(s, PathChar);
    CleanAfterSpan(s, PathChar);
    CleanAfterQuery(s[p..]);
    FragmentExists(s[..p], ScanQuery(s[p..]).0, ScanQuery(s[p..]).1);
  }

  lemma AuthorityExists(protocol: Protocol, s: string)
    ensures ScanAuthority(protocol, s).Some? == (Span(s, HostChar) > 0 && CleanFragment(s))
  {
    var after := s[Span(s, HostChar)..];
    CleanAfterSpan(s, HostChar);
    CleanAfterPort(after);
    TailExists(ScanPort(after).1);
  }

  lemma CleanAfterAuthority(host: string, port: string, rest: string)
    requires All(host, HostChar) && All(port, Digit)
    ensures CleanFragment(PrintAuthority(host, port, rest)) == CleanFragment(rest)
  {
    CleanAfter(host, PrintPort(port) + rest);
    CleanAfter(PrintPort(port), rest);
  }

  lemma MatchIsClean(p: Parts)
    requires Matches(p)
    ensures CleanFragment(PrintAuthority(p.host, p.port, PrintTail(p.tail)))
  {
    TailOf(p.tail);
    TailExists(PrintTail(p.tail));
    CleanAfterAuthority(p.host, p.port, PrintTail(p.tail));
  }

  /** A longer host or, after the same host, a longer port. */
  predicate Longer(p: Parts, q: Parts) {
    |p.host| > |q.host| || (p.host == q.host && |p.port| > |q.port|)
  }

  lemma MissedPort(rest: string)
    requires !Greedy("", rest) && !HostChar(rest[0])
    ensures |ScanPort(rest).0| > 0
  {
    assert rest[1..][0] == rest[1];
  }

  lemma ShortPort(port: string, rest: string)
    requires port != "" && All(port, Digit) && !Greedy(port, rest)
    ensures |ScanPort(":" + (port + rest)).0| > |port|
  {
    SpanOf(port, rest, Digit);
    assert (":" + (port + rest))[1..] == port + rest;
    assert Span(rest, Digit) > 0;
  }

  lemma LongerPort(port: string, rest: string)
    requires All(port, Digit) && !Greedy(port, rest)
    requires !HostChar((PrintPort(port) + rest)[0])
    ensures |ScanPort(PrintPort(port) + rest).0| > |port|
  {
    if port == "" {
      assert PrintPort(port) + rest == rest;
      MissedPort(rest);
    } else {
      assert PrintPort(port) + rest == ":" + (port + rest);
      ShortPort(port, rest);
    }
  }

  lemma AuthorityParts(protocol: Protocol, s: string)
    ensures ScanAuthority(protocol, s).Some? ==>
      && ScanAuthority(protocol, s).value.host == s[..Span(s, HostChar)]
      && ScanAuthority(protocol, s).value.port == ScanPort(s[Span(s, HostChar)..]).0
  {
  }

  lemma SplitAfterHost(host: string, after: string)
    requires All(host, HostChar)
    ensures var s := host + after; var n := Span(s, HostChar);
      && n == |host| + Span(after, HostChar)
      && (after != "" && HostChar(after[0]) ==> n > |host|)
      && (after == "" || !HostChar(after[0]) ==> n == |host| && s[..n] == host && s[n..] == after)
  {
    SpanOf(host, after, HostChar);
  }

  lemma LongerHost(q: Parts, s: string)
    requires Matches(q) && s == PrintAuthority(q.host, q.port, PrintTail(q.tail))
    requires !Greedy(q.port, PrintTail(q.tail))
    ensures ScanAuthority(q.protocol, s).Some? && Longer(ScanAuthority(q.protocol, s).value, q)
  {
    var after := PrintPort(q.port) + PrintTail(q.tail);
    MatchIsClean(q);
    SplitAfterHost(q.host, after);
    AuthorityExists(q.protocol, s);
    AuthorityParts(q.protocol, s);
    assert |after| > 0;
    if !HostChar(after[0]) { LongerPort(q.port, PrintTail(q.tail)); }
  }

  /** The scanner finds a match when there is one, and it finds the one that greedy groups
      prefer. */
  lemma ScanPrefersLonger(q: Parts)
    requires Matches(q)
    ensures Scan(Print(q)).Some?
    ensures Scan(Print(q)).value == q || Longer(Scan(Print(q)).value, q)
  {
    var s := PrintAuthority(q.host, q.port, PrintTail(q.tail));
    SchemeOf(q.protocol, s);
    if Greedy(q.port, PrintTail(q.tail)) { ScanIff(Print(q), q); } else { LongerHost(q, s); }
  }

  // ---------------------------------------------------------------- the parsed URL

  datatype Url = Url(protocol: Protocol, host: string, port: string, path: string)

  function DefaultPort(protocol: Protocol): string {
    match protocol
    case Http => "80"
    case Https => "443"
  }

  /** An empty path counts as "/". */
  function PathOf(t: Tail): string {
    if t.path == "" then "/" else t.path
  }

  /** The path with its query; an empty query counts as none. */
  function FullPath(t: Tail): string {
    if t.query.Some? && t.query.value != "" then PathOf(t) + "?" + t.query.value else PathOf(t)
  }

  function ToUrl(p: Parts): Url {
    Url(p.protocol, p.host, if p.port != "" then p.port else DefaultPort(p.protocol),
        FullPath(p.tail))
  }

  /** `parse_url`. */
  function ParseUrl(url: string): Option<Url> {
    match Scan(url)
    case None => None
    case Some(p) => Some(ToUrl(p))
  }

  lemma ParsePrinted(p: Parts)
    requires Matches(p) && Greedy(p.port, PrintTail(p.tail))
    ensures ParseUrl(Print(p)) == Some(ToUrl(p))
  {
    ScanIff(Print(p), p);
  }
}
