/** `HttpClient`: the counted recursion over redirects, against a server that answers the k-th
    exchange of a call with whatever it likes. */
module HttpClient {
  import opened Wrappers
  import opened Urls
  import opened Redirects

  datatype HttpResponse = HttpResponse(
    statusCode: int, body: string, headers: map<string, string>, success: bool,
    errorMessage: string)

  /** 303 is not among them. */
  predicate IsRedirect(r: HttpResponse) {
    r.statusCode == 301 || r.statusCode == 302 || r.statusCode == 307 || r.statusCode == 308
  }

  predicate KeepsMethod(statusCode: int) {
    statusCode == 307 || statusCode == 308
  }

  /** `get_headers` compares names exactly, so two spellings are looked up. */
  function Location(r: HttpResponse): Option<string> {
    if "Location" in r.headers then Some(r.headers["Location"])
    else if "location" in r.headers then Some(r.headers["location"])
    else None
  }

  /** How URLs are read: `parse_url`, and `resolve_redirect` on a base already parsed. */
  datatype UrlRules = UrlRules(parse: string -> Option<Url>, resolve: (Url, string) -> string)

  function StandardRules(): UrlRules {
    UrlRules(ParseUrl, Resolve)
  }

  datatype Verb = GetVerb | PostVerb | PutVerb | PatchVerb | DeleteVerb | HeadVerb

  function VerbOf(name: string): Verb {
    if name == "POST" then PostVerb
    else if name == "PUT" then PutVerb
    else if name == "PATCH" then PatchVerb
    else if name == "DELETE" then DeleteVerb
    else if name == "HEAD" then HeadVerb
    else GetVerb
  }

  datatype Request = Request(
    verb: string, url: string, headers: map<string, string>, body: string)

  /** One request on the wire, with its answer. */
  datatype Exchange = Exchange(uri: Url, verb: Verb, request: Request, response: HttpResponse)

  predicate BecomesGet(verb: string) {
    verb == "POST" || verb == "PUT" || verb == "PATCH"
  }

  /** The request that follows a redirect to `url`. */
  function Redirected(request: Request, statusCode: int, url: string): Request {
    if KeepsMethod(statusCode) then request.(url := url)
    else if BecomesGet(request.verb) then request.(verb := "GET", url := url, body := "")
    else request.(url := url, body := "")
  }

  function InvalidUrl(url: string): HttpResponse {
    HttpResponse(0, "", map[], false, "Invalid URL: " + url)
  }

  predicate Follows(follow: bool, response: HttpResponse, remaining: int) {
    follow && IsRedirect(response) && remaining > 0 && Location(response).Some?
  }

  function NextRequest(rules: UrlRules, x: Exchange): Request
    requires Location(x.response).Some?
  {
    Redirected(x.request, x.response.statusCode,
               rules.resolve(x.uri, Location(x.response).value))
  }

  /** `HttpClient::do_request`, with the exchanges it makes; `sent` counts the earlier ones. */
  function DoRequest(rules: UrlRules, server: nat -> HttpResponse, follow: bool,
                     request: Request, remaining: int, sent: nat)
    : (seq<Exchange>, HttpResponse)
    decreases remaining
  {
    match rules.parse(request.url)
    case None => ([], InvalidUrl(request.url))
    case Some(uri) =>
      var x := Exchange(uri, VerbOf(request.verb), request, server(sent));
      if Follows(follow, x.response, remaining) then
        var (later, last) :=
          DoRequest(rules, server, follow, NextRequest(rules, x), remaining - 1, sent + 1);
        ([x] + later, last)
      else
        ([x], x.response)
  }

  // ---------------------------------------------------------------- what a call sends

  /** The verb on the wire for a method string; any unknown one is sent as GET. */
  predicate Names(name: string, verb: Verb) {
    match verb
    case PostVerb => name == "POST"
    case PutVerb => name == "PUT"
    case PatchVerb => name == "PATCH"
    case DeleteVerb => name == "DELETE"
    case HeadVerb => name == "HEAD"
    case GetVerb =>
      name != "POST" && name != "PUT" && name != "PATCH" && name != "DELETE" && name != "HEAD"
  }

  ghost predicate WellSent(rules: UrlRules, x: Exchange) {
    rules.parse(x.request.url) == Some(x.uri) && Names(x.request.verb, x.verb)
  }

  /** An answer that says where to go instead. */
  predicate Moved(r: HttpResponse) {
    && (r.statusCode == 301 || r.statusCode == 302 || r.statusCode == 307 || r.statusCode == 308)
    && ("Location" in r.headers || "location" in r.headers)
  }

  function MovedTo(r: HttpResponse): string
    requires Moved(r)
  {
    if "Location" in r.headers then r.headers["Location"] else r.headers["location"]
  }

  /** `next` is the request that follows `x`. */
  ghost predicate LeadsTo(rules: UrlRules, x: Exchange, next: Request) {
    && Moved(x.response) && next.url == rules.resolve(x.uri, MovedTo(x.response))
    && next.headers == x.request.headers
    && if x.response.statusCode == 307 || x.response.statusCode == 308 then
         next.verb == x.request.verb && next.body == x.request.body
       else
         && next.body == ""
         && next.verb == if x.request.verb == "POST" || x.request.verb == "PUT"
                            || x.request.verb == "PATCH" then "GET" else x.request.verb
  }

  lemma NextLeadsTo(rules: UrlRules, x: Exchange, follow: bool, remaining: int)
    ensures Follows(follow, x.response, remaining) <==> follow && remaining > 0 && Moved(x.response)
    ensures Follows(follow, x.response, remaining) ==> LeadsTo(rules, x, NextRequest(rules, x))
  {
  }

  lemma VerbOfNames(name: string)
    ensures Names(name, VerbOf(name))
  {
  }

  /** Every exchange is with a URL that parses and, after the first, answers the redirect before
      it; that redirect was resolved against a URL that parses. */
  ghost predicate Linked(rules: UrlRules, xs: seq<Exchange>) {
    && (forall i :: 0 <= i < |xs| ==> WellSent(rules, xs[i]))
    && (forall i :: 0 < i < |xs| ==> LeadsTo(rules, xs[i - 1], xs[i].request))
  }

  /** What the client gets for a URL that does not parse. */
  predicate IsInvalid(r: HttpResponse, url: string) {
    r == HttpResponse(0, "", map[], false, "Invalid URL: " + url)
  }

  /** The call ended with response `last` for a reason: the first URL or the redirected one does
      not parse, or the last answer is no redirect or one too many. */
  ghost predicate Ended(rules: UrlRules, follow: bool, request: Request, remaining: int,
                        xs: seq<Exchange>, last: HttpResponse)
  {
    if xs == [] then rules.parse(request.url) == None && IsInvalid(last, request.url)
    else
      var x := xs[|xs| - 1];
      if follow && |xs| <= remaining && Moved(x.response) then
        var url := rules.resolve(x.uri, MovedTo(x.response));
        rules.parse(url) == None && IsInvalid(last, url)
      else last == x.response
  }

  predicate FollowedFrom(follow: bool, remaining: int, i: nat, x: Exchange) {
    follow && i < remaining && Moved(x.response)
  }

  /** Every exchange but the last has a successor because its answer is followed. */
  ghost predicate Followed(follow: bool, remaining: int, xs: seq<Exchange>) {
    forall i :: 0 <= i < |xs| - 1 ==> FollowedFrom(follow, remaining, i, xs[i])
  }

  lemma LinkedCons(rules: UrlRules, x: Exchange, xs: seq<Exchange>)
    requires WellSent(rules, x) && Linked(rules, xs)
    requires xs != [] ==> LeadsTo(rules, x, xs[0].request)
    ensures Linked(rules, [x] + xs)
  {
    var all := [x] + xs;
    forall i | 0 < i < |all| ensures LeadsTo(rules, all[i - 1], all[i].request) {
      if i > 1 { assert LeadsTo(rules, xs[i - 1 - 1], xs[i - 1].request); }
    }
  }

  /** The exchanges `xs` of a call, linked from the first request to the reason that it ended with
      `last`, at most one more than the redirects that remained. */
  ghost predicate Traced(rules: UrlRules, server: nat -> HttpResponse, follow: bool,
                         request: Request, remaining: int, sent: nat,
                         xs: seq<Exchange>, last: HttpResponse)
  {
    && |xs| <= (if remaining > 0 then remaining else 0) + 1
    && (xs != [] ==> xs[0].request == request)
    && (forall i :: 0 <= i < |xs| ==> xs[i].response == server(sent + i))
    && Linked(rules, xs)
    && Followed(follow, remaining, xs)
    && Ended(rules, follow, request, remaining, xs, last)
  }

  lemma TraceCons(rules: UrlRules, server: nat -> HttpResponse, follow: bool, x: Exchange,
                  remaining: int, sent: nat, later: seq<Exchange>, last: HttpResponse, next: Request)
    requires WellSent(rules, x) && x.response == server(sent)
    requires follow && remaining > 0 && LeadsTo(rules, x, next)
    requires Traced(rules, server, follow, next, remaining - 1, sent + 1, later, last)
    ensures Traced(rules, server, follow, x.request, remaining, sent, [x] + later, last)
  {
    LinkedCons(rules, x, later);
    FollowedCons(follow, x, remaining, later);
    EndedCons(rules, follow, x, next, remaining, later, last);
    forall i | 0 <= i < |[x] + later| ensures ([x] + later)[i].response == server(sent + i) {
      if i > 0 { assert later[i - 1].response == server(sent + 1 + (i - 1)); }
    }
  }

  lemma EndedCons(rules: UrlRules, follow: bool, x: Exchange, next: Request, remaining: int,
                  later: seq<Exchange>, last: HttpResponse)
    requires follow && remaining > 0 && LeadsTo(rules, x, next)
    requires Ended(rules, follow, next, remaining - 1, later, last)
    ensures Ended(rules, follow, x.request, remaining, [x] + later, last)
  {
    assert later != [] ==> ([x] + later)[|later|] == later[|later| - 1];
  }

  lemma FollowedCons(follow: bool, x: Exchange, remaining: int, later: seq<Exchange>)
    requires follow && remaining > 0 && Moved(x.response) && Followed(follow, remaining - 1, later)
    ensures Followed(follow, remaining, [x] + later)
  {
    var xs := [x] + later;
    forall i | 0 <= i < |xs| - 1 ensures FollowedFrom(follow, remaining, i, xs[i]) {
      if i > 0 { assert FollowedFrom(follow, remaining - 1, i - 1, later[i - 1]); }
    }
  }

  /** For every server: the exchanges of one call. */
  lemma {:induction false} Trace(rules: UrlRules, server: nat -> HttpResponse, follow: bool,
                                 request: Request, remaining: int, sent: nat)
    ensures var (xs, last) := DoRequest(rules, server, follow, request, remaining, sent);
      Traced(rules, server, follow, request, remaining, sent, xs, last)
    decreases remaining
  {
    if rules.parse(request.url).Some? {
      var x := Exchange(rules.parse(request.url).value, VerbOf(request.verb), request,
                        server(sent));
      VerbOfNames(request.verb);
      NextLeadsTo(rules, x, follow, remaining);
      if Follows(follow, x.response, remaining) {
        var next := NextRequest(rules, x);
        var (later, last) := DoRequest(rules, server, follow, next, remaining - 1, sent + 1);
        Trace(rules, server, follow, next, remaining - 1, sent + 1);
        TraceCons(rules, server, follow, x, remaining, sent, later, last, next);
      }
    }
  }

  /** The answers before exchange `i` all preserve the method. */
  ghost predicate AllKeep(xs: seq<Exchange>, i: nat)
    requires i <= |xs|
  {
    forall j :: 0 <= j < i ==>
      xs[j].response.statusCode == 307 || xs[j].response.statusCode == 308
  }

  /** The request of hop `i`, as the statuses before it decide. */
  ghost predicate HopOf(first: Request, xs: seq<Exchange>, i: nat)
    requires i < |xs|
  {
    var r := xs[i].request;
    && r.verb == (if !AllKeep(xs, i)
                     && (first.verb == "POST" || first.verb == "PUT" || first.verb == "PATCH")
                  then "GET" else first.verb)
    && r.body == (if AllKeep(xs, i) then first.body else "")
    && r.headers == first.headers
  }

  /** Hop by hop: POST, PUT and PATCH become GET once a 301 or 302 was followed, other methods
      stay; the body goes along only while every redirect was a 307 or 308. */
  lemma {:induction false} HopIsFold(rules: UrlRules, xs: seq<Exchange>, i: nat)
    requires Linked(rules, xs) && i < |xs|
    ensures HopOf(xs[0].request, xs, i)
  {
    if i > 0 {
      HopIsFold(rules, xs, i - 1);
      assert LeadsTo(rules, xs[i - 1], xs[i].request);
      var status := xs[i - 1].response.statusCode;
      assert AllKeep(xs, i) <==> AllKeep(xs, i - 1) && (status == 307 || status == 308);
    }
  }

  // ---------------------------------------------------------------- the client calls

  datatype HttpOptions = HttpOptions(maxRedirects: int, followRedirects: bool)

  function DefaultOptions(): HttpOptions {
    HttpOptions(5, true)
  }

  /** `Get`, `Post`, `Put`, `Patch`, `Delete` and `Head`, by their method string. */
  function Call(rules: UrlRules, server: nat -> HttpResponse, options: HttpOptions,
                request: Request): (seq<Exchange>, HttpResponse)
  {
    DoRequest(rules, server, options.followRedirects, request, options.maxRedirects, 0)
  }

  /** One client call, whatever the server does: at most n + 1 exchanges, linked by redirects,
      with method and body of each hop decided by the earlier statuses. */
  lemma CallIsBounded(rules: UrlRules, server: nat -> HttpResponse, options: HttpOptions,
                      request: Request)
    requires options.maxRedirects >= 0
    ensures var (xs, last) := Call(rules, server, options, request);
      && |xs| <= options.maxRedirects + 1
      && Linked(rules, xs)
      && Followed(options.followRedirects, options.maxRedirects, xs)
      && Ended(rules, options.followRedirects, request, options.maxRedirects, xs, last)
      && (forall i :: 0 <= i < |xs| ==> HopOf(request, xs, i))
  {
    Trace(rules, server, options.followRedirects, request, options.maxRedirects, 0);
    var (xs, last) := Call(rules, server, options, request);
    forall i | 0 <= i < |xs| ensures HopOf(request, xs, i) {
      HopIsFold(rules, xs, i);
    }
  }

  /** With the code's own URL functions, redirect by redirect: `resolve_redirect` on the URL of
      one exchange, which parses, gives the URL of the next. */
  lemma StandardHop(xs: seq<Exchange>, i: nat)
    requires Linked(StandardRules(), xs) && 0 < i < |xs|
    ensures var before := xs[i - 1];
      && ParseUrl(before.request.url).Some? && Moved(before.response)
      && xs[i].request.url == ResolveRedirect(before.request.url, MovedTo(before.response))
  {
    assert WellSent(StandardRules(), xs[i - 1]);
    assert LeadsTo(StandardRules(), xs[i - 1], xs[i].request);
  }

  /** Where exchange `x` leads, if it leads anywhere. */
  ghost predicate Continues(rules: UrlRules, follow: bool, remaining: int, x: Exchange) {
    && follow && remaining > 0 && Moved(x.response)
    && rules.parse(rules.resolve(x.uri, MovedTo(x.response))).Some?
  }

  /** An exchange has a successor exactly if its answer leads to a URL that parses. */
  lemma SuccessorIff(rules: UrlRules, follow: bool, n: int, request: Request, xs: seq<Exchange>,
                     last: HttpResponse, i: nat)
    requires Linked(rules, xs) && Followed(follow, n, xs) && i < |xs|
    requires Ended(rules, follow, request, n, xs, last)
    ensures rules.parse(xs[i].request.url) == Some(xs[i].uri)
    ensures i + 1 < |xs| <==> Continues(rules, follow, n - i, xs[i])
  {
    assert WellSent(rules, xs[i]);
    if i + 1 < |xs| {
      assert LeadsTo(rules, xs[i + 1 - 1], xs[i + 1].request) && WellSent(rules, xs[i + 1]);
    }
  }

  lemma StandardContinues(follow: bool, remaining: int, x: Exchange)
    requires ParseUrl(x.request.url) == Some(x.uri)
    ensures Continues(StandardRules(), follow, remaining, x) <==>
      && follow && remaining > 0 && Moved(x.response)
      && ParseUrl(ResolveRedirect(x.request.url, MovedTo(x.response))).Some?
  {
  }

  /** One client call with the code's own URL functions, for every server: an exchange has a
      successor exactly if redirects are followed, fewer than the allowed number have been, the
      answer is a 301, 302, 307 or 308 with a location, and that leads to a URL that parses. */
  lemma CallFollows(server: nat -> HttpResponse, options: HttpOptions, request: Request,
                    xs: seq<Exchange>, i: nat)
    requires xs == Call(StandardRules(), server, options, request).0
    ensures xs == [] <==> ParseUrl(request.url) == None
    ensures i < |xs| ==> xs[i].response == server(i) && ParseUrl(xs[i].request.url).Some?
    ensures i < |xs| ==>
      (i + 1 < |xs| <==>
       && options.followRedirects && i < options.maxRedirects && Moved(server(i))
       && ParseUrl(ResolveRedirect(xs[i].request.url, MovedTo(server(i)))).Some?)
  {
    var last := Call(StandardRules(), server, options, request).1;
    Trace(StandardRules(), server, options.followRedirects, request, options.maxRedirects, 0);
    if xs != [] { assert WellSent(StandardRules(), xs[0]); }
    if i < |xs| {
      SuccessorIff(StandardRules(), options.followRedirects, options.maxRedirects, request, xs,
                   last, i);
      StandardContinues(options.followRedirects, options.maxRedirects - i, xs[i]);
    }
  }

  lemma StandardTarget(x: Exchange)
    requires WellSent(StandardRules(), x)
    ensures ParseUrl(x.request.url).Some?
    ensures forall location ::
      StandardRules().resolve(x.uri, location) == ResolveRedirect(x.request.url, location)
  {
  }

  /** What the call returns: the last answer, unless that is a redirect to be followed to a URL that
      does not parse. */
  lemma CallReturns(server: nat -> HttpResponse, options: HttpOptions, request: Request,
                    xs: seq<Exchange>, last: HttpResponse)
    requires (xs, last) == Call(StandardRules(), server, options, request)
    ensures xs == [] ==> IsInvalid(last, request.url)
    ensures xs != [] ==> ParseUrl(xs[|xs| - 1].request.url).Some?
    ensures xs != [] ==>
      var x := xs[|xs| - 1];
      if options.followRedirects && |xs| <= options.maxRedirects && Moved(x.response)
      then IsInvalid(last, ResolveRedirect(x.request.url, MovedTo(x.response)))
      else last == x.response
  {
    Trace(StandardRules(), server, options.followRedirects, request, options.maxRedirects, 0);
    if xs != [] {
      var x := xs[|xs| - 1];
      assert WellSent(StandardRules(), x);
      StandardTarget(x);
    }
  }

  /** With the options of `main`, five redirects in a row are followed and no sixth. */
  lemma DefaultCallFollowsFive(server: nat -> HttpResponse, request: Request,
                               xs: seq<Exchange>, i: nat)
    requires xs == Call(StandardRules(), server, DefaultOptions(), request).0
    requires i < |xs|
    ensures ParseUrl(xs[i].request.url).Some?
    ensures i + 1 < |xs| <==>
      && i < 5 && Moved(server(i))
      && ParseUrl(ResolveRedirect(xs[i].request.url, MovedTo(server(i)))).Some?
  {
    CallFollows(server, DefaultOptions(), request, xs, i);
  }

  // ---------------------------------------------------------------- relative redirects

  /** Rules under which a relative location without line break keeps the origin of a base. */
  ghost predicate KeepOrigins(rules: UrlRules) {
    && (forall url :: rules.parse(url).Some? ==> Parsed(rules.parse(url).value))
    && (forall u, location :: Parsed(u) && Rooted(u.path) && Relative(location) ==>
        var v := rules.parse(rules.resolve(u, location));
        v.Some? && SameOrigin(u, v.value) && Rooted(v.value.path))
  }

  predicate Relative(location: string) {
    !Absolute(location) && CleanFragment(location)
  }

  lemma StandardKeepsOrigins()
    ensures KeepOrigins(StandardRules())
  {
    forall url | ParseUrl(url).Some? ensures Parsed(ParseUrl(url).value) { ParsedUrl(url); }
    forall u, location | Parsed(u) && Rooted(u.path) && Relative(location)
      ensures var v := ParseUrl(Resolve(u, location));
              v.Some? && SameOrigin(u, v.value) && Rooted(v.value.path)
    {
      ResolvedStaysOnOrigin(u, location);
    }
  }

  /** The server answers redirects with relative locations only. */
  ghost predicate RedirectsWithin(server: nat -> HttpResponse) {
    forall k :: Moved(server(k)) ==> Relative(MovedTo(server(k)))
  }

  lemma NextStaysOnOrigin(rules: UrlRules, x: Exchange)
    requires KeepOrigins(rules) && WellSent(rules, x) && Rooted(x.uri.path)
    requires Moved(x.response) && Relative(MovedTo(x.response))
    ensures var v := rules.parse(rules.resolve(x.uri, MovedTo(x.response)));
      v.Some? && SameOrigin(x.uri, v.value) && Rooted(v.value.path)
  {
    assert Parsed(x.uri);
  }

  lemma {:induction false} HopStaysOnOrigin(rules: UrlRules, xs: seq<Exchange>, i: nat)
    requires KeepOrigins(rules) && Linked(rules, xs) && i < |xs| && Rooted(xs[0].uri.path)
    requires forall j :: 0 <= j < i && Moved(xs[j].response) ==> Relative(MovedTo(xs[j].response))
    ensures SameOrigin(xs[0].uri, xs[i].uri) && Rooted(xs[i].uri.path)
  {
    if i > 0 {
      HopStaysOnOrigin(rules, xs, i - 1);
      assert WellSent(rules, xs[i - 1]) && WellSent(rules, xs[i]);
      assert LeadsTo(rules, xs[i - 1], xs[i].request);
      NextStaysOnOrigin(rules, xs[i - 1]);
    }
  }

  lemma CallStaysOnOrigin(rules: UrlRules, server: nat -> HttpResponse, options: HttpOptions,
                          request: Request)
    requires KeepOrigins(rules) && RedirectsWithin(server)
    requires rules.parse(request.url).Some? && Rooted(rules.parse(request.url).value.path)
    ensures var (xs, last) := Call(rules, server, options, request);
      && xs != [] && last == xs[|xs| - 1].response
      && forall i :: 0 <= i < |xs| ==> SameOrigin(rules.parse(request.url).value, xs[i].uri)
  {
    Trace(rules, server, options.followRedirects, request, options.maxRedirects, 0);
    var (xs, last) := Call(rules, server, options, request);
    assert WellSent(rules, xs[0]);
    forall i | 0 <= i < |xs|
      ensures SameOrigin(rules.parse(request.url).value, xs[i].uri) && Rooted(xs[i].uri.path)
    {
      HopStaysOnOrigin(rules, xs, i);
    }
    var x := xs[|xs| - 1];
    assert WellSent(rules, x) && x.response == server(|xs| - 1);
    if Moved(x.response) { NextStaysOnOrigin(rules, x); }
  }

  /** A server that only redirects to relative locations without line breaks in their fragments
      keeps every exchange of a call at the first origin, and the call ends with a real answer:
      no URL is found invalid on the way. */
  lemma RelativeCallStaysOnOrigin(server: nat -> HttpResponse, options: HttpOptions,
                                  request: Request)
    requires RedirectsWithin(server)
    requires ParseUrl(request.url).Some? && Rooted(ParseUrl(request.url).value.path)
    ensures var (xs, last) := Call(StandardRules(), server, options, request);
      && xs != [] && last == xs[|xs| - 1].response
      && forall i :: 0 <= i < |xs| ==> SameOrigin(ParseUrl(request.url).value, xs[i].uri)
  {
    StandardKeepsOrigins();
    CallStaysOnOrigin(StandardRules(), server, options, request);
  }
}
