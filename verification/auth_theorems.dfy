/** What the retry protocol of `Auth` promises for every server. */
module AuthTheorems {
  import opened Wrappers
  import opened Json
  import opened Auth

  function Count(sent: seq<Sent>, endpoint: Endpoint): nat
    decreases |sent|
  {
    if sent == [] then 0
    else Count(sent[..|sent| - 1], endpoint) + if sent[|sent| - 1].endpoint == endpoint then 1 else 0
  }

  /** The token of the latest successful login, "" before the first. */
  function LatestToken(sent: seq<Sent>): string
    decreases |sent|
  {
    if sent == [] then ""
    else
      var last := sent[|sent| - 1];
      if last.endpoint == LoginEndpoint && TokenIn(last.response).Some?
      then TokenIn(last.response).value
      else LatestToken(sent[..|sent| - 1])
  }

  /** A registration request carries the token of the latest successful login, which is not empty;
      all requests are sent as JSON. */
  ghost predicate Authorized(sent: seq<Sent>, k: nat)
    requires k < |sent|
  {
    if sent[k].endpoint == VehiclesEndpoint then
      var token := LatestToken(sent[..k]);
      && token != ""
      && sent[k].headers == map["Content-Type" := "application/json",
                                "Authorization" := "Bearer " + token]
    else
      sent[k].headers == map["Content-Type" := "application/json"]
  }

  ghost predicate Inv(s: Session) {
    && (s.token != "" ==> s.token == LatestToken(s.sent))
    && (forall k :: 0 <= k < |s.sent| ==> Authorized(s.sent, k))
  }

  lemma Snoc(sent: seq<Sent>, x: Sent)
    ensures forall e :: Count(sent + [x], e) == Count(sent, e) + if x.endpoint == e then 1 else 0
    ensures LatestToken(sent + [x])
         == if x.endpoint == LoginEndpoint && TokenIn(x.response).Some?
            then TokenIn(x.response).value else LatestToken(sent)
  {
    assert (sent + [x])[..|sent + [x]| - 1] == sent;
  }

  lemma EarlierStayAuthorized(sent: seq<Sent>, x: Sent)
    requires forall k :: 0 <= k < |sent| ==> Authorized(sent, k)
    requires Authorized(sent + [x], |sent|)
    ensures forall k :: 0 <= k < |sent + [x]| ==> Authorized(sent + [x], k)
  {
    forall k | 0 <= k < |sent| ensures Authorized(sent + [x], k) {
      assert Authorized(sent, k) && (sent + [x])[..k] == sent[..k];
    }
  }

  /** `after` continues `before` with at most so many requests of the two kinds that count. */
  ghost predicate Within(before: seq<Sent>, after: seq<Sent>, posts: nat, logins: nat) {
    && before <= after
    && Count(after, VehiclesEndpoint) <= Count(before, VehiclesEndpoint) + posts
    && Count(after, LoginEndpoint) <= Count(before, LoginEndpoint) + logins
  }

  lemma LoginKeeps(w: World, s: Session)
    requires Inv(s)
    ensures var (s', ok) := Login(w, s);
      && Inv(s') && Within(s.sent, s'.sent, 0, 1) && |s'.sent| == |s.sent| + 1
      && s' == s.(sent := s'.sent, token := s'.token)
      && s'.sent[|s.sent|].endpoint == LoginEndpoint
      && (ok <==> TokenIn(s'.sent[|s.sent|].response).Some?)
      && (ok ==> s'.token == LatestToken(s'.sent))
      && (!ok ==> s'.token == s.token)
  {
    var x := Sent(LoginEndpoint, JsonHeaders(), w.answer(|s.sent|));
    Snoc(s.sent, x);
    EarlierStayAuthorized(s.sent, x);
  }

  /** A request other than a login leaves the token as it is. */
  lemma PostKeeps(w: World, s: Session, endpoint: Endpoint, headers: map<string, string>)
    requires Inv(s) && endpoint != LoginEndpoint
    requires if endpoint == VehiclesEndpoint
      then s.token != "" && headers == JsonHeaders()["Authorization" := "Bearer " + s.token]
      else headers == JsonHeaders()
    ensures var (s', r) := Post(w, s, endpoint, headers);
      && Inv(s') && Within(s.sent, s'.sent, if endpoint == VehiclesEndpoint then 1 else 0, 0)
  {
    var x := Sent(endpoint, headers, w.answer(|s.sent|));
    Snoc(s.sent, x);
    if endpoint == VehiclesEndpoint { assert (s.sent + [x])[..|s.sent|] == s.sent; }
    EarlierStayAuthorized(s.sent, x);
  }

  // ---------------------------------------------------------------- registration

  predicate HasKeys(body: Option<Json>) {
    && GetString(At(At(body, "data"), "apiKey")).Some?
    && GetString(At(At(body, "data"), "apiSecret")).Some?
  }

  predicate FileLoads(file: Option<Json>) {
    && GetString(At(file, "apiKey")).Some?
    && GetString(At(file, "apiSecret")).Some?
    && (At(file, "accessToken").Some? ==> GetString(At(file, "accessToken")).Some?)
  }

  /** The answers that register the vehicle. */
  predicate Registers(x: Sent, file: Option<Json>) {
    x.endpoint == VehiclesEndpoint
    && (x.response.statusCode == 201 || (x.response.statusCode == 409 && FileLoads(file)))
  }

  /** The answers that make `create_vehicle` true: a 201 must bring the keys as well. */
  predicate Succeeds(x: Sent, file: Option<Json>) {
    Registers(x, file) && (x.response.statusCode == 201 ==> HasKeys(x.response.body))
  }

  lemma CaptureKeeps(w: World, s: Session, body: Option<Json>)
    ensures var (s', ok) := Capture(w, s, body);
      s'.token == s.token && s'.sent == s.sent && s'.registered && (ok <==> HasKeys(body))
  {
  }

  lemma ReloadKeeps(s: Session)
    ensures var (s', ok) := Reload(s);
      && s'.token == s.token && s'.sent == s.sent && (ok <==> FileLoads(s.file))
      && s'.registered == (s.registered || FileLoads(s.file))
  {
  }

  /** The outcome of a call, as the requests it made decide. */
  ghost predicate Outcome(s: Session, s': Session, ok: bool) {
    && s.sent <= s'.sent
    && (s'.sent == s.sent ==> ok == s.registered && s'.registered == s.registered)
    && (|s'.sent| > |s.sent| ==>
        var last := s'.sent[|s'.sent| - 1];
        !s.registered && s'.registered == Registers(last, s.file) && ok == Succeeds(last, s.file))
  }

  /** The answers that the call goes on after. */
  predicate AsksForMore(x: Sent) {
    if x.endpoint == VehiclesEndpoint
    then TokenExpired(x.response) || Failed(x.response)
    else x.endpoint == LoginEndpoint && TokenIn(x.response).Some?
  }

  /** All answers from request `from` up to request `to` ask for more. */
  ghost predicate AllAskForMore(sent: seq<Sent>, from: nat, to: int) {
    forall k :: from <= k < to && k < |sent| ==> AsksForMore(sent[k])
  }

  ghost predicate Kept(s: Session, s': Session, ok: bool, posts: nat, logins: nat) {
    && Inv(s') && Within(s.sent, s'.sent, posts, logins) && Outcome(s, s', ok)
    && AllAskForMore(s'.sent, |s.sent|, |s'.sent| - 1)
  }

  /** Some requests that ask for more, then a call that keeps its promises. */
  lemma KeptAfter(s: Session, mid: Session, s': Session, ok: bool, n: nat, m: nat,
                  posts: nat, logins: nat)
    requires Kept(mid, s', ok, posts, logins) && Within(s.sent, mid.sent, n, m)
    requires |mid.sent| > |s.sent| && !s.registered && !mid.registered && mid.file == s.file
    requires !Registers(mid.sent[|mid.sent| - 1], s.file)
    requires AllAskForMore(mid.sent, |s.sent|, |mid.sent|)
    ensures Kept(s, s', ok, n + posts, m + logins)
  {
    forall k | |s.sent| <= k < |s'.sent| - 1 ensures AsksForMore(s'.sent[k]) {
      if k < |mid.sent| { assert s'.sent[k] == mid.sent[k]; }
    }
  }

  /** The registration request itself. */
  lemma RegisterKeeps(w: World, s: Session)
    requires Inv(s) && s.token != ""
    ensures var (mid, r) := Register(w, s); Registering(s, mid, r)
  {
    var e := EnsureAuthHeaders(s);
    PostKeeps(w, e, VehiclesEndpoint, e.headers);
  }

  /** `mid` has made one registration request more than `s`, answered by `r`. */
  ghost predicate Registering(s: Session, mid: Session, r: Response) {
    && Inv(mid) && Within(s.sent, mid.sent, 1, 0) && |mid.sent| == |s.sent| + 1
    && mid == s.(headers := mid.headers, sent := mid.sent)
    && mid.sent[|s.sent|].endpoint == VehiclesEndpoint && mid.sent[|s.sent|].response == r
  }

  lemma KeptAtEnd(s: Session, mid: Session, r: Response, s': Session, ok: bool)
    requires Registering(s, mid, r) && !s.registered
    requires s'.token == mid.token && s'.sent == mid.sent
    requires s'.registered == Registers(mid.sent[|s.sent|], s.file)
    requires ok == Succeeds(mid.sent[|s.sent|], s.file)
    ensures Kept(s, s', ok, 1, 0)
  {
  }

  lemma FinishOutcome(w: World, mid: Session, r: Response, x: Sent)
    requires !mid.registered && x.endpoint == VehiclesEndpoint && x.response == r
    ensures var (s', ok) := Finish(w, mid, r);
      && s'.token == mid.token && s'.sent == mid.sent
      && s'.registered == Registers(x, mid.file) && ok == Succeeds(x, mid.file)
  {
    CaptureKeeps(w, mid, r.body);
    ReloadKeeps(mid);
  }

  lemma FinishKeeps(w: World, s: Session, mid: Session, r: Response)
    requires Registering(s, mid, r) && !s.registered
    ensures var (s', ok) := Finish(w, mid, r); Kept(s, s', ok, 1, 0)
  {
    FinishOutcome(w, mid, r, mid.sent[|s.sent|]);
    var (s', ok) := Finish(w, mid, r);
    KeptAtEnd(s, mid, r, s', ok);
  }

  lemma LoginAgainKeeps(w: World, s: Session, mid: Session, r: Response)
    requires Registering(s, mid, r) && !s.registered && TokenExpired(r)
    ensures var (again, ok) := Login(w, mid.(token := ""));
      && Inv(again) && Within(s.sent, again.sent, 1, 1) && |again.sent| == |s.sent| + 2
      && again.sent[|s.sent| + 1].endpoint == LoginEndpoint
      && !again.registered && again.file == s.file
      && AllAskForMore(again.sent, |s.sent|, |s.sent| + 1)
      && (ok ==> AllAskForMore(again.sent, |s.sent|, |s.sent| + 2))
  {
    LoginKeeps(w, mid.(token := ""));
    var (again, ok) := Login(w, mid.(token := ""));
    assert again.sent[|s.sent|] == mid.sent[|s.sent|];
  }

  lemma KeptMeansKept(s: Session, s': Session, ok: bool, n: nat, m: nat, posts: nat, logins: nat)
    requires Kept(s, s', ok, n, m) && n <= posts && m <= logins
    ensures Kept(s, s', ok, posts, logins)
  {
  }

  /** Every call of `create_vehicle`: at most measure + 1 registration requests and, unless it
      follows a login already, one login; the outcome is that of the last answer. */
  lemma {:induction false} CreateVehicleKeeps(w: World, s: Session, retriedLogin: bool,
                                              retriedNetwork: bool)
    requires Inv(s)
    ensures var (s', ok) := CreateVehicle(w, s, retriedLogin, retriedNetwork);
      Kept(s, s', ok, Measure(retriedLogin, retriedNetwork) + 1, if retriedLogin then 0 else 1)
    decreases Measure(retriedLogin, retriedNetwork)
  {
    if !s.registered && s.token != "" {
      RegisterKeeps(w, s);
      var (mid, r) := Register(w, s);
      if TokenExpired(r) && !retriedLogin {
        RetryAfterLogin(w, s, mid, r, retriedNetwork);
      } else if Failed(r) && !retriedNetwork {
        RetryAfterFailure(w, s, mid, r, retriedLogin);
      } else {
        FinishKeeps(w, s, mid, r);
        var (s', ok) := Finish(w, mid, r);
        KeptMeansKept(s, s', ok, 1, 0, Measure(retriedLogin, retriedNetwork) + 1,
                      if retriedLogin then 0 else 1);
      }
    }
  }

  lemma FailureAsksForMore(s: Session, mid: Session, r: Response)
    requires Registering(s, mid, r) && !s.registered && Failed(r)
    ensures |mid.sent| > |s.sent| && !mid.registered && mid.file == s.file
    ensures !Registers(mid.sent[|mid.sent| - 1], s.file)
    ensures AllAskForMore(mid.sent, |s.sent|, |mid.sent|)
  {
    assert mid.sent[|mid.sent| - 1] == mid.sent[|s.sent|];
  }

  lemma RetryAfterFailure(w: World, s: Session, mid: Session, r: Response, retriedLogin: bool)
    requires Registering(s, mid, r) && !s.registered && Failed(r)
    ensures var (s', ok) := CreateVehicle(w, mid, retriedLogin, true);
      Kept(s, s', ok, Measure(retriedLogin, false) + 1, if retriedLogin then 0 else 1)
    decreases Measure(retriedLogin, false), 0
  {
    FailureAsksForMore(s, mid, r);
    CreateVehicleKeeps(w, mid, retriedLogin, true);
    var result := CreateVehicle(w, mid, retriedLogin, true);
    KeptAfter(s, mid, result.0, result.1, 1, 0, if retriedLogin then 1 else 3,
              if retriedLogin then 0 else 1);
  }

  lemma RetryAfterLogin(w: World, s: Session, mid: Session, r: Response, retriedNetwork: bool)
    requires Registering(s, mid, r) && !s.registered && TokenExpired(r)
    ensures var (again, in_) := Login(w, mid.(token := ""));
      var (s', ok) := if in_ then CreateVehicle(w, again, true, false) else (again, false);
      Kept(s, s', ok, Measure(false, retriedNetwork) + 1, 1)
    decreases Measure(false, retriedNetwork), 0
  {
    var (again, in_) := Login(w, mid.(token := ""));
    LoginAgainKeeps(w, s, mid, r);
    if in_ {
      CreateVehicleKeeps(w, again, true, false);
      var (s', ok) := CreateVehicle(w, again, true, false);
      KeptAfter(s, again, s', ok, 1, 1, 2, 0);
      KeptMeansKept(s, s', ok, 3, 1, Measure(false, retriedNetwork) + 1, 1);
    } else {
      KeptMeansKept(s, again, false, 1, 1, Measure(false, retriedNetwork) + 1, 1);
    }
  }

  /** A top-level call, for every server: at most four registration requests and one login, each
      request with the token of the latest login; true only if the vehicle is registered, which
      no call undoes. */
  lemma TopLevelCall(w: World, s: Session, s': Session, ok: bool)
    requires Inv(s) && (s', ok) == CreateVehicle(w, s, false, false)
    ensures
      && Count(s'.sent, VehiclesEndpoint) <= Count(s.sent, VehiclesEndpoint) + 4
      && Count(s'.sent, LoginEndpoint) <= Count(s.sent, LoginEndpoint) + 1
      && Inv(s') && Outcome(s, s', ok)
      && (ok || s.registered ==> s'.registered)
  {
    CreateVehicleKeeps(w, s, false, false);
  }

  // ---------------------------------------------------------------- the bound is reached

  function Granting(token: string): Response {
    Response(200, true, Some(Object(map["success" := Bool(true),
      "data" := Object(map["accessToken" := Str(token)])])))
  }

  /** A server that fails, finds the token expired, grants a login and fails twice more. */
  function Stubborn(from: nat): World {
    World(k => if k == from + 1 then Response(401, false, None)
               else if k == from + 2 then Granting("t")
               else Response(500, false, None),
          k => true)
  }

  lemma GrantedToken(token: string)
    ensures TokenIn(Granting(token)) == Some(token)
  {
  }

  /** A second failure after the network was retried ends the call. */
  lemma LastFailure(w: World, s: Session)
    requires !s.registered && s.token != "" && Failed(w.answer(|s.sent|))
    ensures var s' := CreateVehicle(w, s, true, true).0;
      && |s'.sent| == |s.sent| + 1
      && Count(s'.sent, VehiclesEndpoint) == Count(s.sent, VehiclesEndpoint) + 1
  {
    var (mid, r) := Register(w, s);
    Snoc(s.sent, mid.sent[|s.sent|]);
  }

  lemma TwoFailures(w: World, s: Session)
    requires !s.registered && s.token != ""
    requires Failed(w.answer(|s.sent|)) && Failed(w.answer(|s.sent| + 1))
    ensures Count(CreateVehicle(w, s, true, false).0.sent, VehiclesEndpoint)
         == Count(s.sent, VehiclesEndpoint) + 2
  {
    var (mid, r) := Register(w, s);
    Snoc(s.sent, mid.sent[|s.sent|]);
    LastFailure(w, mid);
  }

  lemma ExpiredThenFailures(w: World, s: Session)
    requires !s.registered && s.token != "" && TokenExpired(w.answer(|s.sent|))
    requires TokenIn(w.answer(|s.sent| + 1)) == Some("t")
    requires Failed(w.answer(|s.sent| + 2)) && Failed(w.answer(|s.sent| + 3))
    ensures Count(CreateVehicle(w, s, false, true).0.sent, VehiclesEndpoint)
         == Count(s.sent, VehiclesEndpoint) + 3
  {
    var (mid, r) := Register(w, s);
    Snoc(s.sent, mid.sent[|s.sent|]);
    var (again, ok) := Login(w, mid.(token := ""));
    Snoc(mid.sent, again.sent[|mid.sent|]);
    TwoFailures(w, again);
  }

  lemma FourPosts(w: World, s: Session, s': Session)
    requires !s.registered && s.token != ""
    requires Failed(w.answer(|s.sent|)) && TokenExpired(w.answer(|s.sent| + 1))
    requires TokenIn(w.answer(|s.sent| + 2)) == Some("t")
    requires Failed(w.answer(|s.sent| + 3)) && Failed(w.answer(|s.sent| + 4))
    requires s' == CreateVehicle(w, s, false, false).0
    ensures Count(s'.sent, VehiclesEndpoint) == Count(s.sent, VehiclesEndpoint) + 4
  {
    var (mid, r) := Register(w, s);
    Snoc(s.sent, mid.sent[|s.sent|]);
    ExpiredThenFailures(w, mid);
  }

  /** From every session that has a token and no registration, some server draws four requests. */
  lemma FourPostsAreReached(s: Session) returns (w: World)
    requires !s.registered && s.token != ""
    ensures Count(CreateVehicle(w, s, false, false).0.sent, VehiclesEndpoint)
         == Count(s.sent, VehiclesEndpoint) + 4
  {
    w := Stubborn(|s.sent|);
    GrantedToken("t");
    FourPosts(w, s, CreateVehicle(w, s, false, false).0);
  }

  // ---------------------------------------------------------------- setup

  /** `setup` sends a prefix of login, signup, verification, login. */
  function SetupOrder(): seq<Endpoint> {
    [LoginEndpoint, SignupEndpoint, VerifyEndpoint, LoginEndpoint]
  }

  lemma FirstLogin(w: World, s: Session)
    requires Inv(s) && s.token == ""
    ensures var (s', ok) := Login(w, s); SetupOutcome(s, s', ok)
  {
    LoginKeeps(w, s);
  }

  /** What `setup` leaves behind when there is no token yet: it is true exactly when the last
      request was a successful login, whose token is kept. */
  ghost predicate SetupOutcome(s: Session, s': Session, ok: bool) {
    && Inv(s') && s.sent < s'.sent && |s'.sent| <= |s.sent| + 4
    && s' == s.(sent := s'.sent, token := s'.token)
    && Within(s.sent, s'.sent, 0, if |s'.sent| == |s.sent| + 4 then 2 else 1)
    && (forall k :: |s.sent| <= k < |s'.sent| ==>
        s'.sent[k].endpoint == SetupOrder()[k - |s.sent|])
    && var last := s'.sent[|s'.sent| - 1];
       && (ok <==> last.endpoint == LoginEndpoint && TokenIn(last.response).Some?)
       && s'.token == (if ok then TokenIn(last.response).value else "")
       && (ok ==> s'.token == LatestToken(s'.sent))
  }

  lemma SetupStep(w: World, s: Session, mid: Session, endpoint: Endpoint)
    requires SetupOutcome(s, mid, false) && |mid.sent| < |s.sent| + 3
    requires endpoint == SetupOrder()[|mid.sent| - |s.sent|] && endpoint != LoginEndpoint
    ensures SetupOutcome(s, Post(w, mid, endpoint, JsonHeaders()).0, false)
  {
    PostKeeps(w, mid, endpoint, JsonHeaders());
  }

  lemma SecondLogin(w: World, s: Session, mid: Session)
    requires SetupOutcome(s, mid, false) && |mid.sent| == |s.sent| + 3
    ensures var (s', ok) := Login(w, mid); SetupOutcome(s, s', ok)
  {
    LoginKeeps(w, mid);
  }

  lemma SetupKeeps(w: World, s: Session)
    requires Inv(s)
    ensures var (s', ok) := Setup(w, s);
      if s.token != "" then s' == s && ok else SetupOutcome(s, s', ok)
  {
    if s.token == "" {
      FirstLogin(w, s);
      var (s1, ok1) := Login(w, s);
      if !ok1 {
        LoginKeeps(w, s);
        SetupStep(w, s, s1, SignupEndpoint);
        var (s2, ok2) := Signup(w, s1);
        if ok2 {
          SetupStep(w, s, s2, VerifyEndpoint);
          var (s3, ok3) := VerifyCode(w, s2);
          if ok3 { SecondLogin(w, s, s3); }
        }
      }
    }
  }

  // ---------------------------------------------------------------- two surprising outcomes

  /** A 201 whose body does not bring both keys. */
  predicate LacksKeys(x: Sent) {
    && x.endpoint == VehiclesEndpoint && x.response.statusCode == 201
    && !HasKeys(x.response.body)
  }

  lemma OutcomeTells(s: Session, s': Session, ok: bool, last: Sent)
    requires Outcome(s, s', ok) && |s'.sent| > |s.sent| && last == s'.sent[|s'.sent| - 1]
    ensures (ok <==> s'.registered) <==> !LacksKeys(last)
    ensures LacksKeys(last) ==> !ok && s'.registered
  {
  }

  lemma RegisteredStaysTrue(w: World, s: Session)
    requires s.registered
    ensures CreateVehicle(w, s, false, false) == (s, true)
  {
  }

  /** After a call that sent a request, its result tells whether the vehicle is registered exactly
      when the last answer is not a 201 without keys; after such an answer the call is false, the
      vehicle counts as registered, and the next call is true. */
  lemma ResultTellsIff(w: World, s: Session, s': Session, ok: bool, last: Sent)
    requires Inv(s) && (s', ok) == CreateVehicle(w, s, false, false)
    requires |s'.sent| > |s.sent| && last == s'.sent[|s'.sent| - 1]
    ensures (ok <==> s'.registered) <==> !LacksKeys(last)
    ensures LacksKeys(last) ==>
      !ok && s'.registered && CreateVehicle(w, s', false, false) == (s', true)
  {
    CreateVehicleKeeps(w, s, false, false);
    OutcomeTells(s, s', ok, last);
    if s'.registered { RegisteredStaysTrue(w, s'); }
  }

  /** From every session with a token and no registration, a server that answers 201 without a
      body brings this about. */
  lemma KeysCanLack(s: Session, w: World, s': Session, ok: bool)
    requires Inv(s) && !s.registered && s.token != ""
    requires w.answer(|s.sent|) == Response(201, true, None)
    requires (s', ok) == CreateVehicle(w, s, false, false)
    ensures s'.sent != [] && LacksKeys(s'.sent[|s'.sent| - 1]) && !ok && s'.registered
  {
    var (mid, r) := Register(w, s);
    CaptureKeeps(w, mid, r.body);
  }

  /** After `setup` from no token: it is true and yet leaves no usable token exactly when the last
      request is a login that grants the empty token. */
  lemma EmptyTokenIff(w: World, s: Session, s': Session, ok: bool)
    requires Inv(s) && s.token == "" && (s', ok) == Setup(w, s)
    ensures s'.sent != []
    ensures ok && s'.token == "" <==>
      var last := s'.sent[|s'.sent| - 1];
      last.endpoint == LoginEndpoint && TokenIn(last.response) == Some("")
  {
    SetupKeeps(w, s);
  }

  /** A server that grants the empty token at once brings this about; `create_vehicle` then
      sends nothing. */
  lemma TokenCanBeEmpty(s: Session, w: World, s': Session, ok: bool)
    requires Inv(s) && s.token == "" && w.answer(|s.sent|) == Granting("")
    requires (s', ok) == Setup(w, s)
    ensures ok && s'.token == "" && CreateVehicle(w, s', false, false) == (s', s'.registered)
  {
    GrantedToken("");
  }

  // ---------------------------------------------------------------- whole runs

  datatype Operation = SetupOperation | CreateVehicleOperation

  function Apply(w: World, s: Session, op: Operation): Session {
    if op.SetupOperation? then Setup(w, s).0 else CreateVehicle(w, s, false, false).0
  }

  function Run(w: World, s: Session, ops: seq<Operation>): Session
    decreases |ops|
  {
    if ops == [] then s else Run(w, Apply(w, s, ops[0]), ops[1..])
  }

  function Registrations(ops: seq<Operation>): nat
    decreases |ops|
  {
    if ops == [] then 0
    else (if ops[0].CreateVehicleOperation? then 1 else 0) + Registrations(ops[1..])
  }

  /** What any operation keeps. */
  ghost predicate Safe(s: Session, s': Session, calls: nat) {
    && Inv(s') && s.sent <= s'.sent
    && Count(s'.sent, VehiclesEndpoint) <= Count(s.sent, VehiclesEndpoint) + 4 * calls
    && (s.registered ==> s'.registered
                         && Count(s'.sent, VehiclesEndpoint) <= Count(s.sent, VehiclesEndpoint))
  }

  lemma ApplyKeeps(w: World, s: Session, op: Operation)
    requires Inv(s)
    ensures Safe(s, Apply(w, s, op), if op.CreateVehicleOperation? then 1 else 0)
  {
    if op.SetupOperation? { SetupKeeps(w, s); } else { CreateVehicleKeeps(w, s, false, false); }
  }

  lemma {:induction false} RunKeeps(w: World, s: Session, ops: seq<Operation>)
    requires Inv(s)
    ensures Safe(s, Run(w, s, ops), Registrations(ops))
    decreases |ops|
  {
    if ops != [] {
      ApplyKeeps(w, s, ops[0]);
      RunKeeps(w, Apply(w, s, ops[0]), ops[1..]);
    }
  }

  /** Any sequence of `setup` and `create_vehicle` calls after construction, against any server:
      every registration request carries the token of the latest successful login, there are at
      most four per call of `create_vehicle`, and none once the vehicle is registered. */
  lemma WholeRun(w: World, file: Option<Json>, ops: seq<Operation>, more: seq<Operation>)
    ensures var s := Run(w, Start(file), ops); var s' := Run(w, s, more);
      && (forall k :: 0 <= k < |s.sent| ==> Authorized(s.sent, k))
      && Count(s.sent, VehiclesEndpoint) <= 4 * Registrations(ops)
      && s.sent <= s'.sent
      && (s.registered ==> s'.registered
                           && Count(s'.sent, VehiclesEndpoint) <= Count(s.sent, VehiclesEndpoint))
  {
    RunKeeps(w, Start(file), ops);
    RunKeeps(w, Run(w, Start(file), ops), more);
  }
}
