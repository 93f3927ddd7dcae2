/** The conversation of one call of `AuthService`, from the answers alone: which answers lead to
    another request and to which, how the call ends, and what it leaves in the credentials file. */
module AuthTrace {
  import opened Wrappers
  import opened Json
  import opened Auth

  // ---------------------------------------------------------------- what an answer holds

  /** The string under `key` in the object under "data". */
  ghost predicate DataMember(body: Option<Json>, key: string, v: string) {
    exists data :: Member(body, "data", data) && Member(Some(data), key, Str(v))
  }

  /** A successful login with access token `token`. */
  ghost predicate Grants(r: Response, token: string) {
    r.success && Member(r.body, "success", Bool(true)) && DataMember(r.body, "accessToken", token)
  }

  ghost predicate GrantsSome(r: Response) {
    exists token :: Grants(r, token)
  }

  ghost predicate GrantsUsable(r: Response) {
    exists token :: token != "" && Grants(r, token)
  }

  /** Neither a connection nor an answer that `create_vehicle` has a branch for. */
  predicate Failing(r: Response) {
    !r.success && r.statusCode != 201 && r.statusCode != 409 && r.statusCode != 401
  }

  lemma DataMemberIff(body: Option<Json>, key: string, v: string)
    ensures DataMember(body, key, v) <==> GetString(At(At(body, "data"), key)) == Some(v)
  {
    if DataMember(body, key, v) {
      var data :| Member(body, "data", data) && Member(Some(data), key, Str(v));
      assert At(body, "data") == Some(data);
    }
    if GetString(At(At(body, "data"), key)) == Some(v) {
      var data := At(body, "data").value;
      assert Member(body, "data", data) && Member(Some(data), key, Str(v));
    }
  }

  lemma GrantsIff(r: Response, token: string)
    ensures Grants(r, token) <==> TokenIn(r) == Some(token)
  {
    DataMemberIff(r.body, "accessToken", token);
  }

  lemma GrantsWhat(r: Response)
    ensures GrantsSome(r) <==> TokenIn(r).Some?
    ensures GrantsUsable(r) <==> TokenIn(r).Some? && TokenIn(r).value != ""
  {
    if TokenIn(r).Some? { GrantsIff(r, TokenIn(r).value); }
    if GrantsSome(r) {
      var token :| Grants(r, token);
      GrantsIff(r, token);
    }
    if GrantsUsable(r) {
      var token :| token != "" && Grants(r, token);
      GrantsIff(r, token);
    }
  }

  // ---------------------------------------------------------------- create_vehicle

  /** A login among the requests `from` up to `k`. */
  ghost predicate LoginIn(sent: seq<Sent>, from: nat, k: nat) {
    exists j :: from <= j < k && j < |sent| && sent[j].endpoint == LoginEndpoint
  }

  /** A registration among the requests `from` up to `k` that failed, and no login after it. */
  ghost predicate FailureIn(sent: seq<Sent>, from: nat, k: nat) {
    exists j :: from <= j < k && j < |sent| && sent[j].endpoint == VehiclesEndpoint
                && Failing(sent[j].response) && !LoginIn(sent, j + 1, k)
  }

  /** Whether a call whose requests start at `from` sends another after request `k`. The flags say
      that the call follows a login, and a failure, itself. */
  ghost predicate GoesOn(sent: seq<Sent>, from: nat, k: nat, loggedIn: bool, failed: bool)
    requires k < |sent|
  {
    var r := sent[k].response;
    match sent[k].endpoint
    case LoginEndpoint => GrantsUsable(r)
    case VehiclesEndpoint =>
      if r.statusCode == 401 then !loggedIn && !LoginIn(sent, from, k)
      else
        Failing(r) && !FailureIn(sent, from, k) && !(failed && !LoginIn(sent, from, k))
    case _ => false
  }

  /** A 401 is followed by a login, anything else by a registration. */
  predicate Successor(x: Sent, next: Sent) {
    next.endpoint == if x.endpoint == VehiclesEndpoint && x.response.statusCode == 401
                     then LoginEndpoint else VehiclesEndpoint
  }

  ghost predicate Right(sent: seq<Sent>, from: nat, k: nat, loggedIn: bool, failed: bool)
    requires k < |sent|
  {
    && (k + 1 < |sent| <==> GoesOn(sent, from, k, loggedIn, failed))
    && (k + 1 < |sent| ==> Successor(sent[k], sent[k + 1]))
  }

  ghost predicate Driven(sent: seq<Sent>, from: nat, loggedIn: bool, failed: bool) {
    && from < |sent| && sent[from].endpoint == VehiclesEndpoint
    && forall k :: from <= k < |sent| ==> Right(sent, from, k, loggedIn, failed)
  }

  lemma AfterFailure(sent: seq<Sent>, from: nat, loggedIn: bool)
    requires from < |sent| && sent[from].endpoint == VehiclesEndpoint
    requires Failing(sent[from].response) && Driven(sent, from + 1, loggedIn, true)
    ensures Driven(sent, from, loggedIn, false)
  {
    assert !LoginIn(sent, from, from) && !FailureIn(sent, from, from);
    forall k | from + 1 <= k < |sent| ensures Right(sent, from, k, loggedIn, false) {
      assert Right(sent, from + 1, k, loggedIn, true);
      LoginSkips(sent, from, k);
      FailureSkips(sent, from, k);
    }
  }

  lemma LoginSkips(sent: seq<Sent>, from: nat, k: nat)
    requires from < k < |sent| && sent[from].endpoint == VehiclesEndpoint
    ensures LoginIn(sent, from, k) <==> LoginIn(sent, from + 1, k)
  {
  }

  lemma FailureSkips(sent: seq<Sent>, from: nat, k: nat)
    requires from < k < |sent| && sent[from].endpoint == VehiclesEndpoint
    requires Failing(sent[from].response)
    ensures FailureIn(sent, from, k) <==>
      FailureIn(sent, from + 1, k) || !LoginIn(sent, from + 1, k)
  {
    if !LoginIn(sent, from + 1, k) { assert FailureIn(sent, from, k); }
    if FailureIn(sent, from, k) {
      var j :| from <= j < k && sent[j].endpoint == VehiclesEndpoint
               && Failing(sent[j].response) && !LoginIn(sent, j + 1, k);
    }
  }

  lemma AfterLogin(sent: seq<Sent>, from: nat, failed: bool)
    requires from + 2 < |sent| && sent[from].endpoint == VehiclesEndpoint
    requires sent[from].response.statusCode == 401
    requires sent[from + 1].endpoint == LoginEndpoint && GrantsUsable(sent[from + 1].response)
    requires Driven(sent, from + 2, true, false)
    ensures Driven(sent, from, false, failed)
  {
    assert !LoginIn(sent, from, from);
    forall k | from + 2 <= k < |sent| ensures Right(sent, from, k, false, failed) {
      assert Right(sent, from + 2, k, true, false);
      assert LoginIn(sent, from, k) by { assert sent[from + 1].endpoint == LoginEndpoint; }
      FailureStartsAnew(sent, from, k);
    }
    assert Right(sent, from, from, false, failed) && Right(sent, from, from + 1, false, failed);
  }

  lemma FailureStartsAnew(sent: seq<Sent>, from: nat, k: nat)
    requires from + 2 <= k < |sent| && sent[from + 1].endpoint == LoginEndpoint
    ensures FailureIn(sent, from, k) <==> FailureIn(sent, from + 2, k)
  {
    assert LoginIn(sent, from + 1, k);
    if FailureIn(sent, from, k) {
      var j :| from <= j < k && sent[j].endpoint == VehiclesEndpoint
               && Failing(sent[j].response) && !LoginIn(sent, j + 1, k);
      assert j >= from + 2;
    }
  }

  /** The requests before `from` do not matter, nor does what surrounds the last one. */
  lemma EndsHere(sent: seq<Sent>, from: nat, loggedIn: bool, failed: bool)
    requires from + 1 == |sent| && sent[from].endpoint == VehiclesEndpoint
    requires !GoesOn(sent, from, from, loggedIn, failed)
    ensures Driven(sent, from, loggedIn, failed)
  {
  }

  lemma NothingBefore(sent: seq<Sent>, from: nat)
    ensures !LoginIn(sent, from, from) && !FailureIn(sent, from, from)
  {
  }

  /** A call that may register: its requests follow from the answers. */
  lemma {:induction false} CallIsDriven(w: World, s: Session, loggedIn: bool, failed: bool)
    returns (s': Session)
    requires !s.registered && s.token != ""
    ensures s' == CreateVehicle(w, s, loggedIn, failed).0
    ensures s.sent <= s'.sent && Driven(s'.sent, |s.sent|, loggedIn, failed)
    decreases Measure(loggedIn, failed)
  {
    var from := |s.sent|;
    var (mid, r) := Register(w, s);
    s' := CreateVehicle(w, s, loggedIn, failed).0;
    NothingBefore(mid.sent, from);
    if TokenExpired(r) && !loggedIn {
      LoginIsDriven(w, s, mid, r, s', failed);
    } else if Failed(r) && !failed {
      var rest := CallIsDriven(w, mid, loggedIn, true);
      assert s'.sent[from] == mid.sent[from];
      AfterFailure(s'.sent, from, loggedIn);
    } else {
      assert s'.sent == mid.sent;
      EndsHere(s'.sent, from, loggedIn, failed);
    }
  }

  lemma LoginIsDriven(w: World, s: Session, mid: Session, r: Response, s': Session, failed: bool)
    requires !s.registered && s.token != "" && (mid, r) == Register(w, s) && r.statusCode == 401
    requires var (again, ok) := Login(w, mid.(token := ""));
      s' == if ok then CreateVehicle(w, again, true, false).0 else again
    ensures s.sent <= s'.sent && Driven(s'.sent, |s.sent|, false, failed)
    decreases Measure(false, failed), 0
  {
    var from := |s.sent|;
    var (again, ok) := Login(w, mid.(token := ""));
    var granted := again.sent[from + 1].response;
    GrantsWhat(granted);
    assert again.sent == mid.sent + [again.sent[from + 1]];
    if ok && again.token != "" {
      var rest := CallIsDriven(w, again, true, false);
      assert s'.sent[from] == mid.sent[from] && s'.sent[from + 1] == again.sent[from + 1];
      AfterLogin(s'.sent, from, failed);
    } else {
      assert s'.sent == again.sent;
      NothingBefore(s'.sent, from);
      assert Right(s'.sent, from, from, false, failed);
      assert Right(s'.sent, from, from + 1, false, failed);
    }
  }

  /** A top-level call, for every server, in terms of its requests and their answers alone: it sends
      nothing exactly if the vehicle is registered or there is no token. Else it registers, and goes
      on after request `k` exactly if that is a registration answered 401 and no login came
      before, or one that failed and none since the latest login had, or a login that granted a
      token; after a 401 with a login, else with a registration. */
  lemma CallFollowsAnswers(w: World, s: Session, s': Session, k: nat)
    requires s' == CreateVehicle(w, s, false, false).0
    ensures s.sent <= s'.sent
    ensures s'.sent == s.sent <==> s.registered || s.token == ""
    ensures |s.sent| < |s'.sent| ==> s'.sent[|s.sent|].endpoint == VehiclesEndpoint
    ensures |s.sent| <= k < |s'.sent| ==>
      && (k + 1 < |s'.sent| <==>
          var r := s'.sent[k].response;
          match s'.sent[k].endpoint
          case LoginEndpoint => GrantsUsable(r)
          case VehiclesEndpoint =>
            if r.statusCode == 401 then !LoginIn(s'.sent, |s.sent|, k)
            else Failing(r) && !FailureIn(s'.sent, |s.sent|, k)
          case _ => false)
      && (k + 1 < |s'.sent| ==> Successor(s'.sent[k], s'.sent[k + 1]))
  {
    if !s.registered && s.token != "" {
      var r := CallIsDriven(w, s, false, false);
      if |s.sent| <= k < |s'.sent| { assert Right(s'.sent, |s.sent|, k, false, false); }
    }
  }

  // ---------------------------------------------------------------- how a call ends

  /** Both keys, as the answer to a registration brings them. */
  ghost predicate Brings(body: Option<Json>, key: string, secret: string) {
    DataMember(body, "apiKey", key) && DataMember(body, "apiSecret", secret)
  }

  /** The credentials file holds `c`; an access token may be missing. */
  ghost predicate Stores(file: Option<Json>, c: Credentials) {
    && Member(file, "apiKey", Str(c.apiKey)) && Member(file, "apiSecret", Str(c.apiSecret))
    && (Member(file, "accessToken", Str(c.accessToken))
        || (c.accessToken == "" && forall v :: !Member(file, "accessToken", v)))
  }

  /** After a 201 with this body. */
  ghost predicate EndsCreated(w: World, s: Session, body: Option<Json>, s': Session, ok: bool) {
    && s'.registered
    && (ok <==> exists key, secret :: Brings(body, key, secret))
    && (!ok ==> s'.file == s.file)
    && forall key, secret :: Brings(body, key, secret) ==>
         && s'.credentials == s.credentials.(apiKey := key, apiSecret := secret)
         && s'.file == if w.writable(|s'.sent|)
                       then Some(Object(map["apiKey" := Str(key), "apiSecret" := Str(secret),
                                            "accessToken" := Str(s.credentials.accessToken)]))
                       else s.file
  }

  /** After a 409. */
  ghost predicate EndsExisting(s: Session, s': Session, ok: bool) {
    && s'.registered == ok && s'.file == s.file
    && (ok <==> exists c :: Stores(s.file, c))
    && forall c :: Stores(s.file, c) ==> s'.credentials == c
  }

  /** How the session `s` looks after a call whose last request is `last`. */
  ghost predicate EndsWith(w: World, s: Session, last: Sent, s': Session, ok: bool) {
    if last.endpoint == VehiclesEndpoint && last.response.statusCode == 201 then
      EndsCreated(w, s, last.response.body, s', ok)
    else if last.endpoint == VehiclesEndpoint && last.response.statusCode == 409 then
      EndsExisting(s, s', ok)
    else
      !ok && !s'.registered && s'.credentials == s.credentials && s'.file == s.file
  }

  lemma CaptureEnds(w: World, mid: Session, s': Session, ok: bool, last: Sent)
    requires last.endpoint == VehiclesEndpoint && last.response.statusCode == 201
    requires (s', ok) == Capture(w, mid, last.response.body)
    ensures EndsWith(w, mid, last, s', ok)
  {
    var body := last.response.body;
    forall key, secret ensures Brings(body, key, secret) <==>
      GetString(At(At(body, "data"), "apiKey")) == Some(key)
      && GetString(At(At(body, "data"), "apiSecret")) == Some(secret)
    {
      DataMemberIff(body, "apiKey", key);
      DataMemberIff(body, "apiSecret", secret);
    }
    if ok {
      assert Brings(body, GetString(At(At(body, "data"), "apiKey")).value,
                    GetString(At(At(body, "data"), "apiSecret")).value);
    }
  }

  lemma StoresIff(file: Option<Json>, c: Credentials)
    ensures Stores(file, c) <==>
      && GetString(At(file, "apiKey")) == Some(c.apiKey)
      && GetString(At(file, "apiSecret")) == Some(c.apiSecret)
      && (if At(file, "accessToken") == None then c.accessToken == ""
          else GetString(At(file, "accessToken")) == Some(c.accessToken))
  {
    if At(file, "accessToken") == None {
      assert forall v :: !Member(file, "accessToken", v);
    } else {
      assert Member(file, "accessToken", At(file, "accessToken").value);
    }
  }

  lemma ReloadEnds(w: World, mid: Session, s': Session, ok: bool, last: Sent)
    requires last.endpoint == VehiclesEndpoint && last.response.statusCode == 409
    requires !mid.registered && (s', ok) == Reload(mid)
    ensures EndsWith(w, mid, last, s', ok)
  {
    forall c | Stores(mid.file, c) ensures s'.credentials == c && ok { StoresIff(mid.file, c); }
    if ok { StoresIff(mid.file, s'.credentials); }
  }

  lemma FinishEnds(w: World, mid: Session, s': Session, ok: bool, last: Sent)
    requires last.endpoint == VehiclesEndpoint && !mid.registered
    requires (s', ok) == Finish(w, mid, last.response)
    ensures EndsWith(w, mid, last, s', ok) && s'.sent == mid.sent
  {
    if last.response.statusCode == 201 {
      CaptureEnds(w, mid, s', ok, last);
    } else if last.response.statusCode == 409 {
      ReloadEnds(w, mid, s', ok, last);
    }
  }

  /** The same for a session with other headers, token and requests. */
  ghost predicate SameStore(s: Session, mid: Session) {
    mid.credentials == s.credentials && mid.file == s.file && mid.registered == s.registered
  }

  lemma EndsLike(w: World, s: Session, mid: Session, last: Sent, s': Session, ok: bool)
    requires SameStore(s, mid) && EndsWith(w, mid, last, s', ok)
    ensures EndsWith(w, s, last, s', ok)
  {
  }

  lemma {:induction false} CallEnds(w: World, s: Session, loggedIn: bool, failed: bool,
                                    s': Session, ok: bool)
    requires !s.registered && s.token != "" && (s', ok) == CreateVehicle(w, s, loggedIn, failed)
    ensures |s.sent| < |s'.sent| && EndsWith(w, s, s'.sent[|s'.sent| - 1], s', ok)
    decreases Measure(loggedIn, failed)
  {
    var (mid, r) := Register(w, s);
    assert SameStore(s, mid);
    if TokenExpired(r) && !loggedIn {
      LoginEnds(w, s, mid, s', ok);
    } else if Failed(r) && !failed {
      CallEnds(w, mid, loggedIn, true, s', ok);
      EndsLike(w, s, mid, s'.sent[|s'.sent| - 1], s', ok);
    } else {
      FinishEnds(w, mid, s', ok, mid.sent[|s.sent|]);
      EndsLike(w, s, mid, mid.sent[|s.sent|], s', ok);
    }
  }

  lemma LoginEnds(w: World, s: Session, mid: Session, s': Session, ok: bool)
    requires SameStore(s, mid) && !s.registered && |mid.sent| == |s.sent| + 1
    requires var (again, in_) := Login(w, mid.(token := ""));
      (s', ok) == if in_ then CreateVehicle(w, again, true, false) else (again, false)
    ensures |s.sent| < |s'.sent| && EndsWith(w, s, s'.sent[|s'.sent| - 1], s', ok)
    decreases Measure(false, true), 0
  {
    var (again, in_) := Login(w, mid.(token := ""));
    assert SameStore(s, again) && again.sent[|mid.sent|].endpoint == LoginEndpoint;
    if in_ && again.token != "" {
      CallEnds(w, again, true, false, s', ok);
      EndsLike(w, s, again, s'.sent[|s'.sent| - 1], s', ok);
    }
  }

  /** A call that sends requests ends as its last answer says: a 201 registers and, with both keys,
      keeps them and writes them to the file; a 409 registers exactly if the file holds credentials,
      which it then has; after any other answer nothing but the requests has changed. */
  lemma CallEndsAsAnswered(w: World, s: Session, s': Session, ok: bool)
    requires (s', ok) == CreateVehicle(w, s, false, false) && |s.sent| < |s'.sent|
    ensures EndsWith(w, s, s'.sent[|s'.sent| - 1], s', ok)
  {
    CallEnds(w, s, false, false, s', ok);
  }

  lemma StoredAfterCreated(w: World, s: Session, body: Option<Json>, s': Session)
    requires EndsCreated(w, s, body, s', true) && w.writable(|s'.sent|)
    ensures Stores(s'.file, s'.credentials)
  {
    var key, secret :| Brings(body, key, secret);
    assert s'.credentials == s.credentials.(apiKey := key, apiSecret := secret);
  }

  /** The credentials that one process stored after a 201 are those that another has after a 409. */
  lemma CredentialsSurvive(w: World, s: Session, s': Session, ok: bool,
                           w2: World, s2: Session, s2': Session, ok2: bool)
    requires (s', ok) == CreateVehicle(w, s, false, false) && |s.sent| < |s'.sent|
    requires s'.sent[|s'.sent| - 1].response.statusCode == 201 && ok && w.writable(|s'.sent|)
    requires s'.sent[|s'.sent| - 1].endpoint == VehiclesEndpoint
    requires s2.file == s'.file && (s2', ok2) == CreateVehicle(w2, s2, false, false)
    requires |s2.sent| < |s2'.sent|
    requires s2'.sent[|s2'.sent| - 1].response.statusCode == 409
    requires s2'.sent[|s2'.sent| - 1].endpoint == VehiclesEndpoint
    ensures ok2 && s2'.registered && s2'.credentials == s'.credentials
  {
    CallEndsAsAnswered(w, s, s', ok);
    CallEndsAsAnswered(w2, s2, s2', ok2);
    StoredAfterCreated(w, s, s'.sent[|s'.sent| - 1].response.body, s');
  }

  // ---------------------------------------------------------------- the token

  /** The token after the requests from `from` on: a login in them decides it. */
  ghost predicate TokenFits(sent: seq<Sent>, from: nat, before: string, after: string) {
    && (!LoginIn(sent, from, |sent|) ==> after == before)
    && forall k :: from <= k < |sent| && sent[k].endpoint == LoginEndpoint ==>
         if GrantsSome(sent[k].response) then Grants(sent[k].response, after) else after == ""
  }

  lemma {:induction false} TokenAfterCall(w: World, s: Session, loggedIn: bool, failed: bool,
                                          s': Session)
    requires s' == CreateVehicle(w, s, loggedIn, failed).0
    ensures s.sent <= s'.sent && TokenFits(s'.sent, |s.sent|, s.token, s'.token)
    ensures loggedIn ==> !LoginIn(s'.sent, |s.sent|, |s'.sent|)
    decreases Measure(loggedIn, failed)
  {
    if !s.registered && s.token != "" {
      var (mid, r) := Register(w, s);
      if TokenExpired(r) && !loggedIn {
        TokenAfterLogin(w, s, mid, s');
      } else if Failed(r) && !failed {
        TokenAfterCall(w, mid, loggedIn, true, s');
        assert s'.sent[|s.sent|] == mid.sent[|s.sent|];
        TokenSkips(s'.sent, |s.sent|, s.token, s'.token);
      } else {
        FinishEnds(w, mid, s', Finish(w, mid, r).1, mid.sent[|s.sent|]);
        TokenStays(s'.sent, |s.sent|, s.token);
      }
    } else {
      TokenStays(s.sent, |s.sent|, s.token);
    }
  }

  lemma TokenStays(sent: seq<Sent>, from: nat, token: string)
    requires |sent| <= from + 1 && (from < |sent| ==> sent[from].endpoint == VehiclesEndpoint)
    ensures TokenFits(sent, from, token, token) && !LoginIn(sent, from, |sent|)
  {
  }

  lemma TokenSkips(sent: seq<Sent>, from: nat, before: string, after: string)
    requires from < |sent| && sent[from].endpoint == VehiclesEndpoint
    ensures LoginIn(sent, from, |sent|) <==> LoginIn(sent, from + 1, |sent|)
    ensures TokenFits(sent, from, before, after) <==> TokenFits(sent, from + 1, before, after)
  {
  }

  lemma TokenAfterLogin(w: World, s: Session, mid: Session, s': Session)
    requires |mid.sent| == |s.sent| + 1 && s.sent <= mid.sent
    requires mid.sent[|s.sent|].endpoint == VehiclesEndpoint
    requires var (again, ok) := Login(w, mid.(token := ""));
      s' == if ok then CreateVehicle(w, again, true, false).0 else again
    ensures s.sent <= s'.sent && TokenFits(s'.sent, |s.sent|, s.token, s'.token)
    decreases Measure(false, true), 0
  {
    var from := |s.sent|;
    LoginAnswer(w, mid.(token := ""));
    var (again, ok) := Login(w, mid.(token := ""));
    if ok { TokenAfterCall(w, again, true, false, s'); }
    assert s'.sent[from] == mid.sent[from] && s'.sent[from + 1] == again.sent[from + 1];
    assert LoginIn(s'.sent, from, |s'.sent|) && !LoginIn(s'.sent, from + 2, |s'.sent|);
    assert forall k :: from <= k < |s'.sent| && s'.sent[k].endpoint == LoginEndpoint ==>
      k == from + 1;
  }

  /** A call whose token has expired drops it: it ends with the token that its login was granted,
      and with none if the login failed. A call without a login keeps the token. */
  lemma ExpiredTokenIsDropped(w: World, s: Session, s': Session)
    requires s' == CreateVehicle(w, s, false, false).0
    ensures TokenFits(s'.sent, |s.sent|, s.token, s'.token)
  {
    TokenAfterCall(w, s, false, false, s');
  }

  lemma LoginAnswer(w: World, s: Session)
    ensures var (s', ok) := Login(w, s); var r := w.answer(|s.sent|);
      && s'.sent == s.sent + [Sent(LoginEndpoint, JsonHeaders(), r)]
      && (ok <==> GrantsSome(r)) && (ok ==> Grants(r, s'.token)) && (!ok ==> s'.token == s.token)
  {
    var r := w.answer(|s.sent|);
    GrantsWhat(r);
    if TokenIn(r).Some? { GrantsIff(r, TokenIn(r).value); }
  }

  // ---------------------------------------------------------------- setup

  /** Whether the answer to request `i` of `setup` leads to another. */
  ghost predicate SetupGoesOn(i: nat, r: Response) {
    if i == 0 then !GrantsSome(r)
    else if i == 1 then r.statusCode == 201 || r.statusCode == 409
    else i == 2 && r.statusCode == 200
  }

  predicate SetupSends(i: nat, endpoint: Endpoint) {
    if i == 0 || i == 3 then endpoint == LoginEndpoint
    else if i == 1 then endpoint == SignupEndpoint
    else i == 2 && endpoint == VerifyEndpoint
  }

  /** All answers so far lead to another request. */
  ghost predicate SetupOpen(sent: seq<Sent>, from: nat) {
    && from <= |sent| <= from + 3
    && forall k :: from <= k < |sent| ==>
         SetupSends(k - from, sent[k].endpoint) && SetupGoesOn(k - from, sent[k].response)
  }

  ghost predicate SetupRight(sent: seq<Sent>, from: nat) {
    && from < |sent|
    && forall k :: from <= k < |sent| ==>
         && SetupSends(k - from, sent[k].endpoint)
         && (k + 1 < |sent| <==> SetupGoesOn(k - from, sent[k].response))
  }

  lemma SetupNext(sent: seq<Sent>, from: nat, x: Sent)
    requires SetupOpen(sent, from) && SetupSends(|sent| - from, x.endpoint)
    ensures if SetupGoesOn(|sent| - from, x.response) then SetupOpen(sent + [x], from)
            else SetupRight(sent + [x], from)
  {
  }

  /** `setup` from no token, for every server, in terms of its requests and answers alone: login,
      signup, verification and login again, each sent exactly if the answer before it asks for it;
      it is true exactly if the last answer grants a token, which it then has. */
  lemma SetupFollowsAnswers(w: World, s: Session, s': Session, ok: bool)
    requires s.token == "" && (s', ok) == Setup(w, s)
    ensures s.sent < s'.sent && SetupRight(s'.sent, |s.sent|)
    ensures var last := s'.sent[|s'.sent| - 1];
      && (ok <==> last.endpoint == LoginEndpoint && GrantsSome(last.response))
      && (ok ==> Grants(last.response, s'.token)) && (!ok ==> s'.token == "")
  {
    var from := |s.sent|;
    LoginAnswer(w, s);
    var (s1, ok1) := Login(w, s);
    SetupNext(s.sent, from, s1.sent[from]);
    if !ok1 {
      var (s2, ok2) := Signup(w, s1);
      SetupNext(s1.sent, from, s2.sent[from + 1]);
      if ok2 {
        var (s3, ok3) := VerifyCode(w, s2);
        SetupNext(s2.sent, from, s3.sent[from + 2]);
        if ok3 {
          LoginAnswer(w, s3);
          SetupNext(s3.sent, from, Login(w, s3).0.sent[from + 3]);
        }
      }
    }
  }
}
