/** `AuthService`: admin login and vehicle registration with retries. The server answers the
    k-th request of the service with whatever it likes. */
module Auth {
  import opened Wrappers
  import opened Json

  /** An answer; the body is `None` if it is empty or not JSON. */
  datatype Response = Response(statusCode: int, success: bool, body: Option<Json>)

  datatype Endpoint = LoginEndpoint | SignupEndpoint | VerifyEndpoint | VehiclesEndpoint

  datatype Sent = Sent(endpoint: Endpoint, headers: map<string, string>, response: Response)

  datatype Credentials = Credentials(apiKey: string, apiSecret: string, accessToken: string)

  /** What surrounds the service: the answers by request number, and whether the credentials
      file can be written after so many requests. */
  datatype World = World(answer: nat -> Response, writable: nat -> bool)

  /** The fields of `AuthService`, the credentials file, and the requests made so far. */
  datatype Session = Session(
    token: string,
    registered: bool,
    credentials: Credentials,
    headers: map<string, string>,
    file: Option<Json>,
    sent: seq<Sent>)

  function JsonHeaders(): map<string, string> {
    map["Content-Type" := "application/json"]
  }

  function Start(file: Option<Json>): Session {
    Session("", false, Credentials("", "", ""), map[], file, [])
  }

  // ---------------------------------------------------------------- the steps

  function Post(w: World, s: Session, endpoint: Endpoint, headers: map<string, string>)
    : (Session, Response)
  {
    var r := w.answer(|s.sent|);
    (s.(sent := s.sent + [Sent(endpoint, headers, r)]), r)
  }

  /** The access token of an answer that counts as a successful login. */
  function TokenIn(r: Response): Option<string> {
    if r.success && At(r.body, "success") == Some(Bool(true))
    then GetString(At(At(r.body, "data"), "accessToken")) else None
  }

  function Login(w: World, s: Session): (Session, bool) {
    var (s, r) := Post(w, s, LoginEndpoint, JsonHeaders());
    match TokenIn(r)
    case None => (s, false)
    case Some(token) => (s.(token := token), true)
  }

  function Signup(w: World, s: Session): (Session, bool) {
    var (s, r) := Post(w, s, SignupEndpoint, JsonHeaders());
    (s, r.statusCode == 201 || r.statusCode == 409)
  }

  function VerifyCode(w: World, s: Session): (Session, bool) {
    var (s, r) := Post(w, s, VerifyEndpoint, JsonHeaders());
    (s, r.statusCode == 200)
  }

  function Setup(w: World, s: Session): (Session, bool) {
    if s.token != "" then (s, true)
    else
      var (s, ok) := Login(w, s);
      if ok then (s, true)
      else
        var (s, ok) := Signup(w, s);
        if !ok then (s, false)
        else
          var (s, ok) := VerifyCode(w, s);
          if !ok then (s, false) else Login(w, s)
  }

  function EnsureAuthHeaders(s: Session): Session {
    if s.token == "" then s
    else s.(headers := JsonHeaders()["Authorization" := "Bearer " + s.token])
  }

  function ToJson(c: Credentials): Json {
    Object(map["apiKey" := Str(c.apiKey), "apiSecret" := Str(c.apiSecret),
               "accessToken" := Str(c.accessToken)])
  }

  function Save(w: World, s: Session): Session {
    if w.writable(|s.sent|) then s.(file := Some(ToJson(s.credentials))) else s
  }

  /** The members are read one by one, and those before a bad one are kept. */
  function Load(s: Session): (Session, bool) {
    match GetString(At(s.file, "apiKey"))
    case None => (s, false)
    case Some(key) =>
      var s := s.(credentials := s.credentials.(apiKey := key));
      match GetString(At(s.file, "apiSecret"))
      case None => (s, false)
      case Some(secret) =>
        var s := s.(credentials := s.credentials.(apiSecret := secret));
        if At(s.file, "accessToken") == None then
          (s.(credentials := s.credentials.(accessToken := "")), true)
        else
          match GetString(At(s.file, "accessToken"))
          case None => (s, false)
          case Some(token) => (s.(credentials := s.credentials.(accessToken := token)), true)
  }

  /** The branch of a created vehicle. */
  function Capture(w: World, s: Session, body: Option<Json>): (Session, bool) {
    var s := s.(registered := true);
    match GetString(At(At(body, "data"), "apiKey"))
    case None => (s, false)
    case Some(key) =>
      var s := s.(credentials := s.credentials.(apiKey := key));
      match GetString(At(At(body, "data"), "apiSecret"))
      case None => (s, false)
      case Some(secret) =>
        (Save(w, s.(credentials := s.credentials.(apiSecret := secret))), true)
  }

  /** The branch of a vehicle that exists already. */
  function Reload(s: Session): (Session, bool) {
    var (s, ok) := Load(s);
    (if ok then s.(registered := true) else s, ok)
  }

  function Measure(retriedLogin: bool, retriedNetwork: bool): nat {
    (if retriedLogin then 0 else 2) + (if retriedNetwork then 0 else 1)
  }

  /** The registration request. */
  function Register(w: World, s: Session): (Session, Response) {
    var s := EnsureAuthHeaders(s);
    Post(w, s, VehiclesEndpoint, s.headers)
  }

  /** The answers that are tried again: an expired token, and a failed connection or server. */
  predicate TokenExpired(r: Response) {
    r.statusCode == 401
  }

  predicate Failed(r: Response) {
    !r.success && r.statusCode != 201 && r.statusCode != 409 && r.statusCode != 401
  }

  /** The branches that end the call. */
  function Finish(w: World, s: Session, r: Response): (Session, bool) {
    if r.statusCode == 201 then Capture(w, s, r.body)
    else if r.statusCode == 409 then Reload(s)
    else (s, false)
  }

  /** `create_vehicle`. A retry after a login forgets that the network was retried. */
  function CreateVehicle(w: World, s: Session, retriedLogin: bool, retriedNetwork: bool)
    : (Session, bool)
    decreases Measure(retriedLogin, retriedNetwork)
  {
    if s.registered then (s, true)
    else if s.token == "" then (s, false)
    else
      var (s, r) := Register(w, s);
      if TokenExpired(r) && !retriedLogin then
        var (s, ok) := Login(w, s.(token := ""));
        if ok then CreateVehicle(w, s, true, false) else (s, false)
      else if Failed(r) && !retriedNetwork then
        CreateVehicle(w, s, retriedLogin, true)
      else
        Finish(w, s, r)
  }
}
