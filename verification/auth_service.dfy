/** The class behind `Auth`: `AuthService` with its fields updated in place. Each method is
    proved to take the step of the model. */
module AuthServices {
  import opened Wrappers
  import opened Json
  import opened Auth

  class AuthService {
    const world: World
    var token: string
    var vehicleRegistered: bool
    var credentials: Credentials
    var authHeaders: map<string, string>
    var credentialsFile: Option<Json>
    var sent: seq<Sent>

    ghost function View(): Session
      reads this
    {
      Session(token, vehicleRegistered, credentials, authHeaders, credentialsFile, sent)
    }

    constructor (world: World, credentialsFile: Option<Json>)
      ensures View() == Start(credentialsFile) && this.world == world
    {
      this.world := world;
      this.credentialsFile := credentialsFile;
      token := "";
      vehicleRegistered := false;
      credentials := Credentials("", "", "");
      authHeaders := map[];
      sent := [];
    }

    method PostTo(endpoint: Endpoint, headers: map<string, string>) returns (r: Response)
      modifies this`sent
      ensures (View(), r) == Post(world, old(View()), endpoint, headers)
    {
      r := world.answer(|sent|);
      sent := sent + [Sent(endpoint, headers, r)];
    }

    method Login() returns (ok: bool)
      modifies this`sent, this`token
      ensures (View(), ok) == Auth.Login(world, old(View()))
    {
      var r := PostTo(LoginEndpoint, JsonHeaders());
      if !r.success || r.body == None { return false; }
      if At(r.body, "success") != Some(Bool(true)) { return false; }
      var accessToken := GetString(At(At(r.body, "data"), "accessToken"));
      if accessToken == None { return false; }
      token := accessToken.value;
      return true;
    }

    method Signup() returns (ok: bool)
      modifies this`sent
      ensures (View(), ok) == Auth.Signup(world, old(View()))
    {
      var r := PostTo(SignupEndpoint, JsonHeaders());
      if r.statusCode == 201 { return true; }
      if r.statusCode == 409 { return true; }
      return false;
    }

    method VerifyCode() returns (ok: bool)
      modifies this`sent
      ensures (View(), ok) == Auth.VerifyCode(world, old(View()))
    {
      var r := PostTo(VerifyEndpoint, JsonHeaders());
      return r.statusCode == 200;
    }

    method Setup() returns (ok: bool)
      modifies this`sent, this`token
      ensures (View(), ok) == Auth.Setup(world, old(View()))
    {
      if token != "" { return true; }
      ok := Login();
      if ok { return true; }
      ok := Signup();
      if !ok { return false; }
      ok := VerifyCode();
      if !ok { return false; }
      ok := Login();
    }

    method EnsureAuthHeaders()
      modifies this`authHeaders
      ensures View() == Auth.EnsureAuthHeaders(old(View()))
    {
      if token == "" { return; }
      authHeaders := JsonHeaders();
      authHeaders := authHeaders["Authorization" := "Bearer " + token];
    }

    method SaveVehicleCredentials()
      modifies this`credentialsFile
      ensures View() == Save(world, old(View()))
    {
      if world.writable(|sent|) { credentialsFile := Some(ToJson(credentials)); }
    }

    method LoadVehicleCredentials() returns (ok: bool)
      modifies this`credentials
      ensures (View(), ok) == Load(old(View()))
    {
      var apiKey := GetString(At(credentialsFile, "apiKey"));
      if apiKey == None { return false; }
      credentials := credentials.(apiKey := apiKey.value);
      var apiSecret := GetString(At(credentialsFile, "apiSecret"));
      if apiSecret == None { return false; }
      credentials := credentials.(apiSecret := apiSecret.value);
      var accessToken := At(credentialsFile, "accessToken");
      if accessToken == None {
        credentials := credentials.(accessToken := "");
        return true;
      }
      if GetString(accessToken) == None { return false; }
      credentials := credentials.(accessToken := GetString(accessToken).value);
      return true;
    }

    /** The 201 branch of `create_vehicle`. */
    method CaptureCredentials(body: Option<Json>) returns (ok: bool)
      modifies this`vehicleRegistered, this`credentials, this`credentialsFile
      ensures (View(), ok) == Capture(world, old(View()), body)
    {
      vehicleRegistered := true;
      var apiKey := GetString(At(At(body, "data"), "apiKey"));
      if apiKey == None { return false; }
      credentials := credentials.(apiKey := apiKey.value);
      var apiSecret := GetString(At(At(body, "data"), "apiSecret"));
      if apiSecret == None { return false; }
      credentials := credentials.(apiSecret := apiSecret.value);
      SaveVehicleCredentials();
      return true;
    }

    method CreateVehicle(retryAfterLogin: bool, retryAfterNetwork: bool) returns (ok: bool)
      modifies this
      ensures (View(), ok)
           == Auth.CreateVehicle(world, old(View()), retryAfterLogin, retryAfterNetwork)
      decreases Measure(retryAfterLogin, retryAfterNetwork)
    {
      if vehicleRegistered { return true; }
      if token == "" { return false; }
      EnsureAuthHeaders();
      var r := PostTo(VehiclesEndpoint, authHeaders);
      if r.statusCode == 201 {
        ok := CaptureCredentials(r.body);
        return;
      }
      if r.statusCode == 409 {
        ok := LoadVehicleCredentials();
        if !ok { return false; }
        vehicleRegistered := true;
        return true;
      }
      if r.statusCode == 401 {
        if retryAfterLogin { return false; }
        token := "";
        ok := Login();
        if !ok { return false; }
        ok := CreateVehicle(true, false);
        return;
      }
      if !r.success {
        if retryAfterNetwork { return false; }
        ok := CreateVehicle(retryAfterLogin, true);
        return;
      }
      return false;
    }
  }
}
