/**
 * The YoLink cloud API client: OAuth2 session bookkeeping (client-credentials
 * grant, section 4.4 of RFC 6749, and refresh-token grant, section 6 of
 * RFC 6749) and the two read operations, listing the temperature/humidity
 * sensors and fetching one sensor's state.
 *
 * Every HTTP exchange is an abstract `Reply` supplied by the caller, and time
 * is a Unix instant in whole seconds, also supplied by the caller.
 */
module Client {
  import opened Wrappers

  /** Unix time, in seconds, of Go's zero `time.Time` (0001-01-01T00:00:00Z). */
  const ZeroTime: int := -62135596800

  /** Seconds subtracted from the declared token lifetime. */
  const SafetyMargin: int := 60

  /** The application-level success code of the API endpoint. */
  const SuccessCode: string := "000000"

  const HttpOK: int := 200

  const SensorType: string := "THSensor"
  const SensorModel: string := "YS8007-UC"

  const ListMethod: string := "Home.getDeviceList"
  const StateMethod: string := "THSensor.getState"

  datatype TokenResponse = TokenResponse(
    accessToken: string,
    tokenType: string,
    expiresIn: int,
    refreshToken: string,
    scope: seq<string>)

  datatype Device = Device(
    deviceId: string,
    deviceUdid: string,
    name: string,
    token: string,
    deviceType: string,
    parentDeviceId: string,
    modelName: string,
    serviceZone: string)

  /** The decoded reply of "Home.getDeviceList" (its `data.devices` is `devices`). */
  datatype DeviceListResponse = DeviceListResponse(code: string, time: int, devices: seq<Device>)

  /** Temperature and humidity are float64 in the source; they are carried as reals, unchanged. */
  datatype SensorReading = SensorReading(battery: int, humidity: real, temperature: real, state: string)

  datatype StateData = StateData(online: bool, state: SensorReading, deviceId: string, reportAt: string)

  /** The decoded reply of "THSensor.getState". */
  datatype DeviceStateResponse = DeviceStateResponse(code: string, time: int, data: StateData)

  /**
   * What one HTTP exchange delivered: the request could not be built or sent,
   * the body could not be read, or a status code with a body that decoded
   * (`Some`) or did not (`None`).
   */
  datatype Reply<T> = TransportFailed | ReadFailed | Received(status: int, body: Option<T>)

  datatype ClientError =
    | TransportError
    | ReadError
    | StatusError(status: int)
    | ParseError
    | CodeError(code: string)
    | TokenError(cause: ClientError)

  /** The form a token request posts to /open/yolink/token. */
  datatype Grant =
    | ClientCredentials(clientId: string, clientSecret: string)
    | RefreshGrant(clientId: string, refreshToken: string)

  /** A request the client attempts; `bearer` is the access token sent as "Bearer <token>". */
  datatype Request =
    | TokenRequest(grant: Grant)
    | ApiRequest(apiMethod: string, time: int, targetDevice: string, deviceToken: string, bearer: string)

  /** The client's OAuth2 session: access token, refresh token and expiry instant. */
  datatype AuthSession = AuthSession(accessToken: string, refreshToken: string, expiry: int)

  // ---------------------------------------------------------------------------
  // Specification of the session logic

  /** A session is used as it is when it has an access token and `now` is not after its expiry. */
  predicate TokenValid(s: AuthSession, now: int) {
    s.accessToken != "" && !(now > s.expiry)
  }

  /** The grant `ensureValidToken` uses when the session is not valid. */
  function GrantFor(s: AuthSession, apiKey: string, secret: string): Grant {
    if s.refreshToken != "" then RefreshGrant(apiKey, s.refreshToken)
    else ClientCredentials(apiKey, secret)
  }

  /** The token requests `ensureValidToken` issues from session `s` at `now`. */
  function TokenRequests(s: AuthSession, now: int, apiKey: string, secret: string): seq<Request> {
    if TokenValid(s, now) then [] else [TokenRequest(GrantFor(s, apiKey, secret))]
  }

  /** A reply that arrived with status 200 and a body that decoded. */
  predicate Delivered<T>(reply: Reply<T>) {
    reply.Received? && reply.status == HttpOK && reply.body.Some?
  }

  /** The checks every exchange makes, in the source's order: send, read, status, decode. */
  function Checked<T>(reply: Reply<T>): (r: Result<T, ClientError>)
    ensures r.Success? <==> Delivered(reply)
    ensures r.Success? ==> r.value == reply.body.value
    ensures reply.Received? && reply.status != HttpOK ==> r == Failure(StatusError(reply.status))
  {
    match reply
    case TransportFailed => Failure(TransportError)
    case ReadFailed => Failure(ReadError)
    case Received(status, body) =>
      if status != HttpOK then Failure(StatusError(status))
      else if body.None? then Failure(ParseError)
      else Success(body.value)
  }

  /** The session a token exchange installs at `now`, or the error it fails with. */
  function Exchanged(reply: Reply<TokenResponse>, now: int): (r: Result<AuthSession, ClientError>)
    ensures r.Success? <==> Delivered(reply)
    ensures Delivered(reply) ==>
      var tok := reply.body.value;
      r.value == AuthSession(tok.accessToken, tok.refreshToken, now + tok.expiresIn - 60)
    ensures r.Failure? ==> r == Failure(Checked(reply).error)
  {
    match Checked(reply)
    case Failure(e) => Failure(e)
    case Success(tok) => Success(AuthSession(tok.accessToken, tok.refreshToken, now + (tok.expiresIn - SafetyMargin)))
  }

  /** The session after `ensureValidToken` at `now`, when the token endpoint would answer `reply`. */
  function Authenticate(s: AuthSession, now: int, reply: Reply<TokenResponse>): (r: Result<AuthSession, ClientError>)
    ensures r.Success? <==> TokenValid(s, now) || Delivered(reply)
    ensures TokenValid(s, now) ==> r == Success(s)
    ensures !TokenValid(s, now) ==> r == Exchanged(reply, now)
  {
    if TokenValid(s, now) then Success(s) else Exchanged(reply, now)
  }

  predicate IsTHSensor(d: Device) {
    d.deviceType == SensorType && d.modelName == SensorModel
  }

  /** The temperature/humidity sensors of `ds`, in their original order. */
  function THSensors(ds: seq<Device>): (r: seq<Device>)
    ensures |r| <= |ds|
    decreases |ds|
  {
    if ds == [] then []
    else
      var last := ds[|ds| - 1];
      assert ds == ds[..|ds| - 1] + [last];
      THSensors(ds[..|ds| - 1]) + (if IsTHSensor(last) then [last] else [])
  }

  /** What "Home.getDeviceList" yields once authenticated: the checks, the code, then the filter. */
  function ListResult(reply: Reply<DeviceListResponse>): (r: Result<seq<Device>, ClientError>)
    ensures r.Success? <==> Delivered(reply) && reply.body.value.code == SuccessCode
    ensures r.Success? ==> r.value == THSensors(reply.body.value.devices)
    ensures Delivered(reply) && reply.body.value.code != SuccessCode ==> r == Failure(CodeError(reply.body.value.code))
  {
    match Checked(reply)
    case Failure(e) => Failure(e)
    case Success(resp) =>
      if resp.code != SuccessCode then Failure(CodeError(resp.code)) else Success(THSensors(resp.devices))
  }

  /** What "THSensor.getState" yields once authenticated. */
  function StateResult(reply: Reply<DeviceStateResponse>): (r: Result<DeviceStateResponse, ClientError>)
    ensures r.Success? <==> Delivered(reply) && reply.body.value.code == SuccessCode
    ensures r.Success? ==> r.value == reply.body.value
    ensures Delivered(reply) && reply.body.value.code != SuccessCode ==> r == Failure(CodeError(reply.body.value.code))
  {
    match Checked(reply)
    case Failure(e) => Failure(e)
    case Success(resp) =>
      if resp.code != SuccessCode then Failure(CodeError(resp.code)) else Success(resp)
  }

  /** The result of `GetDevices` from session `s`: a token failure is wrapped, otherwise the list result. */
  function DevicesOutcome(s: AuthSession, now: int, tokenReply: Reply<TokenResponse>,
                          listReply: Reply<DeviceListResponse>): (r: Result<seq<Device>, ClientError>)
    ensures r.Success? <==> Authenticate(s, now, tokenReply).Success? && ListResult(listReply).Success?
    ensures r.Success? ==> r.value == THSensors(listReply.body.value.devices)
  {
    match Authenticate(s, now, tokenReply)
    case Failure(e) => Failure(TokenError(e))
    case Success(_) => ListResult(listReply)
  }

  /** The result of `GetDeviceState` from session `s`. */
  function StateOutcome(s: AuthSession, now: int, tokenReply: Reply<TokenResponse>,
                        stateReply: Reply<DeviceStateResponse>): (r: Result<DeviceStateResponse, ClientError>)
    ensures r.Success? <==> Authenticate(s, now, tokenReply).Success? && StateResult(stateReply).Success?
    ensures r.Success? ==> r.value == stateReply.body.value
  {
    match Authenticate(s, now, tokenReply)
    case Failure(e) => Failure(TokenError(e))
    case Success(_) => StateResult(stateReply)
  }

  /** The session after one API call's session step: the new one, or the old one when the step failed. */
  function SessionAfter(s: AuthSession, now: int, tokenReply: Reply<TokenResponse>): AuthSession {
    match Authenticate(s, now, tokenReply)
    case Success(t) => t
    case Failure(_) => s
  }

  /**
   * The requests one API call attempts from session `s`: those of the
   * session step, then the call itself, bearing the new access token, once
   * the session step has succeeded.
   */
  function CallRequests(s: AuthSession, now: int, apiKey: string, secret: string, tokenReply: Reply<TokenResponse>,
                        apiMethod: string, targetDevice: string, deviceToken: string): seq<Request>
  {
    TokenRequests(s, now, apiKey, secret)
    + match Authenticate(s, now, tokenReply)
      case Success(t) => [ApiRequest(apiMethod, now, targetDevice, deviceToken, t.accessToken)]
      case Failure(_) => []
  }

  // ---------------------------------------------------------------------------
  // The client

  /** The filter loop of `GetDevices`. */
  method SelectTHSensors(devices: seq<Device>) returns (thSensors: seq<Device>)
    ensures thSensors == THSensors(devices)
  {
    thSensors := [];
    for i := 0 to |devices|
      invariant thSensors == THSensors(devices[..i])
    {
      assert devices[..i + 1][..i] == devices[..i];
      if IsTHSensor(devices[i]) {
        thSensors := thSensors + [devices[i]];
      }
    }
    assert devices[..|devices|] == devices;
  }

  class YoLinkClient {
    const apiKey: string
    const secret: string
    const endpoint: string
    var accessToken: string
    var refreshToken: string
    var tokenExpiry: int
    /** Every request the client has attempted, oldest first, including those whose transport failed. */
    ghost var sent: seq<Request>

    function Session(): AuthSession
      reads this
    {
      AuthSession(accessToken, refreshToken, tokenExpiry)
    }

    constructor (apiKey: string, secret: string, endpoint: string)
      ensures this.apiKey == apiKey && this.secret == secret && this.endpoint == endpoint
      ensures Session() == AuthSession("", "", ZeroTime)
      ensures sent == []
    {
      this.apiKey := apiKey;
      this.secret := secret;
      this.endpoint := endpoint;
      accessToken := "";
      refreshToken := "";
      tokenExpiry := ZeroTime;
      sent := [];
    }

    /** Keeps a valid session, or replaces it by a refresh-grant or a client-credentials exchange. */
    method EnsureValidToken(now: int, reply: Reply<TokenResponse>) returns (err: Option<ClientError>)
      modifies this
      ensures sent == old(sent) + TokenRequests(old(Session()), now, apiKey, secret)
      ensures match Authenticate(old(Session()), now, reply)
        case Success(s) => err == None && Session() == s
        case Failure(e) => err == Some(e) && Session() == old(Session())
    {
      if accessToken == "" || now > tokenExpiry {
        if refreshToken != "" {
          err := RefreshAccessToken(now, reply);
          return;
        }
        err := GetInitialToken(now, reply);
        return;
      }
      err := None;
    }

    /** The client-credentials exchange: the session changes only once every check has passed. */
    method GetInitialToken(now: int, reply: Reply<TokenResponse>) returns (err: Option<ClientError>)
      modifies this
      ensures sent == old(sent) + [TokenRequest(ClientCredentials(apiKey, secret))]
      ensures match Exchanged(reply, now)
        case Success(s) => err == None && Session() == s
        case Failure(e) => err == Some(e) && Session() == old(Session())
    {
      sent := sent + [TokenRequest(ClientCredentials(apiKey, secret))];
      match reply {
        case TransportFailed =>
          return Some(TransportError);
        case ReadFailed =>
          return Some(ReadError);
        case Received(status, body) =>
          if status != HttpOK {
            return Some(StatusError(status));
          }
          if body.None? {
            return Some(ParseError);
          }
          var tokenResp := body.value;
          accessToken := tokenResp.accessToken;
          refreshToken := tokenResp.refreshToken;
          tokenExpiry := now + (tokenResp.expiresIn - SafetyMargin);
          return None;
      }
    }

    /** The refresh-token exchange, posting the current refresh token. */
    method RefreshAccessToken(now: int, reply: Reply<TokenResponse>) returns (err: Option<ClientError>)
      modifies this
      ensures sent == old(sent) + [TokenRequest(RefreshGrant(apiKey, old(refreshToken)))]
      ensures match Exchanged(reply, now)
        case Success(s) => err == None && Session() == s
        case Failure(e) => err == Some(e) && Session() == old(Session())
    {
      sent := sent + [TokenRequest(RefreshGrant(apiKey, refreshToken))];
      match reply {
        case TransportFailed =>
          return Some(TransportError);
        case ReadFailed =>
          return Some(ReadError);
        case Received(status, body) =>
          if status != HttpOK {
            return Some(StatusError(status));
          }
          if body.None? {
            return Some(ParseError);
          }
          var tokenResp := body.value;
          accessToken := tokenResp.accessToken;
          refreshToken := tokenResp.refreshToken;
          tokenExpiry := now + (tokenResp.expiresIn - SafetyMargin);
          return None;
      }
    }

    /**
     * Lists the temperature/humidity sensors. The list request is issued only
     * when the session step succeeded, and carries the new access token.
     */
    method GetDevices(now: int, tokenReply: Reply<TokenResponse>, listReply: Reply<DeviceListResponse>)
      returns (r: Result<seq<Device>, ClientError>)
      modifies this
      ensures r == DevicesOutcome(old(Session()), now, tokenReply, listReply)
      ensures Session() == SessionAfter(old(Session()), now, tokenReply)
      ensures sent == old(sent) + CallRequests(old(Session()), now, apiKey, secret, tokenReply, ListMethod, "", "")
    {
      var err := EnsureValidToken(now, tokenReply);
      if err.Some? {
        return Failure(TokenError(err.value));
      }
      sent := sent + [ApiRequest(ListMethod, now, "", "", accessToken)];
      match listReply {
        case TransportFailed =>
          return Failure(TransportError);
        case ReadFailed =>
          return Failure(ReadError);
        case Received(status, body) =>
          if status != HttpOK {
            return Failure(StatusError(status));
          }
          if body.None? {
            return Failure(ParseError);
          }
          var deviceResp := body.value;
          if deviceResp.code != SuccessCode {
            return Failure(CodeError(deviceResp.code));
          }
          var thSensors := SelectTHSensors(deviceResp.devices);
          return Success(thSensors);
      }
    }

    /** Fetches one device's state, authenticated by the session and the device's own token. */
    method GetDeviceState(device: Device, now: int, tokenReply: Reply<TokenResponse>,
                          stateReply: Reply<DeviceStateResponse>)
      returns (r: Result<DeviceStateResponse, ClientError>)
      modifies this
      ensures r == StateOutcome(old(Session()), now, tokenReply, stateReply)
      ensures Session() == SessionAfter(old(Session()), now, tokenReply)
      ensures sent == old(sent) + CallRequests(old(Session()), now, apiKey, secret, tokenReply,
                                               StateMethod, device.deviceId, device.token)
    {
      var err := EnsureValidToken(now, tokenReply);
      if err.Some? {
        return Failure(TokenError(err.value));
      }
      sent := sent + [ApiRequest(StateMethod, now, device.deviceId, device.token, accessToken)];
      match stateReply {
        case TransportFailed =>
          return Failure(TransportError);
        case ReadFailed =>
          return Failure(ReadError);
        case Received(status, body) =>
          if status != HttpOK {
            return Failure(StatusError(status));
          }
          if body.None? {
            return Failure(ParseError);
          }
          var stateResp := body.value;
          if stateResp.code != SuccessCode {
            return Failure(CodeError(stateResp.code));
          }
          return Success(stateResp);
      }
    }
  }

  // ---------------------------------------------------------------------------
  // Properties of the session logic

  /** A valid session is kept as it is, and no token request is made. */
  lemma ValidSessionKept(s: AuthSession, now: int, reply: Reply<TokenResponse>, apiKey: string, secret: string)
    requires s.accessToken != "" && now <= s.expiry
    ensures Authenticate(s, now, reply) == Success(s)
    ensures TokenRequests(s, now, apiKey, secret) == []
  {
  }

  /** Expiry equal to `now` still counts as valid; one second earlier it does not. */
  lemma ExpiryBoundary(token: string, refresh: string, now: int)
    requires token != ""
    ensures TokenValid(AuthSession(token, refresh, now), now)
    ensures TokenValid(AuthSession(token, refresh, now + 1), now)
    ensures !TokenValid(AuthSession(token, refresh, now - 1), now)
  {
  }

  /** When a token is needed, the refresh grant is used exactly when a refresh token is held. */
  lemma GrantChoice(s: AuthSession, now: int, apiKey: string, secret: string)
    requires !TokenValid(s, now)
    ensures TokenRequests(s, now, apiKey, secret) == [TokenRequest(GrantFor(s, apiKey, secret))]
    ensures GrantFor(s, apiKey, secret).RefreshGrant? <==> s.refreshToken != ""
    ensures s.refreshToken != "" ==> GrantFor(s, apiKey, secret) == RefreshGrant(apiKey, s.refreshToken)
    ensures s.refreshToken == "" ==> GrantFor(s, apiKey, secret) == ClientCredentials(apiKey, secret)
  {
  }

  /** A freshly constructed client's first authenticated call uses the client-credentials grant. */
  lemma FreshSessionAcquires(now: int, apiKey: string, secret: string)
    ensures TokenRequests(AuthSession("", "", ZeroTime), now, apiKey, secret)
         == [TokenRequest(ClientCredentials(apiKey, secret))]
  {
  }

  /** A session failure is reported as a token error and masks the API reply. */
  lemma TokenFailureStopsCalls(s: AuthSession, now: int, tokenReply: Reply<TokenResponse>,
                               listReply: Reply<DeviceListResponse>, stateReply: Reply<DeviceStateResponse>)
    requires Authenticate(s, now, tokenReply).Failure?
    ensures DevicesOutcome(s, now, tokenReply, listReply) == Failure(TokenError(Authenticate(s, now, tokenReply).error))
    ensures StateOutcome(s, now, tokenReply, stateReply) == Failure(TokenError(Authenticate(s, now, tokenReply).error))
  {
  }

  // ---------------------------------------------------------------------------
  // Properties of the sensor filter

  /** Filtering distributes over concatenation, so it keeps the original order. */
  lemma {:induction false} THSensorsAppend(a: seq<Device>, b: seq<Device>)
    ensures THSensors(a + b) == THSensors(a) + THSensors(b)
    decreases |b|
  {
    if b == [] {
      assert a + b == a;
    } else {
      var ab, init, last := a + b, b[..|b| - 1], b[|b| - 1];
      var kept := if IsTHSensor(last) then [last] else [];
      assert ab[..|ab| - 1] == a + init;
      assert ab[|ab| - 1] == last;
      calc {
        THSensors(ab);
        THSensors(a + init) + kept;
        { THSensorsAppend(a, init); }
        THSensors(a) + THSensors(init) + kept;
        THSensors(a) + (THSensors(init) + kept);
      }
    }
  }

  /** The filter keeps exactly the sensors of the list. */
  lemma {:induction false} THSensorsMembers(ds: seq<Device>)
    ensures forall d :: d in THSensors(ds) <==> d in ds && IsTHSensor(d)
    decreases |ds|
  {
    if ds != [] {
      var init, last := ds[..|ds| - 1], ds[|ds| - 1];
      assert ds == init + [last];
      THSensorsMembers(init);
    }
  }

  /** A list made only of sensors passes the filter unchanged. */
  lemma {:induction false} THSensorsOfSensors(ds: seq<Device>)
    requires forall d :: d in ds ==> IsTHSensor(d)
    ensures THSensors(ds) == ds
    decreases |ds|
  {
    if ds != [] {
      assert ds == ds[..|ds| - 1] + [ds[|ds| - 1]];
      THSensorsOfSensors(ds[..|ds| - 1]);
    }
  }

  /** Applying the filter a second time changes nothing. */
  lemma THSensorsIdempotent(ds: seq<Device>)
    ensures THSensors(THSensors(ds)) == THSensors(ds)
  {
    THSensorsMembers(ds);
    THSensorsOfSensors(THSensors(ds));
  }

  /** The filter keeps a single device exactly when it is a sensor. */
  lemma THSensorsSingleton(d: Device)
    ensures THSensors([d]) == if IsTHSensor(d) then [d] else []
  {
    assert [d][..0] == [];
  }

  /** Of a sensor, a hub and a sensor, the two sensors remain, in order. */
  lemma DeviceFilteringScenario()
    ensures var s1 := Device("test1", "", "Test Sensor 1", "", "THSensor", "", "YS8007-UC", "");
            var hub := Device("test2", "", "Test Hub", "", "Hub", "", "YS1603-UC", "");
            var s2 := Device("test3", "", "Test Sensor 2", "", "THSensor", "", "YS8007-UC", "");
            THSensors([s1, hub, s2]) == [s1, s2]
  {
    var s1 := Device("test1", "", "Test Sensor 1", "", "THSensor", "", "YS8007-UC", "");
    var hub := Device("test2", "", "Test Hub", "", "Hub", "", "YS1603-UC", "");
    var s2 := Device("test3", "", "Test Sensor 2", "", "THSensor", "", "YS8007-UC", "");
    var all := [s1, hub, s2];
    assert all[..2] == [s1, hub] && all[2] == s2;
    assert [s1, hub][..1] == [s1] && [s1, hub][1] == hub;
    assert [s1][..0] == [];
    assert THSensors([s1]) == [s1];
    assert THSensors([s1, hub]) == [s1];
  }
}
