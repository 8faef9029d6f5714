/** MyLightSystemsApiClient (src/mylightsystems/client.py).

    What the HTTP transport does with a request is an input: a function from the request the
    client issues to an Outcome. The interpretation of that outcome (`_request`) and of the
    body each operation receives are pure functions; the client object, which only records
    whether it created, and so owns, its HTTP session, is a class whose operations call them. */
module Client {
  import opened Errors
  import opened Json
  import opened Models

  const TimeoutMessage := "Timeout occurred while connecting to the device"
  const CommunicationMessage := "Error occurred while communicating with the device"

  /** aiohttp's `raise_for_status` raises for every status from 400 on. */
  const FirstErrorStatus := 400

  const ErrorStatus := "error"
  const NotAuthorizedCode := "not.authorized"
  const InvalidAuthCodes: set<string> := {"invalid.credentials", "undefined.email", "undefined.password"}
  const NotSupportsTotalCode := "device.not.supports.total.measures"

  const GetMethod := "GET"
  const Headers: seq<(string, string)> := [("Content-Type", "application/json")]
  const AuthPath := "/api/auth"
  const ProfilePath := "/api/profile"
  const DevicesPath := "/api/devices"
  const MeasuresTotalPath := "/api/measures/total"
  const DefaultRequestTimeout := 10

  /** The request `_request` hands to the session: method, URL parts, headers, query parameters
      and the time budget of the enclosing `asyncio.timeout`. */
  datatype HttpRequest = HttpRequest(
    verb: string, baseUrl: string, path: string,
    headers: seq<(string, string)>, params: seq<(string, string)>, timeout: int)

  /** What became of a request: the time budget ran out; aiohttp raised ClientError,
      ClientResponseError or socket.gaierror; or a response came with a status and a JSON body. */
  datatype Outcome = Timeout | TransportFailure | Http(status: int, body: Value)

  predicate IsTransportFailure(o: Outcome)
  {
    o.Timeout? || o.TransportFailure? || o.status >= FirstErrorStatus
  }

  /** `body["status"] == "error" and body["error"] in codes`, evaluated as Python does:
      `status` is always read, `error` only when the status is "error", and either read
      raises when the body is not a dictionary or lacks the key. */
  function EnvelopeSignals(body: Value, codes: set<string>): (r: Result<bool>)
    ensures r.Err? <==> !body.Obj? || Find(body.members, "status").None? ||
                        (Find(body.members, "status") == Some(Str(ErrorStatus)) && Find(body.members, "error").None?)
    ensures r.Err? ==> r.error == if !body.Obj? then TypeError
                                  else if Find(body.members, "status").None? then KeyError("status")
                                  else KeyError("error")
    ensures r == Ok(true) <==> body.Obj? && Find(body.members, "status") == Some(Str(ErrorStatus)) &&
                               exists c :: c in codes && Find(body.members, "error") == Some(Str(c))
  {
    var status :- Lookup(body, "status");
    if status != Str(ErrorStatus) then Ok(false)
    else
      var error :- Lookup(body, "error");
      Ok(error.Str? && error.s in codes)
  }

  /** `_request` once the session has answered: transport failures become ConnectionError,
      the shared not-authorized envelope becomes UnauthorizedError, a failed envelope read
      raises its TypeError or KeyError, and every other body is returned unchanged. */
  function Interpret(o: Outcome): (r: Result<Value>)
    ensures (r.Err? && r.error.ConnectionError?) <==> IsTransportFailure(o)
    ensures o.Timeout? ==> r == Err(ConnectionError(TimeoutMessage))
    ensures !o.Timeout? && IsTransportFailure(o) ==> r == Err(ConnectionError(CommunicationMessage))
    ensures r == Err(UnauthorizedError) <==>
              !IsTransportFailure(o) && EnvelopeSignals(o.body, {NotAuthorizedCode}) == Ok(true)
    ensures r.Ok? <==> !IsTransportFailure(o) && EnvelopeSignals(o.body, {NotAuthorizedCode}) == Ok(false)
    ensures !IsTransportFailure(o) && EnvelopeSignals(o.body, {NotAuthorizedCode}).Err? ==>
              r == Err(EnvelopeSignals(o.body, {NotAuthorizedCode}).error)
    ensures r.Ok? ==> o.Http? && r.value == o.body && o.body.Obj?
  {
    match o
    case Timeout => Err(ConnectionError(TimeoutMessage))
    case TransportFailure => Err(ConnectionError(CommunicationMessage))
    case Http(status, body) =>
      if status >= FirstErrorStatus then Err(ConnectionError(CommunicationMessage))
      else
        var unauthorized :- EnvelopeSignals(body, {NotAuthorizedCode});
        if unauthorized then Err(UnauthorizedError) else Ok(body)
  }

  /** The envelope reads `_request` performed succeed again when an operation repeats them,
      whatever codes the operation looks for, and the code "not.authorized" can no longer
      make a difference. */
  lemma EnvelopeRereadSucceeds(o: Outcome, codes: set<string>)
    requires Interpret(o).Ok?
    ensures EnvelopeSignals(o.body, codes).Ok?
    ensures EnvelopeSignals(o.body, codes) == EnvelopeSignals(o.body, codes - {NotAuthorizedCode})
  {
  }

  /** A list comprehension over `items`: the elements are converted in order and the first
      conversion that raises ends it. */
  function Collect<T>(items: seq<Value>, convert: Value -> Result<T>): (r: Result<seq<T>>)
    ensures r.Ok? <==> forall i :: 0 <= i < |items| ==> convert(items[i]).Ok?
    ensures r.Ok? ==> |r.value| == |items| && forall i :: 0 <= i < |items| ==> convert(items[i]) == Ok(r.value[i])
    ensures r.Err? ==> exists i :: 0 <= i < |items| && convert(items[i]) == Err(r.error) &&
                          forall j :: 0 <= j < i ==> convert(items[j]).Ok?
    decreases |items|
  {
    if |items| == 0 then Ok([])
    else
      var first :- convert(items[0]);
      var rest :- Collect(items[1..], convert);
      Ok([first] + rest)
  }

  /** What `auth` does with the body `_request` returned. */
  function DecodeAuth(body: Value): Result<Auth>
  {
    var invalid :- EnvelopeSignals(body, InvalidAuthCodes);
    if invalid then Err(InvalidAuthError)
    else
      var token :- Lookup(body, "authToken");
      Ok(Auth(token))
  }

  /** `auth`: the executor's verdict first; then InvalidAuthError exactly for the three listed
      codes; otherwise the token is the body's `authToken`, whose absence is the only other
      way to fail. */
  function AuthOf(o: Outcome): (r: Result<Auth>)
    ensures Interpret(o).Err? ==> r == Err(Interpret(o).error)
    ensures r == Err(InvalidAuthError) <==>
              !IsTransportFailure(o) && EnvelopeSignals(o.body, InvalidAuthCodes) == Ok(true)
    ensures Interpret(o).Ok? && r.Err? ==> r.error == InvalidAuthError || r.error == KeyError("authToken")
    ensures r.Ok? ==> o.Http? && o.body.Obj? && Find(o.body.members, "authToken") == Some(r.value.token)
    ensures Interpret(o).Ok? && EnvelopeSignals(o.body, InvalidAuthCodes) == Ok(false) ==>
              r == if Find(o.body.members, "authToken").Some?
                   then Ok(Auth(Find(o.body.members, "authToken").value))
                   else Err(KeyError("authToken"))
  {
    var body :- Interpret(o);
    DecodeAuth(body)
  }

  /** What `get_profile` does with the body `_request` returned. */
  function DecodeProfile(body: Value): Result<Profile>
  {
    var id :- Lookup(body, "id");
    var gridType :- Lookup(body, "gridType");
    Ok(Profile(id, gridType))
  }

  /** `get_profile`: the executor's verdict first; then the profile copies `id` and `gridType`,
      and fails only by lacking one of them, `id` being read first. */
  function ProfileOf(o: Outcome): (r: Result<Profile>)
    ensures Interpret(o).Err? ==> r == Err(Interpret(o).error)
    ensures r.Ok? ==> o.Http? && o.body.Obj? &&
                      Find(o.body.members, "id") == Some(r.value.id) &&
                      Find(o.body.members, "gridType") == Some(r.value.gridType)
    ensures Interpret(o).Ok? && r.Err? ==>
              r.error == if Find(o.body.members, "id").None? then KeyError("id") else KeyError("gridType")
    ensures Interpret(o).Ok? && Find(o.body.members, "id").Some? && Find(o.body.members, "gridType").Some? ==>
              r == Ok(Profile(Find(o.body.members, "id").value, Find(o.body.members, "gridType").value))
  {
    var body :- Interpret(o);
    DecodeProfile(body)
  }

  /** The elements `get_devices` iterates over: `body["devices"]`. */
  function DeviceEntries(body: Value): Result<seq<Value>>
  {
    var devices :- Lookup(body, "devices");
    Iterate(devices)
  }

  /** What `get_devices` does with the body `_request` returned, `createDevice` standing for
      DeviceFactory.create_device. */
  function DecodeDevices(body: Value, createDevice: Value -> Result<Device>): Result<seq<Device>>
  {
    var entries :- DeviceEntries(body);
    Collect(entries, createDevice)
  }

  /** `get_devices`: the executor's verdict first; then one device per entry of `devices`, in
      payload order, or the failure of the first entry the factory rejects. */
  function DevicesOf(o: Outcome, createDevice: Value -> Result<Device>): (r: Result<seq<Device>>)
    ensures Interpret(o).Err? ==> r == Err(Interpret(o).error)
    ensures r.Ok? ==> o.Http? && DeviceEntries(o.body).Ok? &&
                      |r.value| == |DeviceEntries(o.body).value| &&
                      forall i :: 0 <= i < |r.value| ==> createDevice(DeviceEntries(o.body).value[i]) == Ok(r.value[i])
    ensures Interpret(o).Ok? && DeviceEntries(o.body).Ok? && r.Err? ==>
              var entries := DeviceEntries(o.body).value;
              exists i :: 0 <= i < |entries| && createDevice(entries[i]) == Err(r.error) &&
                          forall j :: 0 <= j < i ==> createDevice(entries[j]).Ok?
    ensures Interpret(o).Ok? ==> r == (var entries :- DeviceEntries(o.body); Collect(entries, createDevice))
    ensures Interpret(o).Ok? && Find(o.body.members, "devices").None? ==> r == Err(KeyError("devices"))
    ensures Interpret(o).Ok? && Find(o.body.members, "devices").Some? ==>
              var devices := Find(o.body.members, "devices").value;
              (devices.Null? || devices.Bool? || devices.Num?) ==> r == Err(TypeError)
  {
    var body :- Interpret(o);
    DecodeDevices(body, createDevice)
  }

  /** One element of `measure.values` made into a Measure: `type`, `unit` and `value` are
      read in that order and copied. */
  function MeasureOf(item: Value): (r: Result<Measure>)
    ensures r.Ok? <==> item.Obj? && Find(item.members, "type").Some? &&
                       Find(item.members, "unit").Some? && Find(item.members, "value").Some?
    ensures r.Ok? ==> Find(item.members, "type") == Some(r.value.typeName) &&
                      Find(item.members, "unit") == Some(r.value.unit) &&
                      Find(item.members, "value") == Some(r.value.value)
    ensures r.Err? ==> r.error == if !item.Obj? then TypeError
                                  else if Find(item.members, "type").None? then KeyError("type")
                                  else if Find(item.members, "unit").None? then KeyError("unit")
                                  else KeyError("value")
  {
    var typeName :- Lookup(item, "type");
    var unit :- Lookup(item, "unit");
    var value :- Lookup(item, "value");
    Ok(Measure(typeName, unit, value))
  }

  /** The elements `get_measures_total` iterates over: `body["measure"]["values"]`. */
  function MeasureValues(body: Value): Result<seq<Value>>
  {
    var measure :- Lookup(body, "measure");
    var values :- Lookup(measure, "values");
    Iterate(values)
  }

  /** What `get_measures_total` does with the body `_request` returned. */
  function DecodeMeasuresTotal(body: Value): Result<seq<Measure>>
  {
    var unsupported :- EnvelopeSignals(body, {NotSupportsTotalCode});
    if unsupported then Err(MeasuresTotalNotSupportedError)
    else
      var values :- MeasureValues(body);
      Collect(values, MeasureOf)
  }

  /** `get_measures_total`: the executor's verdict first; then MeasuresTotalNotSupportedError
      exactly for its one code; otherwise one measure per element of `measure.values`, in
      order, each copying that element's `type`, `unit` and `value`. */
  function MeasuresTotalOf(o: Outcome): (r: Result<seq<Measure>>)
    ensures Interpret(o).Err? ==> r == Err(Interpret(o).error)
    ensures r == Err(MeasuresTotalNotSupportedError) <==>
              !IsTransportFailure(o) && EnvelopeSignals(o.body, {NotSupportsTotalCode}) == Ok(true)
    ensures r.Ok? ==> o.Http? && MeasureValues(o.body).Ok? &&
                      |r.value| == |MeasureValues(o.body).value| &&
                      forall i :: 0 <= i < |r.value| ==>
                        var item := MeasureValues(o.body).value[i];
                        item.Obj? &&
                        Find(item.members, "type") == Some(r.value[i].typeName) &&
                        Find(item.members, "unit") == Some(r.value[i].unit) &&
                        Find(item.members, "value") == Some(r.value[i].value)
    ensures Interpret(o).Ok? && EnvelopeSignals(o.body, {NotSupportsTotalCode}) == Ok(false) ==>
              r == (var values :- MeasureValues(o.body); Collect(values, MeasureOf))
    ensures (Interpret(o).Ok? && EnvelopeSignals(o.body, {NotSupportsTotalCode}) == Ok(false) &&
             MeasureValues(o.body).Ok? &&
             forall item :: item in MeasureValues(o.body).value ==>
               item.Obj? && Find(item.members, "type").Some? &&
               Find(item.members, "unit").Some? && Find(item.members, "value").Some?)
            ==> r.Ok?
    ensures Interpret(o).Ok? && EnvelopeSignals(o.body, {NotSupportsTotalCode}) == Ok(false) ==>
              (Find(o.body.members, "measure").None? ==> r == Err(KeyError("measure"))) &&
              (Find(o.body.members, "measure").Some? ==>
                 var measure := Find(o.body.members, "measure").value;
                 (!measure.Obj? ==> r == Err(TypeError)) &&
                 (measure.Obj? && Find(measure.members, "values").None? ==> r == Err(KeyError("values"))))
  {
    var body :- Interpret(o);
    DecodeMeasuresTotal(body)
  }

  /** aiohttp's ClientSession, reduced to whether it has been closed. */
  class Session {
    var closed: bool

    constructor()
      ensures !closed
    {
      closed := false;
    }

    method Close()
      modifies this
      ensures closed
    {
      closed := true;
    }
  }

  /** The client object. It owns its session exactly when it created it itself. */
  class ApiClient {
    var baseUrl: string
    var session: Session?
    var requestTimeout: int
    var closeSession: bool

    /** The session handed in at construction, or null when there was none. */
    ghost const supplied: Session?

    /** The client closes its session exactly when that session is not the supplied one. */
    ghost predicate Valid()
      reads this
    {
      (closeSession <==> session != supplied) && (closeSession ==> session != null)
    }

    constructor(baseUrl: string, session: Session?, requestTimeout: int := DefaultRequestTimeout)
      ensures Valid()
      ensures this.baseUrl == baseUrl && this.session == session && this.requestTimeout == requestTimeout
      ensures !closeSession && supplied == session
    {
      this.baseUrl := baseUrl;
      this.session := session;
      this.requestTimeout := requestTimeout;
      this.closeSession := false;
      this.supplied := session;
    }

    /** The request a call of `_request` with this path and these parameters issues. */
    function RequestFor(path: string, params: seq<(string, string)>): HttpRequest
      reads this
    {
      HttpRequest(GetMethod, baseUrl, path, Headers, params, requestTimeout)
    }

    /** What a call of `_request` does to the client: a session is created, and owned, only
        when there was none; nothing else changes. */
    twostate predicate SessionAcquired()
      reads this, session
    {
      baseUrl == old(baseUrl) && requestTimeout == old(requestTimeout) &&
      (old(session) == null ==> session != null && fresh(session) && !session.closed && closeSession) &&
      (old(session) != null ==> session == old(session) && closeSession == old(closeSession))
    }

    method Request(path: string, params: seq<(string, string)>, transport: HttpRequest -> Outcome)
      returns (r: Result<Value>)
      requires Valid()
      modifies this
      ensures Valid() && SessionAcquired()
      ensures r == Interpret(transport(RequestFor(path, params)))
    {
      if session == null {
        session := new Session();
        closeSession := true;
      }
      r := Interpret(transport(RequestFor(path, params)));
    }

    method Auth(email: string, password: string, transport: HttpRequest -> Outcome)
      returns (r: Result<Models.Auth>)
      requires Valid()
      modifies this
      ensures Valid() && SessionAcquired()
      ensures r == AuthOf(transport(RequestFor(AuthPath, [("email", email), ("password", password)])))
    {
      var body :- Request(AuthPath, [("email", email), ("password", password)], transport);
      r := DecodeAuth(body);
    }

    method GetProfile(authToken: string, transport: HttpRequest -> Outcome) returns (r: Result<Profile>)
      requires Valid()
      modifies this
      ensures Valid() && SessionAcquired()
      ensures r == ProfileOf(transport(RequestFor(ProfilePath, [("authToken", authToken)])))
    {
      var body :- Request(ProfilePath, [("authToken", authToken)], transport);
      r := DecodeProfile(body);
    }

    method GetDevices(authToken: string, transport: HttpRequest -> Outcome, createDevice: Value -> Result<Device>)
      returns (r: Result<seq<Device>>)
      requires Valid()
      modifies this
      ensures Valid() && SessionAcquired()
      ensures r == DevicesOf(transport(RequestFor(DevicesPath, [("authToken", authToken)])), createDevice)
    {
      var body :- Request(DevicesPath, [("authToken", authToken)], transport);
      r := DecodeDevices(body, createDevice);
    }

    method GetMeasuresTotal(authToken: string, deviceId: string, transport: HttpRequest -> Outcome)
      returns (r: Result<seq<Measure>>)
      requires Valid()
      modifies this
      ensures Valid() && SessionAcquired()
      ensures r == MeasuresTotalOf(transport(RequestFor(MeasuresTotalPath, [("authToken", authToken), ("device_id", deviceId)])))
    {
      var body :- Request(MeasuresTotalPath, [("authToken", authToken), ("device_id", deviceId)], transport);
      r := DecodeMeasuresTotal(body);
    }

    /** `close`: only an owned session is closed; a supplied one is left as it was. */
    method Close()
      requires Valid()
      modifies session
      ensures Valid()
      ensures closeSession ==> session != null && session.closed
      ensures supplied != null ==> supplied.closed == old(supplied.closed)
    {
      if session != null && closeSession {
        session.Close();
      }
    }
  }
}
