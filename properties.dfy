/** Properties that relate the client's operations to one another, and the documented
    request/response pairs of the test suite restated against the model. */
module ClientProperties {
  import opened Errors
  import opened Json
  import opened Models
  import opened Client

  /** A body that answers `body[key]` with `value`. */
  predicate Holds(body: Value, key: string, value: Value)
  {
    body.Obj? && Find(body.members, key) == Some(value)
  }

  /** A timeout, a transport error or a status from 400 on ends every operation in
      MyLightSystemsConnectionError, a library error, and never in a decoded value. */
  lemma TransportFailureRaisesConnectionError(o: Outcome, createDevice: Value -> Result<Device>)
    requires IsTransportFailure(o)
    ensures AuthOf(o) == Err(Interpret(o).error)
    ensures ProfileOf(o) == Err(Interpret(o).error)
    ensures DevicesOf(o, createDevice) == Err(Interpret(o).error)
    ensures MeasuresTotalOf(o) == Err(Interpret(o).error)
    ensures Interpret(o).error.ConnectionError? && IsLibraryError(Interpret(o).error)
  {
  }

  /** A successful response whose envelope is status "error" with error "not.authorized"
      raises MyLightSystemsUnauthorizedError from every operation, whatever else the body
      holds: the shared gate runs before each operation's own codes and decoding. */
  lemma NotAuthorizedGateComesFirst(status: int, body: Value, createDevice: Value -> Result<Device>)
    requires status < FirstErrorStatus
    requires Holds(body, "status", Str(ErrorStatus)) && Holds(body, "error", Str(NotAuthorizedCode))
    ensures AuthOf(Http(status, body)) == Err(UnauthorizedError)
    ensures ProfileOf(Http(status, body)) == Err(UnauthorizedError)
    ensures DevicesOf(Http(status, body), createDevice) == Err(UnauthorizedError)
    ensures MeasuresTotalOf(Http(status, body)) == Err(UnauthorizedError)
  {
  }

  /** A successful response whose body lacks `status` is not a library error at all: every
      operation ends in KeyError("status"), because `_request` reads that key unconditionally. */
  lemma MissingStatusIsKeyError(status: int, body: Value, createDevice: Value -> Result<Device>)
    requires status < FirstErrorStatus && body.Obj? && Find(body.members, "status").None?
    ensures AuthOf(Http(status, body)) == Err(KeyError("status"))
    ensures ProfileOf(Http(status, body)) == Err(KeyError("status"))
    ensures DevicesOf(Http(status, body), createDevice) == Err(KeyError("status"))
    ensures MeasuresTotalOf(Http(status, body)) == Err(KeyError("status"))
    ensures !IsLibraryError(KeyError("status"))
  {
  }

  /** `auth` raises MyLightSystemsInvalidAuthError only for its three listed codes: any other
      error code falls through to reading `authToken`, so an error body without a token
      ends in KeyError rather than in a library error. */
  lemma UnlistedAuthErrorReadsToken(status: int, body: Value, code: string)
    requires status < FirstErrorStatus
    requires Holds(body, "status", Str(ErrorStatus)) && Holds(body, "error", Str(code))
    requires code !in InvalidAuthCodes && code != NotAuthorizedCode
    ensures AuthOf(Http(status, body)) == if Find(body.members, "authToken").Some?
                                          then Ok(Auth(Find(body.members, "authToken").value))
                                          else Err(KeyError("authToken"))
  {
  }

  /** `get_measures_total` raises MyLightSystemsMeasuresTotalNotSupportedError only for its own
      code: an auth code in a measures response is decoded like any other body, and the
      measures code in an auth response falls through to the token. */
  lemma OperationCodesDoNotLeak(status: int, body: Value, code: string)
    requires status < FirstErrorStatus
    requires Holds(body, "status", Str(ErrorStatus)) && Holds(body, "error", Str(code))
    requires code != NotAuthorizedCode
    ensures code in InvalidAuthCodes ==> MeasuresTotalOf(Http(status, body)) != Err(MeasuresTotalNotSupportedError)
    ensures code == NotSupportsTotalCode ==> AuthOf(Http(status, body)) != Err(InvalidAuthError)
  {
  }

  /** When every entry of a `devices` list is accepted by the factory, `get_devices` returns
      exactly the factory's devices, one per entry and in payload order. */
  lemma {:induction false} DevicesFollowPayload(status: int, body: Value, entries: seq<Value>,
                                                createDevice: Value -> Result<Device>)
    requires Interpret(Http(status, body)).Ok? && Holds(body, "devices", Arr(entries))
    requires forall e :: e in entries ==> createDevice(e).Ok?
    ensures DevicesOf(Http(status, body), createDevice) == Ok(seq(|entries|, i requires 0 <= i < |entries| => createDevice(entries[i]).value))
  {
    var r := DevicesOf(Http(status, body), createDevice);
    assert DeviceEntries(body) == Ok(entries);
    assert forall i :: 0 <= i < |entries| ==> createDevice(entries[i]).Ok?;
    assert r.Ok? && |r.value| == |entries|;
    var expected := seq(|entries|, i requires 0 <= i < |entries| => createDevice(entries[i]).value);
    assert forall i :: 0 <= i < |entries| ==> r.value[i] == expected[i];
    assert r.value == expected;
  }

  /** An entry the factory rejects (an unknown discriminator, say) fails the whole call with
      the factory's error: `get_devices` never returns a partial list. */
  lemma RejectedDeviceFailsCall(status: int, body: Value, entries: seq<Value>,
                                createDevice: Value -> Result<Device>, k: nat)
    requires Interpret(Http(status, body)).Ok? && Holds(body, "devices", Arr(entries))
    requires k < |entries| && createDevice(entries[k]).Err?
    ensures DevicesOf(Http(status, body), createDevice).Err?
    ensures exists i :: 0 <= i <= k && createDevice(entries[i]) == Err(DevicesOf(Http(status, body), createDevice).error)
  {
  }

  /** The documented answers of the test suite, restated on the model. Bodies that the tests
      load from fixture files are written out with a `status` member, which
      `_request` requires. */

  const LoginFailed := Obj([("status", Str("error")), ("error", Str("invalid.credentials"))])
  const LoginSucceeded := Obj([("status", Str("ok")), ("authToken", Str("fake_auth_token"))])
  const Unauthorized := Obj([("status", Str("error")), ("error", Str("not.authorized"))])
  const ProfileBody := Obj([("status", Str("ok")), ("id", Str("fake_user_id")), ("gridType", Str("1 phase"))])
  const TotalUnsupported := Obj([("status", Str("error")), ("error", Str("device.not.supports.total.measures"))])
  const TotalReadings := [
    Reading(Str("power"), Str("W"), Num(97277207.27799994)),
    Reading(Str("energy"), Str("Wh"), Num(0.0))]
  const TotalBody := Obj([("status", Str("ok")), ("measure", Obj([("values", Arr(TotalReadings))]))])

  lemma LoginScenarios(status: int)
    requires status >= 400
    ensures AuthOf(Http(200, LoginFailed)) == Err(InvalidAuthError)
    ensures AuthOf(Http(200, LoginSucceeded)) == Ok(Auth(Str("fake_auth_token")))
    ensures AuthOf(Http(status, LoginSucceeded)).Err? && IsLibraryError(AuthOf(Http(status, LoginSucceeded)).error)
  {
  }

  lemma ProfileScenarios()
    ensures ProfileOf(Http(200, ProfileBody)) == Ok(Profile(Str("fake_user_id"), Str("1 phase")))
    ensures ProfileOf(Http(200, Unauthorized)) == Err(UnauthorizedError)
  {
    var m := ProfileBody.members;
    assert Find(m[..1], "status") == Some(Str("ok"));
    assert Find(m[..2], "status") == Some(Str("ok")) && Find(m[..2], "id") == Some(Str("fake_user_id"));
    assert Find(m, "status") == Some(Str("ok"));
    assert Interpret(Http(200, ProfileBody)) == Ok(ProfileBody);
    assert NotAuthorizedCode in {NotAuthorizedCode};
  }

  /** An element of `measure.values` with exactly the three members `get_measures_total` reads. */
  function Reading(typeName: Value, unit: Value, value: Value): Value
  {
    Obj([("type", typeName), ("unit", unit), ("value", value)])
  }

  lemma {:induction false} ReadingIsCopied(typeName: Value, unit: Value, value: Value)
    ensures MeasureOf(Reading(typeName, unit, value)) == Ok(Measure(typeName, unit, value))
  {
    var m := Reading(typeName, unit, value).members;
    assert Find(m[..1], "type") == Some(typeName);
    assert Find(m[..2], "type") == Some(typeName) && Find(m[..2], "unit") == Some(unit);
  }

  lemma UnsupportedTotalScenario()
    ensures MeasuresTotalOf(Http(200, TotalUnsupported)) == Err(MeasuresTotalNotSupportedError)
  {
  }

  lemma MeasuresTotalScenario()
    ensures var r := MeasuresTotalOf(Http(200, TotalBody));
            r.Ok? && |r.value| == 2 && r.value[0] == Measure(Str("power"), Str("W"), Num(97277207.27799994))
  {
    var m := TotalBody.members;
    assert Find(m[..1], "status") == Some(Str("ok"));
    assert Interpret(Http(200, TotalBody)) == Ok(TotalBody);
    ReadingIsCopied(Str("power"), Str("W"), Num(97277207.27799994));
    ReadingIsCopied(Str("energy"), Str("Wh"), Num(0.0));
    assert MeasureValues(TotalBody) == Ok(TotalReadings);
  }

  /** A client built without a session creates one on its first request, keeps using it,
      and closes it. */
  method OwnedSessionIsClosed(transport: HttpRequest -> Outcome) returns (s: Session)
    ensures s.closed
  {
    var client := new ApiClient("https://example.invalid", null);
    var profile := client.GetProfile("fake-token", transport);
    s := client.session;
    var measures := client.GetMeasuresTotal("fake-token", "a", transport);
    assert client.session == s;
    client.Close();
  }

  /** A client built with a caller's session never closes it, however it is used. */
  method SuppliedSessionIsLeftOpen(s: Session, transport: HttpRequest -> Outcome,
                                   createDevice: Value -> Result<Device>)
    requires !s.closed
    modifies s
    ensures !s.closed
  {
    var client := new ApiClient("https://example.invalid", s);
    var auth := client.Auth("fake", "fake", transport);
    var devices := client.GetDevices("fake-token", transport, createDevice);
    client.Close();
  }
}
