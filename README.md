# MyLightSystems API client: response interpretation, in Dafny

This project models the core of `MyLightSystemsApiClient`, an asynchronous Python client for the
MyLightSystems home-energy HTTP API (`src/mylightsystems/client.py`). The vendor reports
application errors inside successful HTTP responses, as a JSON envelope
`{"status": "error", "error": "<code>"}`. The modelled core is how the client turns what the
transport delivered into a typed result or a typed error:

- `_request` turns a timeout, a transport error or an HTTP status from 400 on into
  `MyLightSystemsConnectionError`. It turns the envelope `error = "not.authorized"` into
  `MyLightSystemsUnauthorizedError`, for every operation. A body that is not a dictionary, or
  lacks `status` (or `error` when the status is "error"), raises TypeError or KeyError. Every
  other body is returned unchanged.
- `auth`, `get_profile`, `get_devices` and `get_measures_total` then check their own error codes
  and copy named members of the body into the records of `models.py`.
- The client object owns its HTTP session only when it created the session itself, and `close`
  closes only such a session.

Files:

- `errors.dfy` (module `Errors`): the exception classes of `exceptions.py`, plus
  `MeasuresTotalNotSupportedError`, which `client.py` imports. Python's `KeyError` and
  `TypeError` are part of it too: the client lets them escape when a body lacks a key or is not
  a dictionary. A `Result` type lets the model propagate a raise with `:-`, as Python does.
- `json.dfy` (module `Json`): the parsed body, with Python's subscript and iteration semantics.
  An object is a list of members in document order. The dictionary keeps the last value of a
  repeated key, as `json.loads` does.
- `models.dfy` (module `Models`): `Auth`, `Profile`, `Measure` and the `Device` variants.
- `client.dfy` (module `Client`): the transport outcome, the pure interpretation functions and
  the classes `Session` and `ApiClient`.
- `properties.dfy` (module `ClientProperties`): lemmas that relate the operations, and the
  request/response pairs of the test suite restated on the model.

The transport is an input: a function from the `HttpRequest` the client issues (method, base
URL, path, headers, query parameters, time budget) to an `Outcome`, which is `Timeout`,
`TransportFailure` or `Http(status, body)`. The device factory is an input in the same way.

The model follows the code on these points:

- `raise_for_status` raises for statuses from 400 on, not for every non-2xx status. A 1xx or
  3xx response that reaches the client is interpreted like a 2xx one.
- `Profile.id` is annotated `int`, but dataclasses do not convert or check their fields, and
  the tests expect the string `"fake_user_id"`. The records built by the client (`Auth`,
  `Profile`, `Measure`) therefore hold the copied JSON value, whatever its kind.
- `_request` reads `status` from every body. A body without it ends in `KeyError("status")`,
  not in a library error, even for a profile body of the shape `{id, gridType}`.
- `auth` raises `MyLightSystemsInvalidAuthError` only for its three listed codes. Any other
  error code falls through to reading `authToken`.
- The operation is `auth`. The tests call it `login`.

## Model

| member | source | states |
|---|---|---|
| `Client.EnvelopeSignals` | src/mylightsystems/client.py:78-81 | `status` is always read and `error` only when the status is "error". A non-dictionary raises TypeError and a missing key raises KeyError for that key. The result is true exactly when the status is "error" and the error code is one of the given strings. |
| `Client.Interpret` | src/mylightsystems/client.py:64-95 | A ConnectionError arises exactly for a timeout, a transport error or a status from 400 on, with the timeout message or the communication message. UnauthorizedError arises exactly for a successful response whose envelope carries "not.authorized". When reading `status`, or `error` for an "error" status, fails, the result is that read's TypeError or KeyError. A successful body is returned unchanged only when it is a dictionary with `status`, and with `error` when the status is "error", and does not carry "not.authorized". |
| `Client.EnvelopeRereadSucceeds` | src/mylightsystems/client.py:78-84 | Once `_request` has returned a body, an operation's repeated `status`/`error` reads cannot fail, whatever codes it checks. "not.authorized" can no longer match. |
| `Client.Collect` | src/mylightsystems/client.py:131-133 | A list comprehension succeeds exactly when every element converts. It then has one result per element, in order. Otherwise it raises the error of the first element that fails, and every earlier element converted. |
| `Client.AuthOf` | src/mylightsystems/client.py:97-111 | Executor errors come first, unchanged. InvalidAuthError arises exactly for a passing response whose envelope code is invalid.credentials, undefined.email or undefined.password. After the executor, the only other failure is KeyError("authToken"). On success the token is the body's `authToken`. Conversely, a passing body with no listed code returns `Auth` of its `authToken`, or KeyError("authToken") when it has none. |
| `Client.ProfileOf` | src/mylightsystems/client.py:113-120 | Executor errors come first, unchanged. On success `id` and `grid_type` are the body's `id` and `gridType`. After the executor, the only failures are KeyError("id") and then KeyError("gridType"). Conversely, a passing body with both members returns the profile of their values. |
| `Client.DevicesOf` | src/mylightsystems/client.py:122-133 | Executor errors come first, unchanged. A passing body is decoded exactly as the comprehension over `body["devices"]`. A missing `devices` raises KeyError("devices"), and a `devices` that is null, a boolean or a number raises TypeError. On success there is one device per entry of `devices`, in payload order, each the factory's result for that entry. When `devices` is iterable but the call fails, the error is that of the first entry the factory rejects. |
| `Client.MeasureOf` | src/mylightsystems/client.py:150-153 | An element becomes a Measure exactly when it is a dictionary with `type`, `unit` and `value`. The three values are copied. Otherwise the error follows the read order: TypeError for a non-dictionary, then KeyError for the first of `type`, `unit` and `value` that is missing. |
| `Client.MeasuresTotalOf` | src/mylightsystems/client.py:135-153 | Executor errors come first, unchanged. MeasuresTotalNotSupportedError arises exactly for the code device.not.supports.total.measures. On success there is one measure per element of `measure.values`, in order, copying `type`, `unit` and `value`. Otherwise a passing body is decoded exactly as the comprehension over `measure.values`, so a list whose every element has `type`, `unit` and `value` yields the measures. A missing `measure` raises KeyError("measure"), a `measure` that is not a dictionary raises TypeError, and one without `values` raises KeyError("values"). |
| `Client.ApiClient.constructor` | src/mylightsystems/client.py:37-44 | The client keeps the base URL, the given session and the timeout. It does not own the session (`_close_session` is false). |
| `Client.ApiClient.Request` | src/mylightsystems/client.py:46-95 | A session is created and owned only when there was none. A supplied session stays, and so does its ownership. The result is the interpretation of the transport's outcome for a GET of the path with JSON headers, the parameters and the client's timeout. |
| `Client.ApiClient.Auth` | src/mylightsystems/client.py:97-111 | Sends `email` and `password` to the auth path. The result is `AuthOf` of the outcome, and the session is updated as in `Request`. |
| `Client.ApiClient.GetProfile` | src/mylightsystems/client.py:113-120 | Sends `authToken` to the profile path. The result is `ProfileOf` of the outcome, and the session is updated as in `Request`. |
| `Client.ApiClient.GetDevices` | src/mylightsystems/client.py:122-133 | Sends `authToken` to the devices path. The result is `DevicesOf` of the outcome, and the session is updated as in `Request`. |
| `Client.ApiClient.GetMeasuresTotal` | src/mylightsystems/client.py:135-153 | Sends `authToken` and `device_id` to the measures-total path. The result is `MeasuresTotalOf` of the outcome, and the session is updated as in `Request`. |
| `Client.ApiClient.Close` | src/mylightsystems/client.py:155-158 | An owned session is closed. A session supplied at construction keeps its state. |
| `ClientProperties.TransportFailureRaisesConnectionError` | src/mylightsystems/client.py:86-95 | After a transport failure, all four operations raise the same ConnectionError, which is a library error. |
| `ClientProperties.NotAuthorizedGateComesFirst` | src/mylightsystems/client.py:78-82 | A passing response with the not-authorized envelope raises UnauthorizedError from all four operations, before any operation-specific check. |
| `ClientProperties.MissingStatusIsKeyError` | src/mylightsystems/client.py:79 | A passing dictionary body without `status` ends every operation in KeyError("status"), which is not a library error. |
| `ClientProperties.UnlistedAuthErrorReadsToken` | src/mylightsystems/client.py:104-111 | An error envelope whose code is not in the auth list returns the token if there is one, and otherwise raises KeyError("authToken"). |
| `ClientProperties.OperationCodesDoNotLeak` | src/mylightsystems/client.py:104-148 | The auth codes never raise MeasuresTotalNotSupportedError, and the measures code never raises InvalidAuthError. |
| `ClientProperties.DevicesFollowPayload` | src/mylightsystems/client.py:129-133 | When the factory accepts every entry of a `devices` list, the result is exactly the factory's devices, in payload order. |
| `ClientProperties.RejectedDeviceFailsCall` | src/mylightsystems/client.py:131-133 | An entry the factory rejects fails the whole call with the error of a rejected entry at or before it. No partial list is returned. |
| `ClientProperties.ReadingIsCopied` | src/mylightsystems/client.py:151 | An element with `type`, `unit` and `value` becomes the Measure of exactly those three values. |
| `ClientProperties.LoginScenarios` | tests/test_login.py:17-68 | invalid.credentials raises InvalidAuthError. A passing response returns the token. A status from 400 on raises a library error. |
| `ClientProperties.ProfileScenarios` | tests/test_get_profile.py:35-65 | The profile copies "fake_user_id" and "1 phase". The not-authorized envelope raises UnauthorizedError. |
| `ClientProperties.UnsupportedTotalScenario` | tests/test_get_measure_total.py:52-64 | The unsupported-device code raises MeasuresTotalNotSupportedError. |
| `ClientProperties.MeasuresTotalScenario` | tests/test_get_measure_total.py:67-85 | Two readings give two measures, and the first is power, W, 97277207.27799994. |
| `ClientProperties.OwnedSessionIsClosed` | src/mylightsystems/client.py:60-62 | A client built without a session creates one on its first request, reuses it on later requests, and `close` closes it. |
| `ClientProperties.SuppliedSessionIsLeftOpen` | tests/conftest.py:16-19 | A client built with the caller's session never closes it, whatever requests it makes and even after `close`. |

## Left out

- HTTP I/O, `asyncio.timeout`, yarl URL building and logging (client.py:54-76) are replaced by the transport function and its `Outcome`. The outcome does not depend on the session's state, so reusing a closed session is not modelled.
- A body that is not valid JSON (`response.json()` raising a decoding error) is not modelled: the outcome carries an already parsed body. A wrong content type surfaces as a ClientResponseError and is covered by `TransportFailure`.
- `DeviceFactory.create_device` (src/mylightsystems/device_factory.py) is not part of this model. It is a parameter, so the discriminator-to-variant dispatch is not modelled. The `Device` datatype only gives its results a type.
- `src/mylightsystems/const.py` is not part of this model. The paths are the ones the tests request. The base URL has no default and is a constructor argument.
- `login`, `get_states` and `switch`, with their records and `SwitchNotAllowedError`, appear only in tests of another version of the client. This client has none of them. `UnknownDeviceError` exists but nothing in the client raises it.
- The dataclass's generated members (`__repr__`, `__eq__`) and passing `_close_session` to the constructor explicitly are not modelled. `__aenter__` returns the client and `__aexit__` only calls `close`.
- `Measure.value` is a float. It is carried as the copied JSON number, and nothing computes with it.
- `Json.Keys` (iteration over a dictionary) states that the keys are exactly the dictionary's keys, each once. It does not state that they come in first-occurrence order, though that is how it computes them.
- The request methods are atomic steps. The source performs the session check and creation with no `await` between them, so nothing interleaves there.
- `src/mylightsystems_api_client/` is a superseded copy holding two exception classes and no behaviour.
- The second reading in `ClientProperties.MeasuresTotalScenario` is illustrative. The fixture file it stands for is not part of this model.
