# YoLink exporter core in Dafny

This project models the core of a Prometheus exporter for YoLink
temperature/humidity sensors, and proves properties of that model.

The core has two parts:

- The API client (`Client`, file `client.dfy`). It keeps an OAuth session
  made of an access token, a refresh token and an expiry. Before every API
  call it checks that the session is valid. If it is not, it exchanges
  credentials at the token endpoint: the refresh-token grant when it holds a
  refresh token, otherwise the client-credentials grant. It then lists the
  home's devices ("Home.getDeviceList"), keeping only the `THSensor` devices
  of model `YS8007-UC`, or fetches one device's state ("THSensor.getState").
  Every exchange is checked in a fixed order: transport, body read, HTTP
  status 200, JSON decode and, for API calls, the response code "000000".
- The exporter (`Exporter`, file `exporter.dfy`). It caches the sensor list
  and a map from device identifier to last state. On a scrape it refreshes
  the cache when strictly more than the scrape interval has passed since the
  last refresh. A refresh fails only when the list cannot be fetched. A
  state fetch that fails leaves its device out of the map. The scrape then
  emits `yolink_up` first and, for each cached device with a cached state:
  - the online sample;
  - the last-updated sample, when `reportAt` parses as RFC 3339;
  - temperature, humidity and battery, when the device is online.
  A failed refresh emits only `yolink_up 0`.

The two stateful objects are Dafny classes with the source's fields. Their
methods are proved against pure specification functions:

- `Authenticate` and `Exchanged` give the session step of `ensureValidToken`;
- `DevicesOutcome` and `StateOutcome` give the API calls, with `ListResult`
  and `StateResult` for what the API answer yields once the session holds;
- `SessionAfter` and `CallRequests` give the session and the requests one
  call leaves behind;
- `THSensors` gives the device filter;
- `SessionAt`, `Fetches` and `FetchRequests` give the state fetches of a
  refresh, one per listed device, each starting from the session the
  previous one left;
- `StatesFrom` gives the state map a refresh builds from those fetches;
- `DeviceSamples` gives the samples of a scrape.

The lemmas then state what the source promises about those functions.
HTTP replies are an oracle value (`Reply`): a transport failure, a read
failure, or a status with a body that did or did not decode. The replies of
one refresh are an `Upstream` value: the token and list replies of the list
call, and the token and state replies of the `i`-th state call. A ghost log
`sent` records every request the client attempts. It is how the contracts
state which grant was used, that no API request follows a failed session
step, and which requests a refresh attempts: per listed device, the token
request of its session step if one is due, then its state request once that
step has succeeded (`FetchRequests`). From a valid session this is exactly
one state request per listed device (`ValidSessionFetches`).
The loop of `refreshData` is the method `FetchStates`.

Both boundary tests follow the code's strict comparisons:

- a token whose expiry equals the current second is still valid, because
  the test is "now is after expiry" (yolink_client.go:84);
- a refresh is due only when strictly more than the interval has passed
  (exporter.go:87).

Time is whole Unix seconds. Go's zero `time.Time` is `ZeroTime`, which is
-62135596800 seconds. The staleness test works on Go durations, which are
signed 64-bit nanosecond counts: `Since` saturates at the bounds of a
duration as `time.Since` does, and `IntervalDuration` wraps around modulo
2^64 as the multiplication `time.Duration(interval) * time.Second` does.
Floating-point values are modelled as `real`.

## Model

| member | source | states |
|---|---|---|
| Client.Checked | yolink_client.go:107-125 | an exchange succeeds exactly when the reply arrived with status 200 and a body that decoded; the value is that body; a non-200 status is reported as a status error |
| Client.Exchanged | yolink_client.go:107-131 | a token exchange succeeds exactly when delivered, and then installs the response's access and refresh tokens with expiry sixty seconds before the announced one; a failed exchange carries the error of the failed check |
| Client.Authenticate | yolink_client.go:83-91 | the session step succeeds exactly when the session is valid or the exchange is delivered; a valid session is kept as it is, an invalid one is replaced by the exchange's outcome |
| Client.ListResult | yolink_client.go:205-231 | the list call yields a value exactly on a delivered reply with code "000000", and that value is the filtered device list; a delivered reply with another code is a code error |
| Client.StateResult | yolink_client.go:266-284 | the state call yields a value exactly on a delivered reply with code "000000", and that value is the decoded reply; a delivered reply with another code is a code error |
| Client.DevicesOutcome | yolink_client.go:175-232 | `GetDevices` succeeds exactly when the session step and the list call both succeed, and then returns the filtered devices of the list reply |
| Client.StateOutcome | yolink_client.go:234-285 | `GetDeviceState` succeeds exactly when the session step and the state call both succeed, and then returns the state endpoint's decoded answer |
| Client.THSensors | yolink_client.go:223-229 | the filter never lengthens the list |
| Client.THSensorsMembers | yolink_client.go:223-229 | the filter keeps exactly the devices of type THSensor and model YS8007-UC |
| Client.SelectTHSensors | yolink_client.go:223-231 | the filter loop of the device-list call returns exactly `THSensors` of the listed devices |
| Client.YoLinkClient.constructor | yolink_client.go:74-81 | a new client keeps its key, secret and endpoint, has an empty session with the zero expiry, and has sent nothing |
| Client.YoLinkClient.EnsureValidToken | yolink_client.go:83-91 | a valid session is kept and nothing is sent; otherwise exactly one token request is sent, with the refresh grant if a refresh token is held and client credentials if not; on success the exchanged session is installed, on failure the session is unchanged and the error returned |
| Client.YoLinkClient.GetInitialToken | yolink_client.go:93-132 | sends one client-credentials request; installs the response's tokens with expiry `now + expires_in - 60` only when transport, read, status and decode all pass, else returns that error and keeps the session |
| Client.YoLinkClient.RefreshAccessToken | yolink_client.go:134-173 | sends one refresh-grant request carrying the held refresh token; same installation and error rule as the initial exchange |
| Client.YoLinkClient.GetDevices | yolink_client.go:175-232 | the result is `DevicesOutcome` of the old session; the new session is the one the session step leaves; the requests sent are the session step's, then the list request bearing the new access token, only if the step succeeded |
| Client.YoLinkClient.GetDeviceState | yolink_client.go:234-285 | the same for the state call, whose request names the device's identifier and device token |
| Client.ValidSessionKept | yolink_client.go:83-90 | a session with a token and an expiry not before now is returned as it is, with no token request, whatever the credentials |
| Client.ExpiryBoundary | yolink_client.go:84 | expiry equal to now is still valid; one second earlier it is not |
| Client.GrantChoice | yolink_client.go:84-88 | when a token is needed, exactly one token request is made, and it uses the refresh grant exactly when a refresh token is held |
| Client.FreshSessionAcquires | yolink_client.go:74-88 | a new client's first call asks for a token with the client-credentials grant |
| Client.TokenFailureStopsCalls | yolink_client.go:176-178 | when the session step fails, both API calls fail with that error wrapped as a token error, whatever the API would have answered |
| Client.THSensorsAppend | yolink_client.go:224-229 | filtering distributes over concatenation, so the sensors keep their original order |
| Client.THSensorsOfSensors | yolink_client.go:224-229 | a list made only of sensors passes the filter unchanged |
| Client.THSensorsIdempotent | yolink_client.go:224-229 | filtering twice is filtering once |
| Client.THSensorsSingleton | yolink_client.go:226-227 | a single device is kept exactly when it is a sensor |
| Client.DeviceFilteringScenario | yolink_client_test.go:48-89 | of sensor test1, hub test2 and sensor test3, exactly test1 and test3 remain, in that order |
| Exporter.DeviceMetricsShape | exporter.go:106-133 | the samples `DeviceMetrics` gives one device start with its online sample and carry no other; all bear the device's labels; a last-updated sample comes second exactly when `reportAt` parses; no readings when offline; temperature, humidity and battery last, in that order, when online |
| Exporter.Fetches | exporter.go:148-155 | a refresh of `n` devices makes exactly `n` state fetches |
| Exporter.FetchesAt | exporter.go:148-155 | the `i`-th fetch is the state call of the `i`-th device, on the session the earlier fetches left |
| Exporter.Wrap64 | exporter.go:87 | the 64-bit wrap-around stays within the bounds of a duration, leaves in-range values alone, and differs from the exact value by a multiple of 2^64 |
| Exporter.Since | exporter.go:87 | the elapsed time in nanoseconds, exact when it fits a duration, the largest duration above that and the smallest below |
| Exporter.YoLinkExporter.constructor | exporter.go:30-71 | a new exporter has the zero last-scrape time, no devices and an empty state map |
| Exporter.YoLinkExporter.RefreshData | exporter.go:137-158 | if the list call fails, the error is returned, the cache is unchanged and only the list call's requests were sent; otherwise the device list is replaced by the listed sensors, the state map is `StatesFrom` of one fetch per listed device, the fetches threading the session from the one the list call left, and the requests sent are the list call's followed by each device's state call in list order; cached states only belong to listed devices |
| Exporter.YoLinkExporter.FetchStates | exporter.go:145-155 | the fetch loop builds, from an empty map, exactly `StatesFrom` of `Fetches` of the listed devices, leaves the session `SessionAt` after the last one and sends exactly `FetchRequests` |
| Exporter.YoLinkExporter.Collect | exporter.go:82-135 | a scrape that is not stale serves the cache unchanged; a stale one is refreshed, and on failure only `up 0` is emitted with the cache and scrape time unchanged and only the list call's requests attempted; on success the scrape time becomes now, the cache, the session and the requests attempted are those of the refresh, and `up 1` is followed by the samples of every cached device, in list order |
| Exporter.YoLinkExporter.EmitDeviceMetrics | exporter.go:99-134 | the emission loop produces exactly the per-device samples of the cached list, skipping devices without a cached state |
| Exporter.StatesFromSnoc | exporter.go:148-155 | one more fetch adds its state to the `StatesFrom` map, if it succeeded, under its device's identifier |
| Exporter.StatesFromKeys | exporter.go:144-155 | the map `StatesFrom` rebuilds holds exactly the identifiers whose fetch succeeded, all of which are listed |
| Exporter.StatesFromLastWins | exporter.go:148-155 | for a listed identifier, the `StatesFrom` map holds the state of its last successful fetch |
| Exporter.RefreshedKeys | exporter.go:144-155 | after a refresh, the state map holds exactly the identifiers of the listed devices whose state call succeeded on the session it ran with |
| Exporter.ValidSessionKeptAcross | yolink_client.go:83-90 | from a valid session, no state fetch of a refresh changes the session |
| Exporter.StateRequests | yolink_client.go:239-244 | the reference list of state requests has one per device, each naming the device's identifier and device token and bearing the given access token |
| Exporter.ValidSessionFetches | exporter.go:148-155 | from a valid session, a refresh makes no token exchange, sends exactly one state request per listed device in list order, and each fetch yields its device's state reply |
| Exporter.SamplesAppend | exporter.go:100-134 | the samples of a concatenated list are those of its parts, one after the other |
| Exporter.SamplesBlock | exporter.go:100-134 | each listed device contributes one contiguous block of samples, at its list position |
| Exporter.SamplesLabelled | exporter.go:100-106 | every device sample bears the labels of a listed device that has a cached state, and none is an `up` sample |
| Exporter.OnlineExactlyOnce | exporter.go:108-113 | the online samples of a scrape are exactly one per cached device with a state, 1 when online and 0 when offline, in list order |
| Exporter.UpExactlyOnce | exporter.go:96-97 | a scrape that serves data emits exactly one `up` sample, with value 1 |
| Exporter.IntervalBelowMax | exporter.go:87 | the interval as a wrapped duration of whole seconds is always below the largest duration |
| Exporter.FirstCollectRefreshes | exporter.go:87 | a new exporter's first scrape is `Stale`, for any clock after 1970 and any interval, because the time since the zero time saturates |
| Exporter.WithinIntervalServesCache | exporter.go:87 | a scrape no more than the interval after the last refresh is not `Stale`, when the interval's nanoseconds fit a duration |
| Exporter.BeyondIntervalRefreshes | exporter.go:87 | a scrape strictly more than the interval after the last refresh is `Stale`, when the interval's nanoseconds fit a duration; with `WithinIntervalServesCache` this makes the refresh happen exactly when strictly more than the interval has passed |
| Exporter.WrappedIntervalAlwaysRefreshes | exporter.go:87 | an interval of 9223372037 seconds wraps around to a negative duration, so even a scrape at the second of the last refresh is `Stale` |
| Exporter.OnlineOfflineScenario | exporter.go:123-133 | of an online and an offline device, each emits its own block and only the online one emits readings |

## Left out

- The program's entry point and configuration loading (`main.go`) are not part of this model; the scrape interval is a parameter of `Collect`.
- HTTP, form and JSON encoding, headers and the user agent are not modelled: each exchange is a `Reply` value. Failures of request construction and of `json.Marshal` fall under a transport failure.
- The response body quoted in status errors and the `fmt` error wrapping text are not modelled; errors are the `ClientError` constructors.
- The exporter's mutex is left out: the model is sequential, and each `Collect` runs alone as the lock ensures.
- `Describe` and the metric descriptors (names, help strings, label names) are left out; a sample is a metric kind, a value and its label values.
- Logging of failed state fetches and of unparsable report times is left out; neither changes state or output.
- RFC 3339 parsing (section 5.6 of RFC 3339) is the parameter `parseTime`, to Unix seconds.
- `float64` values are modelled as `real`, so rounding is not modelled; the battery and report-time conversions are exact.
- The clock is a parameter `now`, in whole seconds, read once per scrape and shared by every step of it. The source calls `time.Now()` again at each step, and those reads are separated by HTTP round trips of up to 30 seconds each: the token test of every call, the request times, the new expiry and the new `lastScrape` after the whole refresh all see later clocks. So the model does not capture a token expiring in the middle of a refresh and being exchanged there, nor a `lastScrape` later than the scrape's start. `ValidSessionKeptAcross` and `ValidSessionFetches` hold only under this single reading.
- The replies of a refresh are indexed by the device's list position, so the model does not capture the network changing its answers in any other way.
- Exporter.WithinIntervalServesCache: holds, as does `BeyondIntervalRefreshes`, only for intervals whose nanoseconds fit in 64 bits; a larger interval wraps around, and `WrappedIntervalAlwaysRefreshes` shows one that makes every scrape stale.
- Client.Exchanged: does not model the int64 nanosecond wrap of the expiry computation for absurdly large `expires_in`.
- The HTTP client's 30-second timeout is part of the transport failure, not modelled apart.
