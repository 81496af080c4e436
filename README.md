# APsystems EZHI local API integration — Dafny model

This project models the core of the Home Assistant integration for the
APsystems EZHI inverter's local HTTP API:

- **The data update coordinator** (`ApSystemsDataCoordinator`). Each refresh
  may poll the inverter. It keeps the last good reading (the snapshot) and
  records whether the last poll succeeded. It fetches the device information
  once, retrying until that fetch succeeds. Afterwards it decides whether to
  schedule the next refresh and whether to notify its listeners.
- **The `set_power` service.** It clamps a requested power into
  `[MIN_VALUE, MAX_VALUE]`, logs a warning when it corrects the request, and
  forwards the result in exactly one `set_power` call.
- **The API client** (`APsystemsEZHI`). Its HTTP session is created on first
  use. It decodes the device's JSON into the output-data and alarm records,
  with `"0"` for every missing key. It reads the power setting as an integer
  and turns the answer to a power write into a boolean.
- **The power-limit number entity** (`PowerLimit`). It shows the read power
  setting. A timeout or a connection error marks it unavailable. A write is
  always followed by a read-back.

Modules:

- `Wrappers`: Option and Result.
- `IntText`: Python's `int()` on a string, and the decimal text of an integer.
- `Api`: api.py.
- `Integration`: the service and the coordinator from `__init__.py`.
- `RefreshProperties`: lemmas about one refresh and about whole runs of refreshes.
- `Number`: number.py.

Stateful objects are classes whose methods change their fields:
`Api.Client`, `Integration.DataCoordinator` and `Number.PowerLimit`. Each
state-changing method is proved against a function of the old state and its
inputs:

- `DataCoordinator.Refresh` against `RefreshStep`.
- `PowerLimit.Update` and `PowerLimit.SetNativeValue` against `ReadStep`.
- The client methods against the pure decoders.

The lemmas state the promised properties about those functions. Some concern
one refresh. Others concern a run of refreshes (`Run`, `Trace`).

The network is a parameter. Every HTTP GET is represented by its outcome, an
`Exchange`: either a `Response` or a `TransportError`. A `TransportError` is
a timeout, a connection error, or any other aiohttp client error. The ghost
field `Client.sent` records the GETs a client has issued. This is how the
model states which device calls a refresh, the service or the entity makes.

The host framework's `DataUpdateCoordinator` is not part of this model. The
coordinator constructor therefore states the base class's initial values
itself: no data yet, `last_update_success` true, no last exception, no
shutdown requested. `MIN_VALUE` and `MAX_VALUE` come from `const.py`, which is
not part of this model. They are parameters of the clamp, and its range
guarantee holds whenever `MIN_VALUE <= MAX_VALUE`.

Points where the model follows the code:

- `always_update` is set to true in the constructor and never changed. The
  model keeps it as a state component, `alwaysUpdate`. The "flag flipped" and
  "snapshot changed" notification clauses are therefore modelled, but
  unreachable in practice. The model does not decide whether the setting
  should become a configurable toggle. `AlwaysUpdateNotifies` states the
  behaviour with the setting on. `RecoveryNotifies` and
  `RepeatedFailureIsSilent` hold either way.
- A write that fails in transport does not reach the caller of the
  `set_power` service. The client's `set_power` catches aiohttp errors and
  timeouts and returns `False`, and the service ignores that result. A
  malformed reply is a different case; see `Client.SetPower` under
  "## Left out".
- `PowerLimit.async_set_native_value` catches `TimeoutError` and
  `ClientConnectionError` around `set_power`, but that handler can never run,
  because `set_power` never raises those errors (it absorbs every transport
  error). The entity is therefore
  always marked available after the write, and the read-back decides what it
  finally shows. When the read-back raises any other error, the entity stays
  available and keeps its old value.
- A device-information failure of any kind is caught and logged. It never
  affects the data poll.
- Only timeouts and connection errors from the data request become
  `InverterNotAvailable`. Other aiohttp errors, such as an error status from
  `raise_for_status`, are unexpected errors and are recorded as the last
  exception.

## Model

| member | source | states |
|---|---|---|
| `Integration.ClampPower` | custom_components/apsystems_ezhi_local/__init__.py:42-47 | when min <= max the forwarded power lies in [min, max]; no warning exactly for an in-range request, which is forwarded unchanged; below-min gives min with a BelowMinimum warning, above-max gives max with an AboveMaximum warning |
| `Integration.ClampIsNearest` | custom_components/apsystems_ezhi_local/__init__.py:42-47 | the forwarded power is the allowed value nearest to the request |
| `Integration.ClampIdempotent` | custom_components/apsystems_ezhi_local/__init__.py:42-47 | clamping a clamped value returns it unchanged with no warning |
| `Integration.SetPowerService` | custom_components/apsystems_ezhi_local/__init__.py:39-48 | exactly one setPower GET is sent, carrying the clamped power, and the warning logged is the clamp's |
| `Integration.Classify` | custom_components/apsystems_ezhi_local/__init__.py:108-111 | a data request yields the decoded reading on success, InverterNotAvailable exactly for a timeout or connection error, and otherwise the error itself |
| `Integration.CachedDeviceInfo` | custom_components/apsystems_ezhi_local/__init__.py:102-106 | known device info is kept; unknown info becomes the fetched response on success and stays unknown exactly when the fetch fails |
| `Integration.Proceeds` | custom_components/apsystems_ezhi_local/__init__.py:123-124 | a requested shutdown stops every refresh; a refresh the timer started while the host is stopping does not go ahead; a refresh the timer did not start, or one while the host is not stopping, goes ahead exactly when no shutdown was requested |
| `Integration.Record` | custom_components/apsystems_ezhi_local/__init__.py:133-146 | the success flag is set exactly when the poll fetched a reading; a reading replaces the snapshot, a failure keeps it; only an unexpected error replaces the last exception; the always-update setting and the device info are untouched |
| `Integration.Notifies` | custom_components/apsystems_ezhi_local/__init__.py:157-164 | two failures in a row notify nobody; a flip of the success flag always notifies; after two successes, listeners are notified exactly when always-update is on or the snapshot changed |
| `Integration.RefreshStep` | custom_components/apsystems_ezhi_local/__init__.py:113-164 | a refresh polls exactly when it goes ahead; one that does not changes nothing and requests, schedules and notifies nothing; after a poll the success flag is that poll's outcome; a notification follows only if this poll or the previous one succeeded |
| `Integration.DataCoordinator.constructor` | custom_components/apsystems_ezhi_local/__init__.py:82-96 | an interval of None becomes 10 seconds; notification on every cycle; device info unknown; no data, success flag set, no exception, no shutdown |
| `Integration.DataCoordinator.UpdateData` | custom_components/apsystems_ezhi_local/__init__.py:98-111 | device info is requested only while unknown and stored only on success; the data request is always made; the result is the classified data outcome |
| `Integration.DataCoordinator.RecordOutcome` | custom_components/apsystems_ezhi_local/__init__.py:133-146 | a reading replaces the snapshot and sets the success flag; InverterNotAvailable only clears the flag; any other error becomes the last exception and clears the flag; nothing else changes |
| `Integration.DataCoordinator.Refresh` | custom_components/apsystems_ezhi_local/__init__.py:113-164 | new fields, reschedule and notify flags are exactly those of RefreshStep from the old fields; the device calls made are those RefreshStep's effects name; an existing session is never replaced |
| `RefreshProperties.EarlyExitChangesNothing` | custom_components/apsystems_ezhi_local/__init__.py:121-124 | on shutdown, or a timed call while the host stops, nothing changes and nothing is requested, scheduled or notified |
| `RefreshProperties.FailedPollKeepsData` | custom_components/apsystems_ezhi_local/__init__.py:133-142 | both failure kinds keep the snapshot and clear the success flag; only an unexpected error replaces the last exception |
| `RefreshProperties.SuccessfulPollReplacesData` | custom_components/apsystems_ezhi_local/__init__.py:133-146 | a successful poll stores the decoded reading, sets the success flag and keeps the last exception |
| `RefreshProperties.RescheduleRule` | custom_components/apsystems_ezhi_local/__init__.py:155-156 | the next refresh is scheduled iff the refresh went ahead, there are listeners and the host is not stopping |
| `RefreshProperties.RepeatedFailureIsSilent` | custom_components/apsystems_ezhi_local/__init__.py:157-158 | a failure after a failure notifies nobody |
| `RefreshProperties.RecoveryNotifies` | custom_components/apsystems_ezhi_local/__init__.py:157-164 | a success after a failure always notifies, with or without always-update |
| `RefreshProperties.AlwaysUpdateNotifies` | custom_components/apsystems_ezhi_local/__init__.py:157-164 | with always-update on, listeners are notified iff the refresh went ahead and it or the previous poll succeeded |
| `RefreshProperties.Trace` | custom_components/apsystems_ezhi_local/__init__.py:113-164 | a run of refreshes has one effects record per cycle |
| `RefreshProperties.TraceAt` | custom_components/apsystems_ezhi_local/__init__.py:113-164 | the effects record of refresh j of a run is that of a single refresh from the state the first j cycles left |
| `RefreshProperties.SkippedCyclesChangeNothing` | custom_components/apsystems_ezhi_local/__init__.py:121-124 | a run of refreshes that all exit early leaves the state unchanged |
| `RefreshProperties.FailedPollsKeepData` | custom_components/apsystems_ezhi_local/__init__.py:133-142 | over any run without a successful poll, the snapshot is unchanged |
| `RefreshProperties.DataIsLastSuccessfulPayload` | custom_components/apsystems_ezhi_local/__init__.py:134 | after any run, the snapshot is the decoded reading of the last successful poll |
| `RefreshProperties.InfoRequestedUntilFirstSuccess` | custom_components/apsystems_ezhi_local/__init__.py:102-106 | refresh i requests device info iff it went ahead, the info was unknown at the start and no earlier refresh fetched it successfully |
| `RefreshProperties.NoInfoRequestAfterFetch` | custom_components/apsystems_ezhi_local/__init__.py:102-104 | after a successful device-info fetch, no later refresh requests it |
| `RefreshProperties.AtMostOneInfoFetch` | custom_components/apsystems_ezhi_local/__init__.py:102-106 | in any run, at most one device-info request succeeds |
| `RefreshProperties.DeviceInfoKept` | custom_components/apsystems_ezhi_local/__init__.py:102-106 | known device info is never replaced; unknown info stays unknown without a successful fetch |
| `RefreshProperties.DeviceInfoIsFirstFetch` | custom_components/apsystems_ezhi_local/__init__.py:102-106 | the cached device info is the answer to the first successful fetch |
| `RefreshProperties.FlagFromLastPoll` | custom_components/apsystems_ezhi_local/__init__.py:130-146 | the success flag a refresh starts from is the outcome of the last refresh that went ahead |
| `RefreshProperties.RepeatedFailureIsSilentInRun` | custom_components/apsystems_ezhi_local/__init__.py:157-158 | in a run, a failed poll whose previous poll failed (skipped refreshes in between) notifies nobody |
| `RefreshProperties.RecoveryNotifiesInRun` | custom_components/apsystems_ezhi_local/__init__.py:157-164 | in a run, a successful poll whose previous poll failed notifies |
| `Api.Url` | custom_components/apsystems_ezhi_local/api.py:87 | the request URL is "http://", the host, "/", the endpoint, in that order |
| `Api.UrlInjective` | custom_components/apsystems_ezhi_local/api.py:87 | for hosts without '/', the request URL determines host and endpoint and vice versa |
| `Api.DecodeOutputData` | custom_components/apsystems_ezhi_local/api.py:103-122 | each of the 16 readings is the "data" entry under its key, or "0" when missing |
| `Api.OutputDataWithoutData` | custom_components/apsystems_ezhi_local/api.py:104 | a response without "data" reads as all "0" |
| `Api.OutputDataRoundTrip` | custom_components/apsystems_ezhi_local/api.py:105-122 | decoding the data object a device sends for a record gives back that record |
| `Api.DecodeAlarm` | custom_components/apsystems_ezhi_local/api.py:126-146 | each of the 17 alarm flags is the "data" entry under its key, or "0" when missing |
| `Api.AlarmWithoutData` | custom_components/apsystems_ezhi_local/api.py:127 | a response without "data" reads as all "0" |
| `Api.AlarmRoundTrip` | custom_components/apsystems_ezhi_local/api.py:128-146 | decoding the data object a device sends for an alarm record gives back that record |
| `Api.DecodePower` | custom_components/apsystems_ezhi_local/api.py:150-151 | 0 when "data" or "power" is missing; otherwise the int() of the "power" text, or a ValueError carrying that text |
| `Api.PowerRoundTrip` | custom_components/apsystems_ezhi_local/api.py:151 | a power setting the device writes in decimal is read back exactly |
| `IntText.ParseInt` | custom_components/apsystems_ezhi_local/api.py:151 | a run of ASCII digits, optionally after one '+' or '-', reads as its decimal value with that sign; every other text is refused |
| `IntText.ParseDecimal` | custom_components/apsystems_ezhi_local/api.py:151 | int() of the decimal text of n is n |
| `IntText.Digits` | custom_components/apsystems_ezhi_local/api.py:151 | the decimal text of a natural is a non-empty run of digits without a leading zero |
| `Api.PowerAccepted` | custom_components/apsystems_ezhi_local/api.py:153-159 | a failed request, or an answer without "message", is not accepted; otherwise the write is accepted exactly when the message is "SUCCESS" |
| `Api.Client.constructor` | custom_components/apsystems_ezhi_local/api.py:76-80 | a new client keeps its address and timeout, has no session and has sent nothing |
| `Api.Client.Request` | custom_components/apsystems_ezhi_local/api.py:82-95 | the session is created only when absent and kept afterwards; one GET to "http://" + ip + "/" + endpoint is sent; the outcome, error included, is passed on unchanged |
| `Api.Client.GetDeviceInfo` | custom_components/apsystems_ezhi_local/api.py:97-99 | one getDeviceInfo GET; the response or error is returned unchanged |
| `Api.Client.GetOutputData` | custom_components/apsystems_ezhi_local/api.py:101-122 | one getOutputData GET; the decoded record, or the request's error unchanged |
| `Api.Client.GetAlarm` | custom_components/apsystems_ezhi_local/api.py:124-146 | one getAlarm GET; the decoded record, or the request's error unchanged |
| `Api.Client.GetPower` | custom_components/apsystems_ezhi_local/api.py:148-151 | one getPower GET; the decoded power, or the request's error unchanged |
| `Api.Client.SetPower` | custom_components/apsystems_ezhi_local/api.py:153-159 | one setPower GET with parameter p; True iff the answer's message is "SUCCESS", False on any request error |
| `Number.PowerLimit.constructor` | custom_components/apsystems_ezhi_local/number.py:51-62 | a new entity is unavailable and shows no value |
| `Number.PowerLimit.Update` | custom_components/apsystems_ezhi_local/number.py:64-70 | one getPower GET; the new state is ReadStep of the old: a read value is shown and the entity becomes available, a timeout or connection error marks it unavailable keeping the value, any other error propagates changing nothing |
| `Number.PowerLimit.SetNativeValue` | custom_components/apsystems_ezhi_local/number.py:87-94 | the value is forwarded unclamped in one setPower GET, then one getPower GET follows; the final state is the read-back's ReadStep from "available"; the session is created only when absent and kept afterwards |
| `Number.MarksUnavailable` | custom_components/apsystems_ezhi_local/number.py:69-70 | exactly a timeout and a connection error mark the entity unavailable; a ValueError from int() and any other client error propagate |
| `Number.ReadStep` | custom_components/apsystems_ezhi_local/number.py:64-70 | a raised error is the read's own error and changes nothing; the entity is available after a successful read, or when it was available and the error propagates; the shown value is the read value, or the old one after a failure |
| `Number.ReadShowsReadValue` | custom_components/apsystems_ezhi_local/number.py:64-70 | a read shows the read value and makes the entity available, or keeps the old value; only errors other than timeout and connection errors propagate, and they change nothing |
| `Number.ShowsLastSuccessfulRead` | custom_components/apsystems_ezhi_local/number.py:66-68 | after a run of reads, the shown value is that of the last successful read |
| `Number.FailedReadsKeepValue` | custom_components/apsystems_ezhi_local/number.py:69-70 | failed reads never change the shown value |
| `Number.PowerLimit.UniqueId` | custom_components/apsystems_ezhi_local/number.py:80 | the unique id is "apsystems_", the device name, "_", the sensor id, in that order |
| `Number.PowerLimit.Name` | custom_components/apsystems_ezhi_local/number.py:85 | the name is "APsystems ", the device name, " ", the sensor name, in that order |
| `Number.UniqueIdPerSensor` | custom_components/apsystems_ezhi_local/number.py:80 | within one device, unique ids are equal iff sensor ids are equal |
| `Number.UniqueIdPerDevice` | custom_components/apsystems_ezhi_local/number.py:80 | for one sensor id, unique ids are equal iff device names are equal |

## Left out

- Logging: the clamp warnings are returned as values. The device-info warning, the recovery notice, the unexpected-error log and `_request`'s error log are not modelled.
- Timing diagnostics (`monotonic()`, `log_timing`): wall-clock, floating point, no effect on behaviour.
- Scheduling and concurrency: `_async_unsub_refresh`, `_debounced_refresh.async_cancel`, `_schedule_refresh` and the `await` points. A refresh is one sequential step, and "rescheduled" is a returned flag. The cancelling of a pending timer at the start of every refresh is not represented.
- The HTTP layer: the aiohttp session's behaviour, `asyncio.timeout`, `raise_for_status` and JSON decoding. Each request is an abstract outcome. The session is an object with no behaviour. Nothing in the source closes it, and neither does the model.
- JSON values are their text, in `map<string, string>`. A "data" member that is not an object, a response that is not an object, and JSON numbers that are not integers are not modelled. So errors other than transport errors cannot reach the coordinator's last exception.
- Client.SetPower, PowerLimit.SetNativeValue: a reply labelled as JSON whose body is not valid JSON makes `response.json()` raise `json.JSONDecodeError`, and an empty body makes it return None, so the following `.get` raises `AttributeError`. Neither is an aiohttp error, so `set_power` lets both escape. They would reach the caller of the `set_power` service, would skip the entity's read-back, and in the coordinator would become the last exception. The model's replies are always decoded objects, so these exceptions do not arise in it.
- `int()` on a string: surrounding whitespace, underscores between digits and non-ASCII digits, all of which Python accepts, are not modelled.
- `async_set_native_value` converts its float argument with `int()`. The model takes an integer.
- The `auth_failed` flag and the `exc_triggered` check in `_async_refresh`: they are constant, so they decide nothing.
- The unused refresh parameters `log_failures`, `raise_on_auth_failed` and `raise_on_entry_error`.
- Home Assistant glue: `async_setup_entry`, `async_unload_entry`, `update_listener`, service registration, the voluptuous schemas, the entities' `device_info` and `state` properties, and the number's min/max/step attributes. These are framework metadata that the framework itself uses.
- switch.py: a placeholder platform that adds no entities.
- test_api.py: a command-line script that duplicates the client.
