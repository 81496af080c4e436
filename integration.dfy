/** The integration's entry module (__init__.py): the `set_power` service,
    which clamps a requested power into the allowed range before forwarding
    it, and the data update coordinator, which polls the inverter, keeps the
    last good reading, caches the device information once, and decides after
    every poll whether to reschedule and whether to notify its listeners. */
module Integration {
  import opened Wrappers
  import opened Api

  // ---------------------------------------------------------------- set_power service

  /** The warnings the service logs when it corrects a request. */
  datatype Warning = BelowMinimum(power: int, minimum: int) | AboveMaximum(power: int, maximum: int)

  /** The power actually forwarded, and the warning logged on the way. */
  datatype Clamped = Clamped(value: int, warning: Option<Warning>)

  /** The correction `set_power_service` applies to a requested power. */
  function ClampPower(power: int, minValue: int, maxValue: int): (r: Clamped)
    ensures minValue <= maxValue ==> minValue <= r.value <= maxValue
    ensures r.warning.None? <==> minValue <= power <= maxValue
    ensures r.warning.None? ==> r.value == power
    ensures power < minValue ==> r.value == minValue && r.warning == Some(BelowMinimum(power, minValue))
    ensures minValue <= power && maxValue < power ==>
      r.value == maxValue && r.warning == Some(AboveMaximum(power, maxValue))
  {
    if power < minValue then Clamped(minValue, Some(BelowMinimum(power, minValue)))
    else if power > maxValue then Clamped(maxValue, Some(AboveMaximum(power, maxValue)))
    else Clamped(power, None)
  }

  /** The forwarded power is the allowed value nearest to the request. */
  lemma ClampIsNearest(power: int, minValue: int, maxValue: int, other: int)
    requires minValue <= other <= maxValue
    ensures var v := ClampPower(power, minValue, maxValue).value;
      (if v <= power then power - v else v - power) <= (if other <= power then power - other else other - power)
  {
  }

  /** Clamping an already clamped power changes nothing and warns nothing. */
  lemma ClampIdempotent(power: int, minValue: int, maxValue: int)
    requires minValue <= maxValue
    ensures var once := ClampPower(power, minValue, maxValue).value;
      ClampPower(once, minValue, maxValue) == Clamped(once, None)
  {
  }

  /** `set_power_service`: correct the requested power, then make exactly one
      `set_power` call on the client with the corrected value. The client's
      verdict is not looked at. */
  method SetPowerService(api: Client, power: int, minValue: int, maxValue: int, exchange: Exchange)
    returns (warning: Option<Warning>)
    modifies api
    ensures api.SessionKept()
    ensures api.sent == old(api.sent)
      + [HttpGet(Url(api.ipAddress, "setPower"), map["p" := ClampPower(power, minValue, maxValue).value])]
    ensures warning == ClampPower(power, minValue, maxValue).warning
  {
    var p := power;
    warning := None;
    if p < minValue {
      warning := Some(BelowMinimum(p, minValue));
      p := minValue;
    } else if p > maxValue {
      warning := Some(AboveMaximum(p, maxValue));
      p := maxValue;
    }
    var _ := api.SetPower(p, exchange);
  }

  // ---------------------------------------------------------------- coordinator

  /** What `_async_update_data` hands back to the refresh: the reading, the
      inverter being unreachable (InverterNotAvailable), or any other error. */
  datatype UpdateResult = Fetched(payload: OutputData) | Unavailable | Unexpected(error: TransportError)

  /** How a data request's outcome surfaces: timeouts and connection errors
      become InverterNotAvailable, other errors pass through. */
  function Classify(output: Exchange): (r: UpdateResult)
    ensures r.Fetched? <==> output.Success?
    ensures r.Fetched? ==> r.payload == DecodeOutputData(output.value)
    ensures r.Unavailable? <==> output.Failure? && (output.error.Timeout? || output.error.ConnectionError?)
    ensures r.Unexpected? ==> r.error == output.error
  {
    match ReadOutputData(output)
    case Success(payload) => Fetched(payload)
    case Failure(e) => if e.Timeout? || e.ConnectionError? then Unavailable else Unexpected(e)
  }

  /** The device information after one poll: kept once known, otherwise the
      result of the fetch if it succeeded, otherwise still unknown. */
  function CachedDeviceInfo(cached: Option<Response>, fetch: Exchange): (r: Option<Response>)
    ensures cached.Some? ==> r == cached
    ensures r.None? <==> cached.None? && fetch.Failure?
    ensures cached.None? && fetch.Success? ==> r == Some(fetch.value)
  {
    if cached.Some? then cached
    else if fetch.Success? then Some(fetch.value)
    else None
  }

  /** The coordinator's fields that a refresh reads or writes. */
  datatype CoordinatorState = CoordinatorState(
    alwaysUpdate: bool,
    data: Option<OutputData>,
    lastUpdateSuccess: bool,
    lastException: Option<TransportError>,
    deviceInfo: Option<Response>)

  /** The inputs of one refresh: the host's flags, and what the device
      answers to the device-information request and to the data request
      (each looked at only if that request is made). */
  datatype Cycle = Cycle(
    shutdownRequested: bool,
    scheduled: bool,
    isStopping: bool,
    hasListeners: bool,
    info: Exchange,
    output: Exchange)

  /** What a refresh did besides changing the state: whether it polled,
      whether it requested the device information, whether it scheduled the
      next refresh and whether it notified the listeners. */
  datatype Effects = Effects(polled: bool, infoRequested: bool, rescheduled: bool, notified: bool)

  /** A refresh goes ahead unless shutdown was requested or a timer fired
      while the host is stopping. */
  predicate Proceeds(c: Cycle): (goes: bool)
    ensures c.shutdownRequested ==> !goes
    ensures c.scheduled && c.isStopping ==> !goes
    ensures !c.scheduled ==> (goes <==> !c.shutdownRequested)
    ensures !c.isStopping ==> (goes <==> !c.shutdownRequested)
  {
    !(c.shutdownRequested || (c.scheduled && c.isStopping))
  }

  /** True when the cycle polls and the data request succeeds. */
  predicate PollSucceeds(c: Cycle) {
    Proceeds(c) && c.output.Success?
  }

  /** How a poll's result is recorded: a reading replaces the snapshot and
      sets the success flag; a failure clears the flag, and an unexpected
      error also becomes the last exception. */
  function Record(s: CoordinatorState, result: UpdateResult): (r: CoordinatorState)
    ensures r.lastUpdateSuccess <==> result.Fetched?
    ensures result.Fetched? ==> r.data == Some(result.payload)
    ensures !result.Fetched? ==> r.data == s.data
    ensures result.Unexpected? ==> r.lastException == Some(result.error)
    ensures !result.Unexpected? ==> r.lastException == s.lastException
    ensures r.alwaysUpdate == s.alwaysUpdate && r.deviceInfo == s.deviceInfo
  {
    s.(
      data := if result.Fetched? then Some(result.payload) else s.data,
      lastUpdateSuccess := result.Fetched?,
      lastException := if result.Unexpected? then Some(result.error) else s.lastException)
  }

  /** Whether listeners hear of a poll that took the state from `before` to
      `after`: not after two failures in a row, otherwise when every cycle
      notifies, when the success flag flipped or when the snapshot changed. */
  predicate Notifies(before: CoordinatorState, after: CoordinatorState): (notify: bool)
    ensures !before.lastUpdateSuccess && !after.lastUpdateSuccess ==> !notify
    ensures before.lastUpdateSuccess != after.lastUpdateSuccess ==> notify
    ensures before.lastUpdateSuccess && after.lastUpdateSuccess ==>
      (notify <==> before.alwaysUpdate || before.data != after.data)
  {
    !(!after.lastUpdateSuccess && !before.lastUpdateSuccess)
    && (before.alwaysUpdate || after.lastUpdateSuccess != before.lastUpdateSuccess || before.data != after.data)
  }

  /** One `_async_refresh`, as a function of the state before it. */
  function RefreshStep(s: CoordinatorState, c: Cycle): (r: (CoordinatorState, Effects))
    ensures r.1.polled <==> Proceeds(c)
    ensures !r.1.polled ==> r.0 == s && !r.1.infoRequested && !r.1.rescheduled && !r.1.notified
    ensures r.1.polled ==> r.0.lastUpdateSuccess == c.output.Success?
    ensures r.1.notified ==> s.lastUpdateSuccess || r.0.lastUpdateSuccess
    ensures r.0.alwaysUpdate == s.alwaysUpdate
  {
    if !Proceeds(c) then
      (s, Effects(false, false, false, false))
    else
      var s' := Record(s.(deviceInfo := CachedDeviceInfo(s.deviceInfo, c.info)), Classify(c.output));
      (s', Effects(true, s.deviceInfo.None?, c.hasListeners && !c.isStopping, Notifies(s, s')))
  }

  /** The requests a refresh sends to the device, in order. */
  function DeviceCalls(ipAddress: string, e: Effects): seq<HttpGet> {
    (if e.infoRequested then [HttpGet(Url(ipAddress, "getDeviceInfo"), map[])] else [])
    + (if e.polled then [HttpGet(Url(ipAddress, "getOutputData"), map[])] else [])
  }

  /** ApSystemsDataCoordinator, with the fields of the framework's
      DataUpdateCoordinator that its refresh uses. */
  class DataCoordinator {
    const api: Client
    const updateInterval: int
    const alwaysUpdate: bool
    var data: Option<OutputData>
    var lastUpdateSuccess: bool
    var lastException: Option<TransportError>
    var deviceInfo: Option<Response>
    var shutdownRequested: bool

    function State(): CoordinatorState
      reads this
    {
      CoordinatorState(alwaysUpdate, data, lastUpdateSuccess, lastException, deviceInfo)
    }

    /** An interval of None polls every 10 seconds; notification is on for
        every cycle; nothing has been fetched yet. */
    constructor (api: Client, interval: Option<int>)
      ensures this.api == api
      ensures updateInterval == if interval.Some? then interval.value else 10
      ensures alwaysUpdate && deviceInfo == None
      ensures data == None && lastUpdateSuccess && lastException == None && !shutdownRequested
    {
      this.api := api;
      updateInterval := if interval.Some? then interval.value else 10;
      alwaysUpdate := true;
      deviceInfo := None;
      data := None;
      lastUpdateSuccess := true;
      lastException := None;
      shutdownRequested := false;
    }

    /** `_async_update_data`: fetch the device information while it is
        unknown (a failure is only logged), then fetch the output data. */
    method UpdateData(info: Exchange, output: Exchange) returns (result: UpdateResult)
      modifies this`deviceInfo, api
      ensures deviceInfo == CachedDeviceInfo(old(deviceInfo), info)
      ensures result == Classify(output)
      ensures api.SessionKept()
      ensures api.sent == old(api.sent)
        + (if old(deviceInfo).None? then [HttpGet(Url(api.ipAddress, "getDeviceInfo"), map[])] else [])
        + [HttpGet(Url(api.ipAddress, "getOutputData"), map[])]
    {
      if deviceInfo.None? {
        var fetched := api.GetDeviceInfo(info);
        if fetched.Success? {
          deviceInfo := Some(fetched.value);
        }
      }
      var reading := api.GetOutputData(output);
      match reading
      case Success(payload) =>
        result := Fetched(payload);
      case Failure(e) =>
        result := if e.Timeout? || e.ConnectionError? then Unavailable else Unexpected(e);
    }

    /** The outcome handling of `_async_refresh`: a reading replaces the
        snapshot and restores the success flag; InverterNotAvailable clears
        the flag; any other error is kept as the last exception and clears
        the flag. */
    method RecordOutcome(result: UpdateResult)
      modifies this`data, this`lastUpdateSuccess, this`lastException
      ensures State() == Record(old(State()), result)
    {
      match result {
        case Unavailable =>
          lastUpdateSuccess := false;
        case Unexpected(err) =>
          lastException := Some(err);
          lastUpdateSuccess := false;
        case Fetched(payload) =>
          data := Some(payload);
          if !lastUpdateSuccess {
            lastUpdateSuccess := true;
          }
      }
    }

    /** `_async_refresh`. The device's answers are inputs; whether the next
        refresh is scheduled and whether listeners are notified are returned. */
    method Refresh(scheduled: bool, isStopping: bool, hasListeners: bool, info: Exchange, output: Exchange)
      returns (rescheduled: bool, notified: bool)
      modifies this, api
      ensures var step := RefreshStep(old(State()),
                Cycle(old(shutdownRequested), scheduled, isStopping, hasListeners, info, output));
        && State() == step.0
        && rescheduled == step.1.rescheduled
        && notified == step.1.notified
        && api.sent == old(api.sent) + DeviceCalls(api.ipAddress, step.1)
      ensures shutdownRequested == old(shutdownRequested)
      ensures api.session == old(api.session) || fresh(api.session)
      ensures old(api.session) != null ==> api.session == old(api.session)
    {
      if shutdownRequested || (scheduled && isStopping) {
        return false, false;
      }
      var previousUpdateSuccess := lastUpdateSuccess;
      var previousData := data;
      var result := UpdateData(info, output);
      RecordOutcome(result);
      rescheduled := hasListeners && !isStopping;
      if !lastUpdateSuccess && !previousUpdateSuccess {
        return rescheduled, false;
      }
      notified := alwaysUpdate || lastUpdateSuccess != previousUpdateSuccess || previousData != data;
    }
  }
}
