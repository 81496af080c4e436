/** The HTTP client of the EZHI inverter's local API (api.py): response
    records, their decoding from the device's JSON, and the client object
    whose session is created on first use. */
module Api {
  import opened Wrappers
  import opened IntText

  /** A decoded JSON response: its scalar top-level members (such as
      "message"), and the nested "data" object when there is one. JSON
      scalars are kept as their text. */
  datatype Response = Response(fields: map<string, string>, data: Option<map<string, string>>)

  /** What `_request` raises and re-raises: asyncio's timeout, an aiohttp
      connection error, or any other aiohttp ClientError (an error status
      from raise_for_status, or a reply whose content type is not JSON). */
  datatype TransportError = Timeout | ConnectionError | ResponseError

  /** The outcome of one HTTP GET, as the network delivers it. */
  type Exchange = Result<Response, TransportError>

  /** One outbound GET: the URL and the query parameters. */
  datatype HttpGet = HttpGet(url: string, params: map<string, int>)

  /** The address of an endpoint on the device. */
  function Url(ipAddress: string, endpoint: string): (u: string)
    ensures |u| == 8 + |ipAddress| + |endpoint|
    ensures u[..7] == "http://" && u[7..7 + |ipAddress|] == ipAddress
    ensures u[7 + |ipAddress|] == '/' && u[8 + |ipAddress|..] == endpoint
  {
    "http://" + ipAddress + "/" + endpoint
  }

  lemma HostOfUrl(ipAddress: string, endpoint: string)
    requires '/' !in ipAddress
    ensures var u := Url(ipAddress, endpoint);
      && |u| == 8 + |ipAddress| + |endpoint|
      && u[7 + |ipAddress|] == '/'
      && (forall i | 7 <= i < 7 + |ipAddress| :: u[i] != '/')
      && u[7..7 + |ipAddress|] == ipAddress
      && u[8 + |ipAddress|..] == endpoint
  {
    var u := Url(ipAddress, endpoint);
    forall i | 7 <= i < 7 + |ipAddress|
      ensures u[i] != '/'
    {
      assert u[i] == ipAddress[i - 7];
    }
  }

  /** A URL names exactly one host and endpoint, for hosts without a '/'. */
  lemma UrlInjective(ip1: string, endpoint1: string, ip2: string, endpoint2: string)
    requires '/' !in ip1 && '/' !in ip2
    ensures Url(ip1, endpoint1) == Url(ip2, endpoint2) <==> ip1 == ip2 && endpoint1 == endpoint2
  {
    if Url(ip1, endpoint1) == Url(ip2, endpoint2) {
      HostOfUrl(ip1, endpoint1);
      HostOfUrl(ip2, endpoint2);
    }
  }

  /** `response.get("data", {})` */
  function DataOf(response: Response): map<string, string> {
    if response.data.Some? then response.data.value else map[]
  }

  /** `data.get(key, "0")` */
  function FieldOr(data: map<string, string>, key: string): string {
    if key in data then data[key] else "0"
  }

  // ---------------------------------------------------------------- output data

  /** The sixteen readings of `getOutputData`. */
  datatype OutputField =
    | BatteryStatus | BatteryCharge | BatteryHealth | BatteryTemperature
    | DeviceTemperature | PvPower | PvTotalEnergy | BatteryPower
    | BatteryChargeEnergy | BatteryDischargeEnergy | OnGridPower
    | OnGridOutputEnergy | OnGridInputEnergy | OffGridPower
    | OffGridOutputEnergy | OffGridInputEnergy

  /** The JSON key the device uses for each reading. */
  function OutputKey(f: OutputField): string {
    match f
    case BatteryStatus => "batS"
    case BatteryCharge => "batSoc"
    case BatteryHealth => "batSoh"
    case BatteryTemperature => "batTemp"
    case DeviceTemperature => "devTemp"
    case PvPower => "pvP"
    case PvTotalEnergy => "pvTE"
    case BatteryPower => "batP"
    case BatteryChargeEnergy => "batCTE"
    case BatteryDischargeEnergy => "batDTE"
    case OnGridPower => "ogP"
    case OnGridOutputEnergy => "ogOTE"
    case OnGridInputEnergy => "ogITE"
    case OffGridPower => "ofgP"
    case OffGridOutputEnergy => "ofgOTE"
    case OffGridInputEnergy => "ofgITE"
  }

  /** ReturnOutputData */
  datatype OutputData = OutputData(
    batS: string, batSoc: string, batSoh: string, batTemp: string,
    devTemp: string, pvP: string, pvTE: string, batP: string,
    batCTE: string, batDTE: string, ogP: string, ogOTE: string,
    ogITE: string, ofgP: string, ofgOTE: string, ofgITE: string)
  {
    function Get(f: OutputField): string {
      match f
      case BatteryStatus => batS
      case BatteryCharge => batSoc
      case BatteryHealth => batSoh
      case BatteryTemperature => batTemp
      case DeviceTemperature => devTemp
      case PvPower => pvP
      case PvTotalEnergy => pvTE
      case BatteryPower => batP
      case BatteryChargeEnergy => batCTE
      case BatteryDischargeEnergy => batDTE
      case OnGridPower => ogP
      case OnGridOutputEnergy => ogOTE
      case OnGridInputEnergy => ogITE
      case OffGridPower => ofgP
      case OffGridOutputEnergy => ofgOTE
      case OffGridInputEnergy => ofgITE
    }

    /** The "data" object a device sends for this record. */
    function AsMap(): map<string, string> {
      map[
        "batS" := batS, "batSoc" := batSoc, "batSoh" := batSoh, "batTemp" := batTemp,
        "devTemp" := devTemp, "pvP" := pvP, "pvTE" := pvTE, "batP" := batP,
        "batCTE" := batCTE, "batDTE" := batDTE, "ogP" := ogP, "ogOTE" := ogOTE,
        "ogITE" := ogITE, "ofgP" := ofgP, "ofgOTE" := ofgOTE, "ofgITE" := ofgITE]
    }
  }

  /** The body of `get_output_data` after the request: every reading is the
      "data" entry under its key, or "0" when that entry is missing. */
  function DecodeOutputData(response: Response): (r: OutputData)
    ensures forall f: OutputField :: r.Get(f) == FieldOr(DataOf(response), OutputKey(f))
  {
    var data := DataOf(response);
    OutputData(
      FieldOr(data, "batS"), FieldOr(data, "batSoc"), FieldOr(data, "batSoh"),
      FieldOr(data, "batTemp"), FieldOr(data, "devTemp"), FieldOr(data, "pvP"),
      FieldOr(data, "pvTE"), FieldOr(data, "batP"), FieldOr(data, "batCTE"),
      FieldOr(data, "batDTE"), FieldOr(data, "ogP"), FieldOr(data, "ogOTE"),
      FieldOr(data, "ogITE"), FieldOr(data, "ofgP"), FieldOr(data, "ofgOTE"),
      FieldOr(data, "ofgITE"))
  }

  /** A response without a "data" object reads as all zeros. */
  lemma OutputDataWithoutData(response: Response)
    requires response.data.None?
    ensures forall f: OutputField :: DecodeOutputData(response).Get(f) == "0"
  {
  }

  /** Decoding what a device sends for a record gives back that record. */
  lemma OutputDataRoundTrip(r: OutputData, fields: map<string, string>)
    ensures DecodeOutputData(Response(fields, Some(r.AsMap()))) == r
  {
  }

  // ---------------------------------------------------------------- alarms

  /** The seventeen alarm flags of `getAlarm`. */
  datatype AlarmField =
    | BatteryHighTemperature | BatteryLowTemperature | BatteryCommunicationError
    | BatteryOvervoltage | BatteryUndervoltage | BatteryOvercurrent | BatteryError
    | DeviceTemperatureProtection | DeviceError | BatteryShutdown | AcAbnormal
    | OffGridOvercurrent | PvHighVoltage | PvOvercurrent | IrdError
    | PvWiringError | OffGridShortCircuit

  /** The JSON key the device uses for each alarm. */
  function AlarmKey(f: AlarmField): string {
    match f
    case BatteryHighTemperature => "BatHTP"
    case BatteryLowTemperature => "BatLTP"
    case BatteryCommunicationError => "BatCE"
    case BatteryOvervoltage => "BatHV"
    case BatteryUndervoltage => "BatLV"
    case BatteryOvercurrent => "BatHI"
    case BatteryError => "BatE"
    case DeviceTemperatureProtection => "DTP"
    case DeviceError => "EE"
    case BatteryShutdown => "SBS"
    case AcAbnormal => "ACA"
    case OffGridOvercurrent => "OfOI"
    case PvHighVoltage => "PvHV"
    case PvOvercurrent => "PvOC"
    case IrdError => "IRDE"
    case PvWiringError => "PVWE"
    case OffGridShortCircuit => "OfGS"
  }

  /** ReturnAlarmData */
  datatype AlarmData = AlarmData(
    BatHTP: string, BatLTP: string, BatCE: string, BatHV: string,
    BatLV: string, BatHI: string, BatE: string, DTP: string, EE: string,
    SBS: string, ACA: string, OfOI: string, PvHV: string, PvOC: string,
    IRDE: string, PVWE: string, OfGS: string)
  {
    function Get(f: AlarmField): string {
      match f
      case BatteryHighTemperature => BatHTP
      case BatteryLowTemperature => BatLTP
      case BatteryCommunicationError => BatCE
      case BatteryOvervoltage => BatHV
      case BatteryUndervoltage => BatLV
      case BatteryOvercurrent => BatHI
      case BatteryError => BatE
      case DeviceTemperatureProtection => DTP
      case DeviceError => EE
      case BatteryShutdown => SBS
      case AcAbnormal => ACA
      case OffGridOvercurrent => OfOI
      case PvHighVoltage => PvHV
      case PvOvercurrent => PvOC
      case IrdError => IRDE
      case PvWiringError => PVWE
      case OffGridShortCircuit => OfGS
    }

    /** The "data" object a device sends for this record. */
    function AsMap(): map<string, string> {
      map[
        "BatHTP" := BatHTP, "BatLTP" := BatLTP, "BatCE" := BatCE, "BatHV" := BatHV,
        "BatLV" := BatLV, "BatHI" := BatHI, "BatE" := BatE, "DTP" := DTP, "EE" := EE,
        "SBS" := SBS, "ACA" := ACA, "OfOI" := OfOI, "PvHV" := PvHV, "PvOC" := PvOC,
        "IRDE" := IRDE, "PVWE" := PVWE, "OfGS" := OfGS]
    }
  }

  /** The body of `get_alarm` after the request: every flag is the "data"
      entry under its key, or "0" when that entry is missing. */
  function DecodeAlarm(response: Response): (r: AlarmData)
    ensures forall f: AlarmField :: r.Get(f) == FieldOr(DataOf(response), AlarmKey(f))
  {
    var data := DataOf(response);
    AlarmData(
      FieldOr(data, "BatHTP"), FieldOr(data, "BatLTP"), FieldOr(data, "BatCE"),
      FieldOr(data, "BatHV"), FieldOr(data, "BatLV"), FieldOr(data, "BatHI"),
      FieldOr(data, "BatE"), FieldOr(data, "DTP"), FieldOr(data, "EE"),
      FieldOr(data, "SBS"), FieldOr(data, "ACA"), FieldOr(data, "OfOI"),
      FieldOr(data, "PvHV"), FieldOr(data, "PvOC"), FieldOr(data, "IRDE"),
      FieldOr(data, "PVWE"), FieldOr(data, "OfGS"))
  }

  /** A response without a "data" object reads as no alarm raised. */
  lemma AlarmWithoutData(response: Response)
    requires response.data.None?
    ensures forall f: AlarmField :: DecodeAlarm(response).Get(f) == "0"
  {
  }

  /** Decoding what a device sends for a record gives back that record. */
  lemma AlarmRoundTrip(r: AlarmData, fields: map<string, string>)
    ensures DecodeAlarm(Response(fields, Some(r.AsMap()))) == r
  {
  }

  // ---------------------------------------------------------------- power

  /** Why `get_power` raises: the request failed, or `int()` refused the
      text of the "power" entry (ValueError). */
  datatype PowerError = Transport(error: TransportError) | NotAnInteger(text: string)

  /** The body of `get_power` after the request. */
  function DecodePower(response: Response): (r: Result<int, PowerError>)
    ensures "power" !in DataOf(response) ==> r == Success(0)
    ensures "power" in DataOf(response) ==>
      && (r.Success? <==> ParseInt(DataOf(response)["power"]).Some?)
      && (r.Success? ==> ParseInt(DataOf(response)["power"]) == Some(r.value))
      && (r.Failure? ==> r.error == NotAnInteger(DataOf(response)["power"]))
  {
    var data := DataOf(response);
    if "power" !in data then
      Success(0)
    else
      match ParseInt(data["power"])
      case Some(n) => Success(n)
      case None => Failure(NotAnInteger(data["power"]))
  }

  /** A power setting the device writes in decimal is read back exactly. */
  lemma PowerRoundTrip(n: int, fields: map<string, string>, data: map<string, string>)
    ensures DecodePower(Response(fields, Some(data["power" := Decimal(n)]))) == Success(n)
  {
    ParseDecimal(n);
  }

  /** `get_power` as a whole: a failed request raises unchanged. */
  function ReadPower(exchange: Exchange): Result<int, PowerError> {
    match exchange
    case Success(response) => DecodePower(response)
    case Failure(e) => Failure(Transport(e))
  }

  /** `get_output_data` as a whole: a failed request raises unchanged. */
  function ReadOutputData(exchange: Exchange): Result<OutputData, TransportError> {
    match exchange
    case Success(response) => Success(DecodeOutputData(response))
    case Failure(e) => Failure(e)
  }

  /** `set_power`'s verdict: True exactly when the device answered with
      message "SUCCESS"; a failed request gives False instead of raising. */
  predicate PowerAccepted(exchange: Exchange): (accepted: bool)
    ensures exchange.Failure? ==> !accepted
    ensures exchange.Success? && "message" !in exchange.value.fields ==> !accepted
    ensures exchange.Success? && "message" in exchange.value.fields ==>
      (accepted <==> exchange.value.fields["message"] == "SUCCESS")
  {
    exchange.Success? && "message" in exchange.value.fields
    && exchange.value.fields["message"] == "SUCCESS"
  }

  // ---------------------------------------------------------------- client

  /** Stands for the aiohttp.ClientSession the client opens. */
  class Session {
    constructor () {}
  }

  /** APsystemsEZHI. `sent` records the GETs the client has issued. */
  class Client {
    const ipAddress: string
    const timeout: int
    var session: Session?
    ghost var sent: seq<HttpGet>

    constructor (ipAddress: string, timeout: int)
      ensures this.ipAddress == ipAddress && this.timeout == timeout
      ensures session == null && sent == []
    {
      this.ipAddress := ipAddress;
      this.timeout := timeout;
      session := null;
      sent := [];
    }

    /** The session is opened on the first request and kept afterwards. */
    twostate predicate SessionKept()
      reads this
    {
      && session != null
      && (old(session) == null ==> fresh(session))
      && (old(session) != null ==> session == old(session))
    }

    /** `_request`: open the session if needed, GET the endpoint, and
        return the response or re-raise the error unchanged. */
    method Request(endpoint: string, params: map<string, int>, exchange: Exchange) returns (r: Exchange)
      modifies this
      ensures SessionKept()
      ensures sent == old(sent) + [HttpGet(Url(ipAddress, endpoint), params)]
      ensures r == exchange
    {
      if session == null {
        session := new Session();
      }
      var url := Url(ipAddress, endpoint);
      sent := sent + [HttpGet(url, params)];
      r := exchange;
    }

    method GetDeviceInfo(exchange: Exchange) returns (r: Exchange)
      modifies this
      ensures SessionKept()
      ensures sent == old(sent) + [HttpGet(Url(ipAddress, "getDeviceInfo"), map[])]
      ensures r == exchange
    {
      r := Request("getDeviceInfo", map[], exchange);
    }

    method GetOutputData(exchange: Exchange) returns (r: Result<OutputData, TransportError>)
      modifies this
      ensures SessionKept()
      ensures sent == old(sent) + [HttpGet(Url(ipAddress, "getOutputData"), map[])]
      ensures r == ReadOutputData(exchange)
    {
      var response := Request("getOutputData", map[], exchange);
      match response
      case Success(body) => r := Success(DecodeOutputData(body));
      case Failure(e) => r := Failure(e);
    }

    method GetAlarm(exchange: Exchange) returns (r: Result<AlarmData, TransportError>)
      modifies this
      ensures SessionKept()
      ensures sent == old(sent) + [HttpGet(Url(ipAddress, "getAlarm"), map[])]
      ensures exchange.Success? ==> r == Success(DecodeAlarm(exchange.value))
      ensures exchange.Failure? ==> r == Failure(exchange.error)
    {
      var response := Request("getAlarm", map[], exchange);
      match response
      case Success(body) => r := Success(DecodeAlarm(body));
      case Failure(e) => r := Failure(e);
    }

    method GetPower(exchange: Exchange) returns (r: Result<int, PowerError>)
      modifies this
      ensures SessionKept()
      ensures sent == old(sent) + [HttpGet(Url(ipAddress, "getPower"), map[])]
      ensures r == ReadPower(exchange)
    {
      var response := Request("getPower", map[], exchange);
      match response
      case Success(body) => r := DecodePower(body);
      case Failure(e) => r := Failure(Transport(e));
    }

    method SetPower(power: int, exchange: Exchange) returns (ok: bool)
      modifies this
      ensures SessionKept()
      ensures sent == old(sent) + [HttpGet(Url(ipAddress, "setPower"), map["p" := power])]
      ensures ok == PowerAccepted(exchange)
    {
      var response := Request("setPower", map["p" := power], exchange);
      match response
      case Success(body) =>
        ok := "message" in body.fields && body.fields["message"] == "SUCCESS";
      case Failure(_) =>
        ok := false;
    }
  }
}
