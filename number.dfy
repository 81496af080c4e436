/** The power-limit number entity (number.py): it shows the inverter's
    on-grid power setting, marks itself unavailable when the inverter cannot
    be reached, and writes a new setting by forwarding it and reading back. */
module Number {
  import opened Wrappers
  import opened Api

  /** The entity's displayed value and availability. */
  datatype EntityState = EntityState(state: Option<int>, available: bool)

  /** The errors `async_update` absorbs by marking the entity unavailable:
      a timeout or a connection error. Anything else propagates. */
  predicate MarksUnavailable(e: PowerError): (absorbed: bool)
    ensures absorbed <==> e in {Transport(Timeout), Transport(ConnectionError)}
  {
    e.Transport? && (e.error.Timeout? || e.error.ConnectionError?)
  }

  /** One `async_update`, given what `get_power` returned or raised: the new
      entity state and the error that propagates, if any. */
  function ReadStep(e: EntityState, read: Result<int, PowerError>): (r: (EntityState, Option<PowerError>))
    ensures r.1.Some? ==> read.Failure? && r.1.value == read.error && r.0 == e
    ensures r.0.available <==> read.Success? || (e.available && r.1.Some?)
    ensures r.0.state == if read.Success? then Some(read.value) else e.state
  {
    match read
    case Success(v) => (EntityState(Some(v), true), None)
    case Failure(err) => if MarksUnavailable(err) then (e.(available := false), None) else (e, Some(err))
  }

  /** A read never makes up a value: the shown value is the one read, or the
      one shown before. */
  lemma ReadShowsReadValue(e: EntityState, read: Result<int, PowerError>)
    ensures var (e', raised) := ReadStep(e, read);
      && (read.Success? ==> e' == EntityState(Some(read.value), true) && raised.None?)
      && (read.Failure? ==> e'.state == e.state)
      && (raised.Some? <==> read.Failure? && !MarksUnavailable(read.error))
      && (raised.Some? ==> e' == e)
  {
  }

  /** The state after a run of reads. */
  function ReadRun(e: EntityState, results: seq<Result<int, PowerError>>): EntityState
    decreases |results|
  {
    if results == [] then e else ReadRun(ReadStep(e, results[0]).0, results[1..])
  }

  /** After a run of reads, the entity shows the value of the last
      successful one. */
  lemma {:induction false} ShowsLastSuccessfulRead(e: EntityState, results: seq<Result<int, PowerError>>, i: int)
    requires 0 <= i < |results| && results[i].Success?
    requires forall k | i < k < |results| :: results[k].Failure?
    ensures ReadRun(e, results).state == Some(results[i].value)
    decreases i
  {
    var e1 := ReadStep(e, results[0]).0;
    if i == 0 {
      FailedReadsKeepValue(e1, results[1..]);
    } else {
      ShowsLastSuccessfulRead(e1, results[1..], i - 1);
    }
  }

  /** A run of failed reads keeps the shown value. */
  lemma {:induction false} FailedReadsKeepValue(e: EntityState, results: seq<Result<int, PowerError>>)
    requires forall k | 0 <= k < |results| :: results[k].Failure?
    ensures ReadRun(e, results).state == e.state
    decreases |results|
  {
    if results != [] {
      FailedReadsKeepValue(ReadStep(e, results[0]).0, results[1..]);
    }
  }

  /** PowerLimit */
  class PowerLimit {
    const api: Client
    const deviceName: string
    const sensorName: string
    const sensorId: string
    var state: Option<int>
    var available: bool

    function Entity(): EntityState
      reads this
    {
      EntityState(state, available)
    }

    /** A new entity is unavailable and shows no value. */
    constructor (api: Client, deviceName: string, sensorName: string, sensorId: string)
      ensures this.api == api && this.deviceName == deviceName
      ensures this.sensorName == sensorName && this.sensorId == sensorId
      ensures state == None && !available
    {
      this.api := api;
      this.deviceName := deviceName;
      this.sensorName := sensorName;
      this.sensorId := sensorId;
      state := None;
      available := false;
    }

    /** `unique_id` */
    function UniqueId(): (id: string)
      ensures |id| == 11 + |deviceName| + |sensorId|
      ensures id[..10] == "apsystems_" && id[10..10 + |deviceName|] == deviceName
      ensures id[10 + |deviceName|] == '_' && id[11 + |deviceName|..] == sensorId
    {
      "apsystems_" + deviceName + "_" + sensorId
    }

    /** `name` */
    function Name(): (name: string)
      ensures |name| == 11 + |deviceName| + |sensorName|
      ensures name[..10] == "APsystems " && name[10..10 + |deviceName|] == deviceName
      ensures name[10 + |deviceName|] == ' ' && name[11 + |deviceName|..] == sensorName
    {
      "APsystems " + deviceName + " " + sensorName
    }

    /** `async_update`: read the power setting; a timeout or connection error
        marks the entity unavailable, any other error propagates. */
    method Update(exchange: Exchange) returns (raised: Option<PowerError>)
      modifies this, api
      ensures (Entity(), raised) == ReadStep(old(Entity()), ReadPower(exchange))
      ensures api.SessionKept()
      ensures api.sent == old(api.sent) + [HttpGet(Url(api.ipAddress, "getPower"), map[])]
    {
      var read := api.GetPower(exchange);
      raised := None;
      match read
      case Success(v) =>
        state := Some(v);
        available := true;
      case Failure(err) =>
        if MarksUnavailable(err) {
          available := false;
        } else {
          raised := Some(err);
        }
    }

    /** `async_set_native_value`: forward the value as it is, then read the
        setting back. The client's `set_power` never raises, so the entity
        is marked available and the read-back decides what it shows. */
    method SetNativeValue(value: int, setExchange: Exchange, readExchange: Exchange)
      returns (raised: Option<PowerError>)
      modifies this, api
      ensures (Entity(), raised) == ReadStep(EntityState(old(state), true), ReadPower(readExchange))
      ensures api.sent == old(api.sent) + [
        HttpGet(Url(api.ipAddress, "setPower"), map["p" := value]),
        HttpGet(Url(api.ipAddress, "getPower"), map[])]
      ensures api.SessionKept()
    {
      var _ := api.SetPower(value, setExchange);
      available := true;
      raised := Update(readExchange);
    }
  }

  /** Two entities of one device have the same unique id exactly when they
      have the same sensor id. */
  lemma UniqueIdPerSensor(p: PowerLimit, q: PowerLimit)
    requires p.deviceName == q.deviceName
    ensures p.UniqueId() == q.UniqueId() <==> p.sensorId == q.sensorId
  {
    if p.UniqueId() == q.UniqueId() {
      assert p.sensorId == p.UniqueId()[11 + |p.deviceName|..];
    }
  }

  /** Two entities with one sensor id have the same unique id exactly when
      they belong to the same device. */
  lemma UniqueIdPerDevice(p: PowerLimit, q: PowerLimit)
    requires p.sensorId == q.sensorId
    ensures p.UniqueId() == q.UniqueId() <==> p.deviceName == q.deviceName
  {
    if p.UniqueId() == q.UniqueId() {
      assert |p.deviceName| == |q.deviceName|;
      assert p.deviceName == p.UniqueId()[10..10 + |p.deviceName|];
    }
  }
}
