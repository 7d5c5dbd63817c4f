/**
 * Specification of one `acUpdate` tick (AC_RL.py:490-690): commands first, then
 * the telemetry payload, built field by field through `safe_call`, delivered by
 * UDP or, failing that, written to a file through a temporary sibling.
 */
module Publisher {
  import opened Wrappers
  import opened Json
  import opened Platform
  import opened Transport

  /** What calling a host API function does: return a value or raise. */
  datatype CallResult = Returned(v: Value) | Raised

  /** An attribute of a host API module: a function, or anything else
      (including `None`), which `safe_call` cannot use. */
  datatype Attr = Callable(call: seq<Value> -> CallResult) | NotCallable

  /** A host API module (`ac_api.tyre_info` and its siblings). */
  datatype HostModule = HostModule(attrs: map<string, Attr>)

  /** The six API modules; `None` for each when their import failed. */
  datatype Modules = Modules(
    tyreInfo: Option<HostModule>,
    carInfo: Option<HostModule>,
    carStats: Option<HostModule>,
    inputInfo: Option<HostModule>,
    lapInfo: Option<HostModule>,
    sessionInfo: Option<HostModule>)

  /** What one tick sees of the host: the modules, whether the tyre labels could
      be read and formatted (AC_RL.py:510-523), and `time.time()`. */
  datatype Tick = Tick(modules: Modules, labelsOk: bool, timestamp: real)

  /** `safe_call(mod, name, *args, default=default)`: the call's result when the
      module is loaded, has a callable `name`, and the call returns; `default`
      in every other case. It never raises. */
  function SafeCall(mod: Option<HostModule>, name: string, args: seq<Value>, default: Value): (r: Value)
    ensures mod.None? ==> r == default
    ensures mod.Some? && name !in mod.value.attrs ==> r == default
    ensures r != default ==>
      mod.Some? && name in mod.value.attrs && mod.value.attrs[name].Callable? &&
      mod.value.attrs[name].call(args) == Returned(r)
  {
    if mod.None? || name !in mod.value.attrs then default
    else match mod.value.attrs[name]
      case NotCallable => default
      case Callable(f) =>
        match f(args)
        case Raised => default
        case Returned(v) => v
  }

  /** `safe_call` with the default `None`. */
  function Sample(mod: Option<HostModule>, name: string, args: seq<Value>): Value {
    SafeCall(mod, name, args, Null)
  }

  const TyreKeys: set<string> := {"index", "wear", "dirty", "pressure", "temp_i", "temp_m",
                                  "temp_o", "slip_ratio", "slip_angle", "heading_vector",
                                  "angular_speed"}

  /** A tyre record with the given field values. */
  function Tyre(index: Value, wear: Value, dirty: Value, pressure: Value, tempI: Value, tempM: Value,
                tempO: Value, slipRatio: Value, slipAngle: Value, heading: Value, angular: Value)
    : map<string, Value>
  {
    map["index" := index, "wear" := wear, "dirty" := dirty, "pressure" := pressure,
        "temp_i" := tempI, "temp_m" := tempM, "temp_o" := tempO, "slip_ratio" := slipRatio,
        "slip_angle" := slipAngle, "heading_vector" := heading, "angular_speed" := angular]
  }

  /** The record of tyre `t` (AC_RL.py:530-564). */
  function TyreRecord(ti: Option<HostModule>, t: int): map<string, Value> {
    Tyre(Num(t),
         Sample(ti, "get_tyre_wear_value", [Num(t)]),
         Sample(ti, "get_tyre_dirty", [Num(t)]),
         Sample(ti, "get_tyre_pressure", [Num(t)]),
         Sample(ti, "get_tyre_temp", [Num(t), Str("i")]),
         Sample(ti, "get_tyre_temp", [Num(t), Str("m")]),
         Sample(ti, "get_tyre_temp", [Num(t), Str("o")]),
         Sample(ti, "get_slip_ratio", [Num(t)]),
         Sample(ti, "get_slip_angle", [Num(t)]),
         Sample(ti, "get_tyre_heading_vector", [Num(t)]),
         Sample(ti, "get_angular_speed", [Num(t)]))
  }

  /** The first `n` tyre records, in index order. */
  function TyresUpTo(ti: Option<HostModule>, n: nat): (r: seq<Value>)
    ensures |r| == n
    ensures forall t :: 0 <= t < n ==> r[t] == Obj(TyreRecord(ti, t))
  {
    if n == 0 then [] else TyresUpTo(ti, n - 1) + [Obj(TyreRecord(ti, n - 1))]
  }

  function Session(si: Option<HostModule>): map<string, Value> {
    map["session_type" := Sample(si, "get_session_type", []),
        "driver_name" := Sample(si, "get_driver_name", []),
        "track_name" := Sample(si, "get_track_name", []),
        "track_config" := Sample(si, "get_track_config", []),
        "track_length" := Sample(si, "get_track_length", []),
        "cars_count" := Sample(si, "get_cars_count", []),
        "session_status" := Sample(si, "get_session_status", []),
        "air_temp" := Sample(si, "get_air_temp", []),
        "road_temp" := Sample(si, "get_road_temp", [])]
  }

  function Car(ci: Option<HostModule>): map<string, Value> {
    map["speed_kmh" := Sample(ci, "get_speed", [Num(0), Str("kmh")]),
        "speed_mph" := Sample(ci, "get_speed", [Num(0), Str("mph")]),
        "speed_ms" := Sample(ci, "get_speed", [Num(0), Str("ms")]),
        "location" := Sample(ci, "get_location", [Num(0)]),
        "world_location" := Sample(ci, "get_world_location", [Num(0)]),
        "position" := Sample(ci, "get_position", [Num(0)]),
        "drs_available" := Sample(ci, "get_drs_available", []),
        "drs_enabled" := Sample(ci, "get_drs_enabled", []),
        "gear" := Sample(ci, "get_gear", [Num(0), Bool(true)]),
        "rpm" := Sample(ci, "get_rpm", [Num(0)]),
        "fuel" := Sample(ci, "get_fuel", []),
        "tyres_off_track" := Sample(ci, "get_tyres_off_track", []),
        "in_pit_lane" := Sample(ci, "get_car_in_pit_lane", []),
        "damage" := Sample(ci, "get_total_damage", []),
        "cg_height" := Sample(ci, "get_cg_height", [Num(0)]),
        "drive_train_speed" := Sample(ci, "get_drive_train_speed", [Num(0)]),
        "velocity" := Sample(ci, "get_velocity", []),
        "acceleration" := Sample(ci, "get_acceleration", [])]
  }

  function Inputs(ii: Option<HostModule>): map<string, Value> {
    map["gas" := Sample(ii, "get_gas_input", [Num(0)]),
        "brake" := Sample(ii, "get_brake_input", [Num(0)]),
        "clutch" := Sample(ii, "get_clutch", [Num(0)]),
        "steer" := Sample(ii, "get_steer_input", [Num(0)]),
        "last_ff" := Sample(ii, "get_last_ff", [Num(0)])]
  }

  function Lap(li: Option<HostModule>): map<string, Value> {
    map["get_current_lap_time" := Sample(li, "get_current_lap_time", [Num(0), Bool(false)]),
        "get_last_lap_time" := Sample(li, "get_last_lap_time", [Num(0), Bool(false)]),
        "get_best_lap_time" := Sample(li, "get_best_lap_time", [Num(0), Bool(false)]),
        "get_splits" := Sample(li, "get_splits", [Num(0), Bool(false)]),
        "get_split" := Sample(li, "get_split", []),
        "get_invalid" := Sample(li, "get_invalid", [Num(0)]),
        "get_lap_count" := Sample(li, "get_lap_count", [Num(0)]),
        "get_laps" := Sample(li, "get_laps", []),
        "get_lap_delta" := Sample(li, "get_lap_delta", [Num(0)]),
        "get_current_sector" := Sample(li, "get_current_sector", [])]
  }

  function Stats(cs: Option<HostModule>): map<string, Value> {
    map["has_drs" := Sample(cs, "get_has_drs", []),
        "has_ers" := Sample(cs, "get_has_ers", []),
        "has_kers" := Sample(cs, "get_has_kers", []),
        "abs_level" := Sample(cs, "abs_level", []),
        "max_rpm" := Sample(cs, "get_max_rpm", []),
        "max_fuel" := Sample(cs, "get_max_fuel", [])]
  }

  const PayloadKeys: set<string> := {"app", "timestamp", "session", "car", "inputs", "lap", "tyres", "stats"}

  /** The payload dict (AC_RL.py:633-642) from its parts. */
  function Document(timestamp: real, session: map<string, Value>, car: map<string, Value>,
                    inputs: map<string, Value>, lap: map<string, Value>, tyres: seq<Value>,
                    stats: map<string, Value>): Value {
    Obj(map["app" := Str(AppName),
            "timestamp" := Frac(timestamp),
            "session" := Obj(session),
            "car" := Obj(car),
            "inputs" := Obj(inputs),
            "lap" := Obj(lap),
            "tyres" := Arr(tyres),
            "stats" := Obj(stats)])
  }

  /** The payload of one tick, with the tyre list the loop built. */
  function Payload(m: Modules, timestamp: real, tyres: seq<Value>): Value {
    Document(timestamp, Session(m.sessionInfo), Car(m.carInfo), Inputs(m.inputInfo),
             Lap(m.lapInfo), tyres, Stats(m.carStats))
  }

  /** `docs/AC_RL_telemetry.json`, the fallback file. */
  function TelemetryPath(os: OsState): string {
    Join(DocumentsDir(os), TelemetryFilename)
  }

  /** `sendto` is attempted (a telemetry socket is held) and returns. */
  predicate SendSucceeds(w: World) {
    w.g.telemetrySock.Some? && CanSend(w.os, w.g.telemetryAddr)
  }

  /** Delivery (AC_RL.py:644-672): one datagram to the telemetry address if the
      send goes through, otherwise the payload written to the fallback file. */
  function Publish(w: World, payload: Value): World {
    if SendSucceeds(w) then w.(os := w.os.(sent := w.os.sent + [(w.g.telemetryAddr, payload)]))
    else w.(os := AtomicWrite(w.os, TelemetryPath(w.os), Json(payload)))
  }

  /** Something is published this tick: the tyre module loaded and the label
      loop ran without raising. */
  predicate Publishes(tick: Tick) {
    tick.modules.tyreInfo.Some? && tick.labelsOk
  }

  /** `acUpdate(deltaT)`: commands, then (when possible) one payload. */
  function AcUpdate(w: World, parse: seq<byte> -> Option<Value>, tick: Tick): World
    requires Valid(w)
  {
    var w1 := CheckInputFile(w, parse);
    if Publishes(tick)
    then Publish(w1, Payload(tick.modules, tick.timestamp, TyresUpTo(tick.modules.tyreInfo, 4)))
    else w1
  }

  /** Delivery touches only the sent log and the files, so the transport
      invariant survives it. */
  lemma PublishKeepsValid(w: World, payload: Value)
    requires Valid(w)
    ensures Valid(Publish(w, payload))
    ensures Publish(w, payload).g == w.g
  {
  }
}
