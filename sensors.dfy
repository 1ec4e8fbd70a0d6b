/** The sensor platform (custom_components/ha-onstar/sensor.py): which sensors
    are created for a vehicle, how each reads its value out of the coordinator's
    data, and the tire-status attribute. */
module Sensors {
  import opened Python
  import opened Helpers
  import opened Entities
  import Coordinator

  const EV_BATTERY_LEVEL: string := "EV BATTERY LEVEL"
  const TIRE_PRESSURE: string := "TIRE PRESSURE"

  // ---------------------------------------------------------------------------
  // Sensor kinds and their ids

  datatype Position = LF | RF | LR | RR

  /** The position code a tire sensor is created with. */
  function PositionCode(p: Position): string
  {
    match p
    case LF => "lf"
    case RF => "rf"
    case LR => "lr"
    case RR => "rr"
  }

  /** `position.upper()` */
  function PositionName(p: Position): (r: string)
    ensures |r| == 2 && LowerAscii(r) == PositionCode(p)
  {
    match p
    case LF => "LF"
    case RF => "RF"
    case LR => "LR"
    case RR => "RR"
  }

  /** The name of the diagnostic element for one tire. */
  function TireElementName(p: Position): string
  {
    TIRE_PRESSURE + " " + PositionName(p)
  }

  datatype SensorKind =
    | Odometer
    | BatteryLevel
    | ChargeState
    | PlugState
    | PlugVoltage
    | ChargerPowerLevel
    | ChargeCompleteTime
    | LastTripEfficiency
    | LifetimeEfficiency
    | EvRange
    | TirePressure(position: Position)

  /** The `sensor_type` each sensor passes to the base class. */
  function SensorType(k: SensorKind): string
  {
    match k
    case Odometer => "odometer"
    case BatteryLevel => "battery_level"
    case ChargeState => "charge_state"
    case PlugState => "plug_state"
    case PlugVoltage => "plug_voltage"
    case ChargerPowerLevel => "charger_power_level"
    case ChargeCompleteTime => "charge_complete_time"
    case LastTripEfficiency => "last_trip_efficiency"
    case LifetimeEfficiency => "lifetime_efficiency"
    case EvRange => "ev_range"
    case TirePressure(p) => "tire_pressure_" + PositionCode(p)
  }

  /** Reads a sensor type back; the inverse of SensorType. */
  function KindOfSensorType(t: string): (r: Option<SensorKind>)
    ensures r.Some? ==> SensorType(r.value) == t
  {
    if t == "odometer" then Some(Odometer)
    else if t == "battery_level" then Some(BatteryLevel)
    else if t == "charge_state" then Some(ChargeState)
    else if t == "plug_state" then Some(PlugState)
    else if t == "plug_voltage" then Some(PlugVoltage)
    else if t == "charger_power_level" then Some(ChargerPowerLevel)
    else if t == "charge_complete_time" then Some(ChargeCompleteTime)
    else if t == "last_trip_efficiency" then Some(LastTripEfficiency)
    else if t == "lifetime_efficiency" then Some(LifetimeEfficiency)
    else if t == "ev_range" then Some(EvRange)
    else if t == "tire_pressure_lf" then Some(TirePressure(LF))
    else if t == "tire_pressure_rf" then Some(TirePressure(RF))
    else if t == "tire_pressure_lr" then Some(TirePressure(LR))
    else if t == "tire_pressure_rr" then Some(TirePressure(RR))
    else None
  }

  lemma SensorTypeRoundTrip(k: SensorKind)
    ensures KindOfSensorType(SensorType(k)) == Some(k)
  {
    if k.TirePressure? {
      match k.position
      case LF => assert SensorType(k) == "tire_pressure_lf";
      case RF => assert SensorType(k) == "tire_pressure_rf";
      case LR => assert SensorType(k) == "tire_pressure_lr";
      case RR => assert SensorType(k) == "tire_pressure_rr";
    }
  }

  /** Two sensors of one vehicle have the same unique id only when they are of
      the same kind. */
  lemma UniqueIdsDiffer(vin: string, a: SensorKind, b: SensorKind)
    ensures EntityId(vin, SensorType(a)) == EntityId(vin, SensorType(b)) <==> a == b
  {
    EntityIdInjective(vin, SensorType(a), SensorType(b));
    SensorTypeRoundTrip(a);
    SensorTypeRoundTrip(b);
  }

  datatype Sensor = Sensor(kind: SensorKind, uniqueId: string)

  function NewSensor(vin: string, kind: SensorKind): Sensor
  {
    Sensor(kind, EntityId(vin, SensorType(kind)))
  }

  function NewSensors(vin: string, kinds: seq<SensorKind>): (r: seq<Sensor>)
    ensures |r| == |kinds| && forall i | 0 <= i < |kinds| :: r[i] == NewSensor(vin, kinds[i])
  {
    seq(|kinds|, i requires 0 <= i < |kinds| => NewSensor(vin, kinds[i]))
  }

  lemma NewSensorsAppend(vin: string, a: seq<SensorKind>, b: seq<SensorKind>)
    ensures NewSensors(vin, a + b) == NewSensors(vin, a) + NewSensors(vin, b)
  {
  }

  // ---------------------------------------------------------------------------
  // Which sensors are created

  const EV_KINDS: seq<SensorKind> := [
    BatteryLevel, ChargeState, PlugState, PlugVoltage, ChargerPowerLevel,
    ChargeCompleteTime, LastTripEfficiency, LifetimeEfficiency, EvRange]

  const TIRE_KINDS: seq<SensorKind> := [TirePressure(LF), TirePressure(RF), TirePressure(LR), TirePressure(RR)]

  /** The sensor list of async_setup_entry: the odometer, the EV sensors when the
      vehicle is electric, then the four tires. */
  function Lineup(isEv: bool): (r: seq<SensorKind>)
    ensures |r| == if isEv then 14 else 5
    ensures r[0] == Odometer
    ensures r[|r| - 4..] == TIRE_KINDS
  {
    [Odometer] + (if isEv then EV_KINDS else []) + TIRE_KINDS
  }

  /** The EV sensors are exactly the ones between the odometer and the tires. */
  lemma LineupShape(isEv: bool)
    ensures isEv ==> Lineup(isEv)[1..10] == EV_KINDS
    ensures forall k | k in EV_KINDS :: k in Lineup(isEv) <==> isEv
  {
    var l := Lineup(isEv);
    if !isEv {
      forall k | k in EV_KINDS ensures k !in l {
        assert l == [Odometer, TirePressure(LF), TirePressure(RF), TirePressure(LR), TirePressure(RR)];
      }
    }
  }

  lemma {:induction false} LineupKindsDistinct(isEv: bool)
    ensures forall i, j | 0 <= i < j < |Lineup(isEv)| :: Lineup(isEv)[i] != Lineup(isEv)[j]
  {
    var l := Lineup(isEv);
    if isEv {
      assert l == [Odometer, BatteryLevel, ChargeState, PlugState, PlugVoltage, ChargerPowerLevel,
        ChargeCompleteTime, LastTripEfficiency, LifetimeEfficiency, EvRange,
        TirePressure(LF), TirePressure(RF), TirePressure(LR), TirePressure(RR)];
    } else {
      assert l == [Odometer, TirePressure(LF), TirePressure(RF), TirePressure(LR), TirePressure(RR)];
    }
  }

  /** The created sensors have pairwise distinct unique ids. */
  lemma LineupIdsDistinct(vin: string, isEv: bool)
    ensures var sensors := NewSensors(vin, Lineup(isEv));
      forall i, j | 0 <= i < j < |sensors| :: sensors[i].uniqueId != sensors[j].uniqueId
  {
    var kinds := Lineup(isEv);
    LineupKindsDistinct(isEv);
    forall i, j | 0 <= i < j < |kinds|
      ensures EntityId(vin, SensorType(kinds[i])) != EntityId(vin, SensorType(kinds[j]))
    {
      UniqueIdsDiffer(vin, kinds[i], kinds[j]);
    }
  }

  // ---------------------------------------------------------------------------
  // EV detection

  /** The loop of _is_electric_vehicle: true at the first record with the name. */
  function HasRecordNamed(records: seq<Json>, name: string): (r: Py<bool>)
    ensures r == Ok(true) ==> exists k | 0 <= k < |records| :: Field(records[k], "name") == Str(name)
    ensures r == Ok(false) ==> forall k | 0 <= k < |records| :: Field(records[k], "name") != Str(name)
  {
    if records == [] then Ok(false)
    else
      var recordName :- Get(records[0], "name");
      if recordName == Str(name) then Ok(true)
      else
        assert forall k | 0 < k < |records| :: records[k] == records[1..][k - 1];
        HasRecordNamed(records[1..], name)
  }

  lemma {:induction false} HasRecordNamedIff(records: seq<Json>, name: string)
    requires forall k | 0 <= k < |records| :: records[k].Obj?
    ensures HasRecordNamed(records, name)
         == Ok(exists k | 0 <= k < |records| :: Field(records[k], "name") == Str(name))
  {
    if records != [] {
      HasRecordNamedIff(records[1..], name);
      if Field(records[0], "name") != Str(name) {
        if exists k | 0 <= k < |records| :: Field(records[k], "name") == Str(name) {
          var k :| 0 <= k < |records| && Field(records[k], "name") == Str(name);
          assert records[1..][k - 1] == records[k];
        }
      }
    }
  }

  /** _is_electric_vehicle(coordinator) */
  function IsElectricVehicle(data: Json): (r: Py<bool>)
    ensures DiagnosticResponse(data) == Ok(None) ==> r == Ok(false)
  {
    var diagnostics :- DiagnosticResponse(data);
    if diagnostics.None? then Ok(false) else HasRecordNamed(diagnostics.value, EV_BATTERY_LEVEL)
  }

  /** The vehicle is electric exactly when the diagnostic response exists and
      one of its records is named "EV BATTERY LEVEL". */
  lemma IsElectricVehicleIff(data: Json)
    requires data.Null? || data.Obj?
    requires DiagnosticResponse(data).value.Some? ==>
      forall k | 0 <= k < |DiagnosticResponse(data).value.value| :: DiagnosticResponse(data).value.value[k].Obj?
    ensures IsElectricVehicle(data) == Ok(
      && DiagnosticResponse(data).value.Some?
      && var records := DiagnosticResponse(data).value.value;
         exists k | 0 <= k < |records| :: Field(records[k], "name") == Str(EV_BATTERY_LEVEL))
  {
    if DiagnosticResponse(data).value.Some? {
      HasRecordNamedIff(DiagnosticResponse(data).value.value, EV_BATTERY_LEVEL);
    }
  }

  // ---------------------------------------------------------------------------
  // Setup

  /** What async_setup_entry adds, given the outcome of its initial
      get_diagnostics call and the coordinator data afterwards. */
  function SetupOutcome(vin: string, initial: Py<Json>, data: Json): (r: Py<seq<Sensor>>)
    ensures initial.Raise? && IsCaught(initial.error) && IsElectricVehicle(data).Ok? ==> r.Ok?
    ensures r.Raise? ==> (initial.Raise? && !IsCaught(initial.error)) || IsElectricVehicle(data).Raise?
  {
    if initial.Raise? && !IsCaught(initial.error) then Raise(initial.error)
    else
      var isEv :- IsElectricVehicle(data);
      Ok(NewSensors(vin, Lineup(isEv)))
  }

  /** The list-building part of async_setup_entry: the odometer, then the EV
      sensors when the vehicle is electric, then the four tires. */
  method BuildSensors(vin: string, isEv: bool) returns (sensors: seq<Sensor>)
    ensures sensors == NewSensors(vin, Lineup(isEv))
  {
    sensors := [NewSensor(vin, Odometer)];
    assert sensors == NewSensors(vin, [Odometer]);
    if isEv {
      sensors := sensors + NewSensors(vin, EV_KINDS);
    }
    NewSensorsAppend(vin, [Odometer], if isEv then EV_KINDS else []);
    sensors := sensors + NewSensors(vin, TIRE_KINDS);
    NewSensorsAppend(vin, [Odometer] + (if isEv then EV_KINDS else []), TIRE_KINDS);
  }

  /** async_setup_entry: one initial diagnostics request whose caught errors are
      ignored, then the sensor list. */
  method SetupEntry(coordinator: Coordinator.OnStarCoordinator, vin: string, now: int, upstream: Py<Json>)
    returns (r: Py<seq<Sensor>>)
    modifies coordinator
    ensures var step := Coordinator.GetDiagnosticsStep(old(coordinator.State()), now, upstream);
      && coordinator.State() == step.state
      && r == SetupOutcome(vin, step.result, coordinator.data)
  {
    var initial, _ := coordinator.GetDiagnostics(now, upstream);
    if initial.Raise? && !IsCaught(initial.error) {
      return Raise(initial.error);
    }
    var isEv := IsElectricVehicle(coordinator.data);
    if isEv.Raise? {
      return Raise(isEv.error);
    }
    var sensors := BuildSensors(vin, isEv.value);
    r := Ok(sensors);
  }

  // ---------------------------------------------------------------------------
  // _get_diagnostics

  /** The `except` clauses of _get_diagnostics: client, Home Assistant, value and
      key errors turn into None, anything else propagates. */
  function SwallowErrors(outcome: Py<Json>): (r: Py<Json>)
    ensures r.Raise? ==> !IsCaught(r.error)
    ensures outcome.Ok? ==> r == outcome
    ensures outcome.Raise? ==> r == if IsCaught(outcome.error) then Ok(Null) else outcome
  {
    if outcome.Raise? && IsCaught(outcome.error) then Ok(Null) else outcome
  }

  /** OnStarSensor._get_diagnostics, the first half of every sensor's
      async_update: the coordinator's get_diagnostics with the caught errors
      turned into None. */
  method UpdateSensor(coordinator: Coordinator.OnStarCoordinator, now: int, upstream: Py<Json>)
    returns (r: Py<Json>)
    modifies coordinator
    ensures var step := Coordinator.GetDiagnosticsStep(old(coordinator.State()), now, upstream);
      coordinator.State() == step.state && r == SwallowErrors(step.result)
  {
    var outcome, _ := coordinator.GetDiagnostics(now, upstream);
    r := SwallowErrors(outcome);
  }

  /** On a consistent coordinator a sensor update raises only when the upstream
      call raised something outside the caught kinds. */
  lemma UpdateSensorRaisesOnlyUncaught(s: Coordinator.CoordinatorState, now: int, upstream: Py<Json>)
    requires Coordinator.Consistent(s)
    requires upstream.Raise? ==> IsCaught(upstream.error)
    ensures SwallowErrors(Coordinator.GetDiagnosticsStep(s, now, upstream).result).Ok?
  {
  }

  // ---------------------------------------------------------------------------
  // Numeric readings

  predicate IsNumeric(k: SensorKind)
  {
    k.Odometer? || k.BatteryLevel? || k.PlugVoltage? || k.LastTripEfficiency?
    || k.LifetimeEfficiency? || k.EvRange? || k.TirePressure?
  }

  /** The record name each sensor asks get_diagnostic_value for. */
  function DiagnosticName(k: SensorKind): string
  {
    match k
    case Odometer => "ODOMETER"
    case BatteryLevel => EV_BATTERY_LEVEL
    case ChargeState => "EV CHARGE STATE"
    case PlugState => "EV PLUG STATE"
    case PlugVoltage => "EV PLUG VOLTAGE"
    case ChargerPowerLevel => "CHARGER POWER LEVEL"
    case ChargeCompleteTime => "HV BATTERY CHARGE COMPLETE TIME"
    case LastTripEfficiency => "LAST TRIP ELECTRIC ECON"
    case LifetimeEfficiency => "ENERGY EFFICIENCY"
    case EvRange => "VEHICLE RANGE"
    case TirePressure(_) => TIRE_PRESSURE
  }

  /** The third argument each numeric sensor passes to get_diagnostic_value. */
  function DefaultArgument(k: SensorKind): Json
  {
    match k
    case LifetimeEfficiency => Str("LIFETIME EFFICIENCY")
    case EvRange => Str("EV RANGE")
    case TirePressure(p) => Str(TireElementName(p))
    case _ => Null
  }

  /** A numeric native_value: None without a diagnostic response or without a
      value, the value when float() accepts it, None when float() raises. */
  function FloatReading(data: Json, name: string, default: Json): (r: Py<Option<Json>>)
    ensures DiagnosticResponse(data) == Ok(None) ==> r == Ok(None)
    ensures r.Ok? && r.value.Some? ==> ToFloat(r.value.value).Ok?
  {
    var diagnostics :- DiagnosticResponse(data);
    if diagnostics.None? then Ok(None)
    else
      var value :- DiagnosticValue(diagnostics, name, default);
      if value.Null? then Ok(None)
      else if ToFloat(value).Ok? then Ok(Some(value))
      else Ok(None)
  }

  /** A numeric sensor's native_value. A reading always comes from a
      diagnostic record, never from the default argument. */
  function NumericValue(k: SensorKind, data: Json): (r: Py<Option<Json>>)
    requires IsNumeric(k)
    ensures r.Ok? && r.value.Some? ==>
      && DiagnosticResponse(data).Ok? && DiagnosticResponse(data).value.Some?
      && FindValue(DiagnosticResponse(data).value.value, DiagnosticName(k)) == Ok(Some(r.value.value))
      && ToFloat(r.value.value).Ok?
  {
    DefaultNeverParses(k);
    FloatReading(data, DiagnosticName(k), DefaultArgument(k))
  }

  /** None of the defaults the numeric sensors pass is a number. */
  lemma DefaultNeverParses(k: SensorKind)
    requires IsNumeric(k)
    ensures DefaultArgument(k).Null? || ToFloat(DefaultArgument(k)).Raise?
  {
    match k
    case LifetimeEfficiency => LeadingLetterNotFloat("LIFETIME EFFICIENCY");
    case EvRange => LeadingLetterNotFloat("EV RANGE");
    case TirePressure(p) =>
      var s := TireElementName(p);
      assert s[0] == 'T' && s[|s| - 1] in {'F', 'R'};
      LeadingLetterNotFloat(s);
    case _ =>
  }

  lemma NumericValueOfFound(k: SensorKind, data: Json, records: seq<Json>)
    requires IsNumeric(k)
    requires DiagnosticResponse(data) == Ok(Some(records))
    requires FindValue(records, DiagnosticName(k)).Ok?
    ensures var found := FindValue(records, DiagnosticName(k)).value;
      NumericValue(k, data) == Ok(if found.Some? && ToFloat(found.value).Ok? then found else None)
  {
    DefaultNeverParses(k);
  }

  /** On well-formed records a numeric reading is the value of the first record
      that qualifies, when float() accepts it. */
  lemma NumericValueFirstMatch(k: SensorKind, data: Json, records: seq<Json>)
    requires IsNumeric(k)
    requires DiagnosticResponse(data) == Ok(Some(records))
    requires forall i | 0 <= i < |records| :: WellFormedRecord(records[i])
    ensures NumericValue(k, data).Ok?
    ensures NumericValue(k, data).value.Some? ==>
      exists i | FirstQualifying(records, DiagnosticName(k), i) ::
        NumericValue(k, data).value.value == ValueOf(records[i], DiagnosticName(k))
    ensures forall i | FirstQualifying(records, DiagnosticName(k), i) ::
      NumericValue(k, data).value == (if ToFloat(ValueOf(records[i], DiagnosticName(k))).Ok?
                                      then Some(ValueOf(records[i], DiagnosticName(k))) else None)
    ensures (forall i | 0 <= i < |records| :: !Qualifies(records[i], DiagnosticName(k))) ==>
      NumericValue(k, data) == Ok(None)
  {
    var name := DiagnosticName(k);
    FindValueFirstMatch(records, name);
    NumericValueOfFound(k, data, records);
    forall i | FirstQualifying(records, name, i)
      ensures FindValue(records, name) == Ok(Some(ValueOf(records[i], name)))
    {
      FirstQualifyingUnique(records, name, i);
    }
  }

  // ---------------------------------------------------------------------------
  // Tire pressure: the reading as written and the corrected reading

  /** All four tire sensors read the same value: the position only reaches the
      default argument, which float() never accepts. */
  lemma TireReadingIgnoresPosition(p: Position, q: Position, data: Json)
    ensures NumericValue(TirePressure(p), data) == NumericValue(TirePressure(q), data)
  {
    DefaultNeverParses(TirePressure(p));
    DefaultNeverParses(TirePressure(q));
    DefaultIrrelevant(data, TIRE_PRESSURE, DefaultArgument(TirePressure(p)), DefaultArgument(TirePressure(q)));
  }

  /** Two defaults float() rejects give the same reading. */
  lemma DefaultIrrelevant(data: Json, name: string, d1: Json, d2: Json)
    requires d1.Null? || ToFloat(d1).Raise?
    requires d2.Null? || ToFloat(d2).Raise?
    ensures FloatReading(data, name, d1) == FloatReading(data, name, d2)
  {
    var diagnostics := DiagnosticResponse(data);
    if diagnostics.Ok? && diagnostics.value.Some? {
      var found := FindValue(diagnostics.value.value, name);
      if found.Ok? && found.value.None? {
        NoValueReadsNone(data, name, d1);
        NoValueReadsNone(data, name, d2);
      } else {
        FoundValueIgnoresDefault(data, name, d1, d2);
      }
    }
  }

  /** When the search finds nothing, a default float() rejects reads as None. */
  lemma NoValueReadsNone(data: Json, name: string, d: Json)
    requires d.Null? || ToFloat(d).Raise?
    requires DiagnosticResponse(data).Ok? && DiagnosticResponse(data).value.Some?
    requires FindValue(DiagnosticResponse(data).value.value, name) == Ok(None)
    ensures FloatReading(data, name, d) == Ok(None)
  {
    assert DiagnosticValue(DiagnosticResponse(data).value, name, d) == Ok(d);
  }

  /** When the search raises or finds a value, the default plays no part. */
  lemma FoundValueIgnoresDefault(data: Json, name: string, d1: Json, d2: Json)
    requires DiagnosticResponse(data).Ok? && DiagnosticResponse(data).value.Some?
    requires !FindValue(DiagnosticResponse(data).value.value, name).Ok?
          || FindValue(DiagnosticResponse(data).value.value, name).value.Some?
    ensures FloatReading(data, name, d1) == FloatReading(data, name, d2)
  {
    var diagnostics := DiagnosticResponse(data).value;
    assert DiagnosticValue(diagnostics, name, d1) == DiagnosticValue(diagnostics, name, d2);
  }


  /** A TIRE PRESSURE record whose elements carry the left-front and the
      right-front pressures. */
  function TireExampleRecord(): Json
  {
    var lf := Obj(map["name" := Str("TIRE PRESSURE LF"), "value" := Num(230)]);
    var rf := Obj(map["name" := Str("TIRE PRESSURE RF"), "value" := Num(250)]);
    Obj(map["name" := Str(TIRE_PRESSURE), "diagnosticElement" := Arr([lf, rf])])
  }

  function TireExample(): Json
  {
    var response := Obj(map["body" := Obj(map["diagnosticResponse" := Arr([TireExampleRecord()])])]);
    Obj(map["diagnostics" := Obj(map["commandResponse" := response])])
  }

  lemma TireExampleResponse()
    ensures DiagnosticResponse(TireExample()) == Ok(Some([TireExampleRecord()]))
  {
    var diagnostics := TireExample().fields["diagnostics"];
    var path := DIAGNOSTIC_RESPONSE_PATH;
    assert path[1..] == ["body", "diagnosticResponse"] && path[1..][1..] == ["diagnosticResponse"];
    assert HasPath(diagnostics, path);
    assert At(diagnostics, path) == Arr([TireExampleRecord()]);
  }

  /** As written, the right-front sensor shows the left-front pressure. */
  lemma TireReadingAsWrittenCounterexample()
    ensures NumericValue(TirePressure(RF), TireExample()) == Ok(Some(Num(230)))
  {
    TireExampleResponse();
    var records := [TireExampleRecord()];
    assert FindValue(records, TIRE_PRESSURE) == Ok(Some(Num(230)));
  }

  /** The first element named `target` that carries a value. */
  function FindElementValue(elements: seq<Json>, target: string): (r: Py<Option<Json>>)
    ensures r.Ok? ==>
      r.value == if ElementValues(elements, target) == [] then None else Some(ElementValues(elements, target)[0])
  {
    if elements == [] then Ok(None)
    else
      var name :- Get(elements[0], "name");
      if name == Str(target) then
        if "value" in elements[0].fields then Ok(Some(elements[0].fields["value"]))
        else FindElementValue(elements[1..], target)
      else FindElementValue(elements[1..], target)
  }

  /** The value of the first element named `target` inside the TIRE PRESSURE
      records, searched record by record. */
  function FindTireValue(records: seq<Json>, target: string): (r: Py<Option<Json>>)
    ensures r.Ok? ==>
      r.value == if TireValues(records, target) == [] then None else Some(TireValues(records, target)[0])
  {
    if records == [] then Ok(None)
    else
      var name :- Get(records[0], "name");
      if name == Str(TIRE_PRESSURE) then
        var elementsJson := Get(records[0], "diagnosticElement", Arr([])).value;
        var elements :- IterateForGet(elementsJson);
        assert elements == ElementsOf(records[0]);
        var found :- FindElementValue(elements, target);
        if found.Some? then Ok(found) else FindTireValue(records[1..], target)
      else FindTireValue(records[1..], target)
  }

  /** The tire sensor reading as evidently intended: the pressure of the
      sensor's own tire. */
  function TirePressureReading(p: Position, data: Json): (r: Py<Option<Json>>)
    ensures DiagnosticResponse(data) == Ok(None) ==> r == Ok(None)
    ensures r.Ok? && r.value.Some? ==> ToFloat(r.value.value).Ok?
  {
    var diagnostics :- DiagnosticResponse(data);
    if diagnostics.None? then Ok(None)
    else
      var value :- FindTireValue(diagnostics.value, TireElementName(p));
      if value.None? || value.value.Null? then Ok(None)
      else if ToFloat(value.value).Ok? then Ok(Some(value.value))
      else Ok(None)
  }

  /** `element` is named `target` and holds `value`. */
  predicate ElementHolds(element: Json, target: string, value: Json)
  {
    element.Obj? && Field(element, "name") == Str(target)
    && "value" in element.fields && element.fields["value"] == value
  }

  /** The elements of a record (none when the key is absent or not a list). */
  function ElementsOf(record: Json): seq<Json>
  {
    var elements := Field(record, "diagnosticElement");
    if elements.Arr? then elements.items else []
  }

  lemma {:induction false} FindElementValueHolds(elements: seq<Json>, target: string)
    requires FindElementValue(elements, target).Ok? && FindElementValue(elements, target).value.Some?
    ensures exists j | 0 <= j < |elements| ::
      ElementHolds(elements[j], target, FindElementValue(elements, target).value.value)
  {
    if elements != [] {
      var found := FindElementValue(elements, target).value.value;
      if !ElementHolds(elements[0], target, found) {
        FindElementValueHolds(elements[1..], target);
        var j :| 0 <= j < |elements[1..]| && ElementHolds(elements[1..][j], target, found);
        assert elements[j + 1] == elements[1..][j];
      }
    }
  }

  lemma {:induction false} FindTireValueHolds(records: seq<Json>, target: string)
    requires FindTireValue(records, target).Ok? && FindTireValue(records, target).value.Some?
    ensures exists i, j | 0 <= i < |records| && 0 <= j < |ElementsOf(records[i])| ::
      && Field(records[i], "name") == Str(TIRE_PRESSURE)
      && ElementHolds(ElementsOf(records[i])[j], target, FindTireValue(records, target).value.value)
  {
    if records != [] {
      var found := FindTireValue(records, target).value.value;
      var record := records[0];
      var inFirst := Field(record, "name") == Str(TIRE_PRESSURE)
        && Get(record, "diagnosticElement", Arr([])).Ok?
        && IterateForGet(Get(record, "diagnosticElement", Arr([])).value).Ok?
        && var elements := IterateForGet(Get(record, "diagnosticElement", Arr([])).value).value;
           FindElementValue(elements, target).Ok? && FindElementValue(elements, target).value.Some?;
      if inFirst {
        var elements := IterateForGet(Get(record, "diagnosticElement", Arr([])).value).value;
        FindElementValueHolds(elements, target);
        var j :| 0 <= j < |elements| && ElementHolds(elements[j], target, found);
        assert elements == ElementsOf(record);
        assert 0 <= j < |ElementsOf(records[0])|;
      } else {
        FindTireValueHolds(records[1..], target);
        var i, j :| 0 <= i < |records[1..]| && 0 <= j < |ElementsOf(records[1..][i])|
          && Field(records[1..][i], "name") == Str(TIRE_PRESSURE)
          && ElementHolds(ElementsOf(records[1..][i])[j], target, found);
        assert records[i + 1] == records[1..][i];
      }
    }
  }

  /** The corrected reading of a tire is a value held by that tire's element. */
  lemma TirePressureReadingOwnElement(p: Position, data: Json)
    requires TirePressureReading(p, data).Ok? && TirePressureReading(p, data).value.Some?
    ensures DiagnosticResponse(data).Ok? && DiagnosticResponse(data).value.Some?
    ensures var records := DiagnosticResponse(data).value.value;
      exists i, j | 0 <= i < |records| && 0 <= j < |ElementsOf(records[i])| ::
        && Field(records[i], "name") == Str(TIRE_PRESSURE)
        && ElementHolds(ElementsOf(records[i])[j], TireElementName(p), TirePressureReading(p, data).value.value)
  {
    FindTireValueHolds(DiagnosticResponse(data).value.value, TireElementName(p));
  }

  /** Reference definition: the values of the elements named `target` that
      carry one, in element order. */
  function ElementValues(elements: seq<Json>, target: string): seq<Json>
  {
    if elements == [] then []
    else
      var e := elements[0];
      (if e.Obj? && Field(e, "name") == Str(target) && "value" in e.fields then [e.fields["value"]] else [])
      + ElementValues(elements[1..], target)
  }

  /** Reference definition: those values across the TIRE PRESSURE records, in
      record order and then element order. */
  function TireValues(records: seq<Json>, target: string): seq<Json>
  {
    if records == [] then []
    else
      (if Field(records[0], "name") == Str(TIRE_PRESSURE) then ElementValues(ElementsOf(records[0]), target) else [])
      + TireValues(records[1..], target)
  }

  /** A value is listed exactly when some element named `target` holds it. */
  lemma {:induction false} ElementValuesHold(elements: seq<Json>, target: string, v: Json)
    ensures v in ElementValues(elements, target) <==>
      exists j | 0 <= j < |elements| :: ElementHolds(elements[j], target, v)
  {
    if elements != [] {
      ElementValuesHold(elements[1..], target, v);
      if exists j | 0 <= j < |elements[1..]| :: ElementHolds(elements[1..][j], target, v) {
        var j :| 0 <= j < |elements[1..]| && ElementHolds(elements[1..][j], target, v);
        assert elements[j + 1] == elements[1..][j];
      }
      if exists j | 0 <= j < |elements| :: ElementHolds(elements[j], target, v) {
        var j :| 0 <= j < |elements| && ElementHolds(elements[j], target, v);
        if j > 0 {
          assert elements[1..][j - 1] == elements[j];
        }
      }
    }
  }

  /** A value is listed exactly when an element named `target` of some TIRE
      PRESSURE record holds it. */
  lemma {:induction false} TireValuesHold(records: seq<Json>, target: string, v: Json)
    ensures v in TireValues(records, target) <==>
      exists i, j | 0 <= i < |records| && 0 <= j < |ElementsOf(records[i])| ::
        && Field(records[i], "name") == Str(TIRE_PRESSURE)
        && ElementHolds(ElementsOf(records[i])[j], target, v)
  {
    if records != [] {
      ElementValuesHold(ElementsOf(records[0]), target, v);
      TireValuesHold(records[1..], target, v);
      if exists i, j | 0 <= i < |records[1..]| && 0 <= j < |ElementsOf(records[1..][i])| ::
           && Field(records[1..][i], "name") == Str(TIRE_PRESSURE)
           && ElementHolds(ElementsOf(records[1..][i])[j], target, v) {
        var i, j :| 0 <= i < |records[1..]| && 0 <= j < |ElementsOf(records[1..][i])|
          && Field(records[1..][i], "name") == Str(TIRE_PRESSURE)
          && ElementHolds(ElementsOf(records[1..][i])[j], target, v);
        assert records[i + 1] == records[1..][i];
      }
      if exists i, j | 0 <= i < |records| && 0 <= j < |ElementsOf(records[i])| ::
           && Field(records[i], "name") == Str(TIRE_PRESSURE)
           && ElementHolds(ElementsOf(records[i])[j], target, v) {
        var i, j :| 0 <= i < |records| && 0 <= j < |ElementsOf(records[i])|
          && Field(records[i], "name") == Str(TIRE_PRESSURE)
          && ElementHolds(ElementsOf(records[i])[j], target, v);
        if i > 0 {
          assert records[1..][i - 1] == records[i];
        }
      }
    }
  }

  /** On dict elements the search finds the first listed value. */
  lemma {:induction false} FindElementValueIsFirst(elements: seq<Json>, target: string)
    requires forall j | 0 <= j < |elements| :: elements[j].Obj?
    ensures var values := ElementValues(elements, target);
      FindElementValue(elements, target) == Ok(if values == [] then None else Some(values[0]))
  {
    if elements != [] {
      FindElementValueIsFirst(elements[1..], target);
    }
  }

  /** On well-formed records the search finds the first value of an element
      named `target` in a TIRE PRESSURE record. */
  lemma {:induction false} FindTireValueIsFirst(records: seq<Json>, target: string)
    requires forall i | 0 <= i < |records| :: WellFormedTireRecord(records[i])
    ensures var values := TireValues(records, target);
      FindTireValue(records, target) == Ok(if values == [] then None else Some(values[0]))
  {
    if records != [] {
      var record := records[0];
      FindTireValueIsFirst(records[1..], target);
      if Field(record, "name") == Str(TIRE_PRESSURE) {
        var elements := ElementsOf(record);
        assert IterateForGet(Get(record, "diagnosticElement", Arr([])).value) == Ok(elements);
        FindElementValueIsFirst(elements, target);
      }
    }
  }

  /** The corrected reading of a tire is the first value held by an element
      named for that tire (record order, then element order), when float()
      accepts it; None when there is no such value, or it is None or not a
      number. */
  lemma TirePressureReadingIsFirstValue(p: Position, data: Json, records: seq<Json>)
    requires DiagnosticResponse(data) == Ok(Some(records))
    requires forall i | 0 <= i < |records| :: WellFormedTireRecord(records[i])
    ensures var values := TireValues(records, TireElementName(p));
      TirePressureReading(p, data)
      == Ok(if values == [] || values[0].Null? || ToFloat(values[0]).Raise? then None else Some(values[0]))
  {
    var values := TireValues(records, TireElementName(p));
    FindTireValueIsFirst(records, TireElementName(p));
    TirePressureReadingOf(p, data, records, if values == [] then None else Some(values[0]));
  }

  /** The corrected reading for a known search result. */
  lemma TirePressureReadingOf(p: Position, data: Json, records: seq<Json>, found: Option<Json>)
    requires DiagnosticResponse(data) == Ok(Some(records))
    requires FindTireValue(records, TireElementName(p)) == Ok(found)
    ensures TirePressureReading(p, data)
      == Ok(if found.None? || found.value.Null? || ToFloat(found.value).Raise? then None else Some(found.value))
  {
  }

  /** Completeness: when an element named for the tire holds a number, the
      corrected reading is present, and it is the first such element's value. */
  lemma TirePressureReadingComplete(p: Position, data: Json, records: seq<Json>, i: nat, j: nat, v: Json)
    requires DiagnosticResponse(data) == Ok(Some(records))
    requires forall k | 0 <= k < |records| :: WellFormedTireRecord(records[k])
    requires i < |records| && j < |ElementsOf(records[i])|
    requires Field(records[i], "name") == Str(TIRE_PRESSURE)
    requires ElementHolds(ElementsOf(records[i])[j], TireElementName(p), v)
    ensures TireValues(records, TireElementName(p)) != []
    ensures var first := TireValues(records, TireElementName(p))[0];
      first.Num? ==> TirePressureReading(p, data) == Ok(Some(first))
  {
    TireValuesHold(records, TireElementName(p), v);
    TirePressureReadingIsFirstValue(p, data, records);
  }

  /** On the example the corrected readings tell the two tires apart. */
  lemma TirePressureReadingExample()
    ensures TirePressureReading(LF, TireExample()) == Ok(Some(Num(230)))
    ensures TirePressureReading(RF, TireExample()) == Ok(Some(Num(250)))
  {
    TireExampleResponse();
    TireExampleValues();
  }

  /** In the example record each tire finds its own element. */
  lemma TireExampleValues()
    ensures FindTireValue([TireExampleRecord()], TireElementName(LF)) == Ok(Some(Num(230)))
    ensures FindTireValue([TireExampleRecord()], TireElementName(RF)) == Ok(Some(Num(250)))
  {
    var record := TireExampleRecord();
    var elements := record.fields["diagnosticElement"].items;
    assert FindElementValue(elements, TireElementName(LF)) == Ok(Some(Num(230)));
    assert FindElementValue(elements[1..], TireElementName(RF)) == Ok(Some(Num(250)));
    assert FindElementValue(elements, TireElementName(RF)) == Ok(Some(Num(250)));
    assert IterateForGet(Get(record, "diagnosticElement", Arr([])).value) == Ok(elements);
  }


  // ---------------------------------------------------------------------------
  // Enumerated and raw readings

  const CHARGE_STATE_OPTIONS: seq<string> := ["charging", "not_charging", "fully_charged", "unknown"]
  const CHARGE_STATE_MAP: map<string, string> :=
    map["charging" := "charging", "fully_charged" := "fully_charged", "not_charging" := "not_charging"]
  const PLUG_STATE_OPTIONS: seq<string> := ["plugged", "unplugged", "unknown"]
  const PLUG_STATE_MAP: map<string, string> := map["plugged" := "plugged", "unplugged" := "unplugged"]
  const UNKNOWN: string := "unknown"

  /** The value found under `name`, or None without a response or a value. */
  function FoundValue(data: Json, name: string): (r: Py<Option<Json>>)
    ensures DiagnosticResponse(data) == Ok(None) ==> r == Ok(None)
    ensures r.Ok? && r.value.Some? ==>
      && DiagnosticResponse(data).Ok? && DiagnosticResponse(data).value.Some?
      && FindValue(DiagnosticResponse(data).value.value, name) == Ok(Some(r.value.value))
      && !r.value.value.Null?
    ensures (&& DiagnosticResponse(data).Ok? && DiagnosticResponse(data).value.Some?
             && FindValue(DiagnosticResponse(data).value.value, name).Ok?
             && FindValue(DiagnosticResponse(data).value.value, name).value.Some?
             && !FindValue(DiagnosticResponse(data).value.value, name).value.value.Null?)
      ==> r.Ok? && r.value.Some?
  {
    var diagnostics :- DiagnosticResponse(data);
    if diagnostics.None? then Ok(None)
    else
      var value :- DiagnosticValue(diagnostics, name);
      if value.Null? then Ok(None) else Ok(Some(value))
  }

  /** A state sensor: the found value translated through `table`, "unknown"
      when it is not a key. */
  function EnumReading(data: Json, name: string, table: map<string, string>): (r: Py<Option<string>>)
    ensures r.Ok? && r.value.Some? ==> r.value.value == UNKNOWN || r.value.value in table.Values
  {
    var found :- FoundValue(data, name);
    if found.None? then Ok(None)
    else
      var state :- LookupByValue(table, found.value, UNKNOWN);
      Ok(Some(state))
  }

  /** OnStarChargeStateSensor.native_value; always one of the sensor's options. */
  function ChargeStateValue(data: Json): (r: Py<Option<string>>)
    ensures r.Ok? && r.value.Some? ==> r.value.value in CHARGE_STATE_OPTIONS
    ensures DiagnosticResponse(data) == Ok(None) ==> r == Ok(None)
  {
    EnumReading(data, DiagnosticName(ChargeState), CHARGE_STATE_MAP)
  }

  /** OnStarPlugStateSensor.native_value; always one of the sensor's options. */
  function PlugStateValue(data: Json): (r: Py<Option<string>>)
    ensures r.Ok? && r.value.Some? ==> r.value.value in PLUG_STATE_OPTIONS
    ensures DiagnosticResponse(data) == Ok(None) ==> r == Ok(None)
  {
    EnumReading(data, DiagnosticName(PlugState), PLUG_STATE_MAP)
  }

  /** A found charge state is kept when it is one of the three known states and
      is otherwise "unknown"; a list or dict value is unhashable. */
  lemma ChargeStateNormalises(data: Json, value: Json)
    requires FoundValue(data, DiagnosticName(ChargeState)) == Ok(Some(value))
    ensures value.Arr? || value.Obj? ==> ChargeStateValue(data) == Raise(TypeError)
    ensures !value.Arr? && !value.Obj? ==>
      ChargeStateValue(data) == Ok(Some(
        if value.Str? && value.s in {"charging", "fully_charged", "not_charging"} then value.s else UNKNOWN))
  {
  }

  /** A found plug state is kept when it is "plugged" or "unplugged" and is
      otherwise "unknown". */
  lemma PlugStateNormalises(data: Json, value: Json)
    requires FoundValue(data, DiagnosticName(PlugState)) == Ok(Some(value))
    ensures value.Arr? || value.Obj? ==> PlugStateValue(data) == Raise(TypeError)
    ensures !value.Arr? && !value.Obj? ==>
      PlugStateValue(data) == Ok(Some(
        if value.Str? && value.s in {"plugged", "unplugged"} then value.s else UNKNOWN))
  {
  }

  /** OnStarChargerPowerLevelSensor.native_value: the found value, unconverted. */
  function ChargerPowerLevelValue(data: Json): (r: Py<Option<Json>>)
    ensures DiagnosticResponse(data) == Ok(None) ==> r == Ok(None)
    ensures r.Ok? && r.value.Some? ==>
      && DiagnosticResponse(data).Ok? && DiagnosticResponse(data).value.Some?
      && FindValue(DiagnosticResponse(data).value.value, DiagnosticName(ChargerPowerLevel)) == Ok(Some(r.value.value))
  {
    FoundValue(data, DiagnosticName(ChargerPowerLevel))
  }

  // ---------------------------------------------------------------------------
  // The tire "status" attribute

  /** The inner loop of extra_state_attributes: `status` becomes the message of
      each element named `target`. */
  function ScanElements(elements: seq<Json>, target: string, status: Json): (r: Py<Json>)
    ensures r.Ok? ==> r.value == LastOr(Messages(elements, target), status)
  {
    if elements == [] then Ok(status)
    else
      var name :- Get(elements[0], "name");
      var head := if name == Str(target) then [Field(elements[0], "message")] else [];
      LastOrAppend(head, Messages(elements[1..], target), status);
      if name == Str(target) then
        var message := Get(elements[0], "message").value;
        ScanElements(elements[1..], target, message)
      else ScanElements(elements[1..], target, status)
  }

  /** The outer loop over the records named TIRE PRESSURE. */
  function ScanRecords(records: seq<Json>, target: string, status: Json): (r: Py<Json>)
    ensures r.Ok? ==> r.value == LastOr(TireMessages(records, target), status)
  {
    if records == [] then Ok(status)
    else
      var name :- Get(records[0], "name");
      if name == Str(TIRE_PRESSURE) then
        var elementsJson := Get(records[0], "diagnosticElement", Arr([])).value;
        var elements :- IterateForGet(elementsJson);
        assert elements == ElementsOf(records[0]);
        var next :- ScanElements(elements, target, status);
        LastOrAppend(Messages(elements, target), TireMessages(records[1..], target), status);
        ScanRecords(records[1..], target, next)
      else ScanRecords(records[1..], target, status)
  }

  /** OnStarTirePressureSensor.extra_state_attributes */
  function TireStatus(data: Json, p: Position): (r: Py<map<string, Json>>)
    ensures DiagnosticResponse(data) == Ok(None) ==> r == Ok(map[])
    ensures r.Ok? && DiagnosticResponse(data).Ok? && DiagnosticResponse(data).value.Some? ==>
      var last := LastOr(TireMessages(DiagnosticResponse(data).value.value, TireElementName(p)), Null);
      r.value == if last.Null? then map[] else map["status" := last]
  {
    var diagnostics :- DiagnosticResponse(data);
    if diagnostics.None? then Ok(map[])
    else
      var status :- ScanRecords(diagnostics.value, TireElementName(p), Null);
      Ok(if status.Null? then map[] else map["status" := status])
  }

  method TireStatusAttributes(data: Json, p: Position) returns (r: Py<map<string, Json>>)
    ensures r == TireStatus(data, p)
  {
    var response := DiagnosticResponse(data);
    if response.Raise? {
      return Raise(response.error);
    }
    if response.value.None? {
      return Ok(map[]);
    }
    var records := response.value.value;
    var target := TireElementName(p);
    var status := Null;
    var i := 0;
    while i < |records|
      invariant 0 <= i <= |records|
      invariant ScanRecords(records, target, Null) == ScanRecords(records[i..], target, status)
    {
      var record := records[i];
      assert records[i..][0] == record && records[i..][1..] == records[i + 1..];
      var name := Get(record, "name");
      if name.Raise? {
        return Raise(name.error);
      }
      if name.value == Str(TIRE_PRESSURE) {
        var elementsJson := Get(record, "diagnosticElement", Arr([]));
        var elements := IterateForGet(elementsJson.value);
        if elements.Raise? {
          return Raise(elements.error);
        }
        var next := ScanElementsLoop(elements.value, target, status);
        if next.Raise? {
          return Raise(next.error);
        }
        status := next.value;
      }
      i := i + 1;
    }
    r := Ok(if status.Null? then map[] else map["status" := status]);
  }

  /** The inner loop of extra_state_attributes, over one record's elements. */
  method ScanElementsLoop(elements: seq<Json>, target: string, status: Json) returns (r: Py<Json>)
    ensures r == ScanElements(elements, target, status)
  {
    var current := status;
    var j := 0;
    while j < |elements|
      invariant 0 <= j <= |elements|
      invariant ScanElements(elements, target, status) == ScanElements(elements[j..], target, current)
    {
      var element := elements[j];
      assert elements[j..][0] == element && elements[j..][1..] == elements[j + 1..];
      var elementName := Get(element, "name");
      if elementName.Raise? {
        return Raise(elementName.error);
      }
      if elementName.value == Str(target) {
        current := Get(element, "message").value;
      }
      j := j + 1;
    }
    r := Ok(current);
  }

  /** Reference definition: the messages of the elements named `target`, in order. */
  function Messages(elements: seq<Json>, target: string): seq<Json>
  {
    if elements == [] then []
    else
      (if Field(elements[0], "name") == Str(target) then [Field(elements[0], "message")] else [])
      + Messages(elements[1..], target)
  }

  /** Reference definition: those messages across every TIRE PRESSURE record. */
  function TireMessages(records: seq<Json>, target: string): seq<Json>
  {
    if records == [] then []
    else
      (if Field(records[0], "name") == Str(TIRE_PRESSURE) then Messages(ElementsOf(records[0]), target) else [])
      + TireMessages(records[1..], target)
  }

  function LastOr(s: seq<Json>, otherwise: Json): Json
  {
    if s == [] then otherwise else s[|s| - 1]
  }

  lemma LastOrAppend(a: seq<Json>, b: seq<Json>, otherwise: Json)
    ensures LastOr(a + b, otherwise) == LastOr(b, LastOr(a, otherwise))
  {
    if b == [] { assert a + b == a; }
  }

  /** Records as the API sends them: dicts, and a TIRE PRESSURE record's
      element list, when present, a list of dicts. */
  predicate WellFormedTireRecord(record: Json)
  {
    && record.Obj?
    && (Field(record, "name") == Str(TIRE_PRESSURE) && "diagnosticElement" in record.fields ==>
          && record.fields["diagnosticElement"].Arr?
          && forall j | 0 <= j < |record.fields["diagnosticElement"].items| ::
               record.fields["diagnosticElement"].items[j].Obj?)
  }

  lemma {:induction false} ScanElementsIsLast(elements: seq<Json>, target: string, status: Json)
    requires forall j | 0 <= j < |elements| :: elements[j].Obj?
    ensures ScanElements(elements, target, status) == Ok(LastOr(Messages(elements, target), status))
  {
    if elements != [] {
      var head := if Field(elements[0], "name") == Str(target) then [Field(elements[0], "message")] else [];
      var next := if Field(elements[0], "name") == Str(target) then Field(elements[0], "message") else status;
      ScanElementsIsLast(elements[1..], target, next);
      LastOrAppend(head, Messages(elements[1..], target), status);
    }
  }

  lemma {:induction false} ScanRecordsIsLast(records: seq<Json>, target: string, status: Json)
    requires forall i | 0 <= i < |records| :: WellFormedTireRecord(records[i])
    ensures ScanRecords(records, target, status) == Ok(LastOr(TireMessages(records, target), status))
  {
    if records != [] {
      var record := records[0];
      if Field(record, "name") == Str(TIRE_PRESSURE) {
        var elements := ElementsOf(record);
        assert IterateForGet(Get(record, "diagnosticElement", Arr([])).value) == Ok(elements);
        ScanElementsIsLast(elements, target, status);
        var next := LastOr(Messages(elements, target), status);
        ScanRecordsIsLast(records[1..], target, next);
        LastOrAppend(Messages(elements, target), TireMessages(records[1..], target), status);
      } else {
        ScanRecordsIsLast(records[1..], target, status);
        assert TireMessages(records, target) == TireMessages(records[1..], target);
      }
    }
  }

  /** The status attribute is the message of the last element named for this
      tire in any TIRE PRESSURE record, and there is no attribute when there is
      no such element or its message is None. */
  lemma TireStatusIsLastMessage(data: Json, p: Position, records: seq<Json>)
    requires DiagnosticResponse(data) == Ok(Some(records))
    requires forall i | 0 <= i < |records| :: WellFormedTireRecord(records[i])
    ensures var last := LastOr(TireMessages(records, TireElementName(p)), Null);
      TireStatus(data, p) == Ok(if last.Null? then map[] else map["status" := last])
  {
    var target := TireElementName(p);
    ScanRecordsIsLast(records, target, Null);
    TireStatusOfScan(data, p, records, LastOr(TireMessages(records, target), Null));
  }

  /** The attribute map the outer loop's final status produces. */
  lemma TireStatusOfScan(data: Json, p: Position, records: seq<Json>, last: Json)
    requires DiagnosticResponse(data) == Ok(Some(records))
    requires ScanRecords(records, TireElementName(p), Null) == Ok(last)
    ensures TireStatus(data, p) == Ok(if last.Null? then map[] else map["status" := last])
  {
  }
}
