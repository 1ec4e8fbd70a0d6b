/** The earlier sensor platform (custom_components/onstar/sensor.py): an
    odometer and, for electric vehicles, a battery-level sensor, each reading
    the diagnostic records through inline `in` tests instead of the helper
    functions, and converting without catching float() errors. */
module LegacySensors {
  import opened Python
  import opened Helpers
  import opened Sensors

  /** The inline guard `"commandResponse" in d and "body" in d[...] and
      "diagnosticResponse" in d[...][...]` and the lookup that follows it. */
  function LegacyResponse(data: Json): (r: Py<Option<Json>>)
    ensures data.Null? ==> r == Ok(None)
    ensures r.Ok? && r.value.Some? ==>
      && data.Obj? && "diagnostics" in data.fields
      && HasPath(data.fields["diagnostics"], DIAGNOSTIC_RESPONSE_PATH)
      && r.value.value == At(data.fields["diagnostics"], DIAGNOSTIC_RESPONSE_PATH)
    ensures data.Obj? && "diagnostics" in data.fields && HasPath(data.fields["diagnostics"], DIAGNOSTIC_RESPONSE_PATH) ==>
      r == Ok(Some(At(data.fields["diagnostics"], DIAGNOSTIC_RESPONSE_PATH)))
  {
    var section :- SectionOf(data, "diagnostics");
    if section.None? then Ok(None)
    else
      var diagnostics := section.value;
      ThreeKeyPath(diagnostics, "commandResponse", "body", "diagnosticResponse");
      var hasResponse :- In("commandResponse", diagnostics);
      if !hasResponse then Ok(None)
      else
        var response :- Item(diagnostics, "commandResponse");
        var hasBody :- In("body", response);
        if !hasBody then Ok(None)
        else
          var body :- Item(response, "body");
          var hasRecords :- In("diagnosticResponse", body);
          if !hasRecords then Ok(None)
          else
            var records :- Item(body, "diagnosticResponse");
            Ok(Some(records))
  }

  /** The earlier `_is_electric_vehicle`. */
  function LegacyIsElectricVehicle(data: Json): (r: Py<bool>)
    ensures LegacyResponse(data) == Ok(None) ==> r == Ok(false)
  {
    var response :- LegacyResponse(data);
    if response.None? then Ok(false)
    else
      var records :- IterateForGet(response.value);
      HasRecordNamed(records, EV_BATTERY_LEVEL)
  }

  /** The earlier odometer and battery-level native_value: the value of the
      first qualifying record, converted by an unguarded float(). */
  function LegacyReading(data: Json, name: string): (r: Py<Option<Json>>)
    ensures LegacyResponse(data) == Ok(None) ==> r == Ok(None)
    ensures r.Ok? && r.value.Some? ==> ToFloat(r.value.value).Ok?
  {
    var response :- LegacyResponse(data);
    if response.None? then Ok(None)
    else
      var records :- IterateForGet(response.value);
      var found :- FindValue(records, name);
      if found.None? then Ok(None)
      else
        var number :- ToFloat(found.value);
        Ok(Some(number))
  }

  /** Where both revisions find a diagnostic list, they read the same
      readings, except that the earlier one raises where float() fails and the
      later one shows None. */
  lemma LegacyReadingAgrees(k: SensorKind, data: Json, records: seq<Json>)
    requires k == Odometer || k == BatteryLevel
    requires data.Obj? && DiagnosticResponse(data) == Ok(Some(records))
    ensures LegacyReading(data, DiagnosticName(k)).Ok? ==>
      NumericValue(k, data) == LegacyReading(data, DiagnosticName(k))
    ensures NumericValue(k, data).Ok? && NumericValue(k, data).value.Some? ==>
      LegacyReading(data, DiagnosticName(k)) == NumericValue(k, data)
    ensures (&& FindValue(records, DiagnosticName(k)).Ok?
             && FindValue(records, DiagnosticName(k)).value.Some?
             && ToFloat(FindValue(records, DiagnosticName(k)).value.value).Raise?) ==>
        && NumericValue(k, data) == Ok(None)
        && LegacyReading(data, DiagnosticName(k)) == Raise(ToFloat(FindValue(records, DiagnosticName(k)).value.value).error)
  {
    assert LegacyResponse(data) == Ok(Some(Arr(records)));
  }

  /** Where both revisions find a diagnostic list, they agree on whether the
      vehicle is electric. */
  lemma LegacyEvAgrees(data: Json, records: seq<Json>)
    requires data.Obj? && DiagnosticResponse(data) == Ok(Some(records))
    ensures LegacyIsElectricVehicle(data) == IsElectricVehicle(data)
  {
    assert LegacyResponse(data) == Ok(Some(Arr(records)));
  }

  /** When the response path is absent, the earlier revision reports no
      electric vehicle and no readings. */
  lemma LegacyMissingPath(data: Json, name: string)
    requires data.Obj?
    requires "diagnostics" in data.fields ==> data.fields["diagnostics"].Null? || DictsAlong(data.fields["diagnostics"], DIAGNOSTIC_RESPONSE_PATH)
    requires "diagnostics" in data.fields ==> !HasPath(data.fields["diagnostics"], DIAGNOSTIC_RESPONSE_PATH)
    ensures LegacyResponse(data) == Ok(None)
    ensures LegacyIsElectricVehicle(data) == Ok(false)
    ensures LegacyReading(data, name) == Ok(None)
  {
    if "diagnostics" in data.fields {
      ThreeKeyPath(data.fields["diagnostics"], "commandResponse", "body", "diagnosticResponse");
    }
  }

  /** The sensor list of the earlier async_setup_entry. */
  function LegacyLineup(isEv: bool): (r: seq<SensorKind>)
    ensures |r| == if isEv then 2 else 1
    ensures r[0] == Odometer
    ensures BatteryLevel in r <==> isEv
  {
    [Odometer] + (if isEv then [BatteryLevel] else [])
  }

  /** Every sensor of the earlier revision is still created by the later one. */
  lemma LegacyLineupContained(isEv: bool)
    ensures forall k | k in LegacyLineup(isEv) :: k in Lineup(isEv)
  {
    assert Lineup(isEv)[0] == Odometer;
    if isEv {
      assert Lineup(isEv)[1] == BatteryLevel;
    }
  }

  /** The earlier async_setup_entry, given the outcome of its initial
      get_diagnostics call and the coordinator data afterwards: caught errors
      are ignored and the list is built by appending. */
  method SetupSensors(vin: string, initial: Py<Json>, data: Json) returns (r: Py<seq<Sensor>>)
    ensures r.Ok? <==> (initial.Ok? || IsCaught(initial.error)) && LegacyIsElectricVehicle(data).Ok?
    ensures r.Ok? ==> r.value == NewSensors(vin, LegacyLineup(LegacyIsElectricVehicle(data).value))
    ensures initial.Raise? && !IsCaught(initial.error) ==> r == Raise(initial.error)
  {
    if initial.Raise? && !IsCaught(initial.error) {
      return Raise(initial.error);
    }
    var sensors := [NewSensor(vin, Odometer)];
    var isEv := LegacyIsElectricVehicle(data);
    if isEv.Raise? {
      return Raise(isEv.error);
    }
    if isEv.value {
      sensors := sensors + [NewSensor(vin, BatteryLevel)];
    }
    LegacySensorsBuilt(vin, isEv.value);
    r := Ok(sensors);
  }

  /** The sensors of the earlier lineup, spelled out. */
  lemma LegacySensorsBuilt(vin: string, isEv: bool)
    ensures NewSensors(vin, LegacyLineup(isEv))
         == [NewSensor(vin, Odometer)] + (if isEv then [NewSensor(vin, BatteryLevel)] else [])
  {
    if isEv {
      assert LegacyLineup(true) == [Odometer, BatteryLevel];
    } else {
      assert LegacyLineup(false) == [Odometer];
    }
  }
}
