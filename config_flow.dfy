/** The configuration and options flows (custom_components/ha-onstar/config_flow.py):
    the magic PIN that turns on cheater mode, the entry title, the shaping of
    the account's vehicle list, and the two-step flow that accumulates the
    entry data. The OnStar client is a foreign library: each of its calls is an
    outcome parameter, and the device id that uuid4 would draw is a parameter
    too. */
module ConfigFlow {
  import opened Python

  const CHEATER_MODE_PIN: string := "VROOM"

  const CONF_USERNAME: string := "username"
  const CONF_PASSWORD: string := "password"
  const CONF_DEVICE_ID: string := "device_id"
  const CONF_VIN: string := "vin"
  const CONF_TOTP_SECRET: string := "totp_secret"
  const CONF_CHEATER_MODE: string := "cheater_mode"
  const CONF_PIN: string := "onstar_pin"

  const CHEATER_SUFFIX: string := " (Cheater Mode)"

  type Dict = map<string, Json>

  // ---------------------------------------------------------------------------
  // Cheater mode

  /** `data.get(CONF_PIN) == CHEATER_MODE_PIN` */
  predicate IsCheater(data: Dict)
  {
    CONF_PIN in data && data[CONF_PIN] == Str(CHEATER_MODE_PIN)
  }

  /** The in-place assignment of the cheater flag shared by validate_input and
      the options flow: the flag is set, every other key is kept. */
  function MarkCheater(data: Dict): (r: Dict)
    ensures CONF_CHEATER_MODE in r && r[CONF_CHEATER_MODE].Bool?
    ensures r[CONF_CHEATER_MODE].b <==> CONF_PIN in data && data[CONF_PIN] == Str("VROOM")
    ensures r.Keys == data.Keys + {CONF_CHEATER_MODE}
    ensures forall k | k in data && k != CONF_CHEATER_MODE :: r[k] == data[k]
  {
    data[CONF_CHEATER_MODE := Bool(IsCheater(data))]
  }

  /** The PIN handed to the OnStar client: empty in cheater mode, otherwise the
      given PIN, or empty when there is none. */
  function ActualPin(data: Dict): (r: Json)
    ensures r != Str(CHEATER_MODE_PIN)
    ensures r == Str("") || (CONF_PIN in data && r == data[CONF_PIN])
    ensures CONF_PIN in data && !IsCheater(data) ==> r == data[CONF_PIN]
  {
    if IsCheater(data) then Str("")
    else if CONF_PIN in data then data[CONF_PIN]
    else Str("")
  }

  // ---------------------------------------------------------------------------
  // Title

  /** `f"OnStar Vehicle ({vin})"`, followed by " (Cheater Mode)" in cheater mode. */
  function Title(vin: Json, cheater: bool): (r: string)
    ensures |r| == |PyStr(vin)| + 17 + (if cheater then |CHEATER_SUFFIX| else 0)
    ensures r[..16] == "OnStar Vehicle ("
    ensures r[16..16 + |PyStr(vin)|] == PyStr(vin)
    ensures r[16 + |PyStr(vin)|] == ')'
    ensures cheater ==> r[17 + |PyStr(vin)|..] == CHEATER_SUFFIX
  {
    "OnStar Vehicle (" + PyStr(vin) + ")" + (if cheater then CHEATER_SUFFIX else "")
  }

  /** The cheater title is the plain title with the suffix appended. */
  lemma TitleShape(vin: Json)
    ensures Title(vin, true) == Title(vin, false) + CHEATER_SUFFIX
  {
  }

  // ---------------------------------------------------------------------------
  // validate_input

  /** The keys validate_input subscripts to build the client. */
  predicate HasConnectKeys(data: Dict)
  {
    CONF_USERNAME in data && CONF_PASSWORD in data && CONF_DEVICE_ID in data
    && CONF_VIN in data && CONF_TOTP_SECRET in data
  }

  /** The data dict after validate_input, the PIN it hands to the client, and
      its return value. */
  datatype Validation = Validation(data: Dict, pin: Json, title: Py<string>)

  /** validate_input, given the outcome of the test call get_account_vehicles.
      Any exception in the try block, including a missing key, becomes
      CannotConnectError. */
  function ValidateInput(data: Dict, connection: Py<Json>): (r: Validation)
    ensures r.data == MarkCheater(data)
    ensures r.pin == ActualPin(data)
    ensures r.title.Ok? <==> HasConnectKeys(data) && connection.Ok?
    ensures r.title.Raise? ==> r.title.error == CannotConnectError
    ensures r.title.Ok? ==> r.title.value == Title(data[CONF_VIN], IsCheater(data))
  {
    var flagged := MarkCheater(data);
    var title :=
      if !HasConnectKeys(flagged) || connection.Raise? then Raise(CannotConnectError)
      else Ok(Title(flagged[CONF_VIN], flagged[CONF_CHEATER_MODE].b));
    Validation(flagged, ActualPin(data), title)
  }

  /** The title names cheater mode exactly when the magic PIN was given. */
  lemma ValidateTitleMode(data: Dict, connection: Py<Json>)
    requires ValidateInput(data, connection).title.Ok?
    ensures var t := ValidateInput(data, connection).title.value;
      IsCheater(data) <==> t == Title(data[CONF_VIN], false) + CHEATER_SUFFIX
  {
    TitleShape(data[CONF_VIN]);
    var plain := Title(data[CONF_VIN], false);
    assert |plain + CHEATER_SUFFIX| != |plain|;
  }

  // ---------------------------------------------------------------------------
  // get_vehicles

  /** The inner check_vehicles: falsy account data, or data without a
      "vehicles" key, raises CannotConnectError. */
  function CheckVehicles(account: Json): (r: Py<Json>)
    ensures account.Obj? ==>
      r == if account.fields != map[] && "vehicles" in account.fields then Ok(account) else Raise(CannotConnectError)
    ensures !Truthy(account) ==> r == Raise(CannotConnectError)
    ensures r.Ok? ==> r.value == account && Truthy(account)
  {
    if !Truthy(account) then Raise(CannotConnectError)
    else
      var hasVehicles :- In("vehicles", account);
      if !hasVehicles then Raise(CannotConnectError) else Ok(account)
  }

  /** A vehicle record the comprehension can shape. */
  predicate IsVehicleRecord(v: Json)
  {
    v.Obj? && "vin" in v.fields && "year" in v.fields && "make" in v.fields && "model" in v.fields
  }

  /** `f"{vehicle['year']} {vehicle['make']} {vehicle['model']}"` */
  function VehicleName(v: Json): string
    requires IsVehicleRecord(v)
  {
    PyStr(v.fields["year"]) + " " + PyStr(v.fields["make"]) + " " + PyStr(v.fields["model"])
  }

  /** One element of the comprehension. */
  function VehicleEntry(v: Json): (r: Py<Json>)
    ensures r.Ok? <==> IsVehicleRecord(v)
    ensures r.Ok? ==> r.value == Obj(map["vin" := v.fields["vin"], "name" := Str(VehicleName(v))])
  {
    var vin :- Item(v, "vin");
    var year :- Item(v, "year");
    var make :- Item(v, "make");
    var model :- Item(v, "model");
    Ok(Obj(map["vin" := vin, "name" := Str(PyStr(year) + " " + PyStr(make) + " " + PyStr(model))]))
  }

  /** The comprehension over the vehicle records: one entry per record, in
      order, failing at the first record that is not a vehicle. */
  function ShapeVehicles(records: seq<Json>): (r: Py<seq<Json>>)
    ensures r.Ok? <==> forall i | 0 <= i < |records| :: IsVehicleRecord(records[i])
    ensures r.Ok? ==> |r.value| == |records|
    ensures r.Ok? ==> forall i | 0 <= i < |records| ::
      r.value[i] == Obj(map["vin" := records[i].fields["vin"], "name" := Str(VehicleName(records[i]))])
  {
    if records == [] then Ok([])
    else
      var head :- VehicleEntry(records[0]);
      var tail :- ShapeVehicles(records[1..]);
      assert forall i | 1 <= i < |records| :: records[i] == records[1..][i - 1];
      Ok([head] + tail)
  }

  /** `account_vehicles["vehicles"]["vehicle"]` and the comprehension over it.
      The items are taken as a loop whose body subscripts each item: a
      non-empty dict or string fails at the first item, as every failure here
      does. */
  function VehicleList(account: Json): (r: Py<seq<Json>>)
    ensures r.Ok? ==>
      && account.Obj? && "vehicles" in account.fields
      && account.fields["vehicles"].Obj? && "vehicle" in account.fields["vehicles"].fields
    ensures (&& account.Obj? && "vehicles" in account.fields
             && account.fields["vehicles"].Obj? && "vehicle" in account.fields["vehicles"].fields
             && account.fields["vehicles"].fields["vehicle"].Arr?) ==>
      var records := account.fields["vehicles"].fields["vehicle"].items;
      && (r.Ok? <==> forall i | 0 <= i < |records| :: IsVehicleRecord(records[i]))
      && (r.Ok? ==> |r.value| == |records|)
      && (r.Ok? ==> forall i | 0 <= i < |records| ::
            r.value[i] == Obj(map["vin" := records[i].fields["vin"], "name" := Str(VehicleName(records[i]))]))
  {
    var vehicles :- Item(account, "vehicles");
    var list :- Item(vehicles, "vehicle");
    var records :- IterateForGet(list);
    ShapeVehicles(records)
  }

  /** The keys get_vehicles subscripts to build the client. */
  predicate HasLoginKeys(input: Dict)
  {
    CONF_USERNAME in input && CONF_PASSWORD in input && CONF_TOTP_SECRET in input
  }

  /** The user input after get_vehicles and its return value. */
  datatype Vehicles = Vehicles(input: Dict, vehicles: Py<seq<Json>>)

  /** get_vehicles, given a fresh device id and the outcome of
      get_account_vehicles. The device id is stored before anything can fail,
      and every failure becomes CannotConnectError. */
  function GetVehicles(input: Dict, deviceId: string, account: Py<Json>): (r: Vehicles)
    ensures r.input.Keys == input.Keys + {CONF_DEVICE_ID}
    ensures r.input[CONF_DEVICE_ID] == Str(deviceId)
    ensures forall k | k in input && k != CONF_DEVICE_ID :: r.input[k] == input[k]
    ensures r.vehicles.Raise? ==> r.vehicles.error == CannotConnectError
    ensures r.vehicles.Ok? <==>
      HasLoginKeys(input) && account.Ok? && CheckVehicles(account.value).Ok? && VehicleList(account.value).Ok?
    ensures r.vehicles.Ok? ==> r.vehicles == VehicleList(account.value)
  {
    var stored := input[CONF_DEVICE_ID := Str(deviceId)];
    var attempt :=
      if !HasLoginKeys(stored) || account.Raise? then Raise(CannotConnectError)
      else if CheckVehicles(account.value).Raise? then Raise(CannotConnectError)
      else VehicleList(account.value);
    Vehicles(stored, if attempt.Raise? then Raise(CannotConnectError) else attempt)
  }

  /** A well-formed account yields one entry per vehicle, in order, each
      carrying that vehicle's VIN. */
  lemma GetVehiclesShapesAll(input: Dict, deviceId: string, records: seq<Json>)
    requires HasLoginKeys(input)
    requires forall i | 0 <= i < |records| :: IsVehicleRecord(records[i])
    ensures var account := Obj(map["vehicles" := Obj(map["vehicle" := Arr(records)])]);
      var r := GetVehicles(input, deviceId, Ok(account)).vehicles;
      && r.Ok? && |r.value| == |records|
      && forall i | 0 <= i < |records| :: r.value[i].Obj? && r.value[i].fields["vin"] == records[i].fields["vin"]
  {
    var account := Obj(map["vehicles" := Obj(map["vehicle" := Arr(records)])]);
    assert "vehicles" in account.fields;
    assert VehicleList(account) == ShapeVehicles(records);
  }

  // ---------------------------------------------------------------------------
  // The flows

  /** What a flow step hands back to Home Assistant. */
  datatype FlowResult =
    | ShowForm(stepId: string, errors: map<string, string>, placeholders: map<string, string>)
    | CreateEntry(title: string, data: Dict)

  /** The error key the steps show for an exception. */
  function ErrorKey(e: Exception): string
  {
    if e == CannotConnectError then "cannot_connect" else "unknown"
  }

  /** The select_vehicle form, with the number of vehicles as a placeholder. */
  function SelectForm(errors: map<string, string>, vehicles: seq<Json>): FlowResult
  {
    ShowForm("select_vehicle", errors, map["vehicle_count" := NatToString(|vehicles|)])
  }

  class ConfigFlowHandler {
    /** `_data`: the entry data accumulated over the steps. */
    var data: Dict
    /** `_vehicles`: the shaped vehicle list of the account. */
    var vehicles: seq<Json>

    constructor ()
      ensures data == map[] && vehicles == []
    {
      data := map[];
      vehicles := [];
    }

    /** async_step_user. On success the shaped list and the user input, now
        holding the device id, are kept and the vehicle selection form is
        shown; on failure the form is shown again with an error. */
    method StepUser(input: Option<Dict>, deviceId: string, account: Py<Json>) returns (r: FlowResult)
      modifies this
      ensures input.None? ==> r == ShowForm("user", map[], map[]) && data == old(data) && vehicles == old(vehicles)
      ensures input.Some? ==> var got := GetVehicles(input.value, deviceId, account);
        if got.vehicles.Ok? then
          && vehicles == got.vehicles.value && data == got.input
          && r == SelectForm(map[], vehicles)
        else
          && vehicles == old(vehicles) && data == old(data)
          && r == ShowForm("user", map["base" := ErrorKey(got.vehicles.error)], map[])
    {
      if input.None? {
        return ShowForm("user", map[], map[]);
      }
      var got := GetVehicles(input.value, deviceId, account);
      if got.vehicles.Ok? {
        vehicles := got.vehicles.value;
        data := got.input;
        return SelectForm(map[], vehicles);
      }
      r := ShowForm("user", map["base" := ErrorKey(got.vehicles.error)], map[]);
    }

    /** async_step_select_vehicle. The selection is merged into `_data`, later
        keys overwriting earlier ones, and validate_input then flags cheater
        mode in that same dict, whether or not the connection succeeds. */
    method StepSelectVehicle(input: Option<Dict>, connection: Py<Json>) returns (r: FlowResult)
      modifies this
      ensures vehicles == old(vehicles)
      ensures input.None? ==> r == SelectForm(map[], vehicles) && data == old(data)
      ensures input.Some? ==> data == ValidateInput(old(data) + input.value, connection).data
      ensures input.Some? ==> var v := ValidateInput(old(data) + input.value, connection);
        r == if v.title.Ok? then CreateEntry(v.title.value, data)
             else SelectForm(map["base" := ErrorKey(v.title.error)], vehicles)
    {
      if input.None? {
        return SelectForm(map[], vehicles);
      }
      data := data + input.value;
      var v := ValidateInput(data, connection);
      data := v.data;
      if v.title.Ok? {
        r := CreateEntry(v.title.value, data);
      } else {
        r := SelectForm(map["base" := ErrorKey(v.title.error)], vehicles);
      }
    }
  }

  /** Selecting a vehicle: the entry data holds every earlier key the selection
      does not override, every selected key, and the cheater flag; the only
      error it can show is "cannot_connect". */
  lemma SelectVehicleMerge(data: Dict, selection: Dict, connection: Py<Json>)
    ensures var v := ValidateInput(data + selection, connection);
      && (forall k | k in selection && k != CONF_CHEATER_MODE :: v.data[k] == selection[k])
      && (forall k | k in data && k !in selection && k != CONF_CHEATER_MODE :: v.data[k] == data[k])
      && (v.title.Raise? ==> ErrorKey(v.title.error) == "cannot_connect")
  {
  }

  /** async_step_init of the options flow: the submitted options, with the
      cheater flag set from the submitted PIN, become the entry's options. */
  function OptionsInit(input: Option<Dict>, entryData: Dict): (r: FlowResult)
    ensures input.Some? ==> r.CreateEntry? && r.title == "" && r.data == MarkCheater(input.value)
    ensures input.None? ==> r.ShowForm? && r.stepId == "init" && r.errors == map[]
  {
    if input.Some? then CreateEntry("", MarkCheater(input.value))
    else
      var vin := if CONF_VIN in entryData then entryData[CONF_VIN] else Str("Unknown");
      ShowForm("init", map[], map["vehicle_vin" := PyStr(vin)])
  }

  /** The options flow and validate_input decide cheater mode alike: for the
      same submitted dict both store the same flag. */
  lemma OptionsAgreeWithSetup(input: Dict, entryData: Dict, connection: Py<Json>)
    ensures OptionsInit(Some(input), entryData).data[CONF_CHEATER_MODE]
         == ValidateInput(input, connection).data[CONF_CHEATER_MODE]
    ensures OptionsInit(Some(input), entryData).data[CONF_CHEATER_MODE] == Bool(true) <==> IsCheater(input)
  {
  }
}
