# OnStar integration for Home Assistant — a verified model

This project models the decision logic of the `ha-onstar` custom integration for Home Assistant. It also models the earlier `onstar` revision of its entity platforms. The integration talks to GM's OnStar service through the `pyonstar` client.

The model covers:

- **Coordinator** (`Coordinator`): the data-update coordinator.
  - Diagnostics are rate-limited. They are cached for 1800 seconds and fetched again only when the cache is falsy or older than that.
  - Every refresh fetches the location and publishes a `{location, diagnostics}` snapshot.
  - Client, Home Assistant, value and key errors become `UpdateFailed`.
- **JSON helpers** (`Helpers`): the read-only lookups the entities use.
  - A nested-path walk.
  - Extraction of the diagnostic list and the location section.
  - A first-match search for a named diagnostic value.
- **Sensors** (`Sensors`, `LegacySensors`):
  - Which sensors a vehicle gets, and electric-vehicle detection.
  - The numeric, enumerated and raw readings.
  - The tire "status" attribute.
  - How errors are swallowed during updates.
- **Location tracker** (`DeviceTracker`): a GPS tracker (`source_type` is always GPS) whose latitude and longitude are each read through a chain of key tests and then `float()`.
- **Door lock and remote-start switch** (`Commands`, `Lock`, `Switch`): each keeps a state flag that changes only after a command response reports `"success"`.
- **Configuration flows** (`ConfigFlow`):
  - The magic PIN that turns on "cheater mode".
  - The entry title.
  - Shaping of the account's vehicle list.
  - How the two flow steps accumulate the entry data.
- **Release script** (`BumpVersion`):
  - Semantic-version bumps.
  - The version line in `const.py`, the manifest version and the changelog entry.
  - The command-line check.

Python semantics are modelled explicitly in `Python`:

- A Python value is a `Json` datatype.
- Evaluating an expression gives `Py<T>`, which is either a value or a raised exception.
- `in`, subscripting, `.get`, `[0]`, iteration, truthiness, `str()` and `float()` each raise exactly where Python would.
- The float grammar is Python's, restricted to ASCII.

A malformed payload is therefore a modelled error path, not a precondition.

Calls into `pyonstar` (`diagnostics`, `location`, `get_account_vehicles`, `lock_door`, `unlock_door`, `start`, `cancel_start`) are outcome parameters of the operations that make them. So are the clock (`now`) and the device id that `uuid4` draws. Each coordinator operation also returns the list of upstream calls it made.

Objects whose fields the source updates are classes; each method's contract ties the new state to a step function:

- `OnStarCoordinator`, `DoorLock`, `RemoteStartSwitch`, `ConfigFlowHandler`.
- `Files`, which holds the three files the release script rewrites.

The properties are stated about the step functions.

Textually identical code in the two revisions is modelled once:

- `lock.py`, `switch.py` and `device_tracker.py`.
- `_get_diagnostics` in both `sensor.py` files.

The table cites the `ha-onstar` lines. The same properties hold for the `onstar` copies at:

- `custom_components/onstar/lock.py:45-117`
- `custom_components/onstar/switch.py:39-87`
- `custom_components/onstar/device_tracker.py:35-70`
- `custom_components/onstar/sensor.py:113-125`

The integration's own const.py defines the configuration key names and `DIAGNOSTICS_SCAN_INTERVAL`. The model repeats them as constants.

## Model

| member | source | states |
|---|---|---|
| Helpers.Walk | custom_components/ha-onstar/helpers.py:30-36 | The walk gives the value at the end of the path when every key exists in a dict along it, and the default otherwise. It returns the default as soon as the cursor is not a dict or lacks the next key. |
| Helpers.NestedValue | custom_components/ha-onstar/helpers.py:13-36 | `get_nested_value(None, p, d)` is `d`. For other data it is the value at the path when the path exists, else `d`. The empty path gives the data itself. |
| Helpers.NestedValueCompose | custom_components/ha-onstar/helpers.py:30-36 | Path composition: looking up `p + q` equals looking up `q` in the value found at `p`, provided that value exists and is not None. |
| Helpers.NestedValueMissAppend | custom_components/ha-onstar/helpers.py:31-33 | A path that is missing stays missing however it is extended. |
| Helpers.HasPathPrefix | custom_components/ha-onstar/helpers.py:31-34 | A path that exists passes through every prefix of it. |
| Helpers.SectionOf | custom_components/ha-onstar/helpers.py:49-51 | The guard `data is None or key not in data or data[key] is None` gives None for None data and for a missing or None section of a dict, and the section otherwise. |
| Helpers.DiagnosticResponse | custom_components/ha-onstar/helpers.py:49-61 | For dict data it returns a list iff `data["diagnostics"]` is non-None and `commandResponse.body.diagnosticResponse` exists and is a list; the list returned is the value at that path. Otherwise it returns None. |
| Helpers.LocationData | custom_components/ha-onstar/helpers.py:100-112 | For dict data it returns a dict iff `data["location"]` is non-None and `commandResponse.body.location` exists and is a dict; the dict returned is the value at that path. Otherwise it returns None. |
| Helpers.LocationValue | custom_components/ha-onstar/helpers.py:129-132 | `location[field]` when the location is present and has the key, else the default. |
| Helpers.DiagnosticValue | custom_components/ha-onstar/helpers.py:78-87 | The default when the list is None. Otherwise the value found by the first-match search, or the default when nothing qualifies. Errors of the search propagate. |
| Helpers.FindValue | custom_components/ha-onstar/helpers.py:81-87 | On any records, finding nothing means no record qualifies (the name, a non-empty `diagnosticElement` list, and a first element holding "value"). A value found is the value of the first qualifying record. |
| Helpers.FindValueFirstMatch | custom_components/ha-onstar/helpers.py:81-87 | On well-formed records the search never raises. It finds nothing iff no record qualifies (the name, a non-empty `diagnosticElement`, and a first element holding "value"). Otherwise it returns the value of the first qualifying record. A named record without that structure is skipped. |
| Helpers.FindValueNonDictRaises | custom_components/ha-onstar/helpers.py:81-82 | A record that is not a dict raises AttributeError (no `.get`) unless an earlier record already qualified. |
| Coordinator.FetchDiagnosticsStep | custom_components/ha-onstar/__init__.py:116-149 | One diagnostics request naming ODOMETER, EV BATTERY LEVEL and TIRE PRESSURE. On failure the state is unchanged and caught errors become UpdateFailed. On success the payload is cached and returned, and it is written to `data["diagnostics"]` only when `data` is truthy. The timestamp is untouched and consistency is preserved. |
| Coordinator.GetDiagnosticsStep | custom_components/ha-onstar/__init__.py:151-175 | No upstream call iff the cache is truthy and `now - last <= 1800`; the cached value is then returned unchanged. Otherwise exactly one fetch is made. On success the timestamp becomes `now` and the result is the new cache. On failure the cache and timestamp are unchanged. The location is never touched. |
| Coordinator.UpdateDataStep | custom_components/ha-onstar/__init__.py:177-206 | Never requests diagnostics. It calls accounts, then location. On success the location is stored and the snapshot holds it with the cached diagnostics. On any failure the state is unchanged, and caught errors become UpdateFailed. |
| Coordinator.RefreshStep | custom_components/ha-onstar/__init__.py:182-194 | A refresh stores the snapshot as `data` on success, leaves everything unchanged on failure, and preserves consistency of `data` with the cached fields. |
| Coordinator.CacheServesWithinInterval | custom_components/ha-onstar/__init__.py:153-164 | After a successful fetch of truthy diagnostics at `t1`, every request up to `t1 + 1800` inclusive is served from the cache with no upstream call and the same result. |
| Coordinator.FetchesAfterInterval | custom_components/ha-onstar/__init__.py:153-167 | Once more than 1800 s have passed since the last successful fetch, the next request fetches again. |
| Coordinator.RetriesAfterFailure | custom_components/ha-onstar/__init__.py:136-147 | A failed fetch leaves the cache stale, so the next request fetches again however soon it comes. |
| Coordinator.RefreshKeepsCacheDecision | custom_components/ha-onstar/__init__.py:182-194 | A location refresh never changes whether the next diagnostics request is served from the cache. |
| Coordinator.DataCarriesDiagnostics | custom_components/ha-onstar/__init__.py:132-135 | In a consistent state with a snapshot, `data["diagnostics"]` equals what `get_diagnostics` returns. |
| Coordinator.OnStarCoordinator.constructor | custom_components/ha-onstar/__init__.py:110-114 | A new coordinator has no data, no cached diagnostics, no location and a timestamp of 0. |
| Coordinator.OnStarCoordinator.FetchDiagnostics | custom_components/ha-onstar/__init__.py:116-149 | Updates the fields as FetchDiagnosticsStep says and keeps the consistency invariant. |
| Coordinator.OnStarCoordinator.GetDiagnostics | custom_components/ha-onstar/__init__.py:151-175 | Updates the fields as GetDiagnosticsStep says and keeps the consistency invariant. |
| Coordinator.OnStarCoordinator.UpdateData | custom_components/ha-onstar/__init__.py:177-206 | Updates the fields as UpdateDataStep says. |
| Coordinator.OnStarCoordinator.Refresh | custom_components/ha-onstar/__init__.py:182-194 | Updates the fields as RefreshStep says and keeps the consistency invariant. |
| Entities.EntityId | custom_components/ha-onstar/sensor.py:151 | The unique id is the VIN, an underscore and the suffix, in that order. |
| Entities.EntityIdInjective | custom_components/ha-onstar/sensor.py:151 | For one VIN, two ids are equal iff their suffixes are. |
| Sensors.PositionName | custom_components/ha-onstar/sensor.py:583 | The upper-cased position lower-cases back to the code the sensor was created with. |
| Sensors.KindOfSensorType | custom_components/ha-onstar/sensor.py:144-151 | Reading a sensor type back yields a kind with that type. |
| Sensors.SensorTypeRoundTrip | custom_components/ha-onstar/sensor.py:144-151 | Every sensor kind's type reads back to that kind. |
| Sensors.UniqueIdsDiffer | custom_components/ha-onstar/sensor.py:151 | Two sensors of one vehicle share a unique id iff they are of the same kind. |
| Sensors.NewSensors | custom_components/ha-onstar/sensor.py:80-113 | One sensor per kind, in order, each with its unique id. |
| Sensors.Lineup | custom_components/ha-onstar/sensor.py:80-113 | The odometer comes first and the four tires LF, RF, LR, RR come last. That is 5 sensors for a non-electric vehicle and 14 for an electric one. |
| Sensors.LineupShape | custom_components/ha-onstar/sensor.py:89-102 | The nine EV sensors sit between the odometer and the tires, and each EV sensor is created iff the vehicle is electric. |
| Sensors.LineupKindsDistinct | custom_components/ha-onstar/sensor.py:80-113 | No sensor kind is created twice. |
| Sensors.LineupIdsDistinct | custom_components/ha-onstar/sensor.py:80-113 | The created sensors have pairwise distinct unique ids. |
| Sensors.HasRecordNamed | custom_components/ha-onstar/sensor.py:128-136 | On any records, true means some record carries the name and false means none does. |
| Sensors.HasRecordNamedIff | custom_components/ha-onstar/sensor.py:128-136 | On dict records the loop returns true iff some record has the name. |
| Sensors.IsElectricVehicle | custom_components/ha-onstar/sensor.py:120-136 | False when there is no diagnostic response. |
| Sensors.IsElectricVehicleIff | custom_components/ha-onstar/sensor.py:120-136 | The vehicle is electric iff the diagnostic response exists and some record is named "EV BATTERY LEVEL". |
| Sensors.SetupOutcome | custom_components/ha-onstar/sensor.py:62-113 | Caught errors of the initial request do not stop setup. Only an uncaught error, or EV detection raising, makes setup raise. |
| Sensors.BuildSensors | custom_components/ha-onstar/sensor.py:80-113 | The list built by `extend` is exactly the lineup for the vehicle. |
| Sensors.SetupEntry | custom_components/ha-onstar/sensor.py:51-117 | Makes one get_diagnostics step on the coordinator, then adds the sensors SetupOutcome gives for the data afterwards. |
| Sensors.SwallowErrors | custom_components/ha-onstar/sensor.py:164-176 | Client, Home Assistant, value and key errors become None. Nothing caught ever escapes, and successful outcomes pass through unchanged. |
| Sensors.UpdateSensor | custom_components/ha-onstar/sensor.py:164-176 | `_get_diagnostics`: one get_diagnostics step on the coordinator, whose outcome is returned with the caught errors turned into None. |
| Sensors.UpdateSensorRaisesOnlyUncaught | custom_components/ha-onstar/sensor.py:164-176 | On a consistent coordinator, an update whose upstream errors are all of the caught kinds never raises. |
| Sensors.FloatReading | custom_components/ha-onstar/sensor.py:196-223 | A numeric reading is None without a diagnostic response. A reading that is present is one `float()` accepts. |
| Sensors.DefaultNeverParses | custom_components/ha-onstar/sensor.py:549-551 | The strings the lifetime-efficiency, EV-range and tire sensors pass as the default are never accepted by `float()`. |
| Sensors.NumericValue | custom_components/ha-onstar/sensor.py:196-223 | A numeric reading that is present always comes from a diagnostic record found by the first-match search, never from the default argument, and `float()` accepts it. |
| Sensors.NumericValueOfFound | custom_components/ha-onstar/sensor.py:243-266 | The reading is the value found when `float()` accepts it. It is None when nothing is found or when the conversion fails. |
| Sensors.NumericValueFirstMatch | custom_components/ha-onstar/sensor.py:196-223 | On well-formed records the odometer (and every numeric sensor) never raises. It shows the value of the first qualifying record when `float()` accepts it. It shows None when no record qualifies. |
| Sensors.TireReadingIgnoresPosition | custom_components/ha-onstar/sensor.py:600-603 | As written, all four tire sensors show the same reading. |
| Sensors.TireReadingAsWrittenCounterexample | custom_components/ha-onstar/sensor.py:600-603 | As written, the right-front sensor shows the left-front pressure on a record holding both. |
| Sensors.TirePressureReading | custom_components/ha-onstar/sensor.py:591-620 | The corrected reading is None without a response. A reading that is present is one `float()` accepts. |
| Sensors.TirePressureReadingOwnElement | custom_components/ha-onstar/sensor.py:591-620 | The corrected reading of a tire is a value held by an element named for that tire inside a TIRE PRESSURE record. |
| Sensors.FindElementValue | custom_components/ha-onstar/sensor.py:632-633 | When it does not raise, the search of one record's elements returns the first value held by an element named for the tire, or None when there is none. |
| Sensors.FindTireValue | custom_components/ha-onstar/sensor.py:630-633 | When it does not raise, the search over the TIRE PRESSURE records returns the first value held by an element named for the tire (record order, then element order), or None when there is none. |
| Sensors.ElementValuesHold | custom_components/ha-onstar/sensor.py:632-633 | A value is listed for a record exactly when some element named for the tire holds it. |
| Sensors.TireValuesHold | custom_components/ha-onstar/sensor.py:630-633 | A value is listed exactly when an element named for the tire in some TIRE PRESSURE record holds it. |
| Sensors.FindTireValueIsFirst | custom_components/ha-onstar/sensor.py:630-633 | On well-formed records the search never raises and returns the first listed value, or None when the list is empty. |
| Sensors.TirePressureReadingIsFirstValue | custom_components/ha-onstar/sensor.py:591-620 | On well-formed records the corrected reading is the first value held by an element named for the tire, when `float()` accepts it. It is None when there is no such value, or when it is None or not a number. |
| Sensors.TirePressureReadingComplete | custom_components/ha-onstar/sensor.py:591-620 | Completeness: whenever an element named for the tire holds a value, the search finds one, and a numeric first value is exactly the reading shown. |
| Sensors.TirePressureReadingExample | custom_components/ha-onstar/sensor.py:591-620 | On the same record the corrected readings tell the left-front (230) and right-front (250) tires apart. |
| Sensors.FoundValue | custom_components/ha-onstar/sensor.py:413-429 | None without a response or without a value. Otherwise it is the non-None value the first-match search found. |
| Sensors.EnumReading | custom_components/ha-onstar/sensor.py:290-313 | A state reading is either "unknown" or a value of the sensor's translation table. |
| Sensors.ChargeStateValue | custom_components/ha-onstar/sensor.py:274-313 | The charge state always lies in the sensor's options, and is None without a response. |
| Sensors.PlugStateValue | custom_components/ha-onstar/sensor.py:321-351 | The plug state always lies in the sensor's options, and is None without a response. |
| Sensors.ChargeStateNormalises | custom_components/ha-onstar/sensor.py:300-313 | "charging", "fully_charged" and "not_charging" pass through and any other found value becomes "unknown". A list or dict value raises TypeError (unhashable). |
| Sensors.PlugStateNormalises | custom_components/ha-onstar/sensor.py:342-351 | "plugged" and "unplugged" pass through and any other found value becomes "unknown". A list or dict value raises TypeError. |
| Sensors.ChargerPowerLevelValue | custom_components/ha-onstar/sensor.py:412-429 | The charger power level is the found value itself, unconverted, or None. |
| Sensors.TireStatusAttributes | custom_components/ha-onstar/sensor.py:622-639 | The nested loops compute TireStatus. |
| Sensors.ScanElementsLoop | custom_components/ha-onstar/sensor.py:632-634 | The inner loop computes ScanElements for one record's elements. |
| Sensors.ScanElements | custom_components/ha-onstar/sensor.py:631-634 | When the inner loop does not raise, it leaves the message of the last element named for the tire, or the previous status when there is none. |
| Sensors.ScanRecords | custom_components/ha-onstar/sensor.py:629-634 | When the two loops do not raise, they leave the last message over all TIRE PRESSURE records in order. |
| Sensors.TireStatus | custom_components/ha-onstar/sensor.py:622-639 | No attribute without a response. Otherwise, when it does not raise, the attribute is the last message named for the tire, and absent when that is None or there is none. |
| Sensors.ScanElementsIsLast | custom_components/ha-onstar/sensor.py:631-634 | On dict elements the inner loop leaves the message of the last element named for the tire, or the previous status when there is none. |
| Sensors.ScanRecordsIsLast | custom_components/ha-onstar/sensor.py:629-634 | On well-formed records the two loops leave the last message over all TIRE PRESSURE records in order. |
| Sensors.TireStatusIsLastMessage | custom_components/ha-onstar/sensor.py:622-639 | The status attribute is the message of the last element named `TIRE PRESSURE <POS>` in any TIRE PRESSURE record. It is `{}` when there is none or the message is None. |
| Sensors.LastOrAppend | custom_components/ha-onstar/sensor.py:629-634 | The last message of a concatenation is the last of the second part, falling back to the first. |
| LegacySensors.LegacyResponse | custom_components/onstar/sensor.py:149-166 | None for None data. A response is found only where the path `diagnostics.commandResponse.body.diagnosticResponse` exists, and is then the value at that path. |
| LegacySensors.LegacyIsElectricVehicle | custom_components/onstar/sensor.py:71-97 | False whenever the response path is missing. |
| LegacySensors.LegacyReading | custom_components/onstar/sensor.py:145-183 | None whenever the response path is missing. A reading that is present is one `float()` accepts, since a failing `float()` raises. |
| LegacySensors.LegacyReadingAgrees | custom_components/onstar/sensor.py:157-183 | Where both revisions find the diagnostic list they show the same odometer and battery readings. The exception is a value `float()` rejects: there the earlier revision raises and the later one shows None. |
| LegacySensors.LegacyEvAgrees | custom_components/onstar/sensor.py:82-97 | Where both revisions find the diagnostic list they agree on whether the vehicle is electric. |
| LegacySensors.LegacyMissingPath | custom_components/onstar/sensor.py:74-80 | With `data`, `data["diagnostics"]` or the response path missing, the vehicle is not electric and every reading is None. |
| LegacySensors.LegacyLineup | custom_components/onstar/sensor.py:54-65 | The earlier setup creates the odometer first: 1 sensor, or 2 for an electric vehicle, the battery sensor being created iff the vehicle is electric. |
| LegacySensors.LegacyLineupContained | custom_components/onstar/sensor.py:54-65 | Each sensor the earlier setup creates is also created by the later revision. |
| LegacySensors.SetupSensors | custom_components/onstar/sensor.py:26-68 | Caught errors of the initial request are ignored. The list built by `append` is the odometer, plus the battery sensor iff the vehicle is electric. An uncaught error propagates. |
| DeviceTracker.TrackerId | custom_components/ha-onstar/device_tracker.py:42 | The tracker's unique id is the VIN followed by `_location`. |
| DeviceTracker.Latitude | custom_components/ha-onstar/device_tracker.py:59-72 | None when the data is falsy. A latitude that is present is one `float()` accepts. |
| DeviceTracker.Longitude | custom_components/ha-onstar/device_tracker.py:74-87 | None when the data is falsy. A longitude that is present is one `float()` accepts. |
| DeviceTracker.Coordinate | custom_components/ha-onstar/device_tracker.py:59-72 | None when the data is falsy. A coordinate that is present is one `float()` accepts. |
| DeviceTracker.CoordinatePathSteps | custom_components/ha-onstar/device_tracker.py:62-71 | The coordinate's path exists iff the location section's `commandResponse.body.location` exists, is a dict and holds the field. |
| DeviceTracker.CoordinatePresent | custom_components/ha-onstar/device_tracker.py:62-71 | When the path exists, the coordinate is the value there if `float()` accepts it. Otherwise the property raises the `float()` error. |
| DeviceTracker.CoordinateHasPath | custom_components/ha-onstar/device_tracker.py:62-72 | A coordinate is present only when its full path exists, and it is the value at that path. |
| DeviceTracker.CoordinateMissing | custom_components/ha-onstar/device_tracker.py:62-72 | On dict-shaped data a missing path gives None, not an error. |
| DeviceTracker.CoordinatesIndependent | custom_components/ha-onstar/device_tracker.py:70-85 | A response holding only a latitude yields a latitude and no longitude. |
| Commands.ResponseCheck | custom_components/ha-onstar/lock.py:78-82 | The response test is true iff the response is a dict whose `commandResponse` is a dict with status "success". It raises TypeError on the shapes where `in` or string subscripting fails, and KeyError when `commandResponse` lacks `status`. |
| Commands.CommandOutcome | custom_components/ha-onstar/lock.py:72-94 | A command returns True iff the call succeeded with a success response. It raises only for uncaught upstream errors and TypeError-raising response shapes, and returns False otherwise. |
| Commands.Apply | custom_components/ha-onstar/lock.py:78-94 | The attribute a command leaves: the target after a True outcome, the previous value after False or a raised error. |
| Commands.MissingStatusFails | custom_components/ha-onstar/lock.py:81-94 | A `commandResponse` without `status` raises a caught KeyError, and the command returns False. |
| Commands.CaughtCallFails | custom_components/ha-onstar/lock.py:88-94 | A client, Home Assistant, value or key error from the call returns False, and any other error propagates unchanged. |
| Lock.DoorLock.constructor | custom_components/ha-onstar/lock.py:51-60 | A new lock's state is unknown (None), and its unique id is the VIN followed by `_door_lock`. |
| Lock.DoorLock.Lock | custom_components/ha-onstar/lock.py:72-94 | Returns the command outcome. The state becomes locked only on success and is otherwise unchanged, also when an error propagates. |
| Lock.DoorLock.Unlock | custom_components/ha-onstar/lock.py:96-118 | Returns the command outcome. The state becomes unlocked only on success and is otherwise unchanged. |
| Lock.DoorLock.Update | custom_components/ha-onstar/lock.py:120-132 | The lock state never changes. |
| Lock.LockTransitions | custom_components/ha-onstar/lock.py:78-94 | The state changes only after a success response, and then to the command's target. Any other outcome leaves it unchanged. |
| Lock.KnownAfterSuccess | custom_components/ha-onstar/lock.py:83-107 | Once known, the lock state never becomes unknown again. |
| Switch.RemoteStartSwitch.constructor | custom_components/ha-onstar/switch.py:46-54 | A new switch is off, and its unique id is the VIN followed by `_remote_start`. |
| Switch.RemoteStartSwitch.TurnOn | custom_components/ha-onstar/switch.py:66-85 | Returns the command outcome. The switch turns on only on a success response and is otherwise unchanged. |
| Switch.RemoteStartSwitch.TurnOff | custom_components/ha-onstar/switch.py:87-106 | Returns the command outcome. The switch turns off only on a success response and is otherwise unchanged. |
| Switch.OnThenOff | custom_components/ha-onstar/switch.py:66-106 | A successful turn-off leaves the switch off whatever came before. A failed one leaves it as the turn-on left it. |
| ConfigFlow.MarkCheater | custom_components/ha-onstar/config_flow.py:101-107 | The cheater flag is True iff the PIN equals "VROOM". All other keys are kept. |
| ConfigFlow.ActualPin | custom_components/ha-onstar/config_flow.py:101-107 | The PIN handed to the client is never "VROOM". It is the given PIN when not in cheater mode, and "" in cheater mode or when there is none. |
| ConfigFlow.Title | custom_components/ha-onstar/config_flow.py:128-131 | The title reads `OnStar Vehicle (`, the VIN and `)`, followed by " (Cheater Mode)" exactly in cheater mode; the VIN can be read back from it. |
| ConfigFlow.TitleShape | custom_components/ha-onstar/config_flow.py:128-131 | The cheater title is the plain title with " (Cheater Mode)" appended. |
| ConfigFlow.ValidateInput | custom_components/ha-onstar/config_flow.py:94-131 | Flags cheater mode in the data and hands the actual PIN to the client. It returns the title iff all five required keys are present and the connection succeeds, and raises CannotConnectError otherwise. |
| ConfigFlow.ValidateTitleMode | custom_components/ha-onstar/config_flow.py:128-131 | The title names cheater mode iff the magic PIN was given. |
| ConfigFlow.CheckVehicles | custom_components/ha-onstar/config_flow.py:57-62 | Falsy account data, or a dict without "vehicles", raises CannotConnectError. Data that passes is returned unchanged. |
| ConfigFlow.VehicleEntry | custom_components/ha-onstar/config_flow.py:82-85 | A record with vin, year, make and model becomes `{vin, name: "<year> <make> <model>"}`, and any other record raises. |
| ConfigFlow.ShapeVehicles | custom_components/ha-onstar/config_flow.py:81-87 | The list succeeds iff every record is a vehicle record. It then has one entry per record, in order, each carrying that record's VIN and name. |
| ConfigFlow.VehicleList | custom_components/ha-onstar/config_flow.py:81-87 | A list is returned only when `vehicles.vehicle` is present. When that is a list, the result succeeds iff every record is a vehicle record, and then has one `{vin, name}` entry per record, in order. |
| ConfigFlow.GetVehicles | custom_components/ha-onstar/config_flow.py:49-91 | The device id is always stored into the user input and every other key is kept. The shaped list is returned iff the credentials are present, the call succeeds, the account passes the check and the list can be shaped. Every failure becomes CannotConnectError. |
| ConfigFlow.GetVehiclesShapesAll | custom_components/ha-onstar/config_flow.py:81-87 | A well-formed account yields one entry per vehicle, in order, with its VIN. |
| ConfigFlow.ConfigFlowHandler.constructor | custom_components/ha-onstar/config_flow.py:139-142 | A new flow has no data and no vehicles. |
| ConfigFlow.ConfigFlowHandler.StepUser | custom_components/ha-onstar/config_flow.py:149-172 | With input, the flow keeps the vehicles and the input (now holding the device id) and shows the selection form. On failure it keeps its state and shows "cannot_connect". Without input it shows the user form. |
| ConfigFlow.ConfigFlowHandler.StepSelectVehicle | custom_components/ha-onstar/config_flow.py:174-210 | The selection is merged into `_data`, where later keys overwrite, and cheater mode is flagged there whatever the outcome. The step creates the entry with the validated title, or shows the selection form with the error key. |
| ConfigFlow.SelectVehicleMerge | custom_components/ha-onstar/config_flow.py:183-194 | After selection every selected key wins, every other earlier key survives, and the only error shown is "cannot_connect". |
| ConfigFlow.OptionsInit | custom_components/ha-onstar/config_flow.py:220-250 | Submitted options become the entry's options with the cheater flag set from the PIN. Without input the form is shown. |
| ConfigFlow.OptionsAgreeWithSetup | custom_components/ha-onstar/config_flow.py:226-229 | The options flow sets the cheater flag iff the submitted PIN is "VROOM", exactly as validate_input does. |
| BumpVersion.VersionRun | scripts/bump_version.py:21 | The longest run of digits and dots at the start of the text. |
| BumpVersion.MatchHere | scripts/bump_version.py:21 | A match is the text `VERSION = "`, a non-empty group of digits and dots, and a closing quote. |
| BumpVersion.Search | scripts/bump_version.py:21-24 | Finds nothing iff no position matches. Otherwise the group comes from the leftmost matching position. |
| BumpVersion.SearchFindsFirst | scripts/bump_version.py:21-24 | The search reports the group of the first matching position. |
| BumpVersion.SubAll | scripts/bump_version.py:47-49 | Text without a match is left unchanged. |
| BumpVersion.SubAllFrom | scripts/bump_version.py:47-49 | Up to the first match the text is copied unchanged, the match becomes the replacement, and substitution goes on after it. |
| BumpVersion.SubAllReadsBack | scripts/bump_version.py:21-49 | After replacing the version lines of a text that has one with `VERSION = "<v>"`, for a non-empty run of digits and dots `v`, the search finds `v`. |
| BumpVersion.ParseFormatRoundTrip | scripts/bump_version.py:27-43 | Splitting the formatted `major.minor.patch` on dots and converting each part gives the triple back. |
| BumpVersion.Bump | scripts/bump_version.py:30-41 | A new triple exactly for "major", "minor" and "patch", and a rejection for every other type. |
| BumpVersion.BumpIsLater | scripts/bump_version.py:30-38 | "major" gives (M+1,0,0), "minor" gives (M,m+1,0) and "patch" gives (M,m,p+1). Each is later in lexicographic order. |
| BumpVersion.LaterIsStrictOrder | scripts/bump_version.py:30-38 | Lexicographic "later" is irreflexive and transitive. |
| BumpVersion.FormattedBumpParses | scripts/bump_version.py:27-43 | The new version string parses back to the bumped triple, which is later than the old one. |
| BumpVersion.BumpedVersionReadsBack | scripts/bump_version.py:21-56 | After a bump that returns 0, the rewritten const.py text has a version line again. It parses to the bumped triple, which is later than the old version, and the manifest's "version" is that same string. |
| BumpVersion.ReplaceAllLength | scripts/bump_version.py:64-66 | Each replaced occurrence changes the length by the difference between replacement and pattern. |
| BumpVersion.ReplaceAllAbsent | scripts/bump_version.py:64-66 | Text without an occurrence is returned unchanged. |
| BumpVersion.InsertEntryBelowHeader | scripts/bump_version.py:62-66 | With the header once at the top, the new entry sits right below it and the rest follows unchanged. |
| BumpVersion.InsertEntryLength | scripts/bump_version.py:62-66 | Every `# Changelog\n` header gains exactly one entry and nothing else is inserted. |
| BumpVersion.Files.constructor | scripts/bump_version.py:20 | The three files hold the given contents. |
| BumpVersion.BumpStep | scripts/bump_version.py:17-71 | The status is 1, 0 or a raised ValueError, and only 0 changes the files. No version line gives 1. A version that is not three integers raises ValueError, whatever the type. A readable version with an unknown type gives 1. The status is 0 iff there is a readable version and the type is major, minor or patch, and then the version line, the manifest's "version" and the changelog are rewritten with the new version. |
| BumpVersion.Files.BumpVersion | scripts/bump_version.py:17-71 | Returns the status and leaves the three files exactly as BumpStep says. |
| BumpVersion.Run | scripts/bump_version.py:74-83 | Exactly one argument from {major, minor, patch} is accepted. Anything else exits with 1 and writes nothing. A valid call exits with bump_version's status and leaves the files as BumpStep says. |

## Left out

- Home Assistant wiring is not modelled:
  - platform setup and unload;
  - `hass.data`;
  - `async_write_ha_state` and `device_info`;
  - voluptuous schemas and form rendering;
  - logging.
  These only connect the integration to its host and change nothing the model tracks.
- The internals of the `pyonstar` client are not modelled. Each call is an outcome parameter, so the model says nothing about what the service returns.
- The `DataUpdateCoordinator` framework is modelled only by `RefreshStep`, which stores the snapshot on success. Scheduling, listeners and concurrency between refreshes and entity updates are not modelled; every operation is one atomic step.
- `time.time()` and `uuid.uuid4()` are parameters (`now`, `deviceId`).
- The token storage path and the `OnStar` constructor arguments are part of the foreign client call.
- Numbers are mathematical integers standing for any JSON number. `float()` is modelled as accepting or rejecting a value, by Python's float grammar on strings, and the resulting float is not computed.
- `OnStarChargeCompleteTimeSensor.native_value` is not modelled. It depends on `calculate_next_occurrence_timestamp`, which custom_components/ha-onstar/helpers.py does not define.
- The constants in custom_components/ha-onstar/const.py that no modelled code reads are not modelled: the location TTL, cheater-mode interval, backoff time and unit conversions.
- custom_components/onstar/binary_sensor.py and custom_components/onstar/config_flow.py hold no decision logic and are not modelled.
- Sensors.SetupEntry and LegacySensors.SetupSensors do not model `async_add_entities`. They return the list the source hands to it.
- LegacySensors.SetupSensors takes the outcome of the initial request as a parameter. The earlier coordinator it calls is not part of this model.
- DeviceTracker.Coordinate does not compute the float value. It returns the JSON value `float()` accepted.
- ConfigFlow.ValidateInput models the `OnStar` constructor and `get_account_vehicles` together as one outcome parameter. A missing key raises a KeyError inside the same try block, so it is modelled by a key test.
- ConfigFlow.VehicleList is modelled on the shapes the loop can meet: a non-empty dict or string in place of the vehicle list raises. Every error there becomes CannotConnectError, so the exception kind does not matter.
- Sensors.UpdateSensor models `_get_diagnostics` only. The `super().async_update()` call that each sensor's `async_update` awaits afterwards is a request to the coordinator framework for a refresh, and that framework is not modelled.
- BumpVersion.Files.BumpVersion does not model reading or serialising the JSON manifest. The manifest is a dict whose "version" key is set, and console output is not modelled.
- BumpVersion.MatchHere and BumpVersion.SubAll model the single pattern `VERSION = "([0-9\.]+)"`, not a general regular-expression engine.
- Lock.DoorLock.Update states only that nothing changes. Its body only logs, so its handlers can never run.

## Findings

| source | as written | input that shows it | evidently intended | confidence | as-written member | corrected member |
|---|---|---|---|---|---|---|
| custom_components/ha-onstar/sensor.py:600-603 | The tire sensor calls `get_diagnostic_value(diagnostics, "TIRE PRESSURE", f"TIRE PRESSURE {position}")`. The position ends up only in the `default` argument. Every tire sensor therefore shows the value of the first element of the TIRE PRESSURE record. | A TIRE PRESSURE record with elements `TIRE PRESSURE LF` = 230 and `TIRE PRESSURE RF` = 250. The right-front sensor shows 230. | Each sensor shows the value of the element named `TIRE PRESSURE <POS>` in the TIRE PRESSURE record, as its own `extra_state_attributes` (sensor.py:629-634) already looks the element up. | high (not executed) | Sensors.TireReadingAsWrittenCounterexample | Sensors.TirePressureReadingIsFirstValue |
