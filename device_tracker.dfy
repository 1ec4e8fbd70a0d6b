/** The vehicle's location tracker (custom_components/ha-onstar/device_tracker.py;
    custom_components/onstar/device_tracker.py has the same properties): a GPS
    tracker whose latitude and longitude are read out of the location response
    held in the coordinator's data. */
module DeviceTracker {
  import opened Python
  import opened Helpers
  import opened Entities

  datatype SourceType = Gps

  /** source_type: always GPS. */
  const SOURCE_TYPE: SourceType := Gps

  const LATITUDE: string := "latitude"
  const LONGITUDE: string := "longitude"

  /** The tracker's unique id. */
  function TrackerId(vin: string): (r: string)
    ensures |r| == |vin| + 9 && r[..|vin|] == vin && r[|vin|..] == "_location"
  {
    EntityId(vin, LOCATION_SUFFIX)
  }

  /** The keys from the coordinator data to one coordinate. */
  function CoordinatePath(field: string): seq<string>
  {
    ["location"] + LOCATION_PATH + [field]
  }

  /** The latitude and longitude properties: a chain of truthiness and `in`
      tests, then an unguarded float(). */
  function Coordinate(data: Json, field: string): (r: Py<Option<Json>>)
    ensures !Truthy(data) ==> r == Ok(None)
    ensures r.Ok? && r.value.Some? ==> ToFloat(r.value.value).Ok?
  {
    if !Truthy(data) then Ok(None)
    else
      var hasLocation :- In("location", data);
      if !hasLocation then Ok(None)
      else
        var location :- Item(data, "location");
        if !Truthy(location) then Ok(None)
        else
          var hasResponse :- In("commandResponse", location);
          if !hasResponse then Ok(None)
          else
            var response :- Item(location, "commandResponse");
            var hasBody :- In("body", response);
            if !hasBody then Ok(None)
            else
              var body :- Item(response, "body");
              var hasInner :- In("location", body);
              if !hasInner then Ok(None)
              else
                var inner :- Item(body, "location");
                var hasField :- In(field, inner);
                if !hasField then Ok(None)
                else
                  var value :- Item(inner, field);
                  var number :- ToFloat(value);
                  Ok(Some(number))
  }

  function Latitude(data: Json): (r: Py<Option<Json>>)
    ensures !Truthy(data) ==> r == Ok(None)
    ensures r.Ok? && r.value.Some? ==> ToFloat(r.value.value).Ok?
  {
    Coordinate(data, LATITUDE)
  }

  function Longitude(data: Json): (r: Py<Option<Json>>)
    ensures !Truthy(data) ==> r == Ok(None)
    ensures r.Ok? && r.value.Some? ==> ToFloat(r.value.value).Ok?
  {
    Coordinate(data, LONGITUDE)
  }

  /** The coordinate's path is the location section's path extended by the field. */
  lemma CoordinatePathSteps(data: Json, field: string)
    ensures HasPath(data, CoordinatePath(field)) <==>
      && data.Obj? && "location" in data.fields
      && HasPath(data.fields["location"], LOCATION_PATH)
      && At(data.fields["location"], LOCATION_PATH).Obj?
      && field in At(data.fields["location"], LOCATION_PATH).fields
    ensures HasPath(data, CoordinatePath(field)) ==>
      At(data, CoordinatePath(field)) == At(data.fields["location"], LOCATION_PATH).fields[field]
  {
    var path := CoordinatePath(field);
    assert path[0] == "location" && path[1..] == LOCATION_PATH + [field];
    assert [field][1..] == [];
    if data.Obj? && "location" in data.fields {
      var location := data.fields["location"];
      if HasPath(location, LOCATION_PATH + [field]) {
        HasPathPrefix(location, LOCATION_PATH, [field]);
      }
      if HasPath(location, LOCATION_PATH) {
        HasPathAppend(location, LOCATION_PATH, [field]);
      }
    }
  }

  /** A coordinate whose path exists is the float() of the value found there:
      present when float() accepts it, raised otherwise. */
  lemma CoordinatePresent(data: Json, field: string)
    requires data.Obj? && HasPath(data, CoordinatePath(field))
    ensures var value := At(data, CoordinatePath(field));
      Coordinate(data, field) == if ToFloat(value).Ok? then Ok(Some(value)) else Raise(ToFloat(value).error)
  {
    CoordinatePathSteps(data, field);
    ThreeKeyPath(data.fields["location"], "commandResponse", "body", "location");
  }

  /** A coordinate is present only when its path exists. */
  lemma CoordinateHasPath(data: Json, field: string)
    requires Coordinate(data, field).Ok? && Coordinate(data, field).value.Some?
    ensures data.Obj? && HasPath(data, CoordinatePath(field))
    ensures Coordinate(data, field).value.value == At(data, CoordinatePath(field))
  {
    CoordinatePathSteps(data, field);
    ThreeKeyPath(data.fields["location"], "commandResponse", "body", "location");
  }

  /** On dict-shaped data a missing path gives None rather than an error. */
  lemma CoordinateMissing(data: Json, field: string)
    requires data.Obj? && DictsAlong(data, CoordinatePath(field))
    requires !HasPath(data, CoordinatePath(field))
    ensures Coordinate(data, field) == Ok(None)
  {
    var path := CoordinatePath(field);
    CoordinatePathSteps(data, field);
    assert path[0] == "location" && path[1..] == LOCATION_PATH + [field];
    if "location" in data.fields {
      var location := data.fields["location"];
      DictsAlongAppend(location, LOCATION_PATH, [field]);
      ThreeKeyPath(location, "commandResponse", "body", "location");
    }
  }

  /** A location response holding a latitude and no longitude. */
  function LatitudeOnlyExample(): Json
  {
    var inner := Obj(map[LATITUDE := Num(42)]);
    var response := Obj(map["body" := Obj(map["location" := inner])]);
    Obj(map["location" := Obj(map["commandResponse" := response])])
  }

  /** The two coordinates are looked up independently: one can be present while
      the other is None. */
  lemma CoordinatesIndependent()
    ensures Latitude(LatitudeOnlyExample()).Ok? && Latitude(LatitudeOnlyExample()).value.Some?
    ensures Longitude(LatitudeOnlyExample()) == Ok(None)
  {
    var data := LatitudeOnlyExample();
    var inner := Obj(map[LATITUDE := Num(42)]);
    var body := Obj(map["location" := inner]);
    var response := Obj(map["body" := body]);
    var location := Obj(map["commandResponse" := response]);
    assert data == Obj(map["location" := location]);
    assert "location" in data.fields && Truthy(data);
    assert "commandResponse" in location.fields && Truthy(location);
    assert LATITUDE in inner.fields && LONGITUDE !in inner.fields;
  }
}
