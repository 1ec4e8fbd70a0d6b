/** Read-only navigation of the coordinator's data: a key-path walk, the
    diagnostic-record list and first-match search, and the location dict
    (custom_components/ha-onstar/helpers.py). */
module Helpers {
  import opened Python

  const DIAGNOSTIC_RESPONSE_PATH: seq<string> := ["commandResponse", "body", "diagnosticResponse"]
  const LOCATION_PATH: seq<string> := ["commandResponse", "body", "location"]

  // ---------------------------------------------------------------------------
  // Reference definitions: a key path that exists through nested dicts.

  /** Every key of `path` is present, each step starting from a dict. */
  predicate HasPath(j: Json, path: seq<string>)
  {
    path == [] || (j.Obj? && path[0] in j.fields && HasPath(j.fields[path[0]], path[1..]))
  }

  /** Every value met along `path` before its last key is a dict. */
  predicate DictsAlong(j: Json, path: seq<string>)
  {
    path == [] || (j.Obj? && (path[0] in j.fields ==> DictsAlong(j.fields[path[0]], path[1..])))
  }

  /** The value at the end of a path that exists. */
  function At(j: Json, path: seq<string>): Json
    requires HasPath(j, path)
  {
    if path == [] then j else At(j.fields[path[0]], path[1..])
  }

  /** A three-key path spelled out step by step. */
  lemma ThreeKeyPath(j: Json, a: string, b: string, c: string)
    ensures HasPath(j, [a, b, c]) <==>
      && j.Obj? && a in j.fields
      && j.fields[a].Obj? && b in j.fields[a].fields
      && j.fields[a].fields[b].Obj? && c in j.fields[a].fields[b].fields
    ensures HasPath(j, [a, b, c]) ==> At(j, [a, b, c]) == j.fields[a].fields[b].fields[c]
    ensures DictsAlong(j, [a, b, c]) <==>
      && j.Obj?
      && (a in j.fields ==> j.fields[a].Obj? && (b in j.fields[a].fields ==> j.fields[a].fields[b].Obj?))
  {
    var abc, bc, c1: seq<string> := [a, b, c], [b, c], [c];
    assert abc[0] == a && abc[1..] == bc && bc[0] == b && bc[1..] == c1 && c1[0] == c && c1[1..] == [];
    if j.Obj? && a in j.fields {
      var ja := j.fields[a];
      if ja.Obj? && b in ja.fields {
        var jb := ja.fields[b];
        assert HasPath(jb, c1) <==> jb.Obj? && c in jb.fields;
        assert DictsAlong(jb, c1) <==> jb.Obj?;
        if jb.Obj? && c in jb.fields {
          assert At(jb, c1) == At(jb.fields[c], []) == jb.fields[c];
          assert At(j, abc) == At(ja, bc) == At(jb, c1);
        }
      }
    }
  }

  // ---------------------------------------------------------------------------
  // get_nested_value

  /** The loop of get_nested_value: the cursor steps into a dict key by key and
      the default is returned as soon as it is not a dict or lacks the key. */
  function Walk(current: Json, path: seq<string>, default: Json): (r: Json)
    ensures r == if HasPath(current, path) then At(current, path) else default
    decreases path
  {
    if path == [] then current
    else if !current.Obj? || path[0] !in current.fields then default
    else Walk(current.fields[path[0]], path[1..], default)
  }

  /** get_nested_value(data, path, default). */
  function NestedValue(data: Json, path: seq<string>, default: Json := Null): (r: Json)
    ensures r == if !data.Null? && HasPath(data, path) then At(data, path) else default
    ensures !data.Null? && path == [] ==> r == data
  {
    if data.Null? then default else Walk(data, path, default)
  }

  lemma {:induction false} HasPathAppend(j: Json, p: seq<string>, q: seq<string>)
    requires HasPath(j, p)
    ensures HasPath(j, p + q) <==> HasPath(At(j, p), q)
    ensures HasPath(j, p + q) ==> At(j, p + q) == At(At(j, p), q)
    decreases p
  {
    if p == [] {
      assert p + q == q;
    } else {
      assert (p + q)[0] == p[0] && (p + q)[1..] == p[1..] + q;
      HasPathAppend(j.fields[p[0]], p[1..], q);
    }
  }

  /** A path that exists passes through every prefix of it. */
  lemma {:induction false} HasPathPrefix(j: Json, p: seq<string>, q: seq<string>)
    requires HasPath(j, p + q)
    ensures HasPath(j, p)
    decreases p
  {
    if p != [] {
      assert (p + q)[0] == p[0] && (p + q)[1..] == p[1..] + q;
      HasPathPrefix(j.fields[p[0]], p[1..], q);
    }
  }

  /** Dicts along `p + q` are dicts along `p`, and along `q` from the value at `p`. */
  lemma {:induction false} DictsAlongAppend(j: Json, p: seq<string>, q: seq<string>)
    requires DictsAlong(j, p + q)
    ensures DictsAlong(j, p)
    ensures HasPath(j, p) ==> DictsAlong(At(j, p), q)
    decreases p
  {
    if p == [] {
      assert p + q == q;
    } else {
      assert (p + q)[0] == p[0] && (p + q)[1..] == p[1..] + q;
      if p[0] in j.fields {
        DictsAlongAppend(j.fields[p[0]], p[1..], q);
      }
    }
  }

  lemma {:induction false} WalkMissAppend(j: Json, p: seq<string>, q: seq<string>, default: Json)
    requires !HasPath(j, p)
    ensures Walk(j, p + q, default) == default
    decreases p
  {
    assert p != [];
    assert (p + q)[0] == p[0] && (p + q)[1..] == p[1..] + q;
    if j.Obj? && p[0] in j.fields {
      WalkMissAppend(j.fields[p[0]], p[1..], q, default);
    }
  }

  /** Path composition: looking up `p + q` is looking up `q` in the value found
      at `p`, when that value is not None. */
  lemma NestedValueCompose(data: Json, p: seq<string>, q: seq<string>, default: Json)
    requires !data.Null? && HasPath(data, p) && !At(data, p).Null?
    ensures NestedValue(data, p + q, default) == NestedValue(At(data, p), q, default)
  {
    HasPathAppend(data, p, q);
  }

  /** A path that is missing stays missing however it is extended. */
  lemma NestedValueMissAppend(data: Json, p: seq<string>, q: seq<string>, default: Json)
    requires !HasPath(data, p)
    ensures NestedValue(data, p + q, default) == default
  {
    if !data.Null? {
      WalkMissAppend(data, p, q, default);
    }
  }

  // ---------------------------------------------------------------------------
  // get_diagnostic_response and get_location_data

  /** `data is None or key not in data or data[key] is None`, negated: the value
      under `key`, or None when that test short-cuts. */
  function SectionOf(data: Json, key: string): (r: Py<Option<Json>>)
    ensures r.Ok? && r.value.Some? ==> !r.value.value.Null?
    ensures data.Obj? ==> r == Ok(if key in data.fields && !data.fields[key].Null? then Some(data.fields[key]) else None)
    ensures data.Null? ==> r == Ok(None)
  {
    if data.Null? then Ok(None)
    else
      var present :- In(key, data);
      if !present then Ok(None)
      else
        var section :- Item(data, key);
        if section.Null? then Ok(None) else Ok(Some(section))
  }

  /** get_diagnostic_response(data): the diagnostic record list, or None. */
  function DiagnosticResponse(data: Json): (r: Py<Option<seq<Json>>>)
    ensures data.Null? || data.Obj? ==> r.Ok?
    ensures data.Obj? ==>
      (r.value.Some? <==>
        && "diagnostics" in data.fields
        && !data.fields["diagnostics"].Null?
        && HasPath(data.fields["diagnostics"], DIAGNOSTIC_RESPONSE_PATH)
        && At(data.fields["diagnostics"], DIAGNOSTIC_RESPONSE_PATH).Arr?)
    ensures r.Ok? && r.value.Some? ==>
      data.Obj? && "diagnostics" in data.fields && r.value.value == At(data.fields["diagnostics"], DIAGNOSTIC_RESPONSE_PATH).items
  {
    var section :- SectionOf(data, "diagnostics");
    if section.None? then Ok(None)
    else
      var response := NestedValue(section.value, DIAGNOSTIC_RESPONSE_PATH);
      if response.Arr? then Ok(Some(response.items)) else Ok(None)
  }

  /** get_location_data(data): the location dict, or None. */
  function LocationData(data: Json): (r: Py<Option<map<string, Json>>>)
    ensures data.Null? || data.Obj? ==> r.Ok?
    ensures data.Obj? ==>
      (r.value.Some? <==>
        && "location" in data.fields
        && !data.fields["location"].Null?
        && HasPath(data.fields["location"], LOCATION_PATH)
        && At(data.fields["location"], LOCATION_PATH).Obj?)
    ensures r.Ok? && r.value.Some? ==>
      data.Obj? && "location" in data.fields && r.value.value == At(data.fields["location"], LOCATION_PATH).fields
  {
    var section :- SectionOf(data, "location");
    if section.None? then Ok(None)
    else
      var location := NestedValue(section.value, LOCATION_PATH);
      if location.Obj? then Ok(Some(location.fields)) else Ok(None)
  }

  /** get_location_value(location, field, default). */
  function LocationValue(location: Option<map<string, Json>>, field: string, default: Json := Null): (r: Json)
    ensures location.Some? && field in location.value ==> r == location.value[field]
    ensures location.None? || field !in location.value ==> r == default
  {
    if location.None? || field !in location.value then default else location.value[field]
  }

  // ---------------------------------------------------------------------------
  // get_diagnostic_value

  /** The loop of get_diagnostic_value: the value of the first record that has
      the name, a truthy `diagnosticElement` and a first element holding "value";
      None when no record qualifies. */
  function FindValue(records: seq<Json>, name: string): (r: Py<Option<Json>>)
    ensures r == Ok(None) ==> forall k | 0 <= k < |records| :: !Qualifies(records[k], name)
    ensures r.Ok? && r.value.Some? ==>
      exists k | FirstQualifying(records, name, k) :: r.value.value == ValueOf(records[k], name)
    decreases |records|
  {
    if records == [] then Ok(None)
    else
      var record := records[0];
      var recordName :- Get(record, "name");
      // the first `.get` succeeded, so the record is a dict and this one cannot fail
      var elements := Get(record, "diagnosticElement").value;
      if recordName == Str(name) && Truthy(elements) then
        var first :- First(elements);
        var hasValue :- In("value", first);
        if hasValue then
          var value :- Item(first, "value");
          Ok(Some(value))
        else
          SkipRecord(records, name);
          FindValue(records[1..], name)
      else
        SkipRecord(records, name);
        FindValue(records[1..], name)
  }

  /** A record that does not qualify shifts every search result by one. */
  lemma SkipRecord(records: seq<Json>, name: string)
    requires records != [] && !Qualifies(records[0], name)
    ensures (forall k | 0 <= k < |records| - 1 :: !Qualifies(records[1..][k], name))
         ==> forall k | 0 <= k < |records| :: !Qualifies(records[k], name)
    ensures forall k | FirstQualifying(records[1..], name, k) :: FirstQualifying(records, name, k + 1)
  {
    forall k | FirstQualifying(records[1..], name, k) ensures FirstQualifying(records, name, k + 1) {
      assert records[k + 1] == records[1..][k];
      forall j | 0 <= j < k + 1 ensures !Qualifies(records[j], name) {
        if j > 0 { assert records[j] == records[1..][j - 1]; }
      }
    }
    if forall k | 0 <= k < |records| - 1 :: !Qualifies(records[1..][k], name) {
      forall k | 0 <= k < |records| ensures !Qualifies(records[k], name) {
        if k > 0 { assert records[k] == records[1..][k - 1]; }
      }
    }
  }

  /** get_diagnostic_value(diagnostics, name, default). */
  function DiagnosticValue(diagnostics: Option<seq<Json>>, name: string, default: Json := Null): (r: Py<Json>)
    ensures diagnostics.None? ==> r == Ok(default)
    ensures diagnostics.Some? ==>
      r == (match FindValue(diagnostics.value, name)
            case Raise(e) => Raise(e)
            case Ok(found) => Ok(if found.Some? then found.value else default))
  {
    if diagnostics.None? then Ok(default)
    else
      var found :- FindValue(diagnostics.value, name);
      Ok(if found.Some? then found.value else default)
  }

  // ---------------------------------------------------------------------------
  // First-match semantics on the record shape the OnStar API returns.

  function Field(j: Json, key: string): Json
  {
    if j.Obj? && key in j.fields then j.fields[key] else Null
  }

  /** A record is a dict; its diagnosticElement, when truthy, is a list whose
      first element is a dict. */
  predicate WellFormedRecord(record: Json)
  {
    && record.Obj?
    && var elements := Field(record, "diagnosticElement");
       !Truthy(elements) || (elements.Arr? && elements.items[0].Obj?)
  }

  /** The record carries `name` and a first diagnostic element with a value. */
  predicate Qualifies(record: Json, name: string)
  {
    var elements := Field(record, "diagnosticElement");
    && Field(record, "name") == Str(name)
    && elements.Arr? && elements.items != []
    && elements.items[0].Obj? && "value" in elements.items[0].fields
  }

  function ValueOf(record: Json, name: string): Json
    requires Qualifies(record, name)
  {
    Field(record, "diagnosticElement").items[0].fields["value"]
  }

  /** Record `i` is the first that qualifies. */
  predicate FirstQualifying(records: seq<Json>, name: string, i: int)
  {
    && 0 <= i < |records|
    && Qualifies(records[i], name)
    && forall j | 0 <= j < i :: !Qualifies(records[j], name)
  }

  lemma FirstQualifyingUnique(records: seq<Json>, name: string, i: int)
    requires FirstQualifying(records, name, i)
    ensures forall i' | FirstQualifying(records, name, i') :: i' == i
  {
  }

  /** On well-formed records the search never raises, returns the value of the
      first qualifying record, and skips a record that has the name but lacks
      the element structure. */
  lemma {:induction false} FindValueFirstMatch(records: seq<Json>, name: string)
    requires forall k | 0 <= k < |records| :: WellFormedRecord(records[k])
    ensures FindValue(records, name).Ok?
    ensures FindValue(records, name).value.None? <==> forall k | 0 <= k < |records| :: !Qualifies(records[k], name)
    ensures FindValue(records, name).value.Some? ==>
      exists k | FirstQualifying(records, name, k) ::
        FindValue(records, name).value.value == ValueOf(records[k], name)
    decreases |records|
  {
    if records != [] {
      var rest := records[1..];
      FindValueFirstMatch(rest, name);
      var record := records[0];
      if Qualifies(record, name) {
        assert FindValue(records, name) == Ok(Some(ValueOf(record, name)));
      } else {
        assert FindValue(records, name) == FindValue(rest, name);
        if FindValue(rest, name).value.Some? {
          var k :| FirstQualifying(rest, name, k) && FindValue(rest, name).value.value == ValueOf(rest[k], name);
          assert records[k + 1] == rest[k];
          assert forall j | 0 <= j < k + 1 :: !Qualifies(records[j], name) by {
            forall j | 0 <= j < k + 1 ensures !Qualifies(records[j], name) {
              if j > 0 { assert records[j] == rest[j - 1]; }
            }
          }
        } else {
          forall k | 0 <= k < |records| ensures !Qualifies(records[k], name) {
            if k > 0 { assert records[k] == rest[k - 1]; }
          }
        }
      }
    }
  }

  /** A record that is not a dict stops the search with AttributeError unless an
      earlier record already qualified. */
  lemma {:induction false} FindValueNonDictRaises(records: seq<Json>, name: string, k: nat)
    requires k < |records| && !records[k].Obj?
    requires forall j | 0 <= j < k :: WellFormedRecord(records[j]) && !Qualifies(records[j], name)
    ensures FindValue(records, name) == Raise(AttributeError)
    decreases k
  {
    if k > 0 {
      FindValueNonDictRaises(records[1..], name, k - 1);
    }
  }
}
