/** The OnStar data-update coordinator
    (custom_components/ha-onstar/__init__.py): a rate-limited diagnostics cache
    beside a location refresh whose result is the `{location, diagnostics}`
    snapshot the entities read. Calls into pyonstar are outcome parameters,
    the clock is the `now` parameter, and every operation reports the upstream
    calls it made. */
module Coordinator {
  import opened Python

  /** The coordinator's refresh period (const.py line 34). */
  const SCAN_INTERVAL: int := 1800
  /** Minimum age, in seconds, before cached diagnostics are fetched again
      (const.py line 38). */
  const DIAGNOSTICS_SCAN_INTERVAL: int := 1800
  /** The items every diagnostics request names. */
  const DIAGNOSTIC_ITEMS: seq<string> := ["ODOMETER", "EV BATTERY LEVEL", "TIRE PRESSURE"]

  /** A call into the pyonstar client. */
  datatype UpstreamCall = AccountVehicles | Location | Diagnostics(items: seq<string>)

  /** The coordinator's fields: `data` is the snapshot the update framework
      stored last (None before the first refresh). */
  datatype CoordinatorState = CoordinatorState(
    data: Json,
    diagnostics: Json,
    lastDiagnosticsUpdate: int,
    location: Json)

  /** What one operation does: the new state, its outcome and the upstream
      calls it made, in order. */
  datatype Step = Step(state: CoordinatorState, result: Py<Json>, calls: seq<UpstreamCall>)

  /** The state of a coordinator that has just been built. */
  const Initial: CoordinatorState := CoordinatorState(Null, Null, 0, Null)

  /** The dict returned by `_async_update_data`. */
  function Snapshot(location: Json, diagnostics: Json): Json
  {
    Obj(map["location" := location, "diagnostics" := diagnostics])
  }

  /** The data the entities read is either absent or exactly the snapshot of
      the coordinator's cached location and diagnostics. */
  predicate Consistent(s: CoordinatorState)
  {
    s.data.Null? || s.data == Snapshot(s.location, s.diagnostics)
  }

  /** The `except` clauses of the coordinator: client, Home Assistant, value
      and key errors become UpdateFailed; anything else passes through. */
  function AsUpdateFailed(e: Exception): Exception
  {
    if IsCaught(e) then UpdateFailed else e
  }

  /** fetch_diagnostics. */
  function FetchDiagnosticsStep(s: CoordinatorState, upstream: Py<Json>): (r: Step)
    ensures r.calls == [Diagnostics(DIAGNOSTIC_ITEMS)]
    ensures upstream.Raise? ==> r.state == s && r.result.Raise?
    ensures upstream.Raise? && IsCaught(upstream.error) ==> r.result == Raise(UpdateFailed)
    ensures upstream.Raise? && !IsCaught(upstream.error) ==> r.result == upstream
    ensures upstream.Ok? ==>
      && r.state.diagnostics == upstream.value
      && r.state.lastDiagnosticsUpdate == s.lastDiagnosticsUpdate
      && r.state.location == s.location
    ensures upstream.Ok? && (s.data.Null? || s.data.Obj?) ==> r.result == upstream
    ensures upstream.Ok? && !Truthy(s.data) ==> r.state.data == s.data
    ensures upstream.Ok? && s.data.Obj? && Truthy(s.data) ==>
      r.state.data.Obj? && r.state.data.fields == s.data.fields["diagnostics" := upstream.value]
    ensures Consistent(s) ==> Consistent(r.state)
  {
    var calls := [Diagnostics(DIAGNOSTIC_ITEMS)];
    match upstream
    case Raise(e) => Step(s, Raise(AsUpdateFailed(e)), calls)
    case Ok(d) =>
      var stored := s.(diagnostics := d);
      if !Truthy(s.data) then Step(stored, Ok(d), calls)
      else if s.data.Obj? then Step(stored.(data := Obj(s.data.fields["diagnostics" := d])), Ok(d), calls)
      // item assignment with a string key on a list, string, number or bool
      else Step(stored, Raise(TypeError), calls)
  }

  /** The cache test of get_diagnostics: a fetch is needed when the cached
      diagnostics are falsy or strictly older than the scan interval. */
  predicate NeedsFetch(s: CoordinatorState, now: int)
  {
    !Truthy(s.diagnostics) || now - s.lastDiagnosticsUpdate > DIAGNOSTICS_SCAN_INTERVAL
  }

  /** get_diagnostics at time `now`; `upstream` is what the diagnostics call
      would return. */
  function GetDiagnosticsStep(s: CoordinatorState, now: int, upstream: Py<Json>): (r: Step)
    ensures r.calls == [] <==> Truthy(s.diagnostics) && now - s.lastDiagnosticsUpdate <= DIAGNOSTICS_SCAN_INTERVAL
    ensures r.calls == [] ==> r.state == s && r.result == Ok(s.diagnostics)
    ensures r.calls != [] ==> r.calls == [Diagnostics(DIAGNOSTIC_ITEMS)]
    ensures r.calls != [] && upstream.Raise? ==> r.state == s && r.result.Raise?
    ensures r.calls != [] && upstream.Raise? && IsCaught(upstream.error) ==> r.result == Raise(UpdateFailed)
    ensures r.calls != [] && upstream.Ok? && (s.data.Null? || s.data.Obj?) ==>
      && r.result == upstream
      && r.state.diagnostics == upstream.value
      && r.state.lastDiagnosticsUpdate == now
    ensures r.result.Ok? ==> r.result.value == r.state.diagnostics
    ensures r.result.Raise? ==> r.state.lastDiagnosticsUpdate == s.lastDiagnosticsUpdate
    ensures r.state.location == s.location
    ensures Consistent(s) ==> Consistent(r.state)
  {
    if NeedsFetch(s, now) then
      var fetched := FetchDiagnosticsStep(s, upstream);
      if fetched.result.Raise? then fetched
      else fetched.(state := fetched.state.(lastDiagnosticsUpdate := now))
    else
      Step(s, Ok(s.diagnostics), [])
  }

  /** _async_update_data: `account` and `location` are what
      get_account_vehicles and location would return. */
  function UpdateDataStep(s: CoordinatorState, account: Py<Json>, location: Py<Json>): (r: Step)
    ensures forall k | 0 <= k < |r.calls| :: !r.calls[k].Diagnostics?
    ensures r.calls == if account.Raise? then [AccountVehicles] else [AccountVehicles, Location]
    ensures r.state.diagnostics == s.diagnostics && r.state.lastDiagnosticsUpdate == s.lastDiagnosticsUpdate
    ensures r.state.data == s.data
    ensures r.result.Ok? <==> account.Ok? && location.Ok?
    ensures r.result.Ok? ==>
      r.state.location == location.value && r.result.value == Snapshot(r.state.location, s.diagnostics)
    ensures r.result.Raise? ==> r.state == s
    ensures account.Raise? && IsCaught(account.error) ==> r.result == Raise(UpdateFailed)
    ensures account.Ok? && location.Raise? && IsCaught(location.error) ==> r.result == Raise(UpdateFailed)
  {
    match account
    case Raise(e) => Step(s, Raise(AsUpdateFailed(e)), [AccountVehicles])
    case Ok(_) =>
      match location
      case Raise(e) => Step(s, Raise(AsUpdateFailed(e)), [AccountVehicles, Location])
      case Ok(l) =>
        Step(s.(location := l), Ok(Snapshot(l, s.diagnostics)), [AccountVehicles, Location])
  }

  /** A refresh of the update framework: run _async_update_data and store its
      result as `data` when it succeeds. */
  function RefreshStep(s: CoordinatorState, account: Py<Json>, location: Py<Json>): (r: Step)
    ensures r.calls == UpdateDataStep(s, account, location).calls
    ensures r.result.Ok? ==> location.Ok? && r.state.data == Snapshot(location.value, s.diagnostics)
    ensures r.result.Raise? ==> r.state == s
    ensures Consistent(s) ==> Consistent(r.state)
  {
    var updated := UpdateDataStep(s, account, location);
    if updated.result.Ok? then updated.(state := updated.state.(data := updated.result.value))
    else updated
  }

  // ---------------------------------------------------------------------------
  // Properties over several calls.

  /** A successful fetch of truthy diagnostics at `t1` serves every request
      up to `t1 + 1800` from the cache, with no upstream call. */
  lemma CacheServesWithinInterval(s: CoordinatorState, t1: int, t2: int, u1: Py<Json>, u2: Py<Json>)
    requires GetDiagnosticsStep(s, t1, u1).calls != []
    requires GetDiagnosticsStep(s, t1, u1).result.Ok?
    requires Truthy(GetDiagnosticsStep(s, t1, u1).result.value)
    requires t2 <= t1 + DIAGNOSTICS_SCAN_INTERVAL
    ensures GetDiagnosticsStep(GetDiagnosticsStep(s, t1, u1).state, t2, u2).calls == []
    ensures GetDiagnosticsStep(GetDiagnosticsStep(s, t1, u1).state, t2, u2).result
         == GetDiagnosticsStep(s, t1, u1).result
  {
  }

  /** After the interval has elapsed the next request fetches again. */
  lemma FetchesAfterInterval(s: CoordinatorState, t1: int, t2: int, u1: Py<Json>, u2: Py<Json>)
    requires GetDiagnosticsStep(s, t1, u1).result.Ok?
    requires t2 > GetDiagnosticsStep(s, t1, u1).state.lastDiagnosticsUpdate + DIAGNOSTICS_SCAN_INTERVAL
    ensures GetDiagnosticsStep(GetDiagnosticsStep(s, t1, u1).state, t2, u2).calls == [Diagnostics(DIAGNOSTIC_ITEMS)]
  {
  }

  /** A failed fetch is retried by the next request, however soon it comes. */
  lemma RetriesAfterFailure(s: CoordinatorState, t1: int, t2: int, u1: Py<Json>, u2: Py<Json>)
    requires Consistent(s)
    requires GetDiagnosticsStep(s, t1, u1).result.Raise?
    requires t2 >= t1
    ensures GetDiagnosticsStep(GetDiagnosticsStep(s, t1, u1).state, t2, u2).calls == [Diagnostics(DIAGNOSTIC_ITEMS)]
  {
    assert NeedsFetch(s, t1);
    assert u1.Raise?;
  }

  /** Refreshes never touch the diagnostics cache: any number of location
      updates between two diagnostics requests leaves the second one's
      decision unchanged. */
  lemma RefreshKeepsCacheDecision(s: CoordinatorState, account: Py<Json>, location: Py<Json>, now: int, u: Py<Json>)
    ensures GetDiagnosticsStep(RefreshStep(s, account, location).state, now, u).calls
         == GetDiagnosticsStep(s, now, u).calls
  {
  }

  /** In a consistent state the entities see, under `data["diagnostics"]`,
      exactly what get_diagnostics returns. */
  lemma DataCarriesDiagnostics(s: CoordinatorState, now: int, u: Py<Json>)
    requires Consistent(s) && s.data.Obj?
    requires GetDiagnosticsStep(s, now, u).result.Ok?
    ensures var r := GetDiagnosticsStep(s, now, u);
      r.state.data.Obj? && "diagnostics" in r.state.data.fields
      && r.state.data.fields["diagnostics"] == r.result.value
  {
  }

  // ---------------------------------------------------------------------------
  // The coordinator object.

  class OnStarCoordinator {
    /** The last stored snapshot (`self.data`). */
    var data: Json
    /** `_diagnostics_data` */
    var diagnosticsData: Json
    /** `_last_diagnostics_update` */
    var lastDiagnosticsUpdate: int
    /** `_location_data` */
    var locationData: Json

    function State(): CoordinatorState
      reads this
    {
      CoordinatorState(data, diagnosticsData, lastDiagnosticsUpdate, locationData)
    }

    predicate Valid()
      reads this
    {
      Consistent(State())
    }

    constructor ()
      ensures State() == Initial
      ensures Valid()
    {
      data := Null;
      diagnosticsData := Null;
      lastDiagnosticsUpdate := 0;
      locationData := Null;
    }

    method FetchDiagnostics(upstream: Py<Json>) returns (r: Py<Json>, calls: seq<UpstreamCall>)
      modifies this
      ensures Step(State(), r, calls) == FetchDiagnosticsStep(old(State()), upstream)
      ensures old(Valid()) ==> Valid()
    {
      calls := [Diagnostics(DIAGNOSTIC_ITEMS)];
      match upstream
      case Raise(e) =>
        r := Raise(AsUpdateFailed(e));
      case Ok(d) =>
        diagnosticsData := d;
        if !Truthy(data) {
          r := Ok(d);
        } else if data.Obj? {
          data := Obj(data.fields["diagnostics" := d]);
          r := Ok(d);
        } else {
          r := Raise(TypeError);
        }
    }

    method GetDiagnostics(now: int, upstream: Py<Json>) returns (r: Py<Json>, calls: seq<UpstreamCall>)
      modifies this
      ensures Step(State(), r, calls) == GetDiagnosticsStep(old(State()), now, upstream)
      ensures old(Valid()) ==> Valid()
    {
      var elapsed := now - lastDiagnosticsUpdate;
      if !Truthy(diagnosticsData) || elapsed > DIAGNOSTICS_SCAN_INTERVAL {
        r, calls := FetchDiagnostics(upstream);
        if r.Ok? {
          lastDiagnosticsUpdate := now;
          r := Ok(diagnosticsData);
        }
      } else {
        r, calls := Ok(diagnosticsData), [];
      }
    }

    method UpdateData(account: Py<Json>, location: Py<Json>) returns (r: Py<Json>, calls: seq<UpstreamCall>)
      modifies this
      ensures Step(State(), r, calls) == UpdateDataStep(old(State()), account, location)
      ensures old(Valid()) && r.Raise? ==> Valid()
    {
      calls := [AccountVehicles];
      if account.Raise? {
        return Raise(AsUpdateFailed(account.error)), calls;
      }
      calls := calls + [Location];
      if location.Raise? {
        return Raise(AsUpdateFailed(location.error)), calls;
      }
      locationData := location.value;
      r := Ok(Snapshot(locationData, diagnosticsData));
    }

    method Refresh(account: Py<Json>, location: Py<Json>) returns (r: Py<Json>, calls: seq<UpstreamCall>)
      modifies this
      ensures Step(State(), r, calls) == RefreshStep(old(State()), account, location)
      ensures old(Valid()) ==> Valid()
    {
      r, calls := UpdateData(account, location);
      if r.Ok? {
        data := r.value;
      }
    }
  }
}
