/** The vehicle commands shared by the door lock and the remote-start switch
    (custom_components/ha-onstar/lock.py, custom_components/ha-onstar/switch.py
    and their earlier revisions under custom_components/onstar/): an upstream
    call whose response is tested by
    `result and "commandResponse" in result and result["commandResponse"]["status"] == "success"`
    inside a try block that turns the caught errors into `False`. */
module Commands {
  import opened Python

  /** The response shape the source counts as success. */
  predicate Succeeded(result: Json)
  {
    && result.Obj? && "commandResponse" in result.fields
    && result.fields["commandResponse"].Obj?
    && "status" in result.fields["commandResponse"].fields
    && result.fields["commandResponse"].fields["status"] == Str("success")
  }

  /** The responses on which the test itself raises a TypeError, which no
      handler catches: `in` on a number or boolean, or subscripting with a
      string something that is not a dict. */
  predicate Faults(result: Json)
  {
    && Truthy(result)
    && (|| result.Num? || result.Bool?
        || (result.Str? && IsSubstring("commandResponse", result.s))
        || (result.Arr? && Str("commandResponse") in result.items)
        || (result.Obj? && "commandResponse" in result.fields && !result.fields["commandResponse"].Obj?))
  }

  /** A dict `commandResponse` without a `status`: subscripting it raises a
      KeyError. */
  predicate LacksStatus(result: Json)
  {
    && result.Obj? && "commandResponse" in result.fields
    && result.fields["commandResponse"].Obj?
    && "status" !in result.fields["commandResponse"].fields
  }

  /** The success test on a response. */
  function ResponseCheck(result: Json): (r: Py<bool>)
    ensures r == Ok(true) <==> Succeeded(result)
    ensures r.Raise? <==> Faults(result) || LacksStatus(result)
    ensures r.Raise? ==> r.error == (if Faults(result) then TypeError else KeyError)
  {
    if !Truthy(result) then Ok(false)
    else
      var hasResponse :- In("commandResponse", result);
      if !hasResponse then Ok(false)
      else
        var response :- Item(result, "commandResponse");
        var status :- Item(response, "status");
        Ok(status == Str("success"))
  }

  /** The whole try statement around an upstream command whose outcome is
      `call`: caught errors become `False`, uncaught ones propagate. */
  function CommandOutcome(call: Py<Json>): (r: Py<bool>)
    ensures r == Ok(true) <==> call.Ok? && Succeeded(call.value)
    ensures r.Raise? <==> (call.Raise? && !IsCaught(call.error)) || (call.Ok? && Faults(call.value))
    ensures r.Raise? ==> r.error == (if call.Raise? then call.error else TypeError)
  {
    var checked := if call.Raise? then Raise(call.error) else ResponseCheck(call.value);
    if checked.Raise? && IsCaught(checked.error) then Ok(false) else checked
  }

  /** A `commandResponse` without a `status` raises a KeyError, which is
      caught: the command reports failure. */
  lemma MissingStatusFails(result: Json)
    requires LacksStatus(result)
    ensures ResponseCheck(result) == Raise(KeyError)
    ensures CommandOutcome(Ok(result)) == Ok(false)
  {
  }

  /** Every error the handlers name, raised by the upstream call, reports
      failure; every other error propagates unchanged. */
  lemma CaughtCallFails(e: Exception)
    ensures CommandOutcome(Raise(e)) == if IsCaught(e) then Ok(false) else Raise(e)
  {
  }

  /** The attribute a command leaves behind: `target` after a success, the
      previous value otherwise. */
  function Apply<S>(state: S, outcome: Py<bool>, target: S): (r: S)
    ensures outcome == Ok(true) ==> r == target
    ensures outcome.Raise? || outcome == Ok(false) ==> r == state
  {
    if outcome == Ok(true) then target else state
  }
}
