/** The remote-start switch (custom_components/ha-onstar/switch.py; the
    earlier custom_components/onstar/switch.py differs only in its log calls).
    Like the lock, the switch tracks only the commands it sent. */
module Switch {
  import opened Python
  import opened Entities
  import opened Commands

  class RemoteStartSwitch {
    const vin: string
    const uniqueId: string
    /** `_attr_is_on` */
    var isOn: bool

    constructor (vin: string)
      ensures this.vin == vin && uniqueId == EntityId(vin, REMOTE_START_SUFFIX)
      ensures !isOn
    {
      this.vin := vin;
      uniqueId := EntityId(vin, REMOTE_START_SUFFIX);
      isOn := false;
    }

    /** async_turn_on, given the outcome of the upstream start call. */
    method TurnOn(call: Py<Json>) returns (r: Py<bool>)
      modifies this
      ensures r == CommandOutcome(call)
      ensures isOn == Apply(old(isOn), r, true)
    {
      r := CommandOutcome(call);
      if r == Ok(true) {
        isOn := true;
      }
    }

    /** async_turn_off, given the outcome of the upstream cancel_start call. */
    method TurnOff(call: Py<Json>) returns (r: Py<bool>)
      modifies this
      ensures r == CommandOutcome(call)
      ensures isOn == Apply(old(isOn), r, false)
    {
      r := CommandOutcome(call);
      if r == Ok(true) {
        isOn := false;
      }
    }
  }

  /** Turning on then off, both successfully, leaves the switch off whatever
      it was; a failed turn-off leaves it as the turn-on left it. */
  lemma OnThenOff(state: bool, start: Py<Json>, cancel: Py<Json>)
    ensures cancel.Ok? && Succeeded(cancel.value) ==>
      Apply(Apply(state, CommandOutcome(start), true), CommandOutcome(cancel), false) == false
    ensures !(cancel.Ok? && Succeeded(cancel.value)) ==>
      Apply(Apply(state, CommandOutcome(start), true), CommandOutcome(cancel), false) == Apply(state, CommandOutcome(start), true)
  {
  }
}
