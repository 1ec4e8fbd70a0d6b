/** The door lock (custom_components/ha-onstar/lock.py; the earlier
    custom_components/onstar/lock.py differs only in its log calls). The lock
    state is known only from the commands this entity sent: None until the
    first successful command. */
module Lock {
  import opened Python
  import opened Entities
  import opened Commands

  class DoorLock {
    const vin: string
    const uniqueId: string
    /** `_attr_is_locked` */
    var isLocked: Option<bool>

    constructor (vin: string)
      ensures this.vin == vin && uniqueId == EntityId(vin, DOOR_LOCK_SUFFIX)
      ensures isLocked == None
    {
      this.vin := vin;
      uniqueId := EntityId(vin, DOOR_LOCK_SUFFIX);
      isLocked := None;
    }

    /** async_lock, given the outcome of the upstream lock_door call. */
    method Lock(call: Py<Json>) returns (r: Py<bool>)
      modifies this
      ensures r == CommandOutcome(call)
      ensures isLocked == Apply(old(isLocked), r, Some(true))
    {
      r := CommandOutcome(call);
      if r == Ok(true) {
        isLocked := Some(true);
      }
    }

    /** async_unlock, given the outcome of the upstream unlock_door call. */
    method Unlock(call: Py<Json>) returns (r: Py<bool>)
      modifies this
      ensures r == CommandOutcome(call)
      ensures isLocked == Apply(old(isLocked), r, Some(false))
    {
      r := CommandOutcome(call);
      if r == Ok(true) {
        isLocked := Some(false);
      }
    }

    /** async_update: the body only logs, so nothing can change. */
    method Update()
      ensures isLocked == old(isLocked)
    {
    }
  }

  /** The lock state after a command sent from `state`: changed exactly when
      the response reports success, and then to the command's target. */
  lemma LockTransitions(state: Option<bool>, call: Py<Json>, target: bool)
    ensures Apply(state, CommandOutcome(call), Some(target)) != state ==> call.Ok? && Succeeded(call.value)
    ensures call.Ok? && Succeeded(call.value) ==> Apply(state, CommandOutcome(call), Some(target)) == Some(target)
    ensures CommandOutcome(call) != Ok(true) ==> Apply(state, CommandOutcome(call), Some(target)) == state
  {
  }

  /** Once a command has succeeded the state is never unknown again. */
  lemma KnownAfterSuccess(state: Option<bool>, call: Py<Json>, target: bool)
    requires state.Some?
    ensures Apply(state, CommandOutcome(call), Some(target)).Some?
  {
  }
}
