/**
 * The runtime's power state (core/src/runtime/mod.rs): one field that plugins
 * set and the main thread swaps back to Running each time it wakes.
 */
module Power {
  import C = CBindings

  /** PowerState. */
  datatype PowerState = Cancel | Restart | Running | Shutdown

  /**
   * The part of Runtime that holds the power state, with the main thread's
   * park token: set by an unpark, used up by the next park.
   */
  class Runtime {
    const coreId: C.CUuid
    var powerState: PowerState
    var unparkToken: bool

    /** Runtime::default: a fresh runtime is Running. */
    constructor(coreId: C.CUuid)
      ensures this.coreId == coreId && powerState == Running && !unparkToken
    {
      this.coreId := coreId;
      powerState := Running;
      unparkToken := false;
    }

    /** Runtime::check_and_reset_power: the state before, leaving Running. */
    method CheckAndResetPower() returns (previous: PowerState)
      modifies this`powerState
      ensures previous == old(powerState) && powerState == Running
    {
      previous := powerState;
      powerState := Running;
    }

    /** Runtime::check_power: the state, unchanged. */
    method CheckPower() returns (current: PowerState)
      ensures current == powerState
    {
      current := powerState;
    }

    /** Runtime::set_power: stores the state and wakes the main thread unless it is Cancel. */
    method SetPower(p: PowerState)
      modifies this`powerState, this`unparkToken
      ensures powerState == p
      ensures unparkToken <==> old(unparkToken) || p != Cancel
    {
      powerState := p;
      if p != Cancel {
        unparkToken := true;
      }
    }

    /**
     * Runtime::park on this runtime: the main thread waits for the token, uses
     * it up and reads and resets the state.
     */
    method Park() returns (woken: PowerState)
      modifies this`powerState, this`unparkToken
      ensures woken == old(powerState) && powerState == Running && !unparkToken
    {
      unparkToken := false;
      woken := CheckAndResetPower();
    }
  }

  /**
   * A request other than Cancel wakes the main thread, which sees it once; the
   * state is Running again afterwards.
   */
  method RequestSeenOnce(p: PowerState) returns (woken: bool, seen: PowerState, after: PowerState)
    ensures woken <==> p != Cancel
    ensures seen == p && after == Running
  {
    var runtime := new Runtime(C.CUuid(0, 0));
    runtime.SetPower(p);
    woken := runtime.unparkToken;
    seen := runtime.Park();
    after := runtime.CheckPower();
  }

  /** A later request before the main thread wakes replaces the earlier one. */
  method LastRequestWins(first: PowerState, second: PowerState) returns (seen: PowerState)
    ensures seen == second
  {
    var runtime := new Runtime(C.CUuid(0, 0));
    runtime.SetPower(first);
    runtime.SetPower(second);
    seen := runtime.Park();
  }
}
