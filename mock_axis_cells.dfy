/** The mock axis in its allocated form (examples/mock_controller.rs:67-201): the cells the
    example guards with locks are fields written in place, and each method is specified by the
    value-level operation in `MockAxes`. */
module MockAxisObjects {
  import opened Wrappers
  import opened AxisStatus
  import Movement
  import MockAxes

  /** The axis as the example allocates it: the two lock-guarded cells `position` and `state` are
      fields written in place; the rest is fixed at construction. `Snapshot` reads it back as the
      value the dispatcher stores. */
  class MockAxisCells {
    const name: string
    const supportsAcceleration: bool
    const velocity: real
    const acceleration: real
    const maxPosition: real
    const minPosition: real
    var position: real
    var state: AxisState

    function Snapshot(): MockAxes.MockAxis
      reads this
    {
      MockAxes.MockAxis(name, position, state, supportsAcceleration, velocity, acceleration, maxPosition, minPosition)
    }

    /** `MockAxis::new`. */
    constructor (name: string, supportsAcceleration: bool)
      ensures Snapshot() == MockAxes.New(name, supportsAcceleration)
    {
      this.name := name;
      this.supportsAcceleration := supportsAcceleration;
      velocity := 100.0;
      acceleration := 1000.0;
      maxPosition := 1000.0;
      minPosition := -1000.0;
      position := 0.0;
      state := On;
    }

    /** `start`: validate, write the target, mark `Moving`, and after the (unmodelled) travel
        time mark `On`. */
    method Start(target: real, params: Option<Movement.MovementParams>) returns (r: Fallible<()>)
      modifies this
      ensures (r, Snapshot()) == MockAxes.Start(old(Snapshot()), target, params)
    {
      if params.Some? && params.value.acceleration.Some? && !supportsAcceleration {
        return Err("Axis " + name + " does not support acceleration parameter");
      }
      position := target;
      state := Moving;
      state := On;
      r := Ok(());
    }

    /** `stop`. */
    method Stop() returns (r: Fallible<()>)
      modifies this
      ensures (r, Snapshot()) == MockAxes.Stop(old(Snapshot()))
    {
      state := On;
      r := Ok(());
    }

    /** `get_available_params`, pushing onto a vector. */
    method AvailableParamsList() returns (params: seq<string>)
      ensures params == MockAxes.AvailableParams(Snapshot())
    {
      params := ["velocity", "max_position", "min_position", "position", "supports_acceleration"];
      if supportsAcceleration {
        params := params + ["acceleration"];
      }
    }

    /** `get_supported_movement_params`, pushing onto a vector. */
    method SupportedMovementParamsList() returns (params: seq<string>)
      ensures params == MockAxes.SupportedMovementParams(Snapshot())
    {
      params := ["velocity"];
      if supportsAcceleration {
        params := params + ["acceleration"];
        params := params + ["deceleration"];
      }
    }
  }
}
