/** The example backend's axis, `MockAxis` (examples/mock_controller.rs). Its two mutable cells,
    `position` and `state`, are fields of the value; an operation that writes them returns the
    updated axis. */
module MockAxes {
  import opened Wrappers
  import opened AxisStatus
  import Movement

  datatype MockAxis = MockAxis(
    name: string,
    position: real,
    state: AxisState,
    supportsAcceleration: bool,
    velocity: real,
    acceleration: real,
    maxPosition: real,
    minPosition: real)

  /** `MockAxis::new`: at rest at 0 and `On`, with the example's fixed limits. */
  function New(name: string, supportsAcceleration: bool): (m: MockAxis)
    ensures m.name == name && m.supportsAcceleration == supportsAcceleration
    ensures m.position == 0.0 && m.state == On
    ensures m.velocity == 100.0 && m.acceleration == 1000.0
    ensures m.maxPosition == 1000.0 && m.minPosition == -1000.0
  {
    MockAxis(name, 0.0, On, supportsAcceleration, 100.0, 1000.0, 1000.0, -1000.0)
  }

  /** True when a move asks for an acceleration this axis cannot honour. */
  predicate RejectsParams(m: MockAxis, params: Option<Movement.MovementParams>) {
    params.Some? && params.value.acceleration.Some? && !m.supportsAcceleration
  }

  /** `start`: reject an unsupported acceleration before touching anything; otherwise write the
      target, pass through `Moving`, and finish `On`. Only the finished state is kept, because the
      dispatcher runs each command to completion before the next one can read the axis. */
  function Start(m: MockAxis, target: real, params: Option<Movement.MovementParams>): (out: (Fallible<()>, MockAxis))
    ensures out.0.Err? <==> RejectsParams(m, params)
    ensures out.0.Err? ==> out.0.error == "Axis " + m.name + " does not support acceleration parameter" && out.1 == m
    ensures out.0.Ok? ==> out.1 == m.(position := target, state := On)
  {
    if RejectsParams(m, params) then
      (Err("Axis " + m.name + " does not support acceleration parameter"), m)
    else
      var moving := m.(position := target, state := Moving);
      (Ok(()), moving.(state := On))
  }

  /** `stop` forces `On` whatever the current state and never fails. */
  function Stop(m: MockAxis): (out: (Fallible<()>, MockAxis))
    ensures out.0 == Ok(()) && out.1.state == On
    ensures out.1 == m.(state := On)
  {
    (Ok(()), m.(state := On))
  }

  function GetState(m: MockAxis): Fallible<AxisStateInfo> {
    Ok(AxisStatus.New(m.state))
  }

  /** The attribute table of `get_attribute`. */
  function GetAttribute(m: MockAxis, name: string): (r: Fallible<real>)
    ensures name == "velocity" ==> r == Ok(m.velocity)
    ensures name == "max_position" ==> r == Ok(m.maxPosition)
    ensures name == "min_position" ==> r == Ok(m.minPosition)
    ensures name == "position" ==> r == Ok(m.position)
    ensures name == "supports_acceleration" ==> r == Ok(if m.supportsAcceleration then 1.0 else 0.0)
    ensures name == "acceleration" ==>
      r == if m.supportsAcceleration then Ok(m.acceleration)
           else Err("Parameter 'acceleration' not supported by axis " + m.name)
    ensures name !in TableNames ==> r == Err("Unknown parameter: " + name)
  {
    if name == "velocity" then Ok(m.velocity)
    else if name == "acceleration" then
      if m.supportsAcceleration then Ok(m.acceleration)
      else Err("Parameter 'acceleration' not supported by axis " + m.name)
    else if name == "max_position" then Ok(m.maxPosition)
    else if name == "min_position" then Ok(m.minPosition)
    else if name == "position" then Ok(m.position)
    else if name == "supports_acceleration" then Ok(if m.supportsAcceleration then 1.0 else 0.0)
    else Err("Unknown parameter: " + name)
  }

  /** Every name the attribute table matches on. */
  const TableNames: set<string> :=
    {"velocity", "acceleration", "max_position", "min_position", "position", "supports_acceleration"}

  /** `get_available_params`: the five fixed names, then `acceleration` when supported. */
  function AvailableParams(m: MockAxis): seq<string> {
    var params := ["velocity", "max_position", "min_position", "position", "supports_acceleration"];
    if m.supportsAcceleration then params + ["acceleration"] else params
  }

  /** `get_supported_movement_params`: velocity, then acceleration and deceleration when supported. */
  function SupportedMovementParams(m: MockAxis): seq<string> {
    var params := ["velocity"];
    if m.supportsAcceleration then params + ["acceleration", "deceleration"] else params
  }

  /** The advertised list and the attribute table agree: a name is listed exactly when reading it
      succeeds. */
  lemma {:induction false} AvailableIffReadable(m: MockAxis, name: string)
    ensures name in AvailableParams(m) <==> GetAttribute(m, name).Ok?
  {
    var fixed := ["velocity", "max_position", "min_position", "position", "supports_acceleration"];
    assert name in fixed <==> name in TableNames - {"acceleration"};
    if m.supportsAcceleration {
      assert AvailableParams(m) == fixed + ["acceleration"];
    }
  }

  /** The lists have the documented shapes: acceleration is advertised exactly when supported. */
  lemma ListsFollowAccelerationSupport(m: MockAxis)
    ensures |AvailableParams(m)| == if m.supportsAcceleration then 6 else 5
    ensures "acceleration" in AvailableParams(m) <==> m.supportsAcceleration
    ensures SupportedMovementParams(m) ==
      if m.supportsAcceleration then ["velocity", "acceleration", "deceleration"] else ["velocity"]
  {
  }

  /** Every move or stop ends `On`: the transient `Moving` is never left behind. */
  lemma MotionEndsOn(m: MockAxis, target: real, params: Option<Movement.MovementParams>)
    ensures Start(m, target, params).0.Ok? ==> Start(m, target, params).1.state == On
    ensures m.state == On ==> Start(m, target, params).1.state == On
    ensures Stop(m).1.state == On
  {
  }
}
