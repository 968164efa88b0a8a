/** The axis capability (src/axis/mod.rs): every backend answers start, stop, get_state and
    get_attribute; get_position, get_available_params and get_supported_movement_params have
    defaults. Backends form a closed union: a `Scripted` axis is an arbitrary backend, given by its
    current state and its answers and transitions over that state, which keeps every default;
    `Mock` is the example backend, which overrides them. */
module Axes {
  import opened Wrappers
  import opened AxisStatus
  import Movement
  import MockAxes

  datatype Axis =
    | Scripted(
        name: string,
        store: nat,
        onStart: (nat, real, Option<Movement.MovementParams>) -> (Fallible<()>, nat),
        onStop: nat -> (Fallible<()>, nat),
        stateReport: nat -> Fallible<AxisStateInfo>,
        attribute: (nat, string) -> Fallible<real>)
    | Mock(mock: MockAxes.MockAxis)

  function Name(ax: Axis): string {
    match ax
    case Scripted(name, _, _, _, _, _) => name
    case Mock(m) => m.name
  }

  /** A backend whose position changes only through a successful start: a refused start and any
      stop leave the reported position where it was. The trait promises nothing of the kind; the
      mock keeps it. */
  ghost predicate MovesOnlyOnStart(ax: Axis) {
    ax.Scripted? ==>
      (forall st, target, params :: ax.onStart(st, target, params).0.Err? ==>
         ax.attribute(ax.onStart(st, target, params).1, "position") == ax.attribute(st, "position"))
      && (forall st :: ax.attribute(ax.onStop(st).1, "position") == ax.attribute(st, "position"))
  }

  /** `start`. A scripted backend answers from its current state and moves to the state it names,
      whether or not it succeeds; the mock refuses without changing anything. The backend's
      answers, and so `MovesOnlyOnStart`, stay those of the same backend. */
  function Start(ax: Axis, target: real, params: Option<Movement.MovementParams>): (out: (Fallible<()>, Axis))
    ensures Name(out.1) == Name(ax)
    ensures ax.Mock? && out.0.Err? ==> out.1 == ax
    ensures ax.Scripted? ==>
      out == (ax.onStart(ax.store, target, params).0, ax.(store := ax.onStart(ax.store, target, params).1))
    ensures MovesOnlyOnStart(out.1) == MovesOnlyOnStart(ax)
    ensures MovesOnlyOnStart(ax) && out.0.Err? ==> GetPosition(out.1) == GetPosition(ax)
  {
    match ax
    case Scripted(_, store, onStart, _, _, _) =>
      var (r, next) := onStart(store, target, params);
      (r, ax.(store := next))
    case Mock(m) => var (r, m') := MockAxes.Start(m, target, params); (r, Mock(m'))
  }

  /** `stop`. The mock never moves on a stop; a scripted backend keeps its position exactly when it
      satisfies `MovesOnlyOnStart`. */
  function Stop(ax: Axis): (out: (Fallible<()>, Axis))
    ensures Name(out.1) == Name(ax)
    ensures ax.Mock? ==> out.0.Ok? && GetPosition(out.1) == GetPosition(ax)
    ensures ax.Scripted? ==> out == (ax.onStop(ax.store).0, ax.(store := ax.onStop(ax.store).1))
    ensures MovesOnlyOnStart(out.1) == MovesOnlyOnStart(ax)
    ensures MovesOnlyOnStart(ax) ==> GetPosition(out.1) == GetPosition(ax)
  {
    match ax
    case Scripted(_, store, _, onStop, _, _) =>
      var (r, next) := onStop(store);
      (r, ax.(store := next))
    case Mock(m) => var (r, m') := MockAxes.Stop(m); (r, Mock(m'))
  }

  function GetState(ax: Axis): Fallible<AxisStateInfo> {
    match ax
    case Scripted(_, store, _, _, stateReport, _) => stateReport(store)
    case Mock(m) => MockAxes.GetState(m)
  }

  function GetAttribute(ax: Axis, name: string): Fallible<real> {
    match ax
    case Scripted(_, store, _, _, _, attribute) => attribute(store, name)
    case Mock(m) => MockAxes.GetAttribute(m, name)
  }

  /** `get_position`: the default reads the attribute "position"; the mock overrides it with its
      position cell. */
  function GetPosition(ax: Axis): (r: Fallible<real>)
    ensures ax.Scripted? ==> r == GetAttribute(ax, "position")
    ensures ax.Mock? ==> r == Ok(ax.mock.position)
  {
    match ax
    case Scripted(_, _, _, _, _, _) => GetAttribute(ax, "position")
    case Mock(m) => Ok(m.position)
  }

  /** `get_available_params`: default `["position"]`. */
  function GetAvailableParams(ax: Axis): (r: Fallible<seq<string>>)
    ensures ax.Scripted? ==> r == Ok(["position"])
    ensures r.Ok?
  {
    match ax
    case Scripted(_, _, _, _, _, _) => Ok(["position"])
    case Mock(m) => Ok(MockAxes.AvailableParams(m))
  }

  /** `get_supported_movement_params`: default velocity, acceleration, deceleration in that order. */
  function GetSupportedMovementParams(ax: Axis): (r: Fallible<seq<string>>)
    ensures ax.Scripted? ==> r == Ok(["velocity", "acceleration", "deceleration"])
    ensures r.Ok?
  {
    match ax
    case Scripted(_, _, _, _, _, _) => Ok(["velocity", "acceleration", "deceleration"])
    case Mock(m) => Ok(MockAxes.SupportedMovementParams(m))
  }

  /** On every backend the position is the attribute "position": the default delegates, and the
      mock's table answers "position" from the same cell its override reads. */
  lemma PositionIsPositionAttribute(ax: Axis)
    ensures GetPosition(ax) == GetAttribute(ax, "position")
  {
  }

  /** A mock axis advertises a name exactly when it can read it. */
  lemma MockAvailableIffReadable(ax: Axis, name: string)
    requires ax.Mock?
    ensures GetAvailableParams(ax).value == MockAxes.AvailableParams(ax.mock)
    ensures name in GetAvailableParams(ax).value <==> GetAttribute(ax, name).Ok?
  {
    MockAxes.AvailableIffReadable(ax.mock, name);
  }

  /** The mock moves only on a successful start: a refused start and every stop keep its position,
      in every state it can be in. */
  lemma MockMovesOnlyOnStart(m: MockAxes.MockAxis, target: real, params: Option<Movement.MovementParams>)
    ensures Start(Mock(m), target, params).0.Err? ==> GetPosition(Start(Mock(m), target, params).1) == Ok(m.position)
    ensures GetPosition(Stop(Mock(m)).1) == Ok(m.position)
    ensures MovesOnlyOnStart(Mock(m))
  {
  }
}
