/** The controller capability (src/motor_controller/mod.rs): a named aggregate of axes whose default
    methods are built from the axis capability. `Standard` controllers keep every default; the
    example's `MockController` overrides `shutdown` and `get_attribute` (its start, stop and state
    overrides repeat the defaults). */
module MotorControllers {
  import opened Wrappers
  import opened AxisStatus
  import Movement
  import Axes

  datatype ControllerKind = Standard | MockOverrides

  datatype Controller = Controller(name: string, axes: seq<Axes.Axis>, kind: ControllerKind)

  function AxisNotFound(axis: string, controller: string): string {
    "Axis not found: " + axis + " in controller " + controller
  }

  /** The index of the first axis called `name`, as `find` over `axes()` meets it. */
  function FindAxis(axes: seq<Axes.Axis>, name: string): (r: Option<nat>)
    ensures r.Some? ==> r.value < |axes| && Axes.Name(axes[r.value]) == name
    ensures r.Some? ==> forall j :: 0 <= j < r.value ==> Axes.Name(axes[j]) != name
    ensures r.None? <==> forall j :: 0 <= j < |axes| ==> Axes.Name(axes[j]) != name
  {
    if |axes| == 0 then None
    else if Axes.Name(axes[0]) == name then Some(0)
    else
      match FindAxis(axes[1..], name)
      case None => None
      case Some(i) => Some(i + 1)
  }

  /** `get_axis`: the first axis with that name, or "Axis not found". */
  function GetAxis(c: Controller, axis: string): (r: Fallible<Axes.Axis>)
    ensures r.Ok? <==> exists j :: 0 <= j < |c.axes| && Axes.Name(c.axes[j]) == axis
    ensures r.Ok? ==> r.value == c.axes[FindAxis(c.axes, axis).value]
    ensures r.Err? ==> r.error == AxisNotFound(axis, c.name)
  {
    match FindAxis(c.axes, axis)
    case None => Err(AxisNotFound(axis, c.name))
    case Some(i) => Ok(c.axes[i])
  }

  /** A controller whose axis at `i` is replaced by one of the same name. */
  ghost predicate UpdatedAt(c: Controller, c': Controller, i: nat)
  {
    i < |c.axes| && c'.name == c.name && c'.kind == c.kind && |c'.axes| == |c.axes|
    && Axes.Name(c'.axes[i]) == Axes.Name(c.axes[i])
    && forall j :: 0 <= j < |c.axes| && j != i ==> c'.axes[j] == c.axes[j]
  }

  /** Replacing an axis by one of the same name leaves every lookup resolving to the same index, and
      every lookup of another name to the same axis. */
  lemma {:induction false} LookupAfterUpdate(c: Controller, c': Controller, i: nat, name: string)
    requires UpdatedAt(c, c', i)
    ensures FindAxis(c'.axes, name) == FindAxis(c.axes, name)
    ensures GetAxis(c', name).Ok? <==> GetAxis(c, name).Ok?
    ensures GetAxis(c, name).Ok? && FindAxis(c.axes, name).value != i ==> GetAxis(c', name) == GetAxis(c, name)
    ensures GetAxis(c, name).Ok? && FindAxis(c.axes, name).value == i ==> GetAxis(c', name) == Ok(c'.axes[i])
  {
    assert forall j :: 0 <= j < |c.axes| ==> Axes.Name(c'.axes[j]) == Axes.Name(c.axes[j]);
  }

  /** `start`: resolve the axis first (no axis call when it is missing), then delegate. The
      returned controller holds the axis as the call left it, even when the call failed; a refused
      start on the mock leaves it as it was. */
  function Start(c: Controller, axis: string, target: real, params: Option<Movement.MovementParams>): (out: (Fallible<()>, Controller))
    ensures GetAxis(c, axis).Err? ==> out == (Err(GetAxis(c, axis).error), c)
    ensures GetAxis(c, axis).Ok? ==>
      var i := FindAxis(c.axes, axis).value;
      out.0 == Axes.Start(c.axes[i], target, params).0
      && out.1 == c.(axes := c.axes[i := Axes.Start(c.axes[i], target, params).1])
      && UpdatedAt(c, out.1, i)
    ensures GetAxis(c, axis).Ok? && GetAxis(c, axis).value.Mock? && out.0.Err? ==> out.1 == c
  {
    match FindAxis(c.axes, axis)
    case None => (Err(AxisNotFound(axis, c.name)), c)
    case Some(i) =>
      var (r, ax') := Axes.Start(c.axes[i], target, params);
      (r, c.(axes := c.axes[i := ax']))
  }

  /** `stop`: resolve, then delegate, and keep what the axis's stop left; a backend that moves only
      on start keeps its position. */
  function Stop(c: Controller, axis: string): (out: (Fallible<()>, Controller))
    ensures GetAxis(c, axis).Err? ==> out == (Err(GetAxis(c, axis).error), c)
    ensures GetAxis(c, axis).Ok? ==>
      var i := FindAxis(c.axes, axis).value;
      out.0 == Axes.Stop(c.axes[i]).0
      && out.1 == c.(axes := c.axes[i := Axes.Stop(c.axes[i]).1])
      && UpdatedAt(c, out.1, i)
      && (Axes.MovesOnlyOnStart(c.axes[i]) ==> Axes.GetPosition(out.1.axes[i]) == Axes.GetPosition(c.axes[i]))
  {
    match FindAxis(c.axes, axis)
    case None => (Err(AxisNotFound(axis, c.name)), c)
    case Some(i) =>
      var (r, ax') := Axes.Stop(c.axes[i]);
      (r, c.(axes := c.axes[i := ax']))
  }

  /** `state`: resolve, then delegate. */
  function State(c: Controller, axis: string): (r: Fallible<AxisStateInfo>)
    ensures GetAxis(c, axis).Err? ==> r == Err(GetAxis(c, axis).error)
    ensures GetAxis(c, axis).Ok? ==> r == Axes.GetState(GetAxis(c, axis).value)
  {
    match GetAxis(c, axis)
    case Err(e) => Err(e)
    case Ok(ax) => Axes.GetState(ax)
  }

  /** `get_available_attributes`: exactly what the resolved axis advertises. */
  function GetAvailableAttributes(c: Controller, axis: string): (r: Fallible<seq<string>>)
    ensures GetAxis(c, axis).Err? ==> r == Err(GetAxis(c, axis).error)
    ensures GetAxis(c, axis).Ok? ==> r == Axes.GetAvailableParams(GetAxis(c, axis).value)
  {
    match GetAxis(c, axis)
    case Err(e) => Err(e)
    case Ok(ax) => Axes.GetAvailableParams(ax)
  }

  /** `get_supported_movement_params`: exactly what the resolved axis supports. */
  function GetSupportedMovementParams(c: Controller, axis: string): (r: Fallible<seq<string>>)
    ensures GetAxis(c, axis).Err? ==> r == Err(GetAxis(c, axis).error)
    ensures GetAxis(c, axis).Ok? ==> r == Axes.GetSupportedMovementParams(GetAxis(c, axis).value)
  {
    match GetAxis(c, axis)
    case Err(e) => Err(e)
    case Ok(ax) => Axes.GetSupportedMovementParams(ax)
  }

  /** `get_attribute`. The default first checks the advertised list and refuses a name outside it
      without asking the axis; the mock controller's override asks the axis directly. */
  function GetAttribute(c: Controller, axis: string, attribute: string): (r: Fallible<real>)
    ensures GetAxis(c, axis).Err? ==> r == Err(AxisNotFound(axis, c.name))
    ensures GetAxis(c, axis).Ok? && c.kind == MockOverrides ==>
      r == Axes.GetAttribute(GetAxis(c, axis).value, attribute)
    ensures GetAxis(c, axis).Ok? && c.kind == Standard ==>
      var ax := GetAxis(c, axis).value;
      r == if attribute in Axes.GetAvailableParams(ax).value then Axes.GetAttribute(ax, attribute)
           else Err("Attribute not supported: " + attribute)
  {
    match c.kind
    case MockOverrides =>
      (match GetAxis(c, axis)
       case Err(e) => Err(e)
       case Ok(ax) => Axes.GetAttribute(ax, attribute))
    case Standard =>
      match GetAvailableAttributes(c, axis)
      case Err(e) => Err(e)
      case Ok(supported) =>
        if attribute !in supported then Err("Attribute not supported: " + attribute)
        else
          match GetAxis(c, axis)
          case Err(e) => Err(e)
          case Ok(ax) => Axes.GetAttribute(ax, attribute)
  }

  /** For an axis that keeps the default list, the default `get_attribute` admits only "position". */
  lemma DefaultListAdmitsOnlyPosition(c: Controller, axis: string, attribute: string)
    requires c.kind == Standard
    requires GetAxis(c, axis).Ok? && GetAxis(c, axis).value.Scripted?
    ensures GetAttribute(c, axis, attribute).Ok? ==> attribute == "position"
    ensures attribute != "position" ==> GetAttribute(c, axis, attribute) == Err("Attribute not supported: " + attribute)
  {
  }

  /** On mock axes the list check is redundant: the default and the override succeed on the same
      names (only their refusal messages differ). */
  lemma {:induction false} ListCheckRedundantOnMockAxes(c: Controller, axis: string, attribute: string)
    requires GetAxis(c, axis).Ok? && GetAxis(c, axis).value.Mock?
    ensures GetAttribute(c.(kind := Standard), axis, attribute).Ok? <==>
            GetAttribute(c.(kind := MockOverrides), axis, attribute).Ok?
    ensures GetAttribute(c.(kind := MockOverrides), axis, attribute).Ok? ==>
            GetAttribute(c.(kind := Standard), axis, attribute) == GetAttribute(c.(kind := MockOverrides), axis, attribute)
  {
    var ax := GetAxis(c, axis).value;
    assert GetAxis(c.(kind := Standard), axis) == GetAxis(c, axis);
    assert GetAxis(c.(kind := MockOverrides), axis) == GetAxis(c, axis);
    Axes.MockAvailableIffReadable(ax, attribute);
  }

  /** The outcome of the default `shutdown`: the first failing stop's error, or success. */
  function FirstStopError(axes: seq<Axes.Axis>): (r: Fallible<()>)
    ensures r.Ok? <==> forall j :: 0 <= j < |axes| ==> Axes.Stop(axes[j]).0.Ok?
    ensures r.Err? ==> exists k :: 0 <= k < |axes| && Axes.Stop(axes[k]).0 == r
                         && forall j :: 0 <= j < k ==> Axes.Stop(axes[j]).0.Ok?
  {
    if |axes| == 0 then Ok(())
    else if Axes.Stop(axes[0]).0.Err? then Axes.Stop(axes[0]).0
    else
      var r := FirstStopError(axes[1..]);
      assert forall j :: 0 < j < |axes| ==> axes[j] == axes[1..][j - 1];
      r
  }

  /** What `shutdown` returns: the default succeeds exactly when every axis stops, and otherwise
      returns the first failing stop's error; the mock override succeeds without stopping anything. */
  function ShutdownResult(c: Controller): (r: Fallible<()>)
    ensures c.kind == Standard ==> (r.Ok? <==> forall j :: 0 <= j < |c.axes| ==> Axes.Stop(c.axes[j]).0.Ok?)
    ensures c.kind == Standard && r.Err? ==>
      exists k :: 0 <= k < |c.axes| && Axes.Stop(c.axes[k]).0 == r
                  && forall j :: 0 <= j < k ==> Axes.Stop(c.axes[j]).0.Ok?
    ensures c.kind == MockOverrides ==> r == Ok(())
  {
    match c.kind
    case MockOverrides => Ok(())
    case Standard => FirstStopError(c.axes)
  }

  /** The axes after stopping in order until the first failure: the stopped prefix (including the
      failing axis) is replaced by what `stop` left, the rest is untouched. */
  ghost predicate StoppedUntilFailure(before: seq<Axes.Axis>, after: seq<Axes.Axis>, r: Fallible<()>)
  {
    |after| == |before|
    && (r.Ok? ==> forall j :: 0 <= j < |before| ==> after[j] == Axes.Stop(before[j]).1)
    && (r.Err? ==>
          exists k :: 0 <= k < |before|
            && Axes.Stop(before[k]).0 == r
            && (forall j :: 0 <= j < k ==> Axes.Stop(before[j]).0.Ok?)
            && (forall j :: 0 <= j <= k ==> after[j] == Axes.Stop(before[j]).1)
            && (forall j :: k < j < |before| ==> after[j] == before[j]))
  }

  /** The failing step of `shutdown`: the axes stopped so far, the failing one, and the untouched
      rest form exactly the after-state `StoppedUntilFailure` describes. */
  lemma StopFailureAt(before: seq<Axes.Axis>, after: seq<Axes.Axis>, k: nat)
    requires k < |before| == |after|
    requires Axes.Stop(before[k]).0.Err?
    requires forall j :: 0 <= j < k ==> Axes.Stop(before[j]).0.Ok?
    requires forall j :: 0 <= j <= k ==> after[j] == Axes.Stop(before[j]).1
    requires forall j :: k < j < |before| ==> after[j] == before[j]
    ensures StoppedUntilFailure(before, after, Axes.Stop(before[k]).0)
  {
  }

  /** `shutdown`: stop the axes in sequence order and return on the first failure, leaving the
      later axes unstopped. */
  method Shutdown(c: Controller) returns (r: Fallible<()>, after: Controller)
    ensures r == ShutdownResult(c)
    ensures after.name == c.name && after.kind == c.kind
    ensures c.kind == MockOverrides ==> after == c
    ensures c.kind == Standard ==> StoppedUntilFailure(c.axes, after.axes, r)
  {
    if c.kind == MockOverrides {
      return Ok(()), c;
    }
    var axes := c.axes;
    var i := 0;
    while i < |axes|
      invariant 0 <= i <= |axes| && |axes| == |c.axes|
      invariant forall j :: 0 <= j < i ==> Axes.Stop(c.axes[j]).0.Ok? && axes[j] == Axes.Stop(c.axes[j]).1
      invariant forall j :: i <= j < |axes| ==> axes[j] == c.axes[j]
      invariant FirstStopError(c.axes) == FirstStopError(c.axes[i..])
    {
      var (res, stopped) := Axes.Stop(axes[i]);
      axes := axes[i := stopped];
      if res.Err? {
        StopFailureAt(c.axes, axes, i);
        return res, c.(axes := axes);
      }
      assert c.axes[i..][1..] == c.axes[i + 1..];
      i := i + 1;
    }
    return Ok(()), c.(axes := axes);
  }
}
