/** The example backend's controller, `MockController` (examples/mock_controller.rs:14-64): three
    mock axes, with `shutdown` and `get_attribute` overridden. */
module MockControllers {
  import opened Wrappers
  import MockAxes
  import AxisStatus
  import Axes
  import MC = MotorControllers

  /** `MockController::new`: axes X and Y accelerate, Z does not. */
  function NewMockController(name: string): (c: MC.Controller)
    ensures c.name == name && c.kind == MC.MockOverrides && |c.axes| == 3
    ensures Axes.Name(c.axes[0]) == "X" && Axes.Name(c.axes[1]) == "Y" && Axes.Name(c.axes[2]) == "Z"
    ensures forall i :: 0 <= i < 3 ==>
      c.axes[i].Mock? && c.axes[i].mock.position == 0.0 && c.axes[i].mock.state == AxisStatus.On
      && (c.axes[i].mock.supportsAcceleration <==> i < 2)
  {
    MC.Controller(name, [Axes.Mock(MockAxes.New("X", true)), Axes.Mock(MockAxes.New("Y", true)),
                         Axes.Mock(MockAxes.New("Z", false))], MC.MockOverrides)
  }

  /** Each of the three names resolves to its own axis; anything else is "Axis not found". */
  lemma {:induction false} MockAxesResolve(name: string, axis: string)
    ensures axis == "X" ==> MC.GetAxis(NewMockController(name), axis) == Ok(NewMockController(name).axes[0])
    ensures axis == "Y" ==> MC.GetAxis(NewMockController(name), axis) == Ok(NewMockController(name).axes[1])
    ensures axis == "Z" ==> MC.GetAxis(NewMockController(name), axis) == Ok(NewMockController(name).axes[2])
    ensures axis !in {"X", "Y", "Z"} ==>
      MC.GetAxis(NewMockController(name), axis) == Err(MC.AxisNotFound(axis, name))
  {
    var c := NewMockController(name);
    assert MC.FindAxis(c.axes, "X") == Some(0);
    assert MC.FindAxis(c.axes[1..], "Y") == Some(0);
    assert MC.FindAxis(c.axes[2..], "Z") == Some(0);
  }

  /** The overridden `shutdown` succeeds and stops nothing, whatever the axes' state. */
  lemma MockShutdownStopsNothing(c: MC.Controller)
    requires c.kind == MC.MockOverrides
    ensures MC.ShutdownResult(c) == Ok(())
  {
  }
}
