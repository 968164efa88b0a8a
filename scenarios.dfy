/** End-to-end exchanges against a manager holding one example controller "c1" (axes X, Y with
    acceleration, Z without) and an empty cache, from decoded request to reply envelope. */
module Scenarios {
  import opened Wrappers
  import opened Json
  import Movement
  import Axes
  import MC = MotorControllers
  import MockAxes
  import MockControllers
  import Manager
  import ClientCommands
  import ServerResponses
  import Session

  function Initial(): Manager.State {
    Manager.State(map["c1" := MockControllers.NewMockController("c1")], map[])
  }

  /** A move of X to 100 with id "1" is acknowledged with the target and the same id. */
  lemma MoveIsAcknowledged(timestamp: string)
    ensures var (reply, _) := Session.ProcessCommand(Initial(), Ok(ClientCommands.Move("c1", "X", 100.0, None, Some("1"))), timestamp);
      reply == ServerResponses.Success(Some("1"), Manager.MoveAck(100.0))
      && ServerResponses.ToJson(reply)
         == Obj([("status", Str("success")), ("id", Str("1")),
                 ("data", Obj([("status", Str("ok")), ("action", Str("move")), ("target", Num(100.0))]))])
  {
    MockControllers.MockAxesResolve("c1", "X");
  }

  /** The example controller refuses to move Z with an acceleration, naming the axis. */
  lemma {:induction false} ControllerRefusesAcceleratedZ(params: Movement.MovementParams)
    requires params.acceleration.Some?
    ensures var ctrl := MockControllers.NewMockController("c1");
      MC.Start(ctrl, "Z", 10.0, Some(params)) == (Err("Axis Z does not support acceleration parameter"), ctrl)
  {
    var ctrl := MockControllers.NewMockController("c1");
    var z := MockAxes.New("Z", false);
    assert ctrl.axes[2] == Axes.Mock(z);
    assert MockAxes.RejectsParams(z, Some(params));
    assert "Axis " + "Z" + " does not support acceleration parameter" == "Axis Z does not support acceleration parameter";
    assert MockAxes.Start(z, 10.0, Some(params)).0 == Err("Axis Z does not support acceleration parameter");
    assert Axes.Start(Axes.Mock(z), 10.0, Some(params)).0 == Err("Axis Z does not support acceleration parameter");
    MockControllers.MockAxesResolve("c1", "Z");
    assert MC.FindAxis(ctrl.axes, "Z") == Some(2);
  }

  /** ... and so the manager answers with that error and changes nothing. */
  lemma {:induction false} ManagerRefusesAcceleratedZ(params: Movement.MovementParams)
    requires params.acceleration.Some?
    ensures Manager.HandleMove(Initial(), "c1", "Z", 10.0, Some(params))
         == Manager.Handled(Err("Axis Z does not support acceleration parameter"), Initial())
  {
    ControllerRefusesAcceleratedZ(params);
  }

  /** Asking Z, which cannot accelerate, for an acceleration is refused with the axis's message,
      and nothing changes. */
  lemma {:induction false} UnsupportedAccelerationIsRefused(timestamp: string)
    ensures var params := Movement.WithAcceleration(Movement.New(), 500.0);
      Session.ProcessCommand(Initial(), Ok(ClientCommands.Move("c1", "Z", 10.0, Some(params), Some("2"))), timestamp)
      == (ServerResponses.Error(Some("2"), "Axis Z does not support acceleration parameter", None), Initial())
  {
    ManagerRefusesAcceleratedZ(Movement.WithAcceleration(Movement.New(), 500.0));
  }

  /** An attribute outside the mock table is reported as unknown. */
  lemma UnknownAttributeIsRefused(timestamp: string)
    ensures Session.ProcessCommand(Initial(), Ok(ClientCommands.GetAttribute("c1", "X", "bogus", None)), timestamp)
      == (ServerResponses.Error(None, "Unknown parameter: bogus", None), Initial())
  {
    MockControllers.MockAxesResolve("c1", "X");
    assert "Unknown parameter: " + "bogus" == "Unknown parameter: bogus";
  }

  /** Ping with id "p1" is answered with "pong" and the clock reading. */
  lemma PingIsAnswered(timestamp: string)
    ensures Session.ProcessCommand(Initial(), Ok(ClientCommands.Ping(Some("p1"))), timestamp)
      == (ServerResponses.Success(Some("p1"), Obj([("message", Str("pong")), ("timestamp", Str(timestamp))])), Initial())
  {
  }

  /** Listing the axes of an unknown controller names it in the error. */
  lemma UnknownControllerIsReported(timestamp: string)
    ensures Session.ProcessCommand(Initial(), Ok(ClientCommands.ListAxes("unknown", None)), timestamp)
      == (ServerResponses.Error(None, "Controller not found: unknown", None), Initial())
  {
    assert "Controller not found: " + "unknown" == "Controller not found: unknown";
  }

  /** After a move of Y to 50, a position query reports 50 and caches it; a second query is a hit
      with the same reply. */
  lemma {:induction false} MoveThenPosition(timestamp: string)
    ensures var (_, moved) := Session.ProcessCommand(Initial(), Ok(ClientCommands.Move("c1", "Y", 50.0, None, None)), timestamp);
      var (first, cached) := Session.ProcessCommand(moved, Ok(ClientCommands.GetPosition("c1", "Y", Some("q"))), timestamp);
      var (second, after) := Session.ProcessCommand(cached, Ok(ClientCommands.GetPosition("c1", "Y", Some("q"))), timestamp);
      first == ServerResponses.Success(Some("q"), Manager.PositionReply("c1", "Y", Num(50.0)))
      && cached.cache == map[Manager.PositionKey("c1", "Y") := Num(50.0)]
      && second == first && after == cached
  {
    var s := Initial();
    MockControllers.MockAxesResolve("c1", "Y");
    var ctrl := s.registry["c1"];
    var moved := MC.Start(ctrl, "Y", 50.0, None).1;
    MC.LookupAfterUpdate(ctrl, moved, 1, "Y");
    assert Manager.Step(s, Manager.Move("c1", "Y", 50.0, None)).state.cache == map[];
  }
}
