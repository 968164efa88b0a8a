/** The command dispatcher and its read cache (src/controller_manager/). The registry maps names to
    controllers and the cache maps keys "{controller}::{axis}::{kind}" to previously returned values.
    Commands are consumed one at a time; each yields exactly one result. */
module Manager {
  import opened Wrappers
  import opened Json
  import AxisStatus
  import LS = LimitSwitch
  import Movement
  import Axes
  import MC = MotorControllers
  import NameOrder

  /** The configuration; only the capacity would reach the cache, and the time-to-live is stored
      but never applied. */
  datatype ManagerConfig = ManagerConfig(defaultTtlMillis: nat, cacheCapacity: nat)

  /** A command; its response slot is the value `Dispatch` returns. */
  datatype Command =
    | Move(controller: string, axis: string, target: real, params: Option<Movement.MovementParams>)
    | Stop(controller: string, axis: string)
    | GetState(controller: string, axis: string)
    | GetPos(controller: string, axis: string)
    | GetAttr(controller: string, axis: string, attr: string)
    | GetAvailableParams(controller: string, axis: string)
    | GetSupportedMovementParams(controller: string, axis: string)
    | ListControllers
    | ListAxes(controller: string)

  datatype State = State(registry: map<string, MC.Controller>, cache: map<string, Value>)

  /** The result sent to a command's slot and the state the command leaves. */
  datatype Handled = Handled(result: Fallible<Value>, state: State)

  function CacheKey(controller: string, axis: string, kind: string): string {
    controller + "::" + axis + "::" + kind
  }

  function PositionKey(controller: string, axis: string): string {
    CacheKey(controller, axis, "position")
  }

  function StatusKey(controller: string, axis: string): string {
    CacheKey(controller, axis, "status")
  }

  function ControllerNotFound(controller: string): string {
    "Controller not found: " + controller
  }

  // ---- the JSON each handler answers with ----

  function MoveAck(target: real): Value {
    Obj([("status", Str("ok")), ("action", Str("move")), ("target", Num(target))])
  }

  function StopAck(): Value {
    Obj([("status", Str("ok")), ("action", Str("stop"))])
  }

  function PositionReply(controller: string, axis: string, position: Value): Value {
    Obj([("controller", Str(controller)), ("axis", Str(axis)), ("position", position)])
  }

  function StatusReply(controller: string, axis: string, status: Value): Value {
    Obj([("controller", Str(controller)), ("axis", Str(axis)), ("status", status)])
  }

  function AttributeReply(controller: string, axis: string, attr: string, value: Value): Value {
    Obj([("controller", Str(controller)), ("axis", Str(axis)), ("attribute", Str(attr)), ("value", value)])
  }

  /** The structured snapshot cached for a state query. */
  function StatusJson(info: AxisStatus.AxisStateInfo): Value {
    Obj([("state", Str(AxisStatus.StateName(info.state))),
         ("message", OptionalString(info.message)),
         ("limit_switches", Str(LS.DebugName(info.limitSwitches)))])
  }

  function AvailableParamsReply(controller: string, axis: string, params: seq<string>): Value {
    Obj([("controller", Str(controller)), ("axis", Str(axis)), ("available_params", Strings(params))])
  }

  function SupportedMovementParamsReply(controller: string, axis: string, params: seq<string>): Value {
    Obj([("controller", Str(controller)), ("axis", Str(axis)), ("supported_movement_params", Strings(params))])
  }

  function ControllersReply(names: seq<string>): Value {
    Obj([("controllers", Strings(names))])
  }

  function AxesReply(controller: string, names: seq<string>): Value {
    Obj([("controller", Str(controller)), ("axes", Strings(names))])
  }

  /** The names of `axes()`, in order. */
  function AxisNames(axes: seq<Axes.Axis>): (names: seq<string>)
    ensures |names| == |axes|
    ensures forall i :: 0 <= i < |axes| ==> names[i] == Axes.Name(axes[i])
  {
    seq(|axes|, i requires 0 <= i < |axes| => Axes.Name(axes[i]))
  }

  // ---- what the backend answers, without the cache ----

  /** Resolve the controller and the axis, then `get_position`. */
  function ReadPosition(registry: map<string, MC.Controller>, controller: string, axis: string): Fallible<real> {
    if controller !in registry then Err(ControllerNotFound(controller))
    else
      match MC.GetAxis(registry[controller], axis)
      case Err(e) => Err(e)
      case Ok(ax) => Axes.GetPosition(ax)
  }

  /** Resolve the controller and the axis, then `get_state`. */
  function ReadState(registry: map<string, MC.Controller>, controller: string, axis: string): Fallible<AxisStatus.AxisStateInfo> {
    if controller !in registry then Err(ControllerNotFound(controller))
    else
      match MC.GetAxis(registry[controller], axis)
      case Err(e) => Err(e)
      case Ok(ax) => Axes.GetState(ax)
  }

  /** Resolve the controller, then its `get_attribute`. */
  function ReadAttribute(registry: map<string, MC.Controller>, controller: string, axis: string, attr: string): Fallible<real> {
    if controller !in registry then Err(ControllerNotFound(controller))
    else MC.GetAttribute(registry[controller], axis, attr)
  }

  // ---- the handlers ----

  /** `handle_move`: an unknown controller leaves everything as it was; a refused start returns its
      error and leaves the cache alone (the axis stays as its backend left it); a successful start
      stores the moved axis and drops exactly the position key. */
  function HandleMove(s: State, c: string, a: string, target: real, params: Option<Movement.MovementParams>): (h: Handled)
    ensures h.state.registry.Keys == s.registry.Keys
    ensures c !in s.registry ==> h == Handled(Err(ControllerNotFound(c)), s)
    ensures c in s.registry ==>
      var started := MC.Start(s.registry[c], a, target, params);
      h.state.registry == s.registry[c := started.1]
      && (started.0.Err? ==> h == Handled(Err(started.0.error), s.(registry := s.registry[c := started.1])))
      && (started.0.Ok? ==> h.result == Ok(MoveAck(target))
                            && h.state.cache == s.cache - {PositionKey(c, a)})
  {
    if c !in s.registry then Handled(Err(ControllerNotFound(c)), s)
    else
      var (started, moved) := MC.Start(s.registry[c], a, target, params);
      match started
      case Err(e) => Handled(Err(e), s.(registry := s.registry[c := moved]))
      case Ok(_) =>
        var cache := s.cache - {PositionKey(c, a)};
        Handled(Ok(MoveAck(target)), State(s.registry[c := moved], cache))
  }

  /** `handle_stop`: never reads or writes the cache; the axis stays as its backend's stop left it,
      whether or not the stop succeeded. */
  function HandleStop(s: State, c: string, a: string): (h: Handled)
    ensures h.state.cache == s.cache
    ensures h.state.registry.Keys == s.registry.Keys
    ensures c !in s.registry ==> h == Handled(Err(ControllerNotFound(c)), s)
    ensures c in s.registry ==>
      var stopped := MC.Stop(s.registry[c], a);
      h.state.registry == s.registry[c := stopped.1]
      && (stopped.0.Err? ==> h.result == Err(stopped.0.error))
      && (stopped.0.Ok? ==> h.result == Ok(StopAck()))
  {
    if c !in s.registry then Handled(Err(ControllerNotFound(c)), s)
    else
      var (stopped, after) := MC.Stop(s.registry[c], a);
      match stopped
      case Err(e) => Handled(Err(e), s.(registry := s.registry[c := after]))
      case Ok(_) => Handled(Ok(StopAck()), s.(registry := s.registry[c := after]))
  }

  /** `handle_get_pos`. A hit answers from the cache without consulting the registry. A miss
      answers what the backend reports and caches it only when every step succeeded. */
  function HandleGetPos(s: State, c: string, a: string): (h: Handled)
    ensures h.state.registry == s.registry
    ensures PositionKey(c, a) in s.cache ==>
      h == Handled(Ok(PositionReply(c, a, s.cache[PositionKey(c, a)])), s)
    ensures PositionKey(c, a) !in s.cache ==>
      var read := ReadPosition(s.registry, c, a);
      (read.Err? ==> h == Handled(Err(read.error), s))
      && (read.Ok? ==> h.result == Ok(PositionReply(c, a, Num(read.value)))
                       && h.state.cache == s.cache[PositionKey(c, a) := Num(read.value)])
  {
    var key := PositionKey(c, a);
    if key in s.cache then Handled(Ok(PositionReply(c, a, s.cache[key])), s)
    else if c !in s.registry then Handled(Err(ControllerNotFound(c)), s)
    else
      match MC.GetAxis(s.registry[c], a)
      case Err(e) => Handled(Err(e), s)
      case Ok(ax) =>
        match Axes.GetPosition(ax)
        case Err(e) => Handled(Err(e), s)
        case Ok(pos) =>
          var value := Num(pos);
          Handled(Ok(PositionReply(c, a, value)), s.(cache := s.cache[key := value]))
  }

  /** `handle_get_state`: the same hit/miss rule under the status key, caching the snapshot. */
  function HandleGetState(s: State, c: string, a: string): (h: Handled)
    ensures h.state.registry == s.registry
    ensures StatusKey(c, a) in s.cache ==>
      h == Handled(Ok(StatusReply(c, a, s.cache[StatusKey(c, a)])), s)
    ensures StatusKey(c, a) !in s.cache ==>
      var read := ReadState(s.registry, c, a);
      (read.Err? ==> h == Handled(Err(read.error), s))
      && (read.Ok? ==> h.result == Ok(StatusReply(c, a, StatusJson(read.value)))
                       && h.state.cache == s.cache[StatusKey(c, a) := StatusJson(read.value)])
  {
    var key := StatusKey(c, a);
    if key in s.cache then Handled(Ok(StatusReply(c, a, s.cache[key])), s)
    else if c !in s.registry then Handled(Err(ControllerNotFound(c)), s)
    else
      match MC.GetAxis(s.registry[c], a)
      case Err(e) => Handled(Err(e), s)
      case Ok(ax) =>
        match Axes.GetState(ax)
        case Err(e) => Handled(Err(e), s)
        case Ok(info) =>
          var status := StatusJson(info);
          Handled(Ok(StatusReply(c, a, status)), s.(cache := s.cache[key := status]))
  }

  /** `handle_get_attr`: the same rule under "{c}::{a}::{attr}", asking the controller's
      `get_attribute` on a miss. */
  function HandleGetAttr(s: State, c: string, a: string, attr: string): (h: Handled)
    ensures h.state.registry == s.registry
    ensures CacheKey(c, a, attr) in s.cache ==>
      h == Handled(Ok(AttributeReply(c, a, attr, s.cache[CacheKey(c, a, attr)])), s)
    ensures CacheKey(c, a, attr) !in s.cache ==>
      var read := ReadAttribute(s.registry, c, a, attr);
      (read.Err? ==> h == Handled(Err(read.error), s))
      && (read.Ok? ==> h.result == Ok(AttributeReply(c, a, attr, Num(read.value)))
                       && h.state.cache == s.cache[CacheKey(c, a, attr) := Num(read.value)])
  {
    var key := CacheKey(c, a, attr);
    if key in s.cache then Handled(Ok(AttributeReply(c, a, attr, s.cache[key])), s)
    else if c !in s.registry then Handled(Err(ControllerNotFound(c)), s)
    else
      match MC.GetAttribute(s.registry[c], a, attr)
      case Err(e) => Handled(Err(e), s)
      case Ok(v) =>
        var value := Num(v);
        Handled(Ok(AttributeReply(c, a, attr, value)), s.(cache := s.cache[key := value]))
  }

  /** `handle_get_available_params`: never cached. */
  function HandleGetAvailableParams(s: State, c: string, a: string): (h: Handled)
    ensures h.state == s
    ensures c !in s.registry ==> h.result == Err(ControllerNotFound(c))
    ensures c in s.registry ==>
      var listed := MC.GetAvailableAttributes(s.registry[c], a);
      h.result == if listed.Ok? then Ok(AvailableParamsReply(c, a, listed.value)) else Err(listed.error)
  {
    if c !in s.registry then Handled(Err(ControllerNotFound(c)), s)
    else
      match MC.GetAvailableAttributes(s.registry[c], a)
      case Err(e) => Handled(Err(e), s)
      case Ok(params) => Handled(Ok(AvailableParamsReply(c, a, params)), s)
  }

  /** `handle_get_supported_movement_params`: never cached. */
  function HandleGetSupportedMovementParams(s: State, c: string, a: string): (h: Handled)
    ensures h.state == s
    ensures c !in s.registry ==> h.result == Err(ControllerNotFound(c))
    ensures c in s.registry ==>
      var listed := MC.GetSupportedMovementParams(s.registry[c], a);
      h.result == if listed.Ok? then Ok(SupportedMovementParamsReply(c, a, listed.value)) else Err(listed.error)
  {
    if c !in s.registry then Handled(Err(ControllerNotFound(c)), s)
    else
      match MC.GetSupportedMovementParams(s.registry[c], a)
      case Err(e) => Handled(Err(e), s)
      case Ok(params) => Handled(Ok(SupportedMovementParamsReply(c, a, params)), s)
  }

  /** `handle_list_controllers`: every registered name exactly once. */
  function HandleListControllers(s: State): (h: Handled)
    ensures h.state == s && h.result.Ok?
    ensures h.result.value.Obj? && |h.result.value.fields| == 1 && h.result.value.fields[0].0 == "controllers"
    ensures var listed := h.result.value.fields[0].1;
      listed.Arr? && |listed.items| == |s.registry|
      && (forall name :: name in s.registry <==> Str(name) in listed.items)
      && (forall i, j :: 0 <= i < j < |listed.items| ==> listed.items[i] != listed.items[j])
  {
    var names := NameOrder.Sorted(s.registry.Keys);
    var listed := Strings(names);
    assert forall name :: Str(name) in listed.items <==> name in names by {
      forall name ensures Str(name) in listed.items <==> name in names {
        if name in names {
          var i :| 0 <= i < |names| && names[i] == name;
          assert listed.items[i] == Str(name);
        }
      }
    }
    Handled(Ok(ControllersReply(names)), s)
  }

  /** `handle_list_axes`: the axis names in `axes()` order; never cached. */
  function HandleListAxes(s: State, c: string): (h: Handled)
    ensures h.state == s
    ensures c !in s.registry ==> h.result == Err(ControllerNotFound(c))
    ensures c in s.registry ==> h.result == Ok(AxesReply(c, AxisNames(s.registry[c].axes)))
  {
    if c !in s.registry then Handled(Err(ControllerNotFound(c)), s)
    else Handled(Ok(AxesReply(c, AxisNames(s.registry[c].axes))), s)
  }

  /** One turn of `command_loop`. */
  function Step(s: State, cmd: Command): (h: Handled)
    ensures h.state.registry.Keys == s.registry.Keys
    ensures !cmd.Move? && !cmd.Stop? ==> h.state.registry == s.registry
    ensures cmd.ListControllers? || cmd.ListAxes? ==> h.state == s
  {
    match cmd
    case Move(c, a, target, params) => HandleMove(s, c, a, target, params)
    case Stop(c, a) => HandleStop(s, c, a)
    case GetState(c, a) => HandleGetState(s, c, a)
    case GetPos(c, a) => HandleGetPos(s, c, a)
    case GetAttr(c, a, attr) => HandleGetAttr(s, c, a, attr)
    case GetAvailableParams(c, a) => HandleGetAvailableParams(s, c, a)
    case GetSupportedMovementParams(c, a) => HandleGetSupportedMovementParams(s, c, a)
    case ListControllers => HandleListControllers(s)
    case ListAxes(c) => HandleListAxes(s, c)
  }

  /** `command_loop` over a queue: commands run in order, one at a time, each in the state its
      predecessors left, and each gets one result. */
  function Run(s: State, cmds: seq<Command>): (out: (seq<Fallible<Value>>, State))
    ensures |out.0| == |cmds|
    decreases |cmds|
  {
    if |cmds| == 0 then ([], s)
    else
      var h := Step(s, cmds[0]);
      var rest := Run(h.state, cmds[1..]);
      ([h.result] + rest.0, rest.1)
  }

  class ControllerManager {
    var registry: map<string, MC.Controller>
    var cache: map<string, Value>
    const config: ManagerConfig

    function Snapshot(): State
      reads this
    {
      State(registry, cache)
    }

    /** `ControllerManager::new`: no controllers, an empty cache. */
    constructor (config: ManagerConfig)
      ensures registry == map[] && cache == map[] && this.config == config
    {
      registry := map[];
      cache := map[];
      this.config := config;
    }

    /** `register_controller`: insert, silently replacing an entry of the same name. The cache is
        not touched. */
    method RegisterController(name: string, controller: MC.Controller)
      modifies this
      ensures registry == old(registry)[name := controller]
      ensures cache == old(cache)
    {
      registry := registry[name := controller];
    }

    /** `unregister_controller`: an absent name is a successful no-op; a present one is removed
        before its `shutdown` runs, so it is gone even when shutdown fails. */
    method UnregisterController(name: string) returns (r: Fallible<()>)
      modifies this
      ensures registry == old(registry) - {name}
      ensures cache == old(cache)
      ensures name !in old(registry) ==> r == Ok(())
      ensures name in old(registry) ==> r == MC.ShutdownResult(old(registry)[name])
    {
      r := Ok(());
      if name in registry {
        var controller := registry[name];
        registry := registry - {name};
        var stopped;
        r, stopped := MC.Shutdown(controller);
      }
    }

    /** The body of one `command_loop` turn, updating the registry and the cache in place. */
    method Dispatch(cmd: Command) returns (r: Fallible<Value>)
      modifies this
      ensures Handled(r, Snapshot()) == Step(old(Snapshot()), cmd)
    {
      match cmd
      case Move(c, a, target, params) =>
        if c !in registry {
          return Err(ControllerNotFound(c));
        }
        var (started, moved) := MC.Start(registry[c], a, target, params);
        registry := registry[c := moved];
        if started.Err? {
          return Err(started.error);
        }
        cache := cache - {PositionKey(c, a)};
        r := Ok(MoveAck(target));
      case Stop(c, a) =>
        if c !in registry {
          return Err(ControllerNotFound(c));
        }
        var (stopped, after) := MC.Stop(registry[c], a);
        registry := registry[c := after];
        if stopped.Err? {
          return Err(stopped.error);
        }
        r := Ok(StopAck());
      case GetPos(c, a) =>
        var key := PositionKey(c, a);
        if key in cache {
          return Ok(PositionReply(c, a, cache[key]));
        }
        if c !in registry {
          return Err(ControllerNotFound(c));
        }
        var ax := MC.GetAxis(registry[c], a);
        if ax.Err? {
          return Err(ax.error);
        }
        var pos := Axes.GetPosition(ax.value);
        if pos.Err? {
          return Err(pos.error);
        }
        cache := cache[key := Num(pos.value)];
        r := Ok(PositionReply(c, a, Num(pos.value)));
      case GetState(c, a) =>
        var key := StatusKey(c, a);
        if key in cache {
          return Ok(StatusReply(c, a, cache[key]));
        }
        if c !in registry {
          return Err(ControllerNotFound(c));
        }
        var ax := MC.GetAxis(registry[c], a);
        if ax.Err? {
          return Err(ax.error);
        }
        var info := Axes.GetState(ax.value);
        if info.Err? {
          return Err(info.error);
        }
        cache := cache[key := StatusJson(info.value)];
        r := Ok(StatusReply(c, a, StatusJson(info.value)));
      case GetAttr(c, a, attr) =>
        var key := CacheKey(c, a, attr);
        if key in cache {
          return Ok(AttributeReply(c, a, attr, cache[key]));
        }
        if c !in registry {
          return Err(ControllerNotFound(c));
        }
        var v := MC.GetAttribute(registry[c], a, attr);
        if v.Err? {
          return Err(v.error);
        }
        cache := cache[key := Num(v.value)];
        r := Ok(AttributeReply(c, a, attr, Num(v.value)));
      case GetAvailableParams(c, a) =>
        r := HandleGetAvailableParams(Snapshot(), c, a).result;
      case GetSupportedMovementParams(c, a) =>
        r := HandleGetSupportedMovementParams(Snapshot(), c, a).result;
      case ListControllers =>
        r := HandleListControllers(Snapshot()).result;
      case ListAxes(c) =>
        r := HandleListAxes(Snapshot(), c).result;
    }

    /** `command_loop` draining a queue: one result per command, in arrival order. */
    method CommandLoop(commands: seq<Command>) returns (results: seq<Fallible<Value>>)
      modifies this
      ensures |results| == |commands|
      ensures (results, Snapshot()) == Run(old(Snapshot()), commands)
    {
      results := [];
      var i := 0;
      assert commands[0..] == commands;
      assert Snapshot() == old(Snapshot());
      assert results + Run(Snapshot(), commands).0 == Run(Snapshot(), commands).0;
      while i < |commands|
        invariant 0 <= i <= |commands|
        invariant Run(old(Snapshot()), commands) ==
                  (results + Run(Snapshot(), commands[i..]).0, Run(Snapshot(), commands[i..]).1)
      {
        ghost var before := Snapshot();
        var r := Dispatch(commands[i]);
        assert commands[i..][1..] == commands[i + 1..];
        assert Run(before, commands[i..]) ==
               ([r] + Run(Snapshot(), commands[i + 1..]).0, Run(Snapshot(), commands[i + 1..]).1);
        assert results + ([r] + Run(Snapshot(), commands[i + 1..]).0)
            == (results + [r]) + Run(Snapshot(), commands[i + 1..]).0;
        results := results + [r];
        i := i + 1;
      }
      assert commands[i..] == [];
      assert results + [] == results;
    }

    /** Capacity eviction, which the cache may perform at any time: one key disappears. */
    method Evict(key: string)
      modifies this
      ensures cache == old(cache) - {key}
      ensures registry == old(registry)
    {
      cache := cache - {key};
    }
  }
}
