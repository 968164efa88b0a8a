# motarem — a Dafny model of the motor-control gateway core

motarem is a device-control gateway. Motor controllers, each owning named axes, register with a
central `ControllerManager`. The manager executes every motion and read command one after another
in a single command loop. It caches read results (position, status, attributes) under keys of the
form `controller::axis::kind`. A socket server turns JSON request lines into manager commands and
replies with `success`/`error` response objects. It admits at most `max_connections` clients at a time.

This project models that core in Dafny:

- **Values** (`axis_status.dfy`, `limit_switches.dfy`, `movement.dfy`). These cover the axis state
  snapshot, limit-switch status and movement parameters, together with their queries and builders.
- **Axes and controllers** (`axis.dfy`, `motor_controller.dfy`).
  - The `Axis` and `MotorController` trait defaults become functions over a closed union of axis
    kinds and controller kinds:
    - a `Scripted` axis is a generic backend that keeps every trait default: a hidden state, with
      answers and transitions over it for the required methods. Its `get_position` is
      `get_attribute("position")`, and its parameter lists are the default ones;
    - a `Mock` axis is the mock backend.
  - An axis is a value stored inside its controller. Operations that change an axis return the
    updated controller.
  - Controller shutdown is a `method` with a loop.
- **Mock backend**. `mock_axis.dfy` holds the pure specification. `mock_axis_cells.dfy` is the
  mutable object whose position and state cells `start`/`stop` write. `mock_controller.dfy` is the
  three-axis mock controller.
- **Manager** (`manager.dfy`).
  - Each `handle_*` is a function from a manager state (registry and cache) to a result and a new
    state.
  - `Step` is one round of the command loop, and `Run` is the loop over a command list.
  - `class ControllerManager` holds mutable `registry`/`cache` fields. Its `Dispatch` and
    `CommandLoop` methods are proved equal to `Step` and `Run`.
- **Cache properties** (`cache_properties.dfy`, `coherence.dfy`):
  - which keys each command touches;
  - that a hit is independent of the backend;
  - that a move forces a fresh position read;
  - a preserved coherence invariant: every cached position equals the axis's current position.
    It holds under three hypotheses, each listed under "Left out": controller and axis names
    without ':', `get_position` agreeing with `get_attribute("position")`, and backends that move
    only on a successful start, as the mock does;
  - a concrete registry with colon-bearing names where two axes share one position entry;
  - a concrete backend whose stop moves the axis, for which the cache serves a stale position.
- **Protocol** (`client_command.dfy`, `server_response.dfy`, `protocol_error.dfy`, `json.dfy`):
  - command variant tags and `id()`;
  - response constructors and their JSON omission rules, with a round trip through a JSON reader;
  - error display texts and conversions.
- **Session** (`session.dfy`). This is `process_command`/`execute_command`: the mapping from client
  commands to manager commands, the Ping reply and the id echo.
- **Admission** (`admission.dfy`). The connection counter keeps `active <= max` as a class invariant.
- **Scenarios** (`scenarios.dfy`). These are end-to-end examples over a registered mock controller
  `c1`: a move is acknowledged, an accelerated move on `Z` is refused, a move followed by a position
  read, an unknown attribute, Ping, and an unknown controller.

Floating-point values are modelled as `real`.

## Model

| member | source | states |
|---|---|---|
| LimitSwitch.ActiveIffUpperOrLower | src/axis/limit_switches.rs:10-24 | a switch is active exactly when the upper or lower switch is set; `Both` is upper and lower together; clear means neither |
| LimitSwitch.SwitchesDeterminedByQueries | src/axis/limit_switches.rs:10-16 | two switch values are equal iff they answer `has_upper` and `has_lower` alike |
| AxisStatus.New | src/axis/state_info.rs:12-18 | a fresh snapshot carries the state, no message and no active limit switch |
| AxisStatus.WithMessage | src/axis/state_info.rs:20-23 | sets the message and keeps state and switches |
| AxisStatus.WithLimitSwitches | src/axis/state_info.rs:25-28 | sets the switches and keeps state and message |
| AxisStatus.ReadyExcludesMovingAndFaulted | src/axis/state_info.rs:30-40 | a ready axis is neither moving nor faulted; no state is both moving and faulted |
| AxisStatus.SwitchBlocksReadiness | src/axis/state_info.rs:12-40 | readiness holds iff the state is `On` and no switch is active; a message does not change readiness |
| AxisStatus.StateNameInjective | src/axis/state.rs:1-8 | distinct states have distinct names |
| Movement.New | src/axis/movement_parameters.rs:14-21 | new parameters have no velocity, acceleration or deceleration and no custom entries |
| Movement.Default | src/axis/movement_parameters.rs:44-48 | the default parameters are the new parameters |
| Movement.BuildersSetOnlyTheirField | src/axis/movement_parameters.rs:23-41 | each builder sets its own field and leaves every other field unchanged |
| Movement.CustomParamOverwrites | src/axis/movement_parameters.rs:38-41 | a custom parameter is inserted or overwritten under its name; other custom entries are unchanged |
| Movement.BuildersCommuteAndLastWins | src/axis/movement_parameters.rs:23-41 | builders on different fields commute; a repeated builder keeps only the last value |
| MockAxes.New | examples/mock_controller.rs:79-90 | a mock axis starts at position 0 in state `On`, with velocity 100, acceleration 1000 and limits -1000..1000 |
| MockAxes.Start | examples/mock_controller.rs:99-136 | fails iff acceleration is requested on an axis without support, with the message "Axis N does not support acceleration parameter", and then nothing changes; otherwise the position becomes the target and the state ends `On` |
| MockAxes.Stop | examples/mock_controller.rs:138-142 | stop always succeeds and leaves the axis `On` with everything else unchanged |
| MockAxes.GetAttribute | examples/mock_controller.rs:153-173 | each named attribute reads its field; acceleration is only readable with support; any other name fails with "Unknown parameter: " and the name |
| MockAxes.AvailableIffReadable | examples/mock_controller.rs:153-189 | a name is listed as available iff reading it succeeds |
| MockAxes.ListsFollowAccelerationSupport | examples/mock_controller.rs:175-200 | the available list has 6 entries with acceleration support and 5 without, and includes acceleration iff it is supported; the movement list is [velocity, acceleration, deceleration] with support and [velocity] without |
| MockAxes.MotionEndsOn | examples/mock_controller.rs:99-142 | after a successful start, or any stop, the axis is `On` |
| MockAxisObjects.MockAxisCells.constructor | examples/mock_controller.rs:79-90 | the object's cells hold the values of a new mock axis |
| MockAxisObjects.MockAxisCells.Start | examples/mock_controller.rs:99-136 | validating, then writing position and state, leaves the object exactly as the pure `Start` says, with the same result |
| MockAxisObjects.MockAxisCells.Stop | examples/mock_controller.rs:138-142 | writing the state cell agrees with the pure `Stop` |
| MockAxisObjects.MockAxisCells.AvailableParamsList | examples/mock_controller.rs:175-189 | the list built by pushing entries equals the specified available list |
| MockAxisObjects.MockAxisCells.SupportedMovementParamsList | examples/mock_controller.rs:191-200 | the list built by pushing entries equals the specified movement list |
| Axes.Start | src/axis/mod.rs:13 | starting keeps the axis name and the backend; a generic backend answers from its state and moves to the next state it names, even on failure; a refused mock start changes nothing; on a backend that moves only on start, a refused start keeps the position |
| Axes.Stop | src/axis/mod.rs:14 | stopping keeps the name and the backend; the mock's stop succeeds and keeps the position; a generic backend keeps its position exactly under the moves-only-on-start hypothesis |
| Axes.MockMovesOnlyOnStart | examples/mock_controller.rs:99-142 | in every state, a refused mock start and every mock stop keep the position, so the mock meets the moves-only-on-start hypothesis |
| Axes.GetPosition | src/axis/mod.rs:19-21 | a default axis reads its position through the "position" attribute; the mock reads its position field |
| Axes.GetAvailableParams | src/axis/mod.rs:23-25 | a default axis lists only "position"; listing never fails |
| Axes.GetSupportedMovementParams | src/axis/mod.rs:27-33 | a default axis lists velocity, acceleration and deceleration; listing never fails |
| Axes.PositionIsPositionAttribute | src/axis/mod.rs:19-21 | for every axis, the position read equals the "position" attribute read |
| Axes.MockAvailableIffReadable | examples/mock_controller.rs:153-189 | for a mock axis, a name is listed as available iff reading that attribute succeeds |
| MotorControllers.FindAxis | src/motor_controller/mod.rs:10-18 | returns the first index whose axis has the name, and none iff no axis has it |
| MotorControllers.GetAxis | src/motor_controller/mod.rs:10-18 | succeeds iff some axis has the name, with the first such axis; fails with "Axis not found: A in controller C" |
| MotorControllers.LookupAfterUpdate | src/motor_controller/mod.rs:10-18 | replacing an axis by one of the same name keeps every lookup, except that the replaced one now returns the new axis |
| MotorControllers.Start | src/motor_controller/mod.rs:27-35 | an unknown axis fails with the lookup error and changes nothing; otherwise the axis's start is applied and the axis is written back as it was left, even on failure; a refused start on a mock axis changes nothing |
| MotorControllers.Stop | src/motor_controller/mod.rs:37-40 | the same structure as start, applied to the axis's stop; the stopped axis keeps its position when its backend moves only on start |
| MotorControllers.State | src/motor_controller/mod.rs:42-45 | an unknown axis fails with the lookup error; otherwise the axis's state |
| MotorControllers.GetAvailableAttributes | src/motor_controller/mod.rs:57-60 | an unknown axis fails with the lookup error; otherwise the axis's available list |
| MotorControllers.GetSupportedMovementParams | src/motor_controller/mod.rs:62-65 | an unknown axis fails with the lookup error; otherwise the axis's movement list |
| MotorControllers.GetAttribute | src/motor_controller/mod.rs:47-55 | the default checks the available list first and fails with "Attribute not supported: " and the name; the mock controller override reads the axis directly |
| MotorControllers.DefaultListAdmitsOnlyPosition | src/motor_controller/mod.rs:47-55 | with default axes, only "position" can be read, and any other name is refused as not supported |
| MotorControllers.ListCheckRedundantOnMockAxes | examples/mock_controller.rs:60-63 | on a mock axis the default check and the direct read succeed on the same names |
| MotorControllers.ShutdownResult | src/motor_controller/mod.rs:20-25 | for the default shutdown: success iff every axis stops, otherwise the error of the first failing stop; for the mock controller's override (examples/mock_controller.rs:40-43): success whatever the axes would do |
| MotorControllers.Shutdown | src/motor_controller/mod.rs:20-25 | the loop returns the specified shutdown result; the default stops the axes in order up to and including the first failure and leaves the later axes untouched; the mock controller's override changes nothing |
| MockControllers.NewMockController | examples/mock_controller.rs:14-28 | the mock controller has axes X, Y and Z at position 0 in state `On`, and only X and Y support acceleration |
| MockControllers.MockAxesResolve | examples/mock_controller.rs:14-28 | X, Y, Z resolve to the three axes, and every other name is not found |
| MockControllers.MockShutdownStopsNothing | examples/mock_controller.rs:40-43 | the mock controller's shutdown always succeeds |
| Json.Lookup | src/protocol/server_response.rs:3-19 | finds a key iff some field carries it, and returns the value of its first occurrence |
| Json.Strings | src/controller_manager/mod.rs:305-325 | a string list becomes a JSON array of the same length and contents |
| NameOrder.Sorted | src/controller_manager/mod.rs:305-311 | enumerates a set of names exactly once each, with the set's size as its length |
| Manager.AxisNames | src/controller_manager/mod.rs:313-325 | the name list matches the axes list position by position |
| Manager.HandleMove | src/controller_manager/mod.rs:166-184 | an unknown controller fails with "Controller not found" and changes nothing; otherwise the controller is written back as the start left it; a refused start returns its error with the cache unchanged; success acknowledges the target and drops only that axis's position key |
| Manager.HandleStop | src/controller_manager/mod.rs:186-197 | the cache is untouched; an unknown controller fails and changes nothing; otherwise the controller is written back as the stop left it, and the reply is the stop's error or the stop acknowledgement |
| Manager.HandleGetPos | src/controller_manager/mod.rs:199-227 | a hit returns the cached value and changes nothing; a failed miss changes nothing; a successful miss returns the fresh position and caches exactly it under the position key |
| Manager.HandleGetState | src/controller_manager/mod.rs:229-252 | the same pattern as position, under the status key, caching the state/message/limit_switches object |
| Manager.HandleGetAttr | src/controller_manager/mod.rs:254-277 | the same pattern under the attribute's own key, reading through the controller's get_attribute |
| Manager.HandleGetAvailableParams | src/controller_manager/mod.rs:279-290 | never changes the state; an unknown controller fails; otherwise the controller's answer as a JSON list |
| Manager.HandleGetSupportedMovementParams | src/controller_manager/mod.rs:292-303 | never changes the state; an unknown controller fails; otherwise the controller's answer as a JSON list |
| Manager.HandleListControllers | src/controller_manager/mod.rs:305-311 | never changes the state; its one field "controllers" lists each registered name exactly once |
| Manager.HandleListAxes | src/controller_manager/mod.rs:313-325 | never changes the state; an unknown controller fails; otherwise the controller and its axis names in order |
| Manager.Step | src/controller_manager/mod.rs:81-163 | one turn of the loop runs the handler of the command's variant (the `Handle*` rows); only move and stop change the registry, never its set of names; the list commands change nothing; which cache key each command may touch is `CacheProperties.StepTouchesOnlyItsKeys` |
| Manager.Run | src/controller_manager/mod.rs:81-163 | the loop answers every command, one reply each; what each reply is, is stated by `CacheProperties.RunResultAt` |
| Manager.ControllerManager.constructor | src/controller_manager/mod.rs:23-42 | a new manager has an empty registry and cache |
| Manager.ControllerManager.RegisterController | src/controller_manager/mod.rs:44-53 | adds or replaces the controller under its name; the cache is untouched |
| Manager.ControllerManager.UnregisterController | src/controller_manager/mod.rs:55-61 | removes the name; an absent name gives success; otherwise the result is the controller's shutdown result |
| Manager.ControllerManager.Dispatch | src/controller_manager/mod.rs:81-163 | the imperative dispatch of one command leaves registry, cache and reply exactly as `Step` specifies |
| Manager.ControllerManager.CommandLoop | src/controller_manager/mod.rs:76-164 | the loop over a command sequence produces exactly the replies and final state of `Run` |
| Manager.ControllerManager.Evict | src/controller_manager/mod.rs:24-26 | the capacity-bounded cache may drop one entry at any time: that key disappears and nothing else changes; coherence survives it (`CacheCoherence.RemovalKeepsCoherence`) |
| CacheProperties.StepTouchesOnlyItsKeys | src/controller_manager/mod.rs:166-325 | a command changes at most its own cache key and never adds or removes controllers |
| CacheProperties.StepDependsOnlyOnItsKeys | src/controller_manager/mod.rs:199-277 | a command's reply does not depend on cache entries outside its own key |
| CacheProperties.HitIgnoresRegistry | src/controller_manager/mod.rs:205-211 | a cached read answers the same whatever the registry holds, and changes nothing |
| CacheProperties.RepeatedReadAgrees | src/controller_manager/mod.rs:199-277 | repeating a read gives the same reply and state |
| CacheProperties.FailedReadCachesNothing | src/controller_manager/mod.rs:213-226 | a read that fails leaves the state unchanged |
| CacheProperties.MoveForcesFreshPosition | src/controller_manager/mod.rs:181-183 | after a successful move the next position read goes to the axis; a refused move leaves the cache as it was, so a cached position is still served |
| CacheProperties.MockMoveThenPositionIsTarget | src/controller_manager/mod.rs:166-227 | on a mock axis, a move without parameters followed by a position read returns the target |
| CacheProperties.StatusKeySharedWithAttribute | src/controller_manager/mod.rs:229-277 | a state read fills the key that an attribute read of "status" would find |
| CacheProperties.RunAppend | src/controller_manager/mod.rs:81-163 | running two command lists in turn equals running their concatenation |
| CacheProperties.RunResultAt | src/controller_manager/mod.rs:81-163 | the i-th reply is the step of the i-th command on the state left by the earlier ones |
| CacheCoherence.CacheKeyInjective | src/controller_manager/mod.rs:181 | with colon-free names, equal cache keys mean equal controller, axis and kind |
| CacheCoherence.ResolvedIsColonFree | src/controller_manager/mod.rs:199-227 | in a well-named registry a resolvable axis has colon-free names |
| CacheCoherence.PositionAttributeIsPosition | src/motor_controller/mod.rs:47-55 | the "position" attribute of any resolvable axis reads its position |
| CacheCoherence.UpdateKeepsNames | src/controller_manager/mod.rs:166-197 | writing back a controller with the same axis names keeps the registry well-named |
| CacheCoherence.WriteBackPreservesCoherence | src/controller_manager/mod.rs:166-197 | writing back a controller keeps coherence when the changed axis kept its position or its position key was dropped |
| CacheCoherence.MovePreservesCoherence | src/controller_manager/mod.rs:166-184 | when every backend moves only on start, a move keeps every cached position equal to the current one |
| CacheCoherence.StopPreservesCoherence | src/controller_manager/mod.rs:186-197 | when every backend moves only on start, a stop keeps every cached position equal to the current one |
| CacheCoherence.InsertPreservesCoherence | src/controller_manager/mod.rs:213-226 | inserting a freshly read value keeps coherence |
| CacheCoherence.StepPreservesCoherence | src/controller_manager/mod.rs:81-163 | when every backend moves only on start, every command keeps the registry well-named, keeps that hypothesis, and keeps the cache coherent |
| CacheCoherence.RunPreservesCoherence | src/controller_manager/mod.rs:76-164 | under the same hypothesis the command loop keeps coherence over any command list |
| CacheCoherence.CoherentPositionIsCurrent | src/controller_manager/mod.rs:199-227 | in a coherent state a cached position answer equals the uncached read |
| CacheCoherence.RegisterKeepsCoherence | src/controller_manager/mod.rs:44-53 | registering a fresh name whose axes move only on start keeps coherence |
| CacheCoherence.RemovalKeepsCoherence | src/controller_manager/mod.rs:55-61 | unregistering keeps coherence once the removed controller's keys are dropped |
| CacheCoherence.ReRegistrationServesStalePosition | src/controller_manager/mod.rs:44-61 | replacing a controller under the same name, without touching the cache, serves the old cached position |
| CacheCoherence.ColonNamesShareCacheEntry | src/controller_manager/mod.rs:181-205 | keys are built as `controller::axis::kind`, so "a::b"/"c" and "a"/"b::c" share a position key; with both registered, a read of the second caches 0 and a read of the first answers 0 although its axis stands at 5 |
| CacheCoherence.StopOnCreepingBackendServesStale | src/controller_manager/mod.rs:186-227 | for a backend whose stop moves the axis, a read caches 0, the stop moves it to 1, and the next read still answers the stale 0 |
| ClientCommands.Id | src/protocol/client_command.rs:79-94 | every variant returns its own optional id |
| ClientCommands.VariantOfTag | src/protocol/client_command.rs:5-77 | a tag names a variant iff it is one of the ten wire tags |
| ClientCommands.TagsDistinct | src/protocol/client_command.rs:5-77 | the ten tags are pairwise distinct |
| ClientCommands.TagSelectsVariant | src/protocol/client_command.rs:5-77 | a command's tag decodes back to its variant, and two commands share a tag iff they share a variant |
| ServerResponses.MakeSuccess | src/protocol/server_response.rs:23-25 | builds a success with the given id and data |
| ServerResponses.MakeError | src/protocol/server_response.rs:27-33 | builds an error with the given id and message, and no code |
| ServerResponses.MakeErrorWithCode | src/protocol/server_response.rs:35-41 | builds an error with the given id, message and code |
| ServerResponses.ToJson | src/protocol/server_response.rs:3-19 | the object's first field is the status tag |
| ServerResponses.SuccessOmissionRules | src/protocol/server_response.rs:3-11 | a success object carries "success", its data, the id iff present, and no message or code |
| ServerResponses.ErrorOmissionRules | src/protocol/server_response.rs:12-19 | an error object carries "error", its message, the id iff present, the code iff present, and no data |
| ServerResponses.FromJsonToJson | src/protocol/server_response.rs:3-19 | reading back the JSON form gives the original response |
| ProtocolErrors.ParseDisplayInverts | src/protocol/error.rs:9-18 | each error's display text determines the error |
| ProtocolErrors.DisplayInjective | src/protocol/error.rs:9-18 | two errors display the same iff they are equal |
| ProtocolErrors.FromJsonError | src/protocol/error.rs:22-26 | a JSON error becomes InvalidJson displayed as "Invalid JSON: " and its text |
| ProtocolErrors.FromIoError | src/protocol/error.rs:28-32 | an I/O error becomes IoError displayed as "IO error: " and its text |
| ProtocolErrors.ParseCommand | src/protocol/mod.rs:11-13 | a decoded command passes through; a decoding failure becomes InvalidJson with the decoder's text |
| Session.ToManagerCommand | src/socket_server/mod.rs:180-293 | every client command except Ping maps to a manager command |
| Session.MappingKeepsArguments | src/socket_server/mod.rs:180-293 | the mapping keeps every argument in both directions |
| Session.Execute | src/socket_server/mod.rs:180-299 | Ping answers Pong without touching the manager; every other command is one manager step |
| Session.ProcessCommand | src/socket_server/mod.rs:162-178 | a line that does not decode gets an error with no id and no code and leaves the manager alone; a decoded command's reply carries its id, is a success exactly when execution succeeded, and the manager ends in the state execution left; the texts are `ParseFailureAnswersWithoutId`, `ReplyEchoesId` and `PingIsLocal` |
| Session.ParseFailureAnswersWithoutId | src/socket_server/mod.rs:163-167 | a malformed line gives an error without an id, "Failed to parse command: " followed by the error text, and the state is unchanged |
| Session.ReplyEchoesId | src/socket_server/mod.rs:168-177 | the reply carries the request's id; success carries the step's data, failure its message |
| Session.PingIsLocal | src/socket_server/mod.rs:294-297 | Ping succeeds with a pong at the current timestamp and leaves the manager state unchanged |
| Admission.ConnectionCounter.constructor | src/socket_server/mod.rs:56-59 | no connection is active at the start |
| Admission.ConnectionCounter.Accept | src/socket_server/mod.rs:66-73 | admits iff fewer than the maximum are active, counting one more; a refusal changes nothing; `active <= max` is kept |
| Admission.ConnectionCounter.Release | src/socket_server/mod.rs:86 | a closing admitted connection counts one fewer and reports the remaining count |
| Scenarios.MoveIsAcknowledged | src/socket_server/mod.rs:162-299 | moving c1's X to 100 with id "1" replies success with id "1" and data {status: ok, action: move, target: 100} |
| Scenarios.ControllerRefusesAcceleratedZ | examples/mock_controller.rs:112-119 | the mock controller refuses acceleration on Z with "Axis Z does not support acceleration parameter" |
| Scenarios.ManagerRefusesAcceleratedZ | src/controller_manager/mod.rs:166-184 | the manager passes that refusal on and changes nothing |
| Scenarios.UnsupportedAccelerationIsRefused | src/socket_server/mod.rs:162-299 | the client receives that message as an error and nothing changes |
| Scenarios.UnknownAttributeIsRefused | examples/mock_controller.rs:153-173 | an unknown attribute on c1's X is refused with "Unknown parameter: bogus" |
| Scenarios.PingIsAnswered | src/socket_server/mod.rs:294-297 | a ping with an id is answered with a pong that echoes the id |
| Scenarios.UnknownControllerIsReported | src/controller_manager/mod.rs:313-325 | listing the axes of an unregistered controller replies "Controller not found: unknown" |
| Scenarios.MoveThenPosition | src/controller_manager/mod.rs:166-227 | after moving c1's Y to 50, a position read answers 50 |

## Left out

- Concurrency. The tokio tasks, mpsc/oneshot channels and their send/receive failures are not
  modelled; arrival order is taken as the command sequence given to `CommandLoop`/`Run`.
  Concurrent clients and the atomic counter's interleavings are also not modelled.
- Socket I/O, `handle_client`, `SocketServer::start`/`shutdown` (src/socket_server/mod.rs:36-160)
  and line framing are not modelled.
- JSON text is not parsed or printed. `ParseCommand`/`ProcessCommand` take the decoder's outcome as
  a parameter, an already decoded command or its error text. `serialize_response` is represented
  only by `ToJson`.
- Interior mutability is not modelled.
  - An axis is shared through `Arc` and mutated through its own cells. The model instead
    returns an updated controller value, which the manager writes back into the registry.
  - Aliasing between two registry entries that share one axis object is therefore not modelled.
- Capacity-driven eviction by the cache library (moka) is not modelled as a policy. It can drop an
  entry at any time. `ControllerManager.Evict` models that drop as an explicit step. It keeps
  coherence, as any removal of keys does (`RemovalKeepsCoherence`).
- There is no TTL expiry to model. The cache is built with a capacity only
  (src/controller_manager/mod.rs:24-26). The configured `default_ttl` is stored but never applied
  to the cache.
- Logging is not modelled: the `warn!`, `debug!` and `error!` calls around admission and client
  handling (src/socket_server/mod.rs:68, 74, 83, 87) have no effect on state or replies.
- `ManagerConfig` and `SocketServerConfig` `Default` values, `send_command`, `cache()` and
  `config()` accessors are not modelled; they carry no logic.
- Floating point. Positions and parameters are `real`, so NaN, infinities and rounding are not
  modelled. The Ping timestamp is a parameter instead of the clock.
- The mock axis's simulated travel time (`sleep`) is not modelled. Its transient `Moving` state is
  not observable between commands, because the loop runs one command at a time. The object form
  still writes it before `On`.
- The order of `list_controllers` is not modelled. HashMap iteration order is unspecified; the model
  lists names in lexicographic order, and the contract promises only that each registered name
  appears exactly once.
- `main` of the mock example is not modelled.
- Generic backends are time-free. A `Scripted` axis changes state only when it answers a start or a
  stop. The model cannot express a backend that keeps moving after `start` returns, so a position cached
  during such a motion is not covered.
- Cache coherence is proved only for controller and axis names without ':'
  (`CacheCoherence.WellNamed`). Keys are `controller::axis::kind` (src/controller_manager/mod.rs:181,
  205), and the registry accepts any name. With ':' in names, two axes can share a position key,
  and one is answered with the other's position (`CacheCoherence.ColonNamesShareCacheEntry`).
- Backends overriding `get_position` are not modelled. In the `Axis` trait, `get_position` is an
  overridable default that reads `get_attribute("position")` (src/axis/mod.rs:19-21). A `Scripted`
  axis keeps that default, and the mock's override returns the same value as its "position"
  attribute (`Axes.PositionIsPositionAttribute`). So coherence also relies on the two reads
  agreeing. That matters because `get_position` and `get_attribute(..., "position")` fill the same
  key (src/controller_manager/mod.rs:205, 261). A backend whose two reads disagree would have one
  of them answered from the other's entry.
- Cache coherence is proved only for backends that move only on a successful start
  (`Axes.MovesOnlyOnStart`). The mock satisfies this (`Axes.MockMovesOnlyOnStart`). The `Axis` trait
  promises nothing of the kind. For a backend whose stop moves the axis, the cache serves a stale
  position (`CacheCoherence.StopOnCreepingBackendServesStale`).
- Manager.HandleStop: stop does not invalidate the position key; only a successful move does
  (src/controller_manager/mod.rs:166-197). The model follows the code.
- Movement parameters arriving without a `custom` member would be refused by the JSON decoder. The
  field has no serde default. The model assumes decoding has already happened, so this decoder
  behaviour is not modelled. For the same reason, the field layout of each request variant
  (src/protocol/client_command.rs:5-77) is not modelled beyond the variant tags.

Documented behaviours of the code, proved as lemmas rather than corrected:

- `CacheProperties.StatusKeySharedWithAttribute`. `get_state` and `get_attribute(..., "status")`
  share the key `c::a::status`.
- `CacheCoherence.ReRegistrationServesStalePosition`. Re-registering a controller under a used name
  does not clear its cached entries.
