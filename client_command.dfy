/** The request vocabulary of the wire protocol (src/protocol/client_command.rs): ten variants,
    each selected by its "type" tag and each carrying an optional correlation id. */
module ClientCommands {
  import opened Wrappers
  import Movement

  datatype ClientCommand =
    | Move(controller: string, axis: string, target: real, params: Option<Movement.MovementParams>, id: Option<string>)
    | Stop(controller: string, axis: string, id: Option<string>)
    | GetState(controller: string, axis: string, id: Option<string>)
    | GetPosition(controller: string, axis: string, id: Option<string>)
    | GetAttribute(controller: string, axis: string, attribute: string, id: Option<string>)
    | GetAvailableParams(controller: string, axis: string, id: Option<string>)
    | GetSupportedMovementParams(controller: string, axis: string, id: Option<string>)
    | ListControllers(id: Option<string>)
    | ListAxes(controller: string, id: Option<string>)
    | Ping(id: Option<string>)

  /** `id()`: the correlation id, whichever variant carries it. */
  function Id(cmd: ClientCommand): (r: Option<string>)
    ensures r == cmd.id
  {
    match cmd
    case Move(_, _, _, _, id) => id
    case Stop(_, _, id) => id
    case GetState(_, _, id) => id
    case GetPosition(_, _, id) => id
    case GetAttribute(_, _, _, id) => id
    case GetAvailableParams(_, _, id) => id
    case GetSupportedMovementParams(_, _, id) => id
    case ListControllers(id) => id
    case ListAxes(_, id) => id
    case Ping(id) => id
  }

  /** The wire tags, in declaration order. */
  const Tags: seq<string> := ["move", "stop", "get_state", "get_position", "get_attribute",
    "get_available_params", "get_supported_movement_params", "list_controllers", "list_axes", "ping"]

  /** The position of a command's variant in the declaration. */
  function VariantIndex(cmd: ClientCommand): (i: nat)
    ensures i < |Tags|
  {
    match cmd
    case Move(_, _, _, _, _) => 0
    case Stop(_, _, _) => 1
    case GetState(_, _, _) => 2
    case GetPosition(_, _, _) => 3
    case GetAttribute(_, _, _, _) => 4
    case GetAvailableParams(_, _, _) => 5
    case GetSupportedMovementParams(_, _, _) => 6
    case ListControllers(_) => 7
    case ListAxes(_, _) => 8
    case Ping(_) => 9
  }

  /** The "type" tag a command is serialised with. */
  function Tag(cmd: ClientCommand): string {
    match cmd
    case Move(_, _, _, _, _) => "move"
    case Stop(_, _, _) => "stop"
    case GetState(_, _, _) => "get_state"
    case GetPosition(_, _, _) => "get_position"
    case GetAttribute(_, _, _, _) => "get_attribute"
    case GetAvailableParams(_, _, _) => "get_available_params"
    case GetSupportedMovementParams(_, _, _) => "get_supported_movement_params"
    case ListControllers(_) => "list_controllers"
    case ListAxes(_, _) => "list_axes"
    case Ping(_) => "ping"
  }

  /** The variant a tag selects, as the deserialiser looks it up; an unknown tag selects none. */
  function VariantOfTag(tag: string): (r: Option<nat>)
    ensures r.Some? ==> r.value < |Tags| && Tags[r.value] == tag
    ensures r.None? <==> tag !in Tags
  {
    if tag == "move" then Some(0)
    else if tag == "stop" then Some(1)
    else if tag == "get_state" then Some(2)
    else if tag == "get_position" then Some(3)
    else if tag == "get_attribute" then Some(4)
    else if tag == "get_available_params" then Some(5)
    else if tag == "get_supported_movement_params" then Some(6)
    else if tag == "list_controllers" then Some(7)
    else if tag == "list_axes" then Some(8)
    else if tag == "ping" then Some(9)
    else None
  }

  /** The ten tags are pairwise distinct. */
  lemma TagsDistinct()
    ensures forall i, j :: 0 <= i < j < |Tags| ==> Tags[i] != Tags[j]
  {
  }

  /** Tag and variant determine each other: every command's tag selects its own variant, and two
      commands share a tag exactly when they are the same variant. */
  lemma {:induction false} TagSelectsVariant(cmd: ClientCommand, other: ClientCommand)
    ensures Tag(cmd) == Tags[VariantIndex(cmd)]
    ensures VariantOfTag(Tag(cmd)) == Some(VariantIndex(cmd))
    ensures Tag(cmd) == Tag(other) <==> VariantIndex(cmd) == VariantIndex(other)
  {
    TagsDistinct();
  }
}
