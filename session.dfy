/** The request/response mapping of a session (src/socket_server/mod.rs:162-299): parse, run the
    command against the manager, and wrap the outcome in an envelope carrying the request's id.
    Ping is answered without the manager; the clock reading it reports is a parameter. */
module Session {
  import opened Wrappers
  import opened Json
  import opened ClientCommands
  import ServerResponses
  import ProtocolErrors
  import Manager

  /** The manager command a client command becomes; Ping becomes none. */
  function ToManagerCommand(cmd: ClientCommand): (m: Option<Manager.Command>)
    ensures m.None? <==> cmd.Ping?
  {
    match cmd
    case Move(c, a, target, params, _) => Some(Manager.Move(c, a, target, params))
    case Stop(c, a, _) => Some(Manager.Stop(c, a))
    case GetState(c, a, _) => Some(Manager.GetState(c, a))
    case GetPosition(c, a, _) => Some(Manager.GetPos(c, a))
    case GetAttribute(c, a, attribute, _) => Some(Manager.GetAttr(c, a, attribute))
    case GetAvailableParams(c, a, _) => Some(Manager.GetAvailableParams(c, a))
    case GetSupportedMovementParams(c, a, _) => Some(Manager.GetSupportedMovementParams(c, a))
    case ListControllers(_) => Some(Manager.ListControllers)
    case ListAxes(c, _) => Some(Manager.ListAxes(c))
    case Ping(_) => None
  }

  /** The client command that carries a manager command under a given id. */
  function FromManagerCommand(m: Manager.Command, id: Option<string>): (cmd: ClientCommand)
    ensures cmd.id == id && !cmd.Ping?
  {
    match m
    case Move(c, a, target, params) => Move(c, a, target, params, id)
    case Stop(c, a) => Stop(c, a, id)
    case GetState(c, a) => GetState(c, a, id)
    case GetPos(c, a) => GetPosition(c, a, id)
    case GetAttr(c, a, attr) => GetAttribute(c, a, attr, id)
    case GetAvailableParams(c, a) => GetAvailableParams(c, a, id)
    case GetSupportedMovementParams(c, a) => GetSupportedMovementParams(c, a, id)
    case ListControllers => ListControllers(id)
    case ListAxes(c) => ListAxes(c, id)
  }

  /** The mapping drops only the id: every non-ping command is recovered from its manager command
      and its id, and every manager command is reachable. So controller, axis, target, params
      and attribute pass through unchanged. */
  lemma {:induction false} MappingKeepsArguments(cmd: ClientCommand, m: Manager.Command, id: Option<string>)
    ensures !cmd.Ping? ==> FromManagerCommand(ToManagerCommand(cmd).value, Id(cmd)) == cmd
    ensures ToManagerCommand(FromManagerCommand(m, id)) == Some(m)
  {
    match cmd
    case Move(_, _, _, _, _) =>
    case Stop(_, _, _) =>
    case GetState(_, _, _) =>
    case GetPosition(_, _, _) =>
    case GetAttribute(_, _, _, _) =>
    case GetAvailableParams(_, _, _) =>
    case GetSupportedMovementParams(_, _, _) =>
    case ListControllers(_) =>
    case ListAxes(_, _) =>
    case Ping(_) =>
  }

  /** The data of a ping reply. */
  function Pong(timestamp: string): Value {
    Obj([("message", Str("pong")), ("timestamp", Str(timestamp))])
  }

  /** `execute_command`: Ping locally, everything else through one manager step. */
  function Execute(s: Manager.State, cmd: ClientCommand, timestamp: string): (out: Manager.Handled)
    ensures cmd.Ping? ==> out == Manager.Handled(Ok(Pong(timestamp)), s)
    ensures !cmd.Ping? ==> out == Manager.Step(s, ToManagerCommand(cmd).value)
  {
    match ToManagerCommand(cmd)
    case None => Manager.Handled(Ok(Pong(timestamp)), s)
    case Some(m) => Manager.Step(s, m)
  }

  /** `process_command`: a parse failure is an error without id and leaves the manager alone;
      otherwise the outcome is wrapped with the request's own id. */
  function ProcessCommand(s: Manager.State, decoded: Result<ClientCommand, ProtocolErrors.JsonError>, timestamp: string): (out: (ServerResponses.ServerResponse, Manager.State))
    ensures decoded.Err? ==> out.1 == s && out.0.Error? && out.0.id.None? && out.0.code.None?
    ensures decoded.Ok? ==>
      var h := Execute(s, decoded.value, timestamp);
      out.0.id == decoded.value.id && out.1 == h.state && (out.0.Success? <==> h.result.Ok?)
  {
    match ProtocolErrors.ParseCommand(decoded)
    case Err(e) =>
      (ServerResponses.MakeError(None, "Failed to parse command: " + ProtocolErrors.Display(e)), s)
    case Ok(cmd) =>
      var id := Id(cmd);
      var h := Execute(s, cmd, timestamp);
      match h.result
      case Ok(data) => (ServerResponses.MakeSuccess(id, data), h.state)
      case Err(message) => (ServerResponses.MakeError(id, message), h.state)
  }

  /** A line that does not decode gets an error with no id naming the decoder's complaint, and the
      manager sees nothing. */
  lemma ParseFailureAnswersWithoutId(s: Manager.State, err: ProtocolErrors.JsonError, timestamp: string)
    ensures ProcessCommand(s, Err(err), timestamp)
      == (ServerResponses.Error(None, "Failed to parse command: Invalid JSON: " + err.text, None), s)
  {
    assert "Failed to parse command: " + (ProtocolErrors.InvalidJsonPrefix + err.text)
        == "Failed to parse command: Invalid JSON: " + err.text;
  }

  /** A decoded request's reply carries exactly its id, is a success exactly when the command
      succeeded, and carries the command's data or error text; no reply has a code. */
  lemma {:induction false} ReplyEchoesId(s: Manager.State, cmd: ClientCommand, timestamp: string)
    ensures var (reply, after) := ProcessCommand(s, Ok(cmd), timestamp);
      var h := Execute(s, cmd, timestamp);
      reply.id == cmd.id && after == h.state
      && (reply.Success? <==> h.result.Ok?)
      && (reply.Success? ==> reply.data == h.result.value)
      && (reply.Error? ==> reply.message == h.result.error && reply.code.None?)
  {
    assert ProtocolErrors.ParseCommand(Ok(cmd)) == Ok(cmd);
  }

  /** Ping never reaches the manager and always succeeds with "pong" and a timestamp. */
  lemma PingIsLocal(s: Manager.State, id: Option<string>, timestamp: string)
    ensures var (reply, after) := ProcessCommand(s, Ok(Ping(id)), timestamp);
      after == s && reply.Success? && reply.id == id
      && Lookup(reply.data.fields, "message") == Some(Str("pong"))
      && Lookup(reply.data.fields, "timestamp").Some?
  {
    LookupFirst(Pong(timestamp).fields, "message", 0);
    LookupFirst(Pong(timestamp).fields, "timestamp", 1);
  }
}
