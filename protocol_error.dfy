/** Protocol-level failures (src/protocol/error.rs, src/protocol/mod.rs). The texts of foreign
    errors, a serde_json decode error or an io error, enter as the strings their `Display` gives. */
module ProtocolErrors {
  import opened Wrappers
  import ClientCommands

  /** A serde_json error, known by its text. */
  datatype JsonError = JsonError(text: string)

  /** A `std::io::Error`, known by its text. */
  datatype IoFailure = IoFailure(text: string)

  datatype ProtocolError =
    | InvalidJson(message: string)
    | UnsupportedCommand(command: string)
    | MissingField(field: string)
    | IoError(err: IoFailure)

  const InvalidJsonPrefix := "Invalid JSON: "
  const UnsupportedCommandPrefix := "Unsupported command: "
  const MissingFieldPrefix := "Missing required field: "
  const IoErrorPrefix := "IO error: "

  /** `Display`: a fixed prefix per variant, then the payload. */
  function Display(e: ProtocolError): string {
    match e
    case InvalidJson(message) => InvalidJsonPrefix + message
    case UnsupportedCommand(command) => UnsupportedCommandPrefix + command
    case MissingField(field) => MissingFieldPrefix + field
    case IoError(err) => IoErrorPrefix + err.text
  }

  /** Reading a displayed error back: the prefix names the variant, the rest is the payload. */
  function ParseDisplay(s: string): Option<ProtocolError> {
    if |s| >= |InvalidJsonPrefix| && s[..|InvalidJsonPrefix|] == InvalidJsonPrefix then
      Some(InvalidJson(s[|InvalidJsonPrefix|..]))
    else if |s| >= |UnsupportedCommandPrefix| && s[..|UnsupportedCommandPrefix|] == UnsupportedCommandPrefix then
      Some(UnsupportedCommand(s[|UnsupportedCommandPrefix|..]))
    else if |s| >= |MissingFieldPrefix| && s[..|MissingFieldPrefix|] == MissingFieldPrefix then
      Some(MissingField(s[|MissingFieldPrefix|..]))
    else if |s| >= |IoErrorPrefix| && s[..|IoErrorPrefix|] == IoErrorPrefix then
      Some(IoError(IoFailure(s[|IoErrorPrefix|..])))
    else None
  }

  /** The displayed text determines the error: no message of one variant reads as another's. */
  lemma {:induction false} ParseDisplayInverts(e: ProtocolError)
    ensures ParseDisplay(Display(e)) == Some(e)
  {
    var s := Display(e);
    match e
    case InvalidJson(message) =>
      assert s[..|InvalidJsonPrefix|] == InvalidJsonPrefix;
      assert s[|InvalidJsonPrefix|..] == message;
    case UnsupportedCommand(command) =>
      assert s[0] == 'U' && InvalidJsonPrefix[0] == 'I';
      assert s[..|UnsupportedCommandPrefix|] == UnsupportedCommandPrefix;
      assert s[|UnsupportedCommandPrefix|..] == command;
    case MissingField(field) =>
      assert s[0] == 'M' && InvalidJsonPrefix[0] == 'I' && UnsupportedCommandPrefix[0] == 'U';
      assert s[..|MissingFieldPrefix|] == MissingFieldPrefix;
      assert s[|MissingFieldPrefix|..] == field;
    case IoError(err) =>
      assert s[1] == 'O' && InvalidJsonPrefix[1] == 'n';
      assert s[0] == 'I' && UnsupportedCommandPrefix[0] == 'U' && MissingFieldPrefix[0] == 'M';
      assert s[..|IoErrorPrefix|] == IoErrorPrefix;
      assert s[|IoErrorPrefix|..] == err.text;
  }

  /** Distinct errors never display the same text. */
  lemma DisplayInjective(e: ProtocolError, e': ProtocolError)
    ensures Display(e) == Display(e') <==> e == e'
  {
    if Display(e) == Display(e') {
      ParseDisplayInverts(e);
      ParseDisplayInverts(e');
    }
  }

  /** `From<serde_json::Error>`: every decode error becomes `InvalidJson` with its text. */
  function FromJsonError(err: JsonError): (e: ProtocolError)
    ensures e.InvalidJson? && Display(e) == InvalidJsonPrefix + err.text
  {
    InvalidJson(err.text)
  }

  /** `From<std::io::Error>`: every io error becomes `IoError`, keeping the error itself. */
  function FromIoError(err: IoFailure): (e: ProtocolError)
    ensures e.IoError? && e.err == err && Display(e) == IoErrorPrefix + err.text
  {
    IoError(err)
  }

  /** `parse_command`: the decoder's outcome with its error converted. The decoder itself is
      a parameter: it is serde_json's derived deserialiser. */
  function ParseCommand(decoded: Result<ClientCommands.ClientCommand, JsonError>): (r: Result<ClientCommands.ClientCommand, ProtocolError>)
    ensures decoded.Ok? ==> r == Ok(decoded.value)
    ensures decoded.Err? ==> r.Err? && r.error.InvalidJson? && Display(r.error) == InvalidJsonPrefix + decoded.error.text
  {
    match decoded
    case Ok(cmd) => Ok(cmd)
    case Err(err) => Err(FromJsonError(err))
  }
}
