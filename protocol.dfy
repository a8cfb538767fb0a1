/**
 * The control protocol between the local controller and the extension:
 * command messages `{"type": ...}` in one direction and response records
 * `{"type": "response", "success": ..., "message": ...}` in the other.
 * Messages are taken as already parsed; JSON text is not modelled.
 */
module Protocol {
  import opened Wrappers

  /** A message whose JSON parsed to an object, keeping only its `type` field. */
  datatype Msg = Msg(kind: string)

  /** What arrives on the socket: a parsed message, or text the parser rejected. */
  datatype Incoming = Parsed(msg: Msg) | Malformed

  datatype Command = StartRecording | StopRecording

  const StartType: string := "start-recording"
  const StopType: string := "stop-recording"

  /** The `type` the controller writes for each command. */
  function TypeOf(c: Command): string
  {
    match c
    case StartRecording => StartType
    case StopRecording => StopType
  }

  /**
   * The dispatch on the `type` field: the two command types are recognised,
   * anything else (another type, or a parse failure) is no command at all.
   */
  function Decode(m: Incoming): (cmd: Option<Command>)
    ensures cmd.Some? <==> m.Parsed? && (m.msg.kind == StartType || m.msg.kind == StopType)
    ensures cmd.Some? ==> m == Parsed(Msg(TypeOf(cmd.value)))
  {
    match m
    case Malformed => None
    case Parsed(msg) =>
      if msg.kind == StartType then Some(StartRecording)
      else if msg.kind == StopType then Some(StopRecording)
      else None
  }

  /** Every command the controller sends decodes back to itself. */
  lemma DecodeTypeOf(c: Command)
    ensures Decode(Parsed(Msg(TypeOf(c)))) == Some(c)
  {
  }

  /** The record written on the socket for a response. */
  datatype Frame = Frame(kind: string, success: bool, message: string)

  const ResponseType: string := "response"

  /** The response record built from a success flag and a message. */
  function ResponseFrame(success: bool, message: string): (f: Frame)
    ensures f.kind == ResponseType
  {
    Frame(ResponseType, success, message)
  }
}
