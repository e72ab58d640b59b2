/** The messages exchanged over a connection, and the frames that carry them.
    JSON itself is not modelled: a frame records what decoding it yields. */
module Messages {

  datatype Option<T> = None | Some(value: T)

  /** Client-to-server messages, as the schema types decode them. */
  datatype ClientMessage =
    | SetupRequest(model: string)
    | InputText(text: string)
    | InputAudio(format: string, chunk: string, final: bool)
    | ToolResult(name: string, callId: string, result: string)
    | SessionEnd(reason: string)

  /** The `type` discriminators of the client messages. */
  const SetupType := "setup"
  const InputTextType := "input_text"
  const InputAudioType := "input_audio"
  const ToolResultType := "tool_result"
  const EndSessionType := "end_session"

  /** The `type` discriminator each client message is sent under. */
  function TypeOf(m: ClientMessage): string {
    match m
    case SetupRequest(_) => SetupType
    case InputText(_) => InputTextType
    case InputAudio(_, _, _) => InputAudioType
    case ToolResult(_, _, _) => ToolResultType
    case SessionEnd(_) => EndSessionType
  }

  /** Server-to-client messages. */
  datatype ServerMessage =
    | Error(code: string, message: string)
    | SessionResumptionUpdate(handle: string)
    | OutputText(text: string, final: bool)

  /** The error codes the server sends. */
  const CodeBadJson := "bad_json"
  const CodeAlreadySetup := "already_setup"
  const CodeBadSetup := "bad_setup"
  const CodeNoSession := "no_session"
  const CodeUnknownType := "unknown_type"

  /** The texts of the server's replies; the prefixes are followed by the
      part that varies. */
  const NotTextFrame := "Only text messages are supported"
  const InvalidJson := "Invalid JSON format"
  const AlreadyConfigured := "Session already configured"
  const InvalidSetup := "Invalid setup request format"
  const NoActiveSession := "No active session"
  const InvalidTextInput := "Invalid text input format"
  const InvalidAudioInput := "Invalid audio input format"
  const InvalidToolResult := "Invalid tool result format"
  const InvalidSessionEnd := "Invalid session end format"
  const UnknownTypePrefix := "Unknown message type: "
  const EchoPrefix := "[echo] "
  const AudioAckPrefix := "Received audio chunk in "
  const AudioAckFinal := " format (final: "
  const Goodbye := "Goodbye! Session ended."
  const HandlePrefix := "session_"

  /** One frame read from the connection: a non-text frame, a text frame whose
      envelope does not decode, or a text frame whose envelope names `kind`.
      `payload` is what decoding the whole frame into the schema type for
      `kind` gives: None when that decoding fails. A payload of another type
      than `kind` names cannot come out of that decoding; such values count
      as failed decodes. */
  datatype Frame =
    | NonText
    | BadEnvelope
    | Typed(kind: string, payload: Option<ClientMessage>)

  /** The frame's payload decodes as a message of the kind its envelope names. */
  predicate Decodes(f: Frame) {
    f.Typed? && f.payload.Some? && TypeOf(f.payload.value) == f.kind
  }

  /** `%t` formatting of a boolean. */
  function FormatBool(b: bool): string {
    if b then "true" else "false"
  }
}
