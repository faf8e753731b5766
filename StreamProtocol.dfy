/** The messages the chat stream carries to the browser, and the
    `text/event-stream` framing both ends share. The constants and wire type
    names are defined in lib/types.ts, which is not part of this model: the
    values below are assumed (the `data: ` field and the blank line that ends
    an event follow section 9.2 of the WHATWG HTML Living Standard,
    Server-sent events). */
module StreamProtocol {

  const SSE_DATA_PREFIX: string := "data: "
  const SSE_LINE_DELIMITER: string := "\n\n"
  const SSE_DONE_MESSAGE: string := "[DONE]"

  /** `StreamMessageType`. */
  datatype MessageType = TokenType | ToolStartType | ToolEndType | ErrorType | ConnectedType | DoneType

  /** `StreamMessage`. A tool's `input` and `output` are carried as their
      JSON text. */
  datatype StreamMessage =
    | Connected
    | Token(token: string)
    | ToolStart(tool: string, input: string)
    | ToolEnd(tool: string, output: string)
    | Done
    | Error(error: string)

  function TypeOf(m: StreamMessage): MessageType {
    match m
    case Connected => ConnectedType
    case Token(_) => TokenType
    case ToolStart(_, _) => ToolStartType
    case ToolEnd(_, _) => ToolEndType
    case Done => DoneType
    case Error(_) => ErrorType
  }

  /** The string value of each `StreamMessageType` member, as it appears in
      the `type` property of a message's JSON. */
  function WireName(t: MessageType): string {
    match t
    case TokenType => "token"
    case ToolStartType => "tool_start"
    case ToolEndType => "tool_end"
    case ErrorType => "error"
    case ConnectedType => "connected"
    case DoneType => "done"
  }

  /** `Object.values(StreamMessageType).includes(name)`. */
  predicate IsKnownTypeName(name: string) {
    name in {"token", "tool_start", "tool_end", "error", "connected", "done"}
  }

  lemma WireNamesAreKnownAndDistinct(t: MessageType, u: MessageType)
    ensures IsKnownTypeName(WireName(t))
    ensures WireName(t) == WireName(u) <==> t == u
  {
  }

  predicate IsTerminal(m: StreamMessage) {
    m.Done? || m.Error?
  }

  /** What `JSON.parse` makes of a payload: a failure, or an object whose
      `type` property is `typeField`; `asMessage` is that object read as a
      stream message (the source's `as StreamMessage` cast). */
  datatype Decoded = Malformed | Parsed(typeField: string, asMessage: StreamMessage)

  /** What the two ends rely on from `JSON.stringify` and `JSON.parse` for a
      stream message: the text is one line, starts with `{` and ends with `}`
      (as the JSON of an object does), and parses back to the same message
      with its wire type name. */
  ghost predicate JsonRoundTrips(stringify: StreamMessage -> string, decode: string -> Decoded) {
    forall m :: var j := stringify(m);
      && |j| >= 2 && j[0] == '{' && j[|j| - 1] == '}' && '\n' !in j
      && decode(j) == Parsed(WireName(TypeOf(m)), m)
  }
}
