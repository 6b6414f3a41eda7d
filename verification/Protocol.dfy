/** The JSON-RPC and ACP messages as abstract records: encoding and decoding of JSON is not modelled. */
module Protocol {
  import opened Text

  /** A raw `id` member. NoId: absent. RawId: null, an array or an object, kept as its text. */
  datatype Id = NoId | StrId(text: string) | NumId(n: int) | BoolId(b: bool) | RawId(raw: string)

  const NULL_ID := RawId("null")

  predicate HasId(id: Id) {
    !id.NoId?
  }

  /** normalizeID: an absent id is written as null. */
  function NormalizeId(id: Id): Id {
    if HasId(id) then id else NULL_ID
  }

  /** The server's rpcIDKey: the tag tells JSON types apart. */
  function ServerKey(id: Id): string {
    match id
    case NoId => ""
    case StrId(s) => "s:" + s
    case NumId(n) => "n:" + Numeral(n)
    case BoolId(b) => if b then "b:true" else "b:false"
    case RawId(raw) => "j:" + raw
  }

  /** The result or error carried by a client's response, as callClient will read it: an error
      object, an empty or null result, a result that decodes to what the tool reports, or one that
      does not decode. */
  datatype Body = ErrorBody | NullBody | Decodable(text: string) | Undecodable

  datatype Caps = Caps(readFile: bool, writeFile: bool, terminal: bool)

  datatype Mcp = Mcp(name: string, rest: string)

  /** What session/new and session/load bind to a session. */
  datatype Snapshot = Snapshot(cwd: string, mcp: seq<Mcp>)

  /** One content block; absent or non-string members read as "". */
  datatype Block = Block(kind: string, text: string)

  datatype Params = BadJson
                  | Params(sessionId: string, cwd: string, mcp: seq<Mcp>, prompt: seq<Block>, caps: Caps,
                           cursor: string)

  datatype Message = Message(jsonrpc: string, id: Id, methodName: string, params: Params, body: Body)

  datatype InputLine = BlankLine | Garbage | Parsed(msg: Message)

  datatype PlanEntry = PlanEntry(content: string, priority: string, status: string)

  datatype ConfigValue = Text(s: string) | Names(names: seq<string>) | Flag(b: bool)
  datatype ConfigOption = ConfigOption(name: string, value: ConfigValue)

  /** An update the executor composes itself (PromptUpdateWriter.Raw). */
  datatype RawUpdate = RawUpdate(kind: string, text: string, tool: ToolFields)

  /** The members of an update that the driver copies into a ToolEvent. */
  datatype ToolFields = ToolFields(callId: string, status: string, title: string, output: string)

  const NO_TOOL := ToolFields("", "", "", "")

  datatype Update =
    | UserChunk(text: string)
    | AgentChunk(text: string)
    | ThoughtChunk(text: string)
    | PlanUpdate(entries: seq<PlanEntry>)
    | CommandsUpdate(names: seq<string>)
    | ModeUpdate(mode: string)
    | ConfigUpdate(options: seq<ConfigOption>)
    | InfoUpdate
    | ToolStarted(callId: string, title: string)
    | ToolEnded(callId: string, completed: bool, output: string)
    | Custom(raw: RawUpdate)

  /** A request the agent sends to the client. */
  datatype ClientRequest =
    | ReadFile(path: string)
    | WriteFile(path: string, content: string)
    | CreateTerminal(command: string, cwd: Option<string>)
    | TerminalRequest(methodName: string, terminalId: string)

  datatype StopReason = EndTurn | Cancelled

  datatype Answer = Stop(reason: StopReason) | Plain | Failure(code: int)

  const PARSE_ERROR := -32700
  const INVALID_REQUEST := -32600
  const METHOD_NOT_FOUND := -32601
  const INVALID_PARAMS := -32602
  const INTERNAL_ERROR := -32603

  /** One line the server writes. */
  datatype Payload =
    | Notify(sessionId: string, update: Update)
    | Ask(reqId: Id, request: ClientRequest)
    | Respond(id: Id, answer: Answer)
}
