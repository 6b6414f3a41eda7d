/** The tool bridge: which tools are offered, which client request a tool use leads to, and what the
    executor gets back. */
module Tools {
  import opened Text
  import opened Paths
  import opened Protocol
  import opened ClientRpc

  const READ_FILE := "fs_read_text_file"
  const WRITE_FILE := "fs_write_text_file"
  const TERMINAL_CREATE := "terminal_create"
  const TERMINAL_OUTPUT := "terminal_output"
  const TERMINAL_WAIT := "terminal_wait_for_exit"
  const TERMINAL_KILL := "terminal_kill"
  const TERMINAL_RELEASE := "terminal_release"

  /** The decoded arguments of a tool use; absent members are "". */
  datatype ToolArgs =
    | BadArgs
    | ToolArgs(path: string, content: string, command: string, cwd: string, terminalId: string)

  datatype ToolUse = ToolUse(callId: string, name: string, args: ToolArgs)

  /** InvokeTool replaces a blank call id by a new one. */
  function EffectiveCallId(rawId: string, newId: string): string {
    if Blank(rawId) then newId else TrimSpace(rawId)
  }

  /** ToolInfos, by name and in its order. */
  function ToolNames(caps: Caps): seq<string> {
    (if caps.readFile then [READ_FILE] else [])
    + (if caps.writeFile then [WRITE_FILE] else [])
    + (if caps.terminal then [TERMINAL_CREATE, TERMINAL_OUTPUT, TERMINAL_WAIT, TERMINAL_KILL, TERMINAL_RELEASE] else [])
  }

  datatype Gate = Refuse | Send(request: ClientRequest)

  function TerminalMethod(name: string): string {
    if name == TERMINAL_OUTPUT then "terminal/output"
    else if name == TERMINAL_WAIT then "terminal/wait_for_exit"
    else if name == TERMINAL_KILL then "terminal/kill"
    else "terminal/release"
  }

  /** invokeTool up to callClient: the request it sends, or a refusal without any request. */
  function GateTool(caps: Caps, cwd: string, name: string, args: ToolArgs): Gate {
    if name == READ_FILE then
      if !caps.readFile || args.BadArgs? || Blank(args.path) then Refuse
      else Send(ReadFile(ResolvePath(cwd, args.path)))
    else if name == WRITE_FILE then
      if !caps.writeFile || args.BadArgs? || Blank(args.path) then Refuse
      else Send(WriteFile(ResolvePath(cwd, args.path), args.content))
    else if name == TERMINAL_CREATE then
      if !caps.terminal || args.BadArgs? || Blank(args.command) then Refuse
      else Send(CreateTerminal(args.command, if Blank(args.cwd) then None else Some(ResolvePath(cwd, args.cwd))))
    else if name == TERMINAL_OUTPUT || name == TERMINAL_WAIT || name == TERMINAL_KILL || name == TERMINAL_RELEASE then
      if !caps.terminal || args.BadArgs? || Blank(args.terminalId) then Refuse
      else Send(TerminalRequest(TerminalMethod(name), args.terminalId))
    else Refuse
  }

  datatype Verdict = Verdict(ok: bool, output: string)

  const FAILED := Verdict(false, "")

  /** fs_write_text_file, terminal_kill and terminal_release do not look at the result. */
  predicate IgnoresResult(name: string) {
    name == WRITE_FILE || name == TERMINAL_KILL || name == TERMINAL_RELEASE
  }

  /** What a tool reports when the client's result is empty or null. */
  function ZeroOutput(name: string): string {
    if name == READ_FILE then ""
    else if name == TERMINAL_CREATE then "{\"terminalId\":\"\"}"
    else if name == TERMINAL_OUTPUT then "{\"output\":\"\",\"truncated\":false}"
    else "{}"
  }

  /** What invokeTool returns once callClient has returned. */
  function ToolVerdict(name: string, exit: Exit): Verdict {
    match exit
    case CtxDone => FAILED
    case WriteFailed => FAILED
    case Answered(reply) =>
      match reply.body
      case ErrorBody => FAILED
      case NullBody => Verdict(true, if IgnoresResult(name) then "{\"ok\":true}" else ZeroOutput(name))
      case Decodable(text) => Verdict(true, if IgnoresResult(name) then "{\"ok\":true}" else text)
      case Undecodable => if IgnoresResult(name) then Verdict(true, "{\"ok\":true}") else FAILED
  }

  // ----- Properties -----

  /** The arguments a tool insists on. */
  predicate HasRequiredArgs(name: string, args: ToolArgs) {
    args.ToolArgs?
    && (name in {READ_FILE, WRITE_FILE} ==> !Blank(args.path))
    && (name == TERMINAL_CREATE ==> !Blank(args.command))
    && (name in {TERMINAL_OUTPUT, TERMINAL_WAIT, TERMINAL_KILL, TERMINAL_RELEASE} ==> !Blank(args.terminalId))
  }

  /** A request leaves for the client exactly when the tool is one of those ToolInfos lists for the
      same capabilities and its required arguments are there. */
  lemma OfferedIffGatePasses(caps: Caps, cwd: string, name: string, args: ToolArgs)
    ensures GateTool(caps, cwd, name, args).Send? <==> name in ToolNames(caps) && HasRequiredArgs(name, args)
  {
    var terminal := [TERMINAL_CREATE, TERMINAL_OUTPUT, TERMINAL_WAIT, TERMINAL_KILL, TERMINAL_RELEASE];
    assert name in ToolNames(caps) <==>
      (caps.readFile && name == READ_FILE) || (caps.writeFile && name == WRITE_FILE)
        || (caps.terminal && name in terminal);
    NamesDiffer();
  }

  lemma NamesDiffer()
    ensures |READ_FILE| == 17 && |WRITE_FILE| == 18 && |TERMINAL_CREATE| == 15 && |TERMINAL_OUTPUT| == 15
    ensures |TERMINAL_WAIT| == 22 && |TERMINAL_KILL| == 13 && |TERMINAL_RELEASE| == 16
    ensures TERMINAL_CREATE != TERMINAL_OUTPUT
  {
    assert TERMINAL_CREATE[9] != TERMINAL_OUTPUT[9];
  }

  /** The file paths and working directories a request names. */
  function PathsOf(request: ClientRequest): seq<string> {
    match request
    case ReadFile(path) => [path]
    case WriteFile(path, _) => [path]
    case CreateTerminal(_, cwd) => if cwd.Some? then [cwd.value] else []
    case TerminalRequest(_, _) => []
  }

  predicate PathsCanonical(request: ClientRequest) {
    forall i | 0 <= i < |PathsOf(request)| :: CleanAbs(PathsOf(request)[i])
  }

  lemma GateSendsCanonicalPaths(caps: Caps, cwd: string, name: string, args: ToolArgs)
    requires IsAbs(cwd) && GateTool(caps, cwd, name, args).Send?
    ensures PathsCanonical(GateTool(caps, cwd, name, args).request)
  {
    if name == READ_FILE || name == WRITE_FILE {
      ResolvedPathIsCanonical(cwd, args.path);
    } else if name == TERMINAL_CREATE && !Blank(args.cwd) {
      ResolvedPathIsCanonical(cwd, args.cwd);
    }
  }
}
