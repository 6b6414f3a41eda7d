/** One request handler, step by step: each step is one critical section, one check of a context or
    one write. */
module Turn {
  import opened Text
  import opened Paths
  import opened Protocol
  import opened Tools
  import opened Cancels

  // ----- Decoded requests -----

  datatype Fields = Fields(sessionId: string, cwd: string, mcp: seq<Mcp>, prompt: seq<Block>, caps: Caps,
                           cursor: string)

  function Decode(params: Params): Option<Fields> {
    match params
    case BadJson => None
    case Params(sid, cwd, mcp, prompt, caps, cursor) => Some(Fields(sid, cwd, mcp, prompt, caps, cursor))
  }

  const NO_FIELDS := Fields("", "", [], [], Caps(false, false, false), "")

  function FieldsOf(params: Params): Fields {
    match Decode(params)
    case Some(fields) => fields
    case None => NO_FIELDS
  }

  function TextLine(block: Block): seq<string> {
    var text := TrimSpace(block.text);
    if block.kind == "text" && text != "" then [text] else []
  }

  function PromptLines(blocks: seq<Block>): seq<string> {
    if blocks == [] then [] else TextLine(blocks[0]) + PromptLines(blocks[1..])
  }

  ghost predicate NoneBlank(lines: seq<string>) {
    forall i | 0 <= i < |lines| :: !Blank(lines[i])
  }

  lemma TextLineNotBlank(block: Block)
    ensures NoneBlank(TextLine(block))
  {
    TrimmedNotBlank(block.text);
  }

  lemma {:induction false} PromptLinesNotBlank(blocks: seq<Block>)
    ensures NoneBlank(PromptLines(blocks))
  {
    if blocks != [] {
      TextLineNotBlank(blocks[0]);
      PromptLinesNotBlank(blocks[1..]);
    }
  }

  function ExtractPromptText(blocks: seq<Block>): string {
    Join(PromptLines(blocks), "\n")
  }

  // ----- Contexts and the update writer -----

  datatype Ctx = Live | Canceled | DeadlineExceeded

  /** The calls an executor can make on PromptUpdateWriter. */
  datatype WriterCall =
    | UserMessageChunk(text: string)
    | AgentMessageChunk(text: string)
    | AgentThoughtChunk(text: string)
    | Plan(entries: seq<PlanEntry>)
    | AvailableCommands(names: seq<string>)
    | CurrentMode(mode: string)
    | ConfigOptions(options: seq<ConfigOption>)
    | Raw(update: Option<RawUpdate>)

  /** Silent: nothing to write and no error. Rejected: an error and nothing written. */
  datatype Offered = Silent | Rejected | Accepted(update: Update)

  function OfferText(text: string, live: bool, update: Update): Offered {
    if Blank(text) then Silent else if live then Accepted(update) else Rejected
  }

  /** What a writer call does when the context is (or is no longer) live at its check. */
  function Offer(call: WriterCall, live: bool): Offered {
    match call
    case UserMessageChunk(text) => OfferText(text, live, UserChunk(text))
    case AgentMessageChunk(text) => OfferText(text, live, AgentChunk(text))
    case AgentThoughtChunk(text) => OfferText(text, live, ThoughtChunk(text))
    case Plan(entries) => if live then Accepted(PlanUpdate(entries)) else Rejected
    case AvailableCommands(names) => if live then Accepted(CommandsUpdate(names)) else Rejected
    case CurrentMode(mode) => if Blank(mode) || !live then Rejected else Accepted(ModeUpdate(mode))
    case ConfigOptions(options) => if live then Accepted(ConfigUpdate(options)) else Rejected
    case Raw(update) =>
      if !live || update.None? || Blank(update.value.kind) then Rejected else Accepted(Custom(update.value))
  }

  // ----- The session context a turn announces -----

  function NameOf(m: Mcp): seq<string> {
    if Blank(m.name) then [] else [TrimSpace(m.name)]
  }

  function NonBlankNames(mcp: seq<Mcp>): seq<string> {
    if mcp == [] then [] else NameOf(mcp[0]) + NonBlankNames(mcp[1..])
  }

  function CommandNames(caps: Caps): seq<string> {
    SortStrings(ToolNames(caps))
  }

  function SessionConfig(snapshot: Snapshot, caps: Caps): seq<ConfigOption> {
    [ConfigOption("cwd", Text(snapshot.cwd)),
     ConfigOption("mcp_servers", Names(SortStrings(NonBlankNames(snapshot.mcp)))),
     ConfigOption("fs_read_text_file_enabled", Flag(caps.readFile)),
     ConfigOption("fs_write_text_file_enabled", Flag(caps.writeFile)),
     ConfigOption("terminal_enabled", Flag(caps.terminal))]
  }

  // ----- Handlers -----

  /** The updates handlePrompt itself sends through the writer. */
  datatype Stage = UserStage | ModeStage | CommandsStage | ConfigStage | FallbackStage

  /** What the executor has done: an accepted writer call, or a complete tool use. */
  datatype Act = Wrote(call: WriterCall, update: Update)
               | Used(tool: ToolUse, request: Option<Payload>, verdict: Verdict)

  datatype PC =
    | SettingCaps
    | NamingSession | FindingSession | Reinstalling | ClearingFlag
    | LookingUp
    | FirstCheck
    | SettingCancel
    | Checking(stage: Stage)
    | Writing(stage: Stage)
    | TakingSnapshot
    | ReadingCaps
    | Executing
    | ExecWriting(call: WriterCall, update: Update)
    | ToolGated(tool: ToolUse, gate: Gate)
    | ToolCalling(tool: ToolUse, request: ClientRequest, rpc: nat, asked: Option<Payload>)
    | ToolClosing(tool: ToolUse, asked: Option<Payload>, verdict: Verdict)
    | LastCheck
    | WritingInfo
    | ErrFlag
    | ErrCtx
    | Answering(answer: Answer)
    | ClearingCancel
    | Done

  /** registered: clearActiveCancel is deferred; chunkEmitted: the code's own variable. The others
      are history: the fallback chunk and session_info_update were written, a flag was consumed, the
      context was found cancelled. */
  datatype Marks = Marks(registered: bool, chunkEmitted: bool, fell: bool, informed: bool, took: bool, sawCancel: bool)

  const NO_MARKS := Marks(false, false, false, false, false, false)

  /** `text`, `commands` and `config` are what handlePrompt computes before it offers them to the
      writer; `passed` counts the parts of the announcement that are over. `acts`, `answered` and
      `trace` are history: what the executor did, the response, and all lines written. */
  datatype Handler = Handler(
    conn: nat,
    id: Id,
    fields: Fields,
    session: string,
    text: string,
    pc: PC,
    ctx: Ctx,
    marks: Marks,
    snapshot: Snapshot,
    caps: Caps,
    commands: seq<string>,
    config: seq<ConfigOption>,
    reply: string,
    passed: nat,
    acts: seq<Act>,
    answered: Option<Answer>,
    trace: seq<Payload>)

  /** State shared by the handlers; the fields from `installed` on are history: every snapshot ever
      bound to a session, the cancel notifications per session, and the connections whose context
      was cancelled. */
  datatype Shared = Shared(
    sessions: map<string, Snapshot>,
    caps: Caps,
    cancels: Cancels<nat>,
    serverCtx: Ctx,
    installed: set<(string, Snapshot)>,
    notices: multiset<string>,
    deadConns: set<nat>)

  /** The choices a step leaves open: the new session's id, and what the executor does next. */
  datatype Choice =
    | Go
    | Name(sid: string)
    | Do(call: WriterCall)
    | Use(rawId: string, newId: string, name: string, args: ToolArgs)
    | Return(reply: string)
    | Fail

  datatype Method = Initialize | Authenticate | NewSession | LoadSession | ListSessions | Prompt | Unknown

  function MethodOf(name: string): Method {
    if name == "initialize" then Initialize
    else if name == "authenticate" then Authenticate
    else if name == "session/new" then NewSession
    else if name == "session/load" then LoadSession
    else if name == "session/list" then ListSessions
    else if name == "session/prompt" then Prompt
    else Unknown
  }

  /** The checks of a request before its first shared access. */
  function EntryOf(m: Method, params: Params): PC {
    var bad := Answering(Failure(INVALID_PARAMS));
    match m
    case Initialize => if params.BadJson? then bad else SettingCaps
    case Authenticate => if params.BadJson? then bad else Answering(Plain)
    case NewSession => if params.BadJson? || params.cwd == "" || !IsAbs(params.cwd) then bad else NamingSession
    case LoadSession =>
      if params.BadJson? || TrimSpace(params.sessionId) == "" || Blank(params.cwd) || !IsAbs(params.cwd) then bad
      else FindingSession
    case ListSessions =>
      if params.BadJson? || (TrimSpace(params.cwd) != "" && !IsAbs(TrimSpace(params.cwd)))
        || TrimSpace(params.cursor) != ""
      then bad else Answering(Plain)
    case Prompt => if params.BadJson? then bad else LookingUp
    case Unknown => Answering(Failure(METHOD_NOT_FOUND))
  }

  function Entry(methodName: string, params: Params): PC {
    EntryOf(MethodOf(methodName), params)
  }

  function Spawned(conn: nat, msg: Message): Handler {
    var fields := FieldsOf(msg.params);
    var session := if MethodOf(msg.methodName).LoadSession? then TrimSpace(fields.sessionId) else fields.sessionId;
    Handler(conn, msg.id, fields, session, ExtractPromptText(fields.prompt), Entry(msg.methodName, msg.params),
            Live, NO_MARKS, Snapshot("", []), NO_FIELDS.caps, [], [], "", 0, [], None, [])
  }

  /** The error of the prompt's context: its own, or inherited from the context of Serve. */
  function Effective(h: Handler, sh: Shared): Ctx {
    if h.ctx.Live? then sh.serverCtx else h.ctx
  }

  function StageCall(h: Handler, stage: Stage): WriterCall {
    match stage
    case UserStage => UserMessageChunk(h.text)
    case ModeStage => CurrentMode("default")
    case CommandsStage => AvailableCommands(h.commands)
    case ConfigStage => ConfigOptions(h.config)
    case FallbackStage => AgentMessageChunk(h.reply)
  }

  function NextPC(stage: Stage): PC {
    match stage
    case UserStage => TakingSnapshot
    case ModeStage => Checking(CommandsStage)
    case CommandsStage => ReadingCaps
    case ConfigStage => Executing
    case FallbackStage => LastCheck
  }

  function StageDone(h: Handler, stage: Stage): Handler {
    h.(pc := NextPC(stage), passed := if stage.FallbackStage? then h.passed else h.passed + 1)
  }

  datatype Outcome = Outcome(h: Handler, sh: Shared, emit: seq<Payload>)

  function Silently(h: Handler, sh: Shared): Outcome {
    Outcome(h, sh, [])
  }

  function Saying(h: Handler, sh: Shared, p: Payload): Outcome {
    Outcome(h.(trace := h.trace + [p]), sh, [p])
  }

  predicate CanAdvance(h: Handler, sh: Shared, choice: Choice) {
    match h.pc
    case NamingSession => choice.Name? && choice.sid !in sh.sessions
    case Executing => choice.Do? || choice.Use? || choice.Return? || choice.Fail?
    case ToolGated(_, gate) => choice.Go? && gate.Refuse?
    case ToolCalling(_, _, _, _) => false
    case Done => false
    case _ => choice.Go?
  }

  function Install(sh: Shared, sid: string, snapshot: Snapshot): Shared {
    sh.(sessions := sh.sessions[sid := snapshot], installed := sh.installed + {(sid, snapshot)})
  }

  function CheckStage(h: Handler, sh: Shared, stage: Stage): Handler {
    match Offer(StageCall(h, stage), Effective(h, sh).Live?)
    case Silent => StageDone(h, stage)
    case Rejected => h.(pc := ErrFlag)
    case Accepted(_) =>
      h.(pc := Writing(stage), marks := h.marks.(chunkEmitted := h.marks.chunkEmitted || stage.FallbackStage?))
  }

  function WriteStage(h: Handler, sh: Shared, stage: Stage): Outcome {
    var update := match Offer(StageCall(h, stage), true) case Accepted(u) => u case _ => InfoUpdate;
    Saying(StageDone(h, stage).(marks := h.marks.(fell := h.marks.fell || stage.FallbackStage?)), sh,
           Notify(h.session, update))
  }

  function Execute(h: Handler, sh: Shared, choice: Choice): Outcome
    requires choice.Do? || choice.Use? || choice.Return? || choice.Fail?
  {
    match choice
    case Do(call) =>
      (match Offer(call, Effective(h, sh).Live?)
       case Accepted(update) =>
         Silently(h.(pc := ExecWriting(call, update),
                     marks := h.marks.(chunkEmitted := h.marks.chunkEmitted || call.AgentMessageChunk?)), sh)
       case _ => Silently(h, sh))
    case Use(rawId, newId, name, args) =>
      var tool := ToolUse(EffectiveCallId(rawId, newId), name, args);
      Saying(h.(pc := ToolGated(tool, GateTool(h.caps, h.snapshot.cwd, name, args))), sh,
             Notify(h.session, ToolStarted(tool.callId, name)))
    case Return(reply) =>
      Silently(h.(reply := reply,
                  pc := if !Blank(reply) && !h.marks.chunkEmitted then Checking(FallbackStage) else LastCheck), sh)
    case Fail => Silently(h.(pc := ErrFlag), sh)
  }

  /** consumeCancelFlag, followed by `cancelled` if the flag was up and by `next` if not. */
  function Consume(h: Handler, sh: Shared, next: PC): Outcome {
    var (t, up) := ConsumeFlag(sh.cancels, h.session);
    Silently(if up then h.(marks := h.marks.(took := true), pc := Answering(Stop(Cancelled)))
             else h.(pc := next), sh.(cancels := t))
  }

  // ----- The four phases of a handler's program -----

  predicate BeforeTurn(pc: PC) {
    pc.SettingCaps? || pc.NamingSession? || pc.FindingSession? || pc.Reinstalling? || pc.ClearingFlag?
    || pc.LookingUp? || pc.FirstCheck? || pc.SettingCancel?
  }

  predicate Announcing(pc: PC) {
    pc.Checking? || pc.Writing? || pc.TakingSnapshot? || pc.ReadingCaps?
  }

  predicate InExecutor(pc: PC) {
    pc.Executing? || pc.ExecWriting? || pc.ToolGated? || pc.ToolCalling? || pc.ToolClosing?
  }

  /** Other requests, and a prompt up to setActiveCancel. */
  function Begin(i: nat, h: Handler, sh: Shared, choice: Choice): Outcome
    requires BeforeTurn(h.pc) && CanAdvance(h, sh, choice)
  {
    match h.pc
    case SettingCaps => Silently(h.(pc := Answering(Plain)), sh.(caps := h.fields.caps))
    case NamingSession =>
      Silently(h.(session := choice.sid, pc := ClearingFlag),
               Install(sh, choice.sid, Snapshot(h.fields.cwd, h.fields.mcp)))
    case FindingSession =>
      Silently(h.(pc := if h.session in sh.sessions then Reinstalling else Answering(Failure(INVALID_PARAMS))), sh)
    case Reinstalling =>
      Silently(h.(pc := ClearingFlag), Install(sh, h.session, Snapshot(h.fields.cwd, h.fields.mcp)))
    case ClearingFlag =>
      Silently(h.(pc := Answering(Plain)), sh.(cancels := ClearFlag(sh.cancels, h.session)))
    case LookingUp =>
      Silently(h.(pc := if h.session !in sh.sessions || h.fields.prompt == [] then Answering(Failure(INVALID_PARAMS))
                        else FirstCheck), sh)
    case FirstCheck => Consume(h, sh, SettingCancel)
    case SettingCancel =>
      Silently(h.(pc := Checking(UserStage), marks := h.marks.(registered := true)),
               sh.(cancels := SetActive(sh.cancels, h.session, i)))
  }

  /** The user text and the session context, and the fallback chunk. */
  function Announce(h: Handler, sh: Shared): Outcome
    requires Announcing(h.pc)
  {
    match h.pc
    case Checking(stage) => Silently(CheckStage(h, sh, stage), sh)
    case Writing(stage) => WriteStage(h, sh, stage)
    case TakingSnapshot =>
      Silently(h.(snapshot := if h.session in sh.sessions then sh.sessions[h.session] else h.snapshot,
                  caps := sh.caps, commands := CommandNames(sh.caps), pc := Checking(ModeStage)), sh)
    case ReadingCaps => Silently(h.(config := SessionConfig(h.snapshot, sh.caps), pc := Checking(ConfigStage)), sh)
  }

  /** The executor's turn. */
  function Perform(h: Handler, sh: Shared, choice: Choice): Outcome
    requires InExecutor(h.pc) && CanAdvance(h, sh, choice)
  {
    match h.pc
    case Executing => Execute(h, sh, choice)
    case ExecWriting(call, update) =>
      Saying(h.(pc := Executing, acts := h.acts + [Wrote(call, update)]), sh, Notify(h.session, update))
    case ToolGated(tool, _) => Silently(h.(pc := ToolClosing(tool, None, FAILED)), sh)
    case ToolClosing(tool, asked, verdict) =>
      Saying(h.(pc := Executing, acts := h.acts + [Used(tool, asked, verdict)]), sh,
             Notify(h.session, ToolEnded(tool.callId, verdict.ok, verdict.output)))
  }

  function CheckContext(h: Handler, sh: Shared): Handler {
    if Effective(h, sh).Canceled? then h.(marks := h.marks.(sawCancel := true), pc := Answering(Stop(Cancelled)))
    else h.(pc := Answering(Failure(INTERNAL_ERROR)))
  }

  /** From the last look at the cancel flag, or from an error, to the response and the deferred
      clearActiveCancel. */
  function Finish(h: Handler, sh: Shared): Outcome {
    match h.pc
    case LastCheck => Consume(h, sh, WritingInfo)
    case WritingInfo =>
      Saying(h.(pc := Answering(Stop(EndTurn)), marks := h.marks.(informed := true)), sh, Notify(h.session, InfoUpdate))
    case ErrFlag => Consume(h, sh, ErrCtx)
    case ErrCtx => Silently(CheckContext(h, sh), sh)
    case Answering(answer) =>
      Saying(h.(pc := if h.marks.registered then ClearingCancel else Done, answered := Some(answer)), sh,
             Respond(NormalizeId(h.id), answer))
    case ClearingCancel =>
      Silently(h.(pc := Done, marks := h.marks.(registered := false)),
               sh.(cancels := ClearActive(sh.cancels, h.session)))
    case _ => Silently(h, sh)
  }

  /** One step of handler number i; a choice that is not open changes nothing. */
  function Advance(i: nat, h: Handler, sh: Shared, choice: Choice): Outcome {
    if !CanAdvance(h, sh, choice) then Silently(h, sh)
    else if BeforeTurn(h.pc) then Begin(i, h, sh, choice)
    else if Announcing(h.pc) then Announce(h, sh)
    else if InExecutor(h.pc) then Perform(h, sh, choice)
    else Finish(h, sh)
  }
}
