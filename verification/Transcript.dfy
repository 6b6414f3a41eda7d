/** From the server's lines to the driver's Turn: encoding, parseTurn, and what a turn parses to. */
module Transcript {
  import opened Text
  import opened Protocol
  import opened Tools
  import opened Turn
  import opened TurnProofs
  import opened Driver

  // ----- Lines on the wire -----

  const USER_KIND := "user_message_chunk"
  const AGENT_KIND := "agent_message_chunk"
  const TOOL_KIND := "tool_call"
  const TOOL_UPDATE_KIND := "tool_call_update"

  function WireOf(update: Update): Wire {
    match update
    case UserChunk(text) => Wire(USER_KIND, text, NO_TOOL)
    case AgentChunk(text) => Wire(AGENT_KIND, text, NO_TOOL)
    case ThoughtChunk(text) => Wire("agent_thought_chunk", text, NO_TOOL)
    case PlanUpdate(_) => Wire("plan", "", NO_TOOL)
    case CommandsUpdate(_) => Wire("available_commands_update", "", NO_TOOL)
    case ModeUpdate(_) => Wire("current_mode_update", "", NO_TOOL)
    case ConfigUpdate(_) => Wire("config_option_update", "", NO_TOOL)
    case InfoUpdate => Wire("session_info_update", "", NO_TOOL)
    case ToolStarted(callId, title) => Wire(TOOL_KIND, "", ToolFields(callId, "in_progress", title, ""))
    case ToolEnded(callId, completed, output) =>
      Wire(TOOL_UPDATE_KIND, "", ToolFields(callId, if completed then "completed" else "failed", "", output))
    case Custom(raw) => Wire(raw.kind, raw.text, raw.tool)
  }

  function RequestMethod(request: ClientRequest): string {
    match request
    case ReadFile(_) => "fs/read_text_file"
    case WriteFile(_, _) => "fs/write_text_file"
    case CreateTerminal(_, _) => "terminal/create"
    case TerminalRequest(name, _) => name
  }

  function StopText(answer: Answer): string {
    match answer
    case Stop(EndTurn) => "end_turn"
    case Stop(Cancelled) => "cancelled"
    case Plain => ""
    case Failure(_) => ""
  }

  /** A server line as the driver decodes it. */
  function Encode(p: Payload): Content {
    match p
    case Notify(_, update) => Content(NoId, "session/update", Some(WireOf(update)), "", false)
    case Ask(id, request) => Content(id, RequestMethod(request), None, "", false)
    case Respond(id, answer) => Content(id, "", None, StopText(answer), answer.Failure?)
  }

  function EncodeAll(lines: seq<Payload>): (contents: seq<Content>)
    ensures |contents| == |lines| && forall k | 0 <= k < |lines| :: contents[k] == Encode(lines[k])
  {
    seq(|lines|, k requires 0 <= k < |lines| => Encode(lines[k]))
  }

  // ----- parseTurn -----

  datatype ToolEvent = ToolEvent(kind: string, tool: ToolFields)

  /** The aggregates of a turn, before the texts are joined. */
  datatype Parts = Parts(user: seq<string>, agent: seq<string>, tools: seq<ToolEvent>)

  const NO_PARTS := Parts([], [], [])

  function Add(a: Parts, b: Parts): Parts {
    Parts(a.user + b.user, a.agent + b.agent, a.tools + b.tools)
  }

  function TextPart(text: string): seq<string> {
    if text != "" then [text] else []
  }

  /** What one update contributes. */
  function WireParts(w: Wire): Parts {
    if w.kind == USER_KIND then Parts(TextPart(w.text), [], [])
    else if w.kind == AGENT_KIND then Parts([], TextPart(w.text), [])
    else if w.kind == TOOL_KIND || w.kind == TOOL_UPDATE_KIND then Parts([], [], [ToolEvent(w.kind, w.tool)])
    else NO_PARTS
  }

  function ContentParts(c: Content): Parts {
    if c.methodName == "session/update" && c.update.Some? then WireParts(c.update.value) else NO_PARTS
  }

  /** The loop of parseTurn: the contributions of all lines, in order. */
  function PartsOf(contents: seq<Content>): Parts {
    if contents == [] then NO_PARTS
    else Add(PartsOf(contents[..|contents| - 1]), ContentParts(contents[|contents| - 1]))
  }

  datatype ParsedTurn = ParsedTurn(stopReason: string, userText: string, assistantText: string,
                                   toolEvents: seq<ToolEvent>)

  function ParseTurn(contents: seq<Content>, response: Content): ParsedTurn {
    var parts := PartsOf(contents);
    ParsedTurn(response.stop, Concat(parts.user), Concat(parts.agent), parts.tools)
  }

  // ----- What the executor's acts amount to -----

  /** The contribution of an accepted call or of a tool use, told by the calls themselves. */
  function ActParts(act: Act): Parts {
    match act
    case Wrote(UserMessageChunk(text), _) => Parts([text], [], [])
    case Wrote(AgentMessageChunk(text), _) => Parts([], [text], [])
    case Wrote(Raw(Some(raw)), _) => WireParts(Wire(raw.kind, raw.text, raw.tool))
    case Wrote(_, _) => NO_PARTS
    case Used(tool, _, verdict) =>
      Parts([], [], [ToolEvent(TOOL_KIND, ToolFields(tool.callId, "in_progress", tool.name, "")),
                     ToolEvent(TOOL_UPDATE_KIND,
                               ToolFields(tool.callId, if verdict.ok then "completed" else "failed", "",
                                          verdict.output))])
  }

  function ActsParts(acts: seq<Act>): Parts {
    if acts == [] then NO_PARTS else Add(ActsParts(acts[..|acts| - 1]), ActParts(acts[|acts| - 1]))
  }

  // ----- Proofs -----

  /** A kind that parseTurn passes over. */
  predicate OtherKind(kind: string) {
    kind != USER_KIND && kind != AGENT_KIND && kind != TOOL_KIND && kind != TOOL_UPDATE_KIND
  }

  lemma KindsDiffer()
    ensures USER_KIND != AGENT_KIND && USER_KIND != TOOL_KIND && USER_KIND != TOOL_UPDATE_KIND
    ensures AGENT_KIND != TOOL_KIND && AGENT_KIND != TOOL_UPDATE_KIND && TOOL_KIND != TOOL_UPDATE_KIND
    ensures OtherKind("agent_thought_chunk") && OtherKind("plan") && OtherKind("available_commands_update")
    ensures OtherKind("current_mode_update") && OtherKind("config_option_update") && OtherKind("session_info_update")
  {
    assert |USER_KIND| == 18 && |AGENT_KIND| == 19 && |TOOL_KIND| == 9 && |TOOL_UPDATE_KIND| == 16;
    assert "agent_thought_chunk"[6] != AGENT_KIND[6];
    assert |"plan"| == 4 && |"available_commands_update"| == 25 && |"config_option_update"| == 20;
    assert |"current_mode_update"| == 19 && "current_mode_update"[0] != AGENT_KIND[0];
    assert |"session_info_update"| == 19 && "session_info_update"[0] != AGENT_KIND[0];
  }

  lemma AddNothing(a: Parts)
    ensures Add(a, NO_PARTS) == a && Add(NO_PARTS, a) == a
  {
  }

  lemma {:induction false} PartsConcat(a: seq<Content>, b: seq<Content>)
    ensures PartsOf(a + b) == Add(PartsOf(a), PartsOf(b))
  {
    if b == [] {
      assert a + b == a;
      AddNothing(PartsOf(a));
    } else {
      var n := |b| - 1;
      assert (a + b)[..|a + b| - 1] == a + b[..n] && (a + b)[|a + b| - 1] == b[n];
      PartsConcat(a, b[..n]);
    }
  }

  function LineParts(lines: seq<Payload>): Parts {
    PartsOf(EncodeAll(lines))
  }

  lemma LinesConcat(a: seq<Payload>, b: seq<Payload>)
    ensures LineParts(a + b) == Add(LineParts(a), LineParts(b))
  {
    assert EncodeAll(a + b) == EncodeAll(a) + EncodeAll(b);
    PartsConcat(EncodeAll(a), EncodeAll(b));
  }

  lemma LineAlone(p: Payload)
    ensures LineParts([p]) == ContentParts(Encode(p))
  {
    var c := EncodeAll([p]);
    assert c[..0] == [] && PartsOf([]) == NO_PARTS;
    AddNothing(ContentParts(Encode(p)));
  }

  /** What an update means to a reader of the transcript. */
  function UpdateParts(u: Update): Parts {
    match u
    case UserChunk(text) => Parts(TextPart(text), [], [])
    case AgentChunk(text) => Parts([], TextPart(text), [])
    case ToolStarted(callId, title) =>
      Parts([], [], [ToolEvent(TOOL_KIND, ToolFields(callId, "in_progress", title, ""))])
    case ToolEnded(callId, completed, output) =>
      Parts([], [], [ToolEvent(TOOL_UPDATE_KIND,
                               ToolFields(callId, if completed then "completed" else "failed", "", output))])
    case Custom(raw) => WireParts(Wire(raw.kind, raw.text, raw.tool))
    case _ => NO_PARTS
  }

  /** The driver reads every update back as what it means. */
  lemma UpdateReadsBack(sid: string, u: Update)
    ensures LineParts([Notify(sid, u)]) == UpdateParts(u)
  {
    LineAlone(Notify(sid, u));
    KindsDiffer();
  }

  lemma RequestsAddNothing(asked: Option<Payload>)
    requires asked.Some? ==> asked.value.Ask?
    ensures LineParts(Request(asked)) == NO_PARTS
  {
    if asked.Some? { LineAlone(asked.value); }
  }

  /** What was accepted of a writer call, or a tool use, is read back as what it contributes. */
  lemma ActReadsBack(h: Handler, sid: string, act: Act)
    requires ActOk(h, act)
    ensures LineParts(ActLines(sid, act)) == ActParts(act)
  {
    match act
    case Wrote(call, update) => {
      UpdateReadsBack(sid, update);
    }
    case Used(tool, asked, verdict) => {
      var (start, end) := ([Notify(sid, ToolStarted(tool.callId, tool.name))],
                           [Notify(sid, ToolEnded(tool.callId, verdict.ok, verdict.output))]);
      RequestsAddNothing(asked);
      UpdateReadsBack(sid, ToolStarted(tool.callId, tool.name));
      UpdateReadsBack(sid, ToolEnded(tool.callId, verdict.ok, verdict.output));
      LinesConcat(start, Request(asked));
      LinesConcat(start + Request(asked), end);
    }
  }

  lemma NotBlankNotEmpty(text: string)
    requires !Blank(text)
    ensures text != ""
  {
  }

  lemma {:induction false} ActsReadBack(h: Handler, sid: string, acts: seq<Act>)
    requires forall k | 0 <= k < |acts| :: ActOk(h, acts[k])
    ensures LineParts(Lines(sid, acts)) == ActsParts(acts)
  {
    if acts == [] {
      assert EncodeAll([]) == [];
    } else {
      var n := |acts| - 1;
      ActsReadBack(h, sid, acts[..n]);
      ActReadsBack(h, sid, acts[n]);
      LinesConcat(Lines(sid, acts[..n]), ActLines(sid, acts[n]));
    }
  }

  // ----- Which request a tool sends -----

  /** The name with its first underscore, at position k, turned into a slash. */
  predicate Slashed(methodName: string, name: string, k: nat) {
    k < |name| && name[k] == '_' && '_' !in name[..k] && methodName == name[k := '/']
  }

  lemma TerminalNames()
    ensures Slashed("terminal/create", TERMINAL_CREATE, 8) && Slashed("terminal/output", TERMINAL_OUTPUT, 8)
    ensures Slashed("terminal/kill", TERMINAL_KILL, 8) && Slashed("terminal/release", TERMINAL_RELEASE, 8)
  {
  }

  lemma WaitName()
    ensures Slashed("terminal/wait_for_exit", TERMINAL_WAIT, 8)
  {
  }

  /** The position of the underscore after the tool's family. */
  function FamilyEnd(name: string): nat {
    if name == READ_FILE || name == WRITE_FILE then 2 else 8
  }

  /** The method of the request a tool sends is the tool's name with a slash for the first underscore. */
  lemma RequestOfTool(caps: Caps, cwd: string, name: string, args: ToolArgs)
    requires GateTool(caps, cwd, name, args).Send?
    ensures Slashed(RequestMethod(GateTool(caps, cwd, name, args).request), name, FamilyEnd(name))
  {
    NamesDiffer();
    TerminalNames();
    WaitName();
    if name == READ_FILE || name == WRITE_FILE || name == TERMINAL_CREATE {
    } else {
      assert RequestMethod(GateTool(caps, cwd, name, args).request) == TerminalMethod(name);
    }
  }
}
