/** What every handler's own history looks like at each point of its program. */
module TurnProofs {
  import opened Text
  import opened Protocol
  import opened Tools
  import opened Turn

  // ----- The lines a handler has written, read off its program point and history -----

  function Notes(sid: string, updates: seq<Update>): seq<Payload> {
    if updates == [] then [] else Notes(sid, updates[..|updates| - 1]) + [Notify(sid, updates[|updates| - 1])]
  }

  function UserUpdates(h: Handler): seq<Update> {
    if Blank(h.text) then [] else [UserChunk(h.text)]
  }

  /** The first k parts of a turn: user text, mode, commands, configuration. */
  function Lead(h: Handler, k: nat): seq<Update> {
    (if k >= 1 then UserUpdates(h) else [])
    + (if k >= 2 then [ModeUpdate("default")] else [])
    + (if k >= 3 then [CommandsUpdate(h.commands)] else [])
    + (if k >= 4 then [ConfigUpdate(h.config)] else [])
  }

  function Request(asked: Option<Payload>): seq<Payload> {
    if asked.Some? then [asked.value] else []
  }

  /** A tool use is bracketed by tool_call and tool_call_update, with at most one client request inside. */
  function ActLines(sid: string, act: Act): seq<Payload> {
    match act
    case Wrote(_, update) => [Notify(sid, update)]
    case Used(tool, asked, verdict) =>
      [Notify(sid, ToolStarted(tool.callId, tool.name))] + Request(asked)
      + [Notify(sid, ToolEnded(tool.callId, verdict.ok, verdict.output))]
  }

  function Lines(sid: string, acts: seq<Act>): seq<Payload> {
    if acts == [] then [] else Lines(sid, acts[..|acts| - 1]) + ActLines(sid, acts[|acts| - 1])
  }

  /** The lines of a tool use that is still under way. */
  function Opened(h: Handler): seq<Payload> {
    match h.pc
    case ToolGated(tool, _) => [Notify(h.session, ToolStarted(tool.callId, tool.name))]
    case ToolCalling(tool, _, _, asked) => [Notify(h.session, ToolStarted(tool.callId, tool.name))] + Request(asked)
    case ToolClosing(tool, asked, _) => [Notify(h.session, ToolStarted(tool.callId, tool.name))] + Request(asked)
    case _ => []
  }

  function Ending(h: Handler): seq<Payload> {
    (if h.marks.fell then [Notify(h.session, AgentChunk(h.reply))] else [])
    + (if h.marks.informed then [Notify(h.session, InfoUpdate)] else [])
    + (if h.answered.Some? then [Respond(NormalizeId(h.id), h.answered.value)] else [])
  }

  ghost predicate TraceOk(h: Handler) {
    h.trace == Notes(h.session, Lead(h, h.passed)) + Lines(h.session, h.acts) + Opened(h) + Ending(h)
  }

  // ----- Program points -----

  function StageIndex(stage: Stage): nat {
    match stage
    case UserStage => 0
    case ModeStage => 1
    case CommandsStage => 2
    case ConfigStage => 3
    case FallbackStage => 4
  }

  predicate Answered(pc: PC) {
    pc.ClearingCancel? || pc.Done?
  }

  predicate StageOk(h: Handler) {
    && h.passed <= 4
    && (h.passed < 4 ==> h.acts == [] && !h.marks.fell && !h.marks.informed)
    && (BeforeTurn(h.pc) ==> h.passed == 0 && h.trace == [] && !h.marks.registered)
    && (h.pc.Checking? || h.pc.Writing? ==> h.passed == StageIndex(h.pc.stage) && !h.marks.fell)
    && (h.pc == Writing(UserStage) ==> !Blank(h.text))
    && (h.pc.TakingSnapshot? ==> h.passed == 1)
    && (h.pc.ReadingCaps? ==> h.passed == 3)
    && (InExecutor(h.pc) ==> h.passed == 4 && !h.marks.fell)
    && (h.pc.LastCheck? || h.pc.WritingInfo? ==> h.passed == 4)
    && (h.pc.ErrFlag? || h.pc.ErrCtx? ==> !h.marks.fell)
    && (h.answered.Some? <==> Answered(h.pc))
    && (h.marks.informed <==> h.pc == Answering(Stop(EndTurn)) || h.answered == Some(Stop(EndTurn)))
    && (h.pc.ClearingCancel? ==> h.marks.registered) && (h.pc.Done? ==> !h.marks.registered)
  }

  predicate IsAgentAct(act: Act) {
    act.Wrote? && act.call.AgentMessageChunk?
  }

  predicate Spoke(acts: seq<Act>) {
    exists k :: 0 <= k < |acts| && IsAgentAct(acts[k])
  }

  /** chunkEmitted is set exactly by the accepted AgentMessageChunk calls; the fallback chunk is
      written exactly for a reply that is not blank after a turn without such a call. */
  predicate FallbackOk(h: Handler) {
    && (h.marks.chunkEmitted <==>
          Spoke(h.acts) || (h.pc.ExecWriting? && h.pc.call.AgentMessageChunk?) || h.marks.fell
          || h.pc == Writing(FallbackStage))
    && (h.pc == Checking(FallbackStage) || h.pc == Writing(FallbackStage) ==> !Blank(h.reply) && !Spoke(h.acts))
    && (h.pc.LastCheck? || h.pc.WritingInfo? || h.marks.informed ==>
        (h.marks.fell <==> !Blank(h.reply) && !Spoke(h.acts)))
    && (h.pc.ExecWriting? ==> Offer(h.pc.call, true) == Accepted(h.pc.update))
  }

  /** What the executor's acts and the client requests in them are. */
  predicate ActOk(h: Handler, act: Act) {
    match act
    case Wrote(call, update) => Offer(call, true) == Accepted(update)
    case Used(tool, asked, verdict) =>
      && (asked.Some? ==> AskedFor(h, tool, asked.value))
      && (verdict.ok ==> asked.Some?)
  }

  predicate AskedFor(h: Handler, tool: ToolUse, line: Payload) {
    line.Ask? && GateTool(h.caps, h.snapshot.cwd, tool.name, tool.args) == Send(line.request)
  }

  predicate ActsOk(h: Handler) {
    && (forall k | 0 <= k < |h.acts| :: ActOk(h, h.acts[k]))
    && (h.pc.ToolGated? ==> h.pc.gate == GateTool(h.caps, h.snapshot.cwd, h.pc.tool.name, h.pc.tool.args))
    && (h.pc.ToolCalling? ==>
          GateTool(h.caps, h.snapshot.cwd, h.pc.tool.name, h.pc.tool.args) == Send(h.pc.request)
          && (h.pc.asked.Some? ==> AskedFor(h, h.pc.tool, h.pc.asked.value)))
    && (h.pc.ToolClosing? ==> ActOk(h, Used(h.pc.tool, h.pc.asked, h.pc.verdict)))
  }

  predicate IsCancelled(h: Handler) {
    h.pc == Answering(Stop(Cancelled)) || h.answered == Some(Stop(Cancelled))
  }

  /** A prompt is answered `cancelled` exactly if it consumed a flag or found its context cancelled. */
  predicate CancelOk(h: Handler) {
    IsCancelled(h) <==> h.marks.took || h.marks.sawCancel
  }

  ghost predicate LocalInv(h: Handler) {
    TraceOk(h) && StageOk(h) && FallbackOk(h) && ActsOk(h) && CancelOk(h)
  }

  // ----- Advance keeps it, phase by phase -----

  lemma EntryPoint(methodName: string, params: Params)
    ensures var pc := Entry(methodName, params);
            BeforeTurn(pc) || (pc.Answering? && (pc.answer.Failure? || pc.answer.Plain?))
  {
    match MethodOf(methodName)
    case Initialize =>
    case Authenticate =>
    case NewSession =>
    case LoadSession =>
    case ListSessions =>
    case Prompt =>
    case Unknown =>
  }

  lemma SpawnedOk(conn: nat, msg: Message)
    ensures StageOk(Spawned(conn, msg)) && FallbackOk(Spawned(conn, msg)) && ActsOk(Spawned(conn, msg))
            && CancelOk(Spawned(conn, msg))
  {
    EntryPoint(msg.methodName, msg.params);
  }

  lemma CheckStageOk(h: Handler, sh: Shared, stage: Stage)
    requires StageOk(h) && FallbackOk(h) && CancelOk(h) && h.pc == Checking(stage)
    ensures StageOk(CheckStage(h, sh, stage)) && FallbackOk(CheckStage(h, sh, stage))
            && CancelOk(CheckStage(h, sh, stage))
  {
    match Offer(StageCall(h, stage), Effective(h, sh).Live?)
    case Silent =>
    case Rejected =>
    case Accepted(_) =>
  }

  lemma BeginOk(i: nat, h: Handler, sh: Shared, choice: Choice)
    requires StageOk(h) && FallbackOk(h) && CancelOk(h) && BeforeTurn(h.pc) && CanAdvance(h, sh, choice)
    ensures var g := Begin(i, h, sh, choice).h; StageOk(g) && FallbackOk(g) && CancelOk(g)
  {
  }

  lemma AnnounceOk(h: Handler, sh: Shared)
    requires StageOk(h) && FallbackOk(h) && CancelOk(h) && Announcing(h.pc)
    ensures var g := Announce(h, sh).h; StageOk(g) && FallbackOk(g) && CancelOk(g)
  {
    match h.pc
    case Checking(stage) => CheckStageOk(h, sh, stage);
    case Writing(stage) => WriteStageOk(h, sh, stage);
    case _ =>
  }

  lemma WriteStageOk(h: Handler, sh: Shared, stage: Stage)
    requires StageOk(h) && FallbackOk(h) && CancelOk(h) && h.pc == Writing(stage)
    ensures var g := WriteStage(h, sh, stage).h; StageOk(g) && FallbackOk(g) && CancelOk(g)
  {
    hide Offer, StageCall;
  }

  lemma SpokeAppend(acts: seq<Act>, act: Act)
    ensures Spoke(acts + [act]) <==> Spoke(acts) || IsAgentAct(act)
  {
    var more := acts + [act];
    assert more[|acts|] == act;
    if Spoke(acts) {
      var k :| 0 <= k < |acts| && IsAgentAct(acts[k]);
      assert more[k] == acts[k];
    }
  }

  lemma ExecuteOk(h: Handler, sh: Shared, choice: Choice)
    requires StageOk(h) && FallbackOk(h) && CancelOk(h) && h.pc.Executing? && CanAdvance(h, sh, choice)
    ensures var g := Execute(h, sh, choice).h; StageOk(g) && FallbackOk(g) && CancelOk(g)
  {
    match choice
    case Do(call) => {
      match Offer(call, Effective(h, sh).Live?)
      case Accepted(_) =>
      case _ =>
    }
    case Use(_, _, _, _) =>
    case Return(_) =>
    case Fail =>
  }

  lemma PerformOk(h: Handler, sh: Shared, choice: Choice)
    requires StageOk(h) && FallbackOk(h) && CancelOk(h) && InExecutor(h.pc) && CanAdvance(h, sh, choice)
    ensures var g := Perform(h, sh, choice).h; StageOk(g) && FallbackOk(g) && CancelOk(g)
  {
    match h.pc
    case Executing => ExecuteOk(h, sh, choice);
    case ExecWriting(call, update) => SpokeAppend(h.acts, Wrote(call, update));
    case ToolClosing(tool, asked, verdict) => SpokeAppend(h.acts, Used(tool, asked, verdict));
    case _ =>
  }

  lemma ConsumeOk(h: Handler, sh: Shared, next: PC)
    requires StageOk(h) && FallbackOk(h) && CancelOk(h)
    requires (h.pc.LastCheck? && next.WritingInfo?) || (h.pc.ErrFlag? && next.ErrCtx?)
    ensures var g := Consume(h, sh, next).h; StageOk(g) && FallbackOk(g) && CancelOk(g)
  {
    if h.session in sh.cancels.flags {
      assert Consume(h, sh, next).h == h.(marks := h.marks.(took := true), pc := Answering(Stop(Cancelled)));
    } else {
      assert Consume(h, sh, next).h == h.(pc := next);
    }
  }

  lemma CheckContextOk(h: Handler, sh: Shared)
    requires StageOk(h) && FallbackOk(h) && CancelOk(h) && h.pc.ErrCtx?
    ensures var g := CheckContext(h, sh); StageOk(g) && FallbackOk(g) && CancelOk(g)
  {
    if Effective(h, sh).Canceled? {
      assert CheckContext(h, sh) == h.(marks := h.marks.(sawCancel := true), pc := Answering(Stop(Cancelled)));
    } else {
      assert CheckContext(h, sh) == h.(pc := Answering(Failure(INTERNAL_ERROR)));
    }
  }

  lemma AnswerOk(h: Handler, sh: Shared, answer: Answer)
    requires StageOk(h) && FallbackOk(h) && CancelOk(h) && h.pc == Answering(answer)
    ensures var g := Finish(h, sh).h; StageOk(g) && FallbackOk(g) && CancelOk(g)
  {
    if h.marks.registered {
      assert Finish(h, sh).h.pc == ClearingCancel;
    } else {
      assert Finish(h, sh).h.pc == Done;
    }
  }

  lemma FinishQuietly(h: Handler, sh: Shared)
    requires StageOk(h) && FallbackOk(h) && CancelOk(h)
    requires !h.pc.LastCheck? && !h.pc.ErrFlag? && !h.pc.ErrCtx? && !h.pc.Answering?
    ensures var g := Finish(h, sh).h; StageOk(g) && FallbackOk(g) && CancelOk(g)
  {
    hide Consume, CheckContext;
  }

  lemma FinishOk(h: Handler, sh: Shared)
    requires StageOk(h) && FallbackOk(h) && CancelOk(h)
    ensures var g := Finish(h, sh).h; StageOk(g) && FallbackOk(g) && CancelOk(g)
  {
    match h.pc
    case LastCheck => ConsumeOk(h, sh, WritingInfo);
    case ErrFlag => ConsumeOk(h, sh, ErrCtx);
    case ErrCtx => CheckContextOk(h, sh);
    case Answering(answer) => AnswerOk(h, sh, answer);
    case _ => FinishQuietly(h, sh);
  }

  /** The facts about program points, fallback and cancellation are kept by every step. */
  lemma PointsStep(i: nat, h: Handler, sh: Shared, choice: Choice)
    requires StageOk(h) && FallbackOk(h) && CancelOk(h) && CanAdvance(h, sh, choice)
    ensures var g := Advance(i, h, sh, choice).h; StageOk(g) && FallbackOk(g) && CancelOk(g)
  {
    if BeforeTurn(h.pc) { BeginOk(i, h, sh, choice); }
    else if Announcing(h.pc) { AnnounceOk(h, sh); }
    else if InExecutor(h.pc) { PerformOk(h, sh, choice); }
    else { FinishOk(h, sh); }
  }

  /** Where the executor's acts are judged: they, the capabilities and the working directory. */
  predicate SameActs(g: Handler, h: Handler) {
    g.acts == h.acts && (h.acts == [] || (g.caps == h.caps && g.snapshot == h.snapshot))
    && !g.pc.ToolGated? && !g.pc.ToolCalling? && !g.pc.ToolClosing?
  }

  lemma FinishKeepsActs(h: Handler, sh: Shared)
    requires !BeforeTurn(h.pc) && !Announcing(h.pc) && !InExecutor(h.pc)
    ensures SameActs(Finish(h, sh).h, h)
  {
    match h.pc
    case LastCheck => if h.session in sh.cancels.flags {} else {}
    case ErrFlag => if h.session in sh.cancels.flags {} else {}
    case ErrCtx => if Effective(h, sh).Canceled? {} else {}
    case Answering(answer) => if h.marks.registered {} else {}
    case WritingInfo =>
    case _ =>
  }

  lemma PerformActs(h: Handler, sh: Shared, choice: Choice)
    requires FallbackOk(h) && ActsOk(h) && InExecutor(h.pc) && CanAdvance(h, sh, choice)
    ensures ActsOk(Perform(h, sh, choice).h)
  {
    match h.pc
    case Executing =>
    case ExecWriting(call, update) =>
      SameVerdictOk(h.(pc := Executing, acts := h.acts + [Wrote(call, update)]), Perform(h, sh, choice).h);
    case ToolGated(tool, _) =>
      assert forall k | 0 <= k < |h.acts| :: ActOk(h, h.acts[k]);
    case ToolClosing(tool, asked, verdict) =>
      SameVerdictOk(h.(pc := Executing, acts := h.acts + [Used(tool, asked, verdict)]), Perform(h, sh, choice).h);
  }

  /** ActsOk looks at the acts, the program point, the capabilities and the snapshot only. */
  lemma SameVerdictOk(h: Handler, g: Handler)
    requires ActsOk(h) && g.acts == h.acts && g.pc == h.pc && g.caps == h.caps && g.snapshot == h.snapshot
    ensures ActsOk(g)
  {
    forall k | 0 <= k < |g.acts| ensures ActOk(g, g.acts[k]) {
      assert ActOk(h, h.acts[k]);
    }
  }

  lemma ActsStep(i: nat, h: Handler, sh: Shared, choice: Choice)
    requires StageOk(h) && FallbackOk(h) && ActsOk(h) && CanAdvance(h, sh, choice)
    ensures ActsOk(Advance(i, h, sh, choice).h)
  {
    if BeforeTurn(h.pc) {
    } else if Announcing(h.pc) {
    } else if InExecutor(h.pc) {
      PerformActs(h, sh, choice);
    } else {
      FinishKeepsActs(h, sh);
    }
  }

  // ----- The trace -----

  lemma NotesAppend(sid: string, updates: seq<Update>, u: Update)
    ensures Notes(sid, updates + [u]) == Notes(sid, updates) + [Notify(sid, u)]
  {
    assert (updates + [u])[..|updates|] == updates;
  }

  lemma LinesAppend(sid: string, acts: seq<Act>, act: Act)
    ensures Lines(sid, acts + [act]) == Lines(sid, acts) + ActLines(sid, act)
  {
    assert (acts + [act])[..|acts|] == acts;
  }

  /** The parts of a trace, and of everything it depends on. */
  predicate SameTraceParts(g: Handler, h: Handler) {
    g.session == h.session && g.id == h.id && g.text == h.text
    && g.passed == h.passed && g.acts == h.acts && g.marks.fell == h.marks.fell && g.marks.informed == h.marks.informed
       && g.answered == h.answered
    && (g.passed >= 3 ==> g.commands == h.commands) && (g.passed >= 4 ==> g.config == h.config)
    && (g.marks.fell ==> g.reply == h.reply)
  }

  lemma SameTraceOk(g: Handler, h: Handler)
    requires TraceOk(h) && SameTraceParts(g, h) && g.trace == h.trace && Opened(g) == Opened(h)
    ensures TraceOk(g)
  {
    assert Lead(g, g.passed) == Lead(h, h.passed);
  }

  // Appending to a trace of four parts, in each of the ways a step does it.

  lemma ExtendFirst<T>(a: seq<T>, x: seq<T>)
    ensures a + [] + [] + [] + x == (a + x) + [] + [] + []
  {
  }

  lemma OpenThird<T>(a: seq<T>, b: seq<T>, x: seq<T>)
    ensures a + b + [] + [] + x == a + b + x + []
  {
  }

  lemma ExtendThird<T>(a: seq<T>, b: seq<T>, c: seq<T>, x: seq<T>)
    ensures a + b + c + [] + x == a + b + (c + x) + []
  {
  }

  lemma CloseThird<T>(a: seq<T>, b: seq<T>, c: seq<T>, x: seq<T>)
    ensures a + b + c + [] + x == a + (b + (c + x)) + [] + []
  {
  }

  lemma SpawnedTrace(conn: nat, msg: Message)
    ensures TraceOk(Spawned(conn, msg))
  {
    EntryPoint(msg.methodName, msg.params);
  }

  lemma CheckTrace(h: Handler, sh: Shared, stage: Stage)
    requires TraceOk(h) && StageOk(h) && FallbackOk(h) && h.pc == Checking(stage)
    ensures TraceOk(CheckStage(h, sh, stage))
  {
    match Offer(StageCall(h, stage), Effective(h, sh).Live?)
    case Silent =>
      SilentStage(h, stage, Effective(h, sh).Live?);
    case Rejected => SameTraceOk(h.(pc := ErrFlag), h);
    case Accepted(_) =>
      SameTraceOk(h.(pc := Writing(stage),
                     marks := h.marks.(chunkEmitted := h.marks.chunkEmitted || stage.FallbackStage?)), h);
  }

  lemma SilentStage(h: Handler, stage: Stage, live: bool)
    requires FallbackOk(h) && h.pc == Checking(stage) && Offer(StageCall(h, stage), live).Silent?
    ensures stage.UserStage? && Blank(h.text)
  {
  }

  /** The stages' own updates. */
  function StageUpdate(h: Handler, stage: Stage): Update {
    match stage
    case UserStage => UserChunk(h.text)
    case ModeStage => ModeUpdate("default")
    case CommandsStage => CommandsUpdate(h.commands)
    case ConfigStage => ConfigUpdate(h.config)
    case FallbackStage => AgentChunk(h.reply)
  }

  lemma WriteStageWrites(h: Handler, sh: Shared, stage: Stage)
    requires StageOk(h) && FallbackOk(h) && h.pc == Writing(stage)
    ensures WriteStage(h, sh, stage)
            == Saying(StageDone(h, stage).(marks := h.marks.(fell := h.marks.fell || stage.FallbackStage?)), sh,
                      Notify(h.session, StageUpdate(h, stage)))
  {
    match stage
    case UserStage =>
    case ModeStage => assert !Blank("default") by { assert !IsSpace("default"[0]); }
    case CommandsStage =>
    case ConfigStage =>
    case FallbackStage =>
  }

  lemma NextLead(h: Handler, stage: Stage)
    requires !stage.FallbackStage? && (stage.UserStage? ==> !Blank(h.text))
    ensures Lead(h, StageIndex(stage) + 1) == Lead(h, StageIndex(stage)) + [StageUpdate(h, stage)]
  {
  }

  lemma LeadTrace(h: Handler, g: Handler, stage: Stage)
    requires TraceOk(h) && !stage.FallbackStage? && (stage.UserStage? ==> !Blank(h.text))
    requires h.passed == StageIndex(stage) && h.acts == [] && Opened(h) == [] && Ending(h) == []
    requires g.passed == h.passed + 1 && g.acts == [] && Opened(g) == [] && Ending(g) == []
    requires g.session == h.session && g.text == h.text && g.commands == h.commands && g.config == h.config
    requires g.trace == h.trace + [Notify(h.session, StageUpdate(h, stage))]
    ensures TraceOk(g)
  {
    NextLead(h, stage);
    NotesAppend(h.session, Lead(h, h.passed), StageUpdate(h, stage));
    assert Lead(g, g.passed) == Lead(h, g.passed);
    ExtendFirst(Notes(h.session, Lead(h, h.passed)), [Notify(h.session, StageUpdate(h, stage))]);
  }

  lemma EndingTrace(h: Handler, g: Handler, line: Payload)
    requires TraceOk(h) && g.trace == h.trace + [line] && Ending(g) == Ending(h) + [line]
    requires g.passed == h.passed && g.acts == h.acts && Opened(g) == Opened(h)
    requires g.session == h.session && g.text == h.text && g.commands == h.commands && g.config == h.config
    ensures TraceOk(g)
  {
    assert Lead(g, g.passed) == Lead(h, h.passed);
  }

  lemma WriteTrace(h: Handler, sh: Shared, stage: Stage)
    requires TraceOk(h) && StageOk(h) && FallbackOk(h) && h.pc == Writing(stage)
    ensures TraceOk(WriteStage(h, sh, stage).h)
  {
    WriteStageWrites(h, sh, stage);
    var g := StageDone(h, stage).(marks := h.marks.(fell := h.marks.fell || stage.FallbackStage?),
                                  trace := h.trace + [Notify(h.session, StageUpdate(h, stage))]);
    assert WriteStage(h, sh, stage).h == g;
    if stage.FallbackStage? {
      assert Ending(h) == [] && Ending(g) == [Notify(h.session, AgentChunk(h.reply))];
      EndingTrace(h, g, Notify(h.session, StageUpdate(h, stage)));
    } else {
      LeadTrace(h, g, stage);
    }
  }

  lemma AnnounceTrace(h: Handler, sh: Shared)
    requires TraceOk(h) && StageOk(h) && FallbackOk(h) && Announcing(h.pc)
    ensures TraceOk(Announce(h, sh).h)
  {
    match h.pc
    case Checking(stage) => CheckTrace(h, sh, stage);
    case Writing(stage) => WriteTrace(h, sh, stage);
    case TakingSnapshot => SameTraceOk(Announce(h, sh).h, h);
    case ReadingCaps => SameTraceOk(Announce(h, sh).h, h);
  }

  lemma OpeningTrace(h: Handler, g: Handler)
    requires TraceOk(h) && Opened(h) == [] && Ending(h) == [] && Ending(g) == [] && g.trace == h.trace + Opened(g)
    requires g.passed == h.passed && g.acts == h.acts
    requires g.session == h.session && g.text == h.text && g.commands == h.commands && g.config == h.config
    ensures TraceOk(g)
  {
    assert Lead(g, g.passed) == Lead(h, h.passed);
    OpenThird(Notes(h.session, Lead(h, h.passed)), Lines(h.session, h.acts), Opened(g));
  }

  lemma ClosingTrace(h: Handler, g: Handler, act: Act, close: seq<Payload>)
    requires TraceOk(h) && Ending(h) == [] && Opened(g) == [] && Ending(g) == [] && g.trace == h.trace + close
    requires ActLines(h.session, act) == Opened(h) + close && g.acts == h.acts + [act] && g.passed == h.passed
    requires g.session == h.session && g.text == h.text && g.commands == h.commands && g.config == h.config
    ensures TraceOk(g)
  {
    assert Lead(g, g.passed) == Lead(h, h.passed);
    LinesAppend(h.session, h.acts, act);
    CloseThird(Notes(h.session, Lead(h, h.passed)), Lines(h.session, h.acts), Opened(h), close);
  }

  lemma ExecuteTrace(h: Handler, sh: Shared, choice: Choice)
    requires TraceOk(h) && StageOk(h) && h.pc.Executing? && CanAdvance(h, sh, choice)
    ensures TraceOk(Execute(h, sh, choice).h)
  {
    if choice.Use? {
      OpeningTrace(h, Execute(h, sh, choice).h);
    } else {
      SameTraceOk(Execute(h, sh, choice).h, h);
    }
  }

  lemma PerformTrace(h: Handler, sh: Shared, choice: Choice)
    requires TraceOk(h) && StageOk(h) && InExecutor(h.pc) && CanAdvance(h, sh, choice)
    ensures TraceOk(Perform(h, sh, choice).h)
  {
    match h.pc
    case Executing => ExecuteTrace(h, sh, choice);
    case ExecWriting(call, update) =>
      ClosingTrace(h, Perform(h, sh, choice).h, Wrote(call, update), [Notify(h.session, update)]);
    case ToolGated(tool, _) => SameTraceOk(Perform(h, sh, choice).h, h);
    case ToolClosing(tool, asked, verdict) =>
      ClosingTrace(h, Perform(h, sh, choice).h, Used(tool, asked, verdict),
                   [Notify(h.session, ToolEnded(tool.callId, verdict.ok, verdict.output))]);
  }

  lemma AnswerTrace(h: Handler, pc: PC, answer: Answer)
    requires TraceOk(h) && h.answered == None && h.pc.Answering? && Answered(pc)
    ensures TraceOk(h.(pc := pc, answered := Some(answer), trace := h.trace + [Respond(NormalizeId(h.id), answer)]))
  {
    var g := h.(pc := pc, answered := Some(answer), trace := h.trace + [Respond(NormalizeId(h.id), answer)]);
    EndingTrace(h, g, Respond(NormalizeId(h.id), answer));
  }

  lemma InfoTrace(h: Handler)
    requires TraceOk(h) && h.answered == None && !h.marks.informed && h.pc.WritingInfo?
    ensures TraceOk(h.(pc := Answering(Stop(EndTurn)), marks := h.marks.(informed := true),
                       trace := h.trace + [Notify(h.session, InfoUpdate)]))
  {
    var g := h.(pc := Answering(Stop(EndTurn)), marks := h.marks.(informed := true),
                trace := h.trace + [Notify(h.session, InfoUpdate)]);
    EndingTrace(h, g, Notify(h.session, InfoUpdate));
  }

  lemma ContextTrace(h: Handler, sh: Shared)
    requires TraceOk(h) && h.pc.ErrCtx?
    ensures TraceOk(CheckContext(h, sh))
  {
    if Effective(h, sh).Canceled? {
      SameTraceOk(h.(marks := h.marks.(sawCancel := true), pc := Answering(Stop(Cancelled))), h);
    } else {
      SameTraceOk(h.(pc := Answering(Failure(INTERNAL_ERROR))), h);
    }
  }

  lemma AnsweringTrace(h: Handler, sh: Shared)
    requires TraceOk(h) && h.answered == None && h.pc.Answering?
    ensures TraceOk(Finish(h, sh).h)
  {
    var pc := if h.marks.registered then ClearingCancel else Done;
    AnswerTrace(h, pc, h.pc.answer);
    assert Finish(h, sh).h
        == h.(pc := pc, answered := Some(h.pc.answer), trace := h.trace + [Respond(NormalizeId(h.id), h.pc.answer)]);
  }

  lemma FinishTrace(h: Handler, sh: Shared)
    requires TraceOk(h) && (h.answered.Some? ==> Answered(h.pc)) && (h.pc.WritingInfo? ==> !h.marks.informed)
    ensures TraceOk(Finish(h, sh).h)
  {
    match h.pc
    case LastCheck => ConsumeTrace(h, sh, WritingInfo);
    case ErrFlag => ConsumeTrace(h, sh, ErrCtx);
    case ErrCtx => ContextTrace(h, sh);
    case Answering(_) => AnsweringTrace(h, sh);
    case WritingInfo => InfoTrace(h);
    case ClearingCancel => SameTraceOk(h.(pc := Done, marks := h.marks.(registered := false)), h);
    case _ =>
  }

  lemma ConsumeTrace(h: Handler, sh: Shared, next: PC)
    requires TraceOk(h) && Opened(h) == [] && (next.WritingInfo? || next.ErrCtx?)
    ensures TraceOk(Consume(h, sh, next).h)
  {
    if h.session in sh.cancels.flags {
      SameTraceOk(Consume(h, sh, next).h, h);
    } else {
      SameTraceOk(Consume(h, sh, next).h, h);
    }
  }

  lemma TraceStep(i: nat, h: Handler, sh: Shared, choice: Choice)
    requires TraceOk(h) && StageOk(h) && FallbackOk(h) && CanAdvance(h, sh, choice)
    ensures TraceOk(Advance(i, h, sh, choice).h)
  {
    if BeforeTurn(h.pc) {}
    else if Announcing(h.pc) { AnnounceTrace(h, sh); }
    else if InExecutor(h.pc) { PerformTrace(h, sh, choice); }
    else { FinishTrace(h, sh); }
  }
}
