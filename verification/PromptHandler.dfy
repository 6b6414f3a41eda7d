/** handlePrompt in the code's own form, on the server object: one prompt from its checks to its
    response, with an executor that may do anything and with cancellations from setActiveCancel on. */
module PromptHandler {
  import opened Text
  import opened Protocol
  import opened ClientRpc
  import opened Tools
  import opened Cancels
  import opened Turn
  import opened TurnProofs
  import opened SystemTurns
  import opened ServerObject
  import opened PromptObjects

  /** What happens while the executor runs: it offers an update or uses a tool, or the reader handles a
      session/cancel for this session. */
  datatype ExecStep =
    | Says(call: WriterCall)
    | Uses(rawId: string, newId: string, name: string, args: ToolArgs, wait: Wait)
    | Interrupted

  predicate IsInterrupted(steps: seq<ExecStep>) {
    exists k :: 0 <= k < |steps| && steps[k].Interrupted?
  }

  lemma InterruptedAppend(steps: seq<ExecStep>, step: ExecStep)
    ensures IsInterrupted(steps + [step]) <==> IsInterrupted(steps) || step.Interrupted?
  {
    var more := steps + [step];
    assert more[|steps|] == step;
    if IsInterrupted(steps) {
      var k :| 0 <= k < |steps| && steps[k].Interrupted?;
      assert more[k].Interrupted?;
    }
  }

  lemma OneAct(sid: string, act: Act)
    ensures Lines(sid, [act]) == ActLines(sid, act) && Lines(sid, []) == []
    ensures Spoke([act]) == IsAgentAct(act) && !Spoke([])
  {
    LinesAppend(sid, [], act);
    SpokeAppend([], act);
    assert [] + [act] == [act];
  }

  lemma AcceptedWhenLive(call: WriterCall, live: bool, update: Update)
    requires Offer(call, live) == Accepted(update)
    ensures Offer(call, true) == Accepted(update)
  {
  }

  method Call(writer: PromptUpdateWriter, call: WriterCall) returns (ok: bool)
    modifies writer.server`out, writer`chunkEmitted
    ensures Served(call, writer.ctx.err.Live?, writer.sessionId, ok,
                   old(writer.server.out), writer.server.out, old(writer.chunkEmitted), writer.chunkEmitted)
  {
    match call
    case UserMessageChunk(text) => ok := writer.UserMessageChunk(text);
    case AgentMessageChunk(text) => ok := writer.AgentMessageChunk(text);
    case AgentThoughtChunk(text) => ok := writer.AgentThoughtChunk(text);
    case Plan(entries) => ok := writer.Plan(entries);
    case AvailableCommands(names) => ok := writer.AvailableCommands(names);
    case CurrentMode(mode) => ok := writer.CurrentMode(mode);
    case ConfigOptions(options) => ok := writer.ConfigOptions(options);
    case Raw(update) => ok := writer.Raw(update);
  }

  /** An update offered by the executor adds one act or none; h is the turn the act belongs to. */
  method Say(writer: PromptUpdateWriter, call: WriterCall, ghost h: Handler) returns (ghost acts: seq<Act>)
    modifies writer.server`out, writer`chunkEmitted
    ensures |acts| <= 1 && (acts != [] ==> ActOk(h, acts[0]))
    ensures writer.server.out == old(writer.server.out) + Lines(writer.sessionId, acts)
    ensures writer.chunkEmitted == (old(writer.chunkEmitted) || Spoke(acts))
  {
    ghost var offered := Offer(call, writer.ctx.err.Live?);
    var ok := Call(writer, call);
    OneAct(writer.sessionId, Wrote(call, InfoUpdate));
    acts := [];
    if offered.Accepted? {
      acts := [Wrote(call, offered.update)];
      AcceptedWhenLive(call, old(writer.ctx.err.Live?), offered.update);
      OneAct(writer.sessionId, acts[0]);
    }
  }

  /** A tool use adds one act. */
  method Use(tools: ToolInvoker, step: ExecStep, ghost h: Handler) returns (ghost acts: seq<Act>)
    requires step.Uses? && tools.server.RpcValid() && h.caps == tools.caps && h.snapshot.cwd == tools.cwd
    modifies tools.server`requestIDCounter, tools.server`pendingResponses, tools.server`earlyResponses, tools.server`out
    modifies tools.server.pendingResponses.Values
    ensures tools.server.RpcValid()
    ensures fresh(tools.server.pendingResponses.Values - old(tools.server.pendingResponses.Values))
    ensures |acts| == 1 && ActOk(h, acts[0]) && !Spoke(acts)
    ensures tools.server.out == old(tools.server.out) + Lines(tools.sessionId, acts)
  {
    var verdict, asked;
    ghost var chans;
    verdict, asked, chans := tools.InvokeTool(step.rawId, step.newId, step.name, step.args, step.wait);
    acts := [Used(ToolUse(EffectiveCallId(step.rawId, step.newId), step.name, step.args), asked, verdict)];
    OneAct(tools.sessionId, acts[0]);
    if verdict.ok { CompletedMeansAsked(step.name, Ended(old(tools.server.RpcTables()), step.wait)); }
  }

  lemma CompletedMeansAsked(name: string, exit: Exit)
    requires ToolVerdict(name, exit).ok
    ensures !exit.WriteFailed?
  {
  }

  ghost predicate AllOk(h: Handler, acts: seq<Act>) {
    forall k | 0 <= k < |acts| :: ActOk(h, acts[k])
  }

  lemma MoreActs(h: Handler, sid: string, acts: seq<Act>, more: seq<Act>, out: seq<Payload>)
    requires AllOk(h, acts) && |more| <= 1 && (more != [] ==> ActOk(h, more[0]))
    ensures AllOk(h, acts + more) && (Spoke(acts + more) <==> Spoke(acts) || Spoke(more))
    ensures out + Lines(sid, acts) + Lines(sid, more) == out + Lines(sid, acts + more)
  {
    if more == [] {
      assert acts + more == acts && Lines(sid, []) == [];
    } else {
      assert more == [more[0]];
      OneAct(sid, more[0]);
      LinesAppend(sid, acts, more[0]);
      SpokeAppend(acts, more[0]);
      OneMoreOk(h, acts, more[0]);
      Append(out, Lines(sid, acts), ActLines(sid, more[0]));
    }
  }

  lemma OneMoreOk(h: Handler, acts: seq<Act>, act: Act)
    requires AllOk(h, acts) && ActOk(h, act)
    ensures AllOk(h, acts + [act])
  {
  }

  /** One step of the executor's run. */
  method PerformStep(writer: PromptUpdateWriter, tools: ToolInvoker, step: ExecStep, ghost h: Handler)
    returns (ghost acts: seq<Act>)
    requires tools.server == writer.server && tools.sessionId == writer.sessionId
    requires writer.server.RpcValid() && h.caps == tools.caps && h.snapshot.cwd == tools.cwd
    requires writer.Registered()
    modifies writer.server`requestIDCounter, writer.server`pendingResponses, writer.server`earlyResponses
    modifies writer.server`out, writer.server`cancelFlags, writer`chunkEmitted, writer.ctx
    modifies writer.server.pendingResponses.Values
    ensures fresh(writer.server.pendingResponses.Values - old(writer.server.pendingResponses.Values))
    ensures writer.server.RpcValid() && |acts| <= 1 && (acts != [] ==> ActOk(h, acts[0]))
    ensures writer.server.out == old(writer.server.out) + Lines(writer.sessionId, acts)
    ensures writer.chunkEmitted == (old(writer.chunkEmitted) || Spoke(acts))
    ensures writer.server.CancelTables().flags
            == if step.Interrupted? then old(writer.server.CancelTables()).flags + {writer.sessionId}
               else old(writer.server.CancelTables()).flags
    ensures writer.ctx.err == if step.Interrupted? && old(writer.ctx.err).Live? then Canceled else old(writer.ctx.err)
  {
    match step
    case Says(call) => acts := Say(writer, call, h);
    case Uses(_, _, _, _, _) => acts := Use(tools, step, h);
    case Interrupted =>
      acts := [];
      OneAct(writer.sessionId, Wrote(WriterCall.Plan([]), InfoUpdate));
      writer.server.CancelSession(writer.sessionId);
  }

  /** The executor's run. Whatever it does, its lines are those of its acts, and an interruption raises
      the session's flag and cancels the prompt's context. */
  method StreamReply(writer: PromptUpdateWriter, tools: ToolInvoker, steps: seq<ExecStep>, ghost h: Handler)
    returns (ghost acts: seq<Act>)
    requires tools.server == writer.server && tools.sessionId == writer.sessionId
    requires writer.server.RpcValid() && h.caps == tools.caps && h.snapshot.cwd == tools.cwd
    requires writer.Registered()
    modifies writer.server`requestIDCounter, writer.server`pendingResponses, writer.server`earlyResponses
    modifies writer.server`out, writer.server`cancelFlags, writer`chunkEmitted, writer.ctx
    modifies writer.server.pendingResponses.Values
    ensures writer.server.RpcValid() && AllOk(h, acts)
    ensures writer.server.out == old(writer.server.out) + Lines(writer.sessionId, acts)
    ensures writer.chunkEmitted == (old(writer.chunkEmitted) || Spoke(acts))
    ensures writer.server.CancelTables().flags
            == if IsInterrupted(steps) then old(writer.server.CancelTables()).flags + {writer.sessionId}
               else old(writer.server.CancelTables()).flags
    ensures writer.ctx.err
            == if IsInterrupted(steps) && old(writer.ctx.err).Live? then Canceled else old(writer.ctx.err)
  {
    var sid := writer.sessionId;
    acts := [];
    OneAct(sid, Wrote(WriterCall.Plan([]), InfoUpdate));
    for i := 0 to |steps|
      invariant fresh(writer.server.pendingResponses.Values - old(writer.server.pendingResponses.Values))
      invariant writer.server.RpcValid() && AllOk(h, acts)
      invariant writer.server.out == old(writer.server.out) + Lines(sid, acts)
      invariant writer.chunkEmitted == (old(writer.chunkEmitted) || Spoke(acts))
      invariant writer.server.CancelTables().flags
                == if IsInterrupted(steps[..i]) then old(writer.server.CancelTables()).flags + {sid}
                   else old(writer.server.CancelTables()).flags
      invariant writer.ctx.err
                == if IsInterrupted(steps[..i]) && old(writer.ctx.err).Live? then Canceled else old(writer.ctx.err)
    {
      assert steps[..i + 1] == steps[..i] + [steps[i]];
      InterruptedAppend(steps[..i], steps[i]);
      ghost var more := PerformStep(writer, tools, steps[i], h);
      MoreActs(h, sid, acts, more, old(writer.server.out));
      acts := acts + more;
    }
    assert steps[..|steps|] == steps;
  }

  // ----- The turn -----

  /** After an error: `cancelled` if the flag is up or the context was cancelled. */
  method AfterError(writer: PromptUpdateWriter) returns (answer: Answer)
    modifies writer.server`cancelFlags
    ensures writer.server.CancelTables().flags == old(writer.server.CancelTables()).flags - {writer.sessionId}
    ensures answer == if writer.sessionId in old(writer.server.CancelTables()).flags || writer.ctx.err.Canceled?
                      then Stop(Cancelled) else Failure(INTERNAL_ERROR)
  {
    var up := writer.server.ConsumeCancelFlag(writer.sessionId);
    answer := if up || writer.ctx.err.Canceled? then Stop(Cancelled) else Failure(INTERNAL_ERROR);
  }

  /** The end of a turn whose executor has returned a reply: the fallback chunk, the last look at the
      flag, session_info_update. `late`: a session/cancel comes between the first two. */
  method Conclude(writer: PromptUpdateWriter, reply: string, late: bool) returns (answer: Answer, fell: bool)
    requires writer.Registered()
    modifies writer.server`out, writer.server`cancelFlags, writer`chunkEmitted, writer.ctx
    ensures writer.server.out == old(writer.server.out)
            + (if fell then [Notify(writer.sessionId, AgentChunk(reply))] else [])
            + (if answer == Stop(EndTurn) then [Notify(writer.sessionId, InfoUpdate)] else [])
    ensures writer.server.CancelTables().flags == old(writer.server.CancelTables()).flags - {writer.sessionId}
    ensures var (up, ctx) := (writer.sessionId in old(writer.server.CancelTables()).flags, old(writer.ctx.err));
            var fallback := !Blank(reply) && !old(writer.chunkEmitted);
            && fell == (fallback && ctx.Live?)
            && answer == (if fallback && !ctx.Live? then
                            (if up || ctx.Canceled? then Stop(Cancelled) else Failure(INTERNAL_ERROR))
                          else if up || late then Stop(Cancelled) else Stop(EndTurn))
  {
    fell := false;
    if !Blank(reply) && !writer.chunkEmitted {
      var ok := writer.AgentMessageChunk(reply);
      if !ok {
        answer := AfterError(writer);
        return;
      }
      fell := true;
    }
    RaisedOrNot(writer.server.CancelTables(), writer.sessionId, late);
    writer.Interrupt(late, SessionCancel);
    var up := writer.server.ConsumeCancelFlag(writer.sessionId);
    if up {
      answer := Stop(Cancelled);
      return;
    }
    writer.server.Write(Notify(writer.sessionId, InfoUpdate));
    answer := Stop(EndTurn);
  }

  lemma RaisedOrNot<F>(t: Cancels<F>, sid: string, now: bool)
    ensures TablesAfter(t, sid, now, SessionCancel).flags - {sid} == t.flags - {sid}
  {
  }

  function TextOf(reply: Option<string>): string {
    match reply
    case Some(text) => text
    case None => ""
  }

  /** The turn of a handler record without its response. */
  function BodyLines(h: Handler, answer: Answer): seq<Payload> {
    Notes(h.session, Lead(h, h.passed)) + Lines(h.session, h.acts)
    + (if h.marks.fell then [Notify(h.session, AgentChunk(h.reply))] else [])
    + (if answer == Stop(EndTurn) then [Notify(h.session, InfoUpdate)] else [])
  }

  /** The turn announces and uses these session data and capabilities. */
  predicate Draws(h: Handler, snapshot: Snapshot, caps: Caps) {
    && h.snapshot == snapshot && h.caps == caps
    && h.commands == CommandNames(caps) && h.config == SessionConfig(snapshot, caps)
  }

  /** What the record of a turn says: how far the announcement got, whose data it used, what the
      executor did, and when the fallback chunk was written. */
  ghost predicate TurnOk(h: Handler, answer: Answer, snapshot: Snapshot, caps: Caps) {
    && h.passed <= 4 && AllOk(h, h.acts) && Draws(h, snapshot, caps)
    && (h.passed < 4 ==> h.acts == [] && !h.marks.fell && answer != Stop(EndTurn))
    && (answer == Stop(EndTurn) ==> (h.marks.fell <==> !Blank(h.reply) && !Spoke(h.acts)))
  }

  lemma {:induction false} NotesConcat(sid: string, a: seq<Update>, b: seq<Update>)
    ensures Notes(sid, a + b) == Notes(sid, a) + Notes(sid, b)
  {
    if b == [] {
      assert a + b == a;
    } else {
      var n := |b| - 1;
      assert (a + b)[..|a + b| - 1] == a + b[..n] && (a + b)[|a + b| - 1] == b[n];
      NotesConcat(sid, a, b[..n]);
    }
  }

  /** All the updates of an announcement; a blank text is passed over. */
  function Announcement(text: string, snapshot: Snapshot, caps: Caps): seq<Update> {
    (if Blank(text) then [] else [UserChunk(text)]) + ContextUpdates(snapshot, caps, caps)
  }

  /** The record of a turn that has announced itself and in which nothing else has happened. */
  predicate Announced(h: Handler, snapshot: Snapshot, caps: Caps) {
    h.passed == 4 && !h.marks.fell && Draws(h, snapshot, caps)
  }

  lemma LeadSame(h: Handler, g: Handler)
    requires g.text == h.text && g.commands == h.commands && g.config == h.config
    ensures Lead(g, 4) == Lead(h, 4)
  {
  }

  lemma ActsJoin(h: Handler, g: Handler, acts: seq<Act>, snapshot: Snapshot, caps: Caps)
    requires Announced(h, snapshot, caps) && AllOk(h, acts) && g == h.(acts := acts)
    ensures Announced(g, snapshot, caps) && AllOk(g, g.acts) && Lead(g, 4) == Lead(h, 4)
  {
    AllOkStays(h, g, acts);
    LeadSame(h, g);
  }

  lemma LeadIsAnnouncement(h: Handler, checks: nat)
    requires h.commands == CommandNames(h.caps) && h.config == SessionConfig(h.snapshot, h.caps)
    requires checks <= |Announcement(h.text, h.snapshot, h.caps)|
    ensures Lead(h, PassedBy(h.text, checks)) == Announcement(h.text, h.snapshot, h.caps)[..checks]
  {
  }

  /** How many parts of the announcement are over after some checks. */
  function PassedBy(text: string, checks: nat): nat {
    checks + if Blank(text) then 1 else 0
  }

  /** How many checks of the announcement find a live context if a session/cancel comes before check `cut`. */
  function ChecksPassed(text: string, cut: nat, live: bool): nat {
    var all := if Blank(text) then 3 else 4;
    if !live then 0 else if cut < all then cut else all
  }

  /** The code gets to check `cut`. */
  predicate CutReached(text: string, cut: nat, live: bool) {
    cut == 0 || (live && cut < if Blank(text) then 3 else 4)
  }

  /** A turn broken off during its announcement. */
  lemma ShortTurn(h: Handler, answer: Answer)
    requires h.acts == [] && !h.marks.fell && answer != Stop(EndTurn)
    ensures BodyLines(h, answer) == Notes(h.session, Lead(h, h.passed))
  {
    assert Lines(h.session, []) == [];
  }

  /** The announcement: user text, then the session context. */
  method EmitAnnouncement(writer: PromptUpdateWriter, text: string, snapshot: Snapshot, caps: Caps, cut: nat)
    returns (ok: bool, ghost checks: nat)
    requires writer.server.clientCaps == caps && writer.Registered()
    modifies writer.server`out, writer.server`cancelFlags, writer.ctx
    ensures checks == ChecksPassed(text, cut, old(writer.ctx.err).Live?) && (ok <==> PassedBy(text, checks) == 4)
    ensures writer.server.out
            == old(writer.server.out) + Notes(writer.sessionId, Announcement(text, snapshot, caps)[..checks])
    ensures var cancelled := CutReached(text, cut, old(writer.ctx.err).Live?);
            && writer.server.CancelTables()
               == (if cancelled then RaiseFlag(old(writer.server.CancelTables()), writer.sessionId).0
                   else old(writer.server.CancelTables()))
            && writer.ctx.err == if cancelled && old(writer.ctx.err).Live? then Canceled else old(writer.ctx.err)
  {
    if Blank(text) {
      assert Announcement(text, snapshot, caps) == ContextUpdates(snapshot, caps, caps);
      ok, checks := writer.EmitSessionContextUpdates(snapshot, caps, cut, SessionCancel);
      return;
    }
    ghost var sid := writer.sessionId;
    writer.Interrupt(cut == 0, SessionCancel);
    ok := writer.UserMessageChunk(text);
    checks := 0;
    UserFirst(old(writer.server.out), sid, text, ContextUpdates(snapshot, caps, caps), 0);
    if ok {
      ok, checks := writer.EmitSessionContextUpdates(snapshot, caps, cut - 1, SessionCancel);
      UserFirst(old(writer.server.out), sid, text, ContextUpdates(snapshot, caps, caps), checks);
      checks := checks + 1;
    }
  }

  lemma TakeCons<T>(x: T, xs: seq<T>, n: nat)
    requires n <= |xs|
    ensures ([x] + xs)[..n + 1] == [x] + xs[..n] && ([x] + xs)[..0] == []
  {
  }

  lemma UserFirst(out: seq<Payload>, sid: string, text: string, context: seq<Update>, n: nat)
    requires n <= |context|
    ensures Notes(sid, ([UserChunk(text)] + context)[..0]) == []
    ensures out + [Notify(sid, UserChunk(text))] + Notes(sid, context[..n])
            == out + Notes(sid, ([UserChunk(text)] + context)[..n + 1])
  {
    TakeCons(UserChunk(text), context, n);
    NotesConcat(sid, [UserChunk(text)], context[..n]);
    OneNote(sid, UserChunk(text));
    Append(out, [Notify(sid, UserChunk(text))], Notes(sid, context[..n]));
  }

  lemma OneNote(sid: string, u: Update)
    ensures Notes(sid, [u]) == [Notify(sid, u)] && Notes(sid, []) == []
  {
    NotesAppend(sid, [], u);
    assert [] + [u] == [u];
  }

  lemma RaisedAndTaken<F>(t: Cancels<F>, sid: string)
    requires sid !in t.flags
    ensures RaiseFlag(t, sid).0.flags - {sid} == t.flags && t.flags - {sid} == t.flags
            && (t.flags + {sid}) - {sid} == t.flags
  {
  }

  /** A turn's record, before the executor and the ending have their say. */
  ghost function Record(id: Id, sid: string, text: string, snapshot: Snapshot, caps: Caps, passed: nat): Handler {
    Handler(0, id, NO_FIELDS, sid, text, Done, Live, NO_MARKS, snapshot, caps, CommandNames(caps),
            SessionConfig(snapshot, caps),
            "", passed, [], None, [])
  }

  lemma AllOkStays(h: Handler, g: Handler, acts: seq<Act>)
    requires AllOk(h, acts) && g.caps == h.caps && g.snapshot == h.snapshot
    ensures AllOk(g, acts)
  {
    forall k | 0 <= k < |acts| ensures ActOk(g, acts[k]) {
      assert ActOk(h, acts[k]);
    }
  }

  lemma FullTurn(h: Handler, answer: Answer, out: seq<Payload>)
    ensures out + Notes(h.session, Lead(h, h.passed)) + Lines(h.session, h.acts)
            + (if h.marks.fell then [Notify(h.session, AgentChunk(h.reply))] else [])
            + (if answer == Stop(EndTurn) then [Notify(h.session, InfoUpdate)] else [])
            == out + BodyLines(h, answer)
  {
    RegroupFour(out, Notes(h.session, Lead(h, h.passed)), Lines(h.session, h.acts),
                if h.marks.fell then [Notify(h.session, AgentChunk(h.reply))] else [],
                if answer == Stop(EndTurn) then [Notify(h.session, InfoUpdate)] else []);
  }

  lemma RegroupFour<T>(out: seq<T>, a: seq<T>, b: seq<T>, c: seq<T>, d: seq<T>)
    ensures out + a + b + c + d == out + (a + b + c + d)
  {
    Regroup(out, a, b, c);
    Append(out, a + b + c, d);
  }

  /** What the end of a turn makes of its record. */
  lemma TurnEnds(h0: Handler, h: Handler, answer: Answer, out: seq<Payload>, snapshot: Snapshot, caps: Caps)
    requires Announced(h0, snapshot, caps) && AllOk(h0, h0.acts)
    requires h == h0.(reply := h.reply, marks := h0.marks.(fell := h.marks.fell))
    requires answer == Stop(EndTurn) ==> (h.marks.fell <==> !Blank(h.reply) && !Spoke(h.acts))
    ensures TurnOk(h, answer, snapshot, caps)
    ensures out + Notes(h0.session, Lead(h0, 4)) + Lines(h0.session, h0.acts)
            + (if h.marks.fell then [Notify(h.session, AgentChunk(h.reply))] else [])
            + (if answer == Stop(EndTurn) then [Notify(h.session, InfoUpdate)] else [])
            == out + BodyLines(h, answer)
  {
    LeadSame(h0, h);
    FullTurn(h, answer, out);
    AllOkStays(h0, h, h0.acts);
  }

  /** The end of a turn that has announced itself and whose executor has returned a reply or an error; up to
      here a session/cancel has done both, raise the flag and cancel the context, or neither. */
  method EndTurnOf(writer: PromptUpdateWriter, reply: Option<string>, late: bool, ghost h0: Handler,
                   ghost out: seq<Payload>, ghost snapshot: Snapshot, ghost caps: Caps)
    returns (answer: Answer, ghost h: Handler)
    requires writer.Registered()
    requires writer.ctx.err == if writer.sessionId in writer.server.CancelTables().flags then Canceled else Live
    requires h0.session == writer.sessionId && Announced(h0, snapshot, caps) && AllOk(h0, h0.acts)
    requires writer.chunkEmitted <==> Spoke(h0.acts)
    requires writer.server.out == out + Notes(h0.session, Lead(h0, 4)) + Lines(h0.session, h0.acts)
    modifies writer.server`out, writer.server`cancelFlags, writer`chunkEmitted, writer.ctx
    ensures h.id == h0.id && h.session == h0.session && h.text == h0.text && TurnOk(h, answer, snapshot, caps)
    ensures writer.server.out == out + BodyLines(h, answer)
    ensures writer.server.CancelTables().flags == old(writer.server.CancelTables()).flags - {writer.sessionId}
    ensures answer == Stop(Cancelled)
            <==> writer.sessionId in old(writer.server.CancelTables()).flags || (late && reply.Some?)
  {
    var fell := false;
    if reply.None? {
      answer := AfterError(writer);
    } else {
      answer, fell := Conclude(writer, reply.value, late);
    }
    h := h0.(reply := TextOf(reply), marks := h0.marks.(fell := fell));
    TurnEnds(h0, h, answer, out, snapshot, caps);
  }

  /** The executor's part of a turn that has announced itself completely. */
  method RunExecutor(writer: PromptUpdateWriter, snapshot: Snapshot, steps: seq<ExecStep>, ghost h0: Handler,
                     ghost out: seq<Payload>)
    returns (ghost h: Handler)
    requires writer.server.RpcValid() && !writer.chunkEmitted && writer.ctx.err.Live?
    requires h0.session == writer.sessionId && Announced(h0, snapshot, writer.server.clientCaps)
    requires writer.Registered() && writer.server.out == out + Notes(h0.session, Lead(h0, 4))
    requires writer.sessionId !in writer.server.CancelTables().flags
    modifies writer.server`requestIDCounter, writer.server`pendingResponses, writer.server`earlyResponses
    modifies writer.server`out, writer.server`cancelFlags, writer`chunkEmitted, writer.ctx
    modifies writer.server.pendingResponses.Values
    ensures writer.server.RpcValid()
    ensures h.id == h0.id && h.session == h0.session && h.text == h0.text
    ensures Announced(h, snapshot, writer.server.clientCaps) && AllOk(h, h.acts)
    ensures writer.server.out == out + Notes(h.session, Lead(h, 4)) + Lines(h.session, h.acts)
    ensures writer.chunkEmitted <==> Spoke(h.acts)
    ensures writer.sessionId in writer.server.CancelTables().flags <==> IsInterrupted(steps)
    ensures writer.server.CancelTables().flags - {writer.sessionId} == old(writer.server.CancelTables()).flags
    ensures writer.ctx.err == if IsInterrupted(steps) then Canceled else Live
  {
    RaisedAndTaken(writer.server.CancelTables(), writer.sessionId);
    var tools := new ToolInvoker(writer.server, writer.sessionId, snapshot.cwd);
    ghost var acts := StreamReply(writer, tools, steps, h0);
    h := h0.(acts := acts);
    ActsJoin(h0, h, acts, snapshot, tools.caps);
  }

  /** The executor and the ending of a turn that has announced itself completely. */
  method Execute(writer: PromptUpdateWriter, snapshot: Snapshot, steps: seq<ExecStep>, reply: Option<string>,
                 late: bool, ghost h0: Handler, ghost out: seq<Payload>)
    returns (answer: Answer, ghost h: Handler)
    requires writer.server.RpcValid() && !writer.chunkEmitted && writer.ctx.err.Live?
    requires h0.session == writer.sessionId && Announced(h0, snapshot, writer.server.clientCaps)
    requires writer.Registered() && writer.server.out == out + Notes(h0.session, Lead(h0, 4))
    requires writer.sessionId !in writer.server.CancelTables().flags
    modifies writer.server`requestIDCounter, writer.server`pendingResponses, writer.server`earlyResponses
    modifies writer.server`out, writer.server`cancelFlags, writer`chunkEmitted, writer.ctx
    modifies writer.server.pendingResponses.Values
    ensures writer.server.RpcValid() && writer.server.CancelTables().flags == old(writer.server.CancelTables()).flags
    ensures h.id == h0.id && h.session == h0.session && h.text == h0.text
    ensures TurnOk(h, answer, snapshot, writer.server.clientCaps)
    ensures writer.server.out == out + BodyLines(h, answer)
    ensures answer == Stop(Cancelled) <==> IsInterrupted(steps) || (late && reply.Some?)
  {
    ghost var h1 := RunExecutor(writer, snapshot, steps, h0, out);
    answer, h := EndTurnOf(writer, reply, late, h1, out, snapshot, h0.caps);
  }

  /** The end of a turn whose announcement has failed. */
  method BreakOff(writer: PromptUpdateWriter, ghost h: Handler, ghost out: seq<Payload>, ghost snapshot: Snapshot,
                  ghost caps: Caps)
    returns (answer: Answer)
    requires h.passed < 4 && h.acts == [] && !h.marks.fell && Draws(h, snapshot, caps)
    requires writer.server.out == out + Notes(h.session, Lead(h, h.passed))
    modifies writer.server`cancelFlags
    ensures writer.server.out == out + BodyLines(h, answer) && TurnOk(h, answer, snapshot, caps)
    ensures writer.server.CancelTables().flags == old(writer.server.CancelTables()).flags - {writer.sessionId}
    ensures answer == Stop(Cancelled) <==>
              writer.sessionId in old(writer.server.CancelTables()).flags || writer.ctx.err.Canceled?
  {
    answer := AfterError(writer);
    ShortTurn(h, answer);
  }

  lemma RecordTells(h: Handler, id: Id, sid: string, text: string, snapshot: Snapshot, caps: Caps, checks: nat)
    requires checks <= |Announcement(text, snapshot, caps)|
    requires h == Record(id, sid, text, snapshot, caps, PassedBy(text, checks))
    ensures h.id == id && h.session == sid && h.text == text && h.passed == PassedBy(text, checks)
    ensures h.acts == [] && !h.marks.fell && Draws(h, snapshot, caps)
    ensures Notes(h.session, Lead(h, h.passed)) == Notes(sid, Announcement(text, snapshot, caps)[..checks])
  {
    LeadIsAnnouncement(h, checks);
  }

  /** The turn between setActiveCancel and the response. */
  method RunTurn(writer: PromptUpdateWriter, text: string, snapshot: Snapshot, cut: nat, steps: seq<ExecStep>,
                 reply: Option<string>, late: bool, ghost id: Id)
    returns (answer: Answer, ghost h: Handler)
    requires writer.server.RpcValid() && !writer.chunkEmitted
    requires writer.Registered()
    requires writer.sessionId !in writer.server.CancelTables().flags
    modifies writer.server`requestIDCounter, writer.server`pendingResponses, writer.server`earlyResponses
    modifies writer.server`out, writer.server`cancelFlags, writer`chunkEmitted, writer.ctx
    modifies writer.server.pendingResponses.Values
    ensures writer.server.RpcValid() && writer.server.CancelTables().flags == old(writer.server.CancelTables()).flags
    ensures h.id == id && h.session == writer.sessionId && h.text == text
    ensures TurnOk(h, answer, snapshot, writer.server.clientCaps)
    ensures writer.server.out == old(writer.server.out) + BodyLines(h, answer)
    ensures answer == Stop(Cancelled)
            <==> old(writer.ctx.err).Canceled?
                 || Halted(text, cut, old(writer.ctx.err).Live?, steps, late && reply.Some?)
  {
    RaisedAndTaken(writer.server.CancelTables(), writer.sessionId);
    var ok;
    ghost var checks;
    ok, checks := EmitAnnouncement(writer, text, snapshot, writer.server.clientCaps, cut);
    h := Record(id, writer.sessionId, text, snapshot, writer.server.clientCaps, PassedBy(text, checks));
    RecordTells(h, id, writer.sessionId, text, snapshot, writer.server.clientCaps, checks);
    if !ok {
      answer := BreakOff(writer, h, old(writer.server.out), snapshot, writer.server.clientCaps);
    } else {
      answer, h := Execute(writer, snapshot, steps, reply, late, h, old(writer.server.out));
    }
  }

  /** A session/cancel is handled during the announcement, while the executor runs, or after it. */
  predicate Halted(text: string, cut: nat, live: bool, steps: seq<ExecStep>, late: bool) {
    CutReached(text, cut, live) || (live && (IsInterrupted(steps) || late))
  }

  lemma WithResponse(h: Handler, answer: Answer, out: seq<Payload>)
    ensures out + BodyLines(h, answer) + [Respond(NormalizeId(h.id), answer)]
            == out + TurnLines(h, h.passed, h.acts, h.marks.fell, answer)
  {
    Append(out, BodyLines(h, answer), [Respond(NormalizeId(h.id), answer)]);
  }

  lemma Append<T>(a: seq<T>, b: seq<T>, c: seq<T>)
    ensures a + b + c == a + (b + c)
  {
  }

  lemma SetAndCleared<F>(active: map<string, F>, sid: string, cancel: F)
    ensures active[sid := cancel] - {sid} == active - {sid}
  {
  }

  /** The response and the deferred clearActiveCancel. */
  method Leave(server: Server, id: Id, sid: string, answer: Answer)
    modifies server`out, server`activeCancels
    ensures server.out == old(server.out) + [Respond(NormalizeId(id), answer)]
    ensures server.activeCancels == old(server.activeCancels) - {sid}
  {
    server.Write(Respond(NormalizeId(id), answer));
    server.ClearActiveCancel(sid);
  }

  /** From setActiveCancel to the deferred clearActiveCancel. */
  method RunRegistered(server: Server, id: Id, sid: string, text: string, snapshot: Snapshot, parent: Ctx,
                       cut: nat, steps: seq<ExecStep>, reply: Option<string>, late: bool)
    returns (answer: Answer, ghost h: Handler)
    requires server.RpcValid() && sid !in server.CancelTables().flags
    modifies server`requestIDCounter, server`pendingResponses, server`earlyResponses
    modifies server`out, server`cancelFlags, server`activeCancels, server.pendingResponses.Values
    ensures server.RpcValid() && server.activeCancels == old(server.activeCancels) - {sid}
    ensures server.CancelTables().flags == old(server.CancelTables()).flags
    ensures h.id == id && h.session == sid && h.text == text && TurnOk(h, answer, snapshot, server.clientCaps)
    ensures server.out == old(server.out) + BodyLines(h, answer) + [Respond(NormalizeId(id), answer)]
    ensures answer == Stop(Cancelled)
            <==> parent.Canceled? || Halted(text, cut, parent.Live?, steps, late && reply.Some?)
  {
    var ctx := new PromptContext(parent);
    server.SetActiveCancel(sid, ctx);
    var writer := new PromptUpdateWriter(server, sid, ctx);
    answer, h := RunTurn(writer, text, snapshot, cut, steps, reply, late, id);
    SetAndCleared(old(server.activeCancels), sid, ctx);
    Leave(server, id, sid, answer);
  }

  lemma CancelledAtOnce(h: Handler)
    requires h.passed == 0 && h.acts == [] && !h.marks.fell
    ensures TurnLines(h, 0, [], false, Stop(Cancelled)) == [Respond(NormalizeId(h.id), Stop(Cancelled))]
  {
    ShortTurn(h, Stop(Cancelled));
  }

  /** The three checks before a prompt touches the cancellation tables. */
  predicate Acceptable(params: Params, known: set<string>) {
    params.Params? && params.sessionId in known && params.prompt != []
  }

  /** A prompt that has passed the checks. */
  method RunPrompt(server: Server, id: Id, sid: string, text: string, snapshot: Snapshot, parent: Ctx,
                   cut: nat, steps: seq<ExecStep>, reply: Option<string>, late: bool)
    returns (answer: Answer, ghost h: Handler)
    requires server.RpcValid()
    modifies server`requestIDCounter, server`pendingResponses, server`earlyResponses
    modifies server`out, server`cancelFlags, server`activeCancels, server.pendingResponses.Values
    ensures server.RpcValid()
    ensures var flags := old(server.CancelTables()).flags;
            && h.id == id && h.session == sid && h.text == text && TurnOk(h, answer, snapshot, server.clientCaps)
            && server.out == old(server.out) + TurnLines(h, h.passed, h.acts, h.marks.fell, answer)
            && (answer == Stop(Cancelled)
                <==> sid in flags || parent.Canceled? || Halted(text, cut, parent.Live?, steps, late && reply.Some?))
            && server.CancelTables().flags == flags - {sid}
            && (sid !in flags ==> server.activeCancels == old(server.activeCancels) - {sid})
  {
    var up := server.ConsumeCancelFlag(sid);
    if up {
      answer := Stop(Cancelled);
      h := Record(id, sid, text, snapshot, server.clientCaps, 0);
      CancelledAtOnce(h);
      server.Write(Respond(NormalizeId(id), answer));
    } else {
      answer, h := RunRegistered(server, id, sid, text, snapshot, parent, cut, steps, reply, late);
      WithResponse(h, answer, old(server.out));
    }
  }

  /** handlePrompt. A refused prompt gets an error. Otherwise its lines are one turn of the session as
      it was bound, and it is answered `cancelled` exactly if the flag was up, the context of Serve
      was cancelled, or a session/cancel came after setActiveCancel and before the last look at the
      flag; then neither flag nor cancel function is left. `cut` is the check of the announcement before
      which a session/cancel comes, if there are that many; `late` says that one comes between the
      fallback chunk and the last look. */
  method HandlePrompt(server: Server, id: Id, params: Params, parent: Ctx,
                      cut: nat, steps: seq<ExecStep>, reply: Option<string>, late: bool)
    returns (answer: Answer, ghost h: Handler)
    requires server.RpcValid()
    modifies server`requestIDCounter, server`pendingResponses, server`earlyResponses
    modifies server`out, server`cancelFlags, server`activeCancels, server.pendingResponses.Values
    ensures server.RpcValid()
    ensures !Acceptable(params, server.sessions.Keys) ==>
              && answer == Failure(INVALID_PARAMS) && server.CancelTables() == old(server.CancelTables())
              && server.out == old(server.out) + [Respond(NormalizeId(id), answer)]
    ensures Acceptable(params, server.sessions.Keys) ==>
              var (sid, flags) := (params.sessionId, old(server.CancelTables()).flags);
              && h.id == id && h.session == sid && h.text == ExtractPromptText(params.prompt)
              && TurnOk(h, answer, old(server.sessions[sid].View()), server.clientCaps)
              && server.out == old(server.out) + TurnLines(h, h.passed, h.acts, h.marks.fell, answer)
              && (answer == Stop(Cancelled)
                  <==> sid in flags || parent.Canceled?
                       || Halted(h.text, cut, parent.Live?, steps, late && reply.Some?))
              && server.CancelTables().flags == flags - {sid}
              && (sid !in flags ==> server.activeCancels == old(server.activeCancels) - {sid})
  {
    h := Record(id, "", "", Snapshot("", []), server.clientCaps, 0);
    if params.BadJson? || params.sessionId !in server.sessions || params.prompt == [] {
      answer := Failure(INVALID_PARAMS);
      server.Write(Respond(NormalizeId(id), answer));
      return;
    }
    var sid := params.sessionId;
    var snapshot := server.sessions[sid].View();
    var text := ExtractText(params.prompt);
    answer, h := RunPrompt(server, id, sid, text, snapshot, parent, cut, steps, reply, late);
  }
}
