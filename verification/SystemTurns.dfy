/** What one prompt turn looks like in the output, and which session data it uses. */
module SystemTurns {
  import opened Text
  import opened Paths
  import opened Protocol
  import opened Tools
  import opened Turn
  import opened TurnProofs
  import opened TurnFrames
  import opened System
  import opened SystemInv
  import opened SystemTables
  import opened SystemSessions
  import opened SystemTheorems

  /** A complete turn: the first `passed` parts of the announcement, the executor's acts, the fallback
      chunk, session_info_update exactly for `end_turn`, and the response as the last line. */
  function TurnLines(h: Handler, passed: nat, acts: seq<Act>, fell: bool, answer: Answer): seq<Payload> {
    Notes(h.session, Lead(h, passed)) + Lines(h.session, acts)
    + (if fell then [Notify(h.session, AgentChunk(h.reply))] else [])
    + (if answer == Stop(EndTurn) then [Notify(h.session, InfoUpdate)] else [])
    + [Respond(NormalizeId(h.id), answer)]
  }

  /** For every executor and every way out, the lines of an answered request are a legal turn. The
      executor only acts after the whole announcement; on `end_turn` the fallback chunk is there
      exactly if the reply is not blank and no AgentMessageChunk call was accepted; `cancelled` is
      answered exactly if a flag was consumed or the context was found cancelled. */
  lemma TurnGrammar(run: seq<Step>, i: nat)
    requires Valid(Init(), run) && i < |After(Init(), run).handlers|
    requires After(Init(), run).handlers[i].answered.Some?
    ensures var s := After(Init(), run);
            var h := s.handlers[i];
            var answer := h.answered.value;
            && WrittenBy(s.out, i) == TurnLines(h, h.passed, h.acts, h.marks.fell, answer)
            && h.passed <= 4 && (h.passed < 4 ==> h.acts == [] && !h.marks.fell && answer != Stop(EndTurn))
            && (answer == Stop(EndTurn) ==> (h.marks.fell <==> !Blank(h.reply) && !Spoke(h.acts)))
            && (answer == Stop(Cancelled) <==> h.marks.took || h.marks.sawCancel)
            && forall k | 0 <= k < |h.acts| :: ActOk(h, h.acts[k])
  {
    Reached(run);
    var s := After(Init(), run);
    var h := s.handlers[i];
    assert LocalInv(h) && WrittenBy(s.out, i) == h.trace;
    AnsweredTurn(h);
  }

  lemma AnsweredTurn(h: Handler)
    requires StageOk(h) && FallbackOk(h) && CancelOk(h) && TraceOk(h) && h.answered.Some?
    ensures h.trace == TurnLines(h, h.passed, h.acts, h.marks.fell, h.answered.value)
    ensures h.passed <= 4 && (h.passed < 4 ==> h.acts == [] && !h.marks.fell && h.answered.value != Stop(EndTurn))
    ensures h.answered.value == Stop(EndTurn) ==> (h.marks.fell <==> !Blank(h.reply) && !Spoke(h.acts))
    ensures h.answered.value == Stop(Cancelled) <==> h.marks.took || h.marks.sawCancel
  {
    assert Answered(h.pc) && (h.marks.informed <==> h.answered == Some(Stop(EndTurn)));
    assert Opened(h) == [];
  }

  lemma AnsweredStep(s: State, step: Step, i: nat)
    requires LocalOk(s) && Enabled(s, step) && i < |s.handlers| && s.handlers[i].answered.Some?
    ensures var t := Apply(s, step);
            i < |t.handlers| && t.handlers[i].answered == s.handlers[i].answered
            && t.handlers[i].trace == s.handlers[i].trace
  {
    HandlersFrame(s, step);
    assert StageOk(s.handlers[i]);
    if step.Handle? {
      AdvanceFrame(step.i, s.handlers[step.i], s.sh, step.choice);
      if step.i == i { assert s.handlers[i].pc.ClearingCancel?; }
    } else {
      IdentityStays(s, step, i);
      match step
      case CallCancel =>
      case _ =>
    }
  }

  /** Nothing follows the response of a request, and the response does not change. */
  lemma NothingFollowsTheResponse(before: seq<Step>, run: seq<Step>, i: nat)
    requires Valid(Init(), before) && Valid(After(Init(), before), run)
    requires i < |After(Init(), before).handlers| && After(Init(), before).handlers[i].answered.Some?
    ensures var s := After(Init(), before);
            var t := After(s, run);
            i < |t.handlers| && t.handlers[i].answered == s.handlers[i].answered
            && WrittenBy(t.out, i) == WrittenBy(s.out, i)
  {
    hide *;
    Reached(before);
    AnsweredRun(After(Init(), before), run, i);
  }

  lemma {:induction false} AnsweredRun(s: State, run: seq<Step>, i: nat)
    requires Inv(s) && Valid(s, run) && i < |s.handlers| && s.handlers[i].answered.Some?
    ensures var t := After(s, run);
            i < |t.handlers| && t.handlers[i].answered == s.handlers[i].answered
            && WrittenBy(t.out, i) == WrittenBy(s.out, i)
    decreases |run|
  {
    if run != [] {
      AnsweredStep(s, run[0], i);
      StepKeepsInv(s, run[0]);
      assert OutOk(s) && OutOk(Apply(s, run[0]));
      AnsweredRun(Apply(s, run[0]), run[1..], i);
    }
  }

  /** Everything a prompt uses of its session comes from one single session/new or session/load: the
      working directory and MCP servers it hands to the executor and announces, and the directory
      below which its tool paths are resolved; and that directory is absolute. */
  lemma SnapshotIsAtomic(run: seq<Step>, i: nat)
    requires Valid(Init(), run) && i < |After(Init(), run).handlers| && SnapshotTaken(After(Init(), run).handlers[i])
    ensures var s := After(Init(), run);
            var h := s.handlers[i];
            exists snap: Snapshot ::
              && (h.session, snap) in s.sh.installed && IsAbs(snap.cwd) && h.snapshot == snap
              && (ConfigTaken(h) ==> ConfigOf(h.config, snap))
              && forall k | 0 <= k < |h.acts| && h.acts[k].Used? && h.acts[k].request.Some? ::
                   h.acts[k].request.value.Ask?
                   && GateTool(h.caps, snap.cwd, h.acts[k].tool.name, h.acts[k].tool.args)
                      == Send(h.acts[k].request.value.request)
  {
    Reached(run);
    var s := After(Init(), run);
    var h := s.handlers[i];
    assert LocalInv(h) && SessionBacked(h, s.sh);
    assert (h.session, h.snapshot) in s.sh.installed;
    forall k | 0 <= k < |h.acts| && h.acts[k].Used? && h.acts[k].request.Some?
      ensures h.acts[k].request.value.Ask?
              && GateTool(h.caps, h.snapshot.cwd, h.acts[k].tool.name, h.acts[k].tool.args)
                 == Send(h.acts[k].request.value.request)
    {
      assert ActOk(h, h.acts[k]);
    }
  }

  /** available_commands_update lists, sorted, exactly the tools the turn can use: a tool use leads to
      a client request exactly if its name is listed and its required arguments are given, and every
      request the turn did send was for a listed tool. */
  lemma CommandsAreTheUsableTools(run: seq<Step>, i: nat, name: string, args: ToolArgs)
    requires Valid(Init(), run) && i < |After(Init(), run).handlers| && SnapshotTaken(After(Init(), run).handlers[i])
    ensures var h := After(Init(), run).handlers[i];
            && Sorted(h.commands)
            && (GateTool(h.caps, h.snapshot.cwd, name, args).Send?
                <==> name in h.commands && HasRequiredArgs(name, args))
            && forall k | 0 <= k < |h.acts| && h.acts[k].Used? && h.acts[k].request.Some? ::
                 h.acts[k].tool.name in h.commands
  {
    Reached(run);
    var s := After(Init(), run);
    var h := s.handlers[i];
    assert LocalInv(h) && SessionBacked(h, s.sh);
    CommandsListed(h.caps, name);
    OfferedIffGatePasses(h.caps, h.snapshot.cwd, name, args);
    forall k | 0 <= k < |h.acts| && h.acts[k].Used? && h.acts[k].request.Some?
      ensures h.acts[k].tool.name in h.commands
    {
      assert ActOk(h, h.acts[k]);
      CommandsListed(h.caps, h.acts[k].tool.name);
      OfferedIffGatePasses(h.caps, h.snapshot.cwd, h.acts[k].tool.name, h.acts[k].tool.args);
    }
  }

  lemma CommandsListed(caps: Caps, name: string)
    ensures Sorted(CommandNames(caps)) && (name in CommandNames(caps) <==> name in ToolNames(caps))
  {
    SortStringsSorts(ToolNames(caps));
    assert name in CommandNames(caps) <==> name in multiset(CommandNames(caps));
    assert name in ToolNames(caps) <==> name in multiset(ToolNames(caps));
  }

  /** Every file path and working directory in any client request ever written is absolute and free
      of empty, `.` and `..` components. */
  lemma RequestPathsAreCanonical(run: seq<Step>, k: nat)
    requires Valid(Init(), run) && k < |After(Init(), run).out| && After(Init(), run).out[k].payload.Ask?
    ensures PathsCanonical(After(Init(), run).out[k].payload.request)
  {
    Reached(run);
    assert PathsOk(After(Init(), run));
  }
}
