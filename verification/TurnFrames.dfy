/** What one step of a handler does to the shared state, and what it leaves alone. */
module TurnFrames {
  import opened Text
  import opened Protocol
  import opened Turn
  import opened TurnProofs

  lemma LocalStep(i: nat, h: Handler, sh: Shared, choice: Choice)
    requires LocalInv(h) && CanAdvance(h, sh, choice)
    ensures LocalInv(Advance(i, h, sh, choice).h)
  {
    PointsStep(i, h, sh, choice);
    ActsStep(i, h, sh, choice);
    TraceStep(i, h, sh, choice);
  }

  /** Identity, connection and own context stay; what is emitted is what the trace grows by, and it is a
      response exactly when the handler was about to answer. */
  predicate HandlerFrame(o: Outcome, h: Handler) {
    && o.h.conn == h.conn && o.h.id == h.id && o.h.fields == h.fields && o.h.ctx == h.ctx && o.h.text == h.text
    && (h.pc.NamingSession? || o.h.session == h.session)
    && |o.emit| <= 1 && o.h.trace == h.trace + o.emit
    && !o.h.pc.ToolCalling?
    && (BeforeTurn(o.h.pc) ==> BeforeTurn(h.pc))
    && (if h.pc.Answering? then
          o.emit == [Respond(NormalizeId(h.id), h.pc.answer)] && o.h.answered == Some(h.pc.answer)
        else o.h.answered == h.answered && (o.emit != [] ==> !o.emit[0].Respond?))
  }

  predicate SharedFrame(o: Outcome, h: Handler, sh: Shared) {
    && o.sh.serverCtx == sh.serverCtx && o.sh.notices == sh.notices && o.sh.deadConns == sh.deadConns
    && o.sh.cancels.flags <= sh.cancels.flags
    && (if h.pc.NamingSession? || h.pc.Reinstalling? then
          var snap := Snapshot(h.fields.cwd, h.fields.mcp);
          o.sh.sessions == sh.sessions[o.h.session := snap] && o.sh.installed == sh.installed + {(o.h.session, snap)}
        else o.sh.sessions == sh.sessions && o.sh.installed == sh.installed)
  }

  /** activeCancels changes only at setActiveCancel and clearActiveCancel of the handler's session. */
  predicate ActiveFrame(i: nat, o: Outcome, h: Handler, sh: Shared) {
    if h.pc.SettingCancel? then
      o.sh.cancels.active == sh.cancels.active[h.session := i] && o.h.marks.registered && o.h.session == h.session
    else if h.pc.ClearingCancel? then
      o.sh.cancels.active == sh.cancels.active - {h.session} && !o.h.marks.registered
    else o.sh.cancels.active == sh.cancels.active && o.h.marks.registered == h.marks.registered
  }

  /** The flag of a session falls only by being consumed, or by session/new and session/load. */
  predicate FlagFrame(o: Outcome, h: Handler, sh: Shared) {
    && (forall sid | sid in sh.cancels.flags && sid !in o.sh.cancels.flags ::
          sid == h.session && (h.pc.ClearingFlag? || o.h.marks.took))
    && (o.h.marks.took && !h.marks.took ==>
          h.session in sh.cancels.flags && h.session !in o.sh.cancels.flags && o.h.session == h.session)
    && (h.marks.took ==> o.h.marks.took)
    && (o.h.marks.sawCancel ==> h.marks.sawCancel || Effective(h, sh).Canceled?)
  }

  lemma BeginFrame(i: nat, h: Handler, sh: Shared, choice: Choice)
    requires BeforeTurn(h.pc) && CanAdvance(h, sh, choice)
    ensures var o := Begin(i, h, sh, choice);
            HandlerFrame(o, h) && SharedFrame(o, h, sh) && ActiveFrame(i, o, h, sh) && FlagFrame(o, h, sh)
  {
  }

  lemma AnnounceFrame(i: nat, h: Handler, sh: Shared)
    requires Announcing(h.pc)
    ensures var o := Announce(h, sh);
            HandlerFrame(o, h) && SharedFrame(o, h, sh) && ActiveFrame(i, o, h, sh) && FlagFrame(o, h, sh)
  {
    if h.pc.Checking? {
      match Offer(StageCall(h, h.pc.stage), Effective(h, sh).Live?)
      case Silent =>
      case Rejected =>
      case Accepted(_) =>
    }
  }

  lemma PerformFrame(i: nat, h: Handler, sh: Shared, choice: Choice)
    requires InExecutor(h.pc) && CanAdvance(h, sh, choice)
    ensures var o := Perform(h, sh, choice);
            HandlerFrame(o, h) && SharedFrame(o, h, sh) && ActiveFrame(i, o, h, sh) && FlagFrame(o, h, sh)
  {
  }

  lemma FinishFrame(i: nat, h: Handler, sh: Shared)
    requires !BeforeTurn(h.pc) && !Announcing(h.pc) && !InExecutor(h.pc)
    ensures var o := Finish(h, sh);
            HandlerFrame(o, h) && SharedFrame(o, h, sh) && ActiveFrame(i, o, h, sh) && FlagFrame(o, h, sh)
  {
    match h.pc
    case LastCheck =>
    case ErrFlag =>
    case ErrCtx => if Effective(h, sh).Canceled? {} else {}
    case _ =>
  }

  lemma AdvanceFrame(i: nat, h: Handler, sh: Shared, choice: Choice)
    requires CanAdvance(h, sh, choice)
    ensures var o := Advance(i, h, sh, choice);
            HandlerFrame(o, h) && SharedFrame(o, h, sh) && ActiveFrame(i, o, h, sh) && FlagFrame(o, h, sh)
  {
    if BeforeTurn(h.pc) { BeginFrame(i, h, sh, choice); }
    else if Announcing(h.pc) { AnnounceFrame(i, h, sh); }
    else if InExecutor(h.pc) { PerformFrame(i, h, sh, choice); }
    else { FinishFrame(i, h, sh); }
  }
}
