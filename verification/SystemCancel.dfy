/** Cancellation over time: a cancel in the middle of a prompt is not lost, and a cancelled prompt
    falls silent. */
module SystemCancel {
  import opened Text
  import opened Protocol
  import opened Turn
  import opened TurnProofs
  import opened TurnFrames
  import opened System
  import opened SystemInv
  import opened SystemTables
  import opened SystemTheorems

  /** Program points of a prompt with a look at the cancel flag still ahead on every path. */
  predicate BeforeLastLook(pc: PC) {
    pc.FirstCheck? || pc.SettingCancel? || Announcing(pc) || InExecutor(pc) || pc.LastCheck? || pc.ErrFlag?
  }

  predicate LooksAtFlag(pc: PC) {
    pc.FirstCheck? || pc.LastCheck? || pc.ErrFlag? || pc.ClearingFlag?
  }

  /** A step of another prompt on the session that consumes its flag, or of a session/load that
      clears it. */
  predicate Interferes(s: State, step: Step, i: nat) {
    step.Handle? && step.i != i && step.i < |s.handlers| && i < |s.handlers|
    && s.handlers[step.i].session == s.handlers[i].session && LooksAtFlag(s.handlers[step.i].pc)
  }

  ghost predicate Undisturbed(s: State, run: seq<Step>, i: nat)
    decreases |run|
  {
    run == [] || (!Interferes(s, run[0], i) && Undisturbed(Apply(s, run[0]), run[1..], i))
  }

  /** The prompt will answer, or has answered, `cancelled`. */
  predicate Doomed(s: State, i: nat) {
    i < |s.handlers|
    && ((BeforeLastLook(s.handlers[i].pc) && s.handlers[i].session in s.sh.cancels.flags) || IsCancelled(s.handlers[i]))
  }

  /** The handler's own step: it stays doomed. */
  lemma DoomedAdvance(i: nat, h: Handler, sh: Shared, choice: Choice)
    requires StageOk(h) && CancelOk(h) && CanAdvance(h, sh, choice)
    requires (BeforeLastLook(h.pc) && h.session in sh.cancels.flags) || IsCancelled(h)
    ensures var o := Advance(i, h, sh, choice);
            (BeforeLastLook(o.h.pc) && o.h.session in o.sh.cancels.flags) || IsCancelled(o.h)
  {
    if Announcing(h.pc) {
      AnnounceFrame(i, h, sh);
      if h.pc.Checking? {
        match Offer(StageCall(h, h.pc.stage), Effective(h, sh).Live?)
        case Silent =>
        case Rejected =>
        case Accepted(_) =>
      }
    } else if InExecutor(h.pc) {
      PerformFrame(i, h, sh, choice);
    } else if BeforeTurn(h.pc) {
    } else {
      match h.pc
      case LastCheck =>
      case ErrFlag =>
      case Answering(_) =>
      case ClearingCancel =>
      case _ =>
    }
  }

  lemma DoomedStep(s: State, step: Step, i: nat)
    requires LocalOk(s) && Enabled(s, step) && Doomed(s, i) && !Interferes(s, step, i)
    ensures Doomed(Apply(s, step), i)
  {
    var t := Apply(s, step);
    var h := s.handlers[i];
    HandlersFrame(s, step);
    if step.Handle? {
      if step.i == i {
        assert StageOk(h) && CancelOk(h);
        DoomedAdvance(i, h, s.sh, step.choice);
      } else if !IsCancelled(h) {
        OthersSpareTheFlag(s, step, i);
      }
    } else {
      DoomedElsewhere(s, step, i);
    }
  }

  /** An undisturbing step of another handler leaves the session's flag up. */
  lemma OthersSpareTheFlag(s: State, step: Step, i: nat)
    requires LocalOk(s) && Enabled(s, step) && step.Handle? && step.i != i && i < |s.handlers|
             && !Interferes(s, step, i)
    requires s.handlers[i].session in s.sh.cancels.flags
    ensures s.handlers[i].session in Apply(s, step).sh.cancels.flags
  {
    var g := s.handlers[step.i];
    var o := Advance(step.i, g, s.sh, step.choice);
    AdvanceFrame(step.i, g, s.sh, step.choice);
    assert LocalInv(g);
    if g.session == s.handlers[i].session && !LooksAtFlag(g.pc) {
      KeepsTaken(step.i, g, s.sh, step.choice);
      assert g.marks.took ==> IsCancelled(g);
    }
  }

  /** Away from its looks at the flag a handler leaves the flags alone. */
  lemma KeepsTaken(i: nat, h: Handler, sh: Shared, choice: Choice)
    requires CanAdvance(h, sh, choice) && !LooksAtFlag(h.pc)
    ensures Advance(i, h, sh, choice).sh.cancels.flags == sh.cancels.flags
  {
    if BeforeTurn(h.pc) {
    } else if Announcing(h.pc) {
    } else if InExecutor(h.pc) {
    } else {
    }
  }

  lemma DoomedElsewhere(s: State, step: Step, i: nat)
    requires Enabled(s, step) && Doomed(s, i) && !step.Handle?
    ensures Doomed(Apply(s, step), i)
  {
    var t := Apply(s, step);
    HandlersFrame(s, step);
    IdentityStays(s, step, i);
    assert s.sh.cancels.flags <= t.sh.cancels.flags;
    match step
    case CallCancel =>
    case StartCall(_) =>
    case WriteRequest(_) =>
    case FinishCall(_) =>
    case _ =>
  }

  lemma {:induction false} DoomedRun(s: State, run: seq<Step>, i: nat)
    requires Inv(s) && Valid(s, run) && Doomed(s, i) && Undisturbed(s, run, i)
    ensures Doomed(After(s, run), i)
    decreases |run|
  {
    if run != [] {
      DoomedStep(s, run[0], i);
      StepKeepsInv(s, run[0]);
      DoomedRun(Apply(s, run[0]), run[1..], i);
    }
  }

  lemma DoomedAnswer(s: State, i: nat)
    requires LocalOk(s) && Doomed(s, i) && s.handlers[i].answered.Some?
    ensures s.handlers[i].answered == Some(Stop(Cancelled))
  {
    assert StageOk(s.handlers[i]);
  }

  /** A session/cancel handled while a prompt of that session has a look at the cancel flag ahead
      (before its first check, after it but before setActiveCancel, or at any later point up to its
      last check) makes the prompt's response `cancelled`, whenever it comes, unless another
      prompt on the session takes the flag or a session/load clears it. */
  lemma CancelIsNotLost(before: seq<Step>, run: seq<Step>, i: nat)
    requires Valid(Init(), before)
    requires var s := After(Init(), before);
             && i < |s.handlers| && BeforeLastLook(s.handlers[i].pc) && s.reader == LockingCancel(s.handlers[i].session)
             && Valid(Apply(s, LockCancel), run) && Undisturbed(Apply(s, LockCancel), run, i)
    ensures var t := After(Apply(After(Init(), before), LockCancel), run);
            i < |t.handlers| && (t.handlers[i].answered.Some? ==> t.handlers[i].answered == Some(Stop(Cancelled)))
  {
    hide *;
    Reached(before);
    CancelWorks(After(Init(), before), run, i);
  }

  lemma CancelWorks(s: State, run: seq<Step>, i: nat)
    requires Inv(s) && i < |s.handlers| && BeforeLastLook(s.handlers[i].pc)
    requires s.reader == LockingCancel(s.handlers[i].session)
    requires Valid(Apply(s, LockCancel), run) && Undisturbed(Apply(s, LockCancel), run, i)
    ensures var t := After(Apply(s, LockCancel), run);
            i < |t.handlers| && (t.handlers[i].answered.Some? ==> t.handlers[i].answered == Some(Stop(Cancelled)))
  {
    var t := Apply(s, LockCancel);
    StepKeepsInv(s, LockCancel);
    DoomedRun(t, run, i);
    RunKeepsInv(t, run);
    if After(t, run).handlers[i].answered.Some? { DoomedAnswer(After(t, run), i); }
  }

  /** Past the last look the turn counts as completed. */
  predicate PastLastLook(h: Handler) {
    h.pc.WritingInfo? || h.pc == Answering(Stop(EndTurn)) || h.answered == Some(Stop(EndTurn))
  }

  lemma PastLookStep(s: State, step: Step, i: nat)
    requires LocalOk(s) && Enabled(s, step) && i < |s.handlers| && PastLastLook(s.handlers[i])
    ensures i < |Apply(s, step).handlers| && PastLastLook(Apply(s, step).handlers[i])
  {
    HandlersFrame(s, step);
    if step.Handle? && step.i == i {
      assert StageOk(s.handlers[i]);
      FinishPastLook(s.handlers[i], s.sh);
    } else if !step.Handle? {
      IdentityStays(s, step, i);
      match step
      case CallCancel =>
      case _ =>
    }
  }

  lemma FinishPastLook(h: Handler, sh: Shared)
    requires StageOk(h) && PastLastLook(h)
    ensures PastLastLook(Finish(h, sh).h)
    ensures !BeforeTurn(h.pc) && !Announcing(h.pc) && !InExecutor(h.pc)
  {
    match h.pc
    case WritingInfo =>
    case Answering(_) => if h.marks.registered {} else {}
    case ClearingCancel =>
    case _ =>
  }

  /** The other side of the boundary: a cancel that comes after the last look never changes the
      response, which is `end_turn`. */
  lemma CancelComesTooLate(before: seq<Step>, run: seq<Step>, i: nat)
    requires Valid(Init(), before) && Valid(After(Init(), before), run)
    requires i < |After(Init(), before).handlers| && PastLastLook(After(Init(), before).handlers[i])
    ensures var t := After(After(Init(), before), run);
            i < |t.handlers| && (t.handlers[i].answered.Some? ==> t.handlers[i].answered == Some(Stop(EndTurn)))
  {
    hide *;
    Reached(before);
    PastLookRun(After(Init(), before), run, i);
  }

  lemma {:induction false} PastLookRun(s: State, run: seq<Step>, i: nat)
    requires Inv(s) && Valid(s, run) && i < |s.handlers| && PastLastLook(s.handlers[i])
    ensures var t := After(s, run);
            i < |t.handlers| && (t.handlers[i].answered.Some? ==> t.handlers[i].answered == Some(Stop(EndTurn)))
    decreases |run|
  {
    if run == [] {
      assert StageOk(s.handlers[i]);
    } else {
      PastLookStep(s, run[0], i);
      StepKeepsInv(s, run[0]);
      PastLookRun(Apply(s, run[0]), run[1..], i);
    }
  }

  // ----- Silence after cancellation -----

  /** The updates that go through promptUpdateWriter. */
  predicate FromWriter(p: Payload) {
    p.Notify? && !p.update.InfoUpdate? && !p.update.ToolStarted? && !p.update.ToolEnded?
  }

  function WriterCount(trace: seq<Payload>): nat {
    if trace == [] then 0
    else WriterCount(trace[..|trace| - 1]) + (if FromWriter(trace[|trace| - 1]) then 1 else 0)
  }

  /** A writer call that has passed its check of the context and has not written yet. */
  function PastCheck(h: Handler): nat {
    if h.pc.Writing? || h.pc.ExecWriting? then 1 else 0
  }

  /** The context has ended, or the handler has nothing more to say. */
  predicate Dead(s: State, i: nat) {
    i < |s.handlers| && (!Effective(s.handlers[i], s.sh).Live? || s.handlers[i].pc.Done?)
  }

  lemma WriterCountAppend(trace: seq<Payload>, emit: seq<Payload>)
    requires |emit| <= 1
    ensures WriterCount(trace + emit) == WriterCount(trace) + (if emit != [] && FromWriter(emit[0]) then 1 else 0)
  {
    if emit == [] {
      assert trace + emit == trace;
    } else {
      assert (trace + emit)[..|trace|] == trace;
    }
  }

  lemma DeadAdvance(i: nat, h: Handler, sh: Shared, choice: Choice)
    requires CanAdvance(h, sh, choice) && !Effective(h, sh).Live?
    ensures var o := Advance(i, h, sh, choice);
            PastCheck(o.h) + (if o.emit != [] && FromWriter(o.emit[0]) then 1 else 0) <= PastCheck(h)
  {
    if BeforeTurn(h.pc) {
    } else if Announcing(h.pc) {
      if h.pc.Checking? { match Offer(StageCall(h, h.pc.stage), false) case Silent => case Rejected => }
    } else if InExecutor(h.pc) {
    } else {
    }
  }

  lemma DeadStep(s: State, step: Step, i: nat)
    requires ConnOk(s) && Enabled(s, step) && Dead(s, i)
    ensures var t := Apply(s, step);
            Dead(t, i) && WriterCount(t.handlers[i].trace) + PastCheck(t.handlers[i])
                          <= WriterCount(s.handlers[i].trace) + PastCheck(s.handlers[i])
  {
    var t := Apply(s, step);
    var h := s.handlers[i];
    HandlersFrame(s, step);
    if step.Handle? {
      AdvanceFrame(step.i, s.handlers[step.i], s.sh, step.choice);
      if step.i == i {
        DeadAdvance(i, h, s.sh, step.choice);
        WriterCountAppend(h.trace, Advance(i, h, s.sh, step.choice).emit);
      }
    } else {
      DeadElsewhere(s, step, i);
    }
  }

  lemma DeadElsewhere(s: State, step: Step, i: nat)
    requires ConnOk(s) && Enabled(s, step) && Dead(s, i) && !step.Handle?
    ensures var t := Apply(s, step);
            Dead(t, i) && WriterCount(t.handlers[i].trace) + PastCheck(t.handlers[i])
                          <= WriterCount(s.handlers[i].trace) + PastCheck(s.handlers[i])
  {
    HandlersFrame(s, step);
    IdentityStays(s, step, i);
    match step
    case Accept => assert s.handlers[i].pc.Done?;
    case CallCancel =>
    case CtxEnds(_) =>
    case StartCall(_) =>
    case WriteRequest(c) => WriterCountAppend(s.handlers[i].trace, [RequestLine(s, c)]);
    case FinishCall(_) =>
    case _ =>
  }

  lemma {:induction false} DeadRun(s: State, run: seq<Step>, i: nat)
    requires Inv(s) && Valid(s, run) && Dead(s, i)
    ensures var t := After(s, run);
            Dead(t, i) && WriterCount(t.handlers[i].trace) + PastCheck(t.handlers[i])
                          <= WriterCount(s.handlers[i].trace) + PastCheck(s.handlers[i])
    decreases |run|
  {
    if run != [] {
      DeadStep(s, run[0], i);
      StepKeepsInv(s, run[0]);
      DeadRun(Apply(s, run[0]), run[1..], i);
    }
  }

  /** Once a prompt's context has ended, whatever the executor does, at most one more update of the
      prompt goes out through its writer, and none unless a call had passed its check before. */
  lemma SilenceAfterCancellation(before: seq<Step>, run: seq<Step>, i: nat)
    requires Valid(Init(), before) && Valid(After(Init(), before), run) && Dead(After(Init(), before), i)
    ensures var s := After(Init(), before);
            WriterCount(WrittenBy(After(s, run).out, i)) <= WriterCount(WrittenBy(s.out, i)) + PastCheck(s.handlers[i])
  {
    hide *;
    Reached(before);
    SilentFromHere(After(Init(), before), run, i);
  }

  lemma SilentFromHere(s: State, run: seq<Step>, i: nat)
    requires Inv(s) && Valid(s, run) && Dead(s, i)
    ensures WriterCount(WrittenBy(After(s, run).out, i)) <= WriterCount(WrittenBy(s.out, i)) + PastCheck(s.handlers[i])
  {
    DeadRun(s, run, i);
    RunKeepsInv(s, run);
    assert OutOk(s) && OutOk(After(s, run));
  }
}
