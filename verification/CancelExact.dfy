/** When exactly a cancellation is sure to reach its prompt. */
module CancelExact {
  import opened Text
  import opened Protocol
  import opened Turn
  import opened TurnProofs
  import opened TurnFrames
  import opened System
  import opened SystemInv
  import opened SystemSessions
  import opened SystemTheorems
  import opened SystemCancel
  import opened Continuations

  // ----- Who can take a flag -----

  /** Another request that will look at the session's flag on some way forward: a prompt with a look
      ahead, or a session/new or session/load about to clear the flag. */
  predicate Taker(h: Handler, sh: Shared) {
    || BeforeLastLook(h.pc) || h.pc.ClearingFlag?
    || (h.session in sh.sessions
        && (h.pc.FindingSession? || h.pc.Reinstalling? || (h.pc.LookingUp? && h.fields.prompt != [])))
  }

  /** A taker stays one until the flag is down. */
  lemma TakerMoves(i: nat, h: Handler, sh: Shared, calls: nat)
    requires Taker(h, sh) && CanMove(h, sh, Fail)
    ensures var m := Moved(i, h, sh, Fail, calls); h.session !in m.1.cancels.flags || Taker(m.0, m.1)
  {
    if h.pc.ToolGated? && h.pc.gate.Send? {
    } else if BeforeTurn(h.pc) {
    } else if Announcing(h.pc) {
    } else if InExecutor(h.pc) {
    } else {
      match h.pc
      case LastCheck => if h.session in sh.cancels.flags {} else {}
      case ErrFlag => if h.session in sh.cancels.flags {} else {}
    }
  }

  /** A stretch of a taker's way. */
  ghost predicate CloserToTheFlag(s: State, run: seq<Step>, j: nat) {
    OwnRun(s, run, j) && j < |s.handlers| && Core(After(s, run))
    && var t := After(s, run);
       PointRank(t.handlers[j].pc) < PointRank(s.handlers[j].pc)
       && (s.handlers[j].session !in t.sh.cancels.flags || Taker(t.handlers[j], t.sh))
  }

  lemma TakerSteps(s: State, j: nat) returns (run: seq<Step>)
    requires Core(s) && j < |s.handlers| && Taker(s.handlers[j], s.sh) && !s.handlers[j].pc.ToolCalling?
    ensures CloserToTheFlag(s, run, j)
  {
    hide Apply, Core;
    TakerMoves(j, s.handlers[j], s.sh, |s.rpc.calls|);
    run := MoveRun(s, j, Fail);
  }

  lemma TakerReturns(s: State, j: nat) returns (run: seq<Step>)
    requires Core(s) && j < |s.handlers| && s.handlers[j].pc.ToolCalling?
    ensures CloserToTheFlag(s, run, j)
  {
    hide Apply, Core;
    run := CallRun(s, j);
    assert InExecutor(After(s, run).handlers[j].pc);
  }

  /** A taker can take the flag, whatever else is going on. */
  lemma TakesFlag(s: State, j: nat) returns (run: seq<Step>)
    requires Core(s) && j < |s.handlers| && Taker(s.handlers[j], s.sh)
    ensures OwnRun(s, run, j) && s.handlers[j].session !in After(s, run).sh.cancels.flags
    decreases PointRank(s.handlers[j].pc)
  {
    hide Apply, Core;
    if s.handlers[j].pc.ToolCalling? {
      run := TakerReturns(s, j);
    } else {
      run := TakerSteps(s, j);
    }
    assert CloserToTheFlag(s, run, j);
    if s.handlers[j].session in After(s, run).sh.cancels.flags {
      var rest := TakesFlag(After(s, run), j);
      JoinRuns(s, run, rest, j);
      run := run + rest;
    }
  }

  // ----- Which prompts can still be completed -----

  /** A prompt that has not failed: its executor has started, or its context still lives. */
  predicate Completable(h: Handler, sh: Shared) {
    || InExecutor(h.pc) || h.pc.LastCheck? || h.pc.WritingInfo? || h.pc == Answering(Stop(EndTurn))
    || ((h.pc.FirstCheck? || h.pc.SettingCancel? || Announcing(h.pc)) && Effective(h, sh).Live?)
  }

  lemma AnnouncesOn(h: Handler, sh: Shared)
    requires Announcing(h.pc) && Effective(h, sh).Live?
    ensures var o := Announce(h, sh); Completable(o.h, o.sh) && o.sh == sh
  {
    match h.pc
    case Checking(stage) => {
      assert !Blank("default") by { assert !IsSpace("default"[0]); }
      match Offer(StageCall(h, stage), true)
      case Silent =>
      case Accepted(_) =>
    }
    case _ =>
  }

  lemma CompletesOn(i: nat, h: Handler, sh: Shared, calls: nat)
    requires Completable(h, sh) && h.session !in sh.cancels.flags && CanMove(h, sh, Return(""))
    ensures var m := Moved(i, h, sh, Return(""), calls);
            Completable(m.0, m.1) || m.0.answered == Some(Stop(EndTurn))
  {
    if h.pc.ToolGated? && h.pc.gate.Send? {
    } else if BeforeTurn(h.pc) {
    } else if Announcing(h.pc) { AnnouncesOn(h, sh); }
    else if InExecutor(h.pc) {
    } else {
      match h.pc
      case LastCheck =>
      case WritingInfo =>
      case Answering(_) =>
    }
  }

  ghost predicate CloserToTheEnd(s: State, run: seq<Step>, i: nat) {
    OwnRun(s, run, i) && i < |s.handlers| && Core(After(s, run))
    && var t := After(s, run);
       PointRank(t.handlers[i].pc) < PointRank(s.handlers[i].pc)
       && (Completable(t.handlers[i], t.sh) || t.handlers[i].answered == Some(Stop(EndTurn)))
  }

  lemma CompletingMoves(s: State, i: nat) returns (run: seq<Step>)
    requires Core(s) && i < |s.handlers| && s.handlers[i].session !in s.sh.cancels.flags
    requires Completable(s.handlers[i], s.sh) && !s.handlers[i].pc.ToolCalling?
    ensures CloserToTheEnd(s, run, i)
  {
    hide Apply, Core;
    CompletesOn(i, s.handlers[i], s.sh, |s.rpc.calls|);
    run := MoveRun(s, i, Return(""));
  }

  lemma CompletingReturns(s: State, i: nat) returns (run: seq<Step>)
    requires Core(s) && i < |s.handlers| && s.handlers[i].pc.ToolCalling?
    ensures CloserToTheEnd(s, run, i)
  {
    hide Apply, Core;
    run := CallRun(s, i);
    assert InExecutor(After(s, run).handlers[i].pc);
  }

  /** With the flag down, such a prompt can be completed. */
  lemma Completes(s: State, i: nat) returns (run: seq<Step>)
    requires Core(s) && i < |s.handlers| && s.handlers[i].session !in s.sh.cancels.flags
    requires Completable(s.handlers[i], s.sh)
    ensures OwnRun(s, run, i) && After(s, run).handlers[i].answered == Some(Stop(EndTurn))
    decreases PointRank(s.handlers[i].pc)
  {
    hide Apply, Core;
    if s.handlers[i].pc.ToolCalling? {
      run := CompletingReturns(s, i);
    } else {
      run := CompletingMoves(s, i);
    }
    assert CloserToTheEnd(s, run, i);
    if After(s, run).handlers[i].answered != Some(Stop(EndTurn)) {
      var rest := Completes(After(s, run), i);
      JoinRuns(s, run, rest, i);
      run := run + rest;
    }
  }

  // ----- A taker can make any completable prompt miss its cancel -----

  lemma TakeThenComplete(t: State, i: nat, j: nat) returns (run: seq<Step>)
    requires Core(t) && i < |t.handlers| && j < |t.handlers| && i != j && t.handlers[j].session == t.handlers[i].session
    requires Completable(t.handlers[i], t.sh) && Taker(t.handlers[j], t.sh)
    ensures Valid(t, run) && AllInward(run)
    ensures i < |After(t, run).handlers| && After(t, run).handlers[i].answered == Some(Stop(EndTurn))
  {
    hide Apply, Core;
    var take := TakesFlag(t, j);
    CoreRun(t, take);
    var rest := CompleteAfter(t, After(t, take), i, j);
    RunConcat(t, take, rest);
    run := take + rest;
  }

  lemma CompleteAfter(t: State, u: State, i: nat, j: nat) returns (run: seq<Step>)
    requires Core(u) && OnlyMoves(t, u, j) && i < |t.handlers| && i != j && j < |t.handlers|
    requires t.handlers[j].session == t.handlers[i].session && t.handlers[j].session !in u.sh.cancels.flags
    requires Completable(t.handlers[i], t.sh)
    ensures Valid(u, run) && AllInward(run)
    ensures i < |After(u, run).handlers| && After(u, run).handlers[i].answered == Some(Stop(EndTurn))
  {
    hide Apply, Core;
    run := Completes(u, i);
  }

  /** A cancel for prompt i misses it when handler j takes the flag first. */
  lemma TakerWins(s: State, i: nat, j: nat) returns (run: seq<Step>)
    requires Core(s) && i < |s.handlers| && j < |s.handlers| && i != j
    requires s.reader == LockingCancel(s.handlers[i].session) && s.handlers[j].session == s.handlers[i].session
    requires Completable(s.handlers[i], s.sh) && Taker(s.handlers[j], s.sh)
    ensures Valid(Apply(s, LockCancel), run) && AllInward(run)
    ensures var t := After(Apply(s, LockCancel), run);
            i < |t.handlers| && t.handlers[i].answered == Some(Stop(EndTurn))
  {
    hide Core;
    CoreStep(s, LockCancel);
    run := TakeThenComplete(Apply(s, LockCancel), i, j);
  }

  // ----- Without a taker the cancel is sure -----

  /** Input that brings a new contender for a session's flag: a prompt on it or a session/load of it. */
  predicate Contends(line: InputLine, sid: string) {
    Classify(line).Spawn?
    && var m := Classify(line).msg;
       (MethodOf(m.methodName).Prompt? && FieldsOf(m.params).sessionId == sid)
       || (MethodOf(m.methodName).LoadSession? && TrimSpace(FieldsOf(m.params).sessionId) == sid)
  }

  /** The client sends no further prompt or session/load for the session. */
  predicate NoContender(run: seq<Step>, sid: string) {
    forall k | 0 <= k < |run| && run[k].Read? :: !Contends(run[k].line, sid)
  }

  /** No other handler can take the session's flag. */
  ghost predicate Unrivalled(s: State, i: nat, sid: string) {
    forall j | 0 <= j < |s.handlers| && j != i && s.handlers[j].session == sid :: !Taker(s.handlers[j], s.sh)
  }

  lemma SpawnedTaker(conn: nat, msg: Message, sh: Shared, sid: string)
    requires Taker(Spawned(conn, msg), sh) && Spawned(conn, msg).session == sid
    ensures (MethodOf(msg.methodName).Prompt? && FieldsOf(msg.params).sessionId == sid)
            || (MethodOf(msg.methodName).LoadSession? && TrimSpace(FieldsOf(msg.params).sessionId) == sid)
  {
    match MethodOf(msg.methodName)
    case Initialize =>
    case Authenticate =>
    case NewSession =>
    case LoadSession =>
    case ListSessions =>
    case Prompt =>
    case Unknown =>
  }

  lemma UnrivalledHandle(s: State, j: nat, choice: Choice, i: nat, sid: string)
    requires Unrivalled(s, i, sid) && sid in s.sh.sessions && Enabled(s, Handle(j, choice))
    ensures Unrivalled(Apply(s, Handle(j, choice)), i, sid)
  {
    var t := Apply(s, Handle(j, choice));
    AdvanceFrame(j, s.handlers[j], s.sh, choice);
    forall k | 0 <= k < |t.handlers| && k != i && t.handlers[k].session == sid ensures !Taker(t.handlers[k], t.sh) {
      if k == j {
      } else {
      }
    }
  }

  lemma UnrivalledStep(s: State, step: Step, i: nat, sid: string)
    requires Unrivalled(s, i, sid) && sid in s.sh.sessions && Enabled(s, step) && i < |s.handlers|
    requires step.Read? ==> !Contends(step.line, sid)
    ensures Unrivalled(Apply(s, step), i, sid)
  {
    var t := Apply(s, step);
    if step.Handle? {
      UnrivalledHandle(s, step.i, step.choice, i, sid);
    } else {
      HandlersFrame(s, step);
      forall k | 0 <= k < |t.handlers| && k != i && t.handlers[k].session == sid ensures !Taker(t.handlers[k], t.sh) {
        if k < |s.handlers| {
        } else if Taker(t.handlers[k], t.sh) {
          SpawnedTaker(s.conn, Classify(step.line).msg, t.sh, sid);
        }
      }
    }
  }

  lemma SessionKept(s: State, step: Step, i: nat)
    requires Enabled(s, step) && i < |s.handlers| && !s.handlers[i].pc.NamingSession?
    ensures i < |Apply(s, step).handlers| && Apply(s, step).handlers[i].session == s.handlers[i].session
    ensures !Apply(s, step).handlers[i].pc.NamingSession?
  {
    HandlersFrame(s, step);
    if step.Handle? {
      AdvanceFrame(step.i, s.handlers[step.i], s.sh, step.choice);
    } else {
      match step
      case CallCancel =>
      case _ =>
    }
  }

  /** Without a rival and without further contenders nothing disturbs the prompt. */
  lemma {:induction false} UnrivalledRun(s: State, run: seq<Step>, i: nat)
    requires Valid(s, run) && i < |s.handlers| && !s.handlers[i].pc.NamingSession?
             && s.handlers[i].session in s.sh.sessions
    requires Unrivalled(s, i, s.handlers[i].session) && NoContender(run, s.handlers[i].session)
    ensures Undisturbed(s, run, i)
    decreases |run|
  {
    if run != [] {
      var (step, rest, sid) := (run[0], run[1..], s.handlers[i].session);
      UnrivalledStep(s, step, i, sid);

      SessionKept(s, step, i);
      UnrivalledRun(Apply(s, step), rest, i);
    }
  }

  // ----- The exact condition -----

  /** Whatever happens after the cancel without new contenders, the prompt's response is `cancelled`. */
  ghost predicate SureToCancel(t: State, i: nat, sid: string) {
    forall run | Valid(t, run) && NoContender(run, sid) ::
      i < |After(t, run).handlers|
      && (After(t, run).handlers[i].answered.Some? ==> After(t, run).handlers[i].answered == Some(Stop(Cancelled)))
  }

  lemma SureIfUnrivalled(s: State, i: nat)
    requires Inv(s) && i < |s.handlers| && BeforeLastLook(s.handlers[i].pc)
    requires s.reader == LockingCancel(s.handlers[i].session) && Unrivalled(s, i, s.handlers[i].session)
    ensures SureToCancel(Apply(s, LockCancel), i, s.handlers[i].session)
  {
    hide Apply, Inv;
    var (t, sid) := (Apply(s, LockCancel), s.handlers[i].session);
    forall run | Valid(t, run) && NoContender(run, sid)
      ensures i < |After(t, run).handlers|
              && (After(t, run).handlers[i].answered.Some? ==>
                  After(t, run).handlers[i].answered == Some(Stop(Cancelled)))
    {
      SureFor(s, i, run);
    }
  }

  lemma RaisesFlag(s: State)
    requires s.reader.LockingCancel?
    ensures var t := Apply(s, LockCancel);
            t.handlers == s.handlers && t.sh.sessions == s.sh.sessions && t.sh.serverCtx == s.sh.serverCtx
            && t.sh.cancels.flags == s.sh.cancels.flags + {s.reader.sid}
  {
    hide Advance;
  }

  lemma SureFor(s: State, i: nat, run: seq<Step>)
    requires Inv(s) && i < |s.handlers| && BeforeLastLook(s.handlers[i].pc)
    requires s.reader == LockingCancel(s.handlers[i].session) && Unrivalled(s, i, s.handlers[i].session)
    requires Valid(Apply(s, LockCancel), run) && NoContender(run, s.handlers[i].session)
    ensures var u := After(Apply(s, LockCancel), run);
            i < |u.handlers| && (u.handlers[i].answered.Some? ==> u.handlers[i].answered == Some(Stop(Cancelled)))
  {
    hide Apply, Inv;
    SessionExists(s, i);
    RaisesFlag(s);
    UnrivalledRun(Apply(s, LockCancel), run, i);
    CancelWorks(s, run, i);
  }

  lemma SessionExists(s: State, i: nat)
    requires Inv(s) && i < |s.handlers| && BeforeLastLook(s.handlers[i].pc)
    ensures s.handlers[i].session in s.sh.sessions && !s.handlers[i].pc.NamingSession?
  {
    assert SessionBacked(s.handlers[i], s.sh);
  }

  lemma RivalSpoilsIt(s: State, i: nat, j: nat)
    requires Core(s) && i < |s.handlers| && j < |s.handlers| && i != j
    requires s.reader == LockingCancel(s.handlers[i].session) && s.handlers[j].session == s.handlers[i].session
    requires Completable(s.handlers[i], s.sh) && Taker(s.handlers[j], s.sh)
    ensures !SureToCancel(Apply(s, LockCancel), i, s.handlers[i].session)
  {
    hide Apply, Core;
    var run := TakerWins(s, i, j);
  }

  /** The exact condition. A session/cancel is handled while a prompt that has not failed has a look at
      the flag ahead, and the client sends no more prompts or loads for the session. Then the response
      is sure to be `cancelled` if and only if no other handler of the session can take the flag. */
  lemma CancelIsSureExactlyUnrivalled(before: seq<Step>, i: nat)
    requires Valid(Init(), before)
    requires var s := After(Init(), before);
             && i < |s.handlers| && BeforeLastLook(s.handlers[i].pc) && Completable(s.handlers[i], s.sh)
             && s.reader == LockingCancel(s.handlers[i].session)
    ensures var s := After(Init(), before);
            SureToCancel(Apply(s, LockCancel), i, s.handlers[i].session) <==> Unrivalled(s, i, s.handlers[i].session)
  {
    hide Apply;
    Reached(before);
    var s := After(Init(), before);
    if Unrivalled(s, i, s.handlers[i].session) {
      SureIfUnrivalled(s, i);
    } else {
      var j :| 0 <= j < |s.handlers| && j != i && s.handlers[j].session == s.handlers[i].session
        && Taker(s.handlers[j], s.sh);
      InvGivesCore(s);
      RivalSpoilsIt(s, i, j);
    }
  }

  lemma AnsweredAreNoRivals(s: State, i: nat, sid: string)
    requires LocalOk(s)
    requires forall j | 0 <= j < |s.handlers| && j != i && s.handlers[j].session == sid :: s.handlers[j].answered.Some?
    ensures Unrivalled(s, i, sid)
  {
    forall j | 0 <= j < |s.handlers| && j != i && s.handlers[j].session == sid ensures !Taker(s.handlers[j], s.sh) {
      assert StageOk(s.handlers[j]);
    }
  }

  /** What a client can rely on: it has the responses to all its other requests on the session, cancels
      the one prompt that is left, and sends no more prompts or loads for the session. If the
      cancellation is handled before the prompt's last look, the response is `cancelled`. */
  lemma SolePromptIsCancelled(before: seq<Step>, run: seq<Step>, i: nat)
    requires Valid(Init(), before)
    requires var s := After(Init(), before);
             && i < |s.handlers| && BeforeLastLook(s.handlers[i].pc) && s.reader == LockingCancel(s.handlers[i].session)
             && (forall j | 0 <= j < |s.handlers| && j != i && s.handlers[j].session == s.handlers[i].session ::
                   s.handlers[j].answered.Some?)
             && Valid(Apply(s, LockCancel), run) && NoContender(run, s.handlers[i].session)
    ensures var t := After(Apply(After(Init(), before), LockCancel), run);
            i < |t.handlers| && (t.handlers[i].answered.Some? ==> t.handlers[i].answered == Some(Stop(Cancelled)))
  {
    hide Apply;
    Reached(before);
    var s := After(Init(), before);
    AnsweredAreNoRivals(s, i, s.handlers[i].session);
    SureIfUnrivalled(s, i);
  }
}
