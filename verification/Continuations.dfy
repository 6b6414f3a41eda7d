/** How runs go on: whatever the server is doing, a handler can be brought to certain points by steps of
    its own. */
module Continuations {
  import opened Protocol
  import opened Turn
  import opened TurnProofs
  import opened TurnFrames
  import opened System
  import opened SystemInv
  import opened SystemTheorems
  import R = ClientRpc
  import RP = ClientRpcProofs

  // ----- Putting runs together -----

  lemma OneStep(s: State, step: Step)
    requires Enabled(s, step)
    ensures Valid(s, [step]) && After(s, [step]) == Apply(s, step)
  {
    hide Apply;
    assert [step][1..] == [];
  }

  lemma {:induction false} RunConcat(s: State, a: seq<Step>, b: seq<Step>)
    requires Valid(s, a) && Valid(After(s, a), b)
    ensures Valid(s, a + b) && After(s, a + b) == After(After(s, a), b)
    decreases |a|
  {
    hide Apply;
    if a == [] {
      assert a + b == b;
    } else {
      RunConcat(Apply(s, a[0]), a[1..], b);
      assert (a + b)[1..] == a[1..] + b;
    }
  }

  lemma RunThen(s: State, a: seq<Step>, step: Step)
    requires Valid(s, a) && Enabled(After(s, a), step)
    ensures Valid(s, a + [step]) && After(s, a + [step]) == Apply(After(s, a), step)
  {
    hide Apply;
    OneStep(After(s, a), step);
    RunConcat(s, a, [step]);
  }

  // ----- Steps that leave the reader and the connection alone -----

  predicate Inward(step: Step) {
    step.Handle? || step.StartCall? || step.FinishCall? || step.Rpc?
  }

  ghost predicate AllInward(run: seq<Step>) {
    forall k | 0 <= k < |run| :: Inward(run[k])
  }

  /** Only handler i has moved: it may have taken or cleared its session's flag and rebound its session. */
  ghost predicate OnlyMoves(s: State, t: State, i: nat) {
    && i < |s.handlers| == |t.handlers|
    && (forall k | 0 <= k < |s.handlers| && k != i :: t.handlers[k] == s.handlers[k])
    && t.handlers[i].session == s.handlers[i].session && t.handlers[i].ctx == s.handlers[i].ctx
    && t.handlers[i].fields == s.handlers[i].fields && t.handlers[i].conn == s.handlers[i].conn
    && t.reader == s.reader && t.conn == s.conn && t.sh.serverCtx == s.sh.serverCtx
    && s.sh.sessions.Keys <= t.sh.sessions.Keys
    && t.sh.cancels.flags <= s.sh.cancels.flags <= t.sh.cancels.flags + {s.handlers[i].session}
  }

  /** A run in which handler i moves by steps of its own. */
  ghost predicate OwnRun(s: State, run: seq<Step>, i: nat) {
    Valid(s, run) && AllInward(run) && OnlyMoves(s, After(s, run), i)
  }

  lemma JoinRuns(s: State, a: seq<Step>, b: seq<Step>, i: nat)
    requires OwnRun(s, a, i) && OwnRun(After(s, a), b, i)
    ensures OwnRun(s, a + b, i) && After(s, a + b) == After(After(s, a), b)
  {
    hide Apply;
    RunConcat(s, a, b);
  }

  lemma StepIsRun(s: State, step: Step, i: nat)
    requires Enabled(s, step) && Inward(step) && OnlyMoves(s, Apply(s, step), i)
    ensures OwnRun(s, [step], i) && After(s, [step]) == Apply(s, step)
  {
    hide Apply;
    OneStep(s, step);
  }

  lemma NoRun(s: State, i: nat)
    requires i < |s.handlers|
    ensures OwnRun(s, [], i) && After(s, []) == s
  {
  }

  /** The part of the invariant that does not depend on connections and their readers. */
  ghost predicate Core(s: State) {
    RP.FullInv(s.rpc) && WaitsOk(s) && OwnersOk(s) && LocalOk(s)
  }

  lemma InvGivesCore(s: State)
    requires Inv(s)
    ensures Core(s)
  {
  }

  lemma CoreStep(s: State, step: Step)
    requires Core(s) && Enabled(s, step)
    ensures Core(Apply(s, step))
  {
    hide Apply;
    RpcStep(s, step);
    WaitsStep(s, step);
    OwnersStep(s, step);
    LocalOkStep(s, step);
  }

  lemma {:induction false} CoreRun(s: State, run: seq<Step>)
    requires Core(s) && Valid(s, run)
    ensures Core(After(s, run))
    decreases |run|
  {
    hide Apply;
    if run != [] {
      CoreStep(s, run[0]);
      CoreRun(Apply(s, run[0]), run[1..]);
    }
  }

  // ----- A call to the client ends -----

  function CallRank(pc: R.CallPC): nat {
    match pc
    case Registering => 5
    case CarryingEarly(_) => 4
    case Writing => 3
    case Selecting => 3
    case Leaving(_) => 2
    case Finished(_) => 1
  }

  /** The executor may pass a tool a context of its own that ends at any time, and a write may fail. */
  function CallStep(pc: R.CallPC, c: nat): R.Step {
    match pc
    case Registering => R.Register(c)
    case CarryingEarly(_) => R.SendEarly(c)
    case Writing => R.FailWrite(c)
    case Selecting => R.Abandon(c)
    case _ => R.Unregister(c)
  }

  lemma CallMoves(r: R.State, c: nat)
    requires R.ShapesOk(r) && c < |r.calls| && !r.calls[c].pc.Finished?
    ensures var step := CallStep(r.calls[c].pc, c);
            Internal(step) && R.Enabled(r, step)
            && c < |R.Apply(r, step).calls| && CallRank(R.Apply(r, step).calls[c].pc) < CallRank(r.calls[c].pc)
  {
    assert R.CallShape(r.calls[c]);
  }

  lemma OwnCall(s: State, i: nat)
    requires Core(s) && i < |s.handlers| && s.handlers[i].pc.ToolCalling?
    ensures InCall(s, i, s.handlers[i].pc.rpc) && R.ShapesOk(s.rpc)
  {
    assert WaitsOk(s);
  }

  lemma CallReturns(s: State, i: nat)
    requires i < |s.handlers| && s.handlers[i].pc.ToolCalling? && InCall(s, i, s.handlers[i].pc.rpc)
    requires s.rpc.calls[s.handlers[i].pc.rpc].pc.Finished?
    ensures OwnRun(s, [FinishCall(i)], i)
    ensures var t := After(s, [FinishCall(i)]); t.handlers[i].pc.ToolClosing? && t.sh == s.sh
  {
    hide Advance;
    StepIsRun(s, FinishCall(i), i);
  }

  lemma CallGoesOn(s: State, i: nat, r: R.Step)
    requires Core(s) && i < |s.handlers| && Internal(r) && R.Enabled(s.rpc, r)
    ensures OwnRun(s, [Rpc(r)], i) && Core(After(s, [Rpc(r)]))
    ensures var t := After(s, [Rpc(r)]); t.handlers == s.handlers && t.sh == s.sh && t.rpc == R.Apply(s.rpc, r)
  {
    hide Apply, Core, R.Apply;
    RpcFrame(s, r);
    StepIsRun(s, Rpc(r), i);
    CoreStep(s, Rpc(r));
  }

  lemma RpcFrame(s: State, r: R.Step)
    requires Internal(r) && R.Enabled(s.rpc, r)
    ensures Enabled(s, Rpc(r)) && Apply(s, Rpc(r)) == s.(rpc := R.Apply(s.rpc, r))
  {
    hide Advance, R.Apply;
  }

  /** A handler waiting for the client can stop waiting. */
  lemma CallEnds(s: State, i: nat) returns (run: seq<Step>)
    requires Core(s) && i < |s.handlers| && s.handlers[i].pc.ToolCalling?
    ensures OwnRun(s, run, i) && After(s, run).handlers[i].pc.ToolClosing? && After(s, run).sh == s.sh
    decreases if s.handlers[i].pc.rpc < |s.rpc.calls| then CallRank(s.rpc.calls[s.handlers[i].pc.rpc].pc) else 0
  {
    hide Apply;
    var c := s.handlers[i].pc.rpc;
    OwnCall(s, i);
    if s.rpc.calls[c].pc.Finished? {
      CallReturns(s, i);
      run := [FinishCall(i)];
    } else {
      var r := CallStep(s.rpc.calls[c].pc, c);
      CallMoves(s.rpc, c);
      CallGoesOn(s, i, r);
      var rest := CallEnds(After(s, [Rpc(r)]), i);
      run := [Rpc(r)] + rest;
      JoinRuns(s, [Rpc(r)], rest, i);
    }
  }

  // ----- One move of a handler -----

  /** What handler i does next, if the executor chooses `choice`. */
  function Move(s: State, i: nat, choice: Choice): Step
    requires i < |s.handlers|
  {
    var pc := s.handlers[i].pc;
    if pc.ToolGated? && pc.gate.Send? then StartCall(i)
    else Handle(i, if pc.Executing? || pc.NamingSession? then choice else Go)
  }

  predicate CanMove(h: Handler, sh: Shared, choice: Choice) {
    && !h.pc.Done? && !h.pc.ToolCalling? && (h.pc.NamingSession? ==> choice.Name? && choice.sid !in sh.sessions)
    && (h.pc.Executing? ==> choice.Return? || choice.Fail?)
  }

  /** The handler and the shared state after that move. */
  function Moved(i: nat, h: Handler, sh: Shared, choice: Choice, calls: nat): (Handler, Shared) {
    if h.pc.ToolGated? && h.pc.gate.Send? then (Called(h, calls), sh)
    else
      var o := Advance(i, h, sh, if h.pc.Executing? || h.pc.NamingSession? then choice else Go);
      (o.h, o.sh)
  }

  lemma Moves(s: State, i: nat, choice: Choice)
    requires i < |s.handlers| && CanMove(s.handlers[i], s.sh, choice)
    ensures var step := Move(s, i, choice);
            Enabled(s, step) && Inward(step)
            && var t := Apply(s, step);
               |t.handlers| == |s.handlers|
               && (t.handlers[i], t.sh) == Moved(i, s.handlers[i], s.sh, choice, |s.rpc.calls|)
               && (s.handlers[i].pc.NamingSession? || OnlyMoves(s, t, i))
  {
    hide Advance;
    var h := s.handlers[i];
    if h.pc.ToolGated? && h.pc.gate.Send? {
    } else {
      HandleMoves(s, i, if h.pc.Executing? || h.pc.NamingSession? then choice else Go);
    }
  }

  lemma HandleMoves(s: State, i: nat, choice: Choice)
    requires i < |s.handlers| && CanAdvance(s.handlers[i], s.sh, choice)
    ensures var (t, o) := (Apply(s, Handle(i, choice)), Advance(i, s.handlers[i], s.sh, choice));
            && Enabled(s, Handle(i, choice)) && |t.handlers| == |s.handlers|
            && t.handlers[i] == o.h && t.sh == o.sh && (s.handlers[i].pc.NamingSession? || OnlyMoves(s, t, i))
  {
    hide Apply, Advance;
    HandleFrame(s, i, choice);
    AdvanceFrame(i, s.handlers[i], s.sh, choice);
  }

  // ----- Every move brings a handler closer to its end -----

  function StageRank(stage: Stage): nat {
    match stage
    case UserStage => 16
    case ModeStage => 13
    case CommandsStage => 11
    case ConfigStage => 8
    case FallbackStage => 5
  }

  function PointRank(pc: PC): nat {
    match pc
    case SettingCaps => 3
    case NamingSession => 4
    case FindingSession => 5
    case Reinstalling => 4
    case ClearingFlag => 3
    case LookingUp => 20
    case FirstCheck => 19
    case SettingCancel => 18
    case Checking(stage) => StageRank(stage) + 1
    case Writing(stage) => StageRank(stage)
    case TakingSnapshot => 15
    case ReadingCaps => 10
    case Executing => 7
    case ExecWriting(_, _) => 8
    case ToolGated(_, _) => 10
    case ToolCalling(_, _, _, _) => 9
    case ToolClosing(_, _, _) => 8
    case LastCheck => 4
    case WritingInfo => 3
    case ErrFlag => 4
    case ErrCtx => 3
    case Answering(_) => 2
    case ClearingCancel => 1
    case Done => 0
  }

  lemma AnnounceRanks(h: Handler, sh: Shared)
    requires Announcing(h.pc)
    ensures PointRank(Announce(h, sh).h.pc) < PointRank(h.pc)
  {
    match h.pc
    case Checking(stage) => {
      match Offer(StageCall(h, stage), Effective(h, sh).Live?)
      case Silent =>
      case Rejected =>
      case Accepted(_) =>
    }
    case _ =>
  }

  lemma PerformRanks(h: Handler, sh: Shared, choice: Choice)
    requires InExecutor(h.pc) && CanAdvance(h, sh, choice) && (h.pc.Executing? ==> choice.Return? || choice.Fail?)
    ensures PointRank(Perform(h, sh, choice).h.pc) < PointRank(h.pc)
  {
  }

  lemma FinishRanks(h: Handler, sh: Shared)
    requires !BeforeTurn(h.pc) && !Announcing(h.pc) && !InExecutor(h.pc) && !h.pc.Done?
    ensures PointRank(Finish(h, sh).h.pc) < PointRank(h.pc)
  {
    match h.pc
    case LastCheck => if h.session in sh.cancels.flags {} else {}
    case ErrFlag => if h.session in sh.cancels.flags {} else {}
    case ErrCtx => if Effective(h, sh).Canceled? {} else {}
    case Answering(_) => if h.marks.registered {} else {}
    case _ =>
  }

  lemma MovesDown(i: nat, h: Handler, sh: Shared, choice: Choice, calls: nat)
    requires CanMove(h, sh, choice)
    ensures PointRank(Moved(i, h, sh, choice, calls).0.pc) < PointRank(h.pc)
  {
    var c := if h.pc.Executing? || h.pc.NamingSession? then choice else Go;
    if h.pc.ToolGated? && h.pc.gate.Send? {
    } else if BeforeTurn(h.pc) {
    } else if Announcing(h.pc) { AnnounceRanks(h, sh); }
    else if InExecutor(h.pc) { PerformRanks(h, sh, c); }
    else { FinishRanks(h, sh); }
  }

  /** A move, as a run, with what is needed to go on. */
  lemma MoveRun(s: State, i: nat, choice: Choice) returns (run: seq<Step>)
    requires Core(s) && i < |s.handlers| && CanMove(s.handlers[i], s.sh, choice) && !s.handlers[i].pc.NamingSession?
    ensures OwnRun(s, run, i) && Core(After(s, run))
    ensures var t := After(s, run);
            && t.handlers[i] == Moved(i, s.handlers[i], s.sh, choice, |s.rpc.calls|).0
            && t.sh == Moved(i, s.handlers[i], s.sh, choice, |s.rpc.calls|).1
            && PointRank(t.handlers[i].pc) < PointRank(s.handlers[i].pc)
  {
    hide *;
    var step := Move(s, i, choice);
    Moves(s, i, choice);
    MovesDown(i, s.handlers[i], s.sh, choice, |s.rpc.calls|);
    StepIsRun(s, step, i);
    CoreStep(s, step);
    run := [step];
  }

  lemma CallRun(s: State, i: nat) returns (run: seq<Step>)
    requires Core(s) && i < |s.handlers| && s.handlers[i].pc.ToolCalling?
    ensures OwnRun(s, run, i) && Core(After(s, run))
    ensures After(s, run).handlers[i].pc.ToolClosing? && After(s, run).sh == s.sh
  {
    hide Apply;
    run := CallEnds(s, i);
    CoreRun(s, run);
  }

  // ----- Every request can be answered -----

  lemma LongerThanAll(keys: set<string>) returns (n: nat)
    ensures forall k | k in keys :: |k| < n
    decreases |keys|
  {
    if keys == {} {
      n := 0;
    } else {
      var k :| k in keys;
      var m := LongerThanAll(keys - {k});
      n := if m <= |k| then |k| + 1 else m;
      forall l | l in keys ensures |l| < n {
        if l != k { assert l in keys - {k}; }
      }
    }
  }

  lemma FreshName(keys: set<string>) returns (name: string)
    ensures name !in keys
  {
    var n := LongerThanAll(keys);
    name := seq(n, _ => 'x');
    assert |name| == n;
  }

  /** A stretch of a handler's way to its response. */
  ghost predicate CloserToTheAnswer(s: State, run: seq<Step>, i: nat) {
    Valid(s, run) && AllInward(run)
    && var t := After(s, run);
       && Core(t) && i < |s.handlers| == |t.handlers| && t.conn == s.conn && t.handlers[i].conn == s.handlers[i].conn
       && t.handlers[i].answered.None? && PointRank(t.handlers[i].pc) < PointRank(s.handlers[i].pc)
  }

  lemma AnsweringReturns(s: State, i: nat) returns (run: seq<Step>)
    requires Core(s) && i < |s.handlers| && s.handlers[i].pc.ToolCalling?
    ensures CloserToTheAnswer(s, run, i)
  {
    hide Apply;
    run := CallRun(s, i);
    assert StageOk(After(s, run).handlers[i]);
  }

  lemma AnsweringMoves(s: State, i: nat) returns (run: seq<Step>)
    requires Core(s) && i < |s.handlers| && s.handlers[i].answered.None? && !s.handlers[i].pc.ToolCalling?
    requires !s.handlers[i].pc.Answering?
    ensures CloserToTheAnswer(s, run, i)
  {
    hide Advance;
    var h := s.handlers[i];
    assert StageOk(h);
    var choice := Fail;
    if h.pc.NamingSession? {
      var name := FreshName(s.sh.sessions.Keys);
      choice := Name(name);
    }
    Moves(s, i, choice);
    MovesDown(i, h, s.sh, choice, |s.rpc.calls|);
    UnansweredMoves(i, h, s.sh, choice, |s.rpc.calls|);
    var step := Move(s, i, choice);
    assert Apply(s, step).conn == s.conn;
    CoreStep(s, step);
    OneStep(s, step);
    run := [step];
  }

  lemma UnansweredMoves(i: nat, h: Handler, sh: Shared, choice: Choice, calls: nat)
    requires CanMove(h, sh, choice) && h.answered.None? && !h.pc.Answering?
    ensures var g := Moved(i, h, sh, choice, calls).0; g.answered.None? && g.conn == h.conn
  {
    hide Advance;
    if h.pc.ToolGated? && h.pc.gate.Send? {
    } else {
      AdvanceFrame(i, h, sh, if h.pc.Executing? || h.pc.NamingSession? then choice else Go);
    }
  }

  lemma CloserThen(s: State, run: seq<Step>, rest: seq<Step>, i: nat)
    requires CloserToTheAnswer(s, run, i)
    requires Valid(After(s, run), rest) && AllInward(rest)
    ensures Valid(s, run + rest) && AllInward(run + rest) && After(s, run + rest) == After(After(s, run), rest)
  {
    hide Apply;
    RunConcat(s, run, rest);
  }

  /** A request that has no response yet can be brought to the point of its response. */
  lemma ReachesAnswering(s: State, i: nat) returns (run: seq<Step>)
    requires Core(s) && i < |s.handlers| && s.handlers[i].answered.None?
    ensures Valid(s, run) && AllInward(run)
    ensures var t := After(s, run);
            i < |t.handlers| && t.handlers[i].pc.Answering? && t.handlers[i].conn == s.handlers[i].conn
            && t.conn == s.conn
    decreases PointRank(s.handlers[i].pc)
  {
    hide Apply, Core;
    if s.handlers[i].pc.Answering? {
      run := [];
    } else {
      if s.handlers[i].pc.ToolCalling? {
        run := AnsweringReturns(s, i);
      } else {
        run := AnsweringMoves(s, i);
      }
      assert CloserToTheAnswer(s, run, i);
      var rest := ReachesAnswering(After(s, run), i);
      CloserThen(s, run, rest, i);
      run := run + rest;
    }
  }

  lemma AnswersNow(s: State, i: nat)
    requires i < |s.handlers| && s.handlers[i].pc.Answering?
    ensures Enabled(s, Handle(i, Go))
    ensures var t := Apply(s, Handle(i, Go));
            && i < |t.handlers| && t.handlers[i].answered.Some? && t.handlers[i].conn == s.handlers[i].conn
            && t.out == s.out
               + [OutLine(s.conn, By(i), Respond(NormalizeId(s.handlers[i].id), s.handlers[i].pc.answer))]
  {
    hide Advance;
    AdvanceFrame(i, s.handlers[i], s.sh, Go);
    var o := Advance(i, s.handlers[i], s.sh, Go);
    assert Tagged(s.conn, By(i), o.emit) == [OutLine(s.conn, By(i), o.emit[0])];
  }

  lemma CanBeAnswered(s: State, i: nat) returns (run: seq<Step>)
    requires Core(s) && i < |s.handlers| && s.handlers[i].answered.None?
    ensures Valid(s, run) && AllInward(run)
    ensures i < |After(s, run).handlers| && After(s, run).handlers[i].answered.Some?
  {
    hide Apply;
    var way := ReachesAnswering(s, i);
    AnswersNow(After(s, way), i);
    RunThen(s, way, Handle(i, Go));
    run := way + [Handle(i, Go)];
  }

  /** No request is ever stuck: from every reachable state the server can answer it by steps of the
      request's own handler, without anything from the client. */
  lemma EveryRequestCanBeAnswered(before: seq<Step>, i: nat)
    requires Valid(Init(), before) && i < |After(Init(), before).handlers|
    ensures exists run :: Valid(After(Init(), before), run) && AllInward(run)
                          && i < |After(After(Init(), before), run).handlers|
                          && After(After(Init(), before), run).handlers[i].answered.Some?
  {
    var s := After(Init(), before);
    if s.handlers[i].answered.Some? {
      assert Valid(s, []) && AllInward([]);
    } else {
      Reached(before);
      InvGivesCore(s);
      var run := CanBeAnswered(s, i);
    }
  }
}
