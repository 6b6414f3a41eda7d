/** The invariant of the whole server, and that every step keeps it. */
module SystemInv {
  import opened Text
  import opened Protocol
  import opened Turn
  import opened TurnProofs
  import opened TurnFrames
  import opened System
  import R = ClientRpc

  // ----- Handlers and their calls -----

  /** A request has been written exactly when the call is past its write. */
  predicate AskedMatches(asked: Option<Payload>, pc: R.CallPC) {
    match pc
    case Registering => asked.None?
    case CarryingEarly(_) => asked.None?
    case Writing => asked.None?
    case Selecting => asked.Some?
    case Leaving(exit) => exit.WriteFailed? == asked.None?
    case Finished(exit) => exit.WriteFailed? == asked.None?
  }

  /** Each handler in a tool call waits for its own call ... */
  ghost predicate WaitsOk(s: State) {
    forall i | 0 <= i < |s.handlers| && s.handlers[i].pc.ToolCalling? ::
      var c := s.handlers[i].pc.rpc;
      c < |s.rpc.calls| && s.rpc.calls[c].owner == i && AskedMatches(s.handlers[i].pc.asked, s.rpc.calls[c].pc)
  }

  /** ... and each call that is not over has its handler waiting. */
  ghost predicate OwnersOk(s: State) {
    forall c | 0 <= c < |s.rpc.calls| && !s.rpc.calls[c].pc.Finished? :: InCall(s, s.rpc.calls[c].owner, c)
  }

  lemma WaitsStep(s: State, step: Step)
    requires WaitsOk(s) && OwnersOk(s) && Enabled(s, step)
    ensures WaitsOk(Apply(s, step))
  {
    hide Advance;
    var t := Apply(s, step);
    HandlersFrame(s, step);
    forall i | 0 <= i < |t.handlers| && t.handlers[i].pc.ToolCalling?
      ensures var c := t.handlers[i].pc.rpc;
              c < |t.rpc.calls| && t.rpc.calls[c].owner == i && AskedMatches(t.handlers[i].pc.asked, t.rpc.calls[c].pc)
    {
      WaitAt(s, step, i);
    }
  }

  lemma WaitAt(s: State, step: Step, i: nat)
    requires WaitsOk(s) && OwnersOk(s) && Enabled(s, step)
    requires i < |Apply(s, step).handlers| && Apply(s, step).handlers[i].pc.ToolCalling?
    ensures var t := Apply(s, step);
            var c := t.handlers[i].pc.rpc;
            c < |t.rpc.calls| && t.rpc.calls[c].owner == i && AskedMatches(t.handlers[i].pc.asked, t.rpc.calls[c].pc)
  {
    HandlersFrame(s, step);
    if i == |s.handlers| {
      EntryPoint(Classify(step.line).msg.methodName, Classify(step.line).msg.params);
    } else if Changed(s, step) == Some(i) {
      WaitOfChanged(s, step, i);
    } else {
      WaitOfOther(s, step, i);
    }
  }

  lemma WaitOfChanged(s: State, step: Step, i: nat)
    requires WaitsOk(s) && Enabled(s, step) && Changed(s, step) == Some(i) && i < |s.handlers|
    requires Apply(s, step).handlers[i].pc.ToolCalling?
    ensures var t := Apply(s, step);
            var c := t.handlers[i].pc.rpc;
            c < |t.rpc.calls| && t.rpc.calls[c].owner == i && AskedMatches(t.handlers[i].pc.asked, t.rpc.calls[c].pc)
  {
    match step
    case Handle(j, choice) => AdvanceFrame(j, s.handlers[j], s.sh, choice);
    case CallCancel =>
    case StartCall(_) =>
    case WriteRequest(_) =>
    case FinishCall(_) =>
  }

  lemma WaitOfOther(s: State, step: Step, i: nat)
    requires WaitsOk(s) && Enabled(s, step) && Changed(s, step) != Some(i) && i < |s.handlers|
    requires s.handlers[i].pc.ToolCalling?
    ensures var t := Apply(s, step);
            var c := s.handlers[i].pc.rpc;
            c < |t.rpc.calls| && t.rpc.calls[c].owner == i && AskedMatches(s.handlers[i].pc.asked, t.rpc.calls[c].pc)
  {
    match step
    case Rpc(r) => RpcKeepsOthers(s.rpc, r, s.handlers[i].pc.rpc);
    case WriteRequest(c) =>
    case StartCall(_) =>
    case Read(_) =>
    case Leave => assert false;
    case _ => assert Apply(s, step).rpc == s.rpc;
  }

  /** An internal step keeps owners and does not pass the write of a request. */
  lemma RpcKeepsOthers(r: R.State, step: R.Step, c: nat)
    requires R.Enabled(r, step) && Internal(step) && c < |r.calls|
    ensures var t := R.Apply(r, step);
            |t.calls| == |r.calls| && t.calls[c].owner == r.calls[c].owner && t.calls[c].key == r.calls[c].key
            && (r.calls[c].pc.Finished? ==> t.calls[c].pc == r.calls[c].pc)
            && forall asked :: AskedMatches(asked, r.calls[c].pc) ==> AskedMatches(asked, t.calls[c].pc)
  {
  }

  lemma OwnerAt(s: State, step: Step, c: nat)
    requires WaitsOk(s) && OwnersOk(s) && Enabled(s, step)
    requires c < |Apply(s, step).rpc.calls| && !Apply(s, step).rpc.calls[c].pc.Finished?
    ensures InCall(Apply(s, step), Apply(s, step).rpc.calls[c].owner, c)
  {
    hide Advance;
    if c < |s.rpc.calls| {
      OwnerStays(s, step, c);
      var i := s.rpc.calls[c].owner;
      assert InCall(s, i, c);
      CallingStays(s, step, i, c);
    }
  }

  lemma OwnerStays(s: State, step: Step, c: nat)
    requires Enabled(s, step) && c < |s.rpc.calls|
    ensures var t := Apply(s, step);
            c < |t.rpc.calls| && t.rpc.calls[c].owner == s.rpc.calls[c].owner
            && (s.rpc.calls[c].pc.Finished? ==> t.rpc.calls[c].pc.Finished?)
  {
    match step
    case Rpc(r) => RpcKeepsOthers(s.rpc, r, c);
    case _ =>
  }

  lemma CallingStays(s: State, step: Step, i: nat, c: nat)
    requires Enabled(s, step) && InCall(s, i, c) && !s.rpc.calls[c].pc.Finished?
    requires c < |Apply(s, step).rpc.calls|
    ensures InCall(Apply(s, step), i, c)
  {
    HandlersFrame(s, step);
    match step
    case CallCancel =>
    case WriteRequest(_) =>
    case Handle(_, _) =>
    case StartCall(_) =>
    case FinishCall(_) =>
    case _ =>
  }

  lemma OwnersStep(s: State, step: Step)
    requires WaitsOk(s) && OwnersOk(s) && Enabled(s, step)
    ensures OwnersOk(Apply(s, step))
  {
    hide Apply;
    var t := Apply(s, step);
    forall c | 0 <= c < |t.rpc.calls| && !t.rpc.calls[c].pc.Finished? ensures InCall(t, t.rpc.calls[c].owner, c) {
      OwnerAt(s, step, c);
    }
  }

  // ----- Each handler's own history -----

  ghost predicate LocalOk(s: State) {
    forall i | 0 <= i < |s.handlers| :: LocalInv(s.handlers[i])
  }

  lemma ContextOnly(h: Handler, sh: Shared)
    requires LocalInv(h)
    ensures LocalInv(CancelContext(h, sh))
  {
    if Effective(h, sh).Live? {
      var g := h.(ctx := Canceled);
      SameTraceOk(g, h);
      SameVerdictOk(h, g);
      assert StageOk(g);
      assert FallbackOk(g) && CancelOk(g);
    }
  }

  lemma CalledOk(h: Handler, c: nat)
    requires LocalInv(h) && h.pc.ToolGated? && h.pc.gate.Send?
    ensures LocalInv(Called(h, c))
  {
    var g := Called(h, c);
    SameTraceOk(g, h);
    forall k | 0 <= k < |g.acts| ensures ActOk(g, g.acts[k]) {
      assert ActOk(h, h.acts[k]);
    }
  }

  lemma AskedTrace(h: Handler, line: Payload)
    requires TraceOk(h) && h.pc.ToolCalling? && h.pc.asked.None? && !h.marks.fell && !h.marks.informed
             && h.answered == None
    ensures TraceOk(Asked(h, line))
  {
    var g := Asked(h, line);
    assert Lead(g, g.passed) == Lead(h, h.passed) && Ending(h) == [] && Ending(g) == [];
    assert Opened(g) == Opened(h) + [line];
    OpenThird(Notes(h.session, Lead(h, h.passed)), Lines(h.session, h.acts), Opened(h));
    OpenThird(Notes(h.session, Lead(h, h.passed)), Lines(h.session, h.acts), Opened(g));
    ExtendThird(Notes(h.session, Lead(h, h.passed)), Lines(h.session, h.acts), Opened(h), [line]);
  }

  lemma AskedOk(h: Handler, id: Id)
    requires LocalInv(h) && h.pc.ToolCalling? && h.pc.asked.None?
    ensures LocalInv(Asked(h, Ask(id, h.pc.request)))
  {
    AskedTrace(h, Ask(id, h.pc.request));
    assert ActsOk(Asked(h, Ask(id, h.pc.request)));
  }

  lemma ReturnedOk(h: Handler, exit: R.Exit)
    requires LocalInv(h) && h.pc.ToolCalling? && AskedMatches(h.pc.asked, R.Finished(exit))
    ensures LocalInv(Returned(h, exit))
  {
    SameTraceOk(Returned(h, exit), h);
    ReturnedPoints(h, exit);
  }

  lemma ReturnedPoints(h: Handler, exit: R.Exit)
    requires StageOk(h) && FallbackOk(h) && CancelOk(h) && h.pc.ToolCalling?
    ensures var g := Returned(h, exit); StageOk(g) && FallbackOk(g) && CancelOk(g)
  {
  }

  lemma ChangedLocal(s: State, step: Step, i: nat)
    requires WaitsOk(s) && Enabled(s, step) && Changed(s, step) == Some(i) && i < |s.handlers|
             && LocalInv(s.handlers[i])
    ensures LocalInv(Apply(s, step).handlers[i])
  {
    var h := s.handlers[i];
    match step
    case CallCancel => ContextOnly(h, s.sh);
    case Handle(_, choice) => LocalStep(i, h, s.sh, choice);
    case StartCall(_) => CalledOk(h, |s.rpc.calls|);
    case WriteRequest(c) => AskedOk(h, RequestLine(s, c).reqId);
    case FinishCall(_) => ReturnedOk(h, s.rpc.calls[h.pc.rpc].pc.exit);
  }

  lemma LocalOkStep(s: State, step: Step)
    requires WaitsOk(s) && LocalOk(s) && Enabled(s, step)
    ensures LocalOk(Apply(s, step))
  {
    var t := Apply(s, step);
    HandlersFrame(s, step);
    forall i | 0 <= i < |t.handlers| ensures LocalInv(t.handlers[i]) {
      if i == |s.handlers| {
        SpawnedOk(s.conn, Classify(step.line).msg);
        SpawnedTrace(s.conn, Classify(step.line).msg);
      } else {
        assert LocalInv(s.handlers[i]);
        if Changed(s, step) == Some(i) { ChangedLocal(s, step, i); }
      }
    }
  }

  // ----- The output of each handler -----

  /** What handler i has written, over all connections. */
  ghost function WrittenBy(out: seq<OutLine>, i: nat): seq<Payload> {
    if out == [] then []
    else
      var last := out[|out| - 1];
      WrittenBy(out[..|out| - 1], i) + (if last.origin == By(i) then [last.payload] else [])
  }

  lemma {:induction false} WrittenByConcat(a: seq<OutLine>, b: seq<OutLine>, i: nat)
    ensures WrittenBy(a + b, i) == WrittenBy(a, i) + WrittenBy(b, i)
  {
    if b == [] {
      assert a + b == a;
    } else {
      var n := |b| - 1;
      assert (a + b)[..|a + b| - 1] == a + b[..n] && (a + b)[|a + b| - 1] == b[n];
      WrittenByConcat(a, b[..n], i);
    }
  }

  lemma WrittenTagged(conn: nat, origin: Origin, emit: seq<Payload>, i: nat)
    requires |emit| <= 1
    ensures WrittenBy(Tagged(conn, origin, emit), i) == if origin == By(i) then emit else []
  {
    var lines := Tagged(conn, origin, emit);
    if |emit| == 1 {
      assert lines[..0] == [] && lines[0] == OutLine(conn, origin, emit[0]);
      assert WrittenBy([], i) == [];
    }
  }

  /** The log of a server splits into the traces of its handlers and the reader's own lines, each on
      the connection of its handler. */
  ghost predicate OutOk(s: State) {
    && (forall i | 0 <= i < |s.handlers| :: WrittenBy(s.out, i) == s.handlers[i].trace)
    && (forall i | |s.handlers| <= i :: WrittenBy(s.out, i) == [])
    && (forall k | 0 <= k < |s.out| && s.out[k].origin.By? ::
          s.out[k].origin.i < |s.handlers| && s.out[k].conn == s.handlers[s.out[k].origin.i].conn)
  }

  /** A handler that is not done belongs to the current connection, and Serve is still running. */
  ghost predicate ConnOk(s: State) {
    && (forall i | 0 <= i < |s.handlers| :: s.handlers[i].conn <= s.conn)
    && (forall i | 0 <= i < |s.handlers| && !s.handlers[i].pc.Done? ::
          s.handlers[i].conn == s.conn && !s.reader.Stopped?)
    && (forall k | 0 <= k < |s.out| :: s.out[k].conn <= s.conn)
    && (forall k | 0 <= k < |s.inputs| :: s.inputs[k].conn <= s.conn)
  }

  lemma ConnStep(s: State, step: Step)
    requires ConnOk(s) && Enabled(s, step)
    ensures ConnOk(Apply(s, step))
  {
    hide Advance;
    var t := Apply(s, step);
    HandlersFrame(s, step);
    forall i | 0 <= i < |t.handlers|
      ensures t.handlers[i].conn <= t.conn
              && (!t.handlers[i].pc.Done? ==> t.handlers[i].conn == t.conn && !t.reader.Stopped?)
    {
      if i < |s.handlers| { HandlerConn(s, step, i); }
    }
  }

  lemma HandlerConn(s: State, step: Step, i: nat)
    requires ConnOk(s) && Enabled(s, step) && i < |s.handlers|
    ensures var (h, t) := (s.handlers[i], Apply(s, step));
            i < |t.handlers| && t.handlers[i].conn == h.conn <= t.conn
            && (!t.handlers[i].pc.Done? ==> h.conn == t.conn && !t.reader.Stopped?)
  {
    HandlersFrame(s, step);
    if Changed(s, step) == Some(i) {
      match step
      case Handle(_, choice) => AdvanceFrame(i, s.handlers[i], s.sh, choice);
      case _ =>
    }
  }

  lemma OutAt(s: State, step: Step, i: nat)
    requires OutOk(s) && Enabled(s, step)
    ensures var t := Apply(s, step);
            WrittenBy(t.out, i) == if i < |t.handlers| then t.handlers[i].trace else []
  {
    hide Apply;
    HandlersFrame(s, step);
    WrittenByConcat(s.out, Written(s, step), i);
    WrittenInStep(s, step, i);
  }

  lemma OutLineAt(s: State, step: Step, k: nat)
    requires OutOk(s) && ConnOk(s) && Enabled(s, step) && k < |Apply(s, step).out|
    ensures var t := Apply(s, step);
            t.out[k].origin.By? ==>
              t.out[k].origin.i < |t.handlers| && t.out[k].conn == t.handlers[t.out[k].origin.i].conn
  {
    hide Advance;
    var t := Apply(s, step);
    HandlersFrame(s, step);
    assert t.out == s.out + Written(s, step);
    if t.out[k].origin.By? {
      HandlerConn(s, step, t.out[k].origin.i);
    }
  }

  lemma OutStep(s: State, step: Step)
    requires OutOk(s) && ConnOk(s) && Enabled(s, step)
    ensures OutOk(Apply(s, step))
  {
    hide Apply;
    var t := Apply(s, step);
    forall i: nat ensures WrittenBy(t.out, i) == if i < |t.handlers| then t.handlers[i].trace else [] {
      OutAt(s, step, i);
    }
    forall k | 0 <= k < |t.out| && t.out[k].origin.By?
      ensures t.out[k].origin.i < |t.handlers| && t.out[k].conn == t.handlers[t.out[k].origin.i].conn
    {
      OutLineAt(s, step, k);
    }
  }

  lemma WrittenInStep(s: State, step: Step, i: nat)
    requires Enabled(s, step)
    ensures WrittenBy(Written(s, step), i)
            == if i < |s.handlers| then
                 (if |s.handlers[i].trace| <= |Apply(s, step).handlers[i].trace|
                  then Apply(s, step).handlers[i].trace[|s.handlers[i].trace|..] else [])
               else []
    ensures i < |s.handlers| ==> s.handlers[i].trace <= Apply(s, step).handlers[i].trace
    ensures |s.handlers| <= i < |Apply(s, step).handlers| ==> Apply(s, step).handlers[i].trace == []
  {
    HandlersFrame(s, step);
    match step
    case WriteReject =>
      WrittenTagged(s.conn, ByReader, [Respond(NormalizeId(s.reader.id), Failure(s.reader.code))], i);
    case Handle(j, choice) =>
      AdvanceFrame(j, s.handlers[j], s.sh, choice);
      WrittenTagged(s.conn, By(j), Advance(j, s.handlers[j], s.sh, choice).emit, i);
    case WriteRequest(c) => WrittenTagged(s.conn, By(s.rpc.calls[c].owner), [RequestLine(s, c)], i);
    case _ =>
  }
}
