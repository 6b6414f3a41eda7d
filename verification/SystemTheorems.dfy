/** What the server guarantees in every run: any requests, any executors, any interleaving, any
    number of connections through one Endpoint. */
module SystemTheorems {
  import opened Text
  import opened Protocol
  import opened Tools
  import opened Turn
  import opened TurnProofs
  import opened TurnFrames
  import opened System
  import opened SystemInv
  import opened SystemTables
  import opened SystemSessions
  import opened SystemResponses
  import R = ClientRpc
  import RP = ClientRpcProofs
  import RT = ClientRpcTheorems

  // ----- Requests written to the client, and where handlers come from -----

  /** Every client request written names canonical absolute paths only. */
  ghost predicate PathsOk(s: State) {
    forall k | 0 <= k < |s.out| && s.out[k].payload.Ask? :: PathsCanonical(s.out[k].payload.request)
  }

  lemma NoAskInAdvance(i: nat, h: Handler, sh: Shared, choice: Choice)
    requires CanAdvance(h, sh, choice)
    ensures forall k | 0 <= k < |Advance(i, h, sh, choice).emit| :: !Advance(i, h, sh, choice).emit[k].Ask?
  {
    if BeforeTurn(h.pc) {
    } else if Announcing(h.pc) {
    } else if InExecutor(h.pc) {
    } else {
    }
  }

  lemma RequestIsCanonical(s: State, c: nat)
    requires LocalOk(s) && SessionsOk(s) && Enabled(s, WriteRequest(c))
    ensures RequestLine(s, c).Ask? && PathsCanonical(RequestLine(s, c).request)
  {
    var h := s.handlers[s.rpc.calls[c].owner];
    assert LocalInv(h) && SessionBacked(h, s.sh);
    assert (h.session, h.snapshot) in s.sh.installed;
    GateSendsCanonicalPaths(h.caps, h.snapshot.cwd, h.pc.tool.name, h.pc.tool.args);
  }

  lemma PathsStep(s: State, step: Step)
    requires LocalOk(s) && SessionsOk(s) && PathsOk(s) && Enabled(s, step)
    ensures PathsOk(Apply(s, step))
  {
    var t := Apply(s, step);
    HandlersFrame(s, step);
    match step
    case Handle(i, choice) => NoAskInAdvance(i, s.handlers[i], s.sh, choice);
    case WriteRequest(c) => RequestIsCanonical(s, c);
    case _ =>
  }

  /** Every handler serves a request that was read from its own connection. */
  predicate ReadFrom(s: State, h: Handler, k: nat) {
    k < |s.inputs| && s.inputs[k].conn == h.conn && Classify(s.inputs[k].line).Spawn?
    && Classify(s.inputs[k].line).msg.id == h.id
  }

  ghost predicate HasOrigin(s: State, h: Handler) {
    exists k :: ReadFrom(s, h, k)
  }

  ghost predicate OriginOk(s: State) {
    forall i | 0 <= i < |s.handlers| :: HasOrigin(s, s.handlers[i])
  }

  lemma OriginAt(s: State, step: Step, i: nat)
    requires OriginOk(s) && ConnOk(s) && Enabled(s, step) && i < |Apply(s, step).handlers|
    ensures HasOrigin(Apply(s, step), Apply(s, step).handlers[i])
  {
    var t := Apply(s, step);
    HandlersFrame(s, step);
    assert s.inputs <= Apply(s, step).inputs;
    assert step.Read? ==> Apply(s, step).inputs == s.inputs + [InLine(s.conn, step.line)];
    if i < |s.handlers| {
      assert HasOrigin(s, s.handlers[i]);
      var k :| ReadFrom(s, s.handlers[i], k);
      IdentityOf(s, step, i);
      assert ReadFrom(t, t.handlers[i], k);
    } else {
      assert ReadFrom(t, t.handlers[i], |s.inputs|);
    }
  }

  lemma IdentityOf(s: State, step: Step, i: nat)
    requires Enabled(s, step) && i < |s.handlers|
    ensures i < |Apply(s, step).handlers|
    ensures Apply(s, step).handlers[i].conn == s.handlers[i].conn && Apply(s, step).handlers[i].id == s.handlers[i].id
  {
    hide Advance;
    if step.Handle? {
      AdvanceFrame(step.i, s.handlers[step.i], s.sh, step.choice);
    } else {
      IdentityStays(s, step, i);
    }
  }

  lemma OriginStep(s: State, step: Step)
    requires OriginOk(s) && ConnOk(s) && Enabled(s, step)
    ensures OriginOk(Apply(s, step))
  {
    hide Apply;
    forall i | 0 <= i < |Apply(s, step).handlers|
      ensures HasOrigin(Apply(s, step), Apply(s, step).handlers[i])
    {
      OriginAt(s, step, i);
    }
  }

  // ----- The invariant of every run -----

  ghost predicate Inv(s: State) {
    && RP.FullInv(s.rpc) && WaitsOk(s) && OwnersOk(s)
    && LocalOk(s) && ConnOk(s) && OutOk(s) && OriginOk(s)
    && ActiveOk(s) && BackedOk(s) && FlagsOk(s)
    && SessionsOk(s) && PathsOk(s)
    && ResponsesOk(s)
  }

  lemma RpcStep(s: State, step: Step)
    requires RP.FullInv(s.rpc) && Enabled(s, step)
    ensures RP.FullInv(Apply(s, step).rpc)
  {
    match step
    case Read(line) =>
      if Classify(line).Correlate? && HasId(Classify(line).rid) {
        RP.StepKeepsInvariant(s.rpc, R.Arrive(Classify(line).rid, Classify(line).body));
      }
    case StartCall(i) => RP.StepKeepsInvariant(s.rpc, R.Begin(i));
    case WriteRequest(c) => RP.StepKeepsInvariant(s.rpc, R.Write(c));
    case Rpc(r) => RP.StepKeepsInvariant(s.rpc, r);
    case _ => assert Apply(s, step).rpc == s.rpc;
  }

  lemma HandlerInvStep(s: State, step: Step)
    requires Inv(s) && Enabled(s, step)
    ensures var t := Apply(s, step);
            WaitsOk(t) && OwnersOk(t) && LocalOk(t) && ConnOk(t) && OutOk(t) && OriginOk(t)
  {
    WaitsStep(s, step);
    OwnersStep(s, step);
    LocalOkStep(s, step);
    ConnStep(s, step);
    OutStep(s, step);
    OriginStep(s, step);
  }

  lemma TableInvStep(s: State, step: Step)
    requires Inv(s) && Enabled(s, step)
    ensures var t := Apply(s, step);
            ActiveOk(t) && BackedOk(t) && FlagsOk(t) && SessionsOk(t) && PathsOk(t) && ResponsesOk(t)
  {
    LocalGivesEarly(s);
    ActiveStep(s, step);
    BackedStep(s, step);
    FlagsStep(s, step);
    SessionsStep(s, step);
    PathsStep(s, step);
    ResponsesStep(s, step);
  }

  lemma StepKeepsInv(s: State, step: Step)
    requires Inv(s) && Enabled(s, step)
    ensures Inv(Apply(s, step))
  {
    RpcStep(s, step);
    HandlerInvStep(s, step);
    TableInvStep(s, step);
  }

  lemma {:induction false} RunKeepsInv(s: State, run: seq<Step>)
    requires Inv(s) && Valid(s, run)
    ensures Inv(After(s, run))
    decreases |run|
  {
    hide Apply, Inv;
    if run != [] {
      StepKeepsInv(s, run[0]);
      RunKeepsInv(Apply(s, run[0]), run[1..]);
    }
  }

  lemma InitInv()
    ensures Inv(Init())
  {
    hide Apply;
    forall conn: nat, id: Id ensures Balanced(Init(), conn, id) {
    }
  }

  lemma Reached(run: seq<Step>)
    requires Valid(Init(), run)
    ensures Inv(After(Init(), run))
  {
    hide *;
    InitInv();
    RunKeepsInv(Init(), run);
  }

  // ----- Responses, connections, quiescence -----

  /** Whenever Serve has returned, each connection's output holds, for each id, exactly as many
      responses with that id as the lines read from that connection demand. */
  lemma ExactlyOneResponsePerRequest(run: seq<Step>, conn: nat, id: Id)
    requires Valid(Init(), run) && After(Init(), run).reader.Stopped?
    ensures var s := After(Init(), run); Answers(s.out, conn, id) == Demanded(s.inputs, conn, id)
  {
    Reached(run);
    var s := After(Init(), run);
    assert Balanced(s, conn, id);
    forall i | 0 <= i < |s.handlers| ensures s.handlers[i].answered.Some? {
      assert s.handlers[i].pc.Done? && StageOk(s.handlers[i]);
    }
    NothingOwed(s.handlers, conn, id);
  }

  /** Every line a handler writes goes to the connection from which its request was read. */
  lemma LinesStayOnTheirConnection(run: seq<Step>, k: nat)
    requires Valid(Init(), run) && k < |After(Init(), run).out| && After(Init(), run).out[k].origin.By?
    ensures var s := After(Init(), run);
            var i := s.out[k].origin.i;
            i < |s.handlers| && exists n: nat :: ReadFrom(s, s.handlers[i], n) && s.inputs[n].conn == s.out[k].conn
  {
    Reached(run);
    var s := After(Init(), run);
    var i := s.out[k].origin.i;
    assert HasOrigin(s, s.handlers[i]);
    var n :| ReadFrom(s, s.handlers[i], n);
  }

  /** Whenever Serve has returned, no cancel function is left, no call waits, and no response channel
      is left in pendingResponses. */
  lemma QuietWhenServeReturns(run: seq<Step>)
    requires Valid(Init(), run) && After(Init(), run).reader.Stopped?
    ensures var s := After(Init(), run);
            && s.sh.cancels.active == map[] && s.rpc.tables.pending == map[]
            && forall c | 0 <= c < |s.rpc.calls| :: s.rpc.calls[c].pc.Finished?
  {
    Reached(run);
    var s := After(Init(), run);
    forall i | 0 <= i < |s.handlers| ensures s.handlers[i].pc.Done? && !s.handlers[i].marks.registered {
      assert s.handlers[i].pc.Done? && StageOk(s.handlers[i]);
    }
    assert s.sh.cancels.active.Keys == {};
    forall c | 0 <= c < |s.rpc.calls| ensures s.rpc.calls[c].pc.Finished? {
      assert !s.rpc.calls[c].pc.Finished? ==> InCall(s, s.rpc.calls[c].owner, c);
    }
    RT.AllOverNonePending(s.rpc);
  }

  /** The reader of the whole server never blocks: when it has claimed a channel, the channel is empty. */
  lemma ReaderNeverBlocks(run: seq<Step>)
    requires Valid(Init(), run)
    ensures var s := After(Init(), run); s.rpc.hand.Sending? ==> Enabled(s, Rpc(R.Deliver))
  {
    Reached(run);
    RT.ReadyToSend(After(Init(), run).rpc);
  }

  /** At any time, every cancel function belongs to a prompt on that session between
      setActiveCancel and clearActiveCancel, however prompts overlap. */
  lemma ActiveCancelsAreLive(run: seq<Step>, sid: string)
    requires Valid(Init(), run) && sid in After(Init(), run).sh.cancels.active
    ensures var s := After(Init(), run);
            var i := s.sh.cancels.active[sid];
            i < |s.handlers| && s.handlers[i].session == sid && s.handlers[i].marks.registered
            && !s.handlers[i].pc.Done?
            && !BeforeTurn(s.handlers[i].pc)
  {
    Reached(run);
    var s := After(Init(), run);
    assert StageOk(s.handlers[s.sh.cancels.active[sid]]);
  }

  // ----- Cancellation -----

  /** On each session, the prompts that consumed a flag plus the flag still up are at most the
      cancellations received. */
  lemma FlagsNeverExceedCancels(run: seq<Step>, sid: string)
    requires Valid(Init(), run)
    ensures var s := After(Init(), run);
            CountTook(s.handlers, sid) + (if sid in s.sh.cancels.flags then 1 else 0) <= s.sh.notices[sid]
  {
    Reached(run);
    assert FlagsOk(After(Init(), run));
  }

  lemma {:induction false} TookIsCounted(handlers: seq<Handler>, i: nat)
    requires i < |handlers| && handlers[i].marks.took
    ensures CountTook(handlers, handlers[i].session) >= 1
  {
    if i < |handlers| - 1 { TookIsCounted(handlers[..|handlers| - 1], i); }
  }

  /** A prompt reports `cancelled` only after a session/cancel for its session or the cancellation of
      the context of its connection's Serve. */
  lemma CancelledIsBacked(run: seq<Step>, i: nat)
    requires Valid(Init(), run)
    requires i < |After(Init(), run).handlers| && After(Init(), run).handlers[i].answered == Some(Stop(Cancelled))
    ensures var s := After(Init(), run);
            s.handlers[i].session in s.sh.notices || s.handlers[i].conn in s.sh.deadConns
  {
    Reached(run);
    var s := After(Init(), run);
    var h := s.handlers[i];
    assert CancelOk(h) && HandlerBacked(s, i);
    if h.marks.took {
      TookIsCounted(s.handlers, i);
      FlagsNeverExceedCancels(run, h.session);
    }
  }
}
