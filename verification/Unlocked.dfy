/** The server without the Endpoint's lock: Serve may be called while another Serve is running. Each
    call moves the server's writer to its own output; the readers of earlier calls go on. */
module Unlocked {
  import opened Text
  import opened Protocol
  import opened Turn
  import opened TurnProofs
  import opened TurnFrames
  import opened SystemInv
  import opened Continuations
  import S = System
  import ST = SystemTheorems
  import R = ClientRpc
  import RT = ClientRpcTheorems

  /** One call of Serve: its connection and where its reader stands. */
  datatype Serving = Serving(conn: nat, reader: S.Reader)

  /** `s.conn` is the connection the writer belongs to; the readers are kept in `serves`. */
  datatype State = State(s: S.State, serves: seq<Serving>)

  function Init(): State {
    State(S.Init(), [])
  }

  datatype Step =
    | Enter
    | Reader(k: nat, step: S.Step)
    | Work(step: S.Step)
    | Lapse(i: nat, ctx: Ctx)
    | Exit(k: nat)

  predicate ReaderStep(step: S.Step) {
    step.Read? || step.WriteReject? || step.LockCancel? || step.CallCancel? || step.Eof?
  }

  /** The server as the k-th reader finds it; requests are read from its own connection. */
  function View(u: State, k: nat, step: S.Step): S.State {
    if k >= |u.serves| then u.s else
    u.s.(reader := u.serves[k].reader, conn := if step.Read? then u.serves[k].conn else u.s.conn)
  }

  predicate Enabled(u: State, step: Step) {
    match step
    case Enter => true
    case Reader(k, r) => k < |u.serves| && ReaderStep(r) && S.Enabled(View(u, k, r), r)
    case Work(w) => (Inward(w) || w.WriteRequest?) && S.Enabled(u.s, w)
    case Lapse(i, ctx) => i < |u.s.handlers| && u.s.handlers[i].ctx.Live? && !ctx.Live?
    case Exit(k) =>
      k < |u.serves| && u.serves[k].reader.Draining?
      && forall i | 0 <= i < |u.s.handlers| && u.s.handlers[i].conn == u.serves[k].conn :: u.s.handlers[i].pc.Done?
  }

  /** The state after a step; a step that is not enabled changes nothing. */
  function Apply(u: State, step: Step): State {
    if !Enabled(u, step) then u else
    match step
    case Enter => State(u.s.(conn := u.s.conn + 1), u.serves + [Serving(u.s.conn + 1, S.Idle)])
    case Reader(k, r) =>
      var t := S.Apply(View(u, k, r), r);
      State(t.(conn := u.s.conn, reader := u.s.reader), u.serves[k := u.serves[k].(reader := t.reader)])
    case Work(w) => u.(s := S.Apply(u.s, w))
    case Lapse(i, ctx) => u.(s := u.s.(handlers := u.s.handlers[i := u.s.handlers[i].(ctx := ctx)]))
    case Exit(k) => u.(serves := u.serves[k := u.serves[k].(reader := S.Stopped)])
  }

  ghost predicate Valid(u: State, run: seq<Step>)
    decreases |run|
  {
    run == [] || (Enabled(u, run[0]) && Valid(Apply(u, run[0]), run[1..]))
  }

  ghost function After(u: State, run: seq<Step>): State
    decreases |run|
  {
    if run == [] then u else After(Apply(u, run[0]), run[1..])
  }

  /** Every handler's lines are on the connection of its request. */
  ghost predicate Placed(s: S.State) {
    forall k | 0 <= k < |s.out| && s.out[k].origin.By? ::
      s.out[k].origin.i < |s.handlers| && s.out[k].conn == s.handlers[s.out[k].origin.i].conn
  }

  predicate Over(r: S.Reader) {
    r.Stopped? || r.Draining?
  }

  /** Every earlier Serve has reached the end of its input and every request has its response. */
  ghost predicate Harmless(u: State) {
    && (forall k | 0 <= k < |u.serves| :: Over(u.serves[k].reader))
    && (forall i | 0 <= i < |u.s.handlers| :: u.s.handlers[i].answered.Some?)
  }

  /** Serve is only called when that makes no difference. */
  ghost predicate Careful(u: State, run: seq<Step>)
    decreases |run|
  {
    run == [] || ((run[0].Enter? ==> Harmless(u)) && Careful(Apply(u, run[0]), run[1..]))
  }

  /** Serve is only called when no Serve is running: what the Endpoint's lock achieves. */
  ghost predicate Locked(u: State, run: seq<Step>)
    decreases |run|
  {
    run == []
    || ((run[0].Enter? ==> forall k | 0 <= k < |u.serves| :: u.serves[k].reader.Stopped?)
        && Locked(Apply(u, run[0]), run[1..]))
  }

  // ----- The invariant of careful runs -----

  /** What activeCancels and the readers about to cancel name exists. */
  ghost predicate NamesOk(active: map<string, nat>, serves: seq<Serving>, n: nat) {
    && (forall sid | sid in active :: active[sid] < n)
    && (forall k | 0 <= k < |serves| && serves[k].reader.CallingCancel? :: serves[k].reader.i < n)
  }

  /** Only the last Serve may still be reading, and the writer is its own. */
  ghost predicate ServesOk(u: State) {
    && (forall k | 0 <= k < |u.serves| - 1 :: Over(u.serves[k].reader))
    && (u.serves != [] ==> u.serves[|u.serves| - 1].conn == u.s.conn)
  }

  predicate LastRuns(serves: seq<Serving>) {
    serves != [] && !serves[|serves| - 1].reader.Stopped?
  }

  /** A request without a response is of the connection of the last Serve, which has not returned. */
  ghost predicate OpenOk(u: State) {
    forall i | 0 <= i < |u.s.handlers| && u.s.handlers[i].answered.None? ::
      u.s.handlers[i].conn == u.s.conn && LastRuns(u.serves)
  }

  ghost predicate Good(u: State) {
    Core(u.s) && NamesOk(u.s.sh.cancels.active, u.serves, |u.s.handlers|) && ServesOk(u) && OpenOk(u) && Placed(u.s)
  }

  // ----- Each part of the invariant, step by step -----

  lemma LapsedOk(h: Handler, ctx: Ctx)
    requires LocalInv(h)
    ensures LocalInv(h.(ctx := ctx))
  {
    var g := h.(ctx := ctx);
    SameTraceOk(g, h);
    SameVerdictOk(h, g);
    assert StageOk(g) && FallbackOk(g) && CancelOk(g);
  }

  lemma CoreLapse(s: S.State, t: S.State, i: nat, ctx: Ctx)
    requires Core(s) && i < |s.handlers|
    requires t.rpc == s.rpc && t.handlers == s.handlers[i := s.handlers[i].(ctx := ctx)]
    ensures Core(t)
  {
    LapsedOk(s.handlers[i], ctx);
    assert WaitsOk(t) && OwnersOk(t);
  }

  lemma CoreOn(u: State, step: Step)
    requires Core(u.s) && Enabled(u, step)
    ensures Core(Apply(u, step).s)
  {
    hide S.Apply;
    match step
    case Enter =>
    case Reader(k, r) =>
      CoreStep(View(u, k, r), r);

    case Work(w) => CoreStep(u.s, w);
    case Lapse(i, ctx) => CoreLapse(u.s, Apply(u, step).s, i, ctx);
    case Exit(_) =>
  }

  /** What one step does to a handler that was there before. */
  lemma HandlerOn(u: State, step: Step, i: nat)
    requires Core(u.s) && Enabled(u, step) && i < |u.s.handlers|
    ensures var t := Apply(u, step).s;
            && i < |t.handlers| && t.handlers[i].conn == u.s.handlers[i].conn
            && (u.s.handlers[i].answered.Some? ==> t.handlers[i].answered.Some?)
  {
    match step
    case Reader(k, r) =>
      var v := View(u, k, r);
      S.HandlersFrame(v, r);
      HandlerStays(v, r, i);
    case Work(w) => HandlerStays(u.s, w, i);
    case _ =>
  }

  lemma HandlerStays(s: S.State, step: S.Step, i: nat)
    requires S.Enabled(s, step) && i < |s.handlers|
    requires forall j | 0 <= j < |s.handlers| :: StageOk(s.handlers[j])
    ensures var t := S.Apply(s, step);
            && i < |t.handlers| && t.handlers[i].conn == s.handlers[i].conn
            && (s.handlers[i].answered.Some? ==> t.handlers[i].answered.Some?)
  {
    S.HandlersFrame(s, step);
    match step
    case Handle(j, choice) => AdvanceFrame(j, s.handlers[j], s.sh, choice);
    case _ =>
  }

  lemma NamesOn(u: State, step: Step)
    requires NamesOk(u.s.sh.cancels.active, u.serves, |u.s.handlers|) && Enabled(u, step)
    ensures var t := Apply(u, step); NamesOk(t.s.sh.cancels.active, t.serves, |t.s.handlers|)
  {
    match step
    case Reader(k, r) => assert S.Apply(View(u, k, r), r).sh.cancels.active == u.s.sh.cancels.active;
    case Work(w) => WorkNames(u.s, w);
    case _ =>
  }

  lemma WorkNames(s: S.State, w: S.Step)
    requires S.Enabled(s, w) && (Inward(w) || w.WriteRequest?)
    requires forall sid | sid in s.sh.cancels.active :: s.sh.cancels.active[sid] < |s.handlers|
    ensures var t := S.Apply(s, w);
            |t.handlers| == |s.handlers| && forall sid | sid in t.sh.cancels.active ::
              t.sh.cancels.active[sid] < |s.handlers|
  {
    S.HandlersFrame(s, w);
    match w
    case Handle(i, choice) => AdvanceFrame(i, s.handlers[i], s.sh, choice);
    case _ =>
  }

  lemma ServesOn(u: State, step: Step)
    requires ServesOk(u) && Enabled(u, step) && (step.Enter? ==> Harmless(u))
    ensures ServesOk(Apply(u, step))
  {
    match step
    case Reader(k, _) => assert k == |u.serves| - 1;
    case _ =>
  }

  lemma OpenOn(u: State, step: Step)
    requires Core(u.s) && ServesOk(u) && OpenOk(u) && Enabled(u, step) && (step.Enter? ==> Harmless(u))
    ensures OpenOk(Apply(u, step))
  {
    hide S.Apply;
    var t := Apply(u, step);
    forall i | 0 <= i < |t.s.handlers| && t.s.handlers[i].answered.None?
      ensures t.s.handlers[i].conn == t.s.conn && LastRuns(t.serves)
    {
      if i < |u.s.handlers| {
        HandlerOn(u, step, i);
        OpenStays(u, step, i);
      } else {
        OpenNew(u, step, i);
      }
    }
  }

  /** A Serve with an open request does not return. */
  lemma OpenStays(u: State, step: Step, i: nat)
    requires Core(u.s) && ServesOk(u) && OpenOk(u) && Enabled(u, step) && (step.Enter? ==> Harmless(u))
    requires i < |u.s.handlers| && u.s.handlers[i].answered.None?
    ensures var t := Apply(u, step);
            u.s.handlers[i].conn == t.s.conn && LastRuns(t.serves)
  {
    hide S.Apply;
    assert LastRuns(u.serves) && u.s.handlers[i].conn == u.s.conn;
    if step.Exit? { StillServing(u, i, step.k); }
    LastRunsOn(u, step);
  }

  lemma LastRunsOn(u: State, step: Step)
    requires Enabled(u, step) && !step.Enter? && LastRuns(u.serves) && (step.Exit? ==> step.k != |u.serves| - 1)
    ensures var t := Apply(u, step); t.s.conn == u.s.conn && LastRuns(t.serves)
  {
    hide Advance;
    match step
    case Reader(k, r) =>
    case Work(w) =>
    case _ =>
  }

  lemma StillServing(u: State, i: nat, k: nat)
    requires Core(u.s) && ServesOk(u) && OpenOk(u) && Enabled(u, Exit(k))
    requires i < |u.s.handlers| && u.s.handlers[i].answered.None?
    ensures k != |u.serves| - 1
  {
    assert StageOk(u.s.handlers[i]) && !u.s.handlers[i].pc.Done?;
  }

  /** A new request is of the connection of the last Serve. */
  lemma OpenNew(u: State, step: Step, i: nat)
    requires ServesOk(u) && Enabled(u, step) && |u.s.handlers| <= i < |Apply(u, step).s.handlers|
    ensures var t := Apply(u, step);
            t.s.handlers[i].conn == t.s.conn && LastRuns(t.serves)
  {
    match step
    case Reader(k, r) =>
      S.HandlersFrame(View(u, k, r), r);
      assert k == |u.serves| - 1;
    case Work(w) => S.HandlersFrame(u.s, w);
    case _ =>
  }

  // ----- Lines stay placed -----

  /** Only a request without a response writes. */
  lemma WriterIsOpen(s: S.State, step: S.Step, k: nat)
    requires Core(s) && S.Enabled(s, step) && k < |S.Written(s, step)| && S.Written(s, step)[k].origin.By?
    ensures var line := S.Written(s, step)[k];
            line.conn == s.conn && line.origin.i < |s.handlers| && s.handlers[line.origin.i].answered.None?
  {
    match step
    case Handle(i, choice) =>
    case WriteRequest(c) => assert StageOk(s.handlers[s.rpc.calls[c].owner]);
    case _ =>
  }

  lemma PlacedWork(s: S.State, step: S.Step)
    requires Core(s) && Placed(s) && S.Enabled(s, step)
    requires forall i | 0 <= i < |s.handlers| && s.handlers[i].answered.None? :: s.handlers[i].conn == s.conn
    ensures Placed(S.Apply(s, step))
  {
    var t := S.Apply(s, step);
    S.HandlersFrame(s, step);
    forall k | 0 <= k < |t.out| && t.out[k].origin.By?
      ensures t.out[k].origin.i < |t.handlers| && t.out[k].conn == t.handlers[t.out[k].origin.i].conn
    {
      if k >= |s.out| { WriterIsOpen(s, step, k - |s.out|); }
      HandlerStays(s, step, t.out[k].origin.i);
    }
  }

  lemma PlacedOn(u: State, step: Step)
    requires Core(u.s) && OpenOk(u) && Placed(u.s) && Enabled(u, step)
    ensures Placed(Apply(u, step).s)
  {
    hide S.Apply;
    match step
    case Work(w) => PlacedWork(u.s, w);
    case Reader(k, r) => PlacedReader(u, k, r);
    case _ =>
  }

  lemma PlacedReader(u: State, k: nat, r: S.Step)
    requires Core(u.s) && Placed(u.s) && Enabled(u, Reader(k, r))
    ensures Placed(Apply(u, Reader(k, r)).s)
  {
    var (v, t) := (View(u, k, r), Apply(u, Reader(k, r)).s);
    S.HandlersFrame(v, r);
    forall n | 0 <= n < |t.out| && t.out[n].origin.By?
      ensures t.out[n].origin.i < |t.handlers| && t.out[n].conn == t.handlers[t.out[n].origin.i].conn
    {
      assert n < |u.s.out|;
      HandlerStays(v, r, t.out[n].origin.i);
    }
  }

  lemma GoodOn(u: State, step: Step)
    requires Good(u) && Enabled(u, step) && (step.Enter? ==> Harmless(u))
    ensures Good(Apply(u, step))
  {
    hide S.Apply;
    CoreOn(u, step);
    NamesOn(u, step);
    ServesOn(u, step);
    OpenOn(u, step);
    PlacedOn(u, step);
  }

  lemma {:induction false} GoodRun(u: State, run: seq<Step>)
    requires Good(u) && Valid(u, run) && Careful(u, run)
    ensures Good(After(u, run))
    decreases |run|
  {
    hide S.Apply;
    if run != [] {
      GoodOn(u, run[0]);
      GoodRun(Apply(u, run[0]), run[1..]);
    }
  }

  lemma InitGood()
    ensures Good(Init())
  {
    ST.InitInv();
    InvGivesCore(S.Init());
  }

  // ----- When the lock is needed -----

  ghost predicate NoEnter(run: seq<Step>) {
    forall k | 0 <= k < |run| :: !run[k].Enter?
  }

  lemma {:induction false} NoEnterIsCareful(u: State, run: seq<Step>)
    requires Valid(u, run) && NoEnter(run)
    ensures Careful(u, run)
    decreases |run|
  {
    hide S.Apply;
    if run != [] {
      assert !run[0].Enter?;
      forall k | 0 <= k < |run[1..]| ensures !run[1..][k].Enter? {
        assert run[1..][k] == run[k + 1];
      }
      NoEnterIsCareful(Apply(u, run[0]), run[1..]);
    }
  }

  /** What the Endpoint's lock gives: serving one connection after the other, every handler's lines
      stay on the connection of its request. */
  lemma LockKeepsLinesPlaced(run: seq<Step>)
    requires Valid(Init(), run) && Locked(Init(), run)
    ensures Careful(Init(), run) && Placed(After(Init(), run).s)
  {
    hide S.Apply;
    InitGood();
    LockedIsCareful(Init(), run);
    GoodRun(Init(), run);
  }

  lemma {:induction false} LockedIsCareful(u: State, run: seq<Step>)
    requires Good(u) && Valid(u, run) && Locked(u, run)
    ensures Careful(u, run)
    decreases |run|
  {
    hide S.Apply;
    if run != [] {
      GoodOn(u, run[0]);
      LockedIsCareful(Apply(u, run[0]), run[1..]);
    }
  }

  // ----- Bad runs -----

  /** The k-th line is the response of a request of another connection. */
  predicate StrayAt(s: S.State, k: nat) {
    && k < |s.out| && s.out[k].origin.By? && s.out[k].payload.Respond?
    && s.out[k].origin.i < |s.handlers| && s.out[k].conn != s.handlers[s.out[k].origin.i].conn
  }

  ghost predicate StrayResponse(s: S.State) {
    exists k :: StrayAt(s, k)
  }

  /** A run without a further Serve after which some response is on the wrong connection. */
  ghost predicate Misplaces(u: State, run: seq<Step>) {
    Valid(u, run) && NoEnter(run) && StrayResponse(After(u, run).s)
  }

  lemma MisplacesFirst(u: State, step: Step, rest: seq<Step>)
    requires Enabled(u, step) && !step.Enter? && Misplaces(Apply(u, step), rest)
    ensures Misplaces(u, [step] + rest)
  {
    hide S.Apply;
    assert ([step] + rest)[1..] == rest;
  }

  /** The answer of a request of another connection is misplaced. */
  lemma AnswerIsMisplaced(u: State, i: nat)
    requires i < |u.s.handlers| && u.s.handlers[i].pc.Answering? && u.s.handlers[i].conn != u.s.conn
    ensures Misplaces(u, [Work(S.Handle(i, Go))])
  {
    hide S.Apply;
    AnswersNow(u.s, i);
    var step := Work(S.Handle(i, Go));
    var t := Apply(u, step).s;
    assert StrayAt(t, |u.s.out|);
    MisplacesFirst(u, step, []);
    assert [step] + [] == [step];
  }

  lemma {:induction false} MisplacesLater(u: State, run: seq<S.Step>, rest: seq<Step>) returns (whole: seq<Step>)
    requires S.Valid(u.s, run) && AllInward(run) && Misplaces(u.(s := S.After(u.s, run)), rest)
    ensures Misplaces(u, whole)
    decreases |run|
  {
    hide S.Apply;
    if run == [] {
      whole := rest;
    } else {
      assert Inward(run[0]);
      var step := Work(run[0]);
      assert AllInward(run[1..]);
      var more := MisplacesLater(Apply(u, step), run[1..], rest);
      MisplacesFirst(u, step, more);
      whole := [step] + more;
    }
  }

  /** A request of another connection without a response. */
  lemma OpenMisplaces(u: State, i: nat) returns (run: seq<Step>)
    requires Core(u.s) && i < |u.s.handlers| && u.s.handlers[i].answered.None? && u.s.handlers[i].conn != u.s.conn
    ensures Misplaces(u, run)
  {
    hide *;
    var way := ReachesAnswering(u.s, i);
    var v := u.(s := S.After(u.s, way));
    AnswerIsMisplaced(v, i);
    run := MisplacesLater(u, way, [Work(S.Handle(i, Go))]);
  }

  /** A reader of another connection that goes on reading. */
  ghost predicate Reads(u: State, k: nat) {
    && Core(u.s) && NamesOk(u.s.sh.cancels.active, u.serves, |u.s.handlers|)
    && k < |u.serves| && !Over(u.serves[k].reader) && u.serves[k].conn != u.s.conn
  }

  function ReaderRank(reader: S.Reader): nat {
    match reader
    case LockingCancel(_) => 2
    case Idle => 0
    case _ => 1
  }

  function HandRank(hand: R.Hand): nat {
    match hand
    case Empty => 0
    case Sending(_, _) => 1
    case Holding(_) => 2
  }

  /** A request with an unknown method. */
  const STRAY := Parsed(Message("2.0", NumId(1), "x", BadJson, NullBody))

  /** The reader gets back to its scan loop ... */
  function BackStep(u: State, k: nat): Step
    requires k < |u.serves|
  {
    if u.s.rpc.hand.Holding? then Work(S.Rpc(R.Claim))
    else if u.s.rpc.hand.Sending? then Work(S.Rpc(R.Deliver))
    else match u.serves[k].reader
         case Rejecting(_, _) => Reader(k, S.WriteReject)
         case LockingCancel(_) => Reader(k, S.LockCancel)
         case _ => Reader(k, S.CallCancel)
  }

  function Left(u: State, k: nat): nat
    requires k < |u.serves|
  {
    ReaderRank(u.serves[k].reader) + HandRank(u.s.rpc.hand)
  }

  /** One step on the way back. */
  predicate ComesBack(u: State, t: State, k: nat) {
    && k < |u.serves| && k < |t.serves| && !Over(t.serves[k].reader) && t.serves[k].conn == u.serves[k].conn
    && t.s.conn == u.s.conn && Left(t, k) < Left(u, k)
  }

  lemma HandBack(u: State, k: nat, r: R.Step)
    requires Reads(u, k) && ((u.s.rpc.hand.Holding? && r.Claim?) || (u.s.rpc.hand.Sending? && r.Deliver?))
    ensures Enabled(u, Work(S.Rpc(r))) && ComesBack(u, Apply(u, Work(S.Rpc(r))), k)
  {
    RT.ReadyToSend(u.s.rpc);
    HandRanks(u.s.rpc, r);
  }

  lemma HandRanks(r: R.State, step: R.Step)
    requires R.Enabled(r, step) && ((r.hand.Holding? && step.Claim?) || (r.hand.Sending? && step.Deliver?))
    ensures HandRank(R.Apply(r, step).hand) < HandRank(r.hand)
  {
  }

  lemma BackOn(u: State, k: nat)
    requires Reads(u, k) && !(u.s.rpc.hand.Empty? && u.serves[k].reader.Idle?)
    ensures var step := BackStep(u, k);
            && Enabled(u, step) && !step.Enter? && Reads(Apply(u, step), k) && Left(Apply(u, step), k) < Left(u, k)
  {
    var step := BackStep(u, k);
    if u.s.rpc.hand.Empty? {
    } else {
      HandBack(u, k, step.step.step);
    }
    CoreOn(u, step);
    NamesOn(u, step);
  }

  lemma StraySpawns(u: State, k: nat)
    requires k < |u.serves| && u.serves[k].reader.Idle? && u.s.rpc.hand.Empty?
    ensures var step := Reader(k, S.Read(STRAY));
            && Enabled(u, step)
            && var t := Apply(u, step).s;
               t.handlers == u.s.handlers + [Spawned(u.serves[k].conn, STRAY.msg)] && t.conn == u.s.conn
    ensures Spawned(u.serves[k].conn, STRAY.msg).pc == Answering(Failure(METHOD_NOT_FOUND))
  {
    hide Advance;
    assert !Blank("x") by { assert !IsSpace("x"[0]); }
    assert S.Classify(STRAY) == S.Spawn(STRAY.msg);
  }

  /** ... and reads another request. */
  lemma ReaderMisplaces(u: State, k: nat) returns (run: seq<Step>)
    requires Reads(u, k)
    ensures Misplaces(u, run)
    decreases Left(u, k)
  {
    if u.s.rpc.hand.Empty? && u.serves[k].reader.Idle? {
      var step := Reader(k, S.Read(STRAY));
      var t := Apply(u, step);
      var n := |u.s.handlers|;
      StraySpawns(u, k);
      AnswerIsMisplaced(t, n);
      MisplacesFirst(u, step, [Work(S.Handle(n, Go))]);
      run := [step] + [Work(S.Handle(n, Go))];
    } else {
      BackOn(u, k);
      var rest := ReaderMisplaces(Apply(u, BackStep(u, k)), k);
      MisplacesFirst(u, BackStep(u, k), rest);
      run := [BackStep(u, k)] + rest;
    }
  }

  /** After any careful run: one more call of Serve is harmless, whatever happens afterwards, exactly
      if every earlier Serve has reached the end of its input and every request has its response. */
  lemma SecondServeIsHarmlessExactly(before: seq<Step>)
    requires Valid(Init(), before) && Careful(Init(), before)
    ensures var u := After(Init(), before);
            Harmless(u) <==> forall run | Valid(Apply(u, Enter), run) && NoEnter(run) ::
              Placed(After(Apply(u, Enter), run).s)
  {
    hide S.Apply;
    InitGood();
    GoodRun(Init(), before);
    var u := After(Init(), before);
    var t := Apply(u, Enter);
    if Harmless(u) {
      GoodOn(u, Enter);
      forall run | Valid(t, run) && NoEnter(run) ensures Placed(After(t, run).s) {
        NoEnterIsCareful(t, run);
        GoodRun(t, run);
      }
    } else {
      var run := HarmDone(u);
      assert !Placed((After(t, run).s));
    }
  }

  lemma OpenHarms(u: State, i: nat) returns (run: seq<Step>)
    requires Good(u) && i < |u.s.handlers| && u.s.handlers[i].answered.None?
    ensures Misplaces(Apply(u, Enter), run)
  {
    hide S.Apply;
    CoreOn(u, Enter);
    run := OpenMisplaces(Apply(u, Enter), i);
  }

  lemma ReaderHarms(u: State, k: nat) returns (run: seq<Step>)
    requires Good(u) && k < |u.serves| && !Over(u.serves[k].reader)
    ensures Misplaces(Apply(u, Enter), run)
  {
    hide S.Apply;
    var t := Apply(u, Enter);
    CoreOn(u, Enter);
    NamesOn(u, Enter);
    assert k == |u.serves| - 1 && t.serves[k] == u.serves[k];
    run := ReaderMisplaces(t, k);
  }

  lemma HarmDone(u: State) returns (run: seq<Step>)
    requires Good(u) && !Harmless(u)
    ensures Misplaces(Apply(u, Enter), run)
  {
    hide Apply, Good, Misplaces;
    if i :| 0 <= i < |u.s.handlers| && u.s.handlers[i].answered.None? {
      run := OpenHarms(u, i);
    } else {
      var k :| 0 <= k < |u.serves| && !Over(u.serves[k].reader);
      run := ReaderHarms(u, k);
    }
  }

  lemma TwoEnters(rest: seq<Step>)
    requires Misplaces(Apply(Apply(Init(), Enter), Enter), rest)
    ensures var run := [Enter, Enter] + rest;
            Valid(Init(), run) && run[..2] == [Enter, Enter] && NoEnter(run[2..]) && StrayResponse(After(Init(), run).s)
  {
    hide Apply, StrayResponse;
    var run := [Enter, Enter] + rest;
    assert run[1..] == [Enter] + rest && ([Enter] + rest)[1..] == rest && run[2..] == rest;
    assert Enabled(Init(), Enter) && Enabled(Apply(Init(), Enter), Enter);
    assert Valid(Apply(Init(), Enter), [Enter] + rest);
  }

  /** A Serve that starts while the first is still reading: a response ends up in the wrong output. */
  lemma TwoServesMixOutputs()
    ensures exists run :: Valid(Init(), run) && |run| >= 2 && run[..2] == [Enter, Enter] && NoEnter(run[2..])
                          && StrayResponse(After(Init(), run).s)
  {
    hide Good, Misplaces, StrayResponse;
    var u := Apply(Init(), Enter);
    InitGood();
    GoodOn(Init(), Enter);
    assert !Over(u.serves[0].reader);
    var rest := HarmDone(u);
    TwoEnters(rest);
  }
}
