/** The whole server: the reader loop of Serve, any number of request handlers, their calls to the
    client, and successive connections through one Endpoint. */
module System {
  import opened Text
  import opened Protocol
  import opened Tools
  import opened Cancels
  import opened Turn
  import R = ClientRpc

  datatype Origin = ByReader | By(i: nat)

  /** One written line: the connection whose output got it and the goroutine that wrote it. */
  datatype OutLine = OutLine(conn: nat, origin: Origin, payload: Payload)

  datatype InLine = InLine(conn: nat, line: InputLine)

  /** Where the reader goroutine stands; Stopped means that no Serve is running. */
  datatype Reader = Stopped | Idle | Rejecting(id: Id, code: int)
                  | LockingCancel(sid: string) | CallingCancel(i: nat) | Draining

  /** `conn` numbers the connections; the server's writer belongs to the current one. `inputs` and
      `out` record the lines read and written. */
  datatype State = State(
    conn: nat,
    reader: Reader,
    rpc: R.State,
    sh: Shared,
    handlers: seq<Handler>,
    inputs: seq<InLine>,
    out: seq<OutLine>)

  function Init(): State {
    State(0, Stopped, R.Init(),
          Shared(map[], Caps(false, false, false), Cancels({}, map[]), Live, {}, multiset{}, {}), [], [], [])
  }

  /** What Serve does with a line. */
  datatype Action =
    | Skip
    | Reject(id: Id, code: int)
    | Correlate(rid: Id, body: Body)
    | Spawn(msg: Message)
    | CancelNote(sid: string)

  function Classify(line: InputLine): Action {
    match line
    case BlankLine => Skip
    case Garbage => Reject(NoId, PARSE_ERROR)
    case Parsed(m) =>
      if m.jsonrpc != "2.0" then (if HasId(m.id) then Reject(m.id, INVALID_REQUEST) else Skip)
      else if Blank(m.methodName) then (if HasId(m.id) then Correlate(m.id, m.body) else Skip)
      else if HasId(m.id) then Spawn(m)
      else if m.methodName == "session/cancel" && !m.params.BadJson? then CancelNote(m.params.sessionId)
      else Skip
  }

  datatype Step =
    | Accept
    | Read(line: InputLine)
    | WriteReject
    | LockCancel
    | CallCancel
    | Eof
    | Leave
    | CtxEnds(ctx: Ctx)
    | Handle(i: nat, choice: Choice)
    | StartCall(i: nat)
    | WriteRequest(c: nat)
    | FinishCall(i: nat)
    | Rpc(step: R.Step)

  /** Steps of the correlation that no other part of the server takes part in. */
  predicate Internal(step: R.Step) {
    !step.Begin? && !step.Write? && !step.Arrive?
  }

  predicate AllDone(s: State) {
    forall i | 0 <= i < |s.handlers| :: s.handlers[i].pc.Done?
  }

  predicate InCall(s: State, i: nat, c: nat) {
    i < |s.handlers| && s.handlers[i].pc.ToolCalling? && s.handlers[i].pc.rpc == c && c < |s.rpc.calls|
  }

  predicate Enabled(s: State, step: Step) {
    match step
    case Accept => s.reader.Stopped?
    case Read(_) => s.reader.Idle? && s.rpc.hand.Empty?
    case WriteReject => s.reader.Rejecting?
    case LockCancel => s.reader.LockingCancel?
    case CallCancel => s.reader.CallingCancel? && s.reader.i < |s.handlers|
    case Eof => s.reader.Idle? && s.rpc.hand.Empty?
    case Leave => s.reader.Draining? && AllDone(s)
    case CtxEnds(ctx) => !s.reader.Stopped? && s.sh.serverCtx.Live? && !ctx.Live?
    case Handle(i, choice) => i < |s.handlers| && CanAdvance(s.handlers[i], s.sh, choice)
    case StartCall(i) =>
      i < |s.handlers| && s.handlers[i].pc.ToolGated? && s.handlers[i].pc.gate.Send?
    case WriteRequest(c) => R.Enabled(s.rpc, R.Write(c)) && InCall(s, s.rpc.calls[c].owner, c)
    case FinishCall(i) => i < |s.handlers| && s.handlers[i].pc.ToolCalling? && InCall(s, i, s.handlers[i].pc.rpc)
                          && s.rpc.calls[s.handlers[i].pc.rpc].pc.Finished?
    case Rpc(step) => Internal(step) && R.Enabled(s.rpc, step)
  }

  function Tagged(conn: nat, origin: Origin, emit: seq<Payload>): (lines: seq<OutLine>)
    ensures |lines| == |emit| && forall k | 0 <= k < |emit| :: lines[k] == OutLine(conn, origin, emit[k])
  {
    seq(|emit|, k requires 0 <= k < |emit| => OutLine(conn, origin, emit[k]))
  }

  function ApplyRead(s: State, line: InputLine): State
    requires s.rpc.hand.Empty?
  {
    var s1 := s.(inputs := s.inputs + [InLine(s.conn, line)]);
    match Classify(line)
    case Skip => s1
    case Reject(id, code) => s1.(reader := Rejecting(id, code))
    case Correlate(id, body) => if HasId(id) then s1.(rpc := R.Apply(s.rpc, R.Arrive(id, body))) else s1
    case Spawn(msg) => s1.(handlers := s.handlers + [Spawned(s.conn, msg)])
    case CancelNote(sid) => s1.(reader := LockingCancel(sid))
  }

  function RequestLine(s: State, c: nat): Payload
    requires c < |s.rpc.calls| && InCall(s, s.rpc.calls[c].owner, c)
  {
    Ask(StrId(R.RequestId((c + 1) % R.WORD)), s.handlers[s.rpc.calls[c].owner].pc.request)
  }

  /** The handler after its request has been written. */
  function Asked(h: Handler, line: Payload): Handler
    requires h.pc.ToolCalling?
  {
    h.(pc := ToolCalling(h.pc.tool, h.pc.request, h.pc.rpc, Some(line)), trace := h.trace + [line])
  }

  function CancelContext(h: Handler, sh: Shared): Handler {
    if Effective(h, sh).Live? then h.(ctx := Canceled) else h
  }

  function Called(h: Handler, c: nat): Handler
    requires h.pc.ToolGated? && h.pc.gate.Send?
  {
    h.(pc := ToolCalling(h.pc.tool, h.pc.gate.request, c, None))
  }

  function Returned(h: Handler, exit: R.Exit): Handler
    requires h.pc.ToolCalling?
  {
    h.(pc := ToolClosing(h.pc.tool, h.pc.asked, ToolVerdict(h.pc.tool.name, exit)))
  }

  /** The state after a step; a step that is not enabled changes nothing. */
  function Apply(s: State, step: Step): State {
    if !Enabled(s, step) then s else
    match step
    case Accept => s.(conn := s.conn + 1, reader := Idle, sh := s.sh.(serverCtx := Live))
    case Read(line) => ApplyRead(s, line)
    case WriteReject =>
      s.(reader := Idle,
         out := s.out + Tagged(s.conn, ByReader, [Respond(NormalizeId(s.reader.id), Failure(s.reader.code))]))
    case LockCancel =>
      var (t, cancel) := RaiseFlag(s.sh.cancels, s.reader.sid);
      s.(sh := s.sh.(cancels := t, notices := s.sh.notices + multiset{s.reader.sid}),
         reader := match cancel case Some(i) => CallingCancel(i) case None => Idle)
    case CallCancel =>
      var i := s.reader.i;
      s.(reader := Idle, handlers := s.handlers[i := CancelContext(s.handlers[i], s.sh)])
    case Eof => s.(reader := Draining)
    case Leave => s.(reader := Stopped)
    case CtxEnds(ctx) =>
      s.(sh := s.sh.(serverCtx := ctx,
                     deadConns := if ctx.Canceled? then s.sh.deadConns + {s.conn} else s.sh.deadConns))
    case Handle(i, choice) =>
      var o := Advance(i, s.handlers[i], s.sh, choice);
      s.(sh := o.sh, handlers := s.handlers[i := o.h], out := s.out + Tagged(s.conn, By(i), o.emit))
    case StartCall(i) =>
      s.(rpc := R.Apply(s.rpc, R.Begin(i)), handlers := s.handlers[i := Called(s.handlers[i], |s.rpc.calls|)])
    case WriteRequest(c) =>
      var i := s.rpc.calls[c].owner;
      var line := RequestLine(s, c);
      s.(rpc := R.Apply(s.rpc, R.Write(c)), handlers := s.handlers[i := Asked(s.handlers[i], line)],
         out := s.out + Tagged(s.conn, By(i), [line]))
    case FinishCall(i) =>
      var h := s.handlers[i];
      s.(handlers := s.handlers[i := Returned(h, s.rpc.calls[h.pc.rpc].pc.exit)])
    case Rpc(step) => s.(rpc := R.Apply(s.rpc, step))
  }

  ghost predicate Valid(s: State, run: seq<Step>)
    decreases |run|
  {
    run == [] || (Enabled(s, run[0]) && Valid(Apply(s, run[0]), run[1..]))
  }

  ghost function After(s: State, run: seq<Step>): State
    decreases |run|
  {
    if run == [] then s else After(Apply(s, run[0]), run[1..])
  }

  // ----- The shape of one step -----

  /** The handler a step changes, if any. */
  function Changed(s: State, step: Step): Option<nat> {
    match step
    case CallCancel => if s.reader.CallingCancel? then Some(s.reader.i) else None
    case Handle(i, _) => Some(i)
    case StartCall(i) => Some(i)
    case WriteRequest(c) => if c < |s.rpc.calls| then Some(s.rpc.calls[c].owner) else None
    case FinishCall(i) => Some(i)
    case _ => None
  }

  /** What a step writes, and who writes it. */
  function Written(s: State, step: Step): seq<OutLine> {
    if !Enabled(s, step) then [] else
    match step
    case WriteReject => Tagged(s.conn, ByReader, [Respond(NormalizeId(s.reader.id), Failure(s.reader.code))])
    case Handle(i, choice) => Tagged(s.conn, By(i), Advance(i, s.handlers[i], s.sh, choice).emit)
    case WriteRequest(c) => Tagged(s.conn, By(s.rpc.calls[c].owner), [RequestLine(s, c)])
    case _ => []
  }

  /** A handler's own step is one step of its program. */
  lemma HandleFrame(s: State, i: nat, choice: Choice)
    requires Enabled(s, Handle(i, choice))
    ensures var o := Advance(i, s.handlers[i], s.sh, choice);
            Apply(s, Handle(i, choice))
            == s.(sh := o.sh, handlers := s.handlers[i := o.h], out := s.out + Tagged(s.conn, By(i), o.emit))
  {
    hide Advance;
  }

  /** Handlers are only ever added, and a step changes at most one of them. */
  lemma HandlersFrame(s: State, step: Step)
    requires Enabled(s, step)
    ensures var t := Apply(s, step);
            && |s.handlers| <= |t.handlers| <= |s.handlers| + 1
            && (forall j | 0 <= j < |s.handlers| && Some(j) != Changed(s, step) :: t.handlers[j] == s.handlers[j])
            && (Changed(s, step).Some? ==> Changed(s, step).value < |s.handlers| && |t.handlers| == |s.handlers|)
            && (|t.handlers| > |s.handlers| ==>
                  step.Read? && Classify(step.line).Spawn?
                  && t.handlers == s.handlers + [Spawned(s.conn, Classify(step.line).msg)])
            && t.out == s.out + Written(s, step)
  {
  }
}
