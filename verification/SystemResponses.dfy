/** The invariant of the whole server, continued: responses written, owed and demanded. */
module SystemResponses {
  import opened Text
  import opened Protocol
  import opened Turn
  import opened TurnFrames
  import opened System
  import opened SystemInv
  import opened SystemTables

  /** The responses JSON-RPC asks for in answer to one line: one with a null id for a line that does
      not parse, one for each message with an id that is a request or has the wrong version, and none
      for notifications, responses and blank lines. */
  function Demands(line: InputLine, id: Id): nat {
    match line
    case BlankLine => 0
    case Garbage => if id == NULL_ID then 1 else 0
    case Parsed(m) => if HasId(m.id) && (m.jsonrpc != "2.0" || !Blank(m.methodName)) && m.id == id then 1 else 0
  }

  /** How often the lines read from a connection demand a response with this id. */
  ghost function Demanded(inputs: seq<InLine>, conn: nat, id: Id): nat {
    if inputs == [] then 0
    else
      var n := |inputs| - 1;
      Demanded(inputs[..n], conn, id) + (if inputs[n].conn == conn then Demands(inputs[n].line, id) else 0)
  }

  predicate IsAnswer(line: OutLine, conn: nat, id: Id) {
    line.conn == conn && line.payload.Respond? && line.payload.id == id
  }

  /** How often a response with this id has been written to the output of a connection. */
  ghost function Answers(out: seq<OutLine>, conn: nat, id: Id): nat {
    if out == [] then 0
    else
      var n := |out| - 1;
      Answers(out[..n], conn, id) + (if IsAnswer(out[n], conn, id) then 1 else 0)
  }

  predicate Owes(h: Handler, conn: nat, id: Id) {
    h.conn == conn && h.answered.None? && NormalizeId(h.id) == id
  }

  /** How many handlers still have to answer with this id. */
  ghost function Owed(handlers: seq<Handler>, conn: nat, id: Id): nat {
    if handlers == [] then 0
    else
      var n := |handlers| - 1;
      Owed(handlers[..n], conn, id) + (if Owes(handlers[n], conn, id) then 1 else 0)
  }

  function ReaderOwes(s: State, conn: nat, id: Id): nat {
    if s.reader.Rejecting? && s.conn == conn && NormalizeId(s.reader.id) == id then 1 else 0
  }

  /** On a connection: answered, owed by handlers and owed by the reader make up the demand. */
  ghost predicate Balanced(s: State, conn: nat, id: Id) {
    Answers(s.out, conn, id) + Owed(s.handlers, conn, id) + ReaderOwes(s, conn, id) == Demanded(s.inputs, conn, id)
  }

  ghost predicate ResponsesOk(s: State) {
    forall conn: nat, id: Id :: Balanced(s, conn, id)
  }

  lemma {:induction false} OwedUpdate(handlers: seq<Handler>, i: nat, h: Handler, conn: nat, id: Id)
    requires i < |handlers|
    ensures Owed(handlers[i := h], conn, id)
            == Owed(handlers, conn, id) - (if Owes(handlers[i], conn, id) then 1 else 0)
            + (if Owes(h, conn, id) then 1 else 0)
  {
    var n := |handlers| - 1;
    if i == n {
      assert handlers[i := h][..n] == handlers[..n];
    } else {
      assert handlers[i := h][..n] == handlers[..n][i := h];
      OwedUpdate(handlers[..n], i, h, conn, id);
    }
  }

  lemma EmitBalance(out: seq<OutLine>, at: nat, origin: Origin, emit: seq<Payload>, conn: nat, id: Id)
    requires |emit| <= 1
    ensures Answers(out + Tagged(at, origin, emit), conn, id) == Answers(out, conn, id)
            + (if emit != [] && IsAnswer(OutLine(at, origin, emit[0]), conn, id) then 1 else 0)
  {
    if emit == [] {
      assert out + Tagged(at, origin, emit) == out;
    } else {
      assert Tagged(at, origin, emit) == [OutLine(at, origin, emit[0])];
    }
  }

  /** Serve's dispatch creates exactly the obligations a line demands. */
  lemma DispatchMeetsDemand(line: InputLine, id: Id)
    ensures Demands(line, id)
            == match Classify(line)
               case Spawn(msg) => (if NormalizeId(msg.id) == id then 1 else 0)
               case Reject(rid, _) => (if NormalizeId(rid) == id then 1 else 0)
               case _ => 0
  {
  }

  /** What reading a line does to the books, in terms of the action it is classified as. */
  ghost predicate ReadEntry(s: State, t: State, line: InputLine, action: Action) {
    && t.conn == s.conn && t.out == s.out && t.inputs == s.inputs + [InLine(s.conn, line)]
    && match action
       case Spawn(msg) => t.handlers == s.handlers + [Spawned(s.conn, msg)] && !t.reader.Rejecting?
       case Reject(rid, code) => t.handlers == s.handlers && t.reader == Rejecting(rid, code)
       case _ => t.handlers == s.handlers && !t.reader.Rejecting?
  }

  lemma EntryBalance(s: State, t: State, line: InputLine, action: Action, conn: nat, id: Id)
    requires Balanced(s, conn, id) && !s.reader.Rejecting? && ReadEntry(s, t, line, action)
    requires Demands(line, id) == match action
                                  case Spawn(msg) => (if NormalizeId(msg.id) == id then 1 else 0)
                                  case Reject(rid, _) => (if NormalizeId(rid) == id then 1 else 0)
                                  case _ => 0
    ensures Balanced(t, conn, id)
  {
    if action.Spawn? {
      assert Owed(s.handlers + [Spawned(s.conn, action.msg)], conn, id)
          == Owed(s.handlers, conn, id) + (if Owes(Spawned(s.conn, action.msg), conn, id) then 1 else 0);
    }
  }

  lemma ReadBalance(s: State, line: InputLine, conn: nat, id: Id)
    requires Balanced(s, conn, id) && Enabled(s, Read(line))
    ensures Balanced(Apply(s, Read(line)), conn, id)
  {
    hide Advance;
    DispatchMeetsDemand(line, id);
    EntryBalance(s, Apply(s, Read(line)), line, Classify(line), conn, id);
  }

  lemma HandleBalance(s: State, i: nat, choice: Choice, conn: nat, id: Id)
    requires Balanced(s, conn, id) && Enabled(s, Handle(i, choice)) && s.handlers[i].conn == s.conn
    requires s.handlers[i].pc.Answering? ==> s.handlers[i].answered.None?
    ensures Balanced(Apply(s, Handle(i, choice)), conn, id)
  {
    hide Advance;
    var h := s.handlers[i];
    var o := Advance(i, h, s.sh, choice);
    AdvanceFrame(i, h, s.sh, choice);
    OwedUpdate(s.handlers, i, o.h, conn, id);
    EmitBalance(s.out, s.conn, By(i), o.emit, conn, id);
  }

  lemma OtherBalance(s: State, step: Step, conn: nat, id: Id)
    requires Balanced(s, conn, id) && Enabled(s, step) && !step.Read? && !step.WriteReject? && !step.Handle?
    ensures Balanced(Apply(s, step), conn, id)
  {
    OwedStays(s, step, conn, id);
  }

  lemma OwedStays(s: State, step: Step, conn: nat, id: Id)
    requires Enabled(s, step) && !step.Read? && !step.Handle?
    ensures Owed(Apply(s, step).handlers, conn, id) == Owed(s.handlers, conn, id)
  {
    var t := Apply(s, step);
    HandlersFrame(s, step);
    if Changed(s, step).Some? {
      var i := Changed(s, step).value;
      IdentityStays(s, step, i);
      OwedUpdate(s.handlers, i, t.handlers[i], conn, id);
      assert t.handlers == s.handlers[i := t.handlers[i]];
    } else {
      assert t.handlers == s.handlers;
    }
  }

  lemma BalanceStep(s: State, step: Step, conn: nat, id: Id)
    requires Balanced(s, conn, id) && Enabled(s, step)
    requires step.Handle? ==>
               s.handlers[step.i].conn == s.conn
               && (s.handlers[step.i].pc.Answering? ==> s.handlers[step.i].answered.None?)
    ensures Balanced(Apply(s, step), conn, id)
  {
    hide Advance;
    if step.Read? {
      ReadBalance(s, step.line, conn, id);
    } else if step.WriteReject? {
    } else if step.Handle? {
      HandleBalance(s, step.i, step.choice, conn, id);
    } else {
      OtherBalance(s, step, conn, id);
    }
  }

  lemma ResponsesStep(s: State, step: Step)
    requires ResponsesOk(s) && ConnOk(s) && LocalOk(s) && Enabled(s, step)
    ensures ResponsesOk(Apply(s, step))
  {
    hide Apply;
    if step.Handle? {
      assert s.handlers[step.i].conn == s.conn;
      assert s.handlers[step.i].pc.Answering? ==> s.handlers[step.i].answered.None?;
    }
    forall conn: nat, id: Id ensures Balanced(Apply(s, step), conn, id) {
      BalanceStep(s, step, conn, id);
    }
  }

  lemma {:induction false} NothingOwed(handlers: seq<Handler>, conn: nat, id: Id)
    requires forall i | 0 <= i < |handlers| :: handlers[i].conn == conn ==> handlers[i].answered.Some?
    ensures Owed(handlers, conn, id) == 0
  {
    if handlers != [] { NothingOwed(handlers[..|handlers| - 1], conn, id); }
  }
}
