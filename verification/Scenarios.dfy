/** Concrete runs: the situations in which a natural expectation fails do come about. */
module Scenarios {
  import opened Text
  import opened Protocol
  import opened Cancels
  import opened Turn
  import opened System
  import opened SystemSessions
  import opened SystemTheorems
  import opened SystemCancel
  import opened Continuations
  import opened CancelExact
  import opened Capabilities

  const NO_CAPS := Caps(false, false, false)
  const ALL_CAPS := Caps(true, true, true)

  /** The one session of these runs, and what its requests look like. The prompt's only block is an image. */
  const SID := "s"

  function RequestMessage(n: int, methodName: string, caps: Caps): Message {
    Message("2.0", NumId(n), methodName, Params(SID, "/", [], [Block("image", "")], caps, ""), NullBody)
  }

  function Cancel(): Message {
    RequestMessage(0, "session/cancel", NO_CAPS).(id := NoId)
  }

  lemma Methods()
    ensures MethodOf("session/new").NewSession? && MethodOf("session/load").LoadSession?
    ensures MethodOf("session/prompt").Prompt? && MethodOf("initialize").Initialize?
  {
    assert |"initialize"| == 10 && |"authenticate"| == 12 && |"session/new"| == 11 && |"session/load"| == 12;
    assert |"session/list"| == 12 && |"session/prompt"| == 14;
    assert "session/load"[0] != "authenticate"[0] && "session/load"[9] != "session/list"[9];
  }

  lemma NotBlankMethods()
    ensures !Blank("session/new") && !Blank("session/load") && !Blank("session/prompt") && !Blank("initialize")
    ensures !Blank("session/cancel")
  {
    assert !IsSpace("session/new"[0]) && !IsSpace("session/load"[0]) && !IsSpace("session/prompt"[0]);
    assert !IsSpace("initialize"[0]) && !IsSpace("session/cancel"[0]);
  }

  // ----- Reading -----

  predicate Listening(s: State) {
    s.reader.Idle? && s.rpc.hand.Empty?
  }

  lemma Reads(s: State, m: Message)
    requires Listening(s) && m.jsonrpc == "2.0" && HasId(m.id) && !Blank(m.methodName)
    ensures Enabled(s, Read(Parsed(m)))
    ensures var t := Apply(s, Read(Parsed(m)));
            t.handlers == s.handlers + [Spawned(s.conn, m)] && t.sh == s.sh && t.reader == s.reader && t.rpc == s.rpc
            && t.conn == s.conn && t.out == s.out
  {
    hide Advance;
    assert Classify(Parsed(m)) == Spawn(m);
  }

  lemma ReadsCancel(s: State)
    requires Listening(s)
    ensures Enabled(s, Read(Parsed(Cancel())))
    ensures var t := Apply(s, Read(Parsed(Cancel())));
            t.handlers == s.handlers && t.sh == s.sh && t.reader == LockingCancel(SID)
  {
    hide Advance;
    NotBlankMethods();
    assert Classify(Parsed(Cancel())) == CancelNote(SID);
  }

  // ----- A session is opened -----

  /** A connection on which the session exists and nothing else is known or under way. */
  predicate Opened(s: State) {
    && Listening(s) && s.sh.sessions == map[SID := Snapshot("/", [])] && s.sh.serverCtx.Live?
    && s.sh.cancels == Cancels({}, map[]) && s.sh.caps == NO_CAPS
    && |s.handlers| == 1 && s.handlers[0].answered.Some?
  }

  lemma Connects()
    ensures Enabled(Init(), Accept)
    ensures var t := Apply(Init(), Accept);
            Listening(t) && t.handlers == [] && t.sh == Init().sh && t.conn == 1
  {
  }

  lemma Names(s: State)
    requires Listening(s) && |s.handlers| == 1 && s.handlers[0].pc.NamingSession? && s.sh == Init().sh
    requires s.handlers[0].fields.cwd == "/" && s.handlers[0].fields.mcp == [] && !s.handlers[0].marks.registered
    ensures Enabled(s, Handle(0, Name(SID)))
    ensures var t := Apply(s, Handle(0, Name(SID)));
            && Listening(t) && |t.handlers| == 1 && t.handlers[0].pc.ClearingFlag? && t.handlers[0].session == SID
            && !t.handlers[0].marks.registered
            && t.sh == Init().sh.(sessions := map[SID := Snapshot("/", [])], installed := {(SID, Snapshot("/", []))})
  {
    var t := Apply(s, Handle(0, Name(SID)));
    assert {} + {(SID, Snapshot("/", []))} == {(SID, Snapshot("/", []))};
  }

  lemma AnswersNew(s: State)
    requires Listening(s) && |s.handlers| == 1 && s.handlers[0].pc.ClearingFlag? && !s.handlers[0].marks.registered
    requires s.sh == Init().sh.(sessions := map[SID := Snapshot("/", [])], installed := {(SID, Snapshot("/", []))})
    ensures Enabled(s, Handle(0, Go))
    ensures Enabled(Apply(s, Handle(0, Go)), Handle(0, Go))
    ensures Opened(Apply(Apply(s, Handle(0, Go)), Handle(0, Go)))
  {
    var t := Apply(s, Handle(0, Go));
    assert t.sh.cancels.flags == {};
  }

  /** The session can be opened. */
  lemma Opening() returns (run: seq<Step>)
    ensures Valid(Init(), run) && Opened(After(Init(), run))
  {
    hide Apply;
    var m := RequestMessage(1, "session/new", NO_CAPS);
    NotBlankMethods();
    Connects();
    RunThen(Init(), [], Accept);
    run := [] + [Accept];
    Reads(After(Init(), run), m);
    RunThen(Init(), run, Read(Parsed(m)));
    run := run + [Read(Parsed(m))];
    Names(After(Init(), run));
    RunThen(Init(), run, Handle(0, Name(SID)));
    run := run + [Handle(0, Name(SID))];
    AnswersNew(After(Init(), run));
    RunThen(Init(), run, Handle(0, Go));
    run := run + [Handle(0, Go)];
    RunThen(Init(), run, Handle(0, Go));
    run := run + [Handle(0, Go)];
  }

  // ----- Cancels that miss their prompt -----

  /** After `before`, the cancel of prompt i is about to be handled while i still has a look at the flag
      ahead; after `run`, i has been answered `end_turn` all the same. */
  ghost predicate CancelMisses(before: seq<Step>, run: seq<Step>, i: nat) {
    Valid(Init(), before)
    && var s := After(Init(), before);
       && i < |s.handlers| && BeforeLastLook(s.handlers[i].pc) && s.reader == LockingCancel(s.handlers[i].session)
       && Valid(Apply(s, LockCancel), run)
       && var t := After(Apply(s, LockCancel), run);
          i < |t.handlers| && t.handlers[i].answered == Some(Stop(EndTurn))
  }

  predicate FreshPrompt(h: Handler) {
    h.pc.LookingUp? && h.session == SID && h.fields.prompt != [] && h.ctx.Live? && Blank(h.text)
      && !h.marks.chunkEmitted
  }

  lemma PromptRequest(conn: nat, n: int)
    ensures FreshPrompt(Spawned(conn, RequestMessage(n, "session/prompt", NO_CAPS)))
  {
    hide Apply;
    Methods();
    var blocks := [Block("image", "")];
    assert blocks[1..] == [];
    assert "image" != "text" by { assert |"image"| != |"text"|; }
    assert PromptLines(blocks) == TextLine(blocks[0]) + PromptLines(blocks[1..]) == [];
  }

  lemma LoadRequest(conn: nat, n: int)
    ensures var h := Spawned(conn, RequestMessage(n, "session/load", NO_CAPS)); h.pc.FindingSession? && h.session == SID
  {
    Methods();
    assert !IsSpace(SID[0]) && !IsSpace("/"[0]);
    TrimRooted(SID);
  }

  /** A prompt past its lookup, a second request on the session, and a cancel being handled. */
  predicate Contested(s: State) {
    && |s.handlers| == 3 && s.reader == LockingCancel(SID) && SID in s.sh.sessions && s.sh.serverCtx.Live?
    && s.handlers[1].session == s.handlers[2].session == SID
    && s.handlers[1].pc.FirstCheck? && s.handlers[1].ctx.Live?
  }

  /** Two requests have been read. */
  predicate BothRead(s: State, methodName: string) {
    && Listening(s) && |s.handlers| == 3 && SID in s.sh.sessions && s.sh.serverCtx.Live?
    && s.handlers[1].session == s.handlers[2].session == SID
    && FreshPrompt(s.handlers[1])
    && s.handlers[2].pc == (if methodName == "session/prompt" then LookingUp else FindingSession)
    && (methodName == "session/prompt" ==> s.handlers[2].fields.prompt != [])
  }

  /** One prompt has been read. */
  predicate OneRead(s: State) {
    && Listening(s) && |s.handlers| == 2 && SID in s.sh.sessions && s.sh.serverCtx.Live?
    && FreshPrompt(s.handlers[1])
  }

  lemma OneRequest() returns (run: seq<Step>)
    ensures Valid(Init(), run) && OneRead(After(Init(), run))
  {
    hide Apply;
    var first := RequestMessage(2, "session/prompt", NO_CAPS);
    NotBlankMethods();
    run := Opening();
    var s := After(Init(), run);
    PromptRequest(s.conn, 2);
    Reads(s, first);
    RunThen(Init(), run, Read(Parsed(first)));
    run := run + [Read(Parsed(first))];
  }

  /** The second request is a prompt or a load, as `methodName` says. */
  lemma TwoRequests(methodName: string) returns (run: seq<Step>)
    requires methodName == "session/prompt" || methodName == "session/load"
    ensures Valid(Init(), run) && BothRead(After(Init(), run), methodName)
  {
    hide Apply;
    var second := RequestMessage(3, methodName, NO_CAPS);
    NotBlankMethods();
    run := OneRequest();
    var s := After(Init(), run);
    SecondRequest(s.conn, methodName);
    Reads(s, second);
    RunThen(Init(), run, Read(Parsed(second)));
    run := run + [Read(Parsed(second))];
  }

  lemma Contest(methodName: string) returns (run: seq<Step>)
    requires methodName == "session/prompt" || methodName == "session/load"
    ensures Valid(Init(), run) && Contested(After(Init(), run))
    ensures After(Init(), run).handlers[2].pc
            == if methodName == "session/prompt" then LookingUp else FindingSession
    ensures methodName == "session/prompt" ==> After(Init(), run).handlers[2].fields.prompt != []
  {
    run := TwoRequests(methodName);
    var s1 := After(Init(), run);
    RunThen(Init(), run, Handle(1, Go));
    run := run + [Handle(1, Go)];
    var s2 := After(Init(), run);
    ReadsCancel(s2);
    RunThen(Init(), run, Read(Parsed(Cancel())));
    run := run + [Read(Parsed(Cancel()))];
  }

  lemma SecondRequest(conn: nat, methodName: string)
    requires methodName == "session/prompt" || methodName == "session/load"
    ensures var h := Spawned(conn, RequestMessage(3, methodName, NO_CAPS));
            h.session == SID && h.fields.prompt != []
            && h.pc == if methodName == "session/prompt" then LookingUp else FindingSession
  {
    PromptRequest(conn, 3);
    LoadRequest(conn, 3);
    assert |"session/prompt"| != |"session/load"|;
  }

  lemma ContestedIsLost(before: seq<Step>) returns (run: seq<Step>)
    requires Valid(Init(), before) && Contested(After(Init(), before))
    requires Taker(After(Init(), before).handlers[2], After(Init(), before).sh)
    ensures CancelMisses(before, run, 1)
  {
    Reached(before);
    InvGivesCore(After(Init(), before));
    run := TakerWins(After(Init(), before), 1, 2);
  }

  /** A second prompt on the session can take the flag: a run in which a cancel handled right after the
      first prompt's lookup leaves that prompt with `end_turn`. */
  lemma SecondPromptTakesTheCancel()
    ensures exists before, run ::
              CancelMisses(before, run, 1) && Contested(After(Init(), before))
              && After(Init(), before).handlers[2].pc.LookingUp?
  {
    hide *;
    var before := Contest("session/prompt");
    var run := ContestedIsLost(before);
  }

  /** So can a session/load, by clearing it. */
  lemma LoadClearsTheCancel()
    ensures exists before, run ::
              CancelMisses(before, run, 1) && Contested(After(Init(), before))
              && After(Init(), before).handlers[2].pc.FindingSession?
  {
    hide *;
    var before := Contest("session/load");
    assert |"session/prompt"| != |"session/load"|;
    var run := ContestedIsLost(before);
  }

  // ----- Flags that disagree with the commands -----

  /** Points of a prompt on its way to the second reading of the capabilities, none of which have
      changed since the first. */
  predicate OnTheWay(h: Handler, sh: Shared) {
    && Effective(h, sh).Live? && h.session in sh.sessions && h.session !in sh.cancels.flags
    && ((h.pc.LookingUp? && h.fields.prompt != []) || h.pc.FirstCheck? || h.pc.SettingCancel?
        || AtStage(h.pc, UserStage) || h.pc.TakingSnapshot?
        || ((AtStage(h.pc, ModeStage) || AtStage(h.pc, CommandsStage) || h.pc.ReadingCaps?) && h.caps == sh.caps))
  }

  lemma WayAnnounces(h: Handler, sh: Shared)
    requires OnTheWay(h, sh) && Announcing(h.pc) && !h.pc.ReadingCaps?
    ensures OnTheWay(Announce(h, sh).h, sh) && Announce(h, sh).sh == sh
  {
    match h.pc
    case Checking(stage) => {
      assert !Blank("default") by { assert !IsSpace("default"[0]); }
      match Offer(StageCall(h, stage), true)
      case Silent =>
      case Accepted(_) =>
    }
    case _ =>
  }

  lemma WayGoesOn(i: nat, h: Handler, sh: Shared, calls: nat)
    requires OnTheWay(h, sh) && !h.pc.ReadingCaps? && CanMove(h, sh, Fail)
    ensures var m := Moved(i, h, sh, Fail, calls); OnTheWay(m.0, m.1) && m.1.caps == sh.caps
  {
    if Announcing(h.pc) { WayAnnounces(h, sh); }
  }

  lemma ReachesReading(s: State, i: nat) returns (run: seq<Step>)
    requires Core(s) && i < |s.handlers| && OnTheWay(s.handlers[i], s.sh)
    ensures OwnRun(s, run, i)
    ensures var t := After(s, run);
            t.handlers[i].pc.ReadingCaps? && t.handlers[i].caps == t.sh.caps == s.sh.caps
    decreases PointRank(s.handlers[i].pc)
  {
    hide Apply, Core;
    if s.handlers[i].pc.ReadingCaps? {
      NoRun(s, i);
      run := [];
    } else {
      WayGoesOn(i, s.handlers[i], s.sh, |s.rpc.calls|);
      run := MoveRun(s, i, Fail);
      var rest := ReachesReading(After(s, run), i);
      JoinRuns(s, run, rest, i);
      run := run + rest;
    }
  }

  /** A prompt about to read the capabilities again, and an initialize about to change them. */
  predicate AboutToDiffer(s: State) {
    && |s.handlers| == 3 && s.handlers[1].pc.ReadingCaps? && s.handlers[1].caps == NO_CAPS
    && s.handlers[2].pc.SettingCaps? && s.handlers[2].fields.caps == ALL_CAPS
  }

  lemma PromptAndInitialize() returns (run: seq<Step>)
    ensures Valid(Init(), run)
    ensures var s := After(Init(), run);
            && |s.handlers| == 3 && OnTheWay(s.handlers[1], s.sh) && s.sh.caps == NO_CAPS
            && s.handlers[2].pc.SettingCaps? && s.handlers[2].fields.caps == ALL_CAPS
  {
    hide Apply;
    var (prompt, initialize) :=
      (RequestMessage(2, "session/prompt", NO_CAPS), RequestMessage(3, "initialize", ALL_CAPS));
    NotBlankMethods();
    Methods();
    run := Opening();
    PromptRequest(After(Init(), run).conn, 2);
    Reads(After(Init(), run), prompt);
    RunThen(Init(), run, Read(Parsed(prompt)));
    run := run + [Read(Parsed(prompt))];
    Reads(After(Init(), run), initialize);
    RunThen(Init(), run, Read(Parsed(initialize)));
    run := run + [Read(Parsed(initialize))];
  }

  lemma ComesToDiffer() returns (run: seq<Step>)
    ensures Valid(Init(), run) && AboutToDiffer(After(Init(), run))
  {
    var first := PromptAndInitialize();
    Reached(first);
    InvGivesCore(After(Init(), first));
    var way := ReachesReading(After(Init(), first), 1);
    RunConcat(Init(), first, way);
    run := first + way;
  }

  /** An initialize handled between a prompt's two readings can make its flags contradict its commands:
      there is a run after which the commands are those of no capability and the flags say all. */
  lemma ConfigFlagsCanDisagree()
    ensures exists run ::
              Valid(Init(), run) && |After(Init(), run).handlers| == 3
              && ConfigOver(After(Init(), run).handlers[1]) && !FlagsAgree(After(Init(), run).handlers[1])
  {
    var before := ComesToDiffer();
    RunThen(Init(), before, Handle(2, Go));
    RunThen(Init(), before + [Handle(2, Go)], Handle(1, Go));
    var run := before + [Handle(2, Go)] + [Handle(1, Go)];
    assert Valid(Init(), run);
  }
}
