/** The invariant of the whole server, continued: sessions and the snapshots prompts take of them. */
module SystemSessions {
  import opened Paths
  import opened Protocol
  import opened Turn
  import opened TurnProofs
  import opened TurnFrames
  import opened System
  import opened SystemInv

  /** What sessions hold is what some session/new or session/load bound to them, and every working
      directory ever bound is absolute. */
  ghost predicate InstalledOk(sh: Shared) {
    && (forall sid | sid in sh.sessions :: (sid, sh.sessions[sid]) in sh.installed)
    && (forall pair | pair in sh.installed :: IsAbs(pair.1.cwd))
  }

  /** Program points of a prompt that has found its session. */
  predicate Turning(pc: PC) {
    pc.FirstCheck? || pc.SettingCancel? || Announcing(pc) || InExecutor(pc)
    || pc.LastCheck? || pc.WritingInfo? || pc.ErrFlag? || pc.ErrCtx?
  }

  predicate AtStage(pc: PC, stage: Stage) {
    pc == Checking(stage) || pc == Writing(stage)
  }

  predicate SnapshotTaken(h: Handler) {
    h.passed >= 2 || AtStage(h.pc, ModeStage)
  }

  predicate ConfigTaken(h: Handler) {
    h.passed >= 4 || AtStage(h.pc, ConfigStage)
  }

  ghost predicate ConfigOf(config: seq<ConfigOption>, snapshot: Snapshot) {
    exists caps: Caps :: config == SessionConfig(snapshot, caps)
  }

  ghost predicate SessionBacked(h: Handler, sh: Shared) {
    && (Turning(h.pc) ==> h.session in sh.sessions)
    && (h.pc.NamingSession? || h.pc.FindingSession? || h.pc.Reinstalling? ==> IsAbs(h.fields.cwd))
    && (SnapshotTaken(h) ==> (h.session, h.snapshot) in sh.installed && h.commands == CommandNames(h.caps))
    && (ConfigTaken(h) ==> ConfigOf(h.config, h.snapshot))
  }

  ghost predicate SessionsOk(s: State) {
    InstalledOk(s.sh) && forall i | 0 <= i < |s.handlers| :: SessionBacked(s.handlers[i], s.sh)
  }

  /** A step that leaves the session data alone and moves to no point that promises more. */
  predicate Keeps(g: Handler, h: Handler) {
    && g.session == h.session && g.snapshot == h.snapshot && g.commands == h.commands && g.caps == h.caps
       && g.config == h.config
    && (Turning(g.pc) ==> Turning(h.pc))
    && !g.pc.NamingSession? && !g.pc.FindingSession? && !g.pc.Reinstalling?
    && (SnapshotTaken(g) ==> SnapshotTaken(h)) && (ConfigTaken(g) ==> ConfigTaken(h))
  }

  lemma KeepsBacked(g: Handler, h: Handler, sh: Shared, sh': Shared)
    requires SessionBacked(h, sh) && Keeps(g, h) && sh'.sessions == sh.sessions && sh'.installed == sh.installed
    ensures SessionBacked(g, sh')
  {
  }

  lemma BeginBacked(i: nat, h: Handler, sh: Shared, choice: Choice)
    requires StageOk(h) && SessionBacked(h, sh) && InstalledOk(sh) && BeforeTurn(h.pc) && CanAdvance(h, sh, choice)
    ensures var o := Begin(i, h, sh, choice); SessionBacked(o.h, o.sh) && InstalledOk(o.sh)
  {
    hide Apply;
    BeginInstalls(i, h, sh, choice);
    var o := Begin(i, h, sh, choice);
    assert o.h.passed == 0 && !SnapshotTaken(o.h) && !ConfigTaken(o.h);
    match h.pc
    case LookingUp => if h.session !in sh.sessions || h.fields.prompt == [] {} else {}
    case FirstCheck => if h.session in sh.cancels.flags {} else {}
    case _ =>
  }

  lemma BeginInstalls(i: nat, h: Handler, sh: Shared, choice: Choice)
    requires SessionBacked(h, sh) && InstalledOk(sh) && BeforeTurn(h.pc) && CanAdvance(h, sh, choice)
    ensures InstalledOk(Begin(i, h, sh, choice).sh)
  {
    BeginFrame(i, h, sh, choice);
  }

  lemma AnnounceBacked(h: Handler, sh: Shared)
    requires StageOk(h) && SessionBacked(h, sh) && InstalledOk(sh) && Announcing(h.pc)
    ensures SessionBacked(Announce(h, sh).h, sh)
  {
    match h.pc
    case Checking(stage) => CheckBacked(h, sh, stage);
    case Writing(stage) =>
    case TakingSnapshot =>
    case ReadingCaps => assert Announce(h, sh).h.config == SessionConfig(h.snapshot, sh.caps);
  }

  lemma CheckBacked(h: Handler, sh: Shared, stage: Stage)
    requires StageOk(h) && SessionBacked(h, sh) && h.pc == Checking(stage)
    ensures SessionBacked(CheckStage(h, sh, stage), sh)
  {
    match Offer(StageCall(h, stage), Effective(h, sh).Live?)
    case Silent => KeepsBacked(CheckStage(h, sh, stage), h, sh, sh);
    case Rejected => KeepsBacked(CheckStage(h, sh, stage), h, sh, sh);
    case Accepted(_) => KeepsBacked(CheckStage(h, sh, stage), h, sh, sh);
  }

  lemma FinishKeeps(h: Handler, sh: Shared)
    requires StageOk(h) && !BeforeTurn(h.pc) && !Announcing(h.pc) && !InExecutor(h.pc)
    ensures Keeps(Finish(h, sh).h, h)
  {
    hide Apply;
    match h.pc
    case LastCheck => if h.session in sh.cancels.flags {} else {}
    case ErrFlag => if h.session in sh.cancels.flags {} else {}
    case ErrCtx => if Effective(h, sh).Canceled? {} else {}
    case Answering(_) => if h.marks.registered {} else {}
    case _ =>
  }

  lemma FinishBacked(h: Handler, sh: Shared)
    requires StageOk(h) && SessionBacked(h, sh) && !BeforeTurn(h.pc) && !Announcing(h.pc) && !InExecutor(h.pc)
    ensures SessionBacked(Finish(h, sh).h, Finish(h, sh).sh)
  {
    FinishKeeps(h, sh);
    FinishFrame(0, h, sh);
    KeepsBacked(Finish(h, sh).h, h, sh, Finish(h, sh).sh);
  }

  lemma AdvanceBacked(i: nat, h: Handler, sh: Shared, choice: Choice)
    requires StageOk(h) && SessionBacked(h, sh) && InstalledOk(sh) && CanAdvance(h, sh, choice)
    ensures var o := Advance(i, h, sh, choice); SessionBacked(o.h, o.sh) && InstalledOk(o.sh)
  {
    AdvanceFrame(i, h, sh, choice);
    if BeforeTurn(h.pc) { BeginBacked(i, h, sh, choice); }
    else if Announcing(h.pc) { AnnounceBacked(h, sh); }
    else if InExecutor(h.pc) {}
    else { FinishBacked(h, sh); }
  }

  lemma SpawnedBacked(conn: nat, msg: Message, sh: Shared)
    ensures SessionBacked(Spawned(conn, msg), sh)
  {
    EntryPoint(msg.methodName, msg.params);
  }

  /** The parts of a handler that its session's invariant depends on, under any other step. */
  predicate SameSession(g: Handler, h: Handler) {
    && g.session == h.session && g.fields == h.fields && g.snapshot == h.snapshot && g.passed == h.passed
    && g.commands == h.commands && g.caps == h.caps && g.config == h.config
    && (g.pc == h.pc || (InExecutor(g.pc) && InExecutor(h.pc)))
  }

  lemma SameSessionOk(g: Handler, h: Handler, sh: Shared)
    requires SessionBacked(h, sh) && SameSession(g, h)
    ensures SessionBacked(g, sh)
  {
  }

  lemma SessionFrame(s: State, step: Step, i: nat)
    requires Enabled(s, step) && !step.Handle? && i < |s.handlers|
    ensures i < |Apply(s, step).handlers| && SameSession(Apply(s, step).handlers[i], s.handlers[i])
    ensures Apply(s, step).sh.sessions == s.sh.sessions && Apply(s, step).sh.installed == s.sh.installed
  {
    HandlersFrame(s, step);
    match step
    case CallCancel =>
    case StartCall(_) =>
    case WriteRequest(_) =>
    case FinishCall(_) =>
    case _ =>
  }

  lemma SessionAt(s: State, step: Step, i: nat)
    requires SessionsOk(s) && LocalOk(s) && Enabled(s, step) && i < |Apply(s, step).handlers|
    ensures SessionBacked(Apply(s, step).handlers[i], Apply(s, step).sh)
  {
    var t := Apply(s, step);
    HandlersFrame(s, step);
    if i == |s.handlers| {
      SpawnedBacked(s.conn, Classify(step.line).msg, t.sh);
    } else if step.Handle? {
      var j := step.i;
      AdvanceFrame(j, s.handlers[j], s.sh, step.choice);
      if i == j {
        assert LocalInv(s.handlers[i]);
        AdvanceBacked(i, s.handlers[i], s.sh, step.choice);
      } else {
      }
    } else {
      SessionFrame(s, step, i);
      SameSessionOk(t.handlers[i], s.handlers[i], s.sh);
    }
  }

  lemma InstalledStep(s: State, step: Step)
    requires SessionsOk(s) && LocalOk(s) && Enabled(s, step)
    ensures InstalledOk(Apply(s, step).sh)
  {
    if step.Handle? {
      var h := s.handlers[step.i];
      assert LocalInv(h) && SessionBacked(h, s.sh);
      AdvanceBacked(step.i, h, s.sh, step.choice);
    } else {
      assert Apply(s, step).sh.sessions == s.sh.sessions && Apply(s, step).sh.installed == s.sh.installed;
    }
  }

  lemma SessionsStep(s: State, step: Step)
    requires SessionsOk(s) && LocalOk(s) && Enabled(s, step)
    ensures SessionsOk(Apply(s, step))
  {
    hide Apply;
    var t := Apply(s, step);
    InstalledStep(s, step);
    forall i | 0 <= i < |t.handlers| ensures SessionBacked(t.handlers[i], t.sh) {
      SessionAt(s, step, i);
    }
  }
}
