/** The capabilities a prompt announces twice: once as commands, once as configuration flags. */
module Capabilities {
  import opened Protocol
  import opened Turn
  import opened TurnProofs
  import opened System
  import opened SystemInv
  import opened SystemSessions
  import opened SystemTheorems

  // ----- The capabilities of the last initialize -----

  /** The step in which an initialize request stores its capabilities. */
  predicate IsInitialize(s: State, step: Step) {
    step.Handle? && step.i < |s.handlers| && s.handlers[step.i].pc.SettingCaps?
  }

  /** The capabilities of the last initialize of a run, or `caps` if there is none. */
  ghost function LastInitialized(s: State, run: seq<Step>, caps: Caps): Caps
    decreases |run|
  {
    if run == [] then caps
    else
      LastInitialized(Apply(s, run[0]), run[1..],
                      if IsInitialize(s, run[0]) then s.handlers[run[0].i].fields.caps else caps)
  }

  ghost predicate NoInitialize(s: State, run: seq<Step>)
    decreases |run|
  {
    run == [] || (!IsInitialize(s, run[0]) && NoInitialize(Apply(s, run[0]), run[1..]))
  }

  /** The server's capabilities are those of the last initialize. */
  lemma {:induction false} CapsAreTheLast(s: State, run: seq<Step>)
    requires Valid(s, run)
    ensures After(s, run).sh.caps == LastInitialized(s, run, s.sh.caps)
    decreases |run|
  {
    if run != [] {
      CapsAreTheLast(Apply(s, run[0]), run[1..]);
    }
  }

  lemma {:induction false} NoInitializeNoChange(s: State, run: seq<Step>, caps: Caps)
    requires Valid(s, run) && NoInitialize(s, run)
    ensures LastInitialized(s, run, caps) == caps
    decreases |run|
  {
    hide Apply;
    if run != [] { NoInitializeNoChange(Apply(s, run[0]), run[1..], caps); }
  }

  // ----- A prompt reads them twice -----

  /** Points from which a prompt no longer takes its snapshot ... */
  predicate SnapshotOver(h: Handler) {
    h.passed >= 2 || AtStage(h.pc, ModeStage)
    || h.pc.ErrFlag? || h.pc.ErrCtx? || h.pc.Answering? || h.pc.ClearingCancel? || h.pc.Done?
  }

  /** ... nor reads the capabilities for its configuration update. */
  predicate ConfigOver(h: Handler) {
    h.passed >= 4 || AtStage(h.pc, ConfigStage)
    || h.pc.ErrFlag? || h.pc.ErrCtx? || h.pc.Answering? || h.pc.ClearingCancel? || h.pc.Done?
  }

  /** What stays of a prompt past these points. */
  predicate Settled(g: Handler, h: Handler) {
    (SnapshotOver(h) ==> SnapshotOver(g) && g.caps == h.caps && g.snapshot == h.snapshot)
    && (ConfigOver(h) ==> ConfigOver(g) && g.config == h.config)
  }

  lemma SettledAnnounce(h: Handler, sh: Shared)
    requires StageOk(h) && Announcing(h.pc)
    ensures Settled(Announce(h, sh).h, h)
  {
    match h.pc
    case Checking(stage) => {
      match Offer(StageCall(h, stage), Effective(h, sh).Live?)
      case Silent =>
      case Rejected =>
      case Accepted(_) =>
    }
    case _ =>
  }

  lemma SettledAdvance(i: nat, h: Handler, sh: Shared, choice: Choice)
    requires StageOk(h) && CanAdvance(h, sh, choice)
    ensures Settled(Advance(i, h, sh, choice).h, h)
  {
    if BeforeTurn(h.pc) {
    } else if Announcing(h.pc) {
      SettledAnnounce(h, sh);
    } else if InExecutor(h.pc) {
    } else {
    }
  }

  lemma SettledStep(s: State, step: Step, i: nat)
    requires LocalOk(s) && Enabled(s, step) && i < |s.handlers|
    ensures i < |Apply(s, step).handlers| && Settled(Apply(s, step).handlers[i], s.handlers[i])
  {
    HandlersFrame(s, step);
    if step.Handle? {
      assert StageOk(s.handlers[i]);
      if step.i == i { SettledAdvance(i, s.handlers[i], s.sh, step.choice); }
    } else {
      SessionFrame(s, step, i);
    }
  }

  lemma {:induction false} SettledRun(s: State, run: seq<Step>, i: nat)
    requires Inv(s) && Valid(s, run) && i < |s.handlers|
    ensures i < |After(s, run).handlers| && Settled(After(s, run).handlers[i], s.handlers[i])
    decreases |run|
  {
    if run != [] {
      SettledStep(s, run[0], i);
      StepKeepsInv(s, run[0]);
      SettledRun(Apply(s, run[0]), run[1..], i);
    }
  }

  // ----- When the two agree -----

  /** The configuration flags are the capabilities the commands were made from. */
  predicate FlagsAgree(h: Handler) {
    h.config == SessionConfig(h.snapshot, h.caps)
  }

  lemma ConfigTellsCaps(snapshot: Snapshot, a: Caps, b: Caps)
    ensures SessionConfig(snapshot, a) == SessionConfig(snapshot, b) <==> a == b
  {
    var (x, y) := (SessionConfig(snapshot, a), SessionConfig(snapshot, b));
    assert x[2].value.b == a.readFile && x[3].value.b == a.writeFile && x[4].value.b == a.terminal;
    assert y[2].value.b == b.readFile && y[3].value.b == b.writeFile && y[4].value.b == b.terminal;
  }

  lemma TakesSnapshot(s: State, i: nat)
    requires i < |s.handlers| && s.handlers[i].pc.TakingSnapshot?
    ensures Enabled(s, Handle(i, Go))
    ensures var t := Apply(s, Handle(i, Go));
            i < |t.handlers| && t.handlers[i].caps == s.sh.caps == t.sh.caps && SnapshotOver(t.handlers[i])
  {
  }

  lemma ReadsCaps(s: State, i: nat)
    requires i < |s.handlers| && s.handlers[i].pc.ReadingCaps?
    ensures Enabled(s, Handle(i, Go))
    ensures var t := Apply(s, Handle(i, Go));
            i < |t.handlers| && t.handlers[i].caps == s.handlers[i].caps
            && t.handlers[i].snapshot == s.handlers[i].snapshot
            && t.handlers[i].config == SessionConfig(s.handlers[i].snapshot, s.sh.caps) && ConfigOver(t.handlers[i])
  {
  }

  /** A prompt's way through its two readings: `before` leads to the snapshot, `between` from there to the
      second reading, `rest` is anything that follows. */
  ghost predicate ReadsTwice(before: seq<Step>, between: seq<Step>, rest: seq<Step>, i: nat) {
    Valid(Init(), before)
    && var s := After(Init(), before);
       && i < |s.handlers| && s.handlers[i].pc.TakingSnapshot?
       && Enabled(s, Handle(i, Go)) && Valid(Apply(s, Handle(i, Go)), between)
       && var t := After(Apply(s, Handle(i, Go)), between);
          && i < |t.handlers| && t.handlers[i].pc.ReadingCaps?
          && Enabled(t, Handle(i, Go)) && Valid(Apply(t, Handle(i, Go)), rest)
  }

  /** For ever after, the commands come from the capabilities at the snapshot and the flags from those
      of the last initialize before the second reading; so they agree if and only if these are the same,
      in particular if no initialize was handled in between. */
  lemma FlagsAgreeExactly(before: seq<Step>, between: seq<Step>, rest: seq<Step>, i: nat)
    requires ReadsTwice(before, between, rest, i)
    ensures var s := After(Init(), before);
            var s1 := Apply(s, Handle(i, Go));
            var u := After(Apply(After(s1, between), Handle(i, Go)), rest);
            var last := LastInitialized(s1, between, s.sh.caps);
            && s.sh.caps == LastInitialized(Init(), before, Init().sh.caps)
            && i < |u.handlers| && u.handlers[i].caps == s.sh.caps
            && u.handlers[i].config == SessionConfig(u.handlers[i].snapshot, last)
            && (FlagsAgree(u.handlers[i]) <==> last == s.sh.caps)
            && (NoInitialize(s1, between) ==> FlagsAgree(u.handlers[i]))
  {
    Reached(before);
    CapsAreTheLast(Init(), before);
    var s := After(Init(), before);
    var s1 := Apply(s, Handle(i, Go));
    TakesSnapshot(s, i);
    StepKeepsInv(s, Handle(i, Go));
    FlagsFromSnapshot(s1, between, rest, i);
    var u := After(Apply(After(s1, between), Handle(i, Go)), rest);
    ConfigTellsCaps(u.handlers[i].snapshot, LastInitialized(s1, between, s1.sh.caps), s1.sh.caps);
    if NoInitialize(s1, between) { NoInitializeNoChange(s1, between, s1.sh.caps); }
  }

  lemma FlagsFromSnapshot(s1: State, between: seq<Step>, rest: seq<Step>, i: nat)
    requires Inv(s1) && i < |s1.handlers| && SnapshotOver(s1.handlers[i]) && s1.handlers[i].caps == s1.sh.caps
    requires Valid(s1, between) && i < |After(s1, between).handlers| && After(s1, between).handlers[i].pc.ReadingCaps?
    requires Enabled(After(s1, between), Handle(i, Go)) && Valid(Apply(After(s1, between), Handle(i, Go)), rest)
    ensures var u := After(Apply(After(s1, between), Handle(i, Go)), rest);
            i < |u.handlers| && u.handlers[i].caps == s1.sh.caps
            && u.handlers[i].config == SessionConfig(u.handlers[i].snapshot, LastInitialized(s1, between, s1.sh.caps))
  {
    hide *;
    var t := After(s1, between);
    SettledRun(s1, between, i);
    RunKeepsInv(s1, between);
    CapsAreTheLast(s1, between);
    ReadsCaps(t, i);
    FlagsFromReading(t, rest, i);
  }

  lemma FlagsFromReading(t: State, rest: seq<Step>, i: nat)
    requires Inv(t) && i < |t.handlers| && t.handlers[i].pc.ReadingCaps? && SnapshotOver(t.handlers[i])
    requires Enabled(t, Handle(i, Go)) && Valid(Apply(t, Handle(i, Go)), rest)
    ensures var u := After(Apply(t, Handle(i, Go)), rest);
            i < |u.handlers| && u.handlers[i].caps == t.handlers[i].caps
            && u.handlers[i].snapshot == t.handlers[i].snapshot
            && u.handlers[i].config == SessionConfig(t.handlers[i].snapshot, t.sh.caps)
  {
    ReadsCaps(t, i);
    SettledStep(t, Handle(i, Go), i);
    StepKeepsInv(t, Handle(i, Go));
    SettledRun(Apply(t, Handle(i, Go)), rest, i);
  }
}
