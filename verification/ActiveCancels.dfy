/** Whose cancel function a session's entry is: when exactly a session/cancel reaches a prompt's context. */
module ActiveCancels {
  import opened Turn
  import opened TurnProofs
  import opened TurnFrames
  import opened System
  import opened SystemInv
  import opened SystemTables
  import opened SystemTheorems

  /** The session's entry in activeCancels is the one of prompt i. */
  predicate Owns(s: State, i: nat) {
    i < |s.handlers| && s.handlers[i].session in s.sh.cancels.active && s.sh.cancels.active[s.handlers[i].session] == i
  }

  /** Another prompt of the session passes setActiveCancel or clearActiveCancel. */
  predicate Displaces(s: State, step: Step, i: nat) {
    && step.Handle? && step.i != i && step.i < |s.handlers| && i < |s.handlers|
    && s.handlers[step.i].session == s.handlers[i].session
    && (s.handlers[step.i].pc.SettingCancel? || s.handlers[step.i].pc.ClearingCancel?)
  }

  ghost predicate Undisplaced(s: State, run: seq<Step>, i: nat)
    decreases |run|
  {
    run == [] || (!Displaces(s, run[0], i) && Undisplaced(Apply(s, run[0]), run[1..], i))
  }

  predicate Registered(s: State, i: nat) {
    i < |s.handlers| && s.handlers[i].marks.registered && !BeforeTurn(s.handlers[i].pc)
  }

  /** As long as the prompt has not cleared its entry itself, it owns it exactly if it did before and was
      not displaced. */
  lemma OwnsStep(s: State, step: Step, i: nat)
    requires Enabled(s, step) && Registered(s, i) && Registered(Apply(s, step), i)
    ensures Owns(Apply(s, step), i) <==> Owns(s, i) && !Displaces(s, step, i)
  {
    hide Advance;
    if step.Handle? {
      AdvanceFrame(step.i, s.handlers[step.i], s.sh, step.choice);
    } else {
      TableStays(s, step);
      IdentityStays(s, step, i);
    }
  }

  /** A prompt that has cleared its entry is done. */
  predicate Gone(s: State, i: nat) {
    i < |s.handlers| && s.handlers[i].pc.Done? && !s.handlers[i].marks.registered
  }

  lemma RegisteredOrGone(s: State, step: Step, i: nat)
    requires LocalOk(s) && Enabled(s, step) && i < |s.handlers|
    ensures Registered(s, i) ==> Registered(Apply(s, step), i) || Gone(Apply(s, step), i)
    ensures Gone(s, i) ==> Gone(Apply(s, step), i)
  {
    HandlersFrame(s, step);
    assert StageOk(s.handlers[i]);
    if step.Handle? {
      AdvanceFrame(step.i, s.handlers[step.i], s.sh, step.choice);
    } else {
      IdentityStays(s, step, i);
    }
  }

  lemma {:induction false} GoneForEver(s: State, run: seq<Step>, i: nat)
    requires Inv(s) && Valid(s, run) && Gone(s, i)
    ensures Gone(After(s, run), i)
    decreases |run|
  {
    if run != [] {
      RegisteredOrGone(s, run[0], i);
      StepKeepsInv(s, run[0]);
      GoneForEver(Apply(s, run[0]), run[1..], i);
    }
  }

  lemma {:induction false} OwnsRun(s: State, run: seq<Step>, i: nat)
    requires Inv(s) && Valid(s, run) && Registered(s, i) && Registered(After(s, run), i)
    ensures Owns(After(s, run), i) <==> Owns(s, i) && Undisplaced(s, run, i)
    decreases |run|
  {
    if run != [] {
      var t := Apply(s, run[0]);
      RegisteredOrGone(s, run[0], i);
      StepKeepsInv(s, run[0]);
      if Gone(t, i) { GoneForEver(t, run[1..], i); }
      OwnsStep(s, run[0], i);
      OwnsRun(t, run[1..], i);
    }
  }

  lemma Registers(s: State, i: nat)
    requires Enabled(s, Handle(i, Go)) && s.handlers[i].pc.SettingCancel?
    ensures Registered(Apply(s, Handle(i, Go)), i) && Owns(Apply(s, Handle(i, Go)), i)
  {
  }

  /** cancelSession goes on to cancel the context of the owner. */
  lemma OwnerIsReached(s: State, i: nat)
    requires i < |s.handlers| && s.reader == LockingCancel(s.handlers[i].session)
    ensures Apply(s, LockCancel).reader == CallingCancel(i) <==> Owns(s, i)
  {
  }

  /** From its setActiveCancel to its clearActiveCancel a prompt owns its session's entry exactly if no
      other prompt of the session has passed its own setActiveCancel or clearActiveCancel since; and that
      is exactly when a session/cancel goes on to cancel its context. */
  lemma EntryIsItsOwnExactly(before: seq<Step>, run: seq<Step>, i: nat)
    requires Valid(Init(), before)
    requires var s := After(Init(), before);
             && i < |s.handlers| && s.handlers[i].pc.SettingCancel? && Valid(Apply(s, Handle(i, Go)), run)
             && Registered(After(Apply(s, Handle(i, Go)), run), i)
    ensures var s := Apply(After(Init(), before), Handle(i, Go));
            var t := After(s, run);
            && (Owns(t, i) <==> Undisplaced(s, run, i))
            && (t.reader == LockingCancel(t.handlers[i].session) ==>
                  (Apply(t, LockCancel).reader == CallingCancel(i) <==> Undisplaced(s, run, i)))
  {
    hide Apply;
    Reached(before);
    Registers(After(Init(), before), i);
    StepKeepsInv(After(Init(), before), Handle(i, Go));
    var s := Apply(After(Init(), before), Handle(i, Go));
    OwnsRun(s, run, i);
    if After(s, run).reader == LockingCancel(After(s, run).handlers[i].session) { OwnerIsReached(After(s, run), i); }
  }
}
