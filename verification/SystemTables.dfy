/** The invariant of the whole server, continued: cancellation tables, sessions and responses. */
module SystemTables {
  import opened Turn
  import opened TurnProofs
  import opened TurnFrames
  import opened System
  import opened SystemInv

  // ----- activeCancels and contexts -----

  /** Every entry of activeCancels belongs to a prompt of that session between set and clear. */
  ghost predicate ActiveOk(s: State) {
    forall sid | sid in s.sh.cancels.active ::
      var i := s.sh.cancels.active[sid];
      i < |s.handlers| && s.handlers[i].session == sid && s.handlers[i].marks.registered
  }

  /** A prompt's own context is cancelled only after a session/cancel for its session. */
  predicate HandlerBacked(s: State, i: nat)
    requires i < |s.handlers|
  {
    var h := s.handlers[i];
    && (h.ctx.Live? || (h.ctx.Canceled? && h.session in s.sh.notices))
    && (h.marks.sawCancel ==> h.session in s.sh.notices || h.conn in s.sh.deadConns)
    && (s.reader == CallingCancel(i) ==> h.session in s.sh.notices)
    && (BeforeTurn(h.pc) ==> h.ctx.Live? && !h.marks.sawCancel && s.reader != CallingCancel(i))
  }

  ghost predicate BackedOk(s: State) {
    && (forall i | 0 <= i < |s.handlers| :: HandlerBacked(s, i))
    && (s.reader.CallingCancel? ==> s.reader.i < |s.handlers|)
    && (s.sh.serverCtx.Canceled? ==> s.conn in s.sh.deadConns)
  }

  /** The part of the handlers' own invariant that the tables rely on. */
  ghost predicate EarlyOk(s: State) {
    forall i | 0 <= i < |s.handlers| && BeforeTurn(s.handlers[i].pc) ::
        !s.handlers[i].marks.registered && !s.handlers[i].marks.took
  }

  lemma LocalGivesEarly(s: State)
    requires LocalOk(s)
    ensures EarlyOk(s)
  {
    forall i | 0 <= i < |s.handlers| && BeforeTurn(s.handlers[i].pc)
      ensures !s.handlers[i].marks.registered && !s.handlers[i].marks.took
    {
      assert StageOk(s.handlers[i]) && CancelOk(s.handlers[i]);
    }
  }

  lemma ActiveStep(s: State, step: Step)
    requires EarlyOk(s) && ActiveOk(s) && Enabled(s, step)
    ensures ActiveOk(Apply(s, step))
  {
    hide Apply;
    var t := Apply(s, step);
    forall sid | sid in t.sh.cancels.active
      ensures var i := t.sh.cancels.active[sid];
              i < |t.handlers| && t.handlers[i].session == sid && t.handlers[i].marks.registered
    {
      ActiveAt(s, step, sid);
    }
  }

  lemma ActiveAt(s: State, step: Step, sid: string)
    requires EarlyOk(s) && ActiveOk(s) && Enabled(s, step) && sid in Apply(s, step).sh.cancels.active
    ensures var t := Apply(s, step);
            var i := t.sh.cancels.active[sid];
            i < |t.handlers| && t.handlers[i].session == sid && t.handlers[i].marks.registered
  {
    hide Apply;
    if step.Handle? {
      ActiveAfterAdvance(s, step.i, step.choice, sid);
    } else {
      TableStays(s, step);
      IdentityStays(s, step, s.sh.cancels.active[sid]);
    }
  }

  lemma TableStays(s: State, step: Step)
    requires Enabled(s, step) && !step.Handle?
    ensures Apply(s, step).sh.cancels.active == s.sh.cancels.active
  {
  }

  lemma ActiveAfterAdvance(s: State, j: nat, choice: Choice, sid: string)
    requires EarlyOk(s) && ActiveOk(s) && Enabled(s, Handle(j, choice))
    requires sid in Apply(s, Handle(j, choice)).sh.cancels.active
    ensures var t := Apply(s, Handle(j, choice));
            var i := t.sh.cancels.active[sid];
            i < |t.handlers| && t.handlers[i].session == sid && t.handlers[i].marks.registered
  {
    AdvanceFrame(j, s.handlers[j], s.sh, choice);
    assert s.handlers[j].pc.NamingSession? ==> !s.handlers[j].marks.registered;
    if sid in s.sh.cancels.active { assert s.sh.cancels.active[sid] < |s.handlers|; }
  }

  /** Apart from its own steps nothing changes what a handler is and has consumed. */
  lemma IdentityStays(s: State, step: Step, i: nat)
    requires Enabled(s, step) && !step.Handle? && i < |s.handlers|
    ensures var t := Apply(s, step);
            i < |t.handlers|
            && var (h, g) := (s.handlers[i], t.handlers[i]);
            g.session == h.session && g.marks.registered == h.marks.registered && g.marks.took == h.marks.took
            && g.marks.sawCancel == h.marks.sawCancel
            && g.conn == h.conn && (g.ctx == h.ctx || (step.CallCancel? && s.reader.i == i && g.ctx.Canceled?))
            && (BeforeTurn(g.pc) <==> BeforeTurn(h.pc)) && g.answered == h.answered && g.id == h.id
  {
    HandlersFrame(s, step);
    match step
    case CallCancel =>
    case StartCall(_) =>
    case WriteRequest(_) =>
    case FinishCall(_) =>
    case _ =>
  }

  lemma BackedAt(s: State, step: Step, i: nat)
    requires EarlyOk(s) && ActiveOk(s) && BackedOk(s) && ConnOk(s) && Enabled(s, step) && i < |s.handlers|
    ensures i < |Apply(s, step).handlers| && HandlerBacked(Apply(s, step), i)
  {
    assert HandlerBacked(s, i);
    if step.Handle? {
      BackedAfterAdvance(s, step.i, step.choice, i);
    } else {
      IdentityStays(s, step, i);
      match step
      case LockCancel =>
      case CtxEnds(_) =>
      case CallCancel =>
      case _ =>
    }
  }

  lemma BackedAfterAdvance(s: State, j: nat, choice: Choice, i: nat)
    requires BackedOk(s) && ConnOk(s) && Enabled(s, Handle(j, choice)) && i < |s.handlers|
    ensures HandlerBacked(Apply(s, Handle(j, choice)), i)
  {
    assert HandlerBacked(s, i);
    AdvanceFrame(j, s.handlers[j], s.sh, choice);
    if i == j {
      assert s.handlers[i].conn == s.conn;
    }
  }

  lemma BackedStep(s: State, step: Step)
    requires EarlyOk(s) && ActiveOk(s) && BackedOk(s) && ConnOk(s) && Enabled(s, step)
    ensures BackedOk(Apply(s, step))
  {
    var t := Apply(s, step);
    HandlersFrame(s, step);
    if step.Handle? { AdvanceFrame(step.i, s.handlers[step.i], s.sh, step.choice); }
    forall i | 0 <= i < |t.handlers| ensures HandlerBacked(t, i) {
      if i < |s.handlers| { BackedAt(s, step, i); }
    }
  }

  // ----- Cancel flags -----

  predicate TookOn(h: Handler, sid: string) {
    h.marks.took && h.session == sid
  }

  /** The number of prompts on a session that have consumed its flag. */
  ghost function CountTook(handlers: seq<Handler>, sid: string): nat {
    if handlers == [] then 0
    else
      var n := |handlers| - 1;
      CountTook(handlers[..n], sid) + (if TookOn(handlers[n], sid) then 1 else 0)
  }

  lemma {:induction false} CountTookUpdate(handlers: seq<Handler>, i: nat, h: Handler, sid: string)
    requires i < |handlers|
    ensures CountTook(handlers[i := h], sid)
            == CountTook(handlers, sid) - (if TookOn(handlers[i], sid) then 1 else 0)
            + (if TookOn(h, sid) then 1 else 0)
  {
    var n := |handlers| - 1;
    if i == n {
      assert handlers[i := h][..n] == handlers[..n];
    } else {
      assert handlers[i := h][..n] == handlers[..n][i := h];
      CountTookUpdate(handlers[..n], i, h, sid);
    }
  }

  /** Flags consumed, plus the flag if it is up, never exceed the cancellations received. */
  ghost predicate FlagsOk(s: State) {
    forall sid: string :: CountTook(s.handlers, sid) + (if sid in s.sh.cancels.flags then 1 else 0) <= s.sh.notices[sid]
  }

  lemma FlagsAt(s: State, step: Step, sid: string)
    requires EarlyOk(s) && FlagsOk(s) && Enabled(s, step)
    ensures var t := Apply(s, step);
            CountTook(t.handlers, sid) + (if sid in t.sh.cancels.flags then 1 else 0) <= t.sh.notices[sid]
  {
    assert CountTook(s.handlers, sid) + (if sid in s.sh.cancels.flags then 1 else 0) <= s.sh.notices[sid];
    if step.Handle? {
      FlagsAfterAdvance(s, step.i, step.choice, sid);
    } else {
      CountStays(s, step, sid);
    }
  }

  lemma CountStays(s: State, step: Step, sid: string)
    requires Enabled(s, step) && !step.Handle?
    ensures CountTook(Apply(s, step).handlers, sid) == CountTook(s.handlers, sid)
  {
    var t := Apply(s, step);
    HandlersFrame(s, step);
    if Changed(s, step).Some? {
      var i := Changed(s, step).value;
      IdentityStays(s, step, i);
      CountTookUpdate(s.handlers, i, t.handlers[i], sid);
      assert t.handlers == s.handlers[i := t.handlers[i]];
    } else if |t.handlers| > |s.handlers| {
    } else {
      assert t.handlers == s.handlers;
    }
  }

  lemma FlagsAfterAdvance(s: State, i: nat, choice: Choice, sid: string)
    requires EarlyOk(s) && FlagsOk(s) && Enabled(s, Handle(i, choice))
    ensures var t := Apply(s, Handle(i, choice));
            CountTook(t.handlers, sid) + (if sid in t.sh.cancels.flags then 1 else 0) <= t.sh.notices[sid]
  {
    var h := s.handlers[i];
    var o := Advance(i, h, s.sh, choice);
    assert CountTook(s.handlers, sid) + (if sid in s.sh.cancels.flags then 1 else 0) <= s.sh.notices[sid];
    AdvanceFrame(i, h, s.sh, choice);
    CountTookUpdate(s.handlers, i, o.h, sid);
  }

  lemma FlagsStep(s: State, step: Step)
    requires EarlyOk(s) && FlagsOk(s) && Enabled(s, step)
    ensures FlagsOk(Apply(s, step))
  {
    hide Apply;
    forall sid: string
      ensures var t := Apply(s, step);
              CountTook(t.handlers, sid) + (if sid in t.sh.cancels.flags then 1 else 0) <= t.sh.notices[sid]
    {
      FlagsAt(s, step, sid);
    }
  }
}
