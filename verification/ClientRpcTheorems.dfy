/** What the correlation of client responses guarantees, in every run and interleaving. */
module ClientRpcTheorems {
  import opened Text
  import opened Protocol
  import opened ClientRpc
  import opened ClientRpcProofs

  lemma Reached(run: seq<Step>)
    requires Valid(Init(), run)
    ensures FullInv(After(Init(), run)) && (|After(Init(), run).calls| <= WORD ==> DistinctKeys(After(Init(), run)))
  {
    RunKeepsInvariant(Init(), run);
    if |After(Init(), run).calls| <= WORD { BoundedKeys(After(Init(), run)); }
  }

  predicate Answers(s: State, c: nat, u: nat) {
    c < |s.calls| && HasExit(s.calls[c].pc) && s.calls[c].pc.exit.Answered? && s.calls[c].pc.exit.reply.uid == u
  }

  /** A call that returns through its channel returns a response that did arrive, unaltered, with
      the key of its own request; and no response answers two calls. */
  lemma CallsGetTheirOwnReply(run: seq<Step>, c: nat, u: nat)
    requires Valid(Init(), run) && Answers(After(Init(), run), c, u)
    ensures var s := After(Init(), run);
            && u < |s.received| && s.calls[c].pc.exit.reply == s.received[u]
            && ServerKey(s.received[u].id) == s.calls[c].key == PendingKey(RequestId((c + 1) % WORD))
            && forall d | Answers(s, d, u) :: d == c
  {
    Reached(run);
    OwnReply(After(Init(), run), c, u);
  }

  lemma OwnReply(s: State, c: nat, u: nat)
    requires Inv(s) && Answers(s, c, u)
    ensures u < |s.received| && s.calls[c].pc.exit.reply == s.received[u]
    ensures ServerKey(s.received[u].id) == s.calls[c].key == Key(c)
    ensures forall d | Answers(s, d, u) :: d == c
  {
    assert CallShape(s.calls[c]);
    assert Held(s, Consumed(c)).Some?;
    forall d | Answers(s, d, u) ensures d == c {
      assert Held(s, Consumed(d)).Some?;
    }
  }

  /** Each response with a key is, at all times, in exactly one place. */
  lemma EveryReplyInExactlyOnePlace(run: seq<Step>, u: nat)
    requires Valid(Init(), run) && u < |After(Init(), run).received|
    ensures var s := After(Init(), run);
            exists p :: Held(s, p) == Some(s.received[u])
                        && forall q :: Held(s, q).Some? && Held(s, q).value.uid == u ==> q == p
  {
    Reached(run);
    var s := After(Init(), run);
    assert Held(s, s.ledger[u]) == Some(s.received[u]);
  }

  /** Neither send on a response channel can block, and no channel gets two. */
  lemma SendsNeverBlock(run: seq<Step>)
    requires Valid(Init(), run)
    ensures var s := After(Init(), run);
            && (s.hand.Sending? ==> Enabled(s, Deliver))
            && forall c | 0 <= c < |s.calls| ::
                 s.calls[c].sends <= 1 && |s.calls[c].buffer| <= 1
                 && (s.calls[c].pc.CarryingEarly? ==> Enabled(s, SendEarly(c)))
  {
    Reached(run);
    ReadyToSend(After(Init(), run));
  }

  lemma ReadyToSend(s: State)
    requires HandOk(s) && ShapesOk(s)
    ensures s.hand.Sending? ==> Enabled(s, Deliver)
    ensures forall c | 0 <= c < |s.calls| ::
              s.calls[c].sends <= 1 && |s.calls[c].buffer| <= 1
              && (s.calls[c].pc.CarryingEarly? ==> Enabled(s, SendEarly(c)))
  {
    forall c | 0 <= c < |s.calls|
      ensures s.calls[c].sends <= 1 && |s.calls[c].buffer| <= 1
              && (s.calls[c].pc.CarryingEarly? ==> Enabled(s, SendEarly(c)))
    {
      assert CallShape(s.calls[c]);
    }
    if s.hand.Sending? { assert CallShape(s.calls[s.hand.call]); }
  }

  /** Whatever is pending is a call in flight under its own key, with an empty channel; no key is both
      pending and early; nothing is pending once all calls are over. Up to 2^64 calls the converse holds:
      a call is pending exactly as long as it is registered and neither claimed nor unregistered. */
  lemma PendingIsExactlyInFlight(run: seq<Step>)
    requires Valid(Init(), run)
    ensures var s := After(Init(), run);
            && (forall k | k in s.tables.pending :: PendingOk(s, k) && s.calls[s.tables.pending[k]].buffer == [])
            && s.tables.pending.Keys !! s.tables.early.Keys
            && ((forall c | 0 <= c < |s.calls| :: s.calls[c].pc.Finished?) ==> s.tables.pending == map[])
            && (|s.calls| <= WORD ==>
                  forall c | 0 <= c < |s.calls| :: s.calls[c].key in s.tables.pending <==> InFlight(s, c))
  {
    Reached(run);
    var s := After(Init(), run);
    forall k | k in s.tables.pending ensures PendingOk(s, k) && s.calls[s.tables.pending[k]].buffer == [] {
      assert PendingOk(s, k) && CallShape(s.calls[s.tables.pending[k]]);
    }
    if forall c | 0 <= c < |s.calls| :: s.calls[c].pc.Finished? { AllOverNonePending(s); }
    if |s.calls| <= WORD { PendingBothWays(s); }
  }

  lemma AllOverNonePending(s: State)
    requires TablesOk(s) && forall c | 0 <= c < |s.calls| :: s.calls[c].pc.Finished?
    ensures s.tables.pending == map[]
  {
    forall k ensures k !in s.tables.pending {
      assert k in s.tables.pending ==> PendingOk(s, k);
    }
    assert s.tables.pending.Keys == {};
  }

  lemma PendingBothWays(s: State)
    requires TablesOk(s) && AllPending(s) && DistinctKeys(s)
    ensures forall c | 0 <= c < |s.calls| :: s.calls[c].key in s.tables.pending <==> InFlight(s, c)
  {
    forall c | 0 <= c < |s.calls| && s.calls[c].key in s.tables.pending ensures InFlight(s, c) {
      assert PendingOk(s, s.calls[c].key);
    }
  }

  /** A call that waits has its response, or is about to get it, as soon as the reader is through
      with any response that carries its key: nothing with that key is left in earlyResponses. */
  lemma WaitingCallMissesNothing(run: seq<Step>, c: nat, u: nat)
    requires Valid(Init(), run) && |After(Init(), run).calls| <= WORD
    requires var s := After(Init(), run);
             && c < |s.calls| && s.calls[c].pc.Selecting? && u < |s.received|
             && ServerKey(s.received[u].id) == s.calls[c].key && s.hand.Empty?
    ensures Enabled(After(Init(), run), Receive(c))
  {
    Reached(run);
    var s := After(Init(), run);
    PendingBothWays(s);
    assert CallShape(s.calls[c]);
    var key := ServerKey(s.received[u].id);
    assert key in s.tables.pending ==> PendingOk(s, key);
    assert key in s.tables.early || s.hand == Holding(s.received[u]) || Spent(s, key);
  }

  /** The call with number c is over, and response u for it is in nobody's reach. */
  predicate Late(s: State, c: nat, u: nat) {
    && c < |s.calls| && s.calls[c].pc.Finished?
    && u < |s.received| && ServerKey(s.received[u].id) == s.calls[c].key
    && (s.hand == Holding(s.received[u])
        || (s.calls[c].key in s.tables.early && s.tables.early[s.calls[c].key] == s.received[u])
        || u in s.lost)
  }

  lemma LateStays(s: State, step: Step, c: nat, u: nat)
    requires TablesOk(s) && ReceivedOk(s) && DistinctKeys(s) && Enabled(s, step) && Late(s, c, u)
    ensures Late(Apply(s, step), c, u)
  {
    FinishedStays(s, step, c, u);
    if step.Register? {
      assert s.calls[step.c].key != s.calls[c].key;
    } else if step.Claim? {
      if s.calls[c].key in s.tables.pending { assert PendingOk(s, s.calls[c].key); }
    } else {
      EarlyStays(s, step);
    }
  }

  lemma FinishedStays(s: State, step: Step, c: nat, u: nat)
    requires Enabled(s, step) && c < |s.calls| && s.calls[c].pc.Finished? && u < |s.received|
    ensures var t := Apply(s, step);
            c < |t.calls| && t.calls[c].key == s.calls[c].key && t.calls[c].pc.Finished?
            && u < |t.received| && t.received[u] == s.received[u]
  {
  }

  lemma EarlyStays(s: State, step: Step)
    requires Enabled(s, step) && !step.Register? && !step.Claim?
    ensures var t := Apply(s, step);
            t.tables.early == s.tables.early && t.lost == s.lost && (s.hand.Holding? ==> t.hand == s.hand)
  {
  }

  lemma CallsOnlyGrow(s: State, run: seq<Step>)
    requires Valid(s, run)
    ensures |s.calls| <= |After(s, run).calls|
    decreases |run|
  {
    if run != [] {
      CallsOnlyGrow(Apply(s, run[0]), run[1..]);
    }
  }

  /** A response that the reader gets after its call has ended is never consumed, by any call, in
      whatever happens afterwards: it stays in earlyResponses or is overwritten there. */
  lemma LateReplyIsNeverConsumed(before: seq<Step>, run: seq<Step>, c: nat, u: nat)
    requires Valid(Init(), before) && Late(After(Init(), before), c, u)
    requires Valid(After(Init(), before), run) && |After(After(Init(), before), run).calls| <= WORD
    ensures var t := After(After(Init(), before), run); Late(t, c, u) && forall d :: !Answers(t, d, u)
  {
    RunKeepsInvariant(Init(), before);
    LateRun(After(Init(), before), run, c, u);
  }

  lemma {:induction false} LateRun(s: State, run: seq<Step>, c: nat, u: nat)
    requires FullInv(s) && Valid(s, run) && |After(s, run).calls| <= WORD && Late(s, c, u)
    ensures Late(After(s, run), c, u)
    ensures forall d :: !Answers(After(s, run), d, u)
    decreases |run|
  {
    CallsOnlyGrow(s, run);
    if run == [] {
      LateIsNotConsumed(s, c, u);
    } else {
      var (step, rest) := (run[0], run[1..]);
      CallsOnlyGrow(Apply(s, step), rest);
      LateInvStep(s, step, c, u);
      LateRun(Apply(s, step), rest, c, u);
    }
  }

  lemma LateInvStep(s: State, step: Step, c: nat, u: nat)
    requires FullInv(s) && |s.calls| <= WORD && Enabled(s, step) && Late(s, c, u)
    ensures FullInv(Apply(s, step)) && Late(Apply(s, step), c, u)
  {
    BoundedKeys(s);
    LateStays(s, step, c, u);
    StepKeepsInvariant(s, step);
  }

  lemma LateIsNotConsumed(s: State, c: nat, u: nat)
    requires NothingForged(s) && ReceivedOk(s) && Late(s, c, u)
    ensures forall d :: !Answers(s, d, u)
  {
    assert u in s.lost ==> Held(s, Overwritten(u)).Some?;
    assert s.hand == Holding(s.received[u]) ==> Held(s, InHand).Some?;
    assert s.calls[c].key in s.tables.early ==> Held(s, Early(s.calls[c].key)).Some?;
    forall d ensures !Answers(s, d, u) {
      var p := Consumed(d);
      assert Held(s, p).Some? ==> s.ledger[Held(s, p).value.uid] == p;
    }
  }

  // ----- The bound of 2^64 calls is exact -----

  function Fresh(n: nat): State {
    Init().(tables := Init().tables.(counter := n % WORD),
            calls := seq(n, c requires 0 <= c => Call(0, Key(c), Registering, [], 0)))
  }

  lemma BeginOne(m: nat)
    ensures Enabled(Fresh(m), Begin(0)) && Apply(Fresh(m), Begin(0)) == Fresh(m + 1)
  {
    assert (m % WORD + 1) % WORD == (m + 1) % WORD;
    assert Apply(Fresh(m), Begin(0)).calls == Fresh(m + 1).calls;
  }

  lemma {:induction false} RunThen(s: State, run: seq<Step>, step: Step)
    requires Valid(s, run) && Enabled(After(s, run), step)
    ensures Valid(s, run + [step]) && After(s, run + [step]) == Apply(After(s, run), step)
    decreases |run|
  {
    var more := run + [step];
    if run == [] {
      assert more[1..] == [];
    } else {
      RunThen(Apply(s, run[0]), run[1..], step);
      assert more[1..] == run[1..] + [step];
    }
  }

  /** n calls take their numbers. */
  lemma {:induction false} BeginMany(n: nat) returns (run: seq<Step>)
    ensures Valid(Init(), run) && After(Init(), run) == Fresh(n)
  {
    if n == 0 {
      run := [];
      assert Fresh(0).calls == [];
    } else {
      run := BeginMany(n - 1);
      BeginOne(n - 1);
      RunThen(Init(), run, Begin(0));
      run := run + [Begin(0)];
    }
  }

  predicate Quiet(s: State) {
    s.tables.pending == map[] && s.tables.early == map[] && s.hand.Empty? && s.received == []
  }

  /** The first call registers, sends its request, is abandoned and unregistered. */
  lemma AbandonFirst(many: seq<Step>) returns (run: seq<Step>)
    requires Valid(Init(), many)
    requires var s := After(Init(), many); |s.calls| > 1 && s.calls[0].pc.Registering? && Quiet(s)
    ensures Valid(Init(), run)
    ensures var s0 := After(Init(), many);
            After(Init(), run) == s0.(calls := s0.calls[0 := s0.calls[0].(pc := Finished(CtxDone))])
  {
    var s0 := After(Init(), many);
    var first := s0.calls[0];
    run := many;
    RunThen(Init(), run, Register(0));
    run := run + [Register(0)];
    assert After(Init(), run).calls == s0.calls[0 := first.(pc := Writing)];
    assert After(Init(), run).tables.pending == map[first.key := 0];
    RunThen(Init(), run, Write(0));
    run := run + [Write(0)];
    assert After(Init(), run).calls == s0.calls[0 := first.(pc := Selecting)];
    RunThen(Init(), run, Abandon(0));
    run := run + [Abandon(0)];
    assert After(Init(), run).calls == s0.calls[0 := first.(pc := Leaving(CtxDone))];
    RunThen(Init(), run, Unregister(0));
    run := run + [Unregister(0)];
    assert After(Init(), run).tables.pending == map[];
  }

  /** A response that is kept is taken by a call with its key, goes through its channel and is returned. */
  lemma TakeStale(s: State, d: nat) returns (run: seq<Step>)
    requires d < |s.calls| && s.calls[d].pc.Registering? && s.calls[d].buffer == []
    requires s.hand.Holding? && s.calls[d].key == ServerKey(s.hand.reply.id) && s.tables.pending == map[]
    ensures Valid(s, run) && |After(s, run).calls| == |s.calls|
    ensures After(s, run).calls[d].pc == Leaving(Answered(s.hand.reply))
  {
    var r := s.hand.reply;
    run := [];
    RunThen(s, run, Claim);
    run := run + [Claim];
    var t := After(s, run);
    assert t.calls == s.calls && t.tables.early[s.calls[d].key] == r && t.tables.pending == map[];
    RunThen(s, run, Register(d));
    run := run + [Register(d)];
    assert After(s, run).calls == s.calls[d := s.calls[d].(pc := CarryingEarly(r))];
    RunThen(s, run, SendEarly(d));
    run := run + [SendEarly(d)];
    assert After(s, run).calls[d].buffer == [r] && After(s, run).calls[d].pc.Writing?;
    RunThen(s, run, Write(d));
    run := run + [Write(d)];
    assert After(s, run).calls[d].buffer == [r] && After(s, run).calls[d].pc.Selecting?;
    RunThen(s, run, Receive(d));
    run := run + [Receive(d)];
  }

  /** A run in which the first call has ended when its response arrives ... */
  lemma ArrivesLate() returns (run: seq<Step>)
    ensures Valid(Init(), run)
    ensures var s := After(Init(), run);
            && Late(s, 0, 0) && |s.calls| == WORD + 1 && s.tables.pending == map[] && s.hand == Holding(s.received[0])
            && s.calls[WORD].pc.Registering? && s.calls[WORD].buffer == []
            && s.calls[WORD].key == ServerKey(s.received[0].id)
  {
    KeysCollideOnlyByWrapping(0, WORD);
    run := BeginMany(WORD + 1);
    run := AbandonFirst(run);
    var arrive := Arrive(StrId(RequestId(1)), NullBody);
    RunThen(Init(), run, arrive);
    run := run + [arrive];
  }

  /** With one call more, numbers repeat: a response that is late for the first call is consumed in what
      happens afterwards, by the call that took the same number again. */
  lemma OneCallMoreMisdelivers()
    ensures exists before, run ::
              && Valid(Init(), before) && Late(After(Init(), before), 0, 0)
              && Valid(After(Init(), before), run) && |After(After(Init(), before), run).calls| == WORD + 1
              && Answers(After(After(Init(), before), run), WORD, 0)
  {
    var before := ArrivesLate();
    Reached(before);
    var run := TakeStale(After(Init(), before), WORD);
  }
}
