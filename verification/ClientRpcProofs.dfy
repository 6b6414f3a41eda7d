/** Correlation of client responses with calls, over every run. */
module ClientRpcProofs {
  import opened Text
  import opened Protocol
  import opened ClientRpc

  lemma SameKeySameNumber(m: nat, n: nat)
    ensures PendingKey(RequestId(m)) == PendingKey(RequestId(n)) <==> m == n
  {
    DecimalInjective(m, n);
    if PendingKey(RequestId(m)) == PendingKey(RequestId(n)) {
      assert PendingKey(RequestId(m))[2..] == RequestId(m) && PendingKey(RequestId(n))[2..] == RequestId(n);
      assert RequestId(m)[11..] == Decimal(m) && RequestId(n)[11..] == Decimal(n);
    }
  }

  /** Two calls share a key exactly when their numbers agree modulo 2^64. */
  lemma KeysCollideOnlyByWrapping(c: nat, d: nat)
    ensures Key(c) == Key(d) <==> (c + 1) % WORD == (d + 1) % WORD
  {
    SameKeySameNumber((c + 1) % WORD, (d + 1) % WORD);
  }

  /** Up to 2^64 calls, keys are distinct. */
  lemma KeysDistinct(c: nat, d: nat)
    requires c < WORD && d < WORD && c != d
    ensures Key(c) != Key(d)
  {
    KeysCollideOnlyByWrapping(c, d);
  }

  ghost predicate DistinctKeys(s: State) {
    forall c, d | 0 <= c < |s.calls| && 0 <= d < |s.calls| && c != d :: s.calls[c].key != s.calls[d].key
  }

  lemma BoundedKeys(s: State)
    requires KeysOk(s) && |s.calls| <= WORD
    ensures DistinctKeys(s)
  {
    forall c, d | 0 <= c < |s.calls| && 0 <= d < |s.calls| && c != d ensures s.calls[c].key != s.calls[d].key {
      KeysDistinct(c, d);
    }
  }

  /** The call a step works on. */
  function Actor(s: State, step: Step): nat {
    match step
    case Register(c) => c
    case SendEarly(c) => c
    case Write(c) => c
    case FailWrite(c) => c
    case Abandon(c) => c
    case Receive(c) => c
    case Unregister(c) => c
    case Begin(_) => |s.calls|
    case Claim => if s.hand.Holding? && ServerKey(s.hand.reply.id) in s.tables.pending
                  then s.tables.pending[ServerKey(s.hand.reply.id)] else |s.calls|
    case Deliver => if s.hand.Sending? then s.hand.call else |s.calls|
    case Arrive(_, _) => |s.calls|
  }

  lemma ShapesStep(s: State, step: Step)
    requires TablesOk(s) && HandOk(s) && ShapesOk(s) && Enabled(s, step)
    ensures ShapesOk(Apply(s, step))
  {
    var t := Apply(s, step);
    forall c | 0 <= c < |t.calls| ensures CallShape(t.calls[c]) {
      if c == Actor(s, step) && c < |s.calls| {
      } else if c < |s.calls| {
        assert c < |Apply(s, step).calls| && Apply(s, step).calls[c] == s.calls[c];
      }
    }
  }

  /** A pending entry that a step leaves in place stays in order. */
  lemma PendingStays(s: State, step: Step, k: string)
    requires TablesOk(s) && HandOk(s) && Enabled(s, step)
    requires k in s.tables.pending && k in Apply(s, step).tables.pending
    requires Apply(s, step).tables.pending[k] == s.tables.pending[k]
    ensures PendingOk(Apply(s, step), k)
  {
    assert PendingOk(s, k);
    var c := s.tables.pending[k];
    if c == Actor(s, step) {
      match step
      case Claim =>
      case _ =>
    } else {
      assert c < |Apply(s, step).calls| && Apply(s, step).calls[c] == s.calls[c];
      match step
      case Register(_) =>
      case Claim =>
      case _ =>
    }
  }

  lemma Registered(s: State, c: nat)
    requires TablesOk(s) && HandOk(s) && ShapesOk(s) && Enabled(s, Register(c)) && s.calls[c].key !in s.tables.early
    ensures var (t, k) := (Apply(s, Register(c)), s.calls[c].key); k in t.tables.pending && PendingOk(t, k)
  {
    assert CallShape(s.calls[c]);
  }

  lemma TablesStep(s: State, step: Step)
    requires TablesOk(s) && HandOk(s) && ShapesOk(s) && Enabled(s, step)
    ensures TablesOk(Apply(s, step))
  {
    var t := Apply(s, step);
    forall k | k in t.tables.pending ensures PendingOk(t, k) {
      if step.Register? && k == s.calls[step.c].key && k !in s.tables.early {
        Registered(s, step.c);
      } else {
        PendingStays(s, step, k);
      }
    }
  }

  lemma HandStep(s: State, step: Step)
    requires TablesOk(s) && HandOk(s) && Enabled(s, step)
    ensures HandOk(Apply(s, step))
  {
    if step == Claim && ServerKey(s.hand.reply.id) in s.tables.pending {
      assert PendingOk(s, ServerKey(s.hand.reply.id));
    }
  }

  /** Calls in flight stay pending as long as keys are distinct. */
  lemma AllPendingStep(s: State, step: Step)
    requires TablesOk(s) && HandOk(s) && AllPending(s) && Enabled(s, step) && DistinctKeys(s)
    ensures AllPending(Apply(s, step))
  {
    var t := Apply(s, step);
    forall c | 0 <= c < |t.calls| && InFlight(t, c) ensures t.calls[c].key in t.tables.pending {
      InFlightStays(s, step, c);
    }
  }

  lemma InFlightStays(s: State, step: Step, c: nat)
    requires TablesOk(s) && HandOk(s) && AllPending(s) && Enabled(s, step) && DistinctKeys(s)
    requires InFlight(Apply(s, step), c)
    ensures Apply(s, step).calls[c].key in Apply(s, step).tables.pending
  {
    if c < |s.calls| {
      var d := Actor(s, step);
      if c == d {
      } else {
        assert c < |Apply(s, step).calls| && Apply(s, step).calls[c] == s.calls[c];
        if d < |s.calls| { assert s.calls[c].key != s.calls[d].key; }
        if step.Claim? && ServerKey(s.hand.reply.id) in s.tables.pending {
          assert PendingOk(s, ServerKey(s.hand.reply.id));
        }
      }
    }
  }

  /** The place a response leaves in a step, if one moves. */
  function Source(s: State, step: Step): Option<Place> {
    match step
    case Register(c) => if c < |s.calls| then Some(Early(s.calls[c].key)) else None
    case SendEarly(c) => Some(Carried(c))
    case Receive(c) => Some(InBuffer(c))
    case Claim => if s.hand.Holding? && ServerKey(s.hand.reply.id) !in s.tables.pending then Some(InHand) else None
    case Deliver => Some(InHand)
    case _ => None
  }

  /** The place it goes to. */
  function Target(s: State, step: Step): Option<Place> {
    match step
    case Register(c) => if c < |s.calls| && s.calls[c].key in s.tables.early then Some(Carried(c)) else None
    case SendEarly(c) => Some(InBuffer(c))
    case Receive(c) => Some(Consumed(c))
    case Claim => if s.hand.Holding? && ServerKey(s.hand.reply.id) !in s.tables.pending
                  then Some(Early(ServerKey(s.hand.reply.id))) else None
    case Deliver => if s.hand.Sending? then Some(InBuffer(s.hand.call)) else None
    case Arrive(_, _) => Some(InHand)
    case _ => None
  }

  /** A step moves at most one response from its source to its target, and may overwrite one. */
  lemma OnlyTheMovedReplyMoves(s: State, step: Step, p: Place)
    requires ShapesOk(s) && Enabled(s, step)
    requires Some(p) != Source(s, step) && Some(p) != Target(s, step) && !p.Overwritten?
    ensures Held(Apply(s, step), p) == Held(s, p)
  {
    hide Apply;
    if p.InBuffer? { ChannelsKeepTheirReplies(s, step, p.call); }
    else if p.Carried? || p.Consumed? { OtherCallsKeepTheirReplies(s, step, p.call); }
    else { ReaderKeepsItsReplies(s, step, p); }
  }

  lemma ReaderKeepsItsReplies(s: State, step: Step, p: Place)
    requires Enabled(s, step) && (p.InHand? || p.Early?)
    requires Some(p) != Source(s, step) && Some(p) != Target(s, step)
    ensures Held(Apply(s, step), p) == Held(s, p)
  {
  }

  lemma ChannelsKeepTheirReplies(s: State, step: Step, d: nat)
    requires ShapesOk(s) && Enabled(s, step)
    requires Some(InBuffer(d)) != Source(s, step) && Some(InBuffer(d)) != Target(s, step)
    ensures Held(Apply(s, step), InBuffer(d)) == Held(s, InBuffer(d))
  {
    if d < |s.calls| { assert CallShape(s.calls[d]); }
  }

  lemma OtherCallsKeepTheirReplies(s: State, step: Step, d: nat)
    requires ShapesOk(s) && Enabled(s, step)
    ensures forall p | p in {Carried(d), Consumed(d)} && Some(p) != Source(s, step) && Some(p) != Target(s, step) ::
              Held(Apply(s, step), p) == Held(s, p)
  {
    if d < |s.calls| { assert CallShape(s.calls[d]); }
  }

  /** Only the ledger entries of the moved and of the overwritten response change. */
  lemma LedgerKeeps(s: State, step: Step, u: nat)
    requires NothingForged(s) && Enabled(s, step) && u < |s.ledger|
    requires Some(s.ledger[u]) != Source(s, step) && Some(s.ledger[u]) != Target(s, step)
    ensures u < |Apply(s, step).ledger| && Apply(s, step).ledger[u] == s.ledger[u]
  {
    match step
    case Register(c) =>
      if s.calls[c].key in s.tables.early { assert Held(s, Early(s.calls[c].key)).Some?; }
    case SendEarly(c) => assert Held(s, Carried(c)).Some?;
    case Receive(c) => assert Held(s, InBuffer(c)).Some?;
    case Claim =>
      assert Held(s, InHand).Some?;
      var key := ServerKey(s.hand.reply.id);
      if key in s.tables.early { assert Held(s, Early(key)).Some?; }
    case Deliver => assert Held(s, InHand).Some?;
    case _ =>
  }

  lemma MovedReply(s: State, step: Step)
    requires ReceivedOk(s) && NothingForged(s) && ShapesOk(s) && Enabled(s, step) && Target(s, step).Some?
    ensures var t := Apply(s, step);
            var p := Target(s, step).value;
            && Held(t, p).Some?
            && var r := Held(t, p).value;
            && r.uid < |t.ledger| && t.ledger[r.uid] == p
            && r.uid < |t.received| && r == t.received[r.uid]
            && (Source(s, step).Some? ==> Held(t, Source(s, step).value) == None)
  {
    match step
    case Register(c) => assert Held(s, Early(s.calls[c].key)).Some?;
    case SendEarly(c) => assert Held(s, Carried(c)).Some?;
    case Receive(c) => assert CallShape(s.calls[c]); assert Held(s, InBuffer(c)).Some?;
    case Claim => assert Held(s, InHand).Some?;
    case Deliver => assert Held(s, InHand).Some?;
    case _ =>
  }

  lemma LostStays(s: State, step: Step, u: nat)
    requires ReceivedOk(s) && NothingForged(s) && Enabled(s, step) && u in Apply(s, step).lost
    ensures var t := Apply(s, step);
            u < |t.ledger| && u < |s.received| <= |t.received| && t.ledger[u] == Overwritten(u)
            && t.received[u] == s.received[u] && s.received[u].uid == u
  {
    if u in s.lost {
      assert Held(s, Overwritten(u)).Some?;
      LedgerKeeps(s, step, u);
    } else {
      assert Held(s, Early(ServerKey(s.hand.reply.id))).Some? && Held(s, InHand).Some?;
    }
  }

  lemma NothingForgedAt(s: State, step: Step, p: Place)
    requires ReceivedOk(s) && NothingForged(s) && NothingMissing(s) && ShapesOk(s) && Enabled(s, step)
    requires Held(Apply(s, step), p).Some?
    ensures var t := Apply(s, step);
            var r := Held(t, p).value;
            r.uid < |t.received| && r == t.received[r.uid] && r.uid < |t.ledger| && t.ledger[r.uid] == p
  {
    var t := Apply(s, step);
    if Some(p) == Target(s, step) {
      MovedReply(s, step);
    } else if p.Overwritten? {
      LostStays(s, step, p.uid);
    } else if Some(p) == Source(s, step) {
    } else {
      OnlyTheMovedReplyMoves(s, step, p);
      LedgerKeeps(s, step, Held(s, p).value.uid);
    }
  }

  lemma NothingMissingAt(s: State, step: Step, u: nat)
    requires ReceivedOk(s) && NothingForged(s) && NothingMissing(s) && ShapesOk(s) && Enabled(s, step)
    requires u < |Apply(s, step).received|
    ensures var t := Apply(s, step);
            u < |t.ledger| && Held(t, t.ledger[u]) == Some(t.received[u])
  {
    var t := Apply(s, step);
    if Target(s, step).Some? {
      MovedReply(s, step);
    }
    if u < |s.received| {
      assert Held(s, s.ledger[u]) == Some(s.received[u]);
      if Some(s.ledger[u]) == Source(s, step) {
      } else if Some(s.ledger[u]) == Target(s, step) {
        TargetOverwritten(s, step, u);
      } else {
        LedgerKeeps(s, step, u);
        if !s.ledger[u].Overwritten? {
          OnlyTheMovedReplyMoves(s, step, s.ledger[u]);
        }
      }
    }
  }

  /** Only earlyResponses can be hit while it holds a response under the same key. */
  lemma TargetOverwritten(s: State, step: Step, u: nat)
    requires ReceivedOk(s) && NothingForged(s) && ShapesOk(s) && Enabled(s, step) && u < |s.received|
    requires Target(s, step) == Some(s.ledger[u]) && Held(s, s.ledger[u]) == Some(s.received[u])
    ensures var t := Apply(s, step);
            step == Claim && t.ledger[u] == Overwritten(u) && Held(t, Overwritten(u)) == Some(t.received[u])
  {
    if step == Claim { assert Held(s, InHand).Some?; }
  }

  lemma LedgerStep(s: State, step: Step)
    requires ReceivedOk(s) && NothingForged(s) && NothingMissing(s) && ShapesOk(s) && Enabled(s, step)
    ensures ReceivedOk(Apply(s, step)) && NothingForged(Apply(s, step)) && NothingMissing(Apply(s, step))
  {
    var t := Apply(s, step);
    if step == Claim && ServerKey(s.hand.reply.id) in s.tables.early {
      assert Held(s, Early(ServerKey(s.hand.reply.id))).Some?;
    }
    forall p | Held(t, p).Some?
      ensures var r := Held(t, p).value;
              r.uid < |t.received| && r == t.received[r.uid] && r.uid < |t.ledger| && t.ledger[r.uid] == p
    {
      NothingForgedAt(s, step, p);
    }
    forall u | 0 <= u < |t.ledger| && u < |t.received| ensures Held(t, t.ledger[u]) == Some(t.received[u]) {
      NothingMissingAt(s, step, u);
    }
  }

  lemma SpentStays(s: State, step: Step, key: string)
    requires Spent(s, key) && Enabled(s, step) && DistinctKeys(s)
    ensures Spent(Apply(s, step), key)
  {
    var t := Apply(s, step);
    var c :| 0 <= c < |s.calls| && s.calls[c].key == key && !s.calls[c].pc.Registering?;
    assert t.calls[c].key == key && !t.calls[c].pc.Registering?;
    if step.Register? { assert s.calls[c].key != s.calls[step.c].key; }
  }

  lemma EarlyTakenIsSpent(s: State, c: nat)
    requires TablesOk(s) && Enabled(s, Register(c)) && s.calls[c].key in s.tables.early
    ensures Spent(Apply(s, Register(c)), s.calls[c].key)
  {
    var t := Apply(s, Register(c));
    assert t.calls[c].key == s.calls[c].key && !t.calls[c].pc.Registering?;
  }

  /** One response and its key: it is not skipped by a step. */
  lemma NotSkippedAt(s: State, step: Step, u: nat)
    requires TablesOk(s) && NothingSkipped(s) && Enabled(s, step) && DistinctKeys(s)
    requires u < |Apply(s, step).received|
    ensures var t := Apply(s, step);
            var key := ServerKey(t.received[u].id);
            key in t.tables.early || t.hand == Holding(t.received[u]) || Spent(t, key)
  {
    if u < |s.received| {
      var key := ServerKey(s.received[u].id);
      if Spent(s, key) {
        SpentStays(s, step, key);
      } else if key in s.tables.early {
        if step.Register? && s.calls[step.c].key == key { EarlyTakenIsSpent(s, step.c); }
      } else if step == Claim && key in s.tables.pending {
      }
    }
  }

  lemma SkippedStep(s: State, step: Step)
    requires TablesOk(s) && NothingSkipped(s) && Enabled(s, step) && DistinctKeys(s)
    ensures NothingSkipped(Apply(s, step))
  {
    var t := Apply(s, step);
    forall u | 0 <= u < |t.received|
      ensures var key := ServerKey(t.received[u].id);
              key in t.tables.early || t.hand == Holding(t.received[u]) || Spent(t, key)
    {
      NotSkippedAt(s, step, u);
    }
  }

  lemma KeysStep(s: State, step: Step)
    requires KeysOk(s) && Enabled(s, step)
    ensures KeysOk(Apply(s, step)) && |s.calls| <= |Apply(s, step).calls|
  {
    if step.Begin? {
      var n := |s.calls|;
      assert (n % WORD + 1) % WORD == (n + 1) % WORD;
    }
  }

  ghost predicate FullInv(s: State) {
    Inv(s) && (|s.calls| <= WORD ==> Tight(s))
  }

  lemma InvStep(s: State, step: Step)
    requires Inv(s) && Enabled(s, step)
    ensures Inv(Apply(s, step))
  {
    KeysStep(s, step);
    TablesStep(s, step);
    ShapesStep(s, step);
    HandStep(s, step);
    LedgerStep(s, step);
  }

  lemma TightStep(s: State, step: Step)
    requires TablesOk(s) && HandOk(s) && Tight(s) && Enabled(s, step) && DistinctKeys(s)
    ensures Tight(Apply(s, step))
  {
    AllPendingStep(s, step);
    SkippedStep(s, step);
  }

  /** Every step keeps the invariant, and what needs distinct keys up to 2^64 calls. */
  lemma StepKeepsInvariant(s: State, step: Step)
    requires FullInv(s) && Enabled(s, step)
    ensures FullInv(Apply(s, step))
  {
    InvStep(s, step);
    KeysStep(s, step);
    if |Apply(s, step).calls| <= WORD {
      BoundedKeys(s);
      TightStep(s, step);
    }
  }

  lemma {:induction false} RunKeepsInvariant(s: State, run: seq<Step>)
    requires FullInv(s) && Valid(s, run)
    ensures FullInv(After(s, run))
    decreases |run|
  {
    if run != [] {
      StepKeepsInvariant(s, run[0]);
      RunKeepsInvariant(Apply(s, run[0]), run[1..]);
    }
  }
}
