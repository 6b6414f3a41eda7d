/** The server's locks: which are taken while others are held, and why no wait can go in a circle. */
module Locks {
  /** sessionsMu and clientCapsMu are read-write locks; each session has its own mutex. */
  datatype Lock = SessionsMu | SessionMu(i: nat) | CapsMu | CancelMu | PendingMu | WriterMu

  /** The order of acquisition. */
  function Rank(lock: Lock): nat {
    match lock
    case SessionsMu => 0
    case SessionMu(_) => 1
    case CapsMu => 2
    case _ => 3
  }

  /** Shared is RLock; Exclusive is Lock. */
  datatype Mode = Shared | Exclusive

  /** Wait stands for whatever may take arbitrarily long: channel operations, the executor, reading
      input, calling a cancel function. */
  datatype Op = Acquire(lock: Lock, mode: Mode) | Release(lock: Lock) | Wait

  // ----- The critical sections of the code -----

  datatype Section =
    | FindSession
    | AddSession
    | ListSessions(ids: seq<nat>)
    | Rebind(i: nat)
    | TakeSnapshot(i: nat)
    | TouchSession(i: nat)
    | SetCaps
    | ReadCaps
    | CancelTables
    | ResponseTables
    | WriteLine
    | Outside

  function Around(lock: Lock, mode: Mode, inside: seq<Op>): seq<Op> {
    [Acquire(lock, mode)] + inside + [Release(lock)]
  }

  function EachSession(ids: seq<nat>): seq<Op> {
    if ids == [] then [] else Around(SessionMu(ids[0]), Exclusive, []) + EachSession(ids[1..])
  }

  function Ops(section: Section): seq<Op> {
    match section
    case FindSession => Around(SessionsMu, Shared, [])
    case AddSession => Around(SessionsMu, Exclusive, [])
    case ListSessions(ids) => Around(SessionsMu, Shared, EachSession(ids))
    case Rebind(i) => Around(SessionMu(i), Exclusive, [])
    case TakeSnapshot(i) => Around(SessionMu(i), Exclusive, Around(CapsMu, Shared, []))
    case TouchSession(i) => Around(SessionMu(i), Exclusive, [])
    case SetCaps => Around(CapsMu, Exclusive, [])
    case ReadCaps => Around(CapsMu, Shared, [])
    case CancelTables => Around(CancelMu, Exclusive, [])
    case ResponseTables => Around(PendingMu, Exclusive, [])
    case WriteLine => Around(WriterMu, Exclusive, [])
    case Outside => [Wait]
  }

  /** What a goroutine of the server does to the locks: one section after the other. */
  function Program(sections: seq<Section>): seq<Op> {
    if sections == [] then [] else Ops(sections[0]) + Program(sections[1..])
  }

  /** Locks are acquired in increasing rank, released only while held, and none is held while waiting
      or at the end. */
  predicate Ordered(todo: seq<Op>, held: map<Lock, Mode>)
    decreases |todo|
  {
    if todo == [] then held == map[]
    else
      match todo[0]
      case Acquire(lock, mode) =>
        (forall l | l in held :: Rank(l) < Rank(lock)) && Ordered(todo[1..], held[lock := mode])
      case Release(lock) => lock in held && Ordered(todo[1..], held - {lock})
      case Wait => held == map[] && Ordered(todo[1..], held)
  }

  lemma {:induction false} EachSessionOrdered(ids: seq<nat>, rest: seq<Op>, mode: Mode)
    requires Ordered(rest, map[SessionsMu := mode])
    ensures Ordered(EachSession(ids) + rest, map[SessionsMu := mode])
  {
    var held := map[SessionsMu := mode];
    if ids == [] {
      assert EachSession(ids) + rest == rest;
    } else {
      EachSessionOrdered(ids[1..], rest, mode);
      AroundOrdered(SessionMu(ids[0]), Exclusive, EachSession(ids[1..]) + rest, held);
      assert EachSession(ids) + rest
          == Around(SessionMu(ids[0]), Exclusive, []) + (EachSession(ids[1..]) + rest);
    }
  }

  lemma AroundOrdered(lock: Lock, mode: Mode, rest: seq<Op>, held: map<Lock, Mode>)
    requires Ordered(rest, held) && forall l | l in held :: Rank(l) < Rank(lock)
    ensures Ordered(Around(lock, mode, []) + rest, held)
  {
    var todo := Around(lock, mode, []) + rest;
    assert todo[1..] == [Release(lock)] + rest && todo[1..][1..] == rest;
    assert held[lock := mode] - {lock} == held;
  }

  lemma ListOrdered(ids: seq<nat>, rest: seq<Op>)
    requires Ordered(rest, map[])
    ensures Ordered(Ops(ListSessions(ids)) + rest, map[])
  {
    var todo := Ops(ListSessions(ids)) + rest;
    var after := [Release(SessionsMu)] + rest;
    assert after[1..] == rest && map[SessionsMu := Shared] - {SessionsMu} == map[];
    EachSessionOrdered(ids, after, Shared);
    assert todo[1..] == EachSession(ids) + after;
  }

  lemma SnapshotOrdered(i: nat, rest: seq<Op>)
    requires Ordered(rest, map[])
    ensures Ordered(Ops(TakeSnapshot(i)) + rest, map[])
  {
    var todo := Ops(TakeSnapshot(i)) + rest;
    var (held, after) := (map[SessionMu(i) := Exclusive], [Release(SessionMu(i))] + rest);
    assert after[1..] == rest && held - {SessionMu(i)} == map[];
    AroundOrdered(CapsMu, Shared, after, held);
    assert todo[1..] == Around(CapsMu, Shared, []) + after;
  }

  lemma SectionOrdered(section: Section, rest: seq<Op>)
    requires Ordered(rest, map[])
    ensures Ordered(Ops(section) + rest, map[])
  {
    match section
    case ListSessions(ids) => ListOrdered(ids, rest);
    case TakeSnapshot(i) => SnapshotOrdered(i, rest);
    case Outside => assert (Ops(section) + rest)[1..] == rest;
    case FindSession => AroundOrdered(SessionsMu, Shared, rest, map[]);
    case AddSession => AroundOrdered(SessionsMu, Exclusive, rest, map[]);
    case Rebind(i) => AroundOrdered(SessionMu(i), Exclusive, rest, map[]);
    case TouchSession(i) => AroundOrdered(SessionMu(i), Exclusive, rest, map[]);
    case SetCaps => AroundOrdered(CapsMu, Exclusive, rest, map[]);
    case ReadCaps => AroundOrdered(CapsMu, Shared, rest, map[]);
    case CancelTables => AroundOrdered(CancelMu, Exclusive, rest, map[]);
    case ResponseTables => AroundOrdered(PendingMu, Exclusive, rest, map[]);
    case WriteLine => AroundOrdered(WriterMu, Exclusive, rest, map[]);
  }

  /** Every sequence of the code's critical sections respects the lock order. */
  lemma {:induction false} ProgramsAreOrdered(sections: seq<Section>)
    ensures Ordered(Program(sections), map[])
  {
    if sections != [] {
      ProgramsAreOrdered(sections[1..]);
      SectionOrdered(sections[0], Program(sections[1..]));
    }
  }

  // ----- Goroutines taking locks -----

  /** `announced`: the goroutine's Lock has shut out new readers (and writers) and waits for the
      readers inside to leave. */
  datatype Thread = Thread(todo: seq<Op>, held: map<Lock, Mode>, announced: bool)

  predicate Wants(t: Thread, lock: Lock) {
    t.todo != [] && t.todo[0].Acquire? && t.todo[0].lock == lock
  }

  predicate WritesTo(t: Thread, lock: Lock) {
    (lock in t.held && t.held[lock].Exclusive?) || (t.announced && Wants(t, lock))
  }

  /** Thread j stands in the way of what thread i does next. */
  predicate Blocks(s: seq<Thread>, j: nat, i: nat) {
    && i < |s| && j < |s| && i != j && s[i].todo != [] && s[i].todo[0].Acquire?
    && var lock := s[i].todo[0].lock;
       if s[i].announced then lock in s[j].held else WritesTo(s[j], lock)
  }

  ghost predicate CanStep(s: seq<Thread>, i: nat) {
    i < |s| && s[i].todo != [] && forall j: nat :: !Blocks(s, j, i)
  }

  function StepOf(t: Thread): Thread
    requires t.todo != []
  {
    match t.todo[0]
    case Acquire(lock, mode) =>
      if mode.Exclusive? && !t.announced then t.(announced := true)
      else Thread(t.todo[1..], t.held[lock := mode], false)
    case Release(lock) => t.(todo := t.todo[1..], held := t.held - {lock})
    case Wait => t.(todo := t.todo[1..])
  }

  datatype Step = Go(sections: seq<Section>) | Advance(i: nat)

  ghost predicate Enabled(s: seq<Thread>, step: Step) {
    step.Advance? ==> CanStep(s, step.i)
  }

  function Apply(s: seq<Thread>, step: Step): seq<Thread>
    requires step.Advance? ==> step.i < |s| && s[step.i].todo != []
  {
    match step
    case Go(sections) => s + [Thread(Program(sections), map[], false)]
    case Advance(i) => s[i := StepOf(s[i])]
  }

  ghost predicate Valid(s: seq<Thread>, run: seq<Step>)
    decreases |run|
  {
    run == [] || (Enabled(s, run[0]) && Valid(Apply(s, run[0]), run[1..]))
  }

  ghost function After(s: seq<Thread>, run: seq<Step>): seq<Thread>
    requires Valid(s, run)
    decreases |run|
  {
    if run == [] then s else After(Apply(s, run[0]), run[1..])
  }

  // ----- The invariant -----

  predicate ThreadOk(t: Thread) {
    && Ordered(t.todo, t.held)
    && (t.announced ==> t.todo != [] && t.todo[0].Acquire? && t.todo[0].mode.Exclusive?)
  }

  /** A lock has one writer, inside or announced, and a writer inside is alone. */
  predicate Compatible(t: Thread, u: Thread) {
    && (forall lock | lock in t.held && lock in u.held :: t.held[lock].Shared? && u.held[lock].Shared?)
    && (t.announced && t.todo != [] && t.todo[0].Acquire? ==> !WritesTo(u, t.todo[0].lock))
    && (u.announced && u.todo != [] && u.todo[0].Acquire? ==> !WritesTo(t, u.todo[0].lock))
  }

  ghost predicate Inv(s: seq<Thread>) {
    && (forall i | 0 <= i < |s| :: ThreadOk(s[i]))
    && (forall i, j | 0 <= i < j < |s| :: Compatible(s[i], s[j]))
  }

  lemma PairStep(s: seq<Thread>, i: nat, j: nat)
    requires i < |s| && j < |s| && i != j && s[i].todo != [] && !Blocks(s, j, i)
    requires ThreadOk(s[i]) && ThreadOk(s[j]) && Compatible(s[i], s[j])
    ensures Compatible(StepOf(s[i]), s[j])
  {
  }

  lemma StepKeepsInv(s: seq<Thread>, step: Step)
    requires Inv(s) && Enabled(s, step)
    ensures Inv(Apply(s, step))
  {
    var t := Apply(s, step);
    match step
    case Go(sections) =>
      ProgramsAreOrdered(sections);
    case Advance(k) =>
      forall i, j | 0 <= i < j < |t| ensures Compatible(t[i], t[j]) {
        assert Compatible(s[i], s[j]);
        if i == k {
          PairStep(s, k, j);
        } else if j == k {
          PairStep(s, k, i);
        }
      }
  }

  lemma {:induction false} RunKeepsInv(s: seq<Thread>, run: seq<Step>)
    requires Inv(s) && Valid(s, run)
    ensures Inv(After(s, run))
    decreases |run|
  {
    if run != [] {
      StepKeepsInv(s, run[0]);
      RunKeepsInv(Apply(s, run[0]), run[1..]);
    }
  }

  // ----- Theorems -----

  /** How far up the lock order a thread waits; an announced writer is above the others at its lock. */
  function Height(t: Thread): nat {
    if t.todo != [] && t.todo[0].Acquire? then 2 * Rank(t.todo[0].lock) + (if t.announced then 1 else 0) else 8
  }

  /** A chain of threads, each in the way of the one before. */
  ghost predicate WaitChain(s: seq<Thread>, chain: seq<nat>) {
    forall k | 0 <= k < |chain| - 1 :: Blocks(s, chain[k + 1], chain[k])
  }

  lemma {:induction false} ChainClimbs(s: seq<Thread>, chain: seq<nat>)
    requires Inv(s) && WaitChain(s, chain) && |chain| >= 2
    ensures chain[0] < |s| && chain[|chain| - 1] < |s| && Height(s[chain[0]]) < Height(s[chain[|chain| - 1]])
  {
    if |chain| > 2 {
      assert forall k | 0 <= k < |chain[1..]| :: chain[1..][k] == chain[k + 1];
      ChainClimbs(s, chain[1..]);
    }
  }

  /** In no reachable state, with any number of goroutines, is there a cycle of waiting. */
  lemma NoWaitCycle(run: seq<Step>, chain: seq<nat>)
    requires Valid([], run) && |chain| >= 2 && WaitChain(After([], run), chain)
    ensures chain[0] != chain[|chain| - 1]
  {
    RunKeepsInv([], run);
    ChainClimbs(After([], run), chain);
  }

  lemma Unblocked(s: seq<Thread>, i: nat) returns (j: nat)
    requires Inv(s) && i < |s| && s[i].todo != []
    ensures CanStep(s, j)
    decreases 8 - Height(s[i])
  {
    if k: nat :| Blocks(s, k, i) {
      j := Unblocked(s, k);
    } else {
      j := i;
    }
  }

  /** As long as some goroutine is not through, some goroutine can go on. */
  lemma SomeoneCanAlwaysGoOn(run: seq<Step>, i: nat)
    requires Valid([], run) && i < |After([], run)| && After([], run)[i].todo != []
    ensures exists j: nat :: CanStep(After([], run), j)
  {
    RunKeepsInv([], run);
    var j := Unblocked(After([], run), i);
  }

  /** Whoever waits outside the locks holds none, so a channel, an executor or a client that never
      comes back keeps no lock from anyone. */
  lemma WaitingHoldsNothing(run: seq<Step>, i: nat)
    requires Valid([], run) && i < |After([], run)|
    requires After([], run)[i].todo == [] || After([], run)[i].todo[0].Wait?
    ensures After([], run)[i].held == map[]
  {
    RunKeepsInv([], run);
    assert ThreadOk(After([], run)[i]);
  }

  /** The locks do their job: a writer inside is alone. */
  lemma MutualExclusion(run: seq<Step>, i: nat, j: nat, lock: Lock)
    requires Valid([], run) && i < |After([], run)| && j < |After([], run)| && i != j
    requires lock in After([], run)[i].held && After([], run)[i].held[lock].Exclusive?
    ensures lock !in After([], run)[j].held
  {
    RunKeepsInv([], run);
    var s := After([], run);
    if i < j { assert Compatible(s[i], s[j]); } else { assert Compatible(s[j], s[i]); }
  }
}
