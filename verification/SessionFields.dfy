/** The two fields of a session under its lock: session/load writes them and a prompt's snapshot reads
    them one after the other, each access a step of its own. */
module SessionFields {
  import opened Protocol
  import Locks

  /** What a goroutine does with session i, and how many of the two fields it has accessed. */
  datatype Work =
    | Loads(i: nat, snap: Snapshot, done: nat)
    | Snaps(i: nat, got: Snapshot, done: nat)

  /** Goroutine g takes and gives back the locks of threads[g]. `fields` is what the sessions hold now;
      `bound` is history: the complete bindings each session has had. */
  datatype State = State(
    threads: seq<Locks.Thread>,
    works: seq<Work>,
    fields: map<nat, Snapshot>,
    bound: set<(nat, Snapshot)>)

  datatype Step =
    | Create(i: nat, snap: Snapshot)
    | Start(work: Work)
    | Lock(g: nat)
    | Access(g: nat)

  function Init(): State {
    State([], [], map[], {})
  }

  function SectionOf(work: Work): Locks.Section {
    match work
    case Loads(i, _, _) => Locks.Rebind(i)
    case Snaps(i, _, _) => Locks.TakeSnapshot(i)
  }

  predicate Holds(s: State, g: nat) {
    g < |s.works| && g < |s.threads| && Locks.SessionMu(s.works[g].i) in s.threads[g].held
  }

  /** The goroutine's next operation gives the session's lock back. */
  predicate GivesBack(s: State, g: nat) {
    g < |s.works| && g < |s.threads| && s.threads[g].todo != []
    && s.threads[g].todo[0] == Locks.Release(Locks.SessionMu(s.works[g].i))
  }

  ghost predicate Enabled(s: State, step: Step) {
    match step
    case Create(i, _) => i !in s.fields
    case Start(work) => work.i in s.fields && work.done == 0
    case Lock(g) => g < |s.works| && Locks.CanStep(s.threads, g) && (GivesBack(s, g) ==> s.works[g].done == 2)
    case Access(g) => Holds(s, g) && s.works[g].i in s.fields && s.works[g].done < 2
  }

  /** One access: the working directory first, then the MCP servers. */
  function Accessed(s: State, g: nat): State
    requires g < |s.works| && s.works[g].i in s.fields
  {
    match s.works[g]
    case Loads(i, snap, done) =>
      var t := s.(works := s.works[g := Loads(i, snap, done + 1)]);
      if done == 0 then t.(fields := s.fields[i := s.fields[i].(cwd := snap.cwd)])
      else t.(fields := s.fields[i := s.fields[i].(mcp := snap.mcp)], bound := s.bound + {(i, snap)})
    case Snaps(i, got, done) =>
      var now := if done == 0 then got.(cwd := s.fields[i].cwd) else got.(mcp := s.fields[i].mcp);
      s.(works := s.works[g := Snaps(i, now, done + 1)])
  }

  ghost function Apply(s: State, step: Step): State
    requires Enabled(s, step)
  {
    match step
    case Create(i, snap) => s.(fields := s.fields[i := snap], bound := s.bound + {(i, snap)})
    case Start(work) => s.(threads := Locks.Apply(s.threads, Locks.Go([SectionOf(work)])), works := s.works + [work])
    case Lock(g) => s.(threads := Locks.Apply(s.threads, Locks.Advance(g)))
    case Access(g) => Accessed(s, g)
  }

  ghost predicate Valid(s: State, run: seq<Step>)
    decreases |run|
  {
    run == [] || (Enabled(s, run[0]) && Valid(Apply(s, run[0]), run[1..]))
  }

  ghost function After(s: State, run: seq<Step>): State
    requires Valid(s, run)
    decreases |run|
  {
    if run == [] then s else After(Apply(s, run[0]), run[1..])
  }

  // ----- The invariant -----

  /** The session locks are mutexes. */
  predicate Mutexes(t: Locks.Thread) {
    && (forall k | 0 <= k < |t.todo| && t.todo[k].Acquire? && t.todo[k].lock.SessionMu? :: t.todo[k].mode.Exclusive?)
    && (forall lock | lock in t.held && lock.SessionMu? :: t.held[lock].Exclusive?)
  }

  ghost predicate LocksOk(s: State) {
    && Locks.Inv(s.threads) && |s.threads| == |s.works|
    && forall g | 0 <= g < |s.threads| :: Mutexes(s.threads[g])
  }

  predicate Halfway(s: State, g: nat) {
    g < |s.works| && s.works[g].done == 1
  }

  predicate WorkOk(s: State, g: nat)
    requires g < |s.works|
  {
    && s.works[g].i in s.fields && s.works[g].done <= 2
    && (Halfway(s, g) ==> Holds(s, g))
    && match s.works[g]
       case Loads(i, snap, done) => done == 1 ==> s.fields[i].cwd == snap.cwd
       case Snaps(i, got, done) =>
         && (done == 1 ==> (i, s.fields[i]) in s.bound && got.cwd == s.fields[i].cwd)
         && (done == 2 ==> (i, got) in s.bound)
  }

  predicate Loading(s: State, g: nat, i: nat) {
    Halfway(s, g) && s.works[g].Loads? && s.works[g].i == i
  }

  /** Unless a session/load is between its two writes, a session holds a complete binding. */
  ghost predicate Whole(s: State, i: nat)
    requires i in s.fields
  {
    (i, s.fields[i]) in s.bound || exists g: nat :: Loading(s, g, i)
  }

  ghost predicate FieldsOk(s: State) {
    forall i | i in s.fields :: Whole(s, i)
  }

  ghost predicate Inv(s: State) {
    LocksOk(s) && (forall g | 0 <= g < |s.works| :: WorkOk(s, g)) && FieldsOk(s)
  }

  /** Mutual exclusion: who holds a session's lock is alone, so nobody else is halfway through. */
  lemma HolderIsAlone(s: State, g: nat, h: nat)
    requires LocksOk(s) && Holds(s, g) && h < |s.works| && g != h && s.works[h].i == s.works[g].i
    ensures !Holds(s, h)
  {
    var (a, b) := if g < h then (g, h) else (h, g);
    assert Locks.Compatible(s.threads[a], s.threads[b]);
    assert Mutexes(s.threads[a]) && Mutexes(s.threads[b]);
  }

  /** Who holds a session's lock and is not between its own two writes finds a complete binding. */
  lemma HolderFindsWhole(s: State, g: nat)
    requires Inv(s) && Holds(s, g) && !(s.works[g].Loads? && Halfway(s, g))
    ensures s.works[g].i in s.fields && (s.works[g].i, s.fields[s.works[g].i]) in s.bound
  {
    var i := s.works[g].i;
    assert WorkOk(s, g) && Whole(s, i);
    if (i, s.fields[i]) !in s.bound {
      var h: nat :| Loading(s, h, i);
      assert WorkOk(s, h);
      HolderIsAlone(s, g, h);
    }
  }

  lemma OthersStayWhole(s: State, t: State, g: nat, j: nat)
    requires g < |s.works| == |t.works| && j in s.fields && j in t.fields && t.fields[j] == s.fields[j]
    requires s.bound <= t.bound && forall h | 0 <= h < |s.works| && h != g :: t.works[h] == s.works[h]
    requires Whole(s, j) && (Loading(s, g, j) ==> Loading(t, g, j))
    ensures Whole(t, j)
  {
    if (j, s.fields[j]) !in s.bound {
      var h: nat :| Loading(s, h, j);
      assert Loading(t, h, j);
    }
  }

  lemma AccessKeeps(s: State, g: nat)
    requires Inv(s) && Enabled(s, Access(g))
    ensures Inv(Accessed(s, g))
  {
    var t := Accessed(s, g);
    var i := s.works[g].i;
    if s.works[g].Snaps? { HolderFindsWhole(s, g); }
    forall h | 0 <= h < |t.works| ensures WorkOk(t, h) {
      assert WorkOk(s, h);
      if h != g && s.works[h].i == i { HolderIsAlone(s, g, h); }
    }
    forall j | j in t.fields ensures Whole(t, j) {
      assert Whole(s, j);
      if j != i || s.works[g].Snaps? {
        OthersStayWhole(s, t, g, j);
      } else {
        assert WorkOk(s, g);
        assert Loading(t, g, j) || t.fields[j] == s.works[g].snap;
      }
    }
  }

  lemma StayWhole(s: State, t: State)
    requires FieldsOk(s) && |s.works| <= |t.works| && t.works[..|s.works|] == s.works && s.bound <= t.bound
    requires forall j | j in t.fields :: (j, t.fields[j]) in t.bound || (j in s.fields && t.fields[j] == s.fields[j])
    ensures FieldsOk(t)
  {
    forall j | j in t.fields ensures Whole(t, j) {
      if (j, t.fields[j]) !in t.bound {
        assert Whole(s, j);
        var h: nat :| Loading(s, h, j);
        assert t.works[h] == s.works[h] && Loading(t, h, j);
      }
    }
  }

  lemma SectionMutexes(work: Work)
    ensures Mutexes(Locks.Thread(Locks.Program([SectionOf(work)]), map[], false))
  {
    assert Locks.Program([]) == [] && [SectionOf(work)][1..] == [];
  }

  lemma StartKeeps(s: State, work: Work)
    requires Inv(s) && Enabled(s, Start(work))
    ensures Inv(Apply(s, Start(work)))
  {
    var t := Apply(s, Start(work));
    Locks.StepKeepsInv(s.threads, Locks.Go([SectionOf(work)]));
    SectionMutexes(work);
    assert t.works[..|s.works|] == s.works;
    forall h | 0 <= h < |t.works| ensures WorkOk(t, h) {
      if h < |s.works| { assert WorkOk(s, h); }
    }
    StayWhole(s, t);
  }

  lemma LockKeeps(s: State, g: nat)
    requires Inv(s) && Enabled(s, Lock(g))
    ensures Inv(Apply(s, Lock(g)))
  {
    var t := Apply(s, Lock(g));
    Locks.StepKeepsInv(s.threads, Locks.Advance(g));
    forall h | 0 <= h < |t.works| ensures WorkOk(t, h) {
      assert WorkOk(s, h);
    }
    StayWhole(s, t);
  }

  lemma CreateKeeps(s: State, i: nat, snap: Snapshot)
    requires Inv(s) && Enabled(s, Create(i, snap))
    ensures Inv(Apply(s, Create(i, snap)))
  {
    var t := Apply(s, Create(i, snap));
    forall h | 0 <= h < |t.works| ensures WorkOk(t, h) {
      assert WorkOk(s, h);
    }
    StayWhole(s, t);
  }

  lemma {:induction false} RunKeepsInv(s: State, run: seq<Step>)
    requires Inv(s) && Valid(s, run)
    ensures Inv(After(s, run))
    decreases |run|
  {
    if run != [] {
      match run[0] {
        case Create(i, snap) => CreateKeeps(s, i, snap);
        case Access(g) => AccessKeeps(s, g);
        case Start(work) => StartKeeps(s, work);
        case Lock(g) => LockKeeps(s, g);
      }
      RunKeepsInv(Apply(s, run[0]), run[1..]);
    }
  }

  /** However goroutines interleave between any two accesses, the two fields that a prompt's snapshot has
      read under the session's lock are those of one single binding. */
  lemma SnapshotsAreNotTorn(run: seq<Step>, g: nat)
    requires Valid(Init(), run) && g < |After(Init(), run).works|
    requires After(Init(), run).works[g].Snaps? && After(Init(), run).works[g].done == 2
    ensures var s := After(Init(), run); (s.works[g].i, s.works[g].got) in s.bound
  {
    RunKeepsInv(Init(), run);
    assert WorkOk(After(Init(), run), g);
  }
}
