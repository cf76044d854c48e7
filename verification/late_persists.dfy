/**
What happens without the join: a persist that its allocation's eviction has not waited for. Every such
step can go on, by guarded steps only, to a state where the local metadata is behind the store, and from
there to a stage-in that replaces newer local data with an older snapshot.
*/
module LatePersists {
  import opened Common
  import opened Persistence

  /** A stage-in that replaces a local copy by older data. */
  predicate Loses(s: State, a: Alloc) {
    && Enabled(s, StageIn(a)) && s.local.Some?
    && Apply(s, StageIn(a)).local.Some?
    && Apply(s, StageIn(a)).local.value.data < s.local.value.data
  }

  ghost predicate StaysSafe(s: State) {
    forall p :: GuardedFrom(s, p) ==> Safe(From(s, p))
  }

  ghost predicate NeverLoses(s: State) {
    forall p, a :: GuardedFrom(s, p) ==> !Loses(From(s, p), a)
  }

  /**
  The join is exactly what is missing. After a step from an invariant state, all guarded continuations
  stay safe if and only if the step was guarded, and likewise they never lose newer local data.
  */
  lemma JoinIsExact(s: State, t: Step)
    requires Inv(s) && Enabled(s, t)
    ensures StaysSafe(Apply(s, t)) <==> Guarded(s, t)
    ensures NeverLoses(Apply(s, t)) <==> Guarded(s, t)
  {
    hide Apply, Enabled, Inv;
    if Guarded(s, t) {
      StepKeeps(s, t);
      InvStaysSafe(Apply(s, t));
    } else {
      var p, q, a := UnguardedHarms(s, t);
    }
  }

  lemma InvStaysSafe(s: State)
    requires Inv(s)
    ensures StaysSafe(s) && NeverLoses(s)
  {
    hide Apply, Enabled, Guarded, GuardedFrom, From, Loses;
    forall p | GuardedFrom(s, p) ensures Safe(From(s, p)) { GuardedFromKeeps(s, p); }
    forall p, a | GuardedFrom(s, p) ensures !Loses(From(s, p), a) {
      GuardedFromKeeps(s, p);
      InvLosesNothing(From(s, p), a);
    }
  }

  lemma InvLosesNothing(s: State, a: Alloc)
    requires Inv(s)
    ensures !Loses(s, a)
  {
    assert AllocOk(s, a);
  }

  // ---------------------------------------------------------------- from an unguarded step to the harm

  lemma Follow(s: State, p: Trace, t: Step) returns (p': Trace)
    requires GuardedFrom(s, p) && Enabled(From(s, p), t) && Guarded(From(s, p), t)
    ensures GuardedFrom(s, p') && From(s, p') == Apply(From(s, p), t)
  {
    p' := Then(p, t);
  }

  /** Nobody has the directory, and a late persist is still under way. */
  predicate Stranded(s: State, a: Alloc) {
    s.owner.None? && Behind(s, a)
  }

  predicate Behind(s: State, a: Alloc) {
    && a in s.allocs && !s.allocs[a].job.NoJob? && JobOk(s, s.allocs[a].job)
    && (s.snapshot.Some? ==> s.snapshot.value.generation == s.uploaded && s.snapshot.value.data < s.clock)
    && (s.snapshot.None? ==> s.uploaded == 0)
    && 0 < s.clock
  }

  /** The next allocation `c` has restored the latest upload beside that persist. */
  predicate Beside(s: State, a: Alloc, c: Alloc) {
    && a != c && Behind(s, a)
    && s.owner == Some(c) && c in s.allocs && s.allocs[c] == Allocation(Ready, NoJob)
    && s.local.Some? && s.local.value.generation == s.uploaded && s.local.value.data < s.clock
  }

  /** The store has overtaken the metadata of the directory in use. */
  predicate Overtaken(s: State, c: Alloc) {
    && s.owner == Some(c) && c in s.allocs && s.allocs[c].stage.Ready?
    && s.local.Some? && s.snapshot.Some? && s.local.value.generation < s.snapshot.value.generation
    && s.snapshot.value.data < s.clock
  }

  /** Whoever has the directory can give it up: it aborts, or settles its persist and retires. */
  lemma ReleaseOwner(s: State, p: Trace, a: Alloc, b: Alloc) returns (p': Trace)
    requires GuardedFrom(s, p) && From(s, p).owner == Some(b) && a != b && Behind(From(s, p), a)
    requires !Record(From(s, p), b).stage.Retired? && !Record(From(s, p), b).stage.Ended?
    ensures GuardedFrom(s, p') && Stranded(From(s, p'), a)
  {
    hide GuardedFrom, From;
    var r := Record(From(s, p), b);
    if !Holds(r.stage) {
      p' := Follow(s, p, Abort(b));
    } else {
      p' := p;
      if r.job.Stored? {
        p' := Follow(s, p', CommitMeta(b, false));
      } else if !r.job.NoJob? {
        p' := Follow(s, p', UploadFail(b));
      }
      p' := Follow(s, p', Retire(b));
    }
  }

  /** An unguarded step leaves a persist without its directory. */
  lemma UnguardedStrands(s: State, t: Step) returns (p: Trace, a: Alloc)
    requires Inv(s) && Enabled(s, t) && !Guarded(s, t)
    ensures GuardedFrom(Apply(s, t), p) && Stranded(From(Apply(s, t), p), a)
  {
    a := t.a;
    assert AllocOk(s, a);
    p := Start;
    if t.Bump? && s.owner.Some? {
      assert AllocOk(s, s.owner.value);
      p := ReleaseOwner(Apply(s, t), p, a, s.owner.value);
    }
  }

  lemma NextIsBeside(s: State, p: Trace, a: Alloc) returns (p': Trace, c: Alloc)
    requires GuardedFrom(s, p) && Stranded(From(s, p), a)
    ensures GuardedFrom(s, p') && Beside(From(s, p'), a, c)
  {
    hide GuardedFrom, From;
    c := FreshInt(From(s, p).allocs.Keys);
    p' := Follow(s, p, DropLuggage);
    p' := Follow(s, p', Accept(c));
    p' := Follow(s, p', StageIn(c));
    p' := Follow(s, p', Prepare(c));
  }

  /** The late persist goes on: it uploads past the metadata, or puts back a generation uploaded since. */
  lemma LatePersistOvertakes(s: State, p: Trace, a: Alloc, c: Alloc) returns (p': Trace)
    requires GuardedFrom(s, p) && Beside(From(s, p), a, c)
    ensures GuardedFrom(s, p') && Overtaken(From(s, p'), c)
  {
    hide GuardedFrom, From;
    p' := p;
    if From(s, p).allocs[a].job.Stored? {
      p' := Follow(s, p', Bump(c));
      p' := Follow(s, p', Pack(c));
      p' := Follow(s, p', Upload(c, true));
      p' := Follow(s, p', CommitMeta(a, true));
    } else {
      if From(s, p).allocs[a].job.Bumped? { p' := Follow(s, p', Pack(a)); }
      p' := Follow(s, p', Upload(a, true));
    }
  }

  /** The owner writes on; after a crash the next stage-in prefers the older snapshot. */
  lemma OvertakenLoses(s: State, p: Trace, c: Alloc) returns (p': Trace, d: Alloc)
    requires GuardedFrom(s, p) && Overtaken(From(s, p), c)
    ensures GuardedFrom(s, p') && Loses(From(s, p'), d)
  {
    hide GuardedFrom, From;
    d := c;
    p' := Follow(s, p, Write(c));
    p' := Follow(s, p', Crash);
    p' := Follow(s, p', Accept(d));
  }

  lemma UnguardedHarms(s: State, t: Step) returns (p: Trace, q: Trace, d: Alloc)
    requires Inv(s) && Enabled(s, t) && !Guarded(s, t)
    ensures GuardedFrom(Apply(s, t), p) && !Safe(From(Apply(s, t), p))
    ensures GuardedFrom(Apply(s, t), q) && Loses(From(Apply(s, t), q), d)
  {
    hide GuardedFrom, From, Apply, Enabled, Loses, Inv;
    var a, c;
    p, a := UnguardedStrands(s, t);
    p, c := NextIsBeside(Apply(s, t), p, a);
    p := LatePersistOvertakes(Apply(s, t), p, a, c);
    q, d := OvertakenLoses(Apply(s, t), p, c);
  }

  // ---------------------------------------------------------------- exactly which step breaks safety

  /**
  From a safe state a single step breaks safety only if it is a late upload, a late save of the metadata,
  or a first metadata file for a directory whose snapshot arrived after its stage-in.
  */
  lemma LatePersistIsExact(s: State, t: Step)
    requires Safe(s) && Enabled(s, t)
    ensures Safe(Apply(s, t)) <==>
            match t
            case Upload(a, _) =>
              s.uploaded <= Record(s, a).job.generation
                  && (s.local.Some? ==> Record(s, a).job.generation <= s.local.value.generation)
            case CommitMeta(a, saved) => s.local.Some? && saved ==> s.uploaded <= Record(s, a).job.generation
            case Prepare(a) => s.local.Some? || s.uploaded == 0
            case _ => true
  {
  }

  // ---------------------------------------------------------------- the unguarded run

  lemma TakeNothing() returns (tr: Trace)
    ensures Valid(tr) && End(tr) == EMPTY
  {
    tr := Start;
  }

  lemma TakeStep(tr: Trace, t: Step) returns (tr': Trace)
    requires Valid(tr) && Enabled(End(tr), t)
    ensures Valid(tr') && End(tr') == Apply(End(tr), t)
  {
    tr' := Then(tr, t);
  }

  /** A Bed is created on an empty carrier and written to. */
  lemma FirstBedWrites() returns (tr: Trace)
    ensures Valid(tr)
    ensures End(tr) == State(Some(Local(0, 1)), None, Some(0), map[0 := Allocation(Ready, NoJob)], 0, 2)
  {
    hide Valid, End;
    tr := TakeNothing();
    tr := TakeStep(tr, Accept(0));
    tr := TakeStep(tr, StageIn(0));
    tr := TakeStep(tr, Prepare(0));
    tr := TakeStep(tr, Write(0));
  }

  /** A Bed is created and persisted; a second persist of it has uploaded generation 2 but not committed. */
  lemma SecondPersistIsPending() returns (tr: Trace)
    ensures Valid(tr)
    ensures End(tr) == State(Some(Local(2, 1)), Some(Snapshot(2, 1)), Some(0),
        map[0 := Allocation(Ready, Stored(2))], 2, 2)
  {
    hide Valid, End;
    tr := FirstBedWrites();
    tr := PersistOnce(tr, 0);
    tr := UploadOnce(tr, 0);
  }

  /** A persist of the owner up to its upload. */
  lemma UploadOnce(tr: Trace, a: Alloc) returns (tr': Trace)
    requires Valid(tr) && End(tr).owner == Some(a) && Record(End(tr), a) == Allocation(Ready, NoJob)
    requires End(tr).local.Some? && a in End(tr).allocs && Safe(End(tr))
    ensures Valid(tr')
    ensures var s := End(tr); var g := s.local.value.generation + 1;
            End(tr') == s.(local := Some(Local(g, s.local.value.data)),
                snapshot := Some(Snapshot(g, s.local.value.data)),
                           allocs := s.allocs[a := Allocation(Ready, Stored(g))], uploaded := g)
  {
    hide Valid, End;
    tr' := TakeStep(tr, Bump(a));
    tr' := TakeStep(tr', Pack(a));
    tr' := TakeStep(tr', Upload(a, true));
  }

  lemma PersistOnce(tr: Trace, a: Alloc) returns (tr': Trace)
    requires Valid(tr) && End(tr).owner == Some(a) && Record(End(tr), a) == Allocation(Ready, NoJob)
    requires End(tr).local.Some? && a in End(tr).allocs && Safe(End(tr))
    ensures Valid(tr')
    ensures var s := End(tr); var g := s.local.value.generation + 1;
            End(tr') == s.(local := Some(Local(g, s.local.value.data)),
                snapshot := Some(Snapshot(g, s.local.value.data)), uploaded := g)
  {
    hide Valid, End;
    tr' := UploadOnce(tr, a);
    tr' := TakeStep(tr', CommitMeta(a, true));
    assert End(tr').allocs == End(tr).allocs;
  }

  /** The eviction retires that Bed; its successor restores generation 2, persists 3 and writes on. */
  lemma SuccessorPersists() returns (tr: Trace)
    ensures Valid(tr)
    ensures End(tr) == State(Some(Local(3, 3)), Some(Snapshot(3, 2)), Some(1),
                             map[0 := Allocation(Retired, Stored(2)), 1 := Allocation(Ready, NoJob)], 3, 4)
  {
    hide Valid, End;
    tr := SecondPersistIsPending();
    tr := TakeStep(tr, Retire(0));
    tr := TakeStep(tr, Accept(1));
    tr := TakeStep(tr, StageIn(1));
    tr := TakeStep(tr, Prepare(1));
    tr := TakeStep(tr, Write(1));
    assert End(tr) == State(Some(Local(2, 2)), Some(Snapshot(2, 1)), Some(1),
                            map[0 := Allocation(Retired, Stored(2)), 1 := Allocation(Ready, NoJob)], 2, 3);
    tr := PersistOnce(tr, 1);
    tr := TakeStep(tr, Write(1));
  }

  /**
  Without the join, the retired Bed's persist saves its old metadata into its successor's directory:
  the local generation falls below an uploaded one.
  */
  lemma GenerationCanFall() returns (tr: Trace)
    ensures Valid(tr)
    ensures End(tr).local == Some(Local(2, 3)) && End(tr).snapshot == Some(Snapshot(3, 2)) && End(tr).uploaded == 3
    ensures End(tr).owner == Some(1)
  {
    hide Valid, End;
    tr := SuccessorPersists();
    tr := TakeStep(tr, CommitMeta(0, true));
  }

  /** After a crash, stage-in then replaces newer local data with an older snapshot. */
  lemma NewerDataCanBeReplaced() returns (tr: Trace, a: Alloc)
    ensures Valid(tr) && Loses(End(tr), a)
  {
    hide Valid, End;
    tr := GenerationCanFall();
    tr := TakeStep(tr, Crash);
    a := 2;
    tr := TakeStep(tr, Accept(a));
  }

  /** The eviction retires a Bed whose packed snapshot is not uploaded yet; its successor starts from nothing. */
  lemma SuccessorStartsEmpty() returns (tr: Trace)
    ensures Valid(tr)
    ensures End(tr) == State(None, None, Some(1), map[0 := Allocation(Retired, Packed(1, 1)),
        1 := Allocation(Staged, NoJob)], 0, 2)
  {
    hide Valid, End;
    tr := FirstBedWrites();
    tr := TakeStep(tr, Bump(0));
    tr := TakeStep(tr, Pack(0));
    tr := TakeStep(tr, Retire(0));
    assert End(tr) == State(None, None, None, map[0 := Allocation(Retired, Packed(1, 1))], 0, 2);
    tr := TakeStep(tr, Accept(1));
    tr := TakeStep(tr, StageIn(1));
  }

  /** A late upload alone, with no late save of metadata, costs the successor its newer data just as well. */
  lemma LateUploadReplacesNewerData() returns (tr: Trace, a: Alloc)
    ensures Valid(tr) && Loses(End(tr), a)
  {
    hide Valid, End;
    tr := SuccessorStartsEmpty();
    tr := TakeStep(tr, Upload(0, true));
    tr := TakeStep(tr, Prepare(1));
    tr := TakeStep(tr, Write(1));
    assert End(tr).local == Some(Local(0, 2)) && End(tr).snapshot == Some(Snapshot(1, 1));
    tr := TakeStep(tr, Crash);
    a := 2;
    tr := TakeStep(tr, Accept(a));
  }

  /** The eviction retires a Bed whose persist has only bumped; its successor is ready. */
  lemma SuccessorIsReady() returns (tr: Trace)
    ensures Valid(tr)
    ensures End(tr) == State(Some(Local(0, 0)), None, Some(1),
                             map[0 := Allocation(Retired, Bumped(1)), 1 := Allocation(Ready, NoJob)], 0, 2)
  {
    hide Valid, End;
    tr := FirstBedWrites();
    tr := TakeStep(tr, Bump(0));
    tr := TakeStep(tr, Retire(0));
    assert End(tr) == State(None, None, None, map[0 := Allocation(Retired, Bumped(1))], 0, 2);
    tr := TakeStep(tr, Accept(1));
    tr := TakeStep(tr, StageIn(1));
    tr := TakeStep(tr, Prepare(1));
  }

  /** The store turns away a late persist of a generation that it already has. */
  lemma StoreCanRefuse() returns (tr: Trace, a: Alloc)
    ensures Valid(tr) && Record(End(tr), a).job.Bumped? && End(tr).local.Some?
    ensures !Enabled(End(tr), Pack(a)) && Enabled(End(tr), UploadFail(a))
  {
    hide Valid, End;
    a := 0;
    tr := SuccessorIsReady();
    tr := UploadOnce(tr, 1);
  }
}
