/**
Runs of the name protocol that its own sections allow and that break what `LifecycleSafety` proves
of guarded runs. Each is stated for every choice of names.
*/
module LifecycleRaces {
  import opened Common
  import opened Lifecycle
  import opened LifecycleSafety

  lemma TakeNothing(s: State) returns (tr: Trace)
    requires Initial(s)
    ensures Valid(tr) && tr.s == s
  {
    tr := Start(s);
  }

  lemma TakeBegin(tr: Trace, n: Name, a: Alloc) returns (tr': Trace)
    requires Valid(tr) && MayBegin(tr.s, n) && a !in tr.s.allocs && HasSlot(tr.s, n)
    ensures Valid(tr') && tr'.s == Accept(tr.s, n, a)
  {
    tr' := Then(tr, Begin(n, a), Apply(tr.s, Begin(n, a)));
  }

  lemma TakeRun(tr: Trace, a: Alloc, t: RunStep) returns (tr': Trace)
    requires Valid(tr) && RunEnabled(tr.s, a, t)
    ensures Valid(tr') && tr'.s == ApplyRun(tr.s, a, t)
  {
    tr' := Then(tr, Run(a, t), Apply(tr.s, Run(a, t)));
  }

  lemma TakeHold(tr: Trace, a: Alloc, t: HoldStep) returns (tr': Trace)
    requires Valid(tr) && HoldEnabled(tr.s, a, t)
    ensures Valid(tr') && tr'.s == ApplyHold(tr.s, a, t)
  {
    tr' := Then(tr, Hold(a, t), Apply(tr.s, Hold(a, t)));
  }

  lemma TakeClean(tr: Trace, id: Identity, t: CleanStep) returns (tr': Trace)
    requires Valid(tr) && CleanEnabled(tr.s, id, t)
    ensures Valid(tr') && tr'.s == ApplyClean(tr.s, id, t)
  {
    tr' := Then(tr, Clean(id, t), Apply(tr.s, Clean(id, t)));
  }

  /** An idle daemon with room for one Bed. */
  function Empty(): State {
    State(1, false, map[], map[], map[], map[], map[], map[], map[], map[], {}, {}, 0)
  }

  /** A daemon for one Bed whose only creation, allocation 0 of `n`, stands as given. */
  function OneCreation(n: Name, phase: Phase, al: Allocation, retirements: map<Name, Alloc>): State {
    Empty().(inits := map[n := 0], identities := map[n := Identity(n, 0)], retirements := retirements,
             phases := map[Identity(n, 0) := phase], allocs := map[0 := al], serial := 1)
  }

  /** With nothing resident or retiring, a daemon for one Bed has room if no entry reads as initializing. */
  lemma RoomForOne(s: State, n: Name)
    requires s.beds == map[] && s.retirements == map[] && s.maxBeds == 1
    requires forall m :: m in s.inits && m != n ==> !IsInitializing(s, m)
    ensures HasSlot(s, n)
  {
  }

  /** A creation is prepared, then canceled before it publishes. */
  lemma CreationRollsBack(n: Name) returns (tr: Trace)
    ensures Valid(tr)
    ensures tr.s == OneCreation(n, Initializing, Allocation(Identity(n, 0), RollbackWait, Free, false), map[n := 0])
  {
    hide Valid, HasSlot;
    tr := TakeNothing(Empty());
    RoomForOne(tr.s, n);
    tr := TakeBegin(tr, n, 0);
    assert tr.s == OneCreation(n, Initializing, Allocation(Identity(n, 0), Preparing, Free, false), map[]);
    tr := TakeRun(tr, 0, PrepareOk);
    tr := TakeRun(tr, 0, PublishRefused);
    tr := TakeRun(tr, 0, RetireUnpublished);
  }

  /**
  An eviction enters the retirement of that creation between the rollback's release of the cleanup
  semaphore and its removal of the retirement.
  */
  lemma EvictionEntersRollback(n: Name) returns (tr: Trace)
    ensures Valid(tr)
    ensures tr.s == OneCreation(n, Initializing, Allocation(Identity(n, 0), RolledBack, ByRetire, true), map[n := 0])
  {
    hide Valid, IsInitializing;
    tr := CreationRollsBack(n);
    tr := TakeRun(tr, 0, RollbackEnter);
    tr := TakeRun(tr, 0, RollbackOk);
    tr := TakeHold(tr, 0, RetireEnter);
  }

  /** The rollback drops the retirement under the eviction and starts to clean the identity itself. */
  lemma RollbackDropsRetirement(n: Name) returns (tr: Trace)
    ensures Valid(tr)
    ensures tr.s == OneCreation(n, Initializing, Allocation(Identity(n, 0), FinishCleaning, ByRetire, true), map[])
  {
    hide Valid, IsInitializing;
    tr := EvictionEntersRollback(n);
    tr := TakeRun(tr, 0, RollbackDrop);
    assert tr.s == OneCreation(n, Initializing, Allocation(Identity(n, 0), Finishing, ByRetire, true), map[]);
    tr := TakeRun(tr, 0, FinishLook);
  }

  lemma CreationKeepsItsData(n: Name) returns (tr: Trace)
    ensures Valid(tr)
    ensures tr.s == OneCreation(n, Initializing, Allocation(Identity(n, 0), FinishCleaning, ByRetire, true), map[])
  {
    hide Valid, IsInitializing;
    tr := RollbackDropsRetirement(n);
    tr := TakeClean(tr, Identity(n, 0), Attempt(ForFinish(0)));
    tr := TakeClean(tr, Identity(n, 0), Keep);
  }

  /** The creation finishes as failed and keeps its local data; the eviction still holds its semaphore. */
  lemma EvictionOutlivesItsRetirement(n: Name) returns (tr: Trace)
    ensures Valid(tr)
    ensures tr.s == OneCreation(n, Failed, Allocation(Identity(n, 0), RunDone, ByRetire, true), map[])
  {
    hide Valid, IsInitializing;
    tr := CreationKeepsItsData(n);
    tr := TakeRun(tr, 0, FinishCleaned);
    tr := TakeRun(tr, 0, FinishCommit(false));
  }

  /** The daemon when a retry of the creation, allocation 1, runs under that eviction's cleanup. */
  function Overlapped(n: Name): State {
    Empty().(
      inits := map[n := 1],
      identities := map[n := Identity(n, 0)],
      cleanups := map[Identity(n, 0) := Running(true, ForRetire(0))],
      phases := map[Identity(n, 0) := Initializing],
      allocs := map[0 := Allocation(Identity(n, 0), RunDone, ByRetire, true),
                    1 := Allocation(Identity(n, 0), Preparing, Free, false)],
      serial := 1)
  }

  lemma RetryReachesOverlap(n: Name) returns (tr: Trace)
    ensures Valid(tr) && tr.s == Overlapped(n)
  {
    hide Valid, HasSlot;
    tr := EvictionOutlivesItsRetirement(n);
    RoomForOne(tr.s, n);
    tr := TakeBegin(tr, n, 1);
    tr := TakeClean(tr, Identity(n, 0), Attempt(ForRetire(0)));
  }

  /** Destructive cleanup of an earlier Bed can overlap the creation that took its name. */
  lemma CleanupCanOverlapCreation(n: Name) returns (tr: Trace)
    ensures Valid(tr) && Current(tr.s, Identity(n, 0))
    ensures CleanupRunning(tr.s, Identity(n, 0)) && tr.s.cleanups[Identity(n, 0)].removeRoot
    ensures Live(tr.s, 1) && tr.s.allocs[1].id == Identity(n, 0)
  {
    hide Valid;
    tr := RetryReachesOverlap(n);
  }

  /** Forgetting the identity frees the retry's slot, and another name takes it. */
  lemma SlotIsTakenTwice(n: Name, m: Name) returns (tr: Trace)
    requires n != m
    ensures Valid(tr) && tr.s.maxBeds == 1
    ensures tr.s.beds == map[] && tr.s.retirements == map[] && tr.s.inits == map[n := 1, m := 2]
    ensures 1 in tr.s.allocs && tr.s.allocs[1] == Allocation(Identity(n, 0), Preparing, Free, false)
    ensures 2 in tr.s.allocs && tr.s.allocs[2].id == Identity(m, 1)
    ensures PhaseOf(tr.s, Identity(n, 0)) == Dormant && PhaseOf(tr.s, Identity(m, 1)) == Initializing
  {
    hide Valid, HasSlot;
    tr := RetryReachesOverlap(n);
    tr := TakeClean(tr, Identity(n, 0), Forget);
    RoomForOne(tr.s, m);
    tr := TakeBegin(tr, m, 2);
  }

  /** The retry's own failed rollback then exceeds the limit. */
  lemma CapacityCanBeExceeded(n: Name, m: Name) returns (tr: Trace)
    requires n != m
    ensures Valid(tr)
    ensures tr.s.maxBeds == 1 && Occupied(tr.s) == 2
  {
    hide Valid;
    tr := SlotIsTakenTwice(n, m);
    tr := TakeRun(tr, 1, PrepareStuck);
    assert tr.s.retirements == map[n := 1];
    assert InitializingNames(tr.s) - tr.s.retirements.Keys == {m};
  }

  /** Once that cleanup has forgotten the identity, a third creation of the name becomes resident. */
  lemma SecondRetryPublishes(n: Name) returns (tr: Trace)
    ensures Valid(tr) && tr.s.beds == map[n := 2]
    ensures 1 in tr.s.allocs && tr.s.allocs[1] == Allocation(Identity(n, 0), Preparing, Free, false)
  {
    hide Valid, HasSlot;
    tr := RetryReachesOverlap(n);
    tr := TakeClean(tr, Identity(n, 0), Forget);
    RoomForOne(tr.s, n);
    tr := TakeBegin(tr, n, 2);
    tr := TakeRun(tr, 2, PrepareOk);
    tr := TakeRun(tr, 2, PublishOk);
  }

  /** The failed rollback of the creation before it then puts the resident name into the retirements as well. */
  lemma ResidentNameCanBeRetiring(n: Name) returns (tr: Trace)
    ensures Valid(tr)
    ensures n in tr.s.beds && n in tr.s.retirements && tr.s.beds[n] != tr.s.retirements[n]
  {
    hide Valid;
    tr := SecondRetryPublishes(n);
    tr := TakeRun(tr, 1, PrepareStuck);
  }

  /** The eviction that entered the rollback finishes its retirement before the rollback looks again. */
  lemma EvictionFinishesFirst(n: Name) returns (tr: Trace)
    ensures Valid(tr)
    ensures tr.s == Empty().(inits := map[n := 0], cleanups := map[Identity(n, 0) := Idle(true)],
                             phases := map[Identity(n, 0) := Dormant],
                             allocs := map[0 := Allocation(Identity(n, 0), RolledBack, Free, true)], serial := 1)
  {
    hide Valid;
    tr := EvictionEntersRollback(n);
    tr := TakeClean(tr, Identity(n, 0), Attempt(ForRetire(0)));
    tr := TakeClean(tr, Identity(n, 0), Forget);
    tr := TakeHold(tr, 0, RetireDrop);
  }

  /** A new creation of the name is stuck in the retirements when the old rollback drops what it finds there. */
  lemma UnreleasedRetirementCanBeDropped(n: Name) returns (tr: Trace)
    ensures Valid(tr) && RunEnabled(tr.s, 0, RollbackDrop)
    ensures Maps(tr.s.retirements, n, 1) && 1 in tr.s.allocs && !tr.s.allocs[1].released
    ensures n !in ApplyRun(tr.s, 0, RollbackDrop).retirements
  {
    hide Valid, HasSlot;
    tr := EvictionFinishesFirst(n);
    RoomForOne(tr.s, n);
    tr := TakeBegin(tr, n, 1);
    tr := TakeRun(tr, 1, PrepareStuck);
  }
}
