/**
The guard that the name protocol lacks, against what the protocol promises: an unguarded step loses a
retirement that had to stay, or guarded steps alone lead on to destructive cleanup under a live creation.
*/
module LifecycleExact {
  import opened Common
  import opened Lifecycle
  import opened LifecycleSafety

  /** A run from `s0` whose steps are all guarded. */
  ghost predicate GuardedFrom(s0: State, tr: Trace) {
    match tr
    case Start(s) => s == s0
    case Then(before, t, s) => GuardedFrom(s0, before) && Next(before.s, t, s) && Guarded(before.s, t)
  }

  /** The name's own directory is being removed under a creation that is live in it. */
  predicate Destroys(s: State, id: Identity, c: Alloc) {
    && Current(s, id) && CleanupRunning(s, id) && s.cleanups[id].removeRoot
    && Live(s, c) && s.allocs[c].id == id
  }

  ghost predicate NeverDestroys(s0: State) {
    forall tr, id, c :: GuardedFrom(s0, tr) ==> !Destroys(tr.s, id, c)
  }

  /**
  The guard is exactly what is missing. A step from an invariant state keeps every retirement it must, and no
  guarded continuation of it removes a directory under a live creation, if and only if the step is guarded.
  */
  lemma GuardIsExact(s: State, t: Step)
    requires Inv(s) && Enabled(s, t)
    ensures Retains(s, Apply(s, t)) && NeverDestroys(Apply(s, t)) <==> Guarded(s, t)
  {
    hide Apply, Enabled, Structure, WithinCapacity, Retains, GuardedFrom, Destroys;
    if Guarded(s, t) {
      StepKeeps(s, t);
      StepWithinCapacity(s, t);
      StepRetains(s, t);
      InvNeverDestroys(Apply(s, t));
    } else {
      UnguardedIsDrop(s, t);
      UnguardedHarms(s, t.a);
    }
  }

  lemma UnguardedIsDrop(s: State, t: Step)
    requires Enabled(s, t) && !Guarded(s, t)
    ensures t.Run? && t.run == RollbackDrop && RunEnabled(s, t.a, RollbackDrop)
    ensures Apply(s, t) == ApplyRun(s, t.a, RollbackDrop)
  {
  }

  lemma {:induction false} GuardedFromKeeps(s0: State, tr: Trace)
    requires Inv(s0) && GuardedFrom(s0, tr)
    ensures Inv(tr.s)
  {
    hide Apply, Enabled, Structure, WithinCapacity;
    match tr
    case Start(s) =>
    case Then(before, t, s) =>
      GuardedFromKeeps(s0, before);
      StepKeeps(before.s, t);
      StepWithinCapacity(before.s, t);
  }

  lemma InvNeverDestroys(s0: State)
    requires Inv(s0)
    ensures NeverDestroys(s0)
  {
    hide GuardedFrom, Inv, Destroys;
    forall tr, id, c | GuardedFrom(s0, tr) ensures !Destroys(tr.s, id, c) {
      GuardedFromKeeps(s0, tr);
      InvDestroysNothing(tr.s, id, c);
    }
  }

  lemma InvDestroysNothing(s: State, id: Identity, c: Alloc)
    requires Inv(s)
    ensures !Destroys(s, id, c)
  {
    assert AllocOk(s, c);
  }

  // ---------------------------------------------------------------- from the drop to the harm

  lemma Follow(s0: State, tr: Trace, t: Step) returns (tr': Trace)
    requires GuardedFrom(s0, tr) && Enabled(tr.s, t) && Guarded(tr.s, t)
    ensures GuardedFrom(s0, tr') && tr'.s == Apply(tr.s, t)
  {
    tr' := Then(tr, t, Apply(tr.s, t));
  }

  /**
  An eviction holds `x`, which is not in the retirements any more; nothing final keeps the next creation of
  its name out, and there is a slot for it.
  */
  predicate Exposed(s: State, n: Name, x: Alloc) {
    && x in s.allocs && s.allocs[x].released && s.allocs[x].gate == ByRetire && s.allocs[x].id.name == n
    && !s.closed && Current(s, s.allocs[x].id)
    && n !in s.beds && n !in s.retirements
    && (s.allocs[x].id in s.cleanups ==> !s.cleanups[s.allocs[x].id].removeRoot)
    && HasSlot(s, n)
  }

  /** The name's entry, if it reads as initializing, is a run on its way out. */
  predicate Ending(s: State, n: Name) {
    IsInitializing(s, n) ==>
      var b := s.inits[n];
      && s.allocs[b].id.name == n && s.allocs[b].pc != RunDone && !Live(s, b)
      && (s.allocs[b].pc == RollingBack ==> s.allocs[b].gate == ByRun)
  }

  /** Slots depend on residents, retirements and the entries that read as initializing. */
  ghost predicate SameSlots(s: State, s': State, n: Name) {
    && s'.maxBeds == s.maxBeds && s'.beds == s.beds && s'.retirements == s.retirements
    && (forall m :: m != n && IsInitializing(s', m) ==> IsInitializing(s, m))
  }

  lemma SlotStays(s: State, s': State, n: Name)
    requires HasSlot(s, n) && SameSlots(s, s', n)
    ensures HasSlot(s', n)
  {
    hide IsInitializing;
    var d := InitializingNames(DropInit(s, n)) - s.retirements.Keys;
    var d' := InitializingNames(DropInit(s', n)) - s.retirements.Keys;
    forall m | m in d' ensures m in d { StillInitializing(s, s', n, m); }
    SubsetIsSmaller(d', d);
  }

  lemma StillInitializing(s: State, s': State, n: Name, m: Name)
    requires SameSlots(s, s', n) && m in InitializingNames(DropInit(s', n))
    ensures m in InitializingNames(DropInit(s, n))
  {
    assert m != n && IsInitializing(s', m);
    assert IsInitializing(s, m);
  }

  lemma OneFewer(m: map<Name, Alloc>, n: Name)
    requires n in m
    ensures |m - {n}| == |m| - 1
  {
    assert m.Keys == (m - {n}).Keys + {n};
    assert |m.Keys| == |m| && |(m - {n}).Keys| == |m - {n}|;
  }

  /** The dropped retirement gives its slot back. */
  lemma DropFreesSlot(s: State, a: Alloc)
    requires Inv(s) && RunEnabled(s, a, RollbackDrop) && AllocName(s, a) in s.retirements
    ensures HasSlot(ApplyRun(s, a, RollbackDrop), AllocName(s, a))
  {
    hide Structure, IsInitializing;
    var n, s' := AllocName(s, a), ApplyRun(s, a, RollbackDrop);
    OccupiedCountsNames(s);
    OneFewer(s.retirements, n);
    var d, d' := InitializingNames(s) - s.retirements.Keys, InitializingNames(DropInit(s', n)) - s'.retirements.Keys;
    forall m | m in d' ensures m in d { StillWaiting(s, a, m); }
    SubsetIsSmaller(d', d);
  }

  lemma StillWaiting(s: State, a: Alloc, m: Name)
    requires RunEnabled(s, a, RollbackDrop)
    requires m in InitializingNames(DropInit(ApplyRun(s, a, RollbackDrop), AllocName(s, a)))
    requires m !in s.retirements - {AllocName(s, a)}
    ensures m in InitializingNames(s) && m !in s.retirements
  {
  }

  lemma DropExposes(s: State, a: Alloc)
    requires Inv(s) && RunEnabled(s, a, RollbackDrop) && !Guarded(s, Run(a, RollbackDrop))
    requires s.allocs[s.retirements[AllocName(s, a)]].released
    ensures var n := AllocName(s, a); var s' := ApplyRun(s, a, RollbackDrop);
            Exposed(s', n, s.retirements[n]) && Ending(s', n)
  {
    hide HasSlot;
    var n := AllocName(s, a);
    assert NameOk(s, n) && AllocOk(s, s.retirements[n]);
    DropFreesSlot(s, a);
    DropLeavesEnding(s, a);
  }

  lemma DropLeavesEnding(s: State, a: Alloc)
    requires Inv(s) && RunEnabled(s, a, RollbackDrop) && AllocName(s, a) in s.retirements
    ensures Ending(ApplyRun(s, a, RollbackDrop), AllocName(s, a))
  {
    var n := AllocName(s, a);
    assert NameOk(s, n) && InitOk(s, n);
    if n in s.inits { assert AllocOk(s, s.inits[n]); }
  }

  /** A purge of the name can always be given up. */
  lemma PurgeQuits(s0: State, tr: Trace, n: Name, x: Alloc) returns (tr': Trace)
    requires GuardedFrom(s0, tr) && Exposed(tr.s, n, x) && Ending(tr.s, n)
    ensures GuardedFrom(s0, tr') && Exposed(tr'.s, n, x) && Ending(tr'.s, n) && n !in tr'.s.purges
  {
    hide GuardedFrom, HasSlot;
    tr' := tr;
    if n in tr.s.purges {
      tr' := Follow(s0, tr, PurgeBy(n, Quit));
      SlotStays(tr.s, tr'.s, n);
    }
  }

  /** An unfinished rollback of the name can be brought to its last sections. */
  lemma RollbackEnds(s0: State, tr: Trace, n: Name, x: Alloc) returns (tr': Trace)
    requires GuardedFrom(s0, tr) && Exposed(tr.s, n, x) && Ending(tr.s, n) && n !in tr.s.purges
    ensures GuardedFrom(s0, tr') && Exposed(tr'.s, n, x) && n !in tr'.s.purges && !IsInitializing(tr'.s, n)
  {
    hide GuardedFrom, HasSlot, Exposed;
    if !IsInitializing(tr.s, n) {
      tr' := tr;
    } else {
      tr' := ReachFinishing(s0, tr, n, x, tr.s.inits[n]);
      tr' := ReachCommitting(s0, tr', n, x, tr.s.inits[n]);
      tr' := Commit(s0, tr', n, x, tr.s.inits[n]);
    }
  }

  /** The run of the name's entry, past its rollback. */
  predicate At(s: State, n: Name, b: Alloc, pc: RunPc) {
    AtPc(s, b, pc) && s.allocs[b].id.name == n && Maps(s.inits, n, b) && n !in s.purges
  }

  lemma ReachFinishing(s0: State, tr: Trace, n: Name, x: Alloc, b: Alloc) returns (tr': Trace)
    requires GuardedFrom(s0, tr) && Exposed(tr.s, n, x) && Ending(tr.s, n) && n !in tr.s.purges
    requires IsInitializing(tr.s, n) && tr.s.inits[n] == b
    ensures GuardedFrom(s0, tr') && Exposed(tr'.s, n, x)
    ensures At(tr'.s, n, b, Finishing) || At(tr'.s, n, b, FinishCleaning) || At(tr'.s, n, b, Committing)
  {
    hide GuardedFrom, HasSlot;
    tr' := tr;
    match tr.s.allocs[b].pc {
      case RollbackWait => tr' := Follow(s0, tr, Run(b, RollbackAbandon));
      case RollingBack => tr' := Follow(s0, tr, Run(b, RollbackFailed));
      case RolledBack => tr' := Follow(s0, tr, Run(b, RollbackDrop));
      case _ =>
    }
    SlotStays(tr.s, tr'.s, n);
  }

  lemma ReachCleaning(s0: State, tr: Trace, n: Name, x: Alloc, b: Alloc) returns (tr': Trace)
    requires GuardedFrom(s0, tr) && Exposed(tr.s, n, x) && At(tr.s, n, b, Finishing)
    ensures GuardedFrom(s0, tr') && Exposed(tr'.s, n, x) && At(tr'.s, n, b, FinishCleaning)
  {
    hide GuardedFrom, HasSlot;
    tr' := Follow(s0, tr, Run(b, FinishLook));
    SlotStays(tr.s, tr'.s, n);
  }

  lemma CleaningEnds(s0: State, tr: Trace, n: Name, x: Alloc, b: Alloc) returns (tr': Trace)
    requires GuardedFrom(s0, tr) && Exposed(tr.s, n, x) && At(tr.s, n, b, FinishCleaning)
    ensures GuardedFrom(s0, tr') && Exposed(tr'.s, n, x) && At(tr'.s, n, b, Committing)
  {
    hide GuardedFrom, HasSlot;
    var id := tr.s.allocs[b].id;
    tr' := tr;
    if CleanedBy(tr.s, id, ForFinish(b)) {
      tr' := Follow(s0, tr', Clean(id, Fail));
    }
    tr' := Follow(s0, tr', Run(b, FinishCleaned));
    SlotStays(tr.s, tr'.s, n);
  }

  lemma ReachCommitting(s0: State, tr: Trace, n: Name, x: Alloc, b: Alloc) returns (tr': Trace)
    requires GuardedFrom(s0, tr) && Exposed(tr.s, n, x)
    requires At(tr.s, n, b, Finishing) || At(tr.s, n, b, FinishCleaning) || At(tr.s, n, b, Committing)
    ensures GuardedFrom(s0, tr') && Exposed(tr'.s, n, x) && At(tr'.s, n, b, Committing)
  {
    hide GuardedFrom, Exposed, At;
    tr' := tr;
    if At(tr.s, n, b, Finishing) { tr' := ReachCleaning(s0, tr', n, x, b); }
    if !At(tr'.s, n, b, Committing) { tr' := CleaningEnds(s0, tr', n, x, b); }
  }

  lemma Commit(s0: State, tr: Trace, n: Name, x: Alloc, b: Alloc) returns (tr': Trace)
    requires GuardedFrom(s0, tr) && Exposed(tr.s, n, x) && At(tr.s, n, b, Committing)
    ensures GuardedFrom(s0, tr') && Exposed(tr'.s, n, x) && n !in tr'.s.purges && !IsInitializing(tr'.s, n)
  {
    hide GuardedFrom, HasSlot;
    tr' := Follow(s0, tr, Run(b, FinishCommit(true)));
    SlotStays(tr.s, tr'.s, n);
  }

  // ---------------------------------------------------------------- the fence, if there is one

  /** The name is exposed and nobody else is at work on it. */
  predicate Idle(s: State, n: Name, x: Alloc) {
    Exposed(s, n, x) && n !in s.purges && !IsInitializing(s, n)
  }

  /** The sweep under way can be brought to its end. */
  lemma {:induction false} SweepEnds(s0: State, tr: Trace, n: Name, x: Alloc) returns (tr': Trace)
    requires GuardedFrom(s0, tr) && Idle(tr.s, n, x) && !CleanupRunning(tr.s, tr.s.allocs[x].id)
    ensures GuardedFrom(s0, tr') && Idle(tr'.s, n, x) && tr'.s.swept == {}
    ensures tr'.s.allocs == tr.s.allocs
    ensures Lookup(tr'.s.cleanups, tr.s.allocs[x].id) == Lookup(tr.s.cleanups, tr.s.allocs[x].id)
    decreases |tr.s.swept|
  {
    hide GuardedFrom, HasSlot;
    tr' := tr;
    if tr.s.swept != {} {
      var id := SomeMember(tr.s.swept);
      tr' := SettleOne(s0, tr, n, x, id);
      tr' := SweepEnds(s0, tr', n, x);
    }
  }

  lemma SettleOne(s0: State, tr: Trace, n: Name, x: Alloc, id: Identity) returns (tr': Trace)
    requires GuardedFrom(s0, tr) && Idle(tr.s, n, x) && !CleanupRunning(tr.s, tr.s.allocs[x].id) && id in tr.s.swept
    ensures GuardedFrom(s0, tr') && Idle(tr'.s, n, x) && tr'.s.swept == tr.s.swept - {id}
    ensures tr'.s.allocs == tr.s.allocs
    ensures Lookup(tr'.s.cleanups, tr.s.allocs[x].id) == Lookup(tr.s.cleanups, tr.s.allocs[x].id)
  {
    hide GuardedFrom, HasSlot;
    if CleanedBy(tr.s, id, ForSweep) {
      tr' := Follow(s0, tr, Clean(id, Fail));
    } else {
      tr' := Follow(s0, tr, SweepSkip(id));
    }
    SlotStays(tr.s, tr'.s, n);
  }

  /** A sweep keeps the directory and takes the fence away. */
  lemma SweepKeepsDirectory(s0: State, tr: Trace, n: Name, x: Alloc) returns (tr': Trace)
    requires GuardedFrom(s0, tr) && Idle(tr.s, n, x) && tr.s.swept == {}
    requires tr.s.allocs[x].id in tr.s.cleanups && !CleanupRunning(tr.s, tr.s.allocs[x].id)
    ensures GuardedFrom(s0, tr') && Idle(tr'.s, n, x) && CleanupRunning(tr'.s, tr'.s.allocs[x].id)
  {
    hide GuardedFrom, HasSlot;
    var id := tr.s.allocs[x].id;
    assert id in Pending(tr.s);
    tr' := Follow(s0, tr, SweepBegin);
    tr' := Follow(s0, tr', Clean(id, Attempt(ForSweep)));
    SlotStays(tr.s, tr'.s, n);
  }

  /** Whatever fence the identity has, an attempt without a claim on the root can take it away. */
  lemma FenceGoes(s0: State, tr: Trace, n: Name, x: Alloc) returns (tr': Trace)
    requires GuardedFrom(s0, tr) && Idle(tr.s, n, x)
    ensures GuardedFrom(s0, tr') && Idle(tr'.s, n, x) && tr'.s.allocs[x].id !in tr'.s.cleanups
  {
    hide GuardedFrom, HasSlot;
    tr' := tr;
    if tr.s.allocs[x].id in tr.s.cleanups {
      if !CleanupRunning(tr.s, tr.s.allocs[x].id) {
        tr' := SweepEnds(s0, tr', n, x);
        tr' := SweepKeepsDirectory(s0, tr', n, x);
      }
      var running := tr';
      tr' := Follow(s0, tr', Clean(tr'.s.allocs[x].id, Keep));
      SlotStays(running.s, tr'.s, n);
    }
  }

  /** The next creation begins, and the eviction goes on to remove its directory. */
  lemma EvictionDestroys(s0: State, tr: Trace, n: Name, x: Alloc) returns (tr': Trace, id: Identity, c: Alloc)
    requires GuardedFrom(s0, tr) && Idle(tr.s, n, x) && tr.s.allocs[x].id !in tr.s.cleanups
    ensures GuardedFrom(s0, tr') && Destroys(tr'.s, id, c)
  {
    hide GuardedFrom, HasSlot;
    id := tr.s.allocs[x].id;
    c := FreshInt(tr.s.allocs.Keys);
    tr' := Follow(s0, tr, Begin(n, c));
    tr' := Follow(s0, tr', Clean(id, Attempt(ForRetire(x))));
  }

  lemma UnguardedHarms(s: State, a: Alloc)
    requires Inv(s) && RunEnabled(s, a, RollbackDrop) && !Guarded(s, Run(a, RollbackDrop))
    ensures var s' := ApplyRun(s, a, RollbackDrop); !Retains(s, s') || !NeverDestroys(s')
  {
    hide GuardedFrom, Inv, Exposed, Ending, Destroys, IsInitializing, ApplyRun;
    var s', n := ApplyRun(s, a, RollbackDrop), AllocName(s, a);
    var x := s.retirements[n];
    if !s.allocs[x].released {
      UnreleasedIsLost(s, a);
    } else {
      DropExposes(s, a);
      var tr := StayAt(s');
      tr := PurgeQuits(s', tr, n, x);
      tr := RollbackEnds(s', tr, n, x);
      tr := FenceGoes(s', tr, n, x);
      var last, id, c := EvictionDestroys(s', tr, n, x);
    }
  }

  lemma StayAt(s: State) returns (tr: Trace)
    ensures GuardedFrom(s, tr) && tr.s == s
  {
    tr := Start(s);
  }

  lemma UnreleasedIsLost(s: State, a: Alloc)
    requires RunEnabled(s, a, RollbackDrop) && AllocName(s, a) in s.retirements
    requires s.retirements[AllocName(s, a)] in s.allocs && !s.allocs[s.retirements[AllocName(s, a)]].released
    ensures !Retains(s, ApplyRun(s, a, RollbackDrop))
  {
    assert !Maps(ApplyRun(s, a, RollbackDrop).retirements, AllocName(s, a), s.retirements[AllocName(s, a)]);
  }
}
