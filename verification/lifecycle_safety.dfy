/**
What every interleaving of the name protocol keeps, provided one of its sections is entered under the
guard it leaves out (see `Guarded`).
*/
module LifecycleSafety {
  import opened Common
  import opened Lifecycle

  // ---------------------------------------------------------------- the missing guard

  /** No creation can come under what the holder of this allocation's retirement still does. */
  predicate Shielded(s: State, a: Alloc)
    requires a in s.allocs
  {
    var id := s.allocs[a].id;
    || s.closed
    || !Current(s, id)
    || (id in s.cleanups && s.cleanups[id].removeRoot)
  }

  /**
  One section acts on a decision taken in an earlier section without checking it again: a rollback drops
  whatever its name has in the retirements after giving its semaphore back. The retirement must be released,
  and if an eviction holds it, no creation may be able to follow. Every other step is unrestricted.
  */
  predicate Guarded(s: State, t: Step) {
    match t
    case Run(a, RollbackDrop) =>
      a in s.allocs ==>
      var n := AllocName(s, a);
      n in s.retirements && s.retirements[n] in s.allocs ==>
        var x := s.retirements[n];
        s.allocs[x].released && (s.allocs[x].gate == ByRetire ==> Shielded(s, x))
    case _ => true
  }

  /** A retirement leaves its map only once its runtime is released. */
  ghost predicate Retains(s: State, s': State) {
    forall n :: n in s.retirements && !Maps(s'.retirements, n, s.retirements[n]) ==>
                  s.retirements[n] in s.allocs && s.allocs[s.retirements[n]].released
  }

  // ---------------------------------------------------------------- the invariant

  /** The name's initialization entry belongs to a run that may still publish or retire. */
  predicate HasLiveRun(s: State, n: Name) {
    n in s.inits && Live(s, s.inits[n])
  }

  /** The name's entry belongs to a run that has not finished and still has its identity. */
  predicate Unfinished(s: State, n: Name) {
    && n in s.inits && s.inits[n] in s.allocs
    && s.allocs[s.inits[n]].pc != RunDone && Current(s, s.allocs[s.inits[n]].id)
  }

  /** A live run keeps its identity, which nothing is cleaning, and its name is neither resident nor retiring. */
  predicate LiveOwns(s: State, a: Alloc)
    requires a in s.allocs
  {
    var id := s.allocs[a].id;
    && Current(s, id)
    && id !in s.cleanups
    && id.name !in s.beds
    && id.name !in s.retirements
  }

  /** Shielded, and in a closed daemon the name has no use that came before. */
  predicate Shut(s: State, a: Alloc)
    requires a in s.allocs
  {
    var id := s.allocs[a].id;
    || (s.closed && id.name !in s.beds && !HasLiveRun(s, id.name))
    || !Current(s, id)
    || (id in s.cleanups && s.cleanups[id].removeRoot)
  }

  /** Semaphore holders that act for a retirement still have it, or nothing can come under them. */
  predicate GateHolds(s: State, a: Alloc)
    requires a in s.allocs
  {
    var n := s.allocs[a].id.name;
    match s.allocs[a].gate
    case Free => true
    case ByClose => s.closed
    case ByRun => s.allocs[a].pc == RollingBack
    case ByRetire => Maps(s.retirements, n, a) || (s.allocs[a].released && Shut(s, a))
    case ByEvict => s.allocs[a].pc == RunDone && !s.allocs[a].released
        && (Maps(s.beds, n, a) || (Maps(s.retirements, n, a) && !Unfinished(s, n)))
    case ByPurge =>
      && n in s.purges && s.purges[n].target == Some(a)
      && (s.purges[n].pc == Claimed || s.purges[n].pc == Dropped)
  }

  predicate AllocOk(s: State, a: Alloc) {
    a in s.allocs ==>
      && s.allocs[a].id.serial < s.serial
      && (Live(s, a) ==> LiveOwns(s, a) && !s.allocs[a].released && s.allocs[a].gate == Free)
      // an unfinished run whose identity is still registered is the one its name points to
      && (s.allocs[a].pc != RunDone && Current(s, s.allocs[a].id) ==>
            Maps(s.inits, s.allocs[a].id.name, a) && PhaseOf(s, s.allocs[a].id) == Initializing)
      && GateHolds(s, a)
      && (s.allocs[a].pc == RolledBack ==> s.allocs[a].released)
      && (s.allocs[a].pc == RollingBack ==> s.allocs[a].gate == ByRun)
  }

  /** What a purge fence has established at each of its stages. */
  predicate PurgeOk(s: State, n: Name)
    requires n in s.purges
  {
    var p := s.purges[n];
    && (p.pc != Begun ==> p.id.name == n)
    && (p.target.Some? ==>
          && p.target.value in s.allocs && s.allocs[p.target.value].id.name == n && !Live(s, p.target.value)
          && (p.pc == Claimed || p.pc == Dropped))
    && (p.pc.Joining? && HasLiveRun(s, n) ==> s.inits[n] == p.pc.run)
    && (p.pc == Joined ==> !HasLiveRun(s, n))
    && (p.pc == Claimed || p.pc == Dropped ==>
          && !HasLiveRun(s, n)
          && n !in s.beds
          && (n in s.retirements ==> p.target == Some(s.retirements[n])))
  }

  predicate NameOk(s: State, n: Name) {
    && (n in s.inits ==> s.inits[n] in s.allocs && AllocName(s, s.inits[n]) == n)
    && (n in s.retirements ==> s.retirements[n] in s.allocs && AllocName(s, s.retirements[n]) == n)
    && (n in s.identities ==> s.identities[n].name == n && s.identities[n].serial < s.serial)
    // a resident Bed is neither initializing nor retiring, and nothing is cleaning its identity
    && (n in s.beds ==>
          && s.beds[n] in s.allocs && AllocName(s, s.beds[n]) == n
          && n !in s.retirements && n !in s.inits
          && Current(s, s.allocs[s.beds[n]].id)
          && s.allocs[s.beds[n]].id !in s.cleanups
          && s.allocs[s.beds[n]].pc == RunDone && (s.allocs[s.beds[n]].released ==> s.closed))
    && (n in s.purges ==> PurgeOk(s, n))
  }

  /** An attempt knows its cleaner; a luggage claim and a sweep's selection stay fenced until they are settled. */
  predicate IdOk(s: State, id: Identity) {
    && (id in s.cleanups || id in s.luggage || id in s.swept ==> id.serial < s.serial)
    && (CleanupRunning(s, id) ==> AttemptOk(s, id, s.cleanups[id]))
    && (id in s.swept && Current(s, id) ==> id in s.cleanups)
    && (id in s.luggage && Current(s, id) ==> id in s.cleanups && s.cleanups[id].removeRoot)
  }

  /** An entry that reads as initializing belongs to a run that has not finished and still has its identity. */
  predicate InitOk(s: State, n: Name) {
    IsInitializing(s, n) ==> Unfinished(s, n)
  }

  /** A run whose identity a sweep has selected is over. */
  predicate SweptOk(s: State, a: Alloc) {
    a in s.allocs && s.allocs[a].id in s.swept && Current(s, s.allocs[a].id) ==> s.allocs[a].pc == RunDone
  }

  predicate AttemptOk(s: State, id: Identity, cleanup: Cleanup)
    requires cleanup.Running?
  {
    && (RemoveRoot(cleanup.who) ==> cleanup.removeRoot)
    && (cleanup.who.ForFinish? ==> AtPc(s, cleanup.who.a, FinishCleaning) && s.allocs[cleanup.who.a].id == id)
  }

  ghost predicate Structure(s: State) {
    && (forall a {:trigger AllocOk(s, a)} :: AllocOk(s, a))
    && (forall n {:trigger NameOk(s, n)} :: NameOk(s, n))
    && (forall id {:trigger IdOk(s, id)} :: IdOk(s, id))
    && (forall a {:trigger SweptOk(s, a)} :: SweptOk(s, a))
    && (forall n {:trigger InitOk(s, n)} :: InitOk(s, n))
  }

  predicate WithinCapacity(s: State) {
    s.maxBeds > 0 ==> |OccupiedNames(s)| <= s.maxBeds
  }

  ghost predicate Inv(s: State) {
    Structure(s) && WithinCapacity(s)
  }

  // ---------------------------------------------------------------- every step keeps the structure

  /** A step that changes only the allocation's own record. */
  predicate IsMove(t: RunStep) {
    !t.PrepareStuck? && !t.PublishOk? && !t.RetireUnpublished? && !t.RollbackDrop? && !t.FinishCommit?
  }

  lemma MoveKeepsOwn(s: State, a: Alloc, t: RunStep)
    requires Structure(s) && RunEnabled(s, a, t) && IsMove(t)
    ensures AllocOk(ApplyRun(s, a, t), a)
  {
    assert AllocOk(s, a);
  }

  lemma MoveKeepsOther(s: State, a: Alloc, t: RunStep, x: Alloc)
    requires Structure(s) && RunEnabled(s, a, t) && IsMove(t) && x != a
    ensures AllocOk(ApplyRun(s, a, t), x)
  {
    assert AllocOk(s, x);
  }

  lemma MoveKeepsOwnName(s: State, a: Alloc, t: RunStep)
    requires Structure(s) && RunEnabled(s, a, t) && IsMove(t)
    ensures NameOk(ApplyRun(s, a, t), AllocName(s, a))
  {
    assert AllocOk(s, a) && NameOk(s, AllocName(s, a));
  }

  lemma MoveKeepsOtherName(s: State, a: Alloc, t: RunStep, m: Name)
    requires Structure(s) && RunEnabled(s, a, t) && IsMove(t) && m != AllocName(s, a)
    ensures NameOk(ApplyRun(s, a, t), m)
  {
    assert NameOk(s, m);
  }

  lemma NoLiveRunBeside(s: State, n: Name)
    requires Structure(s) && n in s.retirements
    ensures !HasLiveRun(s, n)
  {
    if n in s.inits { assert AllocOk(s, s.inits[n]) && NameOk(s, n); }
  }

  lemma RunKeepsOwn(s: State, a: Alloc, t: RunStep)
    requires Structure(s) && RunEnabled(s, a, t) && !IsMove(t) && !t.RollbackDrop?
    ensures AllocOk(ApplyRun(s, a, t), a)
  {
    assert AllocOk(s, a);
  }

  lemma RetireKeepsOther(s: State, a: Alloc, t: RunStep, x: Alloc)
    requires Structure(s) && RunEnabled(s, a, t) && (t.PrepareStuck? || t.RetireUnpublished?) && x != a
    ensures AllocOk(ApplyRun(s, a, t), x)
  {
    assert AllocOk(s, a) && AllocOk(s, x);
  }

  /** Whoever held the dropped retirement is shut off from the name. */
  lemma DropKeepsHolder(s: State, a: Alloc)
    requires Structure(s) && RunEnabled(s, a, RollbackDrop) && Guarded(s, Run(a, RollbackDrop))
    requires AllocName(s, a) in s.retirements
    ensures var x := s.retirements[AllocName(s, a)]; var s' := ApplyRun(s, a, RollbackDrop);
            x in s.allocs && GateHolds(s', x)
  {
    var n := AllocName(s, a);
    assert NameOk(s, n) && AllocOk(s, s.retirements[n]);
    NoLiveRunBeside(s, n);
  }

  lemma DropKeepsGate(s: State, a: Alloc, x: Alloc)
    requires Structure(s) && RunEnabled(s, a, RollbackDrop) && x in s.allocs
    requires !Maps(s.retirements, AllocName(s, a), x)
    ensures GateHolds(ApplyRun(s, a, RollbackDrop), x)
  {
    assert AllocOk(s, x);
  }

  lemma DropKeepsRest(s: State, a: Alloc, x: Alloc)
    requires Structure(s) && RunEnabled(s, a, RollbackDrop)
    requires x in s.allocs ==> GateHolds(ApplyRun(s, a, RollbackDrop), x)
    ensures AllocOk(ApplyRun(s, a, RollbackDrop), x)
  {
    hide GateHolds;
    assert AllocOk(s, x);
  }

  lemma DropKeeps(s: State, a: Alloc, x: Alloc)
    requires Structure(s) && RunEnabled(s, a, RollbackDrop) && Guarded(s, Run(a, RollbackDrop))
    ensures AllocOk(ApplyRun(s, a, RollbackDrop), x)
  {
    hide AllocOk, ApplyRun, Structure, Guarded, GateHolds;
    if x in s.allocs {
      if Maps(s.retirements, AllocName(s, a), x) { DropKeepsHolder(s, a); } else { DropKeepsGate(s, a, x); }
    }
    DropKeepsRest(s, a, x);
  }

  lemma PublishKeepsOther(s: State, a: Alloc, x: Alloc)
    requires Structure(s) && RunEnabled(s, a, PublishOk) && x != a
    ensures AllocOk(ApplyRun(s, a, PublishOk), x)
  {
    assert AllocOk(s, a) && AllocOk(s, x);
    assert NameOk(s, AllocName(s, a));
  }

  lemma CommitKeepsOther(s: State, a: Alloc, canceled: bool, x: Alloc)
    requires Structure(s) && RunEnabled(s, a, FinishCommit(canceled)) && x != a
    ensures AllocOk(ApplyRun(s, a, FinishCommit(canceled)), x)
  {
    assert AllocOk(s, a) && AllocOk(s, x);
    assert NameOk(s, AllocName(s, a));
  }

  lemma RetireKeepsName(s: State, a: Alloc, t: RunStep, m: Name)
    requires Structure(s) && RunEnabled(s, a, t) && (t.PrepareStuck? || t.RetireUnpublished? || t.RollbackDrop?)
    ensures NameOk(ApplyRun(s, a, t), m)
  {
    assert AllocOk(s, a) && NameOk(s, m);
  }

  lemma PublishKeepsName(s: State, a: Alloc, m: Name)
    requires Structure(s) && RunEnabled(s, a, PublishOk)
    ensures NameOk(ApplyRun(s, a, PublishOk), m)
  {
    assert AllocOk(s, a) && NameOk(s, m);
  }

  lemma CommitKeepsName(s: State, a: Alloc, canceled: bool, m: Name)
    requires Structure(s) && RunEnabled(s, a, FinishCommit(canceled))
    ensures NameOk(ApplyRun(s, a, FinishCommit(canceled)), m)
  {
    assert AllocOk(s, a) && NameOk(s, m);
  }

  lemma RunKeepsAlloc(s: State, a: Alloc, t: RunStep, x: Alloc)
    requires Structure(s) && RunEnabled(s, a, t) && Guarded(s, Run(a, t))
    ensures AllocOk(ApplyRun(s, a, t), x)
  {
    hide AllocOk, ApplyRun, Structure, Guarded;
    if t.RollbackDrop? {
      DropKeeps(s, a, x);
    } else if x == a {
      if IsMove(t) { MoveKeepsOwn(s, a, t); } else { RunKeepsOwn(s, a, t); }
    } else if IsMove(t) {
      MoveKeepsOther(s, a, t, x);
    } else if t.PublishOk? {
      PublishKeepsOther(s, a, x);
    } else if t.FinishCommit? {
      CommitKeepsOther(s, a, t.canceled, x);
    } else {
      RetireKeepsOther(s, a, t, x);
    }
  }

  lemma RunKeepsName(s: State, a: Alloc, t: RunStep, m: Name)
    requires Structure(s) && RunEnabled(s, a, t)
    ensures NameOk(ApplyRun(s, a, t), m)
  {
    hide NameOk, ApplyRun, Structure;
    if IsMove(t) {
      if m == AllocName(s, a) { MoveKeepsOwnName(s, a, t); } else { MoveKeepsOtherName(s, a, t, m); }
    } else if t.PublishOk? {
      PublishKeepsName(s, a, m);
    } else if t.FinishCommit? {
      CommitKeepsName(s, a, t.canceled, m);
    } else {
      RetireKeepsName(s, a, t, m);
    }
  }

  lemma RunKeepsInit(s: State, a: Alloc, t: RunStep, m: Name)
    requires Structure(s) && RunEnabled(s, a, t)
    ensures InitOk(ApplyRun(s, a, t), m)
  {
    assert InitOk(s, m) && NameOk(s, m);
  }

  lemma RunKeeps(s: State, a: Alloc, t: RunStep)
    requires Structure(s) && RunEnabled(s, a, t) && Guarded(s, Run(a, t))
    ensures Structure(ApplyRun(s, a, t))
  {
    var s' := ApplyRun(s, a, t);
    forall x ensures AllocOk(s', x) { RunKeepsAlloc(s, a, t, x); }
    forall m ensures NameOk(s', m) { RunKeepsName(s, a, t, m); }
    forall i ensures IdOk(s', i) { assert IdOk(s, i); }
    forall x ensures SweptOk(s', x) { assert SweptOk(s, x); }
    forall m ensures InitOk(s', m) { RunKeepsInit(s, a, t, m); }
  }

  lemma HoldKeepsOwn(s: State, a: Alloc, t: HoldStep)
    requires Structure(s) && HoldEnabled(s, a, t)
    ensures AllocOk(ApplyHold(s, a, t), a)
  {
    assert AllocOk(s, a);
    assert NameOk(s, AllocName(s, a));
  }

  /** The holder's step sets the phase of its identity. */
  predicate SetsPhase(t: HoldStep) {
    t.EvictFence? || t.EvictResume? || t.TeardownPhase?
  }

  /** Another allocation of the same name. */
  predicate Siblings(s: State, a: Alloc, x: Alloc) {
    a in s.allocs && x in s.allocs && x != a && AllocName(s, x) == AllocName(s, a)
  }

  lemma PhaseKeepsSibling(s: State, a: Alloc, t: HoldStep, x: Alloc)
    requires Structure(s) && HoldEnabled(s, a, t) && SetsPhase(t) && Siblings(s, a, x)
    ensures AllocOk(ApplyHold(s, a, t), x)
  {
    assert AllocOk(s, a) && AllocOk(s, x);
    assert NameOk(s, AllocName(s, a));
  }

  lemma MapsKeepSibling(s: State, a: Alloc, t: HoldStep, x: Alloc)
    requires Structure(s) && HoldEnabled(s, a, t) && (t.EvictCommit? || t.RetireDrop?) && Siblings(s, a, x)
    ensures AllocOk(ApplyHold(s, a, t), x)
  {
    assert AllocOk(s, a) && AllocOk(s, x);
    assert NameOk(s, AllocName(s, a));
  }

  lemma HoldKeepsSibling(s: State, a: Alloc, t: HoldStep, x: Alloc)
    requires Structure(s) && HoldEnabled(s, a, t) && Siblings(s, a, x)
    requires !SetsPhase(t) && !t.EvictCommit? && !t.RetireDrop?
    ensures AllocOk(ApplyHold(s, a, t), x)
  {
    assert AllocOk(s, x);
  }

  lemma PhaseKeepsOther(s: State, a: Alloc, t: HoldStep, x: Alloc)
    requires Structure(s) && HoldEnabled(s, a, t) && SetsPhase(t) && x != a && !Siblings(s, a, x)
    ensures AllocOk(ApplyHold(s, a, t), x)
  {
    assert AllocOk(s, x);
  }

  lemma HoldKeepsOther(s: State, a: Alloc, t: HoldStep, x: Alloc)
    requires Structure(s) && HoldEnabled(s, a, t) && !SetsPhase(t) && x != a && !Siblings(s, a, x)
    ensures AllocOk(ApplyHold(s, a, t), x)
  {
    assert AllocOk(s, x);
  }

  lemma HoldKeepsOwnName(s: State, a: Alloc, t: HoldStep)
    requires Structure(s) && HoldEnabled(s, a, t)
    ensures NameOk(ApplyHold(s, a, t), AllocName(s, a))
  {
    assert AllocOk(s, a) && NameOk(s, AllocName(s, a));
  }

  lemma HoldKeepsOtherName(s: State, a: Alloc, t: HoldStep, m: Name)
    requires Structure(s) && HoldEnabled(s, a, t) && m != AllocName(s, a)
    ensures NameOk(ApplyHold(s, a, t), m)
  {
    assert NameOk(s, m);
  }

  lemma HoldKeepsInit(s: State, a: Alloc, t: HoldStep, m: Name)
    requires Structure(s) && HoldEnabled(s, a, t)
    ensures InitOk(ApplyHold(s, a, t), m)
  {
    assert InitOk(s, m);
  }

  lemma HoldKeeps(s: State, a: Alloc, t: HoldStep)
    requires Structure(s) && HoldEnabled(s, a, t)
    ensures Structure(ApplyHold(s, a, t))
  {
    var s' := ApplyHold(s, a, t);
    forall x ensures AllocOk(s', x) {
      if x == a {
        HoldKeepsOwn(s, a, t);
      } else if !Siblings(s, a, x) {
        if SetsPhase(t) { PhaseKeepsOther(s, a, t, x); } else { HoldKeepsOther(s, a, t, x); }
      } else if SetsPhase(t) {
        PhaseKeepsSibling(s, a, t, x);
      } else if t.EvictCommit? || t.RetireDrop? {
        MapsKeepSibling(s, a, t, x);
      } else {
        HoldKeepsSibling(s, a, t, x);
      }
    }
    forall m ensures NameOk(s', m) {
      if m == AllocName(s, a) { HoldKeepsOwnName(s, a, t); } else { HoldKeepsOtherName(s, a, t, m); }
    }
    forall i ensures IdOk(s', i) { assert IdOk(s, i); }
    forall x ensures SweptOk(s', x) { assert SweptOk(s, x); }
    forall m ensures InitOk(s', m) { HoldKeepsInit(s, a, t, m); }
  }

  lemma JoinKeepsAlloc(s: State, n: Name, x: Alloc)
    requires Structure(s) && PurgeEnabled(s, n, Join)
    ensures AllocOk(ApplyPurge(s, n, Join), x)
  {
    assert NameOk(s, n) && AllocOk(s, x);
  }

  /** Registering a name gives no older allocation an identity it did not have. */
  lemma IdentifyKeepsOwn(s: State, n: Name, x: Alloc)
    requires Structure(s) && PurgeEnabled(s, n, Identify) && x in s.allocs && AllocName(s, x) == n
    ensures AllocOk(ApplyPurge(s, n, Identify), x)
  {
    assert NameOk(s, n) && AllocOk(s, x);
    assert n in s.inits ==> AllocOk(s, s.inits[n]);
  }

  lemma IdentifyKeepsOther(s: State, n: Name, x: Alloc)
    requires Structure(s) && PurgeEnabled(s, n, Identify) && (x in s.allocs ==> AllocName(s, x) != n)
    ensures AllocOk(ApplyPurge(s, n, Identify), x)
  {
    assert AllocOk(s, x);
    assert x in s.allocs ==> NameOk(s, AllocName(s, x));
  }

  lemma LookKeepsAlloc(s: State, n: Name, x: Alloc)
    requires Structure(s) && PurgeEnabled(s, n, Look)
    ensures AllocOk(ApplyPurge(s, n, Look), x)
  {
    assert NameOk(s, n) && AllocOk(s, x);
  }

  lemma ClaimKeepsAlloc(s: State, n: Name, x: Alloc)
    requires Structure(s) && PurgeEnabled(s, n, Claim)
    ensures AllocOk(ApplyPurge(s, n, Claim), x)
  {
    assert NameOk(s, n) && AllocOk(s, x);
  }

  lemma EnterKeepsAlloc(s: State, n: Name, x: Alloc)
    requires Structure(s) && PurgeEnabled(s, n, Enter)
    ensures AllocOk(ApplyPurge(s, n, Enter), x)
  {
    assert NameOk(s, n) && AllocOk(s, x);
  }

  lemma TeardownKeepsAlloc(s: State, n: Name, x: Alloc)
    requires Structure(s) && PurgeEnabled(s, n, Teardown)
    ensures AllocOk(ApplyPurge(s, n, Teardown), x)
  {
    assert NameOk(s, n) && AllocOk(s, x);
  }

  lemma DropKeepsAlloc(s: State, n: Name, x: Alloc)
    requires Structure(s) && PurgeEnabled(s, n, Drop)
    ensures AllocOk(ApplyPurge(s, n, Drop), x)
  {
    assert NameOk(s, n) && AllocOk(s, x);
  }

  lemma QuitKeepsAlloc(s: State, n: Name, x: Alloc)
    requires Structure(s) && PurgeEnabled(s, n, Quit)
    ensures AllocOk(ApplyPurge(s, n, Quit), x)
  {
    assert NameOk(s, n) && AllocOk(s, x);
  }

  lemma EarlyKeepsName(s: State, n: Name, t: PurgeStep)
    requires Structure(s) && PurgeEnabled(s, n, t) && (t == Identify || t == Join)
    ensures NameOk(ApplyPurge(s, n, t), n)
  {
    assert NameOk(s, n);
  }

  lemma LookKeepsName(s: State, n: Name)
    requires Structure(s) && PurgeEnabled(s, n, Look)
    ensures NameOk(ApplyPurge(s, n, Look), n)
  {
    assert NameOk(s, n);
    assert n in s.inits ==> AllocOk(s, s.inits[n]);
  }

  lemma ClaimKeepsName(s: State, n: Name)
    requires Structure(s) && PurgeEnabled(s, n, Claim)
    ensures NameOk(ApplyPurge(s, n, Claim), n)
  {
    hide GateHolds;
    assert NameOk(s, n);
    if n in s.retirements { assert AllocOk(s, s.retirements[n]); }
  }

  lemma LateKeepsName(s: State, n: Name, t: PurgeStep)
    requires Structure(s) && PurgeEnabled(s, n, t) && (t == Enter || t == Teardown || t == Drop || t == Quit)
    ensures NameOk(ApplyPurge(s, n, t), n)
  {
    assert NameOk(s, n);
  }

  lemma EarlyKeepsOtherName(s: State, n: Name, t: PurgeStep, m: Name)
    requires Structure(s) && PurgeEnabled(s, n, t) && m != n
        && (t.Identify? || t.Look? || t.Join? || t.Claim? || t.Drop?)
    ensures NameOk(ApplyPurge(s, n, t), m)
  {
    assert NameOk(s, m);
  }

  lemma LateKeepsOtherName(s: State, n: Name, t: PurgeStep, m: Name)
    requires Structure(s) && PurgeEnabled(s, n, t) && m != n && (t.Enter? || t.Teardown? || t.Quit?)
    ensures NameOk(ApplyPurge(s, n, t), m)
  {
    assert NameOk(s, n) && NameOk(s, m);
  }

  lemma PurgeKeepsAlloc(s: State, n: Name, t: PurgeStep, x: Alloc)
    requires Structure(s) && PurgeEnabled(s, n, t)
    ensures AllocOk(ApplyPurge(s, n, t), x)
  {
    hide AllocOk, ApplyPurge, Structure, PurgeEnabled;
    match t
    case Identify =>
      if x in s.allocs && AllocName(s, x) == n { IdentifyKeepsOwn(s, n, x); } else { IdentifyKeepsOther(s, n, x); }
    case Look => LookKeepsAlloc(s, n, x);
    case Join => JoinKeepsAlloc(s, n, x);
    case Claim => ClaimKeepsAlloc(s, n, x);
    case Enter => EnterKeepsAlloc(s, n, x);
    case Teardown => TeardownKeepsAlloc(s, n, x);
    case Drop => DropKeepsAlloc(s, n, x);
    case Quit => QuitKeepsAlloc(s, n, x);
  }

  lemma PurgeKeepsName(s: State, n: Name, t: PurgeStep, m: Name)
    requires Structure(s) && PurgeEnabled(s, n, t)
    ensures NameOk(ApplyPurge(s, n, t), m)
  {
    hide NameOk, ApplyPurge, Structure, PurgeEnabled;
    if m != n {
      if t.Enter? || t.Teardown? || t.Quit? { LateKeepsOtherName(s, n, t, m); }
          else { EarlyKeepsOtherName(s, n, t, m); }
    } else {
      match t
      case Identify => EarlyKeepsName(s, n, t);
      case Look => LookKeepsName(s, n);
      case Join => EarlyKeepsName(s, n, t);
      case Claim => ClaimKeepsName(s, n);
      case _ => LateKeepsName(s, n, t);
    }
  }

  lemma PurgeKeepsSwept(s: State, n: Name, t: PurgeStep, x: Alloc)
    requires Structure(s) && PurgeEnabled(s, n, t)
    ensures SweptOk(ApplyPurge(s, n, t), x)
  {
    assert SweptOk(s, x) && AllocOk(s, x) && NameOk(s, n);
  }

  lemma PurgeKeepsInit(s: State, n: Name, t: PurgeStep, m: Name)
    requires Structure(s) && PurgeEnabled(s, n, t)
    ensures InitOk(ApplyPurge(s, n, t), m)
  {
    assert InitOk(s, m) && NameOk(s, m);
  }

  lemma PurgeKeeps(s: State, n: Name, t: PurgeStep)
    requires Structure(s) && PurgeEnabled(s, n, t)
    ensures Structure(ApplyPurge(s, n, t))
  {
    var s' := ApplyPurge(s, n, t);
    assert NameOk(s, n) && IdOk(s, Identity(n, s.serial));
    forall x ensures AllocOk(s', x) { PurgeKeepsAlloc(s, n, t, x); }
    forall m ensures NameOk(s', m) { PurgeKeepsName(s, n, t, m); }
    forall i ensures IdOk(s', i) { assert IdOk(s, i); }
    forall x ensures SweptOk(s', x) { PurgeKeepsSwept(s, n, t, x); }
    forall m ensures InitOk(s', m) { PurgeKeepsInit(s, n, t, m); }
  }

  /** Every way to start an attempt acts on an identity that no live run and no resident Bed uses. */
  lemma AttemptIsSafe(s: State, id: Identity, who: Cleaner)
    requires Structure(s) && CleanEnabled(s, id, Attempt(who))
    ensures id.name !in s.beds
    ensures !HasLiveRun(s, id.name)
  {
    var n := id.name;
    assert NameOk(s, n) && IdOk(s, id);
    if n in s.inits { assert AllocOk(s, s.inits[n]); }
    match who
    case ForFinish(a) => assert AllocOk(s, a);
    case ForRetire(a) => assert AllocOk(s, a);
    case _ =>
  }

  lemma AttemptKeepsAlloc(s: State, id: Identity, who: Cleaner, x: Alloc)
    requires Structure(s) && CleanEnabled(s, id, Attempt(who)) && id.name !in s.beds && !HasLiveRun(s, id.name)
    ensures AllocOk(ApplyClean(s, id, Attempt(who)), x)
  {
    assert AllocOk(s, x);
  }

  lemma CleanKeepsAlloc(s: State, id: Identity, t: CleanStep, x: Alloc)
    requires Structure(s) && CleanEnabled(s, id, t) && !t.Attempt?
    ensures AllocOk(ApplyClean(s, id, t), x)
  {
    assert AllocOk(s, x);
  }

  lemma CleanKeepsName(s: State, id: Identity, t: CleanStep, m: Name)
    requires Structure(s) && CleanEnabled(s, id, t)
    requires t.Attempt? ==> id.name !in s.beds && !HasLiveRun(s, id.name)
    ensures NameOk(ApplyClean(s, id, t), m)
  {
    assert NameOk(s, m);
  }

  lemma CleanKeepsId(s: State, id: Identity, t: CleanStep, i: Identity)
    requires Structure(s) && CleanEnabled(s, id, t)
    ensures IdOk(ApplyClean(s, id, t), i)
  {
    assert IdOk(s, i) && NameOk(s, id.name);
    if t.Keep? && s.cleanups[id].who.ForFinish? {
      assert SweptOk(s, s.cleanups[id].who.a);
    }
  }

  lemma CleanKeepsInit(s: State, id: Identity, t: CleanStep, m: Name)
    requires Structure(s) && CleanEnabled(s, id, t)
    ensures InitOk(ApplyClean(s, id, t), m)
  {
    assert InitOk(s, m);
  }

  lemma CleanKeeps(s: State, id: Identity, t: CleanStep)
    requires Structure(s) && CleanEnabled(s, id, t)
    ensures Structure(ApplyClean(s, id, t))
  {
    var s' := ApplyClean(s, id, t);
    if t.Attempt? { AttemptIsSafe(s, id, t.who); }
    forall x ensures AllocOk(s', x) {
      if t.Attempt? { AttemptKeepsAlloc(s, id, t.who, x); } else { CleanKeepsAlloc(s, id, t, x); }
    }
    forall m ensures NameOk(s', m) { CleanKeepsName(s, id, t, m); }
    forall i ensures IdOk(s', i) { CleanKeepsId(s, id, t, i); }
    forall x ensures SweptOk(s', x) { assert SweptOk(s, x); }
    forall m ensures InitOk(s', m) { CleanKeepsInit(s, id, t, m); }
  }

  lemma BeginKeepsAlloc(s: State, n: Name, a: Alloc, x: Alloc)
    requires Structure(s) && MayBegin(s, n) && a !in s.allocs && x != a
    ensures AllocOk(Accept(s, n, a), x)
  {
    assert AllocOk(s, x) && NameOk(s, n);
    if x in s.allocs {
      assert NameOk(s, AllocName(s, x));
    }
  }

  lemma BeginStartsRun(s: State, n: Name, a: Alloc)
    requires Structure(s) && MayBegin(s, n) && a !in s.allocs
    ensures AllocOk(Accept(s, n, a), a)
  {
    assert NameOk(s, n) && IdOk(s, Identity(n, s.serial));
  }

  lemma BeginKeepsName(s: State, n: Name, a: Alloc, m: Name)
    requires Structure(s) && MayBegin(s, n) && a !in s.allocs
    ensures NameOk(Accept(s, n, a), m)
  {
    assert NameOk(s, m);
  }

  /** A creation starts on an identity that is not fenced, hence not selected. */
  lemma BeginKeepsSwept(s: State, n: Name, a: Alloc, x: Alloc)
    requires Structure(s) && MayBegin(s, n) && a !in s.allocs
    ensures SweptOk(Accept(s, n, a), x)
  {
    assert SweptOk(s, x) && IdOk(s, IdentityFor(s, n)) && NameOk(s, n) && AllocOk(s, x);
  }

  lemma BeginKeepsInit(s: State, n: Name, a: Alloc, m: Name)
    requires Structure(s) && MayBegin(s, n) && a !in s.allocs
    ensures InitOk(Accept(s, n, a), m)
  {
    assert InitOk(s, m) && NameOk(s, m) && NameOk(s, n);
  }

  lemma BeginKeeps(s: State, n: Name, a: Alloc)
    requires Structure(s) && MayBegin(s, n) && a !in s.allocs
    ensures Structure(Accept(s, n, a))
  {
    var s' := Accept(s, n, a);
    assert NameOk(s, n) && IdOk(s, Identity(n, s.serial));
    forall x ensures AllocOk(s', x) {
      if x == a { BeginStartsRun(s, n, a); } else { BeginKeepsAlloc(s, n, a, x); }
    }
    forall m ensures NameOk(s', m) { BeginKeepsName(s, n, a, m); }
    forall i ensures IdOk(s', i) { assert IdOk(s, i); }
    forall x ensures SweptOk(s', x) { BeginKeepsSwept(s, n, a, x); }
    forall m ensures InitOk(s', m) { BeginKeepsInit(s, n, a, m); }
  }

  /** An entry that no longer reads as initializing belongs to no unfinished run. */
  lemma DropInitKeeps(s: State, n: Name)
    requires Structure(s) && !IsInitializing(s, n)
    ensures Structure(DropInit(s, n))
  {
    var s' := DropInit(s, n);
    assert NameOk(s, n);
    forall x ensures AllocOk(s', x) { assert AllocOk(s, x); }
    forall m ensures NameOk(s', m) { assert NameOk(s, m); }
    forall i ensures IdOk(s', i) { assert IdOk(s, i); }
    forall x ensures SweptOk(s', x) { assert SweptOk(s, x); }
    forall m ensures InitOk(s', m) { assert InitOk(s, m); }
  }

  lemma LuggageKeepsOwn(s: State, n: Name, x: Alloc)
    requires Structure(s) && MayClaimLuggage(s, n) && x in s.allocs && AllocName(s, x) == n
    ensures AllocOk(ClaimLuggage(s, n), x)
  {
    assert NameOk(s, n) && AllocOk(s, x);
  }

  lemma LuggageKeepsOther(s: State, n: Name, x: Alloc)
    requires Structure(s) && MayClaimLuggage(s, n) && (x in s.allocs ==> AllocName(s, x) != n)
    ensures AllocOk(ClaimLuggage(s, n), x)
  {
    assert NameOk(s, n) && AllocOk(s, x);
    assert x in s.allocs ==> NameOk(s, AllocName(s, x));
  }

  lemma LuggageKeepsSwept(s: State, n: Name, x: Alloc)
    requires Structure(s) && MayClaimLuggage(s, n)
    ensures SweptOk(ClaimLuggage(s, n), x)
  {
    assert SweptOk(s, x) && AllocOk(s, x) && NameOk(s, n);
  }

  lemma LuggageKeepsInit(s: State, n: Name, m: Name)
    requires Structure(s) && MayClaimLuggage(s, n)
    ensures InitOk(ClaimLuggage(s, n), m)
  {
    assert InitOk(s, m) && NameOk(s, m);
  }

  lemma LuggageKeeps(s: State, n: Name)
    requires Structure(s) && MayClaimLuggage(s, n)
    ensures Structure(ClaimLuggage(s, n))
  {
    var s' := ClaimLuggage(s, n);
    assert NameOk(s, n) && IdOk(s, Identity(n, s.serial));
    forall x ensures AllocOk(s', x) {
      if x in s.allocs && AllocName(s, x) == n { LuggageKeepsOwn(s, n, x); } else { LuggageKeepsOther(s, n, x); }
    }
    forall m ensures NameOk(s', m) { assert NameOk(s, m); }
    forall i ensures IdOk(s', i) { assert IdOk(s, i); }
    forall x ensures SweptOk(s', x) { LuggageKeepsSwept(s, n, x); }
    forall m ensures InitOk(s', m) { LuggageKeepsInit(s, n, m); }
  }

  /** A selected identity is fenced and has no unfinished run, since its name was not in use. */
  lemma SweepKeeps(s: State, swept: set<Identity>)
    requires Structure(s) && (swept <= s.swept || swept == Pending(s))
    ensures Structure(s.(swept := swept))
  {
    var s' := s.(swept := swept);
    forall x ensures AllocOk(s', x) { assert AllocOk(s, x); }
    forall x ensures SweptOk(s', x) { SweepKeepsRun(s, swept, x); }
    forall m ensures InitOk(s', m) { assert InitOk(s, m); }
    forall m ensures NameOk(s', m) { assert NameOk(s, m); }
    forall i ensures IdOk(s', i) { SweepKeepsId(s, swept, i); }
  }

  lemma PendingIsCold(s: State, id: Identity)
    requires Structure(s) && id in Pending(s)
    ensures Current(s, id) && id in s.cleanups && !InUse(s, id.name)
  {
    var n :| n in s.identities && s.identities[n] == id && id in s.cleanups && !InUse(s, n);
    assert NameOk(s, n);
  }

  lemma SweepKeepsRun(s: State, swept: set<Identity>, x: Alloc)
    requires Structure(s) && (swept <= s.swept || swept == Pending(s))
    ensures SweptOk(s.(swept := swept), x)
  {
    assert SweptOk(s, x) && AllocOk(s, x);
    if x in s.allocs && s.allocs[x].id in Pending(s) { PendingIsCold(s, s.allocs[x].id); }
  }

  lemma SweepKeepsId(s: State, swept: set<Identity>, i: Identity)
    requires Structure(s) && (swept <= s.swept || swept == Pending(s))
    ensures IdOk(s.(swept := swept), i)
  {
    assert IdOk(s, i);
    if i in Pending(s) { PendingIsCold(s, i); }
  }

  lemma FenceKeeps(s: State, n: Name)
    requires Structure(s) && n !in s.purges
    ensures Structure(PurgeFence(s, n))
  {
    var s' := PurgeFence(s, n);
    forall x ensures AllocOk(s', x) { assert AllocOk(s, x); }
    forall m ensures NameOk(s', m) { assert NameOk(s, m); }
    forall i ensures IdOk(s', i) { assert IdOk(s, i); }
    forall x ensures SweptOk(s', x) { assert SweptOk(s, x); }
    forall m ensures InitOk(s', m) { assert InitOk(s, m); }
  }

  lemma CloseKeeps(s: State)
    requires Structure(s)
    ensures Structure(s.(closed := true))
  {
    var s' := s.(closed := true);
    forall x ensures AllocOk(s', x) { assert AllocOk(s, x); }
    forall m ensures NameOk(s', m) { assert NameOk(s, m); }
    forall i ensures IdOk(s', i) { assert IdOk(s, i); }
    forall x ensures SweptOk(s', x) { assert SweptOk(s, x); }
    forall m ensures InitOk(s', m) { assert InitOk(s, m); }
  }

  lemma StepKeeps(s: State, t: Step)
    requires Structure(s) && Enabled(s, t) && Guarded(s, t)
    ensures Structure(Apply(s, t))
  {
    hide ApplyRun, ApplyHold, ApplyPurge, ApplyClean, Accept, DropInit, ClaimLuggage, PurgeFence, Structure;
    match t
    case Begin(n, a) => BeginKeeps(s, n, a);
    case BeginRefused(n) => DropInitKeeps(s, n);
    case DropFailed(n) => DropInitKeeps(s, n);
    case Run(a, run) => RunKeeps(s, a, run);
    case Hold(a, hold) => HoldKeeps(s, a, hold);
    case PurgeBegin(n) => FenceKeeps(s, n);
    case PurgeBy(n, purge) => PurgeKeeps(s, n, purge);
    case Clean(id, clean) => CleanKeeps(s, id, clean);
    case SweepBegin => SweepKeeps(s, Pending(s));
    case SweepSkip(id) => SweepKeeps(s, s.swept - {id});
    case LuggageClaim(n) => LuggageKeeps(s, n);
    case CloseDaemon => CloseKeeps(s);
  }

  // ---------------------------------------------------------------- the guard is exact

  lemma RunRetains(s: State, a: Alloc, t: RunStep)
    requires Structure(s) && RunEnabled(s, a, t) && Guarded(s, Run(a, t))
    ensures Retains(s, ApplyRun(s, a, t))
  {
    assert AllocOk(s, a) && NameOk(s, AllocName(s, a));
  }

  lemma HoldRetains(s: State, a: Alloc, t: HoldStep)
    requires Structure(s) && HoldEnabled(s, a, t)
    ensures Retains(s, ApplyHold(s, a, t))
  {
    assert AllocOk(s, a) && NameOk(s, AllocName(s, a));
  }

  lemma PurgeRetains(s: State, n: Name, t: PurgeStep)
    requires Structure(s) && PurgeEnabled(s, n, t)
    ensures Retains(s, ApplyPurge(s, n, t))
  {
    assert NameOk(s, n);
  }

  lemma CleanRetains(s: State, id: Identity, t: CleanStep)
    requires CleanEnabled(s, id, t)
    ensures Retains(s, ApplyClean(s, id, t))
  {
  }

  lemma StepRetains(s: State, t: Step)
    requires Structure(s) && Enabled(s, t) && Guarded(s, t)
    ensures Retains(s, Apply(s, t))
  {
    hide ApplyRun, ApplyHold, ApplyPurge, ApplyClean, Structure;
    match t
    case Run(a, run) => RunRetains(s, a, run);
    case Hold(a, hold) => HoldRetains(s, a, hold);
    case PurgeBy(n, purge) => PurgeRetains(s, n, purge);
    case Clean(id, clean) => CleanRetains(s, id, clean);
    case _ => assert Apply(s, t).retirements == s.retirements;
  }

  lemma UnguardedDropBreaks(s: State, a: Alloc)
    requires Structure(s) && RunEnabled(s, a, RollbackDrop) && !Guarded(s, Run(a, RollbackDrop))
    ensures !(Structure(ApplyRun(s, a, RollbackDrop)) && Retains(s, ApplyRun(s, a, RollbackDrop)))
  {
    var s' := ApplyRun(s, a, RollbackDrop);
    var n := AllocName(s, a);
    var x := s.retirements[n];
    assert NameOk(s, n) && AllocOk(s, x);
    assert !Maps(s'.retirements, n, x);
    assert !s.allocs[x].released || !AllocOk(s', x);
  }

  /**
  A step from a sound state reaches a sound state and keeps every retirement it must, if and only if it is
  guarded; `LifecycleExact` says the same of what the protocol promises.
  */
  lemma GuardMatchesInvariant(s: State, t: Step)
    requires Structure(s) && Enabled(s, t)
    ensures Structure(Apply(s, t)) && Retains(s, Apply(s, t)) <==> Guarded(s, t)
  {
    hide ApplyRun, ApplyHold, ApplyPurge, ApplyClean, Accept, DropInit, ClaimLuggage, Structure, Retains;
    if Guarded(s, t) {
      StepKeeps(s, t);
      StepRetains(s, t);
    } else {
      UnguardedDropBreaks(s, t.a);
    }
  }

  // ---------------------------------------------------------------- capacity

  lemma CountApart<T>(a: set<T>, b: set<T>, c: set<T>)
    requires a !! b && a !! c
    ensures |a| + |b| + |c - b| == |a + b + c|
  {
    assert a + b + c == a + b + (c - b);
    assert |a + b| == |a| + |b|;
    assert (a + b) !! (c - b);
  }

  /** No Bed is counted twice: what the code adds up is the number of names holding a slot. */
  lemma OccupiedCountsNames(s: State)
    requires Structure(s)
    ensures Occupied(s) == |OccupiedNames(s)|
  {
    forall n | n in s.beds.Keys ensures n !in s.retirements.Keys && n !in InitializingNames(s) {
      assert NameOk(s, n);
    }
    CountApart(s.beds.Keys, s.retirements.Keys, InitializingNames(s));
  }

  predicate HoldsSlot(s: State, n: Name) {
    n in s.beds || n in s.retirements || IsInitializing(s, n)
  }

  /** A live run already holds its name's slot when it publishes or retires. */
  lemma RunSlot(s: State, a: Alloc, t: RunStep, n: Name)
    requires Structure(s) && RunEnabled(s, a, t) && HoldsSlot(ApplyRun(s, a, t), n)
    ensures HoldsSlot(s, n)
  {
    assert AllocOk(s, a);
  }

  lemma HoldSlot(s: State, a: Alloc, t: HoldStep, n: Name)
    requires HoldEnabled(s, a, t) && HoldsSlot(ApplyHold(s, a, t), n)
    ensures HoldsSlot(s, n)
  {
  }

  lemma PurgeSlot(s: State, m: Name, t: PurgeStep, n: Name)
    requires PurgeEnabled(s, m, t) && HoldsSlot(ApplyPurge(s, m, t), n)
    ensures HoldsSlot(s, n)
  {
  }

  lemma CleanSlot(s: State, id: Identity, t: CleanStep, n: Name)
    requires CleanEnabled(s, id, t) && HoldsSlot(ApplyClean(s, id, t), n)
    ensures HoldsSlot(s, n)
  {
  }

  /** Only an accepted creation takes a slot that no name held before. */
  lemma StepSlot(s: State, t: Step, n: Name)
    requires Structure(s) && Enabled(s, t) && !t.Begin? && HoldsSlot(Apply(s, t), n)
    ensures HoldsSlot(s, n)
  {
    hide ApplyRun, ApplyHold, ApplyPurge, ApplyClean, Accept, Structure;
    match t
    case Run(a, run) => RunSlot(s, a, run, n);
    case Hold(a, hold) => HoldSlot(s, a, hold, n);
    case PurgeBy(m, purge) => PurgeSlot(s, m, purge, n);
    case Clean(id, clean) => CleanSlot(s, id, clean, n);
    case _ =>
  }

  lemma SubsetIsSmaller<T>(a: set<T>, b: set<T>)
    requires a <= b
    ensures |a| <= |b|
  {
    assert b == a + (b - a);
  }

  lemma FewerSlots(s: State, s': State)
    requires s'.maxBeds == s.maxBeds && WithinCapacity(s)
    requires forall n :: HoldsSlot(s', n) ==> HoldsSlot(s, n)
    ensures WithinCapacity(s')
  {
    forall n | n in OccupiedNames(s') ensures n in OccupiedNames(s) {
      assert HoldsSlot(s', n);
    }
    SubsetIsSmaller(OccupiedNames(s'), OccupiedNames(s));
  }

  lemma AcceptSlot(s: State, n: Name, a: Alloc, m: Name)
    requires Structure(s) && MayBegin(s, n) && a !in s.allocs
    requires m != n && HoldsSlot(Accept(s, n, a), m)
    ensures HoldsSlot(DropInit(s, n), m)
  {
    assert NameOk(s, m) && NameOk(s, n);
  }

  lemma AcceptWithinCapacity(s: State, n: Name, a: Alloc)
    requires Inv(s) && MayBegin(s, n) && a !in s.allocs && HasSlot(s, n)
    ensures WithinCapacity(Accept(s, n, a))
  {
    hide Occupied, Structure;
    if s.maxBeds > 0 {
      DropInitKeeps(s, n);
      OccupiedCountsNames(DropInit(s, n));
      var s' := Accept(s, n, a);
      forall m | m in OccupiedNames(s') && m != n ensures m in OccupiedNames(DropInit(s, n)) {
        assert HoldsSlot(s', m);
        AcceptSlot(s, n, a, m);
      }
      SubsetIsSmaller(OccupiedNames(s'), OccupiedNames(DropInit(s, n)) + {n});
    }
  }

  lemma LimitIsFixed(s: State, t: Step)
    requires Enabled(s, t)
    ensures Apply(s, t).maxBeds == s.maxBeds
  {
  }

  lemma StepWithinCapacity(s: State, t: Step)
    requires Inv(s) && Enabled(s, t)
    ensures WithinCapacity(Apply(s, t))
  {
    hide ApplyRun, ApplyHold, ApplyPurge, ApplyClean, Accept, DropInit, ClaimLuggage, HoldsSlot, WithinCapacity,
        Structure;
    if t.Begin? {
      AcceptWithinCapacity(s, t.n, t.a);
    } else {
      LimitIsFixed(s, t);
      forall n | HoldsSlot(Apply(s, t), n) ensures HoldsSlot(s, n) {
        StepSlot(s, t, n);
      }
      FewerSlots(s, Apply(s, t));
    }
  }

  // ---------------------------------------------------------------- runs

  ghost predicate GuardedTrace(tr: Trace) {
    match tr
    case Start(s) => Initial(s)
    case Then(before, t, s) => GuardedTrace(before) && Next(before.s, t, s) && Guarded(before.s, t)
  }

  lemma InitialInv(s: State)
    requires Initial(s)
    ensures Inv(s)
  {
    assert InitializingNames(s) == {};
    assert OccupiedNames(s) == {};
  }

  /** The invariant holds in every state of every guarded run. */
  lemma {:induction false} GuardedTraceInv(tr: Trace)
    requires GuardedTrace(tr)
    ensures Inv(tr.s)
  {
    hide Apply, Enabled, Structure, WithinCapacity;
    match tr
    case Start(s) => InitialInv(s);
    case Then(before, t, s) =>
      GuardedTraceInv(before);
      StepKeeps(before.s, t);
      StepWithinCapacity(before.s, t);
  }

  /** With a bed limit, the occupied count never exceeds it. */
  lemma CapacityHolds(tr: Trace)
    requires GuardedTrace(tr) && tr.s.maxBeds > 0
    ensures Occupied(tr.s) <= tr.s.maxBeds
  {
    hide Apply, Enabled;
    GuardedTraceInv(tr);
    OccupiedCountsNames(tr.s);
  }

  /** A name is never resident while it is retiring or initializing. */
  lemma NamesStayApart(tr: Trace, n: Name)
    requires GuardedTrace(tr) && n in tr.s.beds
    ensures n !in tr.s.retirements && n !in tr.s.inits
  {
    hide Apply, Enabled;
    GuardedTraceInv(tr);
    assert NameOk(tr.s, n);
  }

  /**
  Creation and residence never overlap destructive cleanup: while an identity is fenced for
  cleanup, its name has no resident Bed and no run that could still publish one.
  */
  lemma CleanupNeverOverlapsUse(tr: Trace, id: Identity)
    requires GuardedTrace(tr) && Current(tr.s, id) && id in tr.s.cleanups
    ensures id.name !in tr.s.beds
    ensures forall a :: Live(tr.s, a) ==> AllocName(tr.s, a) != id.name
  {
    hide Apply, Enabled;
    var s := tr.s;
    GuardedTraceInv(tr);
    assert NameOk(s, id.name);
    forall a | Live(s, a) ensures AllocName(s, a) != id.name {
      assert AllocOk(s, a);
    }
  }

  /** Every attempt to clean an identity, whoever makes it, finds no resident Bed and no live run on it. */
  lemma AttemptsFindNoUse(tr: Trace, id: Identity, who: Cleaner)
    requires GuardedTrace(tr) && CleanEnabled(tr.s, id, Attempt(who))
    ensures id.name !in tr.s.beds
    ensures forall a :: Live(tr.s, a) ==> AllocName(tr.s, a) != id.name
  {
    hide Apply, Enabled;
    var s := tr.s;
    GuardedTraceInv(tr);
    AttemptIsSafe(s, id, who);
    forall a | Live(s, a) ensures AllocName(s, a) != id.name {
      assert AllocOk(s, a);
    }
  }

  /** What a sweep has selected stays fenced, cold and without an unfinished run until the sweep settles it. */
  lemma SweepsStayCold(tr: Trace, id: Identity)
    requires GuardedTrace(tr) && id in tr.s.swept && Current(tr.s, id)
    ensures id in tr.s.cleanups && id.name !in tr.s.beds
    ensures forall a :: a in tr.s.allocs && tr.s.allocs[a].id == id ==> tr.s.allocs[a].pc == RunDone
  {
    hide Apply, Enabled;
    GuardedTraceInv(tr);
    assert IdOk(tr.s, id) && NameOk(tr.s, id.name);
    forall a | a in tr.s.allocs && tr.s.allocs[a].id == id ensures tr.s.allocs[a].pc == RunDone {
      assert SweptOk(tr.s, a);
    }
  }

  /** Retirements keep their name until their runtime is released. */
  lemma RetirementsOutliveTheirRuntime(tr: Trace, t: Step, s: State)
    requires GuardedTrace(Then(tr, t, s))
    ensures Retains(tr.s, s)
  {
    hide Apply, Enabled;
    GuardedTraceInv(tr);
    StepRetains(tr.s, t);
  }
}
