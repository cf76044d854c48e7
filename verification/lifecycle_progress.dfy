/**
No name is lost for good: from every state of an open daemon's guarded runs, guarded steps can bring whatever
goes on under a name to its end, and the name can then be created and published again.
*/
module LifecycleProgress {
  import opened Common
  import opened Lifecycle
  import opened LifecycleSafety
  import LifecycleExact

  /** A guarded run of an open daemon, without a purge of the name. */
  ghost predicate Going(s0: State, tr: Trace, n: Name) {
    Inv(s0) && LifecycleExact.GuardedFrom(s0, tr) && !tr.s.closed && n !in tr.s.purges
  }

  lemma GoingInv(s0: State, tr: Trace, n: Name)
    requires Going(s0, tr, n)
    ensures Inv(tr.s)
  {
    LifecycleExact.GuardedFromKeeps(s0, tr);
  }

  lemma Take(s0: State, tr: Trace, n: Name, t: Step) returns (tr': Trace)
    requires Going(s0, tr, n) && Enabled(tr.s, t) && Guarded(tr.s, t) && !t.CloseDaemon? && t != PurgeBegin(n)
    ensures tr'.s == Apply(tr.s, t)
    ensures Going(s0, tr', n)
  {
    tr' := LifecycleExact.Follow(s0, tr, t);
  }

  // ---------------------------------------------------------------- the semaphore

  /** Nothing but the one allocation's record, its identity apart, and fences has changed. */
  predicate SameName(s: State, s': State, x: Alloc) {
    && s'.retirements == s.retirements && s'.beds == s.beds && s'.inits == s.inits && s'.phases == s.phases
    && s'.allocs.Keys == s.allocs.Keys
    && (forall y :: y in s.allocs ==> s'.allocs[y].id == s.allocs[y].id && (y != x ==> s'.allocs[y] == s.allocs[y]))
  }

  /** Whoever holds the semaphore of a finished creation can give it back. */
  lemma GateCanBeFreed(s0: State, tr: Trace, n: Name, x: Alloc) returns (tr': Trace)
    requires Going(s0, tr, n) && x in tr.s.allocs && tr.s.allocs[x].id.name == n && tr.s.allocs[x].pc != RollingBack
    ensures Going(s0, tr', n) && SameName(tr.s, tr'.s, x)
    ensures tr'.s.allocs[x] == tr.s.allocs[x].(gate := Free)
  {
    hide Going, AllocOk;
    GoingInv(s0, tr, n);
    GoingIsOpen(s0, tr, n);
    OpenGates(tr.s, n, x);
    tr' := tr;
    match tr.s.allocs[x].gate {
      case ByRetire => tr' := Take(s0, tr, n, Hold(x, RetireAbandon));
      case ByEvict => tr' := Take(s0, tr, n, Hold(x, EvictStop));
      case _ =>
    }
  }

  /** Who can hold the semaphore while the daemon is open and nobody purges the name. */
  lemma OpenGates(s: State, n: Name, x: Alloc)
    requires Structure(s) && !s.closed && n !in s.purges
    requires x in s.allocs && s.allocs[x].id.name == n && s.allocs[x].pc != RollingBack
    ensures s.allocs[x].gate.Free? || s.allocs[x].gate.ByRetire? || s.allocs[x].gate.ByEvict?
  {
    assert AllocOk(s, x);
  }

  lemma GoingIsOpen(s0: State, tr: Trace, n: Name)
    requires Going(s0, tr, n)
    ensures !tr.s.closed && n !in tr.s.purges
  {
  }

  /** The name's retirement can be released and its semaphore given back. */
  lemma RetirementCanBeReleased(s0: State, tr: Trace, n: Name, x: Alloc) returns (tr': Trace)
    requires Going(s0, tr, n) && Maps(tr.s.retirements, n, x) && x in tr.s.allocs && tr.s.allocs[x].id.name == n
    requires tr.s.allocs[x].pc != RollingBack
    ensures Going(s0, tr', n) && SameName(tr.s, tr'.s, x)
    ensures tr'.s.allocs[x] == tr.s.allocs[x].(gate := Free, released := true)
  {
    hide Going;
    tr' := GateCanBeFreed(s0, tr, n, x);
    tr' := Take(s0, tr', n, Hold(x, RetireEnter));
    tr' := Take(s0, tr', n, Hold(x, RetireTeardown));
    tr' := Take(s0, tr', n, Hold(x, RetireAbandon));
  }

  // ---------------------------------------------------------------- a creation can end

  /** The name's entry belongs to `b`, which stands at this point. */
  predicate EntryAt(s: State, n: Name, b: Alloc, pc: RunPc) {
    Maps(s.inits, n, b) && AtPc(s, b, pc) && s.allocs[b].id.name == n
  }

  /** A creation that has not entered its rollback can be brought to wait for it, or past it. */
  lemma CreationCanBeRefused(s0: State, tr: Trace, n: Name, b: Alloc) returns (tr': Trace)
    requires Going(s0, tr, n) && Live(tr.s, b) && Maps(tr.s.inits, n, b) && tr.s.allocs[b].id.name == n
    ensures Going(s0, tr', n) && (EntryAt(tr'.s, n, b, RollbackWait) || EntryAt(tr'.s, n, b, Finishing))
  {
    hide Going;
    tr' := tr;
    if tr'.s.allocs[b].pc.Preparing? {
      tr' := Take(s0, tr', n, Run(b, PrepareUndone));
    } else {
      if tr'.s.allocs[b].pc.Publishing? { tr' := Take(s0, tr', n, Run(b, PublishRefused)); }
      tr' := Take(s0, tr', n, Run(b, RetireUnpublished));
    }
  }

  /** A rollback can be brought to its end. */
  lemma RollbackCanEnd(s0: State, tr: Trace, n: Name, b: Alloc) returns (tr': Trace)
    requires Going(s0, tr, n)
    requires EntryAt(tr.s, n, b, RollbackWait) || EntryAt(tr.s, n, b, RollingBack) || EntryAt(tr.s, n, b, RolledBack)
    ensures Going(s0, tr', n) && EntryAt(tr'.s, n, b, Finishing)
  {
    hide Going;
    GoingInv(s0, tr, n);
    assert AllocOk(tr.s, b) && NameOk(tr.s, n);
    match tr.s.allocs[b].pc {
      case RollbackWait => tr' := Take(s0, tr, n, Run(b, RollbackAbandon));
      case RollingBack => tr' := Take(s0, tr, n, Run(b, RollbackFailed));
      case _ => tr' := RetirementCanBeDropped(s0, tr, n, b);
    }
  }

  lemma RetirementCanBeDropped(s0: State, tr: Trace, n: Name, b: Alloc) returns (tr': Trace)
    requires Going(s0, tr, n) && EntryAt(tr.s, n, b, RolledBack)
    ensures Going(s0, tr', n) && EntryAt(tr'.s, n, b, Finishing)
  {
    hide Going;
    GoingInv(s0, tr, n);
    assert NameOk(tr.s, n) && AllocOk(tr.s, b);
    tr' := tr;
    if n in tr.s.retirements {
      var x := tr.s.retirements[n];
      if tr.s.allocs[x].pc == RollingBack { tr' := OtherRollbackFails(s0, tr', n, x, b); }
      tr' := RetirementCanBeReleased(s0, tr', n, x);
    }
    tr' := Take(s0, tr', n, Run(b, RollbackDrop));
  }

  lemma OtherRollbackFails(s0: State, tr: Trace, n: Name, x: Alloc, b: Alloc) returns (tr': Trace)
    requires Going(s0, tr, n) && x in tr.s.allocs && tr.s.allocs[x].pc == RollingBack && EntryAt(tr.s, n, b, RolledBack)
    ensures Going(s0, tr', n) && SameName(tr.s, tr'.s, x) && tr'.s.allocs[x].pc != RollingBack
  {
    hide Going;
    GoingInv(s0, tr, n);
    assert AllocOk(tr.s, x);
    tr' := Take(s0, tr, n, Run(x, RollbackFailed));
  }

  /** The last sections of finishInitialization. */
  lemma FinishCanEnd(s0: State, tr: Trace, n: Name, b: Alloc) returns (tr': Trace)
    requires Going(s0, tr, n)
    requires EntryAt(tr.s, n, b, Finishing) || EntryAt(tr.s, n, b, FinishCleaning) || EntryAt(tr.s, n, b, Committing)
    ensures Going(s0, tr', n) && n !in tr'.s.inits
  {
    hide Going;
    tr' := tr;
    if EntryAt(tr'.s, n, b, Finishing) { tr' := Take(s0, tr', n, Run(b, FinishLook)); }
    if EntryAt(tr'.s, n, b, FinishCleaning) { tr' := CleaningCanEnd(s0, tr', n, b); }
    tr' := Take(s0, tr', n, Run(b, FinishCommit(true)));
  }

  lemma CleaningCanEnd(s0: State, tr: Trace, n: Name, b: Alloc) returns (tr': Trace)
    requires Going(s0, tr, n) && EntryAt(tr.s, n, b, FinishCleaning)
    ensures Going(s0, tr', n) && EntryAt(tr'.s, n, b, Committing)
  {
    hide Going;
    var id := tr.s.allocs[b].id;
    tr' := tr;
    if CleanedBy(tr.s, id, ForFinish(b)) { tr' := Take(s0, tr', n, Clean(id, Fail)); }
    tr' := Take(s0, tr', n, Run(b, FinishCleaned));
  }

  /** From every such state the creation under way can end. */
  lemma CreationCanEnd(s0: State, tr: Trace, n: Name) returns (tr': Trace)
    requires Going(s0, tr, n)
    ensures Going(s0, tr', n) && !IsInitializing(tr'.s, n)
  {
    hide Going;
    tr' := tr;
    if IsInitializing(tr.s, n) {
      GoingInv(s0, tr, n);
      assert InitOk(tr.s, n) && NameOk(tr.s, n);
      var b := tr.s.inits[n];
      if Live(tr.s, b) { tr' := CreationCanBeRefused(s0, tr', n, b); }
      var pc := tr'.s.allocs[b].pc;
      if !pc.Finishing? && !pc.FinishCleaning? && !pc.Committing? { tr' := RollbackCanEnd(s0, tr', n, b); }
      tr' := FinishCanEnd(s0, tr', n, b);
    }
  }

  // ---------------------------------------------------------------- a purge can go all the way

  /** The semaphore of the name's resident or retiring Bed can be freed. */
  lemma TargetCanBeFreed(s0: State, tr: Trace, n: Name) returns (tr': Trace)
    requires Going(s0, tr, n) && !IsInitializing(tr.s, n)
    ensures Going(s0, tr', n) && !IsInitializing(tr'.s, n)
    ensures var target := if n in tr'.s.beds then Some(tr'.s.beds[n]) else Lookup(tr'.s.retirements, n);
            target.Some? ==> AtGate(tr'.s, target.value, Free)
  {
    hide Going;
    GoingInv(s0, tr, n);
    assert NameOk(tr.s, n);
    tr' := tr;
    if n in tr.s.beds {
      tr' := GateCanBeFreed(s0, tr', n, tr.s.beds[n]);
    } else if n in tr.s.retirements {
      var x := tr.s.retirements[n];
      if tr.s.allocs[x].pc == RollingBack { tr' := RollbackFails(s0, tr', n, x); }
      tr' := GateCanBeFreed(s0, tr', n, x);
    }
  }

  lemma RollbackFails(s0: State, tr: Trace, n: Name, x: Alloc) returns (tr': Trace)
    requires Going(s0, tr, n) && x in tr.s.allocs && tr.s.allocs[x].pc == RollingBack && !IsInitializing(tr.s, n)
    ensures Going(s0, tr', n) && SameName(tr.s, tr'.s, x) && tr'.s.allocs[x].pc != RollingBack
    ensures !IsInitializing(tr'.s, n)
  {
    hide Going;
    GoingInv(s0, tr, n);
    assert AllocOk(tr.s, x);
    tr' := Take(s0, tr, n, Run(x, RollbackFailed));
  }

  /** A guarded run in which a purge of the name has come this far and has cleared the other maps. */
  ghost predicate Purging(s0: State, tr: Trace, n: Name, pc: PurgePc) {
    && LifecycleExact.GuardedFrom(s0, tr) && !tr.s.closed
    && n in tr.s.purges && tr.s.purges[n].pc == pc
    && n !in tr.s.beds && n !in tr.s.inits
  }

  lemma PurgeCanJoin(s0: State, tr: Trace, n: Name) returns (tr': Trace)
    requires Going(s0, tr, n) && !IsInitializing(tr.s, n)
    ensures LifecycleExact.GuardedFrom(s0, tr') && !tr'.s.closed && n !in tr'.s.inits
    ensures n in tr'.s.purges && tr'.s.purges[n].pc == Joined
    ensures Current(tr'.s, tr'.s.purges[n].id) && tr'.s.purges[n].id.name == n
    ensures tr'.s.allocs == tr.s.allocs && tr'.s.beds == tr.s.beds && tr'.s.retirements == tr.s.retirements
  {
    hide LifecycleExact.GuardedFrom;
    GoingInv(s0, tr, n);
    assert NameOk(tr.s, n);
    tr' := LifecycleExact.Follow(s0, tr, PurgeBegin(n));
    tr' := LifecycleExact.Follow(s0, tr', PurgeBy(n, Identify));
    tr' := LifecycleExact.Follow(s0, tr', PurgeBy(n, Look));
  }

  lemma PurgeCanClaim(s0: State, tr: Trace, n: Name) returns (tr': Trace)
    requires Going(s0, tr, n) && !IsInitializing(tr.s, n)
    requires var target := if n in tr.s.beds then Some(tr.s.beds[n]) else Lookup(tr.s.retirements, n);
             target.Some? ==> AtGate(tr.s, target.value, Free)
    ensures Purging(s0, tr', n, Claimed) && Current(tr'.s, tr'.s.purges[n].id) && tr'.s.purges[n].id.name == n
    ensures tr'.s.purges[n].target.Some? ==> AtGate(tr'.s, tr'.s.purges[n].target.value, Free)
  {
    hide LifecycleExact.GuardedFrom;
    tr' := PurgeCanJoin(s0, tr, n);
    tr' := LifecycleExact.Follow(s0, tr', PurgeBy(n, Claim));
  }

  lemma PurgeCanTearDown(s0: State, tr: Trace, n: Name) returns (tr': Trace)
    requires Purging(s0, tr, n, Claimed) && Current(tr.s, tr.s.purges[n].id) && tr.s.purges[n].id.name == n
    requires tr.s.purges[n].target.Some? ==> AtGate(tr.s, tr.s.purges[n].target.value, Free)
    ensures Purging(s0, tr', n, Claimed) && tr'.s.purges[n] == tr.s.purges[n] && tr'.s.identities == tr.s.identities
    ensures var p := tr'.s.purges[n];
            p.target.Some? ==> AtGate(tr'.s, p.target.value, ByPurge) && tr'.s.allocs[p.target.value].released
  {
    hide LifecycleExact.GuardedFrom;
    tr' := tr;
    if tr.s.purges[n].target.Some? {
      tr' := LifecycleExact.Follow(s0, tr', PurgeBy(n, Enter));
      tr' := LifecycleExact.Follow(s0, tr', PurgeBy(n, Teardown));
    }
  }

  lemma PurgeCanForget(s0: State, tr: Trace, n: Name) returns (tr': Trace)
    requires Purging(s0, tr, n, Claimed) && Current(tr.s, tr.s.purges[n].id) && tr.s.purges[n].id.name == n
    ensures Purging(s0, tr', n, Claimed) && tr'.s.purges[n] == tr.s.purges[n] && tr'.s.allocs == tr.s.allocs
    ensures n !in tr'.s.identities
  {
    hide LifecycleExact.GuardedFrom;
    var id := tr.s.purges[n].id;
    tr' := tr;
    if CleanupRunning(tr.s, id) { tr' := LifecycleExact.Follow(s0, tr', Clean(id, Fail)); }
    tr' := LifecycleExact.Follow(s0, tr', Clean(id, Attempt(ForPurge)));
    tr' := LifecycleExact.Follow(s0, tr', Clean(id, Forget));
  }

  lemma PurgeCanEnd(s0: State, tr: Trace, n: Name) returns (tr': Trace)
    requires Purging(s0, tr, n, Claimed) && n !in tr.s.identities && tr.s.purges[n].id.name == n
    requires var p := tr.s.purges[n];
             p.target.Some? ==> AtGate(tr.s, p.target.value, ByPurge) && tr.s.allocs[p.target.value].released
    ensures LifecycleExact.GuardedFrom(s0, tr') && MayBegin(tr'.s, n) && n !in tr'.s.identities && n !in tr'.s.inits
  {
    hide LifecycleExact.GuardedFrom;
    tr' := LifecycleExact.Follow(s0, tr, PurgeBy(n, Drop));
    tr' := LifecycleExact.Follow(s0, tr', PurgeBy(n, Quit));
  }

  lemma QuitPurge(s0: State, tr: Trace, n: Name) returns (tr': Trace)
    requires Inv(s0) && LifecycleExact.GuardedFrom(s0, tr) && !tr.s.closed
    ensures Going(s0, tr', n)
  {
    hide LifecycleExact.GuardedFrom;
    tr' := tr;
    if n in tr.s.purges { tr' := LifecycleExact.Follow(s0, tr, PurgeBy(n, Quit)); }
  }

  /**
  From every state that an open daemon's guarded run reaches, every name can be freed by guarded steps: no
  creation, eviction, retirement, cleanup or purge under way can keep it for good.
  */
  lemma NamesCanAlwaysBeFreed(s0: State, tr: Trace, n: Name) returns (tr': Trace)
    requires Inv(s0) && LifecycleExact.GuardedFrom(s0, tr) && !tr.s.closed
    ensures LifecycleExact.GuardedFrom(s0, tr') && MayBegin(tr'.s, n) && n !in tr'.s.identities
  {
    hide Going, Purging, LifecycleExact.GuardedFrom, MayBegin;
    tr' := QuitPurge(s0, tr, n);
    tr' := CreationCanEnd(s0, tr', n);
    tr' := TargetCanBeFreed(s0, tr', n);
    tr' := PurgeCanClaim(s0, tr', n);
    tr' := PurgeCanTearDown(s0, tr', n);
    tr' := PurgeCanForget(s0, tr', n);
    tr' := PurgeCanEnd(s0, tr', n);
  }

  /** And a free name with a slot can be created and published. */
  lemma FreeNamesCanBePublished(s0: State, tr: Trace, n: Name, c: Alloc) returns (tr': Trace)
    requires LifecycleExact.GuardedFrom(s0, tr) && MayBegin(tr.s, n) && n !in tr.s.identities && HasSlot(tr.s, n)
    requires c !in tr.s.allocs
    ensures LifecycleExact.GuardedFrom(s0, tr') && Maps(tr'.s.beds, n, c) && n !in tr'.s.inits
    ensures c in tr'.s.allocs && PhaseOf(tr'.s, tr'.s.allocs[c].id) == Resident
  {
    hide HasSlot, LifecycleExact.GuardedFrom;
    tr' := LifecycleExact.Follow(s0, tr, Begin(n, c));
    tr' := LifecycleExact.Follow(s0, tr', Run(c, PrepareOk));
    tr' := LifecycleExact.Follow(s0, tr', Run(c, PublishOk));
  }

  /** A slot is there exactly if the names that hold one, with the new one, are within the limit. */
  lemma SlotsAreNames(s: State, n: Name)
    requires Inv(s) && !InUse(s, n)
    ensures HasSlot(s, n) <==> s.maxBeds <= 0 || |OccupiedNames(s) + {n}| <= s.maxBeds
  {
    hide Occupied, OccupiedNames, Inv, Structure;
    assert Structure(s) && n !in OccupiedNames(s) by { NotOccupied(s, n); }
    OccupiedCountsNames(s);
    SameCount(s, n);
  }

  lemma NotOccupied(s: State, n: Name)
    requires Inv(s) && !InUse(s, n)
    ensures Structure(s) && n !in OccupiedNames(s)
  {
  }

  lemma SameCount(s: State, n: Name)
    requires !InUse(s, n)
    ensures Occupied(DropInit(s, n)) == Occupied(s)
  {
    assert InitializingNames(DropInit(s, n)) == InitializingNames(s);
  }
}
