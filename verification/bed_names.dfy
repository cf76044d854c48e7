/**
The manager's maps as fields, and the sections that update them in place. Each section takes the step that
`Lifecycle` gives it or refuses, and keeps the invariant of `LifecycleSafety` and with it the bed limit; the
section that leaves a check out keeps it exactly under the guard it leaves out.
*/
module BedNames {
  import opened Common
  import opened Lifecycle
  import opened LifecycleSafety

  datatype Admission =
    | Accepted | Unavailable | CleanupPending | Purging | AlreadyResident | AlreadyInitializing | BedLimit | Pressure

  class Names {
    const maxBeds: int
    var closed: bool
    var beds: map<Name, Alloc>
    var inits: map<Name, Alloc>
    var retirements: map<Name, Alloc>
    var purges: map<Name, Purge>
    var identities: map<Name, Identity>
    var cleanups: map<Identity, Cleanup>
    var phases: map<Identity, Phase>
    var allocs: map<Alloc, Allocation>
    var luggage: set<Identity>
    var swept: set<Identity>
    var serial: int

    function View(): State
      reads this
    {
      State(maxBeds, closed, beds, inits, retirements, purges, identities, cleanups, phases, allocs, luggage, swept,
          serial)
    }

    /** The invariant of every guarded run. */
    ghost predicate Valid()
      reads this
    {
      Inv(View())
    }

    predicate WithinLimit()
      reads this
    {
      Limited(View())
    }

    constructor (maxBeds: int)
      ensures Initial(View()) && View().maxBeds == maxBeds && !closed
      ensures Valid() && WithinLimit()
    {
      this.maxBeds := maxBeds;
      closed, beds, inits, retirements, purges := false, map[], map[], map[], map[];
      identities, cleanups, phases, allocs, luggage, swept, serial := map[], map[], map[], map[], {}, {}, 0;
      new;
      InitialInv(View());
      InvKeepsLimit(View());
    }

    /** occupiedBedsLocked: the loop skips an initializing name that is already retiring. */
    method OccupiedBeds() returns (n: int)
      ensures n == Occupied(View())
    {
      n := |beds| + |retirements|;
      var rest := inits.Keys;
      ghost var counted: set<Name> := {};
      while rest != {}
        invariant rest <= inits.Keys
        invariant counted == set x | x in inits && x !in rest && IsInitializing(View(), x) && x !in retirements
        invariant n == |beds| + |retirements| + |counted|
      {
        ghost var some := SomeMember(rest);
        var x :| x in rest;
        rest := rest - {x};
        if x !in retirements && IsInitializing(View(), x) {
          n := n + 1;
          assert x !in counted;
          counted := counted + {x};
        }
      }
      assert counted == InitializingNames(View()) - retirements.Keys;
    }

    /** localIdentityLocked. */
    method LocalIdentity(n: Name) returns (id: Identity)
      modifies this`identities, this`serial
      ensures id == IdentityFor(old(View()), n) && View() == Register(old(View()), n)
    {
      if n in identities {
        id := identities[n];
        assert identities == identities[n := id];
        return;
      }
      id := Identity(n, serial);
      identities := identities[n := id];
      serial := serial + 1;
    }

    /** The allocation's identity has this phase. */
    predicate Reads(a: Alloc, phase: Phase)
      reads this
    {
      a in allocs && PhaseOf(View(), allocs[a].id) == phase
    }

    /** pruneFailedInitializationsLocked: `expired` are the names whose status is old enough to go. */
    method Prune(expired: set<Name>)
      modifies this`inits
      ensures View() == Pruned(old(View()), expired)
      ensures forall n :: n in inits <==> n in old(inits) && !(n in expired && Reads(old(inits)[n], Failed))
      ensures forall n :: n in inits ==> inits[n] == old(inits)[n]
    {
      ghost var s := View();
      var kept: map<Name, Alloc> := map[];
      var rest := inits.Keys;
      while rest != {}
        invariant View() == s && rest <= inits.Keys
        invariant kept == map x | x in inits && x !in rest && !Prunable(View(), expired, x) :: inits[x]
      {
        ghost var some := SomeMember(rest);
        var x :| x in rest;
        rest := rest - {x};
        if !Prunable(View(), expired, x) {
          kept := kept[x := inits[x]];
        }
      }
      assert kept == Pruned(s, expired).inits;
      inits := kept;
    }

    /** The refusals of beginInitialization after the prune, in the code's order. */
    method Refusal(n: Name) returns (r: Option<Admission>)
      requires !closed && (n in identities ==> identities[n] !in cleanups)
      ensures r.None? <==> MayBegin(View(), n)
      ensures r.Some? ==> !r.value.Accepted? && !r.value.BedLimit? && !r.value.Pressure?
    {
      if n in purges {
        return Some(Purging);
      }
      if n in beds {
        return Some(AlreadyResident);
      }
      if IsInitializing(View(), n) {
        return Some(AlreadyInitializing);
      }
      if n in retirements {
        return Some(CleanupPending);
      }
      r := None;
    }

    /** The new creation's entry, over whatever entry the name had. */
    method Enter(n: Name, a: Alloc)
      requires Enabled(View(), Begin(n, a))
      modifies this
      ensures View() == Accept(old(View()), n, a)
      ensures old(Valid()) ==> Valid() && WithinLimit()
    {
      hide Inv, Limited, Guarded;
      ghost var s := View();
      var id := LocalIdentity(n);
      allocs := allocs[a := Allocation(id, Preparing, Free, false)];
      phases := phases[id := Initializing];
      inits := inits[n := a];
      BeginIsKept(s, n, a);
    }

    /**
    The admission section of beginInitialization. Old failures are pruned unless the request is refused
    before that; a refusal for capacity or pressure also drops the failed entry it would have replaced.
    */
    method BeginInitialization(n: Name, a: Alloc, expired: set<Name>, admitted: bool) returns (r: Admission)
      requires a !in allocs
      modifies this
      ensures r.Accepted? <==> admitted && Enabled(old(View()), Begin(n, a))
      ensures r.Accepted? || r.BedLimit? || r.Pressure? <==> MayBegin(old(View()), n)
      ensures r.Accepted? ==> View() == Accept(Pruned(old(View()), expired), n, a)
      ensures r.BedLimit? || r.Pressure? ==> View() == DropInit(Pruned(old(View()), expired), n)
      ensures !MayBegin(old(View()), n) ==>
                View() == if old(FencedOff(n)) then old(View()) else Pruned(old(View()), expired)
      ensures old(Valid()) ==> Valid() && WithinLimit()
    {
      hide MayBegin, HasSlot, Occupied, Accept, Pruned, Inv;
      ghost var s := View();
      if n in identities && identities[n] in cleanups {
        MayBeginNeeds(s, n);
        InvKeepsLimit(s);
        return CleanupPending;
      }
      if closed {
        MayBeginNeeds(s, n);
        InvKeepsLimit(s);
        return Unavailable;
      }
      Prune(expired);
      ghost var pruned := View();
      PruneIsInvisible(s, expired, n);
      PruneKeeps(s, expired);
      var refused := Refusal(n);
      if refused.Some? {
        return refused.value;
      }
      inits := inits - {n};
      assert View() == DropInit(pruned, n);
      RefusalIsKept(pruned, n);
      var occupied := OccupiedBeds();
      assert occupied == Occupied(DropInit(pruned, n));
      SlotIsCounted(pruned, n);
      if maxBeds > 0 && occupied >= maxBeds {
        return BedLimit;
      }
      if !admitted {
        return Pressure;
      }
      AcceptOverwrites(pruned, n, a);
      DropKeepsAdmission(pruned, n);
      Enter(n, a);
      r := Accepted;
    }

    /** The two refusals that come before the prune. */
    predicate FencedOff(n: Name)
      reads this
    {
      closed || (n in identities && identities[n] in cleanups)
    }

    /** publishInitializedBed once its tests have passed. */
    method MakeResident(a: Alloc)
      requires RunEnabled(View(), a, PublishOk)
      modifies this
      ensures View() == ApplyRun(old(View()), a, PublishOk)
      ensures old(Valid()) ==> Valid() && WithinLimit()
    {
      hide Inv, Limited, Guarded;
      ghost var s := View();
      var id := allocs[a].id;
      phases := phases[id := Resident];
      beds := beds[id.name := a];
      inits := inits - {id.name};
      allocs := allocs[a := allocs[a].(pc := RunDone)];
      RunIsKept(s, a, PublishOk);
    }

    /** publishInitializedBed. */
    method Publish(a: Alloc) returns (ok: bool)
      requires a in allocs && allocs[a].pc == Publishing
      modifies this
      ensures ok <==> RunEnabled(old(View()), a, PublishOk)
      ensures View() == ApplyRun(old(View()), a, if ok then PublishOk else PublishRefused)
      ensures old(Valid()) ==> Valid() && WithinLimit()
    {
      hide Inv, Limited, Guarded;
      ghost var s := View();
      var id := allocs[a].id;
      var n := id.name;
      if closed || n !in inits || inits[n] != a || PhaseOf(View(), id) != Initializing || n in beds {
        allocs := allocs[a := allocs[a].(pc := Unpublished)];
        RunIsKept(s, a, PublishRefused);
        return false;
      }
      MakeResident(a);
      ok := true;
    }

    /** A rollback enters the retirements before it takes the cleanup semaphore. */
    method RetireUnpublished(a: Alloc)
      requires a in allocs && allocs[a].pc == Unpublished
      modifies this
      ensures View() == ApplyRun(old(View()), a, RunStep.RetireUnpublished)
      ensures old(Valid()) ==> Valid() && WithinLimit()
    {
      hide Inv, Limited, Guarded;
      ghost var s := View();
      retirements := retirements[allocs[a].id.name := a];
      allocs := allocs[a := allocs[a].(pc := RollbackWait)];
      RunIsKept(s, a, RunStep.RetireUnpublished);
    }

    /** The section after a successful rollback: whatever the name has in the retirements goes. */
    method DropRolledBack(a: Alloc)
      requires a in allocs && allocs[a].pc == RolledBack
      modifies this
      ensures View() == ApplyRun(old(View()), a, RollbackDrop)
      ensures old(Valid()) ==> (Structure(View()) && Retains(old(View()), View()) <==> Guarded(old(View()),
          Run(a, RollbackDrop)))
      ensures old(Valid()) && Guarded(old(View()), Run(a, RollbackDrop)) ==> Valid() && WithinLimit()
    {
      hide Inv, Structure, Retains, Limited, Guarded;
      ghost var s := View();
      retirements := retirements - {allocs[a].id.name};
      allocs := allocs[a := allocs[a].(pc := Finishing)];
      DropIsExact(s, a);
    }

    /** A failed creation's own entry goes, unless it stays to report the failure. */
    method SettleEntry(a: Alloc, canceled: bool)
      requires a in allocs
      modifies this`phases, this`inits
      ensures inits == RunInits(old(View()), a, allocs[a].id.name, FinishCommit(canceled))
      ensures phases == RunPhases(old(View()), a, allocs[a].id, FinishCommit(canceled))
      ensures Settled(old(View()), a, canceled, inits, phases)
    {
      var id := allocs[a].id;
      var n := id.name;
      if n in inits && inits[n] == a {
        if n in retirements {
          phases := phases[id := Evicting];
          inits := inits - {n};
        } else if !canceled {
          phases := phases[id := Failed];
        } else {
          inits := inits - {n};
        }
      }
    }

    /** The last section of finishInitialization for a creation that failed. */
    method FinishFailed(a: Alloc, canceled: bool)
      requires a in allocs && allocs[a].pc == Committing
      modifies this
      ensures View() == ApplyRun(old(View()), a, FinishCommit(canceled))
      ensures Settled(old(View()), a, canceled, inits, phases)
      ensures allocs == old(allocs)[a := old(allocs[a]).(pc := RunDone)]
      ensures beds == old(beds) && retirements == old(retirements)
      ensures old(Valid()) ==> Valid() && WithinLimit()
    {
      hide Inv, Limited, Guarded, RunInits, RunPhases;
      ghost var s := View();
      SettleEntry(a, canceled);
      allocs := allocs[a := allocs[a].(pc := RunDone)];
      RunIsKept(s, a, FinishCommit(canceled));
    }

    /** The eviction's commit on the maps. */
    method RetireEvicted(a: Alloc)
      requires HoldEnabled(View(), a, EvictCommit)
      modifies this
      ensures View() == ApplyHold(old(View()), a, EvictCommit)
      ensures old(Valid()) ==> Valid() && WithinLimit()
    {
      hide Inv, Limited, Guarded;
      ghost var s := View();
      var n := allocs[a].id.name;
      retirements := retirements[n := a];
      beds := beds - {n};
      allocs := allocs[a := allocs[a].(gate := Free)];
      HoldIsKept(s, a, EvictCommit);
    }

    /** Only the allocation's own retirement goes. */
    method DropRetirement(a: Alloc)
      requires a in allocs
      modifies this`retirements
      ensures retirements == HoldRetirements(old(View()), a, allocs[a].id.name, RetireDrop)
    {
      var n := allocs[a].id.name;
      if n in retirements && retirements[n] == a {
        retirements := retirements - {n};
      }
    }

    /** The last section of finishRetirement. */
    method FinishRetirement(a: Alloc)
      requires HoldEnabled(View(), a, RetireDrop)
      modifies this
      ensures View() == ApplyHold(old(View()), a, RetireDrop)
      ensures old(Valid()) ==> Valid() && WithinLimit()
    {
      hide Inv, Limited, Guarded, HoldRetirements, Current;
      ghost var s := View();
      DropRetirement(a);
      allocs := allocs[a := allocs[a].(gate := Free)];
      HoldIsKept(s, a, RetireDrop);
    }

    /** beginPurge: one purge per name; a second request joins it. */
    method BeginPurge(n: Name) returns (owner: bool)
      modifies this`purges
      ensures owner <==> n !in old(purges)
      ensures View() == if owner then PurgeFence(old(View()), n) else old(View())
      ensures old(Valid()) ==> Valid() && WithinLimit()
    {
      hide Inv, Limited, Guarded;
      ghost var s := View();
      if n in purges {
        InvKeepsLimit(s);
        return false;
      }
      purges := purges[n := Purge(Begun, Identity(n, 0), None)];
      owner := true;
      FenceIsKept(s, n);
    }

    /** The purge's claim: the resident Bed becomes a retirement, or the retirement there is the target. */
    method ClaimPurge(n: Name) returns (target: Option<Alloc>)
      requires PurgeEnabled(View(), n, Claim)
      modifies this
      ensures View() == ApplyPurge(old(View()), n, Claim) && target == purges[n].target
      ensures old(Valid()) ==> Valid() && WithinLimit()
    {
      hide Inv, Limited, Guarded;
      ghost var s := View();
      target := if n in beds then Some(beds[n]) else Lookup(retirements, n);
      if n in beds {
        retirements := retirements[n := beds[n]];
      }
      beds := beds - {n};
      purges := purges[n := purges[n].(pc := Claimed, target := target)];
      assert View() == ApplyPurge(s, n, Claim);
      PurgeIsKept(s, n, Claim);
    }

    /** The attempt itself; it keeps an earlier claim on the root. */
    method BeginAttempt(id: Identity, who: Cleaner)
      requires CleanEnabled(View(), id, Attempt(who))
      modifies this`cleanups
      ensures View() == ApplyClean(old(View()), id, Attempt(who))
      ensures old(Valid()) ==> Valid() && WithinLimit() && id.name !in beds && !HasLiveRun(View(), id.name)
    {
      hide Inv, Limited, Guarded, HasLiveRun;
      ghost var s := View();
      var removeRoot := RemoveRoot(who) || (id in cleanups && cleanups[id].removeRoot);
      cleanups := cleanups[id := Running(removeRoot, who)];
      AttemptIsKept(s, id, who);
    }

    /** An attempt of cleanLocalIdentity starts, or finds the identity gone or another attempt running. */
    method StartCleanup(id: Identity, who: Cleaner) returns (started: bool)
      requires MayClean(View(), id, who)
      modifies this`cleanups
      ensures started <==> CleanEnabled(old(View()), id, Attempt(who))
      ensures View() == if started then ApplyClean(old(View()), id, Attempt(who)) else old(View())
      ensures old(Valid()) && started ==> id.name !in beds && !HasLiveRun(View(), id.name)
      ensures old(Valid()) ==> Valid() && WithinLimit()
    {
      hide Inv, Limited, Guarded, HasLiveRun;
      ghost var s := View();
      if id.name !in identities || identities[id.name] != id {
        InvKeepsLimit(s);
        return false;
      }
      if id in cleanups && cleanups[id].Running? {
        InvKeepsLimit(s);
        return false;
      }
      BeginAttempt(id, who);
      started := true;
    }

    /** The fence of a finished attempt stays or goes, and a sweep has settled what it attempted. */
    method EndAttempt(id: Identity, fenced: bool)
      requires CleanupRunning(View(), id)
      modifies this`cleanups, this`swept
      ensures cleanups == CleanFences(old(View()), id, if fenced then Fail else Keep)
      ensures swept == if CleanedBy(old(View()), id, ForSweep) then old(swept) - {id} else old(swept)
    {
      if cleanups[id].who == ForSweep {
        swept := swept - {id};
      }
      cleanups := if fenced then cleanups[id := Idle(cleanups[id].removeRoot)] else cleanups - {id};
    }

    /** The end of an attempt that has not forgotten the identity: a failure keeps the fence. */
    method FinishCleanup(id: Identity, failed: bool)
      requires CleanEnabled(View(), id, if failed then Fail else Keep)
      modifies this`cleanups, this`swept
      ensures View() == ApplyClean(old(View()), id, if failed then Fail else Keep)
      ensures old(Valid()) ==> Valid() && WithinLimit()
    {
      hide Inv, Limited, Guarded, CleanFences;
      ghost var s := View();
      EndAttempt(id, failed);
      CleanIsKept(s, id, if failed then Fail else Keep);
    }

    /** The identity is forgotten once its trees are gone. */
    method Forget(id: Identity)
      requires CleanEnabled(View(), id, CleanStep.Forget)
      modifies this
      ensures View() == ApplyClean(old(View()), id, CleanStep.Forget)
      ensures old(Valid()) ==> Valid() && WithinLimit()
    {
      hide Inv, Limited, Guarded;
      ghost var s := View();
      identities := identities - {id.name};
      phases := phases[id := Dormant];
      EndAttempt(id, true);
      assert View() == ApplyClean(s, id, CleanStep.Forget);
      CleanIsKept(s, id, CleanStep.Forget);
    }

    /** The selection of RetryLocalCleanups: every fenced identity whose name is not in use. */
    method PendingCleanups() returns (pending: set<Identity>)
      ensures pending == Pending(View())
      ensures forall id :: id in pending <==> id in identities.Values && id in cleanups && !InUseName(id)
    {
      pending := {};
      var rest := identities.Keys;
      while rest != {}
        invariant rest <= identities.Keys
        invariant pending == set n | n in identities && n !in rest && identities[n] in cleanups
            && !InUse(View(), n) :: identities[n]
      {
        ghost var some := SomeMember(rest);
        var n :| n in rest;
        rest := rest - {n};
        if identities[n] in cleanups && !InUse(View(), n) {
          pending := pending + {identities[n]};
        }
      }
    }

    /** A retry sweep starts; the one before is over. What it has selected stays cold until it settles it. */
    method BeginSweep()
      requires swept == {}
      modifies this`swept
      ensures View() == old(View()).(swept := Pending(old(View())))
      ensures old(Valid()) ==> Valid() && WithinLimit()
    {
      hide Inv, Limited, Guarded, Pending;
      ghost var s := View();
      swept := PendingCleanups();
      SweepIsKept(s);
    }

    /** Every name under which the identity is registered is in use. */
    ghost predicate InUseName(id: Identity)
      reads this
    {
      forall n :: n in identities && identities[n] == id ==> InUse(View(), n)
    }

    /** removeLuggage fences a cold identity. */
    method ClaimLuggage(n: Name) returns (ok: bool)
      requires forall id :: id in cleanups ==> id.serial < serial
      modifies this
      ensures ok <==> MayClaimLuggage(old(View()), n)
      ensures View() == if ok then Lifecycle.ClaimLuggage(old(View()), n) else old(View())
      ensures old(Valid()) ==> Valid() && WithinLimit()
    {
      hide Inv, Limited, Guarded;
      ghost var s := View();
      if InUse(View(), n) {
        InvKeepsLimit(s);
        return false;
      }
      var id := LocalIdentity(n);
      if id in cleanups {
        InvKeepsLimit(s);
        return false;
      }
      cleanups := cleanups[id := Idle(true)];
      luggage := luggage + {id};
      ok := true;
      assert View() == Lifecycle.ClaimLuggage(s, n);
      LuggageIsKept(s, n);
    }
  }

  /**
  What the end of a failed creation leaves: with its Bed retiring, no entry and an evicting identity; canceled,
  no entry and the phase as it was; otherwise the entry, which reads as failed. Another creation's entry and
  its phase are left alone.
  */
  predicate Settled(was: State, a: Alloc, canceled: bool, inits: map<Name, Alloc>, phases: map<Identity, Phase>)
    requires a in was.allocs
  {
    var id := was.allocs[a].id;
    if !Maps(was.inits, id.name, a) then inits == was.inits && phases == was.phases
    else if id.name in was.retirements then inits == was.inits - {id.name} && phases == was.phases[id := Evicting]
    else if canceled then inits == was.inits - {id.name} && phases == was.phases
    else inits == was.inits && phases == was.phases[id := Failed]
  }

  // ---------------------------------------------------------------- what the sections keep

  predicate Limited(s: State) {
    s.maxBeds > 0 ==> Occupied(s) <= s.maxBeds
  }

  lemma InvKeepsLimit(s: State)
    ensures Inv(s) ==> Limited(s)
  {
    if Inv(s) { OccupiedCountsNames(s); }
  }

  lemma StepIsKept(s: State, t: Step)
    requires Inv(s) && Enabled(s, t) && Guarded(s, t)
    ensures Inv(Apply(s, t)) && Limited(Apply(s, t))
  {
    hide Apply, Enabled, Guarded, Structure, WithinCapacity, Limited;
    StepKeeps(s, t);
    StepWithinCapacity(s, t);
    InvKeepsLimit(Apply(s, t));
  }

  lemma StepIsExact(s: State, t: Step)
    requires Inv(s) && Enabled(s, t)
    ensures Structure(Apply(s, t)) && Retains(s, Apply(s, t)) <==> Guarded(s, t)
    ensures Guarded(s, t) ==> Inv(Apply(s, t)) && Limited(Apply(s, t))
  {
    hide Apply, Enabled, Guarded, Structure, WithinCapacity, Retains, Limited;
    GuardMatchesInvariant(s, t);
    if Guarded(s, t) { StepIsKept(s, t); }
  }

  lemma BeginIsKept(s: State, n: Name, a: Alloc)
    requires Enabled(s, Begin(n, a))
    ensures Inv(s) ==> Inv(Accept(s, n, a)) && Limited(Accept(s, n, a))
  {
    hide Inv, Limited;
    if Inv(s) { StepIsKept(s, Begin(n, a)); }
  }

  lemma RefusalIsKept(s: State, n: Name)
    requires MayBegin(s, n)
    ensures Inv(s) ==> Inv(DropInit(s, n)) && Limited(DropInit(s, n))
  {
    hide Inv, Limited;
    if Inv(s) { StepIsKept(s, BeginRefused(n)); }
  }

  lemma RunIsKept(s: State, a: Alloc, t: RunStep)
    requires RunEnabled(s, a, t) && !t.RollbackDrop?
    ensures Inv(s) ==> Inv(ApplyRun(s, a, t)) && Limited(ApplyRun(s, a, t))
  {
    hide Inv, Limited;
    if Inv(s) { StepIsKept(s, Run(a, t)); }
  }

  lemma HoldIsKept(s: State, a: Alloc, t: HoldStep)
    requires HoldEnabled(s, a, t)
    ensures Inv(s) ==> Inv(ApplyHold(s, a, t)) && Limited(ApplyHold(s, a, t))
  {
    hide Inv, Limited;
    if Inv(s) { StepIsKept(s, Hold(a, t)); }
  }

  lemma FenceIsKept(s: State, n: Name)
    requires n !in s.purges
    ensures Inv(s) ==> Inv(PurgeFence(s, n)) && Limited(PurgeFence(s, n))
  {
    hide Inv, Limited;
    if Inv(s) { StepIsKept(s, PurgeBegin(n)); }
  }

  lemma PurgeIsKept(s: State, n: Name, t: PurgeStep)
    requires PurgeEnabled(s, n, t)
    ensures Inv(s) ==> Inv(ApplyPurge(s, n, t)) && Limited(ApplyPurge(s, n, t))
  {
    hide Inv, Limited;
    if Inv(s) { StepIsKept(s, PurgeBy(n, t)); }
  }

  lemma CleanIsKept(s: State, id: Identity, t: CleanStep)
    requires CleanEnabled(s, id, t)
    ensures Inv(s) ==> Inv(ApplyClean(s, id, t)) && Limited(ApplyClean(s, id, t))
  {
    hide Inv, Limited;
    if Inv(s) { StepIsKept(s, Clean(id, t)); }
  }

  lemma SweepIsKept(s: State)
    requires s.swept == {}
    ensures Inv(s) ==> Inv(s.(swept := Pending(s))) && Limited(s.(swept := Pending(s)))
  {
    hide Inv, Limited;
    if Inv(s) { StepIsKept(s, SweepBegin); }
  }

  lemma LuggageIsKept(s: State, n: Name)
    requires MayClaimLuggage(s, n)
    ensures Inv(s) ==> Inv(Lifecycle.ClaimLuggage(s, n)) && Limited(Lifecycle.ClaimLuggage(s, n))
  {
    hide Inv, Limited;
    if Inv(s) { StepIsKept(s, LuggageClaim(n)); }
  }

  lemma DropIsExact(s: State, a: Alloc)
    requires RunEnabled(s, a, RollbackDrop)
    ensures var s' := ApplyRun(s, a, RollbackDrop);
            Inv(s) ==>
            && (Structure(s') && Retains(s, s') <==> Guarded(s, Run(a, RollbackDrop)))
            && (Guarded(s, Run(a, RollbackDrop)) ==> Inv(s') && Limited(s'))
  {
    hide Inv, Limited, Structure, Retains, Guarded;
    if Inv(s) { StepIsExact(s, Run(a, RollbackDrop)); }
  }

  lemma AttemptIsKept(s: State, id: Identity, who: Cleaner)
    requires CleanEnabled(s, id, Attempt(who))
    ensures var s' := ApplyClean(s, id, Attempt(who));
            Inv(s) ==> Inv(s') && Limited(s') && id.name !in s'.beds && !HasLiveRun(s', id.name)
  {
    if Inv(s) {
      CleanIsKept(s, id, Attempt(who));
      AttemptIsSafe(s, id, who);
    }
  }

  // ---------------------------------------------------------------- the prune

  predicate Prunable(s: State, expired: set<Name>, n: Name) {
    n in expired && n in s.inits && s.inits[n] in s.allocs && PhaseOf(s, s.allocs[s.inits[n]].id) == Failed
  }

  function Pruned(s: State, expired: set<Name>): State {
    s.(inits := map n | n in s.inits && !Prunable(s, expired, n) :: s.inits[n])
  }

  /** A pruned entry belongs to no unfinished run and holds no slot. */
  lemma PruneKeeps(s: State, expired: set<Name>)
    ensures Inv(s) ==> Inv(Pruned(s, expired)) && Limited(Pruned(s, expired))
  {
    hide Structure, WithinCapacity, Limited;
    if Inv(s) {
      PruneKeepsStructure(s, expired);
      FewerSlots(s, Pruned(s, expired));
      InvKeepsLimit(Pruned(s, expired));
    }
  }

  lemma PruneKeepsStructure(s: State, expired: set<Name>)
    requires Structure(s)
    ensures Structure(Pruned(s, expired))
  {
    hide AllocOk, NameOk, IdOk, SweptOk, InitOk, Pruned;
    forall x ensures AllocOk(Pruned(s, expired), x) { PruneKeepsAlloc(s, expired, x); }
    forall m ensures NameOk(Pruned(s, expired), m) { PruneKeepsName(s, expired, m); }
    forall i ensures IdOk(Pruned(s, expired), i) { PruneKeepsId(s, expired, i); }
    forall x ensures SweptOk(Pruned(s, expired), x) { PruneKeepsSwept(s, expired, x); }
    forall m ensures InitOk(Pruned(s, expired), m) { PruneKeepsInit(s, expired, m); }
  }

  lemma PruneKeepsId(s: State, expired: set<Name>, i: Identity)
    requires Structure(s)
    ensures IdOk(Pruned(s, expired), i)
  {
    assert IdOk(s, i);
  }

  lemma PruneKeepsInit(s: State, expired: set<Name>, m: Name)
    requires Structure(s)
    ensures InitOk(Pruned(s, expired), m)
  {
    assert InitOk(s, m);
  }

  lemma PruneKeepsSwept(s: State, expired: set<Name>, x: Alloc)
    requires Structure(s)
    ensures SweptOk(Pruned(s, expired), x)
  {
    assert SweptOk(s, x);
  }

  lemma PruneKeepsAlloc(s: State, expired: set<Name>, x: Alloc)
    requires Structure(s)
    ensures AllocOk(Pruned(s, expired), x)
  {
    assert AllocOk(s, x);
  }

  lemma PruneKeepsName(s: State, expired: set<Name>, m: Name)
    requires Structure(s)
    ensures NameOk(Pruned(s, expired), m)
  {
    assert NameOk(s, m);
  }

  /** Occupation depends on the initialization entries only through those that read as initializing. */
  lemma SameOccupation(s: State, s': State)
    requires s' == s.(inits := s'.inits)
    requires forall m :: IsInitializing(s', m) <==> IsInitializing(s, m)
    ensures Occupied(s') == Occupied(s)
  {
    forall m ensures m in InitializingNames(s') <==> m in InitializingNames(s) {
      assert IsInitializing(s', m) <==> IsInitializing(s, m);
    }
    assert InitializingNames(s') == InitializingNames(s);
  }

  lemma PruneKeepsInitializing(s: State, expired: set<Name>, n: Name, m: Name)
    ensures IsInitializing(Pruned(s, expired), m) <==> IsInitializing(s, m)
    ensures IsInitializing(DropInit(Pruned(s, expired), n), m) <==> IsInitializing(DropInit(s, n), m)
  {
  }

  /** No later test of the admission can tell whether the prune took place. */
  lemma PruneIsInvisible(s: State, expired: set<Name>, n: Name)
    ensures MayBegin(Pruned(s, expired), n) <==> MayBegin(s, n)
    ensures HasSlot(Pruned(s, expired), n) <==> HasSlot(s, n)
    ensures Pruned(s, expired) == s.(inits := Pruned(s, expired).inits)
  {
    hide Occupied, IsInitializing;
    forall m ensures IsInitializing(DropInit(Pruned(s, expired), n), m) <==> IsInitializing(DropInit(s, n), m) {
      PruneKeepsInitializing(s, expired, n, m);
    }
    PruneKeepsInitializing(s, expired, n, n);
    SameOccupation(DropInit(s, n), DropInit(Pruned(s, expired), n));
  }

  // ---------------------------------------------------------------- the admission

  lemma MayBeginNeeds(s: State, n: Name)
    requires s.closed || (n in s.identities && s.identities[n] in s.cleanups)
    ensures !MayBegin(s, n)
  {
  }

  lemma SlotIsCounted(s: State, n: Name)
    ensures HasSlot(s, n) <==> (s.maxBeds > 0 ==> Occupied(DropInit(s, n)) < s.maxBeds)
  {
  }

  lemma DropKeepsAdmission(s: State, n: Name)
    requires MayBegin(s, n) && HasSlot(s, n)
    ensures MayBegin(DropInit(s, n), n) && HasSlot(DropInit(s, n), n)
  {
    hide Occupied;
    assert s.inits - {n} - {n} == s.inits - {n};
    assert DropInit(DropInit(s, n), n) == DropInit(s, n);
  }

  /** Accepting after the old entry is dropped is accepting over it. */
  lemma AcceptOverwrites(s: State, n: Name, a: Alloc)
    ensures Accept(DropInit(s, n), n, a) == Accept(s, n, a)
  {
    assert (s.inits - {n})[n := a] == s.inits[n := a];
  }
}
