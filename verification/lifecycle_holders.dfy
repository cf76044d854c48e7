/**
Who works on an allocation and on an identity, read off the history of a run: how far its creation has come,
who holds its cleanup semaphore, whether its runtime is released, and what fences an identity.
*/
module LifecycleHolders {
  import opened Common
  import opened Lifecycle
  import opened LifecycleOutcomes

  /** The last step was one of this allocation's creation, or of a holder of its semaphore. */
  predicate Ran(tr: Trace, a: Alloc, t: RunStep) {
    tr.Then? && tr.t == Run(a, t)
  }

  predicate Held(tr: Trace, a: Alloc, t: HoldStep) {
    tr.Then? && tr.t == Hold(a, t)
  }

  /** It was one of the purge that has this allocation as its target. */
  predicate Purged(tr: Trace, a: Alloc, t: PurgeStep) {
    && tr.Then? && tr.t.PurgeBy? && tr.t.purge == t
    && tr.t.n in tr.before.s.purges && tr.before.s.purges[tr.t.n].target == Some(a)
  }

  // ---------------------------------------------------------------- the runtime and its semaphore

  /** A runtime is released by its own undone preparation or rollback, or by whoever tears it down. */
  predicate Released(tr: Trace, a: Alloc) {
    tr.Then? && !(tr.t.Begin? && tr.t.a == a) &&
    (|| Ran(tr, a, PrepareUndone) || Ran(tr, a, RollbackOk)
     || Held(tr, a, RetireTeardown) || Held(tr, a, CloseTeardown) || Purged(tr, a, Teardown)
     || Released(tr.before, a))
  }

  /** Who has taken the semaphore and not given it back. */
  function Holder(tr: Trace, a: Alloc): Gate {
    if tr.Start? || (tr.t.Begin? && tr.t.a == a) then Free
    else if Ran(tr, a, RollbackEnter) then ByRun
    else if Held(tr, a, EvictFence) then ByEvict
    else if Held(tr, a, RetireEnter) then ByRetire
    else if Held(tr, a, CloseEnter) then ByClose
    else if Purged(tr, a, Enter) then ByPurge
    else if Ran(tr, a, RollbackOk) || Ran(tr, a, RollbackFailed) then Free
    else if Held(tr, a, EvictStop) || Held(tr, a, EvictResume) || Held(tr, a, EvictCommit) then Free
    else if Held(tr, a, RetireAbandon) || Held(tr, a, RetireDrop) || Held(tr, a, CloseLeave) then Free
    else if Purged(tr, a, Quit) && Holder(tr.before, a) == ByPurge then Free
    else Holder(tr.before, a)
  }

  /** How far the creation has come: by its last step, and at its end by whether its Bed was retiring. */
  function Progress(tr: Trace, a: Alloc): RunPc {
    if tr.Start? || (tr.t.Begin? && tr.t.a == a) then Preparing
    else if !(tr.t.Run? && tr.t.a == a) then Progress(tr.before, a)
    else match tr.t.run
      case PrepareOk => Publishing
      case PublishRefused => Unpublished
      case RetireUnpublished => RollbackWait
      case RollbackEnter => RollingBack
      case RollbackOk => RolledBack
      case FinishLook =>
        if a in tr.before.s.allocs && AllocName(tr.before.s, a) in tr.before.s.retirements then Committing
        else FinishCleaning
      case FinishCleaned => Committing
      case PublishOk => RunDone
      case FinishCommit(_) => RunDone
      case _ => Finishing
  }

  predicate RecordOk(tr: Trace, a: Alloc) {
    a in tr.s.allocs ==>
      && tr.s.allocs[a].released == Released(tr, a)
      && tr.s.allocs[a].gate == Holder(tr, a)
      && tr.s.allocs[a].pc == Progress(tr, a)
  }

  lemma RunRecordAfter(tr: Trace, a: Alloc)
    requires tr.Then? && tr.t.Run? && Next(tr.before.s, tr.t, tr.s) && RecordOk(tr.before, a)
    ensures RecordOk(tr, a)
  {
  }

  lemma HoldRecordAfter(tr: Trace, a: Alloc)
    requires tr.Then? && tr.t.Hold? && Next(tr.before.s, tr.t, tr.s) && RecordOk(tr.before, a)
    ensures RecordOk(tr, a)
  {
  }

  lemma PurgeRecordAfter(tr: Trace, a: Alloc)
    requires tr.Then? && tr.t.PurgeBy? && Next(tr.before.s, tr.t, tr.s) && RecordOk(tr.before, a)
    ensures RecordOk(tr, a)
  {
    hide PurgeRetirements;
  }

  /** What the steps without a holder leave of the allocations. */
  lemma QuietAllocs(s: State, t: Step)
    requires IsQuiet(t) && Enabled(s, t)
    ensures !t.Begin? ==> Apply(s, t).allocs == s.allocs
    ensures t.Begin? ==> Apply(s, t).allocs == s.allocs[t.a := Allocation(IdentityFor(s, t.n), Preparing, Free, false)]
  {
    hide Occupied, MayBegin, HasSlot, InUse, Pending;
  }

  lemma QuietRecordAfter(tr: Trace, a: Alloc)
    requires tr.Then? && IsQuiet(tr.t) && Next(tr.before.s, tr.t, tr.s) && RecordOk(tr.before, a)
    ensures RecordOk(tr, a)
  {
    hide Apply, Enabled;
    QuietAllocs(tr.before.s, tr.t);
  }

  /** In every run an allocation's record is what its history says. */
  lemma {:induction false} RecordsFollowHistory(tr: Trace, a: Alloc)
    requires Valid(tr)
    ensures RecordOk(tr, a)
  {
    hide Next, RecordOk;
    match tr
    case Start(_) => StartsEmpty(tr, a);
    case Then(before, t, s) =>
      RecordsFollowHistory(before, a);
      match t
      case Run(_, _) => RunRecordAfter(tr, a);
      case Hold(_, _) => HoldRecordAfter(tr, a);
      case PurgeBy(_, _) => PurgeRecordAfter(tr, a);
      case _ => QuietRecordAfter(tr, a);
  }

  lemma StartsEmpty(tr: Trace, a: Alloc)
    requires Valid(tr) && tr.Start?
    ensures RecordOk(tr, a)
  {
  }

  // ---------------------------------------------------------------- identities and their fences

  /** The last step has registered the name, if it was not registered before. */
  predicate Registers(tr: Trace, n: Name) {
    && tr.Then?
    && ((tr.t.Begin? && tr.t.n == n) || tr.t == LuggageClaim(n) || tr.t == PurgeBy(n, Identify))
  }

  /** A name keeps its identity from its registration until that identity is forgotten. */
  function IdentityOf(tr: Trace, n: Name): Option<Identity> {
    if tr.Start? then Lookup(tr.s.identities, n)
    else
      var was := IdentityOf(tr.before, n);
      if Registers(tr, n) && was.None? then Some(Identity(n, tr.before.s.serial))
      else if tr.t.Clean? && tr.t.clean.Forget? && tr.t.id.name == n then None
      else was
  }

  /**
  What fences an identity: an attempt while it runs, and after a failure or a claim until an attempt that may
  leave the directory in place has succeeded. A claim on the directory is never given up.
  */
  function FenceOf(tr: Trace, id: Identity): Option<Cleanup> {
    if tr.Start? then Lookup(tr.s.cleanups, id)
    else
      var was := FenceOf(tr.before, id);
      var claimed := was.Some? && was.value.removeRoot;
      match tr.t
      case LuggageClaim(n) => if IdentityFor(tr.before.s, n) == id then Some(Idle(true)) else was
      case Clean(other, step) =>
        if other != id then was
        else (match step
              case Attempt(who) => Some(Running(claimed || who.ForRetire? || who.ForPurge? || who.ForLuggage?, who))
              case Keep => None
              case _ => Some(Idle(claimed)))
      case _ => was
  }

  /** What each step does to the identities and their fences. */
  lemma StepOnIdentities(s: State, t: Step)
    requires Enabled(s, t)
    ensures Apply(s, t).cleanups ==
            match t
            case LuggageClaim(n) => s.cleanups[IdentityFor(s, n) := Idle(true)]
            case Clean(id, step) => CleanFences(s, id, step)
            case _ => s.cleanups
    ensures Apply(s, t).identities ==
            match t
            case Begin(n, _) => s.identities[n := IdentityFor(s, n)]
            case LuggageClaim(n) => s.identities[n := IdentityFor(s, n)]
            case PurgeBy(n, Identify) => s.identities[n := IdentityFor(s, n)]
            case Clean(id, Forget) => s.identities - {id.name}
            case _ => s.identities
  {
    hide Occupied, MayBegin, HasSlot, InUse, Pending, CleanFences;
  }

  lemma FenceAfter(tr: Trace, id: Identity)
    requires tr.Then? && Next(tr.before.s, tr.t, tr.s) && Lookup(tr.before.s.cleanups, id) == FenceOf(tr.before, id)
    ensures Lookup(tr.s.cleanups, id) == FenceOf(tr, id)
  {
    hide Apply, Enabled, IdentityFor;
    StepOnIdentities(tr.before.s, tr.t);
    if tr.t.Clean? { CleanNeeds(tr.before.s, tr.t.id, tr.t.clean); }
  }

  lemma CleanNeeds(s: State, id: Identity, t: CleanStep)
    requires Enabled(s, Clean(id, t))
    ensures !t.Attempt? ==> CleanupRunning(s, id)
  {
  }

  lemma IdentityAfter(tr: Trace, n: Name)
    requires tr.Then? && Next(tr.before.s, tr.t, tr.s) && Lookup(tr.before.s.identities, n) == IdentityOf(tr.before, n)
    ensures Lookup(tr.s.identities, n) == IdentityOf(tr, n)
  {
    hide Apply, Enabled;
    StepOnIdentities(tr.before.s, tr.t);
  }

  /** In every run the registered identities and their fences are what the history says. */
  lemma {:induction false} FencesFollowHistory(tr: Trace, n: Name, id: Identity)
    requires Valid(tr)
    ensures Lookup(tr.s.identities, n) == IdentityOf(tr, n)
    ensures Lookup(tr.s.cleanups, id) == FenceOf(tr, id)
  {
    hide Next;
    match tr
    case Start(_) =>
    case Then(before, t, s) =>
      FencesFollowHistory(before, n, id);
      IdentityAfter(tr, n);
      FenceAfter(tr, id);
  }
}
