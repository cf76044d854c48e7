/**
Exactly when a step of the manager is admitted, in terms of the history of its run, which also says how far
each purge has come and what a sweep has selected.
*/
module LifecycleAdmission {
  import opened Common
  import opened Lifecycle
  import opened LifecycleOutcomes
  import opened LifecycleHolders

  predicate WasClosed(tr: Trace) {
    if tr.Start? then tr.s.closed else tr.t.CloseDaemon? || WasClosed(tr.before)
  }

  /** A purge of the name has begun and not quit. */
  predicate UnderPurge(tr: Trace, n: Name) {
    tr.Then? && (tr.t == PurgeBegin(n) || (tr.t != PurgeBy(n, Quit) && UnderPurge(tr.before, n)))
  }

  lemma ClosedAfter(s: State, t: Step, n: Name)
    requires Enabled(s, t)
    ensures Apply(s, t).closed == (s.closed || t.CloseDaemon?)
    ensures n in Apply(s, t).purges <==> t == PurgeBegin(n) || (t != PurgeBy(n, Quit) && n in s.purges)
  {
    hide MayBegin, HasSlot, Pending, RunEnabled, HoldEnabled, CleanEnabled, MayClaimLuggage;
  }

  lemma {:induction false} ClosingFollowsHistory(tr: Trace, n: Name)
    requires Valid(tr)
    ensures tr.s.closed == WasClosed(tr) && (n in tr.s.purges <==> UnderPurge(tr, n))
  {
    hide Apply, Enabled;
    match tr
    case Start(_) =>
    case Then(before, t, s) =>
      ClosingFollowsHistory(before, n);
      ClosedAfter(before.s, t, n);
  }

  /** The name's entry reads as initializing. */
  predicate ReadsInitializing(tr: Trace, n: Name) {
    && EntryOf(tr, n).Some? && EntryOf(tr, n).value in tr.s.allocs
    && LastPhase(tr, tr.s.allocs[EntryOf(tr, n).value].id) == Initializing
  }

  /** The name's identity, if it has one, is fenced for cleanup. */
  predicate FencedOff(tr: Trace, n: Name) {
    IdentityOf(tr, n).Some? && FenceOf(tr, IdentityOf(tr, n).value).Some?
  }

  /** Nothing in the run has the name. */
  predicate IsCold(tr: Trace, n: Name) {
    ResidentOf(tr, n).None? && RetirementOf(tr, n).None? && !ReadsInitializing(tr, n) && !UnderPurge(tr, n)
  }

  lemma NameFacts(tr: Trace, n: Name)
    requires Valid(tr)
    ensures InUse(tr.s, n) <==> !IsCold(tr, n)
    ensures IsInitializing(tr.s, n) <==> ReadsInitializing(tr, n)
    ensures n in tr.s.identities && tr.s.identities[n] in tr.s.cleanups <==> FencedOff(tr, n)
    ensures tr.s.closed == WasClosed(tr)
  {
    hide Valid, ResidentOf, RetirementOf, EntryOf, LastPhase, PhaseOf, IdentityOf, FenceOf, UnderPurge, WasClosed;
    MapsFollowHistory(tr, n);
    ClosingFollowsHistory(tr, n);
    if EntryOf(tr, n).Some? && EntryOf(tr, n).value in tr.s.allocs {
      PhasesFollowHistory(tr, tr.s.allocs[EntryOf(tr, n).value].id);
    }
    if n in tr.s.identities { FencesFollowHistory(tr, n, tr.s.identities[n]); }
    FencesFollowHistory(tr, n, Identity(n, 0));
  }

  // ---------------------------------------------------------------- purges, sweeps and luggage

  /** The purge of a name: how far its last step has brought it, the identity it found and the Bed it claimed. */
  function PurgeOf(tr: Trace, n: Name): Option<Purge> {
    if tr.Start? then None
    else if tr.t == PurgeBegin(n) then Some(Purge(Begun, Identity(n, 0), None))
    else if !(tr.t.PurgeBy? && tr.t.n == n) || PurgeOf(tr.before, n).None? then PurgeOf(tr.before, n)
    else
      var p := PurgeOf(tr.before, n).value;
      match tr.t.purge
      case Identify =>
        var id := IdentityOf(tr, n);
        Some(p.(pc := Identified, id := if id.Some? then id.value else p.id))
      case Look =>
        Some(p.(pc := if ReadsInitializing(tr.before, n) then Joining(EntryOf(tr.before, n).value) else Joined))
      case Join => Some(p.(pc := Joined))
      case Claim =>
        var bed, left := ResidentOf(tr.before, n), RetirementOf(tr.before, n);
        Some(p.(pc := Claimed, target := if bed.Some? then bed else left))
      case Drop => Some(p.(pc := Dropped))
      case Quit => None
      case _ => Some(p)
  }

  lemma PurgesAfter(s: State, t: Step, n: Name)
    requires Enabled(s, t)
    ensures Lookup(Apply(s, t).purges, n) ==
            if t == PurgeBegin(n) then Some(Purge(Begun, Identity(n, 0), None))
            else if t.PurgeBy? && t.n == n then
              (if t.purge.Quit? then None else Some(PurgeRecord(s, n, s.purges[n], t.purge)))
            else Lookup(s.purges, n)
    ensures t.PurgeBy? ==> t.n in s.purges
  {
    hide MayBegin, HasSlot, Pending, RunEnabled, HoldEnabled, CleanEnabled, MayClaimLuggage, PurgeRecord;
  }

  /** In every run the purge of each name is what the history says. */
  lemma {:induction false} PurgesFollowHistory(tr: Trace, n: Name)
    requires Valid(tr)
    ensures Lookup(tr.s.purges, n) == PurgeOf(tr, n)
  {
    hide Apply, Enabled, ResidentOf, RetirementOf, EntryOf, ReadsInitializing, IdentityOf, IsInitializing;
    match tr
    case Start(_) =>
    case Then(before, t, s) =>
      PurgesFollowHistory(before, n);
      PurgesAfter(before.s, t, n);
      if t.PurgeBy? && t.n == n {
        LooksAlike(before, n);
        FencesFollowHistory(tr, n, Identity(n, 0));
        StepOnIdentities(before.s, t);
      }
  }

  /** What a purge reads of the name's maps. */
  lemma LooksAlike(tr: Trace, n: Name)
    requires Valid(tr)
    ensures IsInitializing(tr.s, n) <==> ReadsInitializing(tr, n)
    ensures IsInitializing(tr.s, n) ==> EntryOf(tr, n) == Some(tr.s.inits[n])
    ensures (if n in tr.s.beds then Some(tr.s.beds[n]) else Lookup(tr.s.retirements, n)) ==
            if ResidentOf(tr, n).Some? then ResidentOf(tr, n) else RetirementOf(tr, n)
  {
    hide Valid, ResidentOf, RetirementOf, EntryOf, LastPhase, PhaseOf;
    MapsFollowHistory(tr, n);
    NameFacts(tr, n);
  }

  /** The identity's luggage has been claimed. */
  predicate LuggageClaimed(tr: Trace, id: Identity) {
    tr.Then? && ((tr.t.LuggageClaim? && IdentityOf(tr, tr.t.n) == Some(id)) || LuggageClaimed(tr.before, id))
  }

  /** The sweep under way has selected the identity, and neither skipped nor settled it. */
  predicate Swept(tr: Trace, id: Identity) {
    tr.Then? &&
    match tr.t
    case SweepBegin =>
      IdentityOf(tr.before, id.name) == Some(id) && FenceOf(tr.before, id).Some? && IsCold(tr.before, id.name)
    case SweepSkip(other) => other != id && Swept(tr.before, id)
    case Clean(other, step) =>
      && Swept(tr.before, id)
      && !(other == id && !step.Attempt? && Attempts(tr.before, id, ForSweep))
    case _ => Swept(tr.before, id)
  }

  /** This caller's attempt on the identity is running. */
  predicate Attempts(tr: Trace, id: Identity, who: Cleaner) {
    FenceOf(tr, id).Some? && FenceOf(tr, id).value.Running? && FenceOf(tr, id).value.who == who
  }

  lemma SweepsAfter(s: State, t: Step, id: Identity)
    requires Enabled(s, t) && (forall n :: n in s.identities ==> s.identities[n].name == n)
    ensures id in Apply(s, t).swept <==>
            match t
            case SweepBegin => Current(s, id) && id in s.cleanups && !InUse(s, id.name)
            case SweepSkip(other) => id in s.swept && other != id
            case Clean(other, step) => id in s.swept && !(other == id && !step.Attempt? && CleanedBy(s, id, ForSweep))
            case _ => id in s.swept
    ensures id in Apply(s, t).luggage <==> (t.LuggageClaim? && IdentityFor(s, t.n) == id) || id in s.luggage
  {
    hide MayBegin, HasSlot, RunEnabled, HoldEnabled, MayClaimLuggage, InUse, PurgeEnabled;
  }

  /** In every run what is swept, and whose luggage is claimed, are what the history says. */
  lemma {:induction false} SweepsFollowHistory(tr: Trace, id: Identity)
    requires Valid(tr)
    ensures id in tr.s.swept <==> Swept(tr, id)
    ensures id in tr.s.luggage <==> LuggageClaimed(tr, id)
  {
    hide Apply, Enabled, IdentityOf, FenceOf, IsCold, InUse;
    match tr
    case Start(_) =>
    case Then(before, t, s) =>
      SweepsFollowHistory(before, id);
      IdentitiesStayNamed(before);
      SweepsAfter(before.s, t, id);
      NameFacts(before, id.name);
      FencesFollowHistory(before, id.name, id);
      if t.LuggageClaim? {
        FencesFollowHistory(tr, t.n, id);
        StepOnIdentities(before.s, t);
      }
  }

  // ---------------------------------------------------------------- who may take which step

  /** The steps of a creation, by how far it has come. */
  predicate RunAdmitted(tr: Trace, a: Alloc, t: RunStep) {
    a in tr.s.allocs &&
    var id, pc := tr.s.allocs[a].id, Progress(tr, a);
    match t
    case PublishOk =>
      && pc == Publishing && !WasClosed(tr) && EntryOf(tr, id.name) == Some(a)
      && LastPhase(tr, id) == Initializing && ResidentOf(tr, id.name).None?
    case PublishRefused => pc == Publishing
    case RetireUnpublished => pc == Unpublished
    case RollbackEnter => pc == RollbackWait && Holder(tr, a) == Free
    case RollbackAbandon => pc == RollbackWait
    case RollbackOk => pc == RollingBack && Holder(tr, a) == ByRun
    case RollbackFailed => pc == RollingBack && Holder(tr, a) == ByRun
    case RollbackDrop => pc == RolledBack
    case FinishLook => pc == Finishing
    case FinishCleaned => pc == FinishCleaning && !Attempts(tr, id, ForFinish(a))
    case FinishCommit(_) => pc == Committing
    case _ => pc == Preparing
  }

  /** The steps of an eviction, a retirement and a shutdown, by who holds the semaphore. */
  predicate HoldAdmitted(tr: Trace, a: Alloc, t: HoldStep) {
    a in tr.s.allocs &&
    var id, holder := tr.s.allocs[a].id, Holder(tr, a);
    match t
    case EvictFence =>
      holder == Free && !WasClosed(tr) && ResidentOf(tr, id.name) == Some(a) && LastPhase(tr, id) == Resident
    case EvictCommit => holder == ByEvict && !WasClosed(tr) && ResidentOf(tr, id.name) == Some(a)
    case EvictStop => holder == ByEvict
    case EvictResume => holder == ByEvict
    case RetireEnter => holder == Free && RetirementOf(tr, id.name) == Some(a)
    case RetireTeardown => holder == ByRetire
    case RetireAbandon => holder == ByRetire
    case RetireDrop => holder == ByRetire && Released(tr, a) && IdentityOf(tr, id.name) != Some(id)
    case CloseEnter => holder == Free && WasClosed(tr) && Progress(tr, a) !in {Preparing, Publishing, Unpublished}
    case CloseTeardown => holder == ByClose
    case CloseLeave => holder == ByClose
    case TeardownPhase(_) => holder != Free && LastPhase(tr, id) != Initializing
  }

  /** The steps of a purge, by how far it has come and what it has claimed. */
  predicate PurgeAdmitted(tr: Trace, n: Name, t: PurgeStep) {
    PurgeOf(tr, n).Some? &&
    var p := PurgeOf(tr, n).value;
    var found := p.target.Some? && p.target.value in tr.s.allocs;
    var holds := found && Holder(tr, p.target.value) == ByPurge;
    match t
    case Identify => p.pc == Begun
    case Look => p.pc == Identified
    case Join => p.pc.Joining? && p.pc.run in tr.s.allocs && Progress(tr, p.pc.run) == RunDone
    case Claim => p.pc == Joined
    case Enter => p.pc == Claimed && found && Holder(tr, p.target.value) == Free
    case Teardown => p.pc == Claimed && holds
    case Drop =>
      && p.pc == Claimed && IdentityOf(tr, p.id.name) != Some(p.id)
      && (p.target.None? || (holds && Released(tr, p.target.value)))
    case Quit => true
  }

  /** The caller of an attempt stands where it cleans this identity. */
  predicate Cleans(tr: Trace, id: Identity, who: Cleaner) {
    match who
    case ForFinish(a) => a in tr.s.allocs && tr.s.allocs[a].id == id && Progress(tr, a) == FinishCleaning
    case ForRetire(a) =>
      a in tr.s.allocs && tr.s.allocs[a].id == id && Holder(tr, a) == ByRetire && Released(tr, a)
    case ForPurge => PurgeOf(tr, id.name).Some? && PurgeOf(tr, id.name).value.pc == Claimed
                     && PurgeOf(tr, id.name).value.id == id
    case ForLuggage => LuggageClaimed(tr, id)
    case ForSweep => Swept(tr, id)
  }

  /** An attempt starts on a registered identity without one, may fail, and may keep only an unclaimed directory. */
  predicate CleanAdmitted(tr: Trace, id: Identity, t: CleanStep) {
    var running := FenceOf(tr, id).Some? && FenceOf(tr, id).value.Running?;
    match t
    case Attempt(who) => IdentityOf(tr, id.name) == Some(id) && !running && Cleans(tr, id, who)
    case Fail => running
    case Keep => running && !FenceOf(tr, id).value.removeRoot
    case Forget => running && IdentityOf(tr, id.name) == Some(id)
  }

  ghost predicate Admitted(tr: Trace, t: Step) {
    match t
    case Begin(n, a) => !WasClosed(tr) && IsCold(tr, n) && !FencedOff(tr, n) && a !in tr.s.allocs && HasSlot(tr.s, n)
    case BeginRefused(n) => !WasClosed(tr) && IsCold(tr, n) && !FencedOff(tr, n)
    case DropFailed(n) => EntryOf(tr, n).Some? && !ReadsInitializing(tr, n)
    case Run(a, run) => RunAdmitted(tr, a, run)
    case Hold(a, hold) => HoldAdmitted(tr, a, hold)
    case PurgeBegin(n) => PurgeOf(tr, n).None?
    case PurgeBy(n, purge) => PurgeAdmitted(tr, n, purge)
    case Clean(id, clean) => CleanAdmitted(tr, id, clean)
    case SweepBegin => forall id :: !Swept(tr, id)
    case SweepSkip(id) => !Attempts(tr, id, ForSweep)
    case LuggageClaim(n) => IsCold(tr, n) && !FencedOff(tr, n)
    case CloseDaemon => true
  }

  lemma RunsAreAdmittedExactly(tr: Trace, a: Alloc, t: RunStep)
    requires Valid(tr)
    ensures RunEnabled(tr.s, a, t) <==> RunAdmitted(tr, a, t)
  {
    hide Valid, ResidentOf, RetirementOf, EntryOf, LastPhase, PhaseOf, WasClosed, UnderPurge;
    hide Progress, Released, Holder, IdentityOf, FenceOf;
    if a in tr.s.allocs {
      var id := tr.s.allocs[a].id;
      MapsFollowHistory(tr, id.name);
      PhasesFollowHistory(tr, id);
      RecordsFollowHistory(tr, a);
      ClosingFollowsHistory(tr, id.name);
      FencesFollowHistory(tr, id.name, id);
    }
  }

  lemma HoldsAreAdmittedExactly(tr: Trace, a: Alloc, t: HoldStep)
    requires Valid(tr)
    ensures HoldEnabled(tr.s, a, t) <==> HoldAdmitted(tr, a, t)
  {
    hide Valid, ResidentOf, RetirementOf, EntryOf, LastPhase, PhaseOf, WasClosed, UnderPurge;
    hide Progress, Released, Holder, IdentityOf, FenceOf;
    if a in tr.s.allocs {
      var id := tr.s.allocs[a].id;
      MapsFollowHistory(tr, id.name);
      PhasesFollowHistory(tr, id);
      RecordsFollowHistory(tr, a);
      ClosingFollowsHistory(tr, id.name);
      FencesFollowHistory(tr, id.name, id);
    }
  }

  lemma PurgesAreAdmittedExactly(tr: Trace, n: Name, t: PurgeStep)
    requires Valid(tr)
    ensures PurgeEnabled(tr.s, n, t) <==> PurgeAdmitted(tr, n, t)
  {
    hide Valid, PurgeOf, Progress, Released, Holder, IdentityOf, FenceOf;
    PurgesFollowHistory(tr, n);
    if n in tr.s.purges {
      var p := tr.s.purges[n];
      FencesFollowHistory(tr, p.id.name, p.id);
      if p.target.Some? { RecordsFollowHistory(tr, p.target.value); }
      if p.pc.Joining? { RecordsFollowHistory(tr, p.pc.run); }
    }
  }

  lemma CleansAreAdmittedExactly(tr: Trace, id: Identity, t: CleanStep)
    requires Valid(tr)
    ensures CleanEnabled(tr.s, id, t) <==> CleanAdmitted(tr, id, t)
  {
    hide Valid, PurgeOf, Progress, Released, Holder, IdentityOf, FenceOf, Swept, LuggageClaimed;
    FencesFollowHistory(tr, id.name, id);
    PurgesFollowHistory(tr, id.name);
    SweepsFollowHistory(tr, id);
    if t.Attempt? && (t.who.ForFinish? || t.who.ForRetire?) { RecordsFollowHistory(tr, t.who.a); }
  }

  /** In every run, guarded or not, every step of the manager is admitted exactly as the history of the run says. */
  lemma StepsAreAdmittedExactly(tr: Trace, t: Step)
    requires Valid(tr)
    ensures Enabled(tr.s, t) <==> Admitted(tr, t)
  {
    hide Valid, RunEnabled, HoldEnabled, PurgeEnabled, CleanEnabled, RunAdmitted, HoldAdmitted, PurgeAdmitted;
    hide CleanAdmitted, HasSlot, IsCold, FencedOff, WasClosed, ReadsInitializing, IsInitializing, InUse, EntryOf;
    hide PurgeOf, Swept, FenceOf;
    match t
    case Begin(n, _) => NamesAreFreeExactly(tr, n);
    case BeginRefused(n) => NamesAreFreeExactly(tr, n);
    case DropFailed(n) =>
      NameFacts(tr, n);
      MapsFollowHistory(tr, n);
    case Run(a, run) => RunsAreAdmittedExactly(tr, a, run);
    case Hold(a, hold) => HoldsAreAdmittedExactly(tr, a, hold);
    case PurgeBegin(n) => PurgesFollowHistory(tr, n);
    case PurgeBy(n, purge) => PurgesAreAdmittedExactly(tr, n, purge);
    case Clean(id, clean) => CleansAreAdmittedExactly(tr, id, clean);
    case SweepBegin => forall id ensures id in tr.s.swept <==> Swept(tr, id) { SweepsFollowHistory(tr, id); }
    case SweepSkip(id) => FencesFollowHistory(tr, id.name, id);
    case LuggageClaim(n) => NamesAreFreeExactly(tr, n);
    case CloseDaemon =>
  }

  lemma NamesAreFreeExactly(tr: Trace, n: Name)
    requires Valid(tr)
    ensures MayBegin(tr.s, n) <==> !WasClosed(tr) && IsCold(tr, n) && !FencedOff(tr, n)
    ensures MayClaimLuggage(tr.s, n) <==> IsCold(tr, n) && !FencedOff(tr, n)
  {
    hide Valid, IsCold, FencedOff, WasClosed, IsInitializing, ReadsInitializing;
    NameFacts(tr, n);
  }
}
