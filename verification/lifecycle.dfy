/**
The Bed manager's name protocol: which of its maps a Bed name occupies while
creations, rollbacks, evictions, retirements, purges and local cleanups interleave.

A step is one section under the manager's lock. Slow work between two sections (staging data,
tearing down a runtime, deleting trees) is a pair of steps whose outcome is free. Waiting on a
context may fail at any point, so every wait can also be abandoned.
*/
module Lifecycle {
  import opened Common

  // Names and allocations are only compared, so integers stand for both.
  type Name = int
  type Alloc = int

  /** One local identity object: the shared Bed model of a name until that identity is forgotten. */
  datatype Identity = Identity(name: Name, serial: int)

  datatype Phase = Initializing | Resident | Evicting | Dormant | Failed

  /** Where the goroutine that initializes one allocation stands. */
  datatype RunPc =
    | Preparing        // building the allocation's resources
    | Publishing       // about to publish
    | Unpublished      // publication refused; about to enter the retirements
    | RollbackWait     // in the retirements, waiting for the cleanup semaphore
    | RollingBack      // holding the semaphore
    | RolledBack       // semaphore released; about to drop the retirement
    | Finishing        // finishInitialization, before it looks at the retirements
    | FinishCleaning   // cleaning an identity that has no retirement
    | Committing       // about to publish the failure
    | RunDone

  /** Holder of an allocation's cleanup semaphore. */
  datatype Gate = Free | ByRun | ByRetire | ByPurge | ByEvict | ByClose

  datatype Allocation = Allocation(id: Identity, pc: RunPc, gate: Gate, released: bool)

  /** Who cleans a local identity. */
  datatype Cleaner = ForFinish(a: Alloc) | ForRetire(a: Alloc) | ForPurge | ForLuggage | ForSweep

  /** A cleanup fence on a local identity; `removeRoot` also claims the Bed's own directory. */
  datatype Cleanup = Idle(removeRoot: bool) | Running(removeRoot: bool, who: Cleaner)

  datatype PurgePc = Begun | Identified | Joining(run: Alloc) | Joined | Claimed | Dropped
  datatype Purge = Purge(pc: PurgePc, id: Identity, target: Option<Alloc>)

  datatype State = State(
    maxBeds: int,
    closed: bool,
    beds: map<Name, Alloc>,
    inits: map<Name, Alloc>,
    retirements: map<Name, Alloc>,
    purges: map<Name, Purge>,
    identities: map<Name, Identity>,
    cleanups: map<Identity, Cleanup>,
    phases: map<Identity, Phase>,
    allocs: map<Alloc, Allocation>,
    luggage: set<Identity>,   // identities claimed by the luggage collector
    swept: set<Identity>,     // what the retry sweep under way has selected and not settled
    serial: int)

  // ---------------------------------------------------------------- projections

  predicate Maps(m: map<Name, Alloc>, n: Name, a: Alloc) {
    n in m && m[n] == a
  }

  function PhaseOf(s: State, id: Identity): Phase {
    if id in s.phases then s.phases[id] else Dormant
  }

  function AllocName(s: State, a: Alloc): Name
    requires a in s.allocs
  {
    s.allocs[a].id.name
  }

  /** An initialization entry that still reads as initializing. */
  predicate IsInitializing(s: State, n: Name) {
    n in s.inits && s.inits[n] in s.allocs && PhaseOf(s, s.allocs[s.inits[n]].id) == Initializing
  }

  function InitializingNames(s: State): set<Name> {
    set n | n in s.inits && IsInitializing(s, n)
  }

  /** What occupiedBedsLocked adds up. */
  function Occupied(s: State): int {
    |s.beds| + |s.retirements| + |InitializingNames(s) - s.retirements.Keys|
  }

  /** The names that hold a slot. */
  function OccupiedNames(s: State): set<Name> {
    s.beds.Keys + s.retirements.Keys + InitializingNames(s)
  }

  /** bedIdentityInUseLocked. */
  predicate InUse(s: State, n: Name) {
    n in s.beds || IsInitializing(s, n) || n in s.retirements || n in s.purges
  }

  /** A run that still owns its name and may yet publish it or retire it. */
  predicate Live(s: State, a: Alloc) {
    a in s.allocs && (s.allocs[a].pc.Preparing? || s.allocs[a].pc.Publishing? || s.allocs[a].pc.Unpublished?)
  }

  predicate CleanupRunning(s: State, id: Identity) {
    id in s.cleanups && s.cleanups[id].Running?
  }

  predicate CleanedBy(s: State, id: Identity, who: Cleaner) {
    CleanupRunning(s, id) && s.cleanups[id].who == who
  }

  /** The identity is still the registered identity of its name. */
  predicate Current(s: State, id: Identity) {
    id.name in s.identities && s.identities[id.name] == id
  }

  predicate AtPc(s: State, a: Alloc, pc: RunPc) {
    a in s.allocs && s.allocs[a].pc == pc
  }

  predicate AtGate(s: State, a: Alloc, gate: Gate) {
    a in s.allocs && s.allocs[a].gate == gate
  }

  /** localIdentityLocked: the registered identity, or a new one. */
  function IdentityFor(s: State, n: Name): Identity {
    if n in s.identities then s.identities[n] else Identity(n, s.serial)
  }

  function Register(s: State, n: Name): State {
    s.(identities := s.identities[n := IdentityFor(s, n)],
       serial := if n in s.identities then s.serial else s.serial + 1)
  }

  // ---------------------------------------------------------------- creation

  /** The refusals of beginInitialization other than capacity. */
  predicate MayBegin(s: State, n: Name) {
    && !s.closed
    && (n in s.identities ==> s.identities[n] !in s.cleanups)
    && n !in s.purges
    && n !in s.beds
    && !IsInitializing(s, n)
    && n !in s.retirements
  }

  function DropInit(s: State, n: Name): State {
    s.(inits := s.inits - {n})
  }

  predicate HasSlot(s: State, n: Name) {
    s.maxBeds > 0 ==> Occupied(DropInit(s, n)) < s.maxBeds
  }

  function Accept(s: State, n: Name, a: Alloc): State {
    var id := IdentityFor(s, n);
    Register(s, n).(
      inits := s.inits[n := a],
      phases := s.phases[id := Initializing],
      allocs := s.allocs[a := Allocation(id, Preparing, Free, false)])
  }

  // ---------------------------------------------------------------- the initializing goroutine

  datatype RunStep =
    | PrepareOk
    | PrepareUndone            // preparation failed and its rollback succeeded
    | PrepareStuck             // preparation failed and so did its rollback
    | PublishOk
    | PublishRefused
    | RetireUnpublished
    | RollbackEnter
    | RollbackAbandon
    | RollbackOk
    | RollbackFailed
    | RollbackDrop
    | FinishLook
    | FinishCleaned
    | FinishCommit(canceled: bool)

  /** publishInitializedBed succeeds. */
  predicate MayPublish(s: State, a: Alloc)
    requires a in s.allocs
  {
    && !s.closed
    && Maps(s.inits, AllocName(s, a), a)
    && PhaseOf(s, s.allocs[a].id) == Initializing
    && AllocName(s, a) !in s.beds
  }

  predicate RunEnabled(s: State, a: Alloc, t: RunStep) {
    && a in s.allocs
    && match t {
         case PrepareOk => s.allocs[a].pc == Preparing
         case PrepareUndone => s.allocs[a].pc == Preparing
         case PrepareStuck => s.allocs[a].pc == Preparing
         case PublishOk => s.allocs[a].pc == Publishing && MayPublish(s, a)
         case PublishRefused => s.allocs[a].pc == Publishing
         case RetireUnpublished => s.allocs[a].pc == Unpublished
         case RollbackEnter => s.allocs[a].pc == RollbackWait && s.allocs[a].gate == Free
         case RollbackAbandon => s.allocs[a].pc == RollbackWait
         case RollbackOk => s.allocs[a].pc == RollingBack && s.allocs[a].gate == ByRun
         case RollbackFailed => s.allocs[a].pc == RollingBack && s.allocs[a].gate == ByRun
         case RollbackDrop => s.allocs[a].pc == RolledBack
         case FinishLook => s.allocs[a].pc == Finishing
         // finishInitialization waits for its own attempt
         case FinishCleaned => s.allocs[a].pc == FinishCleaning && !CleanedBy(s, s.allocs[a].id, ForFinish(a))
         case FinishCommit(_) => s.allocs[a].pc == Committing
       }
  }

  function RunRecord(s: State, al: Allocation, t: RunStep): Allocation {
    match t
    case PrepareOk => al.(pc := Publishing)
    case PrepareUndone => al.(pc := Finishing, released := true)
    case PrepareStuck => al.(pc := Finishing)
    case PublishOk => al.(pc := RunDone)
    case PublishRefused => al.(pc := Unpublished)
    case RetireUnpublished => al.(pc := RollbackWait)
    case RollbackEnter => al.(pc := RollingBack, gate := ByRun)
    case RollbackAbandon => al.(pc := Finishing)
    case RollbackOk => al.(pc := RolledBack, gate := Free, released := true)
    case RollbackFailed => al.(pc := Finishing, gate := Free)
    case RollbackDrop => al.(pc := Finishing)
    case FinishLook => al.(pc := if al.id.name in s.retirements then Committing else FinishCleaning)
    case FinishCleaned => al.(pc := Committing)
    case FinishCommit(_) => al.(pc := RunDone)
  }

  function RunRetirements(s: State, a: Alloc, n: Name, t: RunStep): map<Name, Alloc> {
    match t
    case PrepareStuck => s.retirements[n := a]
    case RetireUnpublished => s.retirements[n := a]
    case RollbackDrop => s.retirements - {n}
    case _ => s.retirements
  }

  /** finishInitialization drops the run's own entry, unless it stays to report a failure. */
  function RunInits(s: State, a: Alloc, n: Name, t: RunStep): map<Name, Alloc> {
    match t
    case PublishOk => s.inits - {n}
    case FinishCommit(canceled) => if Maps(s.inits, n, a)
        && (n in s.retirements || canceled) then s.inits - {n} else s.inits
    case _ => s.inits
  }

  function RunPhases(s: State, a: Alloc, id: Identity, t: RunStep): map<Identity, Phase> {
    match t
    case PublishOk => s.phases[id := Resident]
    case FinishCommit(canceled) =>
      if !Maps(s.inits, id.name, a) then s.phases
      else if id.name in s.retirements then s.phases[id := Evicting]
      else if canceled then s.phases
      else s.phases[id := Failed]
    case _ => s.phases
  }

  function ApplyRun(s: State, a: Alloc, t: RunStep): State
    requires RunEnabled(s, a, t)
  {
    var al := s.allocs[a];
    var n := al.id.name;
    s.(allocs := s.allocs[a := RunRecord(s, al, t)],
       beds := if t.PublishOk? then s.beds[n := a] else s.beds,
       inits := RunInits(s, a, n, t),
       retirements := RunRetirements(s, a, n, t),
       phases := RunPhases(s, a, al.id, t))
  }

  // ---------------------------------------------------------------- eviction, retirement, shutdown

  datatype HoldStep =
    | EvictFence
    | EvictStop
    | EvictResume
    | EvictCommit
    | RetireEnter
    | RetireTeardown
    | RetireAbandon
    | RetireDrop
    | CloseEnter
    | CloseTeardown
    | CloseLeave
    | TeardownPhase(dormant: bool)

  predicate HoldEnabled(s: State, a: Alloc, t: HoldStep) {
    && a in s.allocs
    && match t {
         case EvictFence =>
           && s.allocs[a].gate == Free && !s.closed && Maps(s.beds, AllocName(s, a), a)
           && PhaseOf(s, s.allocs[a].id) == Resident
         case EvictStop => s.allocs[a].gate == ByEvict
         case EvictResume => s.allocs[a].gate == ByEvict
         case EvictCommit => s.allocs[a].gate == ByEvict && !s.closed && Maps(s.beds, AllocName(s, a), a)
         case RetireEnter => s.allocs[a].gate == Free && Maps(s.retirements, AllocName(s, a), a)
         case RetireTeardown => s.allocs[a].gate == ByRetire
         case RetireAbandon => s.allocs[a].gate == ByRetire
         case RetireDrop => s.allocs[a].gate == ByRetire && s.allocs[a].released && !Current(s, s.allocs[a].id)
         // shutdown tears down what it has listed without asking again whether it is resident
         case CloseEnter => s.allocs[a].gate == Free && s.closed && !Live(s, a)
         case CloseTeardown => s.allocs[a].gate == ByClose
         case CloseLeave => s.allocs[a].gate == ByClose
         case TeardownPhase(_) => s.allocs[a].gate != Free && PhaseOf(s, s.allocs[a].id) != Initializing
       }
  }

  function HoldRecord(al: Allocation, t: HoldStep): Allocation {
    match t
    case EvictFence => al.(gate := ByEvict)
    case RetireEnter => al.(gate := ByRetire)
    case RetireTeardown => al.(released := true)
    case CloseEnter => al.(gate := ByClose)
    case CloseTeardown => al.(released := true)
    case TeardownPhase(_) => al
    case _ => al.(gate := Free)
  }

  function HoldRetirements(s: State, a: Alloc, n: Name, t: HoldStep): map<Name, Alloc> {
    match t
    case EvictCommit => s.retirements[n := a]
    case RetireDrop => if Maps(s.retirements, n, a) then s.retirements - {n} else s.retirements
    case _ => s.retirements
  }

  function HoldPhases(s: State, id: Identity, t: HoldStep): map<Identity, Phase> {
    match t
    case EvictFence => s.phases[id := Evicting]
    case EvictResume => s.phases[id := Resident]
    case TeardownPhase(dormant) => s.phases[id := if dormant then Dormant else Evicting]
    case _ => s.phases
  }

  function ApplyHold(s: State, a: Alloc, t: HoldStep): State
    requires HoldEnabled(s, a, t)
  {
    var al := s.allocs[a];
    var n := al.id.name;
    s.(allocs := s.allocs[a := HoldRecord(al, t)],
       beds := if t.EvictCommit? then s.beds - {n} else s.beds,
       retirements := HoldRetirements(s, a, n, t),
       phases := HoldPhases(s, al.id, t))
  }

  // ---------------------------------------------------------------- purge

  datatype PurgeStep = Identify | Look | Join | Claim | Enter | Teardown | Drop | Quit

  function PurgeFence(s: State, n: Name): State {
    s.(purges := s.purges[n := Purge(Begun, Identity(n, 0), None)])
  }

  predicate PurgeEnabled(s: State, n: Name, t: PurgeStep) {
    && n in s.purges
    && var p := s.purges[n];
       match t {
         case Identify => p.pc == Begun
         case Look => p.pc == Identified
         case Join => p.pc.Joining? && AtPc(s, p.pc.run, RunDone)
         case Claim => p.pc == Joined
         case Enter => p.pc == Claimed && p.target.Some? && AtGate(s, p.target.value, Free)
         case Teardown => p.pc == Claimed && p.target.Some? && AtGate(s, p.target.value, ByPurge)
         case Drop =>
           && p.pc == Claimed && !Current(s, p.id)
           && (p.target.Some? ==> AtGate(s, p.target.value, ByPurge) && s.allocs[p.target.value].released)
         case Quit => true
       }
  }

  function PurgeRecord(s: State, n: Name, p: Purge, t: PurgeStep): Purge {
    match t
    case Identify => p.(pc := Identified, id := IdentityFor(s, n))
    case Look => p.(pc := if IsInitializing(s, n) then Joining(s.inits[n]) else Joined)
    case Join => p.(pc := Joined)
    case Claim => p.(pc := Claimed, target := if n in s.beds then Some(s.beds[n]) else Lookup(s.retirements, n))
    case Drop => p.(pc := Dropped)
    case _ => p
  }

  function PurgeRetirements(s: State, n: Name, t: PurgeStep): map<Name, Alloc> {
    match t
    case Claim => if n in s.beds then s.retirements[n := s.beds[n]] else s.retirements
    case Drop => s.retirements - {n}
    case _ => s.retirements
  }

  /** The semaphore and the runtime of the Bed a purge has claimed. */
  function PurgeAllocs(s: State, p: Purge, t: PurgeStep): map<Alloc, Allocation> {
    if p.target.Some? && p.target.value in s.allocs then
      var b := p.target.value;
      match t
      case Enter => s.allocs[b := s.allocs[b].(gate := ByPurge)]
      case Teardown => s.allocs[b := s.allocs[b].(released := true)]
      case Quit => if s.allocs[b].gate == ByPurge then s.allocs[b := s.allocs[b].(gate := Free)] else s.allocs
      case _ => s.allocs
    else s.allocs
  }

  function ApplyPurge(s: State, n: Name, t: PurgeStep): State
    requires PurgeEnabled(s, n, t)
  {
    var p := s.purges[n];
    s.(purges := if t.Quit? then s.purges - {n} else s.purges[n := PurgeRecord(s, n, p, t)],
       identities := if t.Identify? then s.identities[n := IdentityFor(s, n)] else s.identities,
       serial := if t.Identify? && n !in s.identities then s.serial + 1 else s.serial,
       inits := if t.Look? && !IsInitializing(s, n) then s.inits - {n} else s.inits,
       beds := if t.Claim? then s.beds - {n} else s.beds,
       retirements := PurgeRetirements(s, n, t),
       allocs := PurgeAllocs(s, p, t))
  }

  // ---------------------------------------------------------------- local cleanup

  datatype CleanStep = Attempt(who: Cleaner) | Fail | Keep | Forget

  function RemoveRoot(who: Cleaner): bool {
    who.ForRetire? || who.ForPurge? || who.ForLuggage?
  }

  /** Who may start an attempt on an identity that is registered and not being cleaned. */
  predicate MayClean(s: State, id: Identity, who: Cleaner) {
    match who
    case ForFinish(a) => AtPc(s, a, FinishCleaning) && s.allocs[a].id == id
    case ForRetire(a) => AtGate(s, a, ByRetire) && s.allocs[a].released && s.allocs[a].id == id
    case ForPurge => id.name in s.purges && s.purges[id.name].pc == Claimed && s.purges[id.name].id == id
    case ForLuggage => id in s.luggage
    case ForSweep => id in s.swept
  }

  predicate CleanEnabled(s: State, id: Identity, t: CleanStep) {
    match t
    case Attempt(who) => Current(s, id) && !CleanupRunning(s, id) && MayClean(s, id, who)
    case Fail => CleanupRunning(s, id)
    case Keep => CleanupRunning(s, id) && !s.cleanups[id].removeRoot
    case Forget => CleanupRunning(s, id) && Current(s, id)
  }

  function CleanFences(s: State, id: Identity, t: CleanStep): map<Identity, Cleanup> {
    var removeRoot := id in s.cleanups && s.cleanups[id].removeRoot;
    match t
    case Attempt(who) => s.cleanups[id := Running(RemoveRoot(who) || removeRoot, who)]
    case Fail => s.cleanups[id := Idle(removeRoot)]
    case Keep => s.cleanups - {id}
    case Forget => s.cleanups[id := Idle(removeRoot)]
  }

  function ApplyClean(s: State, id: Identity, t: CleanStep): State
    requires CleanEnabled(s, id, t)
  {
    s.(cleanups := CleanFences(s, id, t),
       identities := if t.Forget? then s.identities - {id.name} else s.identities,
       phases := if t.Forget? then s.phases[id := Dormant] else s.phases,
       swept := if !t.Attempt? && CleanedBy(s, id, ForSweep) then s.swept - {id} else s.swept)
  }

  /** What RetryLocalCleanups selects; the daemon runs one at a time. */
  function Pending(s: State): set<Identity> {
    set n | n in s.identities && s.identities[n] in s.cleanups && !InUse(s, n) :: s.identities[n]
  }

  /** removeLuggage fences a cold identity before any of it is deleted. */
  predicate MayClaimLuggage(s: State, n: Name) {
    !InUse(s, n) && (n in s.identities ==> s.identities[n] !in s.cleanups)
  }

  function ClaimLuggage(s: State, n: Name): State {
    var id := IdentityFor(s, n);
    Register(s, n).(cleanups := s.cleanups[id := Idle(true)], luggage := s.luggage + {id})
  }

  // ---------------------------------------------------------------- one step of the manager

  datatype Step =
    | Begin(n: Name, a: Alloc)
    | BeginRefused(n: Name)
    | DropFailed(n: Name)
    | Run(a: Alloc, run: RunStep)
    | Hold(a: Alloc, hold: HoldStep)
    | PurgeBegin(n: Name)
    | PurgeBy(n: Name, purge: PurgeStep)
    | Clean(id: Identity, clean: CleanStep)
    | SweepBegin
    | SweepSkip(id: Identity)    // forgotten meanwhile, cleaned by somebody else, or the sweep is canceled
    | LuggageClaim(n: Name)
    | CloseDaemon

  predicate Enabled(s: State, t: Step) {
    match t
    case Begin(n, a) => MayBegin(s, n) && a !in s.allocs && HasSlot(s, n)
    case BeginRefused(n) => MayBegin(s, n)
    case DropFailed(n) => n in s.inits && !IsInitializing(s, n)
    case Run(a, run) => RunEnabled(s, a, run)
    case Hold(a, hold) => HoldEnabled(s, a, hold)
    case PurgeBegin(n) => n !in s.purges
    case PurgeBy(n, purge) => PurgeEnabled(s, n, purge)
    case Clean(id, clean) => CleanEnabled(s, id, clean)
    case SweepBegin => s.swept == {}
    case SweepSkip(id) => !CleanedBy(s, id, ForSweep)
    case LuggageClaim(n) => MayClaimLuggage(s, n)
    case CloseDaemon => true
  }

  function Apply(s: State, t: Step): State
    requires Enabled(s, t)
  {
    match t
    case Begin(n, a) => Accept(s, n, a)
    case BeginRefused(n) => DropInit(s, n)
    case DropFailed(n) => DropInit(s, n)
    case Run(a, run) => ApplyRun(s, a, run)
    case Hold(a, hold) => ApplyHold(s, a, hold)
    case PurgeBegin(n) => PurgeFence(s, n)
    case PurgeBy(n, purge) => ApplyPurge(s, n, purge)
    case Clean(id, clean) => ApplyClean(s, id, clean)
    case SweepBegin => s.(swept := Pending(s))
    case SweepSkip(id) => s.(swept := s.swept - {id})
    case LuggageClaim(n) => ClaimLuggage(s, n)
    case CloseDaemon => s.(closed := true)
  }

  /** A daemon that has recovered its local identities and admits its first request. */
  ghost predicate Initial(s: State) {
    && s.beds == map[] && s.inits == map[] && s.retirements == map[] && s.purges == map[] && s.allocs == map[]
    && s.luggage == {} && s.swept == {}
    && (forall n :: n in s.identities ==> s.identities[n].name == n && s.identities[n].serial < s.serial)
    && (forall id :: id in s.cleanups ==> id.serial < s.serial && s.cleanups[id].Idle?)
  }

  predicate Next(s: State, t: Step, s': State) {
    Enabled(s, t) && s' == Apply(s, t)
  }

  /** A run of the daemon from its first request, and the state it has reached. */
  datatype Trace = Start(s: State) | Then(before: Trace, t: Step, s: State)

  ghost predicate Valid(tr: Trace) {
    match tr
    case Start(s) => Initial(s)
    case Then(before, t, s) => Valid(before) && Next(before.s, t, s)
  }
}
