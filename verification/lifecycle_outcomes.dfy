/**
Who holds a Bed name, read off the history of a run: what puts an allocation into each of the manager's maps
and takes it out again, and what a failed creation leaves behind. Nothing here goes through the machine's
step functions, and nothing needs its guard.
*/
module LifecycleOutcomes {
  import opened Common
  import opened Lifecycle

  /** The last step of the run, on an allocation of this name. */
  predicate Ran(tr: Trace, n: Name, t: RunStep) {
    tr.Then? && tr.t.Run? && tr.t.run == t && NameOf(tr, n)
  }

  predicate Held(tr: Trace, n: Name, t: HoldStep) {
    tr.Then? && tr.t.Hold? && tr.t.hold == t && NameOf(tr, n)
  }

  predicate NameOf(tr: Trace, n: Name)
    requires tr.Then? && (tr.t.Run? || tr.t.Hold?)
  {
    tr.t.a in tr.before.s.allocs && AllocName(tr.before.s, tr.t.a) == n
  }

  predicate PurgeDid(tr: Trace, n: Name, t: PurgeStep) {
    tr.Then? && tr.t == PurgeBy(n, t)
  }

  // ---------------------------------------------------------------- the three maps

  /** A name is resident from its publication until an eviction commits or a purge claims it. */
  function ResidentOf(tr: Trace, n: Name): Option<Alloc> {
    if tr.Start? then None
    else if Ran(tr, n, PublishOk) then Some(tr.t.a)
    else if Held(tr, n, EvictCommit) || PurgeDid(tr, n, Claim) then None
    else ResidentOf(tr.before, n)
  }

  /** A retirement is left by a stuck preparation, a rollback, an eviction or a purge's claim. */
  function RetirementOf(tr: Trace, n: Name): Option<Alloc> {
    if tr.Start? then None
    else if Ran(tr, n, PrepareStuck) || Ran(tr, n, RetireUnpublished) || Held(tr, n, EvictCommit) then Some(tr.t.a)
    else if PurgeDid(tr, n, Claim) && ResidentOf(tr.before, n).Some? then ResidentOf(tr.before, n)
    else if Ran(tr, n, RollbackDrop) || PurgeDid(tr, n, Drop) then None
    else if Held(tr, n, RetireDrop) && RetirementOf(tr.before, n) == Some(tr.t.a) then None
    else RetirementOf(tr.before, n)
  }

  /** The creation of this entry has just ended. */
  predicate Ends(tr: Trace, n: Name, entry: Option<Alloc>) {
    tr.Then? && tr.t.Run? && tr.t.run.FinishCommit? && NameOf(tr, n) && entry == Some(tr.t.a)
  }

  /** Somebody has just dropped an entry that does not read as initializing. */
  predicate DropsStaleEntry(tr: Trace, n: Name) {
    && tr.Then?
    && (|| tr.t == BeginRefused(n) || tr.t == DropFailed(n)
        || (tr.t == PurgeBy(n, Look) && !IsInitializing(tr.before.s, n)))
  }

  /**
  A creation's entry lasts until it publishes, or is dropped or replaced; at its end it goes if the creation
  was canceled or its Bed is retiring, and stays to report a failure otherwise.
  */
  function EntryOf(tr: Trace, n: Name): Option<Alloc> {
    if tr.Start? then None
    else if tr.t.Begin? && tr.t.n == n then Some(tr.t.a)
    else if Ran(tr, n, PublishOk) || DropsStaleEntry(tr, n) then None
    else
      var entry := EntryOf(tr.before, n);
      if Ends(tr, n, entry) && (tr.t.run.canceled || RetirementOf(tr.before, n).Some?) then None else entry
  }

  /** A step of none of the goroutines that hold a name. */
  predicate IsQuiet(t: Step) {
    !t.Run? && !t.Hold? && !t.PurgeBy?
  }

  lemma QuietStep(s: State, t: Step)
    requires IsQuiet(t) && Enabled(s, t)
    ensures var s' := Apply(s, t);
            && s'.beds == s.beds && s'.retirements == s.retirements
            && s'.inits == (match t
                            case Begin(n, a) => s.inits[n := a]
                            case BeginRefused(n) => s.inits - {n}
                            case DropFailed(n) => s.inits - {n}
                            case _ => s.inits)
            && s'.phases == (match t
                             case Begin(n, _) => s.phases[IdentityFor(s, n) := Initializing]
                             case Clean(id, Forget) => s.phases[id := Dormant]
                             case _ => s.phases)
  {
    hide Occupied, MayBegin, HasSlot, InUse, Pending;
  }

  lemma RunBedsAfter(tr: Trace, n: Name)
    requires tr.Then? && tr.t.Run? && Next(tr.before.s, tr.t, tr.s)
    requires Lookup(tr.before.s.beds, n) == ResidentOf(tr.before, n)
    ensures Lookup(tr.s.beds, n) == ResidentOf(tr, n)
  {
    hide RunRecord, RunRetirements, RunInits, RunPhases, HoldRecord, HoldRetirements, HoldPhases;
    hide PurgeRecord, PurgeRetirements, PurgeAllocs;
  }

  lemma HoldBedsAfter(tr: Trace, n: Name)
    requires tr.Then? && tr.t.Hold? && Next(tr.before.s, tr.t, tr.s)
    requires Lookup(tr.before.s.beds, n) == ResidentOf(tr.before, n)
    ensures Lookup(tr.s.beds, n) == ResidentOf(tr, n)
  {
    hide RunRecord, RunRetirements, RunInits, RunPhases, HoldRecord, HoldRetirements, HoldPhases;
    hide PurgeRecord, PurgeRetirements, PurgeAllocs;
  }

  lemma PurgeBedsAfter(tr: Trace, n: Name)
    requires tr.Then? && tr.t.PurgeBy? && Next(tr.before.s, tr.t, tr.s)
    requires Lookup(tr.before.s.beds, n) == ResidentOf(tr.before, n)
    ensures Lookup(tr.s.beds, n) == ResidentOf(tr, n)
  {
    hide RunRecord, RunRetirements, RunInits, RunPhases, HoldRecord, HoldRetirements, HoldPhases;
    hide PurgeRecord, PurgeRetirements, PurgeAllocs;
  }

  lemma BedsAfter(tr: Trace, n: Name)
    requires tr.Then? && Next(tr.before.s, tr.t, tr.s)
    requires Lookup(tr.before.s.beds, n) == ResidentOf(tr.before, n)
    ensures Lookup(tr.s.beds, n) == ResidentOf(tr, n)
  {
    hide Apply, Enabled, IsInitializing;
    match tr.t
    case Run(_, _) => RunBedsAfter(tr, n);
    case Hold(_, _) => HoldBedsAfter(tr, n);
    case PurgeBy(_, _) => PurgeBedsAfter(tr, n);
    case _ => QuietStep(tr.before.s, tr.t);
  }

  lemma RunRetirementsAfter(tr: Trace, n: Name)
    requires tr.Then? && tr.t.Run? && Next(tr.before.s, tr.t, tr.s)
    requires Lookup(tr.before.s.beds, n) == ResidentOf(tr.before, n)
    requires Lookup(tr.before.s.retirements, n) == RetirementOf(tr.before, n)
    ensures Lookup(tr.s.retirements, n) == RetirementOf(tr, n)
  {
    hide RunRecord, RunInits, RunPhases, HoldRecord, HoldPhases, ResidentOf, PurgeRecord, PurgeAllocs;
  }

  lemma HoldRetirementsAfter(tr: Trace, n: Name)
    requires tr.Then? && tr.t.Hold? && Next(tr.before.s, tr.t, tr.s)
    requires Lookup(tr.before.s.beds, n) == ResidentOf(tr.before, n)
    requires Lookup(tr.before.s.retirements, n) == RetirementOf(tr.before, n)
    ensures Lookup(tr.s.retirements, n) == RetirementOf(tr, n)
  {
    hide RunRecord, RunInits, RunPhases, HoldRecord, HoldPhases, ResidentOf, PurgeRecord, PurgeAllocs;
  }

  lemma PurgeRetirementsAfter(tr: Trace, n: Name)
    requires tr.Then? && tr.t.PurgeBy? && Next(tr.before.s, tr.t, tr.s)
    requires Lookup(tr.before.s.beds, n) == ResidentOf(tr.before, n)
    requires Lookup(tr.before.s.retirements, n) == RetirementOf(tr.before, n)
    ensures Lookup(tr.s.retirements, n) == RetirementOf(tr, n)
  {
    hide RunRecord, RunInits, RunPhases, HoldRecord, HoldPhases, ResidentOf, PurgeRecord, PurgeAllocs;
  }

  lemma RetirementsAfter(tr: Trace, n: Name)
    requires tr.Then? && Next(tr.before.s, tr.t, tr.s)
    requires Lookup(tr.before.s.beds, n) == ResidentOf(tr.before, n)
    requires Lookup(tr.before.s.retirements, n) == RetirementOf(tr.before, n)
    ensures Lookup(tr.s.retirements, n) == RetirementOf(tr, n)
  {
    hide Apply, Enabled, IsInitializing;
    match tr.t
    case Run(_, _) => RunRetirementsAfter(tr, n);
    case Hold(_, _) => HoldRetirementsAfter(tr, n);
    case PurgeBy(_, _) => PurgeRetirementsAfter(tr, n);
    case _ => QuietStep(tr.before.s, tr.t);
  }

  lemma RunEntriesAfter(tr: Trace, n: Name)
    requires tr.Then? && tr.t.Run? && Next(tr.before.s, tr.t, tr.s)
    requires Lookup(tr.before.s.retirements, n) == RetirementOf(tr.before, n)
    requires Lookup(tr.before.s.inits, n) == EntryOf(tr.before, n)
    ensures Lookup(tr.s.inits, n) == EntryOf(tr, n)
  {
    hide RunRecord, RunRetirements, RunPhases, HoldRecord, HoldRetirements, HoldPhases, RetirementOf;
    hide PurgeRecord, PurgeAllocs;
  }

  lemma HoldEntriesAfter(tr: Trace, n: Name)
    requires tr.Then? && tr.t.Hold? && Next(tr.before.s, tr.t, tr.s)
    requires Lookup(tr.before.s.retirements, n) == RetirementOf(tr.before, n)
    requires Lookup(tr.before.s.inits, n) == EntryOf(tr.before, n)
    ensures Lookup(tr.s.inits, n) == EntryOf(tr, n)
  {
    hide RunRecord, RunRetirements, RunPhases, HoldRecord, HoldRetirements, HoldPhases, RetirementOf;
    hide PurgeRecord, PurgeAllocs;
  }

  lemma PurgeEntriesAfter(tr: Trace, n: Name)
    requires tr.Then? && tr.t.PurgeBy? && Next(tr.before.s, tr.t, tr.s)
    requires Lookup(tr.before.s.retirements, n) == RetirementOf(tr.before, n)
    requires Lookup(tr.before.s.inits, n) == EntryOf(tr.before, n)
    ensures Lookup(tr.s.inits, n) == EntryOf(tr, n)
  {
    hide RunRecord, RunRetirements, RunPhases, HoldRecord, HoldRetirements, HoldPhases, RetirementOf;
    hide PurgeRecord, PurgeAllocs;
  }

  lemma EntriesAfter(tr: Trace, n: Name)
    requires tr.Then? && Next(tr.before.s, tr.t, tr.s)
    requires Lookup(tr.before.s.retirements, n) == RetirementOf(tr.before, n)
    requires Lookup(tr.before.s.inits, n) == EntryOf(tr.before, n)
    ensures Lookup(tr.s.inits, n) == EntryOf(tr, n)
  {
    hide Apply, Enabled, IsInitializing;
    match tr.t
    case Run(_, _) => RunEntriesAfter(tr, n);
    case Hold(_, _) => HoldEntriesAfter(tr, n);
    case PurgeBy(_, _) => PurgeEntriesAfter(tr, n);
    case _ => QuietStep(tr.before.s, tr.t);
  }

  /** In every run each map holds for a name what the history says. */
  lemma {:induction false} MapsFollowHistory(tr: Trace, n: Name)
    requires Valid(tr)
    ensures Lookup(tr.s.beds, n) == ResidentOf(tr, n)
    ensures Lookup(tr.s.retirements, n) == RetirementOf(tr, n)
    ensures Lookup(tr.s.inits, n) == EntryOf(tr, n)
  {
    hide Next, ResidentOf, RetirementOf, EntryOf;
    match tr
    case Start(_) => StartsEmpty(tr, n);
    case Then(before, t, s) =>
      MapsFollowHistory(before, n);
      BedsAfter(tr, n);
      RetirementsAfter(tr, n);
      EntriesAfter(tr, n);
  }

  lemma StartsEmpty(tr: Trace, n: Name)
    requires Valid(tr) && tr.Start?
    ensures Lookup(tr.s.beds, n) == ResidentOf(tr, n)
    ensures Lookup(tr.s.retirements, n) == RetirementOf(tr, n)
    ensures Lookup(tr.s.inits, n) == EntryOf(tr, n)
  {
  }

  // ---------------------------------------------------------------- the phase of an identity

  /** The step of an allocation of this identity. */
  predicate On(tr: Trace, id: Identity) {
    tr.Then? && (tr.t.Run? || tr.t.Hold?) && tr.t.a in tr.before.s.allocs && tr.before.s.allocs[tr.t.a].id == id
  }

  /** The phase that the last step has given the identity, if it has. */
  function PhaseGiven(tr: Trace, id: Identity): Option<Phase>
    requires tr.Then?
  {
    match tr.t
    case Begin(n, _) => if IdentityFor(tr.before.s, n) == id then Some(Initializing) else None
    case Run(_, PublishOk) => if On(tr, id) then Some(Resident) else None
    case Run(a, FinishCommit(canceled)) =>
      if !On(tr, id) || EntryOf(tr.before, id.name) != Some(a) then None
      else if RetirementOf(tr.before, id.name).Some? then Some(Evicting)
      else if canceled then None
      else Some(Failed)
    case Hold(_, EvictFence) => if On(tr, id) then Some(Evicting) else None
    case Hold(_, EvictResume) => if On(tr, id) then Some(Resident) else None
    case Hold(_, TeardownPhase(dormant)) => if On(tr, id) then Some(if dormant then Dormant else Evicting) else None
    case Clean(other, Forget) => if other == id then Some(Dormant) else None
    case _ => None
  }

  function LastPhase(tr: Trace, id: Identity): Phase {
    if tr.Start? then PhaseOf(tr.s, id)
    else if PhaseGiven(tr, id).Some? then PhaseGiven(tr, id).value
    else LastPhase(tr.before, id)
  }

  lemma RunPhaseAfter(tr: Trace, id: Identity)
    requires tr.Then? && tr.t.Run? && Next(tr.before.s, tr.t, tr.s)
    requires PhaseOf(tr.before.s, id) == LastPhase(tr.before, id)
    requires Lookup(tr.before.s.retirements, id.name) == RetirementOf(tr.before, id.name)
    requires Lookup(tr.before.s.inits, id.name) == EntryOf(tr.before, id.name)
    ensures PhaseOf(tr.s, id) == LastPhase(tr, id)
  {
    hide RunRecord, RunRetirements, RunInits, HoldRecord, HoldRetirements, RetirementOf, EntryOf;
    hide PurgeRecord, PurgeAllocs;
  }

  lemma HoldPhaseAfter(tr: Trace, id: Identity)
    requires tr.Then? && tr.t.Hold? && Next(tr.before.s, tr.t, tr.s)
    requires PhaseOf(tr.before.s, id) == LastPhase(tr.before, id)
    requires Lookup(tr.before.s.retirements, id.name) == RetirementOf(tr.before, id.name)
    requires Lookup(tr.before.s.inits, id.name) == EntryOf(tr.before, id.name)
    ensures PhaseOf(tr.s, id) == LastPhase(tr, id)
  {
    hide RunRecord, RunRetirements, RunInits, HoldRecord, HoldRetirements, RetirementOf, EntryOf;
    hide PurgeRecord, PurgeAllocs;
  }

  lemma PurgePhaseAfter(tr: Trace, id: Identity)
    requires tr.Then? && tr.t.PurgeBy? && Next(tr.before.s, tr.t, tr.s)
    requires PhaseOf(tr.before.s, id) == LastPhase(tr.before, id)
    requires Lookup(tr.before.s.retirements, id.name) == RetirementOf(tr.before, id.name)
    requires Lookup(tr.before.s.inits, id.name) == EntryOf(tr.before, id.name)
    ensures PhaseOf(tr.s, id) == LastPhase(tr, id)
  {
    hide RunRecord, RunRetirements, RunInits, HoldRecord, HoldRetirements, RetirementOf, EntryOf;
    hide PurgeRecord, PurgeAllocs;
  }

  lemma PhaseAfter(tr: Trace, id: Identity)
    requires tr.Then? && Next(tr.before.s, tr.t, tr.s)
    requires PhaseOf(tr.before.s, id) == LastPhase(tr.before, id)
    requires Lookup(tr.before.s.retirements, id.name) == RetirementOf(tr.before, id.name)
    requires Lookup(tr.before.s.inits, id.name) == EntryOf(tr.before, id.name)
    ensures PhaseOf(tr.s, id) == LastPhase(tr, id)
  {
    hide Apply, Enabled, IsInitializing, IdentityFor;
    match tr.t
    case Run(_, _) => RunPhaseAfter(tr, id);
    case Hold(_, _) => HoldPhaseAfter(tr, id);
    case PurgeBy(_, _) => PurgePhaseAfter(tr, id);
    case _ => QuietStep(tr.before.s, tr.t);
  }

  /** In every run an identity's phase is the one it was last given. */
  lemma {:induction false} PhasesFollowHistory(tr: Trace, id: Identity)
    requires Valid(tr)
    ensures PhaseOf(tr.s, id) == LastPhase(tr, id)
  {
    hide Next, PhaseOf, PhaseGiven;
    match tr
    case Start(_) =>
    case Then(before, t, s) =>
      PhasesFollowHistory(before, id);
      MapsFollowHistory(before, id.name);
      PhaseAfter(tr, id);
  }

  // ---------------------------------------------------------------- what a failed creation leaves

  /** The last step was the end of this creation, uncanceled, with its own entry and nothing retiring. */
  predicate EndsUncanceled(tr: Trace, a: Alloc) {
    && tr.Then? && tr.t == Run(a, FinishCommit(false)) && a in tr.before.s.allocs
    && EntryOf(tr.before, AllocName(tr.before.s, a)) == Some(a)
    && RetirementOf(tr.before, AllocName(tr.before.s, a)).None?
  }

  predicate EndedUncanceled(tr: Trace, a: Alloc) {
    tr.Then? && (EndsUncanceled(tr, a) || EndedUncanceled(tr.before, a))
  }

  /** It ended so, and nobody has given its identity another phase since. */
  predicate ReportsFailure(tr: Trace, a: Alloc, id: Identity) {
    tr.Then? && (EndsUncanceled(tr, a) || (ReportsFailure(tr.before, a, id) && PhaseGiven(tr, id).None?))
  }

  ghost predicate IdentitiesNamed(s: State) {
    forall n :: n in s.identities ==> s.identities[n].name == n
  }

  lemma {:induction false} IdentitiesStayNamed(tr: Trace)
    requires Valid(tr)
    ensures IdentitiesNamed(tr.s)
  {
    hide Next;
    match tr
    case Start(_) =>
    case Then(before, t, s) =>
      IdentitiesStayNamed(before);
      NamedAfter(before.s, t, s);
  }

  lemma NamedAfter(s: State, t: Step, s': State)
    requires IdentitiesNamed(s) && Next(s, t, s')
    ensures IdentitiesNamed(s')
  {
    hide Occupied, MayBegin, HasSlot, InUse, Pending, RunRecord, HoldRecord, PurgeAllocs, CleanFences;
  }

  /** An allocation keeps its identity, only its own run moves it on, and a run that is done stays done. */
  lemma RunAfter(s: State, t: Step, a: Alloc)
    requires Enabled(s, t) && a in s.allocs
    ensures a in Apply(s, t).allocs && Apply(s, t).allocs[a].id == s.allocs[a].id
    ensures s.allocs[a].pc == RunDone ==> Apply(s, t).allocs[a].pc == RunDone
    ensures !(t.Run? && t.a == a) ==> Apply(s, t).allocs[a].pc == s.allocs[a].pc
    ensures t.Run? && t.a == a ==> s.allocs[a].pc != RunDone
    ensures t.Run? && t.a == a ==>
              (Apply(s, t).allocs[a].pc == RunDone <==> t.run.PublishOk? || t.run.FinishCommit?)
  {
    hide Occupied, MayBegin, HasSlot, InUse, Pending, CleanFences;
  }

  lemma {:induction false} EndedIsDone(tr: Trace, a: Alloc)
    requires Valid(tr) && EndedUncanceled(tr, a)
    ensures AtPc(tr.s, a, RunDone)
  {
    hide Apply, Enabled, EntryOf, RetirementOf;
    if EndedUncanceled(tr.before, a) { EndedIsDone(tr.before, a); }
    RunAfter(tr.before.s, tr.t, a);
  }

  /** An entry names an allocation of its own name. */
  lemma {:induction false} EntriesAreNamed(tr: Trace, n: Name)
    requires Valid(tr) && EntryOf(tr, n).Some?
    ensures EntryOf(tr, n).value in tr.s.allocs && AllocName(tr.s, EntryOf(tr, n).value) == n
  {
    hide Apply, Enabled, RetirementOf, IsInitializing;
    var a := EntryOf(tr, n).value;
    if tr.t.Begin? && tr.t.n == n {
      IdentitiesStayNamed(tr.before);
      BeginAdds(tr.before.s, n, a);
    } else {
      EntriesAreNamed(tr.before, n);
      RunAfter(tr.before.s, tr.t, a);
    }
  }

  lemma BeginAdds(s: State, n: Name, a: Alloc)
    requires Enabled(s, Begin(n, a))
    ensures a !in s.allocs && a in Apply(s, Begin(n, a)).allocs
    ensures Apply(s, Begin(n, a)).allocs[a].id == IdentityFor(s, n) && Apply(s, Begin(n, a)).allocs[a].pc != RunDone
  {
    hide Occupied;
  }

  /** While an entry is there, its run is over if and only if it ended uncanceled, with nothing retiring. */
  lemma {:induction false} EntriesOutliveOnlyFailures(tr: Trace, n: Name)
    requires Valid(tr) && EntryOf(tr, n).Some?
    ensures AtPc(tr.s, EntryOf(tr, n).value, RunDone) <==> EndedUncanceled(tr, EntryOf(tr, n).value)
  {
    hide Apply, Enabled, IsInitializing;
    var a := EntryOf(tr, n).value;
    EntriesAreNamed(tr, n);
    if EndedUncanceled(tr, a) {
      EndedIsDone(tr, a);
    } else if tr.t.Begin? && tr.t.n == n {
      BeginAdds(tr.before.s, n, a);
    } else {
      EntriesAreNamed(tr.before, n);
      EntriesOutliveOnlyFailures(tr.before, n);
      RunAfter(tr.before.s, tr.t, a);
    }
  }

  /**
  And it reads as failed if and only if its own run ended so and its identity has been given no other phase
  since. A canceled creation, or one whose Bed is retiring, leaves no entry to read.
  */
  lemma {:induction false} FailuresAreReportedExactly(tr: Trace, n: Name)
    requires Valid(tr) && EntryOf(tr, n).Some? && EntryOf(tr, n).value in tr.s.allocs
    ensures var a := EntryOf(tr, n).value; var id := tr.s.allocs[a].id;
            PhaseOf(tr.s, id) == Failed <==> ReportsFailure(tr, a, id)
  {
    hide Apply, Enabled, IsInitializing, PhaseOf, RetirementOf;
    var a := EntryOf(tr, n).value;
    EntriesAreNamed(tr, n);
    PhasesFollowHistory(tr, tr.s.allocs[a].id);
    if tr.t.Begin? && tr.t.n == n {
      BeginAdds(tr.before.s, n, a);
      NeverReported(tr.before, a, tr.s.allocs[a].id);
    } else {
      EntriesAreNamed(tr.before, n);
      FailuresAreReportedExactly(tr.before, n);
      PhasesFollowHistory(tr.before, tr.s.allocs[a].id);
      RunAfter(tr.before.s, tr.t, a);
    }
  }

  lemma {:induction false} NeverReported(tr: Trace, a: Alloc, id: Identity)
    requires Valid(tr) && a !in tr.s.allocs
    ensures !ReportsFailure(tr, a, id) && !EndedUncanceled(tr, a)
  {
    hide Apply, Enabled, EntryOf, RetirementOf, PhaseGiven;
    if tr.Then? {
      if a in tr.before.s.allocs { RunAfter(tr.before.s, tr.t, a); }
      NeverReported(tr.before, a, id);
    }
  }
}
