/**
Generations of one Bed name on one carrier: the local directory with its metadata, the snapshot in
the store, and the persists that bump, pack, upload and commit. Crashes, failed uploads and uploads
whose success is not reported can happen at every step.
*/
module Persistence {
  import opened Common

  type Alloc = int

  /** A local copy: the generation in its metadata, and how recent its data is. */
  datatype Local = Local(generation: int, data: int)
  datatype Snapshot = Snapshot(generation: int, data: int)

  /** One allocation's persist, which its persist lock makes the only one. */
  datatype Job = NoJob | Bumped(generation: int) | Packed(generation: int, data: int) | Stored(generation: int)

  /**
  An allocation reads the local facts when it is accepted and uses them when it stages in. A retired one
  may still have a persist waiting for its lock; one that a purge has claimed rejects new ones.
  */
  datatype Stage = Accepted(present: bool, generation: int) | Staged | Ready | Purging | Retired | Ended

  datatype Allocation = Allocation(stage: Stage, job: Job)

  datatype State = State(
    local: Option<Local>,
    snapshot: Option<Snapshot>,
    owner: Option<Alloc>,          // the allocation the directory belongs to
    allocs: map<Alloc, Allocation>,
    uploaded: int,                 // highest generation uploaded since the last purge, 0 if none
    clock: int)                    // data written later is more recent

  datatype Step =
    | Accept(a: Alloc)
    | StageIn(a: Alloc)
    | Prepare(a: Alloc)
    | Abort(a: Alloc)
    | Write(a: Alloc)
    | Bump(a: Alloc)
    | Pack(a: Alloc)
    | Upload(a: Alloc, reported: bool)
    | UploadFail(a: Alloc)
    | CommitMeta(a: Alloc, saved: bool)
    | Retire(a: Alloc)
    | PurgeClaim(a: Alloc)
    | PurgeSnapshot
    | DropLuggage
    | Crash

  function Record(s: State, a: Alloc): Allocation {
    if a in s.allocs then s.allocs[a] else Allocation(Ended, NoJob)
  }

  function Generation(local: Option<Local>): int {
    if local.Some? then local.value.generation else 0
  }

  /** StageInBedFS keeps a local copy that is at least as new as the snapshot. */
  predicate KeepsLuggage(present: bool, generation: int, snapshot: Option<Snapshot>) {
    snapshot.None? || (present && generation >= snapshot.value.generation)
  }

  /** The allocation's runtime has the directory. */
  predicate Holds(stage: Stage) {
    stage.Ready? || stage.Purging?
  }

  predicate Enabled(s: State, t: Step) {
    match t
    case Accept(a) => s.owner.None? && a !in s.allocs
    case StageIn(a) => s.owner == Some(a) && Record(s, a).stage.Accepted?
    case Prepare(a) => s.owner == Some(a) && Record(s, a).stage.Staged?
    case Abort(a) => s.owner == Some(a) && (Record(s, a).stage.Accepted? || Record(s, a).stage.Staged?)
    case Write(a) => s.owner == Some(a) && Holds(Record(s, a).stage) && s.local.Some?
    // a persist needs its allocation, not the directory's owner: it may have waited for the lock
    case Bump(a) => a in s.allocs && Record(s, a).stage in {Ready, Retired} && Record(s, a).job.NoJob? && s.local.Some?
    // the store refuses a snapshot that is not newer than its own, before anything is uploaded
    case Pack(a) =>
      && Record(s, a).job.Bumped? && s.local.Some?
      && (s.snapshot.Some? ==> s.snapshot.value.generation < Record(s, a).job.generation)
    case Upload(a, _) => Record(s, a).job.Packed?
    case UploadFail(a) => Record(s, a).job.Bumped? || Record(s, a).job.Packed?
    case CommitMeta(a, _) => Record(s, a).job.Stored?
    case Retire(a) => s.owner == Some(a) && Holds(Record(s, a).stage)
    case PurgeClaim(a) => s.owner == Some(a) && Record(s, a).stage.Ready?
    // a purge joins the persist of the Bed it has claimed; the local copy goes in a later step, if at all
    case PurgeSnapshot => s.owner.Some? ==> Record(s, s.owner.value) == Allocation(Purging, NoJob)
    case DropLuggage => s.owner.None?
    case Crash => true
  }

  function NextLocal(s: State, t: Step): Option<Local> {
    match t
    case StageIn(a) =>
      var stage := Record(s, a).stage;
      if stage.Accepted? && !KeepsLuggage(stage.present, stage.generation, s.snapshot) then
        Some(Local(s.snapshot.value.generation, s.snapshot.value.data))
      else s.local
    case Prepare(a) => if s.local.Some? then s.local else Some(Local(0, 0))
    case Write(a) => if s.local.Some? then Some(s.local.value.(data := s.clock)) else None
    case Bump(a) => if s.local.Some? then Some(s.local.value.(generation := s.local.value.generation + 1)) else None
    // the persist saves its own copy of the metadata again, if the directory is still there
    case CommitMeta(a, saved) =>
      if s.local.Some? && saved && Record(s, a).job.Stored?
          then Some(s.local.value.(generation := Record(s, a).job.generation))
      else s.local
    case Retire(a) => None
    case DropLuggage => None
    case _ => s.local
  }

  function NextJob(s: State, job: Job, t: Step): Job {
    match t
    case Bump(a) => Bumped(Generation(s.local) + 1)
    case Pack(a) => if job.Bumped? && s.local.Some? then Packed(job.generation, s.local.value.data) else job
    case Upload(a, reported) => if reported && job.Packed? then Stored(job.generation) else NoJob
    case UploadFail(a) => NoJob
    case CommitMeta(a, saved) => NoJob
    case _ => job
  }

  function NextStage(s: State, stage: Stage, t: Step): Stage {
    match t
    case Accept(a) => Accepted(s.local.Some?, Generation(s.local))
    case StageIn(a) => Staged
    case Prepare(a) => Ready
    case Abort(a) => Ended
    case Retire(a) => if stage.Purging? then Ended else Retired
    case PurgeClaim(a) => Purging
    case _ => stage
  }

  predicate Stores(s: State, t: Step) {
    t.Upload? && Record(s, t.a).job.Packed?
  }

  /** The allocation a step acts for. */
  function Actor(s: State, t: Step): Option<Alloc> {
    match t
    case PurgeSnapshot => None
    case DropLuggage => None
    case Crash => None
    case _ => Some(t.a)
  }

  function Apply(s: State, t: Step): State {
    var actor := Actor(s, t);
    State(
      local := NextLocal(s, t),
      snapshot := if Stores(s, t) then Some(Snapshot(Record(s, t.a).job.generation, Record(s, t.a).job.data))
                  else if t.PurgeSnapshot? then None else s.snapshot,
      owner := if t.Accept? then Some(t.a)
               else if t.Abort? || t.Retire? || t.Crash? then None else s.owner,
      allocs := if t.Crash? then map[]
                else if actor.None? then s.allocs
                else s.allocs[actor.value := Allocation(NextStage(s, Record(s, actor.value).stage, t),
                                                        NextJob(s, Record(s, actor.value).job, t))],
      uploaded := if Stores(s, t) && s.uploaded < Record(s, t.a).job.generation then Record(s, t.a).job.generation
                  else if t.PurgeSnapshot? then 0 else s.uploaded,
      clock := if t.Write? then s.clock + 1 else s.clock)
  }

  /** A carrier that has never seen the name. */
  const EMPTY: State := State(None, None, None, map[], 0, 1)

  datatype Trace = Start | Then(before: Trace, t: Step)

  /** Where a run from `s` ends. */
  function From(s: State, tr: Trace): State {
    match tr
    case Start => s
    case Then(before, t) => Apply(From(s, before), t)
  }

  function End(tr: Trace): State {
    From(EMPTY, tr)
  }

  predicate Valid(tr: Trace) {
    match tr
    case Start => true
    case Then(before, t) => Valid(before) && Enabled(End(before), t)
  }

  // ---------------------------------------------------------------- the missing guard

  /**
  Evicting a Bed does not join a persist that is queued behind the eviction's own, so a persist can
  go on after its allocation has lost the directory. The guard is the join that a purge does.
  */
  predicate Guarded(s: State, t: Step) {
    match t
    case Bump(a) => s.owner == Some(a)
    case Retire(a) => Record(s, a).job.NoJob?
    case _ => true
  }

  /** A run from `s` whose steps are all guarded. */
  predicate GuardedFrom(s: State, tr: Trace) {
    match tr
    case Start => true
    case Then(before, t) => GuardedFrom(s, before) && Enabled(From(s, before), t) && Guarded(From(s, before), t)
  }

  predicate GuardedTrace(tr: Trace) {
    GuardedFrom(EMPTY, tr)
  }

  /** Local metadata is never behind an uploaded generation, and the store holds the highest one. */
  predicate Safe(s: State) {
    && (s.local.Some? ==> s.uploaded <= s.local.value.generation)
    && (s.snapshot.Some? ==> s.snapshot.value.generation == s.uploaded)
    && (s.snapshot.None? ==> s.uploaded == 0)
    && 0 <= s.uploaded
  }

  /** What an allocation's persist has established, whoever has the directory by now. */
  predicate JobOk(s: State, job: Job) {
    && (job.Bumped? || job.Packed? ==> s.uploaded < job.generation)
    && (job.Packed? ==> job.data < s.clock)
    && (job.Stored? ==> s.uploaded == job.generation)
  }

  /** Only the directory's owner persists, and the directory carries the generation it bumped. */
  predicate AllocOk(s: State, a: Alloc) {
    a in s.allocs ==>
      && (s.owner == Some(a) ==> !s.allocs[a].stage.Retired? && !s.allocs[a].stage.Ended?)
      && (!s.allocs[a].job.NoJob? ==> s.owner == Some(a) && Holds(s.allocs[a].stage) && s.local.Some?
                                      && s.local.value.generation == s.allocs[a].job.generation)
      && JobOk(s, s.allocs[a].job)
      && (s.allocs[a].stage.Accepted? && s.owner == Some(a) ==>
            s.allocs[a].stage.present == s.local.Some? && s.allocs[a].stage.generation == Generation(s.local))
      && (s.allocs[a].stage.Staged? && s.owner == Some(a) && s.snapshot.Some? ==> s.local.Some?)
  }

  /** All data was written before now. */
  predicate DataOk(s: State) {
    && 0 < s.clock
    && (s.local.Some? ==> s.local.value.data < s.clock)
    && (s.snapshot.Some? ==> s.snapshot.value.data < s.clock)
  }

  ghost predicate Inv(s: State) {
    && Safe(s) && DataOk(s)
    && (s.owner.Some? ==> s.owner.value in s.allocs)
    && (forall a {:trigger AllocOk(s, a)} :: AllocOk(s, a))
  }

  lemma StepSafe(s: State, t: Step)
    requires Inv(s) && Enabled(s, t) && Guarded(s, t)
    ensures Safe(Apply(s, t)) && DataOk(Apply(s, t))
    ensures Apply(s, t).owner.Some? ==> Apply(s, t).owner.value in Apply(s, t).allocs
  {
    if Actor(s, t).Some? { assert AllocOk(s, Actor(s, t).value); }
  }

  lemma StepKeepsAlloc(s: State, t: Step, x: Alloc)
    requires Inv(s) && Enabled(s, t) && Guarded(s, t)
    ensures AllocOk(Apply(s, t), x)
  {
    assert AllocOk(s, x);
    if Actor(s, t).Some? { assert AllocOk(s, Actor(s, t).value); }
    if s.owner.Some? { assert AllocOk(s, s.owner.value); }
  }

  lemma StepKeeps(s: State, t: Step)
    requires Inv(s) && Enabled(s, t) && Guarded(s, t)
    ensures Inv(Apply(s, t))
  {
    hide Apply, Enabled, Guarded;
    StepSafe(s, t);
    forall x ensures AllocOk(Apply(s, t), x) { StepKeepsAlloc(s, t, x); }
  }

  lemma {:induction false} GuardedFromKeeps(s: State, tr: Trace)
    requires Inv(s) && GuardedFrom(s, tr)
    ensures Inv(From(s, tr))
  {
    hide Apply, Enabled, Guarded, Inv;
    match tr
    case Start =>
    case Then(before, t) =>
      GuardedFromKeeps(s, before);
      StepKeeps(From(s, before), t);
  }

  lemma GuardedInv(tr: Trace)
    requires GuardedTrace(tr)
    ensures Inv(End(tr))
  {
    GuardedFromKeeps(EMPTY, tr);
  }

  /** In every guarded run, whatever crashes and fails, local metadata covers every uploaded generation. */
  lemma LocalCoversUploads(tr: Trace)
    requires GuardedTrace(tr) && End(tr).local.Some?
    ensures End(tr).uploaded <= End(tr).local.value.generation
  {
    GuardedInv(tr);
  }

  /** Stage-in therefore keeps a local copy whenever there is one, and otherwise restores the latest upload. */
  lemma StageInLosesNothing(tr: Trace, a: Alloc)
    requires GuardedTrace(tr) && Enabled(End(tr), StageIn(a))
    ensures var s := End(tr); var s' := Apply(s, StageIn(a));
            && (s.local.Some? ==> s'.local == s.local)
            && (s.local.None? && s.snapshot.Some? ==>
                  s'.local == Some(Local(s.uploaded, s.snapshot.value.data)))
            && (s.local.None? && s.snapshot.None? ==> s'.local.None? && s.uploaded == 0)
  {
    hide Valid;
    GuardedInv(tr);
    assert AllocOk(End(tr), a);
  }

  /** The store's test for a newer snapshot never turns the carrier's own persist away. */
  lemma StoreNeverRefuses(tr: Trace, a: Alloc)
    requires GuardedTrace(tr) && Record(End(tr), a).job.Bumped?
    ensures Enabled(End(tr), Pack(a))
  {
    GuardedInv(tr);
    assert AllocOk(End(tr), a);
  }

  /** Between two persists the copies agree: data is replaced only by its own writer or on request. */
  lemma LocalDataNeverRegresses(tr: Trace, t: Step)
    requires GuardedTrace(Then(tr, t)) && End(tr).local.Some? && !t.Retire? && !t.DropLuggage?
    ensures Apply(End(tr), t).local.Some?
    ensures !t.Write? ==> Apply(End(tr), t).local.value.data == End(tr).local.value.data
    ensures !t.CommitMeta? ==> Apply(End(tr), t).local.value.generation >= End(tr).local.value.generation
    ensures t.CommitMeta? ==> Apply(End(tr), t).local.value.generation == End(tr).local.value.generation
  {
    GuardedInv(tr);
    if Actor(End(tr), t).Some? { assert AllocOk(End(tr), Actor(End(tr), t).value); }
  }
}
