/**
What the history of a guarded run says about its copies: which data and which generation the directory
and the store hold, and who has the directory. Writes are numbered; the number of a copy's data is that of
the last write in it.
*/
module PersistenceOutcomes {
  import opened Common
  import opened Persistence

  function Writes(tr: Trace): nat {
    if tr.Start? then 0 else Writes(tr.before) + if tr.t.Write? then 1 else 0
  }

  /** The directory's data: written last, restored by a stage-in into nothing, or fresh; gone with the directory. */
  function DataOf(tr: Trace): Option<int> {
    match tr
    case Start => None
    case Then(before, t) =>
      if t.Write? then Some(Writes(tr))
      else if t.StageIn? && DataOf(before).None? then UploadedData(before)
      else if t.Prepare? && DataOf(before).None? then Some(0)
      else if t.Retire? || t.DropLuggage? then None
      else DataOf(before)
  }

  /** The data that an allocation's persist packed last. */
  function PackedBy(tr: Trace, a: Alloc): Option<int>
    decreases tr, 1
  {
    match tr
    case Start => None
    case Then(before, t) => if t == Pack(a) then DataOf(before) else PackedBy(before, a)
  }

  /** The data in the store: what the last upload had packed, until a purge. */
  function UploadedData(tr: Trace): Option<int> {
    match tr
    case Start => None
    case Then(before, t) =>
      if t.Upload? then PackedBy(before, t.a) else if t.PurgeSnapshot? then None else UploadedData(before)
  }

  /** The directory's generation: one more with each persist, and the store's after a stage-in into nothing. */
  function GenerationOf(tr: Trace): int {
    match tr
    case Start => 0
    case Then(before, t) =>
      if t.Bump? then GenerationOf(before) + 1
      else if t.StageIn? && DataOf(before).None? then UploadedGeneration(before)
      else if t.Retire? || t.DropLuggage? then 0
      else GenerationOf(before)
  }

  function BumpedBy(tr: Trace, a: Alloc): int
    decreases tr, 1
  {
    match tr
    case Start => 0
    case Then(before, t) => if t == Bump(a) then GenerationOf(before) + 1 else BumpedBy(before, a)
  }

  function UploadedGeneration(tr: Trace): int {
    match tr
    case Start => 0
    case Then(before, t) =>
      if t.Upload? then BumpedBy(before, t.a) else if t.PurgeSnapshot? then 0 else UploadedGeneration(before)
  }

  /** Who has the directory: from its acceptance until it aborts, retires or the daemon crashes. */
  function OwnerOf(tr: Trace): Option<Alloc> {
    match tr
    case Start => None
    case Then(before, t) =>
      if t.Accept? then Some(t.a) else if t.Abort? || t.Retire? || t.Crash? then None else OwnerOf(before)
  }

  predicate CopiesOk(tr: Trace) {
    var s := End(tr);
    && s.clock == Writes(tr) + 1 && s.owner == OwnerOf(tr)
    && (s.local == if DataOf(tr).None? then None else Some(Local(GenerationOf(tr), DataOf(tr).value)))
    && (DataOf(tr).None? ==> GenerationOf(tr) == 0)
    && (s.snapshot == if UploadedData(tr).None? then None
                      else Some(Snapshot(UploadedGeneration(tr), UploadedData(tr).value)))
    && (UploadedData(tr).None? ==> UploadedGeneration(tr) == 0)
  }

  predicate JobFollows(tr: Trace, a: Alloc) {
    var job := Record(End(tr), a).job;
    && (job.Packed? ==> PackedBy(tr, a) == Some(job.data))
    && (!job.NoJob? ==> BumpedBy(tr, a) == job.generation)
  }

  lemma JobAfter(tr: Trace, a: Alloc)
    requires tr.Then? && CopiesOk(tr.before) && JobFollows(tr.before, a)
    requires Enabled(End(tr.before), tr.t)
    ensures JobFollows(tr, a)
  {
  }

  lemma CopiesAfter(tr: Trace)
    requires tr.Then? && CopiesOk(tr.before)
    requires Inv(End(tr.before)) && Enabled(End(tr.before), tr.t) && Guarded(End(tr.before), tr.t)
    requires Actor(End(tr.before), tr.t).Some? ==> JobFollows(tr.before, tr.t.a)
    ensures CopiesOk(tr)
  {
    var s := End(tr.before);
    if Actor(s, tr.t).Some? { assert AllocOk(s, tr.t.a); }
  }

  lemma {:induction false} JobsFollowHistory(tr: Trace, a: Alloc)
    requires GuardedTrace(tr)
    ensures CopiesOk(tr) && JobFollows(tr, a)
  {
    hide Apply, Enabled, Guarded, Inv, CopiesOk, JobFollows;
    match tr
    case Start =>
      assert CopiesOk(tr) && JobFollows(tr, a) by { StartsEmpty(tr, a); }
    case Then(before, t) =>
      JobsFollowHistory(before, a);
      GuardedInv(before);
      if Actor(End(before), t).Some? { JobsFollowHistory(before, t.a); }
      CopiesAfter(tr);
      JobAfter(tr, a);
  }

  lemma StartsEmpty(tr: Trace, a: Alloc)
    requires tr.Start?
    ensures CopiesOk(tr) && JobFollows(tr, a)
  {
  }

  /**
  In every guarded run, through crashes and failed uploads, the directory and the store hold the data and the
  generation that the history gives them, and the directory belongs to whom the history says.
  */
  lemma CopiesFollowHistory(tr: Trace)
    requires GuardedTrace(tr)
    ensures CopiesOk(tr)
  {
    JobsFollowHistory(tr, 0);
  }

  // ---------------------------------------------------------------- what can always be done

  lemma Follow(tr: Trace, t: Step) returns (tr': Trace)
    requires GuardedTrace(tr) && Enabled(End(tr), t) && Guarded(End(tr), t)
    ensures GuardedTrace(tr') && End(tr') == Apply(End(tr), t)
  {
    tr' := Then(tr, t);
  }

  /** The owner's record, and that a Bed which is ready has its directory. */
  predicate OwnerLives(s: State) {
    s.owner.Some? ==>
      && s.owner.value in s.allocs && AllocOk(s, s.owner.value)
      && (Holds(s.allocs[s.owner.value].stage) ==> s.local.Some?)
  }

  lemma {:induction false} ReadyHasDirectory(tr: Trace)
    requires GuardedTrace(tr)
    ensures OwnerLives(End(tr))
  {
    match tr
    case Start =>
    case Then(before, t) =>
      ReadyHasDirectory(before);
      GuardedInv(tr);
      if End(tr).owner.Some? { assert AllocOk(End(tr), End(tr).owner.value); }
  }

  /** From every state of a guarded run the owner's persist can end; the directory stays as it is. */
  lemma PersistCanEnd(tr: Trace, a: Alloc) returns (tr': Trace)
    requires GuardedTrace(tr) && OwnerOf(tr) == Some(a)
    ensures GuardedTrace(tr') && End(tr').owner == Some(a) && Record(End(tr'), a).job.NoJob?
    ensures Record(End(tr'), a).stage == Record(End(tr), a).stage && End(tr').local == End(tr).local
  {
    hide GuardedTrace, End;
    ReadyHasDirectory(tr);
    CopiesFollowHistory(tr);
    tr' := tr;
    var job := Record(End(tr), a).job;
    if job.Stored? {
      tr' := Follow(tr', CommitMeta(a, true));
    } else if !job.NoJob? {
      tr' := Follow(tr', UploadFail(a));
    }
  }

  /** And whoever has the directory can give it up, without a crash. */
  lemma OwnersCanLeave(tr: Trace, a: Alloc) returns (tr': Trace)
    requires GuardedTrace(tr) && OwnerOf(tr) == Some(a)
    ensures GuardedTrace(tr') && OwnerOf(tr') == None
  {
    hide GuardedTrace, End;
    ReadyHasDirectory(tr);
    CopiesFollowHistory(tr);
    if Holds(Record(End(tr), a).stage) {
      tr' := PersistCanEnd(tr, a);
      tr' := Follow(tr', Retire(a));
    } else {
      tr' := Follow(tr, Abort(a));
    }
    CopiesFollowHistory(tr');
  }

  /** A free directory can be taken by a new Bed, which finds it as it was left, or as it was last uploaded. */
  lemma NextBedRestores(tr: Trace, c: Alloc) returns (tr': Trace)
    requires GuardedTrace(tr) && OwnerOf(tr) == None && c !in End(tr).allocs
    ensures GuardedTrace(tr') && OwnerOf(tr') == Some(c) && Record(End(tr'), c) == Allocation(Ready, NoJob)
    ensures DataOf(tr') == if DataOf(tr).Some? then DataOf(tr)
                           else if UploadedData(tr).Some? then UploadedData(tr) else Some(0)
    ensures UploadedData(tr') == UploadedData(tr)
  {
    hide GuardedTrace, End;
    CopiesFollowHistory(tr);
    tr' := Follow(tr, Accept(c));
    StageInLosesNothing(tr', c);
    tr' := Follow(tr', StageIn(c));
    tr' := Follow(tr', Prepare(c));
    CopiesFollowHistory(tr');
  }

  /** A ready Bed can persist what it has and retire, which leaves that in the store. */
  lemma BedsCanPersist(tr: Trace, a: Alloc) returns (tr': Trace)
    requires GuardedTrace(tr) && OwnerOf(tr) == Some(a) && Record(End(tr), a).stage.Ready?
    ensures GuardedTrace(tr') && OwnerOf(tr') == None && DataOf(tr') == None
    ensures DataOf(tr).Some? && UploadedData(tr') == DataOf(tr)
  {
    hide GuardedTrace, End;
    ReadyHasDirectory(tr);
    CopiesFollowHistory(tr);
    tr' := PersistCanEnd(tr, a);
    CopiesFollowHistory(tr');
    tr' := Follow(tr', Bump(a));
    StoreNeverRefuses(tr', a);
    tr' := Follow(tr', Pack(a));
    tr' := Follow(tr', Upload(a, true));
    tr' := Follow(tr', CommitMeta(a, true));
    tr' := Follow(tr', Retire(a));
    CopiesFollowHistory(tr');
  }

  /** What a ready Bed has in any guarded run can be evicted and comes back with the next Bed of the name. */
  lemma EvictedDataComesBack(tr: Trace, a: Alloc) returns (tr': Trace, c: Alloc)
    requires GuardedTrace(tr) && OwnerOf(tr) == Some(a) && Record(End(tr), a).stage.Ready?
    ensures GuardedTrace(tr') && OwnerOf(tr') == Some(c) && DataOf(tr').Some? && DataOf(tr') == DataOf(tr)
  {
    hide GuardedTrace, End;
    tr' := BedsCanPersist(tr, a);
    c := FreshInt(End(tr').allocs.Keys);
    tr' := NextBedRestores(tr', c);
  }

  /** A ready Bed can be purged: its persist ends, the snapshot goes, then the directory. */
  lemma BedsCanBePurged(tr: Trace, a: Alloc) returns (tr': Trace)
    requires GuardedTrace(tr) && OwnerOf(tr) == Some(a) && Record(End(tr), a).stage.Ready?
    ensures GuardedTrace(tr') && OwnerOf(tr') == None && DataOf(tr') == None && UploadedData(tr') == None
  {
    hide GuardedTrace, End;
    CopiesFollowHistory(tr);
    tr' := PersistCanEnd(tr, a);
    tr' := Follow(tr', PurgeClaim(a));
    tr' := Follow(tr', PurgeSnapshot);
    tr' := Follow(tr', Retire(a));
    CopiesFollowHistory(tr');
  }
}
