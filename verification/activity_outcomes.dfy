/**
What a run's history says of a Bed: every field of its record, and with them every admission, read off the
sections that ran on it. None of these definitions goes through the machine's step functions.
*/
module ActivityOutcomes {
  import opened Common
  import opened Activity
  import opened ActivitySafety

  // ---------------------------------------------------------------- the history of one allocation

  /** The section that the last step of the run was, if it was one on this allocation. */
  function Section(tr: Trace, a: Alloc): Option<BedStep> {
    if tr.Then? && tr.t.On? && tr.t.a == a then Some(tr.t.step) else None
  }

  predicate Appears(tr: Trace, a: Alloc) {
    tr.Then? && tr.t.Publish? && tr.t.a == a
  }

  /** The operations begun and not yet finished. */
  function Outstanding(tr: Trace, a: Alloc): multiset<Kind> {
    if tr.Start? || Appears(tr, a) then multiset{}
    else match Section(tr, a)
      case Some(Begin(kind, _, _, _, _)) => Outstanding(tr.before, a) + multiset{kind}
      case Some(Finish(kind, _)) => Outstanding(tr.before, a) - multiset{kind}
      case _ => Outstanding(tr.before, a)
  }

  /** When the last step was activity on the Bed: anything but the end of a checkpoint. */
  function ActiveAt(tr: Trace, a: Alloc): Option<Time> {
    match Section(tr, a)
    case Some(Begin(_, now, _, _, _)) => Some(now)
    case Some(Touch(now)) => Some(now)
    case Some(Open(now, _, _)) => Some(now)
    case Some(Finish(kind, now)) => if kind.Checkpoint? then None else Some(now)
    case _ => None
  }

  function LastActivity(tr: Trace, a: Alloc): Time {
    if tr.Start? then 0
    else if Appears(tr, a) then tr.t.bed.lastActive
    else if ActiveAt(tr, a).Some? then ActiveAt(tr, a).value
    else LastActivity(tr.before, a)
  }

  /** The last activity that the persist under way has seen. */
  function Watermark(tr: Trace, a: Alloc): Time {
    if tr.Start? then 0
    else if Section(tr, a) == Some(PersistCapture) then LastActivity(tr.before, a)
    else Watermark(tr.before, a)
  }

  /** The last activity that a finished persist has saved. */
  function Saved(tr: Trace, a: Alloc): Time {
    if tr.Start? then 0
    else if Appears(tr, a) then tr.t.bed.persisted
    else if Section(tr, a) == Some(PersistCommit) then Watermark(tr.before, a)
    else Saved(tr.before, a)
  }

  /** For whom a persist is under way. */
  function Persisting(tr: Trace, a: Alloc): Option<Persister> {
    if tr.Start? || Appears(tr, a) then None
    else match Section(tr, a)
      case Some(PersistEnter(who)) => Some(who)
      case Some(PersistFail) => None
      case Some(PersistCommit) => None
      case _ => Persisting(tr.before, a)
  }

  /** An eviction has fenced the Bed and has neither given up nor committed. */
  predicate Evicted(tr: Trace, a: Alloc) {
    tr.Then? && !Appears(tr, a) && tr.t != EvictCommit(a) &&
    match Section(tr, a)
    case Some(Fence(_)) => true
    case Some(GiveUp) => false
    case _ => Evicted(tr.before, a)
  }

  /** Its own persist has succeeded since. */
  predicate SavedByEviction(tr: Trace, a: Alloc) {
    tr.Then? &&
    match Section(tr, a)
    case Some(Fence(_)) => false
    case Some(PersistCommit) => Persisting(tr.before, a) == Some(ForEviction) || SavedByEviction(tr.before, a)
    case _ => SavedByEviction(tr.before, a)
  }

  /** Nothing has been active on the Bed since its last fence. */
  predicate QuietSinceFence(tr: Trace, a: Alloc) {
    tr.Then? && if Section(tr, a).Some? && Section(tr, a).value.Fence? then true
                else ActiveAt(tr, a).None? && QuietSinceFence(tr.before, a)
  }

  /** An eviction has given up on an open daemon that still had the Bed, and has not reopened it yet. */
  predicate Reopening(tr: Trace, a: Alloc) {
    tr.Then? && !Appears(tr, a) &&
    match Section(tr, a)
    case Some(GiveUp) => a in tr.before.s.allocs && Here(tr.before.s, a) && !tr.before.s.closed
    case Some(Resume) => false
    case _ => Reopening(tr.before, a)
  }

  /** The phase was changed from outside after the Bed was last published or reopened. */
  predicate Disturbed(tr: Trace, a: Alloc) {
    tr.Then? && !Appears(tr, a) &&
    match Section(tr, a)
    case Some(PhaseChange(_)) => true
    case Some(Resume) => false
    case _ => Disturbed(tr.before, a)
  }

  predicate Claimed(tr: Trace, a: Alloc) {
    tr.Then? && !Appears(tr, a) && (Claimed(tr.before, a) || (tr.t.PurgeClaim? && Maps(tr.before.s.beds, tr.t.n, a)))
  }

  predicate Maps(m: map<Name, Alloc>, n: Name, a: Alloc) {
    n in m && m[n] == a
  }

  /** The Bed was published, no eviction of it committed and no purge claimed it. */
  predicate StillResident(tr: Trace, a: Alloc) {
    tr.Then? && (Appears(tr, a) || (StillResident(tr.before, a) && tr.t != EvictCommit(a)
                                    && !(tr.t.PurgeClaim? && Maps(tr.before.s.beds, tr.t.n, a))))
  }

  // ---------------------------------------------------------------- the record is the history

  predicate WorkOk(tr: Trace, a: Alloc, b: Bed) {
    b.holds == Outstanding(tr, a) && b.lastActive == LastActivity(tr, a)
  }

  predicate SaveOk(tr: Trace, a: Alloc, b: Bed) {
    && b.persisted == Saved(tr, a)
    && (b.persist.NoPersist? <==> Persisting(tr, a).None?)
    && (!b.persist.NoPersist? ==> Persisting(tr, a) == Some(b.persist.who))
    && (b.persist.Captured? ==> b.persist.watermark == Watermark(tr, a))
  }

  /** Eviction and phase. */
  predicate FenceOk(tr: Trace, a: Alloc, b: Bed) {
    && (b.eviction.Fenced? || b.eviction.Synced? <==> Evicted(tr, a))
    && (Evicted(tr, a) ==> (b.eviction.Synced? <==> SavedByEviction(tr, a)))
    && (Evicted(tr, a) ==> (b.sequence == b.eviction.sequence <==> QuietSinceFence(tr, a)))
    && (b.eviction.Resuming? <==> Reopening(tr, a))
    && (b.purging <==> Claimed(tr, a))
    && (Disturbed(tr, a) ==> b.phase != Resident)
    && (b.phase == Resident ==> b.eviction.NoEviction?)
  }

  /** Where the Bed is, and that nothing but an eviction or a disturbance closes it while it is there. */
  predicate PlaceOk(tr: Trace, a: Alloc, b: Bed) {
    && (Maps(tr.s.beds, b.name, a) <==> StillResident(tr, a))
    && (StillResident(tr, a) && !tr.s.closed && b.eviction.NoEviction? && !Disturbed(tr, a) ==> b.phase == Resident)
    && (StillResident(tr, a) ==> !Claimed(tr, a))
  }

  predicate RecordOk(tr: Trace, a: Alloc) {
    a in tr.s.allocs ==>
      && WorkOk(tr, a, tr.s.allocs[a]) && SaveOk(tr, a, tr.s.allocs[a])
      && FenceOk(tr, a, tr.s.allocs[a]) && PlaceOk(tr, a, tr.s.allocs[a])
  }

  /** The last step was the section `step` on the Bed's record `b`, which it left as `b'`. */
  ghost predicate Ran(tr: Trace, a: Alloc, step: BedStep, b: Bed, b': Bed) {
    && Section(tr, a) == Some(step) && a in tr.before.s.allocs && b == tr.before.s.allocs[a]
    && BedEnabled(b, Here(tr.before.s, a), tr.before.s.closed, step)
    && b' == ApplyBed(b, Here(tr.before.s, a), tr.before.s.closed, step)
    && tr.s.beds == tr.before.s.beds && tr.s.closed == tr.before.s.closed
  }

  lemma SectionKeepsWork(tr: Trace, a: Alloc, step: BedStep, b: Bed, b': Bed)
    requires Ran(tr, a, step, b, b') && WorkOk(tr.before, a, b)
    ensures WorkOk(tr, a, b')
  {
  }

  lemma SectionKeepsSaves(tr: Trace, a: Alloc, step: BedStep, b: Bed, b': Bed)
    requires Ran(tr, a, step, b, b') && SaveOk(tr.before, a, b) && WorkOk(tr.before, a, b)
    ensures SaveOk(tr, a, b')
  {
    hide LastActivity, NextEviction, NextPhase, DropKind, Base;
  }

  lemma SectionKeepsFence(tr: Trace, a: Alloc, step: BedStep, b: Bed, b': Bed)
    requires Ran(tr, a, step, b, b') && FenceOk(tr.before, a, b) && SaveOk(tr.before, a, b) && BedOk(b)
    ensures FenceOk(tr, a, b')
  {
    hide LastActivity, Saved, Watermark, Outstanding, DropKind, Base, HoldsOk;
  }

  lemma SectionKeepsPlace(tr: Trace, a: Alloc, step: BedStep, b: Bed, b': Bed)
    requires Ran(tr, a, step, b, b') && PlaceOk(tr.before, a, b) && FenceOk(tr.before, a, b)
    ensures PlaceOk(tr, a, b')
  {
  }

  /** The step takes the Bed from the residents: its eviction commits or a purge claims it. */
  predicate Removes(s: State, t: Step, a: Alloc) {
    t == EvictCommit(a) || (t.PurgeClaim? && Maps(s.beds, t.n, a))
  }

  /** A step elsewhere leaves the record alone, but for the commit of its eviction and the claim of a purge. */
  lemma Elsewhere(s: State, t: Step, a: Alloc)
    requires Inv(s) && Enabled(s, t) && a in s.allocs && !(t.On? && t.a == a)
    ensures var b := s.allocs[a]; var s' := Apply(s, t);
            && a in s'.allocs && s'.allocs[a] == (if t == EvictCommit(a) then b.(eviction := NoEviction)
                                                  else if Removes(s, t, a) then b.(purging := true) else b)
            && (Maps(s'.beds, b.name, a) <==> Maps(s.beds, b.name, a) && !Removes(s, t, a))
            && s'.closed == (s.closed || t.CloseDaemon?)
    ensures t == EvictCommit(a) ==> s.allocs[a].eviction.Synced? && Maps(s.beds, s.allocs[a].name, a)
    ensures t.PurgeClaim? && Maps(s.beds, t.n, a) ==> s.allocs[a].name == t.n
  {
    hide ApplyBed, BedEnabled, Pinned;
    if t.PurgeClaim? { assert LinkOk(s, t.n); }
    assert AllocOk(s, a) && LinkOk(s, s.allocs[a].name);
    if t.EvictCommit? { assert AllocOk(s, t.a) && LinkOk(s, s.allocs[t.a].name); }
  }

  lemma OtherKeeps(tr: Trace, a: Alloc)
    requires Valid(tr) && tr.Then? && Section(tr, a).None? && a in tr.before.s.allocs && Inv(tr.before.s)
    requires RecordOk(tr.before, a)
    ensures RecordOk(tr, a)
  {
    hide Apply, Enabled, Inv;
    assert !(tr.t.Publish? && tr.t.a == a) by { assert Enabled(tr.before.s, tr.t); PublishIsNew(tr.before.s, tr.t); }
    Elsewhere(tr.before.s, tr.t, a);
  }

  lemma PublishIsNew(s: State, t: Step)
    requires Enabled(s, t)
    ensures t.Publish? ==> t.a !in s.allocs
  {
  }

  lemma PublishedIsOk(tr: Trace, a: Alloc)
    requires Valid(tr) && tr.Then? && a in tr.s.allocs && a !in tr.before.s.allocs
    ensures RecordOk(tr, a)
  {
    assert tr.t.Publish? && tr.t.a == a;
  }

  /** In every run each field of a Bed's record is what its history says. */
  lemma {:induction false} RecordFollowsHistory(tr: Trace, a: Alloc)
    requires Valid(tr)
    ensures RecordOk(tr, a)
  {
    hide Apply, Enabled, BedEnabled, ApplyBed, WorkOk, SaveOk, FenceOk, PlaceOk;
    match tr
    case Start(_) =>
    case Then(before, t, s) =>
      RecordFollowsHistory(before, a);
      ReachableInv(before);
      if Section(tr, a).Some? {
        var b, b' := OwnSection(tr, a);
        SectionKeepsWork(tr, a, t.step, b, b');
        SectionKeepsSaves(tr, a, t.step, b, b');
        SectionKeepsFence(tr, a, t.step, b, b');
        SectionKeepsPlace(tr, a, t.step, b, b');
      } else if a in before.s.allocs {
        OtherKeeps(tr, a);
      } else if a in s.allocs {
        PublishedIsOk(tr, a);
      }
  }

  lemma OwnSection(tr: Trace, a: Alloc) returns (b: Bed, b': Bed)
    requires Valid(tr) && Section(tr, a).Some? && Inv(tr.before.s)
    ensures Ran(tr, a, tr.t.step, b, b') && BedOk(b) && a in tr.s.allocs && tr.s.allocs[a] == b'
  {
    b, b' := tr.before.s.allocs[a], tr.s.allocs[a];
    assert AllocOk(tr.before.s, a);
  }

  // ---------------------------------------------------------------- what is admitted, from the history

  /** The Bed takes work: an open daemon has it, no eviction is under way or reopening it, nothing disturbed it. */
  predicate TakesWork(tr: Trace, a: Alloc) {
    StillResident(tr, a) && !tr.s.closed && !Evicted(tr, a) && !Reopening(tr, a) && !Disturbed(tr, a)
  }

  /** New work would wake the Bed: nothing is outstanding and everything is saved. */
  predicate Asleep(tr: Trace, a: Alloc) {
    && a in tr.s.allocs && Outstanding(tr, a) == multiset{}
    && (tr.s.allocs[a].noop || LastActivity(tr, a) <= Saved(tr, a))
  }

  lemma RecordFacts(tr: Trace, a: Alloc)
    requires Valid(tr) && a in tr.s.allocs
    ensures var b := tr.s.allocs[a];
            && (Here(tr.s, a) <==> StillResident(tr, a))
            && (StillResident(tr, a) && !tr.s.closed ==> (b.phase == Resident <==> TakesWork(tr, a)))
            && (StillResident(tr, a) ==> !b.purging)
            && (b.eviction.NoEviction? <==> !Evicted(tr, a) && !Reopening(tr, a))
            && (Pinned(b) <==> !Asleep(tr, a))
            && (b.inflight == |Outstanding(tr, a)|)
  {
    hide Apply, Enabled;
    RecordFollowsHistory(tr, a);
    ReachableInv(tr);
    assert AllocOk(tr.s, a);
  }

  /** Exactly when an operation begins. */
  lemma OperationsBeginExactly(tr: Trace, a: Alloc, kind: Kind, now: Time, timeout: int, ready: bool, admitted: bool)
    requires Valid(tr) && a in tr.s.allocs
    ensures Enabled(tr.s, On(a, Begin(kind, now, timeout, ready, admitted))) <==>
            && TakesWork(tr, a)
            && (!tr.s.allocs[a].mains || ready || kind.Control?)
            && (!Asleep(tr, a) || admitted)
  {
    hide Apply, Asleep, Pinned;
    RecordFacts(tr, a);
  }

  /** Exactly when a session opens: without main processes, also under an eviction. */
  lemma SessionsOpenExactly(tr: Trace, a: Alloc, now: Time, ready: bool, admitted: bool)
    requires Valid(tr) && a in tr.s.allocs
    ensures Enabled(tr.s, On(a, Open(now, ready, admitted))) <==>
            && StillResident(tr, a) && !tr.s.closed
            && (!tr.s.allocs[a].mains || (TakesWork(tr, a) && ready))
            && (!Asleep(tr, a) || admitted)
  {
    hide Apply, Asleep, Pinned;
    RecordFacts(tr, a);
  }

  /** Exactly when a renewal is taken. */
  lemma RenewalsAreTakenExactly(tr: Trace, a: Alloc, now: Time, expires: Option<Time>)
    requires Valid(tr) && a in tr.s.allocs
    ensures Enabled(tr.s, On(a, Renew(now, expires))) <==>
            TakesWork(tr, a) && (expires.None? || now < expires.value < YEAR_10000)
  {
    hide Apply;
    RecordFacts(tr, a);
  }

  /** Exactly when an explicit eviction starts: the Bed takes work and has none. */
  lemma EvictionsStartExactly(tr: Trace, a: Alloc)
    requires Valid(tr) && a in tr.s.allocs
    ensures Enabled(tr.s, On(a, Fence(None))) <==> TakesWork(tr, a) && Outstanding(tr, a) == multiset{}
  {
    hide Apply;
    RecordFacts(tr, a);
  }

  /** Exactly when an eviction commits: its persist succeeded and nothing has been active since its fence. */
  lemma EvictionsCommitExactly(tr: Trace, a: Alloc)
    requires Valid(tr) && a in tr.s.allocs
    ensures Enabled(tr.s, EvictCommit(a)) <==>
            && StillResident(tr, a) && !tr.s.closed && Evicted(tr, a) && SavedByEviction(tr, a)
            && QuietSinceFence(tr, a) && Outstanding(tr, a) == multiset{}
  {
    hide Apply;
    RecordFacts(tr, a);
    RecordFollowsHistory(tr, a);
  }

  // ---------------------------------------------------------------- an eviction that gives up

  /** Once an eviction has reopened the Bed, it takes operations, renewals and evictions again. */
  lemma ResumeReopens(tr: Trace, a: Alloc)
    requires Valid(tr) && Section(tr, a) == Some(Resume) && StillResident(tr, a) && !tr.s.closed
    ensures TakesWork(tr, a)
    ensures forall kind, now, timeout :: Enabled(tr.s, On(a, Begin(kind, now, timeout, true, true)))
    ensures forall now :: Enabled(tr.s, On(a, Renew(now, None)))
  {
    hide Apply, Enabled;
    ResumeEnds(tr, a);
    forall kind, now, timeout ensures Enabled(tr.s, On(a, Begin(kind, now, timeout, true, true))) {
      OperationsBeginExactly(tr, a, kind, now, timeout, true, true);
    }
    forall now ensures Enabled(tr.s, On(a, Renew(now, None))) { RenewalsAreTakenExactly(tr, a, now, None); }
  }

  lemma ResumeEnds(tr: Trace, a: Alloc)
    requires Valid(tr) && Section(tr, a) == Some(Resume)
    ensures a in tr.s.allocs && !Evicted(tr, a) && !Reopening(tr, a) && !Disturbed(tr, a)
  {
    hide ApplyBed;
    RecordFollowsHistory(tr.before, a);
    assert a in tr.before.s.allocs;
  }

  lemma Follow(tr: Trace, t: Step) returns (tr': Trace)
    requires Valid(tr) && Enabled(tr.s, t)
    ensures Valid(tr') && tr' == Then(tr, t, Apply(tr.s, t))
  {
    tr' := Then(tr, t, Apply(tr.s, t));
  }

  /** On an open daemon an eviction can always give up, whatever its persist does, and the Bed takes work again. */
  lemma EvictionsCanGiveUp(tr: Trace, a: Alloc) returns (tr': Trace)
    requires Valid(tr) && a in tr.s.allocs && StillResident(tr, a) && !tr.s.closed && Evicted(tr, a)
    ensures Valid(tr') && TakesWork(tr', a) && Outstanding(tr', a) == Outstanding(tr, a)
    ensures LastActivity(tr', a) == LastActivity(tr, a) && Saved(tr', a) == Saved(tr, a)
  {
    hide Apply, Enabled;
    tr' := PersistIsDropped(tr, a);
    tr' := GiveUpAndResume(tr', a);
  }

  lemma PersistIsDropped(tr: Trace, a: Alloc) returns (tr': Trace)
    requires Valid(tr) && a in tr.s.allocs && StillResident(tr, a) && !tr.s.closed && Evicted(tr, a)
    ensures Valid(tr') && a in tr'.s.allocs && StillResident(tr', a) && !tr'.s.closed && Evicted(tr', a)
    ensures Persisting(tr', a).None? && Outstanding(tr', a) == Outstanding(tr, a)
    ensures LastActivity(tr', a) == LastActivity(tr, a) && Saved(tr', a) == Saved(tr, a)
    ensures QuietSinceFence(tr', a) == QuietSinceFence(tr, a) && SavedByEviction(tr', a) == SavedByEviction(tr, a)
  {
    RecordFollowsHistory(tr, a);
    tr' := tr;
    if Persisting(tr, a).Some? { tr' := Follow(tr, On(a, PersistFail)); }
  }

  lemma GiveUpAndResume(tr: Trace, a: Alloc) returns (tr': Trace)
    requires Valid(tr) && a in tr.s.allocs && StillResident(tr, a) && !tr.s.closed && Evicted(tr, a)
    requires Persisting(tr, a).None?
    ensures Valid(tr') && TakesWork(tr', a) && Outstanding(tr', a) == Outstanding(tr, a)
    ensures LastActivity(tr', a) == LastActivity(tr, a) && Saved(tr', a) == Saved(tr, a)
  {
    hide ApplyBed, BedEnabled;
    var gone := GiveUpFirst(tr, a);
    RecordFollowsHistory(gone, a);
    assert BedEnabled(gone.s.allocs[a], Here(gone.s, a), gone.s.closed, Resume) by { ResumeNeeds(gone.s, a); }
    tr' := Follow(gone, On(a, Resume));
  }

  lemma ResumeNeeds(s: State, a: Alloc)
    requires a in s.allocs && s.allocs[a].eviction.Resuming?
    ensures BedEnabled(s.allocs[a], Here(s, a), s.closed, Resume)
  {
  }

  lemma GiveUpFirst(tr: Trace, a: Alloc) returns (tr': Trace)
    requires Valid(tr) && a in tr.s.allocs && StillResident(tr, a) && !tr.s.closed && Evicted(tr, a)
    requires Persisting(tr, a).None?
    ensures Valid(tr') && a in tr'.s.allocs && StillResident(tr', a) && !tr'.s.closed && Reopening(tr', a)
    ensures Outstanding(tr', a) == Outstanding(tr, a)
    ensures LastActivity(tr', a) == LastActivity(tr, a) && Saved(tr', a) == Saved(tr, a)
  {
    RecordFollowsHistory(tr, a);
    tr' := Follow(tr, On(a, GiveUp));
  }

  // ---------------------------------------------------------------- an eviction that commits

  /** Exactly when an operation finishes: it was begun and has not finished, wherever the Bed is by now. */
  lemma OperationsFinishExactly(tr: Trace, a: Alloc, kind: Kind, now: Time)
    requires Valid(tr) && a in tr.s.allocs
    ensures Enabled(tr.s, On(a, Finish(kind, now))) <==> kind in Outstanding(tr, a)
  {
    hide Apply;
    RecordFollowsHistory(tr, a);
  }

  /** The eviction of a quiet Bed, before its persist. */
  predicate Evictable(tr: Trace, a: Alloc) {
    && a in tr.s.allocs && StillResident(tr, a) && !tr.s.closed && Evicted(tr, a) && QuietSinceFence(tr, a)
    && Outstanding(tr, a) == multiset{}
  }

  lemma IdleBedsCanBeFenced(tr: Trace, a: Alloc) returns (tr': Trace)
    requires Valid(tr) && a in tr.s.allocs && TakesWork(tr, a) && Outstanding(tr, a) == multiset{}
    ensures Valid(tr') && Evictable(tr', a) && !SavedByEviction(tr', a) && LastActivity(tr', a) == LastActivity(tr, a)
  {
    hide Apply, Enabled;
    EvictionsStartExactly(tr, a);
    tr' := Follow(tr, On(a, Fence(None)));
    assert a in tr'.s.allocs && !tr'.s.closed by { SectionLeaves(tr.s, a, Fence(None)); }
  }

  lemma SectionLeaves(s: State, a: Alloc, t: BedStep)
    requires a in s.allocs && Enabled(s, On(a, t))
    ensures a in Apply(s, On(a, t)).allocs && Apply(s, On(a, t)).closed == s.closed
  {
    hide ApplyBed;
  }

  lemma EvictionCanEnterPersist(tr: Trace, a: Alloc) returns (tr': Trace)
    requires Valid(tr) && Evictable(tr, a) && !SavedByEviction(tr, a) && Persisting(tr, a).None?
    ensures Valid(tr') && Evictable(tr', a) && LastActivity(tr', a) == LastActivity(tr, a)
    ensures tr'.s.allocs[a].persist == Entered(ForEviction) && tr'.s.allocs[a].eviction.Fenced?
  {
    RecordFollowsHistory(tr, a);
    tr' := Follow(tr, On(a, PersistEnter(ForEviction)));
  }

  lemma EvictionCanSave(tr: Trace, a: Alloc) returns (tr': Trace)
    requires Valid(tr) && Evictable(tr, a)
    requires tr.s.allocs[a].persist == Entered(ForEviction) && tr.s.allocs[a].eviction.Fenced?
    ensures Valid(tr') && Evictable(tr', a) && SavedByEviction(tr', a)
    ensures LastActivity(tr', a) == LastActivity(tr, a) == Saved(tr', a)
  {
    RecordFollowsHistory(tr, a);
    var captured := Follow(tr, On(a, PersistCapture));
    RecordFollowsHistory(captured, a);
    tr' := Follow(captured, On(a, PersistCommit));
  }

  /** On an open daemon an idle Bed can always be evicted, with its last activity saved. */
  lemma IdleBedsCanBeEvicted(tr: Trace, a: Alloc) returns (tr': Trace)
    requires Valid(tr) && a in tr.s.allocs && TakesWork(tr, a) && Outstanding(tr, a) == multiset{}
    ensures Valid(tr') && !StillResident(tr', a)
    ensures LastActivity(tr', a) == LastActivity(tr, a) == Saved(tr', a)
  {
    hide Apply, Enabled;
    tr' := IdleBedsCanBeFenced(tr, a);
    tr' := PersistIsDropped(tr', a);
    tr' := EvictionCanEnterPersist(tr', a);
    tr' := EvictionCanSave(tr', a);
    EvictionsCommitExactly(tr', a);
    tr' := Follow(tr', EvictCommit(a));
  }
}
