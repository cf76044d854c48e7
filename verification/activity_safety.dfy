/**
What every interleaving keeps: the counters are exact, an eviction never commits unsaved work, and
no idle collection breaks a retention promise.
*/
module ActivitySafety {
  import opened Common
  import opened Activity

  // ---------------------------------------------------------------- one Bed

  /** The outstanding operations, by kind and in total, are what the Bed's fields say. */
  predicate HoldsOk(b: Bed) {
    && b.inflight == |b.holds|
    && (forall k :: k in b.byKind <==> k in b.holds)
    && (forall k :: k in b.byKind ==> b.byKind[k] == b.holds[k])
  }

  /** Nothing has happened on the Bed since its eviction read the activity sequence. */
  predicate Quiet(b: Bed) {
    (b.eviction.Fenced? || b.eviction.Synced?) && b.sequence == b.eviction.sequence
  }

  /**
  The argument behind the eviction's commit: while the activity sequence is unchanged, the watermark
  that the eviction's persist captured, and after it any other persist, is the Bed's last activity.
  */
  predicate WatermarkOk(b: Bed) {
    && (b.eviction.Fenced? || b.eviction.Synced? ==> b.eviction.sequence <= b.sequence)
    && (!b.persist.NoPersist? && b.persist.who == ForEviction ==> b.eviction.Fenced?)
    && (Quiet(b) && b.persist.Captured? && (b.eviction.Synced? || b.persist.who == ForEviction) ==>
          b.persist.watermark == b.lastActive)
    && (Quiet(b) && b.eviction.Synced? ==> b.persisted == b.lastActive)
  }

  predicate BedOk(b: Bed) {
    && HoldsOk(b) && WatermarkOk(b) && b.keepalive > 0
    && (b.eviction.NoEviction? || b.phase != Resident) // the fence stays shut until the eviction ends
  }

  lemma HoldsAfter(b: Bed, here: bool, closed: bool, t: BedStep)
    requires HoldsOk(b) && BedEnabled(b, here, closed, t)
    ensures HoldsOk(ApplyBed(b, here, closed, t))
  {
    var b' := ApplyBed(b, here, closed, t);
    if t.Begin? || t.Finish? {
      forall k ensures k in b'.byKind <==> k in b'.holds
               ensures k in b'.byKind ==> b'.byKind[k] == b'.holds[k] {
        assert k in b.byKind <==> k in b.holds;
      }
    }
  }

  lemma WatermarkAfter(b: Bed, here: bool, closed: bool, t: BedStep)
    requires WatermarkOk(b) && BedEnabled(b, here, closed, t)
    ensures WatermarkOk(ApplyBed(b, here, closed, t))
  {
  }

  lemma BedAfter(b: Bed, here: bool, closed: bool, t: BedStep)
    requires BedOk(b) && BedEnabled(b, here, closed, t)
    ensures BedOk(ApplyBed(b, here, closed, t))
  {
    HoldsAfter(b, here, closed, t);
    WatermarkAfter(b, here, closed, t);
  }

  /** The unstated lemma of the eviction's commit: unchanged activity forces the Bed to be unpinned. */
  lemma QuietBedIsUnpinned(b: Bed)
    requires BedOk(b) && b.eviction.Synced? && b.inflight <= 0 && b.sequence == b.eviction.sequence
    ensures !Pinned(b)
  {
  }

  // ---------------------------------------------------------------- the counters

  predicate PinnedName(s: State, n: Name) {
    n in s.beds && s.beds[n] in s.allocs && Pinned(s.allocs[s.beds[n]])
  }

  function PinnedNames(s: State): set<Name> {
    set n | n in s.beds && PinnedName(s, n)
  }

  predicate LinkOk(s: State, n: Name) {
    n in s.beds ==> s.beds[n] in s.allocs && s.allocs[s.beds[n]].name == n
  }

  ghost predicate Linked(s: State) {
    forall n {:trigger LinkOk(s, n)} :: LinkOk(s, n)
  }

  predicate AllocOk(s: State, a: Alloc) {
    a in s.allocs ==> BedOk(s.allocs[a])
  }

  ghost predicate BedsOk(s: State) {
    forall a {:trigger AllocOk(s, a)} :: AllocOk(s, a)
  }

  /** `residentBeds` counts the resident Beds and `pinnedBeds` exactly the pinned ones among them. */
  predicate CountersExact(s: State) {
    s.residentBeds == |s.beds| && s.pinnedBeds == |PinnedNames(s)|
  }

  ghost predicate Inv(s: State) {
    Linked(s) && BedsOk(s) && CountersExact(s)
  }

  /** Replacing one Bed's record moves the pinned names by that Bed alone. */
  lemma ReplaceMoves(s: State, a: Alloc, b: Bed)
    requires Linked(s) && a in s.allocs && b.name == s.allocs[a].name
    ensures |PinnedNames(s.(allocs := s.allocs[a := b]))| ==
            |PinnedNames(s)| + if Here(s, a) then Delta(s.allocs[a], b) else 0
  {
    hide Pinned;
    var s' := s.(allocs := s.allocs[a := b]);
    var n, was, now := b.name, PinnedNames(s), PinnedNames(s');
    forall m | m != n || !Here(s, a) ensures PinnedName(s', m) == PinnedName(s, m) {
      assert LinkOk(s, m);
    }
    if Here(s, a) {
      assert PinnedName(s, n) == Pinned(s.allocs[a]) && PinnedName(s', n) == Pinned(b);
      assert n in was <==> Pinned(s.allocs[a]);
      if Pinned(b) { assert now == was + {n}; } else { assert now == was - {n}; }
    } else {
      assert now == was;
    }
  }

  /** Removing a resident name leaves the other pinned names. */
  lemma RemoveMoves(s: State, n: Name, b: Bed)
    requires Linked(s) && n in s.beds && s.beds[n] in s.allocs
    ensures PinnedNames(s.(beds := s.beds - {n}, allocs := s.allocs[s.beds[n] := b])) == PinnedNames(s) - {n}
    ensures |s.beds - {n}| == |s.beds| - 1
  {
    var s' := s.(beds := s.beds - {n}, allocs := s.allocs[s.beds[n] := b]);
    forall m | m != n ensures PinnedName(s', m) == PinnedName(s, m) {
      assert LinkOk(s, m) && LinkOk(s, n);
    }
    assert (s.beds - {n}).Keys == s.beds.Keys - {n};
  }

  /** Linked and sound records, after one record is replaced and at most that Bed's name removed. */
  lemma RecordsKeep(s: State, s': State, a: Alloc, b: Bed)
    requires Linked(s) && BedsOk(s) && a in s.allocs && b.name == s.allocs[a].name && BedOk(b)
    requires s'.allocs == s.allocs[a := b]
    requires forall n :: n in s'.beds ==> n in s.beds && s'.beds[n] == s.beds[n]
    ensures Linked(s') && BedsOk(s')
  {
    hide BedOk;
    forall n ensures LinkOk(s', n) { assert LinkOk(s, n); }
    forall x ensures AllocOk(s', x) { assert AllocOk(s, x); }
  }

  lemma OnKeeps(s: State, a: Alloc, t: BedStep)
    requires Inv(s) && a in s.allocs && BedEnabled(s.allocs[a], Here(s, a), s.closed, t)
    ensures Inv(ApplyOn(s, a, t))
  {
    var b' := ApplyBed(s.allocs[a], Here(s, a), s.closed, t);
    assert AllocOk(s, a);
    BedAfter(s.allocs[a], Here(s, a), s.closed, t);
    assert b'.name == s.allocs[a].name;
    RecordsKeep(s, ApplyOn(s, a, t), a, b');
    ReplaceMoves(s, a, b');
    SamePins(ApplyOn(s, a, t), s.(allocs := s.allocs[a := b']));
  }

  /** The counters themselves do not decide who is pinned. */
  lemma SamePins(s: State, s': State)
    requires s.beds == s'.beds && s.allocs == s'.allocs
    ensures PinnedNames(s) == PinnedNames(s')
  {
  }

  lemma PublishMoves(s: State, a: Alloc, bed: Bed)
    requires Linked(s) && a !in s.allocs && bed.name !in s.beds
    ensures PinnedNames(ApplyPublish(s, a, bed)) == if Pinned(bed) then PinnedNames(s) + {bed.name} else PinnedNames(s)
    ensures bed.name !in PinnedNames(s)
  {
    hide Pinned;
    var s' := ApplyPublish(s, a, bed);
    assert PinnedName(s', bed.name) == Pinned(bed);
    forall n | n != bed.name ensures PinnedName(s', n) == PinnedName(s, n) {
      assert LinkOk(s, n);
    }
  }

  lemma PublishCounts(s: State, a: Alloc, bed: Bed)
    requires Linked(s) && CountersExact(s) && a !in s.allocs && bed.name !in s.beds
    ensures CountersExact(ApplyPublish(s, a, bed))
  {
    hide Pinned, PinnedNames;
    PublishMoves(s, a, bed);
  }

  lemma PublishKeeps(s: State, a: Alloc, bed: Bed)
    requires Inv(s) && a !in s.allocs && bed.name !in s.beds && Published(bed)
    ensures Inv(ApplyPublish(s, a, bed))
  {
    var s' := ApplyPublish(s, a, bed);
    PublishCounts(s, a, bed);
    hide CountersExact;
    assert BedOk(bed);
    forall n ensures LinkOk(s', n) { assert LinkOk(s, n); }
    forall x ensures AllocOk(s', x) { assert AllocOk(s, x); }
  }

  lemma CommitKeeps(s: State, a: Alloc)
    requires Inv(s) && MayCommit(s, a)
    ensures Inv(ApplyCommit(s, a))
  {
    var n := s.allocs[a].name;
    var b := s.allocs[a].(eviction := NoEviction);
    var s' := ApplyCommit(s, a);
    assert AllocOk(s, a) && LinkOk(s, n);
    QuietBedIsUnpinned(s.allocs[a]);
    RecordsKeep(s, s', a, b);
    RemoveMoves(s, n, b);
    SamePins(s', s.(beds := s.beds - {n}, allocs := s.allocs[a := b]));
    assert n !in PinnedNames(s);
  }

  lemma ClaimKeeps(s: State, n: Name)
    requires Inv(s) && n in s.beds && s.beds[n] in s.allocs
    ensures Inv(ApplyClaim(s, n))
  {
    var a := s.beds[n];
    var b := s.allocs[a].(purging := true);
    var s' := ApplyClaim(s, n);
    assert AllocOk(s, a) && LinkOk(s, n);
    RecordsKeep(s, s', a, b);
    RemoveMoves(s, n, b);
    SamePins(s', s.(beds := s.beds - {n}, allocs := s.allocs[a := b]));
    assert Pinned(s.allocs[a]) <==> n in PinnedNames(s);
  }

  lemma CloseKeeps(s: State)
    requires Inv(s)
    ensures Inv(s.(closed := true))
  {
    var s' := s.(closed := true);
    SamePins(s, s');
    forall n ensures LinkOk(s', n) { assert LinkOk(s, n); }
    forall x ensures AllocOk(s', x) { assert AllocOk(s, x); }
  }

  lemma StepKeeps(s: State, t: Step)
    requires Inv(s) && Enabled(s, t)
    ensures Inv(Apply(s, t))
  {
    hide ApplyOn, ApplyPublish, ApplyCommit, ApplyClaim, BedEnabled, Inv;
    match t
    case Publish(a, bed) => PublishKeeps(s, a, bed);
    case On(a, step) => OnKeeps(s, a, step);
    case EvictCommit(a) => CommitKeeps(s, a);
    case PurgeClaim(n) => ClaimKeeps(s, n);
    case CloseDaemon => CloseKeeps(s);
  }

  lemma {:induction false} ReachableInv(tr: Trace)
    requires Valid(tr)
    ensures Inv(tr.s)
  {
    hide Apply, Enabled;
    match tr
    case Start(s) => assert PinnedNames(s) == {};
    case Then(before, t, s) =>
      ReachableInv(before);
      StepKeeps(before.s, t);
  }

  /** In every reachable state the two counters are exact. */
  lemma CountersStayExact(tr: Trace)
    requires Valid(tr)
    ensures tr.s.residentBeds == |tr.s.beds|
    ensures tr.s.pinnedBeds == |PinnedNames(tr.s)|
  {
    hide Apply, Enabled;
    ReachableInv(tr);
  }

  /** An eviction retires only work that has reached the store and only when nothing is in flight. */
  lemma CommitLosesNothing(tr: Trace, a: Alloc)
    requires Valid(tr) && MayCommit(tr.s, a)
    ensures tr.s.allocs[a].inflight == 0 && tr.s.allocs[a].holds == multiset{}
    ensures tr.s.allocs[a].persisted == tr.s.allocs[a].lastActive
  {
    hide Apply, Enabled;
    ReachableInv(tr);
    assert AllocOk(tr.s, a);
  }

  /** From its fence until it resumes or commits, an eviction refuses renewals, operations and other evictions. */
  lemma FenceRefuses(tr: Trace, a: Alloc, t: BedStep)
    requires Valid(tr) && a in tr.s.allocs && !tr.s.allocs[a].eviction.NoEviction?
    requires t.Renew? || t.Begin? || t.Fence?
    ensures !Enabled(tr.s, On(a, t))
  {
    hide Apply, ApplyBed;
    ReachableInv(tr);
    assert AllocOk(tr.s, a);
  }

  // ---------------------------------------------------------------- the retention promise

  /**
  What a step promises the caller of a Bed with idle expiration: the deadline asked for, one idle TTL from
  now, or one idle TTL past the operation's timeout.
  */
  function Promised(b: Bed, t: BedStep): set<Time> {
    match t
    case Begin(_, now, timeout, _, _) => if b.ttl > 0 then {now + Clamp(timeout) + b.ttl} else {}
    case Renew(now, expires) =>
      if b.ttl <= 0 then {} else if expires.Some? then {expires.value} else {now + b.ttl}
    case _ => {}
  }

  /** All the promises made to one allocation in a run. */
  function Promises(tr: Trace, a: Alloc): set<Time> {
    match tr
    case Start(_) => {}
    case Then(before, t, _) =>
      Promises(before, a) +
      if t.On? && t.a == a && a in before.s.allocs then Promised(before.s.allocs[a], t.step) else {}
  }

  /** From when a section counts the idle TTL, if it restarts it: activity, an operation's timeout, a renewal. */
  function CountsFrom(b: Bed, t: BedStep): Option<Time> {
    match t
    case Begin(_, now, timeout, _, _) => Some(now + Clamp(timeout))
    case Finish(_, now) => Some(now)
    case Touch(now) => Some(now)
    case Open(now, _, _) => Some(now)
    case Renew(now, None) => Some(now)
    case Renew(now, Some(expires)) => Some(if b.ttl > 0 then expires - b.ttl else now)
    case _ => None
  }

  /** The latest such instant for one allocation in a run, from its publication on. */
  function LatestBase(tr: Trace, a: Alloc): (latest: Time)
    ensures tr.Then? && !(tr.t.Publish? && tr.t.a == a) ==> latest >= LatestBase(tr.before, a)
  {
    match tr
    case Start(_) => 0
    case Then(before, t, _) =>
      if t.Publish? && t.a == a then t.bed.keepalive
      else if t.On? && t.a == a && a in before.s.allocs && CountsFrom(before.s.allocs[a], t.step).Some? then
        var base, earlier := CountsFrom(before.s.allocs[a], t.step).value, LatestBase(before, a);
        if base > earlier then base else earlier
      else LatestBase(before, a)
  }

  /** How one step moves an allocation's record: its own section, or nothing that concerns retention. */
  lemma StepOnBed(s: State, t: Step, a: Alloc)
    requires Enabled(s, t) && a in Apply(s, t).allocs
    ensures a in s.allocs && t.On? && t.a == a ==>
              && BedEnabled(s.allocs[a], Here(s, a), s.closed, t.step)
              && Apply(s, t).allocs[a] == ApplyBed(s.allocs[a], Here(s, a), s.closed, t.step)
    ensures a in s.allocs && !(t.On? && t.a == a) ==>
              && !(t.Publish? && t.a == a)
              && Apply(s, t).allocs[a].keepalive == s.allocs[a].keepalive
              && Apply(s, t).allocs[a].ttl == s.allocs[a].ttl
    ensures a !in s.allocs ==> t.Publish? && t.a == a && Apply(s, t).allocs[a] == t.bed && t.bed.keepalive > 0
  {
  }

  lemma BedsStay(s: State, t: Step, a: Alloc)
    requires Enabled(s, t) && a in s.allocs
    ensures a in Apply(s, t).allocs
  {
  }

  /** The retention clock is exactly the latest base of the whole history. */
  lemma {:induction false} KeepaliveIsLatestBase(tr: Trace, a: Alloc)
    requires Valid(tr) && a in tr.s.allocs
    ensures tr.s.allocs[a].keepalive == LatestBase(tr, a) > 0
  {
    hide Apply, Enabled, BedEnabled;
    match tr
    case Start(_) =>
    case Then(before, t, s) =>
      StepOnBed(before.s, t, a);
      if a in before.s.allocs { KeepaliveIsLatestBase(before, a); }
  }

  lemma PromiseIsRecorded(b: Bed, here: bool, closed: bool, t: BedStep, d: Time)
    requires b.keepalive > 0 && BedEnabled(b, here, closed, t) && d in Promised(b, t)
    ensures d <= RetainUntil(ApplyBed(b, here, closed, t))
  {
  }

  lemma RetentionAfter(b: Bed, here: bool, closed: bool, t: BedStep)
    requires b.keepalive > 0 && BedEnabled(b, here, closed, t)
    ensures RetainUntil(b) <= RetainUntil(ApplyBed(b, here, closed, t))
  {
  }

  /** The deadline never moves backwards, whatever the Bed's phase does. */
  lemma RetentionNeverRegresses(tr: Trace, a: Alloc, t: Step, s: State)
    requires Valid(Then(tr, t, s)) && a in tr.s.allocs
    ensures a in s.allocs && RetainUntil(tr.s.allocs[a]) <= RetainUntil(s.allocs[a])
  {
    hide Apply, Enabled, BedEnabled, ApplyBed;
    KeepaliveIsLatestBase(tr, a);
    BedsStay(tr.s, t, a);
    StepOnBed(tr.s, t, a);
    if t.On? && t.a == a {
      RetentionAfter(tr.s.allocs[a], Here(tr.s, a), tr.s.closed, t.step);
    }
  }

  /** Every promise made so far lies within the Bed's current deadline. */
  lemma {:induction false} PromisesAreRetained(tr: Trace, a: Alloc, d: Time)
    requires Valid(tr) && a in tr.s.allocs && d in Promises(tr, a)
    ensures d <= RetainUntil(tr.s.allocs[a])
  {
    hide Apply, Enabled, BedEnabled, ApplyBed, Promised;
    match tr
    case Then(before, t, s) =>
      if a in before.s.allocs {
        RetentionNeverRegresses(before, a, t, s);
        if d in Promises(before, a) {
          PromisesAreRetained(before, a, d);
        } else {
          StepOnBed(before.s, t, a);
          KeepaliveIsLatestBase(before, a);
          PromiseIsRecorded(before.s.allocs[a], Here(before.s, a), before.s.closed, t.step, d);
        }
      } else {
        NoPromisesBefore(before, a);
      }
  }

  lemma {:induction false} NoPromisesBefore(tr: Trace, a: Alloc)
    requires Valid(tr) && a !in tr.s.allocs
    ensures Promises(tr, a) == {}
  {
    hide Apply, Enabled, BedEnabled, ApplyBed, Promised;
    match tr
    case Start(_) =>
    case Then(before, t, s) =>
      if a in before.s.allocs { BedsStay(before.s, t, a); }
      NoPromisesBefore(before, a);
  }

  /** No idle collection whose cutoff lies before a promised deadline starts an eviction. */
  lemma CollectionKeepsPromises(tr: Trace, a: Alloc, cutoff: Time, d: Time)
    requires Valid(tr) && Enabled(tr.s, On(a, Fence(Some(cutoff)))) && d in Promises(tr, a)
    ensures d <= cutoff
  {
    hide Apply, ApplyBed;
    PromisesAreRetained(tr, a, d);
  }

  /**
  Exactly when idle collection starts an eviction: on an open daemon, a resident Bed with idle
  expiration, nothing in flight, no other eviction or purge, and its latest base a full TTL back.
  */
  lemma CollectionStartsExactlyWhenIdle(tr: Trace, a: Alloc, cutoff: Time)
    requires Valid(tr) && a in tr.s.allocs
    ensures Enabled(tr.s, On(a, Fence(Some(cutoff)))) <==>
            var b := tr.s.allocs[a];
            && !tr.s.closed && Here(tr.s, a) && !b.purging && b.phase == Resident && b.eviction == NoEviction
            && b.holds == multiset{} && b.ttl > 0 && LatestBase(tr, a) + b.ttl <= cutoff
  {
    hide Apply, ApplyBed;
    ReachableInv(tr);
    assert AllocOk(tr.s, a);
    KeepaliveIsLatestBase(tr, a);
  }
}
