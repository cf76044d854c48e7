/** What every guarded run of creations and cleanup attempts keeps, on the disk and in the daemon. */
module IdentitySafety {
  import opened Common
  import opened LocalIdentity
  import opened IdentityRecovery

  /** A tree belongs to a registered identity; its owner is that identity's user; a claimed one is fenced. */
  predicate TreeOk(s: State, n: Name, u: Uid) {
    && (HasTree(s, n) ==> n in s.ids)
    && (Owns(s, n, u) ==> n in s.ids && Lookup(s.uids, s.ids[n]) == Some(u))
    && (n in s.garbage && n in s.ids ==> s.ids[n] in s.fences)
  }

  predicate NameOk(s: State, n: Name) {
    n in s.ids ==> s.ids[n].name == n && s.ids[n].serial < s.serial
  }

  /** A fenced identity whose trees were seen to be gone still has none, and once freed it has no user. */
  predicate IdOk(s: State, id: Id) {
    && (id in s.fences ==> Current(s, id))
    && (id in s.fences && !s.fences[id].Waiting? && !s.fences[id].Removing? ==> !HasTree(s, id.name))
    && (At(s, id, Freed) || At(s, id, Unrecorded) ==> id !in s.uids)
    && (id in s.uids ==> Current(s, id) && s.min <= s.uids[id] <= s.max)
  }

  predicate RunOk(s: State, r: Run) {
    r in s.runs ==>
      && Current(s, s.runs[r].id) && s.runs[r].id !in s.fences
      && (s.runs[r].user.Some? ==> Lookup(s.uids, s.runs[r].id) == s.runs[r].user)
  }

  /** Users and identities in use are not shared. */
  ghost predicate Distinct(s: State) {
    && (forall i, j :: i in s.uids && j in s.uids && s.uids[i] == s.uids[j] ==> i == j)
    && (forall q, r :: q in s.runs && r in s.runs && s.runs[q].id == s.runs[r].id ==> q == r)
  }

  ghost predicate Running(s: State) {
    && (forall n, u {:trigger TreeOk(s, n, u)} :: TreeOk(s, n, u))
    && (forall n {:trigger NameOk(s, n)} :: NameOk(s, n))
    && (forall id {:trigger IdOk(s, id)} :: IdOk(s, id))
    && (forall r {:trigger RunOk(s, r)} :: RunOk(s, r))
    && Distinct(s)
  }

  ghost predicate Down(s: State) {
    s.ids == map[] && s.uids == map[] && s.fences == map[] && s.runs == map[]
  }

  ghost predicate Inv(s: State) {
    && Recorded(s) && RecordsAreOld(s)
    && Orderly(s) && if s.up then Running(s) else Down(s)
  }

  // ---------------------------------------------------------------- each step of the running daemon

  /** A guarded step that the running daemon takes. */
  ghost predicate Takes(s: State, t: Step) {
    Running(s) && s.up && ROOT < s.min && Enabled(s, t) && Guarded(s, t) && !t.Crash?
  }

  predicate IsUse(t: Step) {
    t.Register? || t.Enter? || t.SaveRecord? || t.Stage? || t.Acquire? || t.Chown? || t.Leave?
  }

  lemma UseIsOpen(s: State, t: Step)
    requires Takes(s, t) && (t.SaveRecord? || t.Stage? || t.Acquire? || t.Chown? || t.Leave?)
    ensures RunOk(s, t.r) && NameOk(s, s.runs[t.r].id.name) && IdOk(s, s.runs[t.r].id)
  {
  }

  lemma RunKeepsTree(s: State, t: Step, n: Name, u: Uid)
    requires Takes(s, t) && IsUse(t)
    ensures TreeOk(Apply(s, t), n, u)
  {
    assert TreeOk(s, n, u) && NameOk(s, n);
    if !t.Register? && !t.Enter? { UseIsOpen(s, t); }
  }

  /** Deleting and renaming trees, each of which its identity's fence covers. */
  lemma DeleteKeepsTree(s: State, t: Step, n: Name, u: Uid)
    requires Takes(s, t) && (t.Strip? || t.RemoveGarbage? || t.Claim? || t.Keep?)
    ensures TreeOk(Apply(s, t), n, u)
  {
    assert TreeOk(s, n, u) && NameOk(s, n) && IdOk(s, t.id);
  }

  lemma CleanKeepsTree(s: State, t: Step, n: Name, u: Uid)
    requires Takes(s, t) && !IsUse(t) && !t.Strip? && !t.RemoveGarbage? && !t.Claim? && !t.Keep?
    ensures TreeOk(Apply(s, t), n, u)
  {
    assert TreeOk(s, n, u) && NameOk(s, n) && IdOk(s, t.id);
  }

  lemma StepKeepsName(s: State, t: Step, n: Name)
    requires Takes(s, t)
    ensures NameOk(Apply(s, t), n)
  {
    assert NameOk(s, n);
  }

  lemma RunKeepsId(s: State, t: Step, id: Id)
    requires Takes(s, t) && IsUse(t)
    ensures IdOk(Apply(s, t), id)
  {
    assert IdOk(s, id);
    if !t.Register? && !t.Enter? { UseIsOpen(s, t); }
  }

  lemma CleanKeepsId(s: State, t: Step, id: Id)
    requires Takes(s, t) && !IsUse(t)
    ensures IdOk(Apply(s, t), id)
  {
    assert IdOk(s, id) && IdOk(s, t.id) && NameOk(s, id.name);
  }

  lemma UseKeepsRun(s: State, t: Step, r: Run)
    requires Takes(s, t) && IsUse(t)
    ensures RunOk(Apply(s, t), r)
  {
    assert RunOk(s, r);
    if r in s.runs { assert NameOk(s, s.runs[r].id.name); }
    if t.Enter? { assert NameOk(s, t.n); }
    if t.Acquire? { UseIsOpen(s, t); }
  }

  /** An attempt works on a fenced identity, which nobody uses. */
  lemma CleanKeepsRun(s: State, t: Step, r: Run)
    requires Takes(s, t) && !IsUse(t)
    ensures RunOk(Apply(s, t), r)
  {
    assert RunOk(s, r) && IdOk(s, t.id);
  }

  lemma AcquireKeepsDistinct(s: State, t: Step)
    requires Takes(s, t) && t.Acquire?
    ensures Distinct(Apply(s, t))
  {
    if s.runs[t.r].id !in s.uids {
      assert forall id :: id in s.uids ==> s.uids[id] != t.u;
    }
  }

  lemma StepKeepsDistinct(s: State, t: Step)
    requires Takes(s, t) && !t.Acquire?
    ensures Distinct(Apply(s, t))
  {
    if t.Enter? {
      assert forall r :: r in s.runs ==> s.runs[r].id != s.ids[t.n];
    }
  }

  lemma StepRuns(s: State, t: Step)
    requires Takes(s, t)
    ensures Running(Apply(s, t))
  {
    hide Apply, TreeOk, NameOk, IdOk, RunOk, Distinct, Enabled, Guarded;
    var s' := Apply(s, t);
    forall n, u ensures TreeOk(s', n, u) {
      if IsUse(t) {
        RunKeepsTree(s, t, n, u);
      } else if t.Strip? || t.RemoveGarbage? || t.Claim? || t.Keep? {
        DeleteKeepsTree(s, t, n, u);
      } else {
        CleanKeepsTree(s, t, n, u);
      }
    }
    forall n ensures NameOk(s', n) { StepKeepsName(s, t, n); }
    forall id ensures IdOk(s', id) { if IsUse(t) { RunKeepsId(s, t, id); } else { CleanKeepsId(s, t, id); } }
    forall r ensures RunOk(s', r) { if IsUse(t) { UseKeepsRun(s, t, r); } else { CleanKeepsRun(s, t, r); } }
    if t.Acquire? { AcquireKeepsDistinct(s, t); } else { StepKeepsDistinct(s, t); }
  }

  /** While the daemon runs, its maps imply that the disk is in order. */
  lemma RunningIsOrderly(s: State)
    requires Running(s)
    ensures Orderly(s)
  {
    forall n, m, u | Owns(s, n, u) && Owns(s, m, u) ensures n == m {
      assert TreeOk(s, n, u) && TreeOk(s, m, u) && NameOk(s, n) && NameOk(s, m);
    }
    forall n, u, v | Owns(s, n, u) && Owns(s, n, v) ensures u == v {
      assert TreeOk(s, n, u) && TreeOk(s, n, v);
    }
  }

  // ---------------------------------------------------------------- crashes and recovery

  /** The disk of the state, whatever the daemon does. */
  predicate SameDisk(s: State, s': State) {
    s'.min == s.min && s'.max == s.max && s'.dirs == s.dirs && s'.garbage == s.garbage
  }

  lemma SameDiskIsOrderly(s: State, s': State)
    requires SameDisk(s, s')
    ensures Orderly(s') <==> Orderly(s)
  {
    assert forall n, u :: Owns(s', n, u) <==> Owns(s, n, u);
  }

  /** Recovery brings back a running daemon. */
  lemma RestartRuns(s: State, order: seq<Name>)
    requires Recorded(s) && RecordsAreOld(s) && Down(s) && Enabled(s, Restart(order))
    ensures Running(Apply(s, Restart(order)))
  {
    hide ReserveAll;
    var s' := Apply(s, Restart(order));
    ReserveAllIsExact(s, order);
    assert forall n, u :: Owns(s', n, u) <==> Owns(s, n, u);
    forall n, u ensures TreeOk(s', n, u) { assert n in order ==> OwnerIsReserved(s, s'.uids, n, u); }
    forall n ensures NameOk(s', n) { }
    forall id ensures IdOk(s', id) { assert ReservationIsOwned(s, order, s'.uids, id); }
  }

  ghost predicate RecordsAreOld(s: State) {
    forall n :: n in s.records ==> s.records[n].serial < s.serial
  }

  lemma StepKeepsRecords(s: State, t: Step)
    requires Inv(s) && Enabled(s, t)
    ensures Recorded(Apply(s, t)) && RecordsAreOld(Apply(s, t))
  {
    if t.SaveRecord? { assert RunOk(s, t.r) && NameOk(s, s.runs[t.r].id.name); }
  }

  lemma StepKeeps(s: State, t: Step)
    requires Inv(s) && Enabled(s, t) && Guarded(s, t)
    ensures Inv(Apply(s, t))
  {
    hide Running, Orderly, Recorded, RecordsAreOld;
    StepKeepsRecords(s, t);
    if s.up && !t.Crash? {
      RangeIsFixed(s);
      StepRuns(s, t);
      RunningIsOrderly(Apply(s, t));
    } else {
      SameDiskIsOrderly(s, Apply(s, t));
      if t.Restart? { RestartRuns(s, t.order); }
    }
  }

  lemma RangeIsFixed(s: State)
    requires Recorded(s)
    ensures ROOT < s.min
  {
  }

  lemma {:induction false} GuardedFromKeeps(s: State, tr: Trace)
    requires Inv(s) && GuardedFrom(s, tr)
    ensures Inv(From(s, tr))
  {
    hide Apply, Enabled, Guarded, Inv;
    match tr
    case Start =>
    case Then(before, t) =>
      GuardedFromKeeps(s, before);
      StepKeeps(From(s, before), t);
  }

  lemma InitialInv(s: State)
    requires Initial(s)
    ensures Inv(s)
  {
  }

  // ---------------------------------------------------------------- the claims

  /** In every guarded run, through crashes and restarts, two trees of one user belong to one name. */
  lemma TreesNeverShareAUser(s: State, tr: Trace, n: Name, m: Name, u: Uid)
    requires Initial(s) && GuardedFrom(s, tr) && Owns(From(s, tr), n, u) && Owns(From(s, tr), m, u)
    ensures n == m
  {
    hide Apply, Enabled, Guarded;
    InitialInv(s);
    GuardedFromKeeps(s, tr);
  }

  /** Two registered identities never hold the same user. */
  lemma IdentitiesNeverShareAUser(s: State, tr: Trace, i: Id, j: Id)
    requires Initial(s) && GuardedFrom(s, tr) && i in From(s, tr).uids && j in From(s, tr).uids
    requires From(s, tr).uids[i] == From(s, tr).uids[j]
    ensures i == j && Current(From(s, tr), i)
  {
    hide Apply, Enabled, Guarded;
    InitialInv(s);
    GuardedFromKeeps(s, tr);
    assert IdOk(From(s, tr), i);
  }

  /** A user is given up only when none of its trees is left on the disk, and its Bed has none at all. */
  lemma FreedOnlyWhenGone(s: State, tr: Trace, id: Id)
    requires Initial(s) && GuardedFrom(s, tr) && Enabled(From(s, tr), Free(id))
    ensures !HasTree(From(s, tr), id.name)
    ensures forall n :: id in From(s, tr).uids ==> !Owns(From(s, tr), n, From(s, tr).uids[id])
  {
    hide Apply, Guarded;
    InitialInv(s);
    GuardedFromKeeps(s, tr);
    FreeFindsNoTree(From(s, tr), id);
  }

  lemma FreeFindsNoTree(s: State, id: Id)
    requires Inv(s) && Enabled(s, Free(id))
    ensures !HasTree(s, id.name)
    ensures forall n :: id in s.uids ==> !Owns(s, n, s.uids[id])
  {
    assert IdOk(s, id);
    assert s.up;
    forall n | id in s.uids ensures !Owns(s, n, s.uids[id]) {
      assert TreeOk(s, n, s.uids[id]) && NameOk(s, n);
    }
  }

  /** Only that step takes a user away from an identity while the daemon runs. */
  lemma OnlyFreeTakesUsers(s: State, t: Step, id: Id)
    requires s.up && Enabled(s, t) && id in s.uids && !t.Crash?
    ensures Lookup(Apply(s, t).uids, id) == Some(s.uids[id]) <==> t != Free(id)
  {
  }

  /** After every crash of a guarded run recovery goes through, in whatever order it meets the names. */
  lemma RecoverySucceeds(s: State, tr: Trace, order: seq<Name>)
    requires Initial(s) && GuardedFrom(s, tr) && !From(s, tr).up && Lists(From(s, tr), order)
    ensures Enabled(From(s, tr), Restart(order))
  {
    hide Apply, Guarded, ReserveAll;
    InitialInv(s);
    GuardedFromKeeps(s, tr);
    RecoveryIsExact(From(s, tr), order);
  }

  /** Its conflict errors cannot occur there: two trees have one owner if and only if they are one Bed's. */
  lemma RecoveryNeverConflicts(s: State, tr: Trace, n: Name, m: Name, u: Uid, v: Uid)
    requires Initial(s) && GuardedFrom(s, tr) && Owns(From(s, tr), n, u) && Owns(From(s, tr), m, v)
    ensures u == v <==> n == m
  {
    hide Apply, Enabled, Guarded;
    InitialInv(s);
    GuardedFromKeeps(s, tr);
  }
}
