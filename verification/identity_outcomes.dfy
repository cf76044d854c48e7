/** What a run's history says of the disk and of the daemon's users, guarded or not. */
module IdentityOutcomes {
  import opened Common
  import opened LocalIdentity

  /** The step is one of a run on this name. */
  ghost predicate UseOf(s: State, r: Run, n: Name) {
    r in s.runs && s.runs[r].id.name == n
  }

  /** The owner of the Bed's own tree: nobody's when it is staged, its user's when handed over, gone when claimed. */
  ghost function TreeOf(s: State, tr: Trace, n: Name): Option<Uid> {
    match tr
    case Start => Lookup(s.dirs, n)
    case Then(before, t) =>
      var was := TreeOf(s, before, n);
      match t
      case Stage(r) => if UseOf(From(s, before), r, n) then Some(ROOT) else was
      case Chown(r) => if UseOf(From(s, before), r, n) then UserOf(s, before, r) else was
      case Claim(id) => if id.name == n then None else was
      case _ => was
  }

  /** The user a run was given when it asked for one. */
  ghost function UserOf(s: State, tr: Trace, r: Run): Option<Uid> {
    match tr
    case Start => if r in s.runs then s.runs[r].user else None
    case Then(before, t) =>
      match t
      case Enter(q, _) => if q == r then None else UserOf(s, before, r)
      case Acquire(q, u) => if q == r then Some(u) else UserOf(s, before, r)
      case Leave(q) => if q == r then None else UserOf(s, before, r)
      case Crash => None
      case _ => UserOf(s, before, r)
  }

  /** The owner of the claimed tree: as it was when claimed, until it is stripped or removed. */
  ghost function ClaimedTreeOf(s: State, tr: Trace, n: Name): Option<Uid> {
    match tr
    case Start => Lookup(s.garbage, n)
    case Then(before, t) =>
      var was := ClaimedTreeOf(s, before, n);
      match t
      case Claim(id) => if id.name == n then TreeOf(s, before, n) else was
      case Strip(id) => if id.name == n then Some(ROOT) else was
      case RemoveGarbage(id) => if id.name == n then None else was
      case _ => was
  }

  lemma {:induction false} UsersFollowHistory(s: State, tr: Trace, r: Run)
    requires ValidFrom(s, tr)
    ensures UserOf(s, tr, r) == if r in From(s, tr).runs then From(s, tr).runs[r].user else None
  {
    match tr
    case Start =>
    case Then(before, t) => UsersFollowHistory(s, before, r);
  }

  lemma TreeAfter(s: State, tr: Trace, n: Name)
    requires ValidFrom(s, tr) && tr.Then?
    requires Lookup(From(s, tr.before).dirs, n) == TreeOf(s, tr.before, n)
    requires Lookup(From(s, tr.before).garbage, n) == ClaimedTreeOf(s, tr.before, n)
    requires tr.t.Chown? ==> UserOf(s, tr.before, tr.t.r) == if tr.t.r in From(s, tr.before).runs
                              then From(s, tr.before).runs[tr.t.r].user else None
    ensures Lookup(From(s, tr).dirs, n) == TreeOf(s, tr, n)
    ensures Lookup(From(s, tr).garbage, n) == ClaimedTreeOf(s, tr, n)
  {
    hide UserOf, NextIds, NextUids, NextFences, NextRuns, NextRecords;
  }

  /** In every run the trees on the disk have the owners that the history gives them. */
  lemma {:induction false} TreesFollowHistory(s: State, tr: Trace, n: Name)
    requires ValidFrom(s, tr)
    ensures Lookup(From(s, tr).dirs, n) == TreeOf(s, tr, n)
    ensures Lookup(From(s, tr).garbage, n) == ClaimedTreeOf(s, tr, n)
  {
    hide Apply, Enabled, UserOf;
    match tr
    case Start =>
    case Then(before, t) =>
      TreesFollowHistory(s, before, n);
      if t.Chown? { UsersFollowHistory(s, before, t.r); }
      TreeAfter(s, tr, n);
  }

  // ---------------------------------------------------------------- identities and their records

  /** The identity record: saved by a creation, restored by recovery, dropped with the identity or as an orphan. */
  ghost function RecordOf(s: State, tr: Trace, n: Name): Option<Id> {
    match tr
    case Start => Lookup(s.records, n)
    case Then(before, t) =>
      var was, at := RecordOf(s, before, n), From(s, before);
      match t
      case SaveRecord(r) => if UseOf(at, r, n) then Some(at.runs[r].id) else was
      case RemoveRecord(id) => if id.name == n then None else was
      case DropOrphan(m) => if m == n then None else was
      case RestoreRecord(m) => if m == n && was.None? then Some(Id(n, at.serial)) else was
      case Restart(_) => if !HasTree(at, n) then None else if was.Some? then was else Some(Id(n, at.serial))
      case _ => was
  }

  /** The registered identity: made on demand, recovered with its tree, lost in a crash or deregistered. */
  ghost function IdentityOf(s: State, tr: Trace, n: Name): Option<Id> {
    match tr
    case Start => Lookup(s.ids, n)
    case Then(before, t) =>
      var was, at := IdentityOf(s, before, n), From(s, before);
      match t
      case Register(m) => if m == n then Some(Id(n, at.serial)) else was
      case Deregister(id) => if id.name == n then None else was
      case Crash => None
      case Restart(_) => RecordOf(s, tr, n)
      case _ => was
  }

  lemma RecordAfter(s: State, tr: Trace, n: Name)
    requires ValidFrom(s, tr) && tr.Then? && Lookup(From(s, tr.before).records, n) == RecordOf(s, tr.before, n)
    ensures Lookup(From(s, tr).records, n) == RecordOf(s, tr, n)
  {
    hide NextIds, NextUids, NextFences, NextRuns, NextDirs, NextGarbage, ReserveAll;
  }

  lemma IdentityAfter(s: State, tr: Trace, n: Name)
    requires ValidFrom(s, tr) && tr.Then? && Lookup(From(s, tr.before).ids, n) == IdentityOf(s, tr.before, n)
    requires Lookup(From(s, tr).records, n) == RecordOf(s, tr, n)
    ensures Lookup(From(s, tr).ids, n) == IdentityOf(s, tr, n)
  {
    hide NextUids, NextFences, NextRuns, NextDirs, NextGarbage, ReserveAll, RecordOf;
  }

  /** In every run the records on disk and the registered identities are what the history says. */
  lemma {:induction false} IdentitiesFollowHistory(s: State, tr: Trace, n: Name)
    requires ValidFrom(s, tr)
    ensures Lookup(From(s, tr).records, n) == RecordOf(s, tr, n)
    ensures Lookup(From(s, tr).ids, n) == IdentityOf(s, tr, n)
  {
    hide Apply, Enabled, RecordOf, IdentityOf;
    match tr
    case Start => StartsSo(s, n);
    case Then(before, t) =>
      IdentitiesFollowHistory(s, before, n);
      RecordAfter(s, tr, n);
      IdentityAfter(s, tr, n);
  }

  lemma StartsSo(s: State, n: Name)
    ensures RecordOf(s, Start, n) == Lookup(s.records, n) && IdentityOf(s, Start, n) == Lookup(s.ids, n)
  {
  }

  // ---------------------------------------------------------------- what can always be done

  lemma Follow(s: State, tr: Trace, t: Step) returns (tr': Trace)
    requires GuardedFrom(s, tr) && Enabled(From(s, tr), t) && !t.Attempt?
    ensures GuardedFrom(s, tr') && From(s, tr') == Apply(From(s, tr), t)
  {
    tr' := Then(tr, t);
  }

  /** A creation can put down its identity at any time. */
  lemma RecordsCanBeSaved(s: State, tr: Trace, r: Run) returns (tr': Trace)
    requires GuardedFrom(s, tr) && r in From(s, tr).runs
    ensures var id := From(s, tr).runs[r].id;
            GuardedFrom(s, tr') && Lookup(From(s, tr').records, id.name) == Some(id)
  {
    tr' := Follow(s, tr, SaveRecord(r));
  }

  /** An attempt that need not remove the tree leaves it as it was, and the name can be used again. */
  lemma TreesCanBeKept(s: State, tr: Trace, id: Id, r: Run) returns (tr': Trace)
    requires GuardedFrom(s, tr) && At(From(s, tr), id, Removing) && From(s, tr).up && Current(From(s, tr), id)
    requires id.name in From(s, tr).dirs && id.name !in From(s, tr).garbage
    requires !InUse(From(s, tr), id) && r !in From(s, tr).runs
    ensures GuardedFrom(s, tr') && From(s, tr').dirs == From(s, tr).dirs
    ensures Lookup(From(s, tr').runs, r) == Some(Use(id, None))
  {
    hide GuardedFrom, From, NextUids;
    tr' := Follow(s, tr, Keep(id));
    assert !InUse(From(s, tr'), id);
    tr' := Follow(s, tr', Enter(r, id.name));
  }

  /** What is left of the name's claimed tree can be removed, also when its first removal is interrupted. */
  lemma GarbageCanBeRemoved(s: State, tr: Trace, id: Id) returns (tr': Trace)
    requires GuardedFrom(s, tr) && At(From(s, tr), id, Removing)
    ensures GuardedFrom(s, tr') && At(From(s, tr'), id, Removing) && id.name !in From(s, tr').garbage
    ensures From(s, tr').dirs == From(s, tr).dirs
  {
    hide GuardedFrom, From, NextUids;
    tr' := tr;
    if id.name in From(s, tr').garbage { tr' := Follow(s, tr', Strip(id)); }
    tr' := Follow(s, tr', RemoveGarbage(id));
  }

  /** From every state an attempt under way can forget the identity: no tree, user, record or fence of it is left. */
  lemma AttemptsCanForget(s: State, tr: Trace, id: Id) returns (tr': Trace)
    requires GuardedFrom(s, tr) && At(From(s, tr), id, Removing)
    ensures GuardedFrom(s, tr') && !HasTree(From(s, tr'), id.name) && id !in From(s, tr').uids
    ensures id.name !in From(s, tr').records && id.name !in From(s, tr').ids && id !in From(s, tr').fences
  {
    hide GuardedFrom, From;
    tr' := GarbageCanBeRemoved(s, tr, id);
    if id.name in From(s, tr').dirs {
      tr' := Follow(s, tr', Claim(id));
      tr' := GarbageCanBeRemoved(s, tr', id);
    }
    tr' := ForgetTreeless(s, tr', id);
  }

  lemma ForgetTreeless(s: State, tr: Trace, id: Id) returns (tr': Trace)
    requires GuardedFrom(s, tr) && At(From(s, tr), id, Removing) && !HasTree(From(s, tr), id.name)
    ensures GuardedFrom(s, tr') && !HasTree(From(s, tr'), id.name) && id !in From(s, tr').uids
    ensures id.name !in From(s, tr').records && id.name !in From(s, tr').ids && id !in From(s, tr').fences
  {
    hide GuardedFrom, From;
    tr' := Follow(s, tr, See(id));
    tr' := Follow(s, tr', Free(id));
    tr' := Follow(s, tr', RemoveRecord(id));
    tr' := Follow(s, tr', Deregister(id));
  }

  /** While the daemon is down, recovery can give every tree a record and drop every record without a tree. */
  lemma RecoveryCanTidy(s: State, tr: Trace, n: Name) returns (tr': Trace)
    requires GuardedFrom(s, tr) && !From(s, tr).up
    ensures GuardedFrom(s, tr') && !From(s, tr').up
    ensures n in From(s, tr').records <==> HasTree(From(s, tr), n)
    ensures From(s, tr').dirs == From(s, tr).dirs && From(s, tr').garbage == From(s, tr).garbage
  {
    hide GuardedFrom, From, NextUids;
    tr' := Follow(s, tr, if HasTree(From(s, tr), n) then RestoreRecord(n) else DropOrphan(n));
  }
}
