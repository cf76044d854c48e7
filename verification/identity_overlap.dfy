/**
What happens when an attempt starts on an identity that a creation uses. Guarded steps alone then lead to a
user given up under a tree that it owns, to two names with trees of that user, and to a disk on which the
daemon does not start.
*/
module IdentityOverlap {
  import opened Common
  import opened LocalIdentity
  import opened IdentityRecovery
  import opened IdentitySafety

  ghost predicate StaysOrderly(s: State) {
    forall p :: GuardedFrom(s, p) ==> Orderly(From(s, p))
  }

  /** Whenever the daemon is down it can start again, in every order of recovery. */
  ghost predicate AlwaysStarts(s: State) {
    forall p, order :: GuardedFrom(s, p) && !From(s, p).up && Lists(From(s, p), order) ==>
      ReserveAll(From(s, p), order).Some?
  }

  /** No user is ever given up while its Bed has a tree. */
  ghost predicate FreesOnlyGone(s: State) {
    forall p, id :: GuardedFrom(s, p) && Enabled(From(s, p), Free(id)) ==> !HasTree(From(s, p), id.name)
  }

  /**
  The guard is exactly what is missing. After a step from an invariant state, no guarded continuation shares
  a user between names, or strands the daemon, or gives up a user under a tree, if and only if it was guarded.
  */
  lemma GuardIsExact(s: State, t: Step)
    requires Inv(s) && Enabled(s, t)
    ensures StaysOrderly(Apply(s, t)) <==> Guarded(s, t)
    ensures AlwaysStarts(Apply(s, t)) <==> Guarded(s, t)
    ensures FreesOnlyGone(Apply(s, t)) <==> Guarded(s, t)
  {
    hide Apply, Enabled, Guarded, Inv, GuardedFrom, From, Orderly, ReserveAll, Lists, HasTree;
    if Guarded(s, t) {
      StepKeeps(s, t);
      InvStaysSafe(Apply(s, t));
    } else {
      OverlapHarms(s, t);
    }
  }

  lemma InvStaysSafe(s: State)
    requires Inv(s)
    ensures StaysOrderly(s) && AlwaysStarts(s) && FreesOnlyGone(s)
  {
    hide Apply, Enabled, Guarded, GuardedFrom, From, Running, ReserveAll, Lists, HasTree;
    forall p | GuardedFrom(s, p) ensures Orderly(From(s, p)) { GuardedFromKeeps(s, p); }
    forall p, order | GuardedFrom(s, p) && !From(s, p).up && Lists(From(s, p), order)
      ensures ReserveAll(From(s, p), order).Some?
    {
      GuardedFromKeeps(s, p);
      RecoveryIsExact(From(s, p), order);
    }
    forall p, id | GuardedFrom(s, p) && Enabled(From(s, p), Free(id)) ensures !HasTree(From(s, p), id.name) {
      GuardedFromKeeps(s, p);
      FreeFindsNoTree(From(s, p), id);
    }
  }

  // ---------------------------------------------------------------- from the overlap to the harm

  lemma Follow(s: State, p: Trace, t: Step) returns (p': Trace)
    requires GuardedFrom(s, p) && Enabled(From(s, p), t) && Guarded(From(s, p), t)
    ensures GuardedFrom(s, p') && From(s, p') == Apply(From(s, p), t)
  {
    p' := Then(p, t);
  }

  /** Users are not shared and lie in the range. */
  ghost predicate Allocated(s: State) {
    && ROOT < s.min <= s.max
    && (forall i, j :: i in s.uids && j in s.uids && s.uids[i] == s.uids[j] ==> i == j)
    && (forall i :: i in s.uids ==> s.min <= s.uids[i] <= s.max)
  }

  /** An attempt runs on the identity that run `r` uses. */
  ghost predicate Overlaps(s: State, id: Id, r: Run) {
    && Allocated(s) && s.up && At(s, id, Removing) && Current(s, id)
    && r in s.runs && s.runs[r].id == id && id.name !in s.garbage
    && (s.runs[r].user.Some? ==> Lookup(s.uids, id) == s.runs[r].user)
  }

  /** The attempt has seen the trees gone, and the run has a user. */
  ghost predicate Cleared(s: State, id: Id, r: Run, u: Uid) {
    && Allocated(s) && s.up && At(s, id, Gone)
    && r in s.runs && s.runs[r] == Use(id, Some(u)) && Lookup(s.uids, id) == Some(u)
  }

  /** The run has put its tree where the attempt saw none. */
  ghost predicate Staged(s: State, id: Id, u: Uid) {
    && Allocated(s) && s.up && At(s, id, Gone)
    && Lookup(s.uids, id) == Some(u) && Lookup(s.dirs, id.name) == Some(u)
  }

  /** A tree's owner is free for the next Bed. */
  ghost predicate Loose(s: State, n: Name, u: Uid) {
    Allocated(s) && s.up && s.min <= u <= s.max && !Held(s, u) && Lookup(s.dirs, n) == Some(u)
  }

  ghost predicate Available(s: State, id: Id, u: Uid) {
    if id in s.uids then s.uids[id] == u else s.min <= u <= s.max && !Held(s, u)
  }

  lemma AttemptSeesGone(s: State, p: Trace, id: Id, r: Run, u: Uid) returns (p': Trace)
    requires GuardedFrom(s, p) && Overlaps(From(s, p), id, r) && Available(From(s, p), id, u)
    ensures GuardedFrom(s, p') && At(From(s, p'), id, Gone) && Available(From(s, p'), id, u)
    ensures Allocated(From(s, p')) && From(s, p').up && r in From(s, p').runs
        && From(s, p').runs[r] == From(s, p).runs[r]
    ensures From(s, p').uids == From(s, p).uids
  {
    hide GuardedFrom, From, Allocated;
    p' := p;
    if id.name in From(s, p).dirs {
      p' := Follow(s, p', Claim(id));
      p' := Follow(s, p', RemoveGarbage(id));
    }
    p' := Follow(s, p', See(id));
    SameUsers(From(s, p), From(s, p'));
  }

  lemma SameUsers(s: State, s': State)
    requires Allocated(s) && s'.uids == s.uids && s'.min == s.min && s'.max == s.max && s'.up == s.up
    ensures Allocated(s')
    ensures forall u :: Held(s', u) <==> Held(s, u)
  {
  }

  lemma RunAcquires(s: State, p: Trace, id: Id, r: Run, u: Uid) returns (p': Trace)
    requires GuardedFrom(s, p) && Allocated(From(s, p)) && From(s, p).up
    requires At(From(s, p), id, Gone) && Available(From(s, p), id, u)
    requires r in From(s, p).runs && From(s, p).runs[r].id == id
    requires From(s, p).runs[r].user.Some? ==> Lookup(From(s, p).uids, id) == From(s, p).runs[r].user
    ensures GuardedFrom(s, p') && Cleared(From(s, p'), id, r, u)
  {
    hide GuardedFrom, From;
    p' := p;
    if From(s, p).runs[r].user.None? {
      p' := Follow(s, p', Acquire(r, u));
    }
  }

  lemma RunStages(s: State, p: Trace, id: Id, r: Run, u: Uid) returns (p': Trace)
    requires GuardedFrom(s, p) && Cleared(From(s, p), id, r, u)
    ensures GuardedFrom(s, p') && Staged(From(s, p'), id, u)
  {
    hide GuardedFrom, From, Allocated;
    p' := Follow(s, p, Stage(r));
    p' := Follow(s, p', Chown(r));
    SameUsers(From(s, p), From(s, p'));
  }

  lemma AttemptFrees(s: State, p: Trace, id: Id, u: Uid) returns (p': Trace)
    requires GuardedFrom(s, p) && Staged(From(s, p), id, u)
    ensures GuardedFrom(s, p') && Loose(From(s, p'), id.name, u)
  {
    hide GuardedFrom, From;
    p' := Follow(s, p, Free(id));
  }

  /** The next Bed to need a user may be given the one that is loose. */
  lemma NextBedShares(s: State, p: Trace, n: Name, u: Uid) returns (p': Trace, m: Name)
    requires GuardedFrom(s, p) && Loose(From(s, p), n, u)
    ensures GuardedFrom(s, p') && From(s, p').up && n != m && Owns(From(s, p'), n, u) && Owns(From(s, p'), m, u)
  {
    hide GuardedFrom, From;
    var q;
    p', m, q := NextBedEnters(s, p, n, u);
    p' := Follow(s, p', Stage(q));
    p' := Follow(s, p', Acquire(q, u));
    p' := Follow(s, p', Chown(q));
  }

  lemma NextBedEnters(s: State, p: Trace, n: Name, u: Uid) returns (p': Trace, m: Name, q: Run)
    requires GuardedFrom(s, p) && Loose(From(s, p), n, u)
    ensures GuardedFrom(s, p') && n != m && Loose(From(s, p'), n, u)
    ensures q in From(s, p').runs && From(s, p').runs[q].user.None? && From(s, p').runs[q].id.name == m
    ensures From(s, p').runs[q].id !in From(s, p').uids
  {
    hide GuardedFrom, From, Allocated, Held;
    var was := From(s, p);
    m := FreshName(was, n);
    q := FreshInt(was.runs.Keys);
    var id := Id(m, was.serial);
    p' := Follow(s, p, Register(m));
    assert !InUse(From(s, p'), id);
    p' := Follow(s, p', Enter(q, m));
    SameUsers(was, From(s, p'));
  }

  /** A name that nothing in the daemon refers to. */
  lemma FreshName(s: State, n: Name) returns (m: Name)
    ensures m != n && m !in s.ids
    ensures forall id: Id :: id.name == m ==> id !in s.uids && id !in s.fences && !InUse(s, id)
  {
    var users, fences := set id | id in s.uids :: id.name, set id | id in s.fences :: id.name;
    m := FreshInt(s.ids.Keys + {n} + users + fences + set r | r in s.runs :: s.runs[r].id.name);
  }

  /** The whole way, once there is a user for the run. */
  lemma OverlapShares(s: State, p: Trace, id: Id, r: Run, u: Uid) returns (staged: Trace, shared: Trace, m: Name)
    requires GuardedFrom(s, p) && Overlaps(From(s, p), id, r) && Available(From(s, p), id, u)
    ensures GuardedFrom(s, staged) && Staged(From(s, staged), id, u)
    ensures GuardedFrom(s, shared) && From(s, shared).up && id.name != m
    ensures Owns(From(s, shared), id.name, u) && Owns(From(s, shared), m, u)
  {
    hide GuardedFrom, From, Available, Allocated, Loose, Cleared, Staged, Owns;
    var p' := AttemptSeesGone(s, p, id, r, u);
    p' := RunAcquires(s, p', id, r, u);
    staged := RunStages(s, p', id, r, u);
    shared := AttemptFrees(s, staged, id, u);
    shared, m := NextBedShares(s, shared, id.name, u);
  }

  // ---------------------------------------------------------------- a user for the run

  /** Nobody uses the identity and no attempt on it is under way. */
  ghost predicate Quiet(s: State, j: Id) {
    Current(s, j) && !InUse(s, j) && (j in s.fences ==> s.fences[j].Waiting?)
  }

  /** Another Bed's use ends and its attempt gives up. */
  lemma OtherQuiets(s: State, p: Trace, id: Id, r: Run, j: Id) returns (p': Trace)
    requires GuardedFrom(s, p) && Overlaps(From(s, p), id, r) && j != id && j.name != id.name
    requires Current(From(s, p), j) && !At(From(s, p), j, Freed) && !At(From(s, p), j, Unrecorded)
    requires Distinct(From(s, p))
    ensures GuardedFrom(s, p') && Overlaps(From(s, p'), id, r) && Quiet(From(s, p'), j)
    ensures From(s, p').uids == From(s, p).uids
  {
    hide GuardedFrom, From;
    p' := p;
    if InUse(From(s, p), j) {
      var q :| q in From(s, p).runs && From(s, p).runs[q].id == j;
      p' := Follow(s, p', Leave(q));
      assert !InUse(From(s, p'), j);
    }
    if j in From(s, p').fences && !From(s, p').fences[j].Waiting? {
      p' := Follow(s, p', Fail(j));
    }
  }

  /** A quiet Bed can be cleaned out to the end. */
  lemma OtherIsCleaned(s: State, p: Trace, id: Id, r: Run, j: Id) returns (p': Trace)
    requires GuardedFrom(s, p) && Overlaps(From(s, p), id, r) && j.name != id.name && Quiet(From(s, p), j)
    ensures GuardedFrom(s, p') && Overlaps(From(s, p'), id, r) && At(From(s, p'), j, Gone)
    ensures From(s, p').uids == From(s, p).uids
  {
    hide GuardedFrom, From, Allocated;
    p' := Follow(s, p, Attempt(j));
    p' := Follow(s, p', RemoveGarbage(j));
    if j.name in From(s, p').dirs {
      p' := Follow(s, p', Claim(j));
      p' := Follow(s, p', RemoveGarbage(j));
    }
    p' := Follow(s, p', See(j));
    SameUsers(From(s, p), From(s, p'));
  }

  lemma OtherIsFreed(s: State, p: Trace, id: Id, r: Run, j: Id, u: Uid) returns (p': Trace)
    requires GuardedFrom(s, p) && Overlaps(From(s, p), id, r) && j.name != id.name && At(From(s, p), j, Gone)
    requires id !in From(s, p).uids && Lookup(From(s, p).uids, j) == Some(u)
    ensures GuardedFrom(s, p') && Overlaps(From(s, p'), id, r) && Available(From(s, p'), id, u)
  {
    hide GuardedFrom, From;
    p' := Follow(s, p, Free(j));
  }

  /** If every user is held, some other Bed can be made to give one up. */
  lemma SomeUserIsAvailable(s: State, t: Step, r: Run) returns (p: Trace, u: Uid)
    requires Inv(s) && Enabled(s, t) && t.Attempt? && r in s.runs && s.runs[r].id == t.id
    ensures var s' := Apply(s, t);
            GuardedFrom(s', p) && Overlaps(From(s', p), t.id, r) && Available(From(s', p), t.id, u)
  {
    var s', id := Apply(s, t), t.id;
    p := Start;
    OverlapBegins(s, t, r);
    if id in s.uids {
      u := s.uids[id];
    } else if exists v :: s.min <= v <= s.max && !Held(s, v) {
      u :| s.min <= u <= s.max && !Held(s, u);
      assert Held(s', u) ==> Held(s, u);
    } else {
      u := s.min;
      assert Held(s, u);
      var j :| j in s.uids && s.uids[j] == u;
      assert IdOk(s, j) && NameOk(s, j.name);
      p := OtherQuiets(s', p, id, r, j);
      p := OtherIsCleaned(s', p, id, r, j);
      p := OtherIsFreed(s', p, id, r, j, u);
    }
  }

  lemma OverlapBegins(s: State, t: Step, r: Run)
    requires Inv(s) && Enabled(s, t) && t.Attempt? && r in s.runs && s.runs[r].id == t.id
    ensures Overlaps(Apply(s, t), t.id, r) && Distinct(Apply(s, t))
  {
    assert RunOk(s, r) && NameOk(s, t.id.name) && TreeOk(s, t.id.name, ROOT);
    forall i | i in s.uids ensures s.min <= s.uids[i] <= s.max { assert IdOk(s, i); }
  }

  // ---------------------------------------------------------------- the harm

  lemma {:induction false} ListOf(names: set<Name>) returns (order: seq<Name>)
    ensures forall n :: n in order <==> n in names
  {
    if names == {} {
      order := [];
    } else {
      var n := SomeMember(names);
      order := ListOf(names - {n});
      order := order + [n];
    }
  }

  /** A disk with two Beds' trees of one user does not start, in any order of recovery. */
  lemma SharedDiskStrands(s: State, p: Trace, n: Name, m: Name, u: Uid) returns (p': Trace, order: seq<Name>)
    requires Recorded(s) && GuardedFrom(s, p) && From(s, p).up
    requires n != m && Owns(From(s, p), n, u) && Owns(From(s, p), m, u)
    ensures GuardedFrom(s, p') && !From(s, p').up && Lists(From(s, p'), order) && ReserveAll(From(s, p'), order).None?
  {
    hide GuardedFrom, From, ReserveAll;
    p' := Follow(s, p, Crash);
    var down := From(s, p');
    order := ListOf(down.dirs.Keys + down.garbage.Keys);
    assert Owns(down, n, u) && Owns(down, m, u);
    GuardedIsValid(s, p');
    RunsAreRecorded(s, p');
    RecoveryIsExact(down, order);
  }

  lemma {:induction false} GuardedIsValid(s: State, tr: Trace)
    requires GuardedFrom(s, tr)
    ensures ValidFrom(s, tr)
  {
    hide Apply, Enabled, Guarded;
    match tr
    case Start =>
    case Then(before, t) => GuardedIsValid(s, before);
  }

  lemma OverlapHarms(s: State, t: Step)
    requires Inv(s) && Enabled(s, t) && !Guarded(s, t)
    ensures !StaysOrderly(Apply(s, t)) && !AlwaysStarts(Apply(s, t)) && !FreesOnlyGone(Apply(s, t))
  {
    hide GuardedFrom, From, Apply, ReserveAll, Lists, Overlaps, Available, Running, InUse;
    var s' := Apply(s, t);
    var r := SomeUse(s, t.id);
    var p, u := SomeUserIsAvailable(s, t, r);
    var staged, shared, m := OverlapShares(s', p, t.id, r, u);
    StepKeepsRecorded(s, t);
    var down, order := SharedDiskStrands(s', shared, t.id.name, m, u);
    assert Enabled(From(s', staged), Free(t.id)) && HasTree(From(s', staged), t.id.name);
  }

  lemma SomeUse(s: State, id: Id) returns (r: Run)
    requires InUse(s, id)
    ensures r in s.runs && s.runs[r].id == id
  {
    r :| r in s.runs && s.runs[r].id == id;
  }

  // ---------------------------------------------------------------- the run

  lemma TakeNothing(s: State) returns (p: Trace)
    ensures ValidFrom(s, p) && From(s, p) == s
  {
    p := Start;
  }

  lemma Take(s: State, p: Trace, t: Step) returns (p': Trace)
    requires ValidFrom(s, p) && Enabled(From(s, p), t)
    ensures ValidFrom(s, p') && From(s, p') == Apply(From(s, p), t)
  {
    p' := Then(p, t);
  }

  /** The only Bed is `n`; its tree, its user and its run stand as given. */
  function OneBed(s: State, n: Name, fences: map<Id, Fence>, runs: map<Run, Use>, dirs: map<Name, Uid>): State {
    var id := Id(n, s.serial);
    s.(ids := map[n := id], uids := map[id := s.min], fences := fences, runs := runs, dirs := dirs,
        serial := s.serial + 1)
  }

  lemma CreationBegins(s: State, n: Name) returns (p: Trace)
    requires Initial(s)
    ensures ValidFrom(s, p)
    ensures From(s, p) == OneBed(s, n, map[], map[0 := Use(Id(n, s.serial), Some(s.min))], map[n := ROOT])
  {
    hide ValidFrom, From;
    p := TakeNothing(s);
    p := Take(s, p, Register(n));
    p := Take(s, p, Enter(0, n));
    p := Take(s, p, Stage(0));
    p := Take(s, p, Acquire(0, s.min));
  }

  /** A creation fails after its tree was handed to a user, and a second one begins on the same identity. */
  lemma CreationIsRetried(s: State, n: Name) returns (p: Trace)
    requires Initial(s)
    ensures ValidFrom(s, p)
    ensures From(s, p) == OneBed(s, n, map[], map[1 := Use(Id(n, s.serial), None)], map[n := s.min])
  {
    hide ValidFrom, From;
    p := CreationBegins(s, n);
    p := Take(s, p, Chown(0));
    p := Take(s, p, Leave(0));
    assert From(s, p) == OneBed(s, n, map[], map[], map[n := s.min]);
    p := Take(s, p, Enter(1, n));
  }

  /** The eviction of the first one deletes the tree and sees that nothing is left. */
  lemma EvictionSeesNothing(s: State, n: Name) returns (p: Trace)
    requires Initial(s)
    ensures ValidFrom(s, p)
    ensures From(s, p) == OneBed(s, n, map[Id(n, s.serial) := Gone], map[1 := Use(Id(n, s.serial), None)], map[])
  {
    hide ValidFrom, From;
    var id := Id(n, s.serial);
    p := CreationIsRetried(s, n);
    p := Take(s, p, Attempt(id));
    p := Take(s, p, Claim(id));
    p := Take(s, p, RemoveGarbage(id));
    p := Take(s, p, See(id));
  }

  /** The second one stages its own tree, which gets the identity's user. */
  lemma CreationStages(s: State, n: Name) returns (p: Trace)
    requires Initial(s)
    ensures ValidFrom(s, p)
    ensures From(s, p) ==
            OneBed(s, n, map[Id(n, s.serial) := Gone], map[1 := Use(Id(n, s.serial), Some(s.min))], map[n := s.min])
  {
    hide ValidFrom, From;
    p := EvictionSeesNothing(s, n);
    p := Take(s, p, Stage(1));
    p := Take(s, p, Acquire(1, s.min));
    p := Take(s, p, Chown(1));
  }

  /** The eviction forgets the identity under that tree; the second creation cannot publish and ends. */
  lemma IdentityIsForgotten(s: State, n: Name) returns (p: Trace)
    requires Initial(s)
    ensures ValidFrom(s, p) && From(s, p) == s.(dirs := map[n := s.min], serial := s.serial + 1)
  {
    hide ValidFrom, From;
    var id := Id(n, s.serial);
    p := CreationStages(s, n);
    p := Take(s, p, Free(id));
    p := Take(s, p, RemoveRecord(id));
    p := Take(s, p, Deregister(id));
    p := Take(s, p, Leave(1));
  }

  /** Another Bed is given the same user. */
  lemma BedsCanShareAUser(s: State, n: Name, m: Name) returns (p: Trace)
    requires Initial(s) && n != m
    ensures ValidFrom(s, p) && From(s, p).up && Owns(From(s, p), n, s.min) && Owns(From(s, p), m, s.min)
  {
    hide ValidFrom, From;
    p := IdentityIsForgotten(s, n);
    p := Take(s, p, Register(m));
    p := Take(s, p, Enter(2, m));
    p := Take(s, p, Stage(2));
    p := Take(s, p, Acquire(2, s.min));
    p := Take(s, p, Chown(2));
  }

  /** And after the next crash the daemon refuses to start, for every order of recovery. */
  lemma DaemonCanBeStranded(s: State, n: Name, m: Name) returns (p: Trace)
    requires Initial(s) && n != m
    ensures ValidFrom(s, p) && !From(s, p).up
    ensures forall order :: Lists(From(s, p), order) ==> !Enabled(From(s, p), Restart(order))
  {
    hide ValidFrom, From, ReserveAll;
    p := BedsCanShareAUser(s, n, m);
    p := Take(s, p, Crash);
    var down := From(s, p);
    assert Owns(down, n, s.min) && Owns(down, m, s.min);
    forall order | Lists(down, order) ensures !Enabled(down, Restart(order)) {
      StartsExactlyWhenOrderly(s, p, order);
    }
  }
}
