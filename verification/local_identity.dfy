/**
Local identities, their trees on disk and their users, across failed deletions, crashes and restarts.

Creations use a name's tree and cleanup attempts delete it. An attempt first sees both trees gone and only
later gives up the user, so nothing here keeps a creation from staging a tree in between; see `Guarded`.
Each primitive on the disk is one step and may fail by not happening.
*/
module LocalIdentity {
  import opened Common

  type Name = int
  type Uid = int
  type Run = int

  /** One lifetime of a name on this carrier. */
  datatype Id = Id(name: Name, serial: int)

  /** The owner of a tree that has not been handed to a Bed's user. */
  const ROOT: Uid := 0

  /** A cleanup fence: waiting for the next attempt, or where the attempt under way stands. */
  datatype Fence = Waiting | Removing | Gone | Freed | Unrecorded

  /** A creation or a resident Bed, and the user that it has been given. */
  datatype Use = Use(id: Id, user: Option<Uid>)

  datatype State = State(
    min: Uid, max: Uid,
    up: bool,
    ids: map<Name, Id>,          // registered identities
    uids: map<Id, Uid>,          // the allocator's users
    fences: map<Id, Fence>,
    runs: map<Run, Use>,
    dirs: map<Name, Uid>,        // the Bed's own tree, and its owner
    garbage: map<Name, Uid>,     // its tree claimed for deletion, and its owner
    records: map<Name, Id>,      // identity records on disk
    serial: int)

  datatype Step =
    | Register(n: Name)
    | Enter(r: Run, n: Name)
    | SaveRecord(r: Run)
    | Stage(r: Run)              // a fresh or restored tree takes the Bed's place
    | Acquire(r: Run, u: Uid)
    | Chown(r: Run)
    | Leave(r: Run)
    | Attempt(id: Id)
    | Strip(id: Id)              // the user's part of the claimed tree is deleted, the rest is not
    | RemoveGarbage(id: Id)
    | Claim(id: Id)              // the Bed's tree is renamed for deletion
    | Keep(id: Id)               // the attempt ends with the Bed's tree in place
    | See(id: Id)                // both trees are seen to be gone
    | Free(id: Id)
    | RemoveRecord(id: Id)
    | Deregister(id: Id)
    | Fail(id: Id)
    | Crash
    | DropOrphan(n: Name)        // recovery, which may be interrupted
    | RestoreRecord(n: Name)
    | Restart(order: seq<Name>)

  /** One of the name's trees belongs to this user. */
  predicate Owns(s: State, n: Name, u: Uid) {
    s.min <= u <= s.max && (Lookup(s.dirs, n) == Some(u) || Lookup(s.garbage, n) == Some(u))
  }

  predicate HasTree(s: State, n: Name) {
    n in s.dirs || n in s.garbage
  }

  predicate Current(s: State, id: Id) {
    id.name in s.ids && s.ids[id.name] == id
  }

  ghost predicate InUse(s: State, id: Id) {
    exists r :: r in s.runs && s.runs[r].id == id
  }

  ghost predicate Held(s: State, u: Uid) {
    exists id :: id in s.uids && s.uids[id] == u
  }

  // ---------------------------------------------------------------- recovery

  /** The recorded identity of a name with a tree, or a fresh one. */
  function IdFor(s: State, n: Name): Id {
    if n in s.records then s.records[n] else Id(n, s.serial)
  }

  function RecoveredIds(s: State): map<Name, Id> {
    map n | n in s.dirs.Keys + s.garbage.Keys :: IdFor(s, n)
  }

  /** reserveLocked: two owners of one Bed, or two Beds of one owner, are errors. */
  ghost function Reserve(s: State, uids: map<Id, Uid>, id: Id, u: Uid): Option<map<Id, Uid>> {
    if !(s.min <= u <= s.max) then Some(uids)
    else if id in uids then (if uids[id] == u then Some(uids) else None)
    else if exists other :: other in uids && uids[other] == u then None
    else Some(uids[id := u])
  }

  ghost function ReserveTrees(s: State, uids: map<Id, Uid>, n: Name): Option<map<Id, Uid>> {
    var first := if n in s.dirs then Reserve(s, uids, IdFor(s, n), s.dirs[n]) else Some(uids);
    if first.Some? && n in s.garbage then Reserve(s, first.value, IdFor(s, n), s.garbage[n]) else first
  }

  /** Recovery reserves the owners of all trees, in whatever order it meets the names. */
  ghost function ReserveAll(s: State, order: seq<Name>): Option<map<Id, Uid>> {
    if order == [] then Some(map[])
    else
      var before := ReserveAll(s, order[..|order| - 1]);
      if before.None? then None else ReserveTrees(s, before.value, order[|order| - 1])
  }

  /** The order covers exactly the names with a tree. */
  ghost predicate Lists(s: State, order: seq<Name>) {
    forall n :: n in order <==> HasTree(s, n)
  }

  // ---------------------------------------------------------------- the machine

  predicate At(s: State, id: Id, fence: Fence) {
    id in s.fences && s.fences[id] == fence
  }

  ghost predicate Enabled(s: State, t: Step) {
    match t
    case Register(n) => s.up && n !in s.ids
    // a creation is refused while its identity is fenced or in use
    case Enter(r, n) => s.up && r !in s.runs && n in s.ids && s.ids[n] !in s.fences && !InUse(s, s.ids[n])
    case SaveRecord(r) => r in s.runs
    case Stage(r) => r in s.runs
    case Acquire(r, u) =>
      && r in s.runs && s.runs[r].user.None?
      && if s.runs[r].id in s.uids then s.uids[s.runs[r].id] == u else s.min <= u <= s.max && !Held(s, u)
    case Chown(r) => r in s.runs && s.runs[r].user.Some? && s.runs[r].id.name in s.dirs
    case Leave(r) => r in s.runs
    case Attempt(id) => s.up && Current(s, id) && (id in s.fences ==> s.fences[id].Waiting?)
    case Strip(id) => At(s, id, Removing) && id.name in s.garbage
    case RemoveGarbage(id) => At(s, id, Removing)
    case Claim(id) => At(s, id, Removing) && id.name in s.dirs && id.name !in s.garbage
    case Keep(id) => At(s, id, Removing) && id.name in s.dirs && id.name !in s.garbage
    case See(id) => At(s, id, Removing) && !HasTree(s, id.name)
    case Free(id) => At(s, id, Gone)
    case RemoveRecord(id) => At(s, id, Freed)
    case Deregister(id) => At(s, id, Unrecorded)
    case Fail(id) => At(s, id, Removing) || At(s, id, Gone) || At(s, id, Freed)
    case Crash => s.up
    case DropOrphan(n) => !s.up && !HasTree(s, n)
    case RestoreRecord(n) => !s.up && HasTree(s, n)
    case Restart(order) => !s.up && Lists(s, order) && ReserveAll(s, order).Some?
  }

  function NextIds(s: State, t: Step): map<Name, Id> {
    match t
    case Register(n) => s.ids[n := Id(n, s.serial)]
    case Deregister(id) => s.ids - {id.name}
    case Crash => map[]
    case Restart(_) => RecoveredIds(s)
    case _ => s.ids
  }

  ghost function NextUids(s: State, t: Step): map<Id, Uid> {
    match t
    case Acquire(r, u) => if r in s.runs then s.uids[s.runs[r].id := u] else s.uids
    case Free(id) => s.uids - {id}
    case Crash => map[]
    case Restart(order) => if ReserveAll(s, order).Some? then ReserveAll(s, order).value else s.uids
    case _ => s.uids
  }

  function NextFences(s: State, t: Step): map<Id, Fence> {
    match t
    case Attempt(id) => s.fences[id := Removing]
    case Keep(id) => s.fences - {id}
    case See(id) => s.fences[id := Gone]
    case Free(id) => s.fences[id := Freed]
    case RemoveRecord(id) => s.fences[id := Unrecorded]
    case Deregister(id) => s.fences - {id}
    case Fail(id) => s.fences[id := Waiting]
    case Crash => map[]
    // recovery fences every name whose tree is claimed for deletion
    case Restart(_) => map n | n in s.garbage :: IdFor(s, n) := Waiting
    case _ => s.fences
  }

  function NextRuns(s: State, t: Step): map<Run, Use> {
    match t
    case Enter(r, n) => if n in s.ids then s.runs[r := Use(s.ids[n], None)] else s.runs
    case Acquire(r, u) => if r in s.runs then s.runs[r := s.runs[r].(user := Some(u))] else s.runs
    case Leave(r) => s.runs - {r}
    case Crash => map[]
    case _ => s.runs
  }

  function NextDirs(s: State, t: Step): map<Name, Uid> {
    match t
    case Stage(r) => if r in s.runs then s.dirs[s.runs[r].id.name := ROOT] else s.dirs
    case Chown(r) => if r in s.runs && s.runs[r].user.Some? then s.dirs[s.runs[r].id.name := s.runs[r].user.value]
        else s.dirs
    case Claim(id) => s.dirs - {id.name}
    case _ => s.dirs
  }

  function NextGarbage(s: State, t: Step): map<Name, Uid> {
    match t
    case Strip(id) => s.garbage[id.name := ROOT]
    case RemoveGarbage(id) => s.garbage - {id.name}
    case Claim(id) => if id.name in s.dirs then s.garbage[id.name := s.dirs[id.name]] else s.garbage
    case _ => s.garbage
  }

  function NextRecords(s: State, t: Step): map<Name, Id> {
    match t
    case SaveRecord(r) => if r in s.runs then s.records[s.runs[r].id.name := s.runs[r].id] else s.records
    case RemoveRecord(id) => s.records - {id.name}
    case DropOrphan(n) => s.records - {n}
    case RestoreRecord(n) => s.records[n := IdFor(s, n)]
    case Restart(_) => RecoveredIds(s)
    case _ => s.records
  }

  ghost function Apply(s: State, t: Step): State {
    s.(up := if t.Crash? then false else if t.Restart? then true else s.up,
       ids := NextIds(s, t), uids := NextUids(s, t), fences := NextFences(s, t), runs := NextRuns(s, t),
       dirs := NextDirs(s, t), garbage := NextGarbage(s, t), records := NextRecords(s, t),
       serial := if t.Register? || t.RestoreRecord? || t.Restart? then s.serial + 1 else s.serial)
  }

  /** The first start on an empty carrier. */
  predicate Initial(s: State) {
    && ROOT < s.min <= s.max && s.up
    && s.ids == map[] && s.uids == map[] && s.fences == map[] && s.runs == map[]
    && s.dirs == map[] && s.garbage == map[] && s.records == map[]
  }

  /** A run: the steps taken from some state. */
  datatype Trace = Start | Then(before: Trace, t: Step)

  ghost function From(s: State, tr: Trace): State {
    match tr
    case Start => s
    case Then(before, t) => Apply(From(s, before), t)
  }

  ghost predicate ValidFrom(s: State, tr: Trace) {
    match tr
    case Start => true
    case Then(before, t) => ValidFrom(s, before) && Enabled(From(s, before), t)
  }

  // ---------------------------------------------------------------- the missing guard

  /**
  An attempt starts only on an identity that nobody uses. The manager's fences provide this exactly as far
  as `LifecycleSafety.AttemptsFindNoUse` goes: in runs where no rollback drops a retirement under an eviction.
  */
  ghost predicate Guarded(s: State, t: Step) {
    t.Attempt? ==> !InUse(s, t.id)
  }

  ghost predicate GuardedFrom(s: State, tr: Trace) {
    match tr
    case Start => true
    case Then(before, t) => GuardedFrom(s, before) && Enabled(From(s, before), t) && Guarded(From(s, before), t)
  }
}
