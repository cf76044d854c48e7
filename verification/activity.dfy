/**
Activity, persistence watermarks and eviction of resident Beds, and the two counters the manager
keeps beside them.

A step is one section under the manager's lock and the Bed's lock. A Bed's record carries, besides
the manager's own fields, where the persist that holds the persist lock and the eviction that holds
the cleanup semaphore stand: their local variables live from one section to the next.
*/
module Activity {
  import opened Common

  type Name = int
  type Alloc = int
  type Time = int // nanoseconds since the zero time, which is 0

  datatype Kind = Exec | File | Browser | Mcp | Checkpoint | Control | PillowHold
  datatype Phase = Resident | Evicting | Dormant

  datatype Persister = ForEviction | ForOther

  /** The holder of the persist lock: past the purging test, or with its watermark captured. */
  datatype Persist = NoPersist | Entered(who: Persister) | Captured(who: Persister, watermark: Time)

  /** The eviction holding the cleanup semaphore, with the activity sequence read at its fence. */
  datatype Eviction = NoEviction | Fenced(sequence: int) | Synced(sequence: int) | Resuming

  datatype Bed = Bed(
    name: Name,
    noop: bool,             // no synchronization: never dirty
    mains: bool,            // declares main processes
    ttl: int,
    lastActive: Time,
    persisted: Time,
    inflight: int,
    byKind: map<Kind, int>,
    holds: multiset<Kind>,  // finish closures handed out and not yet run
    sequence: int,           // changes whenever activity starts or finishes
    purging: bool,
    phase: Phase,
    keepalive: Time,
    persist: Persist,
    eviction: Eviction)

  const SECOND: int := 1_000_000_000
  const DEFAULT_TIMEOUT: int := 300 * SECOND
  const MAX_TIMEOUT: int := 7200 * SECOND
  const YEAR_10000: Time := 3_652_059 * 86_400 * SECOND

  predicate DataSynced(b: Bed) {
    b.noop || b.lastActive <= b.persisted
  }

  predicate Pinned(b: Bed) {
    b.inflight > 0 || !DataSynced(b)
  }

  /** What adjustPinnedLocked adds to the counter. */
  function Delta(before: Bed, after: Bed): int {
    if !Pinned(before) && Pinned(after) then 1
    else if Pinned(before) && !Pinned(after) then -1
    else 0
  }

  function Later(x: Time, y: Time): Time {
    if x < y then y else x
  }

  /** retentionDeadline; zero means that automatic expiration is disabled. */
  function Deadline(base: Time, ttl: int): Time {
    if ttl <= 0 || base == 0 then 0 else base + ttl
  }

  function RetainUntil(b: Bed): Time {
    Deadline(b.keepalive, b.ttl)
  }

  /** An operation's timeout as admitted: five minutes unless asked for, and never more than two hours. */
  function Clamp(timeout: int): (r: int)
    ensures 0 < r <= 7200 * SECOND
    ensures 0 < timeout <= 7200 * SECOND ==> r == timeout
    ensures timeout <= 0 ==> r == 300 * SECOND
    ensures timeout > 7200 * SECOND ==> r == 7200 * SECOND
  {
    if timeout <= 0 then DEFAULT_TIMEOUT else if timeout > MAX_TIMEOUT then MAX_TIMEOUT else timeout
  }

  // ---------------------------------------------------------------- sections on one Bed

  datatype BedStep =
    | Begin(kind: Kind, now: Time, timeout: int, ready: bool, admitted: bool)
    | Finish(kind: Kind, now: Time)
    | Touch(now: Time)
    | Open(now: Time, ready: bool, admitted: bool)
    | PersistEnter(who: Persister)
    | PersistCapture
    | PersistFail
    | PersistCommit
    | Fence(cutoff: Option<Time>)
    | GiveUp
    | Resume
    | Renew(now: Time, expires: Option<Time>)
    | PhaseChange(phase: Phase)

  /** Admission of an operation, given that the Bed is resident and the daemon open. */
  predicate MayBegin(b: Bed, kind: Kind, ready: bool, admitted: bool) {
    && b.phase == Resident
    && (b.mains && !ready ==> kind == Control)
    && (!Pinned(b) ==> admitted)
  }

  /** Admission of a session looks at the phase only when the Bed has main processes. */
  predicate MayOpen(b: Bed, ready: bool, admitted: bool) {
    && (b.mains ==> b.phase == Resident && ready)
    && (!Pinned(b) ==> admitted)
  }

  predicate MayRenew(b: Bed, now: Time, expires: Option<Time>) {
    && !b.purging && b.phase == Resident
    && (expires.Some? ==> now < expires.value < YEAR_10000)
  }

  /** An explicit eviction has no cutoff; idle collection has one and respects the deadline. */
  predicate MayFence(b: Bed, cutoff: Option<Time>) {
    && !b.purging && b.phase == Resident && b.inflight <= 0
    && (cutoff.Some? ==> RetainUntil(b) != 0 && RetainUntil(b) <= cutoff.value)
  }

  /** `here` says that the Bed is the resident Bed of its name. */
  predicate BedEnabled(b: Bed, here: bool, closed: bool, t: BedStep) {
    match t
    case Begin(kind, _, _, ready, admitted) => here && !closed && MayBegin(b, kind, ready, admitted)
    case Finish(kind, _) => kind in b.holds
    case Touch(_) => here
    case Open(_, ready, admitted) => here && !closed && MayOpen(b, ready, admitted)
    case PersistEnter(who) => b.persist.NoPersist? && !b.purging && (who == ForEviction ==> b.eviction.Fenced?)
    case PersistCapture => b.persist.Entered?
    case PersistFail => !b.persist.NoPersist?
    case PersistCommit => b.persist.Captured?
    case Fence(cutoff) => here && !closed && b.eviction.NoEviction? && MayFence(b, cutoff)
    case GiveUp =>
      && (b.eviction.Fenced? || b.eviction.Synced?)
      && (b.persist.NoPersist? || b.persist.who == ForOther)
    case Resume => b.eviction.Resuming?
    case Renew(now, expires) => here && !closed && MayRenew(b, now, expires)
    case PhaseChange(phase) => phase != Resident
  }

  /** The base a renewal asks for: now, or the requested expiration less one idle TTL. */
  function RenewBase(b: Bed, now: Time, expires: Option<Time>): Time {
    if expires.Some? && b.ttl > 0 then expires.value - b.ttl else now
  }

  /** The instant a step records as a base of the retention clock, if it records one. */
  function Base(b: Bed, t: BedStep): Option<Time> {
    match t
    case Begin(_, now, timeout, _, _) => Some(now + Clamp(timeout))
    case Finish(_, now) => Some(now)
    case Touch(now) => Some(now)
    case Open(now, _, _) => Some(now)
    case Renew(now, expires) => Some(RenewBase(b, now, expires))
    case _ => None
  }

  function DropKind(byKind: map<Kind, int>, kind: Kind): map<Kind, int> {
    if kind in byKind && byKind[kind] > 1 then byKind[kind := byKind[kind] - 1] else byKind - {kind}
  }

  /** The step records new activity at this instant. */
  function Activates(t: BedStep): Option<Time> {
    match t
    case Begin(_, now, _, _, _) => Some(now)
    case Finish(kind, now) => if kind == Checkpoint then None else Some(now)
    case Touch(now) => Some(now)
    case Open(now, _, _) => Some(now)
    case _ => None
  }

  function NextPersist(b: Bed, t: BedStep): Persist {
    match t
    case PersistEnter(who) => Entered(who)
    case PersistCapture => if b.persist.Entered? then Captured(b.persist.who, b.lastActive) else b.persist
    case PersistFail => NoPersist
    case PersistCommit => NoPersist
    case _ => b.persist
  }

  /** Giving up checks whether to resume in one section and resumes in a later one. */
  function NextEviction(b: Bed, here: bool, closed: bool, t: BedStep): Eviction {
    match t
    case Fence(_) => Fenced(b.sequence)
    case PersistCommit =>
      if b.persist.Captured? && b.persist.who == ForEviction
          && b.eviction.Fenced? then Synced(b.eviction.sequence) else b.eviction
    case GiveUp => if here && !closed then Resuming else NoEviction
    case Resume => NoEviction
    case _ => b.eviction
  }

  function NextPhase(b: Bed, t: BedStep): Phase {
    match t
    case Fence(_) => Evicting
    case Resume => Resident
    case PhaseChange(phase) => phase
    case _ => b.phase
  }

  function ApplyBed(b: Bed, here: bool, closed: bool, t: BedStep): Bed {
    b.(lastActive := if Activates(t).Some? then Activates(t).value else b.lastActive,
       sequence := if Activates(t).Some? then b.sequence + 1 else b.sequence,
       inflight := if t.Begin? then b.inflight + 1 else if t.Finish?
           && b.inflight > 0 then b.inflight - 1 else b.inflight,
       byKind := if t.Begin? then b.byKind[t.kind := (if t.kind in b.byKind then b.byKind[t.kind] else 0) + 1]
                 else if t.Finish? then DropKind(b.byKind, t.kind) else b.byKind,
       holds := if t.Begin? then b.holds + multiset{t.kind}
                else if t.Finish? then b.holds - multiset{t.kind} else b.holds,
       keepalive := if Base(b, t).Some? then Later(b.keepalive, Base(b, t).value) else b.keepalive,
       persisted := if t.PersistCommit? && b.persist.Captured? then b.persist.watermark else b.persisted,
       persist := NextPersist(b, t),
       eviction := NextEviction(b, here, closed, t),
       phase := NextPhase(b, t))
  }

  // ---------------------------------------------------------------- the manager

  datatype State = State(
    closed: bool,
    beds: map<Name, Alloc>,
    allocs: map<Alloc, Bed>,
    residentBeds: int,
    pinnedBeds: int)

  predicate Here(s: State, a: Alloc)
    requires a in s.allocs
  {
    s.allocs[a].name in s.beds && s.beds[s.allocs[a].name] == a
  }

  datatype Step =
    | Publish(a: Alloc, bed: Bed)
    | On(a: Alloc, step: BedStep)
    | EvictCommit(a: Alloc)
    | PurgeClaim(n: Name)
    | CloseDaemon

  /** A Bed as initialization hands it over; its watermarks come from local metadata. */
  predicate Published(b: Bed) {
    && b.inflight == 0 && b.byKind == map[] && b.holds == multiset{}
    && !b.purging && b.phase == Resident && b.keepalive > 0
    && b.persist == NoPersist && b.eviction == NoEviction
  }

  /** The commit's own test; the eviction has persisted the Bed before it. */
  predicate MayCommit(s: State, a: Alloc) {
    && a in s.allocs && s.allocs[a].eviction.Synced?
    && !s.closed && Here(s, a) && s.allocs[a].inflight <= 0 && s.allocs[a].sequence == s.allocs[a].eviction.sequence
  }

  predicate Enabled(s: State, t: Step) {
    match t
    case Publish(a, bed) => !s.closed && a !in s.allocs && bed.name !in s.beds && Published(bed)
    case On(a, step) => a in s.allocs && BedEnabled(s.allocs[a], Here(s, a), s.closed, step)
    case EvictCommit(a) => MayCommit(s, a)
    case PurgeClaim(n) => n in s.beds && s.beds[n] in s.allocs
    case CloseDaemon => true
  }

  /** A section on one Bed; the counter moves only if the Bed is resident. */
  function ApplyOn(s: State, a: Alloc, t: BedStep): State
    requires a in s.allocs
  {
    var b' := ApplyBed(s.allocs[a], Here(s, a), s.closed, t);
    s.(allocs := s.allocs[a := b'],
       pinnedBeds := s.pinnedBeds + if Here(s, a) then Delta(s.allocs[a], b') else 0)
  }

  function ApplyPublish(s: State, a: Alloc, bed: Bed): State {
    s.(beds := s.beds[bed.name := a], allocs := s.allocs[a := bed],
       residentBeds := s.residentBeds + 1,
       pinnedBeds := s.pinnedBeds + if Pinned(bed) then 1 else 0)
  }

  /** The commit moves the Bed out of the residents and leaves `pinnedBeds` alone. */
  function ApplyCommit(s: State, a: Alloc): State
    requires a in s.allocs
  {
    s.(beds := s.beds - {s.allocs[a].name}, residentBeds := s.residentBeds - 1,
       allocs := s.allocs[a := s.allocs[a].(eviction := NoEviction)])
  }

  function ApplyClaim(s: State, n: Name): State
    requires n in s.beds && s.beds[n] in s.allocs
  {
    var a := s.beds[n];
    s.(beds := s.beds - {n}, residentBeds := s.residentBeds - 1,
       allocs := s.allocs[a := s.allocs[a].(purging := true)],
       pinnedBeds := s.pinnedBeds - if Pinned(s.allocs[a]) then 1 else 0)
  }

  function Apply(s: State, t: Step): State
    requires Enabled(s, t)
  {
    match t
    case Publish(a, bed) => ApplyPublish(s, a, bed)
    case On(a, step) => ApplyOn(s, a, step)
    case EvictCommit(a) => ApplyCommit(s, a)
    case PurgeClaim(n) => ApplyClaim(s, n)
    case CloseDaemon => s.(closed := true)
  }

  function Empty(): State {
    State(false, map[], map[], 0, 0)
  }

  predicate Next(s: State, t: Step, s': State) {
    Enabled(s, t) && s' == Apply(s, t)
  }

  /** A run of the manager and the state it has reached. */
  datatype Trace = Start(s: State) | Then(before: Trace, t: Step, s: State)

  predicate Valid(tr: Trace) {
    match tr
    case Start(s) => s == Empty()
    case Then(before, t, s) => Valid(before) && Next(before.s, t, s)
  }
}
