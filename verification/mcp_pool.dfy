/**
The pool of remote connections: concurrent calls, an idle reaper and Close.

A step is one section under the pool's lock, or one action of the goroutine that holds a connection's
gate. Closing a connection takes its gate, closes the client if there is one and gives the gate back;
nothing can come between, so it is one step that needs the gate to be free.
*/
module McpPool {
  import opened Common

  type Key = int
  type Conn = int
  type CallId = int
  type Time = int

  datatype Entry = Entry(refs: int, used: Time, open: bool, gate: Option<CallId>)

  /** Where one call stands with its connection. */
  datatype Call =
    | Evicting(e: Conn, victim: Conn) // has its connection; must close the one it displaced
    | Waiting(e: Conn)                // for the gate
    | Gated(e: Conn)
    | Leaving(e: Conn)                // gate given back or never taken; reference still held
    | Closing(e: Conn)                // reference given back to a closed pool
    | Returned

  datatype Reaper = Resting | Sweeping(stale: set<Conn>) | Stopped
  datatype Closer = Open | Canceled | Draining(rest: set<Conn>) | Shut

  datatype State = State(
    max: int,
    idle: int,
    pool: map<Key, Conn>,
    entries: map<Conn, Entry>,
    calls: map<CallId, Call>,
    reaper: Reaper,
    closer: Closer)

  datatype Step =
    | Acquire(c: CallId, k: Key, e: Conn, now: Time, oldest: Option<Key>)
    | CloseVictim(c: CallId)
    | TakeGate(c: CallId)
    | GiveUp(c: CallId)
    | Connect(c: CallId)          // the client is opened
    | Drop(c: CallId)             // a failed operation closes it
    | LeaveGate(c: CallId)
    | Release(c: CallId, now: Time)
    | CloseOwn(c: CallId)
    | Sweep(now: Time)
    | CloseStale(e: Conn)
    | StopReaper
    | Cancel
    | Drain
    | CloseDrained(e: Conn)
    | FinishClose

  /** The pool's context is canceled. */
  predicate Closed(s: State) {
    !s.closer.Open?
  }

  predicate InPool(s: State, e: Conn) {
    exists k :: k in s.pool && s.pool[k] == e
  }

  /** The call counts in its connection's references. */
  predicate Refers(call: Call, e: Conn) {
    !call.Returned? && !call.Closing? && call.e == e
  }

  predicate GateFree(s: State, e: Conn) {
    e in s.entries && s.entries[e].gate.None?
  }

  /** The victim is an unreferenced connection, the least recently used of them. */
  predicate IsOldest(s: State, k: Key) {
    && k in s.pool && s.pool[k] in s.entries && s.entries[s.pool[k]].refs == 0
    && (forall x :: x in s.pool && s.pool[x] in s.entries && s.entries[s.pool[x]].refs == 0 ==>
                      s.entries[s.pool[k]].used <= s.entries[s.pool[x]].used)
  }

  predicate IsStale(s: State, k: Key, now: Time) {
    k in s.pool && s.pool[k] in s.entries && s.entries[s.pool[k]].refs == 0 && now - s.entries[s.pool[k]].used >= s.idle
  }

  function StaleKeys(s: State, now: Time): set<Key> {
    set k | k in s.pool && IsStale(s, k, now)
  }

  function Conns(pool: map<Key, Conn>, keys: set<Key>): set<Conn> {
    set k | k in keys && k in pool :: pool[k]
  }

  predicate Enabled(s: State, t: Step) {
    match t
    case Acquire(c, k, e, _, oldest) =>
      && c !in s.calls && !Closed(s)
      && if k in s.pool then e == s.pool[k] && oldest.None?
         else
           && e !in s.entries
           && (if |s.pool| >= s.max then oldest.Some? && IsOldest(s, oldest.value) else oldest.None?)
    case CloseVictim(c) => c in s.calls && s.calls[c].Evicting? && GateFree(s, s.calls[c].victim)
    case TakeGate(c) => c in s.calls && s.calls[c].Waiting? && GateFree(s, s.calls[c].e)
    case GiveUp(c) => c in s.calls && s.calls[c].Waiting?
    case Connect(c) => c in s.calls && s.calls[c].Gated? && s.calls[c].e in s.entries && !s.entries[s.calls[c].e].open
    case Drop(c) => c in s.calls && s.calls[c].Gated? && s.calls[c].e in s.entries && s.entries[s.calls[c].e].open
    case LeaveGate(c) => c in s.calls && s.calls[c].Gated? && s.calls[c].e in s.entries
    case Release(c, _) => c in s.calls && s.calls[c].Leaving? && s.calls[c].e in s.entries
    case CloseOwn(c) => c in s.calls && s.calls[c].Closing? && GateFree(s, s.calls[c].e)
    case Sweep(_) => s.reaper.Resting?
    case CloseStale(e) => s.reaper.Sweeping? && e in s.reaper.stale && GateFree(s, e)
    case StopReaper => s.reaper.Resting? && Closed(s)
    case Cancel => s.closer.Open?
    case Drain => s.closer.Canceled? && s.reaper.Stopped?
    case CloseDrained(e) => s.closer.Draining? && e in s.closer.rest && GateFree(s, e)
    case FinishClose => s.closer == Draining({})
  }

  function NextPool(s: State, t: Step): map<Key, Conn> {
    match t
    case Acquire(_, k, e, _, oldest) => (if oldest.Some? then s.pool - {oldest.value} else s.pool)[k := e]
    case Sweep(now) => s.pool - StaleKeys(s, now)
    case Drain => map[]
    case _ => s.pool
  }

  /** A connection's record after the step, for a connection the step touches. */
  function NextEntry(s: State, t: Step, en: Entry): Entry {
    match t
    case Acquire(_, _, _, _, _) => en.(refs := en.refs + 1)
    case TakeGate(c) => en.(gate := Some(c))
    case Connect(_) => en.(open := true)
    case LeaveGate(_) => en.(gate := None)
    case Release(_, now) => en.(refs := en.refs - 1, used := now)
    case _ => en.(open := false)
  }

  /** The connection a step touches. */
  function Touched(s: State, t: Step): Option<Conn> {
    match t
    case Acquire(_, _, e, _, _) => Some(e)
    case CloseVictim(c) => if c in s.calls && s.calls[c].Evicting? then Some(s.calls[c].victim) else None
    case TakeGate(c) => if c in s.calls && !s.calls[c].Returned? then Some(s.calls[c].e) else None
    case Connect(c) => if c in s.calls && !s.calls[c].Returned? then Some(s.calls[c].e) else None
    case Drop(c) => if c in s.calls && !s.calls[c].Returned? then Some(s.calls[c].e) else None
    case LeaveGate(c) => if c in s.calls && !s.calls[c].Returned? then Some(s.calls[c].e) else None
    case Release(c, _) => if c in s.calls && !s.calls[c].Returned? then Some(s.calls[c].e) else None
    case CloseOwn(c) => if c in s.calls && !s.calls[c].Returned? then Some(s.calls[c].e) else None
    case CloseStale(e) => Some(e)
    case CloseDrained(e) => Some(e)
    case _ => None
  }

  function NextEntries(s: State, t: Step): map<Conn, Entry> {
    var e := Touched(s, t);
    if e.None? then s.entries
    else if e.value in s.entries then s.entries[e.value := NextEntry(s, t, s.entries[e.value])]
    else if t.Acquire? then s.entries[e.value := Entry(1, t.now, false, None)]
    else s.entries
  }

  function NextCalls(s: State, t: Step): map<CallId, Call> {
    match t
    case Acquire(c, k, e, _, oldest) =>
      s.calls[c := if oldest.Some? && oldest.value in s.pool then Evicting(e, s.pool[oldest.value]) else Waiting(e)]
    case CloseVictim(c) => if c in s.calls && s.calls[c].Evicting? then s.calls[c := Waiting(s.calls[c].e)] else s.calls
    case TakeGate(c) => if c in s.calls && s.calls[c].Waiting? then s.calls[c := Gated(s.calls[c].e)] else s.calls
    case GiveUp(c) => if c in s.calls && s.calls[c].Waiting? then s.calls[c := Leaving(s.calls[c].e)] else s.calls
    case LeaveGate(c) => if c in s.calls && s.calls[c].Gated? then s.calls[c := Leaving(s.calls[c].e)] else s.calls
    case Release(c, _) =>
      if c in s.calls && s.calls[c].Leaving? then s.calls[c := if Closed(s) then Closing(s.calls[c].e) else Returned]
          else s.calls
    case CloseOwn(c) => s.calls[c := Returned]
    case _ => s.calls
  }

  function NextReaper(s: State, t: Step): Reaper {
    match t
    case Sweep(now) => if StaleKeys(s, now) == {} then Resting else Sweeping(Conns(s.pool, StaleKeys(s, now)))
    case CloseStale(e) =>
      if s.reaper.Sweeping? then (if s.reaper.stale == {e} then Resting else Sweeping(s.reaper.stale - {e}))
          else s.reaper
    case StopReaper => Stopped
    case _ => s.reaper
  }

  function NextCloser(s: State, t: Step): Closer {
    match t
    case Cancel => Canceled
    case Drain => Draining(Conns(s.pool, s.pool.Keys))
    case CloseDrained(e) => if s.closer.Draining? then Draining(s.closer.rest - {e}) else s.closer
    case FinishClose => Shut
    case _ => s.closer
  }

  function Apply(s: State, t: Step): State {
    s.(pool := NextPool(s, t), entries := NextEntries(s, t), calls := NextCalls(s, t),
       reaper := NextReaper(s, t), closer := NextCloser(s, t))
  }

  predicate Initial(s: State) {
    s.max > 0 && s.pool == map[] && s.entries == map[] && s.calls == map[] && s.reaper.Resting? && s.closer.Open?
  }

  datatype Trace = Start(s: State) | Then(before: Trace, t: Step, s: State)

  predicate Valid(tr: Trace) {
    match tr
    case Start(s) => Initial(s)
    case Then(before, t, s) => Valid(before) && Enabled(before.s, t) && s == Apply(before.s, t)
  }
}
