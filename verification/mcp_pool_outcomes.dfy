/**
What a run's history says of the pool, and that the pool can always be brought to its end: from every
reachable state each call can return and Close can finish, with no client left open.
*/
module McpPoolOutcomes {
  import opened Common
  import opened McpPool
  import opened McpPoolSafety

  // ---------------------------------------------------------------- the pool from its history

  /** The call of the last step, if it has one, works on this connection. */
  predicate CallOn(tr: Trace, c: CallId, e: Conn) {
    tr.Then? && c in tr.before.s.calls && !tr.before.s.calls[c].Returned? && tr.before.s.calls[c].e == e
  }

  /** The last step has closed the connection's client. */
  predicate Closes(tr: Trace, e: Conn) {
    tr.Then? &&
    match tr.t
    case Drop(c) => CallOn(tr, c, e)
    case CloseOwn(c) => CallOn(tr, c, e)
    case CloseVictim(c) => c in tr.before.s.calls && tr.before.s.calls[c].Evicting? && tr.before.s.calls[c].victim == e
    case CloseStale(x) => x == e
    case CloseDrained(x) => x == e
    case _ => false
  }

  /** A client is open from its connection until somebody closes it. */
  predicate Opened(tr: Trace, e: Conn) {
    tr.Then? && if tr.t.Connect? && CallOn(tr, tr.t.c, e) then true else !Closes(tr, e) && Opened(tr.before, e)
  }

  /** When the connection was last given back, or else made. */
  function UsedAt(tr: Trace, e: Conn): Time {
    if tr.Start? then 0
    else if tr.t.Acquire? && tr.t.e == e && e !in tr.before.s.entries then tr.t.now
    else if tr.t.Release? && CallOn(tr, tr.t.c, e) then tr.t.now
    else UsedAt(tr.before, e)
  }

  /** No call holds the connection, and it was given back a full idle timeout ago. */
  ghost predicate Idle(tr: Trace, e: Conn, now: Time) {
    Holders(tr.s, e) == {} && now >= UsedAt(tr, e) + tr.s.idle
  }

  /** A key has its connection until it is displaced, found idle by the reaper, or drained. */
  ghost function PooledAs(tr: Trace, k: Key): Option<Conn> {
    if tr.Start? then None
    else
      var was := PooledAs(tr.before, k);
      match tr.t
      case Acquire(_, key, e, _, oldest) => if key == k then Some(e) else if oldest == Some(k) then None else was
      case Sweep(now) => if was.Some? && Idle(tr.before, was.value, now) then None else was
      case Drain => None
      case _ => was
  }

  ghost predicate EntryFollows(tr: Trace, e: Conn) {
    e in tr.s.entries ==> tr.s.entries[e].open == Opened(tr, e) && tr.s.entries[e].used == UsedAt(tr, e)
  }

  lemma EntryFollowsStep(tr: Trace, e: Conn)
    requires Valid(tr) && tr.Then? && EntryFollows(tr.before, e)
    requires e !in tr.before.s.entries ==> !Opened(tr.before, e)
    ensures EntryFollows(tr, e)
  {
    hide Inv, NextPool, NextCalls, NextReaper, NextCloser, IsOldest;
  }

  lemma {:induction false} UnknownIsUnopened(tr: Trace, e: Conn)
    requires Valid(tr) && e !in tr.s.entries
    ensures !Opened(tr, e)
  {
    if tr.Then? {
      UnknownIsUnopened(tr.before, e);
      ReachableInv(tr.before);
      if tr.t.Connect? { assert CallOk(tr.before.s, tr.t.c); }
    }
  }

  lemma StaleIsIdle(tr: Trace, k: Key, now: Time)
    requires Valid(tr) && k in tr.s.pool && tr.s.pool[k] in tr.s.entries && EntryFollows(tr, tr.s.pool[k])
    ensures IsStale(tr.s, k, now) <==> Idle(tr, tr.s.pool[k], now)
  {
    hide Apply, Enabled;
    RefsAreCalls(tr, tr.s.pool[k]);
  }

  lemma PoolFollowsStep(tr: Trace, k: Key)
    requires Valid(tr) && tr.Then? && Lookup(tr.before.s.pool, k) == PooledAs(tr.before, k)
    requires k in tr.before.s.pool && tr.t.Sweep? ==>
               (IsStale(tr.before.s, k, tr.t.now) <==> Idle(tr.before, tr.before.s.pool[k], tr.t.now))
    ensures Lookup(tr.s.pool, k) == PooledAs(tr, k)
  {
    hide Idle, IsStale, NextEntries, NextCalls, NextReaper, NextCloser;
  }

  /** In every run the pool's keys, and each connection's client and last use, are what the history says. */
  lemma {:induction false} PoolFollowsHistory(tr: Trace, k: Key, e: Conn)
    requires Valid(tr)
    ensures Lookup(tr.s.pool, k) == PooledAs(tr, k)
    ensures e in tr.s.entries ==> tr.s.entries[e].open == Opened(tr, e) && tr.s.entries[e].used == UsedAt(tr, e)
  {
    hide Apply, Enabled, Opened, UsedAt, PooledAs;
    match tr
    case Start(_) => StartsEmpty(tr, k, e);
    case Then(before, t, s) =>
      PoolFollowsHistory(before, k, e);
      ReachableInv(before);
      if e !in before.s.entries { UnknownIsUnopened(before, e); }
      EntryFollowsStep(tr, e);
      if k in before.s.pool && t.Sweep? {
        PoolFollowsHistory(before, k, before.s.pool[k]);
        StaleIsIdle(before, k, t.now);
      }
      PoolFollowsStep(tr, k);
  }

  lemma StartsEmpty(tr: Trace, k: Key, e: Conn)
    requires Valid(tr) && tr.Start?
    ensures Lookup(tr.s.pool, k) == PooledAs(tr, k) && e !in tr.s.entries
  {
  }

  // ---------------------------------------------------------------- every call can return

  lemma Follow(tr: Trace, t: Step) returns (tr': Trace)
    requires Valid(tr) && Enabled(tr.s, t)
    ensures Valid(tr') && tr'.s == Apply(tr.s, t)
  {
    tr' := Then(tr, t, Apply(tr.s, t));
  }

  function Unreturned(s: State): set<CallId> {
    set c | c in s.calls && !s.calls[c].Returned?
  }

  /** Whoever holds the gate can give it back; nobody else is moved. */
  lemma FreeGate(tr: Trace, e: Conn) returns (tr': Trace)
    requires Valid(tr) && e in tr.s.entries
    ensures Valid(tr') && GateFree(tr'.s, e) && tr'.s.reaper == tr.s.reaper && tr'.s.closer == tr.s.closer
    ensures tr'.s.calls.Keys == tr.s.calls.Keys && tr'.s.entries.Keys == tr.s.entries.Keys
    ensures Unreturned(tr'.s) == Unreturned(tr.s)
    ensures forall c :: c in tr.s.calls ==>
              tr'.s.calls[c] == if tr.s.calls[c] == Gated(e) then Leaving(e) else tr.s.calls[c]
  {
    ReachableInv(tr);
    assert EntryOk(tr.s, e);
    forall c | c in tr.s.calls && tr.s.calls[c] == Gated(e) ensures tr.s.entries[e].gate == Some(c) {
      assert CallOk(tr.s, c);
    }
    tr' := tr;
    if tr.s.entries[e].gate.Some? { tr' := Follow(tr, LeaveGate(tr.s.entries[e].gate.value)); }
  }

  /** The call gets past its victim and its gate to where only its reference is left. */
  lemma CallLeaves(tr: Trace, c: CallId) returns (tr': Trace)
    requires Valid(tr) && c in tr.s.calls && (tr.s.calls[c].Evicting? || tr.s.calls[c].Waiting? || tr.s.calls[c].Gated?)
    ensures Valid(tr') && c in tr'.s.calls && tr'.s.calls[c].Leaving? && Unreturned(tr'.s) == Unreturned(tr.s)
    ensures tr'.s.reaper == tr.s.reaper && tr'.s.closer == tr.s.closer
  {
    hide Valid;
    ReachableInv(tr);
    assert CallOk(tr.s, c);
    tr' := tr;
    if tr.s.calls[c].Evicting? {
      tr' := FreeGate(tr', tr.s.calls[c].victim);
      tr' := Follow(tr', CloseVictim(c));
    }
    if tr'.s.calls[c].Waiting? {
      tr' := Follow(tr', GiveUp(c));
    } else {
      tr' := FreeGate(tr', tr.s.calls[c].e);
    }
  }

  /** From every reachable state every call can return. */
  lemma CallsCanReturn(tr: Trace, c: CallId) returns (tr': Trace)
    requires Valid(tr) && c in tr.s.calls && !tr.s.calls[c].Returned?
    ensures Valid(tr') && c in tr'.s.calls && tr'.s.calls[c].Returned? && Unreturned(tr'.s) == Unreturned(tr.s) - {c}
    ensures tr'.s.reaper == tr.s.reaper && tr'.s.closer == tr.s.closer
  {
    hide Valid;
    tr' := tr;
    if tr.s.calls[c].Evicting? || tr.s.calls[c].Waiting? || tr.s.calls[c].Gated? { tr' := CallLeaves(tr', c); }
    ReachableInv(tr');
    assert CallOk(tr'.s, c);
    if tr'.s.calls[c].Leaving? { tr' := Follow(tr', Release(c, 0)); }
    if tr'.s.calls[c].Closing? { tr' := CloseOwnConnection(tr', c); }
  }

  lemma CloseOwnConnection(tr: Trace, c: CallId) returns (tr': Trace)
    requires Valid(tr) && c in tr.s.calls && tr.s.calls[c].Closing?
    ensures Valid(tr') && c in tr'.s.calls && tr'.s.calls[c].Returned? && Unreturned(tr'.s) == Unreturned(tr.s) - {c}
    ensures tr'.s.reaper == tr.s.reaper && tr'.s.closer == tr.s.closer
  {
    hide Valid;
    ReachableInv(tr);
    assert CallOk(tr.s, c);
    tr' := FreeGate(tr, tr.s.calls[c].e);
    tr' := Follow(tr', CloseOwn(c));
  }

  lemma {:induction false} AllCallsReturn(tr: Trace) returns (tr': Trace)
    requires Valid(tr)
    ensures Valid(tr') && Unreturned(tr'.s) == {} && tr'.s.reaper == tr.s.reaper && tr'.s.closer == tr.s.closer
    decreases |Unreturned(tr.s)|
  {
    hide Valid;
    tr' := tr;
    if Unreturned(tr.s) != {} {
      var c := SomeMember(Unreturned(tr.s));
      tr' := CallsCanReturn(tr, c);
      tr' := AllCallsReturn(tr');
    }
  }

  // ---------------------------------------------------------------- Close can finish

  /** No call is under way, so every gate is free. */
  lemma GatesAreFree(tr: Trace, e: Conn)
    requires Valid(tr) && Unreturned(tr.s) == {} && e in tr.s.entries
    ensures GateFree(tr.s, e)
  {
    hide Valid;
    ReachableInv(tr);
    assert EntryOk(tr.s, e);
    if tr.s.entries[e].gate.Some? { HolderIsUnreturned(tr.s, e); }
  }

  lemma HolderIsUnreturned(s: State, e: Conn)
    requires EntryOk(s, e) && e in s.entries && s.entries[e].gate.Some?
    ensures s.entries[e].gate.value in Unreturned(s)
  {
  }

  /** What the reaper and Close have set aside are connections. */
  ghost predicate SetAside(s: State) {
    && (s.reaper.Sweeping? ==> s.reaper.stale != {} && s.reaper.stale <= s.entries.Keys)
    && (s.closer.Draining? ==> s.closer.rest <= s.entries.Keys)
  }

  lemma {:induction false} AsideIsKnown(tr: Trace)
    requires Valid(tr)
    ensures SetAside(tr.s)
  {
    if tr.Then? {
      AsideIsKnown(tr.before);
      ReachableInv(tr.before);
      AsideAfter(tr.before.s, tr.t);
    }
  }

  lemma AsideAfter(s: State, t: Step)
    requires SetAside(s) && PoolOk(s) && Enabled(s, t)
    ensures SetAside(Apply(s, t))
  {
    if t.Sweep? && StaleKeys(s, t.now) != {} {
      var k := SomeMember(StaleKeys(s, t.now));
      assert s.pool[k] in Conns(s.pool, StaleKeys(s, t.now));
    }
    if t.CloseStale? && s.reaper.stale != {t.e} { assert s.reaper.stale - {t.e} != {}; }
  }

  /** The reaper finishes its sweep. */
  lemma {:induction false} SweepEnds(tr: Trace) returns (tr': Trace)
    requires Valid(tr) && Unreturned(tr.s) == {} && !tr.s.reaper.Stopped?
    ensures Valid(tr') && Unreturned(tr'.s) == {} && tr'.s.reaper.Resting? && tr'.s.closer == tr.s.closer
    decreases if tr.s.reaper.Sweeping? then |tr.s.reaper.stale| else 0
  {
    hide Valid, Unreturned;
    tr' := tr;
    if tr.s.reaper.Sweeping? {
      AsideIsKnown(tr);
      var e := SomeMember(tr.s.reaper.stale);
      GatesAreFree(tr, e);
      tr' := CloseOneStale(tr, e);
      tr' := SweepEnds(tr');
    }
  }

  lemma CloseOneStale(tr: Trace, e: Conn) returns (tr': Trace)
    requires Valid(tr) && tr.s.reaper.Sweeping? && e in tr.s.reaper.stale && GateFree(tr.s, e)
    ensures Valid(tr') && Unreturned(tr'.s) == Unreturned(tr.s) && tr'.s.closer == tr.s.closer
    ensures tr'.s.reaper == if tr.s.reaper.stale == {e} then Resting else Sweeping(tr.s.reaper.stale - {e})
  {
    tr' := Follow(tr, CloseStale(e));
  }

  lemma {:induction false} DrainEnds(tr: Trace) returns (tr': Trace)
    requires Valid(tr) && Unreturned(tr.s) == {} && tr.s.closer.Draining?
    ensures Valid(tr') && Unreturned(tr'.s) == {} && tr'.s.closer.Shut?
    decreases |tr.s.closer.rest|
  {
    hide Valid, Unreturned;
    if tr.s.closer.rest == {} {
      tr' := CloseReturns(tr);
    } else {
      AsideIsKnown(tr);
      var e := SomeMember(tr.s.closer.rest);
      GatesAreFree(tr, e);
      tr' := CloseOneDrained(tr, e);
      tr' := DrainEnds(tr');
    }
  }

  lemma CloseOneDrained(tr: Trace, e: Conn) returns (tr': Trace)
    requires Valid(tr) && tr.s.closer.Draining? && e in tr.s.closer.rest && GateFree(tr.s, e)
    ensures Valid(tr') && Unreturned(tr'.s) == Unreturned(tr.s) && tr'.s.closer == Draining(tr.s.closer.rest - {e})
  {
    tr' := Follow(tr, CloseDrained(e));
  }

  lemma CloseReturns(tr: Trace) returns (tr': Trace)
    requires Valid(tr) && tr.s.closer == Draining({})
    ensures Valid(tr') && Unreturned(tr'.s) == Unreturned(tr.s) && tr'.s.closer.Shut?
  {
    tr' := Follow(tr, FinishClose);
  }

  lemma ReachDraining(tr: Trace) returns (tr': Trace)
    requires Valid(tr) && Unreturned(tr.s) == {} && (tr.s.closer.Open? || tr.s.closer.Canceled?)
    ensures Valid(tr') && Unreturned(tr'.s) == {} && tr'.s.closer.Draining?
  {
    tr' := tr;
    if tr.s.closer.Open? { tr' := Follow(tr', Cancel); }
    if !tr'.s.reaper.Stopped? {
      tr' := SweepEnds(tr');
      tr' := Follow(tr', StopReaper);
    }
    tr' := Follow(tr', Drain);
  }

  /** From every reachable state all calls can return and Close can finish, and then no client is open. */
  lemma PoolCanAlwaysShut(tr: Trace) returns (tr': Trace)
    requires Valid(tr)
    ensures Valid(tr') && tr'.s.closer.Shut? && Unreturned(tr'.s) == {}
    ensures forall e :: e in tr'.s.entries ==> !tr'.s.entries[e].open
  {
    hide Valid, Unreturned;
    tr' := AllCallsReturn(tr);
    if tr'.s.closer.Open? || tr'.s.closer.Canceled? { tr' := ReachDraining(tr'); }
    if tr'.s.closer.Draining? { tr' := DrainEnds(tr'); }
    NoneUnreturned(tr'.s);
    forall e | e in tr'.s.entries ensures !tr'.s.entries[e].open { NothingStaysOpen(tr', e); }
  }

  lemma NoneUnreturned(s: State)
    requires Unreturned(s) == {}
    ensures forall c :: c in s.calls ==> s.calls[c].Returned?
  {
    forall c | c in s.calls ensures s.calls[c].Returned? { assert c !in Unreturned(s); }
  }

  // ---------------------------------------------------------------- every call can be served

  /** An open pool with room serves a call of a new key: it opens a client behind that call's gate. */
  lemma CallsCanBeServed(tr: Trace, c: CallId, k: Key, e: Conn, now: Time) returns (tr': Trace)
    requires Valid(tr) && tr.s.closer.Open? && c !in tr.s.calls && k !in tr.s.pool && e !in tr.s.entries
    requires |tr.s.pool| < tr.s.max
    ensures Valid(tr') && c in tr'.s.calls && tr'.s.calls[c] == Gated(e)
    ensures e in tr'.s.entries && tr'.s.entries[e] == Entry(1, now, true, Some(c)) && PooledAs(tr', k) == Some(e)
  {
    tr' := Follow(tr, Acquire(c, k, e, now, None));
    tr' := Follow(tr', TakeGate(c));
    tr' := Follow(tr', Connect(c));
    PoolFollowsHistory(tr', k, e);
  }

  /** A call that finds its client broken can close it and open another, on the same connection. */
  lemma ClientsCanBeReplaced(tr: Trace, c: CallId, e: Conn) returns (closed: Trace, tr': Trace)
    requires Valid(tr) && c in tr.s.calls && tr.s.calls[c] == Gated(e) && e in tr.s.entries && Opened(tr, e)
    ensures Valid(closed) && Valid(tr') && c in tr'.s.calls && tr'.s.calls[c] == Gated(e) && Opened(tr', e)
    ensures !Opened(closed, e)
  {
    hide Opened, NextPool, NextReaper, NextCloser;
    PoolFollowsHistory(tr, 0, e);
    closed := Follow(tr, Drop(c));
    PoolFollowsHistory(closed, 0, e);
    tr' := Follow(closed, Connect(c));
    PoolFollowsHistory(tr', 0, e);
  }

  /** What a full pool displaces is unheld, and no other unheld connection has rested longer. */
  lemma DisplacedRestedLongest(tr: Trace, k: Key)
    requires Valid(tr) && tr.Then? && tr.t.Acquire? && tr.t.oldest.Some? && PooledAs(tr.before, k).Some?
    requires Holders(tr.before.s, PooledAs(tr.before, k).value) == {}
    ensures |tr.before.s.pool| >= tr.before.s.max && PooledAs(tr.before, tr.t.oldest.value).Some?
    ensures var gone := PooledAs(tr.before, tr.t.oldest.value).value;
            && Holders(tr.before.s, gone) == {}
            && UsedAt(tr.before, gone) <= UsedAt(tr.before, PooledAs(tr.before, k).value)
  {
    hide Apply, UsedAt, PooledAs;
    var s := tr.before.s;
    var o := tr.t.oldest.value;
    PoolFollowsHistory(tr.before, k, PooledAs(tr.before, k).value);
    PoolFollowsHistory(tr.before, o, s.pool[o]);
    ReachableInv(tr.before);
    RefsAreCalls(tr.before, s.pool[o]);
    RefsAreCalls(tr.before, s.pool[k]);
  }
}
