/** The pool's sections as methods on its own fields. */
module McpProxy {
  import opened Common
  import opened McpPool
  import opened McpPoolSafety

  /** A connection, and the key and connection it displaced, if any. */
  datatype Acquired = Connection(e: Conn, oldest: Option<Key>, victim: Option<Conn>) | ErrClosed | ErrCapacity

  /** The pool's own fields, with its calls, its reaper and its Close as ghost state. */
  class Proxy {
    const max: int
    const idle: int
    var canceled: bool
    var connections: map<Key, Conn>
    var entries: map<Conn, Entry>
    var issued: Conn
    ghost var calls: map<CallId, Call>
    ghost var reaper: Reaper
    ghost var closer: Closer

    ghost function View(): State
      reads this
    {
      State(max, idle, connections, entries, calls, reaper, closer)
    }

    ghost predicate Valid()
      reads this
    {
      && Inv(View())
      && canceled == Closed(View())
      && (forall e :: e in entries ==> e < issued)
    }

    constructor (maxConnections: int, idleTimeout: int)
      ensures Valid() && Initial(View()) && (maxConnections > 0 ==> max == maxConnections)
    {
      max := if maxConnections <= 0 then 32 else maxConnections;
      idle := if idleTimeout <= 0 then 300_000_000_000 else idleTimeout;
      canceled, connections, entries, issued := false, map[], map[], 0;
      calls, reaper, closer := map[], Resting, Open;
    }

    /** The least recently used connection without references, if there is one. */
    method Oldest() returns (oldest: Option<Key>)
      requires Valid()
      ensures oldest.Some? ==> IsOldest(View(), oldest.value)
      ensures oldest.Some? ==>
                && oldest.value in connections && entries[connections[oldest.value]].refs == 0
                && forall k :: k in connections && entries[connections[k]].refs == 0 ==>
                    entries[connections[oldest.value]].used <= entries[connections[k]].used
      ensures oldest.None? ==> forall k :: k in connections ==> entries[connections[k]].refs != 0
    {
      oldest := None;
      var rest := connections.Keys;
      while rest != {}
        invariant rest <= connections.Keys
        invariant oldest.Some? ==>
          oldest.value in connections && connections[oldest.value] in entries
              && entries[connections[oldest.value]].refs == 0
        invariant forall k :: k in connections && k !in rest && entries[connections[k]].refs == 0 ==>
          oldest.Some? && entries[connections[oldest.value]].used <= entries[connections[k]].used
      {
        ghost var some := SomeMember(rest);
        var k :| k in rest;
        rest := rest - {k};
        var en := entries[connections[k]];
        if en.refs == 0 && (oldest.None? || en.used < entries[connections[oldest.value]].used) {
          oldest := Some(k);
        }
      }
    }

    /**
    acquire. An open pool gives out the key's connection or a new one, displacing the least recently used
    unreferenced connection when it is full; it refuses exactly when it is full of referenced ones. No call
    holds what it displaces.
    */
    method Acquire(ghost c: CallId, k: Key, now: Time) returns (r: Acquired)
      requires Valid() && c !in calls
      modifies this
      ensures Valid()
      ensures r.ErrClosed? <==> canceled
      ensures r.ErrCapacity? <==> !canceled && k !in old(connections) && |old(connections)| >= max
                                  && forall x :: x in old(connections) ==> old(entries)[old(connections)[x]].refs != 0
      ensures !r.Connection? ==> View() == old(View())
      ensures r.Connection? ==>
                var t := McpPool.Acquire(c, k, r.e, now, r.oldest);
                && Enabled(old(View()), t) && View() == Apply(old(View()), t)
                && r.victim == if r.oldest.Some? then Some(old(connections)[r.oldest.value]) else None
      ensures r.Connection? && r.victim.Some? ==>
                && Holders(old(View()), r.victim.value) == {} && r.victim.value in old(entries)
                && forall x :: x in old(connections) && old(entries)[old(connections)[x]].refs == 0 ==>
                    old(entries)[r.victim.value].used <= old(entries)[old(connections)[x]].used
      ensures r.Connection? ==> k in connections && connections[k] == r.e && r.e in entries
      ensures r.Connection? && k in old(connections) ==>
                && r.e == old(connections)[k] && connections == old(connections)
                && entries[r.e] == old(entries[r.e]).(refs := old(entries[r.e].refs) + 1)
      ensures r.Connection? && k !in old(connections) ==>
                r.e !in old(entries) && entries[r.e] == Entry(1, now, false, None)
    {
      hide Inv, Holders;
      ghost var s := View();
      if canceled {
        return ErrClosed;
      }
      if k in connections {
        var e := connections[k];
        PoolIsKnown(s);
        entries := entries[e := entries[e].(refs := entries[e].refs + 1)];
        calls := calls[c := Waiting(e)];
        assert connections == connections[k := e];
        StepKeeps(s, McpPool.Acquire(c, k, e, now, None));
        return Connection(e, None, None);
      }
      var oldest, victim := None, None;
      if |connections| >= max {
        oldest := Oldest();
        if oldest.None? {
          return ErrCapacity;
        }
        victim := Some(connections[oldest.value]);
        NobodyHoldsUnreferenced(s, victim.value);
        connections := connections - {oldest.value};
      }
      var e := issued;
      issued := issued + 1;
      entries := entries[e := Entry(1, now, false, None)];
      connections := connections[k := e];
      calls := calls[c := if victim.Some? then Evicting(e, victim.value) else Waiting(e)];
      StepKeeps(s, McpPool.Acquire(c, k, e, now, oldest));
      r := Connection(e, oldest, victim);
    }

    /** The scan of the reaper: the stale connections, which no call holds, leave the pool to be closed. */
    method Reap(now: Time) returns (stale: set<Conn>)
      requires Valid() && reaper.Resting?
      modifies this
      ensures Valid() && View() == Apply(old(View()), Sweep(now))
      ensures stale == Conns(old(connections), StaleKeys(old(View()), now))
      ensures forall e :: e in stale ==> Holders(View(), e) == {}
      ensures forall k :: k in old(connections) ==>
                var e := old(connections)[k];
                (k in connections <==> Holders(View(), e) != {} || now < entries[e].used + idle)
                && (k in connections ==> connections[k] == e) && (k !in connections <==> e in stale)
    {
      hide Inv, Holders;
      ghost var s := View();
      PoolIsKnown(s);
      stale := Scan(now);
      reaper := if stale == {} then Resting else Sweeping(stale);
      StaleOrNone(s, now);
      StepKeeps(s, Sweep(now));
      forall e | e in stale ensures Holders(View(), e) == {} { StaleIsUnheld(s, now, e); }
      forall k | k in s.pool
        ensures k !in connections <==> Holders(View(), s.pool[k]) == {} && now >= entries[s.pool[k]].used + idle
        ensures k !in connections <==> s.pool[k] in stale
      {
        StaleExactly(s, now, k);
      }
    }

    method Scan(now: Time) returns (stale: set<Conn>)
      requires forall k :: k in connections ==> connections[k] in entries
      modifies this`connections
      ensures connections == NextPool(old(View()), Sweep(now))
      ensures stale == Conns(old(connections), StaleKeys(old(View()), now))
    {
      var was := connections;
      stale := {};
      var rest := connections.Keys;
      while rest != {}
        invariant rest <= was.Keys
        invariant connections == was - (set k | k in was && k !in rest && IsStale(old(View()), k, now))
        invariant stale == set k | k in was && k !in rest && IsStale(old(View()), k, now) :: was[k]
      {
        ghost var some := SomeMember(rest);
        var k :| k in rest;
        rest := rest - {k};
        var en := entries[was[k]];
        if en.refs == 0 && now - en.used >= idle {
          connections := connections - {k};
          stale := stale + {was[k]};
        }
      }
    }

    /** release: the count is again the calls that hold the connection, and a closed pool's last user closes it. */
    method Release(ghost c: CallId, e: Conn, now: Time) returns (mustClose: bool)
      requires Valid() && Enabled(View(), McpPool.Release(c, now)) && calls[c].e == e
      modifies this
      ensures Valid() && View() == Apply(old(View()), McpPool.Release(c, now))
      ensures entries[e].refs == |Holders(View(), e)| && c !in Holders(View(), e)
      ensures entries[e] == old(entries[e]).(refs := old(entries[e].refs) - 1, used := now)
      ensures mustClose <==> calls[c] == Closing(e)
      ensures mustClose <==> canceled
    {
      ghost var s := View();
      StepKeeps(s, McpPool.Release(c, now));
      entries := entries[e := entries[e].(refs := entries[e].refs - 1, used := now)];
      mustClose := canceled;
      calls := calls[c := if mustClose then Closing(e) else Returned];
      assert EntryOk(View(), e);
    }
  }

  lemma PoolIsKnown(s: State)
    requires Inv(s)
    ensures forall k :: k in s.pool ==> s.pool[k] in s.entries
  {
  }

  lemma NobodyHoldsUnreferenced(s: State, e: Conn)
    requires Inv(s) && e in s.entries && s.entries[e].refs == 0
    ensures Holders(s, e) == {}
  {
    assert EntryOk(s, e);
  }

  lemma StaleOrNone(s: State, now: Time)
    ensures Conns(s.pool, StaleKeys(s, now)) == {} <==> StaleKeys(s, now) == {}
  {
    if StaleKeys(s, now) != {} {
      var k := SomeMember(StaleKeys(s, now));
      assert s.pool[k] in Conns(s.pool, StaleKeys(s, now));
    }
  }

  /** Exactly the connections that nobody holds and that have been idle long enough leave the pool. */
  lemma StaleExactly(s: State, now: Time, k: Key)
    requires Inv(s) && k in s.pool && s.reaper.Resting?
    ensures s.pool[k] in s.entries
    ensures k !in NextPool(s, Sweep(now)) <==>
            Holders(Apply(s, Sweep(now)), s.pool[k]) == {} && now >= s.entries[s.pool[k]].used + s.idle
    ensures k !in NextPool(s, Sweep(now)) <==> s.pool[k] in Conns(s.pool, StaleKeys(s, now))
  {
    assert EntryOk(s, s.pool[k]);
    assert Holders(Apply(s, Sweep(now)), s.pool[k]) == Holders(s, s.pool[k]);
  }

  lemma StaleIsUnheld(s: State, now: Time, e: Conn)
    requires Inv(s) && e in Conns(s.pool, StaleKeys(s, now)) && s.reaper.Resting?
    ensures Holders(Apply(s, Sweep(now)), e) == {}
  {
    NobodyHoldsUnreferenced(s, e);
  }
}
