/** What every interleaving of calls, reaper and Close keeps. */
module McpPoolSafety {
  import opened Common
  import opened McpPool

  /** The calls that hold a reference to a connection. */
  function Holders(s: State, e: Conn): set<CallId> {
    set c | c in s.calls && Refers(s.calls[c], e)
  }

  /** The call will still see to the connection's client. */
  predicate Watches(call: Call, e: Conn) {
    Refers(call, e) || call == Closing(e) || (call.Evicting? && call.victim == e)
  }

  predicate WatchedBy(s: State, c: CallId, e: Conn) {
    c in s.calls && Watches(s.calls[c], e)
  }

  /** Somebody will close the connection's client: the pool's owners, or a call. */
  ghost predicate Kept(s: State, e: Conn) {
    || InPool(s, e)
    || (s.reaper.Sweeping? && e in s.reaper.stale)
    || (s.closer.Draining? && e in s.closer.rest)
    || (exists c :: WatchedBy(s, c, e))
  }

  ghost predicate CallOk(s: State, c: CallId) {
    c in s.calls ==>
      && (!s.calls[c].Returned? ==> s.calls[c].e in s.entries)
      && (s.calls[c].Evicting? ==> s.calls[c].victim in s.entries)
      && (forall e :: Refers(s.calls[c], e) && !Closed(s) ==> InPool(s, e))
      && (s.calls[c].Gated? && s.calls[c].e in s.entries ==> s.entries[s.calls[c].e].gate == Some(c))
  }

  ghost predicate EntryOk(s: State, e: Conn) {
    e in s.entries ==>
      && s.entries[e].refs == |Holders(s, e)|
      && (s.entries[e].open ==> Kept(s, e))
      && (s.entries[e].gate.Some? ==>
          s.entries[e].gate.value in s.calls && s.calls[s.entries[e].gate.value] == Gated(e))
  }

  ghost predicate PoolOk(s: State) {
    && (forall k :: k in s.pool ==> s.pool[k] in s.entries)
    && (forall k, x :: k in s.pool && x in s.pool && s.pool[k] == s.pool[x] ==> k == x)
    && |s.pool| <= s.max && s.max > 0
    && (s.closer.Draining? || s.closer.Shut? ==> s.pool == map[] && s.reaper.Stopped?)
    && (s.reaper.Stopped? ==> Closed(s))
  }

  ghost predicate Inv(s: State) {
    && PoolOk(s)
    && (forall c {:trigger CallOk(s, c)} :: CallOk(s, c))
    && (forall e {:trigger EntryOk(s, e)} :: EntryOk(s, e))
  }

  // ---------------------------------------------------------------- references are counted exactly

  lemma HoldersAfter(s: State, t: Step, e: Conn)
    requires Inv(s) && Enabled(s, t)
    ensures Holders(Apply(s, t), e) ==
            if t.Acquire? && t.e == e then Holders(s, e) + {t.c}
            else if t.Release? && s.calls[t.c].e == e then Holders(s, e) - {t.c}
            else Holders(s, e)
  {
  }

  function Change(s: State, t: Step, e: Conn): int
    requires Enabled(s, t)
  {
    if t.Acquire? && t.e == e then 1 else if t.Release? && s.calls[t.c].e == e then -1 else 0
  }

  lemma HoldersCount(s: State, t: Step, e: Conn)
    requires Inv(s) && Enabled(s, t)
    ensures |Holders(Apply(s, t), e)| == |Holders(s, e)| + Change(s, t, e)
  {
    hide Apply;
    HoldersAfter(s, t, e);
    if t.Acquire? && t.e == e {
      assert t.c !in Holders(s, e);
    } else if t.Release? && s.calls[t.c].e == e {
      assert t.c in Holders(s, e);
    }
  }

  lemma RefsAfter(s: State, t: Step, e: Conn)
    requires Inv(s) && Enabled(s, t) && e in Apply(s, t).entries
    ensures Apply(s, t).entries[e].refs == |Holders(Apply(s, t), e)|
  {
    hide Holders;
    HoldersCount(s, t, e);
    assert EntryOk(s, e);
    if e !in s.entries { NobodyHolds(s, e); }
  }

  lemma NobodyHolds(s: State, e: Conn)
    requires Inv(s) && e !in s.entries
    ensures Holders(s, e) == {}
  {
    forall c | c in s.calls ensures !Refers(s.calls[c], e) {
      assert CallOk(s, c);
    }
  }

  /** An entry the pool may drop has no call behind it. */
  lemma UnreferencedIsUnheld(s: State, e: Conn, c: CallId)
    requires Inv(s) && e in s.entries && s.entries[e].refs == 0 && c in s.calls
    ensures !Refers(s.calls[c], e)
  {
    assert EntryOk(s, e);
    assert Holders(s, e) == {};
    assert Refers(s.calls[c], e) ==> c in Holders(s, e);
  }

  // ---------------------------------------------------------------- the pool

  lemma PoolAfterAcquire(s: State, t: Step)
    requires PoolOk(s) && Enabled(s, t) && t.Acquire? && t.k !in s.pool
    ensures PoolOk(Apply(s, t))
  {
    var s' := Apply(s, t);
    var kept := if t.oldest.Some? then s.pool - {t.oldest.value} else s.pool;
    assert |kept| < s.max by {
      if t.oldest.Some? { RemoveOne(s.pool, t.oldest.value); }
    }
    assert s'.pool == kept[t.k := t.e];
    assert forall x :: x in kept ==> x in s.pool && kept[x] == s.pool[x] && s.pool[x] != t.e;
  }

  lemma PoolAfter(s: State, t: Step)
    requires PoolOk(s) && Enabled(s, t)
    ensures PoolOk(Apply(s, t))
  {
    var s' := Apply(s, t);
    if t.Acquire? {
      if t.k in s.pool { assert s'.pool == s.pool; } else { PoolAfterAcquire(s, t); }
    } else {
      FewerKeys(s'.pool, s.pool);
    }
  }

  lemma RemoveOne<K, V>(m: map<K, V>, k: K)
    requires k in m
    ensures |m - {k}| == |m| - 1
  {
  }

  /** A connection stays in the pool unless a step takes it out. */
  lemma InPoolAfter(s: State, t: Step, e: Conn)
    requires PoolOk(s) && Enabled(s, t) && InPool(s, e)
    ensures InPool(Apply(s, t), e)
         || (t.Acquire? && t.oldest.Some? && s.pool[t.oldest.value] == e)
         || (t.Sweep? && e in Conns(s.pool, StaleKeys(s, t.now)))
         || (t.Drain? && e in Conns(s.pool, s.pool.Keys))
  {
    var s' := Apply(s, t);
    var k :| k in s.pool && s.pool[k] == e;
    if k in s'.pool { assert s'.pool[k] == e; }
  }

  lemma StaleIsUnreferenced(s: State, now: Time, e: Conn)
    requires e in Conns(s.pool, StaleKeys(s, now))
    ensures e in s.entries && s.entries[e].refs == 0
  {
  }

  // ---------------------------------------------------------------- calls

  lemma HeldStaysInPool(s: State, t: Step, c: CallId, e: Conn)
    requires Inv(s) && Enabled(s, t) && c in s.calls && Refers(s.calls[c], e) && !Closed(Apply(s, t))
    ensures InPool(Apply(s, t), e)
  {
    assert CallOk(s, c);
    InPoolAfter(s, t, e);
    if t.Acquire? && t.oldest.Some? && s.pool[t.oldest.value] == e { UnreferencedIsUnheld(s, e, c); }
    if t.Sweep? && e in Conns(s.pool, StaleKeys(s, t.now)) {
      StaleIsUnreferenced(s, t.now, e);
      UnreferencedIsUnheld(s, e, c);
    }
  }

  lemma GateStays(s: State, t: Step, c: CallId)
    requires Inv(s) && Enabled(s, t) && c in Apply(s, t).calls && Apply(s, t).calls[c].Gated?
    ensures var s' := Apply(s, t); s'.calls[c].e in s'.entries && s'.entries[s'.calls[c].e].gate == Some(c)
  {
    assert CallOk(s, c);
    if Touched(s, t).Some? { assert EntryOk(s, Touched(s, t).value); }
    if t.LeaveGate? { assert CallOk(s, t.c); }
  }

  lemma CallAfter(s: State, t: Step, c: CallId)
    requires Inv(s) && Enabled(s, t)
    ensures CallOk(Apply(s, t), c)
  {
    var s' := Apply(s, t);
    if c in s'.calls {
      assert CallOk(s, c);
      if s'.calls[c].Gated? { GateStays(s, t, c); }
      forall e | Refers(s'.calls[c], e) && !Closed(s') ensures InPool(s', e) {
        if c in s.calls {
          HeldStaysInPool(s, t, c, e);
        } else {
          assert s'.pool[t.k] == e;
        }
      }
    }
  }

  // ---------------------------------------------------------------- open clients are looked after

  /** The step that stops watching a connection has closed its client, or leaves it with the pool. */
  lemma WatchAfter(s: State, t: Step, c: CallId, e: Conn)
    requires Inv(s) && Enabled(s, t) && WatchedBy(s, c, e) && e in s.entries
    ensures var s' := Apply(s, t); WatchedBy(s', c, e) || InPool(s', e) || !s'.entries[e].open
  {
    assert CallOk(s, c);
    if t.Release? && t.c == c && !Closed(s) { HeldStaysInPool(s, t, c, e); }
  }

  lemma KeptAfter(s: State, t: Step, e: Conn)
    requires Inv(s) && Enabled(s, t) && e in s.entries && Kept(s, e) && Apply(s, t).entries[e].open
    ensures Kept(Apply(s, t), e)
  {
    var s' := Apply(s, t);
    if InPool(s, e) {
      InPoolAfter(s, t, e);
      if t.Acquire? && t.oldest.Some? && s.pool[t.oldest.value] == e { assert WatchedBy(s', t.c, e); }
    } else if c :| WatchedBy(s, c, e) {
      WatchAfter(s, t, c, e);
    }
  }

  lemma EntryAfter(s: State, t: Step, e: Conn)
    requires Inv(s) && Enabled(s, t)
    ensures EntryOk(Apply(s, t), e)
  {
    hide Kept;
    var s' := Apply(s, t);
    if e in s'.entries {
      assert EntryOk(s, e);
      RefsAfter(s, t, e);
      if s'.entries[e].open { OpenAfter(s, t, e); }
      GateAfter(s, t, e);
    }
  }

  lemma OpenAfter(s: State, t: Step, e: Conn)
    requires Inv(s) && Enabled(s, t) && e in Apply(s, t).entries && Apply(s, t).entries[e].open
    ensures Kept(Apply(s, t), e)
  {
    assert EntryOk(s, e);
    if t.Connect? && s.calls[t.c].e == e {
      assert WatchedBy(Apply(s, t), t.c, e);
    } else {
      KeptAfter(s, t, e);
    }
  }

  lemma GateAfter(s: State, t: Step, e: Conn)
    requires Inv(s) && Enabled(s, t) && e in Apply(s, t).entries
    ensures var s' := Apply(s, t);
            s'.entries[e].gate.Some? ==>
                s'.entries[e].gate.value in s'.calls && s'.calls[s'.entries[e].gate.value] == Gated(e)
  {
    assert EntryOk(s, e);
    if t.LeaveGate? { assert CallOk(s, t.c); }
  }

  lemma StepKeeps(s: State, t: Step)
    requires Inv(s) && Enabled(s, t)
    ensures Inv(Apply(s, t))
  {
    hide PoolOk, CallOk, EntryOk;
    PoolAfter(s, t);
    forall c ensures CallOk(Apply(s, t), c) { CallAfter(s, t, c); }
    forall e ensures EntryOk(Apply(s, t), e) { EntryAfter(s, t, e); }
  }

  lemma {:induction false} ReachableInv(tr: Trace)
    requires Valid(tr)
    ensures Inv(tr.s)
  {
    hide Apply, Enabled;
    match tr
    case Start(s) =>
    case Then(before, t, s) =>
      ReachableInv(before);
      StepKeeps(before.s, t);
  }

  // ---------------------------------------------------------------- the claims

  /** The pool never holds more than its limit. */
  lemma PoolIsBounded(tr: Trace)
    requires Valid(tr)
    ensures |tr.s.pool| <= tr.s.max
  {
    hide Apply, Enabled;
    ReachableInv(tr);
  }

  /** A connection's references are its outstanding calls. */
  lemma RefsAreCalls(tr: Trace, e: Conn)
    requires Valid(tr) && e in tr.s.entries
    ensures tr.s.entries[e].refs == |Holders(tr.s, e)|
  {
    hide Apply, Enabled;
    ReachableInv(tr);
    assert EntryOk(tr.s, e);
  }

  /** Until Close, only connections without an outstanding call leave the pool. */
  lemma OnlyUnreferencedLeave(tr: Trace, t: Step, s: State, e: Conn)
    requires Valid(Then(tr, t, s)) && InPool(tr.s, e) && !InPool(s, e) && !t.Drain?
    ensures Holders(tr.s, e) == {}
  {
    hide Apply;
    ReachableInv(tr);
    InPoolAfter(tr.s, t, e);
    if t.Sweep? { StaleIsUnreferenced(tr.s, t.now, e); }
    assert EntryOk(tr.s, e);
  }

  /** Once Close has returned and every call has returned, no client is open. */
  lemma NothingStaysOpen(tr: Trace, e: Conn)
    requires Valid(tr) && tr.s.closer.Shut? && (forall c :: c in tr.s.calls ==> tr.s.calls[c].Returned?)
    requires e in tr.s.entries
    ensures !tr.s.entries[e].open
  {
    hide Apply, Enabled;
    ReachableInv(tr);
    assert EntryOk(tr.s, e);
  }
}
