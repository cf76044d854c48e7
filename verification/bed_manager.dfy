/**
The manager's sections as methods on its own fields. A Bed handle is an allocation; the handle's
record is reached, and updated in place, through `allocs`. Each method is proved to take exactly the
step `Activity` gives it, or to refuse and change nothing.
*/
module BedManager {
  import opened Common
  import opened Activity
  import opened ActivitySafety

  datatype Renewal = Unavailable | InvalidExpiration | Renewed(deadline: Time)

  class Manager {
    var closed: bool
    var beds: map<Name, Alloc>
    var allocs: map<Alloc, Bed>
    var residentBeds: int
    var pinnedBeds: int

    ghost function View(): State
      reads this
    {
      State(closed, beds, allocs, residentBeds, pinnedBeds)
    }

    ghost predicate Valid()
      reads this
    {
      Inv(View())
    }

    constructor ()
      ensures Valid() && View() == Empty()
    {
      closed, beds, allocs, residentBeds, pinnedBeds := false, map[], map[], 0, 0;
      new;
      assert PinnedNames(View()) == {};
    }

    predicate Resides(a: Alloc)
      requires a in allocs
      reads this
    {
      allocs[a].name in beds && beds[allocs[a].name] == a
    }

    /** adjustPinnedLocked, after the Bed's record has changed. */
    method AdjustPinned(a: Alloc, wasPinned: bool)
      requires a in allocs
      modifies this`pinnedBeds
      ensures pinnedBeds == old(pinnedBeds) + (if Pinned(allocs[a]) then 1 else 0) - if wasPinned then 1 else 0
    {
      var isPinned := Pinned(allocs[a]);
      if !wasPinned && isPinned {
        pinnedBeds := pinnedBeds + 1;
      } else if wasPinned && !isPinned {
        pinnedBeds := pinnedBeds - 1;
      }
    }

    /** keepaliveLocked: the retention clock only moves forwards. */
    method Keepalive(a: Alloc, base: Time)
      requires a in allocs
      modifies this`allocs
      ensures allocs == old(allocs)[a := old(allocs[a]).(keepalive := Later(old(allocs[a]).keepalive, base))]
    {
      if base > allocs[a].keepalive {
        allocs := allocs[a := allocs[a].(keepalive := base)];
      }
    }

    method PublishBed(a: Alloc, bed: Bed)
      requires Valid() && a !in allocs && Published(bed)
      modifies this
      ensures Valid()
      ensures View() == if Enabled(old(View()), Publish(a, bed)) then ApplyPublish(old(View()), a, bed) else old(View())
    {
      ghost var s := View();
      if closed || bed.name in beds {
        return;
      }
      PublishKeeps(s, a, bed);
      allocs := allocs[a := bed];
      beds := beds[bed.name := a];
      residentBeds := residentBeds + 1;
      if Pinned(bed) {
        pinnedBeds := pinnedBeds + 1;
      }
    }

    /** An admitted operation on the Bed's record: activity, in-flight counts and retention clock. */
    static method StartOn(b: Bed, kind: Kind, now: Time, timeout: int, ghost t: BedStep) returns (r: Bed)
      requires t.Begin? && t.kind == kind && t.now == now && t.timeout == timeout
      ensures r == ApplyBed(b, true, false, t)
    {
      var bound := timeout;
      if bound <= 0 {
        bound := DEFAULT_TIMEOUT;
      }
      if bound > MAX_TIMEOUT {
        bound := MAX_TIMEOUT;
      }
      var count := if kind in b.byKind then b.byKind[kind] else 0;
      r := b.(lastActive := now, sequence := b.sequence + 1, inflight := b.inflight + 1,
              byKind := b.byKind[kind := count + 1], holds := b.holds + multiset{kind});
      if now + bound > r.keepalive {
        r := r.(keepalive := now + bound);
      }
    }

    /** The end of an operation on the Bed's record; a checkpoint does not renew its own activity. */
    static method EndOn(b: Bed, kind: Kind, now: Time, ghost here: bool, ghost closed: bool) returns (r: Bed)
      ensures r == ApplyBed(b, here, closed, Finish(kind, now)) && r.name == b.name
    {
      var inflight, byKind, lastActive, sequence, keepalive := b.inflight, b.byKind, b.lastActive, b.sequence,
          b.keepalive;
      if inflight > 0 {
        inflight := inflight - 1;
      }
      if kind in byKind && byKind[kind] > 1 {
        byKind := byKind[kind := byKind[kind] - 1];
      } else {
        byKind := byKind - {kind};
      }
      if kind != Checkpoint {
        lastActive, sequence := now, sequence + 1;
      }
      if now > keepalive {
        keepalive := now;
      }
      r := b.(inflight := inflight, byKind := byKind, lastActive := lastActive, sequence := sequence,
              keepalive := keepalive, holds := b.holds - multiset{kind});
    }

    method BeginOperation(a: Alloc, kind: Kind, now: Time, timeout: int, ready: bool, admitted: bool) returns (ok: bool)
      requires Valid() && a in allocs
      modifies this
      ensures Valid()
      ensures ok <==> Enabled(old(View()), On(a, Begin(kind, now, timeout, ready, admitted)))
      ensures View() == if ok then ApplyOn(old(View()), a, Begin(kind, now, timeout, ready, admitted)) else old(View())
    {
      ghost var s, t := View(), Begin(kind, now, timeout, ready, admitted);
      if !Resides(a) || closed {
        return false;
      }
      if allocs[a].phase != Resident {
        return false;
      }
      if allocs[a].mains && !ready && kind != Control {
        return false;
      }
      var wasPinned := Pinned(allocs[a]);
      if !wasPinned && !admitted {
        return false;
      }
      OnKeeps(s, a, t);
      var b := StartOn(allocs[a], kind, now, timeout, t);
      hide ApplyBed, Inv;
      allocs := allocs[a := b];
      AdjustPinned(a, wasPinned);
      ok := true;
    }

    /** The closure that BeginOperation returns; it runs once, also after the Bed has left the residents. */
    method FinishOperation(a: Alloc, kind: Kind, now: Time)
      requires Valid() && a in allocs && kind in allocs[a].holds
      modifies this
      ensures Valid()
      ensures View() == ApplyOn(old(View()), a, Finish(kind, now))
    {
      hide ApplyBed, Inv, Pinned;
      ghost var s, t := View(), Finish(kind, now);
      OnKeeps(s, a, t);
      var wasPinned := Pinned(allocs[a]);
      var b := EndOn(allocs[a], kind, now, Here(s, a), closed);
      allocs := allocs[a := b];
      if Resides(a) {
        AdjustPinned(a, wasPinned);
      }
    }

    /** touchLocked. */
    method TouchLocked(a: Alloc, now: Time)
      requires a in allocs
      modifies this`allocs
      ensures allocs == old(allocs)[a := old(allocs[a]).(lastActive := now, sequence := old(allocs[a]).sequence + 1,
                                                         keepalive := Later(old(allocs[a]).keepalive, now))]
    {
      var b := allocs[a];
      allocs := allocs[a := b.(lastActive := now, sequence := b.sequence + 1)];
      Keepalive(a, now);
    }

    method TouchBed(a: Alloc, now: Time)
      requires Valid() && a in allocs
      modifies this
      ensures Valid()
      ensures View() == if Here(old(View()), a) then ApplyOn(old(View()), a, Touch(now)) else old(View())
    {
      ghost var s := View();
      if Resides(a) {
        OnKeeps(s, a, Touch(now));
        var wasPinned := Pinned(allocs[a]);
        TouchLocked(a, now);
        AdjustPinned(a, wasPinned);
        assert View() == ApplyOn(s, a, Touch(now));
      }
    }

    method OpenSession(a: Alloc, now: Time, ready: bool, admitted: bool) returns (ok: bool)
      requires Valid() && a in allocs
      modifies this
      ensures Valid()
      ensures ok <==> Enabled(old(View()), On(a, Open(now, ready, admitted)))
      ensures View() == if ok then ApplyOn(old(View()), a, Open(now, ready, admitted)) else old(View())
    {
      ghost var s, t := View(), Open(now, ready, admitted);
      if !Resides(a) || closed {
        return false;
      }
      if allocs[a].mains && (allocs[a].phase != Resident || !ready) {
        return false;
      }
      var wasPinned := Pinned(allocs[a]);
      if !wasPinned && !admitted {
        return false;
      }
      OnKeeps(s, a, t);
      TouchLocked(a, now);
      AdjustPinned(a, wasPinned);
      ok := true;
      assert View() == ApplyOn(s, a, t);
    }

    /** The persist's entry, once it holds the persist lock. */
    method BeginPersist(a: Alloc, who: Persister) returns (ok: bool)
      requires Valid() && a in allocs && allocs[a].persist.NoPersist?
      requires who == ForEviction ==> allocs[a].eviction.Fenced?
      modifies this
      ensures Valid()
      ensures ok <==> !old(allocs[a]).purging
      ensures View() == if ok then ApplyOn(old(View()), a, PersistEnter(who)) else old(View())
    {
      ghost var s, t := View(), PersistEnter(who);
      if allocs[a].purging {
        return false;
      }
      OnKeeps(s, a, t);
      allocs := allocs[a := allocs[a].(persist := Entered(who))];
      ok := true;
      assert View() == ApplyOn(s, a, t);
    }

    method CaptureWatermark(a: Alloc)
      requires Valid() && a in allocs && allocs[a].persist.Entered?
      modifies this
      ensures Valid()
      ensures View() == ApplyOn(old(View()), a, PersistCapture)
    {
      ghost var s := View();
      OnKeeps(s, a, PersistCapture);
      var b := allocs[a];
      allocs := allocs[a := b.(persist := Captured(b.persist.who, b.lastActive))];
      assert View() == ApplyOn(s, a, PersistCapture);
    }

    /** The store has accepted the snapshot; the eviction, if it is the one persisting, may go on to commit. */
    method CommitWatermark(a: Alloc)
      requires Valid() && a in allocs && allocs[a].persist.Captured?
      modifies this
      ensures Valid()
      ensures View() == ApplyOn(old(View()), a, PersistCommit)
    {
      ghost var s := View();
      OnKeeps(s, a, PersistCommit);
      assert AllocOk(s, a);
      var b := allocs[a];
      var wasPinned := Pinned(b);
      if b.persist.who == ForEviction {
        b := b.(eviction := Synced(b.eviction.sequence));
      }
      allocs := allocs[a := b.(persisted := b.persist.watermark, persist := NoPersist)];
      if Resides(a) {
        AdjustPinned(a, wasPinned);
      }
      assert View() == ApplyOn(s, a, PersistCommit);
    }

    /** The eviction's fence, for a caller that holds the cleanup semaphore. */
    method BeginEviction(a: Alloc, cutoff: Option<Time>) returns (started: bool)
      requires Valid() && a in allocs && allocs[a].eviction.NoEviction?
      modifies this
      ensures Valid()
      ensures started <==> Enabled(old(View()), On(a, Fence(cutoff)))
      ensures View() == if started then ApplyOn(old(View()), a, Fence(cutoff)) else old(View())
    {
      ghost var s, t := View(), Fence(cutoff);
      var b := allocs[a];
      if closed || !Resides(a) || b.purging {
        return false;
      }
      if b.phase != Resident || b.inflight > 0 {
        return false;
      }
      var until := RetainUntil(b);
      if cutoff.Some? && (until == 0 || until > cutoff.value) {
        return false;
      }
      OnKeeps(s, a, t);
      allocs := allocs[a := b.(phase := Evicting, eviction := Fenced(b.sequence))];
      started := true;
      assert View() == ApplyOn(s, a, t);
    }

    /** An eviction that stops short decides whether to reopen the Bed: only an open daemon that still has it does. */
    method GiveUpEviction(a: Alloc) returns (resume: bool)
      requires Valid() && a in allocs && (allocs[a].eviction.Fenced? || allocs[a].eviction.Synced?)
      requires allocs[a].persist.NoPersist? || allocs[a].persist.who == ForOther
      modifies this
      ensures Valid() && View() == ApplyOn(old(View()), a, GiveUp)
      ensures resume <==> !closed && Here(old(View()), a)
      ensures allocs[a] == old(allocs[a]).(eviction := if resume then Resuming else NoEviction)
    {
      ghost var s := View();
      OnKeeps(s, a, GiveUp);
      resume := !closed && Resides(a);
      allocs := allocs[a := allocs[a].(eviction := if resume then Resuming else NoEviction)];
      assert View() == ApplyOn(s, a, GiveUp);
    }

    /** It then publishes the Bed as resident again and changes nothing else of it. */
    method ResumeEviction(a: Alloc)
      requires Valid() && a in allocs && allocs[a].eviction.Resuming?
      modifies this
      ensures Valid() && View() == ApplyOn(old(View()), a, Resume)
      ensures allocs[a] == old(allocs[a]).(phase := Resident, eviction := NoEviction)
      ensures beds == old(beds) && pinnedBeds == old(pinnedBeds) && residentBeds == old(residentBeds)
      ensures !closed && Here(View(), a) ==> Enabled(View(), On(a, Begin(Exec, 0, 0, true, true)))
    {
      ghost var s := View();
      OnKeeps(s, a, Resume);
      allocs := allocs[a := allocs[a].(phase := Resident, eviction := NoEviction)];
      assert View() == ApplyOn(s, a, Resume);
    }

    /** The commit after the persist: the Bed leaves the residents, and `pinnedBeds` is still exact. */
    method CommitEviction(a: Alloc) returns (retired: bool)
      requires Valid() && a in allocs && allocs[a].eviction.Synced?
      modifies this
      ensures Valid() && pinnedBeds == old(pinnedBeds)
      ensures retired <==> MayCommit(old(View()), a)
      ensures View() == if retired then ApplyCommit(old(View()), a) else old(View())
    {
      ghost var s := View();
      var b := allocs[a];
      if closed || !Resides(a) || b.inflight > 0 || b.sequence != b.eviction.sequence {
        return false;
      }
      CommitKeeps(s, a);
      beds := beds - {b.name};
      residentBeds := residentBeds - 1;
      allocs := allocs[a := b.(eviction := NoEviction)];
      retired := true;
      assert View() == ApplyCommit(s, a);
    }

    /** The purge takes the resident Bed of a name out of the residents, whatever it is doing. */
    method ClaimForPurge(n: Name)
      requires Valid()
      modifies this
      ensures Valid() && n !in beds
      ensures View() == if Enabled(old(View()), PurgeClaim(n)) then ApplyClaim(old(View()), n) else old(View())
    {
      ghost var s := View();
      if n in beds {
        assert LinkOk(s, n);
        ClaimKeeps(s, n);
        var a := beds[n];
        allocs := allocs[a := allocs[a].(purging := true)];
        beds := beds - {n};
        residentBeds := residentBeds - 1;
        if Pinned(allocs[a]) {
          pinnedBeds := pinnedBeds - 1;
        }
        assert View() == ApplyClaim(s, n);
      }
    }

    /** A renewal returns the later of the deadline before and the one asked for, by default one TTL from now. */
    method RenewExpiration(a: Alloc, now: Time, expires: Option<Time>) returns (r: Renewal)
      requires Valid() && a in allocs
      modifies this
      ensures Valid()
      ensures r.Renewed? <==> Enabled(old(View()), On(a, Renew(now, expires)))
      ensures r.InvalidExpiration? ==> expires.Some? && !(now < expires.value < YEAR_10000)
      ensures View() == if r.Renewed? then ApplyOn(old(View()), a, Renew(now, expires)) else old(View())
      ensures r.Renewed? ==> r.deadline == RetainUntil(allocs[a])
      ensures r.Renewed? && allocs[a].ttl > 0 ==>
                var before := RetainUntil(old(allocs[a]));
                var asked := if expires.Some? then expires.value else now + allocs[a].ttl;
                r.deadline == if asked > before then asked else before
      ensures r.Renewed? && allocs[a].ttl <= 0 ==> r.deadline == 0
    {
      ghost var s, t := View(), Renew(now, expires);
      var b := allocs[a];
      if closed || !Resides(a) || b.purging || b.phase != Resident {
        return Unavailable;
      }
      if expires.Some? && (expires.value <= now || expires.value >= YEAR_10000) {
        return InvalidExpiration;
      }
      assert AllocOk(s, a);
      OnKeeps(s, a, t);
      var base := now;
      if expires.Some? && b.ttl > 0 {
        base := expires.value - b.ttl;
      }
      Keepalive(a, base);
      r := Renewed(RetainUntil(allocs[a]));
      assert View() == ApplyOn(s, a, t);
    }

    /** The scan of CollectExpired: every resident Bed whose deadline has elapsed, each once. */
    method ExpiredBeds(now: Time) returns (stale: seq<Name>)
      requires Valid()
      ensures forall n :: n in stale <==> n in beds && beds[n] in allocs && 0 != RetainUntil(allocs[beds[n]]) <= now
      ensures forall i, j :: 0 <= i < j < |stale| ==> stale[i] != stale[j]
    {
      stale := [];
      var rest := beds.Keys;
      while rest != {}
        invariant rest <= beds.Keys
        invariant forall n :: n in stale <==>
          n in beds && n !in rest && beds[n] in allocs && 0 != RetainUntil(allocs[beds[n]]) <= now
        invariant forall i, j :: 0 <= i < j < |stale| ==> stale[i] != stale[j]
      {
        var n :| n in rest;
        rest := rest - {n};
        assert LinkOk(View(), n);
        var until := RetainUntil(allocs[beds[n]]);
        if until != 0 && until <= now {
          stale := stale + [n];
        }
      }
    }
  }
}
