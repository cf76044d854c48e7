/** Unix users of Beds: the allocator's two maps, and the manager that recovers, prepares and forgets. */
module BedUsers {
  import opened Common

  type BedId = string
  type Uid = int

  /** The two maps are each other's inverse. */
  ghost predicate Inverse(byBed: map<BedId, Uid>, ownerUID: map<Uid, BedId>) {
    && (forall b :: b in byBed ==> byBed[b] in ownerUID && ownerUID[byBed[b]] == b)
    && (forall u :: u in ownerUID ==> ownerUID[u] in byBed && byBed[ownerUID[u]] == u)
  }

  /** In a double range, a remainder is a subtraction at most. */
  lemma WrapOnce(x: int, n: int)
    requires 0 < n && 0 <= x < 2 * n
    ensures x % n == if x < n then x else x - n
  {
  }

  /** The user at an offset from a hash slot, wrapping round the range. */
  function Probe(min: Uid, max: Uid, slot: int, offset: int): Uid
    requires min <= max
  {
    min + (slot + offset) % (max - min + 1)
  }

  lemma ProbeIsInRange(min: Uid, max: Uid, slot: int, offset: int)
    requires min <= max
    ensures min <= Probe(min, max, slot, offset) <= max
  {
  }

  /** Probing from any slot reaches every user of the range. */
  lemma ProbeReaches(min: Uid, max: Uid, start: int, u: Uid) returns (offset: int)
    requires min <= u <= max && 0 <= start < max - min + 1
    ensures 0 <= offset < max - min + 1 && Probe(min, max, start, offset) == u
  {
    var slots := max - min + 1;
    offset := if u - min >= start then u - min - start else u - min - start + slots;
    WrapOnce(start + offset, slots);
  }

  class Allocator {
    const fixed: Option<Uid>
    const uidMin: Uid
    const uidMax: Uid
    var byBed: map<BedId, Uid>
    var ownerUID: map<Uid, BedId>

    ghost predicate Valid()
      reads this
    {
      && 0 < uidMin <= uidMax
      && Inverse(byBed, ownerUID)
      && (forall u :: u in ownerUID ==> uidMin <= u <= uidMax)
    }

    constructor PerBed(min: Uid, max: Uid)
      requires 0 < min <= max
      ensures Valid() && fixed.None? && uidMin == min && uidMax == max && byBed == map[] && ownerUID == map[]
    {
      fixed, uidMin, uidMax, byBed, ownerUID := None, min, max, map[], map[];
    }

    constructor Fixed(user: Uid)
      ensures Valid() && fixed == Some(user) && byBed == map[] && ownerUID == map[]
    {
      fixed, uidMin, uidMax, byBed, ownerUID := Some(user), 1, 1, map[], map[];
    }

    method Assign(bed: BedId, uid: Uid)
      requires Valid() && bed !in byBed && uid !in ownerUID && uidMin <= uid <= uidMax
      modifies this
      ensures Valid() && byBed == old(byBed)[bed := uid] && ownerUID == old(ownerUID)[uid := bed]
    {
      byBed := byBed[bed := uid];
      ownerUID := ownerUID[uid := bed];
    }

    /** reserveLocked: an existing tree's owner, found at recovery. Users outside the range are left alone. */
    method Reserve(bed: BedId, uid: Uid) returns (ok: bool)
      requires Valid()
      modifies this
      ensures Valid()
      ensures ok <==> fixed.Some? || !(uidMin <= uid <= uidMax)
                      || (if bed in old(byBed) then old(byBed)[bed] == uid else uid !in old(ownerUID))
      ensures if ok && fixed.None? && uidMin <= uid <= uidMax
              then byBed == old(byBed)[bed := uid] && ownerUID == old(ownerUID)[uid := bed]
              else byBed == old(byBed) && ownerUID == old(ownerUID)
    {
      if fixed.Some? || uid < uidMin || uid > uidMax {
        return true;
      }
      if bed in byBed {
        ok := byBed[bed] == uid;
        assert ok ==> byBed == byBed[bed := uid] && ownerUID == ownerUID[uid := bed];
        return;
      }
      if uid in ownerUID {
        return false;
      }
      Assign(bed, uid);
      ok := true;
    }

    /**
    Acquire, with `slot` the Bed's hash slot. A Bed keeps the user it has; otherwise it gets one that
    nobody owns, and is refused only when the whole range is owned.
    */
    method Acquire(bed: BedId, slot: int) returns (r: Option<Uid>)
      requires Valid() && 0 <= slot < uidMax - uidMin + 1
      modifies this
      ensures Valid()
      ensures fixed.Some? ==> r == fixed && byBed == old(byBed) && ownerUID == old(ownerUID)
      ensures fixed.None? && bed in old(byBed) ==>
          r == Some(old(byBed)[bed]) && byBed == old(byBed) && ownerUID == old(ownerUID)
      ensures fixed.None? && bed !in old(byBed) ==>
                && (r.None? <==> forall u :: uidMin <= u <= uidMax ==> u in old(ownerUID))
                && (r.None? ==> byBed == old(byBed) && ownerUID == old(ownerUID))
                && (r.Some? ==> uidMin <= r.value <= uidMax && r.value !in old(ownerUID)
                                && byBed == old(byBed)[bed := r.value] && ownerUID == old(ownerUID)[r.value := bed])
    {
      hide Probe;
      if fixed.Some? {
        return fixed;
      }
      if bed in byBed {
        return Some(byBed[bed]);
      }
      var slots := uidMax - uidMin + 1;
      var offset := 0;
      while offset < slots
        invariant 0 <= offset <= slots
        invariant byBed == old(byBed) && ownerUID == old(ownerUID)
        invariant forall k :: 0 <= k < offset ==> Probe(uidMin, uidMax, slot, k) in ownerUID
      {
        ProbeIsInRange(uidMin, uidMax, slot, offset);
        var uid := Probe(uidMin, uidMax, slot, offset);
        if uid !in ownerUID {
          Assign(bed, uid);
          return Some(uid);
        }
        offset := offset + 1;
      }
      forall u | uidMin <= u <= uidMax ensures u in ownerUID {
        var k := ProbeReaches(uidMin, uidMax, slot, u);
      }
      r := None;
    }

    method Release(bed: BedId)
      requires Valid()
      modifies this
      ensures Valid()
      ensures fixed.Some? || bed !in old(byBed) ==> byBed == old(byBed) && ownerUID == old(ownerUID)
      ensures fixed.None? && bed in old(byBed) ==>
          byBed == old(byBed) - {bed} && ownerUID == old(ownerUID) - {old(byBed)[bed]}
    {
      if fixed.Some? {
        return;
      }
      if bed in byBed {
        ownerUID := ownerUID - {byBed[bed]};
        byBed := byBed - {bed};
      }
    }
  }

  /** No two Beds ever share a user. */
  lemma UsersAreDistinct(byBed: map<BedId, Uid>, ownerUID: map<Uid, BedId>, a: BedId, b: BedId)
    requires Inverse(byBed, ownerUID) && a in byBed && b in byBed && byBed[a] == byBed[b]
    ensures a == b
  {
  }

  /** The privilege manager, in per-Bed mode. */
  class Manager {
    const allocator: Allocator
    var users: map<BedId, Uid>
    var recovered: set<BedId>

    /** Every user in use, and nothing else but recovered ownership, is held in the allocator. */
    ghost predicate Valid()
      reads this, allocator
    {
      && allocator.Valid() && allocator.fixed.None?
      && (forall b :: b in users ==> b in allocator.byBed && allocator.byBed[b] == users[b])
      && (forall b :: b in allocator.byBed ==> b in users || b in recovered)
    }

    constructor (allocator: Allocator)
      requires allocator.Valid() && allocator.fixed.None? && allocator.byBed == map[]
      ensures Valid() && this.allocator == allocator && users == map[] && recovered == {}
    {
      this.allocator := allocator;
      users, recovered := map[], {};
    }

    /** Recover: the owners of the Bed's trees that exist become reserved for it, in order. */
    method Recover(bed: BedId, owners: seq<Uid>) returns (ok: bool)
      requires Valid()
      modifies this, allocator
      ensures Valid() && users == old(users) && recovered == old(recovered) + {bed}
      ensures ok ==> forall i :: 0 <= i < |owners| && allocator.uidMin <= owners[i] <= allocator.uidMax ==>
                       bed in allocator.byBed && allocator.byBed[bed] == owners[i]
      ensures forall b :: b != bed && b in old(allocator.byBed) ==>
          b in allocator.byBed && allocator.byBed[b] == old(allocator.byBed)[b]
    {
      recovered := recovered + {bed};
      for i := 0 to |owners|
        invariant Valid() && users == old(users) && recovered == old(recovered) + {bed}
        invariant forall k :: 0 <= k < i && allocator.uidMin <= owners[k] <= allocator.uidMax ==>
          bed in allocator.byBed && allocator.byBed[bed] == owners[k]
        invariant forall b :: b != bed && b in old(allocator.byBed) ==>
            b in allocator.byBed && allocator.byBed[b] == old(allocator.byBed)[b]
      {
        var reserved := allocator.Reserve(bed, owners[i]);
        if !reserved {
          return false;
        }
      }
      ok := true;
    }

    /** Prepare: the Bed keeps the user it was recovered with, if it was. */
    method Prepare(bed: BedId, slot: int) returns (r: Option<Uid>)
      requires Valid() && 0 <= slot < allocator.uidMax - allocator.uidMin + 1
      modifies this, allocator
      ensures Valid() && recovered == old(recovered)
      ensures bed in old(allocator.byBed) ==> r == Some(old(allocator.byBed)[bed])
      ensures r.Some? ==> users == old(users)[bed := r.value] && allocator.byBed == old(allocator.byBed)[bed := r.value]
      ensures r.None? ==> users == old(users) && allocator.byBed == old(allocator.byBed)
                          && forall u :: allocator.uidMin <= u <= allocator.uidMax ==> u in old(allocator.ownerUID)
    {
      if bed in users {
        assert users == users[bed := users[bed]] && allocator.byBed == allocator.byBed[bed := users[bed]];
        return Some(users[bed]);
      }
      r := allocator.Acquire(bed, slot);
      if r.Some? {
        users := users[bed := r.value];
      }
    }

    /** Forget frees the Bed's user and no other; forgetting again changes nothing. */
    method Forget(bed: BedId)
      requires Valid()
      modifies this, allocator
      ensures Valid() && allocator.byBed == old(allocator.byBed) - {bed}
      ensures users == old(users) - {bed} && recovered == old(recovered) - {bed}
    {
      if bed in users {
        allocator.Release(bed);
        users := users - {bed};
      } else if bed in recovered {
        allocator.Release(bed);
      }
      recovered := recovered - {bed};
    }
  }
}
