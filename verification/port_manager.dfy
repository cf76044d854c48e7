/** The port manager: its live allocations and the cursor of its pool. */
module PortManager {
  import opened Common
  import opened Ports

  datatype Allocation = Allocation(owner: string, scope: string, host: Host, port: int, listening: bool)

  /**
  An address as the manager parses it: no host when it is not a literal address, no port when it is not
  a number, and whether the port is spelled "0".
  */
  datatype Address = Malformed | Address(host: Option<Host>, port: Option<int>, spelledZero: bool)

  datatype Outcome = Reserved(id: int) | PortsExhausted | InvalidRequest | ManagerClosed | CheckFailed

  const MAX_PORT: int := 65_535

  predicate Conflict(a: Allocation, b: Allocation) {
    a.scope == b.scope && a.port == b.port && Overlap(a.host, b.host)
  }

  predicate Acceptable(owner: string, address: Address) {
    && address.Address? && address.host.Some? && address.port.Some?
    && 0 <= address.port.value <= MAX_PORT && owner != ""
  }

  /** Two allocations conflict exactly when some address and port of a scope belongs to both. */
  lemma ConflictIsSharing(a: Allocation, b: Allocation)
    ensures Conflict(a, b) <==>
            && a.scope == b.scope && a.port == b.port
            && exists v4, value :: Serves(a.host, v4, value) && Serves(b.host, v4, value)
  {
    OverlapMeansSharedAddress(a.host, b.host);
  }

  /** What a call on an open manager finds: a pool search, or the one port asked for. */
  function Outlook(first: int, last: int, next: int, taken: set<int>, local: bool, probe: int -> Probe, port: int,
      attempts: nat): Found
    requires first <= last && attempts > 0
  {
    if port == 0 && !local then Scan(first, last, next, taken, last - first + 1)
    else if port == 0 then Search(first, last, next, taken, probe, attempts)
    else if port in taken then Exhausted(next)
    else if !local || probe(port) == Bindable then Got(port, next)
    else if probe(port) == Busy then Exhausted(next)
    else ProbeFailed(next)
  }

  class Manager {
    const first: int
    const last: int
    var next: int
    var closed: bool
    var allocations: map<int, Allocation>
    var issued: int

    /** Live allocations never conflict with one another. */
    ghost predicate Valid()
      reads this
    {
      && 1 <= first <= next <= last <= MAX_PORT
      && (forall id :: id in allocations ==> id < issued)
      && (forall i, j :: i in allocations && j in allocations && i != j ==> !Conflict(allocations[i], allocations[j]))
    }

    constructor (first: int, last: int)
      requires 1 <= first <= last <= MAX_PORT
      ensures Valid() && allocations == map[] && this.first == first && this.last == last && !closed
    {
      this.first, this.last, next, closed, allocations, issued := first, last, first, false, map[], 0;
    }

    /** The ports that a live allocation keeps from this scope and host. */
    ghost function Taken(scope: string, host: Host): set<int>
      reads this
    {
      set id | id in allocations && allocations[id].scope == scope
          && Overlap(allocations[id].host, host) :: allocations[id].port
    }

    method IsTaken(scope: string, host: Host, port: int) returns (conflict: bool)
      ensures conflict <==> port in Taken(scope, host)
    {
      var rest := allocations.Keys;
      while rest != {}
        invariant rest <= allocations.Keys
        invariant forall id :: id in allocations && id !in rest ==>
          !(allocations[id].scope == scope && allocations[id].port == port && Overlap(allocations[id].host, host))
      {
        ghost var some := SomeMember(rest);
        var id :| id in rest;
        rest := rest - {id};
        if allocations[id].scope == scope && allocations[id].port == port && Overlap(allocations[id].host, host) {
          return true;
        }
      }
      conflict := false;
    }

    /** The inner loop of reserve: the port it would allocate, with the cursor moved past it. */
    method Choose(scope: string, host: Host, port: int) returns (r: Option<int>)
      requires Valid()
      modifies this`next
      ensures Valid()
      ensures port == 0 ==>
                Scan(first, last, old(next), Taken(scope, host), last - first + 1) ==
                if r.Some? then Got(r.value, next) else Exhausted(next)
      ensures port != 0 ==> next == old(next) && r == if port in Taken(scope, host) then None else Some(port)
      ensures r.Some? ==> r.value !in Taken(scope, host)
    {
      if port != 0 {
        var conflict := IsTaken(scope, host, port);
        return if conflict then None else Some(port);
      }
      var n := last - first + 1;
      for i := 0 to n
        invariant first <= next <= last
        invariant Scan(first, last, old(next), Taken(scope, host), n) ==
                  Scan(first, last, next, Taken(scope, host), n - i)
      {
        var candidate := next;
        next := next + 1;
        if next > last {
          next := first;
        }
        var conflict := IsTaken(scope, host, candidate);
        if !conflict {
          return Some(candidate);
        }
      }
      r := None;
    }

    method Record(a: Allocation) returns (id: int)
      requires Valid() && a.port !in Taken(a.scope, a.host)
      modifies this`allocations, this`issued
      ensures Valid() && id !in old(allocations) && allocations == old(allocations)[id := a]
    {
      OverlapIsSymmetric();
      id := issued;
      issued := issued + 1;
      allocations := allocations[id := a];
      forall i | i in old(allocations) ensures !Conflict(old(allocations)[i], a) {
        assert old(allocations)[i].scope == a.scope && Overlap(old(allocations)[i].host, a.host) ==>
                 old(allocations)[i].port in old(Taken(a.scope, a.host));
      }
    }

    /**
    Reserve. `probe` is what binding each port of the carrier would find during the call; it is not asked
    for another scope. The outcome and the cursor are those of `Outlook`; a new allocation conflicts with
    no live one, and a refusal leaves the allocations as they were.
    */
    method Reserve(owner: string, scope: string, address: Address, probe: int -> Probe) returns (r: Outcome)
      requires Valid() && (address.Address? && address.spelledZero ==> address.port == Some(0))
      modifies this
      ensures Valid() && closed == old(closed)
      ensures closed ==> r.ManagerClosed?
      ensures r.InvalidRequest? <==>
              !closed && (owner == "" || address.Malformed? || address.host.None? || address.port.None?
                          || address.port.value < 0 || address.port.value > 65_535)
      ensures !closed && Acceptable(owner, address) ==>
                var f := Outlook(first, last, old(next), old(Taken(scope, address.host.value)), scope == "", probe,
                                address.port.value, if address.spelledZero then last - first + 1 else 1);
                && next == f.next
                && (r.Reserved? <==> f.Got?) && (r.PortsExhausted? <==> f.Exhausted?)
                && (r.CheckFailed? <==> f.ProbeFailed?)
                && (r.Reserved? ==>
                      && r.id !in old(allocations)
                      && allocations ==
                         old(allocations)[r.id := Allocation(owner, scope, address.host.value, f.port, false)])
      ensures !r.Reserved? ==> allocations == old(allocations)
    {
      if closed {
        return ManagerClosed;
      }
      if !Acceptable(owner, address) {
        return InvalidRequest;
      }
      var host, port := address.host.value, address.port.value;
      var attempts := if address.spelledZero then last - first + 1 else 1;
      var chosen := Find(scope, host, port, probe, attempts);
      match chosen
      case Got(p, _) =>
        var id := Record(Allocation(owner, scope, host, p, false));
        r := Reserved(id);
      case Exhausted(_) => r := PortsExhausted;
      case ProbeFailed(_) => r := CheckFailed;
    }

    /** The attempts of Reserve; a candidate that is busy is given back before the next attempt. */
    method Find(scope: string, host: Host, port: int, probe: int -> Probe, attempts: nat) returns (f: Found)
      requires Valid() && attempts > 0 && (port != 0 ==> attempts == 1)
      modifies this`next
      ensures Valid() && next == f.next
      ensures f == Outlook(first, last, old(next), Taken(scope, host), scope == "", probe, port, attempts)
      ensures f.Got? ==> f.port !in Taken(scope, host)
    {
      var i := 0;
      while i < attempts
        invariant i <= attempts && first <= next <= last
        invariant port == 0 && scope == "" ==>
          Search(first, last, old(next), Taken(scope, host), probe, attempts) ==
          Search(first, last, next, Taken(scope, host), probe, attempts - i)
        invariant port == 0 && scope != "" ==> i == 0 && next == old(next)
        invariant port != 0 ==> next == old(next) && (i > 0 ==>
            scope == "" && port !in Taken(scope, host) && probe(port) == Busy)
      {
        var candidate := Choose(scope, host, port);
        if candidate.None? {
          return Exhausted(next);
        }
        if scope != "" {
          return Got(candidate.value, next);
        }
        match probe(candidate.value)
        case Bindable => return Got(candidate.value, next);
        case Broken => return ProbeFailed(next);
        case Busy =>
        i := i + 1;
      }
      f := Exhausted(next);
    }

    /** Listen: the allocation keeps the listener; from the pool, any failed bind costs an attempt. */
    method Listen(owner: string, host: Host, port: int, bindable: int -> bool) returns (r: Outcome)
      requires Valid() && 0 <= port <= MAX_PORT
      modifies this
      ensures Valid() && closed == old(closed)
      ensures closed ==> r.ManagerClosed?
      ensures !closed && owner == "" ==> r.InvalidRequest?
      ensures !closed && owner != "" ==>
                && (r.PortsExhausted? <==> forall p :: InPool(first, last, port, p) ==>
                    p in old(Taken("", host)) || (port == 0 && !bindable(p)))
                && (r.CheckFailed? <==> port != 0 && port !in old(Taken("", host)) && !bindable(port))
                && (r.Reserved? ==>
                      && r.id !in old(allocations) && r.id in allocations
                      && allocations == old(allocations)[r.id := allocations[r.id]]
                      && var a := allocations[r.id];
                         a == Allocation(owner, "", host, a.port, true) && InPool(first, last, port, a.port)
                             && bindable(a.port))
      ensures !r.Reserved? ==> allocations == old(allocations)
    {
      if closed {
        return ManagerClosed;
      }
      if owner == "" {
        return InvalidRequest;
      }
      var probe := (p: int) => if bindable(p) then Bindable else Busy;
      var n := last - first + 1;
      RefusalIsExact(first, last, next, Taken("", host), true, probe, port, n);
      var chosen := Find("", host, port, probe, if port == 0 then n else 1);
      match chosen
      case Got(p, _) =>
        var id := Record(Allocation(owner, "", host, p, true));
        r := Reserved(id);
      case Exhausted(_) =>
        if port == 0 {
          return PortsExhausted;
        }
        var conflict := IsTaken("", host, port);
        r := if conflict then PortsExhausted else CheckFailed;
      case ProbeFailed(_) => r := CheckFailed;
    }

    /** Release: an allocation stays while a listener it holds cannot be closed; a second release does nothing. */
    method Release(id: int, closes: bool) returns (ok: bool)
      requires Valid()
      modifies this`allocations
      ensures Valid()
      ensures ok <==> id !in old(allocations) || !old(allocations)[id].listening || closes
      ensures allocations == if ok then old(allocations) - {id} else old(allocations)
    {
      if id !in allocations {
        assert allocations - {id} == allocations;
        return true;
      }
      if allocations[id].listening {
        if !closes {
          return false;
        }
      }
      allocations := allocations - {id};
      ok := true;
    }

    /** Close: every allocation goes, whether or not its listener can be closed. */
    method Close()
      requires Valid()
      modifies this
      ensures Valid() && closed && allocations == map[]
    {
      closed := true;
      allocations := map[];
    }
  }

  /** The ports a request may be given: the pool's, or the one it names. */
  predicate InPool(first: int, last: int, port: int, p: int) {
    if port == 0 then InRange(first, last, p) else p == port
  }

  /**
  With an attempt per port of the pool, a call reports exhaustion exactly when every port it may give
  out conflicts with a live allocation or is bound by somebody else; otherwise what it gives out is neither.
  */
  lemma RefusalIsExact(first: int, last: int, next: int, taken: set<int>, local: bool, probe: int -> Probe,
      port: int, attempts: nat)
    requires first <= next <= last && attempts == last - first + 1
    ensures var f := Outlook(first, last, next, taken, local, probe, port, if port == 0 then attempts else 1);
            && (f.Exhausted? <==> forall p :: InPool(first, last, port, p) ==>
                p in taken || (local && probe(p) == Busy))
            && (f.Got? ==>
                InPool(first, last, port, f.port) && f.port !in taken && (local ==> probe(f.port) == Bindable))
            && (f.ProbeFailed? ==> local && exists p ::
                InPool(first, last, port, p) && p !in taken && probe(p) == Broken)
  {
    if port == 0 && local {
      ExhaustionIsExact(first, last, next, taken, probe);
      assert forall p :: InRange(first, last, p) ==> (Free(taken, probe, p) <==> !(p in taken || probe(p) == Busy));
      if !Search(first, last, next, taken, probe, attempts).Exhausted? {
        var p := SearchFinds(first, last, next, taken, probe, attempts);
        assert InPool(first, last, port, p);
      }
    } else if port == 0 {
      var steps := ScanFinds(first, last, next, taken, attempts);
      if Scan(first, last, next, taken, attempts).Exhausted? {
        forall p | InPool(first, last, port, p) ensures p in taken {
          var k := LapCovers(first, last, next, p);
        }
      }
    } else {
      assert InPool(first, last, port, port);
    }
  }

  lemma OverlapIsSymmetric()
    ensures forall a, b :: Overlap(a, b) == Overlap(b, a)
  {
  }
}
