/** Daemon-wide port reservations: overlapping hosts and the cyclic search for a free port. */
module Ports {
  import opened Common

  /** An empty host, the text "::", or a literal address with 4-in-6 forms unmapped. */
  datatype Host = AnyHost | Any6 | Ip(v4: bool, value: int)

  predicate Unspecified(h: Host)
    requires h.Ip?
  {
    h.value == 0
  }

  predicate Overlap(a: Host, b: Host) {
    || !a.Ip? || !b.Ip?
    || a == b
    || (a.v4 == b.v4 && (Unspecified(a) || Unspecified(b)))
  }

  /** The addresses a listener on the host answers for, with the text "::" alone counted as dual-stack. */
  predicate Serves(h: Host, v4: bool, value: int) {
    match h
    case AnyHost => true
    case Any6 => true
    case Ip(family, x) => family == v4 && (x == 0 || x == value)
  }

  /** Two hosts overlap exactly when some address belongs to both. */
  lemma OverlapMeansSharedAddress(a: Host, b: Host)
    ensures Overlap(a, b) <==> exists v4, value :: Serves(a, v4, value) && Serves(b, v4, value)
  {
    if Overlap(a, b) {
      var v4 := if a.Ip? then a.v4 else if b.Ip? then b.v4 else true;
      var value := if a.Ip? && a.value != 0 then a.value else if b.Ip? then b.value else 0;
      assert Serves(a, v4, value) && Serves(b, v4, value);
    }
  }

  /** The wildcard IPv6 address, however it is spelled. */
  predicate Wildcard6(h: Host) {
    h.Any6? || h == Ip(false, 0)
  }

  /** What a listener on the host may answer for: the wildcard IPv6 address is dual-stack in every spelling. */
  predicate ServesDual(h: Host, v4: bool, value: int) {
    Wildcard6(h) || Serves(h, v4, value)
  }

  ghost predicate Clash(a: Host, b: Host) {
    exists v4, value :: ServesDual(a, v4, value) && ServesDual(b, v4, value)
  }

  /** The test misses a clash exactly between a spelled-out wildcard IPv6 address and an IPv4 literal. */
  lemma SpelledWildcardIsMissed(a: Host, b: Host)
    ensures Overlap(a, b) ==> Clash(a, b)
    ensures Clash(a, b) && !Overlap(a, b) <==>
            (a == Ip(false, 0) && b.Ip? && b.v4) || (b == Ip(false, 0) && a.Ip? && a.v4)
  {
    OverlapMeansSharedAddress(a, b);
    if Overlap(a, b) {
      var v4, value :| Serves(a, v4, value) && Serves(b, v4, value);
      assert ServesDual(a, v4, value) && ServesDual(b, v4, value);
    } else if Wildcard6(a) && b.v4 {
      assert ServesDual(a, true, b.value) && ServesDual(b, true, b.value);
    } else if Wildcard6(b) && a.v4 {
      assert ServesDual(a, true, a.value) && ServesDual(b, true, a.value);
    }
  }

  // ---------------------------------------------------------------- the search

  datatype Probe = Bindable | Busy | Broken

  /** What one call finds, and where it leaves the cursor. */
  datatype Found = Got(port: int, next: int) | Exhausted(next: int) | ProbeFailed(next: int)

  predicate InRange(first: int, last: int, p: int) {
    first <= p <= last
  }

  function Advance(first: int, last: int, next: int): int {
    if next + 1 > last then first else next + 1
  }

  /** The inner loop: the first port from the cursor that no live allocation conflicts with. */
  function Scan(first: int, last: int, next: int, taken: set<int>, count: nat): Found
    decreases count
  {
    if count == 0 then Exhausted(next)
    else if next !in taken then Got(next, Advance(first, last, next))
    else Scan(first, last, Advance(first, last, next), taken, count - 1)
  }

  /** The outer loop: each candidate is probed, and a busy one only costs an attempt. */
  function Search(first: int, last: int, next: int, taken: set<int>, probe: int -> Probe, attempts: nat): Found
    requires first <= last
    decreases attempts
  {
    if attempts == 0 then Exhausted(next)
    else
      var candidate := Scan(first, last, next, taken, last - first + 1);
      if !candidate.Got? then candidate
      else match probe(candidate.port)
        case Bindable => candidate
        case Broken => ProbeFailed(candidate.next)
        case Busy => Search(first, last, candidate.next, taken, probe, attempts - 1)
  }

  /** A port of the pool that a reservation could use. */
  predicate Free(taken: set<int>, probe: int -> Probe, p: int) {
    p !in taken && probe(p) != Busy
  }

  /** The `k`th port from a cursor, wrapping round the range. */
  function Nth(first: int, last: int, next: int, k: nat): (p: int)
    requires first <= next <= last
    ensures first <= p <= last
    decreases k
  {
    if k == 0 then next else Nth(first, last, Advance(first, last, next), k - 1)
  }

  lemma {:induction false} NthSum(first: int, last: int, next: int, a: nat, b: nat)
    requires first <= next <= last
    ensures Nth(first, last, Nth(first, last, next, a), b) == Nth(first, last, next, a + b)
    decreases a
  {
    if a > 0 { NthSum(first, last, Advance(first, last, next), a - 1, b); }
  }

  lemma {:induction false} NthBeforeWrap(first: int, last: int, next: int, k: nat)
    requires first <= next && next + k <= last
    ensures Nth(first, last, next, k) == next + k
    decreases k
  {
    if k > 0 { NthBeforeWrap(first, last, next + 1, k - 1); }
  }

  /** The cursor reaches every port of the range within one lap. */
  lemma LapCovers(first: int, last: int, next: int, p: int) returns (k: nat)
    requires first <= next <= last && InRange(first, last, p)
    ensures k < last - first + 1 && Nth(first, last, next, k) == p
  {
    if p >= next {
      k := p - next;
      NthBeforeWrap(first, last, next, k);
    } else {
      var toEnd := last - next;
      k := toEnd + 1 + (p - first);
      NthBeforeWrap(first, last, next, toEnd);
      NthSum(first, last, next, toEnd, 1);
      assert Nth(first, last, last, 1) == first;
      NthBeforeWrap(first, last, first, p - first);
      NthSum(first, last, next, toEnd + 1, p - first);
    }
  }

  /** What a scan has passed over, and what it found. */
  lemma {:induction false} ScanFinds(first: int, last: int, next: int, taken: set<int>, count: nat) returns (steps: nat)
    requires first <= next <= last
    ensures var r := Scan(first, last, next, taken, count);
            && steps <= count && first <= r.next <= last
            && !r.ProbeFailed?
            && (forall k :: 0 <= k < steps ==> Nth(first, last, next, k) in taken)
            && (r.Exhausted? ==> steps == count)
            && (r.Got? ==> steps < count && r.port == Nth(first, last, next, steps) && r.port !in taken
                           && r.next == Nth(first, last, next, steps + 1))
    decreases count
  {
    if count == 0 || next !in taken {
      steps := 0;
    } else {
      var advanced := Advance(first, last, next);
      var rest := ScanFinds(first, last, advanced, taken, count - 1);
      steps := rest + 1;
      forall k | 0 <= k < steps ensures Nth(first, last, next, k) in taken {
        if k > 0 { assert Nth(first, last, next, k) == Nth(first, last, advanced, k - 1); }
      }
    }
  }

  /** A search that gives up has passed over at least one unusable port per attempt, in cursor order. */
  lemma {:induction false} SearchPasses(first: int, last: int, next: int, taken: set<int>, probe: int -> Probe,
      attempts: nat)
    returns (passed: nat)
    requires first <= next <= last && Search(first, last, next, taken, probe, attempts).Exhausted?
    ensures passed >= attempts || passed >= last - first + 1
    ensures forall k :: 0 <= k < passed ==> !Free(taken, probe, Nth(first, last, next, k))
    decreases attempts
  {
    if attempts == 0 {
      passed := 0;
    } else {
      var n := last - first + 1;
      var steps := ScanFinds(first, last, next, taken, n);
      var candidate := Scan(first, last, next, taken, n);
      passed := steps;
      if candidate.Got? {
        var rest := SearchPasses(first, last, candidate.next, taken, probe, attempts - 1);
        passed := steps + 1 + rest;
        forall k | 0 <= k < passed ensures !Free(taken, probe, Nth(first, last, next, k)) {
          if k > steps { NthSum(first, last, next, steps + 1, k - steps - 1); }
        }
      }
    }
  }

  /** With an attempt per port, exhaustion is reported exactly when no port of the pool is usable. */
  lemma ExhaustionIsExact(first: int, last: int, next: int, taken: set<int>, probe: int -> Probe)
    requires first <= next <= last
    ensures Search(first, last, next, taken, probe, last - first + 1).Exhausted? <==>
            forall p :: InRange(first, last, p) ==> !Free(taken, probe, p)
  {
    var n := last - first + 1;
    if Search(first, last, next, taken, probe, n).Exhausted? {
      var passed := SearchPasses(first, last, next, taken, probe, n);
      forall p | InRange(first, last, p) ensures !Free(taken, probe, p) {
        var k := LapCovers(first, last, next, p);
      }
    } else {
      var p := SearchFinds(first, last, next, taken, probe, n);
    }
  }

  /** Whatever else a search returns, it has found a port of the pool that nobody reserved. */
  lemma {:induction false} SearchFinds(first: int, last: int, next: int, taken: set<int>, probe: int -> Probe,
      attempts: nat)
    returns (p: int)
    requires first <= next <= last && !Search(first, last, next, taken, probe, attempts).Exhausted?
    ensures InRange(first, last, p) && Free(taken, probe, p)
    ensures var r := Search(first, last, next, taken, probe, attempts);
            (r.Got? ==> r.port == p && probe(p) == Bindable) && (r.ProbeFailed? ==> probe(p) == Broken)
    decreases attempts
  {
    var n := last - first + 1;
    var steps := ScanFinds(first, last, next, taken, n);
    var candidate := Scan(first, last, next, taken, n);
    assert candidate.Got?;
    p := candidate.port;
    if probe(p) == Busy {
      p := SearchFinds(first, last, candidate.next, taken, probe, attempts - 1);
    }
  }

  /**
  Reserve decides its attempts by the spelling of the port and chooses from the pool by its value. A
  zero that is not spelled "0" gets a single attempt, and reports exhaustion beside a usable port
  exactly when the first unreserved port from the cursor is busy.
  */
  lemma SpellingMatters(first: int, last: int, next: int, taken: set<int>, probe: int -> Probe, p: int)
    requires first <= next <= last && InRange(first, last, p) && Free(taken, probe, p)
    ensures !Search(first, last, next, taken, probe, last - first + 1).Exhausted?
    ensures var candidate := Scan(first, last, next, taken, last - first + 1);
            Search(first, last, next, taken, probe, 1).Exhausted? <==> candidate.Got? && probe(candidate.port) == Busy
  {
    ExhaustionIsExact(first, last, next, taken, probe);
    var n := last - first + 1;
    var steps := ScanFinds(first, last, next, taken, n);
    var k := LapCovers(first, last, next, p);
  }

  /** Two ports, the first busy: "00" finds none. */
  lemma OddSpellingMissesAFreePort()
    ensures exists probe: int -> Probe ::
              Search(1, 2, 1, {}, probe, 1).Exhausted? && Free({}, probe, 2)
  {
    var probe := (p: int) => if p == 1 then Busy else Bindable;
    assert Scan(1, 2, 1, {}, 2) == Got(1, 2);
    assert Search(1, 2, 1, {}, probe, 1).Exhausted? && Free({}, probe, 2);
  }
}
