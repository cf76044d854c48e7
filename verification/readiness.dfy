/** Readiness of one execution: threshold counters against the whole observation history. */
module Readiness {
  import opened Common

  datatype Probe = Probe(successThreshold: int, failureThreshold: int)
  datatype Result = Result(ready: bool, reason: string)

  const MAX_THRESHOLD: int := 1_000
  const PENDING: string := "ReadinessSuccessThresholdPending"

  /** The thresholds of a validated probe: zero takes the default. */
  function Normalize(p: Probe): (r: Option<Probe>)
    ensures r.Some? <==> 0 <= p.successThreshold <= MAX_THRESHOLD && 0 <= p.failureThreshold <= MAX_THRESHOLD
    ensures r.Some? ==> r.value.successThreshold >= 1 && r.value.failureThreshold >= 1
    ensures r.Some? && p.successThreshold != 0 ==> r.value.successThreshold == p.successThreshold
    ensures r.Some? && p.failureThreshold != 0 ==> r.value.failureThreshold == p.failureThreshold
    ensures p == Probe(0, 0) ==> r == Some(Probe(1, 3))
  {
    if p.successThreshold < 0 || p.failureThreshold < 0 then None
    else if p.successThreshold > MAX_THRESHOLD || p.failureThreshold > MAX_THRESHOLD then None
    else Some(Probe(if p.successThreshold == 0 then 1 else p.successThreshold,
                    if p.failureThreshold == 0 then 3 else p.failureThreshold))
  }

  function Thresholds(p: Option<Probe>): Probe {
    if p.Some? then p.value else Probe(1, 1)
  }

  // ---------------------------------------------------------------- the definition over the history

  /** The `n` observations up to `i` all had the outcome `v`. */
  predicate RunEndsAt(h: seq<bool>, v: bool, n: int, i: int) {
    0 <= n <= i <= |h| && forall k :: i - n <= k < i ==> h[k] == v
  }

  /** A long enough run of successes, with no long enough run of failures after it. */
  ghost predicate IsReady(h: seq<bool>, p: Probe) {
    exists i :: RunEndsAt(h, true, p.successThreshold, i) && NoFailureRunAfter(h, p.failureThreshold, i)
  }

  ghost predicate NoFailureRunAfter(h: seq<bool>, n: int, i: int) {
    forall j :: i < j <= |h| ==> !RunEndsAt(h, false, n, j)
  }

  /** How many observations at the end of the history have the outcome `v`. */
  function Trailing(h: seq<bool>, v: bool): nat {
    if h == [] || h[|h| - 1] != v then 0 else Trailing(h[..|h| - 1], v) + 1
  }

  lemma {:induction false} TrailingIsRun(h: seq<bool>, v: bool, n: nat)
    ensures n <= Trailing(h, v) <==> RunEndsAt(h, v, n, |h|)
  {
    if h != [] && n > 0 {
      var front := h[..|h| - 1];
      TrailingIsRun(front, v, n - 1);
      if h[|h| - 1] == v && RunEndsAt(front, v, n - 1, |front|) {
        assert forall k :: |h| - n <= k < |h| - 1 ==> h[k] == front[k];
      }
      if RunEndsAt(h, v, n, |h|) {
        assert forall k :: |front| - (n - 1) <= k < |front| ==> front[k] == h[k];
      }
    }
  }

  lemma RunsOfPrefix(h: seq<bool>, b: bool, v: bool, n: int, i: int)
    requires i <= |h|
    ensures RunEndsAt(h + [b], v, n, i) == RunEndsAt(h, v, n, i)
  {
    if 0 <= n <= i {
      assert forall k :: i - n <= k < i ==> (h + [b])[k] == h[k];
    }
  }

  lemma NoRunAfter(h: seq<bool>, b: bool, n: int, i: int)
    requires i <= |h|
    ensures NoFailureRunAfter(h + [b], n, i) <==> NoFailureRunAfter(h, n, i) && !RunEndsAt(h + [b], false, n, |h| + 1)
  {
    var more := h + [b];
    if NoFailureRunAfter(more, n, i) {
      forall j | i < j <= |h| ensures !RunEndsAt(h, false, n, j) { RunsOfPrefix(h, b, false, n, j); }
    }
    if NoFailureRunAfter(h, n, i) && !RunEndsAt(more, false, n, |h| + 1) {
      forall j | i < j <= |more| ensures !RunEndsAt(more, false, n, j) {
        if j <= |h| { RunsOfPrefix(h, b, false, n, j); }
      }
    }
  }

  /** One more observation, by the definition. */
  lemma ReadyAfter(h: seq<bool>, b: bool, p: Probe)
    requires p.successThreshold >= 1 && p.failureThreshold >= 1
    ensures IsReady(h + [b], p) <==>
            if b then IsReady(h, p) || RunEndsAt(h + [b], true, p.successThreshold, |h| + 1)
            else IsReady(h, p) && !RunEndsAt(h + [b], false, p.failureThreshold, |h| + 1)
  {
    var more, s, f := h + [b], p.successThreshold, p.failureThreshold;
    if i :| RunEndsAt(more, true, s, i) && NoFailureRunAfter(more, f, i) {
      assert more[i - 1];
      if i <= |h| {
        RunsOfPrefix(h, b, true, s, i);
        NoRunAfter(h, b, f, i);
      }
    }
    if i :| RunEndsAt(h, true, s, i) && NoFailureRunAfter(h, f, i) {
      RunsOfPrefix(h, b, true, s, i);
      NoRunAfter(h, b, f, i);
      if b { assert more[|h|]; }
    }
    if b && RunEndsAt(more, true, s, |h| + 1) {
      assert NoFailureRunAfter(more, f, |h| + 1);
    }
  }

  // ---------------------------------------------------------------- the counters

  function Min(a: int, b: int): int {
    if a < b then a else b
  }

  class Tracker {
    var ready: bool
    var successes: int
    var failures: int
    ghost const probe: Option<Probe>
    ghost var history: seq<bool>

    /** The saturating counters and the flag say what the whole history says. */
    ghost predicate Valid()
      reads this
    {
      var p := Thresholds(probe);
      && p.successThreshold >= 1 && p.failureThreshold >= 1
      && (ready <==> IsReady(history, p))
      && successes == Min(Trailing(history, true), p.successThreshold)
      && failures == Min(Trailing(history, false), p.failureThreshold)
    }

    constructor (ghost probe: Option<Probe>)
      requires probe.Some? ==> probe.value.successThreshold >= 1 && probe.value.failureThreshold >= 1
      ensures Valid() && history == [] && !ready && this.probe == probe
    {
      ready, successes, failures, history := false, 0, 0, [];
      this.probe := probe;
    }

    /** observe: after any history, ready exactly when the definition says so. */
    method Observe(result: Result, probe: Option<Probe>) returns (r: Result)
      requires Valid() && probe == this.probe
      modifies this
      ensures Valid() && history == old(history) + [result.ready]
      ensures r.ready <==> IsReady(history, Thresholds(probe))
      ensures !r.ready ==> r.reason == if result.ready then PENDING else result.reason
    {
      var p := Thresholds(probe);
      ghost var before := history;
      history := history + [result.ready];
      ReadyAfter(before, result.ready, p);
      assert history[..|history| - 1] == before;
      TrailingIsRun(history, true, p.successThreshold);
      TrailingIsRun(history, false, p.failureThreshold);
      if result.ready {
        failures := 0;
        successes := Min(successes + 1, p.successThreshold);
        if successes >= p.successThreshold {
          ready := true;
        }
      } else {
        successes := 0;
        failures := Min(failures + 1, p.failureThreshold);
        if failures >= p.failureThreshold {
          ready := false;
        }
      }
      if ready {
        return Result(true, "");
      }
      if result.ready {
        return Result(false, PENDING);
      }
      r := result;
    }
  }
}
