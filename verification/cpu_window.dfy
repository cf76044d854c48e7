/**
The carrier's CPU usage window: samples of cumulative CPU time, pruned to the last ten seconds and
interpolated at the boundary. Times and usages are reals; rounding is not modelled.
*/
module CpuWindow {
  import opened Common

  datatype Sample = Sample(at: real, usage: real)

  const WINDOW: real := 10.0

  // ---------------------------------------------------------------- the full-history computation

  /** Samples since the last reset: strictly later, and never less CPU time. */
  ghost predicate History(h: seq<Sample>) {
    forall i, j :: 0 <= i < j < |h| ==> h[i].at < h[j].at && h[i].usage <= h[j].usage
  }

  function Between(a: Sample, b: Sample, t: real): real
    requires a.at < b.at
  {
    a.usage + (b.usage - a.usage) * (t - a.at) / (b.at - a.at)
  }

  /** The piecewise-linear curve through all the samples. */
  ghost function CurveAt(h: seq<Sample>, t: real): real
    requires h != [] && History(h) && h[0].at <= t <= h[|h| - 1].at
  {
    if |h| == 1 then h[0].usage
    else if t <= h[1].at then Between(h[0], h[1], t)
    else CurveAt(h[1..], t)
  }

  /** Where the window starts: ten seconds back, or at the first sample. */
  function WindowStart(first: real, now: real): real {
    if first < now - WINDOW then now - WINDOW else first
  }

  function Rate(gained: real, elapsed: real, limit: real): real
    requires elapsed > 0.0 && limit > 0.0
  {
    gained / elapsed / limit * 100.0
  }

  lemma RateIsNonNegative(gained: real, elapsed: real, limit: real)
    requires elapsed > 0.0 && limit > 0.0 && gained >= 0.0
    ensures Rate(gained, elapsed, limit) >= 0.0
  {
  }

  /** CPU time over the window, per elapsed time, as a percentage of the limit. */
  ghost function FullUsage(h: seq<Sample>, limit: real): real
    requires |h| >= 2 && History(h) && limit > 0.0
  {
    var last := h[|h| - 1];
    var start := WindowStart(h[0].at, last.at);
    Rate(last.usage - CurveAt(h, start), last.at - start, limit)
  }

  lemma ProductOrder(a: real, b: real, d: real)
    requires a <= b && d >= 0.0
    ensures a * d <= b * d
  {
  }

  lemma QuotientOrder(p: real, w: real, d: real)
    requires d > 0.0 && p <= w * d
    ensures p / d <= w
  {
  }

  lemma QuotientNonNegative(p: real, d: real)
    requires d > 0.0 && p >= 0.0
    ensures p / d >= 0.0
  {
  }

  /** A share of `w` is between nothing and all of it. */
  lemma ShareIsBounded(w: real, x: real, d: real)
    requires w >= 0.0 && 0.0 <= x <= d && d > 0.0
    ensures 0.0 <= w * x / d <= w
  {
    ProductOrder(x, d, w);
    ProductOrder(0.0, x, w);
    QuotientOrder(w * x, w, d);
    QuotientNonNegative(w * x, d);
  }

  lemma BetweenIsBounded(a: Sample, b: Sample, t: real)
    requires a.at < b.at && a.usage <= b.usage && a.at <= t <= b.at
    ensures a.usage <= Between(a, b, t) <= b.usage
  {
    ShareIsBounded(b.usage - a.usage, t - a.at, b.at - a.at);
  }

  lemma BetweenAtEnd(a: Sample, b: Sample)
    requires a.at < b.at
    ensures Between(a, b, b.at) == b.usage
  {
  }

  lemma BetweenAtStart(a: Sample, b: Sample)
    requires a.at < b.at
    ensures Between(a, b, a.at) == a.usage
  {
  }

  lemma CurveOnFirst(h: seq<Sample>, t: real)
    requires |h| >= 2 && History(h) && h[0].at <= t <= h[1].at
    ensures CurveAt(h, t) == Between(h[0], h[1], t)
  {
  }

  /** The curve never exceeds the last sample, so the usage of a window is not negative. */
  lemma {:induction false} CurveIsBounded(h: seq<Sample>, t: real)
    requires h != [] && History(h) && h[0].at <= t <= h[|h| - 1].at
    ensures h[0].usage <= CurveAt(h, t) <= h[|h| - 1].usage
  {
    hide Between;
    if |h| > 1 {
      if t <= h[1].at {
        BetweenIsBounded(h[0], h[1], t);
      } else {
        CurveIsBounded(h[1..], t);
      }
    }
  }

  /** Samples before the last one at or before `t` do not matter at `t`. */
  lemma {:induction false} PruningKeepsCurve(h: seq<Sample>, k: nat, t: real)
    requires k < |h| && History(h) && h[k].at <= t <= h[|h| - 1].at && h[0].at <= t
    ensures History(h[k..]) && CurveAt(h[k..], t) == CurveAt(h, t)
  {
    hide Between;
    if k > 0 {
      PruningKeepsCurve(h[1..], k - 1, t);
      assert h[1..][k - 1..] == h[k..];
      if t <= h[1].at {
        assert t == h[1].at;
        BetweenAtEnd(h[0], h[1]);
        if |h| > 2 { BetweenAtStart(h[1], h[2]); }
      }
    } else {
      assert h[0..] == h;
    }
  }

  lemma UsageIsNonNegative(h: seq<Sample>, limit: real)
    requires |h| >= 2 && History(h) && limit > 0.0
    ensures FullUsage(h, limit) >= 0.0
  {
    hide Rate, CurveAt;
    var last := h[|h| - 1];
    var start := WindowStart(h[0].at, last.at);
    CurveIsBounded(h, start);
    RateIsNonNegative(last.usage - CurveAt(h, start), last.at - start, limit);
  }

  // ---------------------------------------------------------------- what the report means

  /** The point lies on the straight line through the two samples. */
  predicate OnLine(a: Sample, b: Sample, at: real, usage: real) {
    (usage - a.usage) * (b.at - a.at) == (b.usage - a.usage) * (at - a.at)
  }

  lemma BetweenIsOnLine(a: Sample, b: Sample, t: real)
    requires a.at < b.at
    ensures OnLine(a, b, t, Between(a, b, t))
  {
  }

  /** The curve passes through every sample and is straight between two of them. */
  lemma CurveIsStraight(h: seq<Sample>, i: nat, t: real)
    requires i + 1 < |h| && History(h) && h[i].at <= t <= h[i + 1].at && h[0].at <= t <= h[|h| - 1].at
    ensures OnLine(h[i], h[i + 1], t, CurveAt(h, t))
  {
    hide Between, OnLine, CurveAt;
    PruningKeepsCurve(h, i, t);
    CurveOnFirst(h[i..], t);
    BetweenIsOnLine(h[i], h[i + 1], t);
  }

  lemma RateIs(gained: real, elapsed: real, limit: real)
    requires elapsed > 0.0 && limit > 0.0
    ensures Rate(gained, elapsed, limit) * (elapsed * limit) == gained * 100.0
  {
    var perSecond := gained / elapsed;
    assert perSecond * elapsed == gained;
    assert perSecond / limit * limit == perSecond;
    calc {
      Rate(gained, elapsed, limit) * (elapsed * limit);
      perSecond / limit * 100.0 * (elapsed * limit);
      perSecond / limit * limit * elapsed * 100.0;
      gained * 100.0;
    }
  }

  /** The report is the CPU time of the last ten seconds, or of what there is, as a percentage of the limit's. */
  lemma ReportIsLastTenSeconds(h: seq<Sample>, limit: real)
    requires |h| >= 2 && History(h) && limit > 0.0
    ensures var last := h[|h| - 1];
            var elapsed := if last.at - h[0].at > 10.0 then 10.0 else last.at - h[0].at;
            FullUsage(h, limit) * (elapsed * limit) == (last.usage - CurveAt(h, last.at - elapsed)) * 100.0
  {
    hide Rate, CurveAt;
    var last := h[|h| - 1];
    var start := WindowStart(h[0].at, last.at);
    var elapsed := if last.at - h[0].at > 10.0 then 10.0 else last.at - h[0].at;
    assert elapsed == last.at - start && last.at - elapsed == start;
    RateIs(last.usage - CurveAt(h, start), elapsed, limit);
  }

  // ---------------------------------------------------------------- the pruned window

  class Window {
    var samples: seq<Sample>
    var limit: real
    ghost var history: seq<Sample> // every sample since the last reset

    /** The window is a suffix of the history that still reaches back to the last cutoff. */
    ghost predicate Valid()
      reads this
    {
      && History(history)
      && |samples| <= |history|
      && samples == history[|history| - |samples|..]
      && (history != [] ==> samples != [] && limit > 0.0)
      && (|samples| < |history| ==> samples[0].at <= history[|history| - 1].at - WINDOW)
    }

    constructor ()
      ensures Valid() && history == []
    {
      samples, limit, history := [], 0.0, [];
    }

    /** The sample continues the history: a later instant, no less CPU time, the same limit. */
    predicate Continues(now: real, usage: real, limit: real)
      reads this
      requires samples != []
    {
      var last := samples[|samples| - 1];
      usage >= last.usage && now > last.at && limit == this.limit
    }

    /** Adds a sample; what it reports is what the whole history since the last reset would give. */
    method Add(now: real, usage: real, limit: real) returns (r: Option<real>)
      requires Valid()
      modifies this
      ensures Valid()
      ensures limit <= 0.0 ==> history == [] && r.None?
      ensures limit > 0.0 ==>
                var earlier := old(samples);
                var compares := && earlier != [] && limit == old(this.limit)
                                && usage >= earlier[|earlier| - 1].usage && now > earlier[|earlier| - 1].at;
                history == (if compares then old(history) else []) + [Sample(now, usage)]
      ensures r.Some? <==> |history| >= 2
      ensures r.Some? ==> History(history) && r.value == FullUsage(history, limit) && r.value >= 0.0
    {
      hide History, FullUsage, Valid;
      if limit <= 0.0 {
        Clear();
        return None;
      }
      Restart(now, usage, limit);
      Observe(now, usage, limit);
      r := Measure(now, usage, limit);
    }

    /** A sample that cannot be compared with the last one starts a new history. */
    method Restart(now: real, usage: real, limit: real)
      requires Valid()
      modifies this
      ensures Valid() && history == if old(samples != [] && Continues(now, usage, limit)) then old(history) else []
      ensures samples != [] ==> Continues(now, usage, limit)
    {
      if samples != [] && !Continues(now, usage, limit) {
        Clear();
      }
    }

    method Measure(now: real, usage: real, limit: real) returns (r: Option<real>)
      requires Valid() && Settled(now) && limit > 0.0 && history != [] && history[|history| - 1] == Sample(now, usage)
      ensures r.Some? <==> |history| >= 2
      ensures r.Some? ==> History(history) && r.value == FullUsage(history, limit) && r.value >= 0.0
    {
      if |samples| < 2 {
        return None;
      }
      UsageIsNonNegative(history, limit);
      var share := Report(now, usage, limit);
      r := Some(share);
    }

    /** The window has been pruned for `now`. */
    ghost predicate Settled(now: real)
      reads this
    {
      && (|history| >= 2 <==> |samples| >= 2)
      && (|samples| < |history| ==> samples != [] && samples[0].at <= now - WINDOW)
      && (|samples| > 1 ==> samples[1].at > now - WINDOW)
    }

    /** A sample that continues the history, and the pruning after it. */
    method Observe(now: real, usage: real, limit: real)
      requires Valid() && limit > 0.0
      requires samples != [] ==> Continues(now, usage, limit)
      modifies this
      ensures Valid() && history == old(history) + [Sample(now, usage)]
      ensures Settled(now)
    {
      hide History;
      Extend(now, usage, limit);
      Prune(now - WINDOW);
    }

    method Clear()
      modifies this
      ensures Valid() && history == [] && samples == []
    {
      samples, limit, history := [], 0.0, [];
    }

    method Extend(now: real, usage: real, limit: real)
      requires Valid() && limit > 0.0
      requires samples != [] ==> Continues(now, usage, limit)
      modifies this
      ensures History(history) && history == old(history) + [Sample(now, usage)]
      ensures samples == old(samples) + [Sample(now, usage)] && |samples| <= |history|
      ensures samples == history[|history| - |samples|..] && this.limit == limit
      ensures |samples| < |history| ==> samples[0].at <= now - WINDOW
    {
      this.limit := limit;
      samples := samples + [Sample(now, usage)];
      history := history + [Sample(now, usage)];
    }

    method Prune(cutoff: real)
      requires History(history) && samples != [] && |samples| <= |history|
          && samples == history[|history| - |samples|..]
      requires history[|history| - 1].at == cutoff + WINDOW
      requires |samples| < |history| ==> samples[0].at <= cutoff
      modifies this`samples
      ensures samples != [] && |samples| <= |history| && samples == history[|history| - |samples|..]
      ensures |samples| < |history| ==> samples[0].at <= cutoff
      ensures |samples| > 1 ==> samples[1].at > cutoff
      ensures |history| >= 2 <==> |samples| >= 2
    {
      while |samples| > 1 && samples[1].at <= cutoff
        invariant samples != [] && |samples| <= |history| && samples == history[|history| - |samples|..]
        invariant |samples| < |history| ==> samples[0].at <= cutoff
        invariant |history| >= 2 ==> |samples| >= 2
        decreases |samples|
      {
        assert samples[|samples| - 1] == history[|history| - 1];
        assert samples[1..] == history[|history| - (|samples| - 1)..];
        samples := samples[1..];
      }
    }

    /** The report from the pruned window, interpolating only its boundary interval. */
    method Report(now: real, usage: real, limit: real) returns (r: real)
      requires |history| >= |samples| >= 2 && History(history) && samples == history[|history| - |samples|..]
          && limit > 0.0
      requires history[|history| - 1] == Sample(now, usage)
      requires |samples| < |history| ==> samples[0].at <= now - WINDOW
      requires samples[1].at > now - WINDOW
      ensures r == FullUsage(history, limit)
    {
      hide CurveAt, Between, Rate;
      var cutoff := now - WINDOW;
      var first := samples[0];
      var start, baseline := first.at, first.usage;
      ghost var k := |history| - |samples|;
      if start < cutoff {
        baseline := Between(first, samples[1], cutoff);
        start := cutoff;
      } else {
        BetweenAtStart(samples[0], samples[1]);
      }
      assert start == WindowStart(history[0].at, now);
      PruningKeepsCurve(history, k, start);
      assert history[k..] == samples;
      CurveOnFirst(samples, start);
      r := Rate(usage - baseline, now - start, limit);
    }
  }
}
