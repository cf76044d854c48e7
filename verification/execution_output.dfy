/** The bounded output of an execution: a window of fragments with absolute sequence numbers. */
module ExecutionOutput {
  import opened Common

  datatype Stream = Stdout | Stderr
  datatype Fragment = Fragment(sequence: int, stream: Stream, text: string)
  datatype Logs = Logs(output: seq<Fragment>, next: int, truncated: bool)

  const MAX_BYTES: nat := 65_536
  const MAX_FRAGMENTS: nat := 1_024

  // ---------------------------------------------------------------- the history and its retained suffix

  /** A fragment over the byte budget keeps its end. */
  function Clip(f: Fragment): (r: Fragment)
    ensures r.sequence == f.sequence && r.stream == f.stream
    ensures |f.text| <= 65_536 ==> r.text == f.text
    ensures |f.text| > 65_536 ==> |r.text| == 65_536 && exists lost: string :: lost != [] && f.text == lost + r.text
  {
    assert |f.text| > MAX_BYTES ==> f.text == f.text[..|f.text| - MAX_BYTES] + f.text[|f.text| - MAX_BYTES..];
    if |f.text| > MAX_BYTES then f.(text := f.text[|f.text| - MAX_BYTES..]) else f
  }

  function ClipAll(raw: seq<Fragment>): (r: seq<Fragment>)
    ensures |r| == |raw| && forall i :: 0 <= i < |raw| ==> r[i] == Clip(raw[i])
  {
    seq(|raw|, i requires 0 <= i < |raw| => Clip(raw[i]))
  }

  /** Bytes of a sequence of clipped fragments. */
  function Bytes(h: seq<Fragment>): nat {
    if h == [] then 0 else |h[0].text| + Bytes(h[1..])
  }

  predicate Fits(h: seq<Fragment>) {
    Bytes(h) <= MAX_BYTES && |h| <= MAX_FRAGMENTS
  }

  /** Where the retained suffix starts: the first point since the last release from which everything fits. */
  function Cut(raw: seq<Fragment>, from: nat): (d: nat)
    requires from <= |raw|
    ensures from <= d <= |raw|
    decreases |raw| - from
  {
    if from == |raw| || Fits(ClipAll(raw)[from..]) then from else Cut(raw, from + 1)
  }

  /** Something before the retained suffix is gone, or a fragment has lost its beginning. */
  predicate Incomplete(raw: seq<Fragment>, dropped: nat) {
    dropped > 0 || exists i :: 0 <= i < |raw| && |raw[i].text| > MAX_BYTES
  }

  predicate Numbered(raw: seq<Fragment>) {
    forall i :: 0 <= i < |raw| ==> raw[i].sequence == i
  }

  /** The retained suffix is the longest that fits. */
  lemma {:induction false} CutIsLeast(raw: seq<Fragment>, from: nat)
    requires from <= |raw|
    ensures Fits(ClipAll(raw)[Cut(raw, from)..])
    ensures forall e :: from <= e < Cut(raw, from) ==> !Fits(ClipAll(raw)[e..])
    decreases |raw| - from
  {
    var h := ClipAll(raw);
    if from == |raw| {
      assert h[from..] == [];
    } else if !Fits(h[from..]) {
      CutIsLeast(raw, from + 1);
    }
  }

  lemma {:induction false} CutFromLater(raw: seq<Fragment>, from: nat, later: nat)
    requires from <= later <= |raw|
    requires forall e :: from <= e < later ==> !Fits(ClipAll(raw)[e..])
    ensures Cut(raw, from) == Cut(raw, later)
    decreases later - from
  {
    if from < later { CutFromLater(raw, from + 1, later); }
  }

  lemma {:induction false} BytesConcat(a: seq<Fragment>, b: seq<Fragment>)
    ensures Bytes(a + b) == Bytes(a) + Bytes(b)
  {
    if a == [] {
      assert a + b == b;
    } else {
      assert (a + b)[1..] == a[1..] + b;
      BytesConcat(a[1..], b);
    }
  }

  /** What did not fit does not fit after another fragment either. */
  lemma AppendKeepsOverflow(raw: seq<Fragment>, f: Fragment, e: nat)
    requires e <= |raw| && !Fits(ClipAll(raw)[e..])
    ensures !Fits(ClipAll(raw + [f])[e..])
  {
    assert ClipAll(raw + [f])[e..] == ClipAll(raw)[e..] + [Clip(f)];
    BytesConcat(ClipAll(raw)[e..], [Clip(f)]);
  }

  /** So the cut only moves forward, and an append may resume from where it was. */
  lemma CutAfterAppend(raw: seq<Fragment>, f: Fragment, floor: nat)
    requires floor <= |raw|
    ensures Cut(raw, floor) <= Cut(raw + [f], floor) == Cut(raw + [f], Cut(raw, floor))
  {
    CutIsLeast(raw, floor);
    forall e | floor <= e < Cut(raw, floor) ensures !Fits(ClipAll(raw + [f])[e..]) {
      AppendKeepsOverflow(raw, f, e);
    }
    CutFromLater(raw + [f], floor, Cut(raw, floor));
  }

  /** The window keeps to both budgets, and one fragment more would not. */
  lemma WindowIsLongest(raw: seq<Fragment>, floor: nat)
    requires floor <= |raw|
    ensures var d := Cut(raw, floor); var window := ClipAll(raw)[d..];
            && Bytes(window) <= 65_536 && |window| <= 1_024
            && (d > floor ==> Bytes(window) + |Clip(raw[d - 1]).text| > 65_536 || |window| + 1 > 1_024)
  {
    hide Cut, Clip;
    CutIsLeast(raw, floor);
    var d := Cut(raw, floor);
    if d > floor {
      var wider := ClipAll(raw)[d - 1..];
      assert !Fits(wider);
      assert wider[0] == Clip(raw[d - 1]) && wider[1..] == ClipAll(raw)[d..];
    }
  }

  // ---------------------------------------------------------------- reading with a cursor

  function Start(cursor: int): nat {
    if cursor < 0 then 0 else cursor + 1
  }

  /** What a poll returns: everything retained after the cursor, and whether history is incomplete. */
  function Read(raw: seq<Fragment>, floor: nat, cursor: int): Logs
    requires floor <= |raw|
  {
    var d := Cut(raw, floor);
    var start := if Start(cursor) < d then d else Start(cursor);
    Logs(if start < |raw| then ClipAll(raw)[start..] else [], |raw| - 1, Incomplete(raw, d))
  }

  class Output {
    var output: seq<Fragment>
    var outputBytes: int
    var truncated: bool
    var nextOutput: int
    var dropped: int
    ghost var raw: seq<Fragment> // every fragment appended, as appended
    ghost var floor: nat         // how many there were at the last release

    /** The window is the longest suffix of the clipped history that fits, numbered contiguously. */
    ghost predicate Valid()
      reads this
    {
      && Numbered(raw)
      && nextOutput == |raw|
      && floor <= |raw|
      && dropped == Cut(raw, floor)
      && output == ClipAll(raw)[dropped..]
      && outputBytes == Bytes(output)
      && (truncated <==> Incomplete(raw, dropped))
    }

    constructor ()
      ensures Valid() && raw == [] && floor == 0
    {
      output, outputBytes, truncated, nextOutput, dropped := [], 0, false, 0, 0;
      raw, floor := [], 0;
    }

    method AppendOutput(stream: Stream, text: string) returns (f: Fragment)
      requires Valid()
      modifies this
      ensures Valid()
      ensures f == Fragment(old(nextOutput), stream, text)
      ensures raw == old(raw) + [f] && floor == old(floor)
      ensures outputBytes <= 65_536 && |output| <= 1_024
      ensures 0 <= floor < dropped <= |raw| ==>
                outputBytes + |Clip(raw[dropped - 1]).text| > 65_536 || |output| + 1 > 1_024
    {
      f := Fragment(nextOutput, stream, text);
      CutAfterAppend(raw, f, floor);
      Retain(f);
      Evict();
      WindowIsLongest(raw, floor);
    }

    /** The window before eviction: everything retained so far and the new fragment, clipped. */
    ghost predicate Overfull()
      reads this
    {
      && Numbered(raw)
      && nextOutput == |raw|
      && floor <= dropped <= |raw|
      && Cut(raw, dropped) == Cut(raw, floor)
      && output == ClipAll(raw)[dropped..]
      && outputBytes == Bytes(output)
      && (truncated <==> Incomplete(raw, dropped))
    }

    method Retain(f: Fragment)
      requires Valid() && f.sequence == nextOutput && Cut(raw + [f], Cut(raw, floor)) == Cut(raw + [f], floor)
      modifies this
      ensures Overfull() && raw == old(raw) + [f] && floor == old(floor)
    {
      hide Cut, Bytes, ClipAll, Incomplete;
      var retained := f;
      if |retained.text| > MAX_BYTES {
        retained := retained.(text := retained.text[|retained.text| - MAX_BYTES..]);
        truncated := true;
      }
      assert retained == Clip(f);
      AppendFacts(raw, f, dropped);
      nextOutput := nextOutput + 1;
      output := output + [retained];
      outputBytes := outputBytes + |retained.text|;
      raw := raw + [f];
    }

    method Evict()
      requires Overfull()
      modifies this`output, this`outputBytes, this`truncated, this`dropped
      ensures Valid()
    {
      hide Cut, Bytes, ClipAll;
      while outputBytes > MAX_BYTES || |output| > MAX_FRAGMENTS
        invariant Overfull()
        decreases |output|
      {
        EvictFacts(raw, dropped);
        outputBytes := outputBytes - |output[0].text|;
        output := output[1..];
        dropped := dropped + 1;
        truncated := true;
      }
      CutHere(raw, dropped);
    }

    /** Logs: a read changes nothing. */
    method Poll(cursor: int) returns (r: Logs)
      requires Valid()
      ensures r == Read(raw, floor, cursor)
    {
      var start := cursor + 1;
      if cursor < 0 {
        start := 0;
      }
      var incomplete := false;
      if start < dropped {
        start := dropped;
        incomplete := true;
      }
      incomplete := incomplete || truncated;
      var found := [];
      if start < nextOutput {
        found := output[start - dropped..];
        assert found == ClipAll(raw)[start..];
      }
      r := Logs(found, nextOutput - 1, incomplete);
    }

    method ReleaseOutput()
      requires Valid()
      modifies this
      ensures Valid() && output == []
      ensures raw == old(raw) && floor == |raw|
    {
      output, outputBytes, dropped := [], 0, nextOutput;
      truncated := truncated || nextOutput > 0;
      floor := |raw|;
    }
  }

  lemma IncompleteAfter(raw: seq<Fragment>, f: Fragment, dropped: nat)
    ensures Incomplete(raw + [f], dropped) <==> Incomplete(raw, dropped) || |f.text| > MAX_BYTES
  {
    var more := raw + [f];
    assert more[|raw|] == f;
    if i :| 0 <= i < |raw| && |raw[i].text| > MAX_BYTES { assert more[i] == raw[i]; }
  }

  /** The window after one more fragment, before anything is evicted. */
  lemma AppendFacts(raw: seq<Fragment>, f: Fragment, d: nat)
    requires d <= |raw|
    ensures ClipAll(raw + [f])[d..] == ClipAll(raw)[d..] + [Clip(f)]
    ensures Bytes(ClipAll(raw)[d..] + [Clip(f)]) == Bytes(ClipAll(raw)[d..]) + |Clip(f).text|
    ensures Incomplete(raw + [f], d) <==> Incomplete(raw, d) || |f.text| > MAX_BYTES
  {
    IncompleteAfter(raw, f, d);
    BytesConcat(ClipAll(raw)[d..], [Clip(f)]);
    assert [Clip(f)][1..] == [];
  }

  /** One eviction from a window that does not fit. */
  lemma EvictFacts(raw: seq<Fragment>, d: nat)
    requires d <= |raw| && !Fits(ClipAll(raw)[d..])
    ensures d < |raw| && Cut(raw, d) == Cut(raw, d + 1)
    ensures ClipAll(raw)[d..] != [] && ClipAll(raw)[d..][1..] == ClipAll(raw)[d + 1..]
    ensures Bytes(ClipAll(raw)[d..]) == |ClipAll(raw)[d..][0].text| + Bytes(ClipAll(raw)[d + 1..])
  {
  }

  lemma CutHere(raw: seq<Fragment>, d: nat)
    requires d <= |raw| && Fits(ClipAll(raw)[d..])
    ensures Cut(raw, d) == d
  {
  }

  // ---------------------------------------------------------------- a polling client

  datatype Event = Append(stream: Stream, text: string) | Release | Poll

  /** The execution's history, and a client that polls with the cursor of its last reply. */
  datatype Run = Run(raw: seq<Fragment>, floor: nat, cursor: int, seen: seq<Fragment>, gap: bool)

  function Step(r: Run, e: Event): Run
    requires r.floor <= |r.raw|
  {
    match e
    case Append(stream, text) => r.(raw := r.raw + [Fragment(|r.raw|, stream, text)])
    case Release => r.(floor := |r.raw|)
    case Poll =>
      var logs := Read(r.raw, r.floor, r.cursor);
      r.(cursor := logs.next, seen := r.seen + logs.output, gap := r.gap || logs.truncated)
  }

  function After(events: seq<Event>): (r: Run)
    ensures r.floor <= |r.raw|
  {
    if events == [] then Run([], 0, -1, [], false) else Step(After(events[..|events| - 1]), events[|events| - 1])
  }

  predicate Increasing(s: seq<Fragment>) {
    forall i, j :: 0 <= i < j < |s| ==> s[i].sequence < s[j].sequence
  }

  predicate ClientOk(r: Run) {
    && Numbered(r.raw)
    && -1 <= r.cursor < |r.raw|
    // each fragment at most once, in order, and as it was appended save for clipping
    && Increasing(r.seen)
    && (forall i :: 0 <= i < |r.seen| ==>
          0 <= r.seen[i].sequence <= r.cursor && r.seen[i] == Clip(r.raw[r.seen[i].sequence]))
    // without a reported gap, every fragment up to the cursor, verbatim
    && (!r.gap ==> r.seen == r.raw[..r.cursor + 1])
  }

  /** What a poll adds to what the client has seen. */
  lemma ReadTail(r: Run) returns (start: nat)
    requires r.floor <= |r.raw| && ClientOk(r)
    ensures r.cursor < start <= |r.raw| && Read(r.raw, r.floor, r.cursor).output == ClipAll(r.raw)[start..]
    ensures !Read(r.raw, r.floor, r.cursor).truncated ==> start == r.cursor + 1 && ClipAll(r.raw) == r.raw
  {
    hide Bytes;
    var d := Cut(r.raw, r.floor);
    start := if Start(r.cursor) < d then d else Start(r.cursor);
    if !Incomplete(r.raw, d) {
      assert forall i :: 0 <= i < |r.raw| ==> Clip(r.raw[i]) == r.raw[i];
    }
  }

  lemma PollKeeps(r: Run)
    requires r.floor <= |r.raw| && ClientOk(r)
    ensures ClientOk(Step(r, Poll))
  {
    hide Read, ClipAll, Clip;
    var start := ReadTail(r);
    var r' := Step(r, Poll);
    assert r'.cursor == |r.raw| - 1 by { NextCursor(r); }
    SeenAfter(r.raw, r.seen, start, r.cursor);
    if !r'.gap {
      assert r'.seen == r.raw[..r.cursor + 1] + r.raw[start..];
    }
  }

  lemma NextCursor(r: Run)
    requires r.floor <= |r.raw|
    ensures Read(r.raw, r.floor, r.cursor).next == |r.raw| - 1
  {
  }

  lemma SeenAfter(raw: seq<Fragment>, seen: seq<Fragment>, start: nat, cursor: int)
    requires Numbered(raw) && Increasing(seen) && -1 <= cursor < start <= |raw|
    requires forall i :: 0 <= i < |seen| ==> 0 <= seen[i].sequence <= cursor && seen[i] == Clip(raw[seen[i].sequence])
    ensures var more := seen + ClipAll(raw)[start..];
            Increasing(more) && forall i :: 0 <= i < |more| ==>
                0 <= more[i].sequence < |raw| && more[i] == Clip(raw[more[i].sequence])
  {
    var more := seen + ClipAll(raw)[start..];
    forall i | |seen| <= i < |more| ensures more[i] == Clip(raw[start + i - |seen|])
        && more[i].sequence == start + i - |seen| {
      assert more[i] == ClipAll(raw)[start + i - |seen|];
    }
    forall i | 0 <= i < |seen| ensures more[i] == seen[i] {
    }
  }

  lemma StepKeeps(r: Run, e: Event)
    requires r.floor <= |r.raw| && ClientOk(r)
    ensures ClientOk(Step(r, e))
  {
    match e
    case Append(stream, text) =>
      var r' := Step(r, e);
      assert forall i :: 0 <= i < |r.raw| ==> r'.raw[i] == r.raw[i];
      assert r'.raw[..r.cursor + 1] == r.raw[..r.cursor + 1];
    case Release =>
    case Poll => PollKeeps(r);
  }

  /**
  A client that keeps polling, while appends and releases interleave, sees fragments in order and each
  at most once; and unless some poll reported truncation, it has seen every fragment verbatim.
  */
  lemma {:induction false} PollingSeesEverything(events: seq<Event>)
    ensures ClientOk(After(events))
  {
    if events != [] {
      PollingSeesEverything(events[..|events| - 1]);
      StepKeeps(After(events[..|events| - 1]), events[|events| - 1]);
    }
  }

  lemma {:induction false} EachIsWithin(raw: seq<Fragment>, i: nat)
    requires i < |raw|
    ensures |raw[i].text| <= Bytes(raw)
  {
    if i > 0 { EachIsWithin(raw[1..], i - 1); }
  }

  lemma SmallIsWhole(raw: seq<Fragment>)
    requires |raw| <= 1_024 && Bytes(raw) <= 65_536
    ensures Cut(raw, 0) == 0 && !Incomplete(raw, 0)
  {
    forall i | 0 <= i < |raw| ensures |raw[i].text| <= 65_536 { EachIsWithin(raw, i); }
    assert ClipAll(raw) == raw && raw[0..] == raw;
  }

  /** While all the output is within the budgets and none is released, a client has every fragment it polled for. */
  lemma {:induction false} SmallOutputIsSeenWhole(events: seq<Event>)
    requires Release !in events && |After(events).raw| <= 1_024 && Bytes(After(events).raw) <= 65_536
    ensures var r := After(events);
            !r.gap && r.floor == 0 && -1 <= r.cursor < |r.raw| && r.seen == r.raw[..r.cursor + 1]
  {
    hide Bytes, Cut, Incomplete;
    if events != [] {
      var before, e := events[..|events| - 1], events[|events| - 1];
      assert e in events;
      var r := After(before);
      if e.Append? { BytesConcat(r.raw, [Fragment(|r.raw|, e.stream, e.text)]); }
      SmallOutputIsSeenWhole(before);
      SmallIsWhole(r.raw);
    }
    PollingSeesEverything(events);
  }

  /** What a poll would return of an unbounded history. */
  function Tail(raw: seq<Fragment>, cursor: int): seq<Fragment> {
    if Start(cursor) < |raw| then raw[Start(cursor)..] else []
  }

  /** Nothing from the index on is dropped or clipped. */
  predicate Intact(raw: seq<Fragment>, floor: nat, from: nat)
    requires floor <= |raw|
  {
    Cut(raw, floor) <= from && forall i :: from <= i < |raw| ==> |raw[i].text| <= MAX_BYTES
  }

  /** A poll returns the rest of the history verbatim exactly when the rest is intact, or is nothing. */
  lemma PollIsVerbatimExactly(raw: seq<Fragment>, floor: nat, cursor: int)
    requires floor <= |raw|
    ensures Read(raw, floor, cursor).output == Tail(raw, cursor) <==>
            Start(cursor) >= |raw| || Intact(raw, floor, Start(cursor))
  {
    var start, read := Start(cursor), Read(raw, floor, cursor).output;
    if start < |raw| && read == Tail(raw, cursor) {
      forall i | start <= i < |raw| ensures |raw[i].text| <= MAX_BYTES {
        assert read[i - start] == raw[i] == ClipAll(raw)[i];
      }
    }
  }

  /**
  At whatever cursor, a poll reports truncation exactly when the history is not intact from its start;
  so without the report every poll is verbatim, and with it a first poll is not.
  */
  lemma TruncationIsExact(raw: seq<Fragment>, floor: nat, cursor: int)
    requires floor <= |raw|
    ensures !Read(raw, floor, cursor).truncated <==> Read(raw, floor, -1).output == raw
    ensures !Read(raw, floor, cursor).truncated ==> Read(raw, floor, cursor).output == Tail(raw, cursor)
  {
    PollIsVerbatimExactly(raw, floor, cursor);
    PollIsVerbatimExactly(raw, floor, -1);
    assert Tail(raw, -1) == raw;
  }
}
