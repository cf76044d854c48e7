/**
What a supervised Pillow shows, read off the history of a run, and that it can always come back: from every
reachable state but the last it can be ready again, and it can be brought to its end.
*/
module SupervisionOutcomes {
  import opened Common
  import opened Supervision

  // ---------------------------------------------------------------- the status from the history

  /** The phase a step announces, if it announces one. */
  function Announces(t: Step): Option<Phase> {
    match t
    case Start => Some(Starting)
    case Announce => Some(Running)
    case AnnounceStopping => Some(Stopping)
    case RetryPorts => Some(Starting)
    case RestartAutomatically => Some(Backoff)
    case Park(failure) => Some(if failure then Failed else Completed)
    case Finish => Some(Stopped)
    case _ => None
  }

  function LastPhase(tr: Trace): Phase {
    if tr.Init? then tr.s.phase
    else if Announces(tr.t).Some? then Announces(tr.t).value
    else LastPhase(tr.before)
  }

  /** The process that the last announcement of the running phase was for. */
  function LastExecution(tr: Trace): Option<Execution> {
    if tr.Init? then tr.s.execution
    else if tr.t.Announce? then Some(LastProcess(tr.before))
    else LastExecution(tr.before)
  }

  function LastProcess(tr: Trace): Execution {
    if tr.Init? then tr.s.process else if tr.t.Launch? then tr.t.process else LastProcess(tr.before)
  }

  /** All the ports of the process have been published. */
  predicate PortsPublished(tr: Trace) {
    tr.Then? && (if tr.t.AnnounceReady? then true else !tr.t.Launch? && PortsPublished(tr.before))
  }

  /** The Pillow runs with its ports published, and the last probe found it ready. */
  predicate LastReady(tr: Trace) {
    tr.Then? &&
    if tr.t.AnnounceReady? then true
    else if tr.t.ProbeReady? then PortsPublished(tr.before) || LastReady(tr.before)
    else if tr.t.ProbeFailed? then false
    else (Announces(tr.t).None? || tr.t.Announce?) && LastReady(tr.before)
  }

  predicate StatusOk(tr: Trace) {
    && tr.s.phase == LastPhase(tr) && tr.s.execution == LastExecution(tr) && tr.s.process == LastProcess(tr)
    && tr.s.ready == LastReady(tr)
    && (tr.s.pc.Watching? || tr.s.pc.Exiting? ==> (tr.s.pc.published <==> PortsPublished(tr)))
    && (tr.s.pc.Binding? || tr.s.pc.Publishing? ==> !PortsPublished(tr))
  }

  /** In every run the status shows the last phase announced, its process, and readiness by the last probe. */
  lemma {:induction false} StatusFollowsHistory(tr: Trace)
    requires Valid(tr)
    ensures StatusOk(tr)
  {
    hide Apply, Enabled;
    match tr
    case Init(_) =>
    case Then(before, t, s) =>
      StatusFollowsHistory(before);
      ReachableInv(before);
      StatusAfter(tr);
  }

  lemma StatusAfter(tr: Trace)
    requires tr.Then? && StatusOk(tr.before) && Inv(tr.before.s)
    requires Enabled(tr.before.s, tr.t) && tr.s == Apply(tr.before.s, tr.t)
    ensures StatusOk(tr)
  {
  }

  // ---------------------------------------------------------------- the mappings

  /** What has become of the mappings that the current attempt has reserved. */
  predicate MappingsOk(s: State) {
    match s.pc
    case Reserving => forall i :: 0 <= i < |s.mappings| ==> s.mappings[i] == Mapping(Reserved, None)
    case Binding(k) => forall i :: 0 <= i < |s.mappings| ==>
                         s.mappings[i] == Mapping(Reserved, if i < k then Some(s.process) else None)
    case Watching(published) => forall i :: 0 <= i < |s.mappings| ==>
                                  s.mappings[i] == Mapping(if published then Listening else Reserved, Some(s.process))
    case Publishing(k) => forall i :: 0 <= i < |s.mappings| ==>
                            s.mappings[i] == Mapping(if i < k then Listening else Reserved, Some(s.process))
    case Withdrawing(k, _) => forall i :: 0 <= i < k <= |s.mappings| ==> s.mappings[i].state.Withdrawn?
    case Releasing(k, _) => forall i :: 0 <= i < k <= |s.mappings| ==> s.mappings[i].state.Released?
    case _ => true
  }

  lemma {:induction false} MappingsFollow(tr: Trace)
    requires Valid(tr)
    ensures MappingsOk(tr.s)
  {
    hide Apply, Enabled;
    match tr
    case Init(_) =>
    case Then(before, t, s) =>
      MappingsFollow(before);
      ReachableInv(before);
      MappingsAfter(before.s, t);
  }

  lemma MappingsAfter(s: State, t: Step)
    requires MappingsOk(s) && Inv(s) && Enabled(s, t) && s.ports >= 0
    ensures MappingsOk(Apply(s, t))
  {
  }

  // ---------------------------------------------------------------- it can always come back

  predicate SameSpec(tr: Trace, tr': Trace) {
    tr.s.ports == tr'.s.ports && tr.s.maxRestarts == tr'.s.maxRestarts
  }

  lemma Follow(tr: Trace, t: Step) returns (tr': Trace)
    requires Valid(tr) && Enabled(tr.s, t)
    ensures Valid(tr') && tr'.s == Apply(tr.s, t) && SameSpec(tr, tr')
  {
    BudgetAfter(tr.s, t);
    tr' := Then(tr, t, Apply(tr.s, t));
  }

  lemma {:induction false} ReserveAll(tr: Trace) returns (tr': Trace)
    requires Valid(tr) && tr.s.pc.Reserving?
    ensures Valid(tr') && tr'.s.pc.Reserving? && |tr'.s.mappings| == tr'.s.ports && SameSpec(tr, tr')
    decreases tr.s.ports - |tr.s.mappings|
  {
    hide Valid;
    ReachableInv(tr);
    tr' := tr;
    if |tr.s.mappings| < tr.s.ports {
      tr' := Follow(tr, ReservePort);
      tr' := ReserveAll(tr');
    }
  }

  lemma {:induction false} BindAll(tr: Trace) returns (tr': Trace)
    requires Valid(tr) && tr.s.pc.Binding?
    ensures Valid(tr') && tr'.s.pc == Watching(false) && tr'.s.process == tr.s.process && SameSpec(tr, tr')
    decreases |tr.s.mappings| - tr.s.pc.i
  {
    hide Valid;
    ReachableInv(tr);
    if tr.s.pc.i < |tr.s.mappings| {
      tr' := Follow(tr, BindPort);
      tr' := BindAll(tr');
    } else {
      tr' := Follow(tr, Announce);
    }
  }

  lemma {:induction false} PublishAll(tr: Trace) returns (tr': Trace)
    requires Valid(tr) && tr.s.pc.Publishing?
    ensures Valid(tr') && tr'.s.ready && tr'.s.process == tr.s.process && SameSpec(tr, tr')
    decreases |tr.s.mappings| - tr.s.pc.i
  {
    hide Valid;
    ReachableInv(tr);
    MappingsFollow(tr);
    if tr.s.pc.i < |tr.s.mappings| {
      tr' := Follow(tr, PublishPort);
      tr' := PublishAll(tr');
    } else {
      tr' := Follow(tr, AnnounceReady);
    }
  }

  lemma {:induction false} WithdrawAll(tr: Trace) returns (tr': Trace)
    requires Valid(tr) && tr.s.pc.Withdrawing?
    ensures Valid(tr') && tr'.s.pc.Releasing? && SameSpec(tr, tr')
    decreases |tr.s.mappings| - tr.s.pc.i
  {
    hide Valid;
    ReachableInv(tr);
    if tr.s.pc.i < |tr.s.mappings| {
      tr' := Follow(tr, WithdrawPort);
      tr' := WithdrawAll(tr');
    } else {
      tr' := Follow(tr, StopProcess);
    }
  }

  lemma {:induction false} ReleaseAll(tr: Trace) returns (tr': Trace)
    requires Valid(tr) && tr.s.pc.Releasing?
    ensures Valid(tr') && tr'.s.pc.Deciding? && SameSpec(tr, tr')
    decreases |tr.s.mappings| - tr.s.pc.i
  {
    hide Valid;
    ReachableInv(tr);
    if tr.s.pc.i < |tr.s.mappings| {
      tr' := Follow(tr, ReleasePort);
      tr' := ReleaseAll(tr');
    } else {
      tr' := Follow(tr, Settle);
    }
  }

  // ---------------------------------------------------------------- what comes after a process

  /** Whether the last attempt ended on an explicit restart; a failed start or publication is none. */
  predicate EndedExplicitly(tr: Trace) {
    match tr
    case Init(_) => false
    case Then(before, t, _) =>
      if t.Leave? then t.explicit else !t.LaunchFailed? && !t.PublishFailed? && EndedExplicitly(before)
  }

  /** The attempt is over and its ports are given back, but nothing is decided yet. */
  predicate Undecided(tr: Trace) {
    tr.Then? && tr.t.Settle?
  }

  predicate BacksOff(tr: Trace) {
    tr.Then? && tr.t.RestartAutomatically?
  }

  predicate Waits(tr: Trace) {
    tr.Then? && tr.t.Park?
  }

  predicate EndingOk(tr: Trace) {
    && (tr.s.pc.Deciding? <==> Undecided(tr))
    && (tr.s.pc.Delaying? <==> BacksOff(tr)) && (tr.s.pc.Parked? <==> Waits(tr))
    && match tr.s.pc {
         case Exiting(explicit, _) => explicit == EndedExplicitly(tr)
         case Withdrawing(_, explicit) => explicit == EndedExplicitly(tr)
         case Releasing(_, explicit) => explicit == EndedExplicitly(tr)
         case Deciding(explicit) => explicit == EndedExplicitly(tr)
         case _ => true
       }
  }

  lemma {:induction false} EndingsFollowHistory(tr: Trace)
    requires Valid(tr)
    ensures EndingOk(tr)
  {
    match tr
    case Init(_) =>
    case Then(before, t, s) => EndingsFollowHistory(before);
  }

  /**
  What a run does after its process: an explicit restart only for one that was asked for, during the backoff
  or after the end; an automatic one only within the budget; and otherwise it waits.
  */
  lemma DecisionsFollowHistory(tr: Trace, failure: bool)
    requires Valid(tr)
    ensures Enabled(tr.s, RestartExplicitly) <==>
            (Undecided(tr) && EndedExplicitly(tr)) || BacksOff(tr) || Waits(tr)
    ensures Enabled(tr.s, RestartAutomatically) <==>
            Undecided(tr) && !EndedExplicitly(tr) && AutomaticSince(tr) < tr.s.maxRestarts
    ensures Enabled(tr.s, Park(failure)) <==> Undecided(tr) && !EndedExplicitly(tr)
    ensures Enabled(tr.s, EndBackoff) <==> BacksOff(tr)
    ensures Enabled(tr.s, Finish) <==> Undecided(tr) || Waits(tr)
  {
    hide Apply, Valid, EndedExplicitly, AutomaticSince;
    EndingsFollowHistory(tr);
    RestartsAreBounded(tr);
  }

  /** A failed probe costs a ready Pillow its readiness and nothing else: process, ports and budget are kept. */
  lemma ProbesPreserve(tr: Trace) returns (tr': Trace)
    requires Valid(tr) && tr.s.ready && tr.s.pc.Watching?
    ensures Valid(tr') && tr' == Then(tr, ProbeFailed, tr.s.(ready := false))
    ensures LastExecution(tr') == LastExecution(tr) && AutomaticSince(tr') == AutomaticSince(tr)
  {
    tr' := Then(tr, ProbeFailed, Apply(tr.s, ProbeFailed));
  }

  // ---------------------------------------------------------------- what can always be done

  /** Whatever it is doing, the goroutine can be brought to where it decides what comes next. */
  lemma ReachDecision(tr: Trace) returns (tr': Trace)
    requires Valid(tr) && !tr.s.pc.Done?
    ensures Valid(tr') && (tr'.s.pc.Deciding? || tr'.s.pc.Parked? || tr'.s.pc.Delaying? || tr'.s.pc.Looping?)
    ensures SameSpec(tr, tr')
  {
    hide Valid;
    ReachableInv(tr);
    tr' := tr;
    if tr'.s.pc.Reserving? { tr' := Follow(tr', LaunchFailed); }
    if tr'.s.pc.Binding? { tr' := BindAll(tr'); }
    if tr'.s.pc.Publishing? { tr' := GiveUpPublishing(tr'); }
    if tr'.s.pc.Watching? { tr' := Follow(tr', Leave(false)); }
    if tr'.s.pc.Exiting? { tr' := Follow(tr', AnnounceStopping); }
    if tr'.s.pc.Withdrawing? { tr' := WithdrawAll(tr'); }
    if tr'.s.pc.Releasing? { tr' := ReleaseAll(tr'); }
  }

  lemma GiveUpPublishing(tr: Trace) returns (tr': Trace)
    requires Valid(tr) && tr.s.pc.Publishing?
    ensures Valid(tr') && (tr'.s.pc.Exiting? || tr'.s.pc.Watching?) && SameSpec(tr, tr')
  {
    ReachableInv(tr);
    if tr.s.pc.i < |tr.s.mappings| { tr' := Follow(tr, PublishFailed); } else { tr' := Follow(tr, AnnounceReady); }
  }

  lemma ReachReserving(tr: Trace) returns (tr': Trace)
    requires Valid(tr) && (tr.s.pc.Deciding? || tr.s.pc.Parked? || tr.s.pc.Delaying? || tr.s.pc.Looping?)
    ensures Valid(tr') && tr'.s.pc.Reserving? && SameSpec(tr, tr')
  {
    hide Valid;
    tr' := tr;
    if tr.s.pc == Deciding(false) {
      tr' := Follow(tr, RetryPorts);
    } else {
      if tr.s.pc.Deciding? || tr.s.pc.Parked? { tr' := Follow(tr', RestartExplicitly); }
      if tr.s.pc.Delaying? { tr' := Follow(tr', EndBackoff); }
      tr' := Follow(tr', Step.Start);
    }
  }

  /** From every reachable state but the last the Pillow can be ready again, under any new process. */
  lemma CanAlwaysBeReady(tr: Trace, process: Execution) returns (tr': Trace)
    requires Valid(tr) && !tr.s.pc.Done?
    ensures Valid(tr') && tr'.s.ready && LastExecution(tr') == Some(process) && SameSpec(tr, tr')
  {
    hide Valid;
    tr' := ReachDecision(tr);
    tr' := ReachReserving(tr');
    tr' := ReserveAll(tr');
    tr' := Follow(tr', Launch(process));
    tr' := BindAll(tr');
    tr' := Follow(tr', ProbeReady);
    tr' := PublishAll(tr');
    ReachableInv(tr');
    StatusFollowsHistory(tr');
  }

  /** And it can always be brought to its end, with no port left. */
  lemma CanAlwaysStop(tr: Trace) returns (tr': Trace)
    requires Valid(tr) && !tr.s.pc.Done?
    ensures Valid(tr') && tr'.s.pc.Done? && LastPhase(tr').Stopped? && !tr'.s.ready && tr'.s.mappings == []
  {
    hide Valid;
    tr' := ReachDecision(tr);
    if !tr'.s.pc.Deciding? {
      tr' := ReachReserving(tr');
      tr' := Follow(tr', LaunchFailed);
      tr' := ReleaseAll(tr');
    }
    ReachableInv(tr');
    tr' := Follow(tr', Finish);
    StatusFollowsHistory(tr');
  }

  /** A new Pillow becomes ready, with any number of ports and any budget. */
  lemma NewPillowsGetReady(ports: nat, maxRestarts: int, process: Execution) returns (tr: Trace)
    ensures Valid(tr) && tr.s.ready && tr.s.ports == ports && tr.s.maxRestarts == maxRestarts
    ensures LastExecution(tr) == Some(process)
  {
    hide Valid, Enabled, Apply;
    tr := NewPillow(ports, maxRestarts);
    tr := CanAlwaysBeReady(tr, process);
  }

  lemma NewPillow(ports: nat, maxRestarts: int) returns (tr: Trace)
    ensures Valid(tr) && tr.s.pc.Looping? && tr.s.ports == ports && tr.s.maxRestarts == maxRestarts
  {
    tr := Init(State(ports, maxRestarts, Starting, false, None, [], 0, 0, Looping));
  }
}
