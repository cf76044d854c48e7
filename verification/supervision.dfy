/**
Supervision of one Pillow that has a main process. A step is one section under the group's lock or a
port mapping's lock; anyone may read the status and the mappings between two steps.
*/
module Supervision {
  import opened Common

  type Execution = int

  datatype PortState = Reserved | Listening | Withdrawn | Released
  datatype Mapping = Mapping(state: PortState, execution: Option<Execution>)

  datatype Phase = Starting | Running | Stopping | Backoff | Failed | Completed | Stopped

  /** Where the supervising goroutine stands. */
  datatype Pc =
    | Looping                                  // top of supervise
    | Reserving                                // reserving ports, then starting the process
    | Binding(i: int)
    | Watching(published: bool)
    | Publishing(i: int)
    | Exiting(explicit: bool, published: bool) // run is about to return; its deferred cleanup follows
    | Withdrawing(i: int, explicit: bool)
    | Releasing(i: int, explicit: bool)
    | Deciding(explicit: bool)
    | Delaying                                 // waiting out the backoff
    | Parked                                   // failed or completed; waiting for an explicit restart
    | Done

  datatype State = State(
    ports: int,
    maxRestarts: int,
    phase: Phase,
    ready: bool,
    execution: Option<Execution>,
    mappings: seq<Mapping>,
    process: Execution,
    restarts: int,
    pc: Pc)

  datatype Step =
    | Start
    | ReservePort
    | Launch(process: Execution)
    | LaunchFailed                     // a reservation or the start of the process fails
    | BindPort
    | Announce
    | ProbeFailed                      // the tracker is not ready
    | ProbeReady
    | PublishPort
    | PublishFailed
    | AnnounceReady
    | Leave(explicit: bool)            // canceled, restarted explicitly, or the process is gone
    | AnnounceStopping
    | WithdrawPort
    | StopProcess
    | ReleasePort
    | Settle
    | RetryPorts                       // a dynamic port conflict gets another attempt
    | RestartExplicitly
    | RestartAutomatically
    | EndBackoff
    | Park(failure: bool)
    | Finish

  predicate Enabled(s: State, t: Step) {
    match t
    case Start => s.pc.Looping?
    case ReservePort => s.pc.Reserving? && |s.mappings| < s.ports
    case Launch(_) => s.pc.Reserving? && |s.mappings| == s.ports
    case LaunchFailed => s.pc.Reserving?
    case BindPort => s.pc.Binding? && 0 <= s.pc.i < |s.mappings|
    case Announce => s.pc.Binding? && s.pc.i == |s.mappings|
    case ProbeFailed => s.pc.Watching?
    case ProbeReady => s.pc.Watching?
    case PublishPort => s.pc.Publishing? && 0 <= s.pc.i < |s.mappings| && s.mappings[s.pc.i].state.Reserved?
    case PublishFailed => s.pc.Publishing? && 0 <= s.pc.i < |s.mappings|
    case AnnounceReady => s.pc.Publishing? && s.pc.i == |s.mappings|
    case Leave(_) => s.pc.Watching?
    case AnnounceStopping => s.pc.Exiting?
    case WithdrawPort => s.pc.Withdrawing? && 0 <= s.pc.i < |s.mappings|
    case StopProcess => s.pc.Withdrawing? && s.pc.i == |s.mappings|
    case ReleasePort => s.pc.Releasing? && 0 <= s.pc.i < |s.mappings|
    case Settle => s.pc.Releasing? && s.pc.i == |s.mappings|
    case RetryPorts => s.pc == Deciding(false)
    case RestartExplicitly => s.pc == Deciding(true) || s.pc.Delaying? || s.pc.Parked?
    case RestartAutomatically => s.pc == Deciding(false) && s.restarts < s.maxRestarts
    case EndBackoff => s.pc.Delaying?
    case Park(_) => s.pc == Deciding(false)
    case Finish => s.pc.Deciding? || s.pc.Parked?
  }

  /** update: whatever a section writes, only a running Pillow is ready. */
  function Update(s: State, phase: Phase, ready: bool): State {
    s.(phase := phase, ready := ready && phase.Running?)
  }

  function ApplyLaunch(s: State, t: Step): State
    requires Enabled(s, t)
  {
    match t
    case Start => Update(s, Starting, s.ready).(mappings := [], pc := Reserving)
    case ReservePort => s.(mappings := s.mappings + [Mapping(Reserved, None)])
    case Launch(process) => s.(process := process, pc := Binding(0))
    case LaunchFailed => s.(pc := Releasing(0, false))
    case BindPort => s.(mappings := s.mappings[s.pc.i := s.mappings[s.pc.i].(execution := Some(s.process))],
        pc := Binding(s.pc.i + 1))
    case Announce => Update(s, Running, s.ready).(execution := Some(s.process), pc := Watching(false))
    case _ => s
  }

  function ApplyWatch(s: State, t: Step): State
    requires Enabled(s, t)
  {
    match t
    case ProbeFailed => Update(s, s.phase, false)
    case ProbeReady => if s.pc.published then Update(s, s.phase, true) else s.(pc := Publishing(0))
    case PublishPort => s.(mappings := s.mappings[s.pc.i := s.mappings[s.pc.i].(state := Listening)],
        pc := Publishing(s.pc.i + 1))
    case PublishFailed => s.(pc := Exiting(false, false))
    case AnnounceReady => Update(s, s.phase, true).(pc := Watching(true))
    case Leave(explicit) => s.(pc := Exiting(explicit, s.pc.published))
    case _ => s
  }

  function ApplyStop(s: State, t: Step): State
    requires Enabled(s, t)
  {
    match t
    case AnnounceStopping => Update(s, Stopping, s.ready).(pc := Withdrawing(0, s.pc.explicit))
    case WithdrawPort => s.(mappings := s.mappings[s.pc.i := s.mappings[s.pc.i].(state := Withdrawn)],
        pc := Withdrawing(s.pc.i + 1, s.pc.explicit))
    case StopProcess => s.(pc := Releasing(0, s.pc.explicit))
    case ReleasePort => s.(mappings := s.mappings[s.pc.i := s.mappings[s.pc.i].(state := Released)],
        pc := Releasing(s.pc.i + 1, s.pc.explicit))
    case Settle => s.(mappings := [], pc := Deciding(s.pc.explicit))
    case _ => s
  }

  function ApplyDecision(s: State, t: Step): State
    requires Enabled(s, t)
  {
    match t
    case RetryPorts => Update(s, Starting, s.ready).(pc := Reserving)
    case RestartExplicitly => s.(restarts := 0, pc := Looping)
    case RestartAutomatically => Update(s, Backoff, s.ready).(restarts := s.restarts + 1, pc := Delaying)
    case EndBackoff => s.(pc := Looping)
    case Park(failure) => Update(s, if failure then Failed else Completed, s.ready).(pc := Parked)
    case Finish => Update(s, Stopped, s.ready).(pc := Done)
    case _ => s
  }

  function Apply(s: State, t: Step): State
    requires Enabled(s, t)
  {
    match t
    case Start => ApplyLaunch(s, t)
    case ReservePort => ApplyLaunch(s, t)
    case Launch(_) => ApplyLaunch(s, t)
    case LaunchFailed => ApplyLaunch(s, t)
    case BindPort => ApplyLaunch(s, t)
    case Announce => ApplyLaunch(s, t)
    case ProbeFailed => ApplyWatch(s, t)
    case ProbeReady => ApplyWatch(s, t)
    case PublishPort => ApplyWatch(s, t)
    case PublishFailed => ApplyWatch(s, t)
    case AnnounceReady => ApplyWatch(s, t)
    case Leave(_) => ApplyWatch(s, t)
    case AnnounceStopping => ApplyStop(s, t)
    case WithdrawPort => ApplyStop(s, t)
    case StopProcess => ApplyStop(s, t)
    case ReleasePort => ApplyStop(s, t)
    case Settle => ApplyStop(s, t)
    case _ => ApplyDecision(s, t)
  }

  predicate Initial(s: State) {
    s.ports >= 0 && s.phase.Starting? && !s.ready && s.mappings == [] && s.restarts == 0 && s.pc.Looping?
  }

  datatype Trace = Init(s: State) | Then(before: Trace, t: Step, s: State)

  predicate Valid(tr: Trace) {
    match tr
    case Init(s) => Initial(s)
    case Then(before, t, s) => Valid(before) && Enabled(before.s, t) && s == Apply(before.s, t)
  }

  // ---------------------------------------------------------------- ready means listening and bound

  predicate Bound(s: State, from: int, to: int) {
    forall i :: 0 <= from <= i < to <= |s.mappings| ==> s.mappings[i].execution == Some(s.process)
  }

  predicate AllListening(s: State, to: int) {
    forall i :: 0 <= i < to <= |s.mappings| ==> s.mappings[i].state.Listening?
  }

  /** The current execution runs and all its ports are bound to it. */
  predicate Live(s: State) {
    s.phase.Running? && s.execution == Some(s.process) && |s.mappings| == s.ports && Bound(s, 0, |s.mappings|)
  }

  predicate Inv(s: State) {
    && (s.ready ==> (s.pc == Watching(true) || (s.pc.Exiting? && s.pc.published)))
    && (s.phase.Running? ==> s.pc.Watching? || s.pc.Publishing? || s.pc.Exiting?)
    && s.restarts >= 0
    && match s.pc {
         case Reserving => |s.mappings| <= s.ports
         case Binding(i) => 0 <= i <= |s.mappings| == s.ports && Bound(s, 0, i)
         case Watching(published) => Live(s) && (published ==> AllListening(s, |s.mappings|))
         case Publishing(i) => 0 <= i <= |s.mappings| && Live(s) && AllListening(s, i)
         case Exiting(_, published) => Live(s) && (published ==> AllListening(s, |s.mappings|))
         case Withdrawing(i, _) => 0 <= i <= |s.mappings|
         case Releasing(i, _) => 0 <= i <= |s.mappings|
         case Deciding(_) => s.mappings == []
         case _ => true
       }
  }

  lemma StepKeeps(s: State, t: Step)
    requires Inv(s) && Enabled(s, t) && s.ports >= 0
    ensures Inv(Apply(s, t))
  {
  }

  /** Only a scheduled restart consumes the budget, and only an explicit one renews it. */
  lemma BudgetAfter(s: State, t: Step)
    requires Enabled(s, t)
    ensures Apply(s, t).ports == s.ports && Apply(s, t).maxRestarts == s.maxRestarts
    ensures Apply(s, t).restarts ==
            if t.RestartExplicitly? then 0 else if t.RestartAutomatically? then s.restarts + 1 else s.restarts
    ensures t.RestartAutomatically? ==> s.restarts < s.maxRestarts
  {
  }

  lemma {:induction false} ReachableInv(tr: Trace)
    requires Valid(tr)
    ensures Inv(tr.s) && tr.s.ports >= 0
  {
    hide Apply, Enabled;
    match tr
    case Init(s) =>
    case Then(before, t, s) =>
      ReachableInv(before);
      StepKeeps(before.s, t);
      BudgetAfter(before.s, t);
  }

  /** While the Pillow is ready, its phase is running and each of its ports listens for that execution. */
  lemma ReadyMeansListening(tr: Trace, i: int)
    requires Valid(tr) && tr.s.ready
    ensures tr.s.phase.Running? && tr.s.execution.Some? && |tr.s.mappings| == tr.s.ports
    ensures 0 <= i < |tr.s.mappings| ==> tr.s.mappings[i] == Mapping(Listening, tr.s.execution)
  {
    hide Apply, Enabled;
    ReachableInv(tr);
  }

  /** As soon as the phase reads as running, ready or not, every mapping is bound to that execution. */
  lemma RunningMeansBound(tr: Trace, i: int)
    requires Valid(tr) && tr.s.phase.Running?
    ensures tr.s.execution.Some? && |tr.s.mappings| == tr.s.ports
    ensures 0 <= i < |tr.s.mappings| ==> tr.s.mappings[i].execution == tr.s.execution
  {
    hide Apply, Enabled;
    ReachableInv(tr);
  }

  // ---------------------------------------------------------------- the restart budget

  /** Automatic restarts since the last explicit one, over the whole run. */
  function AutomaticSince(tr: Trace): nat {
    match tr
    case Init(_) => 0
    case Then(before, t, _) =>
      if t.RestartExplicitly? then 0
      else if t.RestartAutomatically? then AutomaticSince(before) + 1
      else AutomaticSince(before)
  }

  /** Between two explicit restarts there are never more automatic ones than the budget. */
  lemma {:induction false} RestartsAreBounded(tr: Trace)
    requires Valid(tr)
    ensures tr.s.restarts == AutomaticSince(tr)
    ensures AutomaticSince(tr) <= if tr.s.maxRestarts < 0 then 0 else tr.s.maxRestarts
  {
    hide Apply, Enabled;
    match tr
    case Init(s) =>
    case Then(before, t, s) =>
      RestartsAreBounded(before);
      BudgetAfter(before.s, t);
  }

  // ---------------------------------------------------------------- one port mapping

  /** A mapping's own sections. `forwarded` says whether a carrier listener of its own could be opened. */
  class PortMapping {
    var state: PortState
    var execution: Option<Execution>
    var forwarding: bool
    const private: bool // published through a separate carrier listener

    ghost function View(): Mapping
      reads this
    {
      Mapping(state, execution)
    }

    constructor (private: bool)
      ensures View() == Mapping(Reserved, None) && !forwarding && this.private == private
    {
      state, execution, forwarding := Reserved, None, false;
      this.private := private;
    }

    method Bind(e: Execution)
      modifies this`execution
      ensures View() == old(View()).(execution := Some(e))
    {
      execution := Some(e);
    }

    /** Publish: a mapping listens only from its reservation, and only once its forwarder is up. */
    method Publish(confirmed: bool, forwarded: bool) returns (ok: bool)
      modifies this`state, this`forwarding
      ensures ok <==> old(state).Reserved? && confirmed && (private ==> forwarded)
      ensures View() == if ok then old(View()).(state := Listening) else old(View())
      ensures forwarding == (old(forwarding) || (ok && private))
    {
      if !state.Reserved? {
        return false;
      }
      if !confirmed {
        return false;
      }
      if private {
        if !forwarded {
          return false;
        }
        forwarding := true;
      }
      state := Listening;
      ok := true;
    }

    /** Withdraw: the mapping stops listening even if its forwarder cannot be closed yet. */
    method Withdraw(closed: bool) returns (ok: bool)
      modifies this`state, this`forwarding
      ensures old(state).Released? ==> ok && View() == old(View()) && forwarding == old(forwarding)
      ensures !old(state).Released? ==> View() == old(View()).(state := Withdrawn)
      ensures !old(state).Released? ==>
          (ok <==> closed || !old(forwarding)) && forwarding == (old(forwarding) && !closed)
    {
      if state.Released? {
        return true;
      }
      state := Withdrawn;
      if forwarding {
        if !closed {
          return false;
        }
        forwarding := false;
      }
      ok := true;
    }

    /** Release: only after the forwarder is gone and the allocation given back. */
    method Release(closed: bool, freed: bool) returns (ok: bool)
      modifies this`state, this`forwarding
      ensures ok <==> (old(state).Released? || closed || !old(forwarding)) && freed
      ensures ok ==> state.Released? && (!old(state).Released? ==> !forwarding)
      ensures !ok ==> !state.Listening? && !state.Reserved?
    {
      ok := Withdraw(closed);
      if !ok {
        return;
      }
      if !freed {
        return false;
      }
      state := Released;
    }
  }
}
