/**
Stop requests against natural completion. Any number of requesters and one finisher take turns under
the execution's lock; stopping the process and waiting for it happen outside.
*/
module ExecutionStop {
  import opened Common

  type Id = int

  /** A termination cause; the empty text means that there is none. */
  type Cause = string

  datatype ProcessKind = Exited | Signaled | Lost

  /** The cause of an end that nobody requested; `failed` says that the process never started. */
  function OwnCause(failed: bool, kind: ProcessKind): (cause: Cause)
    ensures cause != ""
    ensures cause == "preparation_failed" <==> failed
    ensures cause == "natural" <==> !failed && kind.Exited?
    ensures cause == "external_signal" <==> !failed && kind.Signaled?
  {
    if failed then "preparation_failed"
    else match kind
      case Exited => "natural"
      case Signaled => "external_signal"
      case Lost => "executor_lost"
  }

  /** One execution's fields. */
  datatype Core = Core(stopCause: Cause, stopDone: bool, finishing: bool, result: Option<Cause>)

  /** The section of requestStop that decides whether the request wins. */
  predicate StopWins(c: Core) {
    c.result.None? && !c.finishing && c.stopCause == ""
  }

  datatype Requester = Stopping(cause: Cause) | Stopped(cause: Cause) | Returned(won: bool, cause: Cause)
  datatype Finisher = Working | Waiting(cause: Cause) | Claimed(cause: Cause) | Published

  datatype State = State(core: Core, requesters: map<Id, Requester>, finisher: Finisher, kills: seq<Id>)

  datatype Step =
    | Request(id: Id, cause: Cause)
    | Kill(id: Id)                 // the stop action returns
    | Settle(id: Id)               // the requester closes stopDone and returns true
    | ClaimFinish
    | AwaitStop
    | Publish(failed: bool, kind: ProcessKind)

  predicate Enabled(s: State, t: Step) {
    match t
    case Request(id, cause) => id !in s.requesters && cause != ""
    case Kill(id) => id in s.requesters && s.requesters[id].Stopping?
    case Settle(id) => id in s.requesters && s.requesters[id].Stopped?
    case ClaimFinish => s.finisher.Working?
    case AwaitStop => s.finisher.Waiting? && s.core.stopDone
    case Publish(_, _) => s.finisher.Claimed?
  }

  function Apply(s: State, t: Step): State
    requires Enabled(s, t)
  {
    match t
    case Request(id, cause) =>
      if StopWins(s.core) then
        s.(core := s.core.(stopCause := cause), requesters := s.requesters[id := Stopping(cause)],
            kills := s.kills + [id])
      else s.(requesters := s.requesters[id := Returned(false, cause)])
    case Kill(id) => s.(requesters := s.requesters[id := Stopped(s.requesters[id].cause)])
    case Settle(id) =>
      s.(core := s.core.(stopDone := true), requesters := s.requesters[id := Returned(true, s.requesters[id].cause)])
    case ClaimFinish =>
      if s.core.stopCause == "" then s.(core := s.core.(finishing := true), finisher := Claimed(""))
      else s.(finisher := Waiting(s.core.stopCause))
    case AwaitStop => s.(finisher := Claimed(s.finisher.cause))
    case Publish(failed, kind) =>
      var cause := if s.finisher.cause == "" then OwnCause(failed, kind) else s.finisher.cause;
      s.(core := s.core.(result := Some(cause), finishing := false), finisher := Published)
  }

  function Initial(): State {
    State(Core("", false, false, None), map[], Working, [])
  }

  datatype Trace = Start(s: State) | Then(before: Trace, t: Step, s: State)

  predicate Valid(tr: Trace) {
    match tr
    case Start(s) => s == Initial()
    case Then(before, t, s) => Valid(before) && Enabled(before.s, t) && s == Apply(before.s, t)
  }

  // ---------------------------------------------------------------- what every run keeps

  /** The requester has won: it owns the stop action and the cause. */
  predicate Won(s: State, id: Id) {
    id in s.requesters && (s.requesters[id].Stopping? || s.requesters[id].Stopped? || s.requesters[id].won)
  }

  predicate RequesterOk(s: State, id: Id) {
    && (Won(s, id) ==> s.kills == [id] && s.requesters[id].cause == s.core.stopCause)
    && (Won(s, id) && s.core.stopDone ==> s.requesters[id].Returned?)
  }

  ghost predicate Inv(s: State) {
    && (forall id {:trigger RequesterOk(s, id)} :: RequesterOk(s, id))
    && (s.core.stopCause == "" <==> s.kills == [])
    && (s.kills != [] ==> s.kills == [s.kills[0]] && Won(s, s.kills[0]))
    && (s.core.stopDone ==> s.kills != [])
    && (s.core.finishing <==> s.finisher == Claimed(""))
    && (s.core.result.Some? <==> s.finisher.Published?)
    && match s.finisher {
         case Working => true
         case Waiting(cause) => cause == s.core.stopCause != ""
         case Claimed(cause) => cause == s.core.stopCause && (cause != "" ==> s.core.stopDone)
         case Published =>
           && s.core.result.value != ""
           && (s.core.stopCause != "" ==> s.core.stopDone && s.core.result == Some(s.core.stopCause))
       }
  }

  lemma StepKeeps(s: State, t: Step)
    requires Inv(s) && Enabled(s, t)
    ensures Inv(Apply(s, t))
  {
    var s' := Apply(s, t);
    if s.kills != [] { assert RequesterOk(s, s.kills[0]); }
    forall id ensures RequesterOk(s', id) {
      assert RequesterOk(s, id);
      if t.Kill? || t.Settle? { assert RequesterOk(s, t.id); }
    }
    if t.Kill? || t.Settle? { assert RequesterOk(s, t.id); assert Won(s, t.id); }
  }

  lemma {:induction false} ReachableInv(tr: Trace)
    requires Valid(tr)
    ensures Inv(tr.s)
  {
    match tr
    case Start(s) =>
    case Then(before, t, s) =>
      ReachableInv(before);
      StepKeeps(before.s, t);
  }

  /** Of any number of requesters at most one wins, and only its stop action is ever issued. */
  lemma AtMostOneWins(tr: Trace, a: Id, b: Id)
    requires Valid(tr) && Won(tr.s, a) && Won(tr.s, b)
    ensures a == b && tr.s.kills == [a]
  {
    ReachableInv(tr);
    assert RequesterOk(tr.s, a) && RequesterOk(tr.s, b);
  }

  /** A published cause is the winner's, and its stop action and its return are over by then. */
  lemma WinnersCauseIsPublished(tr: Trace, id: Id)
    requires Valid(tr) && tr.s.core.result.Some? && Won(tr.s, id)
    ensures tr.s.core.result == Some(tr.s.requesters[id].cause)
    ensures tr.s.requesters[id] == Returned(true, tr.s.requesters[id].cause)
  {
    ReachableInv(tr);
    assert RequesterOk(tr.s, id);
  }

  /** Once completion has claimed the execution first, nobody wins and nothing is killed, ever after. */
  lemma {:induction false} CompletionFirstRefusesStops(tr: Trace)
    requires Valid(tr) && CompletedFirst(tr)
    ensures tr.s.kills == []
    ensures forall id :: id in tr.s.requesters ==> tr.s.requesters[id].Returned? && !tr.s.requesters[id].won
  {
    ClaimStays(tr);
    ReachableInv(tr);
    forall id | id in tr.s.requesters ensures tr.s.requesters[id].Returned? && !tr.s.requesters[id].won {
      assert RequesterOk(tr.s, id);
    }
  }

  /** Some step of the run was a claim that found no stop cause. */
  predicate CompletedFirst(tr: Trace) {
    tr.Then? && (CompletedFirst(tr.before) || (tr.t.ClaimFinish? && tr.before.s.core.stopCause == ""))
  }

  lemma {:induction false} ClaimStays(tr: Trace)
    requires Valid(tr) && CompletedFirst(tr)
    ensures tr.s.core.stopCause == "" && (tr.s.core.finishing || tr.s.core.result.Some?)
  {
    if CompletedFirst(tr.before) {
      ClaimStays(tr.before);
      ReachableInv(tr.before);
      StepKeeps(tr.before.s, tr.t);
    }
  }

  /** The cause that the process itself would give, from the step that published the result. */
  function Ending(tr: Trace): Option<Cause> {
    match tr
    case Start(_) => None
    case Then(before, t, _) => if t.Publish? then Some(OwnCause(t.failed, t.kind)) else Ending(before)
  }

  /** What was published: the process's own cause if nobody had stopped it, else the recorded one. */
  lemma {:induction false} ResultComesFrom(tr: Trace)
    requires Valid(tr) && tr.s.core.result.Some?
    ensures Ending(tr).Some?
    ensures tr.s.core.result == if tr.s.core.stopCause == "" then Ending(tr) else Some(tr.s.core.stopCause)
  {
    ReachableInv(tr);
    if tr.Then? {
      ReachableInv(tr.before);
      if tr.before.s.core.result.Some? { ResultComesFrom(tr.before); }
    }
  }

  /**
  And the process's own cause is what is published, with nothing killed, exactly when completion claimed
  first; otherwise it is the cause of the one request that won.
  */
  lemma {:induction false} NaturalEndExactly(tr: Trace)
    requires Valid(tr) && tr.s.core.result.Some?
    ensures CompletedFirst(tr) <==> tr.s.kills == []
    ensures CompletedFirst(tr) ==> Ending(tr).Some? && tr.s.core.result == Ending(tr)
    ensures !CompletedFirst(tr) ==>
              |tr.s.kills| == 1 && Won(tr.s, tr.s.kills[0])
                  && tr.s.core.result == Some(tr.s.requesters[tr.s.kills[0]].cause)
  {
    ReachableInv(tr);
    ResultComesFrom(tr);
    if CompletedFirst(tr) {
      ClaimStays(tr);
    } else {
      NotFirst(tr);
      assert RequesterOk(tr.s, tr.s.kills[0]);
    }
  }

  lemma {:induction false} NotFirst(tr: Trace)
    requires Valid(tr) && !CompletedFirst(tr) && !tr.s.finisher.Working?
    ensures tr.s.core.stopCause != ""
  {
    if tr.Then? {
      ReachableInv(tr.before);
      if !tr.before.s.finisher.Working? { NotFirst(tr.before); }
    }
  }

  // ---------------------------------------------------------------- a result can always be published

  lemma Follow(tr: Trace, t: Step) returns (tr': Trace)
    requires Valid(tr) && Enabled(tr.s, t)
    ensures Valid(tr') && tr' == Then(tr, t, Apply(tr.s, t))
  {
    tr' := Then(tr, t, Apply(tr.s, t));
  }

  /** The winner's stop action can end. */
  lemma StopCanEnd(tr: Trace) returns (tr': Trace)
    requires Valid(tr) && tr.s.kills != []
    ensures Valid(tr') && tr'.s.core.stopDone && tr'.s.finisher == tr.s.finisher
  {
    hide Valid;
    ReachableInv(tr);
    var id := tr.s.kills[0];
    assert RequesterOk(tr.s, id);
    tr' := tr;
    if tr'.s.requesters[id].Stopping? { tr' := Follow(tr', Kill(id)); }
    if tr'.s.requesters[id].Stopped? { tr' := Follow(tr', Settle(id)); }
    WinnerReturned(tr', id);
  }

  /** A winner that has returned has closed stopDone. */
  lemma {:induction false} WinnerReturned(tr: Trace, id: Id)
    requires Valid(tr) && id in tr.s.requesters && tr.s.requesters[id].Returned? && tr.s.requesters[id].won
    ensures tr.s.core.stopDone
  {
    if !tr.t.Settle? || tr.t.id != id { WinnerReturned(tr.before, id); }
  }

  /** From every reachable state a result can be published. */
  lemma ResultCanBePublished(tr: Trace, failed: bool, kind: ProcessKind) returns (tr': Trace)
    requires Valid(tr) && tr.s.core.result.None?
    ensures Valid(tr') && tr'.s.core.result.Some?
  {
    hide Valid;
    ReachableInv(tr);
    tr' := tr;
    if tr'.s.finisher.Working? { tr' := Follow(tr', ClaimFinish); }
    ReachableInv(tr');
    if tr'.s.finisher.Waiting? {
      tr' := StopCanEnd(tr');
      tr' := Follow(tr', AwaitStop);
    }
    tr' := Follow(tr', Publish(failed, kind));
  }

  /** And while completion has not claimed the execution, nobody has won and there is no result, a stop wins. */
  lemma StopsWinExactly(tr: Trace, id: Id, cause: Cause)
    requires Valid(tr) && id !in tr.s.requesters && cause != ""
    ensures Enabled(tr.s, Request(id, cause))
    ensures Won(Apply(tr.s, Request(id, cause)), id) <==> tr.s.kills == [] && !CompletedFirst(tr)
  {
    hide Valid;
    ReachableInv(tr);
    if CompletedFirst(tr) {
      ClaimStays(tr);
    } else if !tr.s.finisher.Working? {
      NotFirst(tr);
    }
  }

  // ---------------------------------------------------------------- the sections as methods

  /** The execution's own fields, with the goroutines that use them as ghost state. */
  class Execution {
    var stopCause: Cause
    var stopDone: bool
    var finishing: bool
    var result: Option<Cause>
    ghost var requesters: map<Id, Requester>
    ghost var finisher: Finisher
    ghost var kills: seq<Id>

    ghost function View(): State
      reads this
    {
      State(Core(stopCause, stopDone, finishing, result), requesters, finisher, kills)
    }

    ghost predicate Valid()
      reads this
    {
      Inv(View())
    }

    constructor ()
      ensures View() == Initial() && Valid()
    {
      stopCause, stopDone, finishing, result := "", false, false, None;
      requesters, finisher, kills := map[], Working, [];
    }

    /** The first section of requestStop. Only a winner runs its stop action, and no other was ever issued. */
    method RecordStop(ghost id: Id, cause: Cause) returns (won: bool)
      requires Valid() && Enabled(View(), Request(id, cause))
      modifies this
      ensures Valid() && View() == Apply(old(View()), Request(id, cause))
      ensures won <==> kills == old(kills) + [id]
      ensures won ==> kills == [id] && stopCause == cause && old(result).None?
      ensures !won ==> old(result).Some? || old(finishing) || old(kills) != []
    {
      StepKeeps(View(), Request(id, cause));
      if result.Some? || finishing || stopCause != "" {
        requesters := requesters[id := Returned(false, cause)];
        return false;
      }
      stopCause := cause;
      requesters, kills := requesters[id := Stopping(cause)], kills + [id];
      won := true;
    }

    /** The winner's stop action returns. */
    ghost method StopReturns(id: Id)
      requires Valid() && Enabled(View(), Kill(id))
      modifies this
      ensures Valid() && View() == Apply(old(View()), Kill(id))
    {
      StepKeeps(View(), Kill(id));
      requesters := requesters[id := Stopped(requesters[id].cause)];
    }

    /** The winner closes stopDone, which nobody has closed before, and before any result is published. */
    method CloseStop(ghost id: Id)
      requires Valid() && Enabled(View(), Settle(id))
      modifies this
      ensures Valid() && View() == Apply(old(View()), Settle(id))
      ensures !old(stopDone) && old(result).None? && old(kills) == [id]
    {
      StepKeeps(View(), Settle(id));
      assert RequesterOk(View(), id) && Won(View(), id);
      stopDone := true;
      requesters := requesters[id := Returned(true, requesters[id].cause)];
    }

    /** claimFinish: an empty cause means that completion owns the execution; another must be waited for. */
    method ClaimFinish() returns (cause: Cause)
      requires Valid() && Enabled(View(), Step.ClaimFinish)
      modifies this
      ensures Valid() && View() == Apply(old(View()), Step.ClaimFinish)
      ensures finisher == if cause == "" then Claimed("") else Waiting(cause)
      ensures cause == "" <==> kills == []
    {
      StepKeeps(View(), Step.ClaimFinish);
      if stopCause == "" {
        finishing := true;
        finisher := Claimed("");
        return "";
      }
      cause := stopCause;
      finisher := Waiting(cause);
    }

    /** finishResult has waited for stopDone. */
    ghost method StopAwaited()
      requires Valid() && Enabled(View(), AwaitStop)
      modifies this
      ensures Valid() && View() == Apply(old(View()), AwaitStop)
    {
      StepKeeps(View(), AwaitStop);
      finisher := Claimed(finisher.cause);
    }

    /**
    The last section of finishResult. It publishes a first and only result: the cause of the one stop
    that won, whose action is over, or else the process's own.
    */
    method PublishResult(claimed: Cause, failed: bool, kind: ProcessKind)
      requires Valid() && finisher == Claimed(claimed)
      modifies this
      ensures Valid() && View() == Apply(old(View()), Publish(failed, kind))
      ensures old(result).None? && result.Some?
      ensures kills != [] ==> stopDone && result == Some(stopCause)
      ensures kills == [] ==> result == Some(OwnCause(failed, kind))
    {
      StepKeeps(View(), Publish(failed, kind));
      var cause := claimed;
      if cause == "" && failed {
        cause := "preparation_failed";
      }
      if cause == "" {
        match kind {
          case Exited => cause := "natural";
          case Signaled => cause := "external_signal";
          case Lost => cause := "executor_lost";
        }
      }
      result := Some(cause);
      finishing := false;
      finisher := Published;
    }
  }
}
