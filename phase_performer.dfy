/** The per-phase state machine (Phases/PhasePerformer.cs): a performer is
    Ready, then Started, then Completed or Cancelled; each legal transition
    reports one event to the observer, and an illegal one throws
    InvalidOperationException and reports nothing. */
module PhasePerformers {
  import opened Types

  datatype PhaseState = PhaseReady | Started | Completed | Cancelled

  /** A phase of a coordination (Phases/Phase.cs): its id and its presentation.
      Its Step, the observable that completes when the phase's work is done, is
      represented by the performer's step flags. */
  datatype Phase = Phase(id: PhaseId, presentation: Presentation)

  datatype PhaseEvent =
    | PhaseStarting(phase: Phase)
    | PhaseCompleted(phase: Phase)
    | PhaseCancelled(phase: Phase)

  /** What an observer of phase events receives. */
  datatype Notification = OnNext(event: PhaseEvent) | OnCompleted

  /** An observer that records what it receives, in order. */
  class EventLog {
    var notifications: seq<Notification>

    constructor ()
      ensures notifications == []
    {
      notifications := [];
    }

    method Notify(n: Notification)
      modifies this
      ensures notifications == old(notifications) + [n]
    {
      notifications := notifications + [n];
    }
  }

  datatype PerformerOp = StartOp | CancelOp | CompleteOp

  /** The state a legal operation leads to, or None when the operation throws. */
  function Next(s: PhaseState, op: PerformerOp): (r: Option<PhaseState>)
    ensures r.Some? <==> (op == StartOp && s == PhaseReady) || (op != StartOp && s == Started)
    ensures s == Completed || s == Cancelled ==> r.None?
  {
    match op
    case StartOp => if s == PhaseReady then Some(Started) else None
    case CancelOp => if s == Started then Some(Cancelled) else None
    case CompleteOp => if s == Started then Some(Completed) else None
  }

  /** The event a legal operation reports. */
  function Emission(op: PerformerOp, phase: Phase): PhaseEvent
  {
    match op
    case StartOp => PhaseStarting(phase)
    case CancelOp => PhaseCancelled(phase)
    case CompleteOp => PhaseCompleted(phase)
  }

  /** The state and the reported events after a sequence of operations; an
      operation that throws changes nothing. */
  function RunOps(s: PhaseState, ops: seq<PerformerOp>, phase: Phase): (r: (PhaseState, seq<PhaseEvent>))
    decreases |ops|
  {
    if ops == [] then (s, [])
    else match Next(s, ops[0])
      case None => RunOps(s, ops[1..], phase)
      case Some(s') =>
        var rest := RunOps(s', ops[1..], phase);
        (rest.0, [Emission(ops[0], phase)] + rest.1)
  }

  /** Everything a performer in state `s` has reported since it was created. */
  function History(s: PhaseState, phase: Phase): (h: seq<PhaseEvent>)
    ensures |h| <= 2 && (|h| == 0 <==> s == PhaseReady)
    ensures |h| > 0 ==> h[0] == PhaseStarting(phase)
    ensures |h| == 2 ==> h[1] == PhaseCompleted(phase) || h[1] == PhaseCancelled(phase)
  {
    match s
    case PhaseReady => []
    case Started => [PhaseStarting(phase)]
    case Completed => [PhaseStarting(phase), PhaseCompleted(phase)]
    case Cancelled => [PhaseStarting(phase), PhaseCancelled(phase)]
  }

  /** From any state, a run reports exactly the events that extend the
      history of the state it started in to the history of the state it ends in. */
  lemma {:induction false} RunExtendsHistory(s: PhaseState, ops: seq<PerformerOp>, phase: Phase)
    ensures History(s, phase) + RunOps(s, ops, phase).1 == History(RunOps(s, ops, phase).0, phase)
    decreases |ops|
  {
    if ops != [] {
      match Next(s, ops[0])
      case None =>
        RunExtendsHistory(s, ops[1..], phase);
      case Some(s') =>
        RunExtendsHistory(s', ops[1..], phase);
        assert History(s, phase) + [Emission(ops[0], phase)] == History(s', phase);
    }
  }

  /** Whatever is called on a fresh performer, it reports at most one starting
      event and at most one completed-or-cancelled event, the starting event
      first. */
  lemma AtMostOneStartThenOneEnd(ops: seq<PerformerOp>, phase: Phase)
    ensures var evs := RunOps(PhaseReady, ops, phase).1;
            && |evs| <= 2
            && (|evs| > 0 ==> evs[0] == PhaseStarting(phase))
            && (|evs| == 2 ==> evs[1] == PhaseCompleted(phase) || evs[1] == PhaseCancelled(phase))
  {
    RunExtendsHistory(PhaseReady, ops, phase);
  }

  /** Completed and Cancelled are final: nothing changes them or is reported. */
  lemma {:induction false} TerminalStatesAreFinal(s: PhaseState, ops: seq<PerformerOp>, phase: Phase)
    requires s == Completed || s == Cancelled
    ensures RunOps(s, ops, phase) == (s, [])
    decreases |ops|
  {
    if ops != [] {
      TerminalStatesAreFinal(s, ops[1..], phase);
    }
  }

  class PhasePerformer {
    const phase: Phase
    const observer: EventLog
    var state: PhaseState
    /** Start subscribed the phase's step to the completion subject, and that
        subscription is held by the performer's disposables. */
    var stepSubscribed: bool
    /** The completion subject has completed (the step is done). */
    var stepCompleted: bool
    /** Perform subscribed Complete to the completion subject. */
    var completeOnStep: bool
    var disposed: bool

    constructor (p: Phase, obs: EventLog)
      ensures phase == p && observer == obs && state == PhaseReady
      ensures !stepSubscribed && !stepCompleted && !completeOnStep && !disposed
    {
      phase, observer := p, obs;
      state := PhaseReady;
      stepSubscribed, stepCompleted, completeOnStep, disposed := false, false, false, false;
    }

    /** Start: only from Ready; reports PhaseStarting and subscribes the step. */
    method Start() returns (o: Outcome)
      modifies this, observer
      ensures Next(old(state), StartOp).None? ==>
        o.Threw? && o.error.InvalidOperation? && unchanged(this, observer)
      ensures Next(old(state), StartOp).Some? ==>
        o == Done && state == Started && stepSubscribed &&
        observer.notifications == old(observer.notifications) + [OnNext(PhaseStarting(phase))]
      ensures stepCompleted == old(stepCompleted) && completeOnStep == old(completeOnStep) && disposed == old(disposed)
    {
      if state != PhaseReady {
        return Threw(InvalidOperation("Cannot start phase currently in state"));
      }
      state := Started;
      observer.Notify(OnNext(PhaseStarting(phase)));
      stepSubscribed := true;
      o := Done;
    }

    /** Cancel: only from Started; reports PhaseCancelled. */
    method Cancel() returns (o: Outcome)
      modifies this, observer
      ensures Next(old(state), CancelOp).None? ==>
        o.Threw? && o.error.InvalidOperation? && unchanged(this, observer)
      ensures Next(old(state), CancelOp).Some? ==>
        o == Done && state == Cancelled &&
        observer.notifications == old(observer.notifications) + [OnNext(PhaseCancelled(phase))]
      ensures stepSubscribed == old(stepSubscribed) && stepCompleted == old(stepCompleted)
      ensures completeOnStep == old(completeOnStep) && disposed == old(disposed)
    {
      if state != Started {
        return Threw(InvalidOperation("Cannot cancel phase currently in state"));
      }
      state := Cancelled;
      observer.Notify(OnNext(PhaseCancelled(phase)));
      o := Done;
    }

    /** Complete: only from Started; reports PhaseCompleted. */
    method Complete() returns (o: Outcome)
      modifies this, observer
      ensures Next(old(state), CompleteOp).None? ==>
        o.Threw? && o.error.InvalidOperation? && unchanged(this, observer)
      ensures Next(old(state), CompleteOp).Some? ==>
        o == Done && state == Completed &&
        observer.notifications == old(observer.notifications) + [OnNext(PhaseCompleted(phase))]
      ensures stepSubscribed == old(stepSubscribed) && stepCompleted == old(stepCompleted)
      ensures completeOnStep == old(completeOnStep) && disposed == old(disposed)
    {
      if state != Started {
        return Threw(InvalidOperation("Cannot complete phase currently in state"));
      }
      state := Completed;
      observer.Notify(OnNext(PhaseCompleted(phase)));
      o := Done;
    }

    /** Perform: Start, and Complete once the step has completed. */
    method Perform() returns (o: Outcome)
      modifies this, observer
      ensures Next(old(state), StartOp).None? ==>
        o.Threw? && o.error.InvalidOperation? && unchanged(this, observer)
      ensures Next(old(state), StartOp).Some? ==>
        o == Done && state == Started && stepSubscribed && completeOnStep &&
        observer.notifications == old(observer.notifications) + [OnNext(PhaseStarting(phase))]
      ensures stepCompleted == old(stepCompleted) && disposed == old(disposed)
    {
      o := Start();
      if o == Done {
        completeOnStep := true;
      }
    }

    /** The phase's step completes. Unless the performer was disposed, the
        completion subject completes, and when Perform is waiting on it the
        performer is completed (which throws if it was cancelled meanwhile). */
    method StepCompletes() returns (o: Outcome)
      requires stepSubscribed && !stepCompleted
      modifies this, observer
      ensures disposed == old(disposed) && completeOnStep == old(completeOnStep)
      ensures disposed ==> unchanged(this, observer) && o == Done
      ensures !disposed && !completeOnStep ==>
        stepCompleted && state == old(state) && o == Done && unchanged(observer)
      ensures !disposed && completeOnStep && old(state) == Started ==>
        stepCompleted && state == Completed && o == Done &&
        observer.notifications == old(observer.notifications) + [OnNext(PhaseCompleted(phase))]
      ensures !disposed && completeOnStep && old(state) != Started ==>
        stepCompleted && state == old(state) && o.Threw? && unchanged(observer)
    {
      if disposed {
        return Done;
      }
      stepCompleted := true;
      if completeOnStep {
        o := Complete();
      } else {
        o := Done;
      }
    }

    /** Dispose: releases the step subscription. */
    method Dispose()
      modifies this
      ensures disposed && state == old(state) && stepCompleted == old(stepCompleted)
      ensures stepSubscribed == old(stepSubscribed) && completeOnStep == old(completeOnStep)
    {
      disposed := true;
    }
  }
}
