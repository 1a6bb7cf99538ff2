/** The semantic table from durable state and live observation to a recovery decision. */
module RecoveryTable {
  import opened Wrappers

  datatype State =
    | SessionOpen
    | ParticipantRegistered
    | InstancePrepared
    | InstanceAttached
    | InstanceReady
    | InstanceStopping
    | InstanceCleanupRequired
    | InstanceStopped
    | OperationQueued
    | OperationStarting
    | OperationRunning
    | OperationWaiting
    | OperationCancelling
    | OperationTerminal
    | MessageQueued
    | MessageRetryScheduled
    | MessageRetryDeferred
    | MessageLeased
    | MessageLeaseActive
    | MessageAcceptancePending
    | MessageAcceptanceUnknown
    | MessageAccepted
    | MessageUncertain
    | MessageDeadLetter
    | EffectReserved
    | EffectStartedRetryable
    | EffectStartedUnsafe
    | EffectCompleted

  datatype Observation =
    | NotApplicable
    | NotInspected
    | Absent
    | SameAuthenticatedInstance
    | SameUnauthenticatedInstance
    | DifferentInstance
    | Unreachable

  datatype Class = SafeToContinue | SafeToRedeliver | ExternallyAlive | EffectUncertain | CleanupRequired | Terminal

  datatype Action =
    | Continue
    | RedeliverExactMessage
    | ReconnectExactInstance
    | ScheduleExistingOperation
    | CleanupVerifiedResource
    | AwaitResolution
    | NoAction

  datatype Reason =
    | DurableWorkNotStarted
    | ExactMessageIsDeduplicated
    | DeclaredEffectIsRetryable
    | ExactAuthenticatedInstanceObserved
    | ExternalEffectMayHaveOccurred
    | StaleVerifiedResourceObserved
    | DurableOutcomeExists
    | LiveIdentityCannotBeProven
    | EligibilityWindowNotReached

  datatype Decision = Decision(class_: Class, reason: Reason, action: Action)

  datatype Contradiction = InspectionRequired | UnexpectedLiveObservation | TerminalStateHasLiveWork

  const FINISHED: Decision := Decision(Terminal, DurableOutcomeExists, NoAction)
  const CLEANUP: Decision := Decision(CleanupRequired, StaleVerifiedResourceObserved, CleanupVerifiedResource)
  const REDELIVER: Decision := Decision(SafeToRedeliver, ExactMessageIsDeduplicated, RedeliverExactMessage)
  const UNPROVEN: Decision := Decision(EffectUncertain, LiveIdentityCannotBeProven, AwaitResolution)
  const MAY_HAVE_HAPPENED: Decision := Decision(EffectUncertain, ExternalEffectMayHaveOccurred, AwaitResolution)

  function ClassifyInstance(state: State, o: Observation): Result<Decision, Contradiction> {
    match o
    case SameAuthenticatedInstance =>
      if state.InstanceAttached? || state.InstanceReady? then
        Success(Decision(ExternallyAlive, ExactAuthenticatedInstanceObserved, ReconnectExactInstance))
      else if state.InstanceStopping? || state.InstanceCleanupRequired? then Success(CLEANUP)
      else if state.InstanceStopped? then Failure(TerminalStateHasLiveWork)
      else Failure(UnexpectedLiveObservation)
    case SameUnauthenticatedInstance =>
      if state.InstanceStopping? || state.InstanceCleanupRequired? then Success(CLEANUP)
      else if state.InstanceStopped? then Failure(TerminalStateHasLiveWork)
      else Success(UNPROVEN)
    case Absent =>
      if state.InstancePrepared? then Success(Decision(SafeToContinue, DurableWorkNotStarted, Continue))
      else if state.InstanceStopped? then Success(FINISHED)
      else Success(CLEANUP)
    case NotInspected =>
      if state.InstanceStopped? then Failure(UnexpectedLiveObservation) else Failure(InspectionRequired)
    case DifferentInstance =>
      if state.InstanceStopped? then Failure(UnexpectedLiveObservation) else Success(UNPROVEN)
    case Unreachable =>
      if state.InstanceStopped? then Failure(UnexpectedLiveObservation) else Success(UNPROVEN)
    case NotApplicable =>
      if state.InstanceStopped? then Success(FINISHED) else Failure(UnexpectedLiveObservation)
  }

  predicate InstanceState(state: State) {
    || state.InstancePrepared? || state.InstanceAttached? || state.InstanceReady?
    || state.InstanceStopping? || state.InstanceCleanupRequired? || state.InstanceStopped?
  }

  function ClassifyRecovery(state: State, o: Observation): Result<Decision, Contradiction> {
    if InstanceState(state) then ClassifyInstance(state, o)
    else if !o.NotApplicable? then Failure(UnexpectedLiveObservation)
    else
      match state
      case OperationQueued => Success(Decision(SafeToContinue, DurableWorkNotStarted, ScheduleExistingOperation))
      case OperationStarting => Success(MAY_HAVE_HAPPENED)
      case OperationRunning => Success(MAY_HAVE_HAPPENED)
      case OperationWaiting => Success(MAY_HAVE_HAPPENED)
      case OperationCancelling => Success(MAY_HAVE_HAPPENED)
      case OperationTerminal => Success(FINISHED)
      case MessageQueued => Success(REDELIVER)
      case MessageRetryScheduled => Success(REDELIVER)
      case MessageLeased => Success(REDELIVER)
      case MessageRetryDeferred => Success(Decision(SafeToContinue, EligibilityWindowNotReached, Continue))
      case MessageLeaseActive => Success(Decision(SafeToContinue, EligibilityWindowNotReached, Continue))
      case MessageAcceptancePending => Success(MAY_HAVE_HAPPENED)
      case MessageAcceptanceUnknown => Success(MAY_HAVE_HAPPENED)
      case MessageUncertain => Success(MAY_HAVE_HAPPENED)
      case MessageAccepted => Success(FINISHED)
      case MessageDeadLetter => Success(FINISHED)
      case EffectReserved => Success(Decision(SafeToContinue, DurableWorkNotStarted, Continue))
      case EffectStartedRetryable => Success(Decision(SafeToContinue, DeclaredEffectIsRetryable, Continue))
      case EffectStartedUnsafe => Success(MAY_HAVE_HAPPENED)
      case EffectCompleted => Success(FINISHED)
      case SessionOpen => Success(Decision(SafeToContinue, DurableWorkNotStarted, Continue))
      case ParticipantRegistered => Success(Decision(SafeToContinue, DurableWorkNotStarted, Continue))
  }

  // ---------------------------------------------------------------------------------------------
  // What each decision and each contradiction means
  // ---------------------------------------------------------------------------------------------

  /** The external effect may have happened: work in progress, or an acceptance nobody confirmed. */
  predicate MayHaveHappened(state: State) {
    state in {OperationStarting, OperationRunning, OperationWaiting, OperationCancelling, MessageAcceptancePending,
              MessageAcceptanceUnknown, MessageUncertain, EffectStartedUnsafe}
  }

  predicate Finished(state: State) {
    state in {OperationTerminal, MessageAccepted, MessageDeadLetter, EffectCompleted}
  }

  predicate Redeliverable(state: State) {
    state in {MessageQueued, MessageRetryScheduled, MessageLeased}
  }

  predicate NotYetEligible(state: State) {
    state in {MessageRetryDeferred, MessageLeaseActive}
  }

  predicate NotStarted(state: State) {
    state in {SessionOpen, ParticipantRegistered, EffectReserved}
  }

  predicate Ending(state: State) {
    state in {InstanceStopping, InstanceCleanupRequired}
  }

  /** The live identity is not the persisted one, or cannot be proven to be. */
  predicate IdentityUnproven(state: State, o: Observation) {
    o in {DifferentInstance, Unreachable} || (o.SameUnauthenticatedInstance? && !Ending(state))
  }

  /** Every state that is not an instance's belongs to one of these groups. */
  lemma StatesAreGrouped(state: State)
    ensures !InstanceState(state) <==>
            || MayHaveHappened(state) || Finished(state) || Redeliverable(state) || NotYetEligible(state)
            || NotStarted(state) || state in {OperationQueued, EffectStartedRetryable}
  {
  }

  /** The contradictions, for every state and observation. */
  lemma ContradictionsAreExact(state: State, o: Observation)
    ensures ClassifyRecovery(state, o) == Failure(InspectionRequired) <==>
            InstanceState(state) && !state.InstanceStopped? && o.NotInspected?
    ensures ClassifyRecovery(state, o) == Failure(TerminalStateHasLiveWork) <==>
            state.InstanceStopped? && o in {SameAuthenticatedInstance, SameUnauthenticatedInstance}
    ensures ClassifyRecovery(state, o) == Failure(UnexpectedLiveObservation) <==>
            || (!InstanceState(state) && !o.NotApplicable?)
            || (InstanceState(state) && !state.InstanceStopped? && o.NotApplicable?)
            || (state.InstancePrepared? && o.SameAuthenticatedInstance?)
            || (state.InstanceStopped? && o in {NotInspected, DifferentInstance, Unreachable})
  {
  }

  /** The classes, for every state and observation that do not contradict each other. */
  lemma ClassesAreExact(state: State, o: Observation)
    requires ClassifyRecovery(state, o).Success?
    ensures var class_ := ClassifyRecovery(state, o).value.class_;
            && (class_.EffectUncertain? <==>
                  MayHaveHappened(state) || (InstanceState(state) && IdentityUnproven(state, o)))
            && (class_.Terminal? <==> Finished(state) || state.InstanceStopped?)
            && (class_.CleanupRequired? <==>
                  || (Ending(state) && o in {SameAuthenticatedInstance, SameUnauthenticatedInstance, Absent})
                  || (state in {InstanceAttached, InstanceReady} && o.Absent?))
            && (class_.ExternallyAlive? <==>
                  state in {InstanceAttached, InstanceReady} && o.SameAuthenticatedInstance?)
            && (class_.SafeToRedeliver? <==> Redeliverable(state))
            && (class_.SafeToContinue? <==>
                  || NotStarted(state) || NotYetEligible(state)
                  || state in {OperationQueued, EffectStartedRetryable}
                  || (state.InstancePrepared? && o.Absent?))
  {
  }

  /** The class and the state determine the action and the reason. */
  lemma DecisionsAreExact(state: State, o: Observation)
    requires ClassifyRecovery(state, o).Success?
    ensures var d := ClassifyRecovery(state, o).value;
            && (d.action.AwaitResolution? <==> d.class_.EffectUncertain?)
            && (d.action.NoAction? <==> d.class_.Terminal?)
            && (d.action.CleanupVerifiedResource? <==> d.class_.CleanupRequired?)
            && (d.action.ReconnectExactInstance? <==> d.class_.ExternallyAlive?)
            && (d.action.RedeliverExactMessage? <==> d.class_.SafeToRedeliver?)
            && (d.action.ScheduleExistingOperation? <==> state.OperationQueued?)
            && (d.action.Continue? <==> d.class_.SafeToContinue? && !state.OperationQueued?)
            && (d.reason.ExternalEffectMayHaveOccurred? <==> MayHaveHappened(state))
            && (d.reason.LiveIdentityCannotBeProven? <==> d.class_.EffectUncertain? && InstanceState(state))
            && (d.reason.DurableOutcomeExists? <==> d.class_.Terminal?)
            && (d.reason.StaleVerifiedResourceObserved? <==> d.class_.CleanupRequired?)
            && (d.reason.ExactAuthenticatedInstanceObserved? <==> d.class_.ExternallyAlive?)
            && (d.reason.ExactMessageIsDeduplicated? <==> d.class_.SafeToRedeliver?)
            && (d.reason.EligibilityWindowNotReached? <==> NotYetEligible(state))
            && (d.reason.DeclaredEffectIsRetryable? <==> state.EffectStartedRetryable?)
            && (d.reason.DurableWorkNotStarted? <==>
                  NotStarted(state) || state.OperationQueued? || (state.InstancePrepared? && o.Absent?))
  {
  }

  /**
    What the rest of recovery relies on: an uncertain class always waits, a finished one never acts,
    cleanup is exactly the cleanup class, and an unproven identity is never called safe.
  */
  lemma TableIsConservative(state: State, o: Observation)
    requires ClassifyRecovery(state, o).Success?
    ensures var d := ClassifyRecovery(state, o).value;
            && (d.class_.EffectUncertain? <==> d.action.AwaitResolution?)
            && (d.class_.Terminal? <==> d.action.NoAction?)
            && (d.class_.CleanupRequired? <==> d.action.CleanupVerifiedResource?)
            && (d.action.ScheduleExistingOperation? <==> state.OperationQueued?)
            && (d.action.RedeliverExactMessage? ==> d.class_.SafeToRedeliver?)
            && (d.action.ReconnectExactInstance? ==> o.SameAuthenticatedInstance?)
            && (o.DifferentInstance? || o.SameUnauthenticatedInstance? || o.Unreachable? ==>
                  d.class_.EffectUncertain? || d.class_.CleanupRequired?)
  {
  }
}
