/**
  The rules of one execution of an operation up to its report loop: what may follow what, which
  judgement each answer calls for, and where an execution may stop.
*/
module Execution {
  import opened Wrappers
  import opened Operations
  import opened Observation

  const NO_CAPACITY := DidFail("capacity", "execution capacity deadline elapsed")
  const NOT_READY := DidFail("executor_unavailable", "Executor could not become ready")
  const DELIVERY_FAILED := IsUncertain("Driver delivery failed after durable intent")
  const REJECTED := DidFail("delivery_rejected", "Driver did not accept the durable Message")
  const UNKNOWN_ACCEPTANCE := IsUncertain("delivery acceptance is unknown")

  function BeginAttempt(first: Snapshot): Attempt {
    Attempt(Advancing, first, BeginStart, None, None)
  }

  function RunningAttempt(op: Snapshot): Attempt {
    Attempt(Advancing, op, ReportRunning, Some(op.input), None)
  }

  // ---------------------------------------------------------------------------------------------
  // What may follow a trace
  // ---------------------------------------------------------------------------------------------

  /** What comes before the reload. */
  function Opening(first: Snapshot): seq<Effect> {
    [Asked(Campaign, true), Asked(Capacity, true)]
    + if first.state.Queued? then [Attempted(BeginAttempt(first), true)] else []
  }

  /** Where the reload stands. */
  function ReloadAt(first: Snapshot): nat {
    if first.state.Queued? then 3 else 2
  }

  /** The trace is `k` effects past the reload of an operation that was not cancelled. */
  predicate Reloaded(first: Snapshot, past: seq<Effect>, k: nat) {
    && |past| == ReloadAt(first) + 1 + k
    && past[ReloadAt(first)].Loaded? && !past[ReloadAt(first)].snapshot.state.Cancelled?
  }

  /** The operation as the execution reloaded it. */
  function ReloadOf(first: Snapshot, t: seq<Effect>): Option<Snapshot> {
    if |t| > ReloadAt(first) && t[ReloadAt(first)].Loaded? then Some(t[ReloadAt(first)].snapshot) else None
  }

  /** The permit is checked once the instance is ready, and again once the input is read. */
  predicate AtPermit(first: Snapshot, past: seq<Effect>) {
    || (Reloaded(first, past, 1) && FromEnd(past, 1) == Asked(Readiness, true)
        && !InFlight(past[ReloadAt(first)].snapshot.state))
    || (Reloaded(first, past, 3) && FromEnd(past, 1) == Asked(Input, true))
  }

  /** The snapshot and the outcome of the judgement that the worker owes after a trace, if any. */
  function EarlyDue(first: Snapshot, past: seq<Effect>): Option<(Snapshot, Outcome)> {
    if past == [Asked(Campaign, true), Asked(Capacity, false)] then Some((first, NO_CAPACITY))
    else if Reloaded(first, past, 1) && FromEnd(past, 1) == Asked(Readiness, false) then
      Some((past[ReloadAt(first)].snapshot, NOT_READY))
    else if Reloaded(first, past, 5) && FromEnd(past, 1).Delivered? then
      var op := past[ReloadAt(first)].snapshot;
      match FromEnd(past, 1).acceptance
      case Accepted => None
      case NotAccepted => Some((op, REJECTED))
      case Unknown => Some((op, UNKNOWN_ACCEPTANCE))
      case DeliveryFailed => Some((op, DELIVERY_FAILED))
    else None
  }

  predicate MayAttemptEarly(first: Snapshot, past: seq<Effect>, a: Attempt) {
    match a.cause
    case Reported => false
    case Advancing =>
      || (&& past == [Asked(Campaign, true), Asked(Capacity, true)]
          && first.state.Queued? && a == BeginAttempt(first))
      || (&& Reloaded(first, past, 5) && FromEnd(past, 1) == Delivered(Accepted)
          && a == RunningAttempt(past[ReloadAt(first)].snapshot))
    case Judged =>
      var due := EarlyDue(first, past);
      due.Some? && a == JudgedAttempt(due.value.0, due.value.1)
  }

  predicate MayAsk(first: Snapshot, past: seq<Effect>, gate: Gate) {
    match gate
    case Campaign => past == [] && !IsTerminal(first.state)
    case Capacity => past == [Asked(Campaign, true)]
    case Readiness => Reloaded(first, past, 0)
    case Permit => AtPermit(first, past)
    case Input => Reloaded(first, past, 2) && FromEnd(past, 1) == Asked(Permit, true)
  }

  /** `e` may come right after `past` in an execution that starts from `first`. */
  predicate EarlyExplained(first: Snapshot, past: seq<Effect>, e: Effect) {
    match e
    case Asked(gate, _) => MayAsk(first, past, gate)
    case Loaded(_) => past == Opening(first)
    case LoadFailed => past == Opening(first)
    case Delivered(_) => Reloaded(first, past, 4) && FromEnd(past, 1) == Asked(Permit, true)
    case Attempted(a, _) => MayAttemptEarly(first, past, a)
    case Denied(a) => MayAttemptEarly(first, past, a)
    case _ => false
  }

  ghost predicate EarlyTrace(first: Snapshot, t: seq<Effect>) {
    forall i :: 0 <= i < |t| ==> EarlyExplained(first, t[..i], t[i])
  }

  /** Nothing may follow before the report loop. */
  ghost predicate EndedEarly(first: Snapshot, t: seq<Effect>) {
    forall e :: !EarlyExplained(first, t, e)
  }

  /** The snapshot the report loop starts on: an operation in flight, or one just reported running. */
  function Watched(first: Snapshot, t: seq<Effect>): Option<Snapshot> {
    if && Reloaded(first, t, 1) && FromEnd(t, 1) == Asked(Readiness, true)
       && InFlight(t[ReloadAt(first)].snapshot.state) then
      Some(t[ReloadAt(first)].snapshot)
    else if && Reloaded(first, t, 6)
            && FromEnd(t, 1) == Attempted(RunningAttempt(t[ReloadAt(first)].snapshot), true) then
      Some(NowRunning(t[ReloadAt(first)].snapshot))
    else None
  }

  function NowRunning(op: Snapshot): Snapshot {
    op.(state := Running, revision := op.revision + 1, waitingOn := None)
  }

  lemma ExtendEarly(first: Snapshot, t: seq<Effect>, e: Effect)
    requires EarlyTrace(first, t) && EarlyExplained(first, t, e)
    ensures EarlyTrace(first, t + [e]) && FromEnd(t + [e], 1) == e
    ensures forall i :: 0 <= i < |t| ==> (t + [e])[i] == t[i]
  {
    var u := t + [e];
    forall i | 0 <= i < |u| ensures EarlyExplained(first, u[..i], u[i]) {
      assert u[..i] == t[..i];
    }
  }

  /** What an execution that ended before the report loop answers. */
  predicate EarlyAnswers(first: Snapshot, t: seq<Effect>, r: Option<Snapshot>) {
    if t == [] then r == if IsTerminal(first.state) then Some(first) else None
    else
      match FromEnd(t, 1)
      case Loaded(s) => r == if s.state.Cancelled? then Some(s) else None
      case Attempted(a, committed) =>
        && (r.Some? <==> committed && a.cause.Judged?)
        && (r.Some? ==> OutcomeFits(r.value.state, a.outcome))
      case _ => r.None?
  }

  // ---------------------------------------------------------------------------------------------
  // What the rules imply
  // ---------------------------------------------------------------------------------------------

  lemma Explains(first: Snapshot, t: seq<Effect>, i: nat)
    requires EarlyTrace(first, t) && i < |t|
    ensures EarlyExplained(first, t[..i], t[i])
    ensures i > 0 ==> FromEnd(t[..i], 1) == t[i - 1]
  {
  }

  /** There is one reload, at a known place, and everything before it is known. */
  lemma ReloadPlace(first: Snapshot, t: seq<Effect>, i: nat)
    requires EarlyTrace(first, t) && i < |t| && t[i].Loaded?
    ensures i == ReloadAt(first) && t[..i] == Opening(first)
  {
    Explains(first, t, i);
    assert |t[..i]| == i;
  }

  /**
    A delivery comes after the whole preparation: campaign, capacity, the begun start, the reload of
    an operation neither cancelled nor in flight, readiness, and the permit both before and after the
    input was read.
  */
  lemma DeliveryIsPrepared(first: Snapshot, t: seq<Effect>, i: nat)
    requires EarlyTrace(first, t) && i < |t| && t[i].Delivered?
    ensures i == ReloadAt(first) + 5 && t[..i - 5] == Opening(first) && t[i - 5].Loaded?
    ensures !InFlight(t[i - 5].snapshot.state) && !t[i - 5].snapshot.state.Cancelled?
    ensures t[i - 4] == Asked(Readiness, true) && t[i - 3] == Asked(Permit, true)
    ensures t[i - 2] == Asked(Input, true) && t[i - 1] == Asked(Permit, true)
  {
    Explains(first, t, i);
    Explains(first, t, i - 1);
    Explains(first, t, i - 2);
    Explains(first, t, i - 3);
    ReloadPlace(first, t, i - 5);
  }

  /** The input is delivered at most once. */
  lemma DeliversAtMostOnce(first: Snapshot, t: seq<Effect>, i: nat, j: nat)
    requires EarlyTrace(first, t) && i < |t| && j < |t| && t[i].Delivered? && t[j].Delivered?
    ensures i == j
  {
    DeliveryIsPrepared(first, t, i);
    DeliveryIsPrepared(first, t, j);
  }

  lemma EarlyDueFailsOrDoubts(first: Snapshot, past: seq<Effect>)
    ensures var due := EarlyDue(first, past);
            due.Some? ==> due.value.1.DidFail? || due.value.1.IsUncertain?
  {
  }

  /** Only a delivery can leave an execution in doubt; refused capacity or readiness is a failure. */
  lemma DoubtComesFromDelivery(first: Snapshot, past: seq<Effect>)
    requires EarlyDue(first, past).Some?
    ensures EarlyDue(first, past).value.1.IsUncertain? <==>
            FromEnd(past, 1) == Delivered(Unknown) || FromEnd(past, 1) == Delivered(DeliveryFailed)
    ensures EarlyDue(first, past).value.1.DidFail? <==>
            FromEnd(past, 1) == Delivered(NotAccepted) || FromEnd(past, 1).Asked?
  {
  }

  /** Running is asked for only right after an accepted delivery of the reloaded operation. */
  lemma RunningFollowsAcceptance(first: Snapshot, t: seq<Effect>, i: nat)
    requires EarlyTrace(first, t) && i < |t| && t[i].Attempted? && t[i].attempt.action.ReportRunning?
    ensures i > 0 && t[i - 1] == Delivered(Accepted) && ReloadOf(first, t) == Some(t[i].attempt.from)
  {
    Explains(first, t, i);
    EarlyDueFailsOrDoubts(first, t[..i]);
    assert t[i].attempt.cause.Advancing?;
    assert Reloaded(first, t[..i], 5);
    assert t[..i][ReloadAt(first)] == t[ReloadAt(first)];
  }

  /**
    After a delivery the worker reports a failure exactly when the Driver refused the input, doubt
    exactly when acceptance is unknown or the call failed, and Running exactly when it accepted.
  */
  lemma DeliveryDecides(first: Snapshot, t: seq<Effect>, i: nat)
    requires EarlyTrace(first, t) && 0 < i < |t| && t[i].Attempted? && t[i - 1].Delivered?
    ensures t[i].attempt.action.ReportFailure? <==> t[i - 1].acceptance.NotAccepted?
    ensures t[i].attempt.action.ReportUncertain? <==> t[i - 1].acceptance in {Unknown, DeliveryFailed}
    ensures t[i].attempt.action.ReportRunning? <==> t[i - 1].acceptance.Accepted?
  {
    Explains(first, t, i);
    DeliveryIsPrepared(first, t, i - 1);
  }

  /** An execution whose delivery may have reached the Driver is not reported as failed before the report loop. */
  lemma NoFailureAfterDoubt(first: Snapshot, t: seq<Effect>, d: nat, i: nat)
    requires EarlyTrace(first, t) && d < |t| && t[d].Delivered? && !t[d].acceptance.NotAccepted?
    requires i < |t| && t[i].Attempted?
    ensures !t[i].attempt.action.ReportFailure?
  {
    DeliveryIsPrepared(first, t, d);
    Explains(first, t, i);
    if t[i].attempt.action.ReportFailure? {
      DueComesLast(first, t, i);
      DeliveryDecides(first, t, i);
    }
  }

  /** When the input was delivered, a judgement comes right after the delivery. */
  lemma DueComesLast(first: Snapshot, t: seq<Effect>, i: nat)
    requires EarlyTrace(first, t) && i < |t| && t[i].Attempted? && t[i].attempt.cause.Judged?
    requires |t| > ReloadAt(first) + 5 && t[ReloadAt(first) + 5].Delivered?
    ensures i == ReloadAt(first) + 6
  {
    var d := ReloadAt(first) + 5;
    DeliveryIsPrepared(first, t, d);
    Explains(first, t, i);
    assert t[1] == t[..d - 5][1] == Asked(Capacity, true);
  }
}
