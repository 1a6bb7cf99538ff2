/**
  What a worker does with an operation, seen as a trace of its effects, and the rules every trace
  of the report loop obeys.
*/
module Observation {
  import opened Wrappers
  import opened Operations

  type OperationId = nat
  type MessageId = nat

  const NIL: MessageId := 0
  const MAX_REPORTS := 1024
  const MAX_PROGRESS_BYTES := 65536
  const MAX_OUTCOME_BYTES := 65536
  const MAX_REASON_BYTES := 1024
  const MAX_CODE_BYTES := 128

  datatype Snapshot = Snapshot(
    id: OperationId, input: MessageId, state: State, revision: nat, waitingOn: Option<MessageId>)

  // The length of a text is its length in bytes.
  datatype Outcome =
    | DidSucceed(result: string)
    | DidFail(code: string, detail: string)
    | WasCancelled
    | WasBlocked(reason: string)
    | IsUncertain(reason: string)

  datatype Report =
    | Question(id: OperationId, message: MessageId)
    | Progress(id: OperationId, message: MessageId, payload: string)
    | Idle
    | Disconnected
    | Terminal(id: OperationId, message: MessageId, outcome: Outcome)

  datatype Poll = TimedOut | PollFailed(message: string) | Got(report: Report)

  /** Who a transition comes from: the worker's progress, its own judgement, or a Driver report. */
  datatype Cause = Advancing | Judged | Reported

  datatype Attempt = Attempt(
    cause: Cause, from: Snapshot, action: Action, message: Option<MessageId>, outcome: Option<Outcome>)

  datatype Acceptance = Accepted | NotAccepted | Unknown | DeliveryFailed

  /** What an execution asks for, and needs, before it may go on. */
  datatype Gate = Campaign | Capacity | Readiness | Permit | Input

  /** What the worker does and what it is told; `Denied` is a transition whose permit check failed. */
  datatype Effect =
    | Polled(poll: Poll)
    | Reminded(ok: bool)
    | Acknowledged(message: MessageId, ok: bool)
    | Loaded(snapshot: Snapshot)
    | LoadFailed
    | Delivered(acceptance: Acceptance)
    | Asked(gate: Gate, granted: bool)
    | Attempted(attempt: Attempt, committed: bool)
    | Denied(attempt: Attempt)

  // ---------------------------------------------------------------------------------------------
  // The transitions a worker asks for
  // ---------------------------------------------------------------------------------------------

  predicate BoundedText(text: string, max: nat) {
    0 < |text| <= max
  }

  predicate Bounded(o: Outcome) {
    match o
    case DidSucceed(result) => |result| <= MAX_OUTCOME_BYTES
    case DidFail(code, detail) => BoundedText(code, MAX_CODE_BYTES) && BoundedText(detail, MAX_REASON_BYTES)
    case WasCancelled => true
    case WasBlocked(reason) => BoundedText(reason, MAX_REASON_BYTES)
    case IsUncertain(reason) => BoundedText(reason, MAX_REASON_BYTES)
  }

  function ActionFor(o: Outcome): Action {
    match o
    case DidSucceed(_) => ReportSuccess
    case DidFail(_, _) => ReportFailure
    case WasCancelled => ReportCancelled
    case WasBlocked(_) => ReportBlocked
    case IsUncertain(_) => ReportUncertain
  }

  const INVALID_REPORT := DidFail("invalid_report", "Executor terminal report exceeded its bound")

  /** The transition for a terminal report; an outcome out of bounds is reported as a failure. */
  function ReportAttempt(op: Snapshot, o: Outcome): Attempt {
    var outcome := if Bounded(o) then o else INVALID_REPORT;
    Attempt(Reported, op, ActionFor(outcome), Some(op.input), Some(outcome))
  }

  predicate InFlight(s: State) {
    s.Running? || s.Waiting? || s.Cancelling?
  }

  /** The message a transition of the worker's own carries. */
  function SystemMessage(op: Snapshot): Option<MessageId> {
    if InFlight(op.state) then Some(op.input) else None
  }

  function JudgedAttempt(op: Snapshot, o: Outcome): Attempt {
    Attempt(Judged, op, ActionFor(o), SystemMessage(op), Some(o))
  }

  predicate Correlated(op: Snapshot, id: OperationId, message: MessageId) {
    op.id == id && message != NIL
  }

  predicate OutcomeFits(s: State, o: Option<Outcome>) {
    if !IsTerminal(s) then o.None?
    else
      && o.Some?
      && match s
         case Succeeded => o.value.DidSucceed?
         case Failed => o.value.DidFail?
         case Cancelled => o.value.WasCancelled?
         case Blocked => o.value.WasBlocked?
         case _ => o.value.IsUncertain?
  }

  /** The action asked for with an outcome leads, wherever it is legal, to the state that the outcome names. */
  lemma OutcomeNamesItsState(s: State, o: Outcome)
    ensures Next(s, ActionFor(o)).Some? ==> OutcomeFits(Next(s, ActionFor(o)).value, Some(o))
  {
    TableIsExact(s, ActionFor(o));
  }

  /** A terminal report is committed as it is when it is within bounds, and as a failure otherwise. */
  lemma ReportsAreExact(op: Snapshot, o: Outcome)
    ensures var a := ReportAttempt(op, o);
            && a.from == op && a.message == Some(op.input) && a.cause.Reported?
            && (Bounded(o) ==> a.outcome == Some(o))
            && (!Bounded(o) ==> a.outcome.Some? && a.outcome.value.DidFail? && Bounded(a.outcome.value))
            && (forall s :: Next(s, a.action).Some? ==> OutcomeFits(Next(s, a.action).value, a.outcome))
  {
    forall s ensures Next(s, ReportAttempt(op, o).action).Some? ==>
        OutcomeFits(Next(s, ReportAttempt(op, o).action).value, ReportAttempt(op, o).outcome)
    {
      OutcomeNamesItsState(s, ReportAttempt(op, o).outcome.value);
    }
  }

  // ---------------------------------------------------------------------------------------------
  // Reading a trace
  // ---------------------------------------------------------------------------------------------

  function Reports(t: seq<Effect>): nat {
    if t == [] then 0 else Reports(t[..|t| - 1]) + if GotReport(t[|t| - 1]) then 1 else 0
  }

  function Reminders(t: seq<Effect>): nat {
    if t == [] then 0 else Reminders(t[..|t| - 1]) + if t[|t| - 1].Reminded? then 1 else 0
  }

  predicate NoAttempt(t: seq<Effect>) {
    forall i :: 0 <= i < |t| ==> !t[i].Attempted?
  }

  function FromEnd(t: seq<Effect>, k: nat): Effect
    requires 1 <= k <= |t|
  {
    t[|t| - k]
  }

  predicate GotReport(e: Effect) {
    e.Polled? && e.poll.Got?
  }

  predicate GotQuestion(op: Snapshot, e: Effect) {
    GotReport(e) && e.poll.report.Question? && Correlated(op, e.poll.report.id, e.poll.report.message)
  }

  predicate GotProgress(op: Snapshot, e: Effect) {
    && GotReport(e) && e.poll.report.Progress? && Correlated(op, e.poll.report.id, e.poll.report.message)
    && |e.poll.report.payload| <= MAX_PROGRESS_BYTES
  }

  predicate GotTerminal(op: Snapshot, e: Effect) {
    GotReport(e) && e.poll.report.Terminal? && Correlated(op, e.poll.report.id, e.poll.report.message)
  }

  /** A report that says something about the operation. */
  predicate Speaks(e: Effect) {
    GotReport(e) && (e.poll.report.Question? || e.poll.report.Progress? || e.poll.report.Terminal?)
  }

  /** The last two effects are a terminal report of `op` and the reload that follows it. */
  predicate TerminalReload(op: Snapshot, past: seq<Effect>) {
    |past| >= 2 && FromEnd(past, 1).Loaded? && GotTerminal(op, FromEnd(past, 2))
  }

  predicate QuestionReload(op: Snapshot, past: seq<Effect>) {
    |past| >= 2 && FromEnd(past, 1).Loaded? && GotQuestion(op, FromEnd(past, 2))
  }

  /** The question was committed together with the operation's waiting state. */
  predicate QuestionStands(s: Snapshot) {
    s.state.Waiting? && s.waitingOn.Some?
  }

  /** The transition that commits the terminal report the trace ends with. */
  function CommitOf(past: seq<Effect>): Attempt
    requires |past| >= 2 && FromEnd(past, 1).Loaded? && GotReport(FromEnd(past, 2))
    requires FromEnd(past, 2).poll.report.Terminal?
  {
    ReportAttempt(FromEnd(past, 1).snapshot, FromEnd(past, 2).poll.report.outcome)
  }

  // ---------------------------------------------------------------------------------------------
  // Rules of the report loop: what may follow a trace
  // ---------------------------------------------------------------------------------------------

  const REMINDER := IsUncertain("Driver reminder delivery failed")
  const DEADLINE := DidFail("result_deadline", "Executor produced no explicit terminal report")
  const SETTLED := DidFail("result_deadline", "Executor settled without an explicit terminal report")
  const CAPACITY := DidFail("report_capacity", "Driver report budget was exhausted")
  const INVALID_QUESTION := DidFail("invalid_question", "Question was not committed atomically")
  const PROGRESS_BOUND := DidFail("invalid_report", "Progress exceeds bound")
  const QUESTION_CORRELATION :=
    DidFail("invalid_correlation", "Driver question does not identify the delivered Operation and Message")
  const REPORT_CORRELATION :=
    DidFail("invalid_correlation", "Driver report does not identify the delivered Operation and Message")
  const TERMINAL_CORRELATION :=
    DidFail("invalid_correlation", "Driver terminal report does not identify the delivered Operation and Message")

  /** The judgement that a report alone calls for, within the report budget. */
  function ReportDue(op: Snapshot, r: Report, reminded: bool): Option<Outcome> {
    match r
    case Question(id, m) => if Correlated(op, id, m) then None else Some(QUESTION_CORRELATION)
    case Progress(id, m, payload) =>
      if !Correlated(op, id, m) then Some(REPORT_CORRELATION)
      else if |payload| > MAX_PROGRESS_BYTES then Some(PROGRESS_BOUND)
      else None
    case Idle => if reminded && !op.state.Cancelling? then Some(SETTLED) else None
    case Disconnected => None
    case Terminal(id, m, _) => if Correlated(op, id, m) then None else Some(TERMINAL_CORRELATION)
  }

  /**
    The judgement of its own that the worker owes after a trace, if any. While the operation is
    cancelling, silence calls for none.
  */
  function Due(op: Snapshot, past: seq<Effect>): Option<Outcome> {
    if past == [] then None
    else
      match FromEnd(past, 1)
      case Polled(TimedOut) => if Reminders(past) > 0 && !op.state.Cancelling? then Some(DEADLINE) else None
      case Polled(PollFailed(message)) => if op.state.Cancelling? then None else Some(IsUncertain(message))
      case Polled(Got(r)) =>
        if Reports(past) > MAX_REPORTS then Some(CAPACITY) else ReportDue(op, r, Reminders(past) > 0)
      case Reminded(ok) => if ok || op.state.Cancelling? then None else Some(REMINDER)
      case Loaded(s) => if QuestionReload(op, past) && !QuestionStands(s) then Some(INVALID_QUESTION) else None
      case _ => None
  }

  predicate MayPoll(op: Snapshot, past: seq<Effect>) {
    || past == []
    || FromEnd(past, 1) == Reminded(true)
    || (FromEnd(past, 1) == Polled(Got(Disconnected)) && Reports(past) <= MAX_REPORTS)
    || (|past| >= 2 && FromEnd(past, 1).Acknowledged? && FromEnd(past, 1).ok && GotProgress(op, FromEnd(past, 2)))
  }

  predicate MayRemind(past: seq<Effect>) {
    && past != [] && Reminders(past) == 0
    && (|| FromEnd(past, 1) == Polled(TimedOut)
        || (FromEnd(past, 1) == Polled(Got(Idle)) && Reports(past) <= MAX_REPORTS))
  }

  predicate MayLoad(op: Snapshot, past: seq<Effect>) {
    && past != [] && Reports(past) <= MAX_REPORTS
    && (GotQuestion(op, FromEnd(past, 1)) || GotTerminal(op, FromEnd(past, 1)))
  }

  predicate MayAttempt(op: Snapshot, past: seq<Effect>, a: Attempt) {
    match a.cause
    case Advancing => false
    case Reported => TerminalReload(op, past) && a == CommitOf(past)
    case Judged =>
      && Due(op, past).Some? && Bounded(Due(op, past).value)
      && a == JudgedAttempt(op, Due(op, past).value)
  }

  predicate MayAcknowledge(op: Snapshot, past: seq<Effect>, message: MessageId) {
    || (&& past != [] && GotProgress(op, FromEnd(past, 1)) && Reports(past) <= MAX_REPORTS
        && FromEnd(past, 1).poll.report.message == message)
    || (&& QuestionReload(op, past) && QuestionStands(FromEnd(past, 1).snapshot)
        && FromEnd(past, 2).poll.report.message == message)
    || (&& |past| >= 3 && TerminalReload(op, past[..|past| - 1])
        && FromEnd(past, 1) == Attempted(CommitOf(past[..|past| - 1]), true)
        && FromEnd(past, 3).poll.report.message == message)
  }

  /** `e` may come right after `past` in the report loop on `op`. */
  predicate Explained(op: Snapshot, past: seq<Effect>, e: Effect) {
    match e
    case Polled(_) => MayPoll(op, past)
    case Reminded(_) => MayRemind(past)
    case Acknowledged(message, _) => MayAcknowledge(op, past, message)
    case Loaded(_) => MayLoad(op, past)
    case LoadFailed => MayLoad(op, past)
    case Attempted(a, _) => MayAttempt(op, past, a)
    case Denied(a) => MayAttempt(op, past, a)
    case _ => false
  }

  ghost predicate AllExplained(op: Snapshot, t: seq<Effect>) {
    forall i :: 0 <= i < |t| ==> Explained(op, t[..i], t[i])
  }

  /** A trace of the report loop so far: explained, with at most one reminder and at most 1025 reports. */
  ghost predicate LoopTrace(op: Snapshot, t: seq<Effect>) {
    AllExplained(op, t) && Reminders(t) <= 1 && Reports(t) <= MAX_REPORTS + 1
  }

  /** Nothing may follow: the loop stops neither before nor after this. */
  ghost predicate Ended(op: Snapshot, t: seq<Effect>) {
    forall e :: !Explained(op, t, e)
  }

  lemma Extend(op: Snapshot, t: seq<Effect>, e: Effect)
    requires AllExplained(op, t) && Explained(op, t, e)
    ensures AllExplained(op, t + [e])
    ensures Reports(t + [e]) == Reports(t) + if GotReport(e) then 1 else 0
    ensures Reminders(t + [e]) == Reminders(t) + if e.Reminded? then 1 else 0
    ensures FromEnd(t + [e], 1) == e
  {
    var u := t + [e];
    assert u[..|t|] == t;
    forall i | 0 <= i < |u| ensures Explained(op, u[..i], u[i]) {
      if i < |t| {
        assert u[..i] == t[..i];
      }
    }
  }

  /** What the loop answers: a snapshot exactly when its last request was carried out. */
  predicate Carried(t: seq<Effect>) {
    && t != []
    && match FromEnd(t, 1)
       case Attempted(a, committed) => committed && a.cause.Judged?
       case Acknowledged(_, ok) => ok && |t| >= 2 && (FromEnd(t, 2).Attempted? || FromEnd(t, 2).Loaded?)
       case _ => false
  }

  predicate Answers(t: seq<Effect>, r: Option<Snapshot>) {
    && (r.Some? <==> Carried(t))
    && (r.Some? ==>
          var last := if FromEnd(t, 1).Attempted? then FromEnd(t, 1) else FromEnd(t, 2);
          && (last.Attempted? ==> OutcomeFits(r.value.state, last.attempt.outcome))
          && (last.Loaded? ==> r.value == last.snapshot))
  }

  // ---------------------------------------------------------------------------------------------
  // What the rules imply
  // ---------------------------------------------------------------------------------------------

  /**
    Success is asked for only on a correlated terminal success report within its bound, and with
    exactly the reported result: never on silence, progress, a disconnect or an idle Driver.
  */
  lemma SuccessIsReported(op: Snapshot, t: seq<Effect>, i: nat)
    requires LoopTrace(op, t) && i < |t| && t[i].Attempted? && t[i].attempt.action.ReportSuccess?
    ensures i >= 2 && GotTerminal(op, t[i - 2])
    ensures var o := t[i - 2].poll.report.outcome; o.DidSucceed? && Bounded(o) && t[i].attempt.outcome == Some(o)
  {
    assert Explained(op, t[..i], t[i]);
    JudgementsFailOrDoubt(op, t[..i]);
    assert t[i].attempt.cause.Reported?;
    assert FromEnd(t[..i], 1) == t[i - 1];
    assert FromEnd(t[..i], 2) == t[i - 2];
  }

  lemma JudgementsFailOrDoubt(op: Snapshot, past: seq<Effect>)
    ensures Due(op, past).Some? ==> Due(op, past).value.DidFail? || Due(op, past).value.IsUncertain?
  {
  }

  /**
    A Driver that cannot be reached leaves the operation uncertain; it is called a failure only when
    the Driver was reached and stayed silent, spoke out of turn, or broke a bound.
  */
  lemma UnreachableMeansUncertain(op: Snapshot, past: seq<Effect>)
    requires Due(op, past).Some?
    ensures Due(op, past).value.IsUncertain? <==>
            || FromEnd(past, 1).Reminded?
            || (FromEnd(past, 1).Polled? && FromEnd(past, 1).poll.PollFailed?)
    ensures Due(op, past).value.DidFail? <==> !Due(op, past).value.IsUncertain?
  {
  }

  /** Nothing is asked of the Store twice: after a request at most its acknowledgement follows. */
  lemma WritesAtMostOnce(op: Snapshot, t: seq<Effect>, i: nat)
    requires LoopTrace(op, t) && i < |t| && t[i].Attempted?
    ensures i + 1 < |t| ==> t[i + 1].Acknowledged? && t[i].committed && t[i].attempt.cause.Reported?
    ensures |t| <= i + 2
  {
    if i + 1 < |t| {
      assert Explained(op, t[..i + 1], t[i + 1]) && FromEnd(t[..i + 1], 1) == t[i];
      NothingAfterAck(op, t, i + 2);
    }
  }

  lemma AckOfCommitEnds(op: Snapshot, past: seq<Effect>)
    requires |past| >= 2 && FromEnd(past, 1).Acknowledged? && FromEnd(past, 2).Attempted?
    ensures Ended(op, past)
  {
  }

  lemma NothingAfterAck(op: Snapshot, t: seq<Effect>, n: nat)
    requires AllExplained(op, t) && 2 <= n <= |t| && t[n - 1].Acknowledged? && t[n - 2].Attempted?
    ensures n == |t|
  {
    assert FromEnd(t[..n], 1) == t[n - 1] && FromEnd(t[..n], 2) == t[n - 2];
    assert n < |t| ==> Explained(op, t[..n], t[n]);
    AckOfCommitEnds(op, t[..n]);
  }

  /** The report most recently polled. */
  function LastReport(t: seq<Effect>): Option<Report> {
    if t == [] then None
    else if GotReport(t[|t| - 1]) then Some(t[|t| - 1].poll.report)
    else LastReport(t[..|t| - 1])
  }

  lemma LastReportAt(t: seq<Effect>, k: nat)
    requires 1 <= k <= |t| && k <= 3 && GotReport(FromEnd(t, k))
    requires forall i :: 1 <= i < k ==> !GotReport(FromEnd(t, i))
    ensures LastReport(t) == Some(FromEnd(t, k).poll.report)
  {
    if k > 1 {
      assert !GotReport(FromEnd(t, 1));
      var init := t[..|t| - 1];
      assert FromEnd(init, k - 1) == FromEnd(t, k);
      assert forall i :: 1 <= i < k - 1 ==> FromEnd(init, i) == FromEnd(t, i + 1);
      LastReportAt(init, k - 1);
    }
  }

  lemma QuestionIsLast(op: Snapshot, past: seq<Effect>)
    ensures QuestionReload(op, past) ==> LastReport(past).Some? && LastReport(past).value.Question?
  {
    if QuestionReload(op, past) {
      LastReportAt(past, 2);
    }
  }

  /** A terminal report is acknowledged only right after the transition it asks for was committed. */
  lemma TerminalAckFollowsCommit(op: Snapshot, t: seq<Effect>, i: nat)
    requires LoopTrace(op, t) && i < |t| && t[i].Acknowledged?
    requires LastReport(t[..i]).Some? && LastReport(t[..i]).value.Terminal?
    ensures i >= 3 && t[i - 1].Attempted? && t[i - 1].committed && t[i - 1].attempt.cause.Reported?
    ensures LastReport(t[..i]).value.message == t[i].message
  {
    var past := t[..i];
    assert Explained(op, past, t[i]);
    QuestionIsLast(op, past);
    assert MayAcknowledge(op, past, t[i].message);
    if !GotReport(FromEnd(past, 1)) {
      CommitIsBehind(op, past);
      assert t[i - 1] == FromEnd(past, 1);
    }
  }

  lemma CommitIsBehind(op: Snapshot, past: seq<Effect>)
    requires |past| >= 3 && TerminalReload(op, past[..|past| - 1]) && FromEnd(past, 1).Attempted?
    ensures LastReport(past) == Some(FromEnd(past, 3).poll.report)
  {
    assert FromEnd(past[..|past| - 1], 1) == FromEnd(past, 2);
    assert FromEnd(past[..|past| - 1], 2) == FromEnd(past, 3);
    LastReportAt(past, 3);
  }

  /** The trace ends with a report that speaks or its reload, or has used up the report budget. */
  predicate Prompted(op: Snapshot, past: seq<Effect>) {
    && past != []
    && (Speaks(FromEnd(past, 1)) || QuestionReload(op, past) || TerminalReload(op, past) || Reports(past) > MAX_REPORTS)
  }

  /** While cancelling, only a report that speaks or an exhausted budget calls for a transition. */
  lemma CancellingIsPrompted(op: Snapshot, past: seq<Effect>, a: Attempt)
    requires op.state.Cancelling?
    ensures MayAttempt(op, past, a) ==> Prompted(op, past)
  {
  }

  predicate AnyoneSpeaks(t: seq<Effect>) {
    exists i :: 0 <= i < |t| && Speaks(t[i])
  }

  lemma PromptNeedsAWord(op: Snapshot, past: seq<Effect>)
    ensures Prompted(op, past) ==> Reports(past) > MAX_REPORTS || AnyoneSpeaks(past)
  {
    if Prompted(op, past) && Reports(past) <= MAX_REPORTS {
      if Speaks(FromEnd(past, 1)) {
        assert Speaks(past[|past| - 1]);
      } else {
        assert Speaks(past[|past| - 2]);
      }
    }
  }

  /** While cancelling, timeouts, failures, idling and disconnects within the budget write nothing. */
  lemma SilenceWritesNothing(op: Snapshot, t: seq<Effect>)
    requires LoopTrace(op, t) && op.state.Cancelling? && Reports(t) <= MAX_REPORTS && !AnyoneSpeaks(t)
    ensures NoAttempt(t)
  {
    forall i | 0 <= i < |t| ensures !t[i].Attempted? {
      var past := t[..i];
      assert Explained(op, past, t[i]);
      ReportsGrow(t, i);
      SilentBefore(t, i);
      SilenceCallsForNothing(op, past, t[i]);
    }
  }

  lemma SilentBefore(t: seq<Effect>, n: nat)
    requires n <= |t| && !AnyoneSpeaks(t)
    ensures !AnyoneSpeaks(t[..n])
  {
    assert forall j :: 0 <= j < n ==> t[..n][j] == t[j];
  }

  lemma SilenceCallsForNothing(op: Snapshot, past: seq<Effect>, e: Effect)
    requires op.state.Cancelling? && Reports(past) <= MAX_REPORTS && !AnyoneSpeaks(past) && Explained(op, past, e)
    ensures !e.Attempted?
  {
    PromptNeedsAWord(op, past);
    assert !Prompted(op, past);
    if e.Attempted? {
      CancellingIsPrompted(op, past, e.attempt);
    }
  }

  lemma {:induction false} ReportsGrow(t: seq<Effect>, n: nat)
    requires n <= |t|
    ensures Reports(t[..n]) <= Reports(t)
    decreases |t|
  {
    if n == |t| {
      assert t[..n] == t;
    } else {
      ReportsGrow(t[..|t| - 1], n);
      assert t[..|t| - 1][..n] == t[..n];
    }
  }

  /**
    A transition the worker makes of its own accord is legal exactly when its snapshot is not
    terminal (and, for uncertainty, not queued), and it carries a message exactly while a delivered
    input is in flight.
  */
  lemma JudgementIsLegal(op: Snapshot, o: Outcome)
    requires o.DidFail? || (o.IsUncertain? && !op.state.Queued?)
    ensures Next(op.state, JudgedAttempt(op, o).action).Some? <==> !IsTerminal(op.state)
    ensures JudgedAttempt(op, o).message.Some? <==> InFlight(op.state)
    ensures JudgedAttempt(op, o).from == op && JudgedAttempt(op, o).outcome == Some(o)
  {
    TableIsExact(op.state, JudgedAttempt(op, o).action);
  }
}
