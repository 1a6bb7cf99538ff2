/**
  `Worker::execute` and `Worker::observe`, against a Store and a Driver that may answer anything.

  Other clients of the Store act on the operation before every Store access, by legal actions only;
  the Store commits a transition when its revision, its report message, its action and its outcome
  are all in order.
*/
module Worker {
  import opened Wrappers
  import opened Operations
  import opened Observation
  import opened Execution

  /** The Store's rule for the message a report names. */
  predicate MessageFits(record: Snapshot, inputAccepted: bool, a: Attempt) {
    if a.action.BeginStart? then a.message.None?
    else if a.message.None? then
      (a.action.ReportFailure? || a.action.ReportUncertain?) && (record.state.Queued? || record.state.Starting?)
    else a.message == Some(record.input) && inputAccepted
  }

  predicate Accepts(record: Snapshot, inputAccepted: bool, a: Attempt) {
    && record.id == a.from.id && record.revision == a.from.revision
    && MessageFits(record, inputAccepted, a)
    && Next(record.state, a.action).Some?
    && OutcomeFits(Next(record.state, a.action).value, a.outcome)
  }

  /** `after` is `before`, then actions of other clients, then `action`, which led to `state`. */
  ghost predicate LegalStep(before: seq<Action>, after: seq<Action>, action: Action, state: State) {
    && |before| < |after| && before <= after
    && after[|after| - 1] == action
    && Next(Replay(after[..|after| - 1]), action) == Some(state)
  }

  class World {
    var record: Snapshot
    var inputAccepted: bool
    /** Every action committed on the operation, and every effect of the worker under study. */
    ghost var history: seq<Action>
    ghost var trace: seq<Effect>

    ghost predicate Valid()
      reads this
    {
      record.state == Replay(history)
    }

    constructor (id: OperationId, input: MessageId)
      ensures Valid() && trace == [] && record == Snapshot(id, input, Queued, 1, None)
    {
      record, inputAccepted := Snapshot(id, input, Queued, 1, None), false;
      history, trace := [], [];
    }

    method Commit(action: Action, waitingOn: Option<MessageId>)
      requires Valid() && Next(record.state, action).Some?
      modifies `record, `history
      ensures Valid() && history == old(history) + [action]
      ensures Next(old(record.state), action) == Some(record.state)
      ensures record ==
        old(record).(state := record.state, revision := old(record).revision + 1, waitingOn := waitingOn)
    {
      ReplayOne(history, action);
      history := history + [action];
      var next := Next(record.state, action).value;
      record := record.(state := next, revision := record.revision + 1, waitingOn := waitingOn);
    }

    /** Other clients of the Store. */
    method Interfere()
      requires Valid()
      modifies `record, `history, `inputAccepted
      ensures Valid() && old(history) <= history && Settled(old(record.state), record.state)
      ensures record.id == old(record.id) && record.input == old(record.input)
    {
      var others: seq<(Action, Option<MessageId>)> := *;
      inputAccepted := *;
      var i := 0;
      while i < |others|
        invariant Valid() && old(history) <= history
        invariant record.id == old(record.id) && record.input == old(record.input)
      {
        if Next(record.state, others[i].0).Some? {
          Commit(others[i].0, others[i].1);
        }
        i := i + 1;
      }
      HistoryIsOneWay(history, |old(history)|);
      assert history[..|old(history)|] == old(history);
    }

    method Load() returns (loaded: Option<Snapshot>)
      requires Valid()
      modifies this
      ensures Valid() && Settled(old(record.state), record.state)
      ensures trace == old(trace) + [if loaded.Some? then Loaded(loaded.value) else LoadFailed]
      ensures loaded.Some? ==> loaded.value == record
    {
      Interfere();
      var failed: bool := *;
      if failed {
        trace := trace + [LoadFailed];
        return None;
      }
      trace := trace + [Loaded(record)];
      loaded := Some(record);
    }

    /** A permit check, then the Store: no attempt reaches the Store without the permit. */
    method Transition(a: Attempt) returns (admitted: bool, r: Option<Snapshot>)
      requires Valid()
      modifies this
      ensures Valid() && Settled(old(record.state), record.state)
      ensures !admitted ==> r.None? && record == old(record) && history == old(history)
      ensures r.Some? ==> LegalStep(old(history), history, a.action, record.state)
      ensures r.Some? ==> record.revision == a.from.revision + 1
      ensures trace == old(trace) + [if admitted then Attempted(a, r.Some?) else Denied(a)]
      ensures r.Some? ==> r.value == record && OutcomeFits(record.state, a.outcome)
      ensures r.Some? ==> LeadsTo(a.action, record.state) && record.id == a.from.id && record.waitingOn.None?
      ensures r.Some? && a.message.Some? ==> a.message == Some(record.input)
    {
      admitted := *;
      if !admitted {
        trace := trace + [Denied(a)];
        return false, None;
      }
      Interfere();
      var available: bool := *;
      if !available || !Accepts(record, inputAccepted, a) {
        trace := trace + [Attempted(a, false)];
        return true, None;
      }
      ghost var before := history;
      TableIsExact(record.state, a.action);
      Commit(a.action, None);
      HistoryIsOneWay(history, |old(history)|);
      assert history[..|before|] == before;
      assert history[..|old(history)|] == old(history);
      trace := trace + [Attempted(a, true)];
      r := Some(record);
    }

    method NextReport() returns (poll: Poll)
      modifies `trace
      ensures trace == old(trace) + [Polled(poll)]
    {
      poll := *;
      trace := trace + [Polled(poll)];
    }

    method Remind() returns (ok: bool)
      modifies `trace
      ensures trace == old(trace) + [Reminded(ok)]
    {
      ok := *;
      trace := trace + [Reminded(ok)];
    }

    method Acknowledge(message: MessageId) returns (ok: bool)
      modifies `trace
      ensures trace == old(trace) + [Acknowledged(message, ok)]
    {
      ok := *;
      trace := trace + [Acknowledged(message, ok)];
    }

    method Deliver() returns (acceptance: Acceptance)
      modifies `trace
      ensures trace == old(trace) + [Delivered(acceptance)]
    {
      acceptance := *;
      trace := trace + [Delivered(acceptance)];
    }

    /** Something the execution asks for and may be refused. */
    method Obtain(gate: Gate) returns (granted: bool)
      modifies `trace
      ensures trace == old(trace) + [Asked(gate, granted)]
    {
      granted := *;
      trace := trace + [Asked(gate, granted)];
    }
  }

  /** `fail` and `uncertain`: an outcome out of bounds is an error that reaches nobody. */
  method Judge(w: World, op: Snapshot, o: Outcome) returns (r: Option<Snapshot>, ghost t: seq<Effect>)
    requires w.Valid()
    modifies w
    ensures w.Valid() && w.trace == old(w.trace) + t
    ensures !Bounded(o) ==> t == [] && r.None?
    ensures Bounded(o) ==> t == [Denied(JudgedAttempt(op, o))] || t == [Attempted(JudgedAttempt(op, o), r.Some?)]
    ensures r.Some? ==> t == [Attempted(JudgedAttempt(op, o), true)] && OutcomeFits(r.value.state, Some(o))
  {
    t := [];
    if !Bounded(o) {
      return None, t;
    }
    var admitted: bool;
    admitted, r := w.Transition(JudgedAttempt(op, o));
    t := [if admitted then Attempted(JudgedAttempt(op, o), r.Some?) else Denied(JudgedAttempt(op, o))];
  }

  // ---------------------------------------------------------------------------------------------
  // Where the report loop ends
  // ---------------------------------------------------------------------------------------------

  /** The report loop ended with the trace `t` and the answer `r`. */
  ghost predicate Concluded(op: Snapshot, t: seq<Effect>, r: Option<Snapshot>) {
    LoopTrace(op, t) && t != [] && Ended(op, t) && Answers(t, r)
  }

  lemma RequestEnds(op: Snapshot, t: seq<Effect>)
    requires t != []
    requires match FromEnd(t, 1)
             case Denied(_) => true
             case LoadFailed => true
             case Attempted(a, committed) => a.cause.Judged? || !committed
             case _ => false
    ensures Ended(op, t)
  {
  }

  lemma AckEnds(op: Snapshot, t: seq<Effect>)
    requires |t| >= 2 && FromEnd(t, 1).Acknowledged?
    requires FromEnd(t, 2).Attempted? || FromEnd(t, 2).Loaded? || !FromEnd(t, 1).ok
    ensures Ended(op, t)
  {
  }

  /** Silence ends the loop when no judgement is due, or none that can be made. */
  lemma SilenceEnds(op: Snapshot, t: seq<Effect>)
    requires t != [] && (Due(op, t).Some? ==> !Bounded(Due(op, t).value)) && !MayRemind(t)
    requires match FromEnd(t, 1)
             case Polled(poll) => !poll.Got? || poll.report.Idle?
             case Reminded(ok) => !ok
             case _ => false
    ensures Ended(op, t)
  {
  }

  /** The judgement that is due after the trace `t`, and the end of the loop. */
  method EndWith(w: World, op: Snapshot, o: Outcome, ghost base: seq<Effect>, ghost t: seq<Effect>)
    returns (r: Option<Snapshot>, ghost u: seq<Effect>)
    requires w.Valid() && w.trace == base + t && LoopTrace(op, t) && t != []
    requires Due(op, t) == Some(o) && Bounded(o)
    modifies w
    ensures w.Valid() && w.trace == base + u && Concluded(op, u, r)
  {
    ghost var more;
    r, more := Judge(w, op, o);
    Extend(op, t, more[0]);
    u := t + [more[0]];
    assert w.trace == base + u;
    RequestEnds(op, u);
  }

  lemma LoadTrace(op: Snapshot, t: seq<Effect>, e: Effect) returns (u: seq<Effect>)
    requires LoopTrace(op, t) && MayLoad(op, t) && (e.Loaded? || e.LoadFailed?)
    ensures u == t + [e] && LoopTrace(op, u) && FromEnd(u, 1) == e && |u| >= 2 && FromEnd(u, 2) == FromEnd(t, 1)
  {
    Extend(op, t, e);
    u := t + [e];
  }

  lemma FinalAck(op: Snapshot, t: seq<Effect>, message: MessageId, ok: bool) returns (u: seq<Effect>)
    requires LoopTrace(op, t) && t != [] && (FromEnd(t, 1).Attempted? || FromEnd(t, 1).Loaded?)
    requires MayAcknowledge(op, t, message)
    ensures u == t + [Acknowledged(message, ok)] && LoopTrace(op, u) && Ended(op, u)
    ensures FromEnd(u, 1) == Acknowledged(message, ok) && FromEnd(u, 2) == FromEnd(t, 1)
  {
    Extend(op, t, Acknowledged(message, ok));
    u := t + [Acknowledged(message, ok)];
    assert FromEnd(u, 2) == FromEnd(t, 1);
    AckEnds(op, u);
  }

  /** A report that needs the operation as the Store holds it; the loop ends if it cannot be read. */
  method Reload(w: World, op: Snapshot, ghost base: seq<Effect>, ghost t: seq<Effect>)
    returns (loaded: Option<Snapshot>, ghost u: seq<Effect>)
    requires w.Valid() && w.trace == base + t && LoopTrace(op, t) && MayLoad(op, t)
    modifies w
    ensures w.Valid() && w.trace == base + u
    ensures loaded.None? ==> Concluded(op, u, None)
    ensures loaded.Some? ==> LoopTrace(op, u) && |u| >= 2
    ensures loaded.Some? ==> FromEnd(u, 1) == Loaded(loaded.value) && FromEnd(u, 2) == FromEnd(t, 1)
  {
    loaded := w.Load();
    u := LoadTrace(op, t, if loaded.Some? then Loaded(loaded.value) else LoadFailed);
    assert w.trace == base + u;
    if loaded.None? {
      RequestEnds(op, u);
    }
  }

  /** A question: it must already be committed as the operation's waiting state. */
  method AnswerQuestion(w: World, op: Snapshot, message: MessageId, ghost base: seq<Effect>, ghost t: seq<Effect>)
    returns (r: Option<Snapshot>, ghost u: seq<Effect>)
    requires w.Valid() && w.trace == base + t && LoopTrace(op, t) && MayLoad(op, t)
    requires GotQuestion(op, FromEnd(t, 1)) && FromEnd(t, 1).poll.report.message == message
    modifies w
    ensures w.Valid() && w.trace == base + u && Concluded(op, u, r)
  {
    var waiting;
    waiting, u := Reload(w, op, base, t);
    if waiting.None? {
      r := None;
    } else if !QuestionStands(waiting.value) {
      r, u := EndWith(w, op, INVALID_QUESTION, base, u);
    } else {
      r, u := AcknowledgeLast(w, op, message, waiting.value, base, u);
    }
  }

  /** The acknowledgement that ends the loop; `answer` is what the loop then answers. */
  method AcknowledgeLast(w: World, op: Snapshot, message: MessageId, answer: Snapshot,
                         ghost base: seq<Effect>, ghost t: seq<Effect>)
    returns (r: Option<Snapshot>, ghost u: seq<Effect>)
    requires w.Valid() && w.trace == base + t && LoopTrace(op, t) && t != [] && MayAcknowledge(op, t, message)
    requires match FromEnd(t, 1)
             case Loaded(s) => s == answer
             case Attempted(a, committed) => OutcomeFits(answer.state, a.outcome)
             case _ => false
    modifies w
    ensures w.Valid() && w.trace == base + u && Concluded(op, u, r)
  {
    var ok := w.Acknowledge(message);
    u := FinalAck(op, t, message, ok);
    assert w.trace == base + u;
    r := if ok then Some(answer) else None;
  }

  /** A terminal report: reload, commit, and only then acknowledge. */
  method FinishWith(w: World, op: Snapshot, report: Report, ghost base: seq<Effect>, ghost t: seq<Effect>)
    returns (r: Option<Snapshot>, ghost u: seq<Effect>)
    requires w.Valid() && w.trace == base + t && LoopTrace(op, t) && MayLoad(op, t)
    requires FromEnd(t, 1) == Polled(Got(report)) && GotTerminal(op, FromEnd(t, 1))
    modifies w
    ensures w.Valid() && w.trace == base + u && Concluded(op, u, r)
  {
    var loaded;
    loaded, u := Reload(w, op, base, t);
    if loaded.None? {
      r := None;
    } else {
      r, u := CommitReport(w, op, report, loaded.value, base, u);
    }
  }

  method CommitReport(w: World, op: Snapshot, report: Report, loaded: Snapshot,
                      ghost base: seq<Effect>, ghost t: seq<Effect>)
    returns (r: Option<Snapshot>, ghost u: seq<Effect>)
    requires w.Valid() && w.trace == base + t && LoopTrace(op, t) && TerminalReload(op, t)
    requires FromEnd(t, 1) == Loaded(loaded) && FromEnd(t, 2) == Polled(Got(report))
    modifies w
    ensures w.Valid() && w.trace == base + u && Concluded(op, u, r)
  {
    var attempt := ReportAttempt(loaded, report.outcome);
    var admitted, terminal := w.Transition(attempt);
    u := CommitTrace(op, t, if admitted then Attempted(attempt, terminal.Some?) else Denied(attempt));
    assert w.trace == base + u;
    if terminal.None? {
      RequestEnds(op, u);
      return None, u;
    }
    CommitIsAcknowledged(op, t, u, report.message);
    r, u := AcknowledgeLast(w, op, report.message, terminal.value, base, u);
  }

  lemma CommitTrace(op: Snapshot, past: seq<Effect>, e: Effect) returns (u: seq<Effect>)
    requires LoopTrace(op, past) && TerminalReload(op, past)
    requires (e.Attempted? || e.Denied?) && e.attempt == CommitOf(past)
    ensures u == past + [e] && LoopTrace(op, u) && FromEnd(u, 1) == e
  {
    Extend(op, past, e);
    u := past + [e];
  }

  lemma CommitIsAcknowledged(op: Snapshot, past: seq<Effect>, t: seq<Effect>, message: MessageId)
    requires TerminalReload(op, past) && t == past + [Attempted(CommitOf(past), true)]
    requires FromEnd(past, 2).poll.report.message == message
    ensures MayAcknowledge(op, t, message)
  {
    assert t[..|t| - 1] == past && FromEnd(t, 3) == FromEnd(past, 2);
  }

  /** The reminder on a timeout or an idle Driver; false when the loop ends here. */
  method RemindOnce(w: World, op: Snapshot, ghost base: seq<Effect>, ghost t: seq<Effect>)
    returns (more: bool, r: Option<Snapshot>, ghost u: seq<Effect>)
    requires w.Valid() && w.trace == base + t && LoopTrace(op, t) && MayRemind(t)
    modifies w
    ensures w.Valid() && w.trace == base + u
    ensures !more ==> Concluded(op, u, r)
    ensures more ==> LoopTrace(op, u) && MayPoll(op, u) && Reminders(u) == 1 && Reports(u) == Reports(t)
  {
    var ok := w.Remind();
    Extend(op, t, Reminded(ok));
    u := t + [Reminded(ok)];
    assert w.trace == base + u;
    if ok {
      return true, None, u;
    }
    if op.state.Cancelling? {
      SilenceEnds(op, u);
      return false, None, u;
    }
    r, u := EndWith(w, op, REMINDER, base, u);
    more := false;
  }

  /** A poll that brings no report; false when the loop ends here. */
  method OnSilence(w: World, op: Snapshot, poll: Poll, reminded: bool, ghost base: seq<Effect>, ghost t: seq<Effect>)
    returns (more: bool, r: Option<Snapshot>, ghost u: seq<Effect>)
    requires w.Valid() && w.trace == base + t && LoopTrace(op, t) && t != [] && FromEnd(t, 1) == Polled(poll)
    requires !poll.Got? && Reminders(t) == (if reminded then 1 else 0)
    modifies w
    ensures w.Valid() && w.trace == base + u
    ensures !more ==> Concluded(op, u, r)
    ensures more ==> poll.TimedOut? && !reminded
    ensures more ==> LoopTrace(op, u) && MayPoll(op, u) && Reminders(u) == 1 && Reports(u) == Reports(t)
  {
    more, r, u := false, None, t;
    match poll {
      case PollFailed(message) =>
        if op.state.Cancelling? || !Bounded(IsUncertain(message)) {
          SilenceEnds(op, u);
        } else {
          r, u := EndWith(w, op, IsUncertain(message), base, u);
        }
      case TimedOut =>
        if !reminded {
          more, r, u := RemindOnce(w, op, base, u);
        } else if op.state.Cancelling? {
          SilenceEnds(op, u);
        } else {
          r, u := EndWith(w, op, DEADLINE, base, u);
        }
    }
  }

  /**
    The report loop. It ends after at most one reminder and 1025 reports, whatever the Driver and
    the Store answer; every effect follows the rules of `Observation`, it ends only where nothing
    may follow, and it answers with a snapshot exactly when its last request was carried out.
  */
  method Observe(w: World, op: Snapshot) returns (r: Option<Snapshot>, ghost t: seq<Effect>)
    requires w.Valid()
    modifies w
    ensures w.Valid() && w.trace == old(w.trace) + t && Concluded(op, t, r)
  {
    var reminded, seen := false, 0;
    ghost var base := w.trace;
    r, t := None, [];
    while true
      invariant w.Valid() && w.trace == base + t && LoopTrace(op, t) && MayPoll(op, t)
      invariant Reminders(t) == (if reminded then 1 else 0)
      invariant Reports(t) == seen <= MAX_REPORTS
      decreases MAX_REPORTS - seen, !reminded
    {
      var poll := w.NextReport();
      Extend(op, t, Polled(poll));
      t := t + [Polled(poll)];
      assert w.trace == base + t;
      var more;
      if poll.Got? {
        seen := seen + 1;
        more, r, reminded, t := OnReport(w, op, poll.report, reminded, seen, base, t);
      } else {
        more, r, t := OnSilence(w, op, poll, reminded, base, t);
        reminded := true;
      }
      if !more {
        return;
      }
    }
  }

  /** One report: go on, or end the loop. */
  method OnReport(w: World, op: Snapshot, report: Report, reminded: bool, seen: nat,
                  ghost base: seq<Effect>, ghost t: seq<Effect>)
    returns (more: bool, r: Option<Snapshot>, reminded': bool, ghost u: seq<Effect>)
    requires w.Valid() && w.trace == base + t && LoopTrace(op, t)
    requires Reminders(t) == (if reminded then 1 else 0) && Reports(t) == seen
    requires t != [] && FromEnd(t, 1) == Polled(Got(report))
    modifies w
    ensures w.Valid() && w.trace == base + u
    ensures !more ==> Concluded(op, u, r)
    ensures more ==> LoopTrace(op, u) && MayPoll(op, u) && Reports(u) == seen <= MAX_REPORTS
    ensures more ==> Reminders(u) == (if reminded' then 1 else 0)
  {
    more, r, reminded', u := false, None, reminded, t;
    if seen > MAX_REPORTS {
      r, u := EndWith(w, op, CAPACITY, base, u);
      return;
    }
    match report {
      case Question(id, message) =>
        if !Correlated(op, id, message) {
          r, u := EndWith(w, op, QUESTION_CORRELATION, base, u);
        } else {
          r, u := AnswerQuestion(w, op, message, base, u);
        }
      case Progress(id, message, payload) =>
        if !Correlated(op, id, message) {
          r, u := EndWith(w, op, REPORT_CORRELATION, base, u);
        } else if |payload| > MAX_PROGRESS_BYTES {
          r, u := EndWith(w, op, PROGRESS_BOUND, base, u);
        } else {
          more, u := AcknowledgeProgress(w, op, message, base, u);
        }
      case Idle =>
        if !reminded {
          more, r, u := RemindOnce(w, op, base, u);
          reminded' := true;
        } else if op.state.Cancelling? {
          SilenceEnds(op, u);
        } else {
          r, u := EndWith(w, op, SETTLED, base, u);
        }
      case Disconnected =>
        more := true;
      case Terminal(id, message, _) =>
        if !Correlated(op, id, message) {
          r, u := EndWith(w, op, TERMINAL_CORRELATION, base, u);
        } else {
          r, u := FinishWith(w, op, report, base, u);
        }
    }
  }

  /** A progress report within its bound is acknowledged; the loop goes on unless that fails. */
  method AcknowledgeProgress(w: World, op: Snapshot, message: MessageId, ghost base: seq<Effect>, ghost t: seq<Effect>)
    returns (more: bool, ghost u: seq<Effect>)
    requires w.Valid() && w.trace == base + t && LoopTrace(op, t) && Reports(t) <= MAX_REPORTS
    requires t != [] && GotProgress(op, FromEnd(t, 1)) && FromEnd(t, 1).poll.report.message == message
    modifies w
    ensures w.Valid() && w.trace == base + u && Reports(u) == Reports(t) && Reminders(u) == Reminders(t)
    ensures !more ==> Concluded(op, u, None)
    ensures more ==> LoopTrace(op, u) && MayPoll(op, u)
  {
    more := w.Acknowledge(message);
    Extend(op, t, Acknowledged(message, more));
    u := t + [Acknowledged(message, more)];
    assert w.trace == base + u;
    assert FromEnd(u, 2) == FromEnd(t, 1);
    if !more {
      AckEnds(op, u);
    }
  }

  // ---------------------------------------------------------------------------------------------
  // Execution
  // ---------------------------------------------------------------------------------------------

  /** The execution ended with the traces `early` and `during` and the answer `r`. */
  ghost predicate Executed(first: Snapshot, early: seq<Effect>, during: seq<Effect>, r: Option<Snapshot>) {
    && EarlyTrace(first, early)
    && match Watched(first, early)
       case Some(op) => Concluded(op, during, r)
       case None => during == [] && EndedEarly(first, early) && EarlyAnswers(first, early, r)
  }

  lemma StopEnds(first: Snapshot, t: seq<Effect>)
    requires t != []
    requires match FromEnd(t, 1)
             case Asked(gate, granted) => !granted && !gate.Capacity? && !gate.Readiness?
             case LoadFailed => true
             case Denied(_) => true
             case Loaded(s) => s.state.Cancelled?
             case Attempted(a, committed) => a.cause.Judged? || !committed
             case _ => false
    requires FromEnd(t, 1).Loaded? ==> |t| == ReloadAt(first) + 1
    ensures EndedEarly(first, t) && Watched(first, t).None?
  {
  }

  /** One more gate on the way. */
  method Pass(w: World, first: Snapshot, gate: Gate, ghost base: seq<Effect>, ghost t: seq<Effect>)
    returns (granted: bool, ghost u: seq<Effect>)
    requires w.Valid() && w.trace == base + t && EarlyTrace(first, t) && MayAsk(first, t, gate)
    modifies w`trace
    ensures w.Valid() && w.trace == base + u && EarlyTrace(first, u) && u == t + [Asked(gate, granted)]
    ensures forall i :: 0 <= i < |t| ==> u[i] == t[i]
    ensures !granted && !gate.Capacity? && !gate.Readiness? ==> Executed(first, u, [], None)
  {
    granted := w.Obtain(gate);
    ExtendEarly(first, t, Asked(gate, granted));
    u := t + [Asked(gate, granted)];
    assert w.trace == base + u;
    if !granted && !gate.Capacity? && !gate.Readiness? {
      StopEnds(first, u);
    }
  }

  /** The judgement that is due before the report loop, and the end of the execution. */
  method JudgeEarly(w: World, first: Snapshot, op: Snapshot, o: Outcome, ghost base: seq<Effect>, ghost t: seq<Effect>)
    returns (r: Option<Snapshot>, ghost u: seq<Effect>)
    requires w.Valid() && w.trace == base + t && EarlyTrace(first, t)
    requires EarlyDue(first, t) == Some((op, o)) && Bounded(o)
    modifies w
    ensures w.Valid() && w.trace == base + u && Executed(first, u, [], r)
    ensures ReloadOf(first, u) == ReloadOf(first, t)
  {
    ghost var more;
    r, more := Judge(w, op, o);
    ExtendEarly(first, t, more[0]);
    u := t + [more[0]];
    assert w.trace == base + u;
    StopEnds(first, u);
  }

  /**
    One execution. `early` is what it did before the report loop and `during` what it did in it. All
    of it follows the rules, and it ends only where nothing may follow.
  */
  method Execute(w: World, first: Snapshot)
    returns (r: Option<Snapshot>, ghost early: seq<Effect>, ghost during: seq<Effect>)
    requires w.Valid() && (w.record.state.Queued? ==> first.state.Queued?)
    modifies w
    ensures w.Valid() && w.trace == old(w.trace) + early + during
    ensures Executed(first, early, during, r)
    ensures ReloadOf(first, early).Some? ==> !ReloadOf(first, early).value.state.Queued?
  {
    ghost var base := w.trace;
    r, early, during := None, [], [];
    if IsTerminal(first.state) {
      r := Some(first);
      return;
    }
    var granted;
    granted, early := Pass(w, first, Campaign, base, early);
    if !granted {
      return;
    }
    granted, early := Pass(w, first, Capacity, base, early);
    if !granted {
      r, early := JudgeEarly(w, first, first, NO_CAPACITY, base, early);
      return;
    }
    if first.state.Queued? {
      var started;
      started, early := Begin(w, first, base, early);
      if !started {
        return;
      }
    }
    r, early, during := LoadAndRun(w, first, base, early);
  }

  /** Beginning the start of a queued operation. */
  method Begin(w: World, first: Snapshot, ghost base: seq<Effect>, ghost t: seq<Effect>)
    returns (ok: bool, ghost u: seq<Effect>)
    requires w.Valid() && w.trace == base + t && EarlyTrace(first, t)
    requires t == [Asked(Campaign, true), Asked(Capacity, true)] && first.state.Queued?
    modifies w
    ensures w.Valid() && w.trace == base + u && EarlyTrace(first, u)
    ensures ok ==> u == Opening(first) && !w.record.state.Queued?
    ensures !ok ==> Executed(first, u, [], None) && ReloadOf(first, u).None?
  {
    var begin := BeginAttempt(first);
    var admitted, started := w.Transition(begin);
    ghost var e := if admitted then Attempted(begin, started.Some?) else Denied(begin);
    ExtendEarly(first, t, e);
    ok, u := started.Some?, t + [e];
    assert w.trace == base + u;
    if !ok {
      StopEnds(first, u);
    }
  }

  /** The reload, and the rest of the execution. */
  method LoadAndRun(w: World, first: Snapshot, ghost base: seq<Effect>, ghost before: seq<Effect>)
    returns (r: Option<Snapshot>, ghost early: seq<Effect>, ghost during: seq<Effect>)
    requires w.Valid() && w.trace == base + before && EarlyTrace(first, before)
    requires before == Opening(first) && !w.record.state.Queued?
    modifies w
    ensures w.Valid() && w.trace == base + early + during
    ensures Executed(first, early, during, r)
    ensures ReloadOf(first, early).Some? ==> !ReloadOf(first, early).value.state.Queued?
  {
    var loaded := w.Load();
    ghost var e := if loaded.Some? then Loaded(loaded.value) else LoadFailed;
    ExtendEarly(first, before, e);
    r, early, during := loaded, before + [e], [];
    assert w.trace == base + early;
    if loaded.None? || loaded.value.state.Cancelled? {
      StopEnds(first, early);
    } else {
      r, early, during := RunReloaded(w, first, loaded.value, base, early);
    }
  }

  /** From the reloaded operation on: make an instance ready, then observe it or deliver its input. */
  method RunReloaded(w: World, first: Snapshot, op: Snapshot, ghost base: seq<Effect>, ghost before: seq<Effect>)
    returns (r: Option<Snapshot>, ghost early: seq<Effect>, ghost during: seq<Effect>)
    requires w.Valid() && w.trace == base + before && EarlyTrace(first, before)
    requires Reloaded(first, before, 0) && ReloadOf(first, before) == Some(op)
    modifies w
    ensures w.Valid() && w.trace == base + early + during
    ensures Executed(first, early, during, r) && ReloadOf(first, early) == Some(op)
  {
    r, during := None, [];
    var ready;
    ready, early := Pass(w, first, Readiness, base, before);
    if !ready {
      r, early := JudgeEarly(w, first, op, NOT_READY, base, early);
    } else if InFlight(op.state) {
      r, during := Observe(w, op);
    } else {
      r, early, during := DeliverInput(w, first, op, base, early);
    }
  }

  /** The permit is checked before and after the input is read; then the input is delivered. */
  method DeliverInput(w: World, first: Snapshot, op: Snapshot, ghost base: seq<Effect>, ghost before: seq<Effect>)
    returns (r: Option<Snapshot>, ghost early: seq<Effect>, ghost during: seq<Effect>)
    requires w.Valid() && w.trace == base + before && EarlyTrace(first, before)
    requires Reloaded(first, before, 1) && FromEnd(before, 1) == Asked(Readiness, true)
    requires ReloadOf(first, before) == Some(op) && !InFlight(op.state)
    modifies w
    ensures w.Valid() && w.trace == base + early + during
    ensures Executed(first, early, during, r) && ReloadOf(first, early) == Some(op)
  {
    r, during := None, [];
    var granted;
    granted, early := Pass(w, first, Permit, base, before);
    if !granted {
      return;
    }
    granted, early := Pass(w, first, Input, base, early);
    if !granted {
      return;
    }
    granted, early := Pass(w, first, Permit, base, early);
    if !granted {
      return;
    }
    r, early, during := DeliverOnce(w, first, op, base, early);
  }

  /** The delivery, and what its answer calls for. */
  method DeliverOnce(w: World, first: Snapshot, op: Snapshot, ghost base: seq<Effect>, ghost before: seq<Effect>)
    returns (r: Option<Snapshot>, ghost early: seq<Effect>, ghost during: seq<Effect>)
    requires w.Valid() && w.trace == base + before && EarlyTrace(first, before)
    requires Reloaded(first, before, 4) && FromEnd(before, 1) == Asked(Permit, true)
    requires ReloadOf(first, before) == Some(op)
    modifies w
    ensures w.Valid() && w.trace == base + early + during
    ensures Executed(first, early, during, r) && ReloadOf(first, early) == Some(op)
  {
    var acceptance := w.Deliver();
    ExtendEarly(first, before, Delivered(acceptance));
    r, early, during := None, before + [Delivered(acceptance)], [];
    assert w.trace == base + early;
    match acceptance {
      case DeliveryFailed =>
        r, early := JudgeEarly(w, first, op, DELIVERY_FAILED, base, early);
      case NotAccepted =>
        r, early := JudgeEarly(w, first, op, REJECTED, base, early);
      case Unknown =>
        r, early := JudgeEarly(w, first, op, UNKNOWN_ACCEPTANCE, base, early);
      case Accepted =>
        r, early, during := RunDelivered(w, first, op, base, early);
    }
  }

  /** After an accepted delivery: report the operation running and observe it. */
  method RunDelivered(w: World, first: Snapshot, op: Snapshot, ghost base: seq<Effect>, ghost before: seq<Effect>)
    returns (r: Option<Snapshot>, ghost early: seq<Effect>, ghost during: seq<Effect>)
    requires w.Valid() && w.trace == base + before && EarlyTrace(first, before)
    requires Reloaded(first, before, 5) && FromEnd(before, 1) == Delivered(Accepted)
    requires ReloadOf(first, before) == Some(op)
    modifies w
    ensures w.Valid() && w.trace == base + early + during
    ensures Executed(first, early, during, r) && ReloadOf(first, early) == Some(op)
  {
    var report := RunningAttempt(op);
    var admitted, running := w.Transition(report);
    ghost var e := if admitted then Attempted(report, running.Some?) else Denied(report);
    ExtendEarly(first, before, e);
    r, early, during := None, before + [e], [];
    assert w.trace == base + early;
    if running.Some? {
      assert running.value == NowRunning(op);
      r, during := Observe(w, running.value);
    } else {
      StopEnds(first, early);
    }
  }

  // ---------------------------------------------------------------------------------------------
  // Whole executions
  // ---------------------------------------------------------------------------------------------

  predicate Attempts(t: seq<Effect>, a: Attempt) {
    exists i :: 0 <= i < |t| && t[i].Attempted? && t[i].attempt == a
  }

  /** A judgement is legal exactly when the snapshot it judges is not terminal, and so is its message. */
  predicate SoundJudgement(a: Attempt) {
    && (a.action.ReportFailure? || a.action.ReportUncertain?)
    && (Next(a.from.state, a.action).Some? <==> !IsTerminal(a.from.state))
    && (a.message == if InFlight(a.from.state) then Some(a.from.input) else None)
  }

  lemma EarlyJudgementIsSound(first: Snapshot, early: seq<Effect>, a: Attempt)
    requires EarlyTrace(first, early) && a.cause.Judged? && Attempts(early, a)
    requires var reload := ReloadOf(first, early); reload.Some? ==> !reload.value.state.Queued?
    ensures SoundJudgement(a)
    ensures || (a.from == first && !IsTerminal(first.state))
            || (ReloadOf(first, early) == Some(a.from) && !a.from.state.Cancelled?)
  {
    var i :| 0 <= i < |early| && early[i].Attempted? && early[i].attempt == a;
    Explains(first, early, i);
    EarlyDueFailsOrDoubts(first, early[..i]);
    EarlyDueIsSound(first, early, i);
    JudgementIsLegal(a.from, a.outcome.value);
  }

  /** A judgement is of the first snapshot when capacity was refused, and of the reload otherwise. */
  lemma EarlyDueIsSound(first: Snapshot, t: seq<Effect>, i: nat)
    requires EarlyTrace(first, t) && i < |t| && EarlyDue(first, t[..i]).Some?
    ensures var due := EarlyDue(first, t[..i]).value;
            if i == 2 then due == (first, NO_CAPACITY) && !IsTerminal(first.state)
            else ReloadOf(first, t) == Some(due.0) && !due.0.state.Cancelled?
  {
    if i == 2 {
      Explains(first, t, 0);
      assert t[..i][0] == t[0];
    }
  }

  /**
    Every transition the worker makes of its own accord is sound, and legal unless the reload showed
    a terminal state other than Cancelled; in that case a judgement of the reload is always illegal.
  */
  lemma OwnTransitionsAreLegal(first: Snapshot, early: seq<Effect>, during: seq<Effect>, r: Option<Snapshot>,
                               a: Attempt)
    requires Executed(first, early, during, r) && a.cause.Judged? && (Attempts(early, a) || Attempts(during, a))
    requires var reload := ReloadOf(first, early); reload.Some? ==> !reload.value.state.Queued?
    ensures SoundJudgement(a)
    ensures Next(a.from.state, a.action).None? ==>
              ReloadOf(first, early) == Some(a.from) && IsTerminal(a.from.state) && !a.from.state.Cancelled?
  {
    if Attempts(during, a) {
      var op := Watched(first, early).value;
      var i :| 0 <= i < |during| && during[i].Attempted? && during[i].attempt == a;
      assert Explained(op, during[..i], during[i]);
      JudgementsFailOrDoubt(op, during[..i]);
      JudgementIsLegal(op, a.outcome.value);
    } else {
      EarlyJudgementIsSound(first, early, a);
    }
  }

  /** An execution asks for success only inside the report loop, on the Driver's own report. */
  lemma ExecutionNeverInfersSuccess(first: Snapshot, early: seq<Effect>, during: seq<Effect>, r: Option<Snapshot>,
                                    a: Attempt)
    requires Executed(first, early, during, r)
    requires a.action.ReportSuccess? && (Attempts(early, a) || Attempts(during, a))
    ensures Watched(first, early).Some?
    ensures exists i :: 2 <= i < |during| && during[i].Attempted? && during[i].attempt == a
              && GotTerminal(Watched(first, early).value, during[i - 2])
              && a.outcome == Some(during[i - 2].poll.report.outcome) && Bounded(a.outcome.value)
  {
    EarlyNeverSucceeds(first, early, a);
    var i :| 0 <= i < |during| && during[i].Attempted? && during[i].attempt == a;
    SuccessIsReported(Watched(first, early).value, during, i);
  }

  lemma EarlyNeverSucceeds(first: Snapshot, early: seq<Effect>, a: Attempt)
    requires EarlyTrace(first, early) && a.action.ReportSuccess?
    ensures !Attempts(early, a)
  {
    forall i | 0 <= i < |early| && early[i].Attempted? ensures !early[i].attempt.action.ReportSuccess? {
      Explains(first, early, i);
      EarlyDueFailsOrDoubts(first, early[..i]);
    }
  }

  /** The report loop never delivers, so an execution delivers at most once. */
  lemma ExecutionDeliversAtMostOnce(first: Snapshot, early: seq<Effect>, during: seq<Effect>, r: Option<Snapshot>,
                                    i: nat, j: nat)
    requires Executed(first, early, during, r)
    requires i < |early + during| && j < |early + during|
    requires (early + during)[i].Delivered? && (early + during)[j].Delivered?
    ensures i == j < |early|
  {
    forall k | 0 <= k < |during| ensures !during[k].Delivered? {
      assert Explained(Watched(first, early).value, during[..k], during[k]);
    }
    DeliversAtMostOnce(first, early, i, j);
  }

  /** A delivery whose fate is unknown ends the execution, and never as a failure or a success. */
  lemma DoubtfulDeliveryIsNeverFailure(first: Snapshot, early: seq<Effect>, during: seq<Effect>, r: Option<Snapshot>,
                                       d: nat, a: Attempt)
    requires Executed(first, early, during, r)
    requires d < |early| && early[d].Delivered? && early[d].acceptance in {Unknown, DeliveryFailed}
    requires Attempts(early, a) || Attempts(during, a)
    ensures during == [] && !a.action.ReportFailure? && !a.action.ReportSuccess?
  {
    DoubtIsNotWatched(first, early, d);
    var i :| 0 <= i < |early| && early[i].Attempted? && early[i].attempt == a;
    NoFailureAfterDoubt(first, early, d, i);
    if a.action.ReportSuccess? {
      EarlyNeverSucceeds(first, early, a);
    }
  }

  lemma DoubtIsNotWatched(first: Snapshot, early: seq<Effect>, d: nat)
    requires EarlyTrace(first, early) && d < |early| && early[d].Delivered? && !early[d].acceptance.Accepted?
    ensures Watched(first, early).None?
  {
    DeliveryIsPrepared(first, early, d);
    if d + 1 < |early| {
      Explains(first, early, d + 1);
    }
  }

  /** The Store takes a judgement of its current record exactly when the table and the input allow it. */
  lemma JudgementIsAccepted(op: Snapshot, inputAccepted: bool, o: Outcome)
    requires o.DidFail? || (o.IsUncertain? && !op.state.Queued?)
    ensures Accepts(op, inputAccepted, JudgedAttempt(op, o)) <==>
            !IsTerminal(op.state) && (InFlight(op.state) ==> inputAccepted)
  {
    JudgementIsLegal(op, o);
    OutcomeNamesItsState(op.state, o);
  }
}
