/**
  The admission gate of an owned session and everything that touches it, one atomic access at a
  time: permits are admitted and checked, ticks renew the lease, and losing ownership, shutdown,
  the worker guard and dropping the supervisor close the gate.

  Any number of calls are in progress at once; between two accesses of one call every other call
  may make any number of its own. Clock readings and Store answers are inputs of the steps.
*/
module Admission {
  import opened Wrappers

  type CallId = nat
  type Time = int

  const FIRST_GENERATION := 1
  const GENERATIONS := 0x1_0000_0000_0000_0000

  datatype Lease = Lease(session: nat, owner: nat, epoch: nat, expires: Time)

  datatype Loss = Expired | RenewalFailed | Stale | Shutdown

  datatype Status =
    | Active(session: nat, epoch: nat, expires: Time)
    | Lost(session: nat, epoch: nat, reason: Loss)

  datatype Outcome = Granted(generation: nat) | Refused | Renewed | Failed | Closed | Abandoned

  /** What a call does next; a closing call carries the status it writes afterwards, if any. */
  datatype Point =
    | LoadGeneration
    | LoadOpen(generation: nat)
    | Compare(generation: nat)
    | StoreClosed(notice: Option<Status>, result: Outcome)
    | Bump(notice: Option<Status>, result: Outcome)
    | WriteLost(status: Status, result: Outcome)
    | TickStart
    | TickLock
    | TickAwait(lease: Lease)
    | TickStore(lease: Lease)
    | TickActivate(lease: Lease)
    | GuardStop
    | GuardLoad
    | ShutdownLock
    | Finished(outcome: Outcome)

  datatype Call = Admit | Check(generation: nat) | Tick | GuardDrop | ShutdownCall | SupervisorDrop

  /** `origin` is the lease the supervisor was started with; `permits` the generations of permits issued. */
  datatype System = System(
    origin: Lease, open: bool, generation: nat, lease: Lease, status: Status, running: bool,
    permits: set<nat>, calls: map<CallId, Point>)

  datatype StoreAnswer = RenewedTo(lease: Lease) | StaleOwnership | StoreFailed

  /** What a step may read from outside: two clock readings, the command factory and the Store. */
  datatype Input = Input(now: Time, created: bool, answer: StoreAnswer, later: Time)

  datatype Event =
    | Begin(id: CallId, call: Call)
    | Step(id: CallId, input: Input)
    | Abort(id: CallId)

  function Started(lease: Lease): System {
    System(lease, true, FIRST_GENERATION, lease, Active(lease.session, lease.epoch, lease.expires), true, {}, map[])
  }

  predicate Enabled(s: System, e: Event) {
    match e
    case Begin(id, call) => id !in s.calls && (call.Check? ==> call.generation in s.permits)
    case Step(id, _) => id in s.calls && !s.calls[id].Finished?
    case Abort(id) => id in s.calls && s.calls[id].TickAwait?
  }

  function Entry(call: Call): Point {
    match call
    case Admit => LoadGeneration
    case Check(generation) => LoadOpen(generation)
    case Tick => TickStart
    case GuardDrop => GuardStop
    case ShutdownCall => ShutdownLock
    case SupervisorDrop => StoreClosed(None, Closed)
  }

  function Losing(lease: Lease, reason: Loss, result: Outcome): Point {
    StoreClosed(Some(Lost(lease.session, lease.epoch, reason)), result)
  }

  predicate SameOwnership(a: Lease, b: Lease) {
    a.session == b.session && a.owner == b.owner && a.epoch == b.epoch
  }

  /** Where a call goes after its next access, in the state before that access. */
  function Next(s: System, point: Point, input: Input): Point
    requires !point.Finished?
  {
    match point
    case LoadGeneration => LoadOpen(s.generation)
    case LoadOpen(g) => if s.open then Compare(g) else Finished(Refused)
    case Compare(g) => if s.generation == g then Finished(Granted(g)) else Finished(Refused)
    case StoreClosed(notice, result) => Bump(notice, result)
    case Bump(notice, result) => if notice.Some? then WriteLost(notice.value, result) else Finished(result)
    case WriteLost(_, result) => Finished(result)
    case TickStart => if s.open then TickLock else Finished(Failed)
    case TickLock =>
      if input.now >= s.lease.expires then Losing(s.lease, Expired, Failed)
      else if !input.created then Losing(s.lease, RenewalFailed, Failed)
      else TickAwait(s.lease)
    case TickAwait(lease) =>
      (match input.answer
       case RenewedTo(renewed) =>
         if SameOwnership(renewed, lease) && renewed.expires > input.later then TickStore(renewed)
         else Losing(lease, RenewalFailed, Failed)
       case StaleOwnership => Losing(lease, Stale, Failed)
       case StoreFailed => Losing(lease, RenewalFailed, Failed))
    case TickStore(lease) => TickActivate(lease)
    case TickActivate(_) => Finished(Renewed)
    case GuardStop => GuardLoad
    case GuardLoad => if s.open then Losing(s.origin, RenewalFailed, Closed) else Finished(Closed)
    case ShutdownLock => Losing(s.lease, Loss.Shutdown, Closed)
  }

  /** What the access itself writes. */
  function Written(s: System, point: Point): System {
    match point
    case Compare(g) => if s.generation == g then s.(permits := s.permits + {g}) else s
    case StoreClosed(_, _) => s.(open := false)
    case Bump(_, _) => s.(generation := (s.generation + 1) % GENERATIONS)
    case WriteLost(status, _) => s.(status := status)
    case TickStore(lease) => s.(lease := lease)
    case TickActivate(lease) => s.(status := Active(lease.session, lease.epoch, lease.expires))
    case GuardStop => s.(running := false)
    case _ => s
  }

  function Apply(s: System, e: Event): System
    requires Enabled(s, e)
  {
    match e
    case Begin(id, call) => s.(calls := s.calls[id := Entry(call)])
    case Step(id, input) => Written(s, s.calls[id]).(calls := s.calls[id := Next(s, s.calls[id], input)])
    case Abort(id) => s.(calls := s.calls[id := Finished(Abandoned)])
  }

  predicate Run(s: System, events: seq<Event>)
    decreases |events|
  {
    events == [] || (Enabled(s, events[0]) && Run(Apply(s, events[0]), events[1..]))
  }

  function After(s: System, events: seq<Event>): System
    requires Run(s, events)
    decreases |events|
  {
    if events == [] then s else After(Apply(s, events[0]), events[1..])
  }

  // ---------------------------------------------------------------------------------------------
  // The invariant
  // ---------------------------------------------------------------------------------------------

  predicate StatusOf(origin: Lease, status: Status) {
    status.session == origin.session && status.epoch == origin.epoch
  }

  predicate NoticeOf(origin: Lease, notice: Option<Status>) {
    notice.Some? ==> StatusOf(origin, notice.value) && notice.value.Lost?
  }

  /** Outcomes of calls that only return once the gate is closed. */
  predicate ClosingOutcome(outcome: Outcome) {
    outcome.Failed? || outcome.Closed?
  }

  predicate PointOk(s: System, point: Point) {
    match point
    case LoadOpen(g) => s.open ==> g == FIRST_GENERATION
    case Compare(g) => g == FIRST_GENERATION
    case StoreClosed(notice, result) => NoticeOf(s.origin, notice) && ClosingOutcome(result)
    case Bump(notice, result) => !s.open && NoticeOf(s.origin, notice) && ClosingOutcome(result)
    case WriteLost(status, result) => !s.open && StatusOf(s.origin, status) && status.Lost? && ClosingOutcome(result)
    case TickAwait(lease) => SameOwnership(lease, s.origin)
    case TickStore(lease) => SameOwnership(lease, s.origin)
    case TickActivate(lease) => SameOwnership(lease, s.origin)
    case Finished(outcome) =>
      (outcome.Granted? ==> outcome.generation == FIRST_GENERATION) && (ClosingOutcome(outcome) ==> !s.open)
    case _ => true
  }

  predicate Inv(s: System) {
    && (s.open ==> s.generation == FIRST_GENERATION)
    && SameOwnership(s.lease, s.origin)
    && StatusOf(s.origin, s.status)
    && s.permits <= {FIRST_GENERATION}
    && forall id :: id in s.calls ==> PointOk(s, s.calls[id])
  }

  lemma NextIsOk(s: System, id: CallId, input: Input)
    requires Inv(s) && id in s.calls && !s.calls[id].Finished?
    ensures PointOk(Written(s, s.calls[id]), Next(s, s.calls[id], input))
  {
    assert PointOk(s, s.calls[id]);
  }

  lemma WrittenKeepsOthers(s: System, point: Point, other: Point)
    requires PointOk(s, other) && !point.Finished?
    ensures PointOk(Written(s, point), other)
  {
  }

  lemma StepKeepsInv(s: System, e: Event)
    requires Inv(s) && Enabled(s, e)
    ensures Inv(Apply(s, e)) && Apply(s, e).origin == s.origin
    ensures !s.open ==> !Apply(s, e).open
  {
    var t := Apply(s, e);
    if e.Step? {
      assert PointOk(s, s.calls[e.id]);
      NextIsOk(s, e.id, e.input);
      forall id | id in t.calls ensures PointOk(t, t.calls[id]) {
        if id != e.id {
          WrittenKeepsOthers(s, s.calls[e.id], s.calls[id]);
        }
      }
    }
  }

  lemma {:induction false} RunKeepsInv(s: System, events: seq<Event>)
    requires Inv(s) && Run(s, events)
    ensures Inv(After(s, events)) && After(s, events).origin == s.origin
    decreases |events|
  {
    if events == [] {
    } else {
      StepKeepsInv(s, events[0]);
      RunKeepsInv(Apply(s, events[0]), events[1..]);
    }
  }

  /**
    In every reachable state: every permit ever issued carries the first generation; the stored
    lease keeps the session, owner and epoch it started with, and the status their session and
    epoch; and a tick that failed, a shutdown, a guard drop or a supervisor drop that has returned
    has closed the gate.
  */
  lemma EveryReachableState(lease: Lease, events: seq<Event>)
    requires Run(Started(lease), events)
    ensures var s := After(Started(lease), events);
            && s.permits <= {FIRST_GENERATION}
            && SameOwnership(s.lease, lease)
            && StatusOf(lease, s.status)
            && (s.open ==> s.generation == FIRST_GENERATION)
            && forall id :: id in s.calls && s.calls[id].Finished? ==>
                 && (s.calls[id].outcome.Granted? ==> s.calls[id].outcome.generation == FIRST_GENERATION)
                 && (ClosingOutcome(s.calls[id].outcome) ==> !s.open)
  {
    RunKeepsInv(Started(lease), events);
    var s := After(Started(lease), events);
    forall id | id in s.calls ensures PointOk(s, s.calls[id]) {}
  }

  // ---------------------------------------------------------------------------------------------
  // Closure
  // ---------------------------------------------------------------------------------------------

  lemma {:induction false} ClosureIsAbsorbing(s: System, events: seq<Event>)
    requires !s.open && Run(s, events)
    ensures !After(s, events).open
    decreases |events|
  {
    if events == [] {
    } else {
      ClosureIsAbsorbing(Apply(s, events[0]), events[1..]);
    }
  }

  /** A call that has not yet read `open`, or has been refused. */
  predicate CannotPass(s: System, id: CallId) {
    id in s.calls ==>
      match s.calls[id]
      case LoadGeneration => true
      case LoadOpen(_) => true
      case Compare(_) => false
      case Finished(outcome) => !outcome.Granted?
      case _ => true
  }

  /**
    Once the close store has happened, a check or admission that has not yet read `open`, or that
    begins later, is never granted; this holds even if the generation counter wraps around.
  */
  lemma {:induction false} LateChecksFail(s: System, events: seq<Event>, id: CallId)
    requires Inv(s) && !s.open && Run(s, events) && CannotPass(s, id)
    ensures CannotPass(After(s, events), id)
    decreases |events|
  {
    if events == [] {
    } else {
      StepKeepsInv(s, events[0]);
      assert events[0].Step? && events[0].id == id ==> PointOk(s, s.calls[id]);
      LateChecksFail(Apply(s, events[0]), events[1..], id);
    }
  }

  predicate Bumping(s: System, e: Event) {
    e.Step? && e.id in s.calls && s.calls[e.id].Bump?
  }

  ghost function Bumps(s: System, events: seq<Event>): nat
    requires Run(s, events)
    decreases |events|
  {
    if events == [] then 0 else (if Bumping(s, events[0]) then 1 else 0) + Bumps(Apply(s, events[0]), events[1..])
  }

  lemma WrapOnce(g: nat, n: nat)
    ensures ((g + 1) % GENERATIONS + n) % GENERATIONS == (g + 1 + n) % GENERATIONS
  {
  }

  /** The generation counts the closures that have taken effect, modulo its 64 bits. */
  lemma {:induction false} GenerationCountsClosures(s: System, events: seq<Event>)
    requires s.generation < GENERATIONS && Run(s, events)
    ensures After(s, events).generation == (s.generation + Bumps(s, events)) % GENERATIONS
    decreases |events|
  {
    if events == [] {
    } else {
      GenerationCountsClosures(Apply(s, events[0]), events[1..]);
      WrapOnce(s.generation, Bumps(Apply(s, events[0]), events[1..]));
    }
  }

  // ---------------------------------------------------------------------------------------------
  // Renewal
  // ---------------------------------------------------------------------------------------------

  /** The answer renews the ownership of `lease`, and has not expired by the second clock reading. */
  predicate Good(lease: Lease, i: Input) {
    i.answer.RenewedTo? && SameOwnership(i.answer.lease, lease) && i.answer.lease.expires > i.later
  }

  /** An answered renewal goes on to store exactly the renewed lease, or to close the gate for the right reason. */
  lemma RenewalIsExact(s: System, id: CallId, i: Input)
    requires id in s.calls && s.calls[id].TickAwait?
    ensures var lease, t := s.calls[id].lease, Apply(s, Step(id, i));
            var reason := if i.answer.StaleOwnership? then Stale else RenewalFailed;
            && t == s.(calls := t.calls)
            && t.calls[id] ==
               if Good(lease, i) then TickStore(i.answer.lease)
               else StoreClosed(Some(Lost(lease.session, lease.epoch, reason)), Failed)
  {
  }

  /** What a tick read: the gate, the lease it renews, and the inputs at the lock and at the Store's answer. */
  datatype TickView = TickView(open: bool, lease: Lease, lock: Input, await: Input)

  /** The reason for which a tick that saw the gate open gives the ownership up, if it does. */
  function Reason(v: TickView): Option<Loss> {
    if v.lock.now >= v.lease.expires then Some(Expired)
    else if !v.lock.created then Some(RenewalFailed)
    else if v.await.answer.StaleOwnership? then Some(Stale)
    else if !Good(v.lease, v.await) then Some(RenewalFailed)
    else None
  }

  // ---------------------------------------------------------------------------------------------
  // Status
  // ---------------------------------------------------------------------------------------------

  /** A tick that has seen the gate open and has not finished. */
  predicate Renewing(point: Point) {
    point.TickLock? || point.TickAwait? || point.TickStore? || point.TickActivate?
  }

  predicate NoneRenewing(s: System) {
    forall id :: id in s.calls ==> !Renewing(s.calls[id])
  }

  lemma {:induction false} LostStaysLost(s: System, events: seq<Event>)
    requires Inv(s) && !s.open && s.status.Lost? && NoneRenewing(s) && Run(s, events)
    ensures After(s, events).status.Lost?
    decreases |events|
  {
    if events == [] {
    } else {
      var t := Apply(s, events[0]);
      StepKeepsInv(s, events[0]);
      assert events[0].Step? ==> PointOk(s, s.calls[events[0].id]) && !Renewing(s.calls[events[0].id]);
      assert t.status.Lost?;
      forall id | id in t.calls ensures !Renewing(t.calls[id]) {
        assert id in s.calls ==> !Renewing(s.calls[id]);
      }
      LostStaysLost(t, events[1..]);
    }
  }

  function Rank(point: Point): nat {
    match point
    case TickLock => 3
    case TickAwait(_) => 2
    case TickStore(_) => 1
    case _ => 0
  }

  /** An input on which a renewing tick gets one access closer to writing Active. */
  function Favourable(s: System, point: Point): Input {
    Input(s.lease.expires - 1, true, RenewedTo(if point.TickAwait? then point.lease else s.lease),
          (if point.TickAwait? then point.lease else s.lease).expires - 1)
  }

  lemma {:induction false} Revive(s: System, id: CallId) returns (events: seq<Event>)
    requires id in s.calls && Renewing(s.calls[id])
    ensures Run(s, events) && After(s, events).status.Active?
    decreases Rank(s.calls[id])
  {
    var e := Step(id, Favourable(s, s.calls[id]));
    var t := Apply(s, e);
    if s.calls[id].TickActivate? {
      events := [e];
      assert events[1..] == [];
      assert Run(t, events[1..]);
    } else {
      var rest := Revive(t, id);
      events := [e] + rest;
      assert events[1..] == rest;
    }
  }

  /**
    A closed gate does not settle the status: the status is Lost for good exactly when no tick that
    saw the gate open is still in progress.
  */
  lemma LostIsFinalExactly(s: System)
    requires Inv(s) && !s.open && s.status.Lost?
    ensures (forall events :: Run(s, events) ==> After(s, events).status.Lost?) <==> NoneRenewing(s)
  {
    if NoneRenewing(s) {
      forall events | Run(s, events) ensures After(s, events).status.Lost? {
        LostStaysLost(s, events);
      }
    } else {
      var id :| id in s.calls && Renewing(s.calls[id]);
      var events := Revive(s, id);
      assert !After(s, events).status.Lost?;
    }
  }

  lemma RunOneMore(s: System, events: seq<Event>, e: Event)
    requires Run(s, events) && Enabled(After(s, events), e)
    ensures Run(s, events + [e]) && After(s, events + [e]) == Apply(After(s, events), e)
    decreases |events|
  {
    if events == [] {
      assert [e][1..] == [];
      assert [] + [e] == [e];
      assert Run(Apply(s, e), [e][1..]);
    } else {
      RunOneMore(Apply(s, events[0]), events[1..], e);
      assert (events + [e])[1..] == events[1..] + [e];
    }
  }

  /** A completed shutdown can be reported as Active: a tick in progress overwrites the status. */
  lemma ShutdownCanBeOverwritten(lease: Lease) returns (before: seq<Event>, rest: seq<Event>)
    ensures Run(Started(lease), before)
    ensures var s := After(Started(lease), before); s.status.Lost? && !s.open && Run(s, rest)
    ensures var t := After(After(Started(lease), before), rest); t.status.Active? && !t.open
  {
    var s := Started(lease);
    var i := Favourable(s, TickLock);
    RunOneMore(s, [], Begin(0, Tick));
    RunOneMore(s, [] + [Begin(0, Tick)], Step(0, i));
    before := [] + [Begin(0, Tick)] + [Step(0, i)];
    before := ShutdownRuns(s, before, 1, i);
    rest := Revive(After(s, before), 0);
    ClosureIsAbsorbing(After(s, before), rest);
  }

  /** A shutdown that runs with nothing else between its accesses. */
  lemma ShutdownRuns(s: System, before: seq<Event>, id: CallId, i: Input) returns (events: seq<Event>)
    requires Run(s, before) && id !in After(s, before).calls
    ensures Run(s, events)
    ensures !After(s, events).open && After(s, events).status.Lost?
    ensures forall other :: other != id && other in After(s, before).calls ==>
              other in After(s, events).calls && After(s, events).calls[other] == After(s, before).calls[other]
  {
    RunOneMore(s, before, Begin(id, ShutdownCall));
    events := before + [Begin(id, ShutdownCall)];
    RunOneMore(s, events, Step(id, i));
    events := events + [Step(id, i)];
    RunOneMore(s, events, Step(id, i));
    events := events + [Step(id, i)];
    RunOneMore(s, events, Step(id, i));
    events := events + [Step(id, i)];
    RunOneMore(s, events, Step(id, i));
    events := events + [Step(id, i)];
  }
}
