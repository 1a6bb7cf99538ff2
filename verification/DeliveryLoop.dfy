/**
  `drive_once` and `reconcile` as one loop runs them, in a world where the other loops, the clock,
  the owners and the store act between any two of its operations.
*/
module DeliveryLoop {
  import opened Wrappers
  import opened Mailbox
  import opened Delivery
  import opened Sets

  datatype DeliveryStep =
    | Empty
    | StepAccepted(id: Id)
    | StepDeadLetter(id: Id)
    | StepUncertain(id: Id)
    | ReconciliationRequired(id: Id)
    | StepRetryScheduled(id: Id)

  predicate NotBy(events: seq<Event>, me: LoopId) {
    forall i :: 0 <= i < |events| && ByLoop(events[i]) ==> events[i].loop != me
  }

  lemma {:induction false} OthersLeaveMeAlone(s: System, events: seq<Event>, me: LoopId)
    requires Run(s, events) && NotBy(events, me)
    ensures me in After(s, events).loops <==> me in s.loops
    ensures me in s.loops ==> After(s, events).loops[me] == s.loops[me]
    decreases |events|
  {
    if events == [] {
    } else {
      StepTouchesOneLoop(s, events[0], me);
      OthersLeaveMeAlone(Step(s, events[0]), events[1..], me);
    }
  }

  /** The record holds what a commit of `local` calls for. */
  ghost predicate Carried(st: Store, local: Local, notBefore: Time) {
    && HoldsLease(local.snap.state) && local.id in st.messages
    && Follows(local, notBefore, st.messages[local.id].state)
    && st.messages[local.id].attempts == local.snap.attempts
  }

  datatype LeaseResult = LeaseFailed | NothingToLease | LeasedNext(id: Id, message: Message)

  predicate Offered(st: Store, id: Id) {
    SelectedForRecovery(st, id) || SelectedFresh(st, id)
  }

  ghost predicate NothingOffered(st: Store) {
    forall id :: id in st.messages ==> !Offered(st, id)
  }

  /** The store holds `m`, freshly leased to `me`, unless its attempts were used up. */
  ghost predicate LeasedTo(s: System, me: LoopId, id: Id, m: Message) {
    && id in s.store.messages && s.store.messages[id] == m
    && (m.state.DeadLetter? || HoldsLease(m.state))
    && (m.state.DeadLetter? ==> me !in s.loops)
    && (HoldsLease(m.state) ==>
          && me in s.loops && s.loops[me].id == id && s.loops[me].snap == m
          && s.loops[me].point == (if m.state.Leased? then MustCommitPending else MustQuery))
  }

  class World {
    var s: System
    /** Delivery calls made by the loop under study. */
    ghost var deliveries: nat
    /** Permit checks, store calls and Driver calls of that loop that failed or were dropped. */
    ghost var errors: nat

    constructor (s: System)
      ensures this.s == s && deliveries == 0 && errors == 0
    {
      this.s, deliveries, errors := s, 0, 0;
    }

    /** Anything the rest of the system can do without this loop. */
    method Interfere(me: LoopId)
      requires Inv(s)
      modifies this`s
      ensures Inv(s)
      ensures me in s.loops <==> me in old(s).loops
      ensures me in s.loops ==> s.loops[me] == old(s).loops[me]
    {
      var events: seq<Event> := *;
      if Run(s, events) && NotBy(events, me) {
        RunKeepsInv(s, events);
        OthersLeaveMeAlone(s, events, me);
        s := After(s, events);
      }
    }

    method Do(e: Event)
      requires Inv(s) && Enabled(s, e)
      modifies this`s, this`deliveries
      ensures s == Step(old(s), e) && Inv(s)
      ensures deliveries == old(deliveries) + Bit(e.CallDriver? && old(s).loops[e.loop].point.MustDeliver?)
    {
      StepKeepsInv(s, e);
      if e.CallDriver? && s.loops[e.loop].point.MustDeliver? {
        deliveries := deliveries + 1;
      }
      s := Step(s, e);
    }

    /**
      One permit check and `lease_next_message`: an error, nothing to lease, or the leased snapshot
      and its identity. Nothing is leased only when the store has nothing to offer.
    */
    method LeaseNext(me: LoopId) returns (lease: LeaseResult)
      requires Inv(s) && me !in s.loops
      modifies this
      ensures Inv(s) && deliveries == old(deliveries)
      ensures errors == old(errors) + Bit(lease.LeaseFailed?)
      ensures !lease.LeasedNext? ==> me !in s.loops
      ensures lease.NothingToLease? ==> NothingOffered(s.store)
      ensures lease.LeasedNext? ==> LeasedTo(s, me, lease.id, lease.message)
    {
      Interfere(me);
      var failed: bool := *;
      if failed {
        errors := errors + 1;
        return LeaseFailed;
      }
      if id :| id in s.store.messages && Offered(s.store, id) {
        ghost var unused := Unused(s.attempts);
        assert unused !in s.attempts;
        var attempt: Attempt :| attempt !in s.attempts;
        var expires: Time :| expires > s.store.now;
        Do(Event.LeaseNext(me, id, attempt, expires));
        return LeasedNext(id, s.store.messages[id]);
      }
      lease := NothingToLease;
    }

    /** One permit check and `transition_message_delivery`; false when either fails, which ends the call. */
    method Transition(me: LoopId) returns (ok: bool, notBefore: Time)
      requires Inv(s) && me in s.loops && HoldsLease(s.loops[me].snap.state)
      modifies this
      ensures Inv(s) && deliveries == old(deliveries) && errors == old(errors) + Bit(!ok)
      ensures !ok ==> me !in s.loops
      ensures ok ==> Carried(s.store, old(s.loops[me]), notBefore)
      ensures ok ==>
        var local := old(s.loops[me]);
        && (me in s.loops <==> AfterCommit(local).Some?)
        && (me in s.loops ==>
              && s.loops[me] == local.(snap := s.store.messages[local.id], point := AfterCommit(local).value))
    {
      Interfere(me);
      var failed: bool := *;
      notBefore := *;
      if !failed && Enabled(s, Commit(me, notBefore)) {
        CommitFollowsAnswer(s, Commit(me, notBefore));
        Do(Commit(me, notBefore));
        return true, notBefore;
      }
      errors := errors + 1;
      Do(Stop(me));
      ok := false;
    }

    /** Ending the call without a step. */
    method Fail(me: LoopId)
      requires Inv(s) && me in s.loops
      modifies this
      ensures Inv(s) && me !in s.loops && deliveries == old(deliveries) && errors == old(errors) + 1
    {
      errors := errors + 1;
      Do(Stop(me));
    }

    /** Handing a request to the Driver, unless the call is dropped before. */
    method Call(me: LoopId) returns (ok: bool)
      requires Inv(s) && me in s.loops && AfterCall(s.loops[me].point).Some?
      modifies this
      ensures Inv(s) && errors == old(errors) + Bit(!ok)
      ensures deliveries == old(deliveries) + Bit(ok && old(s).loops[me].point.MustDeliver?)
      ensures !ok ==> me !in s.loops
      ensures ok ==>
        && me in s.loops
        && s.loops[me] == old(s).loops[me].(point := AfterCall(old(s).loops[me].point).value)
    {
      Interfere(me);
      ok := *;
      if ok {
        Do(CallDriver(me));
      } else {
        Fail(me);
      }
    }

    /** One Driver call and its answer; the call may be dropped before or while it runs. */
    method Ask(me: LoopId) returns (answer: Option<Observation>)
      requires Inv(s) && me in s.loops && AfterCall(s.loops[me].point).Some?
      modifies this
      ensures Inv(s) && errors == old(errors) + Bit(answer.None?)
      ensures old(deliveries) <= deliveries <= old(deliveries) + Bit(old(s).loops[me].point.MustDeliver?)
      ensures answer.Some? ==> deliveries == old(deliveries) + Bit(old(s).loops[me].point.MustDeliver?)
      ensures answer.None? ==> me !in s.loops
      ensures answer.Some? ==>
        && me in s.loops
        && var called := AfterCall(old(s).loops[me].point).value;
           s.loops[me] == old(s).loops[me].(point := AfterAnswer(called, answer.value).value)
    {
      var called := Call(me);
      if !called {
        return None;
      }
      Interfere(me);
      var dropped: bool := *;
      if dropped {
        Fail(me);
        return None;
      }
      var observation: Observation := *;
      Do(Answer(me, observation));
      answer := Some(observation);
    }
  }

  /** The step names a message whose durable record is in the state the step claims. */
  ghost predicate Truthful(st: Store, step: DeliveryStep) {
    match step
    case StepAccepted(id) => id in st.messages && st.messages[id].state.Accepted?
    case StepDeadLetter(id) => id in st.messages && st.messages[id].state.DeadLetter?
    case StepUncertain(id) => id in st.messages && st.messages[id].state.Uncertain?
    case StepRetryScheduled(id) => id in st.messages && st.messages[id].state.RetryScheduled?
    case Empty => NothingOffered(st)
    case ReconciliationRequired(_) => true
  }

  /** The answer of the inline query decides the step it reports. */
  predicate RequeryFollows(o: Observation, step: DeliveryStep) {
    match step
    case StepAccepted(_) => o.SaidAccepted?
    case StepRetryScheduled(_) => o.SaidNotAccepted?
    case ReconciliationRequired(_) => Doubtful(o)
    case _ => false
  }

  /**
    The Driver's answers decide the step: `first` to the delivery or the query, `second` to the
    inline query, which is made exactly when a fresh delivery got a doubtful answer.
  */
  predicate StepFollows(message: Message, first: Observation, second: Option<Observation>, step: DeliveryStep) {
    if Doubtful(first) && message.state.Leased? then second.Some? && RequeryFollows(second.value, step)
    else
      && second.None?
      && match step
         case StepAccepted(_) => first.SaidAccepted?
         case StepRetryScheduled(_) => first.SaidNotAccepted? && message.attempts < MAX_DELIVERY_ATTEMPTS
         case StepDeadLetter(_) => first.SaidNotAccepted? && message.attempts >= MAX_DELIVERY_ATTEMPTS
         case StepUncertain(_) => Doubtful(first)
         case _ => false
  }

  /** The inline query after a delivery whose outcome is unknown. */
  method Requery(w: World, me: LoopId, id: Id) returns (r: Option<DeliveryStep>, ghost o: Option<Observation>)
    requires Inv(w.s) && me in w.s.loops && w.s.loops[me].id == id && w.s.loops[me].point.MustRequery?
    modifies w
    ensures Inv(w.s) && me !in w.s.loops && w.deliveries == old(w.deliveries)
    ensures w.errors == old(w.errors) + Bit(r.None?)
    ensures r.Some? ==> Truthful(w.s.store, r.value) && !r.value.Empty? && r.value.id == id
    ensures r.Some? ==> o.Some? && RequeryFollows(o.value, r.value)
  {
    assert SnapshotOk(w.s, w.s.loops[me]) && PointOk(w.s.loops[me]);
    var query := w.Ask(me);
    o := query;
    if query.None? {
      return None, o;
    }
    if query.value.SaidUnknown? || query.value.DriverFailed? {
      w.Do(Stop(me));
      return Some(ReconciliationRequired(id)), o;
    }
    var committed, _ := w.Transition(me);
    if !committed {
      return None, o;
    }
    r := Some(if query.value.SaidAccepted? then StepAccepted(id) else StepRetryScheduled(id));
  }

  /**
    From a leased snapshot to a step. Whatever happens around the call, the step is the one that the
    Driver's answers call for and is true of the durable record when it returns; a message leased
    afresh is delivered once, one adopted while it awaited acceptance is only queried, and the call
    ends without a step only when something failed.
  */
  method Reconcile(w: World, me: LoopId, id: Id, message: Message)
    returns (r: Option<DeliveryStep>, ghost first: Option<Observation>, ghost second: Option<Observation>)
    requires Inv(w.s) && me in w.s.loops && HoldsLease(message.state)
    requires w.s.loops[me].id == id && w.s.loops[me].snap == message
    requires w.s.loops[me].point == (if message.state.Leased? then MustCommitPending else MustQuery)
    modifies w
    ensures Inv(w.s) && me !in w.s.loops
    ensures old(w.deliveries) <= w.deliveries <= old(w.deliveries) + Bit(message.state.Leased?)
    ensures w.errors == old(w.errors) + Bit(r.None?)
    ensures r.Some? ==> w.deliveries == old(w.deliveries) + Bit(message.state.Leased?)
    ensures r.Some? ==> Truthful(w.s.store, r.value) && !r.value.Empty? && r.value.id == id
    ensures r.Some? ==> first.Some? && StepFollows(message, first.value, second, r.value)
  {
    first, second := None, None;
    var wasReconciliation := AwaitsAcceptance(message.state);
    if !wasReconciliation {
      var ok, _ := w.Transition(me);
      if !ok {
        return None, first, second;
      }
    }
    var observation := w.Ask(me);
    first := observation;
    if observation.None? {
      return None, first, second;
    }
    assert SnapshotOk(w.s, w.s.loops[me]) && PointOk(w.s.loops[me]);
    var committed, _ := w.Transition(me);
    if !committed {
      return None, first, second;
    }
    if observation.value.SaidAccepted? {
      return Some(StepAccepted(id)), first, second;
    }
    if observation.value.SaidNotAccepted? {
      r := Some(if message.attempts >= MAX_DELIVERY_ATTEMPTS then StepDeadLetter(id) else StepRetryScheduled(id));
      return;
    }
    if wasReconciliation {
      return Some(StepUncertain(id)), first, second;
    }
    r, second := Requery(w, me, id);
  }

  /** One drive; `None` is an error, which says nothing about the mailbox. */
  method DriveOnce(w: World, me: LoopId) returns (r: Option<DeliveryStep>)
    requires Inv(w.s) && me !in w.s.loops
    modifies w
    ensures Inv(w.s) && me !in w.s.loops
    ensures w.errors == old(w.errors) + Bit(r.None?)
    ensures old(w.deliveries) <= w.deliveries <= old(w.deliveries) + 1
    ensures r.Some? ==> Truthful(w.s.store, r.value)
    ensures r.Some? && (r.value.Empty? || r.value.StepUncertain?) ==> w.deliveries == old(w.deliveries)
    ensures r.Some? && r.value.ReconciliationRequired? ==> w.deliveries == old(w.deliveries) + 1
  {
    var lease := w.LeaseNext(me);
    match lease {
      case LeaseFailed =>
        r := None;
      case NothingToLease =>
        r := Some(Empty);
      case LeasedNext(id, message) =>
        if message.state.DeadLetter? {
          r := Some(StepDeadLetter(id));
        } else {
          ghost var first, second;
          r, first, second := Reconcile(w, me, id, message);
        }
    }
  }
}
