/**
  When exactly is every further delivery of a message preceded by a durable retry of its own?

  Not always: `StaleDelivery` has a run in which it is not. This module decides it for every state,
  by what the durable record and the loops in progress say.
*/
module RetryFirst {
  import opened Mailbox
  import opened Delivery
  import opened Sets
  import opened Wrappers

  /** In every continuation each delivery call of `id` has its own durable retry. */
  ghost predicate RetriesFirst(s: System, id: Id) {
    forall events :: Run(s, events) ==> Count(s, events, id, DeliverCalled) <= Count(s, events, id, RetryCommitted)
  }

  /** A loop on `id` whose pending commit the store would take now. */
  predicate CanCommitPending(s: System, id: Id, l: LoopId) {
    && l in s.loops && s.loops[l].id == id && s.loops[l].point.MustCommitPending?
    && Committed(s, s.loops[l], 0).Some?
  }

  /** A pending commit of `id` is possible without a retry: by a new lease, or by a loop that has leased it. */
  ghost predicate MayPend(s: System, id: Id) {
    && Unspent(s, id) == 1
    && (Record(s, id).attempts < MAX_DELIVERY_ATTEMPTS || exists l :: CanCommitPending(s, id, l))
  }

  // ---------------------------------------------------------------------------------------------
  // Enough: nothing is ready, and no pending commit is possible without a retry
  // ---------------------------------------------------------------------------------------------

  /** The attempts are used up, and no loop can still commit the last one. */
  ghost predicate Exhausted(s: System, id: Id) {
    && id in s.store.messages && s.store.messages[id].attempts >= MAX_DELIVERY_ATTEMPTS
    && !AwaitsAcceptance(s.store.messages[id].state)
    && forall l :: !CanCommitPending(s, id, l)
  }

  /** A pending commit that the store refuses now it refuses for ever: epoch, revision and clock only grow. */
  lemma RefusedPendingStaysRefused(s: System, e: Event, id: Id, l: LoopId)
    requires Inv(s) && Enabled(s, e) && (ByLoop(e) ==> e.loop != l)
    requires l in s.loops && s.loops[l].id == id && s.loops[l].point.MustCommitPending?
    requires Committed(s, s.loops[l], 0).None?
    ensures Committed(Step(s, e), s.loops[l], 0).None?
  {
    assert SnapshotOk(s, s.loops[l]) && PointOk(s.loops[l]);
  }

  lemma LastAttemptStays(s: System, e: Event, id: Id)
    requires Inv(s) && Enabled(s, e) && Exhausted(s, id)
    ensures !Marks(s, e, id, PendingCommitted)
    ensures id in Step(s, e).store.messages && Step(s, e).store.messages[id].attempts >= MAX_DELIVERY_ATTEMPTS
    ensures !AwaitsAcceptance(Step(s, e).store.messages[id].state)
  {
    if e.Commit? {
      assert SnapshotOk(s, s.loops[e.loop]) && PointOk(s.loops[e.loop]);
      assert !CanCommitPending(s, id, e.loop);
    }
  }

  lemma ExhaustedStays(s: System, e: Event, id: Id)
    requires Inv(s) && Enabled(s, e) && Exhausted(s, id)
    ensures Exhausted(Step(s, e), id) && !Marks(s, e, id, PendingCommitted)
  {
    var t := Step(s, e);
    LastAttemptStays(s, e, id);
    forall l ensures !CanCommitPending(t, id, l) {
      assert !CanCommitPending(s, id, l);
      if l in t.loops && t.loops[l].id == id && t.loops[l].point.MustCommitPending? && !(ByLoop(e) && e.loop == l) {
        StepTouchesOneLoop(s, e, l);
        RefusedPendingStaysRefused(s, e, id, l);
      }
    }
  }

  lemma {:induction false} ExhaustedNeverPends(s: System, events: seq<Event>, id: Id)
    requires Inv(s) && Run(s, events) && Exhausted(s, id)
    ensures Count(s, events, id, PendingCommitted) == 0
    decreases |events|
  {
    if events == [] {
    } else {
      StepKeepsInv(s, events[0]);
      ExhaustedStays(s, events[0], id);
      ExhaustedNeverPends(Step(s, events[0]), events[1..], id);
    }
  }

  lemma QuietMeansRetriesFirst(s: System, id: Id)
    requires Inv(s) && id in s.store.messages && ReadyLoops(s, id) == {} && !MayPend(s, id)
    ensures RetriesFirst(s, id)
  {
    forall events | Run(s, events)
      ensures Count(s, events, id, DeliverCalled) <= Count(s, events, id, RetryCommitted)
    {
      DeliveryLedger(s, events, id);
      if Unspent(s, id) == 1 {
        ExhaustedNeverPends(s, events, id);
      }
    }
  }

  // ---------------------------------------------------------------------------------------------
  // Needed: otherwise some continuation delivers without a retry
  // ---------------------------------------------------------------------------------------------

  /** The run delivers `id` more often than it retries it. */
  ghost predicate Outruns(s: System, events: seq<Event>, id: Id) {
    Run(s, events) && Count(s, events, id, DeliverCalled) > Count(s, events, id, RetryCommitted)
  }

  lemma OutrunsAfter(s: System, e: Event, rest: seq<Event>, id: Id)
    requires Enabled(s, e) && !Marks(s, e, id, RetryCommitted) && Outruns(Step(s, e), rest, id)
    ensures Outruns(s, [e] + rest, id)
  {
    assert ([e] + rest)[1..] == rest;
  }

  lemma ReadyLoopOutruns(s: System, id: Id, l: LoopId)
    requires l in ReadyLoops(s, id)
    ensures Outruns(s, [CallDriver(l)], id)
  {
    var t := Step(s, CallDriver(l));
    assert [CallDriver(l)][1..] == [];
    assert Run(t, []) && Count(t, [], id, DeliverCalled) == 0;
  }

  lemma CommittingLoopOutruns(s: System, id: Id, l: LoopId) returns (events: seq<Event>)
    requires CanCommitPending(s, id, l)
    ensures Outruns(s, events, id)
  {
    var t := Step(s, Commit(l, 0));
    assert l in ReadyLoops(t, id);
    ReadyLoopOutruns(t, id, l);
    OutrunsAfter(s, Commit(l, 0), [CallDriver(l)], id);
    events := [Commit(l, 0)] + [CallDriver(l)];
  }

  /** `id` could be leased afresh if it were the only unfinished message. */
  predicate Leasable(s: System, id: Id) {
    && id in s.store.messages && s.store.messages[id].attempts < MAX_DELIVERY_ATTEMPTS
    && Eligible(s.store, s.store.messages[id].state)
  }

  function OthersUnfinished(s: System, id: Id): set<Id> {
    set other | other in s.store.messages && other != id && !Terminal(s.store.messages[other].state)
  }

  lemma AloneOutruns(s: System, id: Id) returns (events: seq<Event>)
    requires Leasable(s, id) && OthersUnfinished(s, id) == {}
    ensures Outruns(s, events, id)
  {
    var l := Unused(s.loops.Keys);
    var attempt := Unused(s.attempts);
    var lease := LeaseNext(l, id, attempt, s.store.now + 1);
    assert SelectedFresh(s.store, id) by {
      forall other | other in s.store.messages && other != id ensures Terminal(s.store.messages[other].state) {
        assert other !in OthersUnfinished(s, id);
      }
    }
    var t := Step(s, lease);
    assert CanCommitPending(t, id, l);
    var rest := CommittingLoopOutruns(t, id, l);
    OutrunsAfter(s, lease, rest, id);
    events := [lease] + rest;
  }

  lemma {:induction false} LeasableOutruns(s: System, id: Id) returns (events: seq<Event>)
    requires Leasable(s, id)
    ensures Outruns(s, events, id)
    decreases OthersUnfinished(s, id)
  {
    if OthersUnfinished(s, id) == {} {
      events := AloneOutruns(s, id);
    } else {
      var other :| other in OthersUnfinished(s, id);
      var t := Step(s, Retire(other));
      assert OthersUnfinished(t, id) == OthersUnfinished(s, id) - {other};
      var rest := LeasableOutruns(t, id);
      OutrunsAfter(s, Retire(other), rest, id);
      events := [Retire(other)] + rest;
    }
  }

  /** The time from which a message that may still be leased is eligible. */
  function RipeAt(st: Store, state: State): Time {
    match state
    case RetryScheduled(t) => if t < st.now then st.now else t
    case Leased(lease) => if lease.expires < st.now then st.now else lease.expires
    case _ => st.now
  }

  lemma MayPendOutruns(s: System, id: Id) returns (events: seq<Event>)
    requires id in s.store.messages && MayPend(s, id)
    ensures Outruns(s, events, id)
  {
    if l :| CanCommitPending(s, id, l) {
      events := CommittingLoopOutruns(s, id, l);
    } else {
      var tick := Tick(RipeAt(s.store, s.store.messages[id].state));
      var rest := LeasableOutruns(Step(s, tick), id);
      OutrunsAfter(s, tick, rest, id);
      events := [tick] + rest;
    }
  }

  // ---------------------------------------------------------------------------------------------
  // The exact condition
  // ---------------------------------------------------------------------------------------------

  /**
    From a given state on, every delivery call of a message has its own durable retry, in every
    continuation, exactly when no loop is about to deliver it and no pending commit of it is
    possible without a retry.
  */
  lemma RetryFirstExactly(s: System, id: Id)
    requires Inv(s) && id in s.store.messages
    ensures RetriesFirst(s, id) <==> ReadyLoops(s, id) == {} && !MayPend(s, id)
  {
    if l :| l in ReadyLoops(s, id) {
      ReadyLoopOutruns(s, id, l);
      assert !RetriesFirst(s, id);
    } else if MayPend(s, id) {
      var events := MayPendOutruns(s, id);
      assert !RetriesFirst(s, id);
    } else {
      QuietMeansRetriesFirst(s, id);
    }
  }

  /**
    The same at a delivery call: the next one is separated from it by a durable retry, in every
    continuation, exactly when the calling loop is the only one about to deliver the message and
    no pending commit of it is possible without a retry.
  */
  lemma DeliveriesSeparatedExactly(s: System, l: LoopId, id: Id)
    requires Inv(s) && Marks(s, CallDriver(l), id, DeliverCalled)
    ensures RetriesFirst(Step(s, CallDriver(l)), id) <==> ReadyLoops(s, id) == {l} && !MayPend(s, id)
  {
    var t := Step(s, CallDriver(l));
    StepKeepsInv(s, CallDriver(l));
    assert SnapshotOk(s, s.loops[l]);
    assert ReadyLoops(t, id) == ReadyLoops(s, id) - {l};
    assert l in ReadyLoops(s, id);
    forall k ensures CanCommitPending(t, id, k) <==> CanCommitPending(s, id, k) {
      if k != l {
        StepTouchesOneLoop(s, CallDriver(l), k);
      }
    }
    RetryFirstExactly(t, id);
  }
}
