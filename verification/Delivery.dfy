/**
  Any number of delivery loops on one mailbox, interleaved with each other, with enqueues, clock
  advances, ownership takeovers and retirements, and able to stop between any two steps.

  Each loop is one `drive_once` call, named by a `LoopId` while it runs; its `point` says which step
  of `reconcile` comes next, and `snap` is the snapshot it works from. A failed permit check, a
  store error and a dropped future all end the call without effect: `Stop`.
*/
module Delivery {
  import opened Wrappers
  import opened Mailbox
  import opened Sets

  type LoopId = nat

  /** `DriverFailed` stands for an error and for the elapsed call timeout. */
  datatype Observation = SaidAccepted | SaidNotAccepted | SaidUnknown | DriverFailed

  datatype Point =
    | MustCommitPending
    | MustDeliver
    | Delivering
    | MustQuery
    | Querying
    | Answered(observation: Observation, adopted: bool)
    | MustRequery
    | Requerying
    | Reanswered(observation: Observation)

  datatype Local = Local(epoch: Epoch, id: Id, snap: Message, point: Point)

  datatype System = System(store: Store, loops: map<LoopId, Local>, attempts: set<Attempt>)

  datatype Event =
    | Enqueue(id: Id)
    | Tick(time: Time)
    | Takeover(epoch: Epoch)
    | Retire(id: Id)
    | LeaseNext(loop: LoopId, id: Id, attempt: Attempt, expires: Time)
    | Commit(loop: LoopId, notBefore: Time)
    | CallDriver(loop: LoopId)
    | Answer(loop: LoopId, observation: Observation)
    | Stop(loop: LoopId)

  /** The transition a loop asks for next, if any. */
  function Intent(l: Local, notBefore: Time): Option<Transition> {
    match l.point
    case MustCommitPending => Some(ToPending)
    case Answered(SaidAccepted, _) => Some(ToAccepted)
    case Answered(SaidNotAccepted, _) =>
      Some(if l.snap.attempts >= MAX_DELIVERY_ATTEMPTS then ToDeadLetter else ToRetry(notBefore))
    case Answered(_, false) => Some(ToUnknown)
    case Answered(_, true) => Some(ToUncertain)
    case Reanswered(SaidAccepted) => Some(ToAccepted)
    case Reanswered(SaidNotAccepted) => Some(ToRetry(notBefore))
    case _ => None
  }

  function Committed(s: System, l: Local, notBefore: Time): Option<Message> {
    match Intent(l, notBefore)
    case None => None
    case Some(t) =>
      if !HoldsLease(l.snap.state) then None
      else Transitioned(s.store, l.epoch, l.id, l.snap.state.lease.attempt, l.snap.revision, t)
  }

  /** Where the call goes on after its transition committed; nothing when it returns. */
  function AfterCommit(l: Local): Option<Point> {
    match l.point
    case MustCommitPending => Some(MustDeliver)
    case Answered(SaidUnknown, false) => Some(MustRequery)
    case Answered(DriverFailed, false) => Some(MustRequery)
    case _ => None
  }

  function AfterCall(p: Point): Option<Point> {
    match p
    case MustDeliver => Some(Delivering)
    case MustQuery => Some(Querying)
    case MustRequery => Some(Requerying)
    case _ => None
  }

  function AfterAnswer(p: Point, o: Observation): Option<Point> {
    match p
    case Delivering => Some(Answered(o, false))
    case Querying => Some(Answered(o, true))
    case Requerying => Some(Reanswered(o))
    case _ => None
  }

  predicate Enabled(s: System, e: Event) {
    match e
    case Enqueue(id) =>
      id !in s.store.messages && forall other :: other in s.store.messages ==> other.sequence < id.sequence
    case Tick(t) => t >= s.store.now
    case Takeover(epoch) => epoch > s.store.epoch
    case Retire(id) => id in s.store.messages && !Terminal(s.store.messages[id].state)
    case LeaseNext(l, id, attempt, expires) =>
      && l !in s.loops && attempt !in s.attempts && expires > s.store.now
      && (SelectedForRecovery(s.store, id) || SelectedFresh(s.store, id))
    case Commit(l, t) => l in s.loops && Committed(s, s.loops[l], t).Some?
    case CallDriver(l) => l in s.loops && AfterCall(s.loops[l].point).Some?
    case Answer(l, o) => l in s.loops && AfterAnswer(s.loops[l].point, o).Some?
    case Stop(l) => l in s.loops
  }

  function Leasing(s: System, l: LoopId, id: Id, attempt: Attempt, expires: Time): System
    requires id in s.store.messages
  {
    var m := LeasedMessage(s.store, s.store.messages[id], attempt, expires);
    var loops :=
      match m.state
      case Leased(_) => s.loops[l := Local(s.store.epoch, id, m, MustCommitPending)]
      case AcceptancePending(_) => s.loops[l := Local(s.store.epoch, id, m, MustQuery)]
      case AcceptanceUnknown(_) => s.loops[l := Local(s.store.epoch, id, m, MustQuery)]
      case _ => s.loops;
    System(Put(s.store, id, m), loops, s.attempts + {attempt})
  }

  function Committing(s: System, l: LoopId, m: Message): System
    requires l in s.loops
  {
    var local := s.loops[l];
    s.(store := Put(s.store, local.id, m),
       loops := match AfterCommit(local)
                case Some(p) => s.loops[l := local.(snap := m, point := p)]
                case None => s.loops - {l})
  }

  function Step(s: System, e: Event): System
    requires Enabled(s, e)
  {
    match e
    case Enqueue(id) => s.(store := Put(s.store, id, Message(0, Queued, 1)))
    case Tick(t) => s.(store := s.store.(now := t))
    case Takeover(epoch) => s.(store := s.store.(epoch := epoch))
    case Retire(id) => s.(store := Put(s.store, id, Retired(s.store.messages[id])))
    case LeaseNext(l, id, attempt, expires) => Leasing(s, l, id, attempt, expires)
    case Commit(l, t) => Committing(s, l, Committed(s, s.loops[l], t).value)
    case CallDriver(l) => s.(loops := s.loops[l := s.loops[l].(point := AfterCall(s.loops[l].point).value)])
    case Answer(l, o) => s.(loops := s.loops[l := s.loops[l].(point := AfterAnswer(s.loops[l].point, o).value)])
    case Stop(l) => s.(loops := s.loops - {l})
  }

  predicate Run(s: System, events: seq<Event>)
    decreases |events|
  {
    events == [] || (Enabled(s, events[0]) && Run(Step(s, events[0]), events[1..]))
  }

  function After(s: System, events: seq<Event>): System
    requires Run(s, events)
    decreases |events|
  {
    if events == [] then s else After(Step(s, events[0]), events[1..])
  }

  const EmptyMailbox: System := System(Store(0, 1, map[]), map[], {})

  // ---------------------------------------------------------------------------------------------
  // The invariant
  // ---------------------------------------------------------------------------------------------

  /** The snapshot is the last record this loop wrote: nobody can have moved the revision and kept it. */
  ghost predicate SnapshotOk(s: System, local: Local) {
    && local.id in s.store.messages
    && var m := s.store.messages[local.id];
    && HoldsLease(local.snap.state)
    && local.snap.state.lease.epoch == local.epoch <= s.store.epoch
    && local.snap.revision <= m.revision
    && (local.snap.revision == m.revision ==> local.snap == m)
    && local.snap.state.lease.attempt in s.attempts
    && local.snap.attempts <= m.attempts
  }

  ghost predicate PointOk(local: Local) {
    match local.point
    case MustCommitPending => local.snap.state.Leased?
    case MustDeliver => local.snap.state.AcceptancePending?
    case Delivering => local.snap.state.AcceptancePending?
    case Answered(_, false) => local.snap.state.AcceptancePending?
    case MustQuery => AwaitsAcceptance(local.snap.state)
    case Querying => AwaitsAcceptance(local.snap.state)
    case Answered(_, true) => AwaitsAcceptance(local.snap.state)
    case MustRequery => local.snap.state.AcceptanceUnknown?
    case Requerying => local.snap.state.AcceptanceUnknown?
    case Reanswered(_) => local.snap.state.AcceptanceUnknown?
  }

  /** Before its delivery call a loop owns its attempt: no other loop may still deliver under it. */
  predicate OwnsAttempt(local: Local) {
    local.point.MustCommitPending? || local.point.MustDeliver?
  }

  predicate InFlight(st: Store, id: Id) {
    id in st.messages &&
    var state := st.messages[id].state;
    AwaitsAcceptance(state) || (state.Leased? && st.now < state.lease.expires)
  }

  ghost predicate SnapshotsOk(s: System) {
    forall l :: l in s.loops ==> SnapshotOk(s, s.loops[l]) && PointOk(s.loops[l])
  }

  ghost predicate AttemptsOwned(s: System) {
    forall k, l ::
      (&& k in s.loops && l in s.loops && OwnsAttempt(s.loops[k]) && OwnsAttempt(s.loops[l])
       && HoldsLease(s.loops[k].snap.state) && HoldsLease(s.loops[l].snap.state)
       && s.loops[k].snap.state.lease.attempt == s.loops[l].snap.state.lease.attempt)
      ==> k == l
  }

  ghost predicate RecordOk(s: System, m: Message) {
    && m.attempts <= MAX_DELIVERY_ATTEMPTS
    && (HoldsLease(m.state) ==> m.state.lease.attempt in s.attempts && m.attempts > 0)
  }

  ghost predicate RecordsOk(s: System) {
    forall id :: id in s.store.messages ==> RecordOk(s, s.store.messages[id])
  }

  ghost predicate OneInFlight(st: Store) {
    forall a, b :: InFlight(st, a) && InFlight(st, b) ==> a == b
  }

  predicate Before(a: Id, b: Id) {
    a.ordinary == b.ordinary && a.sequence < b.sequence
  }

  /** A message has been attempted only after every earlier one of its class was finished. */
  ghost predicate InOrder(st: Store) {
    forall a, b :: a in st.messages && b in st.messages && Before(a, b) && st.messages[b].attempts > 0
      ==> Terminal(st.messages[a].state)
  }

  ghost predicate Inv(s: System) {
    SnapshotsOk(s) && AttemptsOwned(s) && RecordsOk(s) && OneInFlight(s.store) && InOrder(s.store)
  }

  /** The store part of the invariant survives any update of an unfinished record that respects it. */
  lemma UpdateKeepsStore(st: Store, id: Id, m: Message)
    requires OneInFlight(st) && InOrder(st)
    requires id in st.messages && !Terminal(st.messages[id].state)
    requires m.attempts > 0 ==> st.messages[id].attempts > 0 || IsHead(st, id)
    requires InFlight(Put(st, id, m), id) ==> InFlight(st, id) || forall other :: !InFlight(st, other)
    ensures OneInFlight(Put(st, id, m)) && InOrder(Put(st, id, m))
  {
    var st' := Put(st, id, m);
    forall other | other != id ensures InFlight(st', other) <==> InFlight(st, other) {
    }
    forall a, b | a in st'.messages && b in st'.messages && Before(a, b) && st'.messages[b].attempts > 0
      ensures Terminal(st'.messages[a].state)
    {
      assert Earlier(a, b);
    }
  }

  /** The snapshots of the other loops survive any update that raises the revision. */
  lemma UpdateKeepsSnapshots(s: System, s': System)
    requires SnapshotsOk(s) && s.attempts <= s'.attempts && s.store.epoch <= s'.store.epoch
    requires forall id :: id in s.store.messages ==> id in s'.store.messages
    requires forall id :: id in s.store.messages ==>
      s'.store.messages[id] == s.store.messages[id]
      || (s'.store.messages[id].revision > s.store.messages[id].revision
          && s'.store.messages[id].attempts >= s.store.messages[id].attempts)
    requires forall l :: l in s'.loops ==>
      (l in s.loops && s'.loops[l] == s.loops[l]) || (SnapshotOk(s', s'.loops[l]) && PointOk(s'.loops[l]))
    ensures SnapshotsOk(s')
  {
    forall l | l in s'.loops && l in s.loops && s'.loops[l] == s.loops[l]
      ensures SnapshotOk(s', s'.loops[l]) && PointOk(s'.loops[l])
    {
      assert SnapshotOk(s, s.loops[l]) && PointOk(s.loops[l]);
    }
  }

  lemma LeaseKeepsRecords(s: System, e: Event)
    requires Inv(s) && e.LeaseNext? && Enabled(s, e)
    ensures RecordsOk(Step(s, e))
  {
    var s' := Step(s, e);
    assert RecordOk(s, s.store.messages[e.id]);
    forall id | id in s'.store.messages ensures RecordOk(s', s'.store.messages[id]) {
      if id != e.id { assert RecordOk(s, s.store.messages[id]); }
    }
  }

  lemma LeaseKeepsOwners(s: System, e: Event)
    requires Inv(s) && e.LeaseNext? && Enabled(s, e)
    ensures AttemptsOwned(Step(s, e))
  {
    forall l | l in s.loops ensures SnapshotOk(s, s.loops[l]) {
    }
  }

  lemma LeaseKeepsStore(s: System, e: Event)
    requires Inv(s) && e.LeaseNext? && Enabled(s, e)
    ensures OneInFlight(Step(s, e).store) && InOrder(Step(s, e).store)
  {
    if SelectedFresh(s.store, e.id) {
      forall other ensures !InFlight(s.store, other) {
        assert !Recoverable(s.store, other);
      }
    }
    UpdateKeepsStore(s.store, e.id, Step(s, e).store.messages[e.id]);
  }

  lemma LeaseKeepsInv(s: System, e: Event)
    requires Inv(s) && e.LeaseNext? && Enabled(s, e)
    ensures Inv(Step(s, e))
  {
    assert RecordOk(s, s.store.messages[e.id]);
    LeaseKeepsRecords(s, e);
    LeaseKeepsOwners(s, e);
    LeaseKeepsStore(s, e);
    UpdateKeepsSnapshots(s, Step(s, e));
  }

  lemma CommitKeepsInv(s: System, e: Event)
    requires Inv(s) && e.Commit? && Enabled(s, e)
    ensures Inv(Step(s, e))
  {
    var s' := Step(s, e);
    var local := s.loops[e.loop];
    assert SnapshotOk(s, local) && PointOk(local);
    var m := s.store.messages[local.id];
    var m' := s'.store.messages[local.id];
    assert m == local.snap;
    assert RecordOk(s, m);
    assert RecordsOk(s') by {
      forall id | id in s'.store.messages ensures RecordOk(s', s'.store.messages[id]) {
        if id != local.id { assert RecordOk(s, s.store.messages[id]); }
      }
    }
    UpdateKeepsStore(s.store, local.id, m');
    UpdateKeepsSnapshots(s, s');
  }

  lemma StoreOnlyKeepsInv(s: System, e: Event)
    requires Inv(s) && (e.Enqueue? || e.Tick? || e.Takeover? || e.Retire?) && Enabled(s, e)
    ensures Inv(Step(s, e))
  {
    var s' := Step(s, e);
    assert RecordsOk(s') by {
      forall id | id in s'.store.messages ensures RecordOk(s', s'.store.messages[id]) {
        if id in s.store.messages { assert RecordOk(s, s.store.messages[id]); }
      }
    }
    if e.Retire? {
      UpdateKeepsStore(s.store, e.id, s'.store.messages[e.id]);
    } else {
      forall id ensures InFlight(s'.store, id) ==> InFlight(s.store, id) {
      }
    }
    UpdateKeepsSnapshots(s, s');
  }

  lemma LoopOnlyKeepsInv(s: System, e: Event)
    requires Inv(s) && (e.CallDriver? || e.Answer? || e.Stop?) && Enabled(s, e)
    ensures Inv(Step(s, e))
  {
    var s' := Step(s, e);
    var local := s.loops[e.loop];
    assert SnapshotOk(s, local) && PointOk(local);
    if !e.Stop? {
      DriverKeepsPoint(local, s'.loops[e.loop].point);
    }
    UpdateKeepsSnapshots(s, s');
  }

  lemma DriverKeepsPoint(local: Local, p: Point)
    requires PointOk(local)
    requires AfterCall(local.point) == Some(p) || exists o :: AfterAnswer(local.point, o) == Some(p)
    ensures PointOk(local.(point := p)) && !OwnsAttempt(local.(point := p))
  {
  }

  lemma StepKeepsInv(s: System, e: Event)
    requires Inv(s) && Enabled(s, e)
    ensures Inv(Step(s, e))
  {
    match e
    case LeaseNext(_, _, _, _) => LeaseKeepsInv(s, e);
    case Commit(_, _) => CommitKeepsInv(s, e);
    case Enqueue(_) => StoreOnlyKeepsInv(s, e);
    case Tick(_) => StoreOnlyKeepsInv(s, e);
    case Takeover(_) => StoreOnlyKeepsInv(s, e);
    case Retire(_) => StoreOnlyKeepsInv(s, e);
    case CallDriver(_) => LoopOnlyKeepsInv(s, e);
    case Answer(_, _) => LoopOnlyKeepsInv(s, e);
    case Stop(_) => LoopOnlyKeepsInv(s, e);
  }

  lemma {:induction false} RunKeepsInv(s: System, events: seq<Event>)
    requires Inv(s) && Run(s, events)
    ensures Inv(After(s, events))
    decreases |events|
  {
    if events == [] {
    } else {
      StepKeepsInv(s, events[0]);
      RunKeepsInv(Step(s, events[0]), events[1..]);
    }
  }

  // ---------------------------------------------------------------------------------------------
  // What the durable record becomes
  // ---------------------------------------------------------------------------------------------

  predicate Doubtful(o: Observation) {
    o.SaidUnknown? || o.DriverFailed?
  }

  /** The state a commit writes, by the loop's own snapshot and what the Driver answered it. */
  predicate Follows(l: Local, notBefore: Time, state: State)
    requires HoldsLease(l.snap.state)
  {
    var lease := l.snap.state.lease;
    match l.point
    case MustCommitPending => state == AcceptancePending(lease)
    case Answered(o, adopted) =>
      if o.SaidAccepted? then state == Accepted(lease.attempt)
      else if o.SaidNotAccepted? then
        state == if l.snap.attempts >= MAX_DELIVERY_ATTEMPTS then DeadLetter else RetryScheduled(notBefore)
      else state == if adopted then Uncertain(lease.attempt) else AcceptanceUnknown(lease)
    case Reanswered(o) =>
      if o.SaidAccepted? then state == Accepted(lease.attempt)
      else o.SaidNotAccepted? && state == RetryScheduled(notBefore)
    case _ => false
  }

  /** Nothing but the record of `id` differs. */
  predicate OnlyChanges(st: Store, st': Store, id: Id) {
    id in st'.messages && st' == st.(messages := st.messages[id := st'.messages[id]])
  }

  /** A commit writes what the Driver's answer calls for, on the record of the loop's message alone. */
  lemma CommitFollowsAnswer(s: System, e: Event)
    requires Inv(s) && e.Commit? && Enabled(s, e)
    ensures var l, st, st' := s.loops[e.loop], s.store, Step(s, e).store;
            && HoldsLease(l.snap.state) && l.id in st.messages && OnlyChanges(st, st', l.id)
            && Follows(l, e.notBefore, st'.messages[l.id].state)
            && st'.messages[l.id].attempts == l.snap.attempts == st.messages[l.id].attempts
            && st'.messages[l.id].revision == st.messages[l.id].revision + 1
  {
    assert SnapshotOk(s, s.loops[e.loop]) && PointOk(s.loops[e.loop]);
  }

  /**
    A lease adopts an awaited attempt under its own identity and the current epoch, opens a new
    attempt while there are attempts left, and otherwise dead-letters the message.
  */
  lemma LeaseFollowsRecord(s: System, e: Event)
    requires e.LeaseNext? && Enabled(s, e)
    ensures var st, st' := s.store, Step(s, e).store;
            && e.id in st.messages && OnlyChanges(st, st', e.id)
            && var m, m' := st.messages[e.id], st'.messages[e.id];
            && m'.revision == m.revision + 1
            && (AwaitsAcceptance(m.state) ==>
                  && m'.attempts == m.attempts && AwaitsAcceptance(m'.state)
                  && (m'.state.AcceptancePending? <==> m.state.AcceptancePending?)
                  && m'.state.lease == Lease(m.state.lease.attempt, st.epoch, e.expires))
            && (!AwaitsAcceptance(m.state) && m.attempts < MAX_DELIVERY_ATTEMPTS ==>
                  m'.attempts == m.attempts + 1 && m'.state == Leased(Lease(e.attempt, st.epoch, e.expires)))
            && (!AwaitsAcceptance(m.state) && m.attempts >= MAX_DELIVERY_ATTEMPTS ==>
                  m'.attempts == m.attempts && m'.state == DeadLetter)
  {
  }

  /**
    Adoption comes first, in mailbox order; a new attempt is only for the head, with nothing else in
    flight and not before its retry time.
  */
  lemma LeaseFollowsOrder(s: System, e: Event)
    requires Inv(s) && e.LeaseNext? && Enabled(s, e)
    ensures var st := s.store;
            if AwaitsAcceptance(st.messages[e.id].state) then
              && st.messages[e.id].state.lease.expires <= st.now
              && forall other :: Recoverable(st, other) ==> other == e.id
            else
              && (forall other :: !InFlight(st, other))
              && (forall other :: other in st.messages && Earlier(other, e.id) ==> Terminal(st.messages[other].state))
              && !Terminal(st.messages[e.id].state)
              && (st.messages[e.id].state.RetryScheduled? ==> st.messages[e.id].state.notBefore <= st.now)
  {
    if AwaitsAcceptance(s.store.messages[e.id].state) {
      forall other | Recoverable(s.store, other) ensures other == e.id {
        assert InFlight(s.store, other) && InFlight(s.store, e.id);
      }
    } else {
      forall other ensures !InFlight(s.store, other) {
        assert !Recoverable(s.store, other);
      }
    }
  }

  /** A message whose operation ended is uncertain if the Driver may hold it, and dead otherwise. */
  lemma RetirementFollowsRecord(s: System, e: Event)
    requires e.Retire? && Enabled(s, e)
    ensures var st, st' := s.store, Step(s, e).store;
            && OnlyChanges(st, st', e.id)
            && var m, m' := st.messages[e.id], st'.messages[e.id];
            && m'.attempts == m.attempts && m'.revision == m.revision + 1
            && m'.state == if AwaitsAcceptance(m.state) then Uncertain(m.state.lease.attempt) else DeadLetter
  {
  }

  lemma DeadLetterStep(s: System, e: Event, id: Id)
    requires Inv(s) && Enabled(s, e) && !Record(s, id).state.DeadLetter? && Record(Step(s, e), id).state.DeadLetter?
    ensures e == Retire(id) || Record(Step(s, e), id).attempts >= MAX_DELIVERY_ATTEMPTS
  {
    if e.Commit? {
      CommitFollowsAnswer(s, e);
    }
  }

  /** In every run a message is dead-lettered only with its attempts used up, or because its operation ended. */
  lemma {:induction false} DeadOnlyWhenExhausted(s: System, events: seq<Event>, id: Id)
    requires Inv(s) && Run(s, events)
    requires !Record(s, id).state.DeadLetter? && Record(After(s, events), id).state.DeadLetter?
    ensures Retire(id) in events || Record(After(s, events), id).attempts >= MAX_DELIVERY_ATTEMPTS
    decreases |events|
  {
    var t := Step(s, events[0]);
    StepKeepsInv(s, events[0]);
    if Record(t, id).state.DeadLetter? {
      DeadLetterStep(s, events[0], id);
      FinishedForever(t, events[1..], id);
    } else {
      DeadOnlyWhenExhausted(t, events[1..], id);
    }
  }

  // ---------------------------------------------------------------------------------------------
  // Counting deliveries
  // ---------------------------------------------------------------------------------------------

  datatype Mark = PendingCommitted | RetryCommitted | DeliverCalled | Refused

  /** Event `e` at `s` is one of the four landmarks in the life of message `id`. */
  predicate Marks(s: System, e: Event, id: Id, k: Mark) {
    match k
    case PendingCommitted =>
      e.Commit? && e.loop in s.loops && s.loops[e.loop].id == id && s.loops[e.loop].point.MustCommitPending?
    case RetryCommitted =>
      && e.Commit? && e.loop in s.loops && s.loops[e.loop].id == id
      && Intent(s.loops[e.loop], e.notBefore) == Some(ToRetry(e.notBefore))
    case DeliverCalled =>
      e.CallDriver? && e.loop in s.loops && s.loops[e.loop].id == id && s.loops[e.loop].point.MustDeliver?
    case Refused =>
      e.Answer? && e.loop in s.loops && s.loops[e.loop].id == id && e.observation == SaidNotAccepted
  }

  ghost function Count(s: System, events: seq<Event>, id: Id, k: Mark): nat
    requires Run(s, events)
    decreases |events|
  {
    if events == [] then 0 else
      (if Marks(s, events[0], id, k) then 1 else 0) + Count(Step(s, events[0]), events[1..], id, k)
  }

  /** The record of `id`; a message that is not enqueued yet counts as unattempted. */
  function Record(s: System, id: Id): Message {
    if id in s.store.messages then s.store.messages[id] else Message(0, Queued, 1)
  }

  /** A pending commit is still possible without a further retry. */
  function Unspent(s: System, id: Id): nat {
    var state := Record(s, id).state;
    if state.Queued? || state.RetryScheduled? || state.Leased? then 1 else 0
  }

  function LeasedBit(s: System, id: Id): nat {
    if Record(s, id).state.Leased? then 1 else 0
  }

  function ReadyLoops(s: System, id: Id): set<LoopId> {
    set l | l in s.loops && s.loops[l].id == id && s.loops[l].point.MustDeliver?
  }

  predicate RefusedPoint(p: Point) {
    (p.Answered? || p.Reanswered?) && p.observation == SaidNotAccepted
  }

  function RefusedLoops(s: System, id: Id): set<LoopId> {
    set l | l in s.loops && s.loops[l].id == id && RefusedPoint(s.loops[l].point)
  }

  function Bit(b: bool): nat {
    if b then 1 else 0
  }

  lemma StepSpendsUnspent(s: System, e: Event, id: Id)
    requires Inv(s) && Enabled(s, e)
    ensures Bit(Marks(s, e, id, PendingCommitted)) + Unspent(Step(s, e), id)
            <= Bit(Marks(s, e, id, RetryCommitted)) + Unspent(s, id)
    ensures Bit(Marks(s, e, id, PendingCommitted)) + Record(s, id).attempts + LeasedBit(Step(s, e), id)
            <= Record(Step(s, e), id).attempts + LeasedBit(s, id)
  {
    if e.Commit? {
      assert SnapshotOk(s, s.loops[e.loop]) && PointOk(s.loops[e.loop]);
    }
  }

  lemma SetMoves(a: set<LoopId>, b: set<LoopId>, l: LoopId, gained: bool, lost: bool)
    requires b <= a + (if gained then {l} else {})
    requires lost ==> l in a && l !in b
    ensures |b| + Bit(lost) <= |a| + Bit(gained)
  {
    SubsetIsSmaller(b - {l}, a - {l});
  }

  predicate ByLoop(e: Event) {
    e.LeaseNext? || e.Commit? || e.CallDriver? || e.Answer? || e.Stop?
  }

  /** A step touches at most the loop that takes it. */
  lemma StepTouchesOneLoop(s: System, e: Event, k: LoopId)
    requires Enabled(s, e) && (ByLoop(e) ==> k != e.loop)
    ensures k in Step(s, e).loops <==> k in s.loops
    ensures k in s.loops ==> Step(s, e).loops[k] == s.loops[k]
  {
  }

  lemma ReadyOnlyByCommit(s: System, e: Event, id: Id, k: LoopId)
    requires Enabled(s, e) && k in ReadyLoops(Step(s, e), id) && k !in ReadyLoops(s, id)
    ensures Marks(s, e, id, PendingCommitted) && k == e.loop
  {
    if !ByLoop(e) || k != e.loop {
      StepTouchesOneLoop(s, e, k);
    } else {
      match e
      case LeaseNext(_, _, _, _) =>
      case Commit(_, _) =>
      case CallDriver(_) =>
      case Answer(_, _) =>
      case Stop(_) =>
    }
  }

  lemma StepSpendsReady(s: System, e: Event, id: Id)
    requires Inv(s) && Enabled(s, e)
    ensures Bit(Marks(s, e, id, DeliverCalled)) + |ReadyLoops(Step(s, e), id)|
            <= Bit(Marks(s, e, id, PendingCommitted)) + |ReadyLoops(s, id)|
  {
    var gained, lost := Marks(s, e, id, PendingCommitted), Marks(s, e, id, DeliverCalled);
    var l := if ByLoop(e) then e.loop else 0;
    forall k | k in ReadyLoops(Step(s, e), id) && k !in ReadyLoops(s, id) ensures gained && k == l {
      ReadyOnlyByCommit(s, e, id, k);
    }
    SetMoves(ReadyLoops(s, id), ReadyLoops(Step(s, e), id), l, gained, lost);
  }

  lemma RefusedOnlyByAnswer(s: System, e: Event, id: Id, k: LoopId)
    requires Enabled(s, e) && k in RefusedLoops(Step(s, e), id) && k !in RefusedLoops(s, id)
    ensures Marks(s, e, id, Refused) && k == e.loop
  {
    if !ByLoop(e) || k != e.loop {
      StepTouchesOneLoop(s, e, k);
    } else {
      match e
      case LeaseNext(_, _, _, _) =>
      case Commit(_, _) =>
      case CallDriver(_) =>
      case Answer(_, _) =>
      case Stop(_) =>
    }
  }

  lemma RetryLeavesLoop(s: System, e: Event, id: Id)
    requires Enabled(s, e) && Marks(s, e, id, RetryCommitted)
    ensures e.loop in RefusedLoops(s, id) && e.loop !in RefusedLoops(Step(s, e), id)
  {
  }

  lemma StepSpendsRefusals(s: System, e: Event, id: Id)
    requires Enabled(s, e)
    ensures Bit(Marks(s, e, id, RetryCommitted)) + |RefusedLoops(Step(s, e), id)|
            <= Bit(Marks(s, e, id, Refused)) + |RefusedLoops(s, id)|
  {
    var gained, lost := Marks(s, e, id, Refused), Marks(s, e, id, RetryCommitted);
    var l := if ByLoop(e) then e.loop else 0;
    var before, after := RefusedLoops(s, id), RefusedLoops(Step(s, e), id);
    forall k | k in after && k !in before ensures gained && k == l {
      RefusedOnlyByAnswer(s, e, id, k);
    }
    if lost {
      RetryLeavesLoop(s, e, id);
    }
    SetMoves(before, after, l, gained, lost);
  }

  /**
    The delivery ledger of one message over any stretch of any run. Each delivery call has its own
    earlier durable pending commit, each further pending commit its own earlier durable retry, each
    retry its own earlier `NotAccepted` answer, and each pending commit its own leased attempt.
  */
  lemma {:induction false} DeliveryLedger(s: System, events: seq<Event>, id: Id)
    requires Inv(s) && Run(s, events)
    ensures var t := After(s, events);
            && Count(s, events, id, DeliverCalled) + |ReadyLoops(t, id)|
               <= Count(s, events, id, PendingCommitted) + |ReadyLoops(s, id)|
            && Count(s, events, id, PendingCommitted) + Unspent(t, id)
               <= Count(s, events, id, RetryCommitted) + Unspent(s, id)
            && Count(s, events, id, RetryCommitted) + |RefusedLoops(t, id)|
               <= Count(s, events, id, Refused) + |RefusedLoops(s, id)|
            && Count(s, events, id, PendingCommitted) + Record(s, id).attempts + LeasedBit(t, id)
               <= Record(t, id).attempts + LeasedBit(s, id)
    decreases |events|
  {
    if events == [] {
    } else {
      StepKeepsInv(s, events[0]);
      StepSpendsUnspent(s, events[0], id);
      StepSpendsReady(s, events[0], id);
      StepSpendsRefusals(s, events[0], id);
      DeliveryLedger(Step(s, events[0]), events[1..], id);
    }
  }

  /**
    Over every run from an empty mailbox a message is handed to the Driver at most once more than
    the Driver has refused it, and never more than 32 times.
  */
  lemma DeliveriesAreBounded(events: seq<Event>, id: Id)
    requires Run(EmptyMailbox, events)
    ensures Count(EmptyMailbox, events, id, DeliverCalled) <= Count(EmptyMailbox, events, id, RetryCommitted) + 1
    ensures Count(EmptyMailbox, events, id, RetryCommitted) <= Count(EmptyMailbox, events, id, Refused)
    ensures Count(EmptyMailbox, events, id, DeliverCalled) <= MAX_DELIVERY_ATTEMPTS
  {
    DeliveryLedger(EmptyMailbox, events, id);
    RunKeepsInv(EmptyMailbox, events);
    assert ReadyLoops(EmptyMailbox, id) == {} && RefusedLoops(EmptyMailbox, id) == {};
    assert id in After(EmptyMailbox, events).store.messages ==>
        RecordOk(After(EmptyMailbox, events), After(EmptyMailbox, events).store.messages[id]);
  }

  // ---------------------------------------------------------------------------------------------
  // What every reachable mailbox looks like
  // ---------------------------------------------------------------------------------------------

  /**
    At most one message is in flight; attempts within a priority class follow mailbox order; no
    message has more than 32 attempts.
  */
  lemma EveryReachableMailbox(events: seq<Event>)
    requires Run(EmptyMailbox, events)
    ensures var st := After(EmptyMailbox, events).store;
            && OneInFlight(st)
            && InOrder(st)
            && (forall id :: id in st.messages ==> st.messages[id].attempts <= MAX_DELIVERY_ATTEMPTS)
  {
    RunKeepsInv(EmptyMailbox, events);
    var t := After(EmptyMailbox, events);
    forall id | id in t.store.messages ensures t.store.messages[id].attempts <= MAX_DELIVERY_ATTEMPTS {
      assert RecordOk(t, t.store.messages[id]);
    }
  }

  /** A finished message never changes again. */
  lemma {:induction false} FinishedForever(s: System, events: seq<Event>, id: Id)
    requires Run(s, events) && id in s.store.messages && Terminal(s.store.messages[id].state)
    ensures id in After(s, events).store.messages && After(s, events).store.messages[id] == s.store.messages[id]
    decreases |events|
  {
    if events == [] {
    } else {
      FinishedForever(Step(s, events[0]), events[1..], id);
    }
  }

  predicate Confirms(s: System, e: Event, id: Id) {
    e.Answer? && e.loop in s.loops && s.loops[e.loop].id == id && e.observation == SaidAccepted
  }

  ghost predicate EverConfirmed(s: System, events: seq<Event>, id: Id)
    requires Run(s, events)
    decreases |events|
  {
    events != [] && (Confirms(s, events[0], id) || EverConfirmed(Step(s, events[0]), events[1..], id))
  }

  ghost predicate Unconfirmed(s: System, id: Id) {
    && !Record(s, id).state.Accepted?
    && forall l :: l in s.loops && s.loops[l].id == id && (s.loops[l].point.Answered? || s.loops[l].point.Reanswered?)
         ==> s.loops[l].point.observation != SaidAccepted
  }

  lemma StepStaysUnconfirmed(s: System, e: Event, id: Id)
    requires Enabled(s, e) && Unconfirmed(s, id) && !Confirms(s, e, id)
    ensures Unconfirmed(Step(s, e), id)
  {
    var s' := Step(s, e);
    match e
    case LeaseNext(l, i, a, t) =>
    case Commit(l, t) =>
    case _ =>
  }

  /** Acceptance is never inferred: it takes an explicit `Accepted` answer to a call about that message. */
  lemma {:induction false} AcceptedOnlyIfConfirmed(s: System, events: seq<Event>, id: Id)
    requires Run(s, events) && Unconfirmed(s, id) && After(s, events).store.messages.Keys >= {id}
    requires After(s, events).store.messages[id].state.Accepted?
    ensures EverConfirmed(s, events, id)
    decreases |events|
  {
    if events != [] && !Confirms(s, events[0], id) {
      StepStaysUnconfirmed(s, events[0], id);
      AcceptedOnlyIfConfirmed(Step(s, events[0]), events[1..], id);
    }
  }

  // ---------------------------------------------------------------------------------------------
  // Separation of delivery calls
  // ---------------------------------------------------------------------------------------------

  /** The durable record still awaits acceptance of the attempt this loop is about to deliver. */
  predicate Current(s: System, l: LoopId)
    requires l in s.loops && HoldsLease(s.loops[l].snap.state)
  {
    var local := s.loops[l];
    local.id in s.store.messages &&
    var state := s.store.messages[local.id].state;
    AwaitsAcceptance(state) && state.lease.attempt == local.snap.state.lease.attempt
  }

  /** Attempt `a` was delivered, and the message has not been retried since. */
  ghost predicate Spent(s: System, id: Id, a: Attempt) {
    && a in s.attempts && id in s.store.messages
    && var state := s.store.messages[id].state;
    && (Terminal(state) || (AwaitsAcceptance(state) && state.lease.attempt == a))
    && forall l :: l in s.loops && OwnsAttempt(s.loops[l]) && HoldsLease(s.loops[l].snap.state)
         ==> s.loops[l].snap.state.lease.attempt != a
  }

  lemma StepStaysSpent(s: System, e: Event, id: Id, a: Attempt)
    requires Inv(s) && Enabled(s, e) && Spent(s, id, a) && !Marks(s, e, id, RetryCommitted)
    ensures Spent(Step(s, e), id, a)
  {
    var s' := Step(s, e);
    if e.Commit? {
      assert SnapshotOk(s, s.loops[e.loop]) && PointOk(s.loops[e.loop]);
    }
    forall l | l in s'.loops && OwnsAttempt(s'.loops[l]) && HoldsLease(s'.loops[l].snap.state)
      ensures s'.loops[l].snap.state.lease.attempt != a
    {
      if !ByLoop(e) || l != e.loop { StepTouchesOneLoop(s, e, l); }
    }
  }

  lemma {:induction false} RunStaysSpent(s: System, events: seq<Event>, id: Id, a: Attempt)
    requires Inv(s) && Run(s, events) && Spent(s, id, a) && Count(s, events, id, RetryCommitted) == 0
    ensures Spent(After(s, events), id, a)
    decreases |events|
  {
    if events == [] {
    } else {
      StepStaysSpent(s, events[0], id, a);
      StepKeepsInv(s, events[0]);
      RunStaysSpent(Step(s, events[0]), events[1..], id, a);
    }
  }

  /**
    Between two delivery calls of one message, both made while their attempt was the durable one,
    the message was durably retried.
  */
  lemma CurrentDeliveriesAreSeparated(s: System, first: LoopId, between: seq<Event>, second: LoopId, id: Id)
    requires Inv(s) && Marks(s, CallDriver(first), id, DeliverCalled)
    requires HoldsLease(s.loops[first].snap.state) && Current(s, first)
    requires var s' := Step(s, CallDriver(first));
             && Run(s', between)
             && var t := After(s', between);
             && Marks(t, CallDriver(second), id, DeliverCalled)
             && HoldsLease(t.loops[second].snap.state) && Current(t, second)
    ensures Count(Step(s, CallDriver(first)), between, id, RetryCommitted) > 0
  {
    var s' := Step(s, CallDriver(first));
    var a := s.loops[first].snap.state.lease.attempt;
    StepKeepsInv(s, CallDriver(first));
    assert SnapshotOk(s, s.loops[first]);
    assert Spent(s', id, a) by {
      forall l | l in s'.loops && OwnsAttempt(s'.loops[l]) && HoldsLease(s'.loops[l].snap.state)
        ensures s'.loops[l].snap.state.lease.attempt != a
      {
        assert l != first;
        StepTouchesOneLoop(s, CallDriver(first), l);
      }
    }
    if Count(s', between, id, RetryCommitted) == 0 {
      RunStaysSpent(s', between, id, a);
    }
  }

  /** At most one loop at a time: one process, with its per-participant lock. */
  ghost predicate Exclusive(s: System) {
    forall k, l :: k in s.loops && l in s.loops ==> k == l
  }

  ghost predicate ExclusiveRun(s: System, events: seq<Event>)
    requires Run(s, events)
    decreases |events|
  {
    Exclusive(s) && (events != [] ==> ExclusiveRun(Step(s, events[0]), events[1..]))
  }

  /** A loop that is about to deliver finds its message awaiting acceptance or finished. */
  ghost predicate NoStaleDelivery(s: System) {
    forall l :: l in s.loops && s.loops[l].point.MustDeliver? ==> Unspent(s, s.loops[l].id) == 0
  }

  lemma StepStaysFresh(s: System, e: Event)
    requires Inv(s) && Enabled(s, e) && Exclusive(s) && Exclusive(Step(s, e)) && NoStaleDelivery(s)
    ensures NoStaleDelivery(Step(s, e))
  {
    var s' := Step(s, e);
    forall l | l in s'.loops && s'.loops[l].point.MustDeliver? ensures Unspent(s', s'.loops[l].id) == 0 {
      if !ByLoop(e) || l != e.loop {
        StepTouchesOneLoop(s, e, l);
        assert Unspent(s, s.loops[l].id) == 0;
        if e.LeaseNext? {
          assert e.loop !in s'.loops;
        }
      } else {
        assert e.Commit? ==> SnapshotOk(s, s.loops[l]) && PointOk(s.loops[l]);
      }
    }
  }

  /** With one loop at a time every two delivery calls of a message are separated by a durable retry. */
  lemma ExclusiveDeliveriesAreSeparated(s: System, first: LoopId, rest: seq<Event>, id: Id)
    requires Inv(s) && NoStaleDelivery(s) && Marks(s, CallDriver(first), id, DeliverCalled)
    requires Run(s, [CallDriver(first)] + rest) && ExclusiveRun(s, [CallDriver(first)] + rest)
    ensures var s' := Step(s, CallDriver(first));
            Run(s', rest) && Count(s', rest, id, DeliverCalled) <= Count(s', rest, id, RetryCommitted)
  {
    var s' := Step(s, CallDriver(first));
    assert ([CallDriver(first)] + rest)[1..] == rest;
    StepKeepsInv(s, CallDriver(first));
    assert ReadyLoops(s', id) == {};
    assert Unspent(s, id) == 0;
    DeliveryLedger(s', rest, id);
  }

  lemma {:induction false} ExclusiveRunsStayFresh(s: System, events: seq<Event>)
    requires Inv(s) && Run(s, events) && ExclusiveRun(s, events) && NoStaleDelivery(s)
    ensures NoStaleDelivery(After(s, events))
    decreases |events|
  {
    if events == [] {
    } else {
      StepKeepsInv(s, events[0]);
      StepStaysFresh(s, events[0]);
      ExclusiveRunsStayFresh(Step(s, events[0]), events[1..]);
    }
  }
}
