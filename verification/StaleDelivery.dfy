/**
  Two delivery calls of one message with no retry between them, by two processes that each drive one
  loop at a time. A loop of the first pauses after its pending commit and is overtaken: its lease
  expires, another process takes the session over and adopts the message, is told that it was not
  accepted and schedules a retry, leases the new attempt and delivers it, and then the first loop
  goes on and delivers the old one.
*/
module StaleDelivery {
  import opened Wrappers
  import opened Mailbox
  import opened Delivery

  const HEAD: Id := Id(true, 1)
  const EXPIRES: Time := 10

  function One(now: Time, epoch: Epoch, attempts: nat, state: State, revision: nat): Store {
    Store(now, epoch, map[HEAD := Message(attempts, state, revision)])
  }

  const TAKEN: Lease := Lease(7, 1, EXPIRES)
  const ADOPTED: Lease := Lease(7, 2, 20)
  const RENEWED: Lease := Lease(9, 2, 20)

  const PAUSED: Local := Local(1, HEAD, Message(1, AcceptancePending(TAKEN), 3), MustDeliver)

  function Adopter(point: Point): Local {
    Local(2, HEAD, Message(1, AcceptancePending(ADOPTED), 4), point)
  }

  function Renewer(state: State, revision: nat, point: Point): Local {
    Local(2, HEAD, Message(2, state, revision), point)
  }

  // The states of the run, in order.
  const QUEUED: System := System(One(0, 1, 0, Queued, 1), map[], {})
  const LEASED: System :=
    System(One(0, 1, 1, Leased(TAKEN), 2),
           map[1 := Local(1, HEAD, Message(1, Leased(TAKEN), 2), MustCommitPending)], {7})
  const PENDING: System := System(One(0, 1, 1, AcceptancePending(TAKEN), 3), map[1 := PAUSED], {7})
  const EXPIRED: System := System(One(EXPIRES, 1, 1, AcceptancePending(TAKEN), 3), map[1 := PAUSED], {7})
  const TAKEN_OVER: System := System(One(EXPIRES, 2, 1, AcceptancePending(TAKEN), 3), map[1 := PAUSED], {7})
  const ADOPTING: System :=
    System(One(EXPIRES, 2, 1, AcceptancePending(ADOPTED), 4), map[1 := PAUSED, 2 := Adopter(MustQuery)], {7, 8})
  const QUERYING: System := ADOPTING.(loops := map[1 := PAUSED, 2 := Adopter(Querying)])
  const REFUSED: System := ADOPTING.(loops := map[1 := PAUSED, 2 := Adopter(Answered(SaidNotAccepted, true))])
  const RETRIED: System := System(One(EXPIRES, 2, 1, RetryScheduled(EXPIRES), 5), map[1 := PAUSED], {7, 8})
  const RELEASED: System :=
    System(One(EXPIRES, 2, 2, Leased(RENEWED), 6),
           map[1 := PAUSED, 3 := Renewer(Leased(RENEWED), 6, MustCommitPending)], {7, 8, 9})
  const PENDING_AGAIN: System :=
    System(One(EXPIRES, 2, 2, AcceptancePending(RENEWED), 7),
           map[1 := PAUSED, 3 := Renewer(AcceptancePending(RENEWED), 7, MustDeliver)], {7, 8, 9})

  /** Each owner drives at most one loop, as its per-participant lock enforces. */
  ghost predicate OneLoopPerOwner(s: System) {
    forall k, l :: k in s.loops && l in s.loops && s.loops[k].epoch == s.loops[l].epoch ==> k == l
  }

  ghost predicate LocksHold(s: System, events: seq<Event>)
    requires Run(s, events)
    decreases |events|
  {
    OneLoopPerOwner(s) && (events != [] ==> LocksHold(Step(s, events[0]), events[1..]))
  }

  /** A run from `s` to `t` in which every owner respects its lock. */
  ghost predicate Leads(s: System, events: seq<Event>, t: System) {
    Run(s, events) && After(s, events) == t && LocksHold(s, events)
  }

  lemma Arrived(s: System)
    requires OneLoopPerOwner(s)
    ensures Leads(s, [], s)
  {
  }

  lemma First(s: System, e: Event, s': System, rest: seq<Event>, t: System)
    requires Enabled(s, e) && Step(s, e) == s' && OneLoopPerOwner(s) && Leads(s', rest, t)
    ensures Leads(s, [e] + rest, t)
  {
    assert ([e] + rest)[1..] == rest;
  }

  lemma OnlyHead(st: Store, now: Time, epoch: Epoch, attempts: nat, state: State, revision: nat)
    requires st == One(now, epoch, attempts, state, revision)
    ensures SelectedFresh(st, HEAD) <==> Eligible(st, state)
    ensures SelectedForRecovery(st, HEAD) <==> AwaitsAcceptance(state) && state.lease.expires <= now
  {
    assert forall id :: id in st.messages <==> id == HEAD;
    if Eligible(st, state) {
      assert IsHead(st, HEAD);
    }
  }

  // ---------------------------------------------------------------------------------------------
  // The run, from its end
  // ---------------------------------------------------------------------------------------------

  lemma ReleasePends()
    ensures Leads(RELEASED, [Commit(3, 0)] + [], PENDING_AGAIN)
  {
    Arrived(PENDING_AGAIN);
    First(RELEASED, Commit(3, 0), PENDING_AGAIN, [], PENDING_AGAIN);
  }

  function Renewal(): seq<Event> {
    [LeaseNext(3, HEAD, 9, 20)] + ([Commit(3, 0)] + [])
  }

  lemma RetryIsLeased()
    ensures Leads(RETRIED, Renewal(), PENDING_AGAIN)
  {
    ReleasePends();
    OnlyHead(RETRIED.store, EXPIRES, 2, 1, RetryScheduled(EXPIRES), 5);
    assert Step(RETRIED, LeaseNext(3, HEAD, 9, 20)) == RELEASED;
    First(RETRIED, LeaseNext(3, HEAD, 9, 20), RELEASED, [Commit(3, 0)] + [], PENDING_AGAIN);
  }

  lemma RefusalCommits()
    ensures Enabled(REFUSED, Commit(2, EXPIRES)) && Step(REFUSED, Commit(2, EXPIRES)) == RETRIED
  {
    var local := REFUSED.loops[2];
    assert Intent(local, EXPIRES) == Some(ToRetry(EXPIRES)) && AfterCommit(local).None?;
    assert Committed(REFUSED, local, EXPIRES) == Some(Message(1, RetryScheduled(EXPIRES), 5));
  }

  lemma RefusalIsRetried()
    ensures Leads(REFUSED, [Commit(2, EXPIRES)] + Renewal(), PENDING_AGAIN)
  {
    RetryIsLeased();
    RefusalCommits();
    First(REFUSED, Commit(2, EXPIRES), RETRIED, Renewal(), PENDING_AGAIN);
  }

  function Refusal(): seq<Event> {
    [Answer(2, SaidNotAccepted)] + ([Commit(2, EXPIRES)] + Renewal())
  }

  lemma QueryIsRefused()
    ensures Leads(QUERYING, Refusal(), PENDING_AGAIN)
  {
    RefusalIsRetried();
    assert Step(QUERYING, Answer(2, SaidNotAccepted)) == REFUSED;
    First(QUERYING, Answer(2, SaidNotAccepted), REFUSED, [Commit(2, EXPIRES)] + Renewal(), PENDING_AGAIN);
  }

  lemma AdopterQueries()
    ensures Leads(ADOPTING, [CallDriver(2)] + Refusal(), PENDING_AGAIN)
  {
    QueryIsRefused();
    assert Step(ADOPTING, CallDriver(2)) == QUERYING;
    First(ADOPTING, CallDriver(2), QUERYING, Refusal(), PENDING_AGAIN);
  }

  function Adoption(): seq<Event> {
    [LeaseNext(2, HEAD, 8, 20)] + ([CallDriver(2)] + Refusal())
  }

  lemma ExpiredIsAdopted()
    ensures Enabled(TAKEN_OVER, LeaseNext(2, HEAD, 8, 20)) && Step(TAKEN_OVER, LeaseNext(2, HEAD, 8, 20)) == ADOPTING
  {
    OnlyHead(TAKEN_OVER.store, EXPIRES, 2, 1, AcceptancePending(TAKEN), 3);
  }

  lemma TakeoverAdopts()
    ensures Leads(TAKEN_OVER, Adoption(), PENDING_AGAIN)
  {
    AdopterQueries();
    ExpiredIsAdopted();
    First(TAKEN_OVER, LeaseNext(2, HEAD, 8, 20), ADOPTING, [CallDriver(2)] + Refusal(), PENDING_AGAIN);
  }

  function Overtaking(): seq<Event> {
    [Tick(EXPIRES)] + ([Takeover(2)] + Adoption())
  }

  lemma OvertakingRuns()
    ensures Leads(PENDING, Overtaking(), PENDING_AGAIN)
  {
    TakeoverAdopts();
    First(EXPIRED, Takeover(2), TAKEN_OVER, Adoption(), PENDING_AGAIN);
    First(PENDING, Tick(EXPIRES), EXPIRED, [Takeover(2)] + Adoption(), PENDING_AGAIN);
  }

  function Pausing(): seq<Event> {
    [Enqueue(HEAD)] + ([LeaseNext(1, HEAD, 7, EXPIRES)] + ([Commit(1, 0)] + []))
  }

  lemma QueuedIsLeased()
    ensures Enabled(QUEUED, LeaseNext(1, HEAD, 7, EXPIRES)) && Step(QUEUED, LeaseNext(1, HEAD, 7, EXPIRES)) == LEASED
  {
    OnlyHead(QUEUED.store, 0, 1, 0, Queued, 1);
  }

  lemma PausingRuns()
    ensures Leads(EmptyMailbox, Pausing(), PENDING)
  {
    Arrived(PENDING);
    First(LEASED, Commit(1, 0), PENDING, [], PENDING);
    QueuedIsLeased();
    First(QUEUED, LeaseNext(1, HEAD, 7, EXPIRES), LEASED, [Commit(1, 0)] + [], PENDING);
    First(EmptyMailbox, Enqueue(HEAD), QUEUED, [LeaseNext(1, HEAD, 7, EXPIRES)] + ([Commit(1, 0)] + []), PENDING);
  }

  /** The third loop's call is current, the first loop's is not, and nothing separates the two. */
  predicate DeliversTwiceInARow(s: System) {
    && Enabled(s, CallDriver(3)) && Marks(s, CallDriver(3), HEAD, DeliverCalled)
    && HoldsLease(s.loops[3].snap.state) && Current(s, 3)
    && var s' := Step(s, CallDriver(3));
    && Enabled(s', CallDriver(1)) && Marks(s', CallDriver(1), HEAD, DeliverCalled)
    && HoldsLease(s'.loops[1].snap.state) && !Current(s', 1)
  }

  lemma TwiceInARow()
    ensures DeliversTwiceInARow(PENDING_AGAIN)
  {
    var s' := Step(PENDING_AGAIN, CallDriver(3));
    assert s'.loops[1] == PAUSED && s'.store == PENDING_AGAIN.store;
  }

  lemma StaleDeliveryIsPossible()
    ensures Leads(EmptyMailbox, Pausing(), PENDING) && Leads(PENDING, Overtaking(), PENDING_AGAIN)
    ensures DeliversTwiceInARow(PENDING_AGAIN)
  {
    PausingRuns();
    OvertakingRuns();
    TwiceInARow();
  }
}
