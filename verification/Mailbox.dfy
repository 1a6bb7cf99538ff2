/**
  One participant's durable mailbox as the store keeps it, and the two store transactions the
  delivery loop uses: leasing the next message and compare-and-swap on a message's delivery state.

  Owner and ownership epoch are one value here, because the store gives each epoch to one owner.
*/
module Mailbox {
  import opened Wrappers

  const MAX_DELIVERY_ATTEMPTS: nat := 32

  type Time = nat
  type Epoch = nat
  type Attempt = nat

  /** Row order: control messages before ordinary ones, then by mailbox sequence. */
  datatype Id = Id(ordinary: bool, sequence: nat)

  predicate Earlier(a: Id, b: Id) {
    if a.ordinary == b.ordinary then a.sequence < b.sequence else b.ordinary
  }

  datatype Lease = Lease(attempt: Attempt, epoch: Epoch, expires: Time)

  datatype State =
    | Queued
    | RetryScheduled(notBefore: Time)
    | Leased(lease: Lease)
    | AcceptancePending(lease: Lease)
    | AcceptanceUnknown(lease: Lease)
    | Accepted(attempt: Attempt)
    | Uncertain(attempt: Attempt)
    | DeadLetter

  datatype Message = Message(attempts: nat, state: State, revision: nat)

  datatype Store = Store(now: Time, epoch: Epoch, messages: map<Id, Message>)

  predicate Terminal(s: State) {
    s.Accepted? || s.Uncertain? || s.DeadLetter?
  }

  /** The Driver may hold the message: it was, or may have been, handed over. */
  predicate AwaitsAcceptance(s: State) {
    s.AcceptancePending? || s.AcceptanceUnknown?
  }

  predicate HoldsLease(s: State) {
    s.Leased? || AwaitsAcceptance(s)
  }

  // ---------------------------------------------------------------------------------------------
  // lease_next_message
  // ---------------------------------------------------------------------------------------------

  predicate Recoverable(st: Store, id: Id) {
    id in st.messages && AwaitsAcceptance(st.messages[id].state) && st.messages[id].state.lease.expires <= st.now
  }

  predicate HasActiveLease(st: Store) {
    exists id :: id in st.messages && HoldsLease(st.messages[id].state) && st.messages[id].state.lease.expires > st.now
  }

  /** First unfinished message in row order. */
  predicate IsHead(st: Store, id: Id) {
    && id in st.messages && !Terminal(st.messages[id].state)
    && forall other :: other in st.messages && Earlier(other, id) ==> Terminal(st.messages[other].state)
  }

  predicate Eligible(st: Store, s: State) {
    || s.Queued?
    || (s.RetryScheduled? && s.notBefore <= st.now)
    || (s.Leased? && s.lease.expires <= st.now)
  }

  predicate SelectedForRecovery(st: Store, id: Id) {
    Recoverable(st, id) && forall other :: other in st.messages && Recoverable(st, other) ==> !Earlier(other, id)
  }

  predicate SelectedFresh(st: Store, id: Id) {
    && (forall other :: other in st.messages ==> !Recoverable(st, other))
    && !HasActiveLease(st)
    && IsHead(st, id) && Eligible(st, st.messages[id].state)
  }

  function Put(st: Store, id: Id, m: Message): Store {
    st.(messages := st.messages[id := m])
  }

  /** What leasing makes of a selected message: adoption, the exhausted budget, or a fresh attempt. */
  function LeasedMessage(st: Store, m: Message, attempt: Attempt, expires: Time): Message {
    var state :=
      match m.state
      case AcceptancePending(lease) => AcceptancePending(Lease(lease.attempt, st.epoch, expires))
      case AcceptanceUnknown(lease) => AcceptanceUnknown(Lease(lease.attempt, st.epoch, expires))
      case _ =>
        if m.attempts >= MAX_DELIVERY_ATTEMPTS then DeadLetter else Leased(Lease(attempt, st.epoch, expires));
    Message(if state.Leased? then m.attempts + 1 else m.attempts, state, m.revision + 1)
  }

  // ---------------------------------------------------------------------------------------------
  // transition_message_delivery
  // ---------------------------------------------------------------------------------------------

  datatype Transition =
    | ToPending
    | ToUnknown
    | ToRetry(notBefore: Time)
    | ToAccepted
    | ToUncertain
    | ToDeadLetter

  predicate MayTransition(st: Store, epoch: Epoch, m: Message, attempt: Attempt, revision: nat) {
    && epoch == st.epoch
    && m.revision == revision
    && HoldsLease(m.state)
    && m.state.lease.attempt == attempt
    && m.state.lease.epoch == epoch
    && (m.state.Leased? ==> st.now < m.state.lease.expires)
  }

  function NextState(s: State, t: Transition): Option<State>
    requires HoldsLease(s)
  {
    match t
    case ToPending => if s.Leased? then Some(AcceptancePending(s.lease)) else None
    case ToUnknown => if s.AcceptancePending? then Some(AcceptanceUnknown(s.lease)) else None
    case ToRetry(t) => if AwaitsAcceptance(s) then Some(RetryScheduled(t)) else None
    case ToAccepted => if AwaitsAcceptance(s) then Some(Accepted(s.lease.attempt)) else None
    case ToUncertain => if AwaitsAcceptance(s) then Some(Uncertain(s.lease.attempt)) else None
    case ToDeadLetter => Some(DeadLetter)
  }

  /** The committed record, or nothing when the store answers with an error. */
  function Transitioned(st: Store, epoch: Epoch, id: Id, attempt: Attempt, revision: nat, t: Transition)
    : Option<Message>
  {
    if id !in st.messages || !MayTransition(st, epoch, st.messages[id], attempt, revision) then None
    else
      var m := st.messages[id];
      match NextState(m.state, t)
      case None => None
      case Some(state) => Some(Message(m.attempts, state, m.revision + 1))
  }

  /** A message whose correlated operation ended is retired by the store itself. */
  function Retired(m: Message): Message
    requires !Terminal(m.state)
  {
    var state := if AwaitsAcceptance(m.state) then Uncertain(m.state.lease.attempt) else DeadLetter;
    Message(m.attempts, state, m.revision + 1)
  }
}
