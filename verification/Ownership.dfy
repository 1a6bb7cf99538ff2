/**
  The operations on the admission gate as their callers run them: straight-line code over shared
  atomics, with every other call free to act before each access.
*/
module Ownership {
  import opened Wrappers
  import opened Admission

  predicate NotBy(events: seq<Event>, me: CallId) {
    forall i :: 0 <= i < |events| ==> events[i].id != me
  }

  lemma {:induction false} OthersLeaveMeAlone(s: System, events: seq<Event>, me: CallId)
    requires Run(s, events) && NotBy(events, me)
    ensures me in After(s, events).calls <==> me in s.calls
    ensures me in s.calls ==> After(s, events).calls[me] == s.calls[me]
    ensures !s.open ==> !After(s, events).open
    ensures !s.running ==> !After(s, events).running
    decreases |events|
  {
    if events == [] {
    } else {
      OthersLeaveMeAlone(Apply(s, events[0]), events[1..], me);
    }
  }

  class Supervisor {
    var s: System

    /** Starting supervision opens the gate. */
    constructor (lease: Lease)
      ensures s == Started(lease) && Inv(s)
    {
      s := Started(lease);
    }

    /** Anything the other calls can do. */
    method Interfere(me: CallId)
      requires Inv(s)
      modifies this
      ensures Inv(s) && s.origin == old(s.origin) && (!old(s.open) ==> !s.open)
      ensures !old(s.running) ==> !s.running
      ensures me in s.calls <==> me in old(s.calls)
      ensures me in s.calls ==> s.calls[me] == old(s.calls[me])
    {
      var events: seq<Event> := *;
      if Run(s, events) && NotBy(events, me) {
        RunKeepsInv(s, events);
        OthersLeaveMeAlone(s, events, me);
        s := After(s, events);
      }
    }

    method Enter(me: CallId, call: Call)
      requires Inv(s) && Enabled(s, Begin(me, call))
      modifies this
      ensures Inv(s) && s == Apply(old(s), Begin(me, call))
    {
      StepKeepsInv(s, Begin(me, call));
      s := Apply(s, Begin(me, call));
    }

    /** The call's next access, after whatever the others do first. */
    method Access(me: CallId) returns (ghost seen: System, input: Input)
      requires Inv(s) && me in s.calls && !s.calls[me].Finished?
      modifies this
      ensures Inv(seen) && seen.origin == old(s.origin) && (!old(s.open) ==> !seen.open)
      ensures !old(s.running) ==> !seen.running
      ensures me in seen.calls && seen.calls[me] == old(s.calls[me])
      ensures Inv(s) && s.origin == old(s.origin) && s == Apply(seen, Step(me, input))
    {
      Interfere(me);
      input := *;
      seen := s;
      StepKeepsInv(s, Step(me, input));
      s := Apply(s, Step(me, input));
    }

    /**
      The two loads of a permit check: it succeeds exactly when the first sees the gate open and the
      second the permit's generation. A check of a valid permit cannot fail while the gate stays
      open.
    */
    method Check(me: CallId, generation: nat) returns (ok: bool, ghost sawOpen: bool, ghost sawGeneration: nat)
      requires Inv(s) && me in s.calls && s.calls[me] == LoadOpen(generation)
      modifies this
      ensures Inv(s) && s.origin == old(s.origin)
      ensures me in s.calls && s.calls[me] == Finished(if ok then Granted(generation) else Refused)
      ensures ok <==> sawOpen && sawGeneration == generation
      ensures !old(s.open) ==> !ok && !s.open
      ensures ok ==> generation == FIRST_GENERATION && generation in s.permits
      ensures s.open && generation == FIRST_GENERATION ==> ok
    {
      var first, _ := Access(me);
      sawOpen, sawGeneration := first.open, first.generation;
      if s.calls[me].Compare? {
        assert PointOk(s, s.calls[me]);
        var second, _ := Access(me);
        sawGeneration := second.generation;
      }
      ok := s.calls[me].outcome.Granted?;
    }

    /** An admission cannot fail while the gate stays open. */
    method Admit(me: CallId) returns (permit: Option<nat>)
      requires Inv(s) && me !in s.calls
      modifies this
      ensures Inv(s) && s.origin == old(s.origin)
      ensures !old(s.open) ==> permit.None?
      ensures permit.Some? ==> permit.value == FIRST_GENERATION && permit.value in s.permits
      ensures s.open ==> permit.Some?
    {
      Enter(me, Call.Admit);
      var _, _ := Access(me);
      var generation := s.calls[me].generation;
      assert PointOk(s, s.calls[me]);
      var ok, _, _ := Check(me, generation);
      permit := if ok then Some(generation) else None;
    }

    /** `close`, and the status write that follows it when ownership is lost. */
    method Close(me: CallId)
      requires Inv(s) && me in s.calls && s.calls[me].StoreClosed?
      modifies this
      ensures Inv(s) && s.origin == old(s.origin) && !s.open
      ensures me in s.calls && s.calls[me] == Finished(old(s.calls[me]).result)
      ensures old(s.calls[me]).notice.Some? ==> s.status == old(s.calls[me]).notice.value
      ensures !old(s.running) ==> !s.running
    {
      var _, _ := Access(me);
      var _, _ := Access(me);
      if s.calls[me].WriteLost? {
        var _, _ := Access(me);
      }
    }

    /**
      One renewal. It succeeds exactly when it saw the gate open and has no reason to give up: the
      status is then Active for the renewed lease. Otherwise the gate is closed and, unless it was
      already, the status is Lost for that reason.
    */
    method Tick(me: CallId) returns (ok: bool, ghost v: TickView)
      requires Inv(s) && me !in s.calls
      modifies this
      ensures Inv(s) && s.origin == old(s.origin)
      ensures !old(s.open) ==> !v.open
      ensures !v.open ==> !s.open
      ensures SameOwnership(v.lease, s.origin)
      ensures ok <==> v.open && Reason(v).None?
      ensures ok ==>
        var renewed := v.await.answer.lease;
        s.status == Active(renewed.session, renewed.epoch, renewed.expires) && StatusOf(s.origin, s.status)
      ensures !ok ==> !s.open
      ensures v.open && !ok ==> s.status == Lost(v.lease.session, v.lease.epoch, Reason(v).value)
    {
      Enter(me, Call.Tick);
      var start, any := Access(me);
      v := TickView(start.open, s.origin, any, any);
      if s.calls[me].Finished? {
        return false, v;
      }
      var locked, lock := Access(me);
      v := v.(lease := locked.lease, lock := lock);
      if s.calls[me].StoreClosed? {
        Close(me);
        return false, v;
      }
      ghost var await;
      ok, await := Renew(me);
      v := v.(await := await);
    }

    /** The Store's answer to the renewal: a good one is stored and makes the status Active, any other is a loss. */
    method Renew(me: CallId) returns (ok: bool, ghost i: Input)
      requires Inv(s) && me in s.calls && s.calls[me].TickAwait?
      modifies this
      ensures Inv(s) && s.origin == old(s.origin)
      ensures ok <==> Good(old(s.calls[me].lease), i)
      ensures ok ==> s.status == Active(i.answer.lease.session, i.answer.lease.epoch, i.answer.lease.expires)
      ensures !ok ==>
        var lease := old(s.calls[me].lease);
        !s.open && s.status ==
          Lost(lease.session, lease.epoch, if i.answer.StaleOwnership? then Stale else RenewalFailed)
    {
      var answered, input := Access(me);
      i := input;
      RenewalIsExact(answered, me, input);
      if s.calls[me].StoreClosed? {
        Close(me);
        return false, i;
      }
      var _, _ := Access(me);
      assert s.lease == i.answer.lease;
      var _, _ := Access(me);
      ok := true;
    }

    method Shutdown(me: CallId)
      requires Inv(s) && me !in s.calls
      modifies this
      ensures Inv(s) && s.origin == old(s.origin)
      ensures !s.open && s.status == Lost(s.origin.session, s.origin.epoch, Loss.Shutdown)
    {
      Enter(me, ShutdownCall);
      var seen, _ := Access(me);
      assert SameOwnership(seen.lease, s.origin);
      Close(me);
    }

    /** The worker is no longer running; a gate it finds open it closes as a failed renewal. */
    method DropGuard(me: CallId) returns (ghost sawOpen: bool)
      requires Inv(s) && me !in s.calls
      modifies this
      ensures Inv(s) && s.origin == old(s.origin) && !s.open && !s.running
      ensures !old(s.open) ==> !sawOpen
      ensures sawOpen ==> s.status == Lost(s.origin.session, s.origin.epoch, RenewalFailed)
    {
      Enter(me, GuardDrop);
      var _, _ := Access(me);
      var seen, _ := Access(me);
      sawOpen := seen.open;
      if s.calls[me].StoreClosed? {
        Close(me);
      }
    }

    method Drop(me: CallId)
      requires Inv(s) && me !in s.calls
      modifies this
      ensures Inv(s) && s.origin == old(s.origin) && !s.open
    {
      Enter(me, SupervisorDrop);
      Close(me);
    }
  }

  /** `start`: refused for an empty period or timeout, and unless the first renewal comes before the lease expires. */
  method Start(lease: Lease, now: Time, renewalPeriod: nat, shutdownTimeout: nat) returns (r: Option<Supervisor>)
    ensures r.Some? <==> renewalPeriod > 0 && shutdownTimeout > 0 && now + renewalPeriod < lease.expires
    ensures r.Some? ==> fresh(r.value) && r.value.s == Started(lease) && Inv(r.value.s)
  {
    if renewalPeriod == 0 || shutdownTimeout == 0 {
      return None;
    }
    var remaining := lease.expires - now;
    if remaining < 0 || renewalPeriod >= remaining {
      return None;
    }
    var supervisor := new Supervisor(lease);
    r := Some(supervisor);
  }
}
