/**
  The registry as the service runs it: the locked fields updated in place, the two worker loops,
  and `shutdown_until`, with everything else free to act between any two locked sections.
*/
module WorkerRegistry {
  import opened Registry

  predicate Moves(e: Event, me: WorkerId) {
    match e
    case Start(_, w) => w == me
    case Resume(_, w) => w == me
    case ExecutionEnds(w) => w == me
    case Check(w) => w == me
    case Reload(w, _) => w == me
    case Aborted(w) => w == me
    case _ => false
  }

  predicate NotBy(events: seq<Event>, me: WorkerId) {
    forall i :: 0 <= i < |events| ==> !Moves(events[i], me)
  }

  lemma {:induction false} OthersLeaveMeAlone(s: System, events: seq<Event>, me: WorkerId)
    requires Run(s, events) && NotBy(events, me)
    ensures me in s.workers <==> me in After(s, events).workers
    ensures me in s.workers ==> After(s, events).workers[me] == s.workers[me]
    ensures me in s.executions <==> me in After(s, events).executions
    ensures me in s.executions ==> After(s, events).executions[me] == s.executions[me]
    decreases |events|
  {
    if events == [] {
    } else {
      OthersLeaveMeAlone(Step(s, events[0]), events[1..], me);
    }
  }

  predicate NotCall(events: seq<Event>, call: ShutdownId) {
    forall i :: 0 <= i < |events| ==>
      events[i] != BeginShutdown(call) && events[i] != StopExecutor(call) && events[i] != AbandonShutdown(call)
  }

  lemma {:induction false} OthersLeaveTheCallAlone(s: System, events: seq<Event>, call: ShutdownId)
    requires Run(s, events) && NotCall(events, call)
    ensures call in s.shutdowns <==> call in After(s, events).shutdowns
    ensures call in s.shutdowns ==> After(s, events).shutdowns[call] == s.shutdowns[call]
    decreases |events|
  {
    if events == [] {
    } else {
      OthersLeaveTheCallAlone(Step(s, events[0]), events[1..], call);
    }
  }

  datatype ResumeResult = LoadFailed | WorkerStopped | AlreadySettled | Woke | NewWorker

  datatype Loaded = Unavailable | Terminal | Live

  predicate Executed(s: System, me: WorkerId, n: nat) {
    me in s.executions && s.executions[me] == n
  }

  predicate Is(s: System, me: WorkerId, origin: Origin, phase: Phase, n: nat) {
    In(s, me, phase) && s.workers[me].origin == origin && Executed(s, me, n)
  }

  class Service {
    var accepting: bool
    var active: set<OperationId>
    var wakeRequested: set<OperationId>
    var handles: map<OperationId, WorkerId>
    var workers: map<WorkerId, Worker>
    var executions: map<WorkerId, nat>
    var shutdowns: map<ShutdownId, ShutdownCall>

    function State(): System
      reads this
    {
      System(Book(accepting, active, wakeRequested, handles), workers, executions, shutdowns)
    }

    constructor ()
      ensures State() == INITIAL && Inv(State())
    {
      accepting, active, wakeRequested, handles := true, {}, {}, map[];
      workers, executions, shutdowns := map[], map[], map[];
    }

    /** Other callers, other workers and other shutdown calls. */
    method Interfere(me: WorkerId, call: ShutdownId)
      requires Inv(State())
      modifies this
      ensures Inv(State())
      ensures me in workers <==> me in old(workers)
      ensures me in workers ==> workers[me] == old(workers[me])
      ensures me in executions <==> me in old(executions)
      ensures me in executions ==> executions[me] == old(executions[me])
      ensures call in shutdowns <==> call in old(shutdowns)
      ensures call in shutdowns ==> shutdowns[call] == old(shutdowns[call])
    {
      var events: seq<Event> := *;
      if Run(State(), events) && NotBy(events, me) && NotCall(events, call) {
        RunKeepsInv(State(), events);
        OthersLeaveMeAlone(State(), events, me);
        OthersLeaveTheCallAlone(State(), events, call);
        var t := After(State(), events);
        accepting, active := t.book.accepting, t.book.active;
        wakeRequested, handles := t.book.wakeRequested, t.book.handles;
        workers, executions, shutdowns := t.workers, t.executions, t.shutdowns;
      }
    }

    method Spawn(op: OperationId, worker: WorkerId, origin: Origin)
      modifies this
      ensures State() == old(State()).(workers := old(workers)[worker := Worker(op, origin, Executing)],
                                       executions := old(executions)[worker := 1])
    {
      workers := workers[worker := Worker(op, origin, Executing)];
      executions := executions[worker := 1];
    }

    /** The locked section of `start`: refused after shutdown and for an operation that has a worker. */
    method Start(op: OperationId, worker: WorkerId) returns (ok: bool)
      requires Inv(State()) && worker !in executions
      modifies this
      ensures Inv(State()) && State() == Step(old(State()), Event.Start(op, worker))
      ensures ok <==> old(accepting) && op !in Served(old(State()))
    {
      StepKeepsInv(State(), Event.Start(op, worker));
      ServedIsActive(State());
      if !accepting || op in active {
        return false;
      }
      active := active + {op};
      Spawn(op, worker, Fresh);
      handles := handles[op := worker];
      ok := true;
    }

    /** `resume_existing`: settled operations and failed reads leave the registry alone. */
    method ResumeExisting(op: OperationId, worker: WorkerId, loaded: Loaded, input: bool) returns (r: ResumeResult)
      requires Inv(State()) && worker !in executions
      modifies this
      ensures Inv(State())
      ensures loaded.Live? && input ==> State() == Step(old(State()), Resume(op, worker))
      ensures !(loaded.Live? && input) ==> State() == old(State())
      ensures r.LoadFailed? <==> loaded.Unavailable? || (loaded.Live? && !input)
      ensures r.AlreadySettled? <==> loaded.Terminal?
      ensures r.WorkerStopped? <==> loaded.Live? && input && !old(accepting)
      ensures r.NewWorker? <==> loaded.Live? && input && old(accepting) && op !in Served(old(State()))
      ensures r.Woke? ==> op in wakeRequested && op in Served(State())
    {
      if loaded.Unavailable? {
        return LoadFailed;
      }
      if loaded.Terminal? {
        return AlreadySettled;
      }
      if !input {
        return LoadFailed;
      }
      StepKeepsInv(State(), Resume(op, worker));
      ServedIsActive(State());
      if !accepting {
        return WorkerStopped;
      }
      if op in active {
        wakeRequested := wakeRequested + {op};
        return Woke;
      }
      active := active + {op};
      Spawn(op, worker, Resumed);
      handles := handles[op := worker];
      r := NewWorker;
    }

    /** The end of a round: true when a wake was consumed, false when the worker has left. */
    method TakeWake(me: WorkerId) returns (rerun: bool)
      requires Inv(State()) && In(State(), me, Checking)
      modifies this
      ensures Inv(State()) && State() == Step(old(State()), Check(me))
      ensures rerun == (old(workers[me]).op in old(wakeRequested))
      ensures if rerun then In(State(), me, Reloading) else me !in workers
    {
      StepKeepsInv(State(), Check(me));
      var op := workers[me].op;
      if op in wakeRequested {
        wakeRequested := wakeRequested - {op};
        workers := workers[me := workers[me].(phase := Reloading)];
        rerun := true;
      } else {
        active := active - {op};
        handles := handles - {op};
        workers := workers - {me};
        rerun := false;
      }
    }

    method Advance(me: WorkerId, e: Event)
      requires Inv(State()) && Enabled(State(), e)
      requires e == ExecutionEnds(me) || (e.Reload? && e.worker == me)
      modifies this
      ensures Inv(State()) && State() == Step(old(State()), e)
    {
      StepKeepsInv(State(), e);
      var t := Step(State(), e);
      workers, executions := t.workers, t.executions;
    }

    method FinishExecution(me: WorkerId, origin: Origin, n: nat)
      requires Inv(State()) && Is(State(), me, origin, Executing, n)
      modifies this
      ensures Inv(State()) && Is(State(), me, origin, Checking, n)
    {
      var none: ShutdownId := *;
      Interfere(me, none);
      Advance(me, ExecutionEnds(me));
    }

    method NextRound(me: WorkerId, origin: Origin, n: nat) returns (rerun: bool)
      requires Inv(State()) && Is(State(), me, origin, Checking, n)
      modifies this
      ensures Inv(State()) && Executed(State(), me, n)
      ensures if rerun then Is(State(), me, origin, Reloading, n) else me !in workers
    {
      var none: ShutdownId := *;
      Interfere(me, none);
      rerun := TakeWake(me);
    }

    method ReloadOperation(me: WorkerId, origin: Origin, n: nat, loaded: bool)
      requires Inv(State()) && Is(State(), me, origin, Reloading, n)
      modifies this
      ensures Inv(State())
      ensures loaded || origin.Resumed? ==> Is(State(), me, origin, Executing, n + 1)
      ensures !loaded && origin.Fresh? ==> Is(State(), me, origin, Checking, n)
    {
      var none: ShutdownId := *;
      Interfere(me, none);
      Advance(me, Reload(me, loaded));
    }

    /**
      The loop of a started worker, up to any number of reloads. Each wake it consumes costs one
      reload, and it executes again exactly for the reloads that succeed.
    */
    method RunFresh(me: WorkerId, reloads: seq<bool>) returns (left: bool, wakes: nat)
      requires Inv(State()) && me in executions && Is(State(), me, Fresh, Executing, executions[me])
      modifies this
      ensures Inv(State()) && wakes <= |reloads|
      ensures left ==> me !in workers
      ensures !left ==> wakes == |reloads|
      ensures Executed(State(), me, old(executions[me]) + Successes(reloads[..wakes]))
    {
      var n := executions[me];
      FinishExecution(me, Fresh, n);
      wakes := 0;
      while wakes < |reloads|
        invariant Inv(State()) && wakes <= |reloads|
        invariant n == old(executions[me]) + Successes(reloads[..wakes])
        invariant Is(State(), me, Fresh, Checking, n)
      {
        var rerun := NextRound(me, Fresh, n);
        if !rerun {
          return true, wakes;
        }
        var loaded := reloads[wakes];
        ReloadOperation(me, Fresh, n, loaded);
        OneMoreReload(reloads, wakes);
        wakes := wakes + 1;
        if !loaded {
          continue;
        }
        n := n + 1;
        FinishExecution(me, Fresh, n);
      }
      left := false;
    }

    /** The loop of a resumed worker: every wake it consumes is followed by one more execution. */
    method RunResumed(me: WorkerId, reloads: seq<bool>) returns (left: bool, wakes: nat)
      requires Inv(State()) && me in executions && Is(State(), me, Resumed, Executing, executions[me])
      modifies this
      ensures Inv(State()) && wakes <= |reloads|
      ensures left ==> me !in workers
      ensures !left ==> wakes == |reloads|
      ensures Executed(State(), me, old(executions[me]) + wakes)
    {
      var n := executions[me];
      wakes := 0;
      while wakes < |reloads|
        invariant Inv(State()) && wakes <= |reloads|
        invariant n == old(executions[me]) + wakes
        invariant Is(State(), me, Resumed, Executing, n)
      {
        FinishExecution(me, Resumed, n);
        var rerun := NextRound(me, Resumed, n);
        if !rerun {
          return true, wakes;
        }
        ReloadOperation(me, Resumed, n, reloads[wakes]);
        n := n + 1;
        wakes := wakes + 1;
      }
      left := false;
    }

    /** Closing the registry: nothing is accepted any more and every handle is taken. */
    method Drain(call: ShutdownId) returns (drained: set<WorkerId>)
      requires Inv(State()) && call !in shutdowns
      modifies this
      ensures Inv(State()) && State() == Step(old(State()), BeginShutdown(call))
      ensures !accepting && drained == shutdowns[call].drained
      ensures active == {} && wakeRequested == {} && handles == map[]
      ensures old(accepting) ==> drained == old(workers).Keys
    {
      StepKeepsInv(State(), BeginShutdown(call));
      if accepting {
        HandlesCoverWorkers(State());
      }
      accepting := false;
      active := {};
      wakeRequested := {};
      drained := handles.Values;
      handles := map[];
      shutdowns := shutdowns[call := Awaiting(drained)];
    }

    /** Waiting for one aborted task: it is gone afterwards, whatever else happened meanwhile. */
    method Await(call: ShutdownId, worker: WorkerId)
      requires Inv(State()) && !accepting && call in shutdowns && Drains(shutdowns[call], worker)
      modifies this
      ensures Inv(State()) && !accepting && worker !in workers && workers.Keys <= old(workers).Keys
      ensures call in shutdowns && shutdowns[call] == old(shutdowns[call])
    {
      var events: seq<Event> := *;
      if Run(State(), events) && NotCall(events, call) {
        RunKeepsInv(State(), events);
        OthersLeaveTheCallAlone(State(), events, call);
        NoneStartsAfterShutdown(State(), events);
        var t := After(State(), events);
        accepting, active := t.book.accepting, t.book.active;
        wakeRequested, handles := t.book.wakeRequested, t.book.handles;
        workers, executions, shutdowns := t.workers, t.executions, t.shutdowns;
      }
      if worker in workers {
        StepKeepsInv(State(), Aborted(worker));
        workers := workers - {worker};
      }
    }

    /**
      `shutdown_until`, up to the point where it hands over to the executor: when it is the call
      that closed the registry, no worker is alive at that point.
    */
    method ShutdownUntil(call: ShutdownId)
      requires Inv(State()) && call !in shutdowns
      modifies this
      ensures Inv(State()) && !accepting
      ensures call in shutdowns && shutdowns[call].ExecutorStopping?
      ensures old(accepting) ==> workers == map[]
    {
      var drained := Drain(call);
      ghost var others := workers.Keys - drained;
      var waiting := drained;
      while waiting != {}
        invariant Inv(State()) && !accepting && waiting <= drained
        invariant call in shutdowns && shutdowns[call] == Awaiting(drained)
        invariant workers.Keys <= others + waiting
        decreases |waiting|
      {
        var worker :| worker in waiting;
        Await(call, worker);
        waiting := waiting - {worker};
      }
      assert old(accepting) ==> workers.Keys == {};
      HandOver(call);
    }

    /** The point where a shutdown call begins to stop the executor. */
    method HandOver(call: ShutdownId)
      requires Inv(State()) && !accepting && Enabled(State(), StopExecutor(call))
      modifies this`shutdowns
      ensures Inv(State()) && State() == Step(old(State()), StopExecutor(call))
    {
      StepKeepsInv(State(), StopExecutor(call));
      shutdowns := shutdowns[call := ExecutorStopping];
    }
  }

  function Successes(reloads: seq<bool>): nat {
    if reloads == [] then 0
    else Successes(reloads[..|reloads| - 1]) + if reloads[|reloads| - 1] then 1 else 0
  }

  lemma OneMoreReload(reloads: seq<bool>, n: nat)
    requires n < |reloads|
    ensures Successes(reloads[..n + 1]) == Successes(reloads[..n]) + if reloads[n] then 1 else 0
  {
    assert reloads[..n + 1][..n] == reloads[..n];
  }

  lemma ServedIsActive(s: System)
    requires Inv(s)
    ensures s.book.accepting ==> s.book.active == Served(s)
  {
    if s.book.accepting {
      forall op ensures op in s.book.active <==> op in Served(s) {
        if op in s.book.active {
          assert s.workers[s.book.handles[op]].op == op;
        }
      }
    }
  }
}
