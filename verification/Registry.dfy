/**
  The worker registry: which operations have a worker, which of them were asked to run once more,
  and how shutdown takes all of them down. Runs are over every interleaving of starts, resumes,
  worker steps and shutdown calls.

  Each section of the code that holds the registry lock is one step: none of them awaits anything.
*/
module Registry {

  type OperationId = nat
  type WorkerId = nat
  type ShutdownId = nat

  /** The fields under the lock; `handles` names the task of each active operation. */
  datatype Book = Book(
    accepting: bool, active: set<OperationId>, wakeRequested: set<OperationId>, handles: map<OperationId, WorkerId>)

  const EMPTY := Book(true, {}, {}, map[])

  // ---------------------------------------------------------------------------------------------
  // The locked sections
  // ---------------------------------------------------------------------------------------------

  predicate MaySpawn(b: Book, op: OperationId) {
    b.accepting && op !in b.active
  }

  function Spawned(b: Book, op: OperationId, worker: WorkerId): Book {
    b.(active := b.active + {op}, handles := b.handles[op := worker])
  }

  /** `resume_existing` on an operation that already has a worker. */
  function Woken(b: Book, op: OperationId): Book {
    b.(wakeRequested := b.wakeRequested + {op})
  }

  /** The end of a worker's round: consume a wake, or leave. */
  function CheckedOut(b: Book, op: OperationId): Book {
    if op in b.wakeRequested then b.(wakeRequested := b.wakeRequested - {op})
    else b.(active := b.active - {op}, handles := b.handles - {op})
  }

  function Drained(b: Book): Book {
    Book(false, {}, {}, map[])
  }

  // ---------------------------------------------------------------------------------------------
  // The system
  // ---------------------------------------------------------------------------------------------

  datatype Origin = Fresh | Resumed

  datatype Phase = Executing | Checking | Reloading

  datatype Worker = Worker(op: OperationId, origin: Origin, phase: Phase)

  /**
    A shutdown call awaits the workers it drained and aborted, was dropped while it did, or has
    begun to shut the executor down.
  */
  datatype ShutdownCall = Awaiting(drained: set<WorkerId>) | Abandoned(drained: set<WorkerId>) | ExecutorStopping

  /** `workers` are the live tasks; `executions` counts how often each task ever began to execute. */
  datatype System = System(
    book: Book, workers: map<WorkerId, Worker>, executions: map<WorkerId, nat>,
    shutdowns: map<ShutdownId, ShutdownCall>)

  datatype Event =
    | Start(op: OperationId, worker: WorkerId)
    | Resume(op: OperationId, worker: WorkerId)
    | ExecutionEnds(worker: WorkerId)
    | Check(worker: WorkerId)
    | Reload(worker: WorkerId, loaded: bool)
    | BeginShutdown(call: ShutdownId)
    | AbandonShutdown(call: ShutdownId)
    | Aborted(worker: WorkerId)
    | StopExecutor(call: ShutdownId)

  const INITIAL := System(EMPTY, map[], map[], map[])

  predicate In(s: System, worker: WorkerId, phase: Phase) {
    worker in s.workers && s.workers[worker].phase == phase
  }

  predicate Enabled(s: System, e: Event) {
    match e
    case Start(_, w) => w !in s.executions
    case Resume(_, w) => w !in s.executions
    case ExecutionEnds(w) => In(s, w, Executing)
    case Check(w) => In(s, w, Checking)
    case Reload(w, _) => In(s, w, Reloading)
    case BeginShutdown(c) => c !in s.shutdowns
    case AbandonShutdown(c) => c in s.shutdowns && s.shutdowns[c].Awaiting?
    case Aborted(w) => w in s.workers && exists c :: c in s.shutdowns && Drains(s.shutdowns[c], w)
    case StopExecutor(c) => c in s.shutdowns && s.shutdowns[c].Awaiting? && s.shutdowns[c].drained !! s.workers.Keys
  }

  predicate Drains(call: ShutdownCall, worker: WorkerId) {
    !call.ExecutorStopping? && worker in call.drained
  }

  function SpawnWorker(s: System, op: OperationId, worker: WorkerId, origin: Origin): System {
    s.(book := Spawned(s.book, op, worker),
       workers := s.workers[worker := Worker(op, origin, Executing)],
       executions := s.executions[worker := 1])
  }

  function Moved(s: System, worker: WorkerId, phase: Phase): System
    requires worker in s.workers
  {
    var t := s.(workers := s.workers[worker := s.workers[worker].(phase := phase)]);
    if phase.Executing? && worker in s.executions then
      t.(executions := s.executions[worker := s.executions[worker] + 1])
    else t
  }

  function Step(s: System, e: Event): System
    requires Enabled(s, e)
  {
    match e
    case Start(op, w) => if MaySpawn(s.book, op) then SpawnWorker(s, op, w, Fresh) else s
    case Resume(op, w) =>
      if MaySpawn(s.book, op) then SpawnWorker(s, op, w, Resumed)
      else if s.book.accepting then s.(book := Woken(s.book, op))
      else s
    case ExecutionEnds(w) => Moved(s, w, Checking)
    case Check(w) =>
      var op := s.workers[w].op;
      var t := s.(book := CheckedOut(s.book, op));
      if op in s.book.wakeRequested then Moved(t, w, Reloading) else t.(workers := s.workers - {w})
    case Reload(w, loaded) =>
      // A resumed worker goes on with its old snapshot; a fresh one goes back to its check.
      if loaded || s.workers[w].origin.Resumed? then Moved(s, w, Executing) else Moved(s, w, Checking)
    case BeginShutdown(c) =>
      s.(book := Drained(s.book), shutdowns := s.shutdowns[c := Awaiting(s.book.handles.Values)])
    case AbandonShutdown(c) => s.(shutdowns := s.shutdowns[c := Abandoned(s.shutdowns[c].drained)])
    case Aborted(w) => s.(workers := s.workers - {w})
    case StopExecutor(c) => s.(shutdowns := s.shutdowns[c := ExecutorStopping])
  }

  predicate Run(s: System, events: seq<Event>)
    decreases |events|
  {
    events == [] || (Enabled(s, events[0]) && Run(Step(s, events[0]), events[1..]))
  }

  function After(s: System, events: seq<Event>): System
    requires Run(s, events)
    decreases |events|
  {
    if events == [] then s else After(Step(s, events[0]), events[1..])
  }

  // ---------------------------------------------------------------------------------------------
  // The invariant
  // ---------------------------------------------------------------------------------------------

  /** The handle of every active operation is its one live worker, and every live worker has one. */
  ghost predicate HandlesAreWorkers(s: System) {
    && s.book.active == s.book.handles.Keys
    && (forall op :: op in s.book.handles ==>
          s.book.handles[op] in s.workers && s.workers[s.book.handles[op]].op == op)
    && (forall w :: w in s.workers ==>
          s.workers[w].op in s.book.handles && s.book.handles[s.workers[w].op] == w)
  }

  ghost predicate OnePerOperation(s: System) {
    forall v, w :: v in s.workers && w in s.workers && s.workers[v].op == s.workers[w].op ==> v == w
  }

  ghost predicate Awaited(s: System, w: WorkerId) {
    exists c :: c in s.shutdowns && Drains(s.shutdowns[c], w)
  }

  ghost predicate Inv(s: System) {
    && s.workers.Keys <= s.executions.Keys
    && OnePerOperation(s)
    && (s.book.accepting ==> HandlesAreWorkers(s) && s.book.wakeRequested <= s.book.active && s.shutdowns == map[])
    && (!s.book.accepting ==> s.book == Drained(s.book) && s.shutdowns != map[])
    && (!s.book.accepting ==> forall w :: w in s.workers ==> Awaited(s, w))
  }

  lemma SpawnKeepsInv(s: System, op: OperationId, w: WorkerId, origin: Origin)
    requires Inv(s) && MaySpawn(s.book, op) && w !in s.executions
    ensures Inv(SpawnWorker(s, op, w, origin))
  {
    assert w !in s.workers;
  }

  lemma MoveKeepsInv(s: System, w: WorkerId, phase: Phase)
    requires Inv(s) && w in s.workers
    ensures Inv(Moved(s, w, phase))
  {
    var t := Moved(s, w, phase);
    forall v | v in t.workers && !t.book.accepting ensures Awaited(t, v) {
      assert Awaited(s, v);
    }
  }

  lemma CheckKeepsInv(s: System, w: WorkerId)
    requires Inv(s) && In(s, w, Checking)
    ensures Inv(Step(s, Check(w)))
  {
    var op := s.workers[w].op;
    var t := s.(book := CheckedOut(s.book, op));
    if op in s.book.wakeRequested {
      assert Inv(t);
      MoveKeepsInv(t, w, Reloading);
    } else {
      var u := Step(s, Check(w));
      forall v | v in u.workers && !u.book.accepting ensures Awaited(u, v) {
        assert Awaited(s, v);
      }
    }
  }

  lemma ShutdownKeepsInv(s: System, c: ShutdownId)
    requires Inv(s) && c !in s.shutdowns
    ensures Inv(Step(s, BeginShutdown(c)))
  {
    var t := Step(s, BeginShutdown(c));
    assert c in t.shutdowns;
    forall w | w in t.workers ensures Awaited(t, w) {
      if s.book.accepting {
        assert s.book.handles[s.workers[w].op] == w;
        assert Drains(t.shutdowns[c], w);
      } else {
        var d :| d in s.shutdowns && Drains(s.shutdowns[d], w);
        assert d in t.shutdowns && Drains(t.shutdowns[d], w);
      }
    }
  }

  lemma EndKeepsInv(s: System, e: Event)
    requires Inv(s) && Enabled(s, e) && (e.AbandonShutdown? || e.Aborted? || e.StopExecutor?)
    ensures Inv(Step(s, e))
  {
    var t := Step(s, e);
    assert s.shutdowns != map[];
    forall v | v in t.workers ensures Awaited(t, v) {
      var c :| c in s.shutdowns && Drains(s.shutdowns[c], v);
      assert c in t.shutdowns && Drains(t.shutdowns[c], v);
    }
    assert !e.Aborted? ==> e.call in t.shutdowns;
  }

  lemma StepKeepsInv(s: System, e: Event)
    requires Inv(s) && Enabled(s, e)
    ensures Inv(Step(s, e))
  {
    match e
    case Start(op, w) => if MaySpawn(s.book, op) { SpawnKeepsInv(s, op, w, Fresh); }
    case Resume(op, w) => if MaySpawn(s.book, op) { SpawnKeepsInv(s, op, w, Resumed); }
    case ExecutionEnds(w) => MoveKeepsInv(s, w, Checking);
    case Check(w) => CheckKeepsInv(s, w);
    case Reload(w, loaded) =>
      MoveKeepsInv(s, w, if loaded || s.workers[w].origin.Resumed? then Executing else Checking);
    case BeginShutdown(c) => ShutdownKeepsInv(s, c);
    case _ => EndKeepsInv(s, e);
  }

  lemma {:induction false} RunKeepsInv(s: System, events: seq<Event>)
    requires Inv(s) && Run(s, events)
    ensures Inv(After(s, events))
    decreases |events|
  {
    if events == [] {
    } else {
      StepKeepsInv(s, events[0]);
      RunKeepsInv(Step(s, events[0]), events[1..]);
    }
  }

  /** The operations that have a live worker. */
  function Served(s: System): set<OperationId> {
    set w | w in s.workers :: s.workers[w].op
  }

  /**
    In every reachable state no operation has two workers, and until shutdown begins the active set
    is exactly the set of operations with a live worker, each reachable through its handle.
  */
  lemma EveryReachableState(events: seq<Event>)
    requires Run(INITIAL, events)
    ensures var s := After(INITIAL, events);
            && OnePerOperation(s)
            && (s.book.accepting ==> HandlesAreWorkers(s) && s.book.active == Served(s))
            && (s.book.accepting ==> s.book.wakeRequested <= Served(s))
            && (!s.book.accepting ==> s.book.active == {} && s.book.handles == map[])
  {
    assert Inv(INITIAL);
    RunKeepsInv(INITIAL, events);
    var s := After(INITIAL, events);
    if s.book.accepting {
      forall op ensures op in s.book.active <==> op in Served(s) {
        if op in s.book.active {
          assert s.workers[s.book.handles[op]].op == op;
        }
      }
    }
  }

  lemma HandlesCoverWorkers(s: System)
    requires Inv(s) && s.book.accepting
    ensures s.book.handles.Values == s.workers.Keys
  {
    forall w ensures w in s.book.handles.Values <==> w in s.workers {
      if w in s.workers {
        assert s.book.handles[s.workers[w].op] == w;
      }
    }
  }

  // ---------------------------------------------------------------------------------------------
  // Wakes
  // ---------------------------------------------------------------------------------------------

  /** Worker `w` began to execute more than `n` times, or still has a wake to act on. */
  predicate Owes(s: System, w: WorkerId, n: nat) {
    || (w in s.executions && s.executions[w] > n)
    || (w in s.workers && (s.workers[w].op in s.book.wakeRequested || s.workers[w].phase.Reloading?))
  }

  predicate NeverFailsToReload(events: seq<Event>, w: WorkerId) {
    forall i :: 0 <= i < |events| ==> events[i] != Reload(w, false)
  }

  lemma OwingContinues(s: System, e: Event, w: WorkerId, n: nat)
    requires Inv(s) && Enabled(s, e) && Owes(s, w, n)
    requires w in s.executions && s.executions[w] >= n
    requires Step(s, e).book.accepting
    requires w in s.workers && s.workers[w].origin.Fresh? ==> e != Reload(w, false)
    ensures w in Step(s, e).executions && Step(s, e).executions[w] >= n
    ensures Owes(Step(s, e), w, n)
    ensures w in Step(s, e).workers ==> w in s.workers && Step(s, e).workers[w].origin == s.workers[w].origin
  {
    assert s.book.accepting;
    if e.Check? && e.worker != w && w in s.workers {
      assert s.workers[e.worker].op != s.workers[w].op;
    }
  }

  /**
    A wake is never lost: while the registry accepts work, a worker whose operation was woken
    executes again before it leaves, if it was resumed, or if none of its reloads fails.
  */
  lemma {:induction false} WakeLeadsToExecution(s: System, events: seq<Event>, w: WorkerId, n: nat)
    requires Inv(s) && Run(s, events) && After(s, events).book.accepting
    requires w in s.executions && s.executions[w] >= n && Owes(s, w, n)
    requires (w in s.workers && s.workers[w].origin.Resumed?) || NeverFailsToReload(events, w)
    ensures w !in After(s, events).workers ==> w in After(s, events).executions && After(s, events).executions[w] > n
    decreases |events|
  {
    if events == [] {
    } else {
      var e, t := events[0], Step(s, events[0]);
      AcceptingBefore(t, events[1..]);
      OwingContinues(s, e, w, n);
      StepKeepsInv(s, e);
      if w in t.workers || NeverFailsToReload(events, w) {
        assert NeverFailsToReload(events, w) ==> NeverFailsToReload(events[1..], w);
        WakeLeadsToExecution(t, events[1..], w, n);
      } else {
        ExecutionsOnlyGrow(t, events[1..], w);
      }
    }
  }

  lemma {:induction false} AcceptingBefore(s: System, events: seq<Event>)
    requires Run(s, events) && After(s, events).book.accepting
    ensures s.book.accepting
    decreases |events|
  {
    if events == [] {
    } else {
      AcceptingBefore(Step(s, events[0]), events[1..]);
    }
  }

  lemma {:induction false} ExecutionsOnlyGrow(s: System, events: seq<Event>, w: WorkerId)
    requires Run(s, events) && w in s.executions
    ensures w in After(s, events).executions && After(s, events).executions[w] >= s.executions[w]
    decreases |events|
  {
    if events == [] {
    } else {
      ExecutionsOnlyGrow(Step(s, events[0]), events[1..], w);
    }
  }

  /**
    The condition on fresh workers is needed: whenever the reload of a fresh worker fails and
    nobody wakes it again, it leaves without executing.
  */
  lemma FailedReloadLosesTheWake(s: System, w: WorkerId)
    requires Inv(s) && In(s, w, Reloading) && s.workers[w].origin.Fresh?
    requires s.workers[w].op !in s.book.wakeRequested
    ensures Run(s, [Reload(w, false), Check(w)])
    ensures var t := After(s, [Reload(w, false), Check(w)]);
            w !in t.workers && t.executions == s.executions && t.book.accepting == s.book.accepting
  {
    var events := [Reload(w, false), Check(w)];
    var t := Step(s, events[0]);
    assert events[1..] == [Check(w)] && events[1..][1..] == [];
    assert Enabled(t, Check(w));
    var u := Step(t, Check(w));
    assert Run(u, []) && Run(t, events[1..]) && After(t, events[1..]) == u;
  }

  /** While the registry accepts work, worker `w` does not leave before it has executed again. */
  ghost predicate WakeIsHonoured(s: System, w: WorkerId)
    requires w in s.executions
  {
    forall events :: Run(s, events) && After(s, events).book.accepting && w !in After(s, events).workers ==>
      w in After(s, events).executions && After(s, events).executions[w] > s.executions[w]
  }

  /** A fresh worker with a pending wake and no second one can leave without executing. */
  lemma FreshCanLoseTheWake(s: System, w: WorkerId) returns (events: seq<Event>)
    requires Inv(s) && s.book.accepting && w in s.workers && s.workers[w].origin.Fresh?
    requires s.workers[w].op in s.book.wakeRequested || s.workers[w].phase.Reloading?
    ensures Run(s, events) && After(s, events).book.accepting
    ensures w !in After(s, events).workers && After(s, events).executions == s.executions
    decreases s.workers[w].op in s.book.wakeRequested, !s.workers[w].phase.Checking?
  {
    var worker := s.workers[w];
    var woken := worker.op in s.book.wakeRequested;
    if worker.phase.Reloading? && !woken {
      FailedReloadLosesTheWake(s, w);
      events := [Reload(w, false), Check(w)];
    } else {
      var e := match worker.phase
               case Executing => ExecutionEnds(w)
               case Checking => Check(w)
               case Reloading => Reload(w, false);
      StepKeepsInv(s, e);
      var rest := FreshCanLoseTheWake(Step(s, e), w);
      events := [e] + rest;
      assert events[1..] == rest;
    }
  }

  /**
    The exact condition for a pending wake to be honoured, in every continuation in which the
    registry keeps accepting work: the worker is a resumed one.
  */
  lemma WakeIsHonouredExactly(s: System, w: WorkerId)
    requires Inv(s) && s.book.accepting && w in s.workers
    requires s.workers[w].op in s.book.wakeRequested || s.workers[w].phase.Reloading?
    ensures WakeIsHonoured(s, w) <==> s.workers[w].origin.Resumed?
  {
    if s.workers[w].origin.Resumed? {
      forall events | Run(s, events) && After(s, events).book.accepting && w !in After(s, events).workers
        ensures w in After(s, events).executions && After(s, events).executions[w] > s.executions[w]
      {
        WakeLeadsToExecution(s, events, w, s.executions[w]);
      }
    } else {
      var events := FreshCanLoseTheWake(s, w);
      assert After(s, events).executions[w] == s.executions[w];
    }
  }

  // ---------------------------------------------------------------------------------------------
  // Shutdown
  // ---------------------------------------------------------------------------------------------

  lemma {:induction false} NoneStartsAfterShutdown(s: System, events: seq<Event>)
    requires !s.book.accepting && Run(s, events)
    ensures !After(s, events).book.accepting && After(s, events).workers.Keys <= s.workers.Keys
    decreases |events|
  {
    if events == [] {
    } else {
      NoneStartsAfterShutdown(Step(s, events[0]), events[1..]);
    }
  }

  /** Every shutdown call other than `c` has seen its own workers end. */
  predicate OnlyCall(s: System, c: ShutdownId) {
    forall d :: d in s.shutdowns && d != c ==> s.shutdowns[d].ExecutorStopping?
  }

  /**
    When a shutdown call begins to stop the executor, every worker still alive is one that another
    shutdown call drained and did not see end; with no such call, none is alive and none ever
    starts again.
  */
  lemma ExecutorStopsAfterWorkers(s: System, c: ShutdownId, later: seq<Event>)
    requires Inv(s) && Enabled(s, StopExecutor(c)) && Run(Step(s, StopExecutor(c)), later)
    ensures forall w :: w in s.workers ==> exists d :: d != c && d in s.shutdowns && Drains(s.shutdowns[d], w)
    ensures After(Step(s, StopExecutor(c)), later).workers.Keys <= s.workers.Keys
    ensures OnlyCall(s, c) ==> After(Step(s, StopExecutor(c)), later).workers == map[]
  {
    assert s.shutdowns != map[];
    assert !s.book.accepting;
    forall w | w in s.workers ensures exists d :: d != c && d in s.shutdowns && Drains(s.shutdowns[d], w) {
      assert Awaited(s, w);
      var d :| d in s.shutdowns && Drains(s.shutdowns[d], w);
      assert d != c;
    }
    NoneStartsAfterShutdown(Step(s, StopExecutor(c)), later);
    if OnlyCall(s, c) {
      assert s.workers.Keys == {};
      assert After(Step(s, StopExecutor(c)), later).workers.Keys == {};
    }
  }

  lemma {:induction false} CallKeepsItsWorkers(s: System, events: seq<Event>, c: ShutdownId)
    requires Run(s, events) && c in s.shutdowns
    requires c in After(s, events).shutdowns && After(s, events).shutdowns[c].Awaiting?
    ensures After(s, events).shutdowns[c] == s.shutdowns[c]
    decreases |events|
  {
    if events == [] {
    } else {
      CallStays(Step(s, events[0]), events[1..], c);
      CallKeepsItsWorkers(Step(s, events[0]), events[1..], c);
    }
  }

  /** A call that no longer awaits its workers never awaits them again. */
  lemma {:induction false} CallStays(s: System, events: seq<Event>, c: ShutdownId)
    requires Run(s, events) && c in s.shutdowns
    ensures c in After(s, events).shutdowns
    ensures !s.shutdowns[c].Awaiting? ==> !After(s, events).shutdowns[c].Awaiting?
    decreases |events|
  {
    if events == [] {
    } else {
      CallStays(Step(s, events[0]), events[1..], c);
    }
  }

  /** Call `c`, begun at `s`, reaches the executor only when no worker is alive, whatever happens meanwhile. */
  ghost predicate StopsCleanly(s: System, c: ShutdownId)
    requires c !in s.shutdowns
  {
    var begun := Step(s, BeginShutdown(c));
    forall events :: Run(begun, events) && Enabled(After(begun, events), StopExecutor(c)) ==>
      After(begun, events).workers == map[]
  }

  lemma AcceptingStopsCleanly(s: System, c: ShutdownId)
    requires Inv(s) && c !in s.shutdowns && (s.book.accepting || s.workers == map[])
    ensures StopsCleanly(s, c)
  {
    var begun := Step(s, BeginShutdown(c));
    if s.book.accepting {
      HandlesCoverWorkers(s);
    }
    forall events | Run(begun, events) && Enabled(After(begun, events), StopExecutor(c))
      ensures After(begun, events).workers == map[]
    {
      NoneStartsAfterShutdown(begun, events);
      CallKeepsItsWorkers(begun, events, c);
      var t := After(begun, events);
      assert t.workers.Keys <= s.workers.Keys;
      assert s.book.accepting ==> s.workers.Keys == t.shutdowns[c].drained;
      assert t.workers.Keys == {};
    }
  }

  /**
    The exact condition for a shutdown call to stop the executor only after every worker has ended:
    when it begins, the registry still accepts work, so that it drains every worker itself, or no
    worker is alive.
  */
  lemma StopsCleanlyExactly(s: System, c: ShutdownId)
    requires Inv(s) && c !in s.shutdowns
    ensures StopsCleanly(s, c) <==> s.book.accepting || s.workers == map[]
  {
    if s.book.accepting || s.workers == map[] {
      AcceptingStopsCleanly(s, c);
    } else {
      var begun := Step(s, BeginShutdown(c));
      assert begun.shutdowns[c].drained == {};
      assert Run(begun, []) && After(begun, []) == begun && Enabled(begun, StopExecutor(c));
    }
  }

  /**
    A reachable instance: a second shutdown call finds no handles, awaits nobody, and stops the
    executor while the worker drained by the first is still executing.
  */
  lemma TwoShutdownsOverlap()
    ensures var events := [Start(0, 0), BeginShutdown(0), BeginShutdown(1), StopExecutor(1)];
            && Run(INITIAL, events)
            && In(After(INITIAL, events), 0, Executing)
  {
    var events := [Start(0, 0), BeginShutdown(0), BeginShutdown(1), StopExecutor(1)];
    var a := Step(INITIAL, events[0]);
    var b := Step(a, events[1]);
    var c := Step(b, events[2]);
    assert c.shutdowns[1].drained == {};
    var d := Step(c, events[3]);
    assert events[3..] == [StopExecutor(1)] && events[3..][1..] == [];
    assert Run(d, []) && Run(c, events[3..]) && After(c, events[3..]) == d;
    assert events[2..][1..] == events[3..];
    assert Run(b, events[2..]) && After(b, events[2..]) == d;
    assert events[1..][1..] == events[2..];
    assert Run(a, events[1..]) && After(a, events[1..]) == d;
  }
}
