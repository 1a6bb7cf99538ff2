/**
  The recovery reconciler: acquire an epoch, take the inventory, inspect and classify every entry,
  record the classification, act.

  The backend answers each call by its position in the trace, so a statement about every script
  covers every inventory, every set of observations, and failures at any call.
*/
module Recovery {
  import opened Wrappers
  import opened RecoveryTable

  type Uuid = nat
  type Epoch = nat

  datatype Entity =
    | SessionEntity(session: Uuid)
    | ParticipantEntity(participant: Uuid)
    | InstanceEntity(launch: Uuid)
    | OperationEntity(operation: Uuid, input: Uuid)
    | MessageEntity(message: Uuid)
    | EffectEntity(request: Uuid)

  datatype Candidate = Candidate(ordinal: nat, session: Uuid, entity: Entity, state: State)

  datatype Classified = Classified(entity: Entity, state: State, observation: Observation, decision: Decision)

  datatype Status = Executed | NoOp | Pending | BlockedByUncertainty | BlockedByCleanup

  datatype Execution = Execution(item: Classified, status: Status)

  datatype RunIds = RunIds(ownership: Uuid, classification: Uuid)

  datatype Error =
    | BackendError
    | Contradicted(contradiction: Contradiction)
    | ActionEntityMismatch
    | InventoryOrder
    | DuplicateEntity
    | CrossSessionEntity

  datatype Call =
    | Acquire(session: Uuid, request: Uuid)
    | Unfinished(session: Uuid, epoch: Epoch)
    | Inspect(launch: Uuid, epoch: Epoch)
    | Record(epoch: Epoch, request: Uuid, items: seq<Classified>)
    | Schedule(epoch: Epoch, operation: Uuid, input: Uuid)
    | Redeliver(epoch: Epoch, message: Uuid)
    | Reconnect(epoch: Epoch, launch: Uuid)
    | Cleanup(epoch: Epoch, launch: Uuid)

  /** Everything a call may answer; each call reads the part that concerns it. */
  datatype Answer = Answer(
    ok: bool, epoch: Epoch, inventory: seq<Candidate>, observation: Observation, handled: bool)

  /** The answers by call position; a call beyond the script fails. */
  type Script = seq<Answer>

  function At(script: Script, n: nat): Answer {
    if n < |script| then script[n] else Answer(false, 0, [], NotApplicable, false)
  }

  predicate IsHandler(c: Call) {
    c.Schedule? || c.Redeliver? || c.Reconnect? || c.Cleanup?
  }

  // ---------------------------------------------------------------------------------------------
  // The inventory check
  // ---------------------------------------------------------------------------------------------

  /** The single pass: remembers the previous ordinal and the entities seen. */
  function CheckFrom(session: Uuid, cs: seq<Candidate>, previous: nat, seen: set<Entity>): Option<Error> {
    if cs == [] then None
    else if cs[0].session != session then Some(CrossSessionEntity)
    else if cs[0].ordinal == 0 || cs[0].ordinal <= previous then Some(InventoryOrder)
    else if cs[0].entity in seen then Some(DuplicateEntity)
    else CheckFrom(session, cs[1..], cs[0].ordinal, seen + {cs[0].entity})
  }

  predicate DistinctEntities(cs: seq<Candidate>) {
    forall i, j :: 0 <= i < j < |cs| ==> cs[i].entity != cs[j].entity
  }

  predicate WellFormed(session: Uuid, cs: seq<Candidate>) {
    && (forall i :: 0 <= i < |cs| ==> cs[i].session == session)
    && (forall i :: 0 <= i < |cs| ==> cs[i].ordinal > 0)
    && (forall i, j :: 0 <= i < j < |cs| ==> cs[i].ordinal < cs[j].ordinal)
    && DistinctEntities(cs)
  }

  /** In order, after `previous`, and without the entities of `seen`. */
  predicate InOrderAfter(session: Uuid, cs: seq<Candidate>, previous: nat, seen: set<Entity>) {
    WellFormed(session, cs) && forall i :: 0 <= i < |cs| ==> cs[i].ordinal > previous && cs[i].entity !in seen
  }

  predicate Starts(session: Uuid, c: Candidate, previous: nat, seen: set<Entity>) {
    c.session == session && c.ordinal > 0 && c.ordinal > previous && c.entity !in seen
  }

  lemma InOrderTail(session: Uuid, cs: seq<Candidate>, previous: nat, seen: set<Entity>)
    requires cs != [] && InOrderAfter(session, cs, previous, seen)
    ensures Starts(session, cs[0], previous, seen)
    ensures InOrderAfter(session, cs[1..], cs[0].ordinal, seen + {cs[0].entity})
  {
    var rest := cs[1..];
    forall i | 0 <= i < |rest| ensures rest[i].ordinal > cs[0].ordinal && rest[i].entity !in seen + {cs[0].entity} {
      assert rest[i] == cs[i + 1] && cs[0].entity != cs[i + 1].entity;
    }
  }

  lemma InOrderCons(session: Uuid, cs: seq<Candidate>, previous: nat, seen: set<Entity>)
    requires cs != [] && Starts(session, cs[0], previous, seen)
    requires InOrderAfter(session, cs[1..], cs[0].ordinal, seen + {cs[0].entity})
    ensures InOrderAfter(session, cs, previous, seen)
  {
    var rest := cs[1..];
    assert forall j :: 0 < j < |cs| ==> cs[j] == rest[j - 1];
    forall i, j | 0 <= i < j < |cs| ensures cs[i].ordinal < cs[j].ordinal && cs[i].entity != cs[j].entity {
      assert cs[j] == rest[j - 1];
      assert i > 0 ==> cs[i] == rest[i - 1];
    }
  }

  lemma {:induction false} CheckFromIsExact(session: Uuid, cs: seq<Candidate>, previous: nat, seen: set<Entity>)
    ensures CheckFrom(session, cs, previous, seen).None? <==> InOrderAfter(session, cs, previous, seen)
  {
    if cs == [] {
    } else {
      CheckFromIsExact(session, cs[1..], cs[0].ordinal, seen + {cs[0].entity});
      if InOrderAfter(session, cs, previous, seen) {
        InOrderTail(session, cs, previous, seen);
      }
      if CheckFrom(session, cs, previous, seen).None? {
        InOrderCons(session, cs, previous, seen);
      }
    }
  }

  /** The single pass accepts exactly the well-formed inventories. */
  lemma InventoryCheckIsExact(session: Uuid, cs: seq<Candidate>)
    ensures CheckFrom(session, cs, 0, {}).None? <==> WellFormed(session, cs)
  {
    CheckFromIsExact(session, cs, 0, {});
  }

  /** What is wrong with candidate `i`, the first one that is not in order. */
  function Defect(session: Uuid, cs: seq<Candidate>, previous: nat, i: nat): Error
    requires i < |cs|
  {
    var before := if i == 0 then previous else cs[i - 1].ordinal;
    if cs[i].session != session then CrossSessionEntity
    else if cs[i].ordinal == 0 || cs[i].ordinal <= before then InventoryOrder
    else DuplicateEntity
  }

  lemma {:induction false} FirstRefusal(session: Uuid, cs: seq<Candidate>, previous: nat, seen: set<Entity>)
    returns (i: nat)
    requires CheckFrom(session, cs, previous, seen).Some?
    ensures i < |cs| && CheckFrom(session, cs, previous, seen) == Some(Defect(session, cs, previous, i))
    ensures CheckFrom(session, cs[..i], previous, seen).None?
    ensures CheckFrom(session, cs[..i + 1], previous, seen).Some?
  {
    var c := cs[0];
    if c.session != session || c.ordinal == 0 || c.ordinal <= previous || c.entity in seen {
      i := 0;
    } else {
      var j := FirstRefusal(session, cs[1..], c.ordinal, seen + {c.entity});
      i := j + 1;
      assert cs[..i][1..] == cs[1..][..j] && cs[..i + 1][1..] == cs[1..][..j + 1];
    }
  }

  /** A refused inventory is refused for its first defect: everything before it is in order. */
  lemma InventoryErrorIsFirstDefect(session: Uuid, cs: seq<Candidate>) returns (i: nat)
    requires !WellFormed(session, cs)
    ensures i < |cs| && CheckFrom(session, cs, 0, {}) == Some(Defect(session, cs, 0, i))
    ensures WellFormed(session, cs[..i]) && !WellFormed(session, cs[..i + 1])
  {
    InventoryCheckIsExact(session, cs);
    i := FirstRefusal(session, cs, 0, {});
    InventoryCheckIsExact(session, cs[..i]);
    InventoryCheckIsExact(session, cs[..i + 1]);
  }

  // ---------------------------------------------------------------------------------------------
  // Classification
  // ---------------------------------------------------------------------------------------------

  function InspectCalls(cs: seq<Candidate>, epoch: Epoch): seq<Call> {
    if cs == [] then []
    else
      (if cs[0].entity.InstanceEntity? then [Inspect(cs[0].entity.launch, epoch)] else [])
      + InspectCalls(cs[1..], epoch)
  }

  /** Inspecting and classifying from call position `at` on: the calls made, and the result. */
  function Classify(cs: seq<Candidate>, epoch: Epoch, at: nat, script: Script)
    : (seq<Call>, Result<seq<Classified>, Error>)
  {
    if cs == [] then ([], Success([]))
    else
      var c := cs[0];
      var calls := if c.entity.InstanceEntity? then [Inspect(c.entity.launch, epoch)] else [];
      if c.entity.InstanceEntity? && !At(script, at).ok then (calls, Failure(BackendError))
      else
        var observation := if c.entity.InstanceEntity? then At(script, at).observation else NotApplicable;
        match ClassifyRecovery(c.state, observation)
        case Failure(x) => (calls, Failure(Contradicted(x)))
        case Success(d) =>
          var rest := Classify(cs[1..], epoch, at + |calls|, script);
          (calls + rest.0,
           match rest.1
           case Failure(e) => Failure(e)
           case Success(items) => Success([Classified(c.entity, c.state, observation, d)] + items))
  }

  function PlannedStatus(item: Classified, hasUncertainty: bool, hasCleanup: bool): Status {
    match item.decision.action
    case NoAction => NoOp
    case Continue => NoOp
    case AwaitResolution => Pending
    case CleanupVerifiedResource => if hasUncertainty then BlockedByUncertainty else Pending
    case _ =>
      if hasUncertainty then BlockedByUncertainty else if hasCleanup then BlockedByCleanup else Pending
  }

  function Planned(items: seq<Classified>, hasUncertainty: bool, hasCleanup: bool): seq<Execution> {
    seq(|items|, i requires 0 <= i < |items| =>
      Execution(items[i], PlannedStatus(items[i], hasUncertainty, hasCleanup)))
  }

  // ---------------------------------------------------------------------------------------------
  // Acting
  // ---------------------------------------------------------------------------------------------

  /** The backend handler an item asks for, with the persisted identities. */
  function HandlerCall(item: Classified, epoch: Epoch): Option<Call> {
    match (item.decision.action, item.entity)
    case (ScheduleExistingOperation, OperationEntity(o, m)) => Some(Schedule(epoch, o, m))
    case (RedeliverExactMessage, MessageEntity(m)) => Some(Redeliver(epoch, m))
    case (ReconnectExactInstance, InstanceEntity(l)) => Some(Reconnect(epoch, l))
    case (CleanupVerifiedResource, InstanceEntity(l)) => Some(Cleanup(epoch, l))
    case _ => None
  }

  datatype Outcome = Outcome(executions: seq<Execution>, calls: seq<Call>, error: Option<Error>)

  function Act(x: Execution, epoch: Epoch, answer: Answer): Outcome {
    if !x.status.Pending? then Outcome([x], [], None)
    else
      match HandlerCall(x.item, epoch)
      case Some(call) =>
        if !answer.ok then Outcome([x], [call], Some(BackendError))
        else Outcome([x.(status := if call.Schedule? || answer.handled then Executed else Pending)], [call], None)
      case None =>
        match x.item.decision.action
        case Continue => Outcome([x.(status := Executed)], [], None)
        case NoAction => Outcome([x.(status := Executed)], [], None)
        case AwaitResolution => Outcome([x], [], None)
        case _ => Outcome([x], [], Some(ActionEntityMismatch))
  }

  function Execute(xs: seq<Execution>, epoch: Epoch, at: nat, script: Script): Outcome {
    if xs == [] then Outcome([], [], None)
    else
      var first := Act(xs[0], epoch, At(script, at));
      if first.error.Some? then Outcome(first.executions + xs[1..], first.calls, first.error)
      else
        var rest := Execute(xs[1..], epoch, at + |first.calls|, script);
        Outcome(first.executions + rest.executions, first.calls + rest.calls, rest.error)
  }

  // ---------------------------------------------------------------------------------------------
  // The reconciler
  // ---------------------------------------------------------------------------------------------

  class Backend {
    const script: Script
    var trace: seq<Call>

    constructor (script: Script)
      ensures this.script == script && trace == []
    {
      this.script, trace := script, [];
    }

    method Ask(call: Call) returns (answer: Answer)
      modifies this
      ensures trace == old(trace) + [call] && answer == At(script, |old(trace)|)
    {
      answer := At(script, |trace|);
      trace := trace + [call];
    }
  }

  class Reconciliation {
    const epoch: Epoch
    const classifications: seq<Classified>
    /** Items with something to do, whether or not the barrier lets it happen. */
    const actions: seq<Classified>
    var executions: seq<Execution>

    constructor (epoch: Epoch, classifications: seq<Classified>, actions: seq<Classified>, executions: seq<Execution>)
      ensures this.epoch == epoch && this.classifications == classifications
      ensures this.actions == actions && this.executions == executions
    {
      this.epoch, this.classifications, this.actions, this.executions := epoch, classifications, actions, executions;
    }
  }

  method CheckInventory(session: Uuid, cs: seq<Candidate>) returns (error: Option<Error>)
    ensures error == CheckFrom(session, cs, 0, {})
    ensures error.None? <==> WellFormed(session, cs)
  {
    InventoryCheckIsExact(session, cs);
    var seen: set<Entity> := {};
    var previous := 0;
    for i := 0 to |cs|
      invariant CheckFrom(session, cs, 0, {}) == CheckFrom(session, cs[i..], previous, seen)
    {
      var candidate := cs[i];
      assert cs[i..][1..] == cs[i + 1..];
      if candidate.session != session {
        return Some(CrossSessionEntity);
      }
      if candidate.ordinal == 0 || candidate.ordinal <= previous {
        return Some(InventoryOrder);
      }
      previous := candidate.ordinal;
      if candidate.entity in seen {
        return Some(DuplicateEntity);
      }
      seen := seen + {candidate.entity};
    }
    error := None;
  }

  function Prepend(items: seq<Classified>, r: Result<seq<Classified>, Error>): Result<seq<Classified>, Error> {
    match r
    case Failure(e) => Failure(e)
    case Success(more) => Success(items + more)
  }

  method ClassifyInventory(backend: Backend, cs: seq<Candidate>, epoch: Epoch)
    returns (r: Result<seq<Classified>, Error>)
    modifies backend
    ensures var spec := Classify(cs, epoch, |old(backend.trace)|, backend.script);
            backend.trace == old(backend.trace) + spec.0 && r == spec.1
  {
    var classified: seq<Classified> := [];
    ghost var whole := Classify(cs, epoch, |backend.trace|, backend.script);
    ghost var end := backend.trace + whole.0;
    ghost var rest := whole;
    assert rest.1.Success? ==> [] + rest.1.value == rest.1.value;
    for i := 0 to |cs|
      invariant rest == Classify(cs[i..], epoch, |backend.trace|, backend.script)
      invariant end == backend.trace + rest.0
      invariant whole.1 == Prepend(classified, rest.1)
    {
      assert cs[i..][1..] == cs[i + 1..];
      ghost var before := backend.trace;
      var candidate := cs[i];
      var observation := NotApplicable;
      if candidate.entity.InstanceEntity? {
        var answer := backend.Ask(Inspect(candidate.entity.launch, epoch));
        if !answer.ok {
          return Failure(BackendError);
        }
        observation := answer.observation;
      }
      var decision := ClassifyRecovery(candidate.state, observation);
      if decision.Failure? {
        return Failure(Contradicted(decision.error));
      }
      ghost var tail := Classify(cs[i + 1..], epoch, |backend.trace|, backend.script);
      var item := Classified(candidate.entity, candidate.state, observation, decision.value);
      assert before + rest.0 == backend.trace + tail.0;
      assert tail.1.Success? ==> classified + ([item] + tail.1.value) == (classified + [item]) + tail.1.value;
      classified := classified + [item];
      rest := tail;
    }
    r := Success(classified);
    assert classified + [] == classified;
  }

  /** The match at the heart of `execute_actions`, for one entry. */
  method ActOn(backend: Backend, x: Execution, epoch: Epoch) returns (x': Execution, error: Option<Error>)
    modifies backend
    ensures var spec := Act(x, epoch, At(backend.script, |old(backend.trace)|));
            [x'] == spec.executions && error == spec.error && backend.trace == old(backend.trace) + spec.calls
  {
    x', error := x, None;
    if !x.status.Pending? {
      return;
    }
    var call := HandlerCall(x.item, epoch);
    if call.Some? {
      var answer := backend.Ask(call.value);
      if !answer.ok {
        return x, Some(BackendError);
      }
      x' := x.(status := if call.value.Schedule? || answer.handled then Executed else Pending);
    } else if x.item.decision.action.Continue? || x.item.decision.action.NoAction? {
      x' := x.(status := Executed);
    } else if !x.item.decision.action.AwaitResolution? {
      error := Some(ActionEntityMismatch);
    }
  }

  /** An outcome that continues after `done` entries and `calls` calls. */
  function Resume(done: seq<Execution>, calls: seq<Call>, rest: Outcome): Outcome {
    Outcome(done + rest.executions, calls + rest.calls, rest.error)
  }

  lemma ResumeStep(done: seq<Execution>, calls: seq<Call>, todo: seq<Execution>, epoch: Epoch, at: nat, script: Script)
    requires todo != []
    ensures var act := Act(todo[0], epoch, At(script, at));
            Resume(done, calls, Execute(todo, epoch, at, script)) ==
            if act.error.Some? then Outcome((done + act.executions) + todo[1..], calls + act.calls, act.error)
            else Resume(done + act.executions, calls + act.calls, Execute(todo[1..], epoch, at + |act.calls|, script))
  {
    var act := Act(todo[0], epoch, At(script, at));
    assert done + (act.executions + todo[1..]) == (done + act.executions) + todo[1..];
    if act.error.None? {
      var tail := Execute(todo[1..], epoch, at + |act.calls|, script);
      assert done + (act.executions + tail.executions) == (done + act.executions) + tail.executions;
      assert calls + (act.calls + tail.calls) == (calls + act.calls) + tail.calls;
    }
  }

  /** A pass that has dealt with `done`, made `calls` since `start`, and is on its way to `spec`. */
  ghost predicate OnTrack(spec: Outcome, xs: seq<Execution>, trace: seq<Call>, start: seq<Call>,
                          done: seq<Execution>, calls: seq<Call>, todo: seq<Execution>, epoch: Epoch, script: Script) {
    && xs == done + todo
    && trace == start + calls
    && spec == Resume(done, calls, Execute(todo, epoch, |trace|, script))
  }

  lemma OnTrackStep(spec: Outcome, xs: seq<Execution>, trace: seq<Call>, start: seq<Call>,
                    done: seq<Execution>, calls: seq<Call>, todo: seq<Execution>, epoch: Epoch, script: Script,
                    x: Execution, act: Outcome)
    requires OnTrack(spec, xs, trace, start, done, calls, todo, epoch, script) && todo != []
    requires act == Act(todo[0], epoch, At(script, |trace|)) && act.executions == [x]
    ensures act.error.None? ==>
              OnTrack(spec, xs[|done| := x], trace + act.calls, start, done + [x], calls + act.calls, todo[1..],
                      epoch, script)
    ensures act.error.Some? ==>
              spec == Outcome(xs[|done| := x], calls + act.calls, act.error) && trace + act.calls == start + spec.calls
  {
    ResumeStep(done, calls, todo, epoch, |trace|, script);
    assert xs[|done| := x] == (done + [x]) + todo[1..];
    assert (start + calls) + act.calls == start + (calls + act.calls);
  }

  method ExecuteActions(backend: Backend, plan: Reconciliation) returns (error: Option<Error>)
    modifies backend, plan`executions
    ensures var spec := Execute(old(plan.executions), plan.epoch, |old(backend.trace)|, backend.script);
            && plan.executions == spec.executions
            && backend.trace == old(backend.trace) + spec.calls
            && error == spec.error
  {
    ghost var start := backend.trace;
    ghost var spec := Execute(plan.executions, plan.epoch, |start|, backend.script);
    ghost var done: seq<Execution>, calls: seq<Call>, todo := [], [], plan.executions;
    assert start + calls == start && spec == Resume(done, calls, spec);
    var i := 0;
    while i < |plan.executions|
      invariant i == |done|
      invariant OnTrack(spec, plan.executions, backend.trace, start, done, calls, todo, plan.epoch, backend.script)
      decreases |todo|
    {
      ghost var before, trace := plan.executions, backend.trace;
      ghost var act := Act(todo[0], plan.epoch, At(backend.script, |backend.trace|));
      var x, failed := ActOn(backend, plan.executions[i], plan.epoch);
      OnTrackStep(spec, before, trace, start, done, calls, todo, plan.epoch, backend.script, x, act);
      plan.executions := plan.executions[i := x];
      if failed.Some? {
        return failed;
      }
      done, calls, todo := done + [x], calls + act.calls, todo[1..];
      i := i + 1;
    }
    error := None;
  }

  // ---------------------------------------------------------------------------------------------
  // Whole runs
  // ---------------------------------------------------------------------------------------------

  predicate HasUncertainty(items: seq<Classified>) {
    exists i :: 0 <= i < |items| && items[i].decision.class_.EffectUncertain?
  }

  predicate HasCleanup(items: seq<Classified>) {
    exists i :: 0 <= i < |items| && items[i].decision.class_.CleanupRequired?
  }

  function Plan(items: seq<Classified>): seq<Execution> {
    Planned(items, HasUncertainty(items), HasCleanup(items))
  }

  function Actionable(items: seq<Classified>): seq<Classified> {
    if items == [] then []
    else
      (if items[0].decision.action.NoAction? || items[0].decision.action.AwaitResolution? then [] else [items[0]])
      + Actionable(items[1..])
  }

  /** The action list holds exactly the items that neither rest nor wait, and keeps their order. */
  lemma {:induction false} ActionableIsExact(a: seq<Classified>, b: seq<Classified>)
    ensures Actionable(a + b) == Actionable(a) + Actionable(b)
    ensures forall x :: x in Actionable(a) <==> x in a && x.decision.action !in {NoAction, AwaitResolution}
  {
    if a == [] {
      assert a + b == b;
    } else {
      assert (a + b)[1..] == a[1..] + b && a == [a[0]] + a[1..];
      ActionableIsExact(a[1..], b);
    }
  }

  /** The calls and the recorded classification of `classify_only`, from call position `at`. */
  function ClassifyRun(session: Uuid, ids: RunIds, at: nat, script: Script)
    : (seq<Call>, Result<seq<Classified>, Error>)
  {
    var acquire := Acquire(session, ids.ownership);
    var epoch := At(script, at).epoch;
    var unfinished := Unfinished(session, epoch);
    var cs := At(script, at + 1).inventory;
    if !At(script, at).ok then ([acquire], Failure(BackendError))
    else if !At(script, at + 1).ok then ([acquire, unfinished], Failure(BackendError))
    else
      match CheckFrom(session, cs, 0, {})
      case Some(e) => ([acquire, unfinished], Failure(e))
      case None =>
        var c := Classify(cs, epoch, at + 2, script);
        match c.1
        case Failure(e) => ([acquire, unfinished] + c.0, Failure(e))
        case Success(items) =>
          var record := Record(epoch, ids.classification, items);
          ([acquire, unfinished] + c.0 + [record],
           if At(script, at + 2 + |c.0|).ok then Success(items) else Failure(BackendError))
  }

  method FilterActions(items: seq<Classified>) returns (actions: seq<Classified>)
    ensures actions == Actionable(items)
  {
    actions := [];
    for i := 0 to |items|
      invariant Actionable(items) == actions + Actionable(items[i..])
    {
      assert items[i..][1..] == items[i + 1..];
      ghost var rest := Actionable(items[i + 1..]);
      assert actions + ([items[i]] + rest) == (actions + [items[i]]) + rest && actions + ([] + rest) == actions + rest;
      if !items[i].decision.action.NoAction? && !items[i].decision.action.AwaitResolution? {
        actions := actions + [items[i]];
      }
    }
  }

  method ClassifyOnly(backend: Backend, session: Uuid, ids: RunIds) returns (r: Result<Reconciliation, Error>)
    modifies backend
    ensures var at := |old(backend.trace)|;
            var spec := ClassifyRun(session, ids, at, backend.script);
            && backend.trace == old(backend.trace) + spec.0
            && (spec.1.Failure? ==> r == Failure(spec.1.error))
            && (spec.1.Success? ==>
                  && r.Success? && fresh(r.value) && r.value.epoch == At(backend.script, at).epoch
                  && r.value.classifications == spec.1.value
                  && r.value.actions == Actionable(spec.1.value)
                  && r.value.executions == Plan(spec.1.value))
  {
    ghost var start := backend.trace;
    var owned := backend.Ask(Acquire(session, ids.ownership));
    if !owned.ok {
      return Failure(BackendError);
    }
    var answer := backend.Ask(Unfinished(session, owned.epoch));
    assert backend.trace == start + [Acquire(session, ids.ownership), Unfinished(session, owned.epoch)];
    if !answer.ok {
      return Failure(BackendError);
    }
    var malformed := CheckInventory(session, answer.inventory);
    if malformed.Some? {
      return Failure(malformed.value);
    }
    ghost var inspections := Classify(answer.inventory, owned.epoch, |start| + 2, backend.script).0;
    var classified := ClassifyInventory(backend, answer.inventory, owned.epoch);
    assert backend.trace == start + ([Acquire(session, ids.ownership), Unfinished(session, owned.epoch)] + inspections);
    if classified.Failure? {
      return Failure(classified.error);
    }
    var items := classified.value;
    var recorded := backend.Ask(Record(owned.epoch, ids.classification, items));
    assert backend.trace == start
      + ([Acquire(session, ids.ownership), Unfinished(session, owned.epoch)] + inspections
         + [Record(owned.epoch, ids.classification, items)]);
    if !recorded.ok {
      return Failure(BackendError);
    }
    var actions := FilterActions(items);
    var plan := new Reconciliation(owned.epoch, items, actions, Plan(items));
    r := Success(plan);
  }

  function ReconcileRun(session: Uuid, ids: RunIds, at: nat, script: Script)
    : (seq<Call>, Result<seq<Execution>, Error>)
  {
    var c := ClassifyRun(session, ids, at, script);
    match c.1
    case Failure(e) => (c.0, Failure(e))
    case Success(items) =>
      var x := Execute(Plan(items), At(script, at).epoch, at + |c.0|, script);
      (c.0 + x.calls, if x.error.Some? then Failure(x.error.value) else Success(x.executions))
  }

  /** The pass over a fresh plan, after the calls that made it. */
  method ExecutePlan(backend: Backend, plan: Reconciliation, ghost start: seq<Call>, ghost calls: seq<Call>)
    returns (error: Option<Error>)
    requires backend.trace == start + calls
    modifies backend, plan
    ensures var spec := Execute(old(plan.executions), plan.epoch, |start| + |calls|, backend.script);
            && plan.executions == spec.executions && error == spec.error
            && backend.trace == start + (calls + spec.calls)
  {
    ghost var spec := Execute(plan.executions, plan.epoch, |start| + |calls|, backend.script);
    assert (start + calls) + spec.calls == start + (calls + spec.calls);
    error := ExecuteActions(backend, plan);
  }

  method Reconcile(backend: Backend, session: Uuid, ids: RunIds) returns (r: Result<Reconciliation, Error>)
    modifies backend
    ensures var spec := ReconcileRun(session, ids, |old(backend.trace)|, backend.script);
            && backend.trace == old(backend.trace) + spec.0
            && (spec.1.Failure? ==> r == Failure(spec.1.error))
            && (spec.1.Success? ==> r.Success? && r.value.executions == spec.1.value)
  {
    ghost var start := backend.trace;
    ghost var calls := ClassifyRun(session, ids, |start|, backend.script).0;
    r := ClassifyOnly(backend, session, ids);
    if r.Failure? {
      return;
    }
    var error := ExecutePlan(backend, r.value, start, calls);
    if error.Some? {
      return Failure(error.value);
    }
  }
}
