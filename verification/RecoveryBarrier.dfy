/** What every reconcile run guarantees, for every script of backend answers. */
module RecoveryBarrier {
  import opened Wrappers
  import opened RecoveryTable
  import opened Recovery

  // ---------------------------------------------------------------------------------------------
  // One pass over a plan
  // ---------------------------------------------------------------------------------------------

  /** The handler call an entry asks for, if it is pending and has one. */
  function Asked(x: Execution, epoch: Epoch): seq<Call> {
    if x.status.Pending? && HandlerCall(x.item, epoch).Some? then [HandlerCall(x.item, epoch).value] else []
  }

  /** The handler calls a plan asks for, in plan order. */
  function HandlerCalls(xs: seq<Execution>, epoch: Epoch): seq<Call> {
    if xs == [] then [] else Asked(xs[0], epoch) + HandlerCalls(xs[1..], epoch)
  }

  lemma ActCallsWhatIsAsked(x: Execution, epoch: Epoch, answer: Answer)
    ensures Act(x, epoch, answer).calls == Asked(x, epoch)
  {
  }

  predicate Keeps(x: Execution, x': Execution) {
    && x'.item == x.item
    && (x'.status == x.status || (x.status.Pending? && x'.status.Executed?))
  }

  /** A pass keeps every item, and changes a status only from pending to executed. */
  ghost predicate KeepsAll(xs: seq<Execution>, ys: seq<Execution>) {
    |ys| == |xs| && forall i :: 0 <= i < |xs| ==> Keeps(xs[i], ys[i])
  }

  lemma KeepsHeadAndTail(x: Execution, y: Execution, xs: seq<Execution>, ys: seq<Execution>)
    requires Keeps(x, y) && KeepsAll(xs, ys)
    ensures KeepsAll([x] + xs, [y] + ys)
  {
  }

  lemma {:induction false} PassKeepsEntries(xs: seq<Execution>, epoch: Epoch, at: nat, script: Script)
    ensures KeepsAll(xs, Execute(xs, epoch, at, script).executions)
  {
    if xs == [] {
    } else {
      var act := Act(xs[0], epoch, At(script, at));
      var y := act.executions[0];
      assert act.executions == [y] && Keeps(xs[0], y);
      assert xs == [xs[0]] + xs[1..];
      PassKeepsEntries(xs[1..], epoch, at + |act.calls|, script);
      var rest := if act.error.Some? then xs[1..] else Execute(xs[1..], epoch, at + |act.calls|, script).executions;
      KeepsHeadAndTail(xs[0], y, xs[1..], rest);
    }
  }

  /** A pass calls a prefix of what the plan asks for, and all of it unless it fails. */
  lemma {:induction false} PassFollowsPlan(xs: seq<Execution>, epoch: Epoch, at: nat, script: Script)
    ensures var o := Execute(xs, epoch, at, script);
            && o.calls <= HandlerCalls(xs, epoch)
            && (o.error.None? ==> o.calls == HandlerCalls(xs, epoch))
  {
    if xs == [] {
    } else {
      ActCallsWhatIsAsked(xs[0], epoch, At(script, at));
      var asked, rest := Asked(xs[0], epoch), HandlerCalls(xs[1..], epoch);
      PassFollowsPlan(xs[1..], epoch, at + |asked|, script);
      var tail := Execute(xs[1..], epoch, at + |asked|, script);
      PrefixUnder(asked, tail.calls, rest);
    }
  }

  lemma PrefixUnder(asked: seq<Call>, a: seq<Call>, b: seq<Call>)
    requires a <= b
    ensures asked <= asked + b && asked + a <= asked + b
  {
  }

  /** The entity a handler call names. */
  function Target(c: Call): Entity
    requires IsHandler(c)
  {
    match c
    case Schedule(_, o, m) => OperationEntity(o, m)
    case Redeliver(_, m) => MessageEntity(m)
    case Reconnect(_, l) => InstanceEntity(l)
    case Cleanup(_, l) => InstanceEntity(l)
  }

  predicate ComesFrom(xs: seq<Execution>, epoch: Epoch, source: nat, call: Call) {
    source < |xs| && xs[source].status.Pending? && HandlerCall(xs[source].item, epoch) == Some(call)
  }

  /** The epoch a handler call is fenced with. */
  function FencedBy(c: Call): Epoch
    requires IsHandler(c)
  {
    c.epoch
  }

  /** Which handler an item asks for: its own action's, on its own entity, under the run's epoch. */
  lemma HandlersAreExact(item: Classified, epoch: Epoch)
    ensures var call := HandlerCall(item, epoch);
            && (call.Some? ==>
                  && IsHandler(call.value) && Target(call.value) == item.entity && FencedBy(call.value) == epoch
                  && (call.value.Schedule? <==> item.decision.action.ScheduleExistingOperation?)
                  && (call.value.Redeliver? <==> item.decision.action.RedeliverExactMessage?)
                  && (call.value.Reconnect? <==> item.decision.action.ReconnectExactInstance?)
                  && (call.value.Cleanup? <==> item.decision.action.CleanupVerifiedResource?))
            && (call.Some? <==>
                  || (item.decision.action.ScheduleExistingOperation? && item.entity.OperationEntity?)
                  || (item.decision.action.RedeliverExactMessage? && item.entity.MessageEntity?)
                  || (item.decision.action in {ReconnectExactInstance, CleanupVerifiedResource}
                      && item.entity.InstanceEntity?))
  {
  }

  /** Who waits, who rests and who is blocked, and by which barrier. */
  lemma PlanIsExact(item: Classified, hasUncertainty: bool, hasCleanup: bool)
    ensures var status := PlannedStatus(item, hasUncertainty, hasCleanup);
            var rests := item.decision.action in {NoAction, Continue};
            var awaits := item.decision.action.AwaitResolution?;
            var cleans := item.decision.action.CleanupVerifiedResource?;
            && !status.Executed?
            && (status.NoOp? <==> rests)
            && (status.BlockedByUncertainty? <==> hasUncertainty && !rests && !awaits)
            && (status.BlockedByCleanup? <==> !hasUncertainty && hasCleanup && !rests && !awaits && !cleans)
            && (status.Pending? <==> awaits || (!rests && !hasUncertainty && (cleans || !hasCleanup)))
  {
  }

  /** Each call comes from its own pending entry, in plan order, with that entry's identities. */
  ghost predicate Sourced(xs: seq<Execution>, epoch: Epoch, calls: seq<Call>, sources: seq<nat>) {
    && |sources| == |calls|
    && (forall k :: 0 <= k < |sources| ==> ComesFrom(xs, epoch, sources[k], calls[k]))
    && (forall j, k :: 0 <= j < k < |sources| ==> sources[j] < sources[k])
  }

  function Shifted(sources: seq<nat>): seq<nat> {
    seq(|sources|, k requires 0 <= k < |sources| => sources[k] + 1)
  }

  lemma SourcedByTail(x: Execution, xs: seq<Execution>, epoch: Epoch, calls: seq<Call>, sources: seq<nat>)
    requires Sourced(xs, epoch, calls, sources)
    ensures Sourced([x] + xs, epoch, calls, Shifted(sources))
  {
    forall k | 0 <= k < |sources| ensures ComesFrom([x] + xs, epoch, Shifted(sources)[k], calls[k]) {
      assert ComesFrom(xs, epoch, sources[k], calls[k]);
    }
  }

  lemma SourcedByHead(xs: seq<Execution>, epoch: Epoch, call: Call, calls: seq<Call>, sources: seq<nat>)
    requires Sourced(xs, epoch, calls, Shifted(sources)) && ComesFrom(xs, epoch, 0, call)
    ensures Sourced(xs, epoch, [call] + calls, [0] + Shifted(sources))
  {
  }

  lemma {:induction false} CallsComeFromEntries(xs: seq<Execution>, epoch: Epoch) returns (sources: seq<nat>)
    ensures Sourced(xs, epoch, HandlerCalls(xs, epoch), sources)
  {
    sources := [];
    if xs == [] {
    } else {
      var rest := CallsComeFromEntries(xs[1..], epoch);
      var calls := HandlerCalls(xs[1..], epoch);
      assert xs == [xs[0]] + xs[1..];
      SourcedByTail(xs[0], xs[1..], epoch, calls, rest);
      sources := Shifted(rest);
      if xs[0].status.Pending? && HandlerCall(xs[0].item, epoch).Some? {
        SourcedByHead(xs, epoch, HandlerCall(xs[0].item, epoch).value, calls, rest);
        sources := [0] + sources;
      } else {
        assert HandlerCalls(xs, epoch) == calls;
      }
    }
  }

  /**
    What a pass makes of an entry that was handled: a pending entry with a handler is executed when
    the handler is `schedule` or says that it handled the entity, and stays pending otherwise; one
    without a handler is executed unless it awaits resolution.
  */
  function StatusAfter(x: Execution, epoch: Epoch, answer: Answer): Status {
    if !x.status.Pending? then x.status
    else if HandlerCall(x.item, epoch).Some? then
      if HandlerCall(x.item, epoch).value.Schedule? || answer.handled then Executed else Pending
    else if x.item.decision.action.AwaitResolution? then Pending
    else Executed
  }

  /** The answer that reaches entry `i` of a pass which starts at call `at`. */
  function AnswerOf(xs: seq<Execution>, epoch: Epoch, at: nat, script: Script, i: nat): Answer
    requires i <= |xs|
  {
    At(script, at + |HandlerCalls(xs[..i], epoch)|)
  }

  /** The first `n` entries were dealt with by their own answers, and the rest were left alone. */
  ghost predicate DealtWith(xs: seq<Execution>, epoch: Epoch, at: nat, script: Script, ys: seq<Execution>, n: nat) {
    && |ys| == |xs| && n <= |xs|
    && (forall i :: 0 <= i < n ==>
          ys[i] == xs[i].(status := StatusAfter(xs[i], epoch, AnswerOf(xs, epoch, at, script, i))))
    && (forall i :: n <= i < |xs| ==> ys[i] == xs[i])
  }

  lemma AnswerOfTail(xs: seq<Execution>, epoch: Epoch, at: nat, script: Script, i: nat)
    requires 0 < i <= |xs|
    ensures AnswerOf(xs, epoch, at, script, i) ==
            AnswerOf(xs[1..], epoch, at + |Asked(xs[0], epoch)|, script, i - 1)
  {
    assert xs[..i][1..] == xs[1..][..i - 1];
  }

  lemma DealtWithHeadAndTail(xs: seq<Execution>, epoch: Epoch, at: nat, script: Script, y: Execution,
                             ys: seq<Execution>, n: nat)
    requires xs != [] && y == xs[0].(status := StatusAfter(xs[0], epoch, At(script, at)))
    requires DealtWith(xs[1..], epoch, at + |Asked(xs[0], epoch)|, script, ys, n)
    ensures DealtWith(xs, epoch, at, script, [y] + ys, n + 1)
  {
    forall i | 0 < i <= n
      ensures ([y] + ys)[i] == xs[i].(status := StatusAfter(xs[i], epoch, AnswerOf(xs, epoch, at, script, i)))
    {
      AnswerOfTail(xs, epoch, at, script, i);
      assert xs[1..][i - 1] == xs[i];
    }
    assert AnswerOf(xs, epoch, at, script, 0) == At(script, at);
  }

  lemma ActDealsWith(x: Execution, epoch: Epoch, answer: Answer)
    ensures Act(x, epoch, answer).error.None? ==>
              Act(x, epoch, answer).executions == [x.(status := StatusAfter(x, epoch, answer))]
    ensures Act(x, epoch, answer).error.Some? ==> Act(x, epoch, answer).executions == [x] && x.status.Pending?
    ensures Act(x, epoch, answer).error == Some(BackendError) <==>
            x.status.Pending? && HandlerCall(x.item, epoch).Some? && !answer.ok
  {
  }

  /** How many entries a pass deals with before it meets an error. */
  function Reached(xs: seq<Execution>, epoch: Epoch, at: nat, script: Script): (n: nat)
    ensures n <= |xs|
  {
    if xs == [] || Act(xs[0], epoch, At(script, at)).error.Some? then 0
    else 1 + Reached(xs[1..], epoch, at + |Asked(xs[0], epoch)|, script)
  }

  lemma ExecuteUnfolds(xs: seq<Execution>, epoch: Epoch, at: nat, script: Script)
    requires xs != [] && Act(xs[0], epoch, At(script, at)).error.None?
    ensures var rest := Execute(xs[1..], epoch, at + |Asked(xs[0], epoch)|, script);
            && Execute(xs, epoch, at, script).error == rest.error
            && Execute(xs, epoch, at, script).executions ==
               [xs[0].(status := StatusAfter(xs[0], epoch, At(script, at)))] + rest.executions
  {
    ActDealsWith(xs[0], epoch, At(script, at));
    ActCallsWhatIsAsked(xs[0], epoch, At(script, at));
  }

  /** A pass deals with its entries in order, each by its own answer, up to the first error. */
  lemma {:induction false} PassDealsWithEntries(xs: seq<Execution>, epoch: Epoch, at: nat, script: Script)
    ensures DealtWith(xs, epoch, at, script, Execute(xs, epoch, at, script).executions, Reached(xs, epoch, at, script))
  {
    if xs == [] {
    } else if Act(xs[0], epoch, At(script, at)).error.Some? {
      ActDealsWith(xs[0], epoch, At(script, at));
      assert xs == [xs[0]] + xs[1..];
    } else {
      var later := at + |Asked(xs[0], epoch)|;
      ExecuteUnfolds(xs, epoch, at, script);
      PassDealsWithEntries(xs[1..], epoch, later, script);
      DealtWithHeadAndTail(xs, epoch, at, script, xs[0].(status := StatusAfter(xs[0], epoch, At(script, at))),
                           Execute(xs[1..], epoch, later, script).executions, Reached(xs[1..], epoch, later, script));
    }
  }

  /** Entry `i` cannot be dealt with: its handler fails, or its action has no handler for its entity. */
  predicate Fails(xs: seq<Execution>, epoch: Epoch, at: nat, script: Script, i: nat, error: Error)
    requires i < |xs|
  {
    && xs[i].status.Pending?
    && if HandlerCall(xs[i].item, epoch).Some? then
         error.BackendError? && !AnswerOf(xs, epoch, at, script, i).ok
       else
         error.ActionEntityMismatch? && xs[i].item.decision.action !in {Continue, NoAction, AwaitResolution}
  }

  /** A pass fails exactly when it does not reach the end, and for the reason of the entry it stopped at. */
  lemma {:induction false} PassFailsAtEntry(xs: seq<Execution>, epoch: Epoch, at: nat, script: Script)
    ensures var n, error := Reached(xs, epoch, at, script), Execute(xs, epoch, at, script).error;
            && (error.None? <==> n == |xs|)
            && (error.Some? ==> n < |xs| && Fails(xs, epoch, at, script, n, error.value))
  {
    if xs == [] {
    } else if Act(xs[0], epoch, At(script, at)).error.Some? {
      assert AnswerOf(xs, epoch, at, script, 0) == At(script, at);
    } else {
      var later := at + |Asked(xs[0], epoch)|;
      ExecuteUnfolds(xs, epoch, at, script);
      PassFailsAtEntry(xs[1..], epoch, later, script);
      AnswerOfTail(xs, epoch, at, script, Reached(xs, epoch, at, script));
    }
  }

  // ---------------------------------------------------------------------------------------------
  // The barrier
  // ---------------------------------------------------------------------------------------------

  predicate DistinctItems(items: seq<Classified>) {
    forall i, j :: 0 <= i < j < |items| ==> items[i].entity != items[j].entity
  }

  /** What a plan lets happen, by the worst class among its items. */
  lemma PlanRespectsBarrier(items: seq<Classified>, epoch: Epoch)
    ensures var calls := HandlerCalls(Plan(items), epoch);
            && (forall k :: 0 <= k < |calls| ==> IsHandler(calls[k]))
            && (HasUncertainty(items) ==> calls == [])
            && (HasCleanup(items) ==> forall k :: 0 <= k < |calls| ==> calls[k].Cleanup?)
            && (DistinctItems(items) ==> forall j, k :: 0 <= j < k < |calls| ==> Target(calls[j]) != Target(calls[k]))
            && (forall k :: 0 <= k < |calls| ==> exists i :: 0 <= i < |items| && items[i].entity == Target(calls[k]))
  {
    var xs := Plan(items);
    var calls := HandlerCalls(xs, epoch);
    var sources := CallsComeFromEntries(xs, epoch);
    forall k | 0 <= k < |calls|
      ensures IsHandler(calls[k]) && Target(calls[k]) == items[sources[k]].entity && !HasUncertainty(items)
      ensures HasCleanup(items) ==> calls[k].Cleanup?
    {
      assert ComesFrom(xs, epoch, sources[k], calls[k]);
      assert xs[sources[k]].item == items[sources[k]];
    }
    assert calls != [] ==> !HasUncertainty(items) by {
      if calls != [] { assert IsHandler(calls[0]); }
    }
    if DistinctItems(items) {
      forall j, k | 0 <= j < k < |calls| ensures Target(calls[j]) != Target(calls[k]) {
        assert sources[j] < sources[k];
      }
    }
  }

  /** Every handler call the items ask for, in order, keeping only cleanups if told so. */
  function Wanted(items: seq<Classified>, epoch: Epoch, cleanupOnly: bool): seq<Call> {
    if items == [] then []
    else
      var call := HandlerCall(items[0], epoch);
      (if call.Some? && (cleanupOnly ==> call.value.Cleanup?) then [call.value] else [])
      + Wanted(items[1..], epoch, cleanupOnly)
  }

  lemma {:induction false} PlannedCallsWhatIsWanted(items: seq<Classified>, epoch: Epoch, hasCleanup: bool)
    ensures HandlerCalls(Planned(items, false, hasCleanup), epoch) == Wanted(items, epoch, hasCleanup)
  {
    if items == [] {
    } else {
      assert Planned(items, false, hasCleanup)[1..] == Planned(items[1..], false, hasCleanup);
      PlannedCallsWhatIsWanted(items[1..], epoch, hasCleanup);
    }
  }

  /**
    Short of uncertainty nothing allowed is left out: a pass that does not fail makes every wanted
    call, in inventory order.
  */
  lemma PassIsComplete(items: seq<Classified>, epoch: Epoch, at: nat, script: Script)
    requires !HasUncertainty(items) && Execute(Plan(items), epoch, at, script).error.None?
    ensures Execute(Plan(items), epoch, at, script).calls == Wanted(items, epoch, HasCleanup(items))
  {
    PassFollowsPlan(Plan(items), epoch, at, script);
    PlannedCallsWhatIsWanted(items, epoch, HasCleanup(items));
  }

  /** The item is the candidate, classified by the table on an observation that its kind allows. */
  predicate ClassifiedAs(c: Candidate, item: Classified) {
    && item.entity == c.entity && item.state == c.state
    && ClassifyRecovery(c.state, item.observation) == Success(item.decision)
    && (!c.entity.InstanceEntity? ==> item.observation.NotApplicable?)
  }

  ghost predicate AllClassified(cs: seq<Candidate>, items: seq<Classified>) {
    |items| == |cs| && forall i :: 0 <= i < |cs| ==> ClassifiedAs(cs[i], items[i])
  }

  lemma ClassifiedHeadAndTail(c: Candidate, item: Classified, cs: seq<Candidate>, items: seq<Classified>)
    requires ClassifiedAs(c, item) && AllClassified(cs, items)
    ensures AllClassified([c] + cs, [item] + items)
  {
  }

  lemma {:induction false} CallsAreInspections(cs: seq<Candidate>, epoch: Epoch, at: nat, script: Script)
    ensures var (calls, r) := Classify(cs, epoch, at, script);
            calls <= InspectCalls(cs, epoch) && (r.Success? ==> calls == InspectCalls(cs, epoch))
  {
    if cs == [] {
    } else {
      var calls := if cs[0].entity.InstanceEntity? then [Inspect(cs[0].entity.launch, epoch)] else [];
      CallsAreInspections(cs[1..], epoch, at + |calls|, script);
    }
  }

  lemma {:induction false} ItemsAreClassified(cs: seq<Candidate>, epoch: Epoch, at: nat, script: Script)
    ensures var r := Classify(cs, epoch, at, script).1;
            r.Success? ==> AllClassified(cs, r.value)
  {
    var r := Classify(cs, epoch, at, script).1;
    if cs == [] || r.Failure? {
    } else {
      var calls := if cs[0].entity.InstanceEntity? then [Inspect(cs[0].entity.launch, epoch)] else [];
      ItemsAreClassified(cs[1..], epoch, at + |calls|, script);
      var items := Classify(cs[1..], epoch, at + |calls|, script).1.value;
      assert r.value == [r.value[0]] + items && ClassifiedAs(cs[0], r.value[0]);
      ClassifiedHeadAndTail(cs[0], r.value[0], cs[1..], items);
      assert cs == [cs[0]] + cs[1..];
    }
  }

  /** Classification keeps the inventory's entities and states, in inventory order. */
  lemma ClassifyKeepsInventory(cs: seq<Candidate>, epoch: Epoch, at: nat, script: Script)
    ensures var (calls, r) := Classify(cs, epoch, at, script);
            && calls <= InspectCalls(cs, epoch)
            && (r.Success? ==> calls == InspectCalls(cs, epoch) && AllClassified(cs, r.value))
  {
    CallsAreInspections(cs, epoch, at, script);
    ItemsAreClassified(cs, epoch, at, script);
  }

  /** The answer to the inspection of candidate `i`, in a classification that starts at call `at`. */
  function InspectionOf(cs: seq<Candidate>, epoch: Epoch, at: nat, script: Script, i: nat): Answer
    requires i <= |cs|
  {
    At(script, at + |InspectCalls(cs[..i], epoch)|)
  }

  function ObservationOf(cs: seq<Candidate>, epoch: Epoch, at: nat, script: Script, i: nat): Observation
    requires i < |cs|
  {
    if cs[i].entity.InstanceEntity? then InspectionOf(cs, epoch, at, script, i).observation else NotApplicable
  }

  /** Candidate `i` can be classified: its inspection answers, and state and observation do not contradict. */
  predicate Classifiable(cs: seq<Candidate>, epoch: Epoch, at: nat, script: Script, i: nat)
    requires i < |cs|
  {
    && (cs[i].entity.InstanceEntity? ==> InspectionOf(cs, epoch, at, script, i).ok)
    && ClassifyRecovery(cs[i].state, ObservationOf(cs, epoch, at, script, i)).Success?
  }

  lemma InspectionOfTail(cs: seq<Candidate>, epoch: Epoch, at: nat, script: Script, i: nat)
    requires 0 < i <= |cs|
    ensures InspectionOf(cs, epoch, at, script, i) ==
            InspectionOf(cs[1..], epoch, at + |InspectCalls(cs[..1], epoch)|, script, i - 1)
  {
    assert cs[..i][1..] == cs[1..][..i - 1];
    assert cs[..1][1..] == [];
  }

  ghost predicate AllClassifiable(cs: seq<Candidate>, epoch: Epoch, at: nat, script: Script) {
    forall i :: 0 <= i < |cs| ==> Classifiable(cs, epoch, at, script, i)
  }

  lemma ClassifiableHeadAndTail(cs: seq<Candidate>, epoch: Epoch, at: nat, script: Script)
    requires cs != []
    ensures AllClassifiable(cs, epoch, at, script) <==>
            && Classifiable(cs, epoch, at, script, 0)
            && AllClassifiable(cs[1..], epoch, at + |InspectCalls(cs[..1], epoch)|, script)
  {
    var later := at + |InspectCalls(cs[..1], epoch)|;
    forall i | 0 < i < |cs|
      ensures Classifiable(cs, epoch, at, script, i) <==> Classifiable(cs[1..], epoch, later, script, i - 1)
    {
      InspectionOfTail(cs, epoch, at, script, i);
    }
    if AllClassifiable(cs[1..], epoch, later, script) && Classifiable(cs, epoch, at, script, 0) {
      forall i | 0 <= i < |cs| ensures Classifiable(cs, epoch, at, script, i) {
        assert i > 0 ==> Classifiable(cs[1..], epoch, later, script, i - 1);
      }
    }
    if AllClassifiable(cs, epoch, at, script) {
      forall i | 0 <= i < |cs| - 1 ensures Classifiable(cs[1..], epoch, later, script, i) {
        assert Classifiable(cs, epoch, at, script, i + 1);
      }
    }
  }

  lemma ClassifyUnfolds(cs: seq<Candidate>, epoch: Epoch, at: nat, script: Script)
    requires cs != []
    ensures var r := Classify(cs, epoch, at, script).1;
            var rest := Classify(cs[1..], epoch, at + |InspectCalls(cs[..1], epoch)|, script).1;
            && (r.Success? <==> Classifiable(cs, epoch, at, script, 0) && rest.Success?)
            && (r.Success? ==>
                  && |r.value| == 1 + |rest.value| && r.value[1..] == rest.value
                  && r.value[0].observation == ObservationOf(cs, epoch, at, script, 0))
  {
    assert cs[..1][1..] == [] && cs[..0] == [];
    assert InspectionOf(cs, epoch, at, script, 0) == At(script, at);
  }

  /**
    Classification succeeds exactly when every instance answers its inspection and no candidate
    contradicts its observation; each recorded observation is the answer to that candidate's own
    inspection.
  */
  lemma {:induction false} ClassifyIsExact(cs: seq<Candidate>, epoch: Epoch, at: nat, script: Script)
    ensures var r := Classify(cs, epoch, at, script).1;
            && (r.Success? <==> AllClassifiable(cs, epoch, at, script))
            && (r.Success? ==>
                  && |r.value| == |cs|
                  && forall i :: 0 <= i < |cs| ==> r.value[i].observation == ObservationOf(cs, epoch, at, script, i))
  {
    if cs == [] {
    } else {
      var later := at + |InspectCalls(cs[..1], epoch)|;
      ClassifyUnfolds(cs, epoch, at, script);
      ClassifiableHeadAndTail(cs, epoch, at, script);
      ClassifyIsExact(cs[1..], epoch, later, script);
      var r := Classify(cs, epoch, at, script).1;
      if r.Success? {
        forall i | 0 <= i < |cs| ensures r.value[i].observation == ObservationOf(cs, epoch, at, script, i) {
          if i > 0 {
            InspectionOfTail(cs, epoch, at, script, i);
            assert r.value[i] == r.value[1..][i - 1];
          }
        }
      }
    }
  }

  function Handlers(calls: seq<Call>): seq<Call> {
    if calls == [] then []
    else (if IsHandler(calls[0]) then [calls[0]] else []) + Handlers(calls[1..])
  }

  lemma {:induction false} HandlersSplit(a: seq<Call>, b: seq<Call>)
    ensures Handlers(a + b) == Handlers(a) + Handlers(b)
  {
    if a == [] {
      assert a + b == b;
    } else {
      assert (a + b)[1..] == a[1..] + b && (a + b)[0] == a[0];
      HandlersSplit(a[1..], b);
      var first := if IsHandler(a[0]) then [a[0]] else [];
      assert first + (Handlers(a[1..]) + Handlers(b)) == (first + Handlers(a[1..])) + Handlers(b);
    }
  }

  lemma {:induction false} NoHandlersIn(calls: seq<Call>)
    requires forall k :: 0 <= k < |calls| ==> !IsHandler(calls[k])
    ensures Handlers(calls) == []
  {
    if calls == [] {
    } else {
      NoHandlersIn(calls[1..]);
    }
  }

  lemma {:induction false} AllHandlersIn(calls: seq<Call>)
    requires forall k :: 0 <= k < |calls| ==> IsHandler(calls[k])
    ensures Handlers(calls) == calls
  {
    if calls == [] {
    } else {
      AllHandlersIn(calls[1..]);
    }
  }

  lemma {:induction false} InspectionsAreNotHandlers(cs: seq<Candidate>, epoch: Epoch)
    ensures forall k :: 0 <= k < |InspectCalls(cs, epoch)| ==> InspectCalls(cs, epoch)[k].Inspect?
  {
    if cs == [] {
    } else {
      InspectionsAreNotHandlers(cs[1..], epoch);
    }
  }

  /** The classification phase never acts. */
  lemma ClassificationNeverActs(session: Uuid, ids: RunIds, at: nat, script: Script)
    ensures Handlers(ClassifyRun(session, ids, at, script).0) == []
  {
    var calls := ClassifyRun(session, ids, at, script).0;
    var epoch, cs := At(script, at).epoch, At(script, at + 1).inventory;
    ClassifyKeepsInventory(cs, epoch, at + 2, script);
    InspectionsAreNotHandlers(cs, epoch);
    NoHandlersIn(calls);
  }

  /** Handler calls that the barrier allows for these classified items. */
  ghost predicate Allowed(calls: seq<Call>, items: seq<Classified>) {
    && (forall k :: 0 <= k < |calls| ==> IsHandler(calls[k]))
    && (HasUncertainty(items) ==> calls == [])
    && (HasCleanup(items) ==> forall k :: 0 <= k < |calls| ==> calls[k].Cleanup?)
    && (forall j, k :: 0 <= j < k < |calls| ==> Target(calls[j]) != Target(calls[k]))
    && (forall k :: 0 <= k < |calls| ==> exists i :: 0 <= i < |items| && items[i].entity == Target(calls[k]))
  }

  lemma PlanIsAllowed(items: seq<Classified>, epoch: Epoch, calls: seq<Call>)
    requires DistinctItems(items) && calls <= HandlerCalls(Plan(items), epoch)
    ensures Allowed(calls, items)
  {
    PlanRespectsBarrier(items, epoch);
    var planned := HandlerCalls(Plan(items), epoch);
    assert forall k :: 0 <= k < |calls| ==> calls[k] == planned[k];
  }

  /**
    The barrier, end to end: an uncertain item stops every handler; failing that, an item that
    needs cleanup stops every handler but cleanup; otherwise handlers run in inventory order, at
    most once per entity, each on an entity of the inventory. Without a recorded classification no
    handler runs at all.
  */
  lemma ReconcileRespectsBarrier(session: Uuid, ids: RunIds, at: nat, script: Script)
    ensures var calls := Handlers(ReconcileRun(session, ids, at, script).0);
            var c := ClassifyRun(session, ids, at, script).1;
            && (c.Failure? ==> calls == [])
            && (c.Success? ==>
                  calls <= HandlerCalls(Plan(c.value), At(script, at).epoch) && Allowed(calls, c.value))
  {
    HandlersAreThePass(session, ids, at, script);
    var c := ClassifyRun(session, ids, at, script).1;
    if c.Success? {
      RecordedItemsAreDistinct(session, ids, at, script);
      PlanIsAllowed(c.value, At(script, at).epoch, Handlers(ReconcileRun(session, ids, at, script).0));
    }
  }

  lemma HandlersAreThePass(session: Uuid, ids: RunIds, at: nat, script: Script)
    ensures var calls := Handlers(ReconcileRun(session, ids, at, script).0);
            var c := ClassifyRun(session, ids, at, script).1;
            && (c.Failure? ==> calls == [])
            && (c.Success? ==> calls <= HandlerCalls(Plan(c.value), At(script, at).epoch))
  {
    var run := ClassifyRun(session, ids, at, script);
    ClassificationNeverActs(session, ids, at, script);
    if run.1.Success? {
      var xs, epoch := Plan(run.1.value), At(script, at).epoch;
      var calls := Execute(xs, epoch, at + |run.0|, script).calls;
      PassFollowsPlan(xs, epoch, at + |run.0|, script);
      HandlersOfPass(run.0, calls, xs, epoch);
    }
  }

  lemma HandlersOfPass(opening: seq<Call>, calls: seq<Call>, xs: seq<Execution>, epoch: Epoch)
    requires Handlers(opening) == [] && calls <= HandlerCalls(xs, epoch)
    ensures Handlers(opening + calls) == calls
  {
    OnlyHandlersAsked(xs, epoch);
    AllHandlersIn(calls);
    HandlersSplit(opening, calls);
  }

  lemma {:induction false} OnlyHandlersAsked(xs: seq<Execution>, epoch: Epoch)
    ensures forall k :: 0 <= k < |HandlerCalls(xs, epoch)| ==> IsHandler(HandlerCalls(xs, epoch)[k])
  {
    if xs == [] {
    } else {
      OnlyHandlersAsked(xs[1..], epoch);
      assert forall k :: 0 <= k < |Asked(xs[0], epoch)| ==> IsHandler(Asked(xs[0], epoch)[k]);
    }
  }

  lemma RecordedItemsAreClassified(session: Uuid, ids: RunIds, at: nat, script: Script)
    requires ClassifyRun(session, ids, at, script).1.Success?
    ensures AllClassified(At(script, at + 1).inventory, ClassifyRun(session, ids, at, script).1.value)
  {
    ClassifyKeepsInventory(At(script, at + 1).inventory, At(script, at).epoch, at + 2, script);
  }

  lemma UnfinishedWorkIsUncertain(cs: seq<Candidate>, items: seq<Classified>, i: nat)
    requires AllClassified(cs, items) && i < |cs| && MayHaveHappened(cs[i].state)
    ensures HasUncertainty(items)
  {
    assert ClassifiedAs(cs[i], items[i]);
    ClassesAreExact(cs[i].state, items[i].observation);
    assert items[i].decision.class_.EffectUncertain?;
  }

  /**
    The barrier from the inventory: a starting, running, waiting or cancelling operation in it, a
    message whose acceptance nobody confirmed or an unsafe effect that was started stops every
    handler, whatever the rest of the inventory and the backend say.
  */
  lemma UnfinishedWorkStopsEveryHandler(session: Uuid, ids: RunIds, at: nat, script: Script, i: nat)
    requires i < |At(script, at + 1).inventory| && MayHaveHappened(At(script, at + 1).inventory[i].state)
    ensures Handlers(ReconcileRun(session, ids, at, script).0) == []
  {
    ReconcileRespectsBarrier(session, ids, at, script);
    var c := ClassifyRun(session, ids, at, script).1;
    if c.Success? {
      RecordedItemsAreClassified(session, ids, at, script);
      UnfinishedWorkIsUncertain(At(script, at + 1).inventory, c.value, i);
    }
  }

  /** The same for an instance whose recorded observation does not prove its identity. */
  lemma UnprovenIdentityStopsEveryHandler(session: Uuid, ids: RunIds, at: nat, script: Script, i: nat)
    requires ClassifyRun(session, ids, at, script).1.Success?
    requires var items := ClassifyRun(session, ids, at, script).1.value;
             i < |items| && InstanceState(items[i].state) && IdentityUnproven(items[i].state, items[i].observation)
    ensures Handlers(ReconcileRun(session, ids, at, script).0) == []
  {
    var items := ClassifyRun(session, ids, at, script).1.value;
    RecordedItemsAreClassified(session, ids, at, script);
    assert ClassifiedAs(At(script, at + 1).inventory[i], items[i]);
    ClassesAreExact(items[i].state, items[i].observation);
    ReconcileRespectsBarrier(session, ids, at, script);
    assert HasUncertainty(items);
  }

  lemma RecordedItemsAreDistinct(session: Uuid, ids: RunIds, at: nat, script: Script)
    requires ClassifyRun(session, ids, at, script).1.Success?
    ensures DistinctItems(ClassifyRun(session, ids, at, script).1.value)
  {
    var cs := At(script, at + 1).inventory;
    InventoryCheckIsExact(session, cs);
    ClassifyKeepsInventory(cs, At(script, at).epoch, at + 2, script);
  }

  // ---------------------------------------------------------------------------------------------
  // The trace
  // ---------------------------------------------------------------------------------------------

  /**
    The calls of a run whose inventory was accepted: a prefix of the inspections after a failure,
    otherwise all of them, one record of the classified inventory, and then only planned actions,
    none of them unless the record succeeded.
  */
  ghost predicate FailClosed(calls: seq<Call>, opening: seq<Call>, inspections: seq<Call>, epoch: Epoch,
                             request: Uuid, classified: Result<seq<Classified>, Error>, recorded: bool,
                             run: Result<seq<Classified>, Error>) {
    var head := opening + inspections;
    && opening <= calls
    && (|calls| <= |head| ==> calls <= head && classified.Failure? && run.Failure?)
    && (|calls| > |head| ==> classified.Success? && head + [Record(epoch, request, classified.value)] <= calls)
    && (|calls| > |head| + 1 ==>
          recorded && run == classified && calls[|head| + 1..] <= HandlerCalls(Plan(run.value), epoch))
  }

  lemma StoppedInspecting(calls: seq<Call>, made: seq<Call>, opening: seq<Call>, inspections: seq<Call>, epoch: Epoch,
                          request: Uuid, classified: Result<seq<Classified>, Error>, recorded: bool,
                          run: Result<seq<Classified>, Error>)
    requires calls == opening + made && made <= inspections && classified.Failure? && run.Failure?
    ensures FailClosed(calls, opening, inspections, epoch, request, classified, recorded, run)
  {
    assert (opening + inspections)[..|opening + made|] == opening + made;
  }

  lemma WentOnToRecord(calls: seq<Call>, acts: seq<Call>, opening: seq<Call>, inspections: seq<Call>, epoch: Epoch,
                       request: Uuid, classified: Result<seq<Classified>, Error>, recorded: bool,
                       run: Result<seq<Classified>, Error>)
    requires classified.Success?
    requires calls == opening + inspections + [Record(epoch, request, classified.value)] + acts
    requires acts != [] ==> recorded && run == classified && acts <= HandlerCalls(Plan(classified.value), epoch)
    ensures FailClosed(calls, opening, inspections, epoch, request, classified, recorded, run)
  {
    var head := opening + inspections;
    assert head + [Record(epoch, request, classified.value)] <= calls;
    assert calls[..|opening|] == opening;
    assert calls[|head| + 1..] == acts;
  }

  /**
    Fail-closed trace: acquire, inventory, inspections in inventory order, one record, actions, and
    nothing after the first failure. A malformed inventory ends the run after two calls, the record
    holds exactly the classified inventory, and no action precedes a record that succeeded.
  */
  lemma ReconcileTrace(session: Uuid, ids: RunIds, at: nat, script: Script)
    ensures var calls := ReconcileRun(session, ids, at, script).0;
            var epoch, cs := At(script, at).epoch, At(script, at + 1).inventory;
            var opening := Opening(session, ids, epoch);
            var inspections := InspectCalls(cs, epoch);
            && (!At(script, at).ok ==> calls == opening[..1])
            && (At(script, at).ok && (!At(script, at + 1).ok || !WellFormed(session, cs)) ==> calls == opening)
            && (At(script, at).ok && At(script, at + 1).ok && WellFormed(session, cs) ==>
                  FailClosed(calls, opening, inspections, epoch, ids.classification,
                             Classify(cs, epoch, at + 2, script).1,
                             At(script, at + 2 + |inspections|).ok, ClassifyRun(session, ids, at, script).1))
  {
    var epoch, cs := At(script, at).epoch, At(script, at + 1).inventory;
    InventoryCheckIsExact(session, cs);
    if At(script, at).ok && At(script, at + 1).ok && WellFormed(session, cs) {
      TraceAfterInventory(session, ids, at, script, ReconcileRun(session, ids, at, script).0, epoch,
                          InspectCalls(cs, epoch), ClassifyRun(session, ids, at, script).1);
    }
  }

  /** The calls of a run, part by part: `made` inspections, then a record and `acts`. */
  ghost predicate RunParts(calls: seq<Call>, acts: seq<Call>, made: seq<Call>, c: Result<seq<Classified>, Error>,
                           opening: seq<Call>, inspections: seq<Call>, epoch: Epoch, request: Uuid, recorded: bool,
                           run: Result<seq<Classified>, Error>) {
    && made <= inspections
    && (c.Failure? ==> calls == opening + made && run.Failure?)
    && (c.Success? ==>
          && made == inspections && calls == opening + made + [Record(epoch, request, c.value)] + acts
          && (acts != [] ==> recorded && run == c && acts <= HandlerCalls(Plan(c.value), epoch)))
  }

  lemma ShapeOfRun(calls: seq<Call>, acts: seq<Call>, made: seq<Call>, c: Result<seq<Classified>, Error>,
                   opening: seq<Call>, inspections: seq<Call>, epoch: Epoch, request: Uuid, recorded: bool,
                   run: Result<seq<Classified>, Error>)
    requires RunParts(calls, acts, made, c, opening, inspections, epoch, request, recorded, run)
    ensures FailClosed(calls, opening, inspections, epoch, request, c, recorded, run)
  {
    if c.Failure? {
      StoppedInspecting(calls, made, opening, inspections, epoch, request, c, recorded, run);
    } else {
      WentOnToRecord(calls, acts, opening, inspections, epoch, request, c, recorded, run);
    }
  }

  function Opening(session: Uuid, ids: RunIds, epoch: Epoch): seq<Call> {
    [Acquire(session, ids.ownership), Unfinished(session, epoch)]
  }

  lemma ClassifyRunUnfolds(session: Uuid, ids: RunIds, at: nat, script: Script)
    requires At(script, at).ok && At(script, at + 1).ok
    requires CheckFrom(session, At(script, at + 1).inventory, 0, {}).None?
    ensures var epoch := At(script, at).epoch;
            var c := Classify(At(script, at + 1).inventory, epoch, at + 2, script);
            var (calls, run) := ClassifyRun(session, ids, at, script);
            && (c.1.Failure? ==> calls == Opening(session, ids, epoch) + c.0 && run.Failure?)
            && (c.1.Success? ==>
                  calls == Opening(session, ids, epoch) + c.0 + [Record(epoch, ids.classification, c.1.value)])
            && (run.Success? ==> run == c.1 && At(script, at + 2 + |c.0|).ok)
  {
  }

  /** What the run calls after its classification phase. */
  lemma ActsOfRun(session: Uuid, ids: RunIds, at: nat, script: Script) returns (acts: seq<Call>)
    ensures var (calls, run) := ClassifyRun(session, ids, at, script);
            && ReconcileRun(session, ids, at, script).0 == calls + acts
            && (acts != [] ==> run.Success? && acts <= HandlerCalls(Plan(run.value), At(script, at).epoch))
  {
    var (calls, run) := ClassifyRun(session, ids, at, script);
    acts := [];
    if run.Success? {
      PassFollowsPlan(Plan(run.value), At(script, at).epoch, at + |calls|, script);
      acts := Execute(Plan(run.value), At(script, at).epoch, at + |calls|, script).calls;
    }
    assert calls + [] == calls;
  }

  lemma PartsOfRun(session: Uuid, ids: RunIds, at: nat, script: Script,
                   calls: seq<Call>, epoch: Epoch, inspections: seq<Call>, run: Result<seq<Classified>, Error>)
    returns (acts: seq<Call>)
    requires At(script, at).ok && At(script, at + 1).ok
    requires CheckFrom(session, At(script, at + 1).inventory, 0, {}).None?
    requires calls == ReconcileRun(session, ids, at, script).0 && epoch == At(script, at).epoch
    requires inspections == InspectCalls(At(script, at + 1).inventory, epoch)
    requires run == ClassifyRun(session, ids, at, script).1
    ensures var c := Classify(At(script, at + 1).inventory, epoch, at + 2, script);
            RunParts(calls, acts, c.0, c.1, Opening(session, ids, epoch), inspections, epoch, ids.classification,
                     At(script, at + 2 + |inspections|).ok, run)
  {
    ClassifyKeepsInventory(At(script, at + 1).inventory, epoch, at + 2, script);
    ClassifyRunUnfolds(session, ids, at, script);
    acts := ActsOfRun(session, ids, at, script);
    var c := Classify(At(script, at + 1).inventory, epoch, at + 2, script);
    JoinParts(calls, ClassifyRun(session, ids, at, script).0, acts, c.0, c.1, Opening(session, ids, epoch), inspections,
              epoch, ids.classification, At(script, at + 2 + |inspections|).ok, run);
  }

  /** The classification phase, which called `before`, and the pass make up the run. */
  lemma JoinParts(calls: seq<Call>, before: seq<Call>, acts: seq<Call>, made: seq<Call>,
                  c: Result<seq<Classified>, Error>, opening: seq<Call>, inspections: seq<Call>, epoch: Epoch,
                  request: Uuid, recorded: bool, run: Result<seq<Classified>, Error>)
    requires calls == before + acts && made <= inspections
    requires c.Failure? ==> before == opening + made && run.Failure?
    requires c.Success? ==> made == inspections && before == opening + made + [Record(epoch, request, c.value)]
    requires acts != [] ==> run.Success? && acts <= HandlerCalls(Plan(run.value), epoch)
    requires run.Success? ==> run == c && recorded
    ensures RunParts(calls, acts, made, c, opening, inspections, epoch, request, recorded, run)
  {
    assert before + [] == before;
  }

  lemma TraceAfterInventory(session: Uuid, ids: RunIds, at: nat, script: Script,
                            calls: seq<Call>, epoch: Epoch, inspections: seq<Call>, run: Result<seq<Classified>, Error>)
    requires At(script, at).ok && At(script, at + 1).ok
    requires CheckFrom(session, At(script, at + 1).inventory, 0, {}).None?
    requires calls == ReconcileRun(session, ids, at, script).0 && epoch == At(script, at).epoch
    requires inspections == InspectCalls(At(script, at + 1).inventory, epoch)
    requires run == ClassifyRun(session, ids, at, script).1
    ensures FailClosed(calls, Opening(session, ids, epoch), inspections, epoch, ids.classification,
                       Classify(At(script, at + 1).inventory, epoch, at + 2, script).1,
                       At(script, at + 2 + |inspections|).ok, run)
  {
    var c := Classify(At(script, at + 1).inventory, epoch, at + 2, script);
    var acts := PartsOfRun(session, ids, at, script, calls, epoch, inspections, run);
    ShapeOfRun(calls, acts, c.0, c.1, Opening(session, ids, epoch), inspections, epoch, ids.classification,
               At(script, at + 2 + |inspections|).ok, run);
  }

  // ---------------------------------------------------------------------------------------------
  // Repeated passes
  // ---------------------------------------------------------------------------------------------

  /** `rounds` successive calls of `execute_actions` on one plan, each starting where the last one stopped or failed. */
  function Rounds(xs: seq<Execution>, epoch: Epoch, at: nat, script: Script, rounds: nat): (seq<Execution>, seq<Call>)
    decreases rounds
  {
    if rounds == 0 then (xs, [])
    else
      var o := Execute(xs, epoch, at, script);
      var rest := Rounds(o.executions, epoch, at + |o.calls|, script, rounds - 1);
      (rest.0, o.calls + rest.1)
  }

  predicate DistinctEntries(xs: seq<Execution>) {
    forall i, j :: 0 <= i < j < |xs| ==> xs[i].item.entity != xs[j].item.entity
  }

  ghost predicate Spares(calls: seq<Call>, entity: Entity) {
    forall k :: 0 <= k < |calls| ==> IsHandler(calls[k]) && Target(calls[k]) != entity
  }

  lemma HandlerTargetsItsItem(item: Classified, epoch: Epoch)
    requires HandlerCall(item, epoch).Some?
    ensures IsHandler(HandlerCall(item, epoch).value) && Target(HandlerCall(item, epoch).value) == item.entity
  {
  }

  lemma PassSparesSettled(xs: seq<Execution>, epoch: Epoch, at: nat, script: Script, i: nat)
    requires i < |xs| && !xs[i].status.Pending? && DistinctEntries(xs)
    ensures Spares(Execute(xs, epoch, at, script).calls, xs[i].item.entity)
  {
    var calls := Execute(xs, epoch, at, script).calls;
    PassFollowsPlan(xs, epoch, at, script);
    var planned := HandlerCalls(xs, epoch);
    var sources := CallsComeFromEntries(xs, epoch);
    forall k | 0 <= k < |calls| ensures IsHandler(calls[k]) && Target(calls[k]) != xs[i].item.entity {
      assert calls[k] == planned[k] && ComesFrom(xs, epoch, sources[k], planned[k]);
      HandlerTargetsItsItem(xs[sources[k]].item, epoch);
      assert sources[k] != i;
    }
  }

  lemma KeepingKeepsDistinct(xs: seq<Execution>, ys: seq<Execution>)
    requires KeepsAll(xs, ys) && DistinctEntries(xs)
    ensures DistinctEntries(ys)
  {
    forall i, j | 0 <= i < j < |ys| ensures ys[i].item.entity != ys[j].item.entity {
      assert Keeps(xs[i], ys[i]) && Keeps(xs[j], ys[j]);
    }
  }

  lemma SparesBoth(a: seq<Call>, b: seq<Call>, entity: Entity)
    requires Spares(a, entity) && Spares(b, entity)
    ensures Spares(a + b, entity)
  {
  }

  /** A settled entry never changes again and its entity is never handed to a handler again. */
  lemma {:induction false} SettledForever(xs: seq<Execution>, epoch: Epoch, at: nat, script: Script, rounds: nat,
                                          i: nat)
    requires i < |xs| && !xs[i].status.Pending? && DistinctEntries(xs)
    ensures var (xs', calls) := Rounds(xs, epoch, at, script, rounds);
            |xs'| == |xs| && xs'[i] == xs[i] && Spares(calls, xs[i].item.entity)
    decreases rounds
  {
    if rounds == 0 {
    } else {
      var o := Execute(xs, epoch, at, script);
      PassKeepsEntries(xs, epoch, at, script);
      PassSparesSettled(xs, epoch, at, script, i);
      KeepingKeepsDistinct(xs, o.executions);
      assert Keeps(xs[i], o.executions[i]);
      SettledForever(o.executions, epoch, at + |o.calls|, script, rounds - 1, i);
      SparesBoth(o.calls, Rounds(o.executions, epoch, at + |o.calls|, script, rounds - 1).1, xs[i].item.entity);
    }
  }

  // ---------------------------------------------------------------------------------------------
  // Kind agreement
  // ---------------------------------------------------------------------------------------------

  /** The candidate's entity is of the kind its durable state speaks about. */
  predicate KindsAgree(entity: Entity, state: State) {
    && (InstanceState(state) ==> entity.InstanceEntity?)
    && (state.OperationQueued? ==> entity.OperationEntity?)
    && (state.MessageQueued? || state.MessageRetryScheduled? || state.MessageLeased? ==> entity.MessageEntity?)
  }

  predicate Executable(x: Execution) {
    x.item.decision.action.Continue? || x.item.decision.action.NoAction? || x.item.decision.action.AwaitResolution?
    || HandlerCall(x.item, 0).Some?
  }

  lemma {:induction false} ExecutableNeverMismatches(xs: seq<Execution>, epoch: Epoch, at: nat, script: Script)
    requires forall i :: 0 <= i < |xs| ==> Executable(xs[i])
    ensures Execute(xs, epoch, at, script).error != Some(ActionEntityMismatch)
  {
    if xs == [] {
    } else {
      var act := Act(xs[0], epoch, At(script, at));
      ExecutableNeverMismatches(xs[1..], epoch, at + |act.calls|, script);
    }
  }

  lemma AgreeingItemIsExecutable(x: Execution)
    requires KindsAgree(x.item.entity, x.item.state)
    requires ClassifyRecovery(x.item.state, x.item.observation) == Success(x.item.decision)
    ensures Executable(x)
  {
    TableIsConservative(x.item.state, x.item.observation);
  }

  predicate InventoryKindsAgree(cs: seq<Candidate>) {
    forall i :: 0 <= i < |cs| ==> KindsAgree(cs[i].entity, cs[i].state)
  }

  lemma AgreeingItemsAreExecutable(cs: seq<Candidate>, items: seq<Classified>)
    requires InventoryKindsAgree(cs) && AllClassified(cs, items)
    ensures forall i :: 0 <= i < |Plan(items)| ==> Executable(Plan(items)[i])
  {
    forall i | 0 <= i < |Plan(items)| ensures Executable(Plan(items)[i]) {
      assert KindsAgree(cs[i].entity, cs[i].state) && ClassifiedAs(cs[i], items[i]);
      AgreeingItemIsExecutable(Plan(items)[i]);
    }
  }

  lemma ClassificationNeverMismatches(session: Uuid, ids: RunIds, at: nat, script: Script)
    ensures ClassifyRun(session, ids, at, script).1 != Failure(ActionEntityMismatch)
  {
    var cs := At(script, at + 1).inventory;
    CheckNeverMismatches(session, cs, 0, {});
    ClassifyNeverMismatches(cs, At(script, at).epoch, at + 2, script);
  }

  /** When every entity is of its state's kind, no run ends with an action that does not fit its entity. */
  lemma AgreeingKindsNeverMismatch(session: Uuid, ids: RunIds, at: nat, script: Script)
    requires InventoryKindsAgree(At(script, at + 1).inventory)
    ensures ReconcileRun(session, ids, at, script).1 != Failure(ActionEntityMismatch)
  {
    var run := ClassifyRun(session, ids, at, script);
    ClassificationNeverMismatches(session, ids, at, script);
    if run.1.Success? {
      RecordedItemsAreClassified(session, ids, at, script);
      AgreeingItemsAreExecutable(At(script, at + 1).inventory, run.1.value);
      ExecutableNeverMismatches(Plan(run.1.value), At(script, at).epoch, at + |run.0|, script);
    }
  }

  lemma {:induction false} CheckNeverMismatches(session: Uuid, cs: seq<Candidate>, previous: nat, seen: set<Entity>)
    ensures CheckFrom(session, cs, previous, seen) != Some(ActionEntityMismatch)
  {
    if cs == [] {
    } else {
      CheckNeverMismatches(session, cs[1..], cs[0].ordinal, seen + {cs[0].entity});
    }
  }

  lemma {:induction false} ClassifyNeverMismatches(cs: seq<Candidate>, epoch: Epoch, at: nat, script: Script)
    ensures Classify(cs, epoch, at, script).1 != Failure(ActionEntityMismatch)
  {
    if cs == [] {
    } else {
      var calls := if cs[0].entity.InstanceEntity? then [Inspect(cs[0].entity.launch, epoch)] else [];
      ClassifyNeverMismatches(cs[1..], epoch, at + |calls|, script);
    }
  }
}
