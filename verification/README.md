# Navigator: a verified model of its coordination protocols

Navigator is a durable coordination kernel. This project models its protocols in Dafny and proves
what they guarantee over every run: the fair capacity allocator, the mailbox delivery loop together
with the store transactions it relies on, the recovery reconciler, the worker registry, the
operation worker and its report loop, the admission gate, hierarchy routing, the online stream
validators, the tool-schema checker with JSON canonicalisation, and the session compatibility
manifest. `dafny verify dfyconfig.toml` checks everything.

## How it is built

Protocols are state machines: a `System`, the `Event`s that can happen to it, `Enabled` and `Step`.
A theorem about `Run(s, events)` holds for every interleaving, including crashes, dropped futures and
late answers. Code that changes state in place is a class or a method; each is tied to a
specification function, to a step of the machine, or to the history of what it accepted. A method
that runs among others calls `Interfere`, which lets all the rest of the system take any number of
steps, before each access to shared state. Clocks, the Driver, the backend and the executor are
inputs that may answer anything.

| files | what they hold |
|---|---|
| `FairCapacity`, `FairScheduling` | the permit allocator; capacity, fairness, starvation, leaked grants |
| `Mailbox`, `Delivery`, `DeliveryLoop` | store transactions, all delivery runs, the loop itself |
| `StaleDelivery`, `RetryFirst` | a delivery without a retry, and exactly when there is none |
| `RecoveryTable`, `Recovery`, `RecoveryBarrier` | decision table, reconciler, guarantees of every run |
| `Registry`, `WorkerRegistry` | one worker per operation, wakes, shutdown; the code in place |
| `Operations`, `Observation`, `Execution`, `Worker` | transition table and histories, rules of the report loop and of the steps before it, `execute` and `observe` |
| `Admission`, `Ownership` | the gate at atomic-access granularity; the code in place |
| `Hierarchy` | routes over an untrusted parent map |
| `ToolStream`, `ArtifactStream` | online validators against declarative stream predicates |
| `Json`, `ToolSchema`, `CanonicalSchema` | canonical JSON, schema checks, their independence of member order |
| `Manifest` | sorted bindings, injective encoding, binary search |
| `Wrappers`, `Sets` | options, results and set sizes |

## Properties that the code does not have

Five expected properties fail; each has a concrete run and the exact condition under which it holds.

- A delivery call can be repeated without a retry in between: a loop paused after its pending commit
  is overtaken by another process and then delivers an outdated attempt
  (`StaleDelivery.StaleDeliveryIsPossible`). Every further delivery has its own durable retry, in
  every continuation, exactly when no other loop is about to deliver the message and no pending
  commit of it is possible without a retry (`RetryFirst.DeliveriesSeparatedExactly`). The number of
  calls is bounded in every run.
- A future dropped between its grant and its permit takes a slot with it for good. The allocator is
  dead exactly when as many grants were lost that way as it has slots
  (`FairScheduling.DeadExactlyWhenAllSlotsLeaked`).
- A wake recorded for a started worker can be lost, when its reload fails. While the registry accepts
  work, a pending wake is honoured in every continuation exactly when the worker is a resumed one
  (`Registry.WakeIsHonouredExactly`); a started one honours it if none of its reloads fails.
- Two overlapping shutdown calls can stop the executor while a worker lives
  (`Registry.TwoShutdownsOverlap`). A call stops it only after every worker exactly when, as it
  begins, the registry still accepts work or no worker is alive (`Registry.StopsCleanlyExactly`).
- A closed gate does not settle the ownership status: Lost is final exactly when no tick that saw the
  gate open is still in progress (`Admission.LostIsFinalExactly`).

## Model

| member | source | states |
|---|---|---|
| FairCapacity.NextCampaign | crates/navigator-core/src/first_operation.rs:283-290 | the campaign served next comes before every other waiting campaign in the rotation that starts after the last one served |
| FairCapacity.PopShrinks | crates/navigator-core/src/first_operation.rs:291-294 | every turn strictly shrinks the set of queued senders, so the loop terminates |
| FairCapacity.Allocator.constructor | crates/navigator-core/src/first_operation.rs:249-259 | an allocator starts with no active slot, no last campaign and no queue |
| FairCapacity.Allocator.Acquire | crates/navigator-core/src/first_operation.rs:261-273 | a slot at once exactly when one is free and nobody waits, so nobody is overtaken; else the end of the campaign's queue |
| FairCapacity.Allocator.ServeTurn | crates/navigator-core/src/first_operation.rs:283-299 | one turn removes the first waiter of the next campaign and grants it if it is alive |
| FairCapacity.Allocator.Release | crates/navigator-core/src/first_operation.rs:280-300 | releasing a slot serves turns until capacity or the queues are exhausted, with exactly the specified grants and state |
| FairScheduling.ServeOnce | crates/navigator-core/src/first_operation.rs:282-299 | with one free slot the loop grants at most once, only to live queued waiters, loses no live waiter and stops full or empty |
| FairScheduling.StepKeepsInv | crates/navigator-core/src/first_operation.rs:261-311 | arrivals, cancellations, claims, aborts and permit drops all keep the invariant |
| FairScheduling.EveryReachableState | crates/navigator-core/src/first_operation.rs:261-311 | permits ≤ active ≤ capacity; waiting implies full; no empty queue is stored; the saturating subtraction never saturates; every live receiver still has its sender |
| FairScheduling.EveryRunFromInit | crates/navigator-core/src/first_operation.rs:249-311 | the same for every run of a new allocator |
| FairScheduling.DropServes | crates/navigator-core/src/first_operation.rs:280-311 | dropping a permit grants at most once, and exactly once if a live waiter is queued |
| FairScheduling.ServeIsFair | crates/navigator-core/src/first_operation.rs:282-299 | a grant to another campaign goes to one that comes sooner in the rotation; a grant to the own campaign takes one live waiter from ahead |
| FairScheduling.StepIsFair | crates/navigator-core/src/first_operation.rs:261-300 | no step lengthens the wait of a waiter that stays, and each release shortens it |
| FairScheduling.BoundedBypass | crates/navigator-core/src/first_operation.rs:261-300 | a waiter with p live waiters ahead in its queue is granted before any other campaign receives more than p+1 grants |
| FairScheduling.StarvationFreedom | crates/navigator-core/src/first_operation.rs:261-300 | with campaigns from a finite set a waiter that stays is granted within (p+1) times that many releases |
| FairScheduling.AbortedGrantsNeverReturn | crates/navigator-core/src/first_operation.rs:274-300 | each future dropped between its grant and its permit reduces the usable slots by one, for good |
| FairScheduling.DeadExactlyWhenAllSlotsLeaked | crates/navigator-core/src/first_operation.rs:274-300 | no permit can ever exist again exactly when the lost grants equal the capacity |
| FairScheduling.AllSlotsCanLeak | crates/navigator-core/src/first_operation.rs:274-300 | a run in which the only slot is lost |
| Delivery.StepKeepsInv | crates/navigator-core/src/delivery.rs:118-382 | every step of every loop, of the store and of the clock keeps snapshots, attempts, order and the single message in flight consistent |
| Delivery.DeliveryLedger | crates/navigator-core/src/delivery.rs:154-332 | over any stretch of a run each delivery call has its own durable pending commit, each further one its own durable retry, each retry its own NotAccepted answer, and each pending commit its own leased attempt |
| Delivery.DeliveriesAreBounded | crates/navigator-core/src/delivery.rs:154-332 | a message is delivered at most once more than it was retried, is retried at most as often as refused, and is delivered at most 32 times |
| Delivery.EveryReachableMailbox | crates/navigator-store-sqlite/src/store.rs:9560-9787 | at most one message in flight, attempts in mailbox order within a class, at most 32 attempts |
| Delivery.FinishedForever | crates/navigator-store-sqlite/src/store.rs:9790-10052 | an accepted, uncertain or dead message never changes again |
| Delivery.AcceptedOnlyIfConfirmed | crates/navigator-core/src/delivery.rs:201-332 | a message becomes Accepted only after an explicit Accepted answer about it |
| Delivery.CommitFollowsAnswer | crates/navigator-core/src/delivery.rs:201-332 | a commit writes exactly the state that the Driver's answer, the adoption and the attempt budget call for, on the record of that message alone |
| Delivery.LeaseFollowsRecord | crates/navigator-store-sqlite/src/store.rs:9560-9787 | a lease adopts an awaited attempt under its identity and the current epoch, opens a new attempt within the budget, or dead-letters |
| Delivery.LeaseFollowsOrder | crates/navigator-store-sqlite/src/store.rs:9560-9787 | adoption comes first; a new attempt is only for the head of the mailbox, with nothing in flight and not before its retry time |
| Delivery.RetirementFollowsRecord | crates/navigator-store-sqlite/src/store.rs:9790-10052 | a message whose operation ended is uncertain if the Driver may hold it and dead otherwise |
| Delivery.DeadOnlyWhenExhausted | crates/navigator-core/src/delivery.rs:226-260 | in every run a message is dead-lettered only with its attempts used up or because its operation ended |
| Delivery.CurrentDeliveriesAreSeparated | crates/navigator-core/src/delivery.rs:154-332 | two delivery calls made while their attempts were the durable ones are separated by a durable retry; the exact condition is `RetryFirst.DeliveriesSeparatedExactly` |
| Delivery.ExclusiveDeliveriesAreSeparated | crates/navigator-core/src/delivery.rs:154-332 | in a run with one loop at a time any two delivery calls of a message are separated by a durable retry |
| Delivery.ExclusiveRunsStayFresh | crates/navigator-core/src/delivery.rs:154-332 | in such a run no loop ever delivers an outdated attempt |
| RetryFirst.RetryFirstExactly | crates/navigator-core/src/delivery.rs:154-332 | from any state that keeps the invariant, every delivery of a message has its own durable retry in every continuation exactly when no loop is about to deliver it and no pending commit of it is possible without a retry |
| RetryFirst.DeliveriesSeparatedExactly | crates/navigator-core/src/delivery.rs:154-332 | at a delivery call: every later call is separated from it by a durable retry exactly when the caller is the only loop about to deliver and no pending commit is possible without a retry |
| StaleDelivery.StaleDeliveryIsPossible | crates/navigator-core/src/delivery.rs:154-200 | a run of two processes, each driving one loop at a time, with two delivery calls of one message and no retry between them, the second one outdated |
| DeliveryLoop.World.LeaseNext | crates/navigator-store-sqlite/src/store.rs:9560-9787 | leasing fails, finds that the store offers nothing, or returns a dead message or a snapshot whose state decides between delivering and querying |
| DeliveryLoop.World.Transition | crates/navigator-core/src/delivery.rs:357-382 | a committed transition carries the loop's own snapshot forward exactly as intended; anything else ends the call |
| DeliveryLoop.Requery | crates/navigator-core/src/delivery.rs:283-332 | the inline query never delivers; it reports Accepted, a retry or required reconciliation exactly as the Driver answered accepted, not accepted or doubtful, true of the durable record; no answer means an error |
| DeliveryLoop.Reconcile | crates/navigator-core/src/delivery.rs:154-332 | a freshly leased message is delivered once, an adopted one only queried; the step is the one the Driver's answers and the attempt budget call for, is true of the durable record, and is missing only when something failed |
| DeliveryLoop.DriveOnce | crates/navigator-core/src/delivery.rs:118-148 | one drive delivers at most once; its step is true of the durable record, Empty only when the store offers nothing, no step exactly when something failed |
| RecoveryTable.TableIsConservative | crates/navigator-domain/src/recovery.rs:328-468 | an uncertain class always waits, a finished one never acts, cleanup is exactly the cleanup class, reconnection needs the authenticated instance, an unproven identity is never safe |
| RecoveryTable.ContradictionsAreExact | crates/navigator-domain/src/recovery.rs:328-468 | which states and observations contradict each other, and how |
| RecoveryTable.ClassesAreExact | crates/navigator-domain/src/recovery.rs:328-468 | the class of every state and observation: work that may have happened or an unproven identity is uncertain, and nothing else is |
| RecoveryTable.DecisionsAreExact | crates/navigator-domain/src/recovery.rs:328-468 | the action and the reason of every decision |
| Recovery.InventoryCheckIsExact | crates/navigator-core/src/recovery.rs:743-756 | the single pass accepts exactly inventories of one session with positive, strictly increasing ordinals and distinct entities |
| Recovery.InventoryErrorIsFirstDefect | crates/navigator-core/src/recovery.rs:743-756 | a malformed inventory is refused for its first defect: everything before it is in order |
| Recovery.CheckInventory | crates/navigator-core/src/recovery.rs:743-756 | the loop with its seen set and previous ordinal computes that check |
| Recovery.ClassifyInventory | crates/navigator-core/src/recovery.rs:757-775 | the loop inspects instances in inventory order, stops at the first failure or contradiction, and classifies by the table |
| Recovery.ActOn | crates/navigator-core/src/recovery.rs:820-869 | one plan entry calls at most the handler it asks for and changes only its own status |
| Recovery.ExecuteActions | crates/navigator-core/src/recovery.rs:815-871 | the in-place pass equals the specified pass: statuses, calls and error |
| Recovery.ClassifyOnly | crates/navigator-core/src/recovery.rs:727-813 | acquire, inventory, check, inspections, record, plan; every failure ends the call where it happened |
| Recovery.FilterActions | crates/navigator-core/src/recovery.rs:789-798 | the action list is the classified items that neither rest nor wait, in order |
| Recovery.ActionableIsExact | crates/navigator-core/src/recovery.rs:789-798 | the action list holds exactly the items that neither rest nor wait, in inventory order |
| Recovery.Reconcile | crates/navigator-core/src/recovery.rs:717-725 | a reconcile run is the classification followed by one pass over its plan |
| RecoveryBarrier.PassKeepsEntries | crates/navigator-core/src/recovery.rs:815-871 | a pass keeps every item and moves a status only from pending to executed |
| RecoveryBarrier.CallsComeFromEntries | crates/navigator-core/src/recovery.rs:815-871 | every handler call comes from its own pending entry, in plan order, with that entry's identities |
| RecoveryBarrier.HandlersAreExact | crates/navigator-core/src/recovery.rs:824-862 | which handler each action and entity calls, fenced by the epoch and with the persisted identity |
| RecoveryBarrier.PlanIsExact | crates/navigator-core/src/recovery.rs:886-904 | when an entry is pending, resting or blocked, and by what |
| RecoveryBarrier.PassDealsWithEntries | crates/navigator-core/src/recovery.rs:815-871 | the status of every entry after a pass, from the answer its own handler gave; entries past a failure are untouched |
| RecoveryBarrier.PassFailsAtEntry | crates/navigator-core/src/recovery.rs:815-871 | a pass fails exactly at the first pending entry whose handler fails or that has none |
| RecoveryBarrier.PlanRespectsBarrier | crates/navigator-core/src/recovery.rs:886-904 | what a plan asks for: nothing under uncertainty, only cleanup under cleanup, at most once per entity |
| RecoveryBarrier.PassIsComplete | crates/navigator-core/src/recovery.rs:783-871 | without uncertainty a pass that does not fail makes every allowed call, in inventory order |
| RecoveryBarrier.ClassifyKeepsInventory | crates/navigator-core/src/recovery.rs:757-775 | classification keeps entities, states and order, and each decision is the table's |
| RecoveryBarrier.ClassifyIsExact | crates/navigator-core/src/recovery.rs:757-775 | classification succeeds exactly when every instance answers and nothing contradicts; each observation is the answer to that candidate's own inspection |
| RecoveryBarrier.ReconcileRespectsBarrier | crates/navigator-core/src/recovery.rs:717-871 | end to end: any uncertain item stops every handler; else any cleanup item stops all but cleanup; no handler without a recorded classification |
| RecoveryBarrier.UnfinishedWorkStopsEveryHandler | crates/navigator-core/src/recovery.rs:717-871 | an inventory with work that may have happened stops every handler, whatever the backend answers |
| RecoveryBarrier.UnprovenIdentityStopsEveryHandler | crates/navigator-core/src/recovery.rs:717-871 | so does an instance whose observation does not prove its identity |
| RecoveryBarrier.ReconcileTrace | crates/navigator-core/src/recovery.rs:717-871 | the trace is acquire, inventory, inspections in order, one record of exactly the classified inventory, planned actions, cut at the first failure; a malformed inventory ends it after two calls; no action before a successful record |
| RecoveryBarrier.SettledForever | crates/navigator-core/src/recovery.rs:815-871 | over any number of passes, failed ones included, an executed, blocked or resting entry never changes and its entity is never handled again |
| RecoveryBarrier.AgreeingKindsNeverMismatch | crates/navigator-core/src/recovery.rs:815-871 | when entity kinds match their states no run ends in an action mismatch |
| Hierarchy.AncestorSet | crates/navigator-core/src/hierarchy.rs:242-260 | terminates on every map; succeeds exactly when the chain reaches a root, and then returns exactly the participant and its ancestors |
| Hierarchy.Climb | crates/navigator-core/src/hierarchy.rs:220-240 | finds the lowest common ancestor, fails exactly when there is none, and its own topology checks never fail |
| Hierarchy.IndexById | crates/navigator-core/src/hierarchy.rs:208-211 | the map built from the snapshots, later duplicates replacing earlier ones |
| Hierarchy.PolicyRoute | crates/navigator-core/src/hierarchy.rs:203-240 | the answer in terms of chains alone: errors, self, parent, child, or the lowest common ancestor |
| Hierarchy.FirstCommonIsLowest | crates/navigator-core/src/hierarchy.rs:224-240 | the first entry of a chain that is above the other participant is their lowest common ancestor |
| Hierarchy.RouteIsUnique | crates/navigator-core/src/hierarchy.rs:203-240 | topology and identities determine the answer |
| Hierarchy.RouteIsSymmetric | crates/navigator-core/src/hierarchy.rs:186-240 | exchanging the participants exchanges parent and child and nothing else |
| ToolStream.AdmittedStream | crates/navigator-consumer-protocol/src/lib.rs:1353-1469 | the frames accepted one by one are exactly the valid streams: one connect, first; frames on that stream past the watermark; invocations and sequences one to one; terminal frames only after the same triple started; no start after its terminal frame |
| ToolStream.RefusalsAreExact | crates/navigator-consumer-protocol/src/lib.rs:1367-1468 | the reason for every refusal, for every history |
| ToolStream.LookupsDecide | crates/navigator-consumer-protocol/src/lib.rs:1379-1449 | when the three maps agree, their lookups decide compatibility with every started frame and whether a triple was started |
| ToolStream.ToolProviderStreamValidator.constructor | crates/navigator-consumer-protocol/src/lib.rs:1353-1366 | a new validator has accepted nothing |
| ToolStream.ToolProviderStreamValidator.AcceptCorrelated | crates/navigator-consumer-protocol/src/lib.rs:1450-1468 | a correlated frame needs the connect frame's identities and a later sequence |
| ToolStream.ToolProviderStreamValidator.Accept | crates/navigator-consumer-protocol/src/lib.rs:1367-1429 | the verdict is that of the accepted history; a rejected frame changes nothing |
| ToolStream.ToolProviderStreamValidator.AcceptStarted | crates/navigator-consumer-protocol/src/lib.rs:1379-1411 | the verdict on a started frame, with the maps kept in agreement |
| ToolStream.ToolProviderStreamValidator.AcceptTerminal | crates/navigator-consumer-protocol/src/lib.rs:1430-1449 | a terminal frame is accepted exactly when the same triple was started |
| ArtifactStream.EachChunkInPlace | crates/navigator-consumer-protocol/src/lib.rs:1506-1546 | in an accepted stream the bytes of each chunk are found at its own offset |
| ArtifactStream.EverySplitIsAccepted | crates/navigator-consumer-protocol/src/lib.rs:1489-1546 | every split of a range into non-empty chunks within bounds is accepted chunk by chunk |
| ArtifactStream.TracksChunk | crates/navigator-consumer-protocol/src/lib.rs:1521-1535 | a well-formed chunk at the kept offset is the next tile or overruns the range; the addition never overflows |
| ArtifactStream.ValidateChunk | crates/navigator-consumer-protocol/src/lib.rs:1489-1495 | a chunk is well formed exactly when it is identified, not too far, not empty and not too long |
| ArtifactStream.ValidateBegin | crates/navigator-consumer-protocol/src/lib.rs:1471-1487 | a begin frame is accepted exactly when its fields are and the declared size is bounded |
| ArtifactStream.ValidateHeader | crates/navigator-consumer-protocol/src/lib.rs:1583-1601 | a header is accepted exactly when its range lies within an artifact of bounded size and is empty only for an empty artifact |
| ArtifactStream.ArtifactWriteStreamValidator.Accept | crates/navigator-consumer-protocol/src/lib.rs:1506-1538 | a begin frame is accepted once; a chunk exactly when it is the next tile of the declared size; an overrun is permanent |
| ArtifactStream.ArtifactWriteStreamValidator.AcceptChunk | crates/navigator-consumer-protocol/src/lib.rs:1520-1537 | a chunk is recorded exactly when it is the next tile; an overrun is permanent; which error each refusal gives |
| ArtifactStream.ArtifactWriteStreamValidator.Finish | crates/navigator-consumer-protocol/src/lib.rs:1539-1546 | succeeds exactly when the accepted chunks tile the declared size |
| ArtifactStream.ArtifactReadStreamValidator.Accept | crates/navigator-consumer-protocol/src/lib.rs:1660-1710 | header once, failure once, chunks exactly as next tiles of the range |
| ArtifactStream.ArtifactReadStreamValidator.CompletedSuccessfully | crates/navigator-consumer-protocol/src/lib.rs:1654-1659 | true exactly when the chunks tile the whole range and nothing failed or overran |
| ArtifactStream.ArtifactReadStreamValidator.Finish | crates/navigator-consumer-protocol/src/lib.rs:1711-1718 | succeeds exactly after a failure frame or a complete tiling |
| Json.SortKeepsLookups | crates/navigator-domain/src/tool.rs:45-58 | sorting the members of an object changes no lookup |
| Json.LessIsFirstDifference | crates/navigator-domain/src/tool.rs:49-55 | keys are ordered by their first difference, a proper prefix first |
| Json.CanonicalFormsCharacterize | crates/navigator-domain/src/tool.rs:45-58 | two values have the same canonical form exactly when they are equal up to recursive member reordering |
| Json.CanonicalIsEquivalent | crates/navigator-domain/src/tool.rs:45-58 | a value equals its canonical form up to member order |
| Json.CanonicalizeIsIdempotent | crates/navigator-domain/src/tool.rs:45-58 | canonicalising twice is canonicalising once |
| ToolSchema.ShapeMeansSupportedEverywhere | crates/navigator-domain/src/tool.rs:277-331 | the shape check accepts exactly the schemas whose every sub-schema, along any path, is locally supported and at depth at most 32 |
| ToolSchema.NodeIsExact | crates/navigator-domain/src/tool.rs:333-408 | after the shape check the value check never reports an unsupported schema and accepts exactly the satisfying values |
| ToolSchema.RequiredIsPresence | crates/navigator-domain/src/tool.rs:375-385 | the required loop accepts exactly when every listed key is present |
| ToolSchema.RequiredFailsAtFirst | crates/navigator-domain/src/tool.rs:375-385 | a list of required names fails at the first that is not a string or that the value lacks, with the outcome for each |
| ToolSchema.KindsAreExact | crates/navigator-domain/src/tool.rs:359-371 | the values of each type; an integer is one that a 64-bit signed or unsigned reader takes |
| ToolSchema.ForbiddenIsUndeclared | crates/navigator-domain/src/tool.rs:386-392 | the closed-object rule rejects exactly when some key is not declared |
| ToolSchema.PropertiesAreAll | crates/navigator-domain/src/tool.rs:393-399 | the properties loop accepts exactly when each present property satisfies its schema |
| ToolSchema.ItemsAreAll | crates/navigator-domain/src/tool.rs:400-406 | the items loop accepts exactly when every item satisfies the item schema |
| CanonicalSchema.ShapeIgnoresOrder | crates/navigator-domain/src/tool.rs:277-331 | member order anywhere in a schema does not matter to the shape check |
| CanonicalSchema.SatisfiesAlike | crates/navigator-domain/src/tool.rs:333-408 | member order in schema or value does not matter to satisfaction |
| CanonicalSchema.CheckingIsCanonical | crates/navigator-domain/src/tool.rs:45-58 | validation gives the same answer before and after canonicalising schema and value |
| Manifest.New | crates/navigator-domain/src/session.rs:55-83 | succeeds exactly for 1 to 128 bindings of distinct templates, with the bindings strictly sorted and the digest of their encoding |
| Manifest.CanonicalBytes | crates/navigator-domain/src/session.rs:69-76 | the appended buffer is the encoding |
| Manifest.HasAdjacentRepeat | crates/navigator-domain/src/session.rs:61-68 | on a sorted list adjacent duplicates are all duplicates |
| Manifest.ManifestIgnoresOrder | crates/navigator-domain/src/session.rs:55-83 | two orders of the same bindings are both refused or give the same manifest |
| Manifest.BigEndianIsInjective | crates/navigator-domain/src/session.rs:72-74 | fixed-width big-endian bytes determine the number |
| Manifest.BigEndianByte | crates/navigator-domain/src/session.rs:72-74 | the value of every byte of the encoding of a number |
| Manifest.PrefixSpells | crates/navigator-domain/src/session.rs:70 | the prefix spells its text and ends with a zero byte |
| Manifest.BindingsInPlace | crates/navigator-domain/src/session.rs:73-76 | the identity and the digest of binding i stand at its own offset |
| Manifest.EncodingIsInjective | crates/navigator-domain/src/session.rs:69-76 | the encoding determines the configuration and the bindings |
| Manifest.Contains | crates/navigator-domain/src/session.rs:101-105 | binary search agrees with membership of the whole binding |
| Admission.StepKeepsInv | crates/navigator-core/src/lib.rs:79-281 | every atomic access of admit, check, tick, shutdown, guard drop and supervisor drop keeps the invariant, and none reopens the gate |
| Admission.EveryReachableState | crates/navigator-core/src/lib.rs:79-281 | every permit carries the first generation; the lease keeps session, owner and epoch; a returned failed tick, shutdown or drop has closed the gate |
| Admission.ClosureIsAbsorbing | crates/navigator-core/src/lib.rs:102-105 | a closed gate stays closed in every run |
| Admission.LateChecksFail | crates/navigator-core/src/lib.rs:92-118 | a check or admission that reads the flag after the close store never succeeds, even if the generation wraps around |
| Admission.RenewalIsExact | crates/navigator-core/src/lib.rs:244-271 | which answers renew the lease and which lose it, and for what reason |
| Admission.GenerationCountsClosures | crates/navigator-core/src/lib.rs:102-105 | in every run the generation counts the closures, modulo its 64 bits |
| Admission.LostIsFinalExactly | crates/navigator-core/src/lib.rs:209-281 | with the gate closed, Lost is final exactly when no tick that saw it open is in progress |
| Admission.ShutdownCanBeOverwritten | crates/navigator-core/src/lib.rs:253-259 | a run in which a completed shutdown is overwritten by Active |
| Ownership.Supervisor.constructor | crates/navigator-core/src/lib.rs:318-336 | a supervisor starts with an open gate in its first generation and an active status of its lease |
| Ownership.Start | crates/navigator-core/src/lib.rs:296-317 | supervision is refused exactly for a zero period or timeout, or when the first renewal would not come before the lease expires |
| Ownership.Supervisor.Check | crates/navigator-core/src/lib.rs:109-117 | a check succeeds exactly when it read the gate open and then its own generation; begun after closure it fails, with the gate still open at its end it cannot |
| Ownership.Supervisor.Admit | crates/navigator-core/src/lib.rs:92-100 | admission after closure fails, with the gate still open at its end it cannot; a permit carries the first generation |
| Ownership.Supervisor.Close | crates/navigator-core/src/lib.rs:274-281 | closing leaves the gate closed and writes the loss if there is one |
| Ownership.Supervisor.Tick | crates/navigator-core/src/lib.rs:224-272 | succeeds exactly when it saw the gate open and no reason to give up, with the status then Active for the renewed lease; otherwise the gate is closed and the status Lost for exactly that reason |
| Ownership.Supervisor.Renew | crates/navigator-core/src/lib.rs:244-272 | a renewal succeeds exactly on a valid renewed lease; otherwise the gate is closed and the status names the loss |
| Ownership.Supervisor.Shutdown | crates/navigator-core/src/lib.rs:381-388 | shutdown leaves the gate closed and the status Lost for shutdown |
| Ownership.Supervisor.DropGuard | crates/navigator-core/src/lib.rs:209-221 | the worker is marked stopped and the gate closed; a gate found open is closed as a failed renewal |
| Ownership.Supervisor.Drop | crates/navigator-core/src/lib.rs:466-474 | dropping the supervisor leaves the gate closed |
| Registry.StepKeepsInv | crates/navigator-core/src/first_operation.rs:351-504 | starts, resumes, worker steps and shutdown calls keep the registry and the live workers consistent |
| Registry.EveryReachableState | crates/navigator-core/src/first_operation.rs:351-504 | at most one worker per operation; until shutdown the active set is the operations with a live worker, each under its own handle |
| Registry.WakeLeadsToExecution | crates/navigator-core/src/first_operation.rs:380-470 | a recorded wake leads to another execution before the worker leaves: always for resumed workers, without failed reloads for started ones |
| Registry.FailedReloadLosesTheWake | crates/navigator-core/src/first_operation.rs:394-396 | a started worker whose reload fails leaves without executing unless woken again |
| Registry.WakeIsHonouredExactly | crates/navigator-core/src/first_operation.rs:380-470 | while the registry accepts work, a pending wake leads to another execution in every continuation exactly when the worker is a resumed one |
| Registry.NoneStartsAfterShutdown | crates/navigator-core/src/first_operation.rs:477-494 | after a shutdown call has drained the registry no worker ever starts |
| Registry.ExecutorStopsAfterWorkers | crates/navigator-core/src/first_operation.rs:477-504 | when the executor is stopped every live worker was drained by another shutdown call that did not see it end; with no such call none is alive; none ever starts again |
| Registry.StopsCleanlyExactly | crates/navigator-core/src/first_operation.rs:477-504 | a shutdown call reaches the executor only after every worker has ended, in every continuation, exactly when it begins while the registry accepts work or no worker is alive |
| Registry.TwoShutdownsOverlap | crates/navigator-core/src/first_operation.rs:477-504 | a run in which a second shutdown call stops the executor while a worker executes |
| WorkerRegistry.Service.constructor | crates/navigator-core/src/first_operation.rs:328-349 | a new service accepts work and has no workers |
| WorkerRegistry.Service.Start | crates/navigator-core/src/first_operation.rs:357-402 | starts a worker exactly when accepting and the operation has none |
| WorkerRegistry.Service.ResumeExisting | crates/navigator-core/src/first_operation.rs:413-475 | the answer in every case: unreadable, settled, stopped, woken or started; settled or unreadable operations change nothing |
| WorkerRegistry.Service.TakeWake | crates/navigator-core/src/first_operation.rs:382-390 | the end of a round consumes the wake or removes operation and handle together |
| WorkerRegistry.Service.RunFresh | crates/navigator-core/src/first_operation.rs:376-400 | a started worker executes again once per wake whose reload succeeds |
| WorkerRegistry.Service.RunResumed | crates/navigator-core/src/first_operation.rs:444-471 | a resumed worker makes one more round of execution for every wake it consumes |
| WorkerRegistry.Service.Drain | crates/navigator-core/src/first_operation.rs:481-492 | the registry is closed and emptied; the drained handles are all live workers when it was accepting |
| WorkerRegistry.Service.ShutdownUntil | crates/navigator-core/src/first_operation.rs:477-504 | the call that closes the registry reaches the executor with no worker alive |
| Operations.Operation.Apply | crates/navigator-domain/src/operation.rs:95-124 | an action is taken exactly when it is legal and leads to its one target state; a refused one changes nothing; terminal states refuse all |
| Operations.TableIsExact | crates/navigator-domain/src/operation.rs:95-124 | which actions are legal in which state, and the one state each leads to |
| Operations.HistoryIsOneWay | crates/navigator-domain/src/operation.rs:95-124 | terminal states are final, cancelling never leads to success or blocked, nothing is queued again |
| Operations.SuccessStory | crates/navigator-domain/src/operation.rs:95-124 | a succeeded operation passed Starting and then Running and never accepted a cancel request |
| Observation.SuccessIsReported | crates/navigator-core/src/first_operation.rs:894-911 | success is asked for only on a correlated, bounded terminal success report, with exactly its result |
| Observation.OutcomeNamesItsState | crates/navigator-core/src/first_operation.rs:1094-1127 | the action asked for with an outcome leads, wherever it is legal, to the state that the outcome names |
| Observation.ReportsAreExact | crates/navigator-core/src/first_operation.rs:958-984 | a terminal report is committed as it is within bounds and as a failure otherwise |
| Observation.UnreachableMeansUncertain | crates/navigator-core/src/first_operation.rs:774-910 | a Driver that cannot be reached means doubt; one that was reached and stayed silent, spoke out of turn or broke a bound means failure |
| Observation.WritesAtMostOnce | crates/navigator-core/src/first_operation.rs:763-914 | after a requested transition nothing follows but the acknowledgement of a committed terminal report |
| Observation.TerminalAckFollowsCommit | crates/navigator-core/src/first_operation.rs:894-911 | a terminal report is acknowledged only right after its transition was committed |
| Observation.SilenceWritesNothing | crates/navigator-core/src/first_operation.rs:774-910 | while cancelling, timeouts, failures, idling and disconnects within the budget write nothing |
| Observation.JudgementIsLegal | crates/navigator-core/src/first_operation.rs:986-1092 | a transition of the worker's own is legal exactly from non-terminal snapshots and carries a message exactly in Running, Waiting and Cancelling |
| Execution.DeliveryIsPrepared | crates/navigator-core/src/first_operation.rs:672-735 | before every delivery come campaign, capacity, the begun start, a reload neither cancelled nor in flight, readiness, and the permit before and after the input is read |
| Execution.DeliversAtMostOnce | crates/navigator-core/src/first_operation.rs:672-757 | the input is delivered at most once |
| Execution.DoubtComesFromDelivery | crates/navigator-core/src/first_operation.rs:672-745 | only a delivery whose acceptance is unknown or failed leaves doubt; refused capacity, readiness or input is a failure |
| Execution.RunningFollowsAcceptance | crates/navigator-core/src/first_operation.rs:736-757 | Running is asked for only right after an accepted delivery of the reloaded operation |
| Execution.DeliveryDecides | crates/navigator-core/src/first_operation.rs:723-757 | after a delivery: failure exactly when refused, doubt exactly when unknown or failed, Running exactly when accepted |
| Execution.NoFailureAfterDoubt | crates/navigator-core/src/first_operation.rs:723-757 | after a delivery that may have reached the Driver no failure is reported before the report loop |
| Worker.World.Transition | crates/navigator-store-sqlite/src/store.rs:6555-6641 | without a permit nothing reaches the store and nothing changes; a committed transition appends exactly its action to the durable history, as a legal step to the state that its outcome names, at the next revision |
| Worker.Judge | crates/navigator-core/src/first_operation.rs:986-1022 | fail and uncertain ask for exactly the judged transition, and for nothing when the text is out of bounds |
| Worker.AnswerQuestion | crates/navigator-core/src/first_operation.rs:827-851 | a question is acknowledged, and answered with the waiting operation, exactly when the reload shows it committed; otherwise it is judged invalid |
| Worker.FinishWith | crates/navigator-core/src/first_operation.rs:894-911 | a terminal report is reloaded, committed and then acknowledged, in that order; the answer is the committed operation |
| Worker.Observe | crates/navigator-core/src/first_operation.rs:763-914 | terminates after at most one reminder and 1025 reports; every effect is one the rules allow next, it stops only where they allow nothing more, and it answers with a snapshot exactly when its last request was carried out |
| Worker.OnReport | crates/navigator-core/src/first_operation.rs:815-911 | what one report leads to: the acknowledgement, the reminder, the reload or the judgement that the rules name |
| Worker.Execute | crates/navigator-core/src/first_operation.rs:672-757 | every effect before and in the report loop is one the rules allow next; it stops only where they allow nothing more; the loop runs exactly when the operation is in flight or was just reported running, on that snapshot |
| Worker.RunReloaded | crates/navigator-core/src/first_operation.rs:701-757 | from the reload on: readiness, then observation of an operation in flight or the delivery of its input, by the same rules |
| Worker.DeliverInput | crates/navigator-core/src/first_operation.rs:716-722 | the permit is checked, the input read and the permit checked again before the delivery |
| Worker.DeliverOnce | crates/navigator-core/src/first_operation.rs:719-757 | one delivery, and exactly what its answer calls for: failure, doubt, or Running and the report loop |
| Worker.OwnTransitionsAreLegal | crates/navigator-core/src/first_operation.rs:672-757 | every transition of the worker's own is legal unless the reload showed a terminal state other than Cancelled, and then it is illegal |
| Worker.ExecutionNeverInfersSuccess | crates/navigator-core/src/first_operation.rs:672-914 | a whole execution asks for success only on the Driver's own terminal report |
| Worker.ExecutionDeliversAtMostOnce | crates/navigator-core/src/first_operation.rs:672-914 | a whole execution delivers at most once, and never in its report loop |
| Worker.DoubtfulDeliveryIsNeverFailure | crates/navigator-core/src/first_operation.rs:723-757 | an execution whose delivery failed or is of unknown acceptance never asks for failure or success and never observes |
| Worker.JudgementIsAccepted | crates/navigator-store-sqlite/src/store.rs:8909-8958 | the store takes a worker's own transition of its current record exactly when the record is not terminal and, in flight, the input was accepted |

## Left out

- Delivery: the owner of a lease is folded into its epoch, and the driver and instance bindings of leases and the replay of repeated requests are not modelled; request and attempt identities are fresh for every call.
- ToolStream: field checks that precede a frame are one verdict, and byte-string identities are numbers.
- ArtifactStream: field checks of begin frames, headers and failures are verdicts; the whole-artifact digest is not modelled.
- Json: parsing and printing; numbers are integers or opaque floats, and text is a sequence of characters ordered like its bytes.
- Manifest: SHA-256 is a parameter; the library sort is an insertion sort on values, which is the only possible result once duplicates are refused.
- Admission: accesses are sequentially consistent; timestamps are integers, and the renewal timer and the release request after shutdown are not modelled.
- Registry: `cancel_subtree` and `cancel_session_until`, which release the lock before they abort, the table of recorded failures, and worker panics.
- WorkerRegistry.Service.RunResumed: a round counts as one execution, although it retries up to three times while the operation is still queued or cannot be reloaded.
- Worker: replay of a repeated transition request, the capacity limits of the store, and the message to the parent that accompanies a terminal outcome; timeouts are steps that may happen at any time.
- Recovery: `acquire_only` and `schedule_exact_operation`, which add one call each.
- Store limits, schema migration, the daemon, the driver clients, approval and authority rules, and the request validators field by field: they would add only single-branch facts.
- Python release and fault-matrix scripts and the conformance scenarios: finite drivers without a protocol of their own.
