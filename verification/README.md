# tailscale2otel: verified model of its stateful protocols

tailscale2otel accepts Tailscale telemetry, keeps it in a write-ahead log until it has been
delivered, judges flows against the tailnet policy, and publishes annotations. This project
models the parts of it where something can go wrong between two goroutines, two writes or two
lives of the process, and proves what they promise for all inputs and all runs.

`dafny verify dfyconfig.toml` checks everything.

## The parts

**Ingress write-ahead log** (`Ingress*.dfy`, `WalWindow.dfy`). `IngressProtocol` is a transition
system over the store on disk, the delivery receipts and the coordinator; one step is what one
goroutine does between two lock releases, and a run is any sequence of steps, crashes included.
`IngressInvariants` holds the inductive invariant and `IngressTheorems` the promises about all
runs. `IngressCoordinator.Coordinator` is the coordinator as the program runs it: fields updated
in place by methods that follow the source's control flow. Each update is certified as a step of
the protocol, and other goroutines may take any number of steps wherever a lock is free, so
`Valid()` says that the code, with everything that interleaved, is a run, and every theorem about
runs holds at every point where a crash could hit. Outcomes of system calls, exporters and route
callbacks are parameters (`Luck`, `Disk`, `Reply`) or arbitrary values, so the contracts say both
what an operation may do and, when nothing goes wrong, what it must do: an error has a cause.

**Policy evaluation and store** (`Acl*.dfy`, `LengthPrefix.dfy`). The three-valued evaluator is
judged against a two-valued meaning of rules over every way the unknown facts could be: sound and
monotone under its own reading of an address without a node, and in general exactly for
connections without such an endpoint. It is undecided only for want of a named fact, and with every
fact at hand its verdict is the truth. `AclMeaning` writes down what a policy document itself says,
from its grammar, and proves that the compiled rules say the same. The store is a class; its history
is tied to the version preimage, which is proved injective.

**Annotations** (`Dedupe.dfy`, `Rollup.dfy`, `RateLimit.dfy`). The persisted dedupe set is a class
proved against a state machine over the set, the file store's map and the file; it carries its run
along, through restarts and failed writes, and the theorems are about whole runs: a key that is
still being observed is not published again. Rollup buckets keep balanced books, and every summary
sent is tied to the claim it won in that run. The token bucket has exact bounds, above and below.

**Checkpoint migration** (`Migration.dfy`, `MigrationTheorems.dfy`), **log tail**
(`LogRing.dfy`) and **startup gate** (`StartupGate.dfy`).

## Where the code does less than its comments say

- Expiry can retire an acknowledged entry without reporting it to the loss account: when the
  completion marker takes effect and the call then breaks off. `ExpireStale` states exactly when
  (a fault other than none or one before the marker; at most one entry per call, and the call
  returns an error); `Conservation` places such an entry over whole runs, and
  `UnreportedExpiryWitness` is a run after which no continuation reports it.
- A receipt that is poisoned after it was found eligible and before its marker is written does not
  stop the retirement: the entry leaves the disk with a poisoned receipt. Otherwise the marker is
  written on a receipt whose delivery is over (`MarkedWholeUnlessPoisoned`,
  `PoisonedWhenMarkedWitness`).
- After a permanent failure an append already written can still be acknowledged, exactly when the
  coordinator has been closed in between (`AckAfterFailureOnlyWhenStopped`, `LateAckWitness`).
- The startup gate can close `open` after the drain failed for good, exactly when the coordinator
  has been closed before the gate looks (`AfterFatalOpensIffStopped`, `OpenedAfterFatalWitness`).
  The teardown has joined the receivers by then, so none starts (`GateIsSafe`).
- The token bucket admits one call more than capacity plus whole intervals in some spans; it keeps
  the tighter bound exactly when the first call comes at the moment of creation or not before a
  whole interval (`BoundIffFirstCall`).
- Rollup intervals below one second give two buckets one dedupe key, so one is dropped; a second
  is exactly the limit (`OneSecondIsTheLimit`).
- Checkpoint migration overwrites a stored cursor when a current key has the shape of an auxiliary
  one, for instance with a tailnet called `acl/revision`; present current keys are kept exactly
  when no current key has that shape (`CurrentKeptIff`, `AuxiliaryShapeWitness`).
- The evaluator can say more than the data supports: an endpoint known by its address alone is read
  as a machine outside the tailnet, although flow records may lack the node of a tailnet device. A
  `NoRule` verdict about such an endpoint can be wrong, and becomes `Permitted` when its tag is
  learned. Definite verdicts are right, and stable under learning, exactly for connections whose
  endpoints each have a user, a tag or no address (`SoundIffSettled`, `MonotoneIffSettled`,
  `LearningATagWitness`).
- A coordinator set to failed by a receiver still finishes the replay call under way, applications
  included (`AppliedAfterFailureWitness`); the freeze starts with the end of that call (`Run`).
- Selectors that nothing can satisfy (an empty group, an empty ipset) and prefix lists that cover
  every address may still answer "undetermined"; `UndecidedIsExact` says exactly which do.
- A replaced over-long log line respects the limit exactly when the limit is at least 18 bytes
  (`BoundedLineFits`).

## Model

| member | source | states |
|---|---|---|
| IngressTheorems.Conservation | internal/app/ingresswal.go:155-217 | over every interleaving with crashes, an acknowledged entry is in exactly one place: waiting on disk; retired after its own callback had finished and its metrics and its logs were both accepted; or expired; and an expired one was reported exactly once, is still owed its report by the call that retired it, or that call was cut off by a fault after the marker or a crash |
| IngressTheorems.MarkedWholeUnlessPoisoned | internal/app/ingresswal.go:543-559 | in every reachable world the marker of a delivered entry is written on a receipt whose callback has finished and whose metrics and logs were accepted, if and only if the receipt has not been poisoned since it became eligible |
| IngressTheorems.PoisonedWhenMarkedWitness | internal/telemetry/ingress_delivery.go:60-72 | a concrete run in which a receipt is poisoned between the look and the marker, and the entry is retired all the same |
| IngressTheorems.CutOffIsFinal | internal/app/ingresswal.go:730-758 | a cut-off retirement whose marker a crash cannot undo stays retired and unreported in every continuation |
| IngressTheorems.ReportIsFinal | internal/app/ingresswal.go:745-753 | a report is never repeated or taken back in any continuation |
| IngressTheorems.OneEntryPerRequest | internal/ingresswal/wal.go:488-569 | over every run one request waits at most once, what waits is what was written, and every callback ran for the provider of the request written |
| IngressTheorems.AppliedAtMostOnce | internal/app/ingresswal.go:472-541 | in one process life no generation's callback is entered twice and no generation is prepared twice |
| IngressTheorems.ProviderFifo | internal/app/ingresswal.go:458-541 | every provider sees applications in admission order; of two window entries of one provider, if the later has a receipt so has the earlier; and no window entry is behind a later one of its provider that was applied unless it has a receipt |
| IngressTheorems.WindowBounded | internal/app/ingresswal.go:424-456 | the window never exceeds min(64, MaxEntries) entries or MaxBytes bytes, and admission orders are unique |
| IngressTheorems.StrandedWaits | internal/app/ingresswal.go:489-492 | an entry whose route this process does not have waits for the rest of its life: it is never given a receipt, applied, committed or expired |
| IngressTheorems.StrandedUntilConfigured | internal/ingresswal/wal.go:398-485 | an acknowledged stranded entry survives a restart and is stranded again if and only if the next configuration lacks its route |
| IngressTheorems.TerminalFreezes | internal/app/ingresswal.go:328-373 | once terminal is set nothing is prepared, applied or admitted for the rest of the process life |
| IngressTheorems.DrainedMeansSettled | internal/app/ingresswal.go:393-400 | without a live receipt, every callback this process entered belongs to a delivered entry that is off the disk or to a poisoned receipt |
| IngressTheorems.DrainedStaysDrained | internal/app/ingresswal.go:682-703 | after terminal, a window without live receipts never grows one again |
| IngressTheorems.FailureRemembered | internal/app/ingresswal.go:226-232 | a failure is never forgotten within a process life |
| IngressTheorems.AckAfterFailureOnlyWhenStopped | internal/app/ingresswal.go:164-216 | after a failure an append can be acknowledged if and only if the coordinator is stopped, the write landed and the provider has not failed |
| IngressTheorems.AcksPrecedeFailure | internal/app/ingresswal.go:164-216 | in a run without Close every acknowledgement was given while the coordinator had never failed |
| IngressTheorems.LateAckWitness | internal/app/ingresswal.go:705-717 | a concrete run that acknowledges after a failure and a Close |
| IngressTheorems.AppliedAfterFailureWitness | internal/app/ingresswal.go:249-280 | a concrete run that enters a callback after the coordinator was set to failed from outside, in the pass under way |
| IngressTheorems.UnreportedExpiryWitness | internal/ingresswal/wal.go:579-653 | a concrete run after which an acknowledged entry is off the disk and unreported in every continuation |
| IngressInvariants.InvKept | internal/app/ingresswal.go:402-541 | every step of every party preserves the protocol invariant |
| IngressInvariants.InvAlways | internal/app/ingresswal.go:402-541 | the invariant holds after every run |
| IngressInterference.EnvStepKeeps | internal/telemetry/ingress_delivery.go:60-72 | what receivers, delivery, Close and cleanup do leaves the window, its orders, work and tokens alone and retires nothing that waits |
| IngressErrors.BoundedMeaning | internal/app/ingresswal.go:561-597 | exactly which joined errors are permanent, and that the reported class is non-empty, wraps nothing new and carries no raw storage error; it is the first of application, route, cancellation, deadline and pending delivery that is wrapped, or the generic class |
| WalWindow.SortBy | internal/app/ingresswal.go:458-467 | every key exactly once, in ascending rank |
| WalWindow.SelectWindow | internal/ingresswal/window.go:99-158 | the offer is in sequence order, within the entry and byte limits, never held, marked or undurable; and whatever could have been offered and was not did not fit after those chosen before it, or came when the list was full or the token slots were used up |
| IngressCoordinator.Coordinator.Append | internal/app/ingresswal.go:155-217 | an unknown route changes nothing; an unhealthy first look refuses without a write; with room and no fault the answer is yes if and only if the second look is healthy; success names a generation written with this very request, waiting before the call or written since, durable and acknowledged, with the state not failed and, unless closed, no failure ever |
| IngressCoordinator.Coordinator.RefuseAppend | internal/app/ingresswal.go:191-201 | a full store keeps the Full class and the full state; a cancellation passes through; anything else fails the coordinator |
| IngressCoordinator.Coordinator.Acknowledge | internal/app/ingresswal.go:202-216 | the second look after the write: yes if and only if neither the coordinator nor the provider has failed, and then landed and acknowledged and, unless closed, no failure ever |
| IngressCoordinator.Coordinator.StoreAppend | internal/ingresswal/wal.go:488-569 | success leaves a durable waiting entry that holds this request; refused without a change when closed; succeeds whenever the request waits already or there is room, and nothing goes wrong |
| IngressCoordinator.Coordinator.ReuseTwin | internal/ingresswal/wal.go:504-527 | an entry is reused if and only if one of the same request waits; a completed one is cleaned up first; otherwise none is on disk |
| IngressCoordinator.Coordinator.CreateEntry | internal/ingresswal/wal.go:528-568 | success writes the request under the next number; a full store refuses and changes nothing; with room and no fault it succeeds |
| IngressCoordinator.Coordinator.Reopen | internal/ingresswal/wal.go:262-329 | the next process, with its own routes and limits, over what a crashed one left continues its run, with every acknowledged waiting entry waiting and durable |
| IngressCoordinator.Coordinator.SetState | internal/app/ingresswal.go:226-232 | stopped is final and failed yields only to stopped |
| IngressCoordinator.Coordinator.CommitGeneration | internal/ingresswal/wal.go:579-653 | from the moment the marker takes effect the entry counts as retired, whichever later step fails; success if and only if no fault |
| IngressCoordinator.Coordinator.Cleanup | internal/ingresswal/wal.go:655-692 | success removes entry and marker and nothing else |
| IngressCoordinator.Coordinator.CommitPrepared | internal/ingresswal/window.go:162-220 | retired if and only if no error, and then the token is retired; retired whenever the store is open, the token registered and nothing goes wrong; the window keeps its members |
| IngressCoordinator.Coordinator.PrepareWindow | internal/ingresswal/window.go:42-158 | recovery first, then a registered offer in order within the limits, none of it in the window, that leaves out only what did not fit or came too late; an error only if the store is closed, the caller holds an unregistered token or a call goes wrong |
| IngressCoordinator.Coordinator.ReleaseProgress | internal/app/ingresswal.go:411-422 | only this entry may leave the window, and does if and only if there is no error; one whose delivery was over and whose token is retired stays only if poisoned |
| IngressCoordinator.Coordinator.ObserveCommit | internal/app/ingresswal.go:402-409 | a commit callback removes at most its own eligible entry |
| IngressCoordinator.Coordinator.CommitEligible | internal/app/ingresswal.go:543-559 | nothing is prepared or applied; without an error no entry is left whose callback had finished and whose metrics and logs were accepted, unless poisoned; whatever goes wrong with one entry, every other is done with; and an error has a cause: a closed store, a call that went wrong, a lost token or a poisoned receipt |
| IngressCoordinator.Coordinator.LiveReceipts | internal/app/ingresswal.go:393-400 | true if and only if some receipt is neither absent nor poisoned, although delivery runs meanwhile |
| IngressCoordinator.Coordinator.OrderedWindow | internal/app/ingresswal.go:458-467 | the window's entries, each once, by admission order |
| IngressCoordinator.Coordinator.UsedBytes | internal/app/ingresswal.go:425-441 | the 64-bit sum is the window's bytes, never overflows and never exceeds the budget |
| IngressCoordinator.Coordinator.FillWindow | internal/app/ingresswal.go:424-456 | the offer made for the old window fits the shrunken one; new entries get ascending orders in sequence order; nothing that could be offered is left out unless it did not fit or the window or the tokens were used up; an error only if the store is closed, a token was lost or a call went wrong |
| IngressCoordinator.Coordinator.ApplyIngress | internal/telemetry/ingress_delivery.go:187-251 | the callback is entered at most once; a refusal before entry gives the receipt back, anything after keeps it; blocked only by a provider that pushed back, broken only by trouble or poison |
| IngressCoordinator.Coordinator.SealCallback | internal/telemetry/ingress_delivery.go:219-236 | a finished callback keeps the metrics as they were, counts quiet logs as accepted, and is delivered at once if and only if both are accepted |
| IngressCoordinator.Coordinator.ApplyWindow | internal/app/ingresswal.go:472-541 | without an error every window entry has a receipt or its provider pushed back; an unknown route or a poisoned receipt makes the pass fail, and with a live context nothing else does but trouble with an application; the logs only grow and the window keeps its members and orders |
| IngressCoordinator.Coordinator.ReplayPass | internal/app/ingresswal.go:328-373 | logs only grow; terminal freezes; success means no live receipt when terminal and an empty log otherwise; a pending delivery is reported if and only if nothing failed and work is left, and then the window was filled and served; any other error has a cause among the store, the calls, the entries or the commits; whatever filling and applying came to, the receipts then ripe are committed; a permanent error leaves the state failed or stopped |
| IngressCoordinator.Coordinator.Replay | internal/app/ingresswal.go:249-280 | a failed coordinator only commits; success means everything accepted before the call has left the log; an error means that it began failed, that the context ended after all its waits, or that its last pass met something adverse |
| IngressCoordinator.Coordinator.ReplayStartup | internal/app/ingresswal.go:295-326 | success means everything accepted before the drain has left the log; any error but a cancellation means failed; an error is that of the last call, explained as for Replay, or the context ended after all retries |
| IngressCoordinator.Coordinator.Run | internal/app/ingresswal.go:599-638 | from the end of the first replay that left the coordinator failed, whoever failed it, nothing is prepared or applied and the state stays failed, unless closed |
| IngressCoordinator.Coordinator.Drain | internal/app/ingresswal.go:682-703 | nothing is prepared or applied; nil only when every callback entered by this process belongs to a delivered entry that is off the disk or to a poisoned receipt; an error means that the context ended after all its waits or that the last pass met something adverse |
| IngressCoordinator.Coordinator.Close | internal/app/ingresswal.go:705-717 | store closed before the state is stopped |
| IngressCoordinator.Coordinator.ExpireBefore | internal/ingresswal/expire.go:32-109 | the returned entries are due, ascending and durably gone; at most one more was retired, by a fault after its marker; without an error every candidate is returned or spared; and an error means a closed store, an ended context, an unreadable candidate or a fault in completing a due one |
| IngressCoordinator.Coordinator.ExpireStale | internal/app/ingresswal.go:730-758 | every entry this call retired is reported exactly once, or was cut off by a fault after its marker (at most one, and then the call returns an error); nothing is left owed; counts and bytes are those of the reported entries; an error has one of the named causes |
| IngressCoordinator.ExpiryMeaning | internal/app/ingresswal.go:730-758 | the loss account after a walk, from what the walk guarantees |
| StartupGate.GateIsSafe | internal/app/ingresswal_app.go:81-169 | over all interleavings no channel is closed twice; open closes only on a completed drain or a spent budget with the state not failed; if the drain had broken for good by then the coordinator was closed and no receiver ever starts; pending is false once the gate ends |
| StartupGate.AfterFatalOpensIffStopped | internal/app/ingresswal_app.go:141-157 | a gate that reads the health after the drain broke for good opens if and only if the coordinator has been closed, and refuses if and only if it still reads as failed |
| StartupGate.DecisionIsTrue | internal/app/ingresswal_app.go:130-166 | what the decision rests on held in the state in which it was taken |
| StartupGate.InvKept | internal/app/ingresswal_app.go:103-166 | every statement of either goroutine preserves the gate invariant |
| StartupGate.GateMovesOn | internal/app/ingresswal_app.go:130-166 | once the budget has run out, the run was canceled or either outcome of the drain was announced, a gate that has not ended has a step to take, is at most four steps from its end, and every step brings it nearer |
| StartupGate.RefusedForAReason | internal/app/ingresswal_app.go:130-166 | over every interleaving, a gate that refuses or has ended without opening has seen the drain fail or the run canceled, or read the state as failed after the budget was spent |
| StartupGate.GateOpens | internal/app/ingresswal_app.go:130-166 | if nobody cancels, the drain returns no error and nobody sets the coordinator failed, a gate that has ended has opened |
| StartupGate.DrainTellsTheTruth | internal/app/ingresswal_app.go:103-128 | replayed is closed only by a drain that returned nil and failed only by one that returned an error, and the error is kept as fatal if and only if it was no cancellation |
| StartupGate.HeardAlways | internal/app/ingresswal_app.go:81-169 | over every run the timer, the cancellation and the two channels read as set if and only if they were |
| StartupGate.OpenedAfterFatalWitness | internal/app/app.go:1099-1166 | a concrete run of the whole teardown in which the gate opens after a fatal drain |
| AclPolicy.MatchSide | internal/aclpolicy/match.go:249-273 | strong-Kleene disjunction of the selectors, with a reason exactly when undecided: that of the first undecided selector that has one |
| AclPolicy.MatchPorts | internal/aclpolicy/match.go:338-363 | strong-Kleene disjunction of the port specifications; what that means is stated by PortUndecidedIff, UndecidedPortsAreExact and DecidedIsTruth |
| AclPolicy.EvaluateOneWay | internal/aclpolicy/match.go:395-439 | the first rule that definitely matches; else undetermined, with the reason of the first undecided rule, if there is one; else no rule |
| AclPolicy.Evaluate | internal/aclpolicy/match.go:372-392 | the direction as observed wins, then the return half; an undecided direction prevents "no rule", and the reason is that of the direction reported |
| AclTheorems.SelectorSound | internal/aclpolicy/match.go:94-245 | a definite answer of a selector is right in every truth the observation allows, reading an address without a node as no tailnet device |
| AclTheorems.Soundness | internal/aclpolicy/match.go:372-439 | under that reading, Permitted names a rule that holds in the reported direction in every truth and NoRule means none holds in either |
| AclTheorems.SoundIffSettled | internal/aclpolicy/match.go:94-245 | over every way things may be, all definite verdicts about a connection are right if and only if each of its endpoints has a user, a tag or no address |
| AclTheorems.AddressOnlyIsMisjudged | internal/flowlog/processor.go:890-902 | every connection with an address-only endpoint has a rule it is said not to match and a truth in which it does |
| AclTheorems.UndecidedIsExact | internal/aclpolicy/match.go:94-245 | an undecided selector is satisfied in some allowed truth if and only if it is not vacuous, and fails in some if and only if its prefixes do not cover every address |
| AclTheorems.SelectorUndecidedIff | internal/aclpolicy/match.go:94-245 | a selector is undecided if and only if the fact it asks about is missing, kind by kind |
| AclTheorems.PortUndecidedIff | internal/aclpolicy/match.go:338-363 | a port specification is undecided if and only if it speaks of the protocol, asks for particular ports and the record has none |
| AclTheorems.UndecidedPortsAreExact | internal/aclpolicy/match.go:338-363 | an undecided port list holds for no missing port, and holds for some port if and only if one of the ranges asked for is not empty |
| AclTheorems.UndeterminedForMissingFact | internal/aclpolicy/match.go:372-439 | an undetermined verdict means that some rule lacks a named fact in one of the directions; a known port is never what is missing |
| AclTheorems.DecidedIsTruth | internal/aclpolicy/match.go:372-439 | when no rule lacks a fact, the verdict is Permitted if and only if a rule covers the connection in one of the directions, and NoRule otherwise |
| AclTheorems.FirstMatchWins | internal/aclpolicy/match.go:395-439 | the observed direction comes before the return half, and in each the lowest definite rule is named |
| AclTheorems.VacuousNeverHolds | internal/aclpolicy/match.go:129-244 | the vacuous selectors hold in no allowed truth |
| AclTheorems.EverywhereWitness | internal/aclpolicy/match.go:228-245 | 0.0.0.0/0 with ::/0 and no address to compare is undecided, covering and not vacuous |
| AclTheorems.Monotone | internal/aclpolicy/match.go:372-439 | under the same reading, learning more never changes a definite verdict |
| AclTheorems.MonotoneIffSettled | internal/aclpolicy/match.go:372-439 | over every way of learning more, no definite verdict about a connection changes if and only if each of its endpoints has a user, a tag or no address |
| AclTheorems.LearningATagWitness | internal/aclpolicy/match.go:104-119 | a concrete connection whose NoRule becomes Permitted when the record names the source's tag |
| AclTheorems.DirectionSymmetric | internal/aclpolicy/aclpolicy.go:105-113 | both directions get one verdict; undetermined if and only if there is a reason; the rule is -1 if and only if not permitted |
| AclTheorems.NeverFailsOpen | internal/aclpolicy/match.go:338-439 | rules without sources, destinations or ports permit nothing |
| AclCompile.CompileRules | internal/aclpolicy/aclpolicy.go:196-253 | grants in order, then accepted legacy entries in order, with destinations and ports as independent lists; what the rules mean is stated by GrantMeaning, EntryMeaning and DocumentMeaning |
| AclMeaning.SelectorMeaning | internal/aclpolicy/match.go:22-88 | a compiled selector holds if and only if the selector string describes the endpoint: everything, a tag, a declared group or ipset, each autogroup (an owner is an admin), a login, a host alias or an address; it is opaque if and only if it is one of the forms flow data cannot decide |
| AclMeaning.GrantMeaning | internal/aclpolicy/aclpolicy.go:214-228 | the i-th rule carries the i-th grant's text and holds if and only if its sources describe the one end, its destinations the other, and one of its ports fits |
| AclMeaning.EntryMeaning | internal/aclpolicy/aclpolicy.go:229-250 | after them, each accepted legacy entry holds if and only if its sources, some destination and some port of a destination do |
| AclMeaning.AcceptedAre | internal/aclpolicy/aclpolicy.go:229-234 | the legacy entries compiled are exactly those with the accept action, each once and in order |
| AclMeaning.DocumentMeaning | internal/aclpolicy/aclpolicy.go:196-253 | some compiled rule covers a connection if and only if the document does |
| AclMeaning.VerdictMeaning | internal/aclpolicy/match.go:372-439 | in every truth the observation and the directory allow, Permitted means that the document covers the connection in the reported direction, and NoRule that it covers it in neither |
| AclCompile.SplitPlain | internal/aclpolicy/aclpolicy.go:265-277 | host and port joined by a colon come apart again; without a colon every port is meant |
| AclCompile.SplitBracketed | internal/aclpolicy/aclpolicy.go:265-277 | so do a bracketed host, whatever colons it holds, and its port |
| AclCompile.WriteVersion | internal/aclpolicy/version.go:33-46 | the bytes hashed are the length-prefixed kinds and sources in order |
| AclCompile.VersionPreimageInjective | internal/aclpolicy/version.go:33-46 | equal preimages mean equal ordered kinds and sources |
| AclCompile.DirectoryKeepsVersion | internal/aclpolicy/version.go:33-46 | role changes never move the version |
| AclStore.Store.RetainLocked | internal/aclpolicy/store.go:116-137 | a held version is left alone, no entry that stays is rewritten, at most 16 are kept, newest last |
| AclStore.Store.Evict | internal/aclpolicy/store.go:132-135 | exactly the oldest beyond the bound go, with their entries |
| AclStore.Store.RecompileLocked | internal/aclpolicy/store.go:95-108 | fails exactly when the document does not parse, and then changes only the failure |
| AclStore.Store.SetDocument | internal/aclpolicy/store.go:58-72 | the policy is the compile of the last accepted document and directory; a rejected document changes nothing but the failure; an identical one nothing at all |
| AclStore.Store.SetDirectory | internal/aclpolicy/store.go:76-90 | never refused; consumes no history slot and keeps the version |
| AclStore.Store.Snapshot | internal/aclpolicy/store.go:146-153 | answers exactly the retained versions, always the current one, with rules that hash to the version |
| AclStore.Attribution | internal/aclpolicy/store.go:116-153 | barring a hash collision, two rule lists of one version agree in kind and source at every index |
| AclStore.Edits | internal/aclpolicy/store.go:58-137 | over any run of edits the policy current before is answered, while retained, with the same rules; the newest version outlives any fifteen edits |
| AclStore.ExercisedRules | internal/app/admin_flows.go:444-462 | a row is named if and only if its version is retained and has that index, and then with the rule its version had there, barring a hash collision |
| AclStore.GrowingDirectoryKeepsVerdicts | internal/aclpolicy/match.go:153-173 | a directory that only gained entries never changes a definite verdict |
| Dedupe.CoherentAlways | internal/annotations/dedupe.go:49-120 | in every run the file store, the batch in flight and the dirty entries together are the in-memory set |
| Dedupe.RestartAfterLanding | internal/annotations/dedupe.go:49-64 | after a landed write a restart remembers exactly what was seen |
| Dedupe.WinsAreSeparated | internal/annotations/dedupe.go:73-120 | a winning claim of a key and any earlier claim of it, won or refused, are separated by the eviction of an entry no older than that claim and past retention, or by a restart that could not know of it |
| Dedupe.PersistedWinsAreSeparatedByEviction | internal/annotations/dedupe.go:73-120 | if every restart in between found that claim written, it was an eviction |
| Dedupe.DroppedOnlyWhenOld | internal/annotations/dedupe.go:76-85 | over every run, when the set drops a key without a restart, every claim of it that nothing excused since, won or refused, lies before the cutoff, and its entry has the time of a claim or of the file |
| Dedupe.SeenWasClaimed | internal/annotations/dedupe.go:73-91 | a claim is refused only for a key claimed before or in the file from the start, and the time on record came from there |
| Dedupe.UnwrittenClaimIsRepublished | internal/annotations/dedupe.go:98-120 | a concrete run in which an unwritten claim is won again after a restart |
| Dedupe.DedupeStore.Claim | internal/annotations/dedupe.go:73-91 | won if and only if the rule-scoped key was not seen; the entry moves to the later of its time and this one, and no other entry changes |
| Dedupe.DedupeStore.TakeBatch | internal/annotations/dedupe.go:102-114 | whatever the iteration order, exactly the entries before the cutoff leave, and the others keep their times |
| Dedupe.DedupeStore.WriteBatch | internal/collector/checkpoint.go:243-257 | the file store's map first, then the file if the write lands |
| Dedupe.DedupeStore.Persist | internal/annotations/dedupe.go:98-120 | a whole persist, with claims between taking and writing, extends the run by exactly those steps; without a store it does nothing |
| Dedupe.DedupeStore.Reopen | internal/annotations/dedupe.go:49-64 | the next process, over the file a run left, continues that run |
| Dedupe.DedupeKeyForInjective | internal/annotations/dedupe.go:44-44 | rule and key are both recoverable |
| Dedupe.WriteIdentity | internal/annotations/annotations.go:192-202 | the bytes hashed are the domain and the length-prefixed parts |
| Dedupe.IdentityPreimageInjective | internal/annotations/annotations.go:192-202 | equal preimages mean equal tailnet, rule and identity parts |
| Rollup.Truncate | internal/annotations/recorder.go:188-188 | the start is a multiple of the interval and the time lies in [start, start + interval) |
| Rollup.CountedKeeps | internal/annotations/recorder.go:183-202 | counting keeps the books: per tailnet, category, interval around the time and title (or rule, without a title), accepted = open + in flight + published + suppressed, and each count is the sum of its titles |
| Rollup.SettleKeeps | internal/annotations/recorder.go:231-250 | publishing or suppressing keeps the books |
| Rollup.AllTakenKeeps | internal/annotations/recorder.go:217-229 | taking the due buckets keeps the books |
| Rollup.Recorder.FlushAll | internal/annotations/recorder.go:208-251 | after the flush at shutdown nothing is open; per interval and title accepted is published plus suppressed; and every accepted occurrence lies in a published region of its tailnet and category that names its title, or in a suppressed bucket |
| Rollup.Recorder.Observe | internal/annotations/recorder.go:154-178 | claims the identity at its own time and goes on if and only if it was not seen; an identity seen before changes nothing; a new one is published at once if it is of the lifecycle, of a category not rolled up, or rollups are off, and otherwise accepted and counted |
| Rollup.Recorder.Tick | internal/annotations/publisher.go:280-286 | a flush and then a persist keep the books and the trail of claims; after it only a late occurrence has an open closed interval; the run grows by the flush's claims and exactly one persist |
| Rollup.Recorder.Emit | internal/annotations/recorder.go:183-202 | published at once for the lifecycle, a category that is not rolled up or without an interval; otherwise accepted and counted in its bucket |
| Rollup.Recorder.TakeReady | internal/annotations/recorder.go:212-229 | exactly the closed buckets leave, each once and as it was |
| Rollup.Recorder.PublishNext | internal/annotations/recorder.go:231-250 | published as its region if its claim is won, otherwise suppressed |
| Rollup.Recorder.Flush | internal/annotations/recorder.go:206-251 | a whole flush keeps the books, leaves nothing in flight, only adds to what was sent, and leaves exactly the unclosed buckets; with emissions meanwhile only a late occurrence reopens a closed one |
| Rollup.StoredKeyInjective | internal/annotations/recorder.go:235-237 | with an interval of at least a second, two buckets share a dedupe key only if they are the same |
| Rollup.RollupIsNoOccurrence | internal/annotations/recorder.go:253-257 | a rollup's dedupe key is never that of an occurrence, collision or not, unless a rule is named like the rollup |
| Rollup.OccurrenceKeyInjective | internal/annotations/recorder.go:161-162 | barring a collision of the two, occurrences with one dedupe key agree in tailnet, rule and identity |
| Rollup.OneSecondIsTheLimit | internal/annotations/recorder.go:236-236 | intervals of one tailnet and category that share a key without a hash collision are the same if and only if the width is at least a second |
| Rollup.PublishedOnce | internal/annotations/recorder.go:231-250 | over everything published in this life and those before, between two publications of one interval its entry passed out of retention and was evicted, or a process started that could not know of the first |
| Rollup.SummaryOnce | internal/annotations/recorder.go:237-249 | the same of any two summaries of one interval that reached the sink, with the two winning claims |
| Rollup.SuppressedByItself | internal/annotations/recorder.go:231-240 | a suppressed bucket's key was claimed earlier in the run or was in the first file; and no other bucket has that key, barring a hash collision between the two |
| RateLimit.RateLimiter.constructor | internal/annotations/client.go:296-310 | full at birth; the interval is the minute divided by the rate, positive if and only if the rate is at most one per nanosecond |
| RateLimit.RateLimiter.Allow | internal/annotations/client.go:313-325 | tokens stay between 0 and capacity; refills whole intervals only |
| RateLimit.AnySpan | internal/annotations/client.go:313-325 | any span lets through at most capacity + whole intervals + 1 |
| RateLimit.SpanAfterFirstCall | internal/annotations/client.go:313-325 | a span that begins after the first call lets through at most capacity + whole intervals |
| RateLimit.BoundIffFirstCall | internal/annotations/client.go:296-325 | that bound holds for every span of every run if and only if the first call is at birth or at least an interval later |
| RateLimit.IdleBucketServes | internal/annotations/client.go:313-325 | after q whole intervals without a call, a burst is granted exactly the tokens left plus q, up to the capacity |
| RateLimit.SpacedCallsPass | internal/annotations/client.go:313-325 | calls at least an interval apart are all granted, whatever was spent before |
| Migration.BuildWants | internal/app/checkpoint_migrate.go:26-48 | the wants are the window collectors of all runtimes in order, namespaced exactly when there are several; basenames are collector names |
| MigrationTheorems.WantedExactly | internal/app/checkpoint_migrate.go:26-48 | the wants are the window collectors of every runtime, each once and in order, under their tailnet's name if and only if there are several and it has one |
| Migration.Migrator.Find | internal/app/checkpoint_migrate.go:68-82 | the number of legacy candidates, and the candidate if it is one, whatever the iteration order |
| Migration.Migrator.Migrate | internal/app/checkpoint_migrate.go:49-117 | the states passed through are the turns, with any rewrite of the file failing after the map has changed; the strays are the stored keys that are not current |
| MigrationTheorems.OrderIrrelevant | internal/app/checkpoint_migrate.go:61-107 | two runs over one store agree in every state |
| MigrationTheorems.WholeRunClosed | internal/app/checkpoint_migrate.go:61-107 | a basename with exactly one legacy key moves its value to the first collector that lacks one, and every other basename moves nothing |
| MigrationTheorems.CleanRunOnDisk | internal/collector/checkpoint.go:212-241 | without faults the file holds what the map holds after every turn |
| MigrationTheorems.SecondRunIsIdle | internal/app/checkpoint_migrate.go:26-117 | a second run, over the file the first one left, changes neither map nor file |
| MigrationTheorems.PresentKeyKept | internal/app/checkpoint_migrate.go:61-107 | a stored key that is current or auxiliary, but not both, keeps its value |
| MigrationTheorems.CurrentKeptIff | internal/app/checkpoint_migrate.go:53-65 | present current keys are kept over every store if and only if none has an auxiliary shape |
| MigrationTheorems.AuxiliaryShapeWitness | internal/app/checkpoint_migrate.go:122-127 | two tailnets, one called acl/revision, whose stored flow-log cursor is overwritten |
| MigrationTheorems.NoCursorLost | internal/app/checkpoint_migrate.go:91-104 | whichever rewrites fail, after every turn every value is in the map and in the file, in place or under a current key of its basename |
| MigrationTheorems.RemovedOnlyAfterCopy | internal/app/checkpoint_migrate.go:91-104 | over every run a key disappears only in a turn that copied its value to the current key of its basename and was told so: a failed write leaves the old key in place |
| Migration.BasenameOf | internal/app/checkpoint_migrate.go:132-137 | the basename of a key is its collector's name |
| Migration.AuxiliaryExactly | internal/app/checkpoint_migrate.go:122-127 | a key is set apart if and only if it is a policy revision or the last audited change, of any tailnet |
| LogRing.Ring.Write | internal/app/admin_logtail.go:27-51 | after any writes the ring holds the newest records of the whole byte stream and the unfinished line waits |
| LogRing.Ring.Push | internal/app/admin_logtail.go:44-48 | overwriting in place is appending and keeping the newest |
| LogRing.Ring.Snapshot | internal/app/admin_logtail.go:64-76 | the last min(capacity, n) records in order |
| LogRing.WriteAll | internal/app/admin_logtail.go:27-76 | the tail depends on the bytes only, not on how writes split them |
| LogRing.LinesCutTheStream | internal/app/admin_logtail.go:31-37 | lines and rest, put back together, are the stream |
| LogRing.CutIsUnique | internal/app/admin_logtail.go:31-37 | there is no other such cut |
| LogRing.LinesExtend | internal/app/admin_logtail.go:30-37 | more bytes extend the unfinished line; finished lines stay |
| LogRing.BoundedLineFits | internal/app/admin_logtail.go:53-62 | the replacement keeps the limit if and only if the limit is at least 18 |
| LogRing.RecordStandsFor | internal/app/admin_logtail.go:38-62 | a line within the limit stands for itself; one over it becomes a note whose number reads back as its length, or the bare note if that would not fit |
| LogRing.EveryLineIsFiled | internal/app/admin_logtail.go:31-48 | every line that is not empty has its record, in order, and there are no others |

## Left out

- Retry delays and wake-up channels of the coordinator: waits are counted, not timed; the length of a plan is how many waits the context survives.
- Generation numbers are never reused in the model; the store qualifies a number by the open store instead. Admission orders and the expired byte total are unbounded; the source's are 64-bit.
- Hashing of a request into its identity (the request itself is the identity), marker files' own sequence numbers, orphan and staging sweeps, and file ownership checks: a completion attempt breaks off at one of the named points instead.
- Log and metric export behind a receipt: a receipt advances by its phase and two acknowledgements.
- IngressCoordinator.Coordinator.Append: the health read and the provider check after the write are one look; the source reads them one after the other.
- IngressCoordinator.Coordinator.ExpireStale: does not run while a replay pass is under way, as its caller guarantees.
- newIngressWALCoordinator: route validation at start-up would only add an easy member.
- Parsing of HuJSON, addresses, prefixes and port numbers: documents arrive parsed, a prefix is a predicate on addresses, an address is one of the IPv4 and IPv6 addresses without zone, and strings stand for byte strings.
- SHA-256: an abstract function; results that need it say that it does not collide on the two inputs.
- Pairing of a legacy destination with its own ports: the compiled rule keeps two lists.
- Clearing of the recorded compile failure by re-submitting the last good document: the code does not do it, and SetDocument says so.
- Debounced checkpoint writes and the Kubernetes store: the dedupe set uses the plain file store.
- Matching of curated rules, redaction, titles and the text of a summary: an occurrence arrives with its rule and title.
- HTTP writing, backoff and Retry-After: they would only add easy members.
- RateLimit.RateLimiter.Allow: does not model Go's saturation of time differences beyond 292 years.
- MigrationTheorems.SecondRunIsIdle: assumes that writes succeed, because after a failed one a legacy cursor may still be in the file and seed another collector at the next start.
- HTTP handlers, TLS, admin pages, exporters, reporters, GeoIP, Kubernetes plumbing and the command line.
