# Ontos control-plane models, verified in Dafny

This project models the executable state models and algorithms under `tools/` of the Ontos repository and
proves what they are for, over every input, every run or every interleaving. `dafny verify dfyconfig.toml`
checks all of it.

| part | modules | source |
|---|---|---|
| strings, order, encodings, JSON | `Texts`, `TextMeaning`, `Encodings`, `EncodingMeaning`, `Json` | encoders of several tools |
| leases, retries, database time | `DurableWork`, `DurableMeaning` | `tools/job-outbox/shared.ts` |
| Outbox | `Outbox`, `OutboxInvariants`, `OutboxSteps`, `OutboxCommit`, `OutboxRuns`, `OutboxTime`, `OutboxMeaning`, `OutboxBatchMeaning`, `OutboxHistory`, `OutboxModel` | `tools/job-outbox/outbox.ts` |
| Jobs | `Jobs`, `JobsInvariants`, `JobsRuns`, `JobsTime`, `JobsMeaning`, `JobsHistory`, `JobsModel` | `tools/job-outbox/job.ts` |
| contract schemas | `Schema`, `SchemaMeaning`, `SchemaAnswers`, `SchemaTotal`, `SchemaValidator`, `DiffMeaning`, `Compatibility`, `CompatibilityChecks`, `CompatibilityExample`, `CompatibilityLaws`, `CompatibilityNeeds`, `SchemaDiff` | `tools/contracts/schema.ts`, `tools/contracts/compatibility.ts` |
| policy epochs | `PolicyRequests`, `PolicyEpoch`, `PolicyInvariants`, `PolicyRuns`, `PolicyRevocation`, `PolicyMeaning`, `PolicyModel` | `tools/policy-epoch` |
| dependency cycles | `Cycles`, `CycleCheck` | `tools/architecture/check-workspace.ts` |
| lock order | `Locks`, `LockMeaning`, `Deadlock` | `tools/metadata-control-plane/model.ts`, `tools/materialization-control-plane/control.ts` |
| publish transaction | `ControlPlane`, `ControlPlaneMeaning`, `ControlPlaneProjects`, `ControlPlaneModel` | `tools/metadata-control-plane/model.ts` |
| handler host pool | `Pool`, `PoolRuns`, `PoolMeaning`, `PoolWaiting`, `PoolModel` | `tools/handler-host/pool.ts` |
| SQL scanner | `Scanner`, `ScannerLaws`, `ScannerTokens`, `ScannerMeaning` | `tools/database/definitions.ts` |
| reference closure | `References` | `tools/contracts/runtime-read-generation.ts` |

How it is built. Each state machine is given twice: as transition functions on one immutable state, about
which the run theorems are proved, and, where the program updates fields in place, as a class whose methods
are proved to do what the functions say (`OutboxModel`, `JobsModel`, `PolicyModel`, `PoolModel`,
`CycleCheck.Search`). What each operation comes to is then said once more in a `…Meaning` module, on the
fields, keywords or tokens a caller sees and apart from the transitions: with which code a call is refused,
what an accepted one changes, and that it changes nothing else. An operation that throws half way keeps the changes made before the throw, as the
program does. A run is a list of calls and the states between them; every call may carry any arguments,
including malformed ones and times that go backwards. Clock readings, database time, child processes, the
compiled-policy reader, regular expressions, number printing and SHA-256 are parameters.

Where a promise turned out not to hold of the code as it is, the code is modelled as it is:

* **Rejected calls that leave a trace.** `#finishFailure` and `heartbeat` write before `addDatabaseDuration`
  can throw. `OutboxTime.RejectedChangesNothing` and `JobsTime.RejectedChangesNothing` say exactly when a
  rejected call changes the state, `TimeStep` exactly when it breaks the time invariant, and
  `OutboxTime.ClaimCanRegress` and `JobsTime.ClaimCanRegress` are runs in which a later claim fails with
  DATABASE_TIME_REGRESSION.
* **Revocation after the TTL.** A decision that has read the store when a commit happens and confirms
  afterwards is cached for a full TTL from its confirmation. `PolicyRevocation.RevocationBound` says that
  this is the only way to miss the bound; `InterruptedDecisionOutlivesTtl` is such a run, and
  `UninterruptedBound` is the promise for decisions that run without interruption.
* **Compatible verdicts that are not sound.** `CompatibilityLaws.OpenObjectBreaks`,
  `UndeclaredRequiredBreaks` and `OverlappingBranchesBreak` are three documents the diff accepts although
  the candidate refuses a value of the baseline. `Compatibility.CompatibleMeansSound` holds once they are
  excluded. Its condition on `oneOf` is about values; `CompatibilityChecks.CheckedMeansSound` asks only for
  what is read off the documents: branches that did not change, or that differ in type, in `const` or
  `enum`, in a required tag or in a name that one requires and another forbids. `CompatibilityNeeds.ObjectExact` and `ChoiceExact` say for one node, its parts being sound,
  exactly when it keeps every value, and `UnchangedIsAccepted` that no unchanged document is excluded.
* **Compatible changes that do not add up.** `CompatibilityLaws.TransitiveCanFail` is a chain of two
  compatible changes that the diff does not accept as one; `Transitive` says exactly when it does.
* **Names with a vertical bar.** Two different cycles can share a canonical key (`Cycles.BarNamesCollide`), so
  that only the first is reported; `CycleCheck.CheckBarGraph` is a graph on which a cycle goes unreported.
  Without such names every cycle of the graph shares an edge with a reported one.
* **Channels that share a key.** Project and channel are joined with a colon, so a publish in one project can
  supersede a release of another (`ControlPlaneProjects.PublishReachesOver`); `PublishStaysInProject` says
  exactly when it does not, and `ColonFreeStaysInProject` that project ids without a colon are safe.
* **A free worker beside a waiting request.** After a protocol failure the worker counts as available until
  its process exits, and nothing drains the queue. `PoolWaiting.RequestCanWait` is a run that ends so, and
  `PoolWaiting.StepServes` says of every event exactly when it leaves a request waiting beside a free worker.

## Model

| member | source | states |
|---|---|---|
| `Encodings.JsonStringsInjective` | tools/job-outbox/outbox.ts:820-822 | the JSON text of a list of strings determines the list, so stream keys, idempotency scopes and encoded events do not collide |
| `Encodings.StringsThenIntInjective` | tools/job-outbox/outbox.ts:824-835 | the JSON text of strings followed by an integer determines both |
| `OutboxCommit.PositionKeyInjective` | tools/job-outbox/outbox.ts:824-835 | two stream positions share a key exactly when they are the same position |
| `Encodings.EncodeTupleInjective` | tools/policy-epoch/model.ts:486-488 | length-prefixed tuples agree exactly when the lists agree, for all strings |
| `Encodings.QuoteSplit` | tools/contracts/schema.ts:273-282 | a JSON string literal is self-delimiting: equal texts starting with literals have equal strings and equal rests |
| `Json.StableIsEquality` | tools/contracts/schema.ts:273-286 | for every number printer that tells finite doubles apart, stable texts of two JSON values are equal exactly when the values are, with objects as key-to-value maps, so deepEqual and uniqueItems mean equality |
| `Json.DecimalPrints` | tools/contracts/schema.ts:273-286 | such a printer exists: integers in decimal, other doubles as an exact decimal fraction |
| `Json.DoubleIsDecimal` | tools/contracts/schema.ts:273-286 | every finite double is a decimal fraction |
| `Json.StableTextsDiffer` | tools/contracts/schema.ts:273-286 | with that printer, and for all values, stable texts are equal exactly when the values are |
| `Texts.SortSorts` | tools/job-outbox/outbox.ts:837-855 | the sort returns a sorted permutation |
| `Texts.SortedUnique` | tools/job-outbox/outbox.ts:837-855 | two sorted lists with the same elements are the same list |
| `Texts.LessTotal` | tools/job-outbox/outbox.ts:863-867 | string order is a strict total order |
| `DurableWork.BackoffBounds` | tools/job-outbox/shared.ts:133-139 | a backoff lies between the initial and the maximum backoff |
| `DurableWork.BackoffDoubles` | tools/job-outbox/shared.ts:133-139 | the first backoff is the initial one, each next one twice the last, capped, and constant after 53 attempts |
| `DurableWork.RetryAtIsLater` | tools/job-outbox/shared.ts:133-166 | a retry time is a safe time strictly after now, or an INVALID_ARGUMENT error |
| `OutboxSteps.HeartbeatKeeps` | tools/job-outbox/outbox.ts:327-347 | a heartbeat keeps the invariant and takes nothing back, also when it throws half way |
| `OutboxSteps.StartKeeps` | tools/job-outbox/outbox.ts:349-374 | so does the start of a delivery |
| `OutboxSteps.AcknowledgeKeeps` | tools/job-outbox/outbox.ts:376-427 | so does an acknowledgement |
| `OutboxSteps.FailKeeps` | tools/job-outbox/outbox.ts:429-444 | so does a failed delivery |
| `OutboxSteps.ReclaimKeeps` | tools/job-outbox/outbox.ts:446-492 | so does the lease reaper, over any list of events |
| `OutboxSteps.ReplayKeeps` | tools/job-outbox/outbox.ts:494-528 | so does a replay from the dead-letter state |
| `OutboxSteps.ClaimKeeps` | tools/job-outbox/outbox.ts:248-325 | so does a claim |
| `OutboxCommit.CommitKeeps` | tools/job-outbox/outbox.ts:146-246 | so does a business-transaction commit of any batch |
| `OutboxCommit.SignatureIsMultiset` | tools/job-outbox/outbox.ts:837-855 | event signatures are equal exactly when the batches are permutations of each other |
| `OutboxRuns.EveryStateOk` | tools/job-outbox/outbox.ts:581-647 | everything assertInvariants tests, and the attempt budget, delivery order and lease facts, holds after every call of every run |
| `OutboxRuns.NothingTakenBack` | tools/job-outbox/outbox.ts:146-528 | over every run: events, transactions and log stay, DELIVERED events and finished attempts never change, later attempts have larger tokens |
| `OutboxRuns.DeliveredInOrder` | tools/job-outbox/outbox.ts:262-270 | at every moment the acknowledged events of a stream are exactly a prefix of its committed events in (sequence, ordinal, id) order, each once |
| `OutboxRuns.LineExists` | tools/job-outbox/outbox.ts:811-818 | every stream has such an ordered line |
| `OutboxRuns.DeliveryNeverGoesBack` | tools/job-outbox/outbox.ts:349-427 | no delivery is started or acknowledged for an earlier event of the stream after a later one |
| `OutboxRuns.OneInFlight` | tools/job-outbox/outbox.ts:707-716 | no stream has two events in flight |
| `OutboxRuns.StaleWorkerRefused` | tools/job-outbox/shared.ts:178-203 | once an attempt is over, every call with its handle is rejected for the rest of the run and changes nothing |
| `OutboxRuns.OneValidHandle` | tools/job-outbox/shared.ts:178-203 | at most one handle of an event is accepted, whichever calls present them, and never while its lease is reclaimable |
| `OutboxRuns.FencingTokensIncrease` | tools/job-outbox/outbox.ts:274-311 | an attempt made later on the same event has a larger fencing token |
| `OutboxRuns.RepeatedCommit` | tools/job-outbox/outbox.ts:146-164 | a repeated transaction changes nothing; it returns the stored events exactly when digest and multiset of events agree, else it is a conflict |
| `OutboxTime.ReapedClean` | tools/job-outbox/outbox.ts:446-492 | after a successful reclaim at t no lease that expires by t is left; it fails exactly when a retry time overflows, never for a time regression |
| `OutboxTime.PickIsUnique` | tools/job-outbox/outbox.ts:262-272 | the claim has one answer, whatever order the events are stored in |
| `OutboxTime.RejectedChangesNothing` | tools/job-outbox/outbox.ts:327-347 | a rejected call leaves the state as it was if and only if no time overflows half way through it |
| `OutboxTime.TimeStep` | tools/job-outbox/outbox.ts:649-705 | a call keeps "last observed no later than available" for waiting events if and only if it leaves no overflowed retry behind |
| `OutboxTime.ClaimNeverRegresses` | tools/job-outbox/outbox.ts:262-272 | until such a call, no claim of a run fails with DATABASE_TIME_REGRESSION |
| `OutboxTime.SafeTimesDoNotLeak` | tools/job-outbox/shared.ts:150-166 | keeping now plus the longest backoff in the safe range is enough |
| `OutboxTime.ClaimCanRegress` | tools/job-outbox/outbox.ts:649-705 | without it, a concrete run whose claim fails with DATABASE_TIME_REGRESSION |
| `OutboxModel.First` | tools/job-outbox/outbox.ts:802-809 | the first event in claim order |
| `OutboxModel.SortByClaim` | tools/job-outbox/outbox.ts:802-809 | every event once, in claim order |
| `OutboxModel.OutboxStateModel.CheckBatch` | tools/job-outbox/outbox.ts:165-205 | the checking loop finds the first error of the batch against the state and the events before it |
| `OutboxModel.OutboxStateModel.CommitBusinessTransaction` | tools/job-outbox/outbox.ts:146-246 | new state and reply are those of the commit transition, and the invariant is kept |
| `OutboxModel.OutboxStateModel.FindCandidate` | tools/job-outbox/outbox.ts:262-271 | a claimable event that precedes all other claimable ones, or none exists |
| `OutboxModel.OutboxStateModel.ClaimNext` | tools/job-outbox/outbox.ts:248-325 | the claim transition on the best claimable event |
| `OutboxModel.OutboxStateModel.SendHeartbeat` | tools/job-outbox/outbox.ts:327-347 | the heartbeat transition, including the write before the throw |
| `OutboxModel.OutboxStateModel.BeginDelivery` | tools/job-outbox/outbox.ts:349-374 | the start transition |
| `OutboxModel.OutboxStateModel.AcknowledgeDelivery` | tools/job-outbox/outbox.ts:376-427 | the acknowledgement transition |
| `OutboxModel.OutboxStateModel.Finish` | tools/job-outbox/outbox.ts:649-705 | the failure transition, including the writes before the throw |
| `OutboxModel.OutboxStateModel.Fail` | tools/job-outbox/outbox.ts:429-444 | the failed-delivery transition, invariant kept |
| `OutboxModel.OutboxStateModel.ReclaimExpiredLeases` | tools/job-outbox/outbox.ts:446-492 | the reaper's loop over the sorted events is the reclaim transition |
| `OutboxModel.OutboxStateModel.ReplayDeadLetter` | tools/job-outbox/outbox.ts:494-528 | the replay transition |
| `JobsInvariants.EnqueueKeeps` | tools/job-outbox/job.ts:112-165 | an enqueue keeps the invariant of Jobs and takes nothing back |
| `JobsInvariants.ClaimKeeps` | tools/job-outbox/job.ts:167-229 | so does a claim |
| `JobsInvariants.HeartbeatKeeps` | tools/job-outbox/job.ts:231-246 | so does a heartbeat |
| `JobsInvariants.CheckpointKeeps` | tools/job-outbox/job.ts:248-305 | so does a checkpoint, and the job's line of checkpoints stays ordered |
| `JobsInvariants.SucceedKeeps` | tools/job-outbox/job.ts:307-326 | so does success |
| `JobsInvariants.FailKeeps` | tools/job-outbox/job.ts:328-345 | so does a failure |
| `JobsInvariants.ReclaimKeeps` | tools/job-outbox/job.ts:347-385 | so does the lease reaper |
| `JobsInvariants.ReplayKeeps` | tools/job-outbox/job.ts:387-413 | so does a replay |
| `JobsInvariants.CancelKeeps` | tools/job-outbox/job.ts:415-438 | so does a cancellation, with or without a lease |
| `JobsRuns.EveryStateOk` | tools/job-outbox/job.ts:453-492 | everything assertInvariants tests, and the attempt budget and lease facts, holds after every call of every run |
| `JobsRuns.NothingTakenBack` | tools/job-outbox/job.ts:112-438 | over every run jobs, attempts, checkpoints, idempotency index and log only grow, and finished attempts never change |
| `JobsRuns.FinalForGood` | tools/job-outbox/job.ts:307-326 | a SUCCEEDED or CANCELLED job never changes again |
| `JobsRuns.AttemptsWithinBudget` | tools/job-outbox/job.ts:453-471 | totalAttempts counts the attempts and is at most replayCycle times the maximum plus attemptsInCycle |
| `JobsRuns.OneActiveAttempt` | tools/job-outbox/job.ts:462-468 | an attempt is active exactly when its job is RUNNING under its lease |
| `JobsRuns.CheckpointsOnlyGrow` | tools/job-outbox/job.ts:248-305 | recorded checkpoints stay, sequences strictly increase, and no checkpoint follows one of a larger fencing token |
| `JobsRuns.RepeatedCheckpoint` | tools/job-outbox/job.ts:259-279 | for the rest of a run after a checkpoint was recorded, the same call by the lease holder changes nothing: it returns that checkpoint while it is the latest, and is a conflict after a later one |
| `JobsRuns.StaleWorkerRefused` | tools/job-outbox/job.ts:231-345 | once an attempt is finished, reclaimed or cancelled, every call with its handle is rejected and changes nothing |
| `JobsRuns.OneValidHandle` | tools/job-outbox/shared.ts:178-203 | at most one handle of a job is accepted, and never while its lease is reclaimable |
| `JobsRuns.FencingTokensIncrease` | tools/job-outbox/job.ts:182-214 | an attempt made later on the same job has a larger fencing token |
| `JobsRuns.ScopeInjective` | tools/job-outbox/job.ts:614-620 | idempotency scopes agree exactly when project, type and key do |
| `JobsRuns.RepeatedEnqueue` | tools/job-outbox/job.ts:112-125 | for the rest of the run the key belongs to the job: the same input returns it unchanged, another is a conflict |
| `JobsRuns.OneJobPerKey` | tools/job-outbox/job.ts:484-487 | no two jobs share project, type and idempotency key |
| `JobsTime.ReapedClean` | tools/job-outbox/job.ts:347-385 | after a successful reclaim at t no lease that expires by t is left; it fails exactly when a retry time overflows |
| `JobsTime.PickIsUnique` | tools/job-outbox/job.ts:172-179 | the claim has one answer: highest priority, then earliest, whatever the storage order |
| `JobsTime.RejectedChangesNothing` | tools/job-outbox/job.ts:494-529 | a rejected call leaves the state as it was if and only if no time overflows half way through it |
| `JobsTime.TimeStep` | tools/job-outbox/job.ts:494-529 | a call keeps the time invariant of waiting jobs if and only if it leaves no overflowed retry behind |
| `JobsTime.ClaimNeverRegresses` | tools/job-outbox/job.ts:167-180 | until such a call, no claim of a run fails with DATABASE_TIME_REGRESSION |
| `JobsTime.SafeTimesDoNotLeak` | tools/job-outbox/shared.ts:150-166 | keeping now plus the longest backoff in the safe range is enough |
| `JobsTime.ClaimCanRegress` | tools/job-outbox/job.ts:494-529 | without it, a concrete run whose claim fails with DATABASE_TIME_REGRESSION |
| `JobsModel.SortByClaim` | tools/job-outbox/job.ts:605-612 | every job once, in claim order |
| `JobsModel.JobStateModel.EnqueueJob` | tools/job-outbox/job.ts:112-165 | new state and reply are those of the enqueue transition, invariant kept |
| `JobsModel.JobStateModel.FindCandidate` | tools/job-outbox/job.ts:172-179 | a claimable job that precedes all other claimable ones, or none exists |
| `JobsModel.JobStateModel.ClaimNext` | tools/job-outbox/job.ts:167-229 | the claim transition on the best claimable job, with its latest checkpoint |
| `JobsModel.JobStateModel.SendHeartbeat` | tools/job-outbox/job.ts:231-246 | the heartbeat transition, including the write before the throw |
| `JobsModel.JobStateModel.RecordCheckpoint` | tools/job-outbox/job.ts:248-305 | the checkpoint transition |
| `JobsModel.JobStateModel.SucceedJob` | tools/job-outbox/job.ts:307-326 | the success transition |
| `JobsModel.JobStateModel.Finish` | tools/job-outbox/job.ts:494-529 | the failure transition, including the writes before the throw |
| `JobsModel.JobStateModel.FailJob` | tools/job-outbox/job.ts:328-345 | the failure transition for a lease holder, invariant kept |
| `JobsModel.JobStateModel.ReclaimExpiredLeases` | tools/job-outbox/job.ts:347-385 | the reaper's loop over the sorted jobs is the reclaim transition |
| `JobsModel.JobStateModel.ReplayDeadLetter` | tools/job-outbox/job.ts:387-413 | the replay transition |
| `JobsModel.JobStateModel.CancelJob` | tools/job-outbox/job.ts:415-438 | the cancel transition |
| `Schema.MoreFuel` | tools/contracts/schema.ts:86-139 | descending further into recursive references never changes a verdict that was reached |
| `Schema.NeverBoth` | tools/contracts/schema.ts:86-139 | no value is both valid and invalid under a schema |
| `SchemaTotal.AdmitsXorRefuses` | tools/contracts/schema.ts:86-233 | if references resolve, type names are known, patterns compile and every loop of references and choices passes through a property, an item or an unknown field, every value is admitted or refused, and not both |
| `SchemaTotal.EnoughDepth` | tools/contracts/schema.ts:86-233 | under such a document every value has a depth of recursion from which on the validator gives its verdict |
| `SchemaValidator.ValidateValue` | tools/contracts/schema.ts:86-139 | throws exactly where the verdict is broken, and else adds exactly the issues there are, each under its code and path, and some exactly where it rejects, never touching earlier issues |
| `SchemaValidator.ValidateChoice` | tools/contracts/schema.ts:99-111 | one ONE_OF issue unless exactly one branch matches |
| `SchemaValidator.ValidateString` | tools/contracts/schema.ts:155-174 | issues exactly for wrong length in code points, pattern or instant format |
| `SchemaValidator.ValidateNumber` | tools/contracts/schema.ts:141-153 | issues exactly for numbers outside minimum and maximum |
| `SchemaValidator.ValidateArray` | tools/contracts/schema.ts:176-200 | issues exactly for wrong size, repeated items or a rejected item |
| `SchemaValidator.ValidateObject` | tools/contracts/schema.ts:202-233 | issues exactly for missing required names, forbidden unknown fields or a rejected field |
| `Compatibility.Sound` | tools/contracts/compatibility.ts:72-128 | for related nodes, what the baseline node accepts at any depth of recursion the candidate node admits |
| `Compatibility.CompatibleMeansSound` | tools/contracts/compatibility.ts:15-70 | if the diff finds nothing breaking, new properties were only added to closed objects, required names are declared or were required before, and oneOf branches keep apart the values they told apart, every value the baseline definition admits the candidate admits |
| `CompatibilityChecks.CheckedMeansSound` | tools/contracts/compatibility.ts:15-70 | the same under conditions on the documents alone: the candidate is well formed, properties and required names as before, and the branches of every oneOf are unchanged or apart; what the candidate then does not admit it refuses |
| `CompatibilityChecks.CheckedExclude` | tools/contracts/schema.ts:99-111 | branches that are unchanged or apart keep apart the values they told apart |
| `CompatibilityChecks.LeafAdmits` | tools/contracts/schema.ts:86-111 | what a node admits, one of the plain nodes behind its references and choices admits |
| `CompatibilityChecks.TypesRefuse` | tools/contracts/schema.ts:112-139 | no value passes two nodes whose type names, single or listed, share no kind of value |
| `CompatibilityChecks.GuardsRefuse` | tools/contracts/schema.ts:112-139 | nor two nodes told apart in that way or by disjoint const or enum values |
| `CompatibilityChecks.TagRefuses` | tools/contracts/schema.ts:202-233 | no object is admitted by two nodes when a property that one requires has different tags in them, also behind references |
| `CompatibilityChecks.NameRefuses` | tools/contracts/schema.ts:202-233 | nor when one requires a name that the other forbids |
| `CompatibilityChecks.SameVerdict` | tools/contracts/schema.ts:86-233 | a node whose reachable definitions are the same in two documents judges every value the same, at every depth |
| `CompatibilityChecks.UnchangedRefuses` | tools/contracts/schema.ts:86-233 | so it still refuses what it refused |
| `CompatibilityExample.CheckedPair` | tools/contracts/compatibility.ts:15-70 | two documents that meet the conditions although a definition behind a oneOf changed |
| `CompatibilityNeeds.UnchangedIsAccepted` | tools/contracts/compatibility.ts:15-70 | a document the diff can read meets these conditions against itself |
| `CompatibilityNeeds.ObjectExact` | tools/contracts/compatibility.ts:130-193 | with sound parts, an object node without const and enum keeps every object if and only if the baseline admits none, or nothing is newly required and the new properties admit what unknown fields could hold |
| `CompatibilityNeeds.ChoiceExact` | tools/contracts/schema.ts:99-111 | with sound branches, a oneOf node keeps every value if and only if its branches keep apart what they told apart in the baseline |
| `CompatibilityNeeds.RequiredNeeded` | tools/contracts/schema.ts:202-218 | a newly required name costs every admitted object: without that name it is still admitted by the baseline and not by the candidate |
| `CompatibilityNeeds.ToleranceNeeded` | tools/contracts/schema.ts:219-233 | a new property that refuses what an unknown field could hold costs every admitted object in the same way |
| `CompatibilityNeeds.CarefulIsEnough` | tools/contracts/compatibility.ts:130-193 | the checkable conditions imply the exact ones |
| `CompatibilityLaws.OpenObjectBreaks` | tools/contracts/compatibility.ts:130-193 | two documents the diff accepts where a new property of an open object refuses an old value |
| `CompatibilityLaws.UndeclaredRequiredBreaks` | tools/contracts/compatibility.ts:130-193 | two documents the diff accepts where a required name that is no property refuses an old value |
| `CompatibilityLaws.OverlappingBranchesBreak` | tools/contracts/compatibility.ts:72-128 | two documents the diff accepts where a widened definition makes a value match two oneOf branches |
| `CompatibilityLaws.Reflexive` | tools/contracts/compatibility.ts:72-128 | a schema is compatible with itself if and only if the diff can read it |
| `CompatibilityLaws.Transitive` | tools/contracts/compatibility.ts:72-193 | two compatible changes in a row are one if and only if the required lists then compared can be read |
| `CompatibilityLaws.TransitiveCanFail` | tools/contracts/compatibility.ts:104-114 | three schemas, each compatible with the next, of which the first is not compatible with the last |
| `SchemaDiff.CompareSchema` | tools/contracts/compatibility.ts:72-128 | returns exactly the findings there are, each with severity, code and path, and without a breaking one exactly when the nodes are compatible |
| `SchemaDiff.CompareProperties` | tools/contracts/compatibility.ts:130-193 | the same for the properties of two nodes |
| `SchemaDiff.CompareNames` | tools/contracts/compatibility.ts:165-193 | breaking exactly for a new required property or an optional one made required |
| `SchemaDiff.CompareKeywords` | tools/contracts/compatibility.ts:72-115 | breaking exactly for a changed fixed keyword, a tightened bound or a changed unknown-field policy |
| `SchemaDiff.DiffContractSchemas` | tools/contracts/compatibility.ts:15-70 | the sorted report holds exactly the findings there are and says compatible exactly when none of them is breaking, which is when ids agree and every baseline definition is compatible with its candidate |
| `PolicyRequests.BindingKeyInjective` | tools/policy-epoch/model.ts:494-499 | two bindings share a key exactly when they are equal |
| `PolicyRequests.KeyIsQuestion` | tools/policy-epoch/process.ts:414-426 | two requests share a cache slot exactly when they ask the same, whatever the order of groups and the correlation id |
| `PolicyRequests.SameQuestionSameAnswer` | tools/policy-epoch/process.ts:231-232 | requests that ask the same are answered the same under the same bindings |
| `PolicyInvariants.ChangeIsCounted` | tools/policy-epoch/model.ts:213-264 | a transaction raises the epoch by one exactly when it changes the bindings, and otherwise changes nothing |
| `PolicyInvariants.DraftIsEdited` | tools/policy-epoch/model.ts:142-178 | edits on encoded keys are the edits on bindings |
| `PolicyInvariants.SnapshotAgrees` | tools/policy-epoch/model.ts:266-297 | a snapshot grants exactly when the actor or a group is bound and every delegate is, under the bindings of its epoch |
| `PolicyInvariants.LookGood` | tools/policy-epoch/process.ts:135-165 | a cached answer equals the uncached one at its epoch, which is the floor; invariant kept |
| `PolicyInvariants.ReceiveGood` | tools/policy-epoch/process.ts:167-188 | reading the store keeps the invariant |
| `PolicyInvariants.ConfirmGood` | tools/policy-epoch/process.ts:190-253 | a fresh answer equals the uncached one at its epoch, which becomes the floor; invariant kept |
| `PolicyInvariants.ObserveGood` | tools/policy-epoch/process.ts:255-271 | a notification raises the floor to its epoch at least and keeps the invariant |
| `PolicyRuns.StepKeeps` | tools/policy-epoch/process.ts:135-271 | every step of store and processes keeps the invariant, histories, floors and clocks only grow, and its answer agrees |
| `PolicyRuns.AnswersAgree` | tools/policy-epoch/process.ts:150-253 | in every run a cached or fresh answer at epoch e is the uncached evaluation of the bindings held at e, and e is the floor |
| `PolicyRuns.AnswersTheQuestion` | tools/policy-epoch/process.ts:135-253 | in every run a cached answer is to the request looked up, and a fresh one to a request whose look-up took its ticket, up to the order of groups |
| `PolicyRuns.AnsweredEpochsAscend` | tools/policy-epoch/process.ts:348-351 | the epochs a process answers from never decrease per project |
| `PolicyRuns.NotifiedNeverOlder` | tools/policy-epoch/process.ts:255-271 | after a notification no later answer comes from an older epoch |
| `PolicyRuns.UnsafeAlwaysDenies` | tools/policy-epoch/process.ts:311-346 | once the clock is unsafe no later decision answers: all fail closed |
| `PolicyRuns.NothingTakenBack` | tools/policy-epoch/model.ts:213-264 | over every run recorded bindings stay, floors and clocks never fall, unsafe stays unsafe |
| `PolicyRevocation.RevocationBound` | tools/policy-epoch/process.ts:143-165 | after a commit an uninformed process can answer from an older epoch at a lookup at c plus TTL or later if and only if a decision that had read the old epoch is still open and can confirm after c |
| `PolicyRevocation.UninterruptedBound` | tools/policy-epoch/process.ts:116-123 | with no decision under way at the commit the TTL, at most 5000 ms, bounds every stale answer |
| `PolicyRevocation.InterruptedDecisionOutlivesTtl` | tools/policy-epoch/process.ts:209-245 | a concrete run that misses the bound |
| `PolicyModel.SetEquals` | tools/policy-epoch/model.ts:549-553 | equal sizes and one inclusion decide set equality |
| `PolicyModel.AuthorizationDraft.Apply` | tools/policy-epoch/model.ts:150-158 | grant and revoke on an active draft, refused on a closed one or for a malformed binding |
| `PolicyModel.AuthorizationStore.TransactAuthorizationChange` | tools/policy-epoch/model.ts:213-264 | new projects and reply are those of the commit transition |
| `PolicyModel.AuthorizationStore.ReadAuthorizationSnapshot` | tools/policy-epoch/model.ts:266-297 | the loop over the principals computes the snapshot |
| `PolicyModel.PolicyDecisionProcess.ObserveMonotonicClock` | tools/policy-epoch/process.ts:311-341 | accepts only safe, non-decreasing readings and latches otherwise |
| `PolicyModel.PolicyDecisionProcess.ObserveNotification` | tools/policy-epoch/process.ts:255-271 | raises the floor and drops exactly the project's cache entries |
| `PolicyModel.PolicyDecisionProcess.Decide` | tools/policy-epoch/process.ts:135-253 | an uninterrupted decision is the three steps of the step system |
| `PolicyModel.PolicyDecisionProcess.ConfirmDecision` | tools/policy-epoch/process.ts:190-253 | the part from the compiled policy to the cache is the confirm step |
| `Cycles.RotationsShareKey` | tools/architecture/check-workspace.ts:537-544 | rotations of one cycle have one canonical key |
| `Cycles.SameKeyIsRotation` | tools/architecture/check-workspace.ts:537-544 | for names without a vertical bar, keys agree exactly for rotations |
| `Cycles.BarNamesCollide` | tools/architecture/check-workspace.ts:537-544 | with such names two different cycles can share a key |
| `Cycles.KeyIsLeast` | tools/architecture/check-workspace.ts:537-544 | the key is the least text among the rotations |
| `CycleCheck.CheckBarGraph` | tools/architecture/check-workspace.ts:387-420 | a graph on which the search reports one cycle and misses another altogether |
| `CycleCheck.Search.Visit` | tools/architecture/check-workspace.ts:395-417 | terminates, keeps path, colors and reports consistent, and leaves the visited edge finished or covered by a report |
| `CycleCheck.Search.Report` | tools/architecture/check-workspace.ts:397-410 | a back edge yields a real simple cycle, reported unless a rotation of it was |
| `CycleCheck.CheckCycles` | tools/architecture/check-workspace.ts:387-420 | violations are emitted if and only if the graph has a cycle; each is a simple cycle, none a rotation of another; without a vertical bar in names every cycle shares an edge with a reported one |
| `Locks.AssertLockPlan` | tools/metadata-control-plane/model.ts:265-274 | accepts exactly the plans that name each domain at most once in the global order |
| `Locks.PlansAscend` | tools/materialization-control-plane/control.ts:7-38 | the repository's five plans are accepted |
| `Locks.CutoverKeysAscend` | tools/materialization-control-plane/control.ts:40-55 | accepts exactly non-empty lists of distinct UUIDs and returns the normalized keys, each once, strictly ascending |
| `Locks.RequestsAscend` | tools/materialization-control-plane/control.ts:40-55 | an accepted plan with ordered keys asks for its locks in the global order |
| `Deadlock.NoWaitCycle` | tools/metadata-control-plane/model.ts:235-274 | no transaction waits, directly or through others, for itself |
| `Deadlock.SomeoneCanStep` | tools/metadata-control-plane/model.ts:235-274 | while a transaction is unfinished some transaction can take its next lock or end |
| `Deadlock.SchedulesFinish` | tools/metadata-control-plane/model.ts:235-274 | the steps of a schedule and the work left add up to the work at its start, so every schedule is finite, and one that can go no further has ended all transactions |
| `Deadlock.PlansNeverDeadlock` | tools/materialization-control-plane/control.ts:7-55 | any number of transactions along accepted plans never deadlock, under every schedule |
| `Deadlock.CutoverFollowsPlan` | tools/materialization-control-plane/control.ts:40-55 | a transaction that takes the keys the sort returns asks for its locks in plan order |
| `Deadlock.RepositoryNeverDeadlocks` | tools/materialization-control-plane/control.ts:7-55 | any number of transactions along the repository's plans, with any cutover keys, never deadlock |
| `ControlPlane.PublishKeeps` | tools/metadata-control-plane/model.ts:339-413 | a publish that passes its guards keeps keys, channels, serving heads and installations coherent, so the closing assertion never fires |
| `ControlPlane.ActivateKeeps` | tools/metadata-control-plane/model.ts:512-541 | activating a package change leaves its installation with that one ACTIVE change and the others untouched |
| `ControlPlane.RepeatIsNoOp` | tools/metadata-control-plane/model.ts:349-357 | repeating a publish succeeds and changes nothing |
| `ControlPlane.OneWins` | tools/metadata-control-plane/model.ts:358-363 | of two publishes that expect one control revision at most one takes effect; the other is a conflict or a repeat |
| `ControlPlane.PublishTouches` | tools/metadata-control-plane/model.ts:379-395 | only the published release and the one it replaces change, along legal transitions |
| `ControlPlane.SupersedesActive` | tools/metadata-control-plane/model.ts:530-534 | with keys that are ids the loop supersedes exactly the ACTIVE changes of the installation, in whatever order they are listed |
| `ControlPlaneProjects.PublishKeepsOwned` | tools/metadata-control-plane/model.ts:346-401 | every publish keeps that each channel record stands under its own key and serves a release of its project |
| `ControlPlaneProjects.PublishStaysInProject` | tools/metadata-control-plane/model.ts:346-401 | a publish that takes effect changes no release and no channel of another project if and only if the channel record found under its key is of its own project |
| `ControlPlaneProjects.ColonFreeStaysInProject` | tools/metadata-control-plane/model.ts:346-401 | with project ids without a colon it never does |
| `ControlPlaneProjects.PublishReachesOver` | tools/metadata-control-plane/model.ts:346-401 | a concrete publish in project a that supersedes the release of project a:b |
| `ControlPlaneModel.SupersedeAll` | tools/metadata-control-plane/model.ts:530-534 | stores every ACTIVE change of the installation back superseded under its id; with keys that are ids, exactly those change |
| `ControlPlaneModel.ActivatePackageChange` | tools/metadata-control-plane/model.ts:512-541 | for every state the in-place updates are the activation transition over some listing of the changes |
| `ControlPlaneModel.AssertInvariants` | tools/metadata-control-plane/model.ts:476-510 | passes exactly on coherent states |
| `ControlPlaneModel.PublishReleaseTransaction` | tools/metadata-control-plane/model.ts:339-413 | for every state the field-by-field updates are the publish transition, which keeps the invariant |
| `PoolRuns.StepKeeps` | tools/handler-host/pool.ts:109-451 | every event keeps conservation, order, own answers and no idle waiting, and the records only grow |
| `PoolRuns.ExactlyOnePlace` | tools/handler-host/pool.ts:109-134 | at every moment an accepted request is in the queue, with one worker or settled, exactly once; others nowhere |
| `PoolRuns.NothingTakenBack` | tools/handler-host/pool.ts:374-396 | settlements stay: a request settles once |
| `PoolRuns.FirstInFirstOut` | tools/handler-host/pool.ts:208-216 | the requests dispatched, followed by those waiting, are a subsequence of the requests accepted, which are all different |
| `PoolRuns.AnswersTheirOwn` | tools/handler-host/pool.ts:374-396 | a host's answer settles only the dispatched request it names |
| `PoolRuns.NobodyWaitsInVain` | tools/handler-host/pool.ts:208-216 | no request waits in a stopped pool, nor beside a free worker that was not sent a signal |
| `PoolWaiting.StepServes` | tools/handler-host/pool.ts:353-451 | an event leaves a request waiting beside an available worker if and only if the queue is not empty and it is a message that fails the protocol of a ready worker with a request |
| `PoolWaiting.WaitsExactlyWhenStranded` | tools/handler-host/pool.ts:208-216 | in a run no request waits beside an available worker until such an event, and that event leaves one |
| `PoolWaiting.RequestCanWait` | tools/handler-host/pool.ts:438-451 | a concrete run that leaves one |
| `PoolModel.HandlerHostPool.DrainQueue` | tools/handler-host/pool.ts:208-216 | the loop over the workers is the drain transition |
| `PoolModel.HandlerHostPool.InvokeHandler` | tools/handler-host/pool.ts:109-134 | the invoke transition, invariant kept; an id is returned exactly when the request is accepted |
| `PoolModel.HandlerHostPool.HandleMessage` | tools/handler-host/pool.ts:353-396 | the message transition, invariant kept |
| `PoolModel.HandlerHostPool.FailProtocolOf` | tools/handler-host/pool.ts:438-451 | the protocol-failure transition |
| `PoolModel.HandlerHostPool.HandleTimeout` | tools/handler-host/pool.ts:398-403 | the timeout transition, invariant kept |
| `PoolModel.HandlerHostPool.HandleExit` | tools/handler-host/pool.ts:405-436 | the exit transition with the replacement worker and the failure of a startup it ends, invariant kept |
| `PoolModel.HandlerHostPool.HandleStartupTimeout` | tools/handler-host/pool.ts:287-294 | the startup timer with the failure it brings about, invariant kept |
| `PoolModel.HandlerHostPool.Stop` | tools/handler-host/pool.ts:163-170 | stopping refuses the whole queue and signals every worker, invariant kept |
| `PoolModel.HandlerHostPool.FinishStop` | tools/handler-host/pool.ts:171-175 | the stop ends once every process is gone, invariant kept |
| `PoolModel.HandlerHostPool.StartPool` | tools/handler-host/pool.ts:95-107 | starting spawns the workers, invariant kept |
| `PoolModel.HandlerHostPool.HandleStartupFailure` | tools/handler-host/pool.ts:186-206 | a failed startup stops the pool or makes it fatal and refuses the queue |
| `Scanner.TopLevelStatementWords` | tools/database/definitions.ts:143-199 | the index loop terminates on every text and computes the scan |
| `Scanner.SkipBlockComment` | tools/database/definitions.ts:206-221 | skips nested comments to their end, or finds none |
| `Scanner.SkipQuoted` | tools/database/definitions.ts:223-236 | skips to the closing quote past doubled ones, or finds none |
| `Scanner.SkipLineComment` | tools/database/definitions.ts:201-204 | skips past the next newline or to the end |
| `Scanner.SkipDollar` | tools/database/definitions.ts:177-187 | skips a tagged dollar quote to the first closing tag |
| `Scanner.AssertNoTransactionControl` | tools/database/definitions.ts:125-141 | accepts exactly texts that scan and have no statement starting with a transaction command |
| `ScannerLaws.ScanIsLeading` | tools/database/definitions.ts:143-199 | on every well-separated token list the scan is the first two upper-cased words of each statement that has one |
| `ScannerLaws.OtherIsPlain` | tools/database/definitions.ts:153-196 | the scanner steps over a single character exactly when it starts no word, literal, comment or tagged dollar quote and ends no statement |
| `ScannerTokens.Tokenize` | tools/database/definitions.ts:143-241 | every text the scanner answers on is the text of a well-separated token list |
| `ScannerTokens.ScanMeans` | tools/database/definitions.ts:143-241 | the scanner answers if and only if the text is such a list, and then as any such list says |
| `ScannerTokens.AcceptedMeans` | tools/database/definitions.ts:125-141 | a migration is accepted if and only if it is a token list without transaction commands |
| `References.ReferencesIn` | tools/contracts/runtime-read-generation.ts:361-374 | returns exactly the texts of the references in the value |
| `References.CollectDefinitions` | tools/contracts/runtime-read-generation.ts:338-359 | ends on cyclic references; succeeds exactly when everything reachable is defined and refers locally, and returns exactly the reachable definitions |
| `References.RewrittenRefs` | tools/contracts/runtime-read-generation.ts:376-387 | the references of a rewritten value are the rewritten references |
| `References.RewriteBack` | tools/contracts/runtime-read-generation.ts:376-387 | rewriting local references back gives the value again |
| `References.Merge` | tools/contracts/runtime-read-generation.ts:169-175 | the union of both maps, refused exactly when a shared name is defined differently |
| `References.BuildSchemas` | tools/contracts/runtime-read-generation.ts:155-176 | succeeds exactly when both closures exist and agree; the schemas are exactly the reachable definitions, rewritten, and every reference in them resolves among them |
| `TextMeaning.LessMeans` | tools/job-outbox/outbox.ts:863-867 | string order is the lexicographic order of UTF-16 code units |
| `TextMeaning.BlankMeans` | tools/job-outbox/shared.ts:215-219 | a text counts as empty exactly when trimming ECMAScript white space leaves nothing |
| `EncodingMeaning.QuoteMeans` | tools/job-outbox/outbox.ts:820-822 | a JSON string is its characters between quotes, each escaped as `JSON.stringify` does |
| `EncodingMeaning.EscapeMeans` | tools/job-outbox/outbox.ts:820-822 | which characters are escaped, and how |
| `EncodingMeaning.JsonStringsMean` | tools/job-outbox/outbox.ts:820-822 | a list of strings is its strings with commas between them, in brackets |
| `EncodingMeaning.DecimalMeans` | tools/job-outbox/outbox.ts:824-835 | a number is written in decimal digits without a leading zero |
| `EncodingMeaning.TupleMeans` | tools/policy-epoch/model.ts:486-488 | a tuple is its parts one after the other, each behind its length in UTF-8 bytes and a colon |
| `DurableMeaning.PolicyMeans` | tools/job-outbox/shared.ts:109-131 | the policies that are accepted |
| `DurableMeaning.DueMeans` | tools/job-outbox/shared.ts:133-166 | the next attempt is due after the initial backoff doubled with every attempt, the exponent capped at 52 and the wait at the maximum, or there is no safe time |
| `DurableMeaning.CheckMeans` | tools/job-outbox/shared.ts:168-203 | a handle is checked as a whole: the time, then that it is the lease's own, then that the lease has not run out |
| `DurableMeaning.AuditCodeMeans` | tools/job-outbox/shared.ts:221-228 | reason codes are 2 to 64 capitals, digits and underscores that start with a capital |
| `OutboxMeaning.HolderMeans` | tools/job-outbox/shared.ts:178-203 | a caller is admitted exactly with the event's own handle, in the right state, at a time not before the last one and before the lease ends; otherwise each refusal has its code |
| `OutboxMeaning.HeartbeatMeans` | tools/job-outbox/outbox.ts:327-347 | a heartbeat moves the end of the lease to now plus the lease duration and changes nothing else; without a safe end only its time is noted on the lease |
| `OutboxMeaning.StartMeans` | tools/job-outbox/outbox.ts:349-374 | what the start of a delivery changes, and when and how it is refused |
| `OutboxMeaning.AcknowledgeMeans` | tools/job-outbox/outbox.ts:376-427 | only the destination, only for the event sent, only while delivering; what is then recorded |
| `OutboxMeaning.FailMeans` | tools/job-outbox/outbox.ts:429-444 | the event is dead-lettered if and only if the failure may not be retried or the cycle is used up, and else waits exactly the backoff; attempt, first and last failure, and the half-way case are spelled out |
| `OutboxMeaning.FinishMeans` | tools/job-outbox/outbox.ts:649-705 | the same for the part shared with the reaper |
| `OutboxMeaning.ReplayMeans` | tools/job-outbox/outbox.ts:494-528 | only a dead-lettered event, at a time not before the last one, starts a new cycle |
| `OutboxMeaning.ReadyMeans` | tools/job-outbox/outbox.ts:262-270 | an event can be claimed exactly when it waits, its time has come, the destination fits and every event of its project, destination and object with a smaller change set or ordinal is delivered |
| `OutboxMeaning.OneReady` | tools/job-outbox/outbox.ts:707-716 | no stream has two such events |
| `OutboxMeaning.OrderMeans` | tools/job-outbox/outbox.ts:802-818 | the claim order on the fields |
| `OutboxMeaning.ClaimMeans` | tools/job-outbox/outbox.ts:248-325 | a claim grants the ready event available first, then committed first, then first by the text of its stream, for exactly the lease duration, or says with which code not |
| `OutboxBatchMeaning.CommitMeans` | tools/job-outbox/outbox.ts:146-246 | a new transaction is refused for the first event that is malformed, taken or late, with its code, and else stores exactly its events, each pending from now on, with positions, log and reply |
| `OutboxBatchMeaning.ReclaimMeans` | tools/job-outbox/outbox.ts:446-492 | exactly the leases that end by now are taken; each event is dead-lettered after the last attempt of its cycle and else waits the backoff, its attempt is on record as expired, and log and reply list them in order |
| `OutboxHistory.PermanentFailureWaits` | tools/job-outbox/outbox.ts:649-705 | after a failure that may not be retried no claim grants the event before a replay, whatever calls come in between |
| `OutboxHistory.DeadLetterStays` | tools/job-outbox/outbox.ts:494-528 | no call but its replay touches a dead-lettered event |
| `OutboxHistory.DeliveredByPosition` | tools/job-outbox/outbox.ts:707-716 | in every run, what stands before a delivered event or one in flight by change set and ordinal is delivered |
| `OutboxHistory.LeaseRunsFromHeartbeat` | tools/job-outbox/outbox.ts:274-347 | in every run a lease ends exactly one lease duration after the last accepted heartbeat of its attempt |
| `JobsMeaning.EnqueueMeans` | tools/job-outbox/job.ts:112-165 | a known project, type and key returns its job or is a conflict on another digest; else a new job is stored as given, or refused with its code |
| `JobsMeaning.ClaimMeans` | tools/job-outbox/job.ts:167-229 | a claim grants the ready job of the highest priority, then available first, then enqueued first, then of the smallest id, for exactly the lease duration and with its last checkpoint |
| `JobsMeaning.HolderMeans` | tools/job-outbox/shared.ts:178-203 | when a caller is admitted, and each refusal's code |
| `JobsMeaning.HeartbeatMeans` | tools/job-outbox/job.ts:231-246 | a heartbeat moves the end of the lease to now plus the lease duration and changes nothing else |
| `JobsMeaning.CheckpointMeans` | tools/job-outbox/job.ts:248-305 | a checkpoint goes behind the last one, the last one again is answered as recorded, anything else is a conflict |
| `JobsMeaning.SucceedMeans` | tools/job-outbox/job.ts:307-326 | what success changes, and when it is refused |
| `JobsMeaning.FailMeans` | tools/job-outbox/job.ts:328-345 | the job is dead-lettered if and only if the failure may not be retried or the cycle is used up, and else waits exactly the backoff |
| `JobsMeaning.FinishMeans` | tools/job-outbox/job.ts:494-529 | the same for the part shared with the reaper |
| `JobsMeaning.ReplayMeans` | tools/job-outbox/job.ts:387-413 | what a replay changes, and when it is refused |
| `JobsMeaning.CancelMeans` | tools/job-outbox/job.ts:415-438 | what a cancellation changes, with and without a lease, and when it is refused |
| `JobsHistory.ReclaimMeans` | tools/job-outbox/job.ts:347-385 | exactly the leases that end by now are taken, with the outcome, log and reply spelled out |
| `JobsHistory.PermanentFailureWaits` | tools/job-outbox/job.ts:494-529 | after a failure that may not be retried no claim grants the job before a replay |
| `JobsHistory.LeaseRunsFromHeartbeat` | tools/job-outbox/job.ts:181-246 | in every run a lease ends exactly one lease duration after the last accepted heartbeat of its attempt |
| `SchemaMeaning.PlainMeans` | tools/contracts/schema.ts:112-233 | without talk of depth: a plain node admits exactly the values that meet const, enum, type, inclusive bounds, pattern, format, uniqueItems, items, properties, required and the policy for unknown fields |
| `SchemaMeaning.ReferenceMeans` | tools/contracts/schema.ts:93-98 | a reference admits what the definition of its name admits, and nothing without one |
| `SchemaMeaning.ChoiceMeans` | tools/contracts/schema.ts:99-111 | oneOf admits what one branch admits and all others refuse |
| `SchemaMeaning.NumberBounds` | tools/contracts/schema.ts:141-153 | both bounds of a number are inclusive |
| `SchemaMeaning.TextBounds` | tools/contracts/schema.ts:155-174 | both bounds of a length are inclusive |
| `SchemaMeaning.ListBounds` | tools/contracts/schema.ts:176-200 | both bounds of a size are inclusive; uniqueItems forbids repeats |
| `SchemaMeaning.ValuesAlone` | tools/contracts/schema.ts:112-119 | const admits one value, enum the listed ones |
| `SchemaMeaning.TypeAlone` | tools/contracts/schema.ts:246-255 | each type name admits its kind of value, integer the safe integers |
| `SchemaAnswers.PlainAnswers` | tools/contracts/schema.ts:112-233 | a plain node throws on a value exactly when an unknown type name, a pattern that does not compile, malformed properties or a part that throws comes up first |
| `SchemaAnswers.PlainRefuses` | tools/contracts/schema.ts:112-233 | it refuses exactly the values it answers on that miss a keyword |
| `SchemaAnswers.ReferenceRefuses` | tools/contracts/schema.ts:93-98 | a reference refuses what its definition refuses |
| `SchemaAnswers.ChoiceAnswers` | tools/contracts/schema.ts:99-111 | oneOf answers exactly when every branch does |
| `SchemaValidator.ChildPathMeans` | tools/contracts/schema.ts:297-301 | which keys follow a dot in an issue's path and which stand in brackets |
| `DiffMeaning.CompareMeans` | tools/contracts/compatibility.ts:72-193 | two nodes are compatible exactly when nine keywords are the same, lower bounds do not rise, upper bounds do not fall, uniqueItems is not turned on, no property goes, comes or becomes required wrongly, and the parts are compatible |
| `DiffMeaning.DiffMeans` | tools/contracts/compatibility.ts:15-70 | two documents are, exactly when both have definitions, the ids agree and every baseline definition is there and compatible |
| `PolicyMeaning.NameMeans` | tools/policy-epoch/model.ts:442-455 | identifiers are 1 to 256 UTF-16 code units with nothing to trim and no control character |
| `PolicyMeaning.RequestMeans` | tools/policy-epoch/process.ts:428-480 | which requests can be asked: at most 128 groups, at most 16 delegates, no repeats |
| `PolicyMeaning.LastEditWins` | tools/policy-epoch/model.ts:142-178 | after a change a binding is held exactly when the last edit that names it grants it, or none does and it was held |
| `PolicyMeaning.ChangeMeans` | tools/policy-epoch/model.ts:213-264 | when a change of the bindings is refused, when it is none, and what it makes of the project |
| `PolicyMeaning.DecisionMeans` | tools/policy-epoch/process.ts:135-253 | a whole decision, from the request to the cache: kept answer, fresh answer from the bindings of the current epoch, or which failure, each exactly under its condition; the answer is kept for the TTL and the floor is the epoch answered from |
| `PolicyMeaning.SnapshotTaken` | tools/policy-epoch/process.ts:482-500 | which snapshots a process takes for confirmed |
| `PolicyMeaning.NotificationMeans` | tools/policy-epoch/process.ts:255-271 | which notifications raise the floor and drop exactly the project's answers |
| `LockMeaning.UuidMeans` | tools/materialization-control-plane/control.ts:31-32 | keys are five groups of hexadecimal digits with version and variant |
| `LockMeaning.CutoverMeans` | tools/materialization-control-plane/control.ts:40-55 | a cutover is accepted exactly for a non-empty list of keys that are different UUIDs once trimmed and in small letters, and locks exactly these, ascending |
| `ControlPlaneMeaning.PublishMeans` | tools/metadata-control-plane/model.ts:339-413 | a publish is refused with the first trouble there is, changes nothing when it is done, and else moves exactly these records: both counters by one, pointers, releases, package change and installation |
| `ControlPlaneMeaning.CoherentMeans` | tools/metadata-control-plane/model.ts:476-510 | the closing assertion passes exactly when no channel is torn and no installation differs from its only ACTIVE change |
| `ControlPlaneMeaning.EpochsCount` | tools/metadata-control-plane/model.ts:408-411 | over any sequence of publishes the epoch of a project rises by exactly the number of its publishes that took effect, and the control revision by the number of all that did |
| `PoolMeaning.DrainMeans` | tools/handler-host/pool.ts:208-216 | in a running pool the waiting requests go, oldest first, to the workers that take work in their order, one each |
| `PoolMeaning.InvokeMeans` | tools/handler-host/pool.ts:109-134 | which requests are numbered and which are queued |
| `PoolMeaning.MessageMeans` | tools/handler-host/pool.ts:353-396 | a first READY of the worker's own process makes it take work, an answer to the request it holds settles it, anything else is a breach that costs the worker its request |
| `PoolMeaning.TimeoutMeans` | tools/handler-host/pool.ts:398-403 | only the timer of the request held marks the worker |
| `PoolMeaning.ExitMeans` | tools/handler-host/pool.ts:405-436 | an exit counts once, refuses what the worker held for the timeout or the exit, spawns a replacement in a running pool, and fails a startup under way |
| `PoolMeaning.TooLateMeans` | tools/handler-host/pool.ts:287-294 | a worker not ready in time is killed and its startup fails |
| `PoolMeaning.FailureMeans` | tools/handler-host/pool.ts:186-206 | a failed startup stops the pool, or makes it fatal and refuses what waits |
| `PoolMeaning.StopMeans` | tools/handler-host/pool.ts:163-170 | a stop refuses every waiting request, in order, and tells every process to end |
| `PoolMeaning.EndStopMeans` | tools/handler-host/pool.ts:171-175 | when the stop is over |
| `PoolMeaning.StartMeans` | tools/handler-host/pool.ts:95-107 | a start spawns one new worker for each process |
| `PoolMeaning.RefusedForTimeout` | tools/handler-host/pool.ts:398-436 | in every run, a request whose host exits is refused as a timeout if and only if its own timer went off while the worker held it |
| `ScannerMeaning.CheckMigration` | tools/database/definitions.ts:125-141 | a migration is refused exactly when the first word of a statement spells ABORT, BEGIN, COMMIT, END, RELEASE, ROLLBACK or SAVEPOINT, or the first two START TRANSACTION or PREPARE TRANSACTION, in either case, or it is no token list |
| `ScannerMeaning.LeadsMeans` | tools/database/definitions.ts:125-141 | the same about the leading words of a token list |
| `ScannerMeaning.AlphabetMeans` | tools/database/definitions.ts:188-241 | which characters start and continue words and tags |
| `References.LocalReference` | tools/contracts/runtime-read-generation.ts:376-387 | a local reference becomes the reference to the schema component of that name |

## Left out

- Compatibility.CompatibleMeansSound: one direction for whole documents, because the converse is false (a document may break a condition at a node that no value reaches); CompatibilityNeeds gives both directions node by node, and CompatibilityChecks conditions read off the documents.
- CompatibilityChecks.CheckedMeansSound: one direction, for the same reason; branches told apart only by bounds, patterns or formats are not recognised.
- SchemaDiff.DiffContractSchemas: how the host collates texts is a parameter, any sort that permutes the findings.
- SchemaValidator.ValidateValue: carries the depth it may still descend, because a schema whose references form a loop without consuming the value makes the original overflow the stack; that case counts as thrown. SchemaTotal.EnoughDepth shows that the limit changes nothing on documents without such loops.
- PolicyModel.PolicyDecisionProcess.Decide: an uninterrupted decision; interruptions are covered by the step system of PolicyEpoch.
- PoolModel.HandlerHostPool.StartPool: host workers are values in a field of the pool, so the identity of worker objects and the promises behind requests are not modelled.
- Strings are sequences of Unicode scalar values: lone surrogates are not modelled. String order is the order of UTF-16 code units.
- Prototype-inherited property names (such as "constructor" looked up in a plain object) are not modelled.
- Json.StableIsEquality: the digits that `JSON.stringify` prints for a double are not modelled, only that it prints different doubles differently.
- Numbers in JSON are the finite doubles, as real numbers; numbers in times, ordinals and tokens are integers: NaN, infinities and fractional times are not modelled; safe-integer limits are.
- Audit detail strings, error messages, telemetry, the full cache key kept for inspection, and health or status reports of the Outbox.
- The compiled-policy store: what it returns is a parameter of each decision.
- Lock modes: every lock is exclusive, which is the strictest case for waiting.
- replaceRoleBindingsTransaction, revision transitions and authorizeManagementRequest of the metadata control plane: decided by reading single branches.
- C-style escape strings of PostgreSQL (E'...'): the scanner does not treat them specially, and neither does the model.
- The keyword check assertSupportedSchema and the operations part of the OpenAPI document: easy members.
- Everything else under `tools/` (CI plumbing, local environment, database connections, projection DDL, cursor encryption, file discovery): not part of this model.
