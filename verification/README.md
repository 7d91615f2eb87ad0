# Admission, ledger and recovery of Control

Control admits model and tool calls, guarded mutations and attempts of operations, keeps
their money, and recovers after its database was rolled back. Every transaction of its
store is one atomic step; the calls made between transactions (the inventory write, the
listing of the inventory, reads of authority and evidence) interleave freely, may fail,
may lose their acknowledgement and may be repeated by any replica. This project models
that protocol over one shared state and proves what holds over all of its runs.

## How it is built

* **Rows and rules.** `Values`, `Budget`, `Records`, `Database`: 64-bit money, the rows,
  the tables with the unique indexes the application relies on. `Admission`, `Effects`,
  `Releases`, `Grants`, `Execution`, `Finance`, `Recovery`: each rule and each transaction
  as a function from the tables to a result, with the branches, order and errors of the
  code. `Sums` and `Obligations` hold finite sums and inventory keys.
* **The services, in place.** `Tables` holds the store and its rollback. `Accounts` and
  `Entities` are the objects whose methods change their counters and states, `LockedBudgets`
  the loops over them. `Dispatching`, `Financing`, `Executing`, `Guarding`, `Inventories`
  and `Recovering` are the services: they lock rows, change objects, loop and write back.
  Each method is proved to commit exactly what the function of the same transaction says,
  or to leave no trace. `Application` ties them together: one admission through its four
  steps, and any sequence of transactions executed on the store, which reaches the state of
  its run.
* **Rules as conditions.** `Rules` and `Gates` state what the rows must be for a call, a
  mutation, an attempt, a launch, a verdict, an execution permit or a command to pass, in
  their own terms, and prove that exactly these pass. `Gates` also counts, over every run,
  who holds the permits of a pool.
* **Runs.** `Transactions` is the sum of all transactions and the runs from an empty
  database. `DispatchSteps`, `EffectSteps`, `WorkSteps` say what any transaction, whichever
  it is, can do to one row. On them stand `Termination`, `Fences`, `Barrier`,
  `Replacements`, `Settlement`, `ReleaseHistory`, `Metering`, `Books`, `Conservation`,
  `Solvency`, `PoolShares`.
* **Worlds.** `Worlds` adds what happens between transactions: requests and listings in
  flight, the inventory, what callers were told, lost acknowledgements and one rollback.
  `Published`, `Enumeration`, `Reopening`, `Unbroken` and `SinglePermission` are proved over
  every history of events; `Restored` is about the requests a rollback loses and the run
  after it restores.
* **Archives.** `Archive` is the path index of an archive listing and its exact meaning.

## What the results assume

* `SinglePermission`: `Begin` is the first step after the rollback; no run begins between
  the restore point and the rollback (a begun run discards the restore point); the window
  of the run after it covers every published dispatch of its scope that the restore point
  does not know; no dispatch whose record is absent is disposed by retaining its exposure
  (`Considerate`). At most one rollback.
* `Solvency.MoneyIsConserved` and `Solvency.NoOverdraft`: an allocation or cap is added to a
  book only while no dispatch of it holds or has cost anything (`Timely`), because an
  allocation can be added for a new pool period with nothing reserved and a new cap starts
  at zero; `Conservation.AllocateKeepsExactlyWhenUnused` and
  `Conservation.SetCapKeepsExactlyWhenUnused` show that this is exact.
* `Termination.TerminalIsFinal` and `PoolShares.SettledMeansNothingReserved`: no attempt is
  closed while another attempt of the operation is live (`SeparateCloses`), because opening
  does not forbid a second attempt; `Termination.EndRewritten` and `Termination.EndUndone`
  are runs where an end is not final.
* `Barrier.BarrierHolds`: no model request names a grant (`ThroughTheDoors`), as the one
  door for them never sets one (internal/transport/grpc/dispatch.go:84-88).
* `Metering.OrderIgnoredExactly`: the ledger can hold what a million units of a counter cost
  (`Representable`).
* `Metering.ExposureIsTruthful`: the operation is given no share while a call of it is
  unknown (`Unhidden`); `Metering.ExposureStep` shows that this is exact.
* `SteadyRun`: no lost identity is restored, which only a rollback makes possible.
* `InFlightRun`: a second transaction acts on what its own first transaction answered, and
  a restored reservation is not negative. `Published.EventInFlight` proves both of every
  event of a history.

## Where the code does less than its words say

* An operation that ended is called terminal, but its end is final only while no attempt of
  it is open (`Termination.EndIsFinalExactlyWhenClosed`). With two attempts open a close
  rewrites the end (`Termination.EndRewritten`). Opening one attempt at a time is not
  enough: closing again an attempt whose cleanup was unknown can end the operation beside a
  later attempt, whose close then undoes it (`Termination.EndUndone`). The code keeps
  attempts apart only where its callers do; the hypothesis here is that no close happens
  beside another live attempt.
* The record of a dispatch is said to be exactly what was published for it, and a restore to
  recreate the lost identity. A restored tool call lacks its argument digest and its effect
  class (internal/application/recovery_reconciliation.go:199-206), so its record makes its
  object if and only if the obligation named neither (`Published.RebuildsExactly`).
* A request sent again is said to find its record. The restore of a dispatch also lacks the
  superseded call and the evidence, which both doors set
  (internal/transport/grpc/dispatch.go:89,122) and which are not published, and the restore
  of a mutation lacks its lease expiry
  (internal/application/recovery_reconciliation.go:250-256). So a retry of a restored call is
  answered if and only if it names none of the four, evidence counting only until the call
  is confirmed not sent (`Restored.RetryAnsweredExactly`; `Restored.RestoredIsUnrebuilt` is a
  history where it is refused), and a retry of a restored mutation if and only if it names no
  lease expiry (`Restored.MutationAnsweredExactly`).
* A duplicate or out-of-order report is said to charge nothing
  (internal/application/dispatch.go:489-497). Under an inclusion rule that holds if and only
  if the unit price of the whole, rounded up to the ledger's unit, is at most that of the
  part, rounded down (`Metering.OrderIgnoredExactly`; `Metering.OrderMattersUnderInclusion`
  is a price where it fails). The charge is always the largest cost of a prefix in order of
  arrival.
* The finance state of an operation is said to be kept truthful
  (internal/application/dispatch.go:603-605): unknown while a call of it is. An allocation
  that adds a share marks the operation funded whatever is unknown
  (internal/application/dispatch.go:129), and that is the only way it stops being truthful
  (`Metering.ExposureStep`).
* The barrier counts the senders of a grant revision whatever their kind
  (internal/adapters/postgres/queries/dispatch.sql:130-133), while only tool calls are
  checked against a revision at admission. Behind a revocation a counted sender is added if
  and only if a model call that names the revision is consumed
  (`Barrier.OnlyModelsSendBehind`); no request that comes through the door of model calls
  names one.

## Model

| member | source | states |
|---|---|---|
| `SinglePermission.ToldAtMostOnce` | internal/application/dispatch.go:173-328 | In every history of interleaved requests, retries, lost acknowledgements and confirmations, even across one rollback of the database, no two answers allow the same (tenant, owner, call); for every tenant before a rollback and for the tenants the recovery run covers after it |
| `SinglePermission.SingleAlways` | internal/application/recovery_reconciliation.go:182-243 | A call that was told it may be sent has a record that can never be consumed again or, if the rollback lost the record, admission stays closed by the run until the published obligation is restored as an unknown send |
| `SinglePermission.AwaitedTx` | internal/application/recovery.go:300-342 | While the record of a told call is lost, no transaction reopens admission, prepares the call anew or takes its finding for settled; it comes back only unknown, restored from what was published for it |
| `SinglePermission.LostIsAwaited` | internal/application/recovery.go:80-166 | At the rollback, a told call the restore point does not know is an obligation of the run that begins, has no finding yet, and nothing else was issued for its call |
| `SinglePermission.RestoredPointSpent` | internal/application/recovery.go:173-185 | At the rollback, a told call the restore point still holds as prepared is retired by the raised execution epoch |
| `SinglePermission.ConsumedWasNotSpent` | internal/domain/dispatch.go:403-409 | A transaction that authorizes a prepared record acts on a record that was not spent |
| `SinglePermission.RollbackHappens` | internal/application/recovery.go:80-166 | The histories these results are about include a rollback: a concrete one, after which the run holds the closure of every scope |
| `Application.Gate.Admit` | internal/application/dispatch.go:173-328 | One request through its four steps: told allowed only when its own second transaction authorized a record that was new or prepared, and the inventory holds exactly its obligation; otherwise no dispatch became authorized, and nothing published is taken back |
| `Enumeration.ReopeningIsComplete` | internal/application/recovery_enumeration.go:31-160 | When a run reopens admission, every obligation the inventory held at its beginning, inside the widened window and the scope, has its finding and it is settled, however replicas interleave, lose pages or repeat listings |
| `Enumeration.EnumerationIsComplete` | internal/application/recovery_enumeration.go:90-159 | In every history what the position of a class has passed has its finding, and every listed page in flight misses nothing between its cursor and where it reaches |
| `Enumeration.PageIsComplete` | internal/adapters/inventory/filesystem.go:265-331 | A page of the sorted keys cut at a limit contains every eligible object between its cursor and its next cursor, or to the end when it is complete |
| `Enumeration.PageRecorded` | internal/application/recovery_enumeration.go:99-144 | A committed page left a finding for each of its candidates and moved the position from exactly the one it was read at |
| `Enumeration.ReopensOnlyThen` | internal/application/recovery.go:300-342 | A run becomes reopened only when every class is complete and no finding of it is unsettled |
| `Published.PublishedBeforePermission` | internal/application/dispatch.go:253-322 | In every history the inventory holds exactly the obligation each authorized, unknown or observed dispatch and each permitted or settled effect was issued; that obligation is what the record says, except that a restored dispatch lacks the two fields its restore drops; and every request in flight carries the one body its record was issued |
| `Published.RebuildsExactly` | internal/application/recovery_reconciliation.go:199-206 | In every history a dispatch record makes the obligation it was issued if and only if it was never restored, or the obligation names no argument and no side effect |
| `Restored.RetryAnsweredExactly` | internal/domain/dispatch.go:351-399 | In every history a retry that names all that was published for a restored call is answered with its record, granting nothing, if and only if it names no argument, no side effect, no superseded call and, unless the call was confirmed not sent, no evidence; every other one is refused with an idempotency conflict |
| `Restored.RetryConflicts` | internal/domain/dispatch.go:351-399 | In every history whoever retries a restored call and names an argument, a side effect, a superseded call or evidence that its record lacks is refused with an idempotency conflict |
| `Restored.MutationAnsweredExactly` | internal/domain/effect.go:251-282 | In every history a retry that names all that was published for a restored mutation is answered with its record, permitting nothing, if and only if it names no lease expiry; otherwise it is refused with an idempotency conflict |
| `Restored.IndexedAlways` | internal/application/effects.go:158-180 | In every history, across a rollback and restorations, every dispatch is found under its call and every mutation under its command |
| `Restored.RestoredIsUnrebuilt` | internal/application/recovery_reconciliation.go:199-206 | A concrete history: a published tool call with an argument is lost by a rollback and restored; its record no longer makes its object and a retry of the very request is refused |
| `Published.PutsNeverConflict` | internal/application/obligations.go:145-191 | No write of a dispatch or effect obligation ever meets a different body under its key |
| `Unbroken.WholeAlways` | internal/application/recovery_enumeration.go:170-229 | In every history without a rollback each published or issued obligation has its row, no finding is missing, every dispatch is found under its call and there only, terminal operations are quiet and every prepared record names an epoch its operation reached |
| `Solvency.MoneyIsConserved` | internal/application/budget.go:42-97 | In every run, restorations included: reserved of every allocation of an operation is the sum of what its prepared, authorized and unknown dispatches hold, consumed the sum of what its dispatches were charged; likewise every counted cap; given that allocations and caps were added while the book was unused |
| `Conservation.AllocateKeepsExactlyWhenUnused` | internal/application/dispatch.go:97-115 | An allocation that adds a row keeps the book exact if and only if nothing was held or charged in it |
| `Conservation.SetCapKeepsExactlyWhenUnused` | internal/application/finance.go:303-350 | A new counted cap, which starts at zero, has an exact book if and only if nothing was held or charged in its scope |
| `Solvency.ReleaseIsNeverRefused` | internal/domain/budget.go:359-366 | With exact books the release of a held dispatch is refused by no allocation and no cap |
| `Solvency.CapNeverClamps` | internal/domain/finance.go:76-79 | The counter of a cap that predates the calls covers every release, so its clamp at zero is never met |
| `Solvency.NoOverdraft` | internal/domain/budget.go:322-388 | If allocations were added to the operation only while its book was unused, no call costs more than it reserved, no cost arrives after the settling report and nothing is restored, reservations of unsettled calls plus the cost of settled calls never exceed any allocation |
| `Solvency.CountersMayExceed` | internal/domain/budget.go:372-388 | Reserved plus consumed itself may exceed the amount: a concrete allocation where a charge before settlement does it |
| `PoolShares.PoolsAreConserved` | internal/application/finance.go:372-455 | In every run the allotted amount of a pool is the sum over its allocations of amount less what was returned |
| `PoolShares.SettlementIsNeverRefused` | internal/domain/finance.go:176-191 | Settling the finance of any operation is never refused: the return of an unspent part always fits its pool |
| `PoolShares.SettledMeansReturned` | internal/application/finance.go:421-445 | Settled finance means every allocation has its return recorded, and a recorded return never changes |
| `PoolShares.SettledMeansNothingReserved` | internal/application/finance.go:372-455 | Without a rollback and with closes that never overlap a live attempt, settled finance means nothing is reserved on any allocation |
| `Termination.TerminalIsQuiet` | internal/application/execution.go:583-684 | In every run without a rollback no terminal operation has a prepared, authorized or unknown dispatch or a permitted or unknown effect, then or ever after |
| `Termination.TerminalIsFinal` | internal/application/execution_settlement.go:164-259 | While no close happens beside another live attempt of its operation, a terminal lifecycle never changes |
| `Termination.EndIsFinalExactlyWhenClosed` | internal/application/execution.go:593-612 | In every run without a rollback, the next transaction, whichever it is, leaves the lifecycle of a terminal operation if and only if no attempt of it is open |
| `Termination.TerminalIsConcluded` | internal/application/execution.go:649-663 | In every run without a rollback no attempt of a terminal operation has an unknown cleanup or a prepared dispatch |
| `Termination.EndRewritten` | internal/application/execution.go:68-124 | A concrete run: with two attempts open the first close ends the operation failed and the second rewrites the end to canceled |
| `Termination.EndUndone` | internal/domain/attempt.go:266-317 | A concrete run in which no two attempts are ever open together: an unknown cleanup settles beside a later attempt and ends the operation, and the close of the later attempt undoes the end |
| `Settlement.SettlementIsConfluent` | internal/application/execution_settlement.go:69-259 | Once an intent is stored for a multi-step operation, settle commands and sweeps in any order, among any other transactions, end it, if they end it, in exactly the intended lifecycle, unless a cancel was installed, and then canceled |
| `Settlement.IntendedAlways` | internal/application/execution_settlement.go:164-259 | In every run the multi-step operation an intent is stored for ends only as intended, or canceled under a cancel |
| `Settlement.SettleAgreesWithSweep` | internal/application/execution_settlement.go:69-119 | The stored command sent again and the sweep make one and the same transition |
| `Settlement.SweepEndsTheOperation` | internal/domain/generation.go:265-290 | The refusal of an unknown cleanup is unreachable inside the sweep, and with the obligations closed the sweep ends the operation as intended |
| `Settlement.CancelDominates` | internal/domain/operation.go:493-525 | Once a cancel is installed no later transaction of any kind removes it, and the operation can only end canceled |
| `Settlement.CanceledAlways` | internal/domain/attempt.go:285-317 | In every run an operation with a cancel installed is not ended, or ended canceled |
| `Gates.BusyHoldsPermit` | internal/application/execution.go:133-169 | Without a rollback every operation of a queue-pooled multi-step profile with an attempt or a dispatch outstanding holds an active permit |
| `Gates.BusyWithinCapacity` | internal/domain/generation.go:32-34 | So the number of such operations of a pool never exceeds its capacity less its reserve |
| `Gates.SharesAlways` | internal/application/generation.go:138-222 | In every run the active permits of each pool are within its capacity less its reserve |
| `Execution.LeaseNeverReturns` | internal/domain/generation.go:113-148 | Whatever is reported, a lost lease never returns, occurrences only grow and a confirmed expiry never moves back |
| `Gates.DeadlineSetOnce` | internal/domain/generation.go:66-95 | The active deadline is set once and never moves |
| `ReleaseHistory.ClaimsStayBacked` | internal/domain/release.go:321-352 | In every run each approval was decided under a succeeded review of its subject, and each succeeded target is a succeeded effect of the ledger with its receipt |
| `ReleaseHistory.RecordIsKept` | internal/domain/release.go:377-398 | What a release recorded once (subject, identity, review, definite targets) never changes later, it never falls back to an earlier stage, and its last states are final |
| `ReleaseHistory.ActivationHistory` | internal/domain/release.go:522-557 | An activation was permitted at a moment when both publications of the same subject digest had succeeded, each reported or decided so with the receipt the release names, and each of those had been permitted earlier while that digest was approved under a succeeded review |
| `ReleaseHistory.PublicationHistory` | internal/domain/release.go:522-557 | A publication that was sent was permitted at a moment when its subject digest was approved under a succeeded review |
| `ReleaseHistory.SentWasPermitted` | internal/domain/effect.go:286-348 | Without a rollback every sent effect was permitted under the rules at some moment of the run, with the same binding |
| `Fences.FencedIsNeverConsumed` | internal/application/recovery.go:80-185 | After a recovery run fenced an operation, no dispatch or effect prepared before it is ever consumed, by requests already between their transactions and after admission reopened included |
| `Fences.BeginRaisesEpoch` | internal/application/recovery.go:173-185 | A begun run raises the execution epoch of every operation it fences by one |
| `Fences.EpochsAlways` | internal/domain/dispatch.go:192-206 | In every run a prepared dispatch or effect names the tenant of its operation and an epoch the operation reached |
| `Barrier.BarrierHolds` | internal/application/grants.go:50-207 | Without a restoration, and with model requests that name no grant: a revoked revision stays revoked, the set of senders it counts only shrinks, converged is final with no sender, it is never executable again, and one revoked before its registration never becomes executable |
| `Barrier.ToolBarrierHolds` | internal/application/grants.go:126-207 | The same of the tool calls of the revision, whatever model requests name |
| `Barrier.OnlyModelsSendBehind` | internal/adapters/postgres/queries/dispatch.sql:130-133 | Behind a revocation a counted sender is added if and only if a model call that names the revision is consumed |
| `Replacements.ChainsAreFounded` | internal/domain/dispatch.go:267-277 | In every run what an admitted call supersedes is confirmed not sent, without cost and usage, and ranks strictly below it, so chains are well-founded and only the newest call can have been sent |
| `Replacements.OriginalStaysNotSent` | internal/application/dispatch.go:670-716 | A superseded original stays confirmed not sent, free of cost and usage, in all later states |
| `Metering.ChargedIsCostOfMaximum` | internal/application/dispatch.go:540-586 | Under a gradual price (for each inclusion rule the unit price of the whole rounded up is at most that of the part rounded down) the charge of accepted reports is exactly the cost of their componentwise maximum |
| `Metering.CostMonotone` | internal/domain/budget.go:218-246 | Under a gradual price a larger usage never costs less, inclusion rules and rounding included |
| `Metering.ChargedIgnoresOrderAndDuplicates` | internal/application/dispatch.go:540-586 | Under a gradual price two accepted report sequences with the same usages are charged the same, whatever their order and repetitions |
| `Metering.OrderIgnoredExactly` | internal/application/dispatch.go:489-497 | For a price whose cost of a million units the ledger can hold: charges ignore order and duplication if and only if, for each inclusion rule, the unit price of the whole rounded up is at most the unit price of the part rounded down |
| `Metering.ChargedIsLargestPrefix` | internal/application/dispatch.go:556-586 | Under any price the charge is the largest cost any prefix of the reports had |
| `Metering.OrderMattersUnderInclusion` | internal/domain/budget.go:218-233 | Two concrete reports charged differently in the two orders under a price that is not gradual |
| `Metering.WithinFourUnits` | internal/domain/budget.go:218-246 | The charge is at least the exact price and less than four units above it |
| `Metering.MergeAdmits` | internal/domain/budget.go:218-233 | Merging reports never breaks cached within input or reasoning within output |
| `Metering.CumulativeIsLeast` | internal/adapters/postgres/queries/dispatch.sql:80-85 | The running maximum is the least usage above every report that carried counters |
| `Metering.MetersAreSound` | internal/application/dispatch.go:509-601 | In every run each dispatch was charged the largest cost of a prefix of its accepted reports and, under a gradual price, the cost of their maximum |
| `Archive.CheckEntries` | internal/domain/archive.go:177-254 | The entry loop passes exactly when every name is contained, none is a link or special file, no two paths (entries or ancestors) differ only by case, none is both file and directory and no file repeats |
| `Archive.AcceptedIsConsistent` | internal/domain/archive.go:154-175 | Adding the entries to the index succeeds if and only if they are pairwise consistent |
| `Archive.AcceptanceIgnoresOrder` | internal/domain/archive.go:154-175 | Acceptance depends on the bag of entries only, not on their order |
| `Archive.ContainedIsPlain` | internal/domain/archive.go:117-137 | An accepted path is not empty and has no empty, dot or upward segment, no backslash and no NUL |
| `Archive.PathSet.Add` | internal/domain/archive.go:154-175 | One entry and each of its ancestors enter the index in place, or the first collision refuses it |
| `Obligations.KeyReadsBack` | internal/application/obligations.go:31-62 | A key parses back to its class and identity exactly when the identity is not empty and has no slash; otherwise it is refused |
| `Obligations.ParsedIsKey` | internal/application/obligations.go:51-62 | Whatever parses is the key of what it parsed to |
| `Obligations.KeysAreDistinct` | internal/application/obligations.go:31-31 | Two obligations never share a key |
| `Values.AddInt64Exact` | internal/domain/budget.go:82-88 | The overflow comparison answers the sum if and only if it is representable in 64 bits |
| `Rules.AllowedExactly` | internal/domain/dispatch.go:182-309 | The checks let a call through if and only if the rows allow it: its attempt runs in time under the current epoch, lease and instance, admission is open, price, authority or grant and replacement are in force, the operation is funded without overspend, its allocations have room and its caps hold |
| `Rules.CapsExactly` | internal/domain/finance.go:97-137 | The caps pass if and only if the tenant cap and the project cap have room for the exposure and the operation cap, its own project before the tenant-wide one, covers reserved plus consumed plus exposure of every allocation; where caps are required each level has one |
| `Rules.PreparesExactly` | internal/application/dispatch.go:184-251 | A new call is prepared if and only if the rules allow it and no counter overflows; the record is what was requested and every counted cap of its tenant and project holds the exposure more |
| `Rules.AuthorizesExactly` | internal/application/dispatch.go:274-323 | A prepared call is authorized if and only if the request is the one recorded and the rules still allow it under the frozen price, with nothing more to reserve |
| `Rules.AskedAgainExactly` | internal/domain/dispatch.go:351-399 | A call asked for again goes on if and only if its record is prepared and the request is the one recorded, a model call for the provider and model of its frozen price; asking changes nothing |
| `Rules.SendsAreAllowed` | internal/domain/finance.go:51-58 | In every run what is prepared or authorized was allowed by the rules at that moment and, unless its price is free, every counted cap of its tenant and project has reserved plus consumed at most its ceiling afterwards |
| `Rules.PermissibleExactly` | internal/domain/effect.go:144-210 | The checks let a mutation through if and only if the rows allow it: in time under the current epoch, within the deadlines of operation, attempt and lease, admission open, a pooled business write under the held lease, a publication of the approved and reviewed subject, an activation of a subject published to both targets |
| `Rules.ProposesExactly` | internal/application/effects.go:158-228 | A new mutation is prepared if and only if the rules allow it; its record is what was requested, found by its command and its occurrence |
| `Rules.PermitsExactly` | internal/application/effects.go:240-286 | A prepared mutation is permitted if and only if the request is the one recorded and the rules still allow it; nothing but its row changes then |
| `Rules.ProposedAgainExactly` | internal/domain/effect.go:251-282 | A mutation asked for again goes on if and only if its record is prepared and every field of the request is the one recorded; asking changes nothing |
| `Metering.OutcomeWasReported` | internal/domain/dispatch.go:429-448 | In every run the outcome of an observed call was reported, with its usage, when the call was observed, and no later report changed it |
| `Metering.ReportIsRecorded` | internal/application/dispatch.go:509-601 | The first definite report of a call under way, with its usage, is recorded as it says; without usage it is refused; an unknown outcome leaves the call unknown |
| `Metering.NotSentWasConfirmed` | internal/domain/dispatch.go:454-473 | In every run a call confirmed not sent was confirmed so, by its owner or a disposition, on the evidence its record names |
| `Metering.ExposureStep` | internal/application/dispatch.go:603-626 | Exactly when the finance state stays truthful: after any transaction an unknown call still has the exposure of its operation marked unknown, unless the transaction gave the operation another share |
| `Metering.ExposureIsTruthful` | internal/application/dispatch.go:603-626 | In every run that gives an operation no share while a call of it is unknown, an unknown call means an unknown exposure |
| `Metering.SettlingEndsExposure` | internal/application/dispatch.go:616-622 | A definite outcome or a confirmation leaves the exposure unknown only while another call is unknown |
| `Settlement.CloseEndsExactly` | internal/domain/attempt.go:285-317 | An effective close leaves the operation reconciling while anything of it is open, canceled under a cancel, running when it has more steps, and otherwise succeeded if and only if the attempt completed, was cleaned up and its result certified, failed if not; any other close changes no operation and no attempt |
| `Settlement.SuccessAlwaysCertified` | internal/domain/attempt.go:310-315 | In every run a single-step operation that succeeded has an attempt closed completed and cleaned up whose verdict is certified |
| `Settlement.SettlesExactly` | internal/application/execution_settlement.go:164-259 | The first settle command is accepted if and only if no attempt is open and no other intent is stored; it stores its intent and ends the operation as intended, or canceled under a cancel, if nothing is open, and otherwise leaves it reconciling |
| `Settlement.FreesExactly` | internal/application/execution_settlement.go:19-45 | The permits of an operation are freed, and no other, if and only if it ended, every attempt of it is closed and nothing of it is open |
| `ReleaseHistory.OutcomeWasReported` | internal/domain/effect.go:309-330 | In every run, restorations included, an effect that succeeded or failed was observed by a report, or resolved by a disposition, that says so and names the receipt of the record |
| `ReleaseHistory.ReportIsRecorded` | internal/application/effects.go:333-366 | The first definite report, with its receipt, of what was permitted or is unknown is recorded exactly as it says; without a receipt it is refused; an unknown outcome leaves it unknown |
| `ReleaseHistory.DecisionIsRecorded` | internal/application/recovery_disposition.go:144-205 | A disposition of an open mutation leaves exactly the state it decided, with its evidence |
| `ReleaseHistory.ReviewWasReported` | internal/domain/release.go:343-352 | The review an approval stands on was reported to have registered exactly the approved subject |
| `ReleaseHistory.ConsistentAlways` | internal/domain/release.go:430-451 | In every run a recorded release says what its state needs: no target sent without an approval of its subject, nothing activated without both publications, receipts of the subject delivered where it says, a failure named |
| `Reopening.ReopeningIsDefinite` | internal/application/recovery_enumeration.go:170-239 | In every history, when a run reopens, everything the inventory held at its beginning, covered and in scope, is decided by a disposition or its record is present and definite: no call authorized or unknown, no mutation permitted or unknown, no launch with an open attempt |
| `Reopening.ReopeningLifts` | internal/application/recovery.go:300-342 | In every history the step that reopens a run lifts exactly its closure; admission of a tenant is then closed if and only if another run closes it |
| `Reopening.FencingAlways` | internal/application/recovery.go:80-166 | In every run each recovery run holds the open closure of its scope until it reopens and none after, and two open closures are of two tenants |
| `Reopening.ReopensExactly` | internal/application/recovery.go:300-342 | The gate opens if and only if every class was read through and every finding is settled; it lifts the closure of its run and no other, and otherwise none |
| `Reopening.AdmissionReopens` | internal/adapters/postgres/queries/recovery.sql:80-90 | After a run reopened, a tenant is closed if and only if an open closure of another run covers it |
| `Reopening.BeginsExactly` | internal/application/recovery.go:80-166 | A new command begins its run if and only if no open closure meets its scope and its window is one; the run is recorded as commanded, its scope closed, every class unread |
| `Reopening.DisposesExactly` | internal/application/recovery_disposition.go:38-236 | A decision is taken once per obligation, if and only if it applies to the class, is of the tenant and the current recovery epoch, and the obligation takes the change; its finding is then disposed unless it was settled |
| `Gates.SubmitsExactly` | internal/application/operations.go:66-184 | An operation is accepted, as asked and with nothing funded or granted, if and only if no open closure covers its tenant |
| `Gates.OpensExactly` | internal/application/execution.go:68-169 | An attempt opens if and only if its operation may work in time and admission is open and, between steps, nothing of it is open and its permit, funding and lease are held; its deadline lies within the profile window |
| `Gates.LaunchesExactly` | internal/application/execution.go:208-269 | A launch is recorded if and only if its attempt may run in time; it is bounded by the deadline of the attempt and leaves the cleanup pending |
| `Gates.ConfirmsExactly` | internal/application/execution.go:271-310 | A launch is confirmed if and only if its rules still hold; nothing else changes |
| `Gates.OneCurrentAlways` | internal/application/execution.go:319-373 | In every run an attempt has at most one current instance |
| `Gates.RegistersExactly` | internal/application/execution.go:319-373 | An instance registers if and only if its launch is confirmed; it is current if and only if its attempt has no other, and only then starts an attempt that is not closed |
| `Gates.AcceptsExactly` | internal/application/execution.go:421-501 | A verdict is recorded if and only if it comes from the current instance of a running attempt in time under the current epoch |
| `Gates.GrantsExactly` | internal/application/generation.go:138-222 | A permit is granted if and only if the operation may run and the active permits of the pool are fewer than its capacity less its reserve; the first one sets the active deadline |
| `Gates.CancelsExactly` | internal/application/operations.go:501-540 | A cancel ends an operation at once if and only if nothing of it acts or is unknown, and fences any other |
| `Gates.SendsOnExactly` | internal/domain/generation.go:166-218 | A new command is recorded, and sent on if and only if the operation can take it and is not yet what it asks for; a hold then fences at once |
| `Gates.ReceiptObeyed` | internal/domain/generation.go:225-250 | The first receipt of a pending command moves the operation exactly as the command asked, or not at all once it ended or was canceled |
| `Gates.RoundsExactly` | internal/application/preparation.go:88-220 | Questions are asked by a preparation that may work; an answer lets it run on unless it ended or is controlled |
| `Gates.LeaseReported` | internal/application/generation.go:238-278 | A new report about a lease that was not lost is taken as it says |
| `PoolShares.PoolsStayApart` | internal/application/finance.go:219-249 | In every run no two pools share a scope and the start of their period |
| `PoolShares.AllocationFundsEveryLevel` | internal/application/dispatch.go:60-139 | An accepted allocation leaves the operation with a share of a current pool of every level |
| `Barrier.RegistersExactly` | internal/application/grants.go:50-117 | A revision is registered if and only if it is well formed, not expired and new, or the repetition of one in force; a revoked one or one revoked before its registration never is |
| `Rules.OccurrenceIsTaken` | internal/application/effects.go:158-180 | A mutation whose occurrence is recorded for another command is refused |
| `Metering.RepeatIsIgnored` | internal/application/dispatch.go:509-540 | A report already applied to a call changes nothing |
| `ReleaseHistory.RepeatIsIgnored` | internal/application/effects.go:333-366 | A report already applied to a mutation changes nothing |
| `ReleaseHistory.RecordCompares` | internal/application/releases.go:42-105 | A record changes the projection of a release only at the revision it expects, and the first subject it names is the one its operation and its certified stage name |
| `Reopening.RestoredFinding` | internal/application/recovery_reconciliation.go:138-271 | A restoration settles the finding of a lost intake, leaves any other lost one to be settled by its record, and moves no other finding |
| `Reopening.RestoredIsFenced` | internal/application/recovery_reconciliation.go:283-323 | An operation that comes back admits nothing, nothing of it counts as clean or settled, and the epoch its obligation recorded is retired |
| `Barrier.RevokesExactly` | internal/application/grants.go:126-207 | A revocation is recorded once with the senders counted then, leaves a tombstone of a revision never registered, and converges if and only if no counted sender is left |
| `PoolShares.AllocationFitsPools` | internal/domain/budget.go:281-298 | Every pool an accepted allocation drew on covers the moment and is within its cap |
| `PoolShares.CreatesExactly` | internal/application/finance.go:219-249 | A pool is created empty if and only if none has its scope and period; the same terms find the one there is, other terms are refused |
| `PoolShares.CeilingsExactly` | internal/application/finance.go:254-350 | The cap of a pool and the ceiling of a cost cap are what was asked for last, and what was allotted, reserved and consumed stays |
| `Rules.RefusalIsRecorded` | internal/domain/dispatch.go:328-340 | A new call that is answered but not allowed is recorded denied with its reason and reserves nothing; while admission is closed nothing is recorded |
| `Rules.RefusalTakesBack` | internal/application/dispatch.go:274-323 | A prepared call that is answered but not authorized is denied with its reason and its reservation is given back |
| `Rules.RefusedMutation` | internal/application/effects.go:158-286 | A mutation that is answered but not allowed is recorded denied with its reason, in either transaction |
| `Reopening.RestoredAttemptIsOpen` | internal/application/recovery_reconciliation.go:327-352 | An attempt that comes back is open and certain, with no outcome |
| `DispatchSteps.StepOfRow` | internal/domain/dispatch.go:182-309 | What any transaction can do to one dispatch row: the binding stays, the state moves along the machine, its inventory state is confirmed with its consumption, it is inserted or authorized only where the admission rules hold, and a restored one is the restore of its obligation |
| `EffectSteps.StepOfRow` | internal/domain/effect.go:144-210 | The same for one effect row and the permit rules |
| `WorkSteps.StepOfWork` | internal/application/execution.go:583-684 | What any transaction can do to one operation and one attempt: who ends it and when, that a cancel dominates, that epochs never fall, that closed stays closed |
| `Application.Services.Replay` | internal/application/ports.go:20-27 | Any sequence of transactions executed by the services on the store, in place, leaves exactly the state its run reaches, so every result over runs holds of the store |
| `Dispatching.Dispatches.Prepare` | internal/application/dispatch.go:184-251 | First transaction of Admit: the same call answers its record, a denial is recorded unless admission is closed, the first eligible request reserves on every allocation and cap and records prepared; an error leaves no trace |
| `Dispatching.Dispatches.Consume` | internal/application/dispatch.go:274-323 | Second transaction of Admit: the rules run again on the locked record; it is consumed once, or denied with its reservation released |
| `Dispatching.Dispatches.MarkInventoryUncertain` | internal/application/dispatch.go:436-448 | An uncertain inventory write is recorded on a prepared record only |
| `Dispatching.Dispatches.Observe` | internal/application/dispatch.go:509-601 | A report is applied once, charges the increase of the cumulative cost, releases with a definite outcome and keeps the finance state truthful |
| `Dispatching.Dispatches.ConfirmNotSentLocked` | internal/application/dispatch.go:670-716 | A call never sent is confirmed and its reservation released, under the guard of the recovery epoch |
| `Dispatching.Dispatches.SettleFinance` | internal/application/dispatch.go:606-626 | An unknown dispatch marks the exposure unknown; once none remains the operation is funded again |
| `Dispatching.Dispatches.SettleMoney` | internal/application/dispatch.go:572-597 | The increase is charged and the reservation of a settled call released on all allocations and caps, or nothing is saved |
| `Dispatching.MaxReported` | internal/adapters/postgres/queries/dispatch.sql:80-85 | The loop over reports computes the running maximum |
| `Dispatching.MeterReport` | internal/application/dispatch.go:552-586 | The meter after a report and the increase it charges |
| `LockedBudgets.LockedBudget.Move` | internal/application/budget.go:42-97 | The loops over allocations and counted caps, in place, are the movement of the budget; the first refusal is the answer |
| `LockedBudgets.LockedBudget.Save` | internal/application/budget.go:99-113 | Saving the objects writes exactly the moved budget and nothing else |
| `LockedBudgets.Lock` | internal/application/budget.go:19-29 | The locked objects are the rows the database holds for the operation: its allocations and every cap that binds it |
| `Accounts.Allocation.Reserve` | internal/domain/budget.go:322-337 | In place and exactly: refused without a change, or the reservation added |
| `Accounts.Allocation.Restore` | internal/domain/budget.go:344-355 | A lost reservation is held again without a cap check |
| `Accounts.Allocation.Release` | internal/domain/budget.go:359-366 | At most what is reserved is released |
| `Accounts.Allocation.Charge` | internal/domain/budget.go:372-388 | The delta is consumed even beyond the reservation; a release asked for with it may still be refused |
| `Accounts.Allocation.ReturnUnspent` | internal/domain/finance.go:176-181 | The unspent part, never negative, and only with nothing reserved |
| `Accounts.CostCap.Reserve` | internal/domain/finance.go:66-74 | A cap follows the reservation it shadows, and a restored one alike |
| `Accounts.CostCap.Release` | internal/domain/finance.go:76-79 | Never refuses and never goes below zero |
| `Accounts.CostCap.Charge` | internal/domain/finance.go:81-89 | A cap follows the charge it shadows |
| `Accounts.BudgetPool.Allocate` | internal/domain/budget.go:281-298 | A pool allots within its period, currency and cap |
| `Accounts.BudgetPool.Return` | internal/domain/finance.go:184-191 | A pool takes back at most what it allotted |
| `Accounts.Priced` | internal/domain/budget.go:218-246 | The loop over the four categories computes the cost, rounded up per category, or refuses |
| `Accounts.ChooseCaps` | internal/domain/finance.go:97-109 | Whatever the order of the caps, the operation cap of the own project wins over the tenant-wide one |
| `Accounts.CheckListedCaps` | internal/domain/finance.go:97-137 | The level loop over the caps in any order is the check of the caps that bind |
| `Accounts.MaxHeld` | internal/domain/finance.go:110-115 | The loop computes the largest reserved plus consumed of the allocations |
| `Entities.DispatchEntity.Consume` | internal/domain/dispatch.go:403-409 | Only a prepared record is consumed |
| `Entities.DispatchEntity.Deny` | internal/domain/dispatch.go:413-419 | Only a prepared record is denied |
| `Entities.DispatchEntity.Observe` | internal/domain/dispatch.go:429-448 | An observed call keeps its first outcome; a definite outcome needs usage |
| `Entities.DispatchEntity.ConfirmNotSent` | internal/domain/dispatch.go:454-473 | Refused once cost or usage was reported |
| `Entities.EffectEntity.Permit` | internal/domain/effect.go:286-292 | Only a prepared effect is permitted |
| `Entities.EffectEntity.Deny` | internal/domain/effect.go:295-301 | Only a prepared effect is denied |
| `Entities.EffectEntity.Observe` | internal/domain/effect.go:309-330 | A settled effect keeps its outcome; a definite outcome needs its receipt |
| `Entities.EffectEntity.ConfirmNotSent` | internal/domain/effect.go:335-348 | Refused for a settled effect |
| `Entities.OperationEntity.Transition` | internal/domain/operation.go:394-411 | Every committed change bumps the revision |
| `Entities.OperationEntity.Fence` | internal/application/recovery.go:173-185 | The execution identity is retired under the recovery epoch |
| `Entities.OperationEntity.ApplyCancelFence` | internal/domain/operation.go:513-525 | A quiescent operation is canceled at once, another is fenced |
| `Entities.OperationEntity.SettleClose` | internal/domain/attempt.go:285-317 | The lifecycle, control and cleanup an attempt close leaves |
| `Entities.OperationEntity.KeepReconciling` | internal/application/execution.go:649-663 | An open obligation keeps the operation reconciling and an applied cancel pending |
| `Entities.OperationEntity.Settle` | internal/domain/generation.go:265-290 | The business outcome, dominated by a cancel, refused under an unknown cleanup |
| `Entities.OperationEntity.ApplyControl` | internal/domain/generation.go:225-250 | A relay receipt moves hold, resume and definition only, never past an end or a cancel |
| `Entities.OperationEntity.RecordLease` | internal/domain/generation.go:113-148 | A reentry changes nothing, a lost lease never returns, a confirmed expiry never moves back |
| `Financing.Accountant.Allocate` | internal/application/dispatch.go:60-139 | One allocation per current pool of each level, once, or nothing |
| `Financing.Accountant.CheckLevels` | internal/application/dispatch.go:63-81 | Exactly one current pool of every level, by the loop over the pools |
| `Financing.Accountant.DrawEach` | internal/application/dispatch.go:97-118 | The loop draws once from every pool that holds no share yet |
| `Financing.Accountant.CreatePool` | internal/application/finance.go:219-249 | A pool is unique in scope and period, and the same terms find it again |
| `Financing.Accountant.AdjustPool` | internal/application/finance.go:254-282 | A lower cap takes nothing back |
| `Financing.Accountant.SetCap` | internal/application/finance.go:303-350 | A new cap starts with zero counters, an existing one keeps them |
| `Financing.Accountant.SettleFinance` | internal/application/finance.go:372-455 | A terminal operation with nothing held settles, its unspent money back in its pools |
| `Financing.Accountant.ReturnEach` | internal/application/finance.go:421-445 | The loop returns every allocation that has no entry yet, in turn |
| `Executing.Executor.OpenAttempt` | internal/application/execution.go:68-169 | An attempt opens only past the bootstrap gate and inside the deadlines |
| `Executing.Executor.PrepareLaunch` | internal/application/execution.go:208-269 | A launch obligation is recorded and the cleanup becomes pending |
| `Executing.Executor.ConfirmLaunch` | internal/application/execution.go:271-310 | The launch rules run again before the confirmation |
| `Executing.Executor.RegisterInstance` | internal/application/execution.go:319-373 | The first instance of an attempt is the current one; a closed attempt is not reopened |
| `Executing.Executor.AcceptResult` | internal/application/execution.go:421-501 | One verdict per attempt, from its current instance under the current epoch |
| `Executing.Executor.CloseAttempt` | internal/application/execution.go:583-684 | The close denies what is prepared with its reservation released, settles attempt and operation, and frees permits; an error leaves no trace |
| `Executing.Executor.DenyPrepared` | internal/application/execution.go:619-647 | The loop denies each listed row and releases its reservation |
| `Executing.Executor.SettleTerminal` | internal/application/execution_settlement.go:19-45 | Permits of a terminal operation are freed once nothing of it is open |
| `Executing.Executor.ReleaseAll` | internal/adapters/postgres/queries/generation.sql:24-26 | Every permit of the operation and no other is released |
| `Executing.Executor.Settle` | internal/application/execution_settlement.go:164-259 | The business outcome settles, or its intent is stored while an obligation is open |
| `Executing.Executor.SettleFromIntent` | internal/application/execution_settlement.go:69-119 | The stored intent is re-applied once the last obligation resolved |
| `Executing.Executor.ReconcileSettlements` | internal/application/execution_settlement.go:123-156 | The sweep over a list applies each in turn and passes over a refusal |
| `Executing.Controller.Submit` | internal/application/operations.go:66-184 | An accepted operation is recorded once, and intake is refused while a recovery run has closed the tenant |
| `Executing.Controller.SubmitCancel` | internal/application/operations.go:501-540 | A cancel fences or, for a quiescent operation, ends it |
| `Executing.Controller.SubmitControl` | internal/application/operations.go:433-500 | A control command is recorded once and fences a hold at once |
| `Executing.Controller.RecordCommandRelay` | internal/application/generation.go:347-391 | A late receipt is rejected once an end or a cancel came between |
| `Executing.Controller.RecordLease` | internal/application/generation.go:238-278 | A lease report changes the operation once per occurrence |
| `Executing.Controller.RequestPermit` | internal/application/generation.go:138-222 | A permit while the pool has room, and the active deadline with the first |
| `Guarding.Guard.Prepare` | internal/application/effects.go:158-228 | First transaction of a permit: found by command or occurrence, or recorded prepared or denied |
| `Guarding.Guard.Consume` | internal/application/effects.go:240-286 | Second transaction of a permit: the rules run again on the persisted binding; permitted once or denied |
| `Guarding.Guard.Observe` | internal/application/effects.go:333-366 | A report of a mutation is applied once |
| `Guarding.Guard.MarkInventoryUncertain` | internal/application/effects.go:288-300 | An uncertain inventory write is recorded on a prepared effect only |
| `Guarding.Guard.RecordRelease` | internal/application/releases.go:42-105 | The projection moves by compare-and-set against the ledger rows it names |
| `Guarding.Guard.RegisterGrant` | internal/application/grants.go:50-117 | A revision is registered once; a revoked or tombstoned one is refused |
| `Guarding.Guard.BeginRevocation` | internal/application/grants.go:126-173 | The fence counts its senders; a revision never registered becomes a converged tombstone |
| `Guarding.Guard.Revocation` | internal/application/grants.go:180-207 | Converged exactly when no sender is authorized or unknown, and finally so |
| `Inventories.Inventory.Put` | internal/adapters/inventory/filesystem.go:121-204 | The first body of a key stays, the same body again is accepted, another refused |
| `Inventories.Inventory.Walk` | internal/adapters/inventory/filesystem.go:291-311 | The collected keys are exactly those of the class after the cursor, in ascending order |
| `Inventories.Inventory.List` | internal/adapters/inventory/filesystem.go:265-331 | The sorted keys cut at the limit, complete exactly when nothing was cut, with the last as the next cursor |
| `Recovering.Recoverer.Begin` | internal/application/recovery.go:80-166 | Closes the scope, fences every active operation of it and starts every class, once per command and one run per scope |
| `Recovering.Recoverer.FenceActive` | internal/application/recovery.go:128-148 | The loop fences exactly the non-terminal operations of the scope |
| `Recovering.Recoverer.StartClasses` | internal/application/recovery.go:149-153 | Every class of the run starts at the beginning, other runs keep their positions |
| `Recovering.Recoverer.Started` | internal/application/recovery.go:188-201 | A fenced run starts enumerating |
| `Recovering.Recoverer.Collect` | internal/application/recovery_enumeration.go:62-88 | The loop keeps exactly the listed objects the run covers in its scope |
| `Recovering.Recoverer.Enumerate` | internal/application/recovery_enumeration.go:31-160 | One page: read the position, list after it, commit if no other replica moved the class |
| `Recovering.Recoverer.CommitPage` | internal/application/recovery_enumeration.go:90-159 | Compare the cursor, record each candidate and move the position in one transaction, or change nothing |
| `Recovering.Recoverer.RecordEach` | internal/application/recovery_enumeration.go:103-139 | The loop adds a finding for each candidate that has none |
| `Recovering.Recoverer.Restore` | internal/application/recovery_reconciliation.go:138-271 | One lost identity comes back with its finding, or nothing changes |
| `Recovering.Recoverer.RestoreOperation` | internal/application/recovery_reconciliation.go:283-323 | A lost operation comes back reconciling with its old epoch retired |
| `Recovering.Recoverer.RestoreAttempt` | internal/application/recovery_reconciliation.go:327-352 | A lost attempt comes back under its recorded epoch |
| `Recovering.Recoverer.RestoreLaunch` | internal/application/recovery_reconciliation.go:160-181 | A lost launch comes back confirmed with its operation and attempt |
| `Recovering.Recoverer.RestoreDispatch` | internal/application/recovery_reconciliation.go:182-243 | A lost send comes back unknown, without its argument digest and effect class, and its exposure is held again |
| `Recovering.Recoverer.RestoreEffect` | internal/application/recovery_reconciliation.go:244-262 | A lost mutation comes back unknown |
| `Recovering.Recoverer.SettleFinding` | internal/application/recovery_reconciliation.go:415-438 | A finding is settled by what the records prove and a disposition is kept |
| `Recovering.Recoverer.ConfirmRestoredLaunch` | internal/application/recovery_reconciliation.go:121-134 | The inventory confirmation the database lost is recorded |
| `Recovering.Recoverer.ApplyDecision` | internal/application/recovery_disposition.go:144-205 | The change a decision makes to its obligation, once per epoch |
| `Recovering.Recoverer.Dispose` | internal/application/recovery_disposition.go:38-236 | An evidence-bound decision under the current recovery epoch settles a finding once |
| `Recovering.Recoverer.Evaluate` | internal/application/recovery.go:300-342 | The gate: enumerating, restricted or reopened with the closure lifted |

## Left out

- PostgreSQL, NATS, S3, Temporal, gRPC, telemetry and configuration: the repository is the tables, a transaction an atomic step.
- Lock order and deadlocks: a transaction is atomic here, so the order of its locks has no effect.
- Hashing, JSON, signatures and canonical forms: a digest is opaque or stands for what it digests.
- Events, relay states, phases and failure codes of an operation, and revisions of money rows: nothing here depends on them.
- Idempotency of open, launch, cancel and settle commands by their recorded command row, and retries on a duplicate key: a repeated transaction is another transaction here.
- The authority, evidence, price book, brief and artifact reads: their answers are parameters of the transactions.
- The lineage bound by an effect of a release and the candidate it records on the operation (internal/application/effects.go:105-125): the release rules are modelled without it.
- The accepted stage behind a release is a parameter: the certification read from the ledger of stages is not part of this model.
- Question texts, previews, artifact transfers and preparation rounds: only what moves the lifecycle of an operation.
- Case folding is an arbitrary function on strings; nothing about letters is assumed.
- Byte formats of an archive and gzip.
- Archive.CheckEntries: the bounds on the number of entries and on declared sizes, which the loops also check.
- Executing.Controller.Submit: the replay of a recorded command, and the checks of kind and profile before it.
- Objects in the inventory that are no obligation or do not decode: every object here was published by the application.
- The inventory key order is the order of identities inside one class.
- Durability of the file inventory (temporary files, links and synchronization).
- Several rollbacks with recoveries between them: an older database may repeat execution epochs.
- Recovering.Recoverer.SettleFinding: what the records prove is checked with the write, where the code reads it in a transaction before.
- Recovering.Recoverer.Dispose: the read before the evidence check is the parameter that says whether it found the operation; the evidence itself is not modelled.
- Recovering.Recoverer.RestoreOperation: synthetic digests of an operation restored from another record are absent values.
- Gates.BusyHoldsPermit: pools and profiles are fixed for the run.
- Executing.Executor.CloseAttempt: the list of prepared rows is a parameter checked to be the answer of the query.
