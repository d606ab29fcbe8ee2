# Pitwall spend control, verified

A Dafny model of Pitwall's spend-control kernel and of the indentation parser behind its seed
files. `dafny verify dfyconfig.toml` checks all of it.

**Admission.** `Admission.dfy` is the budget gate as a state machine: any number of clients, one
step per SQL statement, interleaved with settlements that take no lock and may raise or lower a row,
writers that bypass the gate, retention purges, and a month start that moves forward even while a
client waits. The lock holder's sum is a local that can go stale. A purged row stays in the model as
a tombstone that no statement sees. `AdmissionSafety.dfy` proves what every interleaving keeps about
money, `AdmissionIdentity.dfy` what it keeps about idempotency keys and provider calls,
`AdmissionExact.dfy` the exact conditions with the runs that show them, and `BudgetGate.dfy` is the
code itself, statement by statement, with arbitrary interference before each statement.
`Workloads.dfy` holds the rows and their guarded transitions, and `SubBudgets.dfy` the tagged
partitions in front of the gate.

**Seed parser.** `YamlText.dfy` and `YamlParser.dfy` model the lexer and the mutually recursive
block, map and list loops. `YamlRoundTrip.dfy` defines a canonical printer and inverts it line by
line; `YamlDocument.dfy` carries that down to characters.

**Control loop.** `CircuitBreaker.dfy` (with kill escalation), `SloGovernor.dfy`, `Simulator.dfy`,
`Autopilot.dfy` and `Bidding.dfy` model the parts; `ControlLoop.dfy` proves how they compose.

**Ledgers and scans.** `LeaseMutations.dfy` models renewals and patches as transactions with
rollback, beside the launch upsert that rewrites a lease; `LeaseTransactions.dfy` takes them apart
into statements under the row lock and the unique key and proves every interleaving serial.
`Reconcile.dfy`, `TruthUp.dfy` and `CostLedger.dfy` model cost truth-up, `PayloadScan.dfy` the
pre-spend payload scan. `Sorting.dfy`, `OrderedSets.dfy`, `Money.dfy` and `Options.dfy` are shared.

Code that updates things in place is a class or a method with the loops of the source, proved
against a specification function; the promises are then lemmas about that function. Money is
counted in whole micro-dollars once quantized and in exact reals before. SQL becomes named atomic
statements. The clock, the router's quotes, the policy engine, the executor, the id factory,
regular expressions and provider replies are parameters over which every theorem quantifies.

## Where the code differs from what it promises

- The gate compares the exact estimate with the budget, but the column stores it with six decimals
  (`db/migrations/0003_workloads.sql:27`). Estimates of half a micro-dollar can therefore overspend
  a budget with a sub-quantum part. `AdmissionExact.NeverOverspendsIffSound` gives the exact
  condition; both inference entry points pass quantized quotes and meet it.
- A settlement by the reconciler may exceed the reservation (`src/pitwall/reconciler/__init__.py:160-165`)
  and so the budget, and not only at once: landing between the sum and the commit of the lock holder
  it can fit what is left and still overspend (`AdmissionExact.RaiseUnderLockOverspends`).
  `AdmissionSafety.RunWithinBudget` bounds the excess of every run by its raises, and
  `AdmissionExact.OverrunBreaksBudgetIff` says exactly which raise leads to an overspend.
- The retention purge (`src/pitwall/retention/archive.py:132-137`) deletes rows together with their
  idempotency keys, so a later call with the key is new and reaches the provider again
  (`AdmissionExact.PurgeReopensKey`); with a retention shorter than a month it also lowers the
  month-to-date sum (`AdmissionExact.PurgeForgets`).
- A launch that falls back to another pod writes its first expiry and settings again, without an
  audit row (`src/pitwall/api/leases/launch.py:480-505`, called before each readiness wait,
  `src/pitwall/runpod_client/pods.py:767-768`). A renewal or patch applied in between is lost
  (`LeaseMutations.RelaunchLosesRenewal`).
- `now()` is fixed when a transaction begins, so a client that waited for the lock over a month
  boundary sums an older, larger window. This is on the safe side and part of the model.
- The seed lexer's tab check (`src/pitwall/seed.py:566-567`) inspects only leading spaces and never
  fires; the branch for a list item without text is not reachable from lexed lines, and a bare dash
  is an error.
- Truth-up is a fixpoint if and only if every window billed above the tolerance lies in the fetched
  days; otherwise the same correction is emitted on every run, though the ledger stays put.
- A blocked lane whose effective maximum is zero reports its minimum as its bid, because a zero is
  taken as absent (`src/pitwall/finops/bidding.py:584`, `Bidding.ZeroMaximumReportsMinimum`); it is not
  selected.

## Model

| member | source | states |
|---|---|---|
| `AdmissionSafety.LockInvStep` | src/pitwall/cost/budget_gate.py:189-193 | every step of every client keeps lock discipline: the advisory lock is held by exactly the client in its critical section and no transaction runs ahead of the current month |
| `AdmissionSafety.AdmissionFits` | src/pitwall/cost/budget_gate.py:224-236 | a sum and an exact estimate within the budget stay within it once the column has rounded the estimate, for every sound configuration |
| `AdmissionSafety.SumFits` | src/pitwall/cost/budget_gate.py:218-236 | when the sum is cached, taken over the month of the transaction, what passes the comparison fits the budget of the current month as it will be stored |
| `AdmissionSafety.ProjectedStep` | src/pitwall/cost/budget_gate.py:162-269 | whoever moves, live rows plus what the lock holder is still entitled to do not grow beyond the budget except by the raise of a settlement |
| `AdmissionSafety.BudgetInvStep` | src/pitwall/cost/budget_gate.py:162-269 | every statement of every client, settlement, purge, ungated insert and month advance keeps: projected sum within budget plus raises so far |
| `AdmissionSafety.RunWithinBudget` | src/pitwall/cost/budget_gate.py:162-269 | over every interleaving the live sum exceeds the budget by at most what settlements raised during the run; without a raise, not at all |
| `AdmissionSafety.RaisedIsTotal` | src/pitwall/reconciler/__init__.py:160-165 | what is called raised is the sum of the raises of the settlements of the run |
| `AdmissionExact.NeverOverspendsIffSound` | src/pitwall/cost/budget_gate.py:218-236 | runs without a raising settlement never overspend if and only if estimates are whole micro-dollars, or the budget does not round up, or the request cap is below half a micro-dollar; the other direction builds the overspending run |
| `AdmissionExact.DoomedIffProjectedOver` | src/pitwall/cost/budget_gate.py:218-269 | in every reachable state an overspend can still follow without another raise if and only if live rows plus the cached sum or uncommitted row of the lock holder exceed the budget |
| `AdmissionExact.OverrunBreaksBudgetIff` | src/pitwall/reconciler/__init__.py:160-165 | a settlement leads to an overspend, at once or when the lock holder completes, if and only if its raise exceeds what the budget leaves above the projected sum |
| `AdmissionExact.RaiseUnderLockOverspends` | src/pitwall/reconciler/__init__.py:160-165 | a run in which a raise of one fits the six left of ten and the commit of the lock holder still brings the sum to eleven |
| `AdmissionExact.TransitionIsSettlement` | src/pitwall/core/jobs.py:18-68 | every guarded transition on a ledger row is one of the settlement steps of the runs, and only the reconciler raises |
| `AdmissionExact.PurgeForgets` | src/pitwall/retention/archive.py:132-137 | a purge makes the sum forget exactly what the row cost in the month; nothing with a cutoff at or before the month start |
| `AdmissionExact.PurgeReopensKey` | src/pitwall/retention/archive.py:132-137 | a run in which the purge of a finished workload lets a second call with its key be new and reach the provider again |
| `AdmissionIdentity.IdentityInvStep` | src/pitwall/cost/budget_gate.py:194-269 | every step keeps ids and keys unique, outcomes tied to their rows, and provider calls tied to new admissions |
| `AdmissionIdentity.RunKeepsIdentity` | src/pitwall/cost/budget_gate.py:194-269 | the identity invariant holds after every interleaving |
| `AdmissionIdentity.OneRowPerKey` | src/pitwall/cost/budget_gate.py:194-206 | in every interleaving no two rows ever share an id, and of the rows still there no two share a key |
| `AdmissionIdentity.SameKeySameWorkload` | src/pitwall/cost/budget_gate.py:194-206 | two successful calls with one key return one id unless the workload of one of them was purged, and no workload is new to two calls |
| `AdmissionIdentity.LookupReplaysIff` | src/pitwall/cost/budget_gate.py:194-206 | where it is decided: a call that looks up the key of an earlier successful call is answered with the id of that call if and only if its workload was not purged |
| `AdmissionIdentity.SomeCallIsNewIff` | src/pitwall/cost/budget_gate.py:194-269 | whenever a keyed call succeeded, some call with that key returned that id as new if and only if the gate inserted the row |
| `AdmissionIdentity.ProviderCalledOncePerKey` | src/pitwall/cost/sync_gate.py:178-206 | over every run the provider is called at most once per call and per workload, only for new admissions, and once per key unless the workload of the key was purged |
| `AdmissionIdentity.OnlyNewCallsOwnRows` | src/pitwall/cost/budget_gate.py:208-236 | rejected, aborted, pending and replaying calls own no row |
| `AdmissionIdentity.ReplaysLeaveRowsAlone` | src/pitwall/cost/budget_gate.py:194-206 | a client statement changes the ledger only on behalf of a new admission, and adds at most the one row |
| `BudgetGate.Gate.InTransaction` | src/pitwall/cost/budget_gate.py:189-206 | lock, lookup, then replay or new admission; the transaction is over and the lock free on every path |
| `BudgetGate.OthersLeaveClientAlone` | src/pitwall/cost/budget_gate.py:189-269 | any run of the other clients and the environment leaves a client record, its lock and its provider calls alone and keeps all invariants |
| `BudgetGate.Gate.TryLaunchAdmission` | src/pitwall/cost/budget_gate.py:162-269 | the code itself, interrupted before every statement: budget respected at return up to raises, exactly one row for a new admission, a replay names a workload of the key, every rejection states a true reason and writes nothing |
| `BudgetGate.Gate.AdmitNew` | src/pitwall/cost/budget_gate.py:206-269 | hook if supplied, cap, sum, insert and commit in that order, each rejection with its reason |
| `BudgetGate.Gate.LaunchAndDispatch` | src/pitwall/core/inference.py:268-301 | admit, then for a new admission mark, call and record, each of which may fail: the provider hears of the call exactly when it is new and marked, and no id or client is ever sent twice |
| `BudgetGate.Gate.LookupKey` | src/pitwall/cost/budget_gate.py:194-206 | finds the row carrying the key, if any |
| `BudgetGate.Gate.SumSpend` | src/pitwall/cost/budget_gate.py:218-223 | reads the month-to-date sum of the month of the transaction |
| `BudgetGate.Gate.InsertRow` | src/pitwall/cost/budget_gate.py:237-269 | inserts the row unless its id or key clashes, in which case the transaction aborts |
| `BudgetGate.StateForStatus` | src/pitwall/cost/sync_gate.py:447-464 | a provider status is recorded as non-terminal exactly for the two in-flight statuses |
| `Workloads.WorkloadTable.GuardedTransition` | src/pitwall/core/jobs.py:18-68 | compare-and-set: wins exactly when the state is one of the sources, then writes the patched row, otherwise nothing |
| `Workloads.TerminalAbsorbs` | src/pitwall/db/repository.py:1248-1301 | a terminal row is unchanged by every later sequence of guarded attempts |
| `Workloads.GuardedEdgesOnly` | src/pitwall/workload_lifecycle.py:67-135 | whatever the interleaving, guarded attempts show only the allowed edges and losers change nothing |
| `Workloads.OneWinnerPerEdge` | src/pitwall/db/repository.py:1259-1264 | two winning attempts are the start of the row and its end: never the same edge twice |
| `Workloads.NeverQueuedAgain` | src/pitwall/workload_lifecycle.py:67-84 | a row that left the queue never returns to it |
| `Workloads.RefundOnceAndOnlyUnrun` | src/pitwall/core/inference.py:314-337 | the zero-cost refund happens at most once, only on a row that never ran, and is final |
| `Workloads.CostlierIffReconciledAbove` | src/pitwall/reconciler/__init__.py:160-165 | a guarded transition makes a row costlier exactly when the reconciler wins and settles above what the row costs |
| `Workloads.SpendLaterMonth` | src/pitwall/cost/budget_gate.py:218-222 | a later month start never raises the month-to-date sum |
| `Workloads.SpendNoCostlier` | src/pitwall/cli.py:1368-1385 | settlements that only lower rows only lower the sum |
| `SubBudgets.ValidateBudgets` | src/pitwall/cost/sub_budgets.py:53-70 | accepted exactly when tags are unique and allocations fit the total; a duplicate is reported first |
| `SubBudgets.SubBudgetGate.ValidateNewTag` | src/pitwall/cost/sub_budgets.py:156-181 | admits exactly when the tag is allocated and its history plus the estimate fits the allocation |
| `SubBudgets.SubBudgetGate.TryLaunch` | src/pitwall/cost/sub_budgets.py:183-225 | the per-tag memory equals the newly admitted estimates after every call, keyed or not, rejected or replayed; every tag stays within its allocation and all together within the total |
| `SubBudgets.TotalWithinBudget` | src/pitwall/cost/sub_budgets.py:53-70 | spends within every allocation total at most the configured budget |
| `SubBudgets.AdmitWithin` | src/pitwall/cost/sub_budgets.py:156-181 | an estimate the tag check accepts keeps every tag within its allocation |
| `YamlParser.ParseSimpleYaml` | src/pitwall/seed.py:549-556 | lex, parse one block, and reject leftover lines |
| `YamlParser.ParseYamlBlock` | src/pitwall/seed.py:587-594 | the mutually recursive loops compute the specification function |
| `YamlParser.ParseYamlMap` | src/pitwall/seed.py:597-619 | the map loop computes the specification function |
| `YamlParser.ParseYamlList` | src/pitwall/seed.py:622-652 | the list loop computes the specification function |
| `YamlParser.BlockConsumes` | src/pitwall/seed.py:587-652 | a block call strictly advances, stays in bounds and consumes only lines at or deeper than its indent |
| `YamlParser.BlockWindow` | src/pitwall/seed.py:587-652 | cutting away every line before the call and after its last line changes only the offset of the result |
| `YamlParser.BlockDependsOnConsumedLines` | src/pitwall/seed.py:587-652 | the consumed lines alone give the same value |
| `YamlParser.NoEmptyItems` | src/pitwall/seed.py:635-640 | a lexed list item always has text: the branch for an empty item is never taken |
| `YamlParser.BareDashIsNotAList` | src/pitwall/seed.py:633-640 | a bare dash is an invalid mapping line, so lists do not nest directly |
| `YamlText.StripYamlComment` | src/pitwall/seed.py:572-584 | the quote-aware scan computes the comment specification |
| `YamlText.YamlLines` | src/pitwall/seed.py:559-569 | the lexing loop computes the line specification |
| `YamlText.TabCheckNeverFires` | src/pitwall/seed.py:566-567 | lexing never fails: only spaces precede the checked prefix |
| `YamlText.TabIndentedLine` | src/pitwall/seed.py:565-567 | a tab-indented line is lexed at indent zero instead of being rejected |
| `YamlText.LexedLinesTrim` | src/pitwall/seed.py:563-569 | every lexed line is non-empty and trimmed |
| `YamlRoundTrip.ScalarRoundTrip` | src/pitwall/seed.py:671-694 | parsing a printed scalar gives back the scalar |
| `YamlRoundTrip.UnescapeEscape` | src/pitwall/seed.py:684-685 | undoubling quotes inverts doubling them |
| `YamlRoundTrip.IntRoundTrip` | src/pitwall/seed.py:688-691 | printed integers are integer literals of the same value |
| `YamlRoundTrip.HeadSplits` | src/pitwall/seed.py:664-668 | splitting a printed entry line gives back key and scalar text |
| `YamlRoundTrip.EntriesRoundTrip` | src/pitwall/seed.py:597-619 | the map loop moves a printed run of entries onto its accumulator, in order |
| `YamlRoundTrip.ItemsRoundTrip` | src/pitwall/seed.py:622-652 | the list loop moves printed items onto its accumulator, in order |
| `YamlRoundTrip.NestedRoundTrip` | src/pitwall/seed.py:587-594 | a printed nested block parses back to its value and ends where it was printed |
| `YamlDocument.SplitRendered` | src/pitwall/seed.py:560-561 | splitting a rendered document gives back its raw lines |
| `YamlDocument.LexRaws` | src/pitwall/seed.py:559-584 | lexing and comment stripping give back every printed line with its indent |
| `YamlDocument.DocumentRoundTrip` | src/pitwall/seed.py:549-694 | for every printable tree, lexing, comment stripping and parsing the printed text give back exactly that tree and consume every line |
| `YamlDocument.PrintInjective` | src/pitwall/seed.py:549-694 | two printable trees with the same text are the same tree |
| `Bidding.Evaluate` | src/pitwall/finops/bidding.py:400-468 | the whole evaluation computes the plan function |
| `Bidding.SelectLanes` | src/pitwall/finops/bidding.py:424-459 | the selection loop computes the selection function |
| `Bidding.DesiredBidMonotone` | src/pitwall/finops/bidding.py:533-539 | desired bids are non-decreasing along the price order |
| `Bidding.EligibleNonDecreasing` | src/pitwall/finops/bidding.py:500-539 | the bids of eligible lanes are non-decreasing along the sorted prices |
| `Bidding.SelectsPrefix` | src/pitwall/finops/bidding.py:424-459 | the loop selects a prefix of the eligible bids and stops only at a cap or the end |
| `Bidding.PrefixIsCheapest` | src/pitwall/finops/bidding.py:424-459 | exchange: no set of lanes is cheaper than the prefix of the same size |
| `Bidding.PlanIsOptimal` | src/pitwall/finops/bidding.py:400-468 | no other set of lanes within the count limit and total cap has more lanes, and none of the same size costs less |
| `Bidding.SelectedBidsBounded` | src/pitwall/finops/bidding.py:500-530 | every selected bid lies between its minimum and the effective maximum; ranks count up in price order |
| `Bidding.BidMovesTowardDesired` | src/pitwall/finops/bidding.py:542-569 | placed, raised, lowered and held each in exactly its case: no bid yet, below, above and allowed, within the band or a forbidden decrease |
| `Bidding.PlanWithinMax` | src/pitwall/finops/bidding.py:400-468 | no selected bid of a plan exceeds the effective maximum |
| `Bidding.UnaffordableLaneReport` | src/pitwall/finops/bidding.py:510-517 | a lane too dear reports the effective maximum, or its minimum exactly when that maximum is zero |
| `Bidding.ZeroMaximumReportsMinimum` | src/pitwall/finops/bidding.py:572-591 | a concrete lane and policy with a zero maximum where the blocked bid is the minimum |
| `Bidding.HardBlockSelectsNothing` | src/pitwall/finops/bidding.py:594-602 | a policy denial or a blocking budget decision selects nothing |
| `Bidding.PlanIgnoresOrder` | src/pitwall/finops/bidding.py:605-616 | permuting prices with distinct sort keys gives the same plan |
| `CircuitBreaker.BudgetCircuitBreaker.Evaluate` | src/pitwall/cost/circuit_breaker.py:65-122 | one evaluation moves the stored memory and answers as the transition function says |
| `CircuitBreaker.BudgetCircuitBreaker.Reset` | src/pitwall/cost/circuit_breaker.py:185-188 | back to the fresh memory |
| `CircuitBreaker.ClosedIffNoTripStored` | src/pitwall/cost/circuit_breaker.py:109-113 | after every history the breaker is closed exactly when no trip time is stored |
| `CircuitBreaker.AllowIffClosed` | src/pitwall/cost/circuit_breaker.py:124-149 | the action is allow exactly when the resulting state is closed |
| `CircuitBreaker.AllowWaitsForCooldown` | src/pitwall/cost/circuit_breaker.py:136-144 | with a forward clock an allow comes no earlier than one cooldown after every earlier trip |
| `CircuitBreaker.ClosedTripsSpaced` | src/pitwall/cost/circuit_breaker.py:124-149 | two trips from closed are at least a cooldown apart |
| `CircuitBreaker.TripRateLimit` | src/pitwall/cost/circuit_breaker.py:124-149 | k trips from closed span at least k - 1 cooldowns |
| `CircuitBreaker.HeadroomPctMonotone` | src/pitwall/cost/circuit_breaker.py:88-95 | spending more never raises the headroom percentage |
| `CircuitBreaker.NoAllowAfterHeadroomTrip` | src/pitwall/cost/circuit_breaker.py:131-167 | once tripped on headroom, no later evaluation of a month of growing spend allows, whatever the burn rates |
| `CircuitBreaker.ExhaustedBlocks` | src/pitwall/cost/circuit_breaker.py:169-178 | at or over budget every reachable breaker blocks |
| `CircuitBreaker.MaybeEscalate` | src/pitwall/cost/budget_kill_escalation.py:119-141 | the switch fires exactly when armed, blocked as required and at or below the floor, and then once |
| `CircuitBreaker.EscalationFiresIff` | src/pitwall/cost/budget_kill_escalation.py:85-116 | under the default policy, from any reachable breaker: fires exactly when mode is armed and spend has reached budget |
| `SloGovernor.DecideIsJoin` | src/pitwall/cost/slo_governor.py:144-182 | the branch cascade equals the strongest of three severities computed independently |
| `SloGovernor.P95IsNearestRank` | src/pitwall/cost/slo_governor.py:191-203 | the percentile is one of the costs, at least 95 percent are at or below it and fewer than 95 percent strictly below |
| `SloGovernor.P95Monotone` | src/pitwall/cost/slo_governor.py:191-203 | raising costs pointwise, in any order, never lowers the percentile |
| `SloGovernor.RatioMonotone` | src/pitwall/cost/slo_governor.py:185-188 | the rounded ratio is monotone in its numerator |
| `Money.RoundHalfUp` | src/pitwall/cost/slo_governor.py:185-188 | the nearest whole quantum, ties away from zero on both sides |
| `SloGovernor.EvaluateMonotone` | src/pitwall/cost/slo_governor.py:90-182 | faster burn, dearer requests and a stricter breaker never relax the pacing |
| `Simulator.WhatIfSimulator.SimulateWorkloads` | src/pitwall/cost/simulator.py:224-269 | the loop threading the running spend computes the batch function |
| `Simulator.ProjectionsChain` | src/pitwall/cost/simulator.py:232-251 | every projection starts where the previous one ended and adds its own reservation |
| `Simulator.BatchConserves` | src/pitwall/cost/simulator.py:224-269 | the batch ends at its start plus the sum of the reservations; exceeds exactly when that end is above a configured budget; fails exactly when a workload cannot be planned |
| `Simulator.VerdictIgnoresOrder` | src/pitwall/cost/simulator.py:224-269 | swapping two batches laid end to end changes neither end spend nor verdict |
| `Autopilot.AutopilotController.EvaluateHardLimits` | src/pitwall/autopilot/controller.py:284-309 | passes exactly within the action count, per-action, per-run and projected-spend limits |
| `Autopilot.AutopilotController.DecideOne` | src/pitwall/autopilot/controller.py:147-263 | the gate chain computes the decision function |
| `Autopilot.AutopilotController.Run` | src/pitwall/autopilot/controller.py:88-122 | the run loop computes the decisions of the sorted signals |
| `Autopilot.DecideExplained` | src/pitwall/autopilot/controller.py:147-263 | all gates but the last passed; applied exactly when all did; an applied action alone keeps to its cap and keeps current spend plus its reservation within the simulator budget |
| `Autopilot.AppliedIff` | src/pitwall/autopilot/controller.py:147-263 | an action is applied exactly when policy, simulated budget, limits, breaker, mode and executor all consent; gates are recorded in this order up to the first refusal |
| `Autopilot.RunRespectsLimits` | src/pitwall/autopilot/controller.py:102-122 | for every signal list and any executor: at most the action limit applied, reservations within the run cap, every outcome explained by its gates |
| `Autopilot.StoppedBreakerAppliesNothing` | src/pitwall/autopilot/controller.py:193-201 | a breaker that does not allow denies every action of the run |
| `Autopilot.RunIgnoresOrder` | src/pitwall/autopilot/controller.py:124-145 | permuting signals with distinct sort keys gives the same decisions |
| `ControlLoop.ExhaustedBudgetStopsAll` | src/pitwall/cost/circuit_breaker.py:88-178 | spend at or over budget, from any breaker history: breaker blocks, governor defers, autopilot applies nothing, bidding selects nothing, kill fires exactly when armed |
| `ControlLoop.KillNeedsExhaustion` | src/pitwall/cost/budget_kill_escalation.py:85-116 | the kill switch fires only on an exhausted budget, and then nothing is applied automatically |
| `ControlLoop.WithheldControls` | src/pitwall/cost/slo_governor.py:172-182 | while the breaker withholds allow: pacing at least throttled, nothing applied, no bid above target |
| `ControlLoop.HeadroomTripLatches` | src/pitwall/cost/circuit_breaker.py:131-167 | a headroom trip latches all those controls for the rest of a month of growing spend |
| `LeaseMutations.LeaseRepository.ReserveMutation` | src/pitwall/db/repository.py:1007-1050 | reserves a new key, recognises the same mutation, refuses another one |
| `LeaseMutations.LeaseRepository.RenewLease` | src/pitwall/db/repository.py:937-1001 | one transaction: either the whole renewal with its key and audit row, or an answer that changes nothing |
| `LeaseMutations.LeaseRepository.PatchSettings` | src/pitwall/db/repository.py:861-935 | one transaction: only the given settings change, recorded with their old values; an empty patch keeps only its key |
| `LeaseMutations.OnlyAppliedChanges` | src/pitwall/db/repository.py:875-895 | every other answer leaves the database as it was, reservations included |
| `LeaseMutations.RenewalExact` | src/pitwall/db/repository.py:971-986 | an applied renewal moves the expiry by exactly its minutes, to at most the horizon from the start of its transaction |
| `LeaseMutations.PatchExact` | src/pitwall/db/repository.py:895-935 | an applied patch sets exactly the settings it names and touches no expiry, state or other lease |
| `LeaseMutations.KeysStay` | src/pitwall/db/repository.py:1019-1050 | a bound key stays bound to one lease, operation and hash over every run |
| `LeaseMutations.KeyAppliedOnce` | src/pitwall/db/repository.py:1019-1050 | after a key was applied no later call with it is applied; it is replayed exactly when lease, operation and hash agree |
| `LeaseMutations.RetryChangesNothing` | src/pitwall/db/repository.py:955-964 | a retry of an applied call changes nothing however late, and returns the lease as it stands |
| `LeaseMutations.AuditExplainsSinceUpsert` | src/pitwall/db/repository.py:1053-1076 | over every run and for every lease, replaying the audit rows since the last launch upsert over what it wrote succeeds, old values included, and gives the current expiry and settings |
| `LeaseMutations.AuditExplainsLeaseIff` | src/pitwall/api/leases/launch.py:480-505 | the audit explains a lease throughout a run from its initial values if and only if no launch upsert discarded an applied change |
| `LeaseMutations.ExpirySinceUpsert` | src/pitwall/db/repository.py:971-986 | over every run the expiry is what the last launch upsert wrote plus the minutes of the renewals applied since |
| `LeaseMutations.ExpiryIsSumOfRenewalsIff` | src/pitwall/db/repository.py:971-986 | over every run the expiry is the initial one plus all applied minutes plus what upserts shifted, so the renewals add up exactly when the shifts cancel out |
| `LeaseMutations.RelaunchLosesRenewal` | src/pitwall/api/leases/launch.py:480-505 | a run in which a renewal applied while the first pod boots is lost to the fallback launch, stays in the audit, and cannot be retried |
| `LeaseMutations.OneAuditRowPerKey` | src/pitwall/db/repository.py:1053-1076 | over every run no two audit rows carry one key, and each matches what its key is bound to |
| `LeaseTransactions.OthersKeep` | src/pitwall/db/repository.py:875-895 | one statement of a transaction leaves the rows and keys that every other open transaction relies on alone |
| `LeaseTransactions.MoveRefines` | src/pitwall/db/repository.py:948-1001 | each statement changes the committed data as its atomic call does or not at all, and the answer it settles is the answer of that call |
| `LeaseTransactions.RunsAreSerial` | src/pitwall/db/repository.py:861-1001 | every interleaving of the statements, lost connections included, leaves the data of the atomic calls in the order of their effects, and every answer is that of its place in the order |
| `LeaseTransactions.InterleavedExpiryAddsUp` | src/pitwall/db/repository.py:971-986 | over every interleaving of the statements the expiry adds up as for atomic calls |
| `Reconcile.AggregateRecorded` | src/pitwall/cost/reconcile_cost.py:304-312 | the loop sums the rows of every window |
| `Reconcile.AggregateActuals` | src/pitwall/cost/reconcile_cost.py:315-325 | the loop sums amounts and collects the sources of every window |
| `Reconcile.ReconcileCost` | src/pitwall/cost/reconcile_cost.py:250-282 | the loop over sorted windows computes the plan |
| `OrderedSets.SortedSet` | src/pitwall/cost/reconcile_cost.py:266-266 | sorting a set gives its one increasing listing |
| `TruthUp.PlanCorrectsExactly` | src/pitwall/cost/reconcile_cost.py:266-282 | the plan is strictly increasing in its windows, has no zero entry, and corrects exactly the windows whose drift exceeds the tolerance, from recorded to actual |
| `TruthUp.PlanConservesMoney` | src/pitwall/cost/reconcile_cost.py:178-183 | recorded total plus total adjustment differs from the actual total by at most tolerance times the unadjusted windows; by nothing at zero tolerance |
| `TruthUp.PlanIgnoresOrder` | src/pitwall/cost/reconcile_cost.py:304-325 | reordering rows on either side gives the same plan |
| `TruthUp.PlanIgnoresSplits` | src/pitwall/cost/reconcile_cost.py:304-325 | splitting a row in two on either side gives the same plan |
| `CostLedger.CostDaily.FetchRecordedWindows` | src/pitwall/cost/reconcile_cost.py:217-227 | the rows of the day range in window order; an empty range is an error |
| `CostLedger.CostDaily.ApplyAdjustments` | src/pitwall/cost/reconcile_cost.py:229-247 | every corrected window is set to the amount of the provider |
| `CostLedger.TruthUpCostDaily` | src/pitwall/cost/reconcile_cost.py:285-301 | fetch, reconcile, apply, return the plan; an empty range changes nothing |
| `CostLedger.TruedUpAt` | src/pitwall/cost/reconcile_cost.py:229-247 | a window ends at its actual amount exactly when its drift exceeded the tolerance and is untouched otherwise |
| `CostLedger.RangeMatchesActuals` | src/pitwall/cost/reconcile_cost.py:285-301 | after truth-up every window of the range is within one tolerance of its actual amount |
| `CostLedger.TruthUpFixpointIff` | src/pitwall/cost/reconcile_cost.py:285-301 | reconciling again gives no corrections if and only if every window billed above the tolerance lies in the fetched days |
| `CostLedger.SecondTruthUpChangesNothing` | src/pitwall/cost/reconcile_cost.py:285-301 | a second truth-up never changes the ledger |
| `CostLedger.OutsideBillRecurs` | src/pitwall/cost/reconcile_cost.py:285-301 | a concrete bill outside the range that is corrected again on every run |
| `PayloadScan.Recorder.Record` | src/pitwall/audit/sixteen_check.py:514-538 | the decision is kept even when the finding list is full |
| `PayloadScan.Recorder.RedactPattern` | src/pitwall/audit/sixteen_check.py:483-511 | records every match in order and replaces exactly the matches |
| `PayloadScan.Recorder.ScanString` | src/pitwall/audit/sixteen_check.py:430-480 | secret fields give one blocking finding; otherwise each rule sees what the rules before it left |
| `PayloadScan.Recorder.ScanValue` | src/pitwall/audit/sixteen_check.py:384-427 | the mutating recursion refines the fold over leaves in sorted-key order |
| `PayloadScan.ScanPreSpendPayload` | src/pitwall/audit/sixteen_check.py:351-379 | the findings are the first ones of the full list and the decision is the strongest over the full list, even after truncation |
| `PayloadScan.ShapeKept` | src/pitwall/audit/sixteen_check.py:393-427 | redaction keeps arrays, scalars and keys; only strings change |
| `PayloadScan.ScanIgnoresInsertionOrder` | src/pitwall/audit/sixteen_check.py:403-415 | findings, decision and redacted tree do not depend on key insertion order at any depth |
| `PayloadScan.AllowMeansClean` | src/pitwall/audit/sixteen_check.py:366-379 | allow exactly when nothing at all was found, and then nothing but key order changed |

## Left out

- HTTP, RunPod, Redis and Postgres wire calls, CLI, TUI, configuration loading, notifications,
  metrics and webhooks: they surround the kernel without deciding anything in it.
- YamlDocument.DocumentRoundTrip: the printer's trees exclude double-quoted and JSON scalars, floats
  and strings with line breaks, whose conversion is left to `json.loads` and `float`, and list items
  that open with a nested value, which the parser merges into the item
  (`src/pitwall/seed.py:641-648`). Non-ASCII digits and the BOM are not modelled.
- AdmissionIdentity.SameKeySameWorkload: a purge is any deletion of a terminal row older than a
  cutoff; batches, the encrypted archive file and related tables are not part of this model.
- Reuse of workload ids: the id factory is taken to be fresh.
- Workloads.TerminalAbsorbs: covers guarded updates only. Synchronous inference rows are updated
  without a state guard (`src/pitwall/cost/sync_gate.py:38-80`), as is the cancel path in
  `src/pitwall/api/routes/jobs.py:135`.
- SubBudgets.SubBudgetGate.TryLaunch: covers calls that do not overlap on one gate object; the
  in-memory total is written from an earlier read (`src/pitwall/cost/sub_budgets.py:204-224`). An
  external spend resolver and the chargeback report are not part of this model.
- CircuitBreaker.BudgetCircuitBreaker.Evaluate: percentages, runways and ratios are exact; the
  28-digit decimal context and its overflow are not modelled, nor is the rejection of a timestamp
  without a zone.
- Autopilot.RunRespectsLimits: bounds outcomes reported as applied, not executor calls, as the code
  does.
- Reason texts of the governor, the autopilot gates and the kill escalation; only what they decide is
  kept.
- LeaseTransactions.RunsAreSerial: rests on what the row lock and the unique key of the database
  promise. `update_expires_at`, which has no callers, actors, endpoints and readiness are not part of
  this model, and leases are never deleted.
- PayloadScan.Recorder.ScanString: each rule is any way of cutting a text into matches; the regular
  expressions, the secret field names, the rendering of paths and the hash are parameters or
  constructors. Mapping keys are strings, as in JSON.
- The idempotency table of the synchronous path and its body hash
  (`src/pitwall/cost/sync_gate.py:163-177`): the key is reserved against a placeholder there, so the
  lookup promises nothing about the workload.
- `NUMERIC(12,6)` overflow, string-emptiness checks of records, and the workload counts of cost rows.
- The placeholder lists that `transition_workload` and `guarded_transition` build: the statement they
  produce is modelled, not its text.
- The cost estimator, the router, the policy engine, forecasting, the source-inspecting audit checks
  and the plain repositories: they would add easy members or are behind quantified parameters.
