# Brave collection engine: a Dafny model

Brave collects tourist attractions with Celery workers that share Redis counters, flags and
caches. This project models the protocols that live in those counters, flags and caches, and two
transformations, and proves what holds of them over every input, run or interleaving.

`dafny verify dfyconfig.toml` checks everything.

## What is modelled

| file | what |
|---|---|
| `Engine.dfy` | the run lifecycle with atomic verbs: a class over the engine's Redis keys and `runs_history` rows, each verb proved to be a function of the state |
| `EngineVerbs.dfy`, `EngineStarts.dfy` | what each verb answers and writes, key by key; what a start leaves, and what its plan decides at the end |
| `EngineTraces.dfy` | any sequence of atomic verbs over any number of generations: isolation of generations, the `runs_history` ledger, the reasoned pause |
| `EngineCommands.dfy` | one generation with every Redis command its own step, a program counter per participant, any number of producers, operators at any moment; its invariant |
| `EngineSolo.dfy` | the commands of a verb run without interruption are the atomic verb |
| `EngineRace.dfy` | what every interleaving guarantees, and exactly when completion comes too early |
| `EngineStragglers.dfy` | any number of generations at command level: participants of replaced runs, stopped between any two commands by the start, go on with the new run's keys |
| `CostGuard.dfy` | the per-UTC-day spend keys, totals, the zero floor, settlement and the checks |
| `CostGuardBooks.dfy` | what each call of the guard moves, counter by counter, and what each check lets through |
| `SpendLedger.dfy` | reservations settled up to days later; the floor in sequence and under interleaving |
| `PlacesCap.dfy` | check, call, record by several workers: how far a cap can be overshot |
| `RampGate.dfy` | the send-path gate and its INCR-then-undo ramp |
| `RampAnswers.dfy` | the gate condition by condition, and the ramp's tallies command by command |
| `ApifyRuns.dfy` | one actor run per lookup: start with retries, polls, items, and the settlement on every way out |
| `ApifyReplies.dfy` | a lookup told from the replies: retries, proofs that no run exists, prices, charges |
| `HybridPlaces.dfy` | prefetched lots, the caches and failure marks, search and details |
| `HybridAnswers.dfy` | its answers field by field, its ids, queries and keys, and which candidate is picked |
| `TerritorialFixes.dfy` | the manifest run, entry by entry, and its merges: dry run against `--apply` |
| `TerritorialEntries.dfy` | its entries in the letters of the manifest: what is a merge, what is refused, who is a twin |
| `TerritorialReadings.dfy` | the nine things of a record that fixes and renames look at, and a run as a fold over them |
| `TerritorialRuns.dfy` | when the dry run foretells `--apply`, and what a second `--apply` does |
| `TerritorialStamps.dfy` | the stamp the outbox looks for, and a moved record's state, parent and distrito |
| `ConfigOverlay.dfy`, `ConfigCache.dfy` | the config overlay and its seed; its cache, the dirty mark and the listeners |
| `Distritos.dfy` | the one-slot bucket cache and the resolvers above it |
| `OpeningHours.dfy` | the weekday-hours encoder |
| `OpeningLines.dfy` | lines as Google writes them, letter by letter, and how every spelling is read |
| `Common.dfy` | sums, distinct elements, white space |

Money is in integer micro-dollars; time in microseconds (`CostGuard` and what uses it) or seconds.

A *steady world* (`HybridPlaces`) is one where no call fails, the same question always gets the same
answer, Google keeps its place ids, Apify's fields other than reviews do not depend on how many
reviews were asked for, and each (name, município, UF) key stands for one spot.

## Where the code differs from what it says

- `_maybe_complete` (brave/core/engine.py:358-389) calls itself race-safe. The `GETSET` makes the
  winner unique, but the in-flight read comes before the `dispatch_done` read: a producer that
  reads zero while the orchestrator is still dispatching can complete the run after a later claim.
  `EngineRace.PrematureIffHazard` gives the exact condition, `EngineRace.PrematureCompletionHappens`
  a run that ends "concluido" with a producer at work, and `EngineRace.CompletionIsSound` what holds
  without the hazard.
- A producer of a replaced run is documented as ignored (brave/core/engine.py:320-342). The token is
  read in a verb's first command only, so a participant that the start finds between two commands
  goes on with the new run's keys. `EngineStragglers.StragglersAreHarmlessIffSpent` says exactly which
  of them can do harm, `EngineStragglers.SpentStragglersAreInvisible` that the others cannot,
  `EngineStragglers.StragglerEndsTheNewRun` shows a whole run, and
  `EngineStragglers.StartDuringTheWin` that no DESLIGADO is needed.
- `start` (brave/core/engine.py:203-223) resets the keys before an invalid depth or source raises,
  keeping the old run_id: `EngineTraces.StartKeepsLedgerIffValid`,
  `EngineTraces.InvalidStartRewritesAClosedRow`.
- A daily key is to expire at UTC midnight (brave/observability/cost_guard.py:95-102), but its TTL
  is truncated to whole seconds: `CostGuard.KeyDiesWithItsDayIffWholeSecond`.
- The seed is called byte-for-byte neutral (brave/config/runtime.py:340-350). It is, exactly when
  both source keys are in the base: `ConfigOverlay.SeedIsIdentityIffSourcesListed`.
- The cache is meant to hold committed overlays. A session that reads through it between its own
  write and a rollback leaves one that was never committed: `ConfigCache.LoadThenRollback` says
  when. No caller in the repository does so: those that read with Redis
  (brave/tasks/pipeline.py:291, brave/api/routers/config.py:137, brave/api/routers/engine.py:62) have
  written nothing, and those that write (brave/api/routers/config.py:162, brave/core/engine.py:550)
  read without it. It takes the module's public functions.
- The manifest script says that the dry run judges the state after the run's merges and fixes, and
  that each action is idempotent (scripts/territorial_dedup_fixes.py:1-20). Merges are counted alike
  exactly when no entry needs a record that an earlier one drops
  (`TerritorialFixes.DryMergesAgreeIffClashFree`); a fix or a rename exactly when the record reads as
  it wants after the earlier entries as before the run (`TerritorialReadings.FixJudgedAlikeIff`,
  `TerritorialReadings.RenameJudgedAlikeIff`); the twins are judged with one overlay exactly as
  `TerritorialRuns.OverlayAlikeIff` says; and a second `--apply` is idle exactly when all that the
  manifest sets for a record agrees (`TerritorialRuns.SecondApplyOnlySkipsIffSettled`).
  `TerritorialRuns.ClearedThenNamed`, `TerritorialRuns.RepeatedRenameMiscounts` and
  `TerritorialRuns.TwoNamesNeverSettle` are inputs that fail.

## Limits of what the code promises

- The zero floor (brave/observability/cost_guard.py:105-130) under interleaving errs upwards, when
  two writers both see the counter below zero: `SpendLedger.FloorIsExactIffNoDoubleFloor` says
  exactly when, `SpendLedger.FloorMayOvershoot` shows one such run.
- The bucket cache is keyed by identity and length, as for lists that only grow. A record replaced
  in place is not seen: `Distritos.ReplacingFoolsTheCache` says when that matters.
- The hours parser reads its own output except "open_24h": `OpeningHours.ParserReadsItsOutput`.
- The refund of an Apify lookup whose reservation is stamped just before midnight and recorded just
  after it is dropped from the day: `ApifyRuns.TodayMovesByTheChargeIff`.

## Model

| member | source | states |
|---|---|---|
| Engine.Store.CurrentRun | brave/core/engine.py:282-290 | the current run's id if the given id addresses it; None for no run or another generation |
| Engine.Store.FinalizeRow | brave/core/engine.py:392-408 | writes end, units and status of that row if it exists and the database answers; no other row, no key |
| Engine.Store.SetMode | brave/core/engine.py:503-550 | the mode; DESLIGADO also goes idle, clears the latch and zeroes the counter; LIGADO and DESLIGADO clear the pause reason; the durable copy only with a session |
| Engine.Store.ResetRun | brave/core/engine.py:203-219 | closes the row of a run forced idle as "parcial", then resets every lifecycle key |
| Engine.Store.OpenRun | brave/core/engine.py:223-245 | LIGADO, the new token, and the row; a failed insert keeps the run and takes the durable mode back with it |
| Engine.Store.StartRun | brave/core/engine.py:174-245 | no-op on an active run; keys reset, then refused on a bad depth or source; else a new generation with its row |
| Engine.Store.AbortRun | brave/core/engine.py:248-254 | idle, latch off, token cleared only on the current run; the row becomes "falha" either way |
| Engine.Store.Stop | brave/core/engine.py:257-262 | stopping exactly from running |
| Engine.Store.Claim | brave/core/engine.py:297-308 | counts one producer exactly on a live, current run, and says so |
| Engine.Store.RecordProgress | brave/core/engine.py:311-317 | units and UF recorded exactly on a live, current run |
| Engine.Store.TryComplete | brave/core/engine.py:358-389 | nothing unless dispatch is done, nothing is in flight and the run has not ended; then idle, latch off, mode off unless a reason stands, row "concluido" or "parcial" |
| Engine.Store.Done | brave/core/engine.py:320-342 | ignored for None and for another generation; else failure counted, counter clamped at zero, completion tried |
| Engine.Store.FinishDispatch | brave/core/engine.py:345-351 | ignored for another generation; else dispatch marked done and completion tried |
| Engine.Store.PauseMotor | brave/core/engine.py:411-439 | PAUSADO with the reason; a pause without an action keeps the recorded one |
| EngineVerbs.CurrentIffHeard | brave/core/engine.py:282-290 | a call is heard iff a run is current and it names that run or none |
| EngineVerbs.FinalizedCloses | brave/core/engine.py:392-408 | a row that is there gets its status, units and end and keeps its plan; no other row changes |
| EngineVerbs.ClaimIs | brave/core/engine.py:297-308 | one more in flight iff the run is heard and has not ended, and nothing else |
| EngineVerbs.ProgressIs | brave/core/engine.py:311-317 | the units and, if named, the UF, exactly then |
| EngineVerbs.StopIs | brave/core/engine.py:257-262 | running becomes stopping, and says so |
| EngineVerbs.AbortIs | brave/core/engine.py:248-254 | only the current run is taken off; the named row ends "falha" with nothing dispatched |
| EngineVerbs.CompletionIs | brave/core/engine.py:358-389 | the run ends iff it is due; "concluido" iff running, LIGADO, all units dispatched and nobody failed; the motor off unless a reason stands |
| EngineVerbs.DoneIs | brave/core/engine.py:320-342 | one less in flight, never below none, one failure more if it failed, and the completion that makes due |
| EngineVerbs.FinishIs | brave/core/engine.py:345-351 | the mark, and the completion that makes due |
| EngineVerbs.ModeIs | brave/core/engine.py:503-550 | each mode's side effects, and the durable copy only with a session |
| EngineVerbs.PauseIs | brave/core/engine.py:411-439 | PAUSADO with reason, provider and time; the action named, else the one recorded |
| EngineStarts.StartAnswers | brave/core/engine.py:203-219 | when start refuses an active engine, a depth or a source |
| EngineStarts.StartedKeys | brave/core/engine.py:203-225 | every key of a started run; the plan is units_total, else one unit a UF; depth and source only for a sweep |
| EngineStarts.StartedRow | brave/core/engine.py:226-245 | every column of its row; a failed insert takes the durable mode back |
| EngineStarts.StartedClosesThePrevious | brave/core/engine.py:205-209 | of the other rows only that of a run forced idle changes, to "parcial" with its units |
| EngineStarts.ConcluidoMetThePlan | brave/core/engine.py:212-389 | under every interleaving a row "concluido" dispatched at least the units_total of its request, or one unit a UF without it |
| EngineStarts.CompletionTellsThePlan | brave/core/engine.py:358-389 | from every reachable state a completion writes "concluido" iff it finds the run running, LIGADO, without failures and with that plan met, else "parcial" |
| EngineStarts.RunOfOneProducer | brave/core/engine.py:174-389 | a whole run of one producer that dispatches n units ends "concluido" iff n meets the plan |
| EngineStarts.OnePageIsPartial | scripts/ta_bulk_sweep.py:146-155 | one page of a bulk sweep of 334 does not meet its plan |
| EngineTraces.StaleCallIsInert | brave/core/engine.py:282-351 | a participant's call for another generation, or producer_done(None), changes nothing and is refused |
| EngineTraces.StaleCallsAreErasable | brave/core/engine.py:174-351 | deleting every stale call of any trace leaves the same keys, the same rows and the same results of all other calls |
| EngineTraces.OldGenerationsStayOld | brave/core/engine.py:223-225 | with fresh uuids, a generation that is not current never is again |
| EngineTraces.StragglersChangeNothing | brave/core/engine.py:282-351 | whatever the producers of replaced runs still do, the trace without them ends in the same state, DESLIGADO and restarts included |
| EngineTraces.LedgerStep | brave/core/engine.py:174-254 | one disciplined verb keeps the ledger |
| EngineTraces.LedgerAlwaysHolds | brave/core/engine.py:174-254 | at every reachable state the only row "running" is the current, not-ended run's, and every other row carries its end |
| EngineTraces.RowsChangeLegally | brave/core/engine.py:392-408 | a row is inserted by its start, closed while running by its completion, by abort or by the next start, and by nothing else |
| EngineTraces.TerminalRowsAreFinal | brave/core/engine.py:392-408 | once a row has a terminal status, no continuation of the trace changes it |
| EngineTraces.StartKeepsLedgerIffValid | brave/core/engine.py:203-223 | a start keeps the ledger if and only if its depth and source are valid |
| EngineTraces.InvalidStartRewritesAClosedRow | brave/core/engine.py:203-223 | a run in which a start that raises lets a completed row be rewritten |
| EngineTraces.AbortAfterCompletionOverwrites | brave/core/engine.py:248-254 | abort of a run already closed overwrites its status with "falha" |
| EngineTraces.ReasonAlwaysMeans | brave/core/engine.py:411-450 | at every reachable state a recorded reason means PAUSADO, and one is recorded iff some pause has not been removed by a start, LIGADO or DESLIGADO |
| EngineTraces.DetailAlwaysMeans | brave/core/engine.py:411-439 | the recorded reason, provider and time are the last standing pause's |
| EngineTraces.ActionAlwaysMeans | brave/core/engine.py:426-438 | the recorded action is the last action named since the last removal |
| EngineTraces.CompletionKeepsThePause | brave/core/engine.py:382-389 | a run that completes under a pause goes idle and stays PAUSADO with its reason |
| EngineCommands.OpenedHasInv | brave/core/engine.py:203-245 | a started run satisfies the command-level invariant |
| EngineCommands.StepKeepsInv | brave/core/engine.py:297-389 | every single Redis command of every participant and operator keeps it |
| EngineCommands.InvAlwaysHolds | brave/core/engine.py:297-389 | it holds along every interleaving: in-flight and failure counts, one winner, the row told, somebody on the way to a due completion |
| EngineSolo.SoloIsARun | brave/core/engine.py:297-389 | a verb run without interruption is one of the interleavings |
| EngineSolo.SoloClaim | brave/core/engine.py:297-308 | command by command, claim_producer is the atomic one |
| EngineSolo.SoloProgress | brave/core/engine.py:311-317 | likewise progress |
| EngineSolo.SoloMaybeComplete | brave/core/engine.py:358-389 | likewise _maybe_complete, keys, row and result |
| EngineSolo.SoloProducerDone | brave/core/engine.py:320-342 | likewise producer_done, failed or not |
| EngineSolo.SoloDispatchFinished | brave/core/engine.py:345-351 | likewise dispatch_finished |
| EngineSolo.SoloAbort | brave/core/engine.py:248-254 | likewise abort |
| EngineSolo.SoloOperators | brave/core/engine.py:257-439 | the operators' commands are those of stop, of a pause with a reason and of LIGADO |
| EngineRace.InFlightKeyIsExact | brave/core/engine.py:297-342 | under every interleaving the in-flight key is the number of claimed producers that have not decremented |
| EngineRace.AtMostOneVerbWins | brave/core/engine.py:380-389 | under every interleaving at most one verb returns True |
| EngineRace.NoLostCompletion | brave/core/engine.py:320-389 | with dispatch done, every claimed producer reported and no verb under way, the run has ended and its row is closed |
| EngineRace.ConcluidoMeansUninterrupted | brave/core/engine.py:372-388 | "concluido" only if a verb returned True that itself read the state running, unchanged since the start, read LIGADO, read no failure and read the plan complete |
| EngineRace.PhaseNeverReturns | brave/core/engine.py:257-267 | within a generation the state never returns to running |
| EngineRace.CompletionIsSound | brave/core/engine.py:358-389 | without the hazard, a run is marked ended only after dispatch with nothing in flight, its row, "concluido" or "parcial", holds the final count, and "concluido" means no producer reported failed |
| EngineRace.HazardIsRealized | brave/core/engine.py:370-389 | from the hazard, the verb that read zero completes the run with producers in flight, with the atomic completion's verdict |
| EngineRace.PrematureIffHazard | brave/core/engine.py:370-389 | as dispatch_done is about to be set, some continuation ends the run with a producer in flight iff one is in flight and some verb has read zero and not yet read dispatch_done |
| EngineRace.PrematureCompletionHappens | brave/core/engine.py:358-389 | a concrete run that ends "concluido" with its second producer at work |
| EngineStragglers.StragglersAreHarmlessIffSpent | brave/core/engine.py:203-389 | after a start, some interleaving lets a participant of a replaced run change a key or the row of the new one iff one of them was stopped with a command still to come that writes something |
| EngineStragglers.SpentStragglersAreInvisible | brave/core/engine.py:282-389 | with none such, whatever the old runs' participants still do, the new run goes through a run of the one-generation machine |
| EngineStragglers.NewRunKeepsItsGuarantees | brave/core/engine.py:297-389 | so its in-flight key is exact, at most one of its verbs wins, and none of its completions is lost |
| EngineStragglers.StragglerEndsTheNewRun | brave/core/engine.py:320-389 | from a flushed Redis: a producer about to DECR, DESLIGADO, a second start and its claim; the DECR lands and the second run ends "concluido" with its only producer at work |
| EngineStragglers.StartDuringTheWin | brave/core/engine.py:382-389 | a start that passes after the winner's SET idle is switched off by the winner's remaining writes |
| EngineStragglers.NothingBetweenIsAtomic | brave/core/engine.py:320-342 | with the same keys at its token read and at its writes, producer_done is the atomic one |
| EngineStragglers.CommandsAcross | brave/core/engine.py:320-342 | a producer_done split once, right after its token read, is that command on the early keys and the rest, as a block, on the late ones |
| EngineStragglers.BlockIsHarmlessIff | brave/core/engine.py:320-342 | such a block changes nothing iff the token read found another run, or it did not fail while nothing is in flight and no completion is due |
| EngineStragglers.BlockPaysTheNewRun | brave/core/engine.py:335-389 | otherwise, with producers in flight, it pays back a claim, and if that was the last one after dispatch it ends the run, leaving every row but its own old one |
| CostGuard.KeyDiesWithItsDayIffWholeSecond | brave/observability/cost_guard.py:95-102 | a key created now dies at midnight exactly on a whole second, and always within a second of it |
| CostGuard.KeyAndMidnightAgree | brave/observability/cost_guard.py:75-102 | a later instant names the same key exactly until the midnight the TTL counts down to |
| CostGuard.Store.Incr | brave/observability/cost_guard.py:105-130 | today's key moves by the signed delta, floored at zero, and never lacks an expiry; no other key moves |
| CostGuard.Store.RecordSpend | brave/observability/cost_guard.py:161-182 | a negative amount records nothing; returns the new total |
| CostGuard.Store.RecordPlacesSpend | brave/observability/cost_guard.py:197-201 | one call on its key's daily and total counters |
| CostGuard.Store.RecordApifySpend | brave/observability/cost_guard.py:263-267 | one run's charge on the daily and total counters |
| CostGuard.Store.SettleApifySpend | brave/observability/cost_guard.py:270-284 | the full signed delta on the floored total; on today's key only an overrun when booked another day |
| CostGuard.Store.ReconcileSpend | brave/observability/cost_guard.py:311-358 | the signed delta on today's key, or only the overrun of an earlier day's reservation; never below zero |
| CostGuard.PassLeavesRoom | brave/observability/cost_guard.py:133-158 | the LLM check passes iff recording what it projected leaves the day's counter under the budget |
| CostGuard.DispatchesStayUnderBudget | brave/observability/cost_guard.py:133-182 | over any number of checked and recorded dispatches the day's counter stays under the budget plus what one dispatch costs beyond its projection |
| CostGuard.Store.PreDispatchCheckPlaces | brave/observability/cost_guard.py:204-241 | raises exactly over a cap, the total's wall first; without a key only the old daily counter |
| CostGuard.Store.PreDispatchCheckApify | brave/observability/cost_guard.py:287-308 | raises exactly over a cap, the total's wall first |
| CostGuard.OmittingReservedAtIsSafeIff | brave/observability/cost_guard.py:341-357 | leaving reserved_at out is harmless iff it was booked today, nothing is refunded, or today's key is empty |
| CostGuardBooks.DayOfIs | brave/observability/cost_guard.py:75-93 | a UTC day is 86,400 seconds from the epoch |
| CostGuardBooks.UtcIs | brave/observability/cost_guard.py:75-93 | an aware time is its local time less its offset, a naive one UTC already |
| CostGuardBooks.SpendMoves | brave/observability/cost_guard.py:161-182 | a spend moves its lane's key of the day and no other; a negative one nothing |
| CostGuardBooks.PlacesSpendMoves | brave/observability/cost_guard.py:197-201 | a Places call moves its key's day and total |
| CostGuardBooks.ApifySpendMoves | brave/observability/cost_guard.py:263-267 | an Apify charge moves the day and the total |
| CostGuardBooks.SettlementMoves | brave/observability/cost_guard.py:311-358 | settled on its day, or without it, the whole difference, else only the overrun; never below zero |
| CostGuardBooks.ApifySettlementMoves | brave/observability/cost_guard.py:270-284 | likewise, with the whole difference on the total |
| CostGuardBooks.LlmCheckIs | brave/observability/cost_guard.py:133-158 | raises iff the day's spend and the projection reach the budget |
| CostGuardBooks.LaneCheckIs | brave/observability/cost_guard.py:204-308 | raises iff a cap would be exceeded, the balance wall first |
| SpendLedger.StepKeepsBalance | brave/observability/cost_guard.py:105-182 | a spend, a reservation, a settlement or time passing keeps every daily key balanced |
| SpendLedger.EveryKeyBalances | brave/observability/cost_guard.py:311-358 | at every moment of every trace each daily key is its direct spend plus same-day actuals, outstanding reservations booked that day and overruns of older ones |
| SpendLedger.SettleNeverFloors | brave/observability/cost_guard.py:105-130 | no settlement takes a balanced key below its direct spend, so the floor never fires |
| SpendLedger.RefundsEraseNothing | brave/observability/cost_guard.py:329-342 | today's key never falls under today's direct spend, nor can the next settlement make it |
| SpendLedger.ForgettingTheDayErasesSpend | brave/observability/cost_guard.py:329-342 | without reserved_at yesterday's refund erases today's spend; with it, not |
| SpendLedger.FreshKeyIsFloored | brave/observability/cost_guard.py:105-130 | a fresh key after any deltas holds the floored running value |
| SpendLedger.FlooredIsSumFromTheLowestPoint | brave/observability/cost_guard.py:105-130 | that value is the sum since the lowest point: at least the sum since any moment, equal since one |
| SpendLedger.WriteAlone | brave/observability/cost_guard.py:117-124 | a writer nobody interrupts leaves what the floored write leaves |
| SpendLedger.FloorIsSafeUnderInterleaving | brave/observability/cost_guard.py:117-124 | with INCR and correction as separate steps of many writers, counter plus pending corrections is never negative, and at rest no delta is lost |
| SpendLedger.LevelOfOneCommand | brave/observability/cost_guard.py:117-124 | counter plus corrections owed: a correction keeps it; an INCR leaves at least the floored write, and exactly that iff it does not land below zero while a correction is owed |
| SpendLedger.FloorIsExactIffNoDoubleFloor | brave/observability/cost_guard.py:117-124 | over any interleaving it is never below the same deltas in INCR order, and equal at every moment iff no INCR lands below zero while a correction is owed |
| SpendLedger.AtRestAtLeastInOrder | brave/observability/cost_guard.py:117-124 | at rest the counter is at least what those deltas leave in sequence, and exactly that when no INCR lands below zero while a correction is owed |
| SpendLedger.FloorMayOvershoot | brave/observability/cost_guard.py:117-124 | two writers that do leave more |
| PlacesCap.StepsAreTheGuards | brave/clients/places.py:350-364 | the two reads in one go are the guard's check, the two writes its record |
| PlacesCap.PricesAre | brave/clients/places.py:100-103 | the four prices and the dearest |
| PlacesCap.SpendStaysWithinTheBound | brave/observability/cost_guard.py:197-241 | with W workers, under any interleaving and across midnight, recorded plus checked spend stays within cap + (W - 1) of the dearest call, on the total and on every day's key |
| PlacesCap.OwedAtMidnight | brave/clients/places.py:415-422 | calls checked before midnight and not recorded fit the bound of the new, empty key |
| PlacesCap.AllCheckBeforeAnyRecords | brave/observability/cost_guard.py:217-241 | from any idle state with room for one dearest call, W workers that all check first add W dearest calls to the total and to the day |
| PlacesCap.TheBoundIsReached | brave/observability/cost_guard.py:217-241 | for every number of workers and every cap of a number of dearest calls, a run from empty counters reaches the bound on both |
| RampGate.Redis.CheckAndIncrementRamp | brave/compliance/gate.py:90-138 | passes exactly under the cap; a refused call leaves the counter as it was; a key first used gets an expiry |
| RampGate.Redis.SendPathGate | brave/compliance/gate.py:141-306 | the first failing condition of the nine, in order; a ramp unit is taken iff conditions 0 to 7 hold, so a RED quality keeps it |
| RampAnswers.GateOpensIff | brave/compliance/gate.py:183-292 | it opens iff the request is fit, the counter under the cap (fifty unless set) and the quality not RED; and when it stops at the ramp or at the quality |
| RampAnswers.EarlyFailureIs | brave/compliance/gate.py:183-272 | which of the earlier conditions is named |
| RampAnswers.MentionsIff | brave/compliance/gate.py:212-221 | the body mentions a word iff the word stands somewhere in it |
| RampAnswers.TalliesMove | brave/compliance/gate.py:119-138 | what each command adds to the tallies |
| RampGate.CallAlone | brave/compliance/gate.py:121-138 | an uninterrupted sender does what the sequential call does |
| RampGate.InvAlwaysHolds | brave/compliance/gate.py:90-138 | along every interleaving the counter is what passed plus the units held, units inside the cap never exceed it, and a used key has an expiry or is about to |
| RampGate.AtMostCapPass | brave/compliance/gate.py:90-138 | under any interleaving of INCR, compare and undo at most cap calls pass and at most those are sent |
| RampGate.AtRestExactlyTheCapPassed | brave/compliance/gate.py:121-138 | with nobody mid-call the counter is the number that passed, and of n calls exactly min(n, cap) did |
| RampGate.RefusedOnlyWhenTheCapIsTaken | brave/compliance/gate.py:130-136 | a sender over the cap means the cap is fully taken |
| ApifyRuns.Start | brave/clients/apify_places.py:113-163 | tries again exactly what surely started nothing, up to 3 times, or 11 on a busy limit |
| ApifyRuns.AtMostOneRunIsMade | brave/clients/apify_places.py:113-135 | at most the last attempt made a run, and a provable non-start made none |
| ApifyRuns.Match | brave/clients/apify_places.py:286-292 | each query gets the first item that answers it by search string or place id, reviewers stripped, or None |
| ApifyRuns.Follow | brave/clients/apify_places.py:258-265 | at most 16 polls, none after a terminal status, stopping at a terminal status, a failed poll or the limit |
| ApifyRuns.OneRun | brave/clients/apify_places.py:240-284 | how a run ends, when it is aborted, and what it is charged, on every way out |
| ApifyRuns.Client.Lookup | brave/clients/apify_places.py:218-297 | no queries or a wall touch nothing; otherwise one reservation and one settlement at the charge of the way out |
| ApifyRuns.SettlingBooksTheCharge | brave/clients/apify_places.py:278-284 | reserve then settle moves the total by exactly the charge, the day too when it is one day, and only the overrun on a later day |
| ApifyRuns.TodayMovesByTheChargeIff | brave/observability/cost_guard.py:270-284 | today's key moves by the charge iff the reservation was recorded today and either stamped today or not refunded, or was recorded earlier and nothing was charged or nothing reserved |
| ApifyRuns.NoRunGoesUncharged | brave/clients/apify_places.py:131-135 | nothing is charged iff the start provably failed; below the reservation only then or on success; never less than Apify billed; at most one run made |
| ApifyReplies.NeverStartedIffNoRun | brave/clients/apify_places.py:131-135 | a failed start proves that no run exists iff the reply is a connect error or timeout, or a refusal below 500 |
| ApifyReplies.RefusedIff | brave/clients/apify_places.py:113-135 | the trust asked of Apify: no run behind a reply that proves none, nor behind a busy one |
| ApifyReplies.BalanceIff | brave/clients/apify_places.py:147-151 | the balance wall iff the reply is 401 to 403 and names no limit that clears itself |
| ApifyReplies.TriedAgainIff | brave/clients/apify_places.py:113-128 | which replies are tried again, up to three times, a busy one up to eleven |
| ApifyReplies.Prices | brave/clients/apify_places.py:47-144 | what a projection costs in money |
| ApifyReplies.EventPrices | brave/clients/apify_places.py:96-98 | what the events Apify counted cost |
| ApifyReplies.ReviewCountIsTheSum | brave/clients/apify_places.py:278-280 | the reviews counted are those of all items |
| ApifyReplies.CostOfTheReplies | brave/clients/apify_places.py:238-284 | the charge on every way out, from the last POST's reply, the last state of the run and the items |
| ApifyReplies.FreeIffNoRun | brave/clients/apify_places.py:253-255 | nothing is charged iff the last reply proves that no run exists |
| ApifyReplies.PollsAndAbort | brave/clients/apify_places.py:258-277 | at most sixteen polls, and an abort iff the run was not over after them |
| ApifyReplies.LookupBooks | brave/clients/apify_places.py:218-284 | the Apify total moves by the charge, and stays where it was on a reply that proves no run |
| ApifyReplies.AnswersIff | brave/clients/apify_places.py:286-292 | an item answers its search string if that was asked, else the query of its place id |
| ApifyReplies.NormalizedKeeps | brave/clients/apify_places.py:86-93 | of a review only date, stars and text are kept |
| ApifyRuns.ReserveAlone | brave/observability/cost_guard.py:263-308 | an uninterrupted check and reservation are the guard's wall of the total and its record |
| ApifyRuns.SettleAlone | brave/observability/cost_guard.py:270-284 | an uninterrupted settlement moves the total as the guard does |
| ApifyRuns.TotalIsConserved | brave/observability/cost_guard.py:263-284 | with workers that look up again and again and interleave, the total is the ended runs' charges plus the live runs' reservations, and its floor never fires |
| ApifyRuns.TotalStaysWithinTheBound | brave/observability/cost_guard.py:263-308 | with W workers the total plus what is checked and not yet reserved stays within the cap plus W - 1 of the dearest projection plus what ended runs cost beyond theirs |
| ApifyReplies.OverrunIs | brave/observability/cost_guard.py:270-284 | a run adds to the overruns what it was charged beyond its reservation |
| ApifyRuns.TheBoundIsReached | brave/observability/cost_guard.py:287-308 | any number of workers that all check first reach it |
| HybridPlaces.Client.Pick | brave/clients/hybrid_places.py:182-206 | a pick fits the state and the radius; in a steady world it is the first of Google's top three that does |
| HybridPlaces.Client.BatchLookup | brave/clients/hybrid_places.py:252-261 | an answer clears its queries' failures, a failure marks them, a wall does neither |
| HybridPlaces.Client.File | brave/clients/hybrid_places.py:269-276 | hits are cached, misses left for the second run, which caches them as None |
| HybridPlaces.Client.RunChunk | brave/clients/hybrid_places.py:263-281 | at most two runs; without a wall each query ends found or failed and not both |
| HybridPlaces.Client.RunLot | brave/clients/hybrid_places.py:263-283 | every chunk goes; at most 50 queries a run and no query in more than two runs; lotFailed says whether one failed, up to the chunk of a wall too |
| HybridPlaces.Client.Collect | brave/clients/hybrid_places.py:225-250 | each item of the lot is cached, queued once, not crawlable, or its pick failed |
| HybridPlaces.Client.Prefetch | brave/clients/hybrid_places.py:208-283 | bookkeeping over any sequence of lots with any replies, and true, complete caches in a steady world |
| HybridPlaces.Client.CheckBudgets | brave/clients/hybrid_places.py:285-296 | a failed lot raises before any call |
| HybridPlaces.Client.Take | brave/clients/hybrid_places.py:298-310 | the cached answer, an uncrawlable id as a no-hit, a failed query raised, else nothing |
| HybridPlaces.Client.ApifySingle | brave/clients/hybrid_places.py:312-319 | at most two runs; in a steady world the item |
| HybridPlaces.FitIsEssentials | brave/clients/hybrid_places.py:192-206 | a pick is crawlable and reads as its essentials but for the município code |
| HybridPlaces.PairAgrees | brave/clients/hybrid_places.py:339-351 | what a search keeps for the details call answers it as empty caches would, without unwanted reviews |
| HybridPlaces.Client.PickFor | brave/clients/hybrid_places.py:329-336 | a lot's pick, or its failure raised without a call, or a pick of its own |
| HybridPlaces.Client.Search | brave/clients/hybrid_places.py:321-351 | no run after a failed lot or for a covered spot; in a steady world the answer of empty caches |
| HybridPlaces.Client.PlaceDetails | brave/clients/hybrid_places.py:353-379 | no call after its search, no run after a failed lot or for a covered id, reviews only when asked; in a steady world the answer of empty caches |
| HybridAnswers.DetailsTell | brave/clients/hybrid_places.py:91-148 | the status from Apify's two flags, name, fields and reviews from Apify, id, types and distrito from Google, address and location from Google where it has them |
| HybridAnswers.ReadDetails | brave/clients/hybrid_places.py:353-379 | any details read are so told; in a steady world from Apify's item and Google's essentials of the id asked, and NoResult exactly without them |
| HybridAnswers.HitTells | brave/clients/hybrid_places.py:339-351 | a search's hit has Apify's name and Google's half |
| HybridAnswers.CrawlableIff | brave/clients/hybrid_places.py:48-51 | the ids the crawler takes, letter by letter |
| HybridAnswers.SameKeyIff | brave/clients/hybrid_places.py:72-74 | two spots share a key iff name, município and state fold alike |
| HybridAnswers.PickQueryIs | brave/clients/hybrid_places.py:182-190 | the text Google is asked for |
| HybridAnswers.BiasIsClamped | brave/clients/hybrid_places.py:42-190 | the bias is the radius within 5 and 50 km |
| HybridAnswers.PickIsTheFirstGood | brave/clients/hybrid_places.py:182-206 | in a steady world the pick is the first of three candidates that is crawlable, near, in the state and no geographic entity |
| HybridPlaces.Client.ServeLot | brave/clients/hybrid_places.py:208-379 | after a prefetch that hit no wall, serving the whole lot starts no Apify run whatever the services do; in a steady world every answer is that of empty caches |
| TerritorialFixes.Session.Merge | scripts/territorial_dedup_fixes.py:87-111 | the guards in order; the loser discarded, its ref recorded once, in the overlay in both runs, in the database under --apply |
| TerritorialFixes.Session.Edit | scripts/territorial_dedup_fixes.py:146-177 | skips iff no key and no município changes; else the record's new keys, município and stamp |
| TerritorialFixes.Session.Fix | scripts/territorial_dedup_fixes.py:180-209 | the record as the fix wants it, with its overlay entry, or the reason to skip |
| TerritorialFixes.Session.Rename | scripts/territorial_dedup_fixes.py:212-217 | the name, or a skip |
| TerritorialFixes.Session.SamePlaceId | scripts/territorial_dedup_fixes.py:220-269 | the twins judged through the overlay, discarded under --apply |
| TerritorialFixes.Session.Run | scripts/territorial_dedup_fixes.py:272-298 | merges, fixes, renames and twins in the manifest's order |
| TerritorialEntries.MergeIs | scripts/territorial_dedup_fixes.py:87-111 | an entry is a merge iff both are TripAdvisor cards; counted iff both are there, are two, the dropped one is not discarded and the kept one in Mar; what --apply writes then |
| TerritorialEntries.FixRefusedIff | scripts/territorial_dedup_fixes.py:180-192 | a fix is refused iff the record is missing, the place is cleared without a pin, or the município is unknown |
| TerritorialEntries.ClearedPlace | scripts/territorial_dedup_fixes.py:52-62 | a fix that clears the place leaves none of the nine keys Google filled, nor a distrito Google named |
| TerritorialEntries.TwinIff | scripts/territorial_dedup_fixes.py:220-256 | who is a twin |
| TerritorialEntries.StandingIs | scripts/territorial_dedup_fixes.py:231-252 | a record stands where the plan says, else where its columns say |
| TerritorialEntries.TwinsAreDiscarded | scripts/territorial_dedup_fixes.py:257-269 | --apply discards the twins with their reason and no other record, and both runs count them |
| TerritorialFixes.DryMergesAgreeIffClashFree | scripts/territorial_dedup_fixes.py:87-111 | the dry run counts the merges --apply makes iff no entry needs a record an earlier one drops; it never counts fewer |
| TerritorialReadings.FixReads | scripts/territorial_dedup_fixes.py:146-209 | what an applied fix does to all the records, and the destino it may make, is one step of a fold over nine things of each |
| TerritorialReadings.RenameReads | scripts/territorial_dedup_fixes.py:212-217 | likewise a rename |
| TerritorialReadings.NothingToWriteIff | scripts/territorial_dedup_fixes.py:146-209 | in either run a fix has nothing to write iff the record already reads as it wants |
| TerritorialReadings.FixJudgedAlikeIff | scripts/territorial_dedup_fixes.py:180-209 | the two runs count or skip a fix alike iff what the earlier fixes leave of the record reads as wanted exactly when the old record does |
| TerritorialReadings.FoundAsLeft | scripts/territorial_dedup_fixes.py:180-217 | the name an entry finds is that of the last rename of the record before it, else of the last fix that names it, else its own |
| TerritorialReadings.RenameJudgedAlikeIff | scripts/territorial_dedup_fixes.py:212-217 | the two runs count or skip a rename alike iff the name the earlier entries leave equals the new one exactly when the name before the run does |
| TerritorialRuns.OverlayAlikeIff | scripts/territorial_dedup_fixes.py:205-208 | with clash-free merges the two overlays agree on the records that are there iff the last fix of each plans one place from what it finds and from what was there |
| TerritorialRuns.FixFollows | scripts/territorial_dedup_fixes.py:180-209 | a fix keeps the overlay true to --apply's records, unless the record was dropped |
| TerritorialRuns.RenameFollows | scripts/territorial_dedup_fixes.py:212-217 | so does a rename |
| TerritorialRuns.TwinsAgree | scripts/territorial_dedup_fixes.py:220-256 | where the overlays agree, the dry run finds on the old rows the twins of the new rows |
| TerritorialRuns.DryRunPredictsApply | scripts/territorial_dedup_fixes.py:272-298 | clash-free merges, no dropped record fixed, every fix and rename judged alike and every record planned alike: then the dry run writes nothing and finds the twins and every count of --apply |
| TerritorialStamps.StampedIffCounted | scripts/territorial_dedup_fixes.py:146-177 | over a whole --apply a record carries the run's time iff a fix or a rename of it was counted, else its old stamp |
| TerritorialStamps.FixLinks | scripts/territorial_dedup_fixes.py:120-143 | a fix that moves a record leaves it the new município's state, destino for a parent and no distrito; another leaves the link |
| TerritorialStamps.MovedIsLinked | scripts/territorial_dedup_fixes.py:120-177 | over a whole --apply every record that changed município or state is so linked |
| TerritorialRuns.FixLeavesItselfIdle | scripts/territorial_dedup_fixes.py:180-209 | a fix applied once has nothing left to do |
| TerritorialRuns.NoTwinIsLeft | scripts/territorial_dedup_fixes.py:220-269 | once the twins are discarded none is left |
| TerritorialRuns.SecondApplyOnlySkipsIffIdle | scripts/territorial_dedup_fixes.py:272-298 | for every manifest, a second --apply counts nothing but skips iff the first one leaves every fix and rename with nothing to do, and then it changes no record; merges and twins never come back |
| TerritorialRuns.SecondApplyOnlySkipsIffSettled | scripts/territorial_dedup_fixes.py:272-298 | that is, iff all that fixes and renames set for each record they find (município, coordinates, name) agrees |
| TerritorialRuns.ClearedThenNamed | scripts/territorial_dedup_fixes.py:201-208 | a fix that clears the place and one that only names the record leave the dry run with the old place id |
| TerritorialRuns.RepeatedRenameMiscounts | scripts/territorial_dedup_fixes.py:212-217 | one rename listed twice is counted twice dry and once applied |
| TerritorialRuns.TwoNamesNeverSettle | scripts/territorial_dedup_fixes.py:212-217 | two names for one record are written again by every --apply |
| ConfigOverlay.RegistryIsInjective | brave/config/runtime.py:90-117 | no two keys override one field, and a field has one kind |
| ConfigOverlay.RegistryIs | brave/config/runtime.py:90-117 | the fields that can be overridden |
| ConfigOverlay.FalsyIs | brave/config/runtime.py:313-321 | the values that switch a flag off |
| ConfigOverlay.ReadsTheOverlay | brave/config/runtime.py:79-84 | after an overlay every registered key reads as the overlay's value, as a bool for a flag, or as the base's |
| ConfigOverlay.OverlaysCompose | brave/config/runtime.py:141-168 | applying two overlays is applying their union, the later winning key by key |
| ConfigOverlay.ApplyOverlay | brave/config/runtime.py:141-168 | the two loops compute the field-by-field overlay; unknown keys and other fields stay |
| ConfigOverlay.SeedingChangesNoReading | brave/config/runtime.py:329-379 | whatever rows exist, seeding changes no registered reading |
| ConfigOverlay.SeedIsIdentityIffSourcesListed | brave/config/runtime.py:340-350 | a freshly seeded table gives the same config iff the base lists both sources |
| ConfigOverlay.SeedEnablesNoSource | brave/config/runtime.py:313-321 | it enables and disables no source in any case |
| ConfigCache.Session.UpsertConfig | brave/config/runtime.py:255-280 | the rows set, and the session marked |
| ConfigCache.Session.SeedDefaultConfig | brave/config/runtime.py:340-379 | absent rows inserted, existing ones kept, marked iff something was inserted |
| ConfigCache.Session.RollbackNested | brave/config/runtime.py:248-252 | a savepoint's rollback keeps the outer write pending and marked |
| ConfigCache.Session.Rollback | brave/config/runtime.py:248-252 | a rollback clears the mark with the write |
| ConfigCache.Session.Commit | brave/config/runtime.py:233-245 | every commit that changes the rows drops the cache; one without a config write touches neither |
| ConfigCache.Session.LoadEffectiveConfig | brave/config/runtime.py:288-310 | the env config under the cached rows, else under the session's rows, then cached |
| ConfigCache.LoadThenRollback | brave/config/runtime.py:305-310 | from an empty or true cache, reading and then rolling back leaves an overlay that is not the committed one iff the read went through Redis, missed, and the pending rows read differently from the committed ones |
| ConfigCache.RolledBackYetCached | brave/config/runtime.py:248-310 | after one write of a registered key, iff the write changes the key's value |
| ConfigCache.ReadAlone | brave/config/runtime.py:283-310 | a reader alone is served the cache while it lives, else the committed rows, which it caches for a minute |
| ConfigCache.WriteAlone | brave/config/runtime.py:233-245 | a commit is a new version and drops the cache when its delete arrives |
| ConfigCache.EntryLivesAMinute | brave/config/runtime.py:193-215 | a cached overlay is served for less than sixty seconds |
| ConfigCache.NothingOlderThanAMinute | brave/config/runtime.py:193-215 | whatever the cache serves was read and written less than 60 s before |
| ConfigCache.StaleEndsWithinAMinute | brave/config/runtime.py:208-215 | even if the delete is lost, once no reader holds older rows a pre-commit overlay lasts less than 60 s |
| ConfigCache.StaleAfterBustIffStraddler | brave/config/runtime.py:208-245 | after a delete that worked, a pre-commit overlay can be served again iff some reader held one it had read before |
| Distritos.OfKeepsOrder | brave/shared/ibge_distritos.py:161-177 | the filter keeps exactly the distritos of the code, in list order |
| Distritos.Resolver.Lookup | brave/shared/ibge_distritos.py:161-177 | a hit answers for the list the slot was built from, a miss builds it again |
| Distritos.Resolver.MunicipioBucket | brave/shared/ibge_distritos.py:161-177 | the answer is a fresh filter of the list with its folded names, index by index |
| Distritos.Serve | brave/shared/ibge_distritos.py:152-177 | for any interleaving of appends and questions over any lists, every answer is the fresh filter of that moment |
| Distritos.ReplacementShowsIff | brave/shared/ibge_distritos.py:161-177 | replacing one record changes the filter iff the records differ and one of them is of the município |
| Distritos.ReplacingFoolsTheCache | brave/shared/ibge_distritos.py:152-177 | on a hit after a replacement in place the answer is the old one, right iff the new record is the old one or neither is of the município |
| Distritos.Best | brave/shared/ibge_distritos.py:271-280 | the first of the best scores, or None when none reaches the cutoff |
| Distritos.Resolver.ResolveDistrito | brave/shared/ibge_distritos.py:229-283 | through the cache, the resolution on the plain list |
| Distritos.ResolvedIsBest | brave/shared/ibge_distritos.py:229-283 | None iff the name is blank or nothing in the município scores enough; else one of its best |
| Distritos.Resolver.ResolvePlace | brave/shared/ibge_distritos.py:286-324 | the resolution unless it is the seat; None only then |
| Distritos.ResolveDistritoInUf | brave/shared/ibge_distritos.py:189-226 | a best-scored distrito of the state, given exactly when there is one and all best ones share a município |
| Distritos.SettlementFalls | brave/shared/ibge_distritos.py:186-226 | each word for a settlement before a name falls |
| OpeningHours.To24h | brave/shared/opening_hours.py:55-68 | what it returns is a time of the 24-hour day |
| OpeningHours.ClockIsRead | brave/shared/opening_hours.py:65-67 | a 24-hour time is read as itself |
| OpeningHours.TwelveHoursAreRead | brave/shared/opening_hours.py:55-64 | every 12-hour time, with any spaces and spelling of AM and PM, is read as its 24-hour time |
| OpeningLines.EverySpellingIsRead | brave/shared/opening_hours.py:55-68 | every spelling of a time, letter by letter, is read as the time it means: "a" before noon, "p" after it, 12 AM midnight, 12 PM noon |
| OpeningLines.EveryTurnIsRead | brave/shared/opening_hours.py:80-86 | every spelling of a shift, whatever dash and blanks, is read as its two times |
| OpeningLines.EveryDayIsRead | brave/shared/opening_hours.py:71-87 | every spelling of a day's shifts is read as those shifts in order |
| OpeningLines.JoinIsCommaSpace | brave/shared/opening_hours.py:87 | the shifts read are joined by a comma and a space |
| OpeningLines.EveryWordIsRead | brave/shared/opening_hours.py:35-36 | the words for closed and for all day, in any case |
| OpeningLines.EveryLineIsRead | brave/shared/opening_hours.py:102-112 | a day's name, a colon and its shifts, in any spelling, are read as that day and those shifts |
| OpeningLines.NineToFive | brave/shared/opening_hours.py:71-87 | the shift of "Monday: 9:00 AM – 5:00 PM" is 09:00-17:00 |
| OpeningHours.ParseHours | brave/shared/opening_hours.py:71-87 | closed, all day, or every shift converted and joined; one bad shift fails the line |
| OpeningHours.ParserReadsItsOutput | brave/shared/opening_hours.py:71-87 | the parser reads its output as itself iff it is not "open_24h", which it does not read |
| OpeningHours.DayNameIsRead | brave/shared/opening_hours.py:44-52 | a day name is read by its letters, whatever case and accents, with or without "-feira" or " feira" |
| OpeningHours.TheDaysAreRead | brave/shared/opening_hours.py:25-52 | every spelling of each day in English and Portuguese, in any case, accented or not, with or without "feira", is read as that day |
| OpeningHours.RunLengths | brave/shared/opening_hours.py:116-130 | the encoding of a week: maximal runs over all seven days, "daily" iff they agree |
| OpeningHours.EachDayOnce | brave/shared/opening_hours.py:120-130 | expanding the keys gives each day once with its hours |
| OpeningHours.EncodingIsExact | brave/shared/opening_hours.py:116-130 | two weeks have one encoding iff they are the same week |
| OpeningHours.ToHoursMap | brave/shared/opening_hours.py:90-130 | None iff the lines spell no week; else the encoding of the week they spell |
| OpeningHours.AWeekIsSpeltIff | brave/shared/opening_hours.py:102-114 | lines spell a week iff every line reads and every day is named |
| OpeningHours.SpelledWeekIsUnique | brave/shared/opening_hours.py:102-116 | and only one: the last line naming a day wins |

## Left out

- HTTP, Celery, SQLAlchemy, tenacity and Redis themselves: only the command and commit semantics the properties need. Google, Apify and the fuzzy scorer are functions or arbitrary replies.
- Float arithmetic: amounts are integers, so rounding of INCRBYFLOAT is not modelled.
- Loss of Redis keys, corrupt JSON, a process that dies between two commands, and database failures at a commit (a `db: false` parameter stands for a row that could not be written).
- The interleaving of `start`: its guard and its resets are separate commands, and two starts at once can both pass; the model takes it as one step at both levels.
- The interleaving of `set_mode(DESLIGADO)` inside a generation: it zeroes the in-flight counter on purpose; the atomic level has it.
- `request_stop` at the command level: the operator's SET of "stopping" may come at any moment, which covers its GET-then-SET.
- The uuid a start draws is a parameter, fresh where a lemma needs it.
- The duplicate clock reads of the cost guard: one `_incr` names its key and its TTL from one instant, and a call does not cross midnight between two of its commands except where the steps are interleaved (`PlacesCap`).
- The local-time reading of a naive `now` in `_seconds_until_midnight`: production passes nothing.
- The hash that names a Places key's counters; a key id is a string.
- `PlacesCap` prices are the four the client charges; a call's own retries are inside the call.
- The expiry of a ramp key at midnight while a sender still holds its name, and the key's text format.
- `RampGate.Redis.SendPathGate`: the consent rows and the opt-out are given by the request instead of read from the database.
- The headers, the charge ceiling (`maxTotalChargeUsd`) and the waits of an Apify run; idempotent reads are taken after their own retries, and the abort's result is ignored as the code ignores it. `max_reviews` is taken as non-negative.
- ApifyRuns.AtMostOneRunIsMade: rests on Apify keeping its word (`ApifyRuns.Honest`): a refusal below 500, a busy refusal or a connection never made leaves no run behind.
- ApifyRuns.TotalStaysWithinTheBound: bounds the total, not the day's key.
- `HybridPlaces`: accent folding, upper case and the haversine are given functions; the Monday-first sort and the "to" ranges of the opening hours, and `text_search`, which only passes through, are not modelled. Place ids use ASCII letters.
- TerritorialRuns.DryRunPredictsApply: a manifest that fixes a record it also drops is outside the hypotheses, though some such runs agree; the conditions on merges, fixes, names and the overlay are exact one by one.
- TerritorialRuns.SecondApplyOnlySkipsIffSettled: a manifest whose fixes name a destino that the run itself makes is outside the hypotheses; `TerritorialRuns.SecondApplyOnlySkipsIffIdle` covers it.
- The manifest run: audit rows, printed lines, the refresh under lock in `persist_normalized` (nobody else writes), and what `ensure_destino` changes in a destino that already exists. Rows are named by their refs, so a uuid never differs from run to run. The number of an action's outcomes is compared, not the printed keys.
- The validation of a PATCH (weights that sum to 100), the order of `enabled_sources`, and listeners at a savepoint release: `after_commit` is taken to run at the outer commit.
- `Distritos`: the folding and the scorer; a `Distrito` is a value, so a record mutated through another reference is not modelled, nor a caller that changes a returned bucket.
- `OpeningHours`: letters beyond Latin-1 (dropped here, some folded to ASCII by Unicode), and digits other than ASCII.
- Authentication, webhooks, the API and the dashboard; the LLM, Tavily, Parallel, Nominatim, Wikimedia and WhatsApp clients; spikes, migrations and importers: plumbing, or easier members of the same kind.
