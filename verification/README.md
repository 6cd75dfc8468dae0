# Control plane for throwaway CI runners: a verified model

The control plane assigns short-lived CI runners to jobs. Controllers hold leases with fencing tokens, reserve
capacity in a shared ledger, keep jobs, runners and leases in a store with optimistic revisions, and repair
everything against what the cloud provider reports. This project models that system in Dafny and proves what it
promises: over every iteration order, every failing call, every crash point and every interleaving.

| file | models |
|---|---|
| `common.dfy`, `ordering.dfy`, `decimal.dfy`, `paging.dfy` | optional values, trimming, byte order and sorting, decimal texts, paged answers |
| `records.dfy`, `memory.dfy`, `concurrency.dfy` | the records, the in-memory repository (the reference semantics of storage), histories of writers |
| `providers.dfy`, `cells.dfy`, `reconciler.dfy`, `passes.dfy`, `outcomes.dfy` | the cloud, the reconciler's five loops, what whole passes and runs achieve, and what one pass decides in the records' own terms |
| `capacity.dfy`, `coordination.dfy` | capacity pools, the fenced ledger, selection, leadership leases and failover |
| `scheduler.dfy`, `assignment.dfy` | the two compensating transactions |
| `filestore.dfy`, `eventtable.dfy`, `indexes.dfy` | the file-backed repository and the DynamoDB repository against the memory one |
| `glob.dfy`, `cachekey.dfy`, `pipeline.dfy`, `metrics.dfy`, `stats.dfy` | the pattern matcher, the cache key text, the event pipeline, metric accounting, statistics |

How to read it:

- A class is the source's object with the source's fields; its methods are proved equal to a specification function
  of the old state, and lemmas prove the promises about that function; lemmas ending in `Iff`, `Means` or `AfterPass` say
  in the records' own terms which answer it gives when. Fields and datatype fields called histories
  (`published`, `sent`, `accepted`, `handled`, `seen` of a series, `granted`) record the past for the proofs and are
  not in the source.
- Time is an integer counted from Go's zero time, so 0 is the unset time. Floating point is `real`. Counters do not wrap.
- A failing call is an input: `Faults` is a set of failing call sites with record ids, `Weather` and `Luck` say which
  call of a transaction fails, `Fate` says how a file write ends. A repository or provider call that is told to fail
  does so before it takes effect, except for a file write and for WaitReady, as in the source.
- Every method that holds a mutex is one atomic step; interleavings are sequences of such steps.
- Map iteration is an arbitrary choice, so every theorem about a method holds for every order. Sorting is specified by
  an insertion sort; `Ordering.SortIsTheOrder` shows that any sorting algorithm gives the same result.
- JSON, SHA-256 fingerprints and RFC 3339 times are abstracted as injective.

Promises that turned out false of the code are kept as the code has them, with the exact condition and a concrete case:

- **A failed assignment can strand its instance.** When the reload after a successful CreateRunner fails, the runner
  variable has been emptied, so the cleanup looks for the record "" and gives up before Terminate
  (`Assigning.Service.Assign`: cleanup completes if and only if that reload did not fail).
- **Releasing a lease can defeat fencing.** The token counter is deleted with the entry (exactly then,
  `Coordination.FloorFallsIffReleased`), so the next holder starts at token 1. It takes the ledger over if and only if no
  token was installed yet, or token 1 is installed and was its own (`Coordination.TakeOverAfterReleaseIff`); otherwise it
  is locked out, as in `Coordination.ReleaseDefeatsFencing`.
- **A renewal can take back promised time**: before the promised time a promise is broken exactly by a release or by a
  renewal of that lease for less than was promised, and then anybody else is granted the key inside the promised time
  (`Coordination.PromiseBreaksIff`, `Coordination.CutShortIsTaken`; a concrete run in
  `Coordination.ShortRenewalBreaksThePromise`).
- **A start can forget the stored state**: exactly when the primary file is missing and the existing backup cannot be
  read at that moment (`FileStore.StartForgetsIff`).
- **A delete racing with another delete and insert orphans an event copy**, after which the key can no longer be
  inserted (`EventTable.DeleteKeepsConsistentIff`, `EventTable.RacingDeleteOrphansACopy`).
- **The state index repeats records** when a wanted state is repeated (`Indexes.StateIndexAgreesIff`), and **the expiry
  index lists records without an expiry** and truncates to seconds (`Indexes.ExpiryIndexAgreesIff`).
- **The pattern matcher accepts overlaps**: "a*a" matches "a" (`Glob.MatcherDecides`, `Glob.OverlapIsAccepted`).
- **Event replay is idempotent only with an explicit key** (`Memory.ReplayIsIdempotentIffKeyed`).
- **A stored payload is taken for another one** exactly when one of its values is empty (`Memory.MapsEqualIsEqualityIff`,
  `Memory.SameEventIsEqualityIff`; a concrete pair in `Memory.MapsEqualConfusesEmptyValues`).
- **Label sets can merge into one metric series**: a label set shares its key with another one exactly when the separator
  behind some label (a NUL, the next name and "=") also occurs in that label's value or in the next one's
  (`Metrics.SharesItsKeyIff`). Label sets in which no value contains the separator that follows it are told apart, and
  every other one has a partner (`Metrics.KeysTellSeriesApart`, `Metrics.UncleanIsShared`; a concrete pair in
  `Metrics.NULMergesSeries`).

## Model

| member | source | states |
|---|---|---|
| Memory.CreateRecord | controller/internal/state/memory.go:114-133 | Creation refuses an empty id and an existing record, and otherwise stores revision 1 with both stamps equal; shared by jobs, runners and leases |
| Memory.SaveRecord | controller/internal/state/memory.go:146-173 | A conditional save succeeds only at the stored revision (or 0 for a new record), raises it by one, keeps the creation stamp, and leaves the table alone otherwise |
| Memory.WriteAcceptedIff | controller/internal/state/memory.go:114-173 | A creation is accepted exactly for a new non-empty id, a save exactly at the stored revision (0 for none); each refusal has its own reason |
| Memory.ListRecords | controller/internal/state/memory.go:174-188 | Ranging over the map in any order, filtering and sorting yields exactly the wanted rows, once each, by id |
| Memory.ListingUnique | controller/internal/state/memory.go:85-99 | A listing is determined by the table: map order cannot show |
| Memory.ListingMeans | controller/internal/state/memory.go:174-188 | A listing contains exactly the wanted rows of the table and its ids strictly ascend |
| Memory.MapsEqualIsEqualityIff | controller/internal/state/memory.go:402-415 | A stored payload is equal to every payload it is taken for if and only if none of its values is empty |
| Memory.SameEventIsEqualityIff | controller/internal/state/memory.go:402-404 | A stored event answers for no other event if and only if no value of its payload is empty |
| Memory.MapsEqualIsEquality | controller/internal/state/memory.go:402-415 | Comparing sizes and one side's entries is equality of payloads when no stored value is empty |
| Memory.MapsEqualConfusesEmptyValues | controller/internal/state/memory.go:405-415 | Two different payloads with empty values that are taken for equal |
| Memory.ReplayIsIdempotentIffKeyed | controller/internal/state/memory.go:292-316 | Replaying an accepted event adds nothing and is accepted exactly when its key was given; otherwise it is a conflict |
| Memory.ListEvents | controller/internal/state/memory.go:327-347 | The wanted events, once each, by time and then key |
| Memory.EventListingUnique | controller/internal/state/memory.go:327-347 | An event listing is determined by the stored events |
| Memory.EventListingMeans | controller/internal/state/memory.go:327-347 | An event listing contains exactly the stored events of the aggregate (as job, lease or runner) not before the given time, strictly ascending by time and then key |
| Memory.MemoryRepository.InsertLifecycleEvent | controller/internal/state/memory.go:292-316 | Adds a new key, accepts a replay without change, refuses a different event under a used key |
| Memory.MemoryRepository.DeleteLifecycleEvent | controller/internal/state/memory.go:318-326 | Removes exactly the key |
| Memory.MemoryRepository.SaveRunner | controller/internal/state/memory.go:146-173 | The class method is the specified save on the runners and leaves the other tables alone |
| OptimisticWrites.RevisionCountsWins | controller/internal/state/memory.go:25-84 | Over any interleaving of creates and saves, a record's revision rises by exactly one per successful write |
| OptimisticWrites.WinnersExpectDifferentRevisions | controller/internal/state/memory.go:57-84 | At most one write succeeds per record and expected revision; later winners expected larger ones |
| OptimisticWrites.LastWinnerRemains | controller/internal/state/memory.go:57-84 | What remains is the last successful writer's record, one revision above what it expected; its update time is that writer's, or the creation time if it was created |
| OptimisticWrites.CreationChangesIff | controller/internal/state/memory.go:146-173 | A write changes a record's creation time if and only if it wins with another creation time of its own |
| OptimisticWrites.CreationIsKept | controller/internal/state/memory.go:146-173 | Over every interleaving a record keeps its creation time if no writer brings along another one |
| OptimisticWrites.OneAdditionBetweenDeletes | controller/internal/state/memory.go:292-326 | Between two deletes of a key exactly one valid insert reports an addition, and a stored event is never overwritten |
| Providers.FakeProvider.Status | controller/internal/providers/provider.go:157-171 | The instance's status, or that it does not exist |
| Providers.FakeProvider.Terminate | controller/internal/providers/provider.go:175-191 | Idempotent: fails only when cancelled or by an injected failure on a live instance; an accepted call leaves the instance terminated or absent and every other instance alone |
| Providers.FakeProvider.Provision | controller/internal/providers/provider.go:105-122 | Adds one new provisioning instance unless told to fail or at capacity |
| Providers.FakeProvider.WaitReady | controller/internal/providers/provider.go:124-155 | Readies a known instance that is not ending; an injected failure marks it failed; a cancelled wait leaves it as it is |
| Cells.FirstPass | controller/internal/lifecycle/reconciler.go:94-343 | One error-free pass leaves a component with only the named leftovers: a failed job's cleanup, a reaped runner's lease and job |
| Cells.SecondPass | controller/internal/lifecycle/reconciler.go:94-343 | A second error-free pass leaves a component with nothing to do |
| Cells.QuietStays | controller/internal/lifecycle/reconciler.go:94-343 | A component with nothing to do is left alone by a pass, whatever fails |
| Cells.StopIsSafe | controller/internal/lifecycle/reconciler.go:284-343 | Stopping a runner writes "terminated" only after the instance is gone, never revives a terminated runner, and keeps the reconciler's copy no newer than the store |
| Cells.JobIsSafe | controller/internal/lifecycle/reconciler.go:164-233 | The job loop never changes a terminal job, and treats the runner it cleans safely |
| Cells.OnlyOwnFaultsMatter | controller/internal/lifecycle/reconciler.go:94-343 | What a pass makes of a component depends on its records and on the failures of its own calls only |
| Outcomes.StatusMeansItsName | controller/internal/lifecycle/reconciler.go:403-420 | A provider status means the runner state of the same name, and a missing instance means terminated |
| Outcomes.DueAndOver | controller/internal/lifecycle/reconciler.go:422-424 | A deadline is due from its own instant on unless it is unset; a job is over when completed, cancelled or failed |
| Outcomes.JobAfterPass | controller/internal/lifecycle/reconciler.go:164-233 | Under any faults a pass fails an unfinished job if and only if it is due or abandoned (no lease though assigned, lease ended or running out, runner missing or lost) and that save works; otherwise the job follows a busy or ready runner or stays |
| Outcomes.LeaseAfterPass | controller/internal/lifecycle/reconciler.go:131-162 | What a whole pass makes of a lease, from the records and the provider's word alone |
| Outcomes.WorkGoesOn | controller/internal/lifecycle/reconciler.go:94-343 | A job at work, its lease active, its runner as the provider says and no deadline passed, is left alone by a pass, whatever fails |
| Outcomes.BusyMeansRunning | controller/internal/lifecycle/reconciler.go:217-218 | After an error-free pass an unfinished job whose leased runner the provider calls busy is running and its lease active |
| Outcomes.StoppedOnlyForAReason | controller/internal/lifecycle/reconciler.go:177-343 | Whatever fails, a pass stops no runner unless it is due, its job is unknown, or its job is over or due and no lease gives that job another runner |
| Outcomes.StoppedForEveryReason | controller/internal/lifecycle/reconciler.go:177-343 | If nothing fails each of these reasons ends the runner, in the store and at the provider |
| Outcomes.StoppedIsMarked | controller/internal/lifecycle/reconciler.go:284-343 | Whatever fails, an instance that a pass stopped is recorded as terminating or terminated |
| Reconciling.Reconciler.Stop | controller/internal/lifecycle/reconciler.go:329-343 | The marking, Terminate and final save, each of which may fail, have exactly the specified effect on store, cloud and copy |
| Reconciling.Reconciler.RepairRunners | controller/internal/lifecycle/reconciler.go:94-128 | The provider-truth loop takes every component through its truth step, in any order, with any failures |
| Reconciling.Reconciler.RepairLeases | controller/internal/lifecycle/reconciler.go:131-162 | The lease loop takes every component through its lease step |
| Reconciling.Reconciler.SettleJobs | controller/internal/lifecycle/reconciler.go:164-233 | The job loop, cleanup of terminal jobs included, takes every component through its job step |
| Reconciling.Reconciler.CleanOrphans | controller/internal/lifecycle/reconciler.go:235-252 | The orphan loop takes every component through its orphan step |
| Reconciling.Reconciler.ReapRunners | controller/internal/lifecycle/reconciler.go:284-327 | The reaping loop takes every component through its reap step |
| Reconciling.Reconciler.Reconcile | controller/internal/lifecycle/reconciler.go:46-257 | On every valid store, with every order and failure, a pass is safe; on a well-formed store it takes every component through the five steps |
| Reconciling.Reconciler.ReapExpired | controller/internal/lifecycle/reconciler.go:262-327 | The narrow operation does exactly the reap step, safely |
| Outcomes.ReapingEndsIff | controller/internal/lifecycle/reconciler.go:262-327 | If nothing fails reaping ends exactly the runners that are due |
| Outcomes.ReapingTouchesNothingElse | controller/internal/lifecycle/reconciler.go:262-327 | Whatever fails it touches no job, no lease and no runner that is not due |
| Passes.WellformedIsIndexed | controller/internal/lifecycle/reconciler.go:89-92 | One lease and one runner per job, agreeing with each other, is all that the component theorems ask of a store |
| Passes.OrderIsInvisible | controller/internal/lifecycle/reconciler.go:94-343 | With the same failures every iteration order ends in the same store and cloud |
| Passes.ComponentsAreIndependent | controller/internal/lifecycle/reconciler.go:94-343 | A component ends the same in two stores that may differ in every other record and failure |
| Passes.TwoPassesReachAFixpoint | controller/internal/lifecycle/reconciler.go:94-343 | After two error-free passes a third changes neither store nor cloud, whatever fails in it |
| Passes.TwoPassesLeaveNoLeaks | controller/internal/lifecycle/reconciler.go:182-252 | After two error-free passes the leased runner of every terminal job, the runner naming a terminal job without lease, every orphan and every expired runner is terminated in store and cloud |
| Passes.TwoPassesAgree | controller/internal/lifecycle/reconciler.go:130-233 | After two error-free passes the records agree: unfinished jobs have not expired, their leases and runners are working and agree with the provider, the job's state follows the runner's, and leases without job or runner have ended |
| Outcomes.PassFailsJobIff | controller/internal/lifecycle/reconciler.go:164-233 | Over every store, order and set of faults: which unfinished jobs a pass fails, in terms of the stored records and the cloud |
| Outcomes.PassLeavesWorkAlone | controller/internal/lifecycle/reconciler.go:94-343 | A job at work keeps its job, lease and runner records and its instance in every pass, whatever fails there or elsewhere |
| Outcomes.PassSetsBusyJobsRunning | controller/internal/lifecycle/reconciler.go:217-218 | An error-free pass over any store makes every such job of a busy runner running |
| Outcomes.PassStopsRunnerIff | controller/internal/lifecycle/reconciler.go:94-343 | An error-free pass ends exactly the runners that have a reason to end and records the provider's truth of all others |
| Outcomes.PassStopsNoOther | controller/internal/lifecycle/reconciler.go:94-343 | Whatever fails, a runner without such a reason keeps its instance |
| Outcomes.PassMarksWhatItStops | controller/internal/lifecycle/reconciler.go:284-343 | The same over every store |
| Passes.FinalStatesAreFinal | controller/internal/lifecycle/reconciler.go:46-343 | Over every run of passes and reapings, failures included, terminated runners and terminal jobs stay as they are and "terminated" is true of the cloud |
| Capacity.Registry.Register | controller/internal/capacity/capacity.go:230-241 | A valid pool with a new id is added; anything else changes nothing |
| Capacity.RegisterAcceptedIff | controller/internal/capacity/capacity.go:109-170 | A pool is registered if and only if its id is new and nothing about it is blank, negative, over its maximum or listed twice |
| Capacity.Registry.Reserve | controller/internal/capacity/capacity.go:373-392 | Takes one runner's worth of an available pool that fits, or changes nothing |
| Capacity.ReserveAcceptedIff | controller/internal/capacity/capacity.go:373-392 | A reservation is accepted if and only if its pool is available and usage with it stays within every non-zero maximum; what the other claims are told |
| Capacity.PoolTakesExactlyItsLimit | controller/internal/capacity/capacity.go:339-341 | A pool limited in runners alone accepts exactly as many reservations as it has free, and then none |
| Capacity.Registry.Release | controller/internal/capacity/capacity.go:471-490 | Gives back what usage covers, or changes nothing |
| Capacity.ReleaseAcceptedIff | controller/internal/capacity/capacity.go:471-490 | A release is accepted if and only if no usage falls below zero, and then changes the pool |
| Capacity.Registry.Select | controller/internal/capacity/capacity.go:286-309 | The least eligible pool of the first ownership class that has one; none exactly when no permitted class has any |
| Capacity.EligibleIff | controller/internal/capacity/capacity.go:329-354 | Which pools can serve a request: what was asked for, all labels, available, and room within every maximum |
| Capacity.SelectionFollowsMode | controller/internal/capacity/capacity.go:286-327 | A request is answered if and only if some eligible pool has an ownership its mode admits, and with the preferred ownership if any such pool has it |
| Capacity.SelectionIsBest | controller/internal/capacity/capacity.go:356-371 | Of the candidates of its ownership the choice is the soonest, of these the cheapest per runner hour, of these the first by region |
| Capacity.LessIsStrictTotal | controller/internal/capacity/capacity.go:356-371 | The comparator is a strict total order on pools with different ids |
| Capacity.SelectionUnique | controller/internal/capacity/capacity.go:286-327 | The selection is a function of the registry's contents |
| Capacity.SelectionCanBeReserved | controller/internal/capacity/capacity.go:286-392 | Reserving the selected pool at once succeeds |
| Capacity.Replica.NewReplica | controller/internal/capacity/capacity.go:207-218 | A blank owner and token 0 are refused and change nothing; joining installs a strictly larger token and its owner |
| Capacity.Replica.ReserveFenced | controller/internal/capacity/capacity.go:396-430 | Every verdict and the exact new ledger, replays included |
| Capacity.FencedReserveAcceptedIff | controller/internal/capacity/capacity.go:396-430 | A new reservation is accepted if and only if it is well-formed, the replica holds the active owner and token, and the pool is available with room; exactly the others with other owner or token are called stale |
| Capacity.Replica.ReleaseFenced | controller/internal/capacity/capacity.go:432-456 | Every verdict and the exact new ledger |
| Capacity.FencedReleaseAcceptedIff | controller/internal/capacity/capacity.go:432-456 | The current replica's release is accepted if and only if the reservation is unknown or the pool's usage covers it; another owner or token is called stale |
| Capacity.StepConserves | controller/internal/capacity/capacity.go:207-456 | Every action keeps: usage of all four resources is the registered usage plus the ledger entries, within every non-zero maximum |
| Capacity.RunsConserve | controller/internal/capacity/capacity.go:207-456 | The same over every interleaving of registrations, joins, reservations and releases by any replicas |
| Capacity.CurrentReleaseSucceeds | controller/internal/capacity/capacity.go:432-456 | A current replica's release of a recorded reservation never meets the underflow guard |
| Capacity.RetriesAreIdempotent | controller/internal/capacity/capacity.go:405-410 | Repeating an accepted reservation changes nothing; another claim under its id is refused |
| Capacity.ReleaseUndoesReserve | controller/internal/capacity/capacity.go:396-456 | Releasing a new reservation restores the ledger; an unknown reservation's release changes nothing |
| Capacity.UnfencedReleaseUnbalances | controller/internal/capacity/capacity.go:471-490 | Whenever the unfenced release is accepted, ledger and usage part ways |
| Capacity.FencedSuccessesAreOrdered | controller/internal/capacity/capacity.go:207-228 | Tokens of successful fenced calls never decrease and one token never succeeds for two owners |
| Capacity.StaleForever | controller/internal/capacity/capacity.go:220-228 | Once a larger token is installed an older replica is refused forever, changing nothing |
| Coordination.MemoryStore.Acquire | controller/internal/coordination/memory.go:34-53 | A held lease is returned to its owner and refused to others; otherwise the next token is granted |
| Coordination.MemoryStore.Renew | controller/internal/coordination/memory.go:55-77 | Only the unexpired holder under its token moves the expiry |
| Coordination.RenewalAcceptedIff | controller/internal/coordination/memory.go:55-77 | A renewal is accepted if and only if its owner and token are the stored ones and the lease has not run out; when it is unknown or stale |
| Coordination.RenewalHoldsUntil | controller/internal/coordination/memory.go:72-76 | After a renewal others are refused exactly until its time plus its ttl, whether that is later or earlier than before |
| Coordination.GrantHoldsUntil | controller/internal/coordination/memory.go:41-52 | After a grant others are refused exactly until its time plus its ttl; asking again gives the holder the same lease and no more time |
| Coordination.MemoryStore.Release | controller/internal/coordination/memory.go:79-97 | Only the stored owner and token delete the entry, counter included |
| Coordination.ReleaseDeletesIff | controller/internal/coordination/memory.go:79-97 | A release deletes the entry if and only if owner and token are the stored ones, expired or not; releasing an unknown key is accepted and changes nothing |
| Coordination.RunsKeepWell | controller/internal/coordination/memory.go:34-97 | After any calls every entry names its own key and its counter is the token of the last lease granted |
| Coordination.GrantsFollowExpiry | controller/internal/coordination/memory.go:41-52 | A new grant comes at or after the stored expiry with a strictly larger token |
| Coordination.OnlyTheHolderIsServed | controller/internal/coordination/memory.go:34-97 | A caller is answered only with a lease of its own that is the stored one; an acquisition fails exactly when another owner holds the key; other keys are untouched |
| Coordination.FloorFallsIffReleased | controller/internal/coordination/memory.go:79-97 | The token counter falls exactly by a successful release |
| Coordination.TokensGrow | controller/internal/coordination/memory.go:34-77 | Without releases tokens handed out never fall and one token never belongs to two owners |
| Coordination.PromiseBreaksIff | controller/internal/coordination/memory.go:55-97 | A call before the promised time breaks a lease's promise if and only if it releases the lease or renews it for less than was promised |
| Coordination.CutShortIsTaken | controller/internal/coordination/memory.go:41-52 | After such a renewal another owner's acquisition inside the promised time is granted, with the next token |
| Coordination.MutualExclusion | controller/internal/coordination/memory.go:34-77 | While a lease handed to one owner has not run out nobody else is handed the key, if the key is not released and that lease not renewed for less |
| Coordination.GrantedExactlyFromExpiry | controller/internal/coordination/memory.go:34-77 | Over every run, until a key is called for again another owner is granted it exactly from the expiry of the lease last handed out |
| Coordination.ShortRenewalBreaksThePromise | controller/internal/coordination/memory.go:74-75 | A concrete run in which a short renewal takes promised time back |
| Coordination.FencingAlways | controller/internal/coordination/memory.go:34-77 | In every run of store and ledger the ledger trusts a granted token and its owner |
| Coordination.NewestHolderTakesOver | controller/internal/capacity/capacity.go:207-228 | Failover: the newest lease holder takes the ledger over by joining, and older holders are refused with pools and ledger unchanged |
| Coordination.TakeOverAfterReleaseIff | controller/internal/coordination/memory.go:95 | After a release the next grant has token 1 and takes the ledger over if and only if no token was installed, or token 1 was and is the owner's own |
| Coordination.ReleaseDefeatsFencing | controller/internal/coordination/memory.go:95 | A run in which the second holder is locked out while the first still writes |
| Scheduling.ReleaseIsNeverRefused | controller/internal/scheduler/scheduler.go:61-73 | Whatever a run holds can be given back |
| Scheduling.MoveKeepsSound | controller/internal/scheduler/scheduler.go:46-76 | Every call of every run keeps usage equal to initial usage plus outstanding holds |
| Scheduling.HistoriesAreSound | controller/internal/scheduler/scheduler.go:46-76 | The same, with instance ownership, over every interleaving of any number of runs |
| Scheduling.SchedulingIsATransaction | controller/internal/scheduler/scheduler.go:46-76 | Usage, limits, accepted compensations, and no active instance of a failed run whose Terminate worked |
| Scheduling.EverythingIsReturned | controller/internal/scheduler/scheduler.go:59-120 | Once every run failed or its runner was released, the pools are used exactly as before |
| Scheduling.CandidateIff | controller/internal/scheduler/scheduler.go:46-52 | Which pools a task can be given: available, with all its labels, of an ownership its mode admits, with room for its size |
| Scheduling.RunsGetWhatTheyAskedFor | controller/internal/scheduler/scheduler.go:46-120 | Over every interleaving a run claims, holds and records exactly its own task's size, job and deadline, in a pool that suits the task |
| Scheduling.Scheduler.Reserve | controller/internal/scheduler/scheduler.go:28-44 | The selection and reservation steps of a run; it succeeds if and only if a pool is selected that has a provider |
| Scheduling.Scheduler.Schedule | controller/internal/scheduler/scheduler.go:46-76 | Every execution is a legal history of one run, ending in failure or in the returned runner; it succeeds if and only if the selected pool has a provider, the cloud has room, the new name is free and every call works |
| Scheduling.Scheduler.Release | controller/internal/scheduler/scheduler.go:115-120 | Gives the returned runner's reservation back |
| Assigning.Service.BeginAssignment | controller/internal/runners/runners.go:325-336 | Marks a job that was not in flight |
| Assigning.Service.PersistRegistration | controller/internal/runners/runners.go:358-372 | Success means the event is stored under its key; stored events never change |
| Assigning.Service.Cleanup | controller/internal/runners/runners.go:229-259 | Completes whenever its calls work and the record is found; a record is marked terminated only after Terminate; without its record it stops nothing |
| Assigning.Service.Assign | controller/internal/runners/runners.go:174-323 | It fails at the first obstacle and no other; success means the registered id and name are the configured ones and leaves a ready record, both events and a live instance; failure with working cleanup unwinds if and only if the reload did not fail; other records and instances are untouched |
| Assigning.SucceedsIff | controller/internal/runners/runners.go:174-323 | An assignment has no obstacle if and only if the request is complete, its job is not in flight, every call works, its events conflict with none, and the registered id and trimmed name are the configured ones |
| Assigning.DeliveredMeans | controller/internal/runners/runners.go:265-272 | The delivered record and events carry the request's job, size, pool, labels, owner and deadline |
| Assigning.EventIDIsInjective | controller/internal/runners/runners.go:358-367 | Every registration step of every runner has an event key of its own, whatever the runners are called |
| Assigning.OneAssignmentPerJob | controller/internal/runners/runners.go:325-342 | In every interleaving of callers at most one assignment per job runs |
| FileStore.EveryStateIsAccepted | controller/internal/state/file.go:82-149 | Every state a mutation can reach encodes to a snapshot that is accepted again |
| FileStore.FileRepository.Commit | controller/internal/state/file.go:157-175 | Backup first, then primary, for every way each write can end |
| FileStore.FileRepository.Load | controller/internal/state/file.go:46-80 | Primary, else backup, else empty, with the recovery commit, for every read and write fault |
| FileStore.FileRepository.Mutate | controller/internal/state/file.go:214-283 | Memory and files after a mutation that is refused, committed, rolled back or cut off by a crash |
| FileStore.MutationIsAtomic | controller/internal/state/file.go:157-229 | Wherever a mutation fails or crashes the next start serves the state before or after it, the latter exactly when the primary was replaced |
| FileStore.NeedsCommitIff | controller/internal/state/file.go:214-283 | A call is written through if and only if it changes the store or is a delete |
| FileStore.AcknowledgedIsStored | controller/internal/state/file.go:214-283 | After an acknowledged call the files hold its outcome, and a call whose writes are all done is acknowledged |
| FileStore.RollbackAgreesIff | controller/internal/state/file.go:203-229 | After a failed write memory and files agree exactly when the primary was not replaced |
| FileStore.StartIsSafe | controller/internal/state/file.go:46-80 | A start serves the stored state and, failing or crashing anywhere, leaves it to be served |
| FileStore.FaultFreeStartServesIff | controller/internal/state/file.go:46-80 | Without faults a start serves if and only if one of the files is acceptable or both are missing; the primary first, then the backup |
| FileStore.StartServesIff | controller/internal/state/file.go:46-80 | For every fault of a start: when it serves, and from what |
| FileStore.StartForgetsIff | controller/internal/state/file.go:68-79 | The stored state is lost exactly when the primary is missing and the backup cannot be read |
| FileStore.DamageRestoresPrevious | controller/internal/state/file.go:60-65 | A primary damaged after a commit restores the previous commit, if that could be backed up |
| FileStore.NothingIsLost | controller/internal/state/file.go:46-229 | Over every life of starts, calls, failures and crashes the files hold the last call that replaced the primary |
| FileStore.FilesHoldWhatIsServed | controller/internal/state/file.go:46-283 | Over every life of starts, calls, failures and crashes in which no rename took effect and was still reported as failed, a serving process and its files hold the same |
| EventTable.AggregateIDs | controller/internal/state/dynamodb/repository.go:791-805 | Each non-empty id once and sorted, or one empty id |
| EventTable.InsertKeepsConsistent | controller/internal/state/dynamodb/repository.go:875-887 | The insert transaction keeps markers and copies consistent, succeeds exactly for a new key, and adds its event |
| EventTable.DeleteKeepsConsistentIff | controller/internal/state/dynamodb/repository.go:927-949 | A delete that read before it committed keeps the table consistent exactly when the copies recorded now are among those read |
| EventTable.RacingDeleteOrphansACopy | controller/internal/state/dynamodb/repository.go:927-949 | A race that leaves a copy without marker and blocks its key |
| EventTable.InsertAgreesWithMemory | controller/internal/state/dynamodb/repository.go:840-872 | For dated, keyed events without empty payload values the verdict is the memory repository's |
| EventTable.InterruptedInsert | controller/internal/state/dynamodb/repository.go:865-897 | With other writers between its read, its transaction and its second read, an insert reports an addition exactly when it made one, replays and conflicts only of events it saw, and a cancellation exactly for a key that came and went |
| EventTable.InsertMeansMemoryIff | controller/internal/state/dynamodb/repository.go:846-855 | An insert does to the table's meaning what it does in memory if and only if the event is dated or is not added |
| EventTable.RunsRefineMemory | controller/internal/state/dynamodb/repository.go:840-949 | Over every interleaving of dated inserts and of deletes without that race the table is consistent and means what the memory repository holds after the same calls, refused events included |
| EventTable.RunsListAlike | controller/internal/state/memory.go:292-347 | After every such run both repositories list the same events in the same order, for every aggregate and since time |
| EventTable.Repository.InsertLifecycleEvent | controller/internal/state/dynamodb/repository.go:840-898 | Verdict and new table of an uninterrupted insert |
| EventTable.Repository.DeleteLifecycleEvent | controller/internal/state/dynamodb/repository.go:927-949 | An uninterrupted delete removes exactly the key |
| EventTable.Repository.ListLifecycleEvents | controller/internal/state/dynamodb/repository.go:951-1010 | For every paging the de-duplicated, sorted answer is the memory repository's listing, for every aggregate and since time |
| Paging.ReadPages | controller/internal/state/dynamodb/repository.go:529-555 | However an answer is cut into pages it is put together again |
| Indexes.ListByState | controller/internal/state/dynamodb/repository.go:611-712 | The answer of the state index, which is the memory repository's listing exactly when no wanted state with records is repeated |
| Indexes.StateIndexAgreesIff | controller/internal/state/dynamodb/repository.go:611-644 | The rows queried state by state are the filtered rows exactly under that condition |
| Indexes.RangeMeans | controller/internal/state/dynamodb/repository.go:199-201 | The zero-padded key range means: earlier second, or same second and id up to "~"; times before 1970 always |
| Indexes.ExpiryIndexAgreesIff | controller/internal/state/dynamodb/repository.go:714-717 | The range query finds a record as the numeric filter does exactly when its expiry is set and the second of `now` does not mislead |
| Indexes.WholeSecondsAreComparable | controller/internal/state/dynamodb/repository.go:176-201 | Whole-second expiries with ids up to "~" always agree; an unset expiry never does and is always listed |
| Indexes.ListExpired | controller/internal/state/dynamodb/repository.go:718-789 | The live records of the key range, once each, by id, for every paging |
| Indexes.ExpiryListingAgreesIff | controller/internal/state/memory.go:100-112 | The whole listing is the memory repository's exactly when every live record's expiry is comparable |
| Glob.Matches | tools/iam-validation/main.go:94-114 | The greedy loop computes the specified answer and never slices out of range |
| Glob.SplitMeans | tools/iam-validation/main.go:101 | Splitting at the stars keeps the pattern's meaning |
| Glob.SearchDecides | tools/iam-validation/main.go:105-112 | Searching for first occurrences decides the language, given room for the last part |
| Glob.MatcherDecides | tools/iam-validation/main.go:94-114 | A value is in the pattern's language exactly when the matcher accepts it without an overlap |
| Glob.OverlapIsAccepted | tools/iam-validation/main.go:94-114 | "a*a" is taken to match "a" |
| Glob.ContainsPattern | tools/iam-validation/main.go:116-123 | True for every value in the language of some pattern |
| CacheKey.RoundTrip | controller/internal/cache/cache.go:69-71 | The length-prefixed text decodes to exactly its fields |
| CacheKey.CanonicalTextIsInjective | controller/internal/cache/cache.go:59-74 | Two inputs share a text exactly when they are equal once defaults are filled in |
| Pipeline.EventBus.Subscribe | controller/internal/events/bus.go:43-54 | A new subscription starts at the present; a closed bus refuses |
| Pipeline.EventBus.Publish | controller/internal/events/bus.go:56-81 | Duplicates are counted; a new event is offered once to every open subscription, in any order |
| Pipeline.EventBus.Close | controller/internal/events/bus.go:83-98 | Every open subscription ends |
| Pipeline.EventBus.Remove | controller/internal/events/bus.go:125-137 | One subscription ends |
| Pipeline.PublishKeepsSound | controller/internal/events/bus.go:61-81 | Sent plus dropped is the number of distinct events published while subscribed, in order, and the bus's drops are its subscriptions' |
| Pipeline.PublicationReaches | controller/internal/events/bus.go:56-81 | An event of a new id is published once and reaches every open subscription whose channel has room; exactly the full ones count a drop; a known id only counts as a duplicate |
| Pipeline.RuntimeExtension.Offer | controller/internal/extensions/dispatcher.go:102-113 | Received, then queued or dropped |
| Pipeline.RuntimeExtension.Execute | controller/internal/extensions/dispatcher.go:130-160 | Exactly one of succeeded and failed; panics and timeouts are failures |
| Pipeline.FeedingBalances | controller/internal/extensions/dispatcher.go:102-113 | Offering keeps received == queued + dropped and the queue's order |
| Pipeline.WorkingBalances | controller/internal/extensions/dispatcher.go:118-160 | Working keeps queued == succeeded + failed + waiting + in flight |
| Pipeline.StartIsSane | controller/internal/extensions/dispatcher.go:53-90 | Subscribing to a bus in any reachable state, with idle extensions, is a proper start |
| Pipeline.PipelineAccounts | controller/internal/extensions/dispatcher.go:92-160 | In every reachable state each extension has handled, in order and without repetition, some of the distinct events published while subscribed, and all counters add up |
| Pipeline.CountersCountOutcomes | controller/internal/extensions/dispatcher.go:130-160 | Over every run an extension's counters are how often its executions succeeded, failed, panicked and timed out |
| Pipeline.NothingIsLostBelowCapacity | controller/internal/extensions/dispatcher.go:92-128 | Channels and queues stay within their sizes, and if the events published fit them an extension has handled exactly these, in order, once nothing is on its way |
| Pipeline.StartIsBounded | controller/internal/extensions/dispatcher.go:53-90 | The dispatcher starts within these bounds |
| Metrics.CumulativeIsAtMost | controller/internal/observability/prometheus/prometheus.go:154-163 | The buckets up to a bound hold exactly the observations at or below it |
| Metrics.ObservingTallies | controller/internal/observability/prometheus/prometheus.go:150-164 | An observation keeps buckets, sum and count the tally of everything observed |
| Metrics.CounterIsSum | controller/internal/observability/prometheus/prometheus.go:127-134 | Over every sequence of changes a counter is the sum of its increments and never falls |
| Metrics.GaugeIsLastPlusSince | controller/internal/observability/prometheus/prometheus.go:136-148 | A gauge is the value it was last set to plus every adjustment since |
| Metrics.TypesTellKindsApart | controller/internal/observability/prometheus/prometheus.go:127-164 | One metric takes one kind of change; only setting and adjusting a gauge go together |
| Metrics.GatherHistogram | controller/internal/observability/prometheus/prometheus.go:262-270 | Every exposed cumulative bucket counts the observations at or below its bound; +Inf counts all |
| Metrics.NormalizeBuckets | controller/internal/observability/prometheus/prometheus.go:449-464 | The non-negative bounds, each once, strictly increasing |
| Metrics.SharesItsKeyIff | controller/internal/observability/prometheus/prometheus.go:334-346 | A label set shares its series key with a different one of its family if and only if some separator also occurs in the value before or behind it |
| Metrics.KeysTellSeriesApart | controller/internal/observability/prometheus/prometheus.go:334-346 | Two label sets in which no value contains the separator that follows it share a series exactly when they are equal |
| Metrics.UncleanIsShared | controller/internal/observability/prometheus/prometheus.go:334-346 | Every label set with a value that contains the separator that follows it has a different partner with the same key |
| Metrics.NULMergesSeries | controller/internal/observability/prometheus/prometheus.go:334-346 | Two concrete label sets that share a series |
| Metrics.ShownIsBounded | controller/internal/observability/prometheus/prometheus.go:348-368 | The distinct values a label shows stay within the limit |
| Metrics.Exporter.AdmitLabelValues | controller/internal/observability/prometheus/prometheus.go:348-368 | All of a new series' values are recorded, or none |
| Metrics.Exporter.Update | controller/internal/observability/prometheus/prometheus.go:186-231 | Which updates are refused, that a refused one changes no exposed series, what an accepted one changes, and that series count and limits hold |
| Stats.RunningMean | controller/internal/intelligence/stats/stats.go:206-209 | The incremental mean is the sum divided by the count |
| Stats.SummarizeDurations | controller/internal/intelligence/stats/stats.go:200-214 | The summary of the sorted durations |
| Stats.SummaryIgnoresOrder | controller/internal/intelligence/stats/stats.go:200-214 | The same durations in any order have the same summary |
| Stats.P95IsLeastCovering | controller/internal/intelligence/stats/stats.go:212 | P95 is the least sample value covering at least 95% of the sample |
| Stats.MedianHalves | controller/internal/intelligence/stats/stats.go:224-230 | At least half of the sample is at or below the median and at most half below it |
| Stats.MedianIsMiddle | controller/internal/intelligence/stats/stats.go:224-230 | The median lies half-way between the two middle values, rounded down |
| Stats.SummarizeResources | controller/internal/intelligence/stats/stats.go:232-253 | Running means and maxima are the means and maxima |
| Stats.HighestIsMaximum | controller/internal/intelligence/stats/stats.go:232-253 | A maximum is one of the values or 0, and no value is above it |
| Stats.Analyze | controller/internal/intelligence/stats/stats.go:97-198 | Exactly the valid, duplicate-free samples are analyzed, and the result is their report |
| Stats.ReportUnique | controller/internal/intelligence/stats/stats.go:128-172 | The report does not depend on the order in which maps are ranged over |
| Stats.OrderIsInvisible | controller/internal/intelligence/stats/stats.go:113-114 | The same samples in any order give the same report |

## Left out

- AWS, GCP, S3, GitHub HTTP, git, processes, HTTP servers, flags and redaction: wrappers over libraries that are not part of this model.
- Reconciling.Reconciler.Reconcile: MaxRecords truncation (controller/internal/lifecycle/reconciler.go:76-78), which makes real jobs look missing, failures of the three initial listings, cancellation between records, and the Report's counters and error texts are not modelled.
- Clock readings inside one pass: all saves of a pass share one time `at`.
- Coordination.MemoryStore.Renew: the source reads the clock for the check and again for the new expiry; a second, later reading is the same as a longer `ttl` here.
- A failing Terminate of the reconciler, the scheduler and the assignment is one that was cancelled, so it can fail for any instance; how many injected failures remain is an input.
- Metadata of runner specs: both cloning functions range over the map they have just made, so nothing is promised about it.
- Registry.Upsert and Registry.Remove: they replace or drop pools without regard to the ledger.
- Scheduling: one provider stands for all pools' providers, and the branch without a registry (controller/internal/scheduler/scheduler.go:77-105) is not modelled.
- Assigning.Service.Assign: policy checks (controller/internal/runners/runners.go:138-158, 181-185), missing dependencies and the spec's metadata are not modelled; other writers of the same record appear only as failing calls.
- HandleWorkflowJob and finish (controller/internal/controller/controller.go:32-178): `finish` can release twice, so no conservation is claimed.
- FileStore: file permissions other than the failing chmod, temporary files, and several processes on one file.
- EventTable.InsertAgreesWithMemory: payloads are maps, so a nil payload and an empty one are the same here; the source's fingerprint tells them apart ("null" and "{}") while the memory repository does not.
- EventTable: eventual consistency of the event index and network errors whose effect is unknown.
- The DynamoDB conditional save of records (controller/internal/state/dynamodb/repository.go:243-266, 400-525): its revision rule is the memory repository's, but it keeps the caller's update time and checks expiry against creation.
- DynamoDB stores expiries in whole seconds, so a record read back can differ from the one written in the fraction of its expiry.
- Pipeline: the report channel, metrics sink and shutdown timeouts; counting an event as received and queueing it are one step.
- Metrics.Exporter.Update: name and label sanitizing and the collisions of sanitized names, Register, the text exposition of Gather and infinite or NaN values.
- Stats: the four maps keyed by provider are one map of groups; JSON encoding.
- CacheKey.CanonicalTextIsInjective: validation of the fields and the digest.
- Archive retention, cost rounding, benchmark timelines, transition tables and configuration checks: finite or single-branch facts.
