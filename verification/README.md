# Runner scale controller: a Dafny model

The controller keeps one ephemeral Azure VM per assigned GitHub Actions job. It reacts to
listener callbacks, provisions VMs from several goroutines behind a shared gate, deletes
them from one goroutine per runner, and reconciles its table with what Azure lists. The
Windows path creates VMs through an ARM deployment whose outcome may stay unknown.

This project models that logic and proves what it is meant to guarantee, for every
interleaving, every answer the cloud may give, and every crash point.

| file | content |
|---|---|
| `Common.dfy` | optional values, results, ASCII text helpers |
| `ResourceNames.dfy` | Azure resource names and runner identities |
| `RunnerState.dfy` | the runner table as a value, one function per critical section |
| `RunnerTable.dfy` | the mutable table; every method is proved to act as that function |
| `Demand.dfy` | the demand correction and the ledger of completions behind it |
| `ScalerProtocol.dfy` | goroutines as program counters over the table, GitHub and Azure |
| `ScalerInvariant.dfy` | the inductive invariant, preserved by every action |
| `ScalerTheorems.dfy` | what follows for every run |
| `ScalerLimits.dfy` | runs that show why the exceptions in those theorems are there |
| `ProvisionGate.dfy` | any number of pools sharing the provisioning gate |
| `WindowsCloud.dfy` | the truth about one VM name in Azure, and what cleanup safety means |
| `WindowsManager.dfy` | Windows Create and Delete, one remote call at a time |
| `ArmRequest.dfy` | one management request: retries, pauses, polling |
| `Inventory.dfy` | pagination and the listing of runners with their orphans |
| `PoolConfig.dfy` | resolving pools and the labels they advertise |

`dafny verify dfyconfig.toml` checks the whole project.

## How to read it

**The scaler.** A `Sys` holds the runner table, the stage of every provisioner, the program
counter of every delete worker, GitHub's registrations and some history. An `Action` is one
atomic step of one goroutine or of the outside world. `Run(trace, actions)` is a finite run
from the initial state; the lemmas of `ScalerTheorems` speak about any index of any run.
Callbacks, scale-downs and reconciliations are enabled at all times with arbitrary
arguments, which covers every order in which the listener, the reconciler and the
trimming steps can happen. In particular a scale-down may use an excess computed
from any earlier state.

**Windows deployments.** `Cloud.w` is the truth, `Manager.known` the volatile memory of one
process. Before each call the cloud evolves arbitrarily (`Pass`), and each call may fail,
take effect without saying so, or be the last thing its process does (`Crashed`). `Inv`
holds at every such instant; it contains `Safe`, which speaks about the log of
submissions, VM appearances and deletions. A `calm` cloud neither evolves nor fails; the
contracts about it say exactly when a cleanup can finish. `Lifetime` is one Create followed
by any number of Deletes by any number of successive processes.

**Configurations** are Go structs passed by value; they are values here too, and validation
returns the configuration with its defaults filled in.

## Assumptions

- One live controller process works on a resource group. Within it, Create and Delete of one
  name never overlap and each name is created once; `ScalerTheorems.SingleFlightDeletion` and
  `ScalerTheorems.EachCreateBeginsOnce` prove that half.
- Reads of a NIC or public IP are authoritative; only deployment reads may lag. A PUT,
  PATCH or DELETE of one of them has taken effect when its call returns, or never does.
- A 4xx other than 408, 409 and 429 answering the deployment PUT means it was rejected.
  Any other failure of the PUT leaves the submission open.
- A runner name that was drawn is unused. Names contain 32 random hexadecimal digits.
- GitHub removes a registration by id only while it runs no job, and gives no job to a
  removed registration. Ids are not reused.
- A removal error whose text contains "404" or "not found" means that the registration is
  absent. The theorems except the workers for which this is wrong (`misread`);
  `ScalerLimits.MisreadRefusalDeletesBusy` is a run in which it is, and a busy runner's VM
  is deleted.
- A listing gives a runner the VM whose name its own name normalises to, and names in
  listings and job events are in normal form. The theorems except the names for which this
  is wrong; `ScalerLimits.MislabelledVmIsDeletedBusy`, `ScalerLimits.MislabelledRunnerLeaks` and
  `ScalerLimits.UnshapedNameIsDeletedBusy` show what happens to them.
- Outside the controller, only evictions remove VMs or network resources. They take a VM
  at any time, and its network resources only after the deployment has ended. Without this
  the markers of a running deployment can vanish, and a process without memory passes a
  check that finds none (`WindowsCloud.EvictionBeforeTheEndMisleads`). A deployment ends only
  after the VM it creates has appeared.
- Case folding and trimming know the ASCII letters and the Latin-1 white space.
- A context is a finite budget of waiting (`patience`).

## Where the source permits less than one might expect

- A crash after the `pending` markers and before the PUT blocks cleanup for good, although
  nothing was submitted: no later Delete by any process succeeds in any cloud
  (`WindowsManager.CrashBeforeSubmissionBlocks`). The same holds for every submission that never
  took effect while a resource carries a marker that does not release it
  (`WindowsManager.BlockedForGood`); in a still cloud this and a deployment that has not ended
  are the only obstacles after a restart (`WindowsManager.RestartAndDelete`).
- A process that remembers an uncertain submission and finds neither the deployment nor a
  network resource never finishes (`WindowsManager.RememberingBlocks`). It gets there by listing
  a VM of an earlier process that is evicted with its network afterwards
  (`WindowsManager.EvictedAfterAdoption`). A restart clears it.
- Once a tombstone has expired, a late event for its name makes the table track it again
  and counts its completion a second time (`ScalerLimits.ExpiredCompletionCountsTwice`). The
  theorems carry `expired`.
- Normalising a name loses information (`ResourceNames.NormalisationIsNotInjective`); runner
  names are unaffected.
- The comment at `controller/windows_deployment.go:100-102` leaves an uncertain PUT to a
  later retry. The code also lets six missing reads end a cleanup when the markers on the
  network resources release it; `WindowsCloud.Releasable` says exactly when.

## Model

| member | source | states |
|---|---|---|
| ScalerTheorems.SingleFlightDeletion | controller/scaler.go:201-260 | In every state of every run a name has exactly one delete worker when its entry is in flight and none otherwise; such an entry is deleting, not being created, and no provisioner owns it |
| ScalerTheorems.BusyRunnersAreProtected | controller/scaler.go:560-596 | A worker inside the Azure deletion of the VM of a runner whose job is running was started for a missing or stopped VM or an exceeded hard lifetime, whenever the job began; excepted are misread removal errors, names a listing gave a foreign VM, and names not in normal form |
| ScalerTheorems.JudgementIsExact | controller/scaler.go:568-580 | In every run a worker goes on to Azure if and only if deregistration succeeded or its reason is exempt; a busy answer hands any other runner back as busy, or still deleting if it completed meanwhile, and any other failure only ends the flight |
| ScalerTheorems.NoLeakedCapacity | controller/scaler.go:440-450 | A runner whose Create was started, whatever came of it, is tracked until the VM that this Create makes has been deleted for a worker started afterwards; excepted are names a listing gave a foreign VM |
| ScalerTheorems.EachCreateBeginsOnce | controller/scaler.go:440-445 | No name is created twice in a run |
| ScalerTheorems.DeferredDeletionsStart | controller/scaler.go:534-541 | A deletion asked for during a creation, or by its failure, is in flight once the provisioner passes it on, unless the runner was dropped already |
| ScalerTheorems.TrackingEndsOnlyAfterAzureDeletion | controller/scaler.go:581-593 | A tracked runner stops being tracked in exactly one kind of step, the end of a worker whose Azure deletion of the VM in its entry succeeded, which is the runner's own VM unless a listing said otherwise; then it has a tombstone |
| ScalerTheorems.LostAssignmentsHoldTheirPlace | controller/scaler.go:251-260 | A runner flagged missing counts as active until a worker ends in which both the GitHub deregistration, unless misread, and the Azure deletion of its VM succeeded |
| ScalerTheorems.NoResurrection | controller/scaler.go:262-283 | Tracked and tombstoned names are disjoint in every reachable state although four writers do not consult the tombstones |
| ScalerTheorems.CompletionIsSticky | controller/scaler.go:178-249 | A completed runner is deleting or its callback is about to ask for it, and completion is never undone while the runner is tracked |
| ScalerTheorems.CompletionsCountOnce | controller/scaler.go:120-133 | In every run the pending correction equals the ledger's queue, every counted completion stands in the ledger, and a name does so at most once unless its tombstone expired |
| ScalerTheorems.CompletionsEnterTheLedgerIff | controller/scaler.go:178-199 | A callback adds one ledger entry if and only if its name has no tombstone and no completed entry, and passes that guard a second time only after an expiry |
| ScalerTheorems.ReservationsRespectTheCap | controller/scaler.go:135-158 | The runners this process reserved and still tracks never exceed a positive cap |
| ScalerTheorems.CapacityFollowsDemand | controller/scaler.go:285-312 | In every run a reservation leaves at most the demand active, and a scale-down with whatever excess leaves at least the smaller of demand and what was active, and every runner that is not settled idle as it was |
| ScalerTheorems.ScaleDownsReachDemand | controller/scaler.go:285-312 | In every run a scale-down removes as much active capacity as limit, excess and idle runners allow, down to exactly the demand |
| ScalerTheorems.DemandFollowsTheReports | controller/scaler.go:95-133 | In every run a statistics message sets the corrected demand and leaves the desired count, and a desired count lowers, raises and clips it in closed form |
| ScalerTheorems.JobsMakeRunnersBusy | controller/scaler.go:160-176 | In every run a job starting on a live runner makes it busy, hence active and out of reach of scale-downs |
| ScalerTheorems.ListingsAreSeen | controller/scaler.go:317-341 | In every run the reconciler sees every tracked runner after a listing, with its last listing entry, or with unknown power if unlisted |
| ScalerTheorems.ReapDoomsExactlyTheDue | controller/scaler.go:671-707 | In every run, looking at a live runner, the reconciler has it deleted for the first reason that holds, recorded with it, and changes nothing at all if none holds |
| ScalerTheorems.ReapRetriesDeletions | controller/scaler.go:672-675 | In every run a runner seen deleting is deleted again for the recorded reason |
| ScalerTheorems.CreationsPassDeletionsOn | controller/scaler.go:445-448 | In every run a finished creation passes on exactly the deletion recorded meanwhile, and a failed one asks for its own after it stopped being in creation |
| ScalerLimits.MisreadRefusalDeletesBusy | controller/scaler.go:632-638 | A run in which a refused removal that reads like an absent registration has a busy runner's VM deleted because demand fell |
| ScalerLimits.MislabelledVmIsDeletedBusy | controller/scaler.go:581 | A run in which a listing that gives a busy runner's VM to another name has it deleted |
| ScalerLimits.UnshapedNameIsDeletedBusy | controller/scaler.go:178-191 | A run in which an event for a name that only normalises to a busy runner's has its VM deleted |
| ScalerLimits.MislabelledRunnerLeaks | controller/scaler.go:581-593 | A run in which a runner that a listing gave a foreign VM is forgotten while its own VM was never deleted |
| ScalerLimits.ExpiredCompletionCountsTwice | controller/scaler.go:344-348 | A run in which a completion reported again after its tombstone expired counts twice, for any name |
| ScalerInvariant.StepKeepsInv | controller/scaler.go:378-710 | Every action of every goroutine, of GitHub and of the cloud preserves the ownership, flight, registry, tracking, cap and ledger invariants |
| ScalerInvariant.RunKeepsInv | controller/scaler.go:378-710 | The invariant holds at every index of every run |
| Demand.UpdateClosedForm | controller/scaler.go:120-133 | With T the corrected demand, a count n makes T the smaller of T and n when n falls and T plus the rise otherwise; the desired count is T, clipped by a positive cap |
| Demand.CompletionClosedForm | controller/scaler.go:178-199 | A completion that counts lowers T by one, not below zero, bounds the desired count by it and does not count again; any other changes nothing |
| Demand.ReplaysKeepTheCorrection | controller/scaler.go:95-133 | After fresh statistics and any mixture of completions and replays of the same count, the target is that count less the completions that counted, and a replay asks for exactly this, clipped by the cap |
| Demand.StaleAgrees | controller/scaler.go:126-127 | A falling count acknowledges whole completions, oldest first, each at most once; none is lost from the ledger |
| Demand.CompletionAgrees | controller/scaler.go:194-198 | A counted completion adds exactly one entry for its name to the ledger |
| Demand.FreshAgrees | controller/scaler.go:97-102 | Fresh statistics move every pending completion out of the correction and lose none |
| RunnerTable.RunnerTable.ActiveCount | controller/scaler.go:63-73 | The loop returns the number of runners that are not deleting or are flagged missing |
| RunnerTable.RunnerTable.AddIdle | controller/scaler.go:81-93 | Records the VM and ends the creation; only a runner still provisioning becomes idle, so a deletion asked for meanwhile stands with its reason; other entries are untouched |
| RunnerTable.RunnerTable.UpdateDesired | controller/scaler.go:120-133 | The corrected demand becomes the smaller of itself and a falling count or rises with a rising one; the target is it, clipped by a positive cap; runners and tombstones are untouched |
| RunnerTable.RunnerTable.Reserve | controller/scaler.go:135-158 | Succeeds if and only if the name is neither tracked nor tombstoned, active runners are below demand and tracked ones below a positive cap; otherwise nothing changes |
| RunnerTable.RunnerTable.MarkBusy | controller/scaler.go:160-176 | A tombstoned or deleting name leaves the table unchanged; otherwise the runner is busy, its other fields and all other entries are kept |
| RunnerTable.RunnerTable.MarkCompleted | controller/scaler.go:178-199 | Reports and counts a completion if and only if the name is not tombstoned and was not completed before |
| RunnerTable.RunnerTable.MarkDeleting | controller/scaler.go:201-219 | Starts if and only if the name has no tombstone, no flight and no creation; a tombstone or flight leaves the table unchanged, otherwise the wish and its reason are recorded |
| RunnerTable.RunnerTable.DeletionFailed | controller/scaler.go:221-230 | Ends the flight of a tracked runner and changes nothing else |
| RunnerTable.RunnerTable.PreserveBusy | controller/scaler.go:232-249 | Ends the flight; the runner is busy without a reason unless it completed, then it stays deleting; no name is added |
| RunnerTable.RunnerTable.AwaitMissingRegistration | controller/scaler.go:251-260 | Flags the lost assignment, which then counts as active, and ends the flight; its other fields are kept |
| RunnerTable.RunnerTable.Remove | controller/scaler.go:262-267 | The entry is gone, its name has a tombstone of that time, every other entry, tombstone and counter is kept |
| RunnerTable.RunnerTable.IdleForDeletion | controller/scaler.go:285-312 | Takes as many of the oldest settled idle runners as limit and excess allow, marks exactly these in slice and map alike and returns them oldest first |
| RunnerTable.RunnerTable.ReconcileCloud | controller/scaler.go:314-350 | Adopts, refreshes, snapshots and prunes as specified in one critical section |
| RunnerTable.SortByCreation | controller/scaler.go:301 | Sorts by creation time and permutes |
| RunnerTable.PrefixIsAChoice | controller/scaler.go:294-304 | The prefix of the sorted idle runners contains no younger runner than any it leaves out |
| RunnerState.ReserveStaysWithinDemand | controller/scaler.go:144-157 | A successful reservation adds exactly one active runner and stays within demand and cap |
| RunnerState.ScaleDownKeepsDemandCovered | controller/scaler.go:285-312 | A scale-down keeps demand covered, respects its limit and leaves every runner that is not settled idle as it was |
| RunnerState.ObserveAllShape | controller/scaler.go:314-332 | A listing keeps the flags and id of every tracked runner and adds exactly the listed names that are neither tracked nor tombstoned |
| RunnerState.ReconcileForgetsNothing | controller/scaler.go:333-348 | A listing drops no runner, adopts no tombstoned name and prunes a tombstone only if it is unlisted and over an hour old |
| RunnerState.TombstonesHold | controller/scaler.go:262-267 | No event, deletion request, reservation or listing tracks a tombstoned name again |
| RunnerState.ReapReasonIsExact | controller/scaler.go:671-707 | A live runner not being created is deleted as stopped if and only if its listed or, failing that, looked-up power is stopped or deallocated; as missing iff neither shows it; as over-age or idle too long iff none of the earlier reasons holds; and not at all iff none holds |
| RunnerState.SnapshotShowsTheListing | controller/scaler.go:317-341 | The reconciler sees each runner with the VM of its last listing entry, or without a power state if it is unlisted |
| RunnerState.ScaleDownReachesDemand | controller/scaler.go:285-312 | A scale-down takes the smaller of limit, excess and settled idle runners; with enough of each it leaves exactly the demand |
| ProvisionGate.GateConservation | controller/scaler.go:423-456 | In every run of any number of pools, reservations being created are at most the held slots, which equal the gate's tokens, which never exceed its width |
| ProvisionGate.StepCountsSlots | controller/scaler.go:423-456 | The number of held slots rises with an acquire, falls with a release and changes in no other step |
| ProvisionGate.EverySlotComesBack | controller/scaler.go:430-454 | In every run a provisioner that holds a slot keeps it until it returns it, and has returned it after at most nine steps of its own |
| ProvisionGate.HolderHasAStep | controller/scaler.go:430-454 | A provisioner that holds a slot always has a next step |
| ProvisionGate.StepLowersRank | controller/scaler.go:430-454 | Each of its own steps brings a holder closer to its release, and no other step of the system touches it |
| ProvisionGate.SlotsReturnAfterSettling | controller/scaler.go:445-450 | A slot goes back only after its reservation stopped being in creation |
| ProvisionGate.ReleaseNeverBlocks | controller/scaler.go:437-450 | Whoever returns a slot finds a token to take |
| ProvisionGate.FleetRunKeepsInv | controller/main.go:46-61 | Rebuilding a pool after its workers have returned keeps the shared gate and all pool invariants |
| WindowsManager.Lifetime | controller/azure.go:81-251 | Over one Create and any number of Deletes with crashes, restarts, lag and uncertain answers anywhere: at most one submission, only over durable markers; deletions only after finality, the VM before its network once anything was submitted; and afterwards no future of the cloud brings a VM |
| WindowsManager.Manager.Delete | controller/azure.go:229-251 | Success leaves no VM, network resource or metadata, a final deployment and no memory; memory is lost by success only; in a calm cloud it succeeds if and only if the deployment ended or the memory and markers release it; from a hopeless state it never succeeds and moves nothing |
| WindowsManager.RestartAndDelete | controller/azure.go:229-251 | In a still cloud a process without memory finishes, leaving nothing, if and only if the deployment ended, or never took effect and no marker holds the network back |
| WindowsManager.DeleteTwice | controller/azure.go:229-251 | A Delete after a successful one succeeds too and leaves nothing, with or without a restart between |
| WindowsManager.BlockedForGood | controller/windows_deployment.go:100-119 | A submission that never took effect, with an unreleasing marker left, blocks every later Delete by any process in any cloud, and nothing is deleted |
| WindowsManager.CrashBeforeSubmissionBlocks | controller/windows_deployment.go:56-61 | A crash between the pending markers and the submission leaves such a state |
| WindowsManager.RememberingBlocks | controller/windows_deployment.go:103-120 | Remembered uncertainty about a final deployment without a trace blocks every later Delete by that process in any cloud |
| WindowsManager.EvictedAfterAdoption | controller/azure.go:321-323 | Listing a VM of an earlier process and its eviction with the network lead there |
| WindowsManager.Manager.Create | controller/azure.go:81-227 | A denied deployment read creates nothing; a failed NIC takes the public IP back; with the network in place a calm cloud gets the submission; an end that was seen to succeed and recorded, or a VM found after a preemption, is never reported as failure nor cleaned up; every other failure is cleaned up, and in a calm cloud that finishes if and only if the deployment is final |
| WindowsManager.Manager.CreateRunnerVM | controller/windows_deployment.go:56-80 | Submits at most once over pending markers; succeeds exactly with its polling, whatever becomes of the metadata; success means the deployment succeeded and every surviving marker is terminal; a rejection is recorded as terminal |
| WindowsManager.Manager.Wait | controller/windows_deployment.go:83-163 | Reports exactly what it saw: a recorded end is a success if and only if in cleanup or succeeded, and it gives up otherwise only for an unreadable or stateless answer, six misses, a failed cancellation or an exhausted budget; cleanup cancels promptly and at most once |
| WindowsManager.Manager.RecordEnd | controller/windows_deployment.go:132-147 | Once the terminal markers are persisted the outcome is success if and only if in cleanup or the deployment succeeded |
| WindowsManager.Manager.AfterMissingReads | controller/windows_deployment.go:100-119 | Six misses end a cleanup if and only if memory or markers release it, and then the name is recorded as settled |
| WindowsManager.Manager.CheckMarkers | controller/windows_deployment.go:231-256 | Success implies the deployment is settled in truth; in a calm cloud it succeeds if and only if every existing resource carries a releasing marker |
| WindowsManager.Manager.Persist | controller/windows_deployment.go:178-229 | Success for pending means every configured resource exists, reads pending and keeps its ownership tags; for terminal, that every existing one reads terminal |
| WindowsManager.Manager.Finish | controller/windows_deployment.go:165-173 | Metadata is gone only over a settled deployment whose surviving markers are terminal if it ended |
| WindowsCloud.WeatherKeepsInv | controller/windows_deployment.go:50-55 | Whatever the cloud does by itself, the tie between true phase, markers and history holds |
| WindowsCloud.FinalIsForever | controller/windows_deployment.go:100-102 | After finality no VM appears, nothing changes phase and resources only vanish |
| WindowsCloud.NoVmAfterCleanup | controller/windows_deployment.go:100-102 | Once a deletion was issued no future of the cloud contains a new VM |
| WindowsCloud.CleanupKeepsInv | controller/azure.go:238-246 | A deletion over a settled deployment is safe whether or not it takes effect |
| WindowsCloud.AppendKeepsSafe | controller/windows_deployment.go:46-61 | When an event may extend a safe history |
| WindowsCloud.EvictionBeforeTheEndMisleads | controller/azure.go:138-206 | Had the network of a running deployment been evicted, a process without memory would pass the markers exactly when none is left, although a VM can still appear |
| ArmRequest.RequestWithRetry | controller/azure.go:434-497 | For every behaviour of the network, exactly what the last attempt says unless a pause outlasts the context or Azure took the request on, and then exactly what the polls say; only prescribed sleeps use up the context, and a context error is reported if and only if they did; the loop's end is unreachable |
| ArmRequest.ResendingIsSafe | controller/azure.go:446-493 | At most five attempts, or one; nothing is sent again after an answer that names an operation with an accepted or 5xx status |
| ArmRequest.TransientAnswersAreRetried | controller/azure.go:459-487 | A lost or throttled request or a plain server failure is given up only after the last attempt or when the context ends |
| ArmRequest.TakenOnSucceedsIffDone | controller/azure.go:477-482 | A request taken on succeeds if and only if its last poll says done |
| ArmRequest.WaitForOperation | controller/azure.go:499-531 | The verdict is the one the polls impose, and a polling failure is never an HTTP failure of a mutation |
| ArmRequest.FinishedOperationsAreReported | controller/azure.go:504-530 | No poll before the last decides the operation; the last one makes it a success if and only if it says done and an operation failure if and only if it says failed |
| ArmRequest.RejectionIsReadExactly | controller/windows_deployment.go:62-72 | A PUT counts as rejected if and only if its own last answer turned it down; no transport error, expiry or failed poll looks like that |
| ArmRequest.SubmitDeployment | controller/windows_deployment.go:61-72 | The deployment PUT is one exchange, called rejected if and only if that exchange was turned down |
| ArmRequest.RetryDelay | controller/azure.go:542-549 | Between one second and one minute, and the server's wish when it lies in that range |
| ArmRequest.BackoffDoubles | controller/azure.go:548 | Without a wish the delay starts at one second, doubles, and stays at 32 |
| Inventory.ListTaggedResources | controller/azure.go:258-302 | Terminates on every finite page graph; succeeds if and only if following the links comes to an end through valid readable pages; fails as repeated only on a page it has visited; lists only resources with this pool's tags, and of every such resource on the pages the name |
| Inventory.RepeatedIsEndless | controller/azure.go:277-279 | Refusing a repeated page refuses no listing that could have ended |
| Inventory.FirstsAreTheFirstOccurrences | controller/azure.go:292-298 | The result is, in order, exactly the first owned resource of each name |
| Inventory.FirstsHaveDistinctNames | controller/azure.go:292-298 | No name occurs twice |
| Inventory.Manager.List | controller/azure.go:304-359 | Fails if and only if one of three listings does; otherwise distinct VM names covering exactly the live VMs and the runners named by network resources, each live row with exactly the power that was read and the tagged runner and creation, each orphan row with its tags and unknown power; doubt is remembered for exactly the live and undecided names and never overrides what was known |
| Inventory.InventoryCoversAll | controller/azure.go:311-357 | Every VM not gone and every runner named by a network resource is in the inventory |
| Inventory.OrphansCompleteTheTable | controller/azure.go:331-357 | Orphans are appended to the unchanged live rows; every runner the network names has exactly one row and no other row is added |
| Inventory.LiveRowsAreALiveTable | controller/azure.go:311-326 | One row for every listed VM that is not reported gone, and only for those |
| PoolConfig.PoolConfigs | controller/config.go:278-344 | Accepts if and only if every pool, enabled or not, is fit, names and profile labels are distinct without regard to case and some pool is enabled; returns the enabled ones in order |
| PoolConfig.ConfigsTakeAfterTheirPools | controller/config.go:288-338 | Each resolved configuration is that of one enabled pool: its own name, size, cap, priority, tier, OS type, labels and image, the shared image and checksum for Linux only, and everything else shared |
| PoolConfig.EnabledPoolsAreServed | controller/config.go:336-338 | Every pool that is not switched off has its configuration in the result |
| PoolConfig.WindowsNeedsItsOwnImage | controller/config.go:307-325 | An enabled Windows pool without its own image is refused whatever image is shared |
| PoolConfig.UnusableListsAreRefused | controller/config.go:290-342 | Lists with every pool switched off, or with one name twice in any case, are refused |
| PoolConfig.ResolvedConfigsAreInRange | controller/config.go:182-272 | Caps, concurrency, intervals, priority, disk and the required settings of every resolved configuration are within their limits |
| PoolConfig.ResolvedMachines | controller/windows_profiles.go:11-25 | Tiers mean their capacities, and Windows pools run on one of three sizes with 128 or 512 GiB |
| PoolConfig.ResolvedNames | controller/config.go:289-300 | Names and VM sizes of resolved pools have the accepted form |
| PoolConfig.NamedProfilesFixTheMachine | controller/windows_profiles.go:26-46 | A label that names a Windows profile fixes OS, VM size and disk, and no other name of that form is accepted |
| PoolConfig.SystemLabelsAgree | controller/config.go:213-221 | No configured label is blank, and a configured OS label is that of the pool |
| PoolConfig.ValidateOne | controller/config.go:177-274 | Accepts exactly the fit configurations and returns them with the defaults filled in |
| PoolConfig.CheckLabels | controller/config.go:212-228 | Accepts labels if and only if none is blank, OS labels match the OS type and one is a profile label |
| PoolConfig.ResolutionMeansRoutable | controller/config.go:285-339 | Checking pool by pool against what earlier ones claimed accepts exactly the lists without a clash anywhere |
| PoolConfig.ProfileLabelsAreDistinct | controller/config.go:326-335 | No profile label occurs twice within a pool or in two pools, disabled ones included |
| PoolConfig.OneListenerPerJob | controller/config.go:366-377 | A job asking for anything besides an operating system is served by at most one listener |
| PoolConfig.AdvertisesProfilesThenSystem | controller/config.go:366-377 | Each listener advertises at least one profile label, then exactly one OS label, that of its type |
| PoolConfig.ProfileLabelsAreTheConfigured | controller/config.go:366-373 | The advertised profile labels are exactly the configured ones, trimmed |
| PoolConfig.OperatingSystemLabels | controller/config.go:362-364 | The reserved labels are linux, windows and macos in any case |
| PoolConfig.ResolvingAgainChangesNothing | controller/config.go:278-284 | A resolved configuration resolves to itself |
| PoolConfig.ScaleSetLabels | controller/config.go:366-377 | The loop computes the advertised labels |
| PoolConfig.EffectiveOSDiskSize | controller/config.go:454-470 | Defined if and only if at least 64 was asked and the tier, if any, holds it; it is the tier's capacity, or what was asked without a tier, and never smaller than asked |
| ResourceNames.AzureResourceName | controller/azure.go:565-592 | Always 1 to 54 characters of lower-case letters, digits and dashes without a dash at either end |
| ResourceNames.NameIsTheCore | controller/azure.go:565-592 | The name is the text from its first to its last letter or digit, in lower case, with every other character a dash; over 54 characters it keeps the first 41 and the last 12 |
| ResourceNames.NothingUsableIsRunner | controller/azure.go:576-579 | A text without a letter or digit is named runner |
| ResourceNames.FixedPointsAreTheShapedNames | controller/azure.go:565-592 | Normalisation leaves a text alone if and only if it already is an acceptable name |
| ResourceNames.NormalisationIsIdempotent | controller/azure.go:565-592 | Normalising twice is normalising once |
| ResourceNames.NormalisationIsNotInjective | controller/azure.go:566 | Two texts with one name |
| ResourceNames.RunnerNamesAreFixedPoints | controller/scaler.go:458-462 | Every fresh runner name is its own VM name, for any profile |
| ResourceNames.DistinctIdentitiesGiveDistinctVMs | controller/scaler.go:458-462 | Runners share a VM name only if they drew the same identity, even across profiles |

## Left out

- HTTP transport, tokens, JSON, logging and real clocks: replaced by arbitrary outcomes, logical times and finite waiting budgets.
- The Linux VM path (`controller/azure.go:160-206` and the direct PUT): one request with the ordinary retry loop and no markers.
- Request bodies, OS profiles, cloud-init text, base64, checksums and the generation of random identities.
- Reading the environment and pool JSON (`controller/config.go:75-171`): field by field checks.
- The Windows account rules, the GitHub App check and URL parsing (`controller/config.go:191-231`): taken as given predicates.
- The pause after a failed provisioning and its durations (`controller/scaler.go:473-503`): a provisioner may return its slot unused at any time, which covers it.
- The internals of the scale-set listener: only that callbacks come one at a time is used.
- Image building, Bicep and deployment scripts.
- Liveness beyond the calm-cloud contracts: no fairness of goroutines or of Azure is modelled.
- WindowsManager.Manager.Create: speaks about one VM name; resource quotas and the preemption error text are an arbitrary choice.
- WindowsManager.Manager.Wait: waiting consumes one unit per poll instead of seconds.
- Inventory.Manager.List: concurrent writers of the submission map are modelled on the deletion side (`WindowsManager.Manager.Pass`), not here; creation times stay the text of their tag.
- Inventory.ListTaggedResources: a listing with endlessly many different pages is outside the finite page graph.
- RunnerTable.RunnerTable.ReconcileCloud: the slice the source returns is a map from names here, since its order is that of a Go map.
- PoolConfig.PoolConfigs: error texts, and which of several missing settings is reported.
- ScalerTheorems.CapacityFollowsDemand: bounds hold at the reservation and the scale-down itself; adoption and events for unknown names can raise the number of runners above demand and cap.
- ArmRequest.RequestWithRetry: response bodies over the read limit and header spelling.
