# astrolab's build engine, verified

astrolab processes astrophotography sessions with a small content-addressed build system: a template is a
DAG of nodes, every node's output is cached under a hash of what went into it, and only what a change can
reach is run again. This project models that engine in Dafny and proves what it promises: the incremental
runner, the cache key, the crash-safe store, eviction, the job queue, and the project history. Image
processing is only the opaque work done at a node.

Each imperative part of the program is a method or a class here, proved equal to a specification function;
the results are lemmas about those functions, over every input and every run.

## What is assumed

- `Node.run` is a deterministic function of class id, version, parameters, extra keys and input contents
  (`Runtime.RunFn`); a raised exception is `None`. The content behind an external path does not change.
- The digest is injective, so a cache key is represented by what it digests. In `Runtime` it is a structured
  value (`Hash`); `KeyDigests` proves that two such values are the same exactly when the digests of the texts that
  stand for them are, however deep the keys are nested (`NamesTellKeys`).
- A list-typed input reaches a node as a multiset: the key forgets the order of the list, so a node has to.
- One transaction is one step. Recursive deletion of an entry is one step. Removing an entry gives exactly its
  recorded bytes back to the disk.
- Clocks, process ids, heartbeats and the outside world are parameters: which rows look stale, when a cancel
  arrives, what a node reports, what the remote answers, what time it is.

## How the files belong together

| part of the program | files |
|---|---|
| the runner (server/runtime.py) | `Models`, `Events`, `Topology`, `Runtime`; proofs in `Incremental`, `FromScratch`, `Execution`, `LazyRerun`, `RunCorrectness`, `Rebuild`, `Completion`, `SweptRuns`, `Shadowing`, `DottedIds` |
| the cache key (server/canonical.py) | `Sorting`, `Decimals`, `Canonical`, `JsonText`, `NodeHash`, `KeyMeaning`, `KeyDigests` |
| the store (server/cache.py) | `CacheStore`, `CommitProtocol`, `InUse` |
| storage (server/storage.py) | `Reachability`, `Accounting`, `Storage`, `Eviction`, `Headroom` |
| jobs (server/jobs.py, server/api.py) | `Jobs`, `JobRuns`, `EventStream` |
| projects (server/projects.py, server/template_migrations.py) | `Overrides`, `Migrations`, `Strings`, `Projects`, `Overwriting` |
| progress, calibration, mirroring | `Progress`, `SirilProgress`, `Calibrate`, `DarkOrder`, `CalibrateProgress`, `ScopeMirror` |

## The main results

- **Incremental equals from scratch.** `FromScratch` defines evaluation as the one solution of the template's
  data-flow equations, without keys, cache or order. For every acyclic template, job, execution order, pattern of
  cancellations and failures, and every cache whose entries hold what their keys denote, a run that returns
  yields the from-scratch value at every declared output (`IncrementalEqualsFromScratch`), however it ends the
  cache stays sound (`RunKeepsCacheSound`), and it does return whenever every node succeeds from scratch, nobody
  cancels, and disk and cache take what is written (`RunReturns`).
- **Sweeps during a run** never make it wrong: a declared output of a run that returns reads as its from-scratch value
  if and only if its entry has not been swept since, and the entries of nodes that ran are never swept
  (`SweptRunIsRight`). Sweeps that leave the replayed hits alone change nothing (`SweptRunReturns`).
- **Minimal rebuild.** The must-run set is exactly the misses with a path of misses to an output
  (`MustRunExact`); a parameter change alters no key outside the descendants of the changed nodes
  (`HashLocality`) and executes nothing else (`MinimalRebuild`); a rerun executes nothing
  (`RerunExecutesNothing`).
- **The key forgets exactly the irrelevant.** Equal streams if and only if the executions agree on everything that
  matters (`KeyIsFaithful`), and comparing digests is comparing the runner's keys all the way up (`NamesTellKeys`).
- **Commits survive crashes** between any two steps, with their outputs and warnings (`CommitIsCrashSafe`), and
  **in-use marks protect exactly** the entries that a shield condition describes (`ShieldIsExact`).
- **Storage** is accounted for from the cache and the project histories alone: every committed byte is unreachable,
  owned or joint (`ReportStorage`), and a purge takes exactly what only its project reaches and leaves every other
  project its entries and bytes (`PurgeProjectCache`, `PurgeFromHistories`).
- **Eviction** is ordered, needed and accounted (`EvictedInOrder`, `SweepAccounts`), and the headroom call fails
  exactly when the disk cannot take the need (`InsufficientExactly`).
- **Jobs** are claimed at most once under any interleaving (`ClaimedAtMostOnce`); terminal is final if and only if
  every write finds its row running (`TerminalIsFinal`); a poll sends exactly the log up to its first terminal
  event (`Streamer.Poll`).
- **Progress** along every log the runner can write, replayed warnings included, stays within bounds and never goes
  back (`RunProgressMonotone`).
- **Projects** read back from their rows as they are in memory if and only if no patch overwrote a swap or upgrade
  entry (`RehydratesExactly`).

## Where the program is weaker than it reads

Each of these is a theorem here: the exact condition, and a case outside it.

- External inputs and node outputs share one map of refs. If a job hands in a file under the name of an output that
  another node is wired to, the planned key names the file while the node is run on the output, and the cache
  then serves a wrong entry. Keys follow the edges if and only if no wired name is both
  (`KeysFollowEdgesExactly`, `ShadowPoisonsCache`).
- The same map makes an optional port without a value read its own node's placeholder when an output of the node has
  the port's name: the key recomputed after planning is the planned one if and only if no such port exists
  (`SelfFeedExactly`), and with one the node fails when its turn comes (`SelfFedFails`). No node class of the
  repository has such a port today: only calibrate has optional ports, and its output has another name.
- A template may name a node with a dot, but keys are cut at the first one. The dependency graph keeps every edge if and
  only if no producer's id has a dot (`DependenciesKeptExactly`). A node with such an id is never selected to run
  (`DottedNeverRuns`), and a run can return its output with nothing behind it (`DottedRunReturnsNothing`).
- A replayed hit is marked only once a node that runs reads it. Its entry can be lost to a sweep if and only if that has
  not happened (`LostExactly`); with one sweep before it returns, a run then hands out an output that is gone
  (`SweptAway`, `HitRunLosesItsOutput`).
- `canonical_value` says that field precisions only apply at the top level. They apply to every float that is the value
  of a field, also in nested dicts and in dicts inside lists; a float that is itself an item of a list has no field
  (`PrecisionReachesNestedDicts`). The result is the documented one if and only if every float below the outermost
  dict that stands under a name with a precision rounds the same with and without it (`DocumentedExactly`,
  `NestedThousandth`).
- `reserve` without force leaves a committed entry in place, so a second writer of the same key (two equal nodes in
  one template, or two jobs) works under a valid commit marker; a crash then leaves a committed entry with a torn
  manifest or missing files (`ReopeningCanTear`, `ReopeningCanLoseFiles`). After a step from a sound state committed
  entries stay complete in every continuation that reopens nothing if and only if the step reopens nothing
  (`CompleteExactly`).
- A sweep goes through a fixed listing of committed entries, with a snapshot of live jobs taken once, and checks and
  removes an entry in two steps. A mark lasts as long as its job if and only if no sweep is about to remove the entry
  and no sweep that still has it to look at took its snapshot without the job (`ShieldIsExact`); a job submitted
  after the snapshot that marks a listed entry loses it (`LateMarkIsLost`).
- `reclaim_stale` appends its event even when its guarded update changed nothing, and `_terminate` has no guard.
  Every finished job has one end, the last of its log, if and only if every write finds its row running
  (`TerminalIsFinal`); a run from the start in which two reclaimers write two ends is `TwoEndsFromTheStart`.
- `ensure_disk_headroom` looks at the disk again after its sweep, not at the budget: the budget has room exactly when
  what live jobs hold leaves room (`SweptRoom`); with ten bytes in use and a budget of five the call returns and one
  byte does not fit (`ReturnsOverBudget`).
- A patch overwrites an entry whose job it cancels, counting on the job to end interrupted. Until then the job has not
  completed or failed (`OverwritesUnfinished`), but it can still complete if and only if a worker is past its check of
  the flag (`CompletesAnywayExactly`), and then no entry names the finished render (`CompletedInNoEntry`).
- A patch that collapses onto a swap or upgrade entry makes it an edit in memory and leaves `kind` and
  `snapshot_json` in the row: memory and rows agree if and only if no patch of the run did that
  (`RehydratesExactly`, `SwapThenPatchDrifts`).
- The dark of a light depends on the order of the dark list if and only if two different darks could be chosen: two
  matching ones equally near, or any two matching ones when the light has no temperature (`TieFollowsOrder`,
  `TwoOrdersTwoDarks`). A key that has only the refs forgets that order (`RefsForgetOrder`); the job builder also lists
  the darks as a parameter in the order of the refs, and then the key knows it and every light gets the same dark
  (`BinsFixDark`).
- The bar of a multi-dark calibration goes back if and only if some group before the last leaves fewer files than
  the share of its frames that it last reported (`BarRisesExactly`). A group's own reports rise
  (`SirilProgress.Handler.HandleAll`) and end at 0.95, so ninety files out of a hundred make the bar go back and
  ninety-five do not (`NinetyGoBack`).
- Job progress never goes back along an orderly log (`ProgressMonotone`), and can on a log where a second node starts
  before the first is done, which the runner does not write (`ProgressCanDrop`, `RunIsOrderly`).
- `copy_file` looks at sizes, not at content: it takes a local file of the right size for a finished copy
  (`WrongFileStays`), and goes on from any part file that is not too long (`StalePartIsKept`). From any disk, a finished
  call has the remote's bytes if and only if the local file of that size, or else the part, was the remote's
  (`CopyIsExact`).

## Model

| member | source | states |
|---|---|---|
| `Topology.BuildDeps` | server/runtime.py:120-127 | the dependency map holds, for each node, exactly the in-template nodes its edges read from |
| `Topology.Sorter.Visit` | server/runtime.py:132-142 | a visit keeps the finished part ordered and either finishes the node or returns a node that lies on a cycle |
| `Topology.TopoOrder` | server/runtime.py:120-146 | terminates; an order results if and only if there is no cycle, with each node once and producers first; otherwise the named node is on a cycle |
| `Topology.OrderedMeansAcyclic` | server/runtime.py:120-146 | a graph with a topological order has no cycle |
| `Runtime.ParamsPrecedence` | server/runtime.py:101-117 | a parameter is the job's override, else the template's value, else the profile's default for the node, else for the kind |
| `Runtime.ResolveInputs` | server/runtime.py:160-192 | edges win, then external inputs; fails exactly when a required port has no value |
| `Runtime.Successors` | server/runtime.py:149-157 | the consumers of a node are exactly the nodes that read from it |
| `Runtime.Plan` | server/runtime.py:271-305 | pass 1 is the planning fold that the results below are about |
| `Runtime.SelectMustRun` | server/runtime.py:307-319 | the backward loop computes the must-run set |
| `Runtime.Execute` | server/runtime.py:321-516 | pass 3 is the execution fold: hits replayed with their stored warnings, skips, misses run, every failure (no disk room and a refused commit included) and cancellation where it can occur |
| `Runtime.PublishOutputs` | server/runtime.py:518-547 | returns all declared outputs if each is usable, and fails otherwise |
| `Runtime.RunJob` | server/runtime.py:207-547 | a cyclic template is refused with the cache untouched; otherwise the report is that of a run over a topological order |
| `Incremental.PlanMatchesScratch` | server/runtime.py:271-305 | each planned key, hit or not, denotes the result that evaluating the node gives |
| `FromScratch.ScratchEvaluates` | server/runtime.py:253-264 | evaluating the nodes in a topological order solves the data-flow equations |
| `FromScratch.SolutionsAgree` | server/runtime.py:253-264 | the data-flow equations have one solution, whatever the order of evaluation |
| `Execution.LiveResolve` | server/runtime.py:389-393 | a node that runs sees the inputs it was planned with: the key recomputed from real refs is the planned one |
| `Execution.PassIsOk` | server/runtime.py:321-516 | at every point of the execution pass the cache is sound, what ran was planned to run, and what was replayed or run is available |
| `LazyRerun.MustRunExact` | server/runtime.py:307-319 | a node must run if and only if it is a miss with a path of misses to a declared output |
| `RunCorrectness.RunKeepsCacheSound` | server/runtime.py:207-547 | however a run ends, every entry holds what its key denotes, and only must-run misses were executed |
| `RunCorrectness.SourcesProvided` | server/runtime.py:526-536 | an output's source is a hit or must run: the internal-bug error cannot be raised |
| `RunCorrectness.IncrementalEqualsFromScratch` | server/runtime.py:207-547 | every declared output of a run that returns reads as its from-scratch value |
| `Completion.PlanSucceeds` | server/runtime.py:271-305 | if every node can be evaluated from scratch, planning does not fail |
| `Completion.ProducerProvided` | server/runtime.py:389-393 | every producer a must-run node reads from was replayed or run, never skipped |
| `Completion.NoPlaceholderIsRead` | server/runtime.py:379-393 | in every run, what a must-run node reads is an external file or an output of a committed entry, never a placeholder |
| `Completion.PassGoes` | server/runtime.py:321-516 | if every node succeeds from scratch, nobody cancels, and disk and cache take what is written, no step of the execution pass stops |
| `Completion.RunReturns` | server/runtime.py:207-547 | under the same conditions a run returns, from any sound cache |
| `SweptRuns.SweptPassIsOk` | server/runtime.py:395-425 | whatever sweeps take and however the pass ends, the entries that are left hold what their keys denote, what ran was planned to run, and marked entries are there |
| `SweptRuns.SweptRunIsRight` | server/runtime.py:395-547 | under sweeps each declared output of a run that returns reads as its from-scratch value if and only if its entry is still there, and the entries of nodes that ran are |
| `SweptRuns.LostExactly` | server/runtime.py:417-425 | an output can be lost to one more sweep if and only if the run has not marked its entry |
| `SweptRuns.HarmlessSweeps` | server/runtime.py:395-425 | sweeps that take no replayed hit's entry change nothing in an unforced run but entries the plan has no key for |
| `SweptRuns.SweptRunReturns` | server/runtime.py:395-547 | under such sweeps a run returns with all its outputs whenever it does without sweeps |
| `SweptRuns.SweptAway` | server/runtime.py:327-378 | one sweep after the last node takes a replayed output that no node read |
| `SweptRuns.HitRunLosesItsOutput` | server/runtime.py:327-378 | a one-node run on a full cache that returns an output whose entry a sweep has taken |
| `DottedIds.DependenciesKeptExactly` | server/runtime.py:120-127 | the dependency graph keeps every edge of the template if and only if no producer's id has a dot |
| `DottedIds.DottedNeverRuns` | server/runtime.py:257-319 | a node whose id has a dot is never selected to run |
| `DottedIds.DottedRunReturnsNothing` | server/runtime.py:518-547 | a run of one such node executes nothing, returns, and its output is not there |
| `Rebuild.HashLocality` | server/runtime.py:271-305 | a parameter change alters no key outside the descendants, whatever the caches hold and the orders of the two runs |
| `Rebuild.MinimalRebuild` | server/runtime.py:307-393 | when everything planned before is committed, only changed nodes and their descendants are executed |
| `Rebuild.RerunExecutesNothing` | server/runtime.py:307-393 | an unforced rerun of a request that returned executes no node |
| `Rebuild.ExecutedAreNeeded` | server/runtime.py:379-393 | what was executed lies on a path of misses to an output and has the planned key |
| `Shadowing.KeysFollowEdgesExactly` | server/runtime.py:292-305 | planned keys name the producers along every edge if and only if no wired name is both an external input and an output |
| `Shadowing.SelfFeedExactly` | server/runtime.py:160-192 | the key recomputed after planning is the planned one if and only if no optional port without a value has the name of one of its node's outputs |
| `Shadowing.SelfFedFails` | server/runtime.py:389-393 | a node with such a port that must run fails, unless its entry is there already |
| `Shadowing.ShadowPoisonsCache` | server/runtime.py:263-305 | a two-node run under such a name leaves an entry that is not what its key denotes |
| `Sorting.ByKeyForgetsOrder` | server/canonical.py:84-89 | sorting a dict by key forgets its insertion order and nothing else |
| `Decimals.NearestIsNearest` | server/canonical.py:31-38 | rounding gives the closest value, and the even one of two that are equally close |
| `Decimals.NoiseForgotten` | server/canonical.py:31-38 | noise of less than half a unit in the last place is forgotten |
| `Decimals.DifferenceSurvives` | server/canonical.py:31-38 | a difference of more than a unit in the last place survives |
| `Decimals.ReadFloatText` | server/canonical.py:130-136 | the text of a float, positional or with an exponent, can be read back |
| `Canonical.CanonExact` | server/canonical.py:55-108 | two values have one canonical form if and only if they differ in item order and float noise at most |
| `Canonical.CanonIdempotent` | server/canonical.py:55-108 | canonicalising twice is canonicalising once |
| `Canonical.DocumentedExactly` | server/canonical.py:64-106 | the canonical form is the documented one if and only if every float below the outermost dict rounds the same with its name's precision and without |
| `Canonical.NestedThousandth` | server/canonical.py:64-106 | a thousandth under a two-place name is lost in a nested dict, where the documentation keeps it |
| `Canonical.PrecisionReachesNestedDicts` | server/canonical.py:84-106 | a field precision reaches a float in a nested dict, also in a dict inside a list, but not a float that is an item of a list |
| `JsonText.TextUnique` | server/canonical.py:129-136 | the text of a value, followed by anything that cannot continue it, determines the value |
| `JsonText.RefusedExactly` | server/canonical.py:130-136 | the encoder refuses exactly the values with a NaN or an infinity |
| `JsonText.TextFaithful` | server/canonical.py:111-136 | equal canonical texts if and only if equivalent parameters |
| `NodeHash.EncodeRef` | server/canonical.py:139-152 | feeds hash, port, and for external refs the path |
| `NodeHash.EncodeInput` | server/canonical.py:186-205 | feeds one ref, or a list in sorted order between brackets |
| `NodeHash.EncodeInputs` | server/canonical.py:184-206 | feeds the ports one after the other |
| `NodeHash.EncodeExtra` | server/canonical.py:210-216 | feeds the extra keys in order, and nothing at all when there are none |
| `NodeHash.ComputeHash` | server/canonical.py:155-218 | the digested text of a request, or the encoder's refusal |
| `KeyMeaning.ListUnique` | server/canonical.py:189-205 | two lists of refs have one text if and only if they hold the same refs equally often |
| `KeyMeaning.KeyIsFaithful` | server/canonical.py:139-218 | equal streams if and only if id, version, extra keys, canonical parameters and, port by port, the ref or the collection of refs agree |
| `KeyDigests.DigestsTell` | server/canonical.py:155-218 | requests that stand for two of the runner's keys have one digested text if and only if the keys are the same |
| `KeyDigests.NamesTellKeys` | server/canonical.py:155-218 | with an injective digest two keys have one name if and only if they are the same, through all their producers |
| `CacheStore.ContentCache.Reserve` | server/cache.py:71-89 | the entry is empty and uncommitted afterwards, unless it was committed and not forced, when nothing changes |
| `CacheStore.ContentCache.Commit` | server/cache.py:91-136 | succeeds exactly when the entry exists and all outputs lie in it and were written, and then manifest, warnings, marker and files are in place |
| `CacheStore.ContentCache.LoadWarnings` | server/cache.py:138-156 | the warnings of the committed run, and none for a missing, uncommitted or unreadable entry |
| `CacheStore.ContentCache.LoadOutputs` | server/cache.py:158-191 | the committed outputs, and nothing for a missing, uncommitted or unreadable entry |
| `CacheStore.ContentCache.EntrySize` | server/cache.py:313-328 | the sum of the file sizes in whatever order they are listed |
| `CacheStore.ContentCache.Evict` | server/cache.py:193-222 | removes the one entry and reports its bytes |
| `CacheStore.ContentCache.MarkInUse` | server/cache.py:240-251 | adds the job's mark to the entry, if it exists |
| `CacheStore.ContentCache.ReleaseJobMarks` | server/cache.py:253-274 | removes the job's marks everywhere, no other mark, and counts them |
| `CacheStore.ContentCache.IsInUse` | server/cache.py:292-311 | true exactly when a live job's mark is there; only marks of dead jobs are deleted |
| `CommitProtocol.CommitIsCrashSafe` | server/cache.py:71-136 | over every run of steps and crashes that reopens no committed entry, a committed entry is complete and loads the outputs and warnings that its commit recorded |
| `CommitProtocol.CompleteExactly` | server/cache.py:71-136 | after a step from a sound state, committed entries stay complete in every continuation that reopens nothing if and only if the step reopens nothing |
| `CommitProtocol.ReopeningCanTear` | server/cache.py:71-89 | from every committed entry, reopening it and crashing leaves the marker on an unreadable manifest |
| `CommitProtocol.ReopeningCanLoseFiles` | server/cache.py:71-89 | reopening a committed entry and crashing can leave the marker on a manifest whose files are gone |
| `CommitProtocol.ReserveIsSteps` | server/cache.py:71-89 | the reservation is the two first steps of an entry's life |
| `CommitProtocol.CommitIsSteps` | server/cache.py:91-136 | an undisturbed commit is the check, the manifest in two steps, the warnings in two if there are any, and the marker |
| `InUse.ShieldHolds` | server/storage.py:519-548 | a shielded entry and its mark survive every interleaving of sweeps and other jobs |
| `InUse.ShieldIsExact` | server/storage.py:485-548 | a live job's mark is kept in every continuation if and only if no sweep is about to remove its entry and every sweep that still lists it counts the job as live, or has yet to take its snapshot |
| `InUse.QuietMarkIsShielded` | server/runtime.py:415-425 | a mark stamped now protects the entry until the job gives it back if and only if every sweep under way spares it |
| `InUse.NewEntryIsShielded` | server/runtime.py:413-425 | the entry that a node writes is protected from its reservation on, created or reset, whatever happens up to the mark, if no sweep has an earlier entry of that key in hand |
| `InUse.LateMarkIsLost` | server/storage.py:485-548 | a job submitted after a sweep's snapshot can lose its mark on a listed entry |
| `InUse.ReleasedForGood` | server/cache.py:253-274 | after its release a job holds nothing until it marks again |
| `Reachability.BuildReachability` | server/storage.py:122-230 | owners are exactly the projects whose history reaches the entry, the tier is the maximum and the age the minimum over them |
| `Accounting.SystemStorage` | server/storage.py:233-280 | the totals and per-project figures, which add up |
| `Accounting.BytesConserved` | server/storage.py:241-268 | total is unreachable plus owned plus jointly held bytes |
| `Accounting.PurgeProject` | server/storage.py:299-357 | removes exactly the entries only this project owns that are neither kept nor held |
| `Accounting.PurgeLeavesOthers` | server/storage.py:299-357 | a purge changes no other project's owned or shared bytes and spares kept outputs and entries in use |
| `Accounting.SweptSparesLiveMarks` | server/storage.py:338-349 | a sweep takes no live job's mark away |
| `Storage.ListEntries` | server/storage.py:122-230 | the listing has every committed entry once, with its size and the owners, tier and age that the histories give it |
| `Storage.FiguresAreBytes` | server/storage.py:241-268 | each figure of the listing is the bytes of the entries that the histories assign to it |
| `Storage.ReportStorage` | server/storage.py:233-280 | from cache and histories: every committed byte is unreachable, owned by one project, or held jointly |
| `Storage.PurgeProjectCache` | server/storage.py:299-357 | from cache and histories: exactly the committed entries that only this project reaches, neither kept nor held, go, and their bytes are reported |
| `Storage.PurgeFromHistories` | server/storage.py:299-357 | such a purge leaves every other project its entries and bytes, and frees what the cache is smaller by |
| `Eviction.RunCleanup` | server/storage.py:470-566 | the loop evicts what the specified sweep evicts, and reports its figures |
| `Eviction.SweepIsGood` | server/storage.py:519-551 | the evicted entries are a beginning of the evictable ones in order, the last was needed, and it only stops early under the limit |
| `Eviction.SweepAccounts` | server/storage.py:551-566 | freed and remaining add up; over budget means that only held entries are left |
| `Eviction.EvictedInOrder` | server/storage.py:425-437 | an entry is evicted only after everything evictable that ranks before it |
| `Eviction.KeepGoesLast` | server/storage.py:410-437 | owned keep-tier entries go only after every evictable orphan and bulk entry |
| `Eviction.OldestGoesFirst` | server/storage.py:425-437 | within one class the entry of the least recently updated project goes first |
| `Eviction.CleanupSparesHeld` | server/storage.py:523-531 | nothing is evicted that a live job's mark was on |
| `Headroom.TargetIsLargest` | server/storage.py:627-633 | the target is the largest cache size that fits both budget and disk, and zero if none does |
| `Headroom.EnsureDiskHeadroom` | server/storage.py:598-648 | the call's outcome is the specified one, and without a sweep nothing changes |
| `Headroom.NoSweepExactly` | server/storage.py:622-625 | nothing is swept exactly when the need fits both bounds |
| `Headroom.InsufficientExactly` | server/storage.py:641-647 | fails exactly when the disk cannot take the need with everything evictable gone |
| `Headroom.SweptRoom` | server/storage.py:641-648 | a return after a sweep means disk room, and budget room exactly when what is held leaves it |
| `Headroom.ReturnsOverBudget` | server/storage.py:641-648 | a call that returns although the budget has no room |
| `Jobs.Database.PersistEvent` | server/jobs.py:228-284 | the new row's number is one above the job's highest |
| `Jobs.Database.Submit` | server/jobs.py:406-438 | a queued row and event number 0 |
| `Jobs.Database.Cancel` | server/jobs.py:441-455 | sets the flag of a live job and says whether it did |
| `Jobs.Database.SelectOldestQueued` | server/jobs.py:587-593 | a queued row that no queued row precedes, and none only if none is queued |
| `Jobs.Database.Claim` | server/jobs.py:595-612 | takes effect exactly on a queued row |
| `Jobs.Database.Terminate` | server/jobs.py:756-828 | sets the status and appends the terminal event, guarded by nothing |
| `Jobs.Database.ReclaimStale` | server/jobs.py:527-580 | interrupts the rows still running, appends an event for each row of the snapshot, and releases the marks of those jobs |
| `Jobs.Database.GetEvents` | server/jobs.py:318-338 | the job's events above a number |
| `Jobs.AfterIsTail` | server/jobs.py:318-338 | with gap-free numbers the events above a cursor are the events from the next position on |
| `JobRuns.ClaimedAtMostOnce` | server/jobs.py:583-616 | in every run of any number of workers a job is started at most once, held by at most one worker, and its events are numbered without gap or repeat |
| `JobRuns.StatusMonotone` | server/jobs.py:583-616 | over every run statuses move from queued to running to terminal and never back, and a job past queued was started |
| `JobRuns.TerminalIsFinal` | server/jobs.py:756-828 | every finished job's log ends in its one terminal event, throughout a run, if and only if every write finds its row running |
| `JobRuns.DeadReclaimsEndWell` | server/jobs.py:527-580 | if rows are reclaimed only while running and held by no worker, every finished job's log ends in its one terminal event |
| `JobRuns.TwoReclaimersTwoEnds` | server/jobs.py:538-570 | two reclaimers with one row in both snapshots write two ends |
| `JobRuns.TwoEndsFromTheStart` | server/jobs.py:538-570 | a run from the empty database in which that happens |
| `JobRuns.CancelledWhileQueued` | server/jobs.py:648-653 | a job cancelled while queued never gets a node event and can only end interrupted |
| `EventStream.Streamer.Poll` | server/api.py:1753-1762 | a poll sends everything new in order, each event once, up to the first terminal event, and then closes |
| `EventStream.LogsGrow` | server/jobs.py:228-284 | logs only grow in a run, and stay numbered |
| `EventStream.WholeLogSent` | server/api.py:1753-1762 | for a well-ended log the stream sends all of it |
| `Overrides.DeepMerge` | server/projects.py:53-76 | the merged overrides, parameter by parameter |
| `Overrides.MergedValue` | server/projects.py:53-76 | a parameter has the value the edit gives it, and otherwise the one it had |
| `Overrides.MergeTwice` | server/projects.py:53-76 | the same edit again changes nothing |
| `Migrations.MigrateParamOverrides` | server/template_migrations.py:47-90 | what survives a template upgrade, and what is reported as dropped |
| `Migrations.NothingLostSilently` | server/template_migrations.py:47-90 | a parameter keeps its value exactly if its node and name still exist, and is reported exactly if it does not survive |
| `Migrations.MigrateTwice` | server/template_migrations.py:47-90 | migrating again drops nothing more |
| `Strings.StripTrims` | server/projects.py:506-529 | stripping takes the white space around a text and nothing else |
| `Projects.Project.constructor` | server/projects.py:249-298 | entry 0 carries the overrides, the base job none, and the rows are the project |
| `Projects.Project.PatchOverrides` | server/projects.py:324-442 | memory and rows after a patch, collapsed or appended |
| `Projects.Project.SwapSources` | server/projects.py:532-626 | memory and rows after a session swap |
| `Projects.Project.UpgradeTo` | server/projects.py:629-715 | memory and rows after an upgrade with the migrated overrides, and what was dropped; the template id must stay and the version rise |
| `Projects.Project.RevertTo` | server/projects.py:718-732 | moves the current position to an existing entry and changes no entry |
| `Projects.Project.Publish` | server/projects.py:479-503 | changes the one flag, in memory and in the row |
| `Projects.Project.PinCover` | server/projects.py:461-476 | pins an existing entry or clears the pin |
| `Projects.Project.SetDescription` | server/projects.py:506-529 | the stripped text, and no description for a blank one, in memory and in the row |
| `Projects.ApplyValid` | server/projects.py:163-168 | after every operation the numbers are 0 to n-1 in order and the current one is among them |
| `Projects.EntriesKept` | server/projects.py:324-732 | only a collapsing patch changes an entry, the current one, and publishing one flag |
| `Projects.EntryOutlivesRuns` | server/projects.py:324-732 | over every run an entry that no patch overwrote while current is still there, and a revert to it makes it current |
| `Projects.PatchCollapsesExactly` | server/projects.py:366-442 | the current entry is overwritten exactly when its job was interrupted or was live when cancelled |
| `Projects.SwapKeepsUserValues` | server/projects.py:567-580 | after a swap every parameter the user had set keeps its value |
| `Projects.UpgradeKeepsUserValues` | server/projects.py:661-666 | after an upgrade every override whose parameter still exists keeps its value, and there is no other |
| `Projects.RehydratesExactly` | server/projects.py:752-1048 | reading the rows back gives the project in memory if and only if no patch overwrote a swap or upgrade entry |
| `Projects.CreatedRehydrates` | server/projects.py:752-1048 | the same for every run from a project's creation |
| `Projects.SwapThenPatchDrifts` | server/projects.py:366-442 | after a session swap and a patch while its job is live, the rows read back differently |
| `Overwriting.OverwritesUnfinished` | server/projects.py:374-378 | a patch overwrites only an entry whose job had not completed or failed, and appends only when the job was over as the cancel came |
| `Overwriting.CompletesAnywayExactly` | server/jobs.py:648-728 | a live job that is cancelled can still complete if and only if a worker is past its check of the flag |
| `Overwriting.CompletedInNoEntry` | server/projects.py:366-442 | a run after which the overwritten entry's job is completed and no entry names it |
| `Progress.JobStepState` | server/system_metrics.py:295-365 | the progress and the step in flight that the fold over the log gives |
| `Progress.ProgressMonotone` | server/system_metrics.py:331-365 | along an orderly log progress stays in [0, 1] and never goes back |
| `Progress.RunIsOrderly` | server/runtime.py:321-516 | the runner writes orderly logs: one node at a time, each started once, warnings of started nodes only, skips without reports, nothing after a failure |
| `Progress.RunProgressMonotone` | server/system_metrics.py:331-365 | along every log the runner can write, progress stays in [0, 1] and never goes back |
| `Progress.ProgressCanDrop` | server/system_metrics.py:331-365 | on a log where a second node starts before the first is done, progress goes back |
| `SirilProgress.Handler.Handle` | server/siril.py:122-152 | one line never moves the bar back or out of its band, and moves it at least to its place if that is in the band |
| `SirilProgress.Handler.HandleAll` | server/siril.py:90-154 | whatever lines come, what is shown rises within the band |
| `Calibrate.PickDarkIsBest` | nodes/basic/calibrate.py:238-269 | a light gets a matching dark that no matching dark is nearer than, and none exactly when nothing matches |
| `Calibrate.TieFollowsOrder` | nodes/basic/calibrate.py:238-269 | the choice is the same for every order of the darks if and only if no two different darks could be chosen |
| `Calibrate.TwoOrdersTwoDarks` | nodes/basic/calibrate.py:238-269 | two lists of the same darks from which a light gets different ones |
| `DarkOrder.BuildDarkPool` | nodes/basic/calibrate.py:198-235 | the pool follows the refs, with the last metadata listed for a path, else its header |
| `DarkOrder.RefsForgetOrder` | server/canonical.py:189-205 | without metadata all orders of the refs have one key text, and one choice exactly if no two darks could be chosen |
| `DarkOrder.BinsTellOrder` | server/job_builder.py:327-335 | equal canonical `dark_bins` list the same darks in the same order |
| `DarkOrder.BinsFixDark` | server/job_builder.py:327-335 | for job-builder jobs over the same darks the canonical `dark_bins` are equal exactly if the order is, and then every light gets the same dark |
| `Calibrate.GroupLights` | nodes/basic/calibrate.py:634-641 | one group for each dark in use, with exactly its lights in order |
| `Calibrate.PartitionCounts` | nodes/basic/calibrate.py:634-641 | no light is lost or counted twice |
| `Calibrate.Renumber` | nodes/basic/calibrate.py:735-738 | outputs are numbered on from where the last group ended, overwriting nothing |
| `Calibrate.RunMulti` | nodes/basic/calibrate.py:593-744 | fails exactly when no group is left or one leaves nothing; else files 1 to n are the groups' outputs in order, and with one output per frame n is the lights minus the dropped ones |
| `CalibrateProgress.RunBar` | nodes/basic/calibrate.py:694-740 | what the bar shows group by group |
| `CalibrateProgress.SliceEnds` | nodes/basic/calibrate.py:292-325 | a group's fractions stay in its slice, and its end is the next group's start |
| `CalibrateProgress.BarRisesExactly` | nodes/basic/calibrate.py:694-740 | the bar never goes back across groups if and only if every group but the last leaves at least the share of its frames that it last reported |
| `CalibrateProgress.BarStaysInWindow` | nodes/basic/calibrate.py:684-740 | with the frames of all groups as total the bar stays in its window, and reaches its end exactly if every frame left a file |
| `CalibrateProgress.BarRises` | nodes/basic/calibrate.py:684-740 | with one output per frame the bar rises through its window to its end |
| `CalibrateProgress.NinetyGoBack` | nodes/basic/calibrate.py:694-740 | with reports up to 0.95, ninety files out of a hundred make the bar go back and ninety-five do not |
| `CalibrateProgress.FewerFilesGoBack` | nodes/basic/calibrate.py:694-740 | the next group starts below a fraction that was shown, exactly if this group left fewer files than that share of its frames |
| `ScopeMirror.CopyFile` | server/scope_mirror.py:25-46 | the outcome of a call for any local file, any part file and any replies |
| `ScopeMirror.CopyIsAttempt` | server/scope_mirror.py:25-46 | with a remote that answers, what was kept is gone on with from its length, an interrupted call keeps it, and replies that keep coming finish it |
| `ScopeMirror.CopyIsExact` | server/scope_mirror.py:25-46 | from every disk, over any sequence of interrupted attempts, a finished call has the remote's bytes if and only if the local file of its size, or else the part, was the remote's |
| `ScopeMirror.WrongFileStays` | server/scope_mirror.py:27-28 | a different local file of the right size is taken for a finished copy and stays |
| `ScopeMirror.StalePartIsKept` | server/scope_mirror.py:29-45 | a part file with one wrong byte is completed into a wrong file |

## Left out

- RunJob: takes the cache as a map from key to contents and returns the new map; reservation, manifests and marks of
  the entries are in `CacheStore`, `CommitProtocol` and `InUse`, the sweep before a node runs is in `Headroom`, and what
  sweeps do to a run is in `SweptRuns`.
- RunJob: a job's inputs are external refs; a ref into the cache handed in as an input is not modelled.
- RunJob: the per-node size estimates, and the search for files by convention in entries without a manifest.
- HarmlessSweeps: unforced runs; a forced run has no hits, and what it marks is never swept (`SweptPassIsOk`).
- IncrementalEqualsFromScratch: asks for distinct node ids without dots and for no name that is both an external
  input and a consumed output; `DependenciesKeptExactly` and `KeysFollowEdgesExactly` say exactly what they are for.
- KeyIsFaithful: asks for names without the characters that separate them and compares requests of one parameter
  model; Unicode text is a sequence of characters, and its UTF-8 encoding is taken to be injective.
- Round: works on exact decimals; the conversion of a rounded value back to the nearest binary float is not modelled.
- CommitIsCrashSafe: one writer at a time.
- ContentCache: entries without a manifest, and the size of the manifest and marker files.
- BuildReachability: legacy list-shaped hash records, and projects whose template cannot be parsed.
- SystemStorage: the display order of the projects and the figures of the file system.
- JobRuns: heartbeats and process ids; which rows look stale is arbitrary, as long as they were running.
- Project: one project and its rows; the manager's table of projects, its lock, and failing database writes.
- PatchOverrides: the automatic label of an entry.
- UpgradeTo: the result of a migration registered for a template is a parameter; the cancelling of the previous job and
  the wording of the dropped overrides.
- RunMulti: the warnings about dropped frames and distant darks, and what Siril does to the pixels.
- CopyFile: the remote file does not change between attempts.
- Template validation, the node registry, parameter schemas, profiles beyond their merge order, and the SQLite layer.
- Image processing, the web API, the catalog, the planner, the scope client, the scheduler and the UI.
