# A verified model of huntproxy's core

huntproxy collects proxies, validates and rates them, keeps the ratings in SQLite, and relays user traffic through
the best of them. This project models the parts of its backend that are state machines, indexes or arithmetic, and
proves what they promise. `dafny verify dfyconfig.toml` checks everything.

How the files map to the program:

| files | part of the program |
|---|---|
| `TaskTable`, `SchedulerRuns`, `SchedulerTheorems`, `SchedulerQueue`, `SchedulerRegistry`, `SchedulerEngine` | the scheduler as a state machine over its suspension points, what its runs keep, what every step does to queue, schedules, registry and executions, and its queue operations as an object |
| `RouteIndex`, `RouteCache`, `RouteMutators` | the compiled domain index against the pattern scan, the time-limited cache in front of the tables, and what each mutator means for routing |
| `WriteBehind`, `WriteLoss`, `RatingStore` | ratings in memory, dirty set, writer queue and table as one machine, what failing batches cost it, and the objects behind it |
| `Cidr`, `IpBlacklist` | block arithmetic, text forms of addresses, the blacklist index, its table and reload |
| `Rating`, `RatingHistory`, `RatingScore` | moving averages, grace, throttle and score of one proxy, its fields told from its history, and what each is worth |
| `Chain`, `CarrierChoice` | who carries a request, and the textual chain that is logged and decoded |
| `Socks5`, `Socks5Code`, `Socks5Peers` | the SOCKS5 client and server as step machines over byte streams, as sequential routines, and each before any other peer |
| `ConnectDrain`, `HttpFraming` | the HTTP CONNECT client with its body drain, and the answers whose framing it reads |
| `TrafficRollup` | hourly counters against the plain log, rebuild, dashboard tiles, the buffer before the writer |
| `ValidationPool`, `ValidationCounts` | the validation workers, their shared counters, retries and the health check that takes the counters over |
| `SwitchHistory` | recording, merging and timing of upstream switches |
| `Runs`, `PyText`, `Wrappers` | runs of a state machine, text operations, result types |

Conventions. Code that suspends is split where it can suspend, and every order of the resulting steps is a run. Clock
readings, connection outcomes, probe results and library conversions are parameters. Methods work in place on the
fields the source has; each is tied to a function or predicate, and the theorems are about those.

Some promises are false of the code in a corner. There the model keeps the code as it is, shows a run or input that
fails, and states exactly when the promise holds:

- Run Now tests mutex conflicts before it waits for the launch lock, so mutually exclusive tasks can run together
  (`RunNowBreaksExclusion`). Exclusion holds along a run if and only if no Run Now registers its type while one that
  excludes it is registered (`ExclusionStepExactly`, `ExclusionIsExact`). From the queue, two task types are kept apart
  exactly if each lists the other (`QueueExclusionIsExact`), which leaves out `clear_dead`.
- A launch while a bulk cancellation waits for running tasks can be erased from the registry while it is alive
  (`BulkErases`, `BulkRaceDuplicates`); live executions stay registered if and only if no bulk cancellation ends while
  an execution of a type it erases is live (`BulkEndExactly`, `RegistryIsExact`).
- A task that is cancelled, or whose schedule is deleted, before its first step leaves its type registered with nothing
  alive behind it (`CancelOrphans`, `DeleteOrphans`), and the type cannot run until a bulk cancellation
  (`OrphanBlocksType`). Every registered type is alive if and only if no such step occurs, and a type is in that state
  if and only if such a step occurred and no bulk cancellation cleared it since (`OrphanStepExactly`,
  `OrphanedExactly`, `AllLiveExactly`).
- A rolled-back batch loses its rows although nothing is dirty any more (`RollbackLosesUpdates`). It costs exactly the
  clean addresses that the table had wrong and the remaining queue does not write again (`RollbackCost`). A full save
  costs by which of its two statements committed (`SaveOutcome`). Over a run an address comes out right if and only if
  no rolled-back batch cost it since it was last changed or removed or the last full save began (`RunCost`); a full
  save whose own batches commit repairs everything (`FullSaveHeals`).
- A blank pattern would match in the scan and not in the index (`ListAgrees`, `BlankPatternDiffers`); the writers never
  store one (`MutateSound`, `BypassSound`).
- An address range whose summary contains a single address loses that address on reload (`RangePieceLost`); a reload
  is exact if and only if every such piece is covered otherwise (`ReloadIsExact`, and for downloaded lists from parser
  to answer `RestartIsExact`, `RestartBetween`).
- A pool pick is logged as "fallback" when an id or address spells that word (`DecodedIsActual`, both directions), and
  a route resolves unless both the route and the default route are disabled custom proxies (`CarriedExactly`).
- A SOCKS5 refusal is two bytes long, so the client reports a broken handshake and never a refusal
  (`RefusalLooksBroken`).
- A chunk extension stops the drain, and a trailer is taken for the closing line: the drain is exact if and only if the
  body has neither (`DrainIsExact`, `DrainLeaves`). A status line with "200" in its reason phrase counts as success
  (`BadGatewayAccepted`); the verdict is right if and only if the code is 200 or the reason phrase does not hold "200"
  (`TunnelIsSuccess`).
- The client looks for "transfer-encoding: chunked" with one blank, and for a length first. It reads the framing that
  the standard gives if and only if a condition on the field lines holds (`FramingIsRead`); a field without the blank,
  or beside a positive length, is misread (`TightSpellingMissed`, `LengthBesideChunks`).
- A row on the very start of the window, at a full hour, is kept by pruning and left out by the rebuild
  (`RebuildIsExact`).
- A validation result that arrives while the internet is suspect is thrown away and its address is never counted; so
  are results under a running health check, and addresses whose worker is cancelled before it counts them. An address
  is missing from the count if and only if some step did that to it (`SkippedInRun`, `FinalCount`). Counts made
  between a health check's saving and its start are overwritten if and only if the check has candidates
  (`HealthWindowLoses`), and the saved numbers do not come back if the phase was taken away meanwhile, by a resume
  followed by a pause or by stopping the hunt (`RestoreLoses`, `PhaseTakenMixes`). Successes and failures count
  attempts and can exceed the total (`AttemptsCanExceedTotal`), by exactly what was recorded again
  (`AttemptsExceedExactly`).
- A stretch without a proxy is shown as the proxy before it (`ShownIsActive`).

## Model

| member | source | states |
|---|---|---|
| SchedulerRuns.StepKeeps | hunt/scheduler.py:234-375 | every step (tick, drain, lock, probe, Run Now, start, finish, cancel, edit, abandoned coroutine, bulk cancel) keeps: live executions are the registered ones, the lock holder is the one probing, ids are unused |
| SchedulerRuns.BulkEndExactly | hunt/scheduler_guard.py:68-70 | the end of a bulk cancellation keeps live executions registered if and only if none of them has a type it erases |
| SchedulerTheorems.OneLivePerType | hunt/scheduler.py:288-325 | in every admissible run each live execution is the one registered under its type, so no type is live twice |
| SchedulerTheorems.RegistryIsExact | hunt/scheduler_guard.py:57-96 | throughout a run the live executions are the registered ones if and only if no bulk cancellation ends while an execution of a type it erases is live |
| SchedulerTheorems.ExclusiveNeverTogether | hunt/scheduler.py:302-306 | two types that list each other are never live together in a run without a clashing Run Now, so in no queue-driven run |
| SchedulerTheorems.ManualRegisterExactly | hunt/scheduler.py:456-467 | Run Now keeps exclusion if and only if its type is registered already or no type that excludes it is |
| SchedulerTheorems.ExclusionStepExactly | hunt/scheduler.py:244-467 | every step keeps exclusion if and only if it is not such a clash |
| SchedulerTheorems.ExclusionIsExact | hunt/scheduler.py:444-467 | in admissible runs with Run Now, exclusive types are never both registered if and only if no step clashes |
| SchedulerTheorems.QueueExclusionIsExact | hunt/schedule_entry.py:6-55 | two different types can be live together in a queue-driven run if and only if not both list the other |
| SchedulerTheorems.RunNowBreaksExclusion | hunt/scheduler.py:447-467 | the clash happens: a run in which Run Now makes proxy_check and health_check live together |
| SchedulerTheorems.BulkErases | hunt/scheduler_guard.py:57-83 | the erasure happens: while a bulk cancellation waits for a running task, Run Now launches another, which is live but no longer registered once the cancellation ends |
| SchedulerTheorems.BulkRaceDuplicates | hunt/scheduler_guard.py:57-83 | after it one type can be live twice |
| SchedulerTheorems.OrphanStepExactly | hunt/scheduler.py:320-366 | for every step: a type is registered with nothing alive afterwards if and only if it was so and is not cleared now, or its execution ends at its first step |
| SchedulerTheorems.OrphanedExactly | hunt/scheduler.py:320-366 | over whole runs: a type ends registered with nothing alive if and only if an execution of it ended at its first step and no bulk cancellation cleared it since |
| SchedulerTheorems.AllLiveExactly | hunt/scheduler.py:320-366 | every registered type has a live execution throughout a run if and only if no execution ends at its first step |
| SchedulerTheorems.DeleteOrphans | hunt/scheduler.py:335-339 | a queue-driven run that ends so because the schedule is deleted before the first step, for any type |
| SchedulerTheorems.CancelOrphans | hunt/scheduler.py:469-490 | one that ends so because the task is cancelled before its first step, with nothing deleted |
| SchedulerTheorems.OrphanBlocksType | hunt/scheduler.py:364-365 | an orphaned type is never live again until a bulk cancellation |
| SchedulerTheorems.LaunchFromIdle | hunt/scheduler.py:244-325 | an idle scheduler launches a triggered schedule whose type is free and unconflicted |
| SchedulerEngine.Engine.Enqueue | hunt/scheduler.py:234-242 | appends a known schedule once and announces its next run one interval from now |
| SchedulerEngine.Engine.EnqueueDue | hunt/scheduler.py:201-232 | a tick leaves in the queue exactly what was there and the idle schedules that are on and whose interval has passed since their last success or, before any, whose expected time has come; each once, in order, with its next run announced |
| SchedulerEngine.Engine.TryLaunch | hunt/scheduler.py:272-325 | launches exactly if the schedule exists and is not blocked; only stale flags are lowered |
| SchedulerEngine.Engine.DrainQueue | hunt/scheduler.py:244-267 | afterwards exactly the blocked schedules are queued; whoever left was launched or deleted; compatible types stay compatible |
| SchedulerEngine.DrainSettles | hunt/scheduler.py:244-267 | each schedule of the snapshot ends queued and blocked, or launched now, or was deleted |
| SchedulerEngine.UndisturbedDrain | hunt/scheduler.py:244-325 | the drain of the state machine, when nobody disturbs it, does what the queue operation does |
| SchedulerEngine.BlockedBecause | hunt/scheduler.py:290-315 | a launch is refused exactly because the type runs, a fresh busy flag is up, a listed type runs, or the probe fails |
| SchedulerEngine.BlockedStays | hunt/scheduler.py:290-325 | what a drain does to the registry and the flags unblocks nobody |
| SchedulerQueue.QueueStepExactly | hunt/scheduler.py:201-467 | for every step: a schedule is queued afterwards if and only if it was and is not launched, found deleted or taken off by command, or a tick finds it due, or a trigger or a manual run that is held back asks for it |
| SchedulerQueue.StaysQueuedExactly | hunt/scheduler.py:244-267 | a queued schedule stays queued throughout a run if and only if no step launches it, finds it deleted or takes it off by command |
| SchedulerQueue.QueuedOnce | hunt/scheduler.py:234-242 | no step queues a schedule twice |
| SchedulerQueue.EntryStepExactly | hunt/scheduler_api.py:58-112 | for every step: type, switch, interval, time of the last success and expected next run of a schedule afterwards, from what the step is |
| SchedulerQueue.SchedulesAfter | hunt/scheduler_api.py:35-96 | which schedules there are after a step: an added one as given, a deleted one not |
| SchedulerQueue.LastSuccessCounts | hunt/scheduler.py:340-355 | over every run the interval of a schedule counts from its last success in that run |
| SchedulerQueue.TickWaitsForInterval | hunt/schedule_entry.py:183-190 | after every run a tick queues an idle schedule that is on if and only if its interval has passed since its last success in the run or, without one, its expected time has come |
| SchedulerQueue.QuietAfterEnd | hunt/scheduler.py:335-368 | a schedule that succeeded is queued by no tick before its interval is over, whatever else happens; one that never succeeded waits its interval after a failure too |
| SchedulerQueue.FailureIsRetriedAtOnce | hunt/scheduler.py:351-363 | one that succeeded before is due again at the next tick when it fails later than that |
| SchedulerRegistry.RegistryStepExactly | hunt/scheduler.py:288-467 | for every step: which types are registered for which execution, which executions are alive, started or asked to stop afterwards |
| SchedulerRegistry.CancelledExactly | hunt/scheduler.py:469-490 | over every run an execution that is still alive was asked to stop if and only if a cancellation of its schedule or a bulk cancellation reached it |
| SchedulerRegistry.DrainFollows | hunt/scheduler.py:229-256 | a tick, a trigger and a completion drain the whole queue, unless the scheduler is paused or stopped |
| SchedulerRegistry.FlagStepExactly | hunt/scheduler_guard.py:33-51 | for every step: a busy flag goes down exactly if a launch of a free type checks it and nothing is alive behind it |
| SchedulerRegistry.SettingsStepExactly | hunt/scheduler.py:74-90 | for every step: the clock, the pause flag and the stop flag afterwards; a stop is for good and empties the queue |
| SchedulerRegistry.RunNowLaunches | hunt/scheduler.py:389-467 | an undisturbed Run Now launches its schedule if and only if the type is free, the internet answers where it is needed, and no busy flag and no conflicting type holds it back |
| SchedulerRegistry.TaskTableFacts | hunt/schedule_entry.py:6-63 | one pair of task types excludes each other, one lists types that do not list it, and the types that need the internet are those with a busy flag |
| RouteIndex.ProbesAreTails | hunt/routing.py:376-397 | the probed strings of a host are exactly its suffixes that begin with a dot |
| RouteIndex.PatternAgrees | hunt/routing.py:399-416 | one pattern matches in the scan exactly if one of its two keys is probed, blank patterns apart |
| RouteIndex.ListAgrees | hunt/routing.py:331-374 | one list: scan and index agree except on improper hosts when the list has a blank pattern |
| RouteIndex.LookupIsScan | hunt/routing.py:376-416 | for every host and sequence of lists both forms give the same route, given no blank pattern or a proper host |
| RouteIndex.BlankPatternDiffers | hunt/routing.py:338-345 | a blank pattern and a host with a trailing dot on which the two forms differ |
| RouteIndex.CompileList | hunt/routing.py:331-374 | the compiled sets are exactly the keys of the non-blank patterns |
| RouteIndex.Probe | hunt/routing.py:376-397 | the probing loops return the route of the scan |
| RouteCache.MutateSound | hunt/routing.py:207-317 | no mutator ever stores a blank pattern |
| RouteCache.BypassSound | hunt/blocklists.py:269-312 | nor does a blocklist write, whatever lines were downloaded |
| RouteCache.YieldedHaveDots | hunt/domain_parser.py:62-65 | only lines with a dot become patterns |
| RouteCache.CreateGoesLast | hunt/routing.py:207-234 | a new list takes over exactly the hosts that would have had the default route |
| RouteCache.ReorderIsObeyed | hunt/routing.py:301-317 | every named list gets its last place in the order as its priority, nothing else changes |
| RouteCache.ToggleTwice | hunt/routing.py:282-299 | toggling twice gives back the tables |
| RouteCache.ActiveSorted | hunt/routing.py:331-374 | active lists are tried in ascending priority |
| RouteCache.BoundedStaleness | hunt/routing.py:319-374 | after any history a resolution at t answers with the tables as they stood at some time in (t-30, t] |
| RouteCache.FreshAfterMutators | hunt/routing.py:229-323 | after any history of the routing mutators the next resolution is a fresh evaluation |
| RouteCache.MutatorRefreshes | hunt/routing.py:321-322 | one committed mutator makes up for all writes that bypassed the cache |
| RouteCache.RefusedChangesNothing | hunt/routing.py:207-299 | a mutator that does not commit leaves the tables alone |
| RouteCache.Router.ResolveRoute | hunt/routing.py:324-397 | the object answers and caches as the run says |
| RouteCache.Router.Build | hunt/routing.py:331-374 | building takes the tables as they are and stamps the time |
| RouteCache.Router.Write | hunt/routing.py:207-317 | a mutator changes the tables as its meaning says and drops the cache exactly if it commits |
| RouteCache.Router.RoutingTest | hunt/routing.py:143-169 | the slow scan returns the reference evaluation |
| RouteMutators.DeleteMeans | hunt/routing.py:268-280 | deleting cuts the list out and leaves all others as they are and where they are |
| RouteMutators.DeletedIsSkipped | hunt/routing.py:268-280 | after a deletion every host is routed by the scan of the active lists without it |
| RouteMutators.ToggleMeans | hunt/routing.py:282-299 | toggling flips the switch of exactly the named list |
| RouteMutators.SwitchedOffIsSkipped | hunt/routing.py:282-299 | for every host a list that is switched off is the same as one that is deleted |
| RouteMutators.UpdateMeans | hunt/routing.py:236-266 | updating gives the named list the given route, switch and patterns, as far as given, keeps its priority and changes no other list |
| RouteMutators.CreateMeans | hunt/routing.py:207-234 | creating appends the list as given behind all others, unless the id is taken |
| RouteMutators.ReorderMeans | hunt/routing.py:301-317 | reordering sets the priorities of the named lists and nothing else, the last mention counting |
| RouteMutators.DisabledAsksRunner | hunt/routing.py:376-384 | with routing off the runner decides: directly, over its active proxy, or over the pool |
| RouteMutators.EnabledScans | hunt/routing.py:48-61 | switching routing on, and a new default route, leave the lists alone; then they decide, and the default behind them |
| RouteMutators.FailsExactly | hunt/routing.py:207-299 | a mutator fails exactly for a taken id at a creation or an unknown one at an update or toggle, and then tables and cache stay as they are |
| RouteMutators.ActiveExactly | hunt/routing.py:331-342 | the lists that are tried are exactly the enabled ones with a route, equal priorities in table order |
| RouteMutators.CleanMeans | hunt/routing.py:225-228 | what is stored are the given patterns, stripped and in lower case, without blanks, each once |
| RouteMutators.DownloadMeans | hunt/blocklists.py:269-312 | a download gives its patterns and route to the named list, or appends one that is enabled and goes last; without patterns it changes nothing |
| RouteMutators.YieldedMeans | hunt/blocklists.py:273-280 | a download stores exactly its cleaned lines with a dot, each once |
| RouteMutators.DropSourceMeans | hunt/blocklists.py:215-231 | deleting a blocklist source removes its list, or only its patterns if the list is not marked as a blocklist |
| RouteMutators.DroppedSourceIsSkipped | hunt/blocklists.py:215-231 | either way every host is routed by the scan without it |
| WriteBehind.RunCoherent | hunt/state_persistence.py:192-275 | after any run on a working connection table plus queue agrees with memory on every address not dirty and not removed |
| WriteBehind.QuiescentAgrees | hunt/db_writer.py:47-113 | with nothing dirty and nothing queued, table and memory agree, and are equal after a full save |
| WriteBehind.SavesQueue | hunt/state_persistence.py:192-275 | a dirty save queues one statement with exactly the dirty ratings in memory, or none; a full save queues a deletion and one statement with all of memory |
| WriteBehind.SaveDirtyKeeps | hunt/state_persistence.py:251-275 | a dirty save keeps coherence although it clears the set before the rows are written |
| WriteBehind.RollbackLosesUpdates | hunt/db_writer.py:95-113 | the loss happens: a run that ends with nothing dirty or queued and an update missing |
| WriteLoss.RollbackCost | hunt/db_writer.py:95-113 | after a rolled-back batch a clean address comes out right if and only if the remaining queue writes it or the table was right about it |
| WriteLoss.LossStepExactly | hunt/db_writer.py:78-113 | for every step, full saves included: an address is lost afterwards if and only if a batch rolled back now costs it, by the statements it held, or it was lost and is not changed or removed and no full save begins now |
| WriteLoss.InsertAt | hunt/state_persistence.py:196-201 | the insert of a full save fails exactly when a row of memory is in the table already, and otherwise adds memory to it |
| WriteLoss.SaveOutcome | hunt/state_persistence.py:192-249 | a full save by which of its two statements committed: for every address, exactly when the table ends right |
| WriteLoss.RunCost | hunt/state_persistence.py:192-275 | over every run, failing batches included: a clean address comes out right if and only if no rolled-back batch cost it since it was last changed or removed or the last full save began |
| WriteBehind.FullSaveHeals | hunt/state_persistence.py:192-249 | a full save whose own batches commit makes the table equal to memory, whatever was lost before |
| RatingStore.DbWriter.RunBatch | hunt/db_writer.py:78-113 | takes one to 128 items in order, commits all or none, and consumes them either way |
| RatingStore.DbWriter.Drain | hunt/db_writer.py:50-53 | empties the queue by batches of the machine, and writes it all when no commit fails |
| RatingStore.Store.SaveDirty | hunt/state_persistence.py:251-275 | queues exactly the rows of the dirty addresses that are in memory and clears the set |
| RatingStore.Store.constructor | hunt/state_persistence.py:22-40 | memory as loaded, with exactly the repaired rows dirty |
| RatingStore.Store.UpdateRating | hunt/check_rating.py:57-68 | every fiftieth update leaves nothing dirty; otherwise fewer than fifty counted updates and what was marked uncounted are waiting |
| RatingStore.Store.RefreshHits | hunt/ip_blacklist_sources.py:148-152 | a blacklist refresh marks exactly the changed ratings dirty, without counting or saving |
| RatingStore.Store.ApplyHits | hunt/ip_blacklist.py:104-130 | one changed rating is marked dirty without being counted |
| RatingStore.Store.ResetCounter | hunt/check_validation.py:142-144 | the count starts over and what is dirty stays dirty |
| RatingStore.Store.SaveState | hunt/state_persistence.py:192-249 | whatever was queued or lost before: table and memory are equal if no batch with a statement of the save is rolled back; the dirty set is empty either way |
| Cidr.AndHighOnes | hunt/ip_blacklist.py:161-163 | masking with n high ones clears exactly the low bits |
| Cidr.MaskedBlock | hunt/ip_blacklist.py:161-163 | mask, and, or and complement give the first and last address of the aligned block |
| Cidr.InBlock | hunt/ip_blacklist.py:143-163 | the block holds exactly the addresses that share the first plen bits (RFC 4632, section 3.1) |
| Cidr.BlockFits | hunt/ip_blacklist.py:143-163 | the block is aligned, holds its address and lies inside 32 bits |
| Cidr.NestedOrDisjoint | hunt/ip_blacklist.py:143-163 | two blocks are nested or disjoint |
| Cidr.FastCidrRange | hunt/ip_blacklist.py:143-172 | the parser loop returns the block of the entry, and rejects what it cannot read |
| Cidr.ReadBack | hunt/ip_blacklist.py:143-172 | for every address and prefix length the rendered entry reads back as its block |
| IpBlacklist.IndexRefinesScan | hunt/ip_blacklist.py:73-102 | for a list-built index a query finds a source exactly if some entry of it contains the address |
| IpBlacklist.ReloadedFindsFindable | hunt/ip_blacklist.py:174-208 | after a reload a query finds exactly the sources listed under a text a lookup can reach |
| IpBlacklist.ReloadIsExact | hunt/ip_blacklist.py:174-208 | a reload answers every query as before if and only if every unreachable single address is covered by its source otherwise |
| IpBlacklist.RestartIsExact | hunt/ip_blacklist.py:8-208 | for any downloaded lists: parsed, stored and reloaded they answer every query as before if and only if they are so covered |
| IpBlacklist.RestartBetween | hunt/ip_blacklist.py:8-208 | each source parsed once, stored, reloaded and asked: the answers before and after, and the same sources and hit count when covered |
| IpBlacklist.RangePieceLost | hunt/ip_blacklist.py:51-62 | a range piece of one address is lost by a reload |
| IpBlacklist.HostsAndNetworksSurvive | hunt/ip_blacklist.py:64-71 | lists of hosts and networks survive a reload |
| IpBlacklist.LibraryDecides | hunt/ip_blacklist.py:166-172 | an entry that the fast parser cannot read covers what the address library says |
| IpBlacklist.Deduplicate | hunt/ip_blacklist.py:93-102 | the first record of every source, in order, so one per source and none lost or invented |
| IpBlacklist.Blacklist.AddEntry | hunt/ip_blacklist.py:35-44 | an entry keeps one record per source |
| IpBlacklist.Blacklist.AddBlock | hunt/ip_blacklist.py:20-31 | adds exactly the record of the block, tells whether it was new for its source, and keeps the index in order |
| IpBlacklist.Blacklist.Parse | hunt/ip_blacklist.py:8-33 | adds exactly the pairs of the parsed blocks, counts the new ones, records only the name of the source and its reasons, and keeps memory and table in step for a source parsed once |
| IpBlacklist.Blacklist.ParseText | hunt/ip_blacklist.py:15-33 | a text adds exactly the pairs of the blocks its lines stand for |
| IpBlacklist.ReadLineByLine | hunt/ip_blacklist.py:15-17 | a text is read line by line, whatever ends its lines |
| IpBlacklist.LineRead | hunt/ip_blacklist.py:16-49 | a line is read by its first token alone, blanks before it skipped: nothing for a comment, a range with a dash and no slash, a network otherwise |
| IpBlacklist.FirstOfEachAre | hunt/ip_blacklist.py:93-102 | a record is kept if and only if no earlier one has its source |
| IpBlacklist.Blacklist.ReplaceSource | hunt/ip_blacklist.py:210-228 | the rows of the source become those of its list, and the rows of all others stay |
| IpBlacklist.Blacklist.IsBlacklisted | hunt/ip_blacklist.py:73-102 | one record per distinct source found, the first that the exact text or, in order, a range yields |
| IpBlacklist.Blacklist.LoadFromTable | hunt/ip_blacklist.py:174-208 | memory holds exactly the stored pairs, single addresses and unreadable texts in the exact set |
| IpBlacklist.ParseThenAsk | hunt/ip_blacklist.py:8-102 | any sequence of lists: a query reports each listing source once and nobody else |
| IpBlacklist.ReloadThenAsk | hunt/ip_blacklist.py:73-208 | reload, then a query reports each source listed under a reachable text once |
| IpBlacklist.SameHitCount | hunt/ip_blacklist.py:104-123 | two answers about the same entries give the same hit count |
| Rating.ScoreBound | hunt/models.py:205-251 | over every history checks_ok<=checks_total, the average is unset or in [0,1], base<=75, speed<=1, modifier<=1.3, the score is the unclamped product and at most 97.5 |
| Rating.SpeedFactorMeaning | hunt/models.py:277-297 | the speed factor is 1 exactly from 150 KB/s without speed failures and 0 exactly for a plain proxy with no throughput that failed a measurement or passed five checks |
| Rating.FraudTable | hunt/models.py:23-36 | the documented multiplier of every flag combination, and 0.3 without a fresh reading |
| Rating.BaseWeights | hunt/models.py:299-310 | for any two records: forty points for the success averages, two for every second of latency up to ten, five for every capability |
| Rating.LatencyHistory | hunt/models.py:212-215 | over any history the latency average is that of the successful checks in order |
| Rating.AverageForgets | hunt/models.py:14-18 | after n equal measurements 0.75^n of the old distance is left |
| Rating.AverageBetween | hunt/models.py:212-220 | the first measurement counts in full and no average leaves the range of its measurements |
| Rating.BoundIsReached | hunt/models.py:277-319 | one perfect check reaches 97.5 |
| Rating.StepKeeps | hunt/check_rating_apply.py:10-62 | every check and traffic failure keeps a rating sane |
| Rating.ScoreNeverRises | hunt/models.py:235-251 | along any run of failures with the hits held fixed the score never rises |
| Rating.FailingRanksBelowLive | hunt/models.py:242-250 | a failing record scores at most 0.3 of the same record live |
| Rating.AverageDecays | hunt/models.py:205-210 | n counted failures multiply the success average by 0.75^n and lengthen the streak by n |
| Rating.AverageSeed | hunt/models.py:205-210 | the first failed check starts the average from the lifetime rate, that check included |
| Rating.GoneAtFifty | hunt/models.py:186-199 | after failures a proxy is eligible if and only if it is proven, not excluded and below fifty; otherwise its score is zero |
| Rating.ThrottleBound | hunt/models.py:222-233 | in any history at most floor((t1-t0)/5)+1 traffic failures count within [t0,t1] |
| Rating.GraceOutlivesTraffic | hunt/models.py:186-192 | traffic failures alone do not end the grace of a fresh proven proxy within 245 seconds |
| Rating.GraceEndsAt245 | hunt/models.py:186-233 | fifty failures fit into 245 seconds and end it |
| Rating.ProxyRating.UpdateReliability | hunt/models.py:205-210 | the moving average after one outcome |
| Rating.ProxyRating.ApplyOkResult | hunt/check_rating_apply.py:10-62 | the fields after a successful check |
| Rating.ProxyRating.UpdateRating | hunt/check_rating.py:37-59 | the fields after a check, the blacklist hits those of its lookup if it made one |
| Rating.ProxyRating.RecordTrafficFail | hunt/check_rating.py:70-87 | the fields after a traffic failure, throttled |
| RatingHistory.HitsHistory | hunt/ip_blacklist.py:104-130 | over every history the blacklist hits are those of the last lookup, or the initial ones if there was none |
| RatingHistory.FlagsHistory | hunt/check_rating_apply.py:42-95 | over every history the exit flags are the last ones captured, and their age counts from the last capture or usable external reading |
| RatingHistory.ChannelHistory | hunt/check_rating_apply.py:22-27 | CONNECT, TLS and interception are as the last successful check found them |
| RatingHistory.ProtocolHistory | hunt/check_rating_apply.py:24-25 | a proxy turns HTTPS with the first TLS success and a SOCKS proxy never does |
| RatingHistory.SpeedHistory | hunt/check_rating_apply.py:55-62 | over every history the speed average is that of the positive speeds in order, which are also counted and summed |
| RatingHistory.LatencySums | hunt/check_rating_apply.py:15-17 | the latencies of the successful checks are counted and summed |
| RatingHistory.SpeedFailsHistory | hunt/check_rating_apply.py:55-62 | the speed failures are the successful checks without a speed since the last one with a speed |
| RatingHistory.CountHistory | hunt/check_rating.py:48-56 | the checks are counted, the successful ones separately, and the status is that of the last event |
| RatingHistory.StreakHistory | hunt/models.py:222-233 | the failures in a row are the counted ones since the last success |
| RatingHistory.AverageHistory | hunt/models.py:205-210 | once set, the success average mixes in a quarter of every counted outcome, in order |
| RatingHistory.FirstAverage | hunt/models.py:205-210 | before that, the first counted outcome is mixed into the lifetime rate |
| RatingScore.FailingScoreExactly | hunt/models.py:236-251 | a failing proxy scores three tenths of its live score, less a fiftieth of that per failure in a row, while it is eligible, and nothing otherwise |
| RatingScore.EligibleExactly | hunt/models.py:166-199 | who belongs to the pool, from the fields |
| RatingScore.NewRating | hunt/models.py:57-103 | a new rating has no history, no average set and no reading, scores nothing and is not in the pool |
| RatingScore.HitsCost | hunt/models.py:312-319 | a live proxy with blacklist hits scores 0.75 per hit, but at least a quarter, of what it would score without |
| RatingScore.MitmCost | hunt/models.py:312-319 | a suspected interception halves the score |
| RatingScore.SpeedFailsCost | hunt/models.py:277-290 | failed measurements leave 65, 30 and then 25 percent of the speed factor |
| RatingScore.UnmeasuredFactor | hunt/models.py:291-297 | without a throughput the factor is one half for SOCKS and newcomers without a failed measurement, and zero for the rest |
| RatingScore.ThroughputMeans | hunt/models.py:105-168 | throughput and latency are the moving averages once there are any, and the lifetime averages before |
| RatingScore.SocksPortExactly | hunt/models.py:253-259 | an address counts as SOCKS exactly by the port behind its last colon |
| Chain.SplitJoined | hunt/db.py:21-24 | splitting undoes joining when no token hides a separator |
| Chain.DecodedIsActual | hunt/switch_history.py:35-53 | the logged chain names the actual carrier, and its kind if and only if no reroute-free pool pick spells "fallback" on its way |
| Chain.DisabledIdMislabels | hunt/switch_history.py:45-48 | a disabled id that turns a pool pick into a "fallback" |
| Chain.PoolFallback | hunt/switch_history.py:45 | the word is found exactly if a reroute happened or a name spells it |
| CarrierChoice.PoolOrder | hunt/proxy_routing.py:199-220 | the pool holds exactly the eligible proxies of allowed countries, for CONNECT only those that can, live before grace, each part by falling score |
| CarrierChoice.ByScoreStable | hunt/proxy_routing.py:218-219 | equal scores keep their order |
| CarrierChoice.CarriedExactly | hunt/proxy_routing.py:46-77 | a request is carried exactly if its way has an attempt that wins, only by a carrier the route allows, and gets no answer exactly if route and default are disabled custom proxies |
| CarrierChoice.SelectedServesExactly | hunt/proxy_routing.py:53-73 | a chosen proxy carries exactly if it can serve; else, with fallback on, the pool as it stands after the recorded failure carries exactly if it can |
| CarrierChoice.WinnerWins | hunt/proxy_routing.py:138-162 | the winning attempt is the first accepted one behind failures that may be retried |
| CarrierChoice.PoolWinnerWins | hunt/proxy_routing.py:164-184 | the winning pool member is the first of the leading eight to accept |
| CarrierChoice.Strict | hunt/proxy_routing.py:53-62 | with pool fallback off a request for a chosen proxy is carried by that proxy exactly if it can serve, and by nobody otherwise |
| CarrierChoice.Connector.Retry | hunt/proxy_routing.py:138-162 | wins at the first accepted of at most three attempts, retrying only dead or broken ones |
| CarrierChoice.Connector.ViaCustom | hunt/proxy_routing.py:92-130 | carried by the custom proxy exactly if one of its attempts wins |
| CarrierChoice.Connector.ViaAddr | hunt/proxy_routing.py:132-162 | carried by the rated proxy exactly if it is known, not excluded and wins |
| CarrierChoice.Connector.AskPool | hunt/proxy_routing.py:168-180 | the loop finds the winning pool member |
| CarrierChoice.Connector.ViaPool | hunt/proxy_routing.py:164-184 | carried by the first of the leading eight to accept, and the failover index moves behind it |
| CarrierChoice.Connector.SelectedThenPool | hunt/proxy_routing.py:53-73 | who carries, including the pool after the reroute; a failing selected proxy is recorded first, which changes its rating and no other, and the pool asked only with fallback on |
| CarrierChoice.Connector.RecordTrafficFail | hunt/check_rating.py:70-94 | the ratings of the failed address are demoted, all others stay |
| CarrierChoice.OthersKeepTheirPlace | hunt/proxy_routing.py:55-62 | after a recorded failure the other pool members are the same, with their status, in the same order |
| CarrierChoice.FailedComesLast | hunt/proxy_routing.py:199-220 | if a failure costs the live status, the failed proxy comes behind every live one |
| CarrierChoice.FallbackAsksAnother | hunt/proxy_routing.py:55-62 | so with another live member the fallback first asks another one, the best of the others |
| CarrierChoice.RawExactly | hunt/proxy_routing.py:107-183 | a request goes through in plain form exactly over a plain proxy that was not asked for CONNECT |
| CarrierChoice.SeenMeans | hunt/proxy_routing.py:236-243 | a plain proxy that is not asked for CONNECT needs only an open connection, any other attempt ends as the proxy answers |
| CarrierChoice.AttemptsExactly | hunt/proxy_routing.py:138-162 | one proxy is tried until an attempt is accepted or refused, at most three times |
| CarrierChoice.TakesExactly | hunt/proxy_routing.py:132-162 | an unknown or excluded proxy is not tried at all |
| CarrierChoice.RecordedExactly | hunt/proxy_routing.py:55-69 | a failure is recorded exactly for a chosen proxy that cannot serve |
| CarrierChoice.TrailExactly | hunt/proxy_routing.py:61-97 | which notes the chain carries: a disabled custom proxy that handed over, then a chosen proxy that the pool stood in for |
| CarrierChoice.RetryNoted | hunt/proxy_routing.py:100-128 | the number of the winning attempt over a custom proxy is noted, except in plain form |
| CarrierChoice.Connector.ByRoute | hunt/proxy_routing.py:46-77 | who carries is what answers, settings and ratings decide; the exact chain and the recorded failure |
| CarrierChoice.Connector.Serve | hunt/proxy_routing.py:26-35 | end to end: carried exactly if an attempt wins, strictly with fallback off; the decoded log names the carrier, and its kind under the exact condition |
| Socks5.TargetRecovered | hunt/socks5_runner.py:72-126 | in every interleaving the server recovers host and port, the client succeeds exactly with an upstream, and no handshake byte stays unread (RFC 1928, sections 3, 4 and 6) |
| Socks5.RefusalLooksBroken | hunt/conn.py:64-81 | a refusal always ends as a broken handshake |
| Socks5.StepKeeps | hunt/conn.py:33-81 | every step and every delivery keeps the two sides in lockstep |
| Socks5.NoDeadlock | hunt/socks5_runner.py:77-126 | until the end some step is possible |
| Socks5.StepShrinks | hunt/conn.py:33-81 | every effective step brings the end nearer |
| Socks5.RunsToTheEnd | hunt/conn.py:33-81 | every play can be continued to its end, a tunnel exactly with an upstream |
| Socks5Code.Connection.Connect | hunt/conn.py:33-81 | the client routine ends, reads and writes as its machine does on the same input |
| Socks5Code.Connection.Handle | hunt/socks5_runner.py:72-126 | the server routine ends, reads and writes as its machine does on the same input |
| Socks5Code.HandleServesClient | hunt/socks5_runner.py:77-126 | on the client's bytes the server recovers the target, replies, and reads not a byte more |
| Socks5Code.ConnectMeetsServer | hunt/conn.py:54-77 | on the server's bytes the client sends greeting and request and its tunnel starts right behind the reply |
| Socks5Peers.ClientMeetsAnyServer | hunt/conn.py:47-81 | before any server without authentication, whatever kind of address it reports: a success opens a tunnel right behind the reply, any other reply is a refusal (RFC 1928, section 6) |
| Socks5Peers.ClientLogsIn | hunt/conn.py:44-53 | a server that asks for the user name gets it, and once it accepts the request follows (RFC 1929, section 2) |
| Socks5Peers.NoMethodRefuses | hunt/conn.py:37-43 | a server that accepts no method is a refusal and nothing more is sent |
| Socks5Peers.RequestMeans | hunt/conn.py:54-62 | a dotted quad is asked for as its four bytes, any other name as itself with its length, the port with its high byte first |
| Socks5Peers.ServerMeetsAnyClient | hunt/socks5_runner.py:72-126 | any client, whatever methods and kind of address: the server understands host and port, connects there and reads not a byte more (RFC 1928, sections 3 to 6) |
| Socks5Peers.ServerRefuses | hunt/socks5_runner.py:77-103 | what it refuses, and with which code |
| ConnectDrain.DrainIsExact | hunt/conn.py:142-149 | draining a chunked body leaves exactly what follows it if and only if it has no extension on any chunk and no trailer; otherwise more is left (RFC 9112, section 7.1) |
| ConnectDrain.DrainLeaves | hunt/conn.py:142-149 | what exactly is left: all behind the first line with an extension, or all trailers but the first |
| ConnectDrain.HexIsText | hunt/conn.py:145 | every chunk length has a size text |
| ConnectDrain.ExtendedSizeLine | hunt/conn.py:144-145 | a size line with an extension, behind white space or not, is not an integer |
| ConnectDrain.LineGoes | hunt/conn.py:146-148 | one line is read behind the last chunk, trailer or not |
| ConnectDrain.RetryStaysInStep | hunt/conn.py:100-129 | after a retried answer with the complete body that the client reads from its header the second answer decides and the tunnel starts right behind it |
| HttpFraming.FramingIsRead | hunt/conn.py:132-149 | the client reads the framing of RFC 9112, section 6.3, if and only if a chunked body is spelt its way with no length first, or a length is positive or no line holds that spelling; never a body that ends with the connection |
| HttpFraming.FramedRetryStaysInStep | hunt/conn.py:100-149 | after a retried answer whose announced framing is read the second answer decides and the tunnel starts right behind it |
| HttpFraming.SpeltIsFound | hunt/conn.py:142 | the spelling is found in the header exactly if one of its lines holds it |
| HttpFraming.UsualSpellingRead | hunt/conn.py:142 | Transfer-Encoding with one blank, in any letter case and behind any fields without a length, is read |
| HttpFraming.TightSpellingMissed | hunt/conn.py:142 | without the blank it is not, and the body stays on the stream |
| HttpFraming.LengthBesideChunks | hunt/conn.py:140-142 | beside a positive Content-Length the chunks are counted as plain bytes |
| ConnectDrain.SizedErrorThenTunnel | hunt/conn.py:100-141 | a transient error answer with a Content-Length in any letter case among any fields, then a success: a tunnel right behind the second header |
| ConnectDrain.StatusRead | hunt/conn.py:26-30 | the code of a status line is read back |
| ConnectDrain.LengthFieldRead | hunt/conn.py:136-139 | a Content-Length field in any letter case is read back |
| ConnectDrain.HeaderParts | hunt/conn.py:112-117 | a header of any lines ends at its blank line and splits into those lines |
| ConnectDrain.LengthAt | hunt/conn.py:136-140 | the first Content-Length line counts, wherever it stands |
| ConnectDrain.SaysSuccess | hunt/conn.py:117-118 | a status line with a three-digit code holds "200" if and only if the code is 200 or the reason phrase holds it |
| ConnectDrain.TunnelIsSuccess | hunt/conn.py:117-129 | an answer is taken for a tunnel rightly if and only if its code is 200 or its reason phrase does not hold "200" |
| ConnectDrain.BadGatewayAccepted | hunt/conn.py:117-119 | the failure happens: a 502 with the reason "upstream 200" is taken for a tunnel |
| ConnectDrain.AnswersDecide | hunt/conn.py:112-129 | what each answer does by its code: 200 opens the tunnel, 429, 502, 503, 504 and with a user name 407 ask once more, everything else is a refusal |
| ConnectDrain.BodyDrained | hunt/conn.py:132-149 | the sized, chunked or empty body that the client reads from a header is drained exactly |
| ConnectDrain.Stream.ReadExactly | hunt/conn.py:141-149 | reads the count asked for; a short read drops what had arrived |
| ConnectDrain.Stream.ReadLine | hunt/conn.py:144 | reads through the first newline or to the end |
| ConnectDrain.Stream.DrainChunks | hunt/conn.py:142-149 | the chunk loop leaves what the reference leaves |
| ConnectDrain.Stream.HttpConnect | hunt/conn.py:100-129 | verdict and remaining stream of the negotiation |
| TrafficRollup.TotalsAfter | hunt/traffic_stats.py:36-79 | after any additions and prunes, totals since a cutoff in the window are the number and the plain sums of the fields of all recent rows |
| TrafficRollup.CutoffBrackets | hunt/traffic_stats.py:10-13 | no row an hour younger than the cutoff is missing, none older is included |
| TrafficRollup.TrafficStats.Add | hunt/traffic_stats.py:36-57 | keeps the counters the sums of the log, also when it prunes first |
| TrafficRollup.TrafficStats.Prune | hunt/traffic_stats.py:59-63 | drops exactly the hours before the window |
| TrafficRollup.TrafficStats.Totals | hunt/traffic_stats.py:68-79 | the number of recent rows, their bytes in and out, and how many succeeded |
| TrafficRollup.TrafficStats.ByUpstream | hunt/traffic_stats.py:81-96 | exactly the upstreams of recent rows, each with the number and the plain sums of its rows |
| TrafficRollup.UpstreamsAddUp | hunt/traffic_stats.py:81-96 | the per-upstream sums, in any order, add up to the totals |
| TrafficRollup.SinceSums | hunt/traffic_stats.py:49-54 | the five measures of the log are the number of recent rows and the plain sums of their fields |
| TrafficRollup.TrafficStats.LoadFromDb | hunt/traffic_stats.py:98-127 | on top of whatever was counted, the counters become the sums with the rows after the start of the window |
| TrafficRollup.RebuildIsExact | hunt/traffic_stats.py:98-127 | a rebuild equals adding every row and pruning if and only if no row sits on the full hour the window starts at |
| TrafficRollup.TrafficStats.FoldHours | hunt/handlers/traffic_summary.py:46-60 | one fold over the hourly counters: for each of the three cutoffs exactly the upstreams of recent rows, each with the number and the plain sums of its rows |
| TrafficRollup.FoldPeriod | hunt/handlers/traffic_summary.py:61-71 | a tile shows the recent rows since its cutoff, their bytes and successes, in any order of the routes |
| TrafficRollup.Summary | hunt/handlers/traffic_summary.py:46-71 | from the counters to the tiles: day, week and month show the totals of the log |
| TrafficRollup.TrafficLog.Queue | hunt/db.py:19-41 | every queued row is counted and is in the buffer or submitted, once and in order |
| TrafficRollup.TrafficLog.Flush | hunt/db.py:43-60 | hands the whole buffer over as one batch |
| ValidationPool.EachAddressOnce | hunt/check_validation.py:92-117 | in every reachable state each address sits in one place and is counted at most once, the count shown never passes it unless a health check ended without restoring, and ok = new + confirmed |
| ValidationPool.StepCountsOne | hunt/check_validation_helpers.py:37-94 | a step counts at most one address and only one not counted before |
| ValidationPool.HealthOwnsCounters | hunt/check_validation_helpers.py:7-61 | no worker changes a counter that a health check owns |
| ValidationPool.CalmRunAddsUp | hunt/check_validation.py:147-199 | without suspicion, health check or cancellation the count is attempts plus exclusions, and the total at the end |
| ValidationPool.SkippedExactly | hunt/check_validation_helpers.py:60-63 | a move takes the last chance of counting an address exactly if it throws its result away |
| ValidationPool.SkipStepExactly | hunt/check_validation.py:120-141 | every step: an address is skipped afterwards if and only if it was before, or its worker throws an uncounted result away or is cancelled uncounted |
| ValidationPool.SkippedInRun | hunt/check_validation.py:92-199 | over every run: an address ends skipped if and only if some step skipped it so |
| ValidationPool.SkippedForever | hunt/check_validation.py:190-196 | a skipped address is never counted again |
| ValidationPool.CountedOrSkipped | hunt/check_validation.py:98-113 | when all addresses are through, what is missing from the count was skipped or lost |
| ValidationPool.FinalCount | hunt/check_validation.py:98-141 | at the end of every run the count is the total less the addresses some step skipped and the counts overwritten; it is the total if and only if there were none, unless a health check ended without restoring |
| ValidationPool.HealthWindowLoses | hunt/health_check.py:23-43 | a count made between saving and starting is lost if and only if the check had candidates, whatever happened in between, and nothing else is |
| ValidationPool.RestoreLoses | hunt/health_check.py:112-130 | the saved count comes back exactly if the phase is still that of the health check |
| ValidationPool.PhaseTakenMixes | hunt/health_check.py:112-115 | otherwise its numbers stay on the board and can pass the total, for any addresses being validated |
| ValidationPool.AttemptsExceedExactly | hunt/check_validation.py:147-199 | in every reachable state successes, failures and exclusions are the count plus what was recorded again, so attempts pass the count exactly when more was recorded again than excluded |
| ValidationPool.AttemptsCanExceedTotal | hunt/check_validation.py:171-182 | a run in which they do |
| ValidationPool.SuspicionSkips | hunt/check_validation_helpers.py:62-63 | a run in which a suspect result skips its address |
| ValidationCounts.CountersTell | hunt/check_validation_helpers.py:37-94 | over every run each counter is the number of its verdicts: new for addresses that had not worked, confirmed for those that had, failed for the others |
| ValidationCounts.BoardTells | hunt/check_validation_helpers.py:64-82 | without a health check the board shows exactly those verdicts |
| ValidationCounts.BoardComesBack | hunt/health_check.py:23-130 | a health check starts from an empty board, and its end brings back the whole board as it saved it, the count capped at the total |
| ValidationCounts.NumbersStay | hunt/health_check.py:112-130 | if the phase was taken from it, its own numbers stay |
| ValidationCounts.ChecksBegin | hunt/check_validation.py:153-163 | a worker begins a check exactly when it has a place and the internet is trusted, and waits exactly when it is suspect |
| ValidationCounts.ChecksEnd | hunt/check_validation.py:164-188 | a check ends in a fast failure, a failure or a success |
| ValidationCounts.FinishesExactly | hunt/check_validation.py:147-199 | a worker is done with its address exactly when that is excluded, its result belongs to a health check, or its result is processed with the internet trusted |
| ValidationCounts.StartMeans | hunt/check_validation.py:74-117 | at least one idle worker, one stop mark for each behind the addresses, and counters at zero |
| ValidationCounts.TakesNext | hunt/check_validation.py:103-117 | a worker takes the next address in order, and leaves at a stop mark |
| ValidationPool.SharedCounters.HandleBlacklisted | hunt/check_validation_helpers.py:7-13 | the counters after an exclusion |
| ValidationPool.SharedCounters.HandleFastFail | hunt/check_validation_helpers.py:37-53 | the counters after a fast failure |
| ValidationPool.SharedCounters.RecordCheckResult | hunt/check_validation_helpers.py:55-94 | the counters after a full result |
| SwitchHistory.MergeConsecutive | hunt/switch_history.py:141-155 | the merging loop computes the merged history |
| SwitchHistory.MergeKeepsMeaning | hunt/switch_history.py:141-155 | no equal neighbours, the order, the first moment and the address in force at every moment are kept |
| SwitchHistory.MergeIdempotent | hunt/switch_history.py:141-155 | merging a history without equal neighbours changes nothing |
| SwitchHistory.MergedGroup | hunt/switch_history.py:141-155 | a stretch with one address becomes one entry with the first time and the last route kind |
| SwitchHistory.MergedSplits | hunt/switch_history.py:141-155 | where the address changes both sides are merged on their own |
| SwitchHistory.RecordableAre | hunt/switch_history.py:73-75 | recorded are exactly the switches to an address over another route than the direct one |
| SwitchHistory.PeriodsTile | hunt/switch_history_stats.py:11-19 | every moment from the first switch to now lies in exactly one period, the one of the address in force |
| SwitchHistory.PeriodsStayInside | hunt/switch_history_stats.py:11-19 | nothing outside that span belongs to a period |
| SwitchHistory.PeriodDurations | hunt/switch_history_stats.py:87-90 | the durations add up to the time since the first switch |
| SwitchHistory.ShownIsActive | hunt/switch_history.py:112-118 | the shown history names the address in force at a moment if and only if no proxy-less stretch covers it |
| SwitchHistory.SwitchLog.RecordUpstreamSwitch | hunt/switch_history.py:69-82 | a repeated address renews the action, a new one is appended, the newest five hundred stay |
| SwitchHistory.RecordAll | hunt/switch_history.py:69-82 | recording as it happens keeps exactly the newest five hundred entries of the merged whole |

## Left out

- Sockets, TLS, DNS, timeouts, geo, fraud and speed probes: their results are arbitrary values; in `Socks5` and
  `ConnectDrain` a stream delivers its bytes and ends, and no timeout fires.
- SQL text, JSON encoding and reconnection: tables are maps and sequences, a failed commit is a flag.
- HTTP handlers, web pages, snapshots, PAC files, logging, events: formatting only.
- Interception by iptables/ipset: the script that does it is not part of this model.
- Library code `summarize_address_range` and `ip_network`: the blocks of a token, and the range of an entry that the
  fast parser does not read, are parameters; queries are for IPv4 addresses.
- Blank source ids of IP blacklists: every entry with a blank id would be reported separately.
- Non-ASCII text in `PyText` (case folding, Unicode blanks and digits), and the separators U+001C to U+001F as blanks:
  the domain and entry texts are plain ASCII.
- Scheduler liveness and fairness, and edits of a schedule's task type while it runs: the code does not promise them.
- Ratings that imports, favourites and the manual blacklist put or flag in memory without marking them dirty: they
  reach the table with the full save that follows.
- A schedule that is deleted and added again under its id while its task runs: the completion counts for the new one.
- When a bulk cancellation rewrites the expected next run of a schedule: any step may do so here (`Rehint`).
- A second bulk cancellation that begins while one is open; stopping the scheduler is modelled by its parts, the flag
  with the emptied queue, abandoned coroutines and a bulk cancellation of everything.
- Scheduler pause flags per task (`respect_pause`): false for every task type.
- The internet gate and the hunt's pause and resume: they only set the pause flag, which any step may flip here.
- `Rating`: last-check and last-ok stamps, country, city and provider texts, and `score_breakdown`: not read by the
  score; one clock reading serves a whole update.
- `Rating`: rounding of floats: averages and scores are exact reals.
- `CarrierChoice`: configuration that changes between two attempts of one request, the self-target check, and addresses
  without a port.
- `CarrierChoice`: what a traffic failure does to a rating is an arbitrary function here; `Rating` says what it is.
- `Socks5`: SOCKS4, which shares nothing with it.
- `Socks5`: `socket.inet_aton` on texts other than dotted quads, and numeric Unicode characters in host names.
- `TrafficRollup`: the five top routes of a tile and the day tile's fallback to memory.
- `TrafficRollup`: NULL upstreams of old rows, which the counters merge with the empty upstream.
- `ValidationPool`: the streak counters behind the automatic pause; the pause may come and go at any step.
- `SwitchHistory`: traffic sums per period, which are one SQL statement.
- Upstream rule regexes of the domain parser and the country tables: library-bound; a downloaded line arrives as the
  rules have cleaned it, and the dot that makes it a pattern is tested in the model.
- `ConnectDrain`: lines longer than the reader's buffer limit.
- `HttpFraming`: a Content-Length written as a list of equal numbers counts as invalid.
