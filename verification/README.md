# Verified model of the experiment-control plane

A laboratory control system runs one *driver* process per device and one *manager* that supervises
the drivers, ingests what they publish, answers clients and plans scans. This project models the
control plane of both sides in Dafny and proves what it guarantees over whole runs.

Each part has the same shape. The state that the program updates in place is a class whose methods
follow the source branch by branch and loop by loop; each method is proved to move the object's
`View()` by a step function on values. Theorems about every run, every interleaving or every input
are then lemmas about those step functions, stated against definitions that do not mention them
(the most recent distinct keys of a history, the lines a source wrote, an event grammar, the
number of whole periods elapsed).

| module | what it covers |
|---|---|
| `DeviceRunner` | driver: device health, action-failure latch, catch-up stream scheduler |
| `DriverPub` | manager: the two-budget priority drain of the driver PUB socket |
| `TelemetryCache`, `Recency`, `OrderedDict` | the two-level LRU telemetry cache, and what LRU means over a history |
| `SupervisorLogs`, `BoundedQueue`, `LogRotation` | child-process log pipeline, drop counting, file rotation |
| `DriverHandle`, `HeartbeatEpisodes`, `HeartbeatHistory`, `GenerationEpisodes` | heartbeat age, staged heartbeat policy, what it announces |
| `Generations`, `DriverLifecycle`, `Liveness` | driver generations, launches and restarts, one-shot reconnect, published liveness |
| `RequestReply` | request/reply correlation over a DEALER socket |
| `InterceptorRoutes` | interceptor routes and their memoised chains |
| `ScanPlan`, `Metadata` | 2D scan planner, metadata overrides and their overlay algebra |

`dafny verify dfyconfig.toml` checks everything. Clocks and measured values are exact reals, sockets
are sequences of messages, and what the environment decides (arrivals, outcomes of device calls,
whether a subprocess is alive, the shuffle) is a parameter.

## Where the code differs from what it says

The model follows the code. Eight expectations turned out not to hold. Each is stated with the exact
condition under which it does, and with a concrete run on which it does not:

- **Waiting for the first connect is counted as missed samples.** The resync flag starts cleared
  (src/experiment_control/_driver/runner.py:188), so a connect served in the very first iteration of
  the loop finds plans that were never resynced. `OutageAddsNothingIff`: no other iteration that begins
  disconnected adds to the missed total; `StartupCountsAsMissed` is the run.
- **The action-failure latch does not imply unreachable.** A successful scheduled stream sets reachable
  without touching the latch (src/experiment_control/_driver/runner.py:1450). `LatchedReachableIff`
  says exactly when a latched device is reachable; `LatchedCanBeReachable` is the run. What does hold
  is the state invariant of `RunKeepsInv`.
- **A device without telemetry signals is not promoted by a tick.** The comment at
  src/experiment_control/_driver/runner.py:1329-1336 speaks of gating a promotion to OK; the branch
  promotes only from DISCONNECTED, which an earlier return excludes.
  `TelemetryLeavesOkIff` is the exact condition, `WithoutSignalsOnlyConnectRestores` its consequence
  for whole runs, and `CleanTickDoesNotPromote` is the run.
- **Liveness events can repeat, and the remembered liveness is not always the one last published.** A
  stop remembers OFFLINE at once, but when a lifecycle worker performs it the event is only queued, or
  dropped (src/experiment_control/_manager/process_supervision.py:361-362,
  src/experiment_control/_manager/pubsub.py:113-136), while the update compares with what is
  remembered. `Liveness.NeverRepeatsIff` and `RememberedIsShownIff` are the exact conditions over every
  interleaving; `OrderlyNeverRepeatsIff` is what remains when no event is overtaken.
  `StoppingTwiceRepeats`, `OvertakenOfflineRepeats` and `OnlineAgainRepeats` are the runs.
- **The stale, recovered, failed grammar does not hold per driver generation.** A driver that registers
  again within its generation restarts the run that the policy watches, and an open episode is dropped
  silently (src/experiment_control/_manager/driver_heartbeat_policy.py:12-17). It holds per run
  (`HistoryAnnouncesEpisodes`); `GenerationsMatchIff` is the exact condition per generation and
  `RepeatedRegistrationRestarts` the run.
- **A reported drain cap does not prove a backlog**, against the comment at
  src/experiment_control/_manager/driver_pub.py:349. `CapHitWithEmptySocketIff` lists the queues,
  `CapHitWithEmptySocketExists` is one of them.
- **A raising `register` can leave stale chains cached**, because it appends before it validates the
  next entry and skips the invalidation (src/experiment_control/_manager/interceptor_routes.py:57-84).
  `RaisedCoherentIff` says exactly when, `StaleChainIff` which chains are stale after any run, and
  `RaisedCanBreakCoherence` is the run.
- **The pre-send drain alone does not protect against managers that do not echo ids**, as the comment
  at src/experiment_control/manager_client.py:155-160 suggests. `OwnRepliesIff` is the exact boundary
  over whole runs, `WaitIsMisledIff` for one call; `IdlessReplyIsMisattributed` is the run. With
  echoed ids `EchoIsEnough` holds for all runs.

Conversely the heartbeat theorem for one driver run needs less than expected: neither "hard timeout >
soft timeout" nor a monotone clock. Over whole histories the clock must be monotone and the soft
timeout not negative, which the manager enforces (src/experiment_control/manager.py:382).

## Model

| member | source | states |
|---|---|---|
| DeviceRunner.RunKeepsInv | src/experiment_control/_driver/runner.py:692-1362 | After start-up, over every run of requests, telemetry ticks and stream passes: state is DISCONNECTED, OK or DEGRADED; OK implies reachable and latch clear; DISCONNECTED implies unreachable; the reported driver state is OK if and only if the device state is OK |
| DeviceRunner.DisconnectedAfterIff | src/experiment_control/_driver/runner.py:1059-1123 | A step leaves the device disconnected if and only if it is a successful disconnect, a failed connect on a device that is not OK, or the device was disconnected and it is no successful connect |
| DeviceRunner.StaysDisconnected | src/experiment_control/_driver/runner.py:1110-1123 | After a successful disconnect every run without a successful connect finds the device disconnected and unreachable and the driver not OK |
| DeviceRunner.OkAfterIff | src/experiment_control/_driver/runner.py:692-1123 | For every step, exactly when it leaves the device OK; in particular a successful connect does from every state |
| DeviceRunner.ReachableAfterIff | src/experiment_control/_driver/runner.py:908-1234 | For every step, exactly when it leaves the device reachable |
| DeviceRunner.LatchAfterIff | src/experiment_control/_driver/runner.py:986-1025 | A raising action sets the latch, a completed action or a successful connect clears it, and nothing else touches it |
| DeviceRunner.ErrorAfterIff | src/experiment_control/_driver/runner.py:692-1234 | For every step, exactly when an error is recorded after it; a stream pass leaves the outcome of its last due stream |
| DeviceRunner.StartsInitialising | src/experiment_control/_driver/runner.py:279-283 | A driver that has just started is disconnected, unlatched and reports that it is initialising |
| DeviceRunner.NoSilentRecovery | src/experiment_control/_driver/runner.py:986-1025 | While the action-failure latch is set and no action completes and no connect succeeds, no run of ticks, streams, refused or failed requests makes device or driver OK |
| DeviceRunner.FailedActionSetsLatch | src/experiment_control/_driver/runner.py:908-984 | A get, set or command that raises on a connected device sets the latch and keeps the invariant |
| DeviceRunner.TelemetryLeavesOkIff | src/experiment_control/_driver/runner.py:1318-1362 | The exact condition under which a telemetry tick leaves the device OK, with and without configured signals |
| DeviceRunner.WithoutSignalsOnlyConnectRestores | src/experiment_control/_driver/runner.py:1329-1347 | A device without telemetry signals that is not OK stays not OK over any run without a successful connect, although the comment there speaks of promotion |
| DeviceRunner.CleanTickDoesNotPromote | src/experiment_control/_driver/runner.py:1329-1347 | A concrete run: without signals, a device degraded by a failed stream stays degraded through a clean tick with no latch set |
| DeviceRunner.CompletedActionThenCleanTickRestores | src/experiment_control/_driver/runner.py:692-729 | With signals, a completed action followed by an all-OK telemetry tick restores OK: the latch does not block recovery for ever |
| DeviceRunner.PassKeepsBalance | src/experiment_control/_driver/runner.py:1423-1458 | One scheduler pass keeps next_due = anchor + (1 + fired + missed) * period; after a connected pass now < next_due, and a plan that fired has next_due - period <= now |
| DeviceRunner.RunStaysBalanced | src/experiment_control/_driver/runner.py:1423-1458 | Over every run with a monotone clock that equation holds for every plan since its last resync, whatever requests and outages come between |
| DeviceRunner.EveryPeriodIsFiredOrMissed | src/experiment_control/_driver/runner.py:1438-1442 | The books in closed form: fired + missed is the number of whole periods from the anchor to the last connected pass |
| DeviceRunner.StartIsBalanced | src/experiment_control/_driver/runner.py:288-292 | The schedule the main loop starts with is balanced, anchored at the start time |
| DeviceRunner.MissedTotalIsTheSum | src/experiment_control/_driver/runner.py:1423-1458 | Over every run the published missed total is the sum over the plans of what each missed, before and after its resyncs |
| DeviceRunner.OutageAddsNothingIff | src/experiment_control/_driver/runner.py:1424-1436 | In the main loop from start-up, an iteration that begins disconnected leaves the missed total alone if and only if it is not the first iteration, connecting the device when some plan is already a whole period late |
| DeviceRunner.OutageAddsNothing | src/experiment_control/_driver/runner.py:1424-1436 | Hence whole outages, up to and including the iteration that reconnects, add nothing once the loop has turned |
| DeviceRunner.LoopFlagsOutage | src/experiment_control/_driver/runner.py:293-345 | After every iteration of the loop the resync flag is set exactly when the device is disconnected, so the flag outlives the outage |
| DeviceRunner.StartupCountsAsMissed | src/experiment_control/_driver/runner.py:188 | The exception at a concrete input: waiting 100 periods for the first connect counts 100 missed samples |
| DeviceRunner.LoopIsRun | src/experiment_control/_driver/runner.py:293-345 | Every run of the main loop is one of the runs that the other theorems quantify over |
| DeviceRunner.LatchedReachableIff | src/experiment_control/_driver/runner.py:1444-1458 | Over every run without a recovery, a latched device is reachable after a step exactly when a due stream just succeeded, or it was reachable and the step was no tick, raising action, disconnect or failed connect |
| DeviceRunner.LatchedCanBeReachable | src/experiment_control/_driver/runner.py:1450 | Two iterations of the loop after which the latch is set and the device reachable |
| DeviceRunner.DisconnectedPassAwaitsResync | src/experiment_control/_driver/runner.py:1424-1426 | A pass on a disconnected device asks for a resync and leaves plans, health and total alone |
| DeviceRunner.MissedBounds | src/experiment_control/_driver/runner.py:1440 | The floor division counts exactly the whole periods by which a due plan is late |
| DeviceRunner.DeviceRunner.constructor | src/experiment_control/_driver/runner.py:266-293 | The loop starts disconnected with every plan due one period after the start |
| DeviceRunner.DeviceRunner.MarkDeviceUnreachable | src/experiment_control/_driver/runner.py:998-1025 | Unreachable, latched, error recorded; DEGRADED unless disconnected |
| DeviceRunner.DeviceRunner.RpcRouteGetOrSet | src/experiment_control/_driver/runner.py:908-984 | A completed get or set clears the latch and nothing else; a raising one marks the device unreachable; a refused one or a disconnected device changes no health field but the error note |
| DeviceRunner.DeviceRunner.RpcDispatchDeviceCommand | src/experiment_control/_driver/runner.py:1163-1234 | As for get and set, but a completed command also makes the device reachable and clears the error |
| DeviceRunner.DeviceRunner.RpcRouteConnectDevice | src/experiment_control/_driver/runner.py:1059-1108 | A connected device is left alone; a failed connect leaves it DISCONNECTED; a successful one makes it OK, reachable and unlatched |
| DeviceRunner.DeviceRunner.RpcRouteDisconnectDevice | src/experiment_control/_driver/runner.py:1110-1123 | A successful disconnect leaves it DISCONNECTED and unreachable with its latch kept; a failed one only records the error (see DisconnectedAfterIff) |
| DeviceRunner.DeviceRunner.ApplyTelemetryQualityState | src/experiment_control/_driver/runner.py:692-729 | The effect of a reading with so many OK and so many other signals on state, reachability and error |
| DeviceRunner.DeviceRunner.PublishTelemetry | src/experiment_control/_driver/runner.py:1318-1362 | The health part of a telemetry tick, for a read that raises or returns |
| DeviceRunner.DeviceRunner.ReportDriverState | src/experiment_control/_driver/runner.py:1701-1716 | The driver state derived from health |
| DeviceRunner.DeviceRunner.RunStream | src/experiment_control/_driver/runner.py:1444-1458 | A scheduled stream sets reachable and clears the error without touching the latch, or degrades the device |
| DeviceRunner.DeviceRunner.PublishScheduledStreams | src/experiment_control/_driver/runner.py:1423-1458 | One scheduler pass over all plans: schedule, missed total, health and resync flag |
| DeviceRunner.DeviceRunner.ResyncPlans | src/experiment_control/_driver/runner.py:1434-1435 | The resync loop makes every plan due one period from now |
| DeviceRunner.DeviceRunner.RunDuePlans | src/experiment_control/_driver/runner.py:1437-1458 | The loop over plans fires exactly the due ones, once each, and counts what they missed |
| DeviceRunner.DeviceRunner.ServeRequest | src/experiment_control/_driver/runner.py:1236-1258 | A request is served by its route |
| DeviceRunner.DeviceRunner.RunIteration | src/experiment_control/_driver/runner.py:293-345 | The body of the main loop: at most one request, a tick if due, always a stream pass |
| DriverPub.DriverPubPump.ReadMessages | src/experiment_control/_manager/driver_pub.py:287-320 | The read loop takes exactly min(n, MAX) messages if the first chunk_ready is at k < MAX, k + 1 if MAX <= k < 2 MAX, min(n, 2 MAX) otherwise; returns the decodable ones in order; and reports the cap exactly when `CapHit` says so |
| DriverPub.DriverPubPump.HandleDriverPub | src/experiment_control/_manager/driver_pub.py:262-357 | One tick: what is read leaves the queue and is handled, chunks before the rest; the extension, exhausted and cap counters move exactly when they should (exhausted: both budgets spent, no chunk among them) |
| DriverPub.StoppedReading | src/experiment_control/_manager/driver_pub.py:292-320 | Wherever the two-budget loop stops, its counters determine the read count and the cap report |
| DriverPub.CapHitWithEmptySocketIff | src/experiment_control/_manager/driver_pub.py:347-357 | Exactly the queues on which a tick reports its cap although the socket is empty |
| DriverPub.CapHitWithEmptySocketExists | src/experiment_control/_manager/driver_pub.py:349-354 | Such a queue exists for the program's own budget of 256, so a reported cap does not prove a backlog |
| DriverPub.DispatchKeepsOrder | src/experiment_control/_manager/driver_pub.py:334-341 | Handling chunks first reorders messages only across the two kinds |
| DriverPub.DispatchPutsChunksFirst | src/experiment_control/_manager/driver_pub.py:334-341 | What one tick hands to the handlers has all its chunks first, and only decodable messages |
| DriverPub.TickHandlesChunksFirst | src/experiment_control/_manager/driver_pub.py:334-341 | Over every run of arrivals and ticks, in what a further tick handles no other message precedes a chunk |
| DriverPub.CapHitMeansBudgetSpent | src/experiment_control/_manager/driver_pub.py:287-320 | The cap is reported exactly when both budgets were spent, or the base budget with a chunk in it |
| DriverPub.ExhaustedIff | src/experiment_control/_manager/driver_pub.py:322-332 | The extension counts as exhausted exactly when both budgets were spent without a chunk |
| DriverPub.RunDeliversInOrder | src/experiment_control/_manager/driver_pub.py:287-357 | Over any interleaving of arrivals and ticks every decodable message is handled exactly once or still queued; chunks in arrival order among themselves, and so are all others |
| DriverPub.HandledWithinTicks | src/experiment_control/_manager/driver_pub.py:287-357 | The message at queue position p has been handled after floor(p / MAX) + 1 ticks, whatever arrives meanwhile |
| DriverPub.FirstChunkHandledTwiceAsFast | src/experiment_control/_manager/driver_pub.py:270-320 | What the extension buys: the first queued chunk at position p has been handled after floor(p / (2 MAX)) + 1 ticks |
| Recency.RecentSpec | src/experiment_control/_manager/driver_pub.py:30-33 | The reference order: exactly the keys of a history, once each, sorted by their last touch |
| Recency.TouchKeepsMostRecent | src/experiment_control/_manager/driver_pub.py:30-33 | Touching a bounded list step by step keeps exactly the most recent distinct keys of the whole history |
| TelemetryCache.RunSpec | src/experiment_control/_manager/driver_pub.py:67-140 | After any ingests, cut short or not: cached devices are the most recently ingested distinct ones up to the cap, in recency order, in both `latest` and the LRU order; each shows the signals of its updates since its last admission; side caches name cached devices only, with the times of their last completed ingest; admissions = cached + evicted |
| TelemetryCache.CachedSignals | src/experiment_control/_manager/driver_pub.py:122-140 | A cached device holds its most recently updated distinct signals since admission, up to the cap, each with its latest value |
| TelemetryCache.CompleteRunsFillSideCaches | src/experiment_control/_manager/driver_pub.py:502-506 | When no ingest is cut short by an exception, both side caches cover every cached device |
| TelemetryCache.RunEvictsSignals | src/experiment_control/_manager/driver_pub.py:128-140 | Over every run the counter of evicted signals is the number of names that entered a device cache and had to leave it again |
| TelemetryCache.SignalCacheSpec | src/experiment_control/_manager/driver_pub.py:128-140 | One device: evict-then-insert keeps the most recent distinct names with their latest values |
| TelemetryCache.SlotSpec | src/experiment_control/_manager/driver_pub.py:102-119 | Admitting a device moves it to the end of the LRU order, evicts at most the oldest other one, and keeps signals and side-cache times of all that stay |
| TelemetryCache.EvictSpec | src/experiment_control/_manager/driver_pub.py:67-99 | Eviction happens only for a new device at capacity and removes exactly the least recent one |
| TelemetryCache.EvictKeepsSides | src/experiment_control/_manager/driver_pub.py:93-99 | Eviction removes the evicted device from the side caches and nobody else |
| TelemetryCache.ShowsStep | src/experiment_control/_manager/driver_pub.py:422-506 | One more ingest, on any cache that shows a history, gives the cache that shows the longer history |
| TelemetryCache.TelemetryStore.constructor | src/experiment_control/_manager/driver_pub.py:19-27 | Configured limits are raised to at least one |
| TelemetryCache.TelemetryStore.EvictOneDevice | src/experiment_control/_manager/driver_pub.py:67-99 | The eviction step on the four dictionaries and the counter |
| TelemetryCache.TelemetryStore.EnsureDeviceSlot | src/experiment_control/_manager/driver_pub.py:102-119 | Evict if needed, admit, touch |
| TelemetryCache.TelemetryStore.StoreTelemetrySignal | src/experiment_control/_manager/driver_pub.py:122-140 | Store one signal, evicting the least recently updated one of that device when full |
| TelemetryCache.TelemetryStore.IngestTelemetry | src/experiment_control/_manager/driver_pub.py:422-506 | A whole ingest, including one that an exception ends before the side caches are written |
| SupervisorLogs.NothingLostOrReordered | src/experiment_control/_manager/process_logs.py:472-527 | For every interleaving of reader puts and main-thread steps and every source key: emitted blocks, then the open block, then the queue spell exactly the accepted lines in order |
| SupervisorLogs.AcceptedLinesReadBack | src/experiment_control/_manager/process_logs.py:472-527 | Since readers queue single lines, the accepted lines themselves can be read back from that text |
| SupervisorLogs.StepText | src/experiment_control/_manager/process_logs.py:441-524 | No step other than an accepted put changes what a source has in the pipeline |
| SupervisorLogs.RunIsWellGrouped | src/experiment_control/_manager/process_logs.py:502-524 | For every run and source, the accepted lines that have left the queue are partitioned, in order, into the emitted messages and the open block: a line is in the same message as the line before it if and only if it continues, the one before is in a block that an opening line began, and no flush closed that block between their takes |
| SupervisorLogs.MessagesSplitIntoGroups | src/experiment_control/_manager/process_logs.py:502-524 | With newline-free lines these groups can be read off the messages: splitting each gives one line that opens no block, or a whole block |
| SupervisorLogs.AcceptMessages | src/experiment_control/_manager/process_logs.py:498-524 | What a taken line does to the messages of every source: extends the open block, or becomes a message of its own that stays open exactly if it opens a block; other sources see nothing |
| SupervisorLogs.StartAlsoContinues | src/experiment_control/_manager/process_logs.py:86-116 | Every line that opens a block also continues one, and is not blank |
| SupervisorLogs.TracebackOpens | src/experiment_control/_manager/process_logs.py:86-92 | The header of a Python traceback opens a block, whatever follows it |
| SupervisorLogs.LoggingMarkersOpen | src/experiment_control/_manager/process_logs.py:86-92 | So do the call-stack and logging-error markers |
| SupervisorLogs.LoggingMarkersContinue | src/experiment_control/_manager/process_logs.py:95-116 | Message and argument markers continue a block |
| SupervisorLogs.ChainedTracebackContinues | src/experiment_control/_manager/process_logs.py:95-116 | So do the lines between chained tracebacks |
| SupervisorLogs.IndentedContinues | src/experiment_control/_manager/process_logs.py:95-116 | So does every indented line that is not blank |
| SupervisorLogs.ErrorLineContinues | src/experiment_control/_manager/process_logs.py:95-116 | So does a line that begins with the name of an error class |
| SupervisorLogs.BareExceptionContinues | src/experiment_control/_manager/process_logs.py:95-116 | So does a bare exception or traceback line |
| SupervisorLogs.OrdinaryLine | src/experiment_control/_manager/process_logs.py:86-116 | A line that begins with a digit neither opens nor continues a block |
| SupervisorLogs.LinesAreAccountedFor | src/experiment_control/_manager/process_logs.py:351-495 | The pipeline refines the bounded queue: lines produced = consumed + queued + reported as dropped + counted + about to be counted |
| SupervisorLogs.ProcessLogs.QueueSupervisorLog | src/experiment_control/_manager/process_logs.py:351-368 | Queue a line, or count it as dropped |
| SupervisorLogs.ProcessLogs.EmitSupervisorItem | src/experiment_control/_manager/process_logs.py:401-439 | Emits one message for a source, nothing for an empty one |
| SupervisorLogs.ProcessLogs.FlushStaleSupervisorBlocks | src/experiment_control/_manager/process_logs.py:441-461 | Closes exactly the blocks that are old enough (or all), in their order |
| SupervisorLogs.ProcessLogs.TakeItem | src/experiment_control/_manager/process_logs.py:496-524 | One turn of the drain: extend the open block, or close it and place the line |
| SupervisorLogs.ProcessLogs.DrainSupervisorLogs | src/experiment_control/_manager/process_logs.py:472-527 | Report drops, flush, take min(queued, max_items) items, flush |
| BoundedQueue.EveryItemIsAccountedFor | src/experiment_control/_manager/pubsub.py:113-136 | Under every interleaving of producers with a snapshot-and-reset drain: produced = consumed + queued + reported drops + drop counter + drops about to be counted; consumed then queued is the accepted order; the bound holds |
| BoundedQueue.LifecycleEvents.PublishOffThread | src/experiment_control/_manager/pubsub.py:113-136 | Queue an event, or count it as dropped |
| BoundedQueue.LifecycleEvents.DrainLifecycleEvents | src/experiment_control/manager.py:2108-2169 | Hands over everything queued in order, then reports and resets the drop counter |
| LogRotation.RunIsSound | src/experiment_control/_manager/process_logs.py:47-71 | After any appends, with any limits: backups are exactly 1..j, j <= backups; oldest to newest then current they spell a suffix of everything written; entries are lost only when all backups are in use; no file outgrows the limit by more than its last entry |
| LogRotation.RetentionGuarantee | src/experiment_control/_manager/process_logs.py:163-189 | Nothing is discarded unless at least backups * max_bytes bytes are kept |
| LogRotation.ShiftedArchive | src/experiment_control/_manager/process_logs.py:59-71 | One rotation keeps the spelled text, except for the oldest backup when all are in use |
| LogRotation.ShiftedAt | src/experiment_control/_manager/process_logs.py:59-71 | Where each index gets its contents from when the files move up |
| LogRotation.LogFiles.RotateLogFile | src/experiment_control/_manager/process_logs.py:47-71 | Rotates exactly when rotation is enabled and the file has reached the limit |
| LogRotation.LogFiles.AppendSupervisorJsonl | src/experiment_control/_manager/process_logs.py:163-189 | Rotate if due, then append |
| HeartbeatEpisodes.RunAnnouncesEpisodes | src/experiment_control/_manager/driver_heartbeat_policy.py:146-265 | One driver run, any heartbeats and checks: events match (stale recovered)* with an optional final stale, optionally followed by failed; failed only at age >= hard timeout and inside an announced episode; a recovery reports the maximum age and the duration of its episode. Neither hard > soft nor a monotone clock is needed |
| HeartbeatEpisodes.CheckFollowsHistory | src/experiment_control/_manager/driver_heartbeat_policy.py:126-265 | Over every pattern of heartbeats and checks, what a check reports, announces and does from the history alone: the silence since the last heartbeat of the run, or since its start; recovered with its duration and maximum, stale, failed exactly by the two timeouts, the device's own hard timeout overriding the manager's |
| HeartbeatEpisodes.HeardDriverIsLeftAlone | src/experiment_control/manager.py:2327-2339 | A check within the soft timeout of the last heartbeat of the run announces neither stale nor failed and leaves the driver running |
| HeartbeatEpisodes.EpisodeMaxIsMaximum | src/experiment_control/_manager/driver_heartbeat_policy.py:206-227 | That reported age is an upper bound of the ages checked in the episode, and one of them |
| HeartbeatEpisodes.UnbrokenMatches | src/experiment_control/_manager/driver_heartbeat_policy.py:146-265 | The event automaton accepts only sequences of that grammar |
| HeartbeatEpisodes.CheckByVerdict | src/experiment_control/_manager/driver_heartbeat_policy.py:126-265 | Events and next handle of one check, by its four verdicts |
| HeartbeatEpisodes.RunAgrees | src/experiment_control/_manager/driver_heartbeat_policy.py:146-265 | Over a whole run the handle has an open episode exactly when the events so far announce one |
| HeartbeatHistory.HistoryAnnouncesEpisodes | src/experiment_control/_manager/driver_heartbeat_policy.py:126-265 | Over every history of starts, stops, exits, failures, repeated registrations and checks, with a monotone clock: the events of each stretch of checks of one driver run match that grammar, with the same bounds on failures and recoveries |
| HeartbeatHistory.SegmentsSpellEvents | src/experiment_control/_manager/driver_heartbeat_policy.py:12-17 | Those stretches spell everything the policy announced, in order, and consecutive ones belong to different runs |
| HeartbeatHistory.OtherStepKeepsEpisode | src/experiment_control/_manager/driver_heartbeat_policy.py:12-23 | No operation but the check touches the stale episode; a run restarts only through a registration at its own time |
| GenerationEpisodes.GenerationsMatchIff | src/experiment_control/_manager/driver_heartbeat_policy.py:12-17 | Read per driver generation instead: the announcements of every generation match the grammar if and only if no episode is announced in a generation after the driver registered anew while an episode of that generation was open or had ended in failure |
| GenerationEpisodes.RepeatedRegistrationRestarts | src/experiment_control/manager.py:1552-1572 | A registration repeated while an episode is open makes its generation announce stale twice |
| HeartbeatEpisodes.MatchesIff | src/experiment_control/_manager/driver_heartbeat_policy.py:146-265 | The event automaton accepts exactly the sequences of the grammar |
| DriverHandle.DeviceHandle.HeartbeatAge | src/experiment_control/manager.py:2327-2339 | Age from the last heartbeat of the current run, else from the start of the run, never negative |
| DriverHandle.DeviceHandle.ClearStaleEpisode | src/experiment_control/_manager/driver_heartbeat_policy.py:20-23 | Forgets the episode |
| DriverHandle.DeviceHandle.OpenOrExtendEpisode | src/experiment_control/_manager/driver_heartbeat_policy.py:199-227 | Announces an episode once, and afterwards keeps the maximum age |
| DriverHandle.DeviceHandle.FailHard | src/experiment_control/_manager/driver_heartbeat_policy.py:234-265 | Fails the driver and, where configured, schedules a restart with a reconnect intent if the device was reachable |
| DriverHandle.DeviceHandle.EnforceHeartbeatTimeout | src/experiment_control/_manager/driver_heartbeat_policy.py:126-265 | The staged policy as a whole: new handle and events |
| DriverHandle.DeviceHandle.StartDriver | src/experiment_control/_manager/process_supervision.py:182-287 | A start that is not refused begins a new generation, binds a pending intent to it and forgets the old heartbeat; a failed spawn restores the heartbeat fields |
| DriverHandle.DeviceHandle.StopDriver | src/experiment_control/_manager/process_supervision.py:290-350 | A stop first withdraws restart and reconnect intents and makes the heartbeat look stale; the state changes only after the shutdown request |
| DriverHandle.DeviceHandle.MaybeRestart | src/experiment_control/_manager/process_supervision.py:1090-1122 | A due restart of a dead driver is launched, or ends in a crash loop when it is automatic and the budget is used up |
| DriverHandle.DeviceHandle.RequestRestart | src/experiment_control/_manager/process_supervision.py:427-435 | An operator restart is scheduled one backoff ahead and does not count as automatic |
| DriverHandle.DeviceHandle.HandleRegistry | src/experiment_control/manager.py:1515-1625 | Ignores registrations of other generations; otherwise records endpoint and generation, sets RUNNING where due, and dispatches at most one auto-connect task |
| DriverHandle.DeviceHandle.RunAutoConnect | src/experiment_control/manager.py:2011-2046 | The check-and-claim of a delayed task: whether it may connect, and the intent it uses up |
| Generations.RecoveryIsOneShot | src/experiment_control/manager.py:2011-2046 | Over every run of starts, stops, exits, failures, registrations and delayed tasks: recovery connects happen at strictly increasing generations, and connects plus the pending intent never exceed the intents raised |
| Generations.ClaimNeedsAllGenerations | src/experiment_control/manager.py:2011-2046 | In any reachable state a recovery connect needs driver, registered, reconnect and expected generation to coincide, and uses up the intent |
| Generations.ObsoleteRegistrationIsIgnored | src/experiment_control/manager.py:1525-1547 | Once the generation is positive, a registration with another generation, or none, changes nothing and dispatches nothing |
| Generations.GenerationGrows | src/experiment_control/_manager/process_supervision.py:182-287 | No step lowers the driver generation |
| Generations.StepKeepsInv | src/experiment_control/manager.py:1612-1625 | Every step keeps the link between intents, generations and claims made so far |
| DriverLifecycle.BoundIntentIsServed | src/experiment_control/manager.py:1612-1625 | In every reachable state with a reconnect intent bound to the current generation, the registration of that generation by a live or starting process dispatches exactly one recovery task, and that task makes exactly one recovery connect and uses up the intent |
| DriverLifecycle.FailureIsRecoveredIff | src/experiment_control/_manager/driver_heartbeat_policy.py:234-265 | End to end: hard failure with restart, launch at the end of the backoff, registration of the new generation and its task reconnect the device exactly if it was last seen reachable |
| DriverLifecycle.AgeCountsFromLatestSign | src/experiment_control/manager.py:2327-2339 | The heartbeat age counts from the latest of last heartbeat and start of the run |
| DriverLifecycle.CheckFailsIff | src/experiment_control/_manager/driver_heartbeat_policy.py:234-265 | Exactly when a check fails the driver, and every field it then changes |
| DriverLifecycle.IntentAfterIff | src/experiment_control/_manager/process_supervision.py:298-307 | For every step, exactly when a reconnect intent is pending after it |
| DriverLifecycle.BindingAfter | src/experiment_control/_manager/process_supervision.py:200-205 | A launch binds a pending intent to its generation; whatever raises or withdraws the intent unbinds it |
| DriverLifecycle.ScheduleAfter | src/experiment_control/_manager/process_supervision.py:1090-1122 | A restart is scheduled one backoff after a hard failure, an exhausted reconnect or an operator request, and cancelled by a stop, a launch and a crash loop; and whether it is automatic |
| DriverLifecycle.GenerationAfter | src/experiment_control/_manager/process_supervision.py:182-205 | The generation grows by one exactly when a driver is launched, by an operator or by a due restart within the budget |
| DriverLifecycle.HeartbeatAfter | src/experiment_control/_manager/process_supervision.py:206-222 | The heartbeat fields hold the last heartbeat since the launch; a failed spawn keeps them and a stop ages them beyond the soft timeout |
| DriverLifecycle.StateAfter | src/experiment_control/_manager/process_supervision.py:182-350 | The process state after every step |
| DriverLifecycle.RunAfter | src/experiment_control/manager.py:1557-1572 | Start time and pid of the watched run, and the time of the last stop request, after every step |
| DriverLifecycle.RegistrationAfter | src/experiment_control/manager.py:1536-1547 | Registered generation and endpoint are those of the last accepted registration, the endpoint until a dead driver is stopped |
| DriverLifecycle.TasksAfterRegistration | src/experiment_control/manager.py:1612-1625 | A registration appends at most one task: a recovery task exactly when it recovers, otherwise an unconditional one if the device connects automatically |
| Liveness.PublishedIsSnapshotIff | src/experiment_control/manager.py:2341-2384 | After the liveness update, the remembered liveness of a device is what the status snapshot reports for the same time if and only if a heartbeat age exists or the device was remembered as OFFLINE |
| Liveness.UpdateMeans | src/experiment_control/manager.py:2341-2356 | What each published value says of driver state, latest sign of life and last reported reachability |
| Liveness.DeviceStatusSnapshot | src/experiment_control/manager.py:2493-2512 | The snapshot's own branches: an unknown device is an error, no age is OFFLINE, and with an age the value is what the update publishes, whatever it remembered before |
| Liveness.EpisodeIffStale | src/experiment_control/_manager/driver_heartbeat_policy.py:149-227 | After enforcement a driver still RUNNING has an open episode if and only if its liveness is STALE; a failed one shows OFFLINE |
| Liveness.NeverRepeatsIff | src/experiment_control/manager.py:2341-2384 | Over every interleaving of updates, stops on the main thread and on workers, queueing, drops and deliveries: published liveness of a device never repeats consecutively if and only if no direct or delivered OFFLINE meets a device shown as OFFLINE, no update finds it not running after a delivered OFFLINE was overtaken, and none finds it as last published while a mark is undelivered |
| Liveness.HistoryDecides | src/experiment_control/_manager/pubsub.py:113-136 | What is remembered of a device and what subscribers were last shown, both in closed form from the last direct publication and the marks and deliveries since |
| Liveness.OrderlyNeverRepeatsIff | src/experiment_control/manager.py:1387-1396 | When nothing is published directly while an OFFLINE is undelivered and all were delivered, the condition is just that no stop found the device remembered as OFFLINE; remembered and last shown value then agree |
| Liveness.OvertakenOfflineRepeats | src/experiment_control/_manager/process_supervision.py:328-347 | A single worker stop that publishes OFFLINE twice, without meeting a remembered OFFLINE, and leaves STALE remembered while OFFLINE is shown |
| Liveness.OnlineAgainRepeats | src/experiment_control/_manager/process_supervision.py:361-362 | A device found online again before the OFFLINE of its stop is delivered is published ONLINE twice |
| Liveness.StoppingTwiceRepeats | src/experiment_control/_manager/process_supervision.py:353-389 | Stopping twice on the main thread repeats the event |
| Liveness.RememberedIsShownIff | src/experiment_control/_manager/process_supervision.py:361-362 | The remembered liveness of a device is the one last published if and only if, since the last direct publication, both a worker mark and a delivery happened or neither did, or that publication was OFFLINE |
| Liveness.LivenessBoard.UpdateDeviceLiveness | src/experiment_control/manager.py:2341-2384 | The loop over devices publishes exactly the changed values |
| Liveness.LivenessBoard.MarkDeviceOffline | src/experiment_control/_manager/process_supervision.py:353-389 | Remembers OFFLINE at once; publishes it at once on the main thread, and off it queues the event or counts it as dropped |
| Liveness.LivenessBoard.DrainLifecycleEvents | src/experiment_control/manager.py:2108-2150 | Publishes the waiting events in order and resets the drop counter |
| RequestReply.OwnRepliesIff | src/experiment_control/manager_client.py:126-213 | The exact boundary over whole runs with junk, late and id-less replies: every call returned nothing or the reply to its own request if and only if in no call an id-less reply to an earlier request, left by the drain or arriving after it, was the first frame that ended the wait |
| RequestReply.CallStartsFrom | src/experiment_control/manager_client.py:178-186 | Over every run, by the recorded results: a call after one that returned nothing starts from an empty socket, a call after one that returned a reply from everything that was buffered |
| RequestReply.AfterFailureOnlyArrivals | src/experiment_control/manager_client.py:178-212 | A reply returned after a failed call arrived during this call |
| RequestReply.LateReplyIsDrained | src/experiment_control/manager_client.py:178-186 | A late reply without id that has reached the socket before the next call is discarded, and that call gets its own reply |
| RequestReply.EveryCallGetsItsOwnReply | src/experiment_control/manager_client.py:126-213 | In every such run each result is nothing, the answer to its own request under its own id, or a reply without an id |
| RequestReply.EchoIsEnough | src/experiment_control/manager_client.py:126-213 | When every reply echoes its id, for every pattern of delays, losses, junk, timeouts and late replies each call returned nothing or the reply to its own request |
| RequestReply.WaitIsMisledIff | src/experiment_control/manager_client.py:175-207 | One call: a foreign reply is returned exactly when the first frame to end the wait is id-less and answers another request |
| RequestReply.WaitReturnsFirstEnd | src/experiment_control/manager_client.py:175-207 | The receive loop by its meaning: the first frame in arrival order, among those read before the deadline, that carries this id or none, unless an undecodable frame comes first |
| RequestReply.DrainDiscardsOnlyOldReplies | src/experiment_control/manager_client.py:15-32 | In every such run, whatever the pre-send drain finds answers an earlier request, never the one about to be sent |
| RequestReply.OwnReplyIsNeverDiscarded | src/experiment_control/manager_client.py:160-213 | A wait that runs to its deadline has not thrown away the reply to its own request, or any other it could have returned |
| RequestReply.WaitTakesFromArrivals | src/experiment_control/manager_client.py:160-213 | A returned reply was buffered or arrived during the wait and carries this id or none |
| RequestReply.ServedFramesAreHonest | src/experiment_control/_manager/internal_rpc.py:84-89 | A reply answers the request it was made for and carries its id, or none exactly when the request could not be parsed |
| RequestReply.IdlessReplyIsMisattributed | src/experiment_control/manager_client.py:126-213 | A concrete misled run: a late reply without id is handed to the next call |
| RequestReply.ManagerClient.DrainStaleReplies | src/experiment_control/manager_client.py:15-32 | Empties the socket |
| RequestReply.ManagerClient.Call | src/experiment_control/manager_client.py:126-213 | Drain if the last call failed, send, wait; remembers whether a late reply may come |
| InterceptorRoutes.RunRefinesUncached | src/experiment_control/_manager/interceptor_routes.py:30-121 | After any run of returning register, drop, invalidate and chain calls, `chain` returns exactly the matching routes in order, each process at its earliest match, on a hit as on a miss |
| InterceptorRoutes.RunKeepsInv | src/experiment_control/_manager/interceptor_routes.py:30-121 | Routes stay strictly increasing in order and bounded by next_order, and every cached chain is the fresh one |
| InterceptorRoutes.ChainMeetsSpec | src/experiment_control/_manager/interceptor_routes.py:101-121 | The uncached loop computes the declarative chain |
| InterceptorRoutes.ChainUnique | src/experiment_control/_manager/interceptor_routes.py:101-121 | The declarative chain is unique, so it says everything about the result |
| InterceptorRoutes.LookedRefinesChain | src/experiment_control/_manager/interceptor_routes.py:87-121 | A lookup answers with the uncached chain; after a miss at most max(32, max_cache) chains are cached, the fresh one among them; a hit changes no value |
| InterceptorRoutes.LookedTouches | src/experiment_control/_manager/interceptor_routes.py:92-121 | A lookup moves its key as a bounded recency list would |
| InterceptorRoutes.CacheKeepsMostRecentKeys | src/experiment_control/_manager/interceptor_routes.py:87-121 | Between invalidations the cache holds the most recently asked keys |
| InterceptorRoutes.RaisedCoherentIff | src/experiment_control/_manager/interceptor_routes.py:57-84 | A registration that raises leaves the cache coherent if and only if no cached chain would gain the process from the entries before the malformed one |
| InterceptorRoutes.RaisedCanBreakCoherence | src/experiment_control/_manager/interceptor_routes.py:57-84 | A lookup followed by a registration that raises leaves a stale chain cached |
| InterceptorRoutes.RunHealsAtInvalidation | src/experiment_control/_manager/interceptor_routes.py:30-121 | Over every run, raising registrations included: routes stay ordered, and `chain` gives the fresh chain from the last call that emptied the cache until a raising registration does harm, so incoherence ends at the next call that empties it |
| InterceptorRoutes.StaleChainIff | src/experiment_control/_manager/interceptor_routes.py:57-121 | Over every run, raising registrations included: a cached chain differs from the fresh one if and only if a raising register that would extend it came since that chain was last computed; it is then a proper prefix of it |
| InterceptorRoutes.ClearsCacheIff | src/experiment_control/_manager/interceptor_routes.py:30-85 | Which calls empty the cache: invalidate, a returning register, and a drop (also that of a replacing register) that has an effect |
| InterceptorRoutes.AppendKeepsChain | src/experiment_control/_manager/interceptor_routes.py:101-121 | Appending routes leaves a chain alone exactly when each appended match belongs to a process that already had one |
| InterceptorRoutes.RegisteredKeepsOrdered | src/experiment_control/_manager/interceptor_routes.py:42-85 | Registration keeps the order invariant on both exits, and the cache coherent when it returns |
| InterceptorRoutes.DroppedKeepsInv | src/experiment_control/_manager/interceptor_routes.py:34-40 | Dropping removes exactly the routes of one process and keeps the invariant |
| InterceptorRoutes.MadeSpec | src/experiment_control/_manager/interceptor_routes.py:55-83 | New routes are numbered upwards from next_order, exactly one for each distinct key |
| InterceptorRoutes.RegisteredRoutes | src/experiment_control/_manager/interceptor_routes.py:42-85 | A registration that returns keeps the other routes (its own too unless it replaces) and adds exactly one new route for each distinct entry |
| InterceptorRoutes.RouteIntercepts | src/experiment_control/_manager/interceptor_routes.py:101-105 | A route matches exactly the device and action it names, or any for a wildcard |
| InterceptorRoutes.FewKeysStayCached | src/experiment_control/_manager/interceptor_routes.py:117-121 | Between invalidations nothing is forgotten while at most max(32, max_cache) keys were asked for |
| InterceptorRoutes.TrimSpec | src/experiment_control/_manager/interceptor_routes.py:117-121 | Trimming respects the bound, changes no value and keeps the newest key |
| InterceptorRoutes.InterceptorRouteState.constructor | src/experiment_control/_manager/interceptor_routes.py:11-18 | Starts empty |
| InterceptorRoutes.InterceptorRouteState.InvalidateCache | src/experiment_control/_manager/interceptor_routes.py:30-32 | Empties the cache and advances the generation |
| InterceptorRoutes.InterceptorRouteState.DropProcess | src/experiment_control/_manager/interceptor_routes.py:34-40 | Drops the routes of a process, invalidating only when something changed |
| InterceptorRoutes.InterceptorRouteState.RegisterRoutes | src/experiment_control/_manager/interceptor_routes.py:42-85 | Both exits of register: it raises exactly for a non-list, a non-object entry or an empty device or action; what was added, and whether the cache was invalidated |
| InterceptorRoutes.InterceptorRouteState.AppendRoutes | src/experiment_control/_manager/interceptor_routes.py:55-83 | The loop stops at the first malformed entry, having appended the routes of the entries before it |
| InterceptorRoutes.InterceptorRouteState.LookUp | src/experiment_control/_manager/interceptor_routes.py:87-121 | The memoised lookup with its LRU trimming |
| ScanPlan.EveryPatternVisitsEachOnce | src/experiment_control/scan_plan.py:44-64 | Non-empty axes, both orders, every pattern, every permutation as shuffle: each grid cell is visited exactly once |
| ScanPlan.SerpentineRoundTrip | src/experiment_control/scan_plan.py:86-108 | Position to cell and back by closed formulas is the identity |
| ScanPlan.SerpentineInverse | src/experiment_control/scan_plan.py:86-108 | Cell to position and back is the identity |
| ScanPlan.SerpentineVisitsEachOnce | src/experiment_control/scan_plan.py:86-108 | The serpentine visits each cell exactly once |
| ScanPlan.SerpentineStepsToNeighbour | src/experiment_control/scan_plan.py:86-108 | Consecutive serpentine cells are at Manhattan distance 1 |
| ScanPlan.SerpentineIsBentRaster | src/experiment_control/scan_plan.py:86-108 | The serpentine starts at the origin and is the raster with every odd line reversed |
| ScanPlan.RasterIsLexicographic | src/experiment_control/scan_plan.py:48-56 | Row-major visits the rows one after another, column-major the columns |
| ScanPlan.RasterVisitsEachOnce | src/experiment_control/scan_plan.py:48-56 | The raster visits each cell exactly once |
| ScanPlan.SortedByKey | src/experiment_control/scan_plan.py:63-64 | A permutation of its input, sorted by (radius2, row, col) |
| ScanPlan.SortedUnique | src/experiment_control/scan_plan.py:111-120 | The key is a total order on cells: a multiset of cells has one sorted listing |
| ScanPlan.CenterOutIgnoresOrder | src/experiment_control/scan_plan.py:63-64 | center_out has non-decreasing squared radius with (row, col) tie-break and is the same for row_major and col_major |
| ScanPlan.CenterOutStartsAtCentre | src/experiment_control/scan_plan.py:111-120 | center_out starts at the middle cell, rounded down |
| ScanPlan.Unit | src/experiment_control/scan_plan.py:68-80 | Axis positions scaled to [0, 1], linear in the index, 0 on a one-point axis |
| ScanPlan.RasterCoords | src/experiment_control/scan_plan.py:47-56 | The nested loops build the raster |
| ScanPlan.ApplySerpentine | src/experiment_control/scan_plan.py:86-108 | The line-by-line reversal builds the closed-form serpentine |
| ScanPlan.BuildRecords | src/experiment_control/scan_plan.py:66-83 | Record i describes cell i, with index equal to position |
| ScanPlan.GenerateScan2dRecords | src/experiment_control/scan_plan.py:28-83 | The whole planner: an error for exactly the empty axes (x first), otherwise one record per planned cell with its x, y, row, col, index, count and scaled u, v |
| Metadata.MergeRunOverlaysBase | src/experiment_control/_manager/device_routing.py:592-642 | From empty overrides, in any run whose accepted requests for a device are merge patches, interleaved with other devices and rejected requests, its effective metadata is the base overlaid by those patches in order |
| Metadata.RunCountsChanges | src/experiment_control/_manager/runtime_metadata.py:164-168 | Over any run of set and clear requests the revision counts the requests that changed the overrides, and the overrides are the replay of the device's own requests |
| Metadata.RepeatReportsUnchanged | src/experiment_control/_manager/device_routing.py:592-676 | Repeating a request reports changed = false and leaves the whole store alone |
| Metadata.NextIdempotent | src/experiment_control/_manager/device_routing.py:495-526 | Applying a request twice is applying it once |
| Metadata.DeviceAttributeAfter | src/experiment_control/_manager/device_routing.py:495-526 | For every request and device attribute, what merge, replace, null, absence and each clear scope leave of it |
| Metadata.StreamAttributeAfter | src/experiment_control/_manager/device_routing.py:495-526 | The same for every attribute of every stream |
| Metadata.EffectiveLookup | src/experiment_control/_manager/runtime_metadata.py:117-133 | A client sees the override of an attribute where there is one, and the base elsewhere |
| Metadata.MergeStreamsLookup | src/experiment_control/_manager/runtime_metadata.py:58-69 | Attribute by attribute the overlay wins where it speaks, and the base shows through elsewhere |
| Metadata.MergeStreamsAssociative | src/experiment_control/_manager/runtime_metadata.py:58-69 | The nested overlay is associative |
| Metadata.MergeStreamsUnit | src/experiment_control/_manager/runtime_metadata.py:58-69 | The empty overlay is its unit on both sides |
| Metadata.MergeStreamsIdempotent | src/experiment_control/_manager/runtime_metadata.py:58-69 | Overlaying the same patch twice is overlaying it once |
| Metadata.EffectiveAssociative | src/experiment_control/_manager/runtime_metadata.py:117-133 | Effective metadata of an overlay of overlays can be computed in either grouping |
| Metadata.MergeStreamMetadataDicts | src/experiment_control/_manager/runtime_metadata.py:58-69 | The two loops compute the nested overlay |
| Metadata.NextMetadataOverrides | src/experiment_control/_manager/device_routing.py:495-526 | Next overrides for merge, replace, null and absent fields |
| Metadata.EffectiveMetadataForDevice | src/experiment_control/_manager/runtime_metadata.py:117-133 | Base overlaid by the stored overrides |
| Metadata.RuntimeMetadata.ApplyOverrideChanges | src/experiment_control/_manager/device_routing.py:529-551 | Stores the new overrides, never an empty map; changed is exactly "they differ"; other devices untouched |
| Metadata.RuntimeMetadata.SetRoute | src/experiment_control/_manager/device_routing.py:592-642 | A whole set request: rejection, new overrides, revision, frame |
| Metadata.RuntimeMetadata.ClearRoute | src/experiment_control/_manager/device_routing.py:645-676 | A whole clear request, by scope |
| Metadata.RuntimeMetadata.ClearOverrides | src/experiment_control/_manager/device_routing.py:661-667 | Removing stored maps by scope equals clearing the overrides, and reports a change exactly when there was one |
| Metadata.RuntimeMetadata.TouchRevision | src/experiment_control/_manager/runtime_metadata.py:164-168 | The revision of one device goes up by one |

## Left out

- ZMQ, subprocesses, threads, SHM rings and JSON: modelled as queues, atomic steps and uninterpreted values; a dispatch handler that raises is not modelled.
- The chunk descriptor cache (src/experiment_control/_manager/driver_pub.py:143-174, 761-805): the same two-level eviction again, plus a duplicate-sequence skip.
- TelemetryCache: parsing of device id, timestamps and signal quality; an ingest here is one that reached the cache, with the signals it stored.
- SupervisorLogs: case folding, whitespace and word characters are the ASCII ones; severity, payload formatting and marker lines are left out, as is an emit that raises.
- SupervisorLogs.ProcessLogs.DrainSupervisorLogs: the method runs without concurrent producers; interleavings are covered by the event-level lemmas, whose steps are the atomic ones of this method.
- BoundedQueue.LifecycleEvents.PublishOffThread: an audit topic blocks for a bounded time before it counts as dropped; the model sees only the moment the put succeeds or fails.
- LogRotation: operating-system errors while renaming, and the separation into one file per source.
- ScanPlan: validation of pattern and order names, and floating-point rounding (exact reals instead).
- Metadata: normalisation of keys and parsing of mode and scope strings; payloads arrive normalised.
- InterceptorRoutes: trimming of route strings and the legacy mirror fields; routes arrive trimmed, and `Matches` is the predicate of src/experiment_control/_manager/route_handlers.py:166-171.
- RequestReply: requests that are not objects and a caller-supplied null request id, for which the client does not compare ids; ids are otherwise assumed distinct, as freshly drawn UUIDs are, and a request gets at most one answer text.
- DriverHandle: registration of unknown devices, process ids reported by drivers, the counting of the restart budget (whether it is used up is a parameter) and the legacy heartbeat fallback (src/experiment_control/_manager/driver_heartbeat_policy.py:64-123); `clean` in `Exited` stands for exit code 0 without a recorded heartbeat failure.
- Generations: start, the two halves of a stop, registration and the check-and-claim of an auto-connect task are atomic steps; in the source the last one holds a lock.
- DeviceRunner: a reconnect of a connected, degraded device within one request counts as loop lag, as in the source. Left out are error texts (only whether one is recorded), capability discovery (only whether it recorded an error) and publishing; `RpcRouteGetOrSet` covers the two routes, whose effect on health is the same.
- Federation hub, process registry, recovery log queries, configuration and YAML parsing, web UI and launch helpers: not part of this model.
