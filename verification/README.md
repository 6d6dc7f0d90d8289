# Lokinode: the daemon's protocol and its bookkeeping, verified

Lokinode supervises an embedded FLND node. Goroutines start, watch, stop and restart the
node, publish its status, poll its chain sync, cache its transactions, remember which nodes
the user has, limit API calls and stream its log. This project models that code in Dafny and
proves what it keeps over every run.

| file | what it models |
|---|---|
| `Lifecycle.dfy` | the run loop, the health relay and any number of restart, stop, recovery, verify and restart-node callers, as one transition system, that no goroutine in it is stuck, and its invariant; `LifecycleTheorems.dfy` proves what holds in every run, with the retry gate and the runs that show what is not promised; `LifecycleOutcomes.dfy` how a stopped supervision ends and which interceptors are left behind; `CompletedCalls.dfy` what a completed stop, restart or recovery has brought about |
| `Hub.dfy` | status subscriptions: an event specification (`HubSpec`) and the object that keeps it (`Hub`) |
| `SyncPoll.dfy` | the stall detector and the loop of one sync poller |
| `Pollers.dfy` | starting and stopping sync pollers, in every interleaving |
| `Sections.dfy` | the critical sections behind the steps of `Lifecycle` and `Pollers`, as methods on objects with the same fields |
| `TxOrder.dfy`, `TxCache.dfy` | the order, the compaction and the incremental fetch of wallet transactions |
| `Registry.dfy`, `Migration.dfy` | the node table and its handlers; the migration of its key |
| `RateLimiter.dfy` | the fixed-window limiter |
| `LogTail.dfy`, `Sse.dfy` | line reassembly, the printed stream, and a reader of Server-Sent Events |

**How the lifecycle is modelled.** A step is one section between two points where another
goroutine can interfere: a critical section of `cmux`, an operation on `d.mu`, a channel
operation, a call on the signal interceptor. `(*flndDaemon).stop` is two steps, because it
cancels the daemon's context before it requests the interceptor's shutdown. What the
environment decides (timeouts, errors, which ready case of a `select` runs) is the choice of
event. A run is a history of events and states (`IsRun`), and a theorem about every history, or
about every `Reachable` state, is about every interleaving. A run is possible whatever the
timers do, so no theorem depends on a duration.

**Where the code differs from what is said about it.**

- The comment at `daemon/service.go:432-438` says a crash must hold the node down until the
  user asks for a retry. `RestartWithConfig` looks for the daemon under `cmux` and deposits
  outside it, so a restart called before the crash can open the gate after it, in three ways:
  its deposit can precede the crash (`LifecycleLimits.StaleTokenOpensGate`), or follow the
  parking after a look before the crash (`LifecycleLimits.LateDepositOpensGate`), or both look
  and deposit can follow the parking (`LifecycleLimits.LateLookOpensGate`).
  `RetryGate.PassIsPromptedIff` gives the exact condition: at the crash, or at the parking, the
  buffer was empty and the caller that deposits had not been called yet.
- A restart that meets a crashed daemon not yet cleared stops it and leaves no token
  (`LifecycleLimits.RestartOfCrashedDaemonIsLost`). `StoppedSupervision.RestartBouncesIff` gives
  the exact condition under which a restart of a stopping daemon leads to an attempt by itself:
  no crash has been captured, or checked for publication, by then. A daemon that dies by itself
  and is never stopped ends as its relay finds (`LifecycleTheorems.GateIffCrash`).
- Once the service context has ended, an interceptor can be left without a shutdown request:
  `LifecycleLimits.InterceptorLeaksAfterCancel`. While it is live none is
  (`LifecycleTheorems.NoInterceptorLeak`); `InterceptorLeak.LeakedIff` says exactly which ones
  are left: those of closed daemons that stop never took effect on and whose natural exit no
  waitForShutdown saw.
- After a fetch of an empty log the probe of the transaction cache asks for offset 1, so a
  log of one first transaction answers it empty (`TxCache.FirstTransactionMissed`). A fetch
  whose probe is answered so takes the fast path, returns no transaction and leaves the cache
  clean and fresh (`TxCache.Client.FetchTransactions`); `TxCache.FastPathExactIff` says exactly
  when the fast path is right.
- A save without a public key makes get-last return the saved row only if the remembered key
  does not belong elsewhere: `RegistrySpec.LastAfterKeylessSaveIff`, and
  `RegistrySpec.KeylessSaveMissed` for two saves after which it does.

## Model

| member | source | states |
|---|---|---|
| LifecycleTheorems.NoInterceptorLeak | daemon/service.go:158-202 | After any run with a live context, when the run loop is at its head or parked at the gate, every interceptor it ever acquired has had its shutdown requested: after a newDaemon failure, a start abort, a natural exit and a stop |
| LifecycleTheorems.CallersReleaseInterceptors | wails/node.go:27-41 | VerifyConfig and RestartNode have requested the shutdown of whatever they acquired, and seen its channel close, when they return |
| LifecycleTheorems.OneInterceptor | daemon/service.go:277-304 | At most one interceptor is alive at a time across all goroutines: what the one-at-a-time contract of signal.Intercept gives them |
| LifecycleTheorems.PointersFollowSupervision | daemon/service.go:207-234 | client and daemon pointers are both nil or both those of the one daemon the loop is supervising, whatever restarts and stops clear meanwhile |
| LifecycleTheorems.PointersNilOutsideSupervision | daemon/service.go:227-232 | Both pointers are nil when runOnce has returned and at the loop's final stopDaemon |
| LifecycleTheorems.ExecGoneBeforeNextAttempt | daemon/daemon.go:197-254 | When a new attempt begins, every daemon ever supervised has exited its exec goroutine and is closed |
| LifecycleTheorems.OneSupervisedExec | daemon/daemon.go:197-254 | At most one supervised daemon runs flnd.Main at any time |
| LifecycleTheorems.RelayPublishesPrefix | daemon/service.go:239-272 | The relay publishes a prefix of what it consumed, at most one update after the stopping flag is up, and its crash error is that of the first published Down with an error |
| LifecycleTheorems.GateIffCrash | daemon/service.go:140-152 | An attempt ends at the retry gate exactly when startup failed or its relay published a crash, with that crash as the cause; otherwise at the loop's head |
| LifecycleTheorems.EndOfAttempt | daemon/service.go:222-234 | The same, of one step |
| LifecycleTheorems.GateEntry | daemon/service.go:140-152 | Nothing but the end of an attempt leads to the gate |
| LifecycleInvariant.RunKeepsInv | daemon/service.go:127-443 | The invariant on shapes, stable facts, d.mu, daemons, interceptors, pointers and the relay's log holds after every run |
| LifecycleInvariant.InvStep | daemon/service.go:127-443 | Every step of every goroutine keeps that invariant |
| LifecycleInvariant.StepLater | daemon/daemon.go:54-58 | No step lowers a stopping, closed, cancelled or requested flag, revives an exec goroutine or the context |
| LifecycleInvariant.FactStable | daemon/daemon.go:197-283 | What a goroutine knows inside stop and waitForShutdown survives every step of the others |
| LifecycleInvariant.IcsGrow | daemon/service.go:277-304 | An interceptor is acquired only when all earlier ones are free, and by a goroutine that then holds it |
| RetryGate.TokensConserved | daemon/service.go:388-443 | In every run, deposits of restarts that found no daemon = gate passes + drains + drops on a full buffer + the token in the buffer |
| RetryGate.AttemptsAccounted | daemon/service.go:127-154 | Attempts = clean ends + gate passes, plus exactly one while an attempt is in progress or parked |
| RetryGate.TokenOrigin | daemon/service.go:423-443 | A token in the buffer was deposited after the latest registerConnection drain and the latest gate pass, into an empty buffer |
| RetryGate.SecondAttemptNeedsCause | daemon/service.go:127-154 | Between two attempts either one ended cleanly or the loop consumed a token deposited after the latest drain |
| RetryGate.PassIsPromptedIff | daemon/service.go:388-443 | A gate pass consumes exactly one deposit, and the call behind it was made since a given moment (the crash, or the parking) if and only if, at that moment, the buffer was empty and the depositor had not been called yet |
| RetryGate.PassLookedSinceIff | daemon/service.go:397-417 | The restart behind that deposit looked for a daemon since a given moment if and only if, at that moment, the buffer was empty and its caller was not already past its look |
| RetryGate.CalledAt | daemon/service.go:388-421 | A call is made once and is never undone |
| RetryGate.QuietGateNeedsRestart | daemon/service.go:324-331 | With an empty buffer and no call under way that can still come to a deposit when a crash is published or the loop parks, the gate opens only for a restart called since |
| RetryGate.DepositFollowsLook | daemon/service.go:397-417 | A caller comes to its deposit only by a look that found no daemon |
| RetryGate.StoredSinceIff | daemon/service.go:414-417 | If nothing was taken since a point, the deposit behind the buffered token came after it exactly when the buffer was empty at it |
| RetryGate.TokenStep | daemon/service.go:414-417 | Each step balances tokens deposited against tokens passed, drained, dropped and kept |
| LifecycleLimits.StaleTokenOpensGate | daemon/service.go:397-417 | A run in which a deposit lands after the drain and a later crash finds it, with no restart since |
| LifecycleLimits.LateDepositOpensGate | daemon/service.go:397-417 | A run in which the loop parks after a crash with an empty buffer and a restart that had looked before the crash deposits then and opens the gate |
| LifecycleLimits.LateLookOpensGate | daemon/service.go:388-417 | A run in which a restart called before a crash looks only after the loop has parked, with an empty buffer and no caller past its look, and opens the gate |
| LifecycleLimits.RestartOfCrashedDaemonIsLost | daemon/service.go:403-407 | A run in which a restart made after a crash was published leaves no token and the gate stays shut |
| LifecycleLimits.InterceptorLeaksAfterCancel | daemon/daemon.go:219-254 | A run in which the context ends, the daemon dies by itself, and its interceptor never gets a shutdown request |
| StoppedSupervision.RestartBouncesIff | daemon/service.go:397-407 | After a restart took a daemon, and whoever stops it, the supervision ends at the loop's head if and only if no crash was captured or checked when it was stopping; otherwise at the gate with that crash |
| StoppedSupervision.StopSettles | daemon/daemon.go:256-283 | The same, decided before any thread's call of stop takes effect |
| StoppedSupervision.StoppedEndsIff | daemon/service.go:239-272 | From any moment at which the supervised daemon is stopping it is settled how the supervision ends |
| StoppedSupervision.DestinedStep | daemon/service.go:239-272 | No step changes the crash a stopping supervision is bound to end with, and joining the relay delivers it |
| InterceptorLeak.LeakedIff | daemon/daemon.go:197-283 | At the loop's head, at the gate and after its exit, an interceptor it acquired lacks a shutdown request if and only if its daemon is closed, stop never took effect on it and no waitForShutdown saw its natural exit; then the context has ended |
| InterceptorLeak.RunKeepsTrack | daemon/daemon.go:197-283 | In every run a daemon's interceptor is requested only by a stop or by a natural exit seen, each daemon has its own, and the loop leaves a daemon only when it is closed or its interceptor is requested |
| CompletedCalls.StopDaemonWaits | daemon/service.go:362-373 | Whenever a caller of stopDaemon is past the call, about to purge or to cancel or later, the daemon it took is closed and flnd.Main has returned |
| CompletedCalls.RestartStops | daemon/service.go:397-407 | Whenever a restart that took a daemon is past the call, that daemon is stopping or closed |
| CompletedCalls.RestartActs | daemon/service.go:388-421 | A restart call, a recovery that has purged and a validated RestartNode, when past the restart, have looked for a daemon; one they found is stopping or closed, and if they found none they have left a token |
| CompletedCalls.StopLeavesNothingRunning | daemon/service.go:348-357 | When a call of Stop has returned, the context has ended, the run loop is in no attempt, every daemon ever supervised is closed with flnd.Main returned, and no attempt begins any more |
| CompletedCalls.RecoveryPurgesAfterStop | daemon/service.go:719-742 | A recovery about to purge has claimed what was registered, and a daemon it found is gone |
| CompletedCalls.ValidRestartNodeActs | wails/node.go:222-230 | A RestartNode whose configuration is valid restarts: it looks for a daemon, and stops what it found or leaves a token |
| CompletedCalls.RefusedCallsTouchNothing | wails/node.go:31-49 | VerifyConfig, a RestartNode that could not get an interceptor or whose configuration is not valid, and a recovery that could not purge leave the daemon and the retry gate alone |
| CompletedCalls.BusyCallerGoesOn | wails/node.go:203-221 | An interceptor in use is no failure: the caller goes on to validate and holds none |
| Progress.ThreadCanMove | daemon/service.go:127-443 | Every goroutine can take a step unless it has finished or waits for d.mu, the end of flnd.Main or of the context, the relay, the token, the run loop or an interceptor's shutdown |
| Progress.HolderCanMove | daemon/daemon.go:256-283 | Whoever holds d.mu can take the step that frees it |
| Progress.JoinedRelayCanMove | daemon/service.go:221-225 | While the run loop waits for the relay, the relay or the holder of d.mu can move, without any further health update |
| CompletedCalls.PublishedDownStops | daemon/service.go:260-270 | The relay, back from publishing a Down, has stopped the daemon or found it closed |
| CompletedCalls.CancelledRelayStops | daemon/service.go:242-248 | So has a relay whose context ended |
| CompletedCalls.StopTakesEffect | daemon/daemon.go:256-283 | Whoever calls stop finds the daemon stopping or closed when the call is over |
| CompletedCalls.WaitTakesEffect | daemon/daemon.go:197-254 | Whoever calls waitForShutdown finds the daemon closed and flnd.Main returned when the call is over |
| LifecycleSections.FlndDaemon.Stop | daemon/daemon.go:256-283 | stop is a no-op on a closed daemon, else raises stopping and tears down client, context and interceptor; it does to the fields what the two stop steps do |
| LifecycleSections.FlndDaemon.SetClosed | daemon/daemon.go:250-252 | Marks the daemon closed, as the step does |
| LifecycleSections.FlndDaemon.IsStopping | daemon/daemon.go:54-58 | The answer decides which step the relay can take with an update: suppress it when stop was called, admit it otherwise, closed or not |
| LifecycleSections.Service.ClaimDaemon | daemon/service.go:362-373 | The cmux section of stopDaemon takes the daemon and clears both pointers, as the step does |
| LifecycleSections.Service.LookDaemon | daemon/service.go:397-401 | The same for RestartWithConfig |
| LifecycleSections.Service.DepositToken | daemon/service.go:414-417 | The non-blocking send leaves one token and drops a second, as the step does |
| LifecycleSections.Service.RegisterConnection | daemon/service.go:423-443 | Sets both pointers and drains the retry channel, as the step does |
| LifecycleSections.Service.ClearPointers | daemon/service.go:229-232 | The end of superviseDaemon, as the step does |
| LifecycleSections.RunHealthRelay | daemon/service.go:239-272 | For any turns of its select and any stops and closings by others before and after each check, the loop publishes a prefix of what it consumes, all of it unless the daemon is stopping, which it is only if it was, the context ended, another goroutine stopped it or a Down was published; nothing if it was stopping from the start; it returns the first crash; unless the daemon was marked closed, the first Down it publishes is its last update and the daemon is stopped |
| Updates.FirstCrashIsFirst | daemon/service.go:263-265 | The captured crash is that of the earliest Down carrying an error, and there is none if no such Down |
| HubSpec.RunsAreValid | daemon/service.go:447-495 | In every run subscribed channels are distinct and open and no buffer exceeds 5 |
| HubSpec.ValidStep | daemon/service.go:447-495 | Every event keeps that |
| HubSpec.ClosedOnceAndForAll | daemon/service.go:480-495 | Once a run has closed a channel, no later event sends on it or closes it again |
| HubSpec.SubscriberGetsLaterEvents | daemon/service.go:447-478 | A subscriber is sent the update of the latest notifySubscribers before its subscription, then an in-order selection of later publications: all of them if its buffer was never full |
| HubSpec.LastIsLatest | daemon/service.go:468-478 | After every run the current event is the update of the latest notifySubscribers, or the initial one; the final Down of unsubscribeAll does not count |
| HubSpec.SubscribedStep | daemon/service.go:447-495 | Registration adds the new channel, Unsubscribe removes the one it names, unsubscribeAll removes all, nothing else changes who is subscribed |
| HubSpec.ReceiveTakesOldest | daemon/service.go:448-451 | A receiver takes the oldest update it has not had and touches no other channel |
| HubSpec.IdleSubscriberIsSentFive | daemon/service.go:447-478 | A subscriber that never receives is sent the current event and the first four published after it, and no more |
| HubSpec.ChannelGetsSubsequence | daemon/service.go:468-478 | From any state on, a channel is sent an in-order selection of what is published |
| HubSpec.PromptChannelGetsAll | daemon/service.go:468-478 | A channel with room at every publication misses nothing |
| HubSpec.SentStep | daemon/service.go:468-495 | One event adds exactly its publication, and only to a subscribed channel that has or gets room |
| HubSpec.WaitReceivesOnlyLaterEvents | daemon/service.go:842-864 | What a WaitForStatus channel receives was published after its registration |
| HubSpec.RemoveOnly | daemon/service.go:457-466 | Unsubscribing removes that channel and no other |
| HubSpec.RemoveAt | daemon/service.go:457-466 | Cutting the list at the first match is that removal |
| Hub.Service.Subscribe | daemon/service.go:447-454 | Performs the specified event; the new channel has been sent exactly the current event |
| Hub.Service.Unsubscribe | daemon/service.go:457-466 | The search loop performs the specified event |
| Hub.Service.NotifySubscribers | daemon/service.go:468-478 | The loop of non-blocking sends performs the specified event, makes the update the current one and never sends on a closed channel |
| Hub.Service.UnsubscribeAll | daemon/service.go:480-495 | The loop sends Down where there is or becomes room, closes every subscribed channel once, empties the list and leaves the current event |
| Hub.WaitSucceedsOnTarget | daemon/service.go:842-864 | WaitForStatus from registration to return: it succeeds only if the latest publication before it registered had the target state, or one after it had |
| Hub.Service.BeginWait | daemon/service.go:842-850 | Returns at once exactly when the target is current, else registers an empty channel |
| Hub.AwaitStatus | daemon/service.go:854-863 | The wait succeeds exactly when the target arrives before the context ends, skipping other updates and nil, and goes on exactly while neither happens |
| SyncTracker.SyncProgressTracker.Record | daemon/client.go:854-862 | Stuck exactly when more than the timeout has passed since the latest timestamp change, or the first call if none |
| SyncTracker.SyncProgressTracker.RecordFailure | daemon/client.go:870-875 | The same, a failure never moving the anchor |
| SyncTracker.AnchorUnique | daemon/client.go:842-875 | That reference point is unique |
| SyncTracker.AnchorExists | daemon/client.go:842-875 | ... and exists after any call |
| SyncTracker.StuckIffAnchorOld | daemon/client.go:842-875 | The verdict depends only on the time since the anchor, whatever stale answers and failures lie between |
| SyncTracker.NoProgressStaysStuck | daemon/client.go:864-875 | Under a clock that does not go back, failures and stale answers never undo a stall |
| SyncTracker.ProgressResets | daemon/client.go:854-862 | A timestamp change always postpones it |
| SyncTracker.NoHeaderIsNoProgress | daemon/client.go:854-862 | A backend that reports no header makes no progress by it: the stall is measured from the first probe |
| SyncPoll.Poll | daemon/client.go:791-835 | A run over any turns publishes one Syncing per answered tick and then exactly the update its last turn calls for: Ready, Down, Down with the tick's error, or nothing on a stop |
| SyncPoll.TakeTurn | daemon/client.go:791-835 | One turn ends the run exactly on context end, stop request, a synced or recent tick, or a stall, and publishes accordingly |
| SyncPoll.AtMostOneTerminal | daemon/client.go:791-835 | At most one update is not Syncing; it is last, Ready iff synced or recent, Down iff stalled, with the tick's error iff the tick failed |
| SyncPoll.OutcomeMeans | daemon/client.go:791-835 | A run publishes Syncing for every answered tick before the one it ends at, then nothing after a stop or the end of the context, Down with the error of a failing tick, Ready for a synced or recent one, Down without an error for any other |
| SyncPoll.TicksReachTracker | daemon/client.go:800-830 | A failed tick reaches the tracker as a failure, one neither synced nor recent with its timestamp, no other at all |
| SyncPoll.FailuresAloneStall | daemon/client.go:864-875 | A run of failing ticks ends exactly when more than the timeout has passed since the first |
| SyncPoll.AnsweredIsCount | daemon/client.go:800-834 | The number of Syncing updates is the number of answered ticks |
| SyncPoll.SilentDownIffStaleAnswers | daemon/client.go:822-830 | A Down without error, which is no crash to the run loop, is published exactly when a run stalls on an answered tick |
| SyncPoll.GoesOnMeans | daemon/client.go:791-835 | A run goes on exactly while no earlier turn ended it |
| Pollers.RunKeepsInv | daemon/client.go:748-789 | The fields describe the newest poller or nothing, after any interleaving of starts, stops and exits |
| Pollers.InvStep | daemon/client.go:748-789 | Every step keeps that |
| Pollers.OneActivePoller | daemon/client.go:764-774 | At most one poller is active |
| Pollers.ChannelsClosedOnce | daemon/client.go:748-789 | Each run's stop and done channels are closed at most once, done exactly when it has finished |
| Pollers.ClearsOnlyItself | daemon/client.go:780-788 | An exiting poller resets its own registration, never a successor's |
| Pollers.StopReachesActive | daemon/client.go:748-757 | A stop request with a stop channel at hand reaches the running poller, closing a channel that was open |
| Pollers.StoppedPollerIsSilent | daemon/client.go:748-762 | Once a stopSyncPolling that found a poller has returned, no continuation of the run lets that poller submit |
| Pollers.PollerSubmitsAndStops | daemon/client.go:748-835 | A run in which a poller starts, submits, is stopped and waited for |
| Pollers.FinishedStays | daemon/client.go:780-788 | A finished poller stays finished |
| PollerSections.Client.BeginPolling | daemon/client.go:764-774 | The opening section is the start step; it refuses when a poller is active |
| PollerSections.Client.ClearPolling | daemon/client.go:780-786 | The cleanup section is the clear step |
| PollerSections.Client.CloseDoneChannel | daemon/client.go:788-788 | Closing the done channel is that step |
| PollerSections.Client.StopSyncPolling | daemon/client.go:748-757 | The stop section is the stop step and never closes a closed channel |
| TxOrder.SortIsNewestFirst | daemon/client.go:521-526 | In the sorted list no entry is followed by one with a later timestamp, nor by one with the same timestamp and a greater height; every copy of every entry is kept |
| TxOrder.SortKeepsOrder | daemon/client.go:521-526 | Of two entries with the same timestamp and height, one comes before the other exactly when it did in the input |
| TxOrder.SortIsStable | daemon/client.go:521-526 | Entries with equal timestamp and height keep their order |
| TxOrder.SortedUnique | daemon/client.go:521-526 | There is only one such list |
| TxOrder.CompactionKeepsNewestCopy | daemon/client.go:517-539 | Of arbitrary input, sort and compaction yield a newest-first list with distinct hashes, losing none, keeping for each hash a copy than which no other has a later timestamp, nor the same timestamp and a greater height, the earliest input copy on ties |
| TxOrder.KeepFirstKeepsHashes | daemon/client.go:528-539 | Compaction keeps every hash once |
| TxOrder.KeepFirstSorted | daemon/client.go:528-539 | ... and the order |
| TxOrder.KeepFirstIsFirst | daemon/client.go:528-539 | ... and of each hash the first copy |
| TxOrder.RefreshParts | daemon/client.go:462-539 | Sorting and compacting the cached view of a part of the log together with any entries of that part and everything after it gives the stable sort of the whole log |
| TxOrder.RefreshIsWholeSort | daemon/client.go:462-539 | Sorting and compacting the cached view of a log prefix with everything from any cursor inside it gives the stable sort of the whole log |
| TxServer.Server.GetTransactions | daemon/client.go:479-485 | The server's contract: an append-only log of distinct hashes that may grow at every call; a call fails or returns a slice and its last index |
| TxCache.Client.FetchTransactions | daemon/client.go:420-568 | From any reachable cache and however the log grows between pages, a fetch returns the stable newest-first sort of the whole log as of the last page, cut to the limit, reads only from the cached cursor on, and shares no storage with the cache; what it returns is in newest-first order; after a successful one the cache is fresh for exactly five minutes; the fast path probes first when the cache is clean and fresh and no rescan is forced, is taken exactly when the probe is answered and the log has nothing after the cursor, and returns the same list unless nothing was cached; failures leave the view alone |
| TxCache.LimitedSortMeans | daemon/client.go:556-566 | A fetch owes the newest entries first, all of them or as many as the limit allows |
| TxCache.LimitDropsTheOldest | daemon/client.go:556-566 | No entry the limit leaves out is newer than one returned |
| TxCache.Client.constructor | daemon/client.go:103-121 | A new client is the base case: its cache is dirty and empty and covers any log |
| TxCache.Client.TryCached | daemon/client.go:431-457 | The fast path returns a copy of the cached view exactly when the probe is answered and the log has nothing after the cursor; it is the whole sort unless nothing was cached |
| TxCache.Client.Refresh | daemon/client.go:462-567 | The part after the fast path |
| TxCache.Client.ReadFrom | daemon/client.go:476-510 | The page loop ends for every server obeying the contract, even one that grows by a full page per call, and collects exactly the log from the cursor on |
| TxCache.Client.ProbeIsEmpty | daemon/client.go:431-445 | The probe asks for the entry after the cached cursor; it is empty exactly when it is answered and the log ends there |
| TxCache.Client.Merge | daemon/client.go:517-539 | Sorts and compacts cached and new entries |
| TxCache.Client.InvalidateTxCache | daemon/client.go:396-402 | After it no fetch can take the fast path at any time, and the cached view still covers every log it covered |
| TxCache.Compact | daemon/client.go:528-539 | The in-place compaction leaves the first copy of every hash in the first cells |
| TxCache.StableSort | daemon/client.go:521-526 | Sorts in place to the one stable newest-first order |
| TxCache.Store | daemon/client.go:541-554 | The snapshot holds the list in storage of its own, with the cursor, clamped next offset, time and clean flag |
| TxCache.CopyLimited | daemon/client.go:449-452 | The returned list is a fresh copy of the first entries up to the limit |
| TxCache.FastPathExactIff | daemon/client.go:431-457 | After an empty probe the cached list is what a forced rescan would return exactly when something was cached or nothing has arrived |
| TxCache.FirstTransactionMissed | daemon/client.go:441-441 | After a fetch of an empty log, the probe of a one-entry log is empty |
| TxCache.PageStep | daemon/client.go:487-509 | One page extends what was collected to the log up to the next cursor; a short or empty page means the end was reached |
| RegistrySpec.SaveSucceeds | api/node.go:328-413 | From a sound table a save never violates the unique index; afterwards the table holds the saved row and every row of another directory and another key, unchanged |
| RegistrySpec.SaveMovesNode | api/node.go:335-366 | A moved key is afterwards only at the new directory, the stale row is gone, and every setting left empty comes from it |
| RegistrySpec.PlainSaveStoresRequest | api/node.go:368-412 | A save of a node that has not moved stores every setting of the request and the time at its directory, with the request's key, or else the key the directory had, or else none; other rows stay; the directory, and the key if there is one, are remembered |
| RegistrySpec.SaveKeepsKnownKey | api/node.go:371-377 | A save without a key keeps the key the directory had |
| RegistrySpec.PatchFailsIffKeyElsewhere | api/node.go:236-281 | A patch fails exactly when another directory holds the key it brings; else it touches only its row |
| RegistrySpec.PatchStoresIdentity | api/node.go:252-278 | A patch writes the key and the alias it brings and the time, keeps every other field, and makes a missing row public and otherwise empty |
| RegistrySpec.ApplyKeepsValid | api/node.go:236-413 | Each operation keeps one row per directory and non-empty keys unique |
| RegistrySpec.RunKeepsValid | api/node.go:236-413 | So does every sequence of them |
| RegistrySpec.LastAfterKeyedSave | api/node.go:175-199 | After a save that brings a key, get-last answers the saved row |
| RegistrySpec.LastAfterKeyedPatch | api/node.go:175-199 | After a successful patch that brings a key, get-last answers the patched row |
| RegistrySpec.LastAfterKeylessSaveIff | api/node.go:175-199 | After a save without a key, get-last answers the saved directory exactly when no row of another directory carries the remembered key |
| RegistrySpec.KeylessSaveMissed | api/node.go:175-199 | From the empty registry, a save of one directory with a key and then of another without leaves get-last answering the first |
| RegistrySpec.DeleteKeeps | api/node.go:296-298 | Deleting removes exactly the directory's row and keeps the table sound |
| RegistrySpec.UpsertKeeps | api/node.go:379-392 | Saving a row whose key is free replaces the directory's row, keeps all others and keeps the table sound |
| Registry.Database.HandleSaveNodeConfig | api/node.go:303-420 | The handler's steps perform the specified save, store every setting of a request whose node has not moved, reject an empty directory, and change nothing on failure |
| Registry.Database.HandlePatchNodeIdentity | api/node.go:236-281 | The handler performs the specified patch, failing exactly as stated, and changes nothing on failure |
| Registry.Database.HandleRemoveNode | api/node.go:283-301 | Removes exactly one directory's row, never the running node's |
| Registry.Database.HandleGetLastNode | api/node.go:168-201 | Answers the remembered key's row, else the remembered directory's, else a most recently opened one, else nothing |
| Registry.Database.InheritSettings | api/node.go:345-362 | Every setting left empty is taken from the stale row, every other one kept |
| Registry.Database.RecoverMoved | api/node.go:334-366 | The old row of a moved node goes and the request takes over the settings it left empty; otherwise nothing changes |
| Registry.Database.SaveRow | api/node.go:390-392 | A save fails exactly when the row has a key and another directory holds it, and then changes nothing |
| Migration.Schema.Migrate | db/db.go:56-108 | From a table keyed by pub_key the rows become one latest row per directory and the registry invariant and the unique index hold; a table keyed by dir keeps its rows; a left-over backup fails the migration and changes nothing |
| Migration.Schema.MigrateTwice | db/db.go:56-59 | The first migration yields a sound registry of latest rows, and the second leaves exactly those rows |
| Migration.GroupByDir | db/db.go:72-82 | The grouping keeps, for every directory, one of its most recently opened rows and nothing else |
| Migration.LatestMeans | db/db.go:72-82 | For every old row there is a kept one of its directory, opened no earlier, taken from the old table |
| Migration.PickedKeysUnique | db/db.go:97-105 | Rows picked from a table keyed by pub_key have unique keys, so the index can be created |
| RateLimiterSpec.WindowBound | api/handler.go:164-176 | From any bucket, at most (k+1) * capacity calls are granted in any span of k refill periods |
| RateLimiterSpec.GrantsBeforeRefills | api/handler.go:164-176 | Calls within n periods of the next refill get at most what is left and n capacities |
| RateLimiterSpec.TokensInRange | api/handler.go:164-176 | Tokens stay within 0..capacity |
| RateLimiterSpec.RefusedOnlyWhenSpent | api/handler.go:171-175 | Until the refill exactly the first calls are granted, as many as there are tokens |
| RateLimiterSpec.RefillRestoresAll | api/handler.go:167-175 | A call after refillAt fills the bucket: of the calls made within a period of it exactly the first capacity are granted |
| RateLimiter.TokenBucket.Allow | api/handler.go:164-176 | Allow performs one call of the specification; any call made after refillAt is granted |
| RateLimiter.TokenBucket.constructor | api/handler.go:137-154 | Of the calls made in its first period a new bucket grants as many as its capacity and refuses the rest |
| LogLines.RawSplits | api/logs.go:140-151 | Lines and remainder put together are the text |
| LogLines.RawUnique | api/logs.go:140-151 | ... and they are the only newline-free pieces that are |
| LogLines.PartsHaveNoNewline | api/logs.go:140-151 | No line and no remainder contains a newline |
| LogLines.CutAnywhere | api/logs.go:140-151 | Cutting a text anywhere changes neither lines nor remainder |
| LogLines.ChunkIndependence | api/logs.go:140-151 | However appended text is split across polls, the emitted lines and the held part are those of the whole text |
| LogLines.LineCompleted | api/logs.go:141-150 | A chunk that ends in the first newline completes exactly one line, shown trimmed unless empty |
| LogLines.TrimRightMeans | api/logs.go:146-146 | Trimming cuts off all the CRs and LFs a line ends with and nothing else |
| LogLines.ShownMeans | api/logs.go:146-150 | The emitted lines are, in order, the lines with any other character, each so trimmed |
| LogLines.NoLineIsLost | api/logs.go:148-150 | A line with any character other than CR and LF is emitted |
| LogLines.ShownNoNewlines | api/logs.go:146-148 | Emitted lines are not empty and contain no newline |
| LogTail.ReadString | api/logs.go:141-141 | Reads up to and including the next newline, or everything with end of file |
| LogTail.Tailer.Poll | api/logs.go:140-151 | One poll emits the lines completed by the appended text and holds the rest; a failing write ends it after the lines written |
| Sse.LineLengthIs | api/logs.go:74-74 | For the reader, a text free of CR and LF ends at the newline printed after it |
| Sse.Safe | api/logs.go:73-73 | CR and LF become spaces, everything else stays |
| Sse.FrameSplits | api/logs.go:72-79 | A printed frame is read as exactly its lines, whatever follows |
| Sse.FrameMeans | api/logs.go:72-79 | Those lines dispatch exactly what the frame means and reset the reader |
| Sse.RoundTrip | api/logs.go:72-121 | Parsing the printed stream gives one event per line and file name, and nothing for a heartbeat |
| Sse.MessagesOfMeanings | api/logs.go:72-79 | The message events carry the lines, in order |
| Sse.ReaderGetsFileNames | api/logs.go:121-121 | The reader is told the name of every file the handler opens, in order |
| Sse.ReaderGetsLogLines | api/logs.go:72-151 | After any lines printed before the tail began, whatever pieces the log is then read in and whatever heartbeats and file names come between, a reader of the stream gets those lines and then exactly the newline-terminated, trimmed, non-empty lines appended, all made safe |
| Sse.OnlyReturnsChange | api/logs.go:73-73 | Making an emitted line safe turns each CR left inside it into a space and changes nothing else |

## Left out

- Wall-clock durations: every timeout is a step that may happen at any time; the tracker, the cache and the limiter take clock readings as parameters.
- Lifecycle.Next and Pollers.Next: transition systems over values, because their point is interleaving; the atomic sections are also given as methods on objects (`Sections.dfy`), but the goroutines that call them are not objects.
- Liveness: no claim that a run goes on, so the loop reaching its head is as far as a restart is followed.
- Stop's sync.Once: any number of stops may run at once, which allows more runs than the code does.
- The start of New's goroutine: wg.Add inside it may come after Stop's Wait, so Stop may return while the loop has not begun.
- Status updates other than the relay's and startup failures within the lifecycle, such as StatusStarting; the publisher itself is modelled separately.
- The producers of the health channel (subscribeState, subscribeBlocks, kill) and the drop on its full buffer of 16 in submitHealth: what the relay receives is arbitrary.
- Configurations: cloneConfig, BuildAndValidate, flndConfig and what RestartWithConfig stores in it.
- RunNode, StopNode and GetNodeConfig in wails/node.go: one branch each around the service pointer.
- flnd.Main, gRPC, signal.Interceptor, GORM and SQLite: foreign code, each a stated contract (a process-wide flag that admits one interceptor; lookups, save and the partial index; MAX with bare columns).
- RecoverNeutrino's purge: not claimed to exclude a concurrent start, which the code does not prevent; its pauses between retries are left out.
- TxCache.Client.FetchTransactions: an invalidation during a fetch is not modelled (the fetch's last write would overwrite it), nor are OnProgress, the timeout's error text and concurrent fetches.
- TxCache.Client.ReadFrom: the cutoff at the uint32 bound is kept, but a server obeying the contract never reaches it.
- SetMaxTransactionsLimit: sets the limit and the dirty flag, nothing more.
- Registry.Database: malformed requests, I/O errors of the database and the CreatedAt and UpdatedAt columns; filepath.Clean is a parameter.
- handleListNodeConfigs: reads the file system.
- LogTail.Tailer.Poll: the backfill of the last lines, exactly-once delivery between backfill and tail, and the client's disconnect other than through a failing write.
- SseParser: UTF-8 decoding, the id field's use on reconnection and the retry field.
- MaxSendable, FundPsbt, ReleaseOutputs and the rest of the wallet calls: delegation to the node with little state of their own.
- HTTP routing, middleware, the frontend, tray and packaging.
