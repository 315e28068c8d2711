# The protocols of ssh-agent-proxy, modelled and proved

ssh-agent-proxy puts filtered agent sockets in front of one upstream SSH agent. Most of what can go
wrong in it is in a handful of small concurrent protocols, and this project models those protocols
and proves what their comments promise.

Two forms are used.

* **Interleaved code is a transition system.** The state is a datatype: the shared fields, a program
  point for each of any number of callers, a holder for each mutex, and histories of what was dialed,
  published, closed, listed or logged. A step is one access to shared memory, one section under a
  mutex, one wait, or one answer from outside. `Enabled` says when a step can be taken, `Next` what it
  does, and every theorem ranges over all reachable states or all runs.
* **Bodies that one goroutine runs are classes and methods.** They update fields, arrays and locals in
  loops, as the Go code does, and are proved against the functions that the theorems are about.

| files | what they model |
|---|---|
| `Upstream`, `UpstreamInvariant`, `UpstreamMoves`, `UpstreamProperties`, `UpstreamClosing`, `UpstreamProgress`, `UpstreamRecovery`, `UpstreamAnswers`, `UpstreamOvertaken`, `UpstreamClient`, `UpstreamClientRuns` | `reconnectClient`: the shared upstream connection, its watchdog and its shutdown |
| `Supervisor`, `SupervisorProperties`, `SupervisorSpec`, `SupervisorReturns`, `SupervisorLoop` | `runWithServers`: reload, rollback and shutdown |
| `Keys` | key selection and allow sets |
| `Cache`, `CacheProperties`, `CacheAnswers` | `cachedAgent.List` |
| `Authorization`, `AuthorizationInvariant`, `AuthorizationProperties`, `AuthorizationFreshness`, `AuthorizationJoining`, `AuthorizationUncached`, `AuthorizationRequests`, `AuthorizationRefusals`, `AuthorizationAccounts`, `GroupAuthorization` | the filtering agent over the group snapshots over the cache, end to end |
| `Sorting`, `LockProgress`, `LockProperties`, `SocketLock`, `SocketLockRuns` | `acquireSocketLocks`, alone and in competition |
| `Paths`, `CanonicalPath`, `Config` | path cleaning, canonical socket paths and `Config.resolve` |
| `Server`, `ServerInvariant`, `ServerProperties`, `ServerReturns`, `ServerConnections` | `Server.Run` with its goroutines, and its drain |
| `Unicode`, `GoStrings`, `Systemd`, `SystemdProperties` | the systemd unit, written and read back |
| `Wrappers` | options and results |

Conventions a reader needs:

* A connection, a refresh, a runtime or a client is a number; connections are numbered in dial order.
* A matcher is a predicate on keys, and a blob is an opaque value.
* In the authorization files upstream is the agent the groups share, at its methods: on the wire a
  list can be tried twice, and a sign whose dial fails never gets there, which is module `Upstream`.
* What the environment decides (whether a dial succeeds, what upstream answers, when a timer fires,
  which arm a select takes, when the context is cancelled, what the clock reads) is part of the step.
* In the supervisor, the shutdown request becomes visible at the `shutdownAt`-th look at the context,
  for an arbitrary `shutdownAt`; a theorem about runs in which shutdown is not requested asks that it
  does not become visible within the few looks of the turn it is about.
* A Go string in the systemd files is a sequence of valid runes and stray bytes, which is how Go reads
  one, and which runes are printable is a parameter, restricted only in that a newline is not.

Where the code falls short of, or is subtler than, what one would expect, that is proved too:

* A connection can be closed twice, because `Close` leaves the pointer set. It is, once everybody is
  done with it, if and only if a watchdog cleared the pointer of it after `Close` had chosen it
  (`TwiceIffLateDrop`); `LateDropClosesAgain` is such a run, and with a request timeout of zero there
  is none (`OnceWithoutWatchdog`).
* The reconnect counter is exact except while a caller is between publishing a later connection than
  the first and counting it (`ReconnectCounter`); `CounterLags` is such a state.
* A client that joins a refresh can be answered with a listing older than one that was complete when
  it asked (`JoinerCanBeBehind`). Whether it can is decided when it joins: the refresh ends, in every
  continuation, with what the cache stood for at some time from then on, if and only if its owner has
  no result yet, or has the one the cache stands for then (`JoinerIsCurrentIff`).
* The order of the lock attempts is what makes them succeed: two processes that take the same two
  locks in opposite orders can both give up (`UnsortedCanAllFail`). The order is by cleaned path, so
  the progress theorem is about processes that name a lock by the same path.
* After a closing quote the unit parser looks at a single byte, so a space wider than a byte is an
  error there although it separates words elsewhere (`AfterClosingQuote`).
* The bound on launches is met for every number of reloads (`LaunchBoundIsMet`).

## Model

| member | source | states |
|---|---|---|
| UpstreamInvariant.StepKeepsInv | internal/proxy/upstream.go:188-344 | every step of every caller keeps the ownership invariant: the mutex has one holder, each dialed connection has exactly one caller (or the pointer) that answers for closing it, and publications are distinct |
| UpstreamInvariant.RunKeepsInv | internal/proxy/upstream.go:188-344 | the ownership invariant holds after every run, with any number of requests, drops and closes |
| UpstreamProperties.RunAdvances | internal/proxy/upstream.go:188-344 | over any run the histories only grow, and a connection that has left the pointer stays out of it |
| UpstreamProperties.RemovedNeverReturns | internal/proxy/upstream.go:268-276 | a connection removed from the pointer is never published again, whatever runs afterwards |
| UpstreamProperties.ClosedOnceByItsRemover | internal/proxy/upstream.go:268-312 | a removed connection has been closed once, or the one caller that removed it is still on the way to close it; the current one has not been closed by anybody but Close |
| UpstreamProperties.OnlyTheRemoverCloses | internal/proxy/upstream.go:268-312 | the step that closes a published connection outside Close is taken by the caller that removed it, and is the first such close |
| UpstreamProperties.NothingPublishedAfterClose | internal/proxy/upstream.go:324-344 | once Close has set `closed` under the mutex, no step of any run publishes a connection, even one whose dial was under way at the cancellation |
| UpstreamProperties.DebtHasDebtor | internal/proxy/upstream.go:201-212 | a connection that is dialed but neither current nor closed is in the hands of a caller that will close or publish it |
| UpstreamProperties.QuiescentAfterClose | internal/proxy/upstream.go:324-344 | once a Close has returned and all callers are done, every connection ever dialed has been closed |
| UpstreamProperties.ClosesAgree | internal/proxy/upstream.go:324-335 | repeated calls of Close return the original close result |
| UpstreamProperties.SwapsOnlyFailedOrNil | internal/proxy/upstream.go:235-276 | what reconnect(failed) displaces is `failed` or nothing, even when a drop falls between its check and its swap |
| UpstreamProperties.ReplacementsCounted | internal/proxy/upstream.go:235-251 | at most one replacement displaces a given connection; any further one found a pointer the watchdog had cleared |
| UpstreamProperties.ReplacementBound | internal/proxy/upstream.go:235-251 | callers that failed on one connection cause at most one replacement, plus one for each drop |
| UpstreamProperties.ReconnectCounter | internal/proxy/upstream.go:213-223 | reconnects equal the publications after the first if and only if there is at most one publication or no caller is between publishing and counting; otherwise they are one behind |
| UpstreamProperties.CounterLags | internal/proxy/upstream.go:268-272 | a reachable state in which the replacement is published and the counter still zero |
| UpstreamProperties.SecondAttemptElsewhere | internal/proxy/upstream.go:346-365 | List never makes its second attempt on the connection its first attempt failed on |
| UpstreamRecovery.BrokenIsReplaced | internal/proxy/upstream.go:346-421 | in every interleaving, a List or Sign whose connection broke at the socket ends with that connection out of the pointer and closed, or its remover still to close it, and List alone goes on to a second attempt; unless the client was shut down, the watchdog had given the connection up, or the caller's dial failed |
| UpstreamRecovery.ReplacesAlone | internal/proxy/upstream.go:346-421 | a caller left alone with a broken connection gets there by its own steps |
| UpstreamRecovery.OthersJustEnd | internal/proxy/upstream.go:346-356 | a reply, an agent failure, a second error and any error of the other operations end the call and change nothing |
| UpstreamRecovery.SoundConnIsKept | internal/proxy/upstream.go:74-77 | nor does an error on a socket that has not failed, or on a connection the watchdog gave up, make the caller change anything or ask again |
| UpstreamAnswers.ReturnsLastAnswer | internal/proxy/upstream.go:346-435 | a request returns the last answer it got, or that there is no connection; it asks once, and twice only for a List whose first error was the client's |
| UpstreamOvertaken.OvertakenIsDiscarded | internal/proxy/upstream.go:205-210 | a connection whose dial ended after the client was cancelled is never published, in any continuation, and its dialer closes it once |
| UpstreamProgress.HolderGoesOn | internal/proxy/upstream.go:188-225 | whoever holds the mutex can take its next step at once, whatever a dial or a close returns |
| UpstreamProgress.BlockedByHolder | internal/proxy/upstream.go:192-193 | a caller that cannot go on waits for the mutex, and its holder can go on |
| UpstreamProgress.CallIsBounded | internal/proxy/upstream.go:346-365 | in any run, whatever the others do, a request takes at most 32 steps of its own and a Close at most 5 |
| UpstreamProgress.DropIsBounded | internal/proxy/upstream.go:300-313 | a watchdog that has fired takes at most 3 |
| UpstreamProperties.LateDropClosesAgain | internal/proxy/upstream.go:298-312 | a reachable state in which Close and then a late drop have closed the same connection |
| UpstreamClosing.TwiceNeedsLateDrop | internal/proxy/upstream.go:298-344 | over every run a connection is closed at most twice, and twice only if a watchdog cleared the pointer of it after Close had chosen it |
| UpstreamClosing.TwiceIffLateDrop | internal/proxy/upstream.go:298-344 | once nobody is about to close a connection, it has been closed twice if and only if the run has such a late drop, and at most once otherwise |
| UpstreamClosing.OnceWithoutWatchdog | internal/proxy/upstream.go:290-293 | with a request timeout of zero no connection is ever closed twice, in any run |
| UpstreamClosing.LateIsByDrop | internal/proxy/upstream.go:300-307 | a connection Close has chosen leaves the pointer by a watchdog's swap and by no other step |
| UpstreamClient.ReconnectClient.Connection | internal/proxy/upstream.go:188-225 | the body of connection(): returns the current connection, or publishes a dialed one and counts it, or closes one that a cancellation overtook; nothing else changes |
| UpstreamClient.ReconnectClient.Reconnect | internal/proxy/upstream.go:240-280 | the body of reconnect(): the whole new state, for a watchdog that may clear the pointer while the dial is under way, with no other caller in between |
| UpstreamClient.ReconnectClient.Drop | internal/proxy/upstream.go:300-313 | a connection is cleared and closed at most once, and only while it is current |
| UpstreamClient.ReconnectClient.Close | internal/proxy/upstream.go:326-344 | closes the current connection on the first call only, keeps the pointer, and reports that result ever after |
| UpstreamClientRuns.ConnectionAlone | internal/proxy/upstream.go:188-225 | connection() as a method has the outcome of the steps of a single caller in the transition system |
| UpstreamClientRuns.ReconnectAlone | internal/proxy/upstream.go:240-280 | so has reconnect(), including whether List goes on to its second attempt |
| UpstreamClientRuns.DropAlone | internal/proxy/upstream.go:300-313 | so has drop() |
| UpstreamClientRuns.CloseAlone | internal/proxy/upstream.go:326-344 | so has Close(), including its result |
| SupervisorProperties.IterateKeeps | internal/app/app.go:175-237 | every turn of the loop, with readiness before or during the wait and whichever arm the select takes, keeps the invariant and what runWithServers promises its caller |
| SupervisorProperties.RunKeeps | internal/app/app.go:172-237 | so does every run, however the select chooses |
| SupervisorProperties.BoundedLaunches | internal/app/app.go:118-170 | over any run, launches are at most one plus two for each valid reload: a candidate gets at most one rollback and a failed rollback starts nothing |
| SupervisorSpec.LaunchBoundIsMet | internal/app/app.go:213-220 | for every n there is a run with n valid reloads and 1 + 2n launches, so the bound cannot be lowered |
| SupervisorProperties.OneRuntimeAtATime | internal/app/app.go:91-98 | launches and completions alternate: each runtime is drained before the next is launched, and none is left at any return |
| SupervisorProperties.LastGoodIntegrity | internal/app/app.go:99-117 | lastGood is nil or the configuration with which a runtime was launched that was seen ready with a look at the context that saw no shutdown; a serving or restoring runtime runs lastGood |
| SupervisorProperties.ForegroundNeverIdle | internal/app/app.go:156-168 | in foreground mode the select always has a runtime to wait for |
| SupervisorProperties.ManagedReturnsListenerFailures | internal/app/app.go:224-226 | a managed service that was not asked to stop returns only terminal listener failures; when it does return is `CompletionDecided` |
| SupervisorReturns.CompletionDecided | internal/app/app.go:202-237 | while shutdown is not visible, a runtime that ends before it was ever ready and restores nothing is replaced by the last good configuration, if there is one; any other end makes runWithServers return if and only if it runs in the foreground or a listener failure is among the causes, which are then what it returns |
| SupervisorReturns.OthersGoOn | internal/app/app.go:183-201 | a reload or a readiness never ends it while shutdown is not visible |
| SupervisorReturns.BootDecided | internal/app/app.go:156-174 | at the start, the foreground alone gives up on a configuration that does not load |
| SupervisorReturns.ShutdownReturns | internal/app/app.go:175-188 | shutdown that is visible at the top of a turn or while it waits ends it with the result of the runtime |
| SupervisorReturns.OvertakenReload | internal/app/app.go:118-142 | a reload that shutdown overtakes returns the error of the runtime it drained, and goes on if that had none |
| SupervisorReturns.OvertakenReturnsItsResult | internal/app/app.go:118-209 | whenever it returns after a look found the context done, the error is that of the runtime drained in that turn |
| SupervisorReturns.ListenerFailureIsAmong | internal/app/app.go:368-370 | an error counts as a listener failure if and only if one is among the errors it joins |
| SupervisorReturns.ReadinessWakesOnce | internal/app/app.go:178-201 | readiness wakes the loop at most once a launch, so the loop does not spin on it |
| SupervisorProperties.SelectConfluence | internal/app/app.go:189-204 | in every run, where the select finds readiness and also a completion or a reload open, taking readiness and then the other arm has the outcome of taking the other arm at once |
| SupervisorProperties.ReadinessCompetes | internal/app/app.go:189-201 | such a choice is reachable: a runtime becomes ready while the loop waits |
| SupervisorSpec.TurnRefinesMachine | internal/app/app.go:337-351 | the nil-ness of current, serving and rollbackCause encode a four-state machine, and every turn does to it what the turn means, wherever in the turn shutdown becomes visible |
| SupervisorSpec.RunRefinesMachine | internal/app/app.go:172-237 | so every run of the supervisor is a run of the machine |
| SupervisorSpec.ShutdownIsSeen | internal/app/app.go:118-137 | the machine sees shutdown only in a turn by whose end it has become visible |
| SupervisorLoop.RuntimeInstance.Stop | internal/app/app.go:360-366 | stopping consumes the completion once; a second stop returns the recorded result |
| SupervisorLoop.RuntimeInstance.MarkFinished | internal/app/app.go:354-358 | records the consumed completion |
| SupervisorLoop.Supervisor.StopCurrent | internal/app/app.go:91-98 | drains the current runtime and forgets it |
| SupervisorLoop.Supervisor.ObserveReadiness | internal/app/app.go:99-117 | commits the readiness of a runtime that is not serving yet, unless shutdown is visible |
| SupervisorLoop.Supervisor.Start | internal/app/app.go:118-131 | stops the current runtime before it launches another, and launches none once shutdown is visible |
| SupervisorLoop.Supervisor.LoadConfiguration | internal/app/app.go:132-170 | the initial load and every reload, with both shutdown checks, are the transitions the theorems are about |
| SupervisorLoop.Supervisor.Completed | internal/app/app.go:202-237 | the completion arm is the transition the theorems are about: rollback, return or idling |
| SupervisorLoop.Supervisor.TakeTurn | internal/app/app.go:175-237 | one turn of the loop is one transition |
| SupervisorLoop.Supervisor.Run | internal/app/app.go:172-237 | the loop executes exactly the run of transitions that the theorems range over |
| Keys.Resolve | internal/keys/keys.go:83-101 | the output is each matcher's matches in upstream order, one matcher after the other, with the first key of each blob kept; the counts are those before the repetitions go |
| Keys.NewAllowSet | internal/keys/keys.go:116-122 | the loop collects exactly the blobs of the given keys |
| Keys.FirstOfEachMeans | internal/keys/keys.go:93-97 | deduplication loses no blob and keeps no blob twice |
| Keys.AllowSetExact | internal/keys/keys.go:109-113 | a blob is allowed if and only if some listed key with it matches some matcher |
| Keys.AllowSetIgnoresOrder | internal/keys/keys.go:109-113 | which blobs are allowed depends neither on the order of the keys nor on that of the matchers |
| Keys.AllowSetSize | internal/keys/keys.go:129-132 | the allow set has as many blobs as the filtered view has keys |
| Keys.FilterIdempotent | internal/keys/keys.go:73-79 | filtering a filtered view changes nothing |
| Cache.StepKeepsInv | internal/proxy/cache.go:49-111 | every step keeps single flight, the refinement of the simple form, the spacing of refreshes and the counters |
| Cache.KeepsRefines | internal/proxy/cache.go:85-105 | the cached entry always stands for the last successful listing, or for the last error before any |
| CacheProperties.ListReturnsLatest | internal/proxy/cache.go:49-110 | with a ttl, what a List returns is the last successful upstream listing completed by then, or the latest error if none has succeeded |
| CacheProperties.NoErrorAfterSuccess | internal/proxy/cache.go:92-101 | after the first success no call that has yet to return ever returns an error |
| CacheProperties.HitIsFresh | internal/proxy/cache.go:52-60 | a hit comes less than a ttl after the last refresh completed, and returns its result if that succeeded |
| CacheProperties.AtMostOneUpstreamList | internal/proxy/cache.go:67-84 | at most one upstream list is in flight |
| CacheProperties.RateBound | internal/proxy/cache.go:67-104 | any n refreshes that start inside a half-open window satisfy (n - 1) * ttl < width |
| CacheProperties.CountersExact | internal/proxy/cache.go:41-84 | for any ttl, every finished call counted exactly one hit or one miss, refreshes equal upstream lists, and refreshes are at most misses |
| CacheAnswers.UncachedReturnsItsAnswer | internal/proxy/cache.go:41-47 | with caching off, a call that has returned has the result of the one list it made upstream do |
| CacheAnswers.AnswersAreStored | internal/proxy/cache.go:82-105 | with a ttl, upstream's answers are stored as they came, in order, but for one that is about to be |
| CacheAnswers.CountersMean | internal/proxy/cache.go:41-84 | a hit is a call that comes back from its first look without an answer, and a refresh is a call upstream has answered, once |
| CacheAnswers.WaitsCounted | internal/proxy/cache.go:67-75 | the wait counter counts how often a call came to wait for another's refresh |
| CacheAnswers.NeverWaitsTwice | internal/proxy/cache.go:67-75 | a call goes on after waiting only when that refresh is over, and never waits for it again |
| CacheProperties.CachedAgent.Probe | internal/proxy/cache.go:51-78 | the section at the head of the retry loop: a hit, a wait for the refresh in flight, or a new refresh |
| CacheProperties.CachedAgent.Complete | internal/proxy/cache.go:85-104 | the section that ends a refresh leaves the entry of the simple form and releases the flight |
| AuthorizationInvariant.StepKeepsInv | internal/proxy/authorization.go:52-148 | every step of every client, of the startup goroutine and of the cache keeps the end-to-end invariant |
| AuthorizationProperties.EverySignWasListed | internal/proxy/agent.go:60-92 | every sign that the shared agent is asked for is for a key with the blob of a key that it had listed before in that run and that the client's group selects |
| AuthorizationAccounts.UpstreamIsAccounted | internal/proxy/agent.go:60-112 | the agent all groups share has been asked for exactly one sign for each request that was forwarded, and for exactly one list for each refresh the cache has begun, whatever clients have asked for |
| AuthorizationProperties.ListReplyFiltered | internal/proxy/agent.go:30-58 | for any ttl, a list is answered with the group's filtered view of a listing upstream has returned |
| AuthorizationProperties.FailedReplyIsUpstreams | internal/proxy/agent.go:30-72 | for any ttl, an error a client is told is one that upstream's list returned with |
| AuthorizationRequests.ReplyIsEarned | internal/proxy/agent.go:30-112 | in every run, each reply is one its request can have, and stands for what happened since the request arrived: an error or a view is that of a refresh of the group that finished since, a forwarded sign reached upstream since with its key and flags, and a refused one waited for a refresh that finished without an error and was not selected by a listing resolved last since |
| AuthorizationRefusals.RefusalIsCurrent | internal/proxy/authorization.go:71-94 | with a ttl, a sign is refused only for a key the group does not select from the last successful listing as of some time since the request arrived, if the group's open refresh was then up to date |
| AuthorizationUncached.UncachedIsFresh | internal/proxy/authorization.go:114-139 | with caching off, a finished refresh has resolved, or failed with, an answer of upstream's that came after the refresh was created |
| AuthorizationFreshness.RefreshIsFresh | internal/proxy/authorization.go:114-139 | with a ttl, a finished refresh has resolved, or failed with, what the cache stood for at some time since the refresh was created: the last successful listing, or the last error before any |
| AuthorizationFreshness.StartupIsFresh | internal/proxy/server.go:267-271 | so has each startup refresh, since the beginning |
| AuthorizationFreshness.ListIsLatestFiltered | internal/proxy/authorization.go:59-66 | with a ttl, a list answered through a refresh shows the group's filtered view of the last successful listing as of some time since that refresh was created |
| AuthorizationFreshness.NoErrorAfterSuccess | internal/proxy/cache.go:92-101 | with a ttl, no refresh created after the cache's first success ends with an error, for any group |
| AuthorizationFreshness.JoinerCanBeBehind | internal/proxy/authorization.go:102-108 | a run in which a client that joins a refresh gets a listing older than one that was complete when it asked |
| AuthorizationJoining.JoinerIsCurrentIff | internal/proxy/authorization.go:102-117 | with a ttl, an open refresh ends in every continuation with what the cache stood for at some time from now on, if and only if its owner has no result yet or has the one the cache stands for now |
| AuthorizationJoining.JoinedListIsLatest | internal/proxy/authorization.go:59-66 | who joins such a refresh is answered with the group's filtered view of the last successful listing as of some time since it joined |
| AuthorizationProperties.OneFlight | internal/proxy/authorization.go:102-112 | a group has at most one unfinished refresh, and it is the one in flight |
| AuthorizationProperties.OneOwner | internal/proxy/authorization.go:102-139 | a refresh is closed at most once, and while it is open exactly one caller is on the way to close it |
| AuthorizationProperties.FinishedStays | internal/proxy/authorization.go:133-138 | a finished refresh never changes, over any run |
| AuthorizationProperties.JoinersAgree | internal/proxy/authorization.go:59-66 | all who list through one refresh get the same reply, however late one of them wakes |
| AuthorizationProperties.SnapshotIsLatest | internal/proxy/authorization.go:141-148 | a snapshot allows exactly what the group selects from the successful listing resolved last, and nothing before the first |
| AuthorizationProperties.SnapshotChanges | internal/proxy/authorization.go:121-131 | only resolving a successful listing that upstream returned changes a snapshot; a failed refresh leaves it |
| AuthorizationProperties.ViewIsAllowed | internal/proxy/authorization.go:141-148 | the view a refresh hands out is the one whose blobs its resolution allowed |
| AuthorizationProperties.FinishedIsResolved | internal/proxy/authorization.go:121-131 | a refresh finished without an error has had its listing resolved into its group's snapshot before its waiters wake |
| AuthorizationProperties.SignDecided | internal/proxy/authorization.go:68-94 | at each of its looks at the snapshot a request goes on to sign if and only if the group selects the key from the listing resolved last; the last look refuses the rest |
| AuthorizationProperties.NeverStuck | internal/proxy/authorization.go:59-94 | no client is ever stuck: a step can be taken that advances it or the owner of the refresh it waits for, and a step of the cache counts only if it is one of the call listened through or of the call that one waits for |
| GroupAuthorization.GroupAuthorization.JoinRefresh | internal/proxy/authorization.go:96-112 | joins the refresh in flight, or becomes the owner of a new, unfinished one |
| GroupAuthorization.GroupAuthorization.FinishRefresh | internal/proxy/authorization.go:121-139 | publishes the filtered view or the error and wakes the waiters; after an error the snapshot and the record of unmatched selectors are as before |
| GroupAuthorization.GroupAuthorization.Publish | internal/proxy/authorization.go:141-163 | the snapshot becomes the allow set of the listing, and the selectors to warn about are those newly without a match |
| GroupAuthorization.GroupAuthorization.NewlyUnmatched | internal/proxy/authorization.go:168-184 | the in-place loop returns the newly unmatched selectors in order and records which are missing now |
| GroupAuthorization.NewlyMeans | internal/proxy/authorization.go:165-184 | a selector is newly unmatched if and only if it matched nothing now and was not recorded as missing |
| GroupAuthorization.NewlyInOrder | internal/proxy/authorization.go:174-182 | they are named in configuration order, each once |
| GroupAuthorization.WarnedAtRunStart | internal/proxy/authorization.go:165-184 | a warning is raised exactly at the first resolution of a maximal run of zero matches |
| GroupAuthorization.OneWarningARun | internal/proxy/authorization.go:165-184 | over any sequence of resolutions a selector is warned about once for each maximal run of zero matches |
| LockProperties.StepKeepsInv | internal/proxy/socketlock.go:18-56 | every try and release of any process keeps: a lock has one holder, a process holds a prefix of its plan, and who lost a race lost it to one that had got past that lock |
| LockProperties.AllOrNothing | internal/proxy/socketlock.go:21-46 | a process that serves holds exactly its own locks, and one that gave up or stopped holds none |
| LockProperties.Exclusive | internal/proxy/socketlock.go:21-46 | two processes that serve at the same time share no lock |
| LockProperties.SomebodyWins | internal/proxy/socketlock.go:18-26 | in every group of processes that contend only among themselves, once all have finished and lost nothing but races, somebody got all its locks |
| LockProperties.RunIsBounded | internal/proxy/socketlock.go:28-56 | no run of lock attempts is longer than the work there is at its start |
| LockProperties.NobodyWaits | internal/proxy/socketlock.go:36-42 | a process that has not finished can always take a step, whatever the others do |
| LockProperties.UnsortedCanAllFail | internal/proxy/socketlock.go:18-26 | without the common order two processes can both give up |
| SocketLock.LockFiles.AcquireSocketLocks | internal/proxy/socketlock.go:21-46 | takes every lock or none; succeeds if and only if the cleaned paths are distinct and free, and otherwise reports the first path in sorted order that is not |
| SocketLock.LockFiles.LockAll | internal/proxy/socketlock.go:28-45 | the locking loop with its duplicate check, and its release of everything on a failure |
| SocketLock.LockFiles.CloseSocketLocks | internal/proxy/socketlock.go:48-56 | releases all the given locks, last first, and collects the errors in that order |
| SocketLock.LaterErrorsFirst | internal/proxy/socketlock.go:48-56 | what is locked later is released, and reported, before |
| SocketLock.ErrorsAreTheStuck | internal/proxy/socketlock.go:48-56 | exactly the locks that do not close cleanly are reported |
| SocketLock.LockFiles.AcquireSocketLock | internal/proxy/socketlock_unix.go:19-64 | a try-lock that never waits and tells contention from other failures |
| SocketLockRuns.RunsLikeLockAll | internal/proxy/socketlock.go:28-56 | a process that moves alone in the competition gets all its locks where the locking loop does, and elsewhere gives up at the same place and for the same reason, with the holders as before |
| SocketLock.AcceptedNeverDuplicate | internal/proxy/socketlock.go:29-35 | for the groups of an accepted configuration the duplicate branch is never the failure |
| SocketLock.PlansAreSorted | internal/proxy/socketlock.go:22-26 | what acquireSocketLocks goes through is a plan that the progress theorem is about |
| Sorting.SortSorts | internal/proxy/socketlock.go:26 | sorting orders the paths and keeps them all, with their repetitions |
| Sorting.LessMeans | internal/proxy/socketlock.go:26 | the order is that of the first difference |
| Paths.CleanIdempotent | internal/proxy/socketlock.go:23-25 | cleaning a cleaned path changes nothing |
| Paths.CleanInjective | internal/proxy/socketlock.go:23-25 | two paths are cleaned to the same if and only if they agree on the root and the components |
| Paths.CleanKeepsPlace | internal/config/config.go:127 | a cleaned path leads where the path led, from every directory |
| Paths.CleanIsPlace | internal/config/config.go:151 | two absolute paths are cleaned to the same if and only if they lead to the same place |
| Paths.DirAndBase | internal/config/config.go:197-202 | the directory of a clean path drops its last component, and its base is that component |
| CanonicalPath.CanonicalSocketPath | internal/config/config.go:181-204 | the loop terminates on every path, absolute or not, and resolves the longest existing prefix |
| CanonicalPath.CanonicalMeans | internal/config/config.go:178-192 | the longest existing prefix is resolved and the missing rest is appended unchanged; any other error is passed on |
| CanonicalPath.CanonicalWhenNothingExists | internal/config/config.go:197-200 | if no prefix exists the result is the cleaned path |
| CanonicalPath.CanonicalOfClean | internal/config/config.go:151-153 | paths that clean to the same have the same canonical path |
| Config.Config.Resolve | internal/config/config.go:120-176 | accepts or reports the first failing check, with the whole new state: cleaned upstream, groups before the failure cleaned and compiled, what the failing group is left with, groups after it untouched |
| Config.Config.ResolveGroups | internal/config/config.go:133-175 | the loop over the groups keeps the names and the canonical sockets seen |
| Config.Group.CompileKeys | internal/config/config.go:166-173 | compiles the key entries in order, up to the first bad one |
| Config.CompiledMeans | internal/config/config.go:206-225 | an entry compiles to a criterion if and only if it states that one, no other, and a value for it |
| Config.BlankIsTrimmed | internal/config/config.go:121-135 | blank is what strings.TrimSpace leaves nothing of |
| Config.AcceptedMeans | internal/config/config.go:120-176 | a configuration is accepted if and only if every group is sound by itself and any two are compatible, in whatever order they stand |
| Config.AcceptedSocketsDiffer | internal/config/config.go:152-164 | enabled groups of an accepted configuration have different canonical and different cleaned sockets, none of them upstream's |
| Server.Clients.StartClient | internal/proxy/server.go:439-461 | admits a connection, or closes it once clients are refused or the context is done |
| Server.Clients.RefuseNewClients | internal/proxy/server.go:463-467 | changes the flag and nothing else |
| Server.Clients.EndHandler | internal/proxy/server.go:453-458 | takes the connection off the registry and one off the wait group |
| Server.Clients.InterruptClients | internal/proxy/server.go:469-486 | closes the connection of every registered client |
| ServerInvariant.StepKeepsInv | internal/proxy/server.go:109-254 | every step of Run, of the resolver, of an accept loop and of a handler keeps the invariant |
| ServerProperties.FinishedExactlyOnce | internal/proxy/server.go:201-218 | on every way out, each claimed startup refresh is finished exactly once, and either none or all were claimed |
| ServerProperties.ResolverDoesNotOutliveRun | internal/proxy/server.go:127-139 | when Run returns the resolver has ended, or nothing was ever claimed, served or handled |
| ServerProperties.ClaimedBeforeListening | internal/proxy/server.go:196-207 | no socket exists before every group's startup refresh is claimed |
| ServerProperties.NobodyAfterRefusal | internal/proxy/server.go:439-467 | after refuseNewClients no further client is admitted, over any run |
| ServerProperties.LiveIsCounted | internal/proxy/server.go:448-458 | the wait group counts exactly the handlers that have not ended, and never drops below zero; a served client is registered |
| ServerProperties.CloseClientsDrains | internal/proxy/server.go:469-489 | closeClients returns only with no handler left, and waits only for clients it has interrupted |
| ServerProperties.LocksOutlastAll | internal/proxy/server.go:123-144 | without its socket locks Run has no open upstream, no listener, no resolver and no handler |
| ServerProperties.ReturnedIsClean | internal/proxy/server.go:123-145 | every return has released the locks and closed listeners and upstream |
| ServerProperties.ComesToServe | internal/proxy/server.go:192-246 | for any number of groups Run can come to serve all of them by its own steps alone: binding never waits for an answer from upstream |
| ServerReturns.FailureEndsRun | internal/proxy/server.go:247-253 | a server that serves, once an accept loop has failed for good or the context is done, can leave its select at once, for that reason, and comes by steps that need neither upstream nor a client to return |
| ServerReturns.EndsForItsReason | internal/proxy/server.go:116-122 | it ends for a cancellation only when it was asked to stop, for a listener failure only when an accept loop failed for good, and for one of the two if it had come to serve |
| ServerReturns.FailureIsReturned | internal/proxy/server.go:168-240 | Run gives up at its first failing lock, client or bind and returns that failure, and returns none that did not happen |
| ServerReturns.TemporaryFailureIsNothing | internal/proxy/server.go:400-433 | a temporary accept failure changes nothing, and no accept failure counts once the server is asked to stop |
| ServerReturns.CancelledStartStops | internal/proxy/server.go:220-235 | once the context is done no further accept loop is started, and a socket only if it was being opened |
| ServerReturns.NothingToServe | internal/proxy/server.go:147-166 | with no enabled group, or a context that is done before it begins, Run takes no lock and opens nothing |
| ServerConnections.NobodyOnceShut | internal/proxy/server.go:439-447 | once the context is done, or clients are refused, no client is admitted, over any run |
| ServerConnections.NoConnectionForgotten | internal/proxy/server.go:400-489 | every connection that came is with its accept loop, served, or closed, and after the return no longer served |
| ServerConnections.LateConnectionIsClosed | internal/proxy/server.go:440-447 | the accept loop that then still has one in hand closes it |
| ServerConnections.ListsAfterBinding | internal/proxy/server.go:208-218 | the initial list begins only once every socket is bound, or the context is done |
| ServerProperties.DrainNeverStuck | internal/proxy/server.go:123-145 | from the first step of the teardown there is always a step that needs neither upstream nor a client |
| ServerProperties.DrainIsBounded | internal/proxy/server.go:130-145 | once clients are refused, the drain takes no more steps than there is work, however they interleave |
| GoStrings.HexRoundTrip | internal/service/definitions.go:54 | hexadecimal digits are read back as the number they were written for |
| GoStrings.EscapeRoundTrip | internal/service/definitions.go:54 | every rune and every stray byte is read back from its escaped form, whatever follows it |
| GoStrings.QuoteRoundTrip | internal/service/definitions.go:105-112 | QuotedPrefix finds the whole of what Quote wrote, whatever follows, and Unquote gives the string back |
| GoStrings.PrefixUnquotes | internal/service/definitions.go:105-112 | whatever QuotedPrefix accepts, Unquote accepts |
| GoStrings.ScanOfUnclosed | internal/service/definitions.go:105-108 | what Quote writes before its closing quote is no quoted string, nor with a line break in its place |
| Systemd.ParseSystemdArguments | internal/service/definitions.go:87-119 | the tokenizer loop terminates, for the remaining line shrinks, and computes the arguments of the line, quoted or not, or the first error |
| Systemd.ParseSystemdExecStart | internal/service/definitions.go:65-82 | the arguments on the first ExecStart line, none if there is no such line, an error if it is empty |
| Systemd.ParseSystemdExecStartBinary | internal/service/definitions.go:57-63 | the first of those arguments, or the empty string |
| Systemd.ConfigArgument | internal/service/definitions.go:280-297 | the last config path the arguments name; a flag takes the next argument as it is |
| SystemdProperties.ConfigIsLastNamed | internal/service/definitions.go:280-297 | of any arguments, read as flags with their values in two or in one and other arguments, the config path is the value of the last flag |
| SystemdProperties.Itemized | internal/service/definitions.go:280-297 | every argument list is of that form |
| SystemdProperties.FirstLineDecides | internal/service/definitions.go:65-82 | the first ExecStart line decides; a blank command is an error |
| SystemdProperties.NoCommand | internal/service/definitions.go:65-82 | a unit without an ExecStart line has no arguments |
| SystemdProperties.EmptyIffBlank | internal/service/definitions.go:87-93 | a line has no arguments if and only if it has nothing but spaces |
| SystemdProperties.UnclosedIsAnError | internal/service/definitions.go:105-108 | an argument that is opened and not closed is an error, whatever came before on the line |
| SystemdProperties.UnescapeEscape | internal/service/definitions.go:50-55 | the substitutions for percent and dollar signs are undone exactly |
| SystemdProperties.ArgumentsRoundTrip | internal/service/definitions.go:28-33 | any list of arguments is read back from the line written for it |
| SystemdProperties.PlainRoundTrip | internal/service/definitions.go:84-103 | unquoted arguments, as older units have them, are read back too |
| SystemdProperties.UnquotingNeverFails | internal/service/definitions.go:105-112 | the error of the second parsing step never occurs, on any line |
| SystemdProperties.AfterClosingQuote | internal/service/definitions.go:113-116 | exactly which symbols may follow a closing quote |
| SystemdProperties.CommandHasNoNewline | internal/service/definitions.go:28-33 | no argument, whatever it holds, breaks the ExecStart line |
| SystemdProperties.UnitRoundTrip | internal/service/definitions.go:28-119 | reading the unit gives back exactly the arguments it was written with, for every executable, config path and cache value |
| SystemdProperties.ConfigPathFound | internal/service/definitions.go:280-297 | the config path is found among them whatever it looks like, even if it is itself -config |
| SystemdProperties.UnitSays | internal/service/definitions.go:28-119 | the unit written for a program, a config path and a cache time starts that program with that path and that time, whatever they are |

## By definition

Some statements follow from the definitions almost at once. They are kept because readers look for
them, and are no results beside those above.

- `AuthorizationProperties.OnlyListsAndSigns`: no other operation than a list or a sign with flags reaches upstream.
- `AuthorizationProperties.RefusalsTouchNothing`: a refused operation or an extension is answered at once and changes only its own client.
- `Config.FailsIsNotPassing`: the group a reported problem names does not pass the checks.
- `SupervisorProperties.ShutdownFreezes` and `DoneArms`: from when shutdown is visible every run takes at most one more turn, which returns with no runtime left, and no arm of the select launches or records anything.

## Left out

- The interleaved protocols (`upstream.go`, `authorization.go` and `cache.go` between their mutex sections, `server.go`, and competing processes in `socketlock.go`) are transition systems on values, not methods: steps of different goroutines fall inside one method body, which a Dafny method cannot express. The sections and the bodies run by one goroutine are methods beside them.
- UpstreamClient.ReconnectClient.Reconnect: is about one caller and a watchdog, because requests of other goroutines during its dial are in module Upstream only; what links the two is about a caller alone.
- ServerProperties.DrainIsBounded: counts the steps of Run, of the resolver and of handlers; connections that still arrive at listeners not yet closed are not counted, since they are not admitted.
- SupervisorProperties.SelectConfluence: asks that shutdown does not become visible within the looks of the two turns compared, since with a shutdown between them the outcomes differ by design.
- AuthorizationRefusals.RefusalIsCurrent: is about a positive ttl; with caching off `UncachedIsFresh` says how recent a refresh is.
- SocketLock.LockFiles.AcquireSocketLocks: other processes' locks do not change during the call; competition is in module LockProgress.
- Sockets, dialing, deadlines, peer credentials and the agent wire encoding: a dial succeeds or fails, and a request ends with a reply, an agent failure or a client error.
- A watchdog timer that fires while its request is being answered is modelled as one that fires before; a stopped timer never fires.
- The order of telemetry counters other than the reconnect, hit, miss, wait and refresh counters, and all logging.
- A process that dies with locks held: the operating system releases them, and the progress theorem asks that every process finishes.
- The file system behind lock files and behind `filepath.EvalSymlinks`: a lock is a cleaned path, and symlink resolution is one fixed answer for each path.
- `listenUnix`, `removeStaleSocket` and `ownedUnixListener`: races decided by the operating system.
- Accept retry delays: a temporary accept failure leaves the loop where it was.
- The error values Run joins during its teardown, and whether a bind that fails while the context is done counts as a cancellation: the model has why Run ends its body, not the text or the joining of errors.
- The fixed lines of the systemd unit other than ExecStart are constants of the model, and nothing is proved of them but that they start nothing.
- YAML decoding; the configuration is modelled from its parsed form on.
- Normalising fingerprints and hashing keys: a compiled key entry is its kind and its value, and matching is an abstract predicate.
- The launchd property list and its regular expressions, `-diag`, flags, `launchctl` and `systemctl`.
