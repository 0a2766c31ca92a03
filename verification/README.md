# Verified models of the agentry sandbox, auth sidecar and bridge

Each module models one piece of stateful or textual logic of the repository and proves what its code, comments and tests
promise. Interleaved code is a step relation with an inductive invariant; objects whose methods update fields are classes
proved against functions of their old state; loops are loops. Time is an explicit integer, HMAC, bcrypt and JSON are
function parameters, and a law such a function must satisfy is a `requires` of the lemma that needs it.
`dafny verify dfyconfig.toml` checks everything.

| module | what it models |
|---|---|
| `Supervisor`, `SupervisorSafety`, `SupervisorTheorems` | the project supervisor as interleaved critical sections: named locks, process table, recursive dependency start, one watcher per process |
| `SupervisorGraph`, `SupervisorProgress`, `SupervisorOutcome`, `SupervisorWaits`, `SupervisorTermination` | the `depends_on` graph, what a start, a stop and a crash lead to, when calls block each other, and how long they work |
| `SupervisorShortLocks` | the supervisor's mutexes below the named locks |
| `CircuitBreaker`, `Timestamps` | crash history pruned on every record, against the full history |
| `KernelManager` | the kernel host's capacity semaphore and registry, as steps and as an object |
| `WireMessage`, `Encoding` | signed multipart kernel messages (Jupyter messaging protocol 5.3, "The Wire Protocol") |
| `IopubRouter` | the lossy fan-out of kernel output |
| `Sse`, `CodeStream` | execution events written in one package and read in another (WHATWG HTML section 9.2.6, the subset used) |
| `SlidingWindow` | the auth sidecar's per-source limiter |
| `Lockout` | account lockout and the sign-in handler |
| `EmailTokens` | single-use email tokens in SQL and Mongo, as interleaved statements |
| `UserStore` | signups and OAuth callbacks on the users table |
| `Broker` | the bridge's directory of device and cluster sessions |
| `MinuteBuckets` | the bridge's per-minute limiter |
| `SignedCookie` | unlock cookies and session values (RFC 4648 section 5 for base64url) |
| `Strings`, `Argv` | a command line joined in one binary and split in another |
| `FileEdit` | strict single and multiple edits of a file |

Where code and comments disagree the model follows the code:

- The bridge's tenancy comment (pkg/bridge/bridge.go:77-82) promises that device requests are never routed across
  organisations, but `deviceHandler` (pkg/bridge/bridge.go:628-670) routes by cluster id alone. `Broker.RoutesAcross` attaches a
  device and a cluster for which the promise fails, `Broker.InsideIffOneOrganisation` says exactly when it holds, and
  `Broker.CheckStopsExactlyCrossing` that the test `proxyToCluster` makes (pkg/bridge/bridge.go:436) would restore it and change
  nothing else.
- The supervisor's "exponential backoff" comment (pkg/handlers/project.go:329) does not describe the code: every restart makes a
  fresh project object, so its counter never passes one (`SupervisorTheorems.AtMostOneRestart`).
- Mongo's reaper is meant to be invisible. It is not when a handler read the clock before the expiry and looks the token up after
  the row was reaped: `EmailTokens.ReaperCanShow` is such a run, `EmailTokens.ReapInvisibleIffDead` the exact condition.
- An OAuth callback with an empty name attached to an existing account stores the empty name but returns the old one:
  `UserStore.Store.UpsertUserFromOAuth` says exactly when stored and returned names differ, `UserStore.EmptyNameIsStored` is a
  case.
- OAuth's provider and id are meant to find "the same person as last time" (cmd/authproxy/store.go:371-372), and a later callback of
  another provider under the same address overwrites them: `UserStore.SameUserIffNotDisplaced` is the exact condition,
  `UserStore.DisplacedIdentityGetsSecondAccount` a run in which one person gets two accounts.
- A start makes sure its direct dependencies run, not the transitive ones: a running dependency is passed over whatever became of its
  own (`SupervisorOutcome.StoppedBelowStaysDown`; `SupervisorOutcome.WholeConeUpIff` is the exact condition).
- A dependency cycle does not always block. A call gets to a dependency only after the ones before it were brought up, so only a
  cycle of such edges makes calls wait for each other (`SupervisorWaits.WaitCycleIffOpenCycle`).

## Model

| member | source | states |
|---|---|---|
| SupervisorTheorems.AtMostOneLiveProcess | pkg/handlers/project.go:147-290 | in every interleaving of starts, stops, exits and watcher restarts, a project name has at most one process that has neither exited nor been killed |
| SupervisorTheorems.LiveIsRegistered | pkg/handlers/project.go:270-279 | that process is the table's entry, unless the holder of the project's lock has launched it and not yet published it |
| SupervisorTheorems.RestartsCounted | pkg/handlers/project.go:324-333 | the restart counter of a project object is the number of times its watcher called `StartProject` in the run |
| SupervisorTheorems.AtMostOneRestart | pkg/handlers/project.go:305-340 | a project object triggers at most one restart over its whole life |
| SupervisorTheorems.StopSticks | pkg/handlers/project.go:310-314 | a stop flag set before the watcher read it stays in time through every run |
| SupervisorTheorems.StopBeforeReadMeansNoRestart | pkg/handlers/project.go:407-430 | stop means stop: once the flag is set before the watcher reads it, no continuation of the run restarts that project object |
| SupervisorTheorems.PrecededByAll | pkg/handlers/project.go:198-208 | if every start follows its direct dependencies' starts, it follows a start of every transitive one |
| SupervisorTheorems.StartsFollowDependencies | pkg/handlers/project.go:198-208 | in every run, each start of a project comes after a start of each project reachable through `depends_on` |
| SupervisorTheorems.CyclicNeverStarts | pkg/handlers/project.go:198-208 | a project on a dependency cycle is never started in any run |
| SupervisorWaits.SelfDependencyBlocks | pkg/handlers/project.go:147-150 | the start of a project that depends on itself ends up waiting for its own lock |
| SupervisorTheorems.RestartsExactlyWhen | pkg/handlers/project.go:305-327 | in every interleaving, a watcher that decides goes on to restart exactly when the manifest asks for it, no stop flag was set when it read the flag, and of all exits ever recorded fewer than five lie within the last 60 seconds |
| SupervisorTheorems.FailedRestartShows | pkg/handlers/project.go:333-339 | when the call of `StartProject` by a watcher ends in failure, the next step marks the old project object failed and changes no other; when it ends well the object stays as it is |
| SupervisorProgress.StartLaunches | pkg/handlers/project.go:147-290 | from every reachable state, a start of a startable project whose dependency cone is unlocked and not circuit-broken ends, undisturbed, with a new live process that is the table's entry and watched, every dependency up, nothing else taken down and all locks given back; a running instance is replaced |
| SupervisorProgress.CallComes | pkg/handlers/project.go:156-290 | the same for a call nested anywhere in a goroutine's work, by induction on the depth of the project |
| SupervisorOutcome.WhatComesUp | pkg/handlers/project.go:198-208 | what is running after such a start is exactly what was, the project itself, and what `depends_on` leads to from it over projects that were not running |
| SupervisorOutcome.WholeConeUpIff | pkg/handlers/project.go:198-208 | so all transitive dependencies run afterwards exactly if each of them ran before or the start gets to it |
| SupervisorOutcome.WholeConeUp | pkg/handlers/project.go:198-208 | which is the case if whatever ran had its own dependencies running |
| SupervisorOutcome.StoppedBelowStaysDown | pkg/handlers/project.go:199-203 | a reachable state in which a start passes over a running dependency whose own dependency was stopped, and leaves that one down |
| SupervisorOutcome.StopTakesDown | pkg/handlers/project.go:407-446 | from every reachable state, an undisturbed stop of a registered project whose lock is free flags, kills and marks its process, changes nothing else, and leaves no live process of the project |
| SupervisorOutcome.StopAnswers | pkg/handlers/project.go:433-446 | such a stop ends with success if the project is registered, and with failure and no process touched if not |
| SupervisorProgress.StartsIffStartable | pkg/handlers/project.go:190-208 | some run starts a project if and only if it is startable: it has a manifest and all its dependencies are startable |
| SupervisorProgress.CrashComesBack | pkg/handlers/project.go:305-333 | crashes still get restarted: when a startable project's process ends, with a failure or with success, its fourth last exit a minute ago or longer if there are four, its status is set accordingly and its watcher, undisturbed, leads to a new registered live process launched by itself, with every dependency up |
| SupervisorProgress.FirstCrashesComeBack | pkg/handlers/project.go:114-121 | in particular a project's first four exits always lead to a restart when nothing it needs is locked or has exited five times |
| SupervisorOutcome.ServingComesBack | pkg/handlers/project.go:305-333 | the same from the process a start or a restart left running: its own end leads to the next one |
| SupervisorOutcome.StartCrashRestart | pkg/handlers/project.go:147-333 | one whole life from an empty system: start, end of the process, and a new process launched by its watcher |
| SupervisorProgress.FreeIff | pkg/handlers/project.go:105-122 | in every reachable state a project can be started if its lock is free and fewer than five of all its exits lie within the last 60 seconds, and only then |
| SupervisorProgress.BreakerCloses | pkg/handlers/project.go:105-122 | an open breaker closes by itself: after 60 seconds only its lock keeps a project from being started |
| SupervisorTheorems.ClosedMeansOld | pkg/handlers/project.go:114-121 | if a closed breaker had seen five exits since some instant, at least the crash window passed since then |
| SupervisorTheorems.AutoRestartsAreSpaced | pkg/handlers/project.go:322-333 | any six starts along one chain of automatic restarts span at least 60 seconds |
| SupervisorGraph.StartableIff | pkg/handlers/project.go:190-208 | startable means having a manifest and only startable dependencies |
| SupervisorGraph.CycleNotStartable | pkg/handlers/project.go:198-208 | nothing on a cycle of edges a start can get to is startable |
| SupervisorGraph.AcyclicHasNoOpenCycle | pkg/handlers/project.go:198-208 | an acyclic graph has no such cycle |
| SupervisorGraph.ClosedSelfDependency | pkg/handlers/project.go:198-208 | a self-dependency behind a dependency without a manifest is no such cycle |
| SupervisorWaits.StackOpens | pkg/handlers/project.go:198-208 | in a goroutine's call stack each call is for a dependency the one below got to over startable ones |
| SupervisorWaits.WaitsDown | pkg/handlers/project.go:94-103 | from the project a call waits for, such edges lead to the project its holder waits for |
| SupervisorWaits.NoWaitCycle | pkg/handlers/project.go:147-150 | without a cycle of such edges no set of concurrent start and stop calls ever waits in a circle on the named locks |
| SupervisorWaits.OpenCycleBlocks | pkg/handlers/project.go:147-208 | with one, a single start in an otherwise idle system ends up waiting for a lock its own goroutine holds |
| SupervisorWaits.WaitCycleIffOpenCycle | pkg/handlers/project.go:147-208 | so a circle of waits is reachable if and only if such a cycle exists |
| SupervisorWaits.SomeCallCanRun | pkg/handlers/project.go:433-446 | from any call in progress, the chain of waits ends at a call that can take its next step, unless it closes a circle |
| SupervisorWaits.NoDeadlock | pkg/handlers/project.go:147-208 | without a cycle of such edges no reachable state with a call in progress is deadlocked |
| SupervisorWaits.DeadlockIffOpenCycle | pkg/handlers/project.go:147-208 | a deadlock is reachable if and only if such a cycle exists |
| SupervisorShortLocks.CirclesAreNamed | pkg/handlers/project.go:469-495 | goroutines that nest `pm.mu`, `proj.mu` and the port cache's lock as the code does wait in a circle for named locks only |
| SupervisorShortLocks.ShortWaitsEnd | pkg/handlers/project.go:469-495 | whoever waits for a short lock waits, at most two goroutines removed, for one that can go on |
| SupervisorTermination.OwnStepsBounded | pkg/handlers/project.go:198-208 | in any run, the own steps of a goroutine are bounded by a measure of its stack that no other goroutine can raise |
| SupervisorTermination.CallsTerminate | pkg/handlers/project.go:147-208 | on every dependency graph, a start or stop call, with every dependency it starts, takes at most `Work(name)` steps of its own however it is interleaved |
| SupervisorSafety.StepKeeps | pkg/handlers/project.go:147-340 | every step of every goroutine keeps the supervisor's invariant (table, locks, call stacks, watchers, exits, starts) |
| SupervisorSafety.RunKeeps | pkg/handlers/project.go:147-340 | so does every run |
| SupervisorSafety.StartsGrow | pkg/handlers/project.go:198-208 | a launch after all direct dependencies started keeps every start preceded by its dependencies |
| CircuitBreaker.RecordedAgrees | pkg/handlers/project.go:132-143 | appending an exit and pruning answers, from that instant on, like the full history with the exit appended |
| CircuitBreaker.AgreesOpen | pkg/handlers/project.go:114-121 | a list that agrees with the full history gives the same breaker decision at every later instant |
| CircuitBreaker.ClosedIff | pkg/handlers/project.go:105-122 | the breaker is closed exactly when there were fewer than five exits or the fifth last is 60 seconds old |
| CircuitBreaker.CrashTable.IsCircuitOpen | pkg/handlers/project.go:105-122 | the counting loop returns what the full exit history of the name gives, however much was pruned |
| CircuitBreaker.CrashTable.RecordCrash | pkg/handlers/project.go:124-144 | records the exit for that name only and keeps the table in agreement with the full histories |
| Timestamps.Prune | pkg/handlers/project.go:136-142 | the in-place filter keeps exactly the entries after the cutoff, in order |
| Timestamps.AfterTwice | pkg/handlers/project.go:134-142 | pruning at an earlier cutoff is invisible at any later one |
| Timestamps.AfterCounts | pkg/handlers/project.go:114-121 | any set of k positions holding late entries is counted in full |
| Timestamps.LateIff | pkg/handlers/project.go:114-121 | a sorted list has k late entries exactly if the k-th from its end is late |
| KernelManager.TokensConserved | pkg/jupyter/manager.go:95-132 | in every run the semaphore holds exactly the tokens of spawns in flight and unreleased kernels, and live kernels never exceed `MaxKernels` |
| KernelManager.CountedOnce | pkg/jupyter/manager.go:95-132 | the counts of tokens held and of live kernels are those of the calls that hold one and of the live processes |
| KernelManager.ReleasedExactlyOnce | pkg/jupyter/manager.go:102-132 | on every exit path a call that took a token returns it exactly once |
| KernelManager.RegistryExact | pkg/jupyter/manager.go:111-132 | an id maps to the one registered kernel of it that no `Close` removed since |
| KernelManager.OldWatcherSparesSuccessor | pkg/jupyter/manager.go:124-132 | through every continuation of every run a listed kernel stays findable exactly until its own goroutine unlists it or `Close` comes; goroutines of earlier kernels of its id never remove it |
| KernelManager.CapacityRefusesOnlyWhenFull | pkg/jupyter/manager.go:95-100 | a reservation is refused exactly when `MaxKernels` tokens are held |
| KernelManager.RefusedIffTaken | pkg/jupyter/manager.go:87-93 | in every run a spawn finds its id in use exactly when some registered kernel of that id was not taken out by `Close` |
| KernelManager.RaceLostIffTaken | pkg/jupyter/manager.go:108-117 | a started kernel loses the race for its id exactly in the same case |
| KernelManager.SpawnSucceeds | pkg/jupyter/manager.go:83-135 | from every reachable state, an undisturbed spawn of an id not in use, with fewer than 16 tokens held, ends with a live, registered, listed kernel and one more token held |
| KernelManager.ExitReleases | pkg/jupyter/manager.go:124-132 | from every reachable state, the end of a registered kernel gives its token back and takes its entry out if that is still there, and touches nothing else |
| KernelManager.FailuresRelease | pkg/jupyter/manager.go:102-117 | a start that fails and a race that is lost end with the token given back and the registry as it was |
| KernelManager.StepKeeps | pkg/jupyter/manager.go:83-135 | every step of spawns, goroutines, shutdowns and `Close` keeps the manager's invariant |
| KernelManager.Manager.Ask | pkg/jupyter/manager.go:87-93 | the presence check: free exactly when no registered kernel of the id is left, tied to the step relation |
| KernelManager.Manager.Reserve | pkg/jupyter/manager.go:95-100 | the non-blocking send, tied to the step relation |
| KernelManager.Manager.Register | pkg/jupyter/manager.go:108-120 | the second critical section: registers exactly when no registered kernel of the id is left, or reports the race lost |
| KernelManager.Manager.Unlist | pkg/jupyter/manager.go:126-130 | removes the entry only if it is this kernel's own |
| KernelManager.Manager.Release | pkg/jupyter/manager.go:131 | the receive never finds the semaphore empty |
| KernelManager.Manager.Get | pkg/jupyter/manager.go:138-146 | finds the registered kernel of the id not removed by `Close`, and nothing only if there is none |
| KernelManager.Manager.Touch | pkg/jupyter/manager.go:150-158 | stamps the listed entry of the id and no other |
| KernelManager.Manager.GcOnce | pkg/jupyter/manager.go:226-243 | picks exactly the listed kernels idle for at least the expiry, each once |
| KernelManager.Manager.CloseAll | pkg/jupyter/manager.go:201-207 | empties the map and returns every kernel that was in it, each once |
| WireMessage.Outgoing.Marshal | pkg/jupyter/message.go:96-136 | stamps date and version in place and emits identities, delimiter, signature, four parts and buffers |
| WireMessage.ParseMessage | pkg/jupyter/message.go:157-208 | the outcome is the one fixed by the first delimiter, the six frames after it, the key and the codec; no index is out of bounds |
| WireMessage.OutcomeUnique | pkg/jupyter/message.go:157-208 | the frames leave parsing no choice |
| WireMessage.RoundTrip | pkg/jupyter/message.go:96-208 | parsing a marshalled message gives it back stamped, with empty metadata or content as `{}`, exactly when no identity frame is a delimiter, whatever the buffers hold |
| WireMessage.SentFrames | pkg/jupyter/message.go:96-136 | the frames sent are identities, delimiter, signature of the four parts as sent, the parts with `{}` for an empty parent header, metadata or content, and the buffers |
| WireMessage.RefusedIff | pkg/jupyter/message.go:157-208 | which refusal comes exactly when: too few frames, another signature than that of the four parts, a header or a parent header that does not decode |
| WireMessage.NoDelimiterIff | pkg/jupyter/message.go:160-170 | and no delimiter exactly when there is none |
| WireMessage.AcceptedIsSigned | pkg/jupyter/message.go:185-190 | with a key, a message is accepted only under hex(HMAC(key, header, parent, metadata, content)) of its own frames |
| WireMessage.SameSignatureSameMac | pkg/jupyter/message.go:226-243 | two frame lists under one signature frame have the same MAC |
| WireMessage.Sign | pkg/jupyter/message.go:226-243 | the signature is the hex MAC of the concatenated parts, empty without a key |
| WireMessage.CloneFrames | pkg/jupyter/message.go:210-219 | the copy equals the frames |
| Encoding.HexInjective | pkg/jupyter/message.go:242 | different digests are printed differently |
| Encoding.HexDigits | pkg/jupyter/message.go:242 | the two digits printed for a byte have it as their base-16 value, higher digit first |
| IopubRouter.Router.Subscribe | pkg/jupyter/iopub.go:38-54 | a new subscription with its capacity (256 by default) takes over the id; every other subscription is left as it was |
| IopubRouter.Router.Unsubscribe | pkg/jupyter/iopub.go:47-53 | the returned drop count is exactly what was dispatched to an open subscription and neither received nor is still buffered |
| IopubRouter.Router.Dispatch | pkg/jupyter/iopub.go:59-73 | never waits; each subscription's next state depends on its own alone, and a message is dropped exactly when its buffer is full |
| IopubRouter.Router.Receive | pkg/jupyter/iopub.go:26-29 | takes the oldest buffered message and keeps the accounting |
| IopubRouter.OfferedAccounts | pkg/jupyter/iopub.go:67-73 | received + buffered + dropped stays equal to the messages dispatched to the id, what was kept stays an in-order subsequence of them, and the buffer stays within its capacity |
| IopubRouter.FirstOnesKept | pkg/jupyter/iopub.go:67-73 | whatever is dispatched between two receives, an open subscription keeps the first messages of its id that there is room for and counts the others as dropped, so none is dropped while no more than the capacity wait |
| IopubRouter.SubsequencePositions | pkg/jupyter/iopub.go:67-73 | what was kept stands in what was dispatched at increasing positions |
| IopubRouter.ForCounts | pkg/jupyter/iopub.go:60-65 | the messages dispatched to an id are counted once each |
| Sse.ParseSSEResult | pkg/mcp/client.go:696-785 | the scanning loop computes the fold of its lines, stopping with an error at a line too long for the buffer |
| Sse.ParseOfWritten | pkg/mcp/client.go:696-785 | reading back any sequence of single-line events gives their summary: outputs concatenated, displays in order, last result, error, reply, positive count and drop count |
| Sse.ParseOfOverlong | pkg/mcp/client.go:700-701 | with a line too long the client gets the error and the summary of exactly the events before it |
| Sse.StatusWithoutReply | pkg/mcp/client.go:777-783 | without a readable reply the status is "error" if an error can be read and "incomplete" if none |
| Sse.StatusOfLastReply | pkg/mcp/client.go:737-746 | and with readable replies it is that of the last one |
| Sse.StaleData | pkg/mcp/client.go:704-708 | a nameless event is passed over and leaves its data for the next one |
| Sse.LineEnds | pkg/mcp/client.go:761-773 | a line ends with a newline, with or without a carriage return before it |
| Sse.FoldedIsSummary | pkg/mcp/client.go:704-759 | overwriting and appending event by event is the same as looking at each kind of output alone |
| Sse.ReadWritten | pkg/mcp/client.go:761-773 | the same from any point between events, with stale data of nameless events left behind |
| Sse.ScannedBlock | pkg/handlers/code.go:63-65 | one written event is scanned as its three lines, or cut off by the first that is too long |
| CodeStream.CodeWriter.Emit | pkg/handlers/code.go:58-68 | hands one event to the client, or nothing when the payload does not encode; a client that is gone takes what it can of it and nothing later, and the write fails |
| CodeStream.StreamSse | pkg/handlers/code.go:209-262 | forwards every outcome in order, also to a client that is gone, and returns uncancelled exactly when idle and reply have both been seen, and then at once |
| CodeStream.OverIff | pkg/handlers/code.go:214-260 | over means: the idle status of this very request or the end of the output was seen, and a reply |
| CodeStream.Execute | pkg/handlers/code.go:197-203 | the response is the forwarded events followed by the drop count, cut where the client was gone |
| CodeStream.EventsSayWhatWasSaid | pkg/handlers/code.go:213-258 | `execute_result` messages (or unknown ones called `result`) become the client's results, `display_data` (or `display`) its displays, and stream, error and reply messages what they say, in order, whatever else is forwarded |
| CodeStream.ClientSees | pkg/mcp/client.go:656-690 | end to end, every field of the client's result is what the kernel's messages said: output, displays, last result, error, status and positive count, and the drop count of the subscription |
| SlidingWindow.RateLimiter.Allow | cmd/authproxy/ratelimit.go:60-95 | despite pruning and GC every call is decided as by a limiter that keeps every accepted timestamp forever |
| SlidingWindow.RateLimiter.Collect | cmd/authproxy/ratelimit.go:85-93 | drops exactly the keys whose newest hit is past the window, which changes no decision |
| SlidingWindow.AtMostMaxPerWindow | cmd/authproxy/ratelimit.go:79-83 | over every run, any window of the configured length holds at most `max` accepted calls of a key |
| SlidingWindow.AttemptsSpaced | cmd/authproxy/ratelimit.go:79-83 | any `max + 1` accepted calls of a key span at least the window |
| SlidingWindow.AllowedIff | cmd/authproxy/ratelimit.go:60-83 | after any calls in order, a call is allowed exactly when the limiter is off, fewer than `max` were accepted, or the one `max` accepted calls ago is a window old |
| SlidingWindow.FirstCallsAllowed | cmd/authproxy/ratelimit.go:60-83 | the first `max` calls of a key are accepted, all at one instant |
| SlidingWindow.Stale | cmd/authproxy/ratelimit.go:85-93 | a list whose newest hit is past the window answers like no list |
| Lockout.LockoutUntil | cmd/authproxy/lockout.go:22-39 | the doubling loop gives min(2^(attempts-5), 30) minutes from the fifth failure on |
| Lockout.Store.PostLogin | cmd/authproxy/handlers.go:153-211 | which answer comes exactly when; a locked account is refused whatever the password, until its deadline; only a wrong password adds a failure, only a sign-in clears them, and nothing else of any row changes |
| Lockout.Store.CountFailure | cmd/authproxy/handlers.go:228-236 | records the failure with the deadline of the new count, keeping the row equal to its history |
| Lockout.Store.RecordLoginFailure | cmd/authproxy/store_security.go:49-63 | sets counter and deadline of that row only |
| Lockout.Store.ResetLoginAttempts | cmd/authproxy/store_security.go:65-71 | clears counter and deadline of that row only |
| Lockout.Store.UpdatePassword | cmd/authproxy/store_security.go:18-39 | a long enough password that bcrypt takes replaces the hash of an existing user and unlocks; otherwise nothing changes |
| Lockout.GuessingIsSlow | cmd/authproxy/lockout.go:13-17 | failure n >= 10 without a reset comes at least 31 + 30(n-10) minutes after failure 5 |
| Lockout.TableGuessingIsSlow | cmd/authproxy/lockout.go:5-11 | the same for the rows of the table after any run of sign-ins |
| Lockout.LockedIff | cmd/authproxy/lockout.go:22-45 | by the failures since the last reset alone: locked from the fifth on until 1, 2, 4, 8, 16 or from the tenth 30 minutes after the last |
| EmailTokens.SingleUse | cmd/authproxy/store_security.go:88-103 | in every interleaving each token is found valid at most once, before its expiry and for its own purpose |
| EmailTokens.YieldsItsCreator | cmd/authproxy/store_security.go:104-110 | a redeemed token yields the user it was created for, also when the owner is looked up in a second statement |
| EmailTokens.PasswordsReplayed | cmd/authproxy/handlers_reset.go:118-138 | the passwords are the initial ones with the recorded changes made, and unchanged while there are none |
| EmailTokens.VerifiedExactly | cmd/authproxy/handlers_reset.go:152-158 | in every run the verified addresses are exactly those of existing users for whom a verification was made |
| EmailTokens.RedeemSucceeds | cmd/authproxy/store_security.go:88-111 | in every state and both stores, an undisturbed redeem of an unused, unexpired token of its purpose sets the password or verifies the address of its existing owner, uses the token up, and changes nothing else |
| EmailTokens.RedeemRejected | cmd/authproxy/store_security.go:97-103 | of any other token it is rejected and changes nothing |
| EmailTokens.MintSucceeds | cmd/authproxy/store_security.go:73-86 | an undisturbed request leaves its token redeemable as asked for, and takes away exactly the other tokens of that user and purpose, or none if that deletion failed |
| EmailTokens.ChangesMatchTokens | cmd/authproxy/handlers_reset.go:118-138 | every recorded change stands for its own redeemed token of its purpose and user |
| EmailTokens.GoneStaysGone | cmd/authproxy/store_security.go:73-79 | a deleted token is never found valid again |
| EmailTokens.NewLinkKillsOld | cmd/authproxy/store_security.go:74-78 | once a new link's deletion ran, no earlier unused token of that user and purpose is ever found valid |
| EmailTokens.StepKeeps | cmd/authproxy/handlers_reset.go:81-213 | every statement of every handler, every fault, also of a statement that took effect, every tick and reap keeps the token invariant |
| EmailTokens.ReaperInvisible | cmd/authproxy/store_mongo.go:138-144 | leaving out the reaper changes no answer or effect of a run in which it takes only rows no handler in flight can still find valid |
| EmailTokens.ReapInvisibleIffDead | cmd/authproxy/store_mongo.go:141-144 | that condition is exact in every reachable state |
| EmailTokens.LateReapShows | cmd/authproxy/store_mongo_security.go:86-103 | a reap between a handler's reading of the clock and its lookup changes that handler's answer |
| EmailTokens.ReaperCanShow | cmd/authproxy/store_mongo_security.go:87-97 | a concrete run in which this happens |
| EmailTokens.TokenStore.CreateEmailToken | cmd/authproxy/store_security.go:73-86 | afterwards the new token is the only one of its user and purpose, if the best-effort deletion reached the table |
| EmailTokens.TokenStore.ConsumeSql | cmd/authproxy/store_security.go:88-111 | yields the owner exactly if the token is unused, unexpired and of the purpose, and uses it up |
| EmailTokens.TokenStore.ConsumeMongo | cmd/authproxy/store_mongo_security.go:86-109 | the same in one step, refusing a document without an owner |
| UserStore.Store.CreateUserPassword | cmd/authproxy/store.go:305-338 | succeeds exactly for a plausible unused address and a long enough password that bcrypt takes, if the row reaches the table, and adds that one row |
| UserStore.Store.UpsertUserFromOAuth | cmd/authproxy/store.go:368-437 | identity first, address second, new row last; the returned user is the stored one except exactly where the code lets the names differ |
| UserStore.Store.Find | cmd/authproxy/store.go:371-398 | the two lookups in order |
| UserStore.Store.Insert | cmd/authproxy/store.go:329-336 | a second row of an id or address is refused, and one that fails to reach the table is not there |
| UserStore.CallbackKeeps | cmd/authproxy/store.go:364-437 | ids, addresses and OAuth identities stay unique, no hash or address changes, at most one row is added, and the identity belongs to the returned user |
| UserStore.NamesStayFresh | cmd/authproxy/store.go:364-386 | display names stay fresh: a returning or attached user has the name of the callback, unless it returned without one |
| UserStore.SameUserIffNotDisplaced | cmd/authproxy/store.go:371-417 | someone answered with a user gets that user again, after any signups and callbacks of anybody, if and only if no other identity was the last one attached to it by address, or this visit attaches it again |
| UserStore.SameUserUnlessAttached | cmd/authproxy/store.go:371-386 | in particular if nobody attached anything to that user by address in between, whatever address and name the visitor comes back under |
| UserStore.IdentityIsLastAttached | cmd/authproxy/store.go:403-410 | over every sequence of visits the identity of a row is the last one attached to it by address, and its address never changes |
| UserStore.DisplacedIdentityGetsSecondAccount | cmd/authproxy/store.go:398-417 | a run in which a displaced identity comes back under another address and gets a second account |
| UserStore.EmptyNameIsStored | cmd/authproxy/store.go:403-415 | a run that stores an empty name and returns the old one |
| UserStore.RepeatFindsSameUser | cmd/authproxy/store.go:416-418 | an immediate repeat of a callback returns the same id and adds nobody, whichever name refreshes are lost |
| Broker.Broker.AttachDevice | pkg/bridge/bridge.go:528-541 | the session goes to the end of its id's list |
| Broker.Broker.DetachDevice | pkg/bridge/bridge.go:543-563 | takes out that one session, leaves siblings in order, and leaves no empty list |
| Broker.Broker.AttachCluster | pkg/bridge/bridge.go:596-605 | the new session is the entry and the old one is closed |
| Broker.Broker.DetachCluster | pkg/bridge/bridge.go:607-614 | removes the entry only if it is this session's, never a successor's |
| Broker.Broker.Shutdown | pkg/bridge/bridge.go:760-774 | closes every listed session and empties both directories |
| Broker.Broker.CloseList | pkg/bridge/bridge.go:762-766 | closes one list of sessions |
| Broker.Broker.Route | pkg/bridge/bridge.go:426-439 | reaches only a session of the id and the requester's organisation (or for an admin, or in dev mode), and the only open one |
| Broker.Broker.ListClusters | pkg/bridge/bridge.go:468-495 | lists a cluster exactly when a request of the same requester would be routed to it |
| Broker.Broker.SnapshotDevices | pkg/bridge/bridge.go:736-750 | every device session present, once |
| Broker.Broker.RouteDevice | pkg/bridge/bridge.go:628-642 | a request without a target is refused, one for a cluster that is not connected is offline, and any other goes through the only open session of that id, whichever device asks |
| Broker.InsideIffOneOrganisation | pkg/bridge/bridge.go:77-82 | no listed device reaches another organisation if and only if, admins and dev mode aside, every connected cluster is of every listed device's organisation |
| Broker.RoutesAcross | pkg/bridge/bridge.go:628-670 | a device of one organisation and a cluster of another attach, and the device's request is routed across |
| Broker.LogAppend | pkg/bridge/bridge.go:528-563 | what an attach, detach or shutdown does to the sessions attached since the last shutdown and not detached, defined by the event log alone |
| Broker.DevicesLogged | pkg/bridge/bridge.go:528-563 | the lists stay exactly those sessions, in attach order |
| Broker.SpliceIsWithout | pkg/bridge/bridge.go:546-552 | splicing out the position found is leaving the session out |
| MinuteBuckets.RateLimiter.Allow | cmd/bridge/deploy_auth_password.go:308-334 | every call is decided as with all accepted calls kept, and after an allowed call the map is within `maxKeys` or holds only current entries |
| MinuteBuckets.RateLimiter.Evict | cmd/bridge/deploy_auth_password.go:324-332 | drops exactly the entries whose minute has rolled over, which changes no decision |
| MinuteBuckets.AtMostMaxPerMinute | cmd/bridge/deploy_auth_password.go:313-322 | over every run a key gets at most `max` allowed calls per clock minute |
| MinuteBuckets.AtMostTwiceMaxPerWindow | cmd/bridge/deploy_auth_password.go:313-322 | and at most `2 * max` in any 60 seconds |
| MinuteBuckets.TwiceMaxIsReached | cmd/bridge/deploy_auth_password.go:313-322 | for every `max`, key and minute that bound is met: `max` calls in the last second of the minute and `max` in the next second are all allowed |
| SignedCookie.UnlockRoundTrip | cmd/bridge/deploy_auth_password.go:166-194 | an unlock cookie gives every uint64 prefix back exactly while now < exp |
| SignedCookie.MintedCookieUnlocks | cmd/bridge/deploy_auth_password.go:67-103 | on a configured route a minted cookie passes exactly under the route's own prefix and before expiry |
| SignedCookie.ProceedsIff | cmd/bridge/deploy_auth_password.go:66-104 | for all routes and cookies: a request passes a password route exactly with secret, hash and prefix set and a cookie of three parts, the last the MAC of the others, not expired and of the route's prefix; in other modes always |
| SignedCookie.DeployRoundTrip | cmd/bridge/deploy_auth.go:137-165 | a session value gives its organisation back exactly when that has no dot and now <= exp |
| SignedCookie.SessionIff | cmd/bridge/deploy_auth.go:145-165 | a session value is accepted for an organisation exactly if it was signed with it and has not expired |
| SignedCookie.MacCarriesNothingElse | cmd/bridge/deploy_auth_password.go:162-165 | unless the MAC collides, a cookie accepted with a genuine cookie's MAC has the genuine prefix and expiry |
| Encoding.UintRoundTrip | cmd/bridge/deploy_auth_password.go:167-192 | numbers print and parse back in base 10 and 16, up to the width |
| Encoding.IntRoundTrip | cmd/bridge/deploy_auth_password.go:167-188 | signed 64-bit numbers print and parse back |
| Encoding.Base64RoundTrip | cmd/bridge/deploy_auth_password.go:168-177 | unpadded base64url decodes to the bytes encoded |
| Encoding.DecodableIff | cmd/bridge/deploy_auth_password.go:176-179 | what decodes is, line breaks aside, the unpadded URL-safe alphabet without a lone last letter |
| Encoding.Base64Vectors | cmd/bridge/deploy_auth_password.go:168 | the test vectors of RFC 4648 section 10, unpadded |
| Argv.JoinAuthproxyExec | pkg/handlers/project_authproxy.go:96-106 | quotes stripped, arguments with a space quoted, joined by spaces |
| Argv.SplitArgv | cmd/authproxy/exec.go:253-277 | the loop computes the scan of the characters |
| Argv.RoundTrip | pkg/handlers/project_authproxy.go:92-106 | for every argument list, splitting the joined string gives the arguments without quotes and without the empty ones |
| Argv.RoundTripIsIdentity | cmd/authproxy/exec.go:248-277 | the list comes back unchanged exactly when no argument is empty or has a quote |
| Argv.StrippedIsReplaced | pkg/handlers/project_authproxy.go:99 | replacing every quote by nothing strips exactly the quotes |
| Strings.CountAndReplaceAgree | pkg/handlers/file.go:741-756 | counting and replacing see the same occurrences |
| Strings.ReplaceLength | pkg/handlers/file.go:664-698 | a replacement changes the length by count * (len(new) - len(old)) |
| Strings.CountOneIff | pkg/handlers/file.go:664-698 | a count of one means one place with nothing before it and nothing after it, and that place is what is replaced |
| Strings.PiecesFree | pkg/handlers/file.go:664-698 | nothing countable is left in the text between the occurrences |
| FileEdit.Files.FileReplace | pkg/handlers/file.go:643-699 | strict replacement with its error codes; a failure leaves the file as it was |
| FileEdit.Files.FileMultiEdit | pkg/handlers/file.go:705-769 | all edits or none; success exactly when 1 to 100 edits all pass one after the other, each counted on its own content; the failing step fixes the code |
| FileEdit.Files.OneByOne | pkg/handlers/file.go:701-704 | the same edits sent one by one, 1 to 100 of them, all succeed exactly when the multi-edit does, and then leave the same file; if not, those before the first refused stay done |
| FileEdit.EditedLength | pkg/handlers/file.go:756-757 | the total change of length of a run of edits |
| FileEdit.SingleEditIff | pkg/handlers/file.go:664-690 | without a count and without asking for all, an edit passes exactly if its text is found at one place, which is then replaced |
| FileEdit.CountedEditIff | pkg/handlers/file.go:664-690 | with a count or asking for all it passes exactly if the text splits accordingly, into the pieces the result joins |
| FileEdit.RefusedStays | pkg/handlers/file.go:736-755 | the first refused edit decides the outcome |

## Left out

- In the `Supervisor` modules the sections under `pm.mu`, a crash state's `mu` and a project's `mu` are atomic steps and waiting is
  on the named locks only; `SupervisorShortLocks` shows that the short locks add no circle, from the order in which
  they are taken: `RunningPGIDs` takes `proj.mu` under `pm.mu`, and `ListProjects` looks up ports under both, which takes the port
  cache's lock (pkg/handlers/port_discovery.go:50-71).
- `StopAll` is one `StopProject` goroutine for each name in the table, so its runs are among those of the model; that it waits for all of
  them is not restated.
- What `SupervisorProgress` says is reached is reached by one goroutine whose steps succeed while no other moves; a manifest that
  cannot be read or a failing launch ends a call with its lock released.
- Health checks, log capture, port discovery and the manifests' contents beyond `depends_on` and `auto_restart`.
- Sleeping (the two seconds between signals, the restart backoff) is any passing of time between steps; killing a process group
  is one step, after which the process counts as dead.
- A `char` of the event stream read in `Sse` stands for one byte, so its line limit counts bytes.
- Kernel start-up, sockets and message transport (`pkg/jupyter/kernel.go`) appear as the steps and outcomes the manager, router and
  stream need; reply delivery to concurrent executions on one kernel is not modelled.
- The router's broadcasters (nothing registers one) and `CloseAll`; closing channels is not modelled, so the router results are about
  dispatch and unsubscription of open subscriptions, with each dispatch atomic.
- Generated ids, HTTP parsing, cross-site checks, rendered pages and mail delivery around the sign-in, reset and unlock handlers.
- CSRF and same-origin gates before `Lockout.Store.PostLogin`: requests that fail them touch no account.
- Lockout.Store.PostLogin: logins to one account are handled one at a time; the counter the code reads, increments and writes back can lose
  failures of concurrent logins, and database rounding of stored times is not modelled.
- EmailTokens.ReapInvisibleIffDead: the application's and the database's clock are one clock.
- The limiters take the readings of the clock as nondecreasing in lock order; both read it before they lock.
- UserStore covers the SQL store; Mongo differs in its index and empty-name behaviour, and lower-casing and trimming are parameters.
- In-place reuse of a slice's backing array while filtering or splicing is modelled on sequence values held in fields.
- `Snapshot` of clusters is the cluster directory itself and is not restated.
- Session transport, revocation, deploy routing and the form flow of the bridge beyond the cookie decision.
- Which passwords bcrypt refuses (golang.org/x/crypto takes up to 72 bytes) is a parameter of the operations that hash one.
- Cryptographic strength: HMAC is any function, and bcrypt any comparison.
