# AgentQuay: a model of the Bridge and its clients

AgentQuay's Bridge is a daemon between AI agents and desktop applications. Agents call
tools over MCP; applications register over a WebSocket and run the calls. The project
models the parts where several goroutines, processes or callers meet, and proves what
every interleaving keeps. Beside them stand the sequential parts with a real specification:
a parser, a ranking, a ring buffer, a name codec.

Two forms are used together. Where the program changes objects or runs loops, there are
classes, arrays and loops, each proved equal to a specification function of the old state.
Where several actors interleave, there is a transition system, and the statements are about
all of its runs (`Runs.dfy` has the induction principles). For the pending table, the hub,
the scanner cache, the page router, the launch limiter and the C++ client both forms are
there: a method of the object is one step of the system, or says which steps it runs.

| file | part of the system |
|---|---|
| `Dispatch`, `DispatchProofs` | one tool call from opening to answer, against results, confirmations and failures from other goroutines |
| `Messages`, `Registry`, `Orphans` | result messages, the pending table, the ring buffer of late results |
| `Hub`, `HubProofs`, `Auth` | connections, registration, replacement, teardown, result handlers, token pinning |
| `Admission` | who is admitted and why others are refused, down to the characters of an id |
| `HubCalls` | the theorems about tool calls, in runs of the whole hub |
| `Names`, `ToolTable` | joined tool names and the MCP tool table |
| `Launcher`, `Processes`, `Apps` | the launch limiter, the distance between started processes, the history of launch paths |
| `Lifecycle` | the hand-over between embedded Bridges and the service |
| `Discovery`, `SingleFlight` | search ranking, the shared scan |
| `AppIds`, `Slugs` | ids of discovered applications, and the words they are made of |
| `Scanner`, `ParamList`, `ParamPrinter` | the JavaScript parameter-list parser and its printer |
| `PageRouter` | single-flight page activation of the .NET SDK |
| `CppClient` | the table of running invokes of the C++ SDK |

## Grain and assumptions

- Tool calls: one lock section or one channel operation is one step. `dispatch`, `onResult` and
  `onConfirmResult` are cut at every such point, and any number of each interleave. `FailAllForApp`
  runs under the table's lock and its sends never block, so it is one step.
- Registration, replacement and teardown: one handled message, and one return of a connection
  loop, is one step. The code checks and acts under separate lock sections here
  (bridge/internal/hub/hub.go:151-156 and 257-280), so a finer interleaving is not covered.
- A `register_ack` that cannot be sent leaves an entry without an owner
  (bridge/internal/hub/hub.go:301-307). The model has this step; `HubProofs.EntriesAreOwned` says that
  these are exactly the entries without a running owner.
- Launches: the locked section, the spawn, each sighting and each clearing are separate steps,
  and stored apps and online apps change between them. Settings and stored timeouts stay as they are.
- Instances of the Bridge: a tick of a watcher is one step and so is an exit. Nothing crashes and
  nothing else uses the ports.
- Time is an integer clock. Request ids and tokens are parameters: request ids are not used twice.

## Where the code does less than one might expect

- A launch keeps later ones of the same app away for its window iff the app is offline at that moment
  and no call is still about to clear its entry after an old sighting (`Launcher.LaunchesAreApartIff`).
  The distance is that of the insertions of the entry. For the started processes it holds iff, when
  the first has started, the app's entry was made at that very moment, the app is offline and no call
  is about to clear the entry (`Processes.LaterLaunchesApartIff`); for an undisturbed launch whose
  entry is still there this means that the start took no time (`Processes.SpawnsAreApartIff`). A slow start
  brings the processes closer (`Processes.SlowSpawnsEndTogether`).
- The launch limit bounds the entries of the table, and not the processes being started: when an
  entry is cleared early, more calls than that can be starting one
  (`Launcher.StaleSightingAllowsTwoLaunches`).
- The page router runs at most one activation of a page at a time unless a caller times out; then the
  old activation goes on beside the next one (`PageRouter.OneActivationPerKey`,
  `PageRouter.TimeoutLetsTwoRun`).
- A hand-over can fail after an embedded instance went idle just before the service started. When that
  instance exits it removes the service's port file. Until the service writes it again, which it does
  only when it moves to the default port, embedded instances do not give way
  (`Lifecycle.EmbeddedGivesWayIff`, `Lifecycle.HandoverCompletesIff`). In
  `Lifecycle.IdleLeaverLosesPortFile` the service is left without the file; in
  `Lifecycle.IdleLeaverBlocksHandover` everything stands still until the next instance goes idle.
- A yes for a request is accepted as soon as its phase is set, which is before the question is sent
  (`DispatchProofs.EarlyYesCounts`); it needs a client that names an id it was not sent.
- A first registration whose token cannot be saved, or whose acknowledgement is lost, leaves a pinned
  token that nobody was told. The app is refused until a rotation (`HubProofs.UntoldTokenLocksOut`).
- `sanitize` cuts after trimming, so sanitizing again changes the id iff the cut leaves a dash at the
  end (`AppIds.SanitizeTwiceIff`, `AppIds.SanitizeTwiceDiffers`).
- The comments give the automatic port range as 19846–19856. `AutoPortSpan` is 10
  (bridge/internal/config/config.go:17,176), so the range ends at 19855; the model follows the code.
- The comment on `rankAll` announces an order by name (bridge/internal/discovery/discovery.go:169-176);
  the code does not sort there and neither does the model.

## Model

| member | source | states |
|---|---|---|
| DispatchProofs.WaiterIsWoken | bridge/internal/mcpbridge/mcpbridge.go:298-342 | No lost wakeup: in every reachable state, a call still waiting whose id has left the table can read its response, or some `onResult` is about to send it and cannot be blocked |
| DispatchProofs.ReturnsOnceWithFirstValue | bridge/internal/mcpbridge/mcpbridge.go:266-343 | A call returns at most once; if with a response, with the first value ever put in its channel; until then the channel holds that value |
| DispatchProofs.OutcomeTellsWhatHappened | bridge/internal/mcpbridge/mcpbridge.go:298-342 | A refusal or a confirmation timeout comes after the question and with nothing invoked; an execution timeout only after the invoke; a failed send with nothing invoked; a result is the first value put |
| DispatchProofs.IdNeverReturns | bridge/internal/registry/registry.go:247-260 | An id that has left the pending table is never in it again |
| DispatchProofs.InvokeWasApproved | bridge/internal/mcpbridge/mcpbridge.go:275-328 | In every run, a call opened for a tool that requires confirmation is invoked only after its confirm message, and after a yes for it that arrived and was then accepted in phase confirm, whatever happened to the call in between |
| DispatchProofs.InvokeFollowsQuestionThenYes | bridge/internal/hub/hub.go:373-390 | If whoever answers with an id had been sent it, in a confirm or an invoke message: for such a call question, arrival of the yes, its acceptance and invoke happen in that order |
| DispatchProofs.EarlyYesCounts | bridge/internal/mcpbridge/mcpbridge.go:277-297 | Without that condition: a run in which a yes is accepted after the phase is set and before the question is sent, and the invoke needs no other |
| DispatchProofs.FailAllAnswersExactly | bridge/internal/registry/registry.go:270-287 | Failing an app removes exactly its pending requests and offers each a response without success, with its own id and with the code and message of the failure as its error; all others stay as they were |
| DispatchProofs.FailedCallGetsItsFailure | bridge/internal/registry/registry.go:270-287 | A call failed before it had a value can take that response, without success and with the code of the failure, when it waits, and never returns another one, whatever arrives later |
| DispatchProofs.LateResultIsOrphan | bridge/internal/hub/hub.go:341-346 | A result becomes an orphan iff its id is not in the table when it arrives; results after a call's return always do |
| DispatchProofs.ResultGetsThrough | bridge/internal/hub/hub.go:335-353 | From every reachable state a result for a waiting call can be carried through to be the value returned, and leaves nothing behind |
| DispatchProofs.WakeupKept | bridge/internal/hub/hub.go:347-352 | Every step keeps it so that an unanswered call outside the table has its value, or a handler that took it out and will send |
| DispatchProofs.RequestsKept | bridge/internal/mcpbridge/mcpbridge.go:262-342 | Every step keeps, for every request: first-value slot, single return, approval before execution |
| DispatchProofs.Written | bridge/internal/mcpbridge/mcpbridge.go:282-328 | Whatever a request's trace tells was written by an earlier step of the run |
| DispatchProofs.Arrived | bridge/internal/hub/hub.go:373-383 | A handler with a yes in hand received it, on its own connection, for a request pending then |
| DispatchProofs.StaysAsOpened | bridge/internal/mcpbridge/mcpbridge.go:262-275 | The app of a call, and whether it needs confirmation, stay what the opening said |
| DispatchProofs.OnlyOpenedSoAsks | bridge/internal/mcpbridge/mcpbridge.go:275-297 | The user is asked only about calls that were opened for a tool that requires confirmation |
| DispatchProofs.CallEnds | bridge/internal/mcpbridge/mcpbridge.go:298-342 | An expiry of the confirmation, one of the execution, a refusal, a cancellation and a failed send end the call for good, each with its own outcome: it never waits nor invokes again |
| DispatchProofs.EndedBy | bridge/internal/mcpbridge/mcpbridge.go:298-342 | Conversely a call that ended with such an outcome had that step, in the state that step needs |
| DispatchProofs.YesGetsThrough | bridge/internal/hub/hub.go:373-390 | From every reachable state a yes for a call that awaits its answer can be carried through to the invoke |
| DispatchProofs.NoGetsThrough | bridge/internal/hub/hub.go:373-390 | A no can be carried through to the return of the call as declined, and leaves nothing behind |
| DispatchProofs.LateAnswerIgnored | bridge/internal/hub/hub.go:383-390 | The check of the phase changes no call, and for a call that is already executing it ends the handler |
| Registry.PendingRequest.OfferResponse | bridge/internal/hub/hub.go:348-352 | The response channel takes one value and never blocks or overwrites |
| Registry.PendingRequest.OfferConfirmation | bridge/internal/hub/hub.go:385-389 | The confirmation channel takes one value and never blocks or overwrites |
| Registry.Registry.AddPending | bridge/internal/registry/registry.go:247-251 | The table gains exactly this request: one `Open` step of the protocol |
| Registry.Registry.GetPending | bridge/internal/registry/registry.go:263-267 | The request of the id, or null iff there is none |
| Registry.Registry.CompletePending | bridge/internal/registry/registry.go:254-260 | The id leaves the table, as the one step of a result handler or of the returning call; returns its request, or null iff it was not there |
| Registry.Registry.FailAllForApp | bridge/internal/registry/registry.go:270-287 | One `FailAll` step: removes exactly the app's requests and leaves each with its earlier value, or else with a response without success whose error has the given code; it touches no other request, in the table as in the calls |
| Registry.Registry.FailEach | bridge/internal/registry/registry.go:273-286 | The loop that deletes while it walks the table does this whatever the order |
| Registry.Registry.AddOrphan | bridge/internal/registry/registry.go:289-292 | A result without a request is recorded: one `ResultArrives` step |
| Registry.Registry.Orphans | bridge/internal/registry/registry.go:294-297 | The last `max` results ever recorded, oldest first |
| Registry.Registry.SetPhase | bridge/internal/registry/registry.go:67-72 | The call's own `SetPhase` step on its object |
| Registry.Registry.ReceiveResponse | bridge/internal/mcpbridge/mcpbridge.go:332-334 | Receiving from the response channel is the `TakeResponse` step and yields the value the call returns |
| Registry.Registry.ReceiveConfirmation | bridge/internal/mcpbridge/mcpbridge.go:299-303 | Receiving from the confirmation channel is the `TakeConfirmation` step; the call goes on iff the answer is yes |
| Hub.Hub.OnResult | bridge/internal/hub/hub.go:335-353 | Uninterrupted, the steps of a result handler: the result goes to the one request it names, which leaves the table, or else to the orphans |
| Hub.Hub.FindResult | bridge/internal/hub/hub.go:341-346 | From any state of the table the lookup is one `ResultArrives` step |
| Hub.Hub.TakeResult | bridge/internal/hub/hub.go:347 | From any state the removal is one `Complete` step |
| Hub.Hub.SendResult | bridge/internal/hub/hub.go:348-352 | From any state the send is one `Deliver` step, and never blocks |
| Hub.Hub.OnConfirmResult | bridge/internal/hub/hub.go:373-390 | Uninterrupted, the steps of a confirmation handler: an answer reaches only the request it names, only in phase confirm, and only if it is the first |
| Hub.Hub.SendAnswer | bridge/internal/hub/hub.go:385-389 | From any state the send is one `OfferConfirm` step |
| Hub.AllOrphaned | bridge/internal/hub/hub.go:341-371 | After any results that find no request, exactly the last `max` of them are listed, oldest first |
| Orphans.OrphanBuffer.constructor | bridge/internal/registry/registry.go:146-148 | For a size that is not negative, an empty buffer that satisfies the representation invariant; a negative size panics |
| Orphans.OrphanBuffer.Add | bridge/internal/registry/registry.go:150-163 | Appends to the abstract history and keeps the ring equal to its recent part, also for `max <= 0` |
| Orphans.OrphanBuffer.List | bridge/internal/registry/registry.go:165-176 | The ring read from `next` is the recent part of the history |
| Orphans.Rotated | bridge/internal/registry/registry.go:159-161 | Overwriting the oldest cell and moving on drops the oldest element and appends the new one |
| Names.SplitUndoesJoin | bridge/internal/registry/registry.go:16-36 | Splitting undoes joining for every app id without underscore; a joined valid name has at most 127 characters |
| Names.JoinUndoesSplit | bridge/internal/registry/registry.go:25-36 | Joining undoes splitting for every name that splits |
| Names.JoinIsInjective | bridge/internal/registry/registry.go:25-27 | Two valid pairs with one joined name are the same pair |
| ToolTable.RebuildTools | bridge/internal/mcpbridge/mcpbridge.go:116-191 | The three loops build the table: unshadowed tools of the online apps, of the stored apps that are offline, then the built-ins |
| ToolTable.AppendRows | bridge/internal/mcpbridge/mcpbridge.go:123-136 | One app's rows are appended in order, without those a built-in shadows |
| ToolTable.TableLists | bridge/internal/mcpbridge/mcpbridge.go:120-159 | A row is in the table iff it is a built-in or the row of an unshadowed tool of an app shown as online or as offline |
| ToolTable.TableNamesDistinct | bridge/internal/mcpbridge/mcpbridge.go:116-203 | For all valid online and stored apps no name occurs twice, built-ins included |
| ToolTable.TableNamesSplit | bridge/internal/mcpbridge/mcpbridge.go:231-237 | The name of an app's row splits into that app's id and the tool the row describes, and is at most 127 long; the description names app or page and carries the mark of an app that is not running iff the app is offline |
| ToolTable.BuiltinsAlwaysListed | bridge/internal/mcpbridge/mcpbridge.go:160-203 | The four built-in tools are always listed, and no application's tool has such a name |
| ToolTable.OnlyBuiltins | bridge/internal/mcpbridge/mcpbridge.go:160-203 | A built-in row has one of these four names |
| ToolTable.EveryToolListed | bridge/internal/mcpbridge/mcpbridge.go:120-159 | Every tool of a shown app whose joined name is not one of the four is listed under that name |
| Auth.Store.Token | bridge/internal/auth/auth.go:54-59 | The app's token, if it has one |
| Auth.Store.Allocate | bridge/internal/auth/auth.go:62-75 | A token once issued is in the table even if saving fails, and is returned only if saving succeeds; a failing random source changes nothing |
| Auth.Store.Rotate | bridge/internal/auth/auth.go:78-93 | Only a known app's token is replaced, no other app's, and none if the random source fails |
| Hub.CheckTools | bridge/internal/hub/hub.go:238-251 | The loop with the `seen` set accepts a tool list iff all names are valid and pairwise distinct |
| Hub.Hub.Authenticate | bridge/internal/hub/hub.go:217-271 | The checks in order decide the verdict; the token table changes only when an app without a token passes the earlier checks |
| Admission.AdmittedIff | bridge/internal/hub/hub.go:217-271 | A registration is admitted iff its protocol version is 1 with any minor part, its app id is 1 to 48 characters of [a-z0-9-], its tool names are 1 to 78 characters of [A-Za-z0-9_-] and pairwise distinct, and it presents the token of the app, or the app has none and a new one is issued and saved; it is told that token. Each refusal carries the code of the first failing check |
| Admission.RegisteredIDsAreGood | bridge/internal/hub/hub.go:233-237 | In every run, every key of the registry and every app id of a connection is a valid app id |
| Admission.AdmittedAppIsValid | bridge/internal/hub/hub.go:233-251 | An app as admitted meets what the tool table assumes of its apps |
| Admission.RegisteredAppsGiveDistinctNames | bridge/internal/hub/hub.go:233-252 | Apps that were all admitted in a run of the hub, distinct among the online and among the stored ones, give a tool table without a repeated name |
| Hub.Hub.ServeWS | bridge/internal/hub/hub.go:119-128 | A connection is admitted iff the hub runs and is below the limit; admitted ones are counted |
| Admission.ConnectedIffRoom | bridge/internal/hub/hub.go:119-128 | In every run a new connection gets a handler iff the hub is not stopped and has fewer than the configured number of them, 100 by default |
| Admission.NobodyAfterShutdown | bridge/internal/hub/hub.go:119-124 | After a shutdown no connection gets a handler any more |
| Hub.Hub.ProcessRegister | bridge/internal/hub/hub.go:170-177 | One register message is one `Register` step on table, tokens and pending requests: refusal, replacement of the old entry, failed acknowledgement, or success |
| Hub.Hub.Enter | bridge/internal/hub/hub.go:273-307 | The old entry's requests fail in the pending table, and the new connection gets the entry even if its acknowledgement fails |
| Hub.Hub.EndConn | bridge/internal/hub/hub.go:143-156 | The return of a connection loop is one `Close` step: it unregisters only what this connection still owns, and fails those requests in the pending table |
| Hub.Hub.Unregister | bridge/internal/hub/hub.go:326-332 | The entry goes and the app's pending requests fail |
| HubProofs.EntriesAreOwned | bridge/internal/hub/hub.go:101-156 | In every run: `conns` is the number of running handlers and within the limit, 100 by default, and an entry belongs to a running handler that holds its app iff its acknowledgement was sent |
| HubProofs.SuccessorSurvives | bridge/internal/hub/hub.go:150-156 | An acknowledged connection keeps its entry until it closes or its app registers anew, whatever replaced connections do |
| HubProofs.TeardownWakesItsCalls | bridge/internal/hub/hub.go:273-332 | When the owner closes or is replaced, acknowledged or not, the entry goes, and every pending request of its app leaves the table with its earlier value, or else with a response without success, of code CONNECTION_LOST on a close and APP_REPLACED on a replacement; every other request stays as it was |
| HubProofs.ReplacedCloseIsHarmless | bridge/internal/hub/hub.go:150-156 | In every run, the end of a connection that was acknowledged and later replaced changes neither registry nor requests, whoever registered since |
| HubProofs.CloseRemovesOwnEntry | bridge/internal/hub/hub.go:150-156 | In every run, the end of a connection removes exactly the entries that name it, and with none it changes no request |
| HubProofs.TakesEffectIffAdmitted | bridge/internal/hub/hub.go:217-307 | A registration gets the entry iff it is admitted and changes no other entry; a refused one changes no entry, no request and, if tokens can be saved, no token |
| HubProofs.CallsStep | bridge/internal/hub/hub.go:273-280 | Every hub step is at most one step of the tool-call protocol, which one `CallOf` says |
| HubCalls.Projected | bridge/internal/hub/hub.go:142-209 | The tool calls of every hub run, without the steps that leave them alone, are a run of the protocol, step by step and in order |
| HubCalls.InvokeWasApproved | bridge/internal/mcpbridge/mcpbridge.go:275-328 | In every hub run, with registrations and teardowns at any point, a call opened for a tool that requires confirmation is invoked only after its question and after a yes that arrived while it was pending and was accepted in phase confirm |
| HubCalls.WaiterIsWoken | bridge/internal/mcpbridge/mcpbridge.go:298-342 | In every hub run no wakeup is lost |
| HubCalls.TeardownFailureStands | bridge/internal/hub/hub.go:273-332 | A call that had no value when its app's connection ended or was replaced returns no response but the one without success, with its own id, of code CONNECTION_LOST or APP_REPLACED |
| HubProofs.TokenPinned | bridge/internal/auth/auth.go:54-93 | An app's token changes only on a rotation |
| Admission.TokenWasIssued | bridge/internal/auth/auth.go:62-75 | A token that an app came to have was issued for a registration of that very app that passed the checks before |
| HubProofs.AdmittedIffPinnedToken | bridge/internal/hub/hub.go:256-304 | After an acknowledgement and until a rotation, a well-formed registration is admitted iff it presents that token, and is acknowledged the same one |
| HubProofs.OnlyRotatedTokenAdmitted | bridge/internal/auth/auth.go:78-93 | After a rotation a well-formed registration is admitted iff it presents the new token |
| HubProofs.UntoldTokenLocksOut | bridge/internal/hub/hub.go:256-307 | A first registration whose token could not be saved or acknowledged pins it nevertheless: until a rotation, only a registration with that token is admitted |
| Launcher.Service.PruneLocked | bridge/internal/launcher/launcher.go:224-236 | The loop removes exactly the entries past their window and those of online apps |
| Launcher.Service.MaxConcurrentReached | bridge/internal/launcher/launcher.go:210-220 | Prunes, then compares with the configured maximum, 3 by default |
| Launcher.Service.Enter | bridge/internal/launcher/launcher.go:127-141 | At the limit every call fails, even for an app in flight; else it joins the app's entry or makes it |
| Launcher.Service.ClearInflight | bridge/internal/launcher/launcher.go:239-243 | Removes exactly the app's entry |
| Launcher.NeverTooManyInFlight | bridge/internal/launcher/launcher.go:127-141 | At every moment of every run the table has at most the configured number of entries, 3 by default |
| Launcher.AdmissionCountsLive | bridge/internal/launcher/launcher.go:127-141 | A call is refused iff the live entries reach the limit, and joins iff the app's own is live and they do not; live is an entry that is within its window and whose app is offline. The live entries keep their time and the others are gone |
| Launcher.CallGoesOnAsAdmitted | bridge/internal/launcher/launcher.go:113-154 | A call clears its entry if the app is online, and else asks for admission; it is over at the limit, waits if it joined, and starts a process only for a new entry |
| Launcher.EntryIsFreed | bridge/internal/launcher/launcher.go:97-146 | After a sighting is cleared, or a start has failed, the app has no entry, and the next call of the app does not join |
| Launcher.LaunchesAreApartIff | bridge/internal/launcher/launcher.go:84-154 | However a run goes on after a launch: every later one with no registration and no failed start in between is more than the app's timeout plus 10 s away, iff at the first the app was offline and no call was about to clear its entry |
| Launcher.LaunchesAreApart | bridge/internal/launcher/launcher.go:127-141 | The distance, between any two launches of any run, under that condition; the timeout is the app's own, else that of the settings, else 15 s |
| Launcher.Relaunch | bridge/internal/launcher/launcher.go:97-119 | Without the condition, every run has a continuation with a second launch while the clock stands still |
| Processes.SpawnBelongsToLaunch | bridge/internal/launcher/launcher.go:140-143 | Every process started belongs to one launch that inserted the entry before |
| Processes.LaterLaunchesApartIff | bridge/internal/launcher/launcher.go:127-153 | However a run goes on after a process has started: the process of every later launch, with no registration and no failed start in between, is more than the window away iff the app's entry was made at that very moment, the app is offline and no call is about to clear the entry |
| Processes.ProcessesApartIff | bridge/internal/launcher/launcher.go:127-153 | Every later process, whatever its launch, is that far away iff, besides, no other call was already starting one |
| Processes.SpawnsAreApartIff | bridge/internal/launcher/launcher.go:127-153 | For the process of an undisturbed launch whose entry is still there, this is so iff it started in no time |
| Processes.OldEntryRunsOut | bridge/internal/launcher/launcher.go:224-236 | From every run whose entry is older, or gone, a process of a later launch can start within the window |
| Processes.DisturbedRestarts | bridge/internal/launcher/launcher.go:97-119 | From every run in which the app is online or a call is about to clear its entry, one can start at once |
| Processes.SpawnsAreApart | bridge/internal/launcher/launcher.go:140-153 | In any case two processes are the window apart, less the time the first took to start |
| Processes.SlowSpawnsEndTogether | bridge/internal/launcher/launcher.go:140-153 | A run whose first launch is undisturbed, with nothing but quiet steps after it, in which both processes start at one instant because the first took longer than the window |
| Launcher.GuardKept | bridge/internal/launcher/launcher.go:224-236 | Every other step keeps the first launch's entry or finds its window over |
| Launcher.StaleSightingAllowsTwoLaunches | bridge/internal/launcher/launcher.go:97-99 | A run in which a call clears an entry it did not make and a second launch follows at once; with the limit at one, two processes are being started |
| Launcher.OnlineAllowsTwoLaunches | bridge/internal/launcher/launcher.go:113-139 | A run in which two calls found the app offline before it came online, and both launch it |
| Lifecycle.PortsStayDistinct | bridge/cmd/agentquay/main.go:347-365 | No two instances ever listen on one port, and each listens on one of the ten ports from the default one |
| Lifecycle.StartsOnFirstFreePort | bridge/internal/config/config.go:169-182 | An instance starts on the first of these ports that is free, writes it to the port file and moves no other instance |
| Lifecycle.EmbeddedGivesWayIff | bridge/cmd/agentquay/main.go:413-451 | After the service started, a tick of an embedded instance makes it give way, and keep the port file, iff no instance has exited as idle since the service last wrote that file; else it leaves only if idle |
| Lifecycle.FileGoneIff | bridge/cmd/agentquay/main.go:280-289 | The port file is gone exactly then, and else names the service |
| Lifecycle.LeavesIffDecides | bridge/cmd/agentquay/main.go:413-451 | An embedded instance has left or is leaving iff it was leaving at the start of the service or has had a tick at which it was idle or gave way |
| Lifecycle.OnlyServiceRemains | bridge/cmd/agentquay/main.go:272-289 | The service is the only instance iff every embedded one decided so and then left |
| Lifecycle.HandoverCompletesIff | bridge/cmd/agentquay/main.go:378-451 | After a tick of the service, it is alone, on the default port and named by the port file iff every embedded instance was leaving before or had a tick at which it was idle or gave way, all who decided to leave have left, and none exited as idle since the service last wrote the file |
| Lifecycle.HandoverCompletes | bridge/cmd/agentquay/main.go:378-451 | It is so, and stays so, if nobody was on its way out as idle at the start of the service, every embedded instance has ticked, whoever then decided to leave has left, and the service has ticked |
| Lifecycle.StuckUntilIdle | bridge/cmd/agentquay/main.go:390-396 | Without the port file and with the default port taken, no tick changes anything until an embedded instance goes idle |
| Lifecycle.IdleLeaverLosesPortFile | bridge/cmd/agentquay/main.go:280-289 | A run that ends with a service whose port file is gone |
| Lifecycle.IdleLeaverBlocksHandover | bridge/cmd/agentquay/main.go:378-451 | A run that gets stuck: port file gone, default port held by an embedded instance with apps, service beside it |
| Lifecycle.WatchEmbedded | bridge/cmd/agentquay/main.go:413-451 | The loop gives way at the first tick that sees a service; it leaves as idle at the first tick that sees none, comes `grace` after the start, and has no tick with an app within the last `grace`; whichever is first, else it runs on |
| Apps.InstalledApp.SaveForRegistration | bridge/internal/apps/apps.go:226-262 | A registration updates the record: a new path moves the old one into the history, an empty path changes no command |
| Apps.InstalledApp.Appended | bridge/internal/apps/apps.go:304-311 | Appends a path unless the list has it |
| Apps.InstalledApp.Launchable | bridge/internal/apps/apps.go:65-79 | True iff there is a current path and it or a path of the history exists |
| Apps.InstalledApp.ResolveLaunch | bridge/internal/apps/apps.go:82-94 | The command with the current path if that exists, else with the first existing path of the history |
| Apps.HistoryIsExact | bridge/internal/apps/apps.go:226-262 | Over any registrations the history has no duplicates, and with the current path it is exactly the set of non-empty paths known or reported |
| Apps.LastCommandIsCurrent | bridge/internal/apps/apps.go:226-262 | After any registrations the current command is that of the last one that reported a path, with its arguments and directory; if that path exists, it is what is started |
| Apps.NoPathKeepsCommand | bridge/internal/apps/apps.go:226-262 | Registrations without a path leave command and history alone |
| Apps.LastTimeoutIsCurrent | bridge/internal/apps/apps.go:226-262 | The timeout is the one last reported |
| Apps.HistoryGrowsAtEnd | bridge/internal/apps/apps.go:252-256 | A registration appends to the history, and only the path that was current, iff the new one differs and the history does not have it; nothing ever leaves the history |
| Apps.FirstExistingIsFirst | bridge/internal/apps/apps.go:87-92 | The fallback is the first existing path; there is none iff no path exists |
| Apps.LaunchableIffSomePathExists | bridge/internal/apps/apps.go:65-94 | Launchable iff one of the paths ever reported exists, and, once a path is known, iff the resolved command exists; the current path is preferred, and the fallback is the first of the history that exists |
| Discovery.Search | bridge/internal/discovery/discovery.go:88-112 | The in-place filter and the selection return a best-first choice among the positive candidates |
| Discovery.RankByQuery | bridge/internal/discovery/discovery.go:170-193 | A new array with each candidate's score; the input is untouched |
| Discovery.FilterInPlace | bridge/internal/discovery/discovery.go:105-110 | Filtering over the shared array leaves the pure filter of the old contents in front |
| Discovery.SortDescending | bridge/internal/discovery/discovery.go:230-235 | The insertion sort leaves a descending permutation |
| Discovery.BestByID | bridge/internal/discovery/discovery.go:216-226 | The loop over the map computes the best candidate of each id |
| Discovery.Dedup | bridge/internal/discovery/discovery.go:215-240 | Best candidates in descending order, one per id; one is missing only at the limit and then scores no more than any listed |
| Discovery.BestIsFirstHighest | bridge/internal/discovery/discovery.go:217-225 | The candidate kept for an id is the first of its highest-scoring valid ones |
| Discovery.SearchIsTopK | bridge/internal/discovery/discovery.go:95-112 | Results are cached candidates with id, path and their positive score, distinct ids, descending; a scoring candidate left out scores no more than any result, or than the listed one of its id |
| Discovery.EmptyQueryListsEveryApp | bridge/internal/discovery/discovery.go:86-102 | Without query and limit every valid cached id is listed, with the first candidate met for it |
| Discovery.ScoreTiers | bridge/internal/discovery/discovery.go:179-212 | A candidate scores iff name, id or file name contains the query: 100 iff the name equals it, 90 or more iff it is a prefix, 80 or more iff the name contains it, 70 iff only id and perhaps file name do, 60 iff only the file name does |
| Discovery.ContainsIff | bridge/internal/discovery/discovery.go:179-212 | Containing is standing at some position |
| Discovery.BaseOf | bridge/internal/discovery/discovery.go:179-193 | The file name is the last element of the path, without trailing slashes |
| Discovery.BaseOfNothing | bridge/internal/discovery/discovery.go:179-193 | It is a dot for an empty path and a slash for slashes alone |
| SingleFlight.Scanner.EnterCached | bridge/internal/discovery/discovery.go:115-137 | The first lock section is one `Enter` step: read a fresh cache, join the scan, or become the scanner |
| SingleFlight.Scanner.FinishScan | bridge/internal/discovery/discovery.go:144-150 | The last lock section is one `Finish` step: write the cache and close the current channel |
| SingleFlight.Scanner.ReadAfterWait | bridge/internal/discovery/discovery.go:128-132 | A caller that stopped waiting returns the cache as it is then |
| SingleFlight.Scanner.FreshLocked | bridge/internal/discovery/discovery.go:154-163 | Fresh iff written and younger than the time to live, with the default for a non-positive one |
| SingleFlight.AtMostOneScan | bridge/internal/discovery/discovery.go:115-151 | In every interleaving at most one caller scans |
| SingleFlight.ChannelsClosedOnce | bridge/internal/discovery/discovery.go:136-149 | A scan closes its own channel, which nobody closed before; a channel is closed iff its scan is over, and at most once |
| SingleFlight.NobodyWaitsInVain | bridge/internal/discovery/discovery.go:121-133 | A waiting caller's channel is closed, or a scan runs whose end closes it |
| SingleFlight.WokenReadsThatScanOrLater | bridge/internal/discovery/discovery.go:124-132 | A woken caller returns a cache written no earlier than the end of the scan it waited for |
| SingleFlight.StaleFindsNewer | bridge/internal/discovery/discovery.go:115-151 | A caller that does not find a fresh cache, and does not give up, returns a later cache than it found |
| SingleFlight.ReadsAtOnceIffYoung | bridge/internal/discovery/discovery.go:115-137 | A caller returns at once iff a cache was written less than the time to live ago, 300 s by default; else it joins the running scan, or scans if there is none |
| SingleFlight.CacheReadIsYoung | bridge/internal/discovery/discovery.go:154-163 | What such a caller returns was written by a step of the run less than that time before |
| SingleFlight.LastTTLCounts | bridge/internal/discovery/discovery.go:154-163 | The time to live is the positive one set last |
| AppIds.Sanitize | bridge/internal/discovery/discovery.go:261-289 | The loop computes: letters and digits kept, runs of others one dash, dashes trimmed, cut at 48 |
| AppIds.TrimmedIsClean | bridge/internal/discovery/discovery.go:261-284 | Before the cut: only [a-z0-9-], no dash at either end, none doubled |
| AppIds.SanitizeKeepsIds | bridge/internal/discovery/discovery.go:261-289 | The identity on clean ids of at most 48 characters without a dash at the end |
| AppIds.SanitizeTwiceIff | bridge/internal/discovery/discovery.go:284-287 | Sanitizing again changes nothing iff the cut leaves no dash at the end |
| AppIds.SanitizeTwiceDiffers | bridge/internal/discovery/discovery.go:284-287 | A string of 49 characters whose sanitized form changes when sanitized again |
| AppIds.ShortHash | bridge/internal/discovery/discovery.go:291-303 | The 64-bit loop computes the six hexadecimal digits of the base-31 polynomial |
| AppIds.HashIsPolynomialMod24 | bridge/internal/discovery/discovery.go:291-303 | Six digits that decode to the base-31 polynomial of the bytes modulo 2^24, despite the 64-bit wrap-around |
| AppIds.WrapStep | bridge/internal/discovery/discovery.go:292-295 | Wrapping after every byte is wrapping once |
| AppIds.AppIDFrom | bridge/internal/discovery/discovery.go:244-258 | The id from the file name, else from the name, else from the hash |
| AppIds.AppIDIsValid | bridge/internal/discovery/discovery.go:244-258 | For every input the id is one that registration accepts, with no leading and no doubled dash |
| Slugs.SanitizedIsSlug | bridge/internal/discovery/discovery.go:261-289 | The id of a text is its words, the longest runs of letters and digits, in lower case with one dash between two of them, cut at 48 characters |
| Slugs.SanitizedEmptyIff | bridge/internal/discovery/discovery.go:261-289 | It is empty iff the text has no letter and no digit |
| Slugs.SeedOfFile | bridge/internal/discovery/discovery.go:244-252 | The words are those of the file name without its directory and its last extension, or of the application's name if that leaves nothing |
| Slugs.SeedWithoutExtension | bridge/internal/discovery/discovery.go:244-252 | They are those of the whole file name if it has no dot, and of the name if there is no path |
| Slugs.AppIDIsSlug | bridge/internal/discovery/discovery.go:244-258 | The id is made of these words, or is `app-` and the hash iff there is none |
| Slugs.Utf8IsWellFormed | bridge/internal/discovery/discovery.go:291-295 | The bytes hashed for a character have the form of section 3 of RFC 3629 and decode to it |
| Slugs.LeadingByte | bridge/internal/discovery/discovery.go:291-295 | The first byte of a text counts with the highest power of 31 |
| Scanner.FindMatchingParen | sdk/typescript/src/schema.ts:159-184 | The loop with its escape skip finds what the character-by-character scanner finds |
| Scanner.MatchingParenIsFirst | sdk/typescript/src/schema.ts:159-184 | From an opening parenthesis: the first position after which the unquoted depth is zero again, with the depth positive before; -1 iff there is none |
| Scanner.SplitTopLevel | sdk/typescript/src/schema.ts:187-215 | The loop with `start` and `i` computes the parts of the scanner |
| Scanner.JoinUndoesSplit | sdk/typescript/src/schema.ts:187-215 | For every text, joining the parts with commas gives it back |
| Scanner.PartsAreWhole | sdk/typescript/src/schema.ts:187-215 | Splitting any part again gives just that part |
| Scanner.PartsAppend | sdk/typescript/src/schema.ts:187-215 | Text after an unsplit text is split as if it went on from the scanner's state there |
| Scanner.FindTopLevelChar | sdk/typescript/src/schema.ts:218-242 | The loop finds the first such character outside quotes and brackets |
| Scanner.TopLevelIndexIsFirst | sdk/typescript/src/schema.ts:218-242 | It is the first position that holds the character while no quote is open and the depth is zero; -1 iff there is none |
| ParamList.ParseParams | sdk/typescript/src/schema.ts:25-84 | The parser, with its arrow, rest, destructuring and failure branches, equals its specification on every text |
| ParamPrinter.ParseUndoesPrint | sdk/typescript/src/schema.ts:25-84 | For every list, with blanks anywhere, of identifiers with optional properly nested defaults without a top-level comma, rest parameters, empty places, and patterns or other texts that start no name, printed with no comment opener: exactly the names and default flags of the identifiers come back in order, or nothing iff there is one of the last kind |
| ParamPrinter.ParseUndoesCommentedPrint | sdk/typescript/src/schema.ts:25-84 | The same with any comments at any places: whatever text gives the printed list when its comments are taken out parses to the same answer |
| ParamPrinter.StripFirst | sdk/typescript/src/schema.ts:37 | A comment goes with both its marks, up to the first end mark, and the text around it stays |
| ParamPrinter.StripRemovesComments | sdk/typescript/src/schema.ts:37 | All comments go and nothing else does |
| ParamPrinter.UnclosedStays | sdk/typescript/src/schema.ts:37 | A comment opener without an end mark after it stays as it is |
| ParamPrinter.ArrowUndoesPrint | sdk/typescript/src/schema.ts:38-53 | Without a parenthesis, an identifier with blanks around it before the first arrow is the one parameter, without default |
| ParamPrinter.NoArrowIsRefused | sdk/typescript/src/schema.ts:38-44 | Without a parenthesis and without an arrow there is no answer |
| ParamPrinter.UnclosedIsRefused | sdk/typescript/src/schema.ts:54-58 | A parameter list that is not closed has no answer |
| ParamPrinter.OnlyIdentifiersAreNames | sdk/typescript/src/schema.ts:45-81 | For every text, each name in the answer is an identifier |
| ParamPrinter.TrimsBlanks | sdk/typescript/src/schema.ts:45-61 | Trimming takes the blanks at both ends and nothing else |
| ParamPrinter.NestedIsOnePart | sdk/typescript/src/schema.ts:187-215 | A properly nested default without a top-level comma is one part and ends at depth zero |
| ParamPrinter.NestedStaysInside | sdk/typescript/src/schema.ts:159-184 | Inside the list it never closes the list's parenthesis |
| ParamPrinter.CollectPrinted | sdk/typescript/src/schema.ts:56-81 | The part loop reads one printed parameter after the other: takes an identifier, skips a rest parameter and an empty place, gives up at a pattern or other text that starts no name |
| PageRouter.PageRouter.GetOrStart | sdk/dotnet/src/AgentQuay.Sdk/PageRouter.cs:113-121 | The first section under the lock is one `Enter` step: join the running activation or start one in the slot |
| PageRouter.PageRouter.FreeSlot | sdk/dotnet/src/AgentQuay.Sdk/PageRouter.cs:131-137 | The section after a timeout is one `Evict` step: the slot is freed iff the caller's own activation holds it |
| PageRouter.OneActivationPerKey | sdk/dotnet/src/AgentQuay.Sdk/PageRouter.cs:108-141 | Of two activations of one key that both run, one lost its slot to the timeout of a caller that had joined it |
| PageRouter.TimeoutLetsTwoRun | sdk/dotnet/src/AgentQuay.Sdk/PageRouter.cs:129-140 | A run in which two activations of one page run: one timed out its caller and went on, the next call started another |
| PageRouter.StartsOnlyWhenFree | sdk/dotnet/src/AgentQuay.Sdk/PageRouter.cs:114-121 | A call starts an activation iff the slot is empty or its activation is finished; every other running one of the key was evicted |
| PageRouter.WaitingMayTimeOut | sdk/dotnet/src/AgentQuay.Sdk/PageRouter.cs:123-140 | Every caller whose activation is unfinished, or was cancelled, can time out, which frees its slot |
| PageRouter.SuccessorKeepsSlot | sdk/dotnet/src/AgentQuay.Sdk/PageRouter.cs:131-137 | An activation keeps its slot until it finishes or a caller that joined it times out; no timeout of another one takes it away |
| PageRouter.JoinersShareOutcome | sdk/dotnet/src/AgentQuay.Sdk/PageRouter.cs:123-127 | Callers of one activation that get an outcome get the same |
| CppClient.AgentQuayClient.HandleInvoke | sdk/cpp/src/AgentQuayClient.cpp:574-592 | An invoke of an unknown tool is answered at once, any other is entered with its deadline |
| CppClient.AgentQuayClient.OnWorkerDone | sdk/cpp/src/AgentQuayClient.cpp:618-627 | A finished worker answers iff its request is still in the table |
| CppClient.AgentQuayClient.OnWatchdogTick | sdk/cpp/src/AgentQuayClient.cpp:674-702 | Erasing while walking the table answers and removes exactly the expired requests, unless the heartbeat is lost |
| CppClient.AgentQuayClient.OnDisconnected | sdk/cpp/src/AgentQuayClient.cpp:418-434 | All running requests are forgotten without an answer |
| CppClient.AgentQuayClient.StopClient | sdk/cpp/src/AgentQuayClient.cpp:369-376 | All running requests are forgotten without an answer |
| CppClient.EveryInvokeAccountedFor | sdk/cpp/src/AgentQuayClient.cpp:574-702 | In every run each request is answered at most once, and the accepted invokes are those answered plus those cleared plus those pending, as sets and in number |
| CppClient.LateWorkerSendsNothing | sdk/cpp/src/AgentQuayClient.cpp:622-625 | A worker that finishes after its request left the table changes nothing |
| CppClient.WatchdogAnswersExpired | sdk/cpp/src/AgentQuayClient.cpp:687-701 | A tick answers exactly the requests at or past their deadline, with a timeout |
| CppClient.TimedOutIff | sdk/cpp/src/AgentQuayClient.cpp:574-702 | An accepted invoke still in the table is timed out by a tick iff its timeout plus five seconds has passed since it was accepted, and has no answer before |
| CppClient.GivesUpIff | sdk/cpp/src/AgentQuayClient.cpp:674-686 | A tick ends the registration iff more than four heartbeat intervals have passed since the last message |
| CppClient.EndForgetsAll | sdk/cpp/src/AgentQuayClient.cpp:418-434 | A disconnection or a stop empties the table, records every request as cleared and sends nothing |
| CppClient.AcknowledgedStays | sdk/cpp/src/AgentQuayClient.cpp:542-556 | An acknowledged registration lasts until a tick, a disconnection or a stop |
| CppClient.OthersAnswered | sdk/cpp/src/AgentQuayClient.cpp:574-627 | A worker that finishes in time has its own data sent; an unknown tool is reported at once; an accepted invoke has no answer yet |
| CppClient.AnswerIsFinal | sdk/cpp/src/AgentQuayClient.cpp:618-627 | The first answer to a request never changes |

## Left out

- WebSocket, HTTP, MCP and JSON encoding: messages are datatypes; a send succeeds or fails by choice of the run. A message that cannot be decoded is not part of this model.
- The steps of `dispatch` before the request is opened (online check, tool lookup, automatic launch) and JSON Schema validation of arguments: they return before anything is shared.
- Real time: waits are steps that may happen at any moment; only the launch limiter, the cache, the idle watcher and the C++ client read a clock, as an integer.
- Randomness: request ids and tokens are parameters; the source of tokens can fail. The fixed id used when the random source fails is not part of this model.
- Process start, file contents, keyrings, operating-system scans: a spawn or a save succeeds or fails, the file system is a set of existing paths, a scan gives any candidates.
- Heartbeats, progress notifications, log lines, launch counters and time stamps.
- The notice to applications before an embedded instance gives way, and the reconnecting of clients.
- Several services at once, starts after the service's, crashes, outsiders on the ports: not part of the hand-over.
- A `dispatch` call is modelled as the steps of a transition system and not as one method, since other goroutines act between any two of them.
- LaunchesAreApartIff: settings and stored timeouts do not change during a run.
- LaunchableIffSomePathExists: says what command is resolved only once a path is known; without any, an app is not launchable.
- InvokeFollowsQuestionThenYes: asks that whoever names a request id was sent it; InvokeWasApproved needs no such condition but does not order question and arrival.
- FailAllForApp: the texts of the failures are not part of this model.
- AppIDIsValid: lower-casing is any function on characters and paths are separated by slashes.
- ParseUndoesPrint: strings are sequences of characters and not of UTF-16 units; the parse cache is not part of this model.
- Search: takes the query after trimming and lower-casing; the cached candidates are any list.
- EveryInvokeAccountedFor: counts answers handed to the socket; a closed socket drops them silently.
- The settings that switch automatic launching off: such a call is one that never reaches the locked section.
- The `Live` page reference kept per tool in the page router, its activation hooks, and the user-interface thread.
- The descriptions and schemas of the built-in tools.
- The other SDK languages, the `spawn.lock` file, the Rust macros: they repeat modelled parts or leave little to prove.
