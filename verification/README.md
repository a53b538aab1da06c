# Cloaksession desktop, verified

A Dafny model of the parts of the desktop application whose correctness rests on several
functions, goroutines or callbacks keeping to the same rules, with proofs of what those rules
are for. `dafny verify dfyconfig.toml` checks all of it.

**The profile lifecycle.** `debugger.Manager`, `browser.Manager` and `Service` race against each
other. Each critical section, channel operation and blocking point of the code is one step of a
state machine, and a run is any sequence of enabled steps.

- `DebuggerTables` has the critical sections of the debugger manager as functions on its tables,
  and a class that runs them on its fields, loops included.
- `DebuggerProtocol` is the attach/close protocol: tickets for attaches and the sessions they
  become, closers for running Detach, CloseProfile and Close calls.
- `BrowserLifecycle` is Launch, CloseProfile, Shutdown, the bridge supervisor, `stop` and `watch`.
- `Lifecycle` wires the two as `newService` does.
- `Progress` adds profile locks, service requests, native dialogs and the session gates of `Call`,
  and proves exactly when closing stands still; `Termination` has a rank on all waiters.
- `ServiceLifecycle` has admission, profile locks, companion relaunch and the ordered shutdown;
  `ServiceShutdown` proves that the shutdown comes to its end.

**Correlators.** `CdpClient` (the CDP websocket client), `DebugRpc` and `DebugWriter` (requests and
the write loop of the stdio debug client), and `McpSessions` (the MCP HTTP session table).

**Archives.** `ArchiveFraming` is the `.mzar` layout and its parser; `ArchiveImport` restores a
parsed archive into a file tree and a table of profiles in which any call may fail.

**Frontend and proxy.** `ProxyHealth` is the rate-limited probe scheduler, `SocksBridge` the SOCKS
bridge's connection accounting, `ChromixFlags` the launch-argument list.

`Common`, `Sums` and `Strings` hold shared vocabulary. Processes, sockets, JSON, hashing and
authenticated encryption are parameters or steps of the environment. Classes carry the fields
the code updates; their methods are proved to compute the functions that the theorems are about.

## Findings

- A close can wait for the user. `profiles_export_archive` opens its save dialog while it holds the
  profile's lock, and `pick` returns only on the answer or when the service's context is over
  (desktop/service.go:198-205 and 392-434); a `profiles_close` of that profile, from MCP say, queues
  behind it (`Termination.DialogBlocksClose`). Nothing else can stop a close: no step that must
  come is left exactly when all is finished but requests at an open dialog and the requests queued
  for a lock held there, and with the context over exactly when all is finished
  (`Progress.StuckExactlyAtDialogs`).
- `useProxyHealth` does not settle every mounted card. Cards of one profile share one `wanted`
  entry, which the last mount overwrites and an unmount restores to nobody: mount one card, mount
  another with a different proxy, unmount that one, and the first shows "checking" for good
  (`ProxyHealth.TwoProxies`). A mounted card shows a result exactly when its key is that of the last
  card of its profile to mount, so always when all mounts of the profile have one key
  (`ProxyHealth.SettledCards`, `ProxyHealth.SameProxySettles`). This is an input of the hook's
  interface: its two callers, ProfileRow and ProfileTile, pass the proxy of the same profile object.
- `setChromixFlag` obeys the set/get law and is idempotent exactly when the name has no "=" or the
  value is undefined; with such a name every further call appends another argument
  (`ChromixFlags.SetThenRead`, `ChromixFlags.SetIsIdempotent`). No catalog name has one.
- A boolean SDK field reads back what was set only for true, false, null and undefined
  (`ChromixFlags.SdkSetThenRead`), and the FakeShadowRoot switch only for true, false and undefined
  (`ChromixFlags.ShadowRootReadsBack`). Rewriting a feature list drops empty tokens when no other
  token is left (`ChromixFlags.FeatureLaw`).
- The key of a proxy joins its parts without escaping them, so a user name or password with a colon
  can give two proxies one key (`ProxyHealth.KeysCollide`); changing one part always changes it
  (`ProxyHealth.PartChangesKey`).
- A failed archive import may leave empty directories: the data directory's `profiles` and
  `extensions`, what was missing above them, and `extensions/<id>` for ids in the manifest.
  Nothing else (`ArchiveImport.Store.ImportArchive`).

## Model

| member | source | states |
|---|---|---|
| DebuggerTables.RegisteredSound | desktop/internal/debugger/manager.go:84-93 | registering an attach for a profile that is not barred keeps sessions and profiles exact inverses without empty sets, and the closing barrier |
| DebuggerTables.PublishedSound | desktop/internal/debugger/manager.go:179-195 | so does publishing an attach that is pending and not cancelled: such a profile is never barred |
| DebuggerTables.RemovedSound | desktop/internal/debugger/manager.go:261-271 | so does removing one session |
| DebuggerTables.ProfileTakenSound | desktop/internal/debugger/manager.go:291-302 | so does the first section of CloseProfile, after which the profile is barred |
| DebuggerTables.ProfileReleasedSound | desktop/internal/debugger/manager.go:303-310 | so does its second section, which lowers the closing counter |
| DebuggerTables.AllTakenSound | desktop/internal/debugger/manager.go:312-328 | so does the section of Close |
| DebuggerTables.Manager.Enter | desktop/internal/debugger/manager.go:84-93 | Attach is refused for an empty id, a closed manager or a closing profile, and otherwise registered |
| DebuggerTables.Manager.Publish | desktop/internal/debugger/manager.go:179-195 | an attach publishes exactly when its context is not cancelled, and then is indexed, no longer pending and done |
| DebuggerTables.Manager.Abandon | desktop/internal/debugger/manager.go:94-110 | an attach that does not publish is forgotten and its done channel closed |
| DebuggerTables.Manager.RemoveLocked | desktop/internal/debugger/manager.go:261-271 | removal reports whether the session was there and keeps the index exact |
| DebuggerTables.Manager.TakeProfile | desktop/internal/debugger/manager.go:291-302 | CloseProfile cancels every pending attach, takes every session of the profile and bars it |
| DebuggerTables.Manager.ReleaseProfile | desktop/internal/debugger/manager.go:303-310 | the counter goes down by one and its entry goes with the last closer |
| DebuggerTables.Manager.TakeAll | desktop/internal/debugger/manager.go:312-328 | Close takes every session and cancels every pending attach |
| DebuggerProtocol.StepInv | desktop/internal/debugger/manager.go:77-339 | every step of Attach, Detach, CloseProfile and Close keeps the protocol's invariant |
| DebuggerProtocol.BarredProfile | desktop/internal/debugger/manager.go:84-93 | in every run, while a profile is closing or the manager closed, none of its sessions is indexed, all its pending attaches are cancelled, and one that tries to publish unwinds |
| DebuggerProtocol.RelockFindsNothing | desktop/internal/debugger/manager.go:291-311 | when CloseProfile locks again after its drain, the profile has neither pending attaches nor sessions |
| DebuggerProtocol.AfterClose | desktop/internal/debugger/manager.go:312-339 | from the return of Close on nothing is indexed or pending, and every child ever started is closed or in the hands of a closer still running |
| DebuggerProtocol.DoneOnce | desktop/internal/debugger/manager.go:94-110 | in every run the done channel of an attach is closed exactly once, when it stops being pending |
| DebuggerProtocol.StoppedOnce | desktop/internal/debugger/manager.go:272-290 | the child of a published session is closed at most once by a stopper and announced by exactly one "detached" event |
| DebuggerProtocol.FirstReadIsRemembered | desktop/internal/debugger/manager.go:114-117 | the endpoint an attach remembers is the one its first reading in the run brought |
| DebuggerProtocol.SecondReadMatches | desktop/internal/debugger/manager.go:169-172 | in every run an attach that is verified, indexed, taken or detached has read the URL of its first reading again, in a second reading of the run |
| DebuggerProtocol.MismatchNeverIndexed | desktop/internal/debugger/manager.go:169-172 | an attach whose second reading brought another URL is not indexed in any later state |
| DebuggerProtocol.PublishedExactly | desktop/internal/debugger/manager.go:169-195 | the second reading lets an attach go on exactly on the same URL, and it is then indexed under its profile exactly if neither its own context nor a close that covers it has cancelled it since it began |
| DebuggerProtocol.LeavesExactly | desktop/internal/debugger/manager.go:261-328 | a session leaves the index exactly by its own Detach, CloseProfile of its profile or Close, and whoever takes it out has its child to stop |
| DebuggerProtocol.ChildIsTracked | desktop/internal/debugger/manager.go:94-158 | an attach has a child exactly from the step that started it, and that is closed exactly from the step that shut it |
| DebuggerProtocol.NoChildIsLeft | desktop/internal/debugger/manager.go:94-110 | a failed attach and a detached session have closed whatever child they started |
| BrowserLifecycle.StepInv | desktop/internal/browser/manager.go:80-405 | every step of Launch, CloseProfile, Shutdown, stop, watch and process exit keeps the registry's invariant |
| BrowserLifecycle.OneLiveProcess | desktop/internal/browser/manager.go:91-280 | in every run at most one process started by Launch is alive per profile |
| BrowserLifecycle.FailedLaunchIsDead | desktop/internal/browser/manager.go:225-271 | a Launch that returned an error left its process dead, unpublished, un-indexed and without events |
| BrowserLifecycle.EventsInOrder | desktop/internal/browser/manager.go:272-279 | per published instance one "launched" then one "closed"; un-indexed before "closed", `finished` after it |
| BrowserLifecycle.CloseIsComplete | desktop/internal/browser/manager.go:373-405 | when CloseProfile or Shutdown returns, its profiles are un-indexed and every instance it met has finished |
| BrowserLifecycle.FoundIsFinished | desktop/internal/browser/manager.go:373-391 | in every run, a close that found an instance has returned only if that instance has emitted "closed" and finished |
| BrowserLifecycle.AfterShutdown | desktop/internal/browser/manager.go:392-405 | after Shutdown nothing is indexed, no Launch publishes, and every later Launch fails on the cancelled context |
| BrowserLifecycle.AlreadyRunningLives | desktop/internal/browser/manager.go:107-115 | a Launch answers "already running" only with an instance that is not stopping, and that this same call found indexed for its profile while it was alive |
| BrowserLifecycle.StartedCameUp | desktop/internal/browser/manager.go:247-280 | a Launch answers with a new instance only if in this same call its process came up while alive |
| BrowserLifecycle.StartedBy | desktop/internal/browser/manager.go:133-222 | every instance was started by a Launch of its profile, with the endpoint it has |
| BrowserLifecycle.RefusedForACause | desktop/internal/browser/manager.go:104-132 | a Launch that fails without a process failed to prepare or came after a Shutdown had begun |
| BrowserLifecycle.AnswersItsRequest | desktop/internal/browser/manager.go:91-115 | what an operation returns answers the request made under its id: same kind, and an instance of the same profile |
| BrowserLifecycle.MarkedByClose | desktop/internal/browser/manager.go:373-391 | an instance is marked as closed by the user exactly if a close has found it in the index |
| BrowserLifecycle.ClosedReason | desktop/internal/browser/manager.go:354-372 | the "closed" event gives the user as its reason exactly if a close had found the instance before watch un-indexed it |
| BrowserLifecycle.StoppedExactly | desktop/internal/browser/manager.go:324-353 | a process is being stopped exactly if its bridge went down, its Launch gave up or a close came to it, and is gone exactly if it has exited |
| BrowserLifecycle.ClosesItsOwn | desktop/internal/browser/manager.go:373-391 | CloseProfile marks and stops no instance of another profile |
| BrowserLifecycle.Manager.Find | desktop/internal/browser/manager.go:80-88 | get returns the indexed instance exactly when it lives and is neither stopping nor being closed |
| BrowserLifecycle.Manager.PublishInstance | desktop/internal/browser/manager.go:272-274 | publishing indexes the instance under its profile |
| BrowserLifecycle.Manager.EnterStop | desktop/internal/browser/manager.go:324-353 | every caller of stop marks the instance as stopping, one of them runs its body |
| BrowserLifecycle.Manager.UnindexInstance | desktop/internal/browser/manager.go:354-372 | watch removes the instance only from its own index entry and keeps the reason |
| BrowserLifecycle.Manager.MarkForClose | desktop/internal/browser/manager.go:378-391 | a close marks the indexed instance as closed by the user |
| BrowserLifecycle.Manager.RunningIds | desktop/internal/browser/manager.go:392-405 | Shutdown's snapshot lists every running profile exactly once |
| Lifecycle.StepInv | desktop/service.go:102-110 | every step of the two managers wired together keeps their joint invariant |
| Lifecycle.CloseKills | desktop/internal/debugger/manager.go:291-311 | after the first section of CloseProfile no attach or session of the profile is indexed or can publish |
| Lifecycle.GetIsFresh | desktop/internal/browser/manager.go:80-88 | an endpoint that get returns belongs to a published instance whose watcher is still waiting |
| Lifecycle.NoStaleSession | desktop/internal/browser/manager.go:354-372 | once the "closed" handlers of a browser incarnation have run, no session whose attach first read its endpoint is indexed, then or later, and none can publish |
| Progress.StepInv | desktop/service.go:198-205 | every step of requests, locks, gates and managers keeps the joint invariant |
| Progress.AttachMoves | desktop/internal/debugger/manager.go:77-207 | an unfinished attach always has a step of its own that must come |
| Progress.CloserMoves | desktop/internal/debugger/manager.go:329-339 | a closer waits only for attaches and for the sessions it took |
| Progress.WatcherMoves | desktop/internal/browser/manager.go:354-372 | a watcher whose process is gone waits only for the closer run by its handler |
| Progress.TurnMoves | desktop/internal/browser/manager.go:373-405 | the owner of `operations` waits only for stop and for watchers |
| Progress.RequestMoves | desktop/service.go:198-256 | a request waits only for a closer, a browser operation, the user while its dialog is open, or the holder of its profile lock |
| Progress.CallMoves | desktop/internal/debugger/manager.go:340-367 | a call waits only for the gate's owner or for the CloseProfile it runs inside the gate |
| Progress.GateJudges | desktop/internal/debugger/manager.go:354-366 | inside the gate a call goes on exactly if its profile is still served, by a live instance not being closed, at the URL the session was attached to |
| Progress.StaleCloses | desktop/internal/debugger/manager.go:363-366 | otherwise it closes its profile: its own session is neither indexed nor able to publish |
| Progress.NoDeadlock | desktop/service.go:253-282 | there is no wait cycle: in every state of the invariant with anything unfinished but open dialogs and what is queued behind them, some step that must come is enabled |
| Progress.StuckExactlyAtDialogs | desktop/service.go:392-411 | no step that must come is enabled exactly when only requests at an open dialog, and requests queued for a lock held there, are left; with the context over, exactly when nothing is left |
| Termination.StepLowers | desktop/internal/debugger/manager.go:291-339 | every step by which nothing new begins lowers a rank on all waiters |
| Termination.NoInfiniteRun | desktop/internal/browser/manager.go:354-391 | so there is no infinite run in which nothing new begins |
| Termination.StuckIsDone | desktop/service.go:150-173 | so in every run: a reached state stands still exactly at open dialogs, and after the context's end only with every close returned |
| Termination.DialogBlocksClose | desktop/service.go:198-205 | a run in which a close waits behind an export's open dialog and nothing must come any more |
| Termination.EveryCloseCanReturn | desktop/service.go:150-173 | from every state of the invariant steps that must come lead to such a state; with the context over, to one with every close returned |
| ServiceLifecycle.StepInv | desktop/service.go:132-205 | every step of Invoke, the companion loop, the startup tasks and Close keeps the service's invariant |
| ServiceLifecycle.CloseBeatsRelaunch | desktop/service.go:552-607 | in every run, after a profiles_close or profiles_delete has returned, no companion poller of the profile that existed then ever launches it again |
| ServiceLifecycle.OneAtATime | desktop/service.go:198-205 | in every run, of the closes, deletes, launches and exports of a profile and the relaunches by its pollers at most one is between taking the lock and giving it back |
| ServiceLifecycle.CancelledExactly | desktop/service.go:543-607 | a poller is cancelled only by itself or by a close, delete or launch of its profile, and having the lock it relaunches exactly if neither it nor the service has been cancelled |
| ServiceLifecycle.LaunchHasCompanion | desktop/service.go:552-564 | a launch that succeeded ends only once its companion runs, unless the context was over |
| ServiceLifecycle.InvokesAreAdmitted | desktop/service.go:175-189 | the requests there are, with their commands, are exactly the admitted ones |
| ServiceLifecycle.OneCompanion | desktop/service.go:543-607 | while a profile's lock is free at most one of its companions is uncancelled, and it is the registered one |
| ServiceLifecycle.OrderedShutdown | desktop/service.go:150-173 | with the flag set no request is admitted, after the active drain no background task is added, after the store is closed nobody uses it |
| ServiceLifecycle.InvokeCounts | desktop/service.go:175-205 | an Invoke that has not returned is counted as active |
| ServiceLifecycle.Desktop.Enter | desktop/service.go:175-189 | a request is admitted and counted exactly while the closing flag is down |
| ServiceLifecycle.Desktop.StopCompanion | desktop/service.go:543-550 | the registered companion is cancelled and forgotten, any other left alone |
| ServiceLifecycle.Desktop.StartCompanion | desktop/service.go:552-607 | startCompanion does nothing under a cancelled context, and otherwise leaves the new companion registered and running in the old one's place |
| ServiceLifecycle.StartsInOrder | desktop/service.go:552-564 | that is where the steps of the interleaved machine lead in the code's order: stop the old, make, register, run |
| ServiceLifecycle.OneStarted | desktop/service.go:543-560 | afterwards the registered companion is the new one, the one before it is cancelled, every other untouched |
| ServiceShutdown.StepLowers | desktop/service.go:150-173 | once the context is over every step of a request, poller, startup task or Close lowers a rank |
| ServiceShutdown.NeverStuck | desktop/service.go:150-173 | and until the store is closed some such step is possible: no lock or wait group holds Close up |
| ServiceShutdown.StillExactlyWhenClosed | desktop/service.go:150-173 | so the service stands still exactly when Close has closed the store |
| ServiceShutdown.EndIsBounded | desktop/service.go:150-173 | however the run goes on, it has at most as many such steps as the rank |
| ServiceShutdown.CloseCompletes | desktop/service.go:150-173 | and from any such point of any run they lead to the closed store |
| CdpClient.NobodyBlocks | desktop/internal/browser/cdp.go:72-117 | each reply channel gets at most one send, so neither the reader nor Close blocks |
| CdpClient.OwnChannel | desktop/internal/browser/cdp.go:109-137 | the channel that a request made and registered receives no answer but one bearing that request's id |
| CdpClient.OwnAnswer | desktop/internal/browser/cdp.go:118-173 | a request succeeds only with the answer that carries its own id |
| CdpClient.FirstAnswerReturned | desktop/internal/browser/cdp.go:84-173 | a request returns the first answer read for it after it registered, payload and all; the closing of the connection only after Close drained; nothing only if it gave up or done was closed |
| CdpClient.DrainAnswersAll | desktop/internal/browser/cdp.go:72-117 | once Close has drained and the reader has sent what it held, every request that waits has its reply |
| CdpClient.IdsCountUp | desktop/internal/browser/cdp.go:128-139 | ids count up from one, a request each and none twice |
| CdpClient.StillExactlyWhenDone | desktop/internal/browser/cdp.go:72-173 | a run without new requests and messages stands still exactly when every request has returned and reader and Close are over |
| CdpClient.NothingPendingAfterClose | desktop/internal/browser/cdp.go:72-83 | after Close's drain the pending map is empty in all later states |
| CdpClient.Connection.Register | desktop/internal/browser/cdp.go:118-139 | a request registers exactly when done is open |
| CdpClient.Connection.Claim | desktop/internal/browser/cdp.go:84-117 | the reader takes a pending request out of the map before it replies, and ignores the others |
| CdpClient.Connection.DrainPending | desktop/internal/browser/cdp.go:72-83 | Close answers every pending request with an error and leaves none |
| DebugWriter.TakenInOrder | desktop/internal/debugger/client.go:113-131 | the writer takes items in the order they were queued, none twice |
| DebugWriter.BytesAreFrames | desktop/internal/debugger/client.go:113-158 | the bytes written are the whole newline-terminated frames of the taken items whose context was not over at that moment, in order, then at most one cut frame after which nothing is written; a line reader recovers exactly those items |
| DebugWriter.SkippedExactlyCancelled | desktop/internal/debugger/client.go:113-122 | in every run a taken item is skipped exactly when its context was cancelled before the step that took it |
| DebugWriter.LinesOfRender | desktop/internal/debugger/client.go:113-131 | reading lines inverts writing frames |
| DebugWriter.WriterNeverBlocks | desktop/internal/debugger/client.go:94-158 | failure is set exactly when done is closed, and the writer's reply to a sender that left goes through |
| DebugWriter.FirstCauseStays | desktop/internal/debugger/client.go:94-112 | in every run the first cause of failure is the one reported ever after |
| DebugWriter.QueuedAsOffered | desktop/internal/debugger/client.go:132-147 | what is queued, and so what is written, is what its sender offered |
| DebugWriter.NoReplyIsLost | desktop/internal/debugger/client.go:113-158 | a sender that waits has its item queued or being written, or its reply at hand |
| DebugWriter.LeavesForACause | desktop/internal/debugger/client.go:141-157 | a sender leaves with its reply, or once the client has failed or its own context is over |
| DebugWriter.QueueIsSmall | desktop/internal/debugger/client.go:132-147 | at most 32 messages are queued, none over one mebibyte |
| DebugWriter.StillOnlyWhenDone | desktop/internal/debugger/client.go:113-158 | a run in which nothing more comes from outside stands still only when every sender has left |
| DebugWriter.Stream.RecordFailure | desktop/internal/debugger/client.go:94-104 | fail records a cause and closes done once |
| DebugWriter.Stream.WriteNext | desktop/internal/debugger/client.go:113-131 | one turn of the write loop skips a cancelled item, writes a whole frame and goes on, or fails and stops |
| DebugRpc.IdTextInjective | desktop/internal/debugger/client.go:243-262 | different requests have different id texts |
| DebugRpc.OwnReply | desktop/internal/debugger/client.go:243-284 | a request returns only a reply bearing its own id |
| DebugRpc.FirstReplyReturned | desktop/internal/debugger/client.go:171-284 | a request returns, whole, the first reply that came in for it after it began; without one, only by giving up |
| DebugRpc.StillExactlyWhenDone | desktop/internal/debugger/client.go:243-284 | nobody waits for another request: until all have returned one of them can move |
| DebugRpc.PendingIsExact | desktop/internal/debugger/client.go:171-242 | the pending table holds exactly the requests that have not returned |
| DebugRpc.Correlator.BeginRequest | desktop/internal/debugger/client.go:243-262 | a request takes the next number and is registered under its text |
| DebugRpc.Correlator.Route | desktop/internal/debugger/client.go:171-242 | a message reaches the request it names, at most once, and nobody else |
| McpSessions.RequestKeyInjective | desktop/internal/mcp/sessions.go:44-52 | a string id and a number id never share a key, nor do different ids of one kind |
| McpSessions.NegotiatedProtocol | desktop/internal/mcp/sessions.go:32-42 | the answer is a supported protocol: the one asked for if that is supported, the oldest for none, 2025-06-18 for an unknown one |
| McpSessions.StepInv | desktop/internal/mcp/sessions.go:54-205 | every request, completion, deletion and sweep keeps the table's invariant |
| McpSessions.TableBounds | desktop/internal/mcp/sessions.go:91-175 | at most 256 sessions and 128 active ids each; an active map is exactly the session's keyed requests in flight |
| McpSessions.OnlyIdleExpire | desktop/internal/mcp/sessions.go:54-61 | a session leaves the table only by its own deletion, the final sweep, or with no active request and no use within the idle limit |
| McpSessions.IdleLeave | desktop/internal/mcp/sessions.go:54-61 | and every lookup on an open server removes each session idle for 1800 seconds |
| McpSessions.FoundIff | desktop/internal/mcp/sessions.go:64-89 | a session is found exactly if the server is open and well-formed headers name one that has not expired, under its own protocol |
| McpSessions.MalformedIsInvalid | desktop/internal/mcp/sessions.go:91-102 | a message that is no request is refused before any session is looked at |
| McpSessions.KeyedAnswer | desktop/internal/mcp/sessions.go:151-170 | a keyed request is refused exactly while one with the same typed id is in flight in its session or 128 others are, and otherwise in flight from then on |
| McpSessions.InitializeAnswer | desktop/internal/mcp/sessions.go:124-150 | initialize opens a session exactly without a session id, while fewer than 256 are unexpired |
| McpSessions.ProtocolIsNegotiated | desktop/internal/mcp/sessions.go:142-143 | in every run the protocol of a session is what the initialize call that made it negotiated |
| McpSessions.LastUseIsTheLast | desktop/internal/mcp/sessions.go:86-174 | in every run the last use on record is the last time a request named the session or one of its requests ended |
| McpSessions.CancelIsExact | desktop/internal/mcp/sessions.go:91-175 | a cancellation cancels exactly the request with the same typed id in the same session |
| McpSessions.DeleteCancelsAll | desktop/internal/mcp/sessions.go:177-194 | deleting a session removes it and cancels everything it runs |
| McpSessions.EmptyAfterClose | desktop/internal/mcp/sessions.go:196-205 | once closed and swept the table is empty in every later state of the run, and all that ran is cancelled |
| McpSessions.SessionTable.ExpireSessions | desktop/internal/mcp/sessions.go:54-61 | the loop removes exactly the idle sessions |
| McpSessions.SessionTable.CloseSessions | desktop/internal/mcp/sessions.go:196-205 | the loop empties the table and cancels what its sessions run |
| McpSessions.SessionTable.FinishRequest | desktop/internal/mcp/sessions.go:162-175 | a finished request leaves its session's active map and refreshes its last use |
| ArchiveFraming.ReadChunkIff | desktop/internal/store/archive.go:88-110 | reading a chunk succeeds exactly on a written chunk and whatever follows it |
| ArchiveFraming.ChunksInjective | desktop/internal/store/archive.go:88-110 | different contents never serialize to the same bytes |
| ArchiveFraming.VerifyIff | desktop/internal/store/archive.go:279-301 | verifyFiles succeeds exactly when paths are safe and distinct, sizes and hashes match, and the bytes are the chunks of the contents |
| ArchiveFraming.BigEndianOrder | desktop/internal/store/archive.go:88-110 | the length of a chunk stands before it, in four bytes, highest first |
| ArchiveFraming.ValidPathIff | desktop/internal/store/archive.go:224-234 | a safe path is one or more ordinary names joined by slashes: relative, never leading upwards |
| ArchiveFraming.ParseIff | desktop/internal/store/archive.go:311-345 | an import parses exactly the byte-for-byte canonical serialization of what it reads, with nothing left over |
| ArchiveFraming.ExportParses | desktop/internal/store/archive.go:156-210 | parsing what export lays out recovers that manifest and that partition of contents; refused only for a profile the importer finds invalid |
| ArchiveFraming.ExportHoldsTheProfile | desktop/internal/store/archive.go:156-210 | against the inputs: the parsed archive holds the profile, each of its files in order with path, size, hash and content, and the same for each exported extension under its id and version |
| ArchiveFraming.ExportRefusals | desktop/internal/store/archive.go:165-191 | an export is refused exactly for a directory that cannot be archived, or a chunk over 4 GiB |
| ArchiveFraming.FileRefusals | desktop/internal/store/archive.go:156-172 | and before that for a passphrase under eight bytes, then for a missing profile |
| ArchiveFraming.SealOpens | desktop/internal/store/archive.go:54-87 | what was encrypted under a passphrase decrypts to the same bytes |
| ArchiveFraming.DecryptIff | desktop/internal/store/archive.go:69-87 | a file opens exactly when it is long enough, has the magic and version 1 or 2, and the cipher accepts it |
| ArchiveFraming.ArchiveRoundTrip | desktop/internal/store/archive.go:156-210 | an exported file starts with the magic and version 2, and opened with its passphrase it parses to an archive that holds exactly the profile, its files and its exported extensions |
| ArchiveFraming.Reader.ReadNext | desktop/internal/store/archive.go:98-110 | readChunk takes one chunk off the cursor, or leaves it |
| ArchiveFraming.Reader.VerifyAll | desktop/internal/store/archive.go:279-301 | the verification loop agrees with its specification, errors included |
| ArchiveFraming.Reader.ParseArchive | desktop/internal/store/archive.go:311-345 | so does the parsing part of ImportArchive |
| ArchiveFraming.WriteChunks | desktop/internal/store/archive.go:192-204 | the writing loop emits manifest and contents in order, or refuses a chunk over 4 GiB |
| ArchiveFraming.CollectExtensions | desktop/internal/store/archive.go:174-191 | the export loop takes exactly the shared extensions whose directory exists |
| ArchiveFraming.ExportArchive | desktop/internal/store/archive.go:156-210 | the whole export, with its refusals |
| ArchiveImport.Store.EnsureDirectory | desktop/internal/store/archive.go:236-259 | creates only missing ancestors; succeeds only if the path is a directory |
| ArchiveImport.Store.WriteGuarded | desktop/internal/store/archive.go:260-278 | writes one new file below the root and never replaces anything |
| ArchiveImport.Store.Fill | desktop/internal/store/archive.go:387-391 | the staging loop leaves exactly the manifest's files with their bytes, and the directories they need |
| ArchiveImport.Store.ChooseId | desktop/internal/store/archive.go:361-381 | the profile keeps its id if it is safe and unused, else gets a safe unused one |
| ArchiveImport.Store.RestoreExtension | desktop/internal/store/archive.go:402-439 | an extension directory that exists is kept; a new one holds exactly the archived files; a failure leaves only parent directories |
| ArchiveImport.ExtensionDirIs | desktop/internal/store/archive.go:406-414 | a safe version names its own directory below extensions and the id, any other goes to "0" |
| ArchiveImport.OwnFilesAtOwnPath | desktop/internal/store/archive.go:402-439 | after an import an entry with a safe id that is the first to go to its directory, unused before, has exactly its own files there |
| ArchiveImport.SafeSegmentIsAName | desktop/internal/store/archive.go:212-223 | a safe segment is one ordinary name of at most 128 characters |
| ArchiveImport.Store.RestoreExtensions | desktop/internal/store/archive.go:401-439 | after the loop every safe extension has its directory, and earlier nodes are untouched |
| ArchiveImport.Store.RollBack | desktop/internal/store/archive.go:394-400 | the deferred loop removes everything that was created |
| ArchiveImport.Store.ImportParsed | desktop/internal/store/archive.go:346-475 | all or nothing: on failure no row and only leftover directories; on success the new row's directory holds exactly the manifest's files |
| ArchiveImport.Store.ImportArchive | desktop/internal/store/archive.go:302-475 | the same from the bytes of the archive file, which is refused without any change if it does not open or parse |
| ArchiveImport.SharedReferenceLands | desktop/internal/store/archive.go:445-451 | a shared reference to an archived extension points at the directory of that id and version, and that is there |
| ArchiveImport.PrivateReferenceLands | desktop/internal/store/archive.go:452-461 | a private reference points inside the new profile directory, at the restored files |
| ArchiveImport.UnchangedReference | desktop/internal/store/archive.go:445-461 | any other reference is left as it was written, and no other is |
| ArchiveImport.ProfileLands | desktop/internal/store/archive.go:440-475 | the row has the new id, the parsed profile and a directory of that name, which was unused and holds exactly the manifest's files |
| ArchiveImport.ExportThenImport | desktop/internal/store/archive.go:302-475 | from end to end: an import of an exported file that succeeds has the exported profile's own files, and no others, in its new directory |
| ArchiveImport.ExtensionTravels | desktop/internal/store/archive.go:402-439 | and each exported extension's files in the directory of its id and version, if that was unused |
| ArchiveImport.KeyInjective | desktop/internal/store/archive.go:415-415 | extension keys joined by a zero byte are unambiguous for safe ids |
| ProxyHealth.StepInv | desktop/frontend/src/lib/proxyHealth.ts:49-170 | every callback keeps the scheduler's invariant |
| ProxyHealth.Bounded | desktop/frontend/src/lib/proxyHealth.ts:49-66 | at most three probes run, none waits beside a free slot, they start in queue order, and a profile has at most one pending |
| ProxyHealth.BackgroundLowers | desktop/frontend/src/lib/proxyHealth.ts:79-114 | every step without a user action lowers a rank |
| ProxyHealth.BackgroundEnds | desktop/frontend/src/lib/proxyHealth.ts:79-114 | so without user actions only that many steps happen |
| ProxyHealth.NeverStuck | desktop/frontend/src/lib/proxyHealth.ts:49-114 | until nothing is queued, running or in flight, such a step is enabled |
| ProxyHealth.SettledCards | desktop/frontend/src/lib/proxyHealth.ts:121-180 | then a mounted card shows a result exactly when its key is that of the last card of its profile to mount |
| ProxyHealth.SameProxySettles | desktop/frontend/src/lib/proxyHealth.ts:121-180 | so no card is left on "checking" if all mounts of its profile have one key |
| ProxyHealth.TwoProxies | desktop/frontend/src/lib/proxyHealth.ts:130-156 | a run of two mounts and an unmount that leaves the only mounted card on "checking" |
| ProxyHealth.SupersededOnce | desktop/frontend/src/lib/proxyHealth.ts:101-109 | without user actions at most one superseding probe per profile, and only for an outdated one |
| ProxyHealth.ShownIsTheLastOutcome | desktop/frontend/src/lib/proxyHealth.ts:79-114 | a result that a card shows is the outcome of the probe of its profile that settled last, through a proxy with the card's key |
| ProxyHealth.PartChangesKey | desktop/frontend/src/lib/proxyHealth.ts:68-72 | a proxy with one part changed, the password say, has the same key exactly if that part is the same |
| ProxyHealth.KeysCollide | desktop/frontend/src/lib/proxyHealth.ts:68-72 | two proxies that differ in two parts can share a key, because the parts are not escaped |
| ProxyHealth.RecheckProbes | desktop/frontend/src/lib/proxyHealth.ts:162-170 | a recheck starts a probe of the card's proxy and the card shows "checking", unless one of the profile is in flight |
| ProxyHealth.MountProbes | desktop/frontend/src/lib/proxyHealth.ts:130-148 | a mount starts a probe exactly if none is in flight and the cache has no result for the key younger than five minutes |
| ProxyHealth.Scheduler.PumpJobs | desktop/frontend/src/lib/proxyHealth.ts:49-56 | the pump loop starts queued jobs while a slot is free |
| ProxyHealth.Scheduler.ProbeProfile | desktop/frontend/src/lib/proxyHealth.ts:79-114 | a probe is started unless one is in flight |
| ProxyHealth.Scheduler.OnMount | desktop/frontend/src/lib/proxyHealth.ts:130-148 | mounting records what is wanted and probes unless the cache is fresh |
| ProxyHealth.Scheduler.OnUnmount | desktop/frontend/src/lib/proxyHealth.ts:150-156 | the last card of a profile takes its wanted entry with it |
| ProxyHealth.Scheduler.OnProbeOver | desktop/frontend/src/lib/proxyHealth.ts:101-109 | a finished probe leaves and is superseded if the wanted key differs |
| SocksBridge.StepInv | desktop/internal/browser/proxy.go:82-136 | every step of accept, serve, dial and Close keeps the accounting |
| SocksBridge.OneOwner | desktop/internal/browser/proxy.go:107-122 | an open connection not in hand is tracked under exactly one key, owned by exactly one goroutine, across the swap to the wrapper |
| SocksBridge.ClosedForGood | desktop/internal/browser/proxy.go:123-136 | after Close nothing is added, and whatever is tracked is closed |
| SocksBridge.CloseIsComplete | desktop/internal/browser/proxy.go:123-136 | when the wait group is down every connection is closed and none tracked, for good |
| SocksBridge.ServedStaysUp | desktop/internal/browser/proxy.go:82-122 | while the bridge is open it closes no connection of a client still being served |
| SocksBridge.EndsForACause | desktop/internal/browser/proxy.go:168-222 | a goroutine lets go of its connections only on a failure, the end of its relay or a closed bridge |
| SocksBridge.CleanEndShutsBoth | desktop/internal/browser/proxy.go:214-222 | a relay that ends cleanly has closed both of its connections, for good |
| SocksBridge.NeverStuck | desktop/internal/browser/proxy.go:168-222 | until then some step must come, because Close has closed the connection each goroutine waits on, the listener and the dials' context |
| SocksBridge.ClosedLowers | desktop/internal/browser/proxy.go:235-332 | after Close every step, on every success and error path of dial, lowers a rank |
| SocksBridge.CloseReturns | desktop/internal/browser/proxy.go:123-136 | so after Close a run has at most that many more steps, and stands still only with the wait group down, every connection closed and none tracked |
| SocksBridge.Bridge.TrackConn | desktop/internal/browser/proxy.go:107-116 | a connection is tracked, or closed once the bridge is |
| SocksBridge.Bridge.SwapConn | desktop/internal/browser/proxy.go:322-331 | the wrapper replaces the original under one lock, or both are gone |
| SocksBridge.Bridge.CloseAll | desktop/internal/browser/proxy.go:123-134 | the loop closes every tracked connection |
| ChromixFlags.ArgumentReads | desktop/frontend/src/lib/chromixFingerprint.ts:150-158 | an argument's name and value read back as they were joined |
| ChromixFlags.LastBearerIsRead | desktop/frontend/src/lib/chromixFingerprint.ts:150-163 | a flag reads as the last argument that is its name, or its name, "=" and a value; it counts them all and is absent exactly if there is none |
| ChromixFlags.EarlierAliasWins | desktop/frontend/src/lib/chromixFingerprint.ts:176-181 | the first alias in order that any argument bears is read, and the flag itself only if none is |
| ChromixFlags.SdkReads | desktop/frontend/src/lib/chromixFingerprint.ts:165-169 | an SDK field is present exactly if the option is there, and shows its value as text |
| ChromixFlags.DisableListWins | desktop/frontend/src/lib/chromixFingerprint.ts:170-175 | the feature reads "false" if a disable list has it, whatever the enable list has, and "true" if only that has it |
| ChromixFlags.FeatureTokenIff | desktop/frontend/src/lib/chromixFingerprint.ts:202-208 | the tokens that count are the name between white space, or followed by "<" or ":" |
| ChromixFlags.SetKeepsOthers | desktop/frontend/src/lib/chromixFingerprint.ts:184-200 | all other arguments keep value and order, and the name is left with exactly the new one |
| ChromixFlags.SetThenRead | desktop/frontend/src/lib/chromixFingerprint.ts:160-200 | the value set is read back, once, exactly when it is undefined or the name has no "=" |
| ChromixFlags.SetThenReadOther | desktop/frontend/src/lib/chromixFingerprint.ts:160-200 | every other flag reads as before |
| ChromixFlags.SetIsIdempotent | desktop/frontend/src/lib/chromixFingerprint.ts:184-200 | setting twice is setting once, under the same condition |
| ChromixFlags.ReadThenSet | desktop/frontend/src/lib/chromixFingerprint.ts:160-200 | setting what is read changes nothing exactly when the flag occurs at most once |
| ChromixFlags.FieldSetThenRead | desktop/frontend/src/lib/chromixFingerprint.ts:176-181 | a field set without a name goes to the alias that wins and reads back; unset, it reads as absent exactly when no other of its names is present |
| ChromixFlags.FieldSetByName | desktop/frontend/src/lib/chromixFingerprint.ts:224-236 | a name that is not the field's is refused |
| ChromixFlags.SdkSetThenRead | desktop/frontend/src/lib/chromixFingerprint.ts:224-232 | when an SDK field reads back, and that nothing else changes |
| ChromixFlags.FeatureLaw | desktop/frontend/src/lib/chromixFingerprint.ts:202-222 | one feature list contains FakeShadowRoot exactly when asked to and keeps its other features in order |
| ChromixFlags.ShadowRootReadsBack | desktop/frontend/src/lib/chromixFingerprint.ts:202-222 | the switch reads back true, false and unset |
| ChromixFlags.ShadowRootKeepsTheRest | desktop/frontend/src/lib/chromixFingerprint.ts:202-222 | all other features of both lists and all other arguments stay in order |
| ChromixFlags.ParseOfJoin | desktop/frontend/src/lib/chromixFingerprint.ts:238-245 | parsing inverts newline-joining exactly for well-formed arguments |
| ChromixFlags.RawTextIsItsLines | desktop/frontend/src/lib/chromixFingerprint.ts:238-245 | raw text gives all its lines that are not blank, in order, if each is well-formed, and else the error names the first that is not |
| ChromixFlags.LinesAreTheText | desktop/frontend/src/lib/chromixFingerprint.ts:238-239 | the lines joined by line feeds are the text, but for one return before a feed |
| ChromixFlags.WellFormedIff | desktop/frontend/src/lib/chromixFingerprint.ts:240-240 | a well-formed line matches the pattern of one argument and has no zero byte |
| ChromixFlags.ReplaceArgs | desktop/frontend/src/lib/chromixFingerprint.ts:184-196 | the loop replaces the first occurrence, drops the others or appends |
| ChromixFlags.SwitchShadowRoot | desktop/frontend/src/lib/chromixFingerprint.ts:210-222 | the two rounds over the enable and disable lists |
| ChromixFlags.ReadFirstAlias | desktop/frontend/src/lib/chromixFingerprint.ts:165-182 | the loop returns the first present alias, else the flag |

## Left out

- DebugWriter.BytesAreFrames: takes from the JSON encoder that a payload contains no newline.
- DebugRpc.OwnReply: the 64-bit counter is unbounded here, so its wrap-around is not modelled; nor are the cancellation note that a timed-out request sends and the closing of the client after an interrupted tool call.
- ArchiveFraming.ExportParses: JSON, hashing and profile validation are functions; the encoding of the exported manifest is taken to decode to it.
- ArchiveImport.Store.ImportArchive: os.RemoveAll is taken to succeed, fresh random ids and temporary names to be unused, and the two renames to go to paths that no other process creates meanwhile.
- ArchiveImport.Store.RestoreExtension: versions that are no safe path segment share the directory "0", so a directory may hold the files of another entry with the same id.
- Progress.NoDeadlock: killed processes are taken to exit, cancelled or timed-out I/O to return, and what a launch does before it starts a process to come to an end. The two waits of Service.Close for active requests and background tasks are in ServiceLifecycle and ServiceShutdown, not here.
- ServiceShutdown.CloseCompletes: the calls into the store and the managers that a request or poller makes are taken to return; what those of the managers wait for is in Progress.
- SocksBridge.CloseReturns: a read on a closed connection, Accept on a closed listener and a dial whose context is cancelled are taken to return; nothing else is.
- BrowserLifecycle.EventsInOrder: no order is claimed between the "closed" of an old instance and the "launched" of the next after an external exit, because the code has none.
- BrowserLifecycle.RefusedForACause: the refusal of an empty id or data directory, which comes before the check of the context, and the status events beside "launched" and "closed".
- ServiceLifecycle.CloseBeatsRelaunch: the relaunch step uses only the first check of the context under the lock, not the later ones, and may repeat while the lock is held; that allows more runs than the code has.
- ProxyHealth.SettledCards: country codes carried through "checking" and "error", re-rendering and wall-clock time beyond the freshness test are not modelled.
- ProxyHealth.NeverStuck: a running probe is taken to return or fail in the end.
- ChromixFlags.FieldSetThenRead: the catalog of fields and the validation of their values are data, not modelled; field names are taken to have no "=".
- Steps that the code performs back to back without another thread being able to tell, such as storing `stopping` and entering the once, are one step; random ids and tickets are fresh by construction.
- The goroutine of Attach that reports a child's own exit as an error status, "attached" events and screenshots of a session's state.
- CDP: attaching to targets, the active session, page dialogs and events; only requests, replies and Close.
- MCP: tools, the activity ring, transports other than HTTP, timeouts of server Close.
- The scanning of profile directories on disk (symlinks, special files) beyond its outcome, atomic writing of the archive file, and the database's own behaviour.
- Spawning processes, websockets, TLS, the Web Store, GitHub downloads, React components, styling, key definitions and version comparison.
