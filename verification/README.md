# WSA: verified model of the live worker, the order path and the client-side sync

This project models the parts of the platform that run for a long time and meet failures in any order, and proves what
they keep over whole runs. `dafny verify dfyconfig.toml` checks the whole project.

How the files are built: a module gives the steps of a component as functions on a value `State`, a class holds the
fields the source changes in place and proves each of its methods against those functions, `Next` turns one event of the
outside world into one step, and lemmas speak about `After(events)` for every sequence of events. An event that cannot
happen in a state is passed over, so every sequence is a run. A step is one stretch of source code between two awaits.

| file | component | source |
|---|---|---|
| `Supervisor.dfy`, `CopyWorker.dfy`, `Backoff.dfy` | registry, opening, failing, closing and backing off of streams | `scripts/wsa-copy-worker.ts` |
| `Journal.dfy` | OPEN/MODIFY/CLOSE events of one master stream | `scripts/wsa-copy-worker.ts` |
| `SelfCopy.dfy` | first-sight filter and the FIFO queue of self-copy | `scripts/wsa-copy-worker.ts` |
| `WorkspacePatches.dfy`, `WorkspaceSync.dfy` | combining patches; saving and loading the terminal workspace | `src/hooks/useTerminalWorkspace.ts` |
| `WorkspaceMerge.dfy`, `WorkspaceDocuments.dfy` | `mergeWorkspace` itself, and the save protocol on the documents it makes | `src/lib/terminal/workspace.ts` |
| `OrderRoutes.dfy`, `OrderProtocol.dfy` | one click of "Send order" from the browser to the worker | `src/hooks/useWebTrade.ts`, `deploy/aws/demo-order-gateway/index.ts` |
| `Gateway.dfy` | the worker processes and the table of commands behind every route of an order | `src/lib/gateway/` |
| `BatchRotation.dfy`, `TradeProjection.dfy`, `Coalescing.dfy` | account batches, trade rows and the single-flight loop of the risk worker | `scripts/wsa-risk-worker.ts` |
| `RateLimiter.dfy`, `Throttle.dfy` | request limiter of the web proxy, throttle of the live refreshes | `src/proxy.ts`, `src/hooks/useRealtimeUpdates.ts` |
| `Calendar.dfy`, `CurveRuns.dfy` | trade calendar, line of the account chart | `src/components/` |
| `Common.dfy` | what several modules use | |

## What turned out not to hold

Where the code does less than one would hope, the model keeps the code and a lemma says exactly when it holds:

- Screen and stored workspace agree, once settled, exactly for the settings that were neither given up to an
  unavailable storage (`WorkspaceSync.UnavailableStorageForgets`) nor overwritten by a failed request that the server
  applies late (`WorkspaceSync.LateRequestOverwrites`) and not saved since (`WorkspaceSync.ScreenAndStoredCopyAgree`).
  And `mergeWorkspace` is the override its callers treat it as exactly while no more than twenty broker addresses come
  together and the selected account is still there (`WorkspaceMerge.MergeIsOverrideExactly`). With a full list, adding
  one more address and clearing it within one pause leaves the screen without the first address of the list while the
  server keeps it (`WorkspaceDocuments.FullListParts`); taking the selected account off the list and putting it back
  within one pause clears the selection on the screen while the server keeps it (`WorkspaceDocuments.SelectionParts`).
- The journal of a master stream is faithful exactly while everything comes in turn: the broker's list at the
  synchronisation covers every position filed before, no callback writes about a position whose OPEN is still to be
  written or that the reconcile pass under way has written about, and at the end of a pass the positions it wrote
  nothing about are still as in its list (`Journal.JournalIsFaithful`). Out of turn it is spoilt for good
  (`Journal.FaithIsNotRegained`); a later replacement of the list is silent (`Journal.LateReplacementIsSilent`).
- A change waits for the next change or the next hiding of the page, if it was made while a request sent on the way
  out was under way, and its timer ran off before the answer, or if an error came
  (`WorkspaceSync.WhatWaitsIsSavedExactly`).
- On the platform's own route a problem without a warning rules the order out, except when the route says that the
  order could not be queued: the database may have written it although its answer was lost
  (`OrderProtocol.PlatformProblemRulesOutExactly`). Nor does a page in place of the route's answer, under a status of
  failure (`OrderRoutes.StrangePlatformWarnsExactly`), or a dropped change of levels.
- When a source of self-copy opens again, its events are sure to be executed in the order of their dispatch exactly if
  the old stream takes no callbacks any more and has settled everything (`SelfCopy.OrderSurvivesReopeningExactly`).
- A second pass over an unchanged broker picture writes nothing exactly when the times it reads can be read
  (`TradeProjection.SecondPassWritesNothing`): an unreadable time falls back to the current one.
- A request to evaluate is served exactly if it or a later one finds no loop, or if it falls into a pass that then
  succeeds while the worker is not stopping (`Coalescing.RequestIsServedExactly`). One that falls between the last
  test of `queued` and the callback of `finally` waits for the next request, however long
  (`Coalescing.LateRequestIsNotServed`).
- A request id reaches the broker at most once within three days of its first writing (`Gateway.AtMostOneRun`). Then
  housekeeping has deleted its row, and the same id, sent again, runs again (`Gateway.DeletedIdRunsAgain`).
- The browser warns that an order may exist whenever it reports a problem of its own, but an answer of something else
  on the way, such as a page of JSON under a status of success (`OrderRoutes.StrangePagePassesForARefusal`), can pass
  for a plain refusal (`OrderRoutes.StrangeAnswersWarnExactly` says for which answers).
- While accounts leave during the reading of the pages, an account that stays is returned if and only if it never
  slips over the edge between a page and the next (`BatchRotation.WhileAccountsOnlyLeave`), as "c" does behind pages
  of two when "a" leaves (`BatchRotation.LeavingHidesANeighbour`); whatever else changes, nothing is missed without
  such a slip (`BatchRotation.StayingAccountIsReturned`).
- The calendar cells of the years 0 to 99 show the trades of 1900 to 1999, because `new Date(year, ...)` reads such
  years so (`Calendar.CellsAndTileAgreeExactly`).

## Model

| member | source | states |
|---|---|---|
| RateLimiter.Proxy.SweepExpired | src/proxy.ts:60-66 | at most once a minute every bucket whose window is over leaves the map, and no other bucket changes |
| RateLimiter.Proxy.Handle | src/proxy.ts:88-132 | the admit/refuse answer with its remaining count, retry and reset figures, and the new buckets |
| RateLimiter.SweepIsInvisible | src/proxy.ts:60-103 | for every run under a clock that never goes back, each answer equals that of a limiter that never sweeps |
| RateLimiter.BucketsAreRecent | src/proxy.ts:60-66 | every bucket left after a request belongs to a window that began less than two minutes before |
| RateLimiter.BucketIsTheWindow | src/proxy.ts:96-103 | the bucket of a key counts exactly the requests since its window began, where windows are defined from the requests alone |
| RateLimiter.FirstOnesAreAdmitted | src/proxy.ts:96-131 | within each window exactly the first `limit` requests of a key are admitted, and the remaining count is what is left of the limit |
| RateLimiter.SlidingWindowBound | src/proxy.ts:88-132 | in any interval of one minute at most twice the limit of one key is admitted |
| RateLimiter.RetryAfterIsExact | src/proxy.ts:106-127 | a refused client that asks nothing for the retry seconds is in a new window then, and for no smaller number of seconds; the reset figure is the end of the window rounded up |
| RateLimiter.ResetIsTheEndOfTheWindow | src/proxy.ts:128-132 | the reset figure of every answer is the end of the window, rounded up to a second |
| Throttle.Throttled.Call | src/hooks/useRealtimeUpdates.ts:35-40 | runs at once, sets the one timer for the end of the gap, or does nothing while one is pending |
| Throttle.Throttled.Fire | src/hooks/useRealtimeUpdates.ts:29-33 | the action runs, the timer is forgotten and the gap starts anew |
| Throttle.Throttled.Cancel | src/hooks/useRealtimeUpdates.ts:41-44 | only the pending timer goes |
| Throttle.CallExactly | src/hooks/useRealtimeUpdates.ts:35-40 | a call when the gap is over runs at once, an earlier one sets the timer for the end of the gap, and a pending timer is left alone |
| Throttle.RunsAreApart | src/hooks/useRealtimeUpdates.ts:23-46 | over any run the i-th and j-th execution are at least (j - i) gaps apart |
| Throttle.RunsInAnInterval | src/hooks/useRealtimeUpdates.ts:23-46 | an interval of length L holds at most L / gap + 1 executions, whatever is called, fired and cancelled |
| Throttle.CallRunsWithinTheGap | src/hooks/useRealtimeUpdates.ts:35-40 | with punctual timers every call that is not cancelled is followed by an execution within the gap |
| WorkspacePatches.CombineAssociative | src/hooks/useTerminalWorkspace.ts:54-93 | combinePatches gives the same patch in either grouping, nested parts included |
| WorkspacePatches.CombineIdentityAndIdempotent | src/hooks/useTerminalWorkspace.ts:54-93 | the empty patch is its unit on both sides, and a patch combined with itself is itself |
| WorkspacePatches.LookupOfCombine | src/hooks/useTerminalWorkspace.ts:54-93 | a setting of the first patch survives unless the second names the same setting, which then wins |
| WorkspacePatches.MergeOfCombine | src/hooks/useTerminalWorkspace.ts:54-93 | applying two patches in turn is applying the combined patch once |
| WorkspaceSync.Hook.Update | src/hooks/useTerminalWorkspace.ts:168-180 | the change goes on the screen, into everything since mount and behind what is pending |
| WorkspaceSync.Hook.Send | src/hooks/useTerminalWorkspace.ts:138-145 | nothing while a send runs; otherwise what is pending is taken and sent, or the sender rests |
| WorkspaceSync.Hook.OnAnswer | src/hooks/useTerminalWorkspace.ts:146-166 | saved and unavailable go on to the next turn or a pause, an error puts the patch back in front of newer changes and stops |
| WorkspaceSync.Hook.OnPauseOver | src/hooks/useTerminalWorkspace.ts:141-162 | the next turn takes everything that is pending by then |
| WorkspaceSync.Hook.OnLoaded | src/hooks/useTerminalWorkspace.ts:183-209 | the loaded copy is shown with everything changed since mount on top |
| WorkspaceSync.FailedPatchWaitsAgain | src/hooks/useTerminalWorkspace.ts:154-158 | after an error nothing travels and the failed patch waits in front of the newer changes |
| WorkspaceSync.RestingSendsWhatWaits | src/hooks/useTerminalWorkspace.ts:138-145 | a send at rest takes everything that waits, with the keepalive it was asked with |
| WorkspaceSync.AnswerIsFollowedExactly | src/hooks/useTerminalWorkspace.ts:146-161 | when an answer is followed by a pause and the sending of exactly what waits, and when by rest |
| WorkspaceSync.WhatWaitsIsSavedExactly | src/hooks/useTerminalWorkspace.ts:138-166 | after any run, once the requests under way are saved nothing waits any more, if and only if no change waits at rest or behind a keepalive request |
| WorkspaceSync.ScreenShowsTheDevice | src/hooks/useTerminalWorkspace.ts:168-209 | until a stored copy is loaded the screen shows the copy of the device with every change on top |
| WorkspaceSync.NothingIsLost | src/hooks/useTerminalWorkspace.ts:138-209 | for every interleaving of changes, saves, errors, requests applied late and the load, each setting is on its way or waits, or else it is stored with its newest change if and only if it was neither given up to an unavailable storage nor overwritten by a late request without being saved since |
| WorkspaceSync.StoredAndUnsavedAreEverything | src/hooks/useTerminalWorkspace.ts:138-209 | the stored copy with everything unsaved on top equals the first stored copy with all patches since mount on top if and only if all that was lost is about to be saved again |
| WorkspaceSync.ScreenAndStoredCopyAgree | src/hooks/useTerminalWorkspace.ts:138-209 | once a stored copy was loaded and nothing waits or travels, screen and stored copy show the same for exactly the settings that were not lost |
| WorkspaceSync.HarmlessRunsLoseNothing | src/hooks/useTerminalWorkspace.ts:146-159 | nothing is lost while the storage is available and late requests carry newest changes, or settings about to be saved, only |
| WorkspaceSync.UnavailableStorageForgets | src/hooks/useTerminalWorkspace.ts:150-153 | after an unavailable answer the change stays on the screen, nothing waits, and the stored copy is as before |
| WorkspaceSync.LateRequestOverwrites | src/hooks/useTerminalWorkspace.ts:154-158 | for every document and two patches, a failed request applied after the newer save puts its older values back in the stored copy, not on the screen |
| WorkspaceMerge.SanitizeBrokerTerminals | src/lib/terminal/workspace.ts:577-598 | valid entries are set as the newest or removed, invalid ones ignored, and the newest twenty stay |
| WorkspaceMerge.MergeIsOverrideExactly | src/lib/terminal/workspace.ts:707-776 | for a patch of valid values mergeWorkspace is the override of the settings it names if and only if at most twenty addresses come together and the selection it leaves is still there |
| WorkspaceMerge.SelectedOrFallen | src/lib/terminal/workspace.ts:718-723 | a named or kept selection survives the merge exactly when it is cleared or valid beside the new list of accounts |
| WorkspaceMerge.InvalidPatchChangesNothing | src/lib/terminal/workspace.ts:577-776 | a patch of invalid values only leaves every document as it is whose own selection stands |
| WorkspaceDocuments.DocumentsAgree | src/hooks/useTerminalWorkspace.ts:138-209 | with mergeWorkspace itself, for patches of valid values and if no merge dropped an address or a selection: once settled the document on the screen holds the first stored settings with every change on top, and the stored one the same if and only if nothing was lost |
| WorkspaceDocuments.TameRunsAreWhole | src/lib/terminal/workspace.ts:577-776 | no merge of a run drops anything if at most twenty brokers come into play and every selection stored or made is on every list of accounts that is |
| WorkspaceDocuments.TameDocumentsAgree | src/hooks/useTerminalWorkspace.ts:138-209 | both together: under that condition, seen before the run, the settled documents agree if and only if nothing was lost |
| WorkspaceDocuments.FullListParts | src/lib/terminal/workspace.ts:577-598 | with twenty addresses stored, adding and clearing one more drops the first of the list on the screen, and keeps it in the combined save |
| WorkspaceDocuments.SelectionParts | src/lib/terminal/workspace.ts:714-723 | taking the selected account off the list and putting it back clears the selection on the screen, and leaves the stored document as it was |
| CopyWorker.Worker.NoteFailure | scripts/wsa-copy-worker.ts:139-145 | the count of the key rises by one, and it may not be opened before the doubled and capped wait is over |
| CopyWorker.Worker.FailStream | scripts/wsa-copy-worker.ts:743-760 | whatever stream runs under the key now leaves the registry, is handed to close and noted as a failure; a long healthy run resets the count first |
| CopyWorker.Worker.StopRunning | scripts/wsa-copy-worker.ts:736-740 | exactly this handle is handed to close once more, and nothing else changes |
| CopyWorker.Worker.OnFatal | scripts/wsa-copy-worker.ts:766-776 | while the stream is being opened the failure is remembered, afterwards the running stream fails |
| CopyWorker.Worker.OnOpened | scripts/wsa-copy-worker.ts:777-785 | an opened stream is registered, unless the worker is stopping or nobody wants it any more: then it is handed to close |
| CopyWorker.Worker.OnOpenFailed | scripts/wsa-copy-worker.ts:786-791 | the failure is noted while the key stays occupied until it is reported |
| CopyWorker.Worker.DropUnwanted | scripts/wsa-copy-worker.ts:863-870 | exactly the streams of the kind that nobody wants leave the registry, each handed to close once |
| CopyWorker.Worker.OpenMissing | scripts/wsa-copy-worker.ts:872-880 | missing streams whose wait is over are opened in order until the limit is reached |
| CopyWorker.Worker.Discover | scripts/wsa-copy-worker.ts:849-881 | one answered discovery, for strategies and in the same shape for self-copy |
| CopyWorker.Worker.CloseKind | scripts/wsa-copy-worker.ts:971-972 | shutdown hands every registered stream of one kind to close |
| CopyWorker.Worker.ClearTables | scripts/wsa-copy-worker.ts:975-980 | the tables are empty after shutdown |
| Supervisor.StartMissingEffect | scripts/wsa-copy-worker.ts:872-880 | only allowed and wanted keys are added to those being opened, nothing else changes, and nothing at all while stopping |
| Supervisor.DiscoveryOpensWhatIsMissing | scripts/wsa-copy-worker.ts:849-881 | after every answered discovery each listed key that is missing and waits for nothing is being opened, unless the limit is reached, and then the first of them are; listed streams and those of the other kind stay as they are, others of the kind leave |
| Supervisor.MissingStreamsAreOpened | scripts/wsa-copy-worker.ts:872-880 | the same in every reachable state |
| Supervisor.DiscoveryClosesWhatLeaves | scripts/wsa-copy-worker.ts:863-870 | the handle of a stream that leaves is closed once more, that of one that stays is not |
| Supervisor.OpenedIsRegisteredExactly | scripts/wsa-copy-worker.ts:777-785 | when an opened stream is registered, with which handle and start, and that it is closed exactly once otherwise |
| Supervisor.FatalWhileOpening | scripts/wsa-copy-worker.ts:766-784 | a change that could not be stored while its stream was being opened is remembered through everything until then, and the stream is not registered |
| Supervisor.FailedOpeningOccupies | scripts/wsa-copy-worker.ts:786-796 | a stream that could not be opened counts one failure more and keeps its key occupied until that is reported |
| Supervisor.SupervisorIsSafe | scripts/wsa-copy-worker.ts:762-918 | in every reachable state the number of streams being opened is within its limit, no key is both being opened and registered, and registered keys are wanted, failed discovery reads included |
| Supervisor.HandlesAreConserved | scripts/wsa-copy-worker.ts:736-824 | until shutdown each handle ever opened is registered under one key and never closed, or was handed to close exactly once; afterwards it is registered or closed, and in the end all are closed |
| Supervisor.NothingRegisteredAfterStop | scripts/wsa-copy-worker.ts:957-983 | once the worker is stopping, at any later time only streams are registered that were registered then, with the same handles |
| Backoff.WaitsGrowWithinBounds | scripts/wsa-copy-worker.ts:139-145 | waits never get shorter from failure to failure and stay between the base and the maximum |
| Backoff.WaitsDouble | scripts/wsa-copy-worker.ts:139-145 | each wait is twice the one before, up to the maximum |
| Backoff.AttemptsWait | scripts/wsa-copy-worker.ts:872-880 | a stream is opened again only when the wait of every failure its key ever had is over |
| Backoff.FailuresAreSpread | scripts/wsa-copy-worker.ts:742-760 | failures of a key span at least the sum of the waits between them, and the count rises by one each time, or begins again at one exactly when the stream had run for more than 30 seconds |
| Journal.MasterStream.OnPositionsReplaced | scripts/wsa-copy-worker.ts:380-383 | the positions become the list; nothing is written |
| Journal.MasterStream.OnPositionUpdated | scripts/wsa-copy-worker.ts:384-391 | after the synchronisation an unknown position is an OPEN and a changed one a MODIFY with the position before |
| Journal.MasterStream.OnPositionRemoved | scripts/wsa-copy-worker.ts:392-396 | after the synchronisation a known position that goes is a CLOSE |
| Journal.MasterStream.Synchronize | scripts/wsa-copy-worker.ts:402-407 | the broker's list is added to what was filed, and its OPENs are still to be written |
| Journal.MasterStream.WriteOpen | scripts/wsa-copy-worker.ts:410-412 | the next position of the list is written as an OPEN |
| Journal.MasterStream.See | scripts/wsa-copy-worker.ts:420-427 | the pass takes the next position of the list and writes an OPEN, a MODIFY or nothing against the positions held at that moment |
| Journal.MasterStream.CloseMissing | scripts/wsa-copy-worker.ts:428-430 | the pass writes a CLOSE of a position that is not in its list |
| Journal.MasterStream.EndPass | scripts/wsa-copy-worker.ts:431-432 | the list of the pass becomes the positions |
| Journal.MasterStream.Reconcile | scripts/wsa-copy-worker.ts:419-432 | a pass that no callback interrupts takes over the list and keeps a faithful journal faithful |
| Journal.JournalIsFaithful | scripts/wsa-copy-worker.ts:379-434 | over any run of callbacks between single OPENs of the synchronisation and single events of reconcile passes: whenever no loop is writing, replaying the journal gives the position map up to volume, stop and target if and only if everything so far came in turn |
| Journal.TicketWords | scripts/wsa-copy-worker.ts:379-434 | in such a run, at any moment, the events of each ticket read OPEN, MODIFYs, CLOSE, over and over, and stand open exactly while the journal should tell of the position |
| Journal.FaithIsNotRegained | scripts/wsa-copy-worker.ts:384-434 | from any moment at which no loop is writing, the journal is faithful at a later one if and only if it was and everything between came in turn |
| Journal.LateReplacementIsSilent | scripts/wsa-copy-worker.ts:380-383 | after a replacement that follows the synchronisation, and whatever follows it, the journal is faithful if and only if the replacement changed nothing the journal speaks of and everything since came in turn |
| Journal.CallbackWritesExactly | scripts/wsa-copy-worker.ts:147-151 | after the synchronisation a callback about a held position writes a MODIFY if and only if its volume, stop loss or take-profit differs, a missing level counting as zero |
| Journal.PassWritesExactly | scripts/wsa-copy-worker.ts:421-427 | the same of a position a reconcile pass meets |
| Journal.EventsCarryWhatWasHeld | scripts/wsa-copy-worker.ts:384-430 | every MODIFY and CLOSE carries the position that was held, and only OPENs of the synchronisation say that the position existed before |
| Journal.TheLastWordIsFiled | scripts/wsa-copy-worker.ts:380-406 | callbacks and lists are filed before and after the synchronisation, and touch no other ticket |
| Journal.LastEventIsWhatIsHeld | scripts/wsa-copy-worker.ts:379-434 | in every quiet state of a run in turn the last event of each held ticket carries the volume, stop loss and take-profit that are held, and that of any other ticket is a CLOSE |
| SelfCopy.Dispatcher.FirstSightOfPosition | scripts/wsa-copy-worker.ts:462-471 | true exactly for a ticket not yet remembered for the source, which then is |
| SelfCopy.Dispatcher.Report | scripts/wsa-copy-worker.ts:646-661 | a repeated OPEN is passed over, a CLOSE forgets the ticket, everything else is handed to the engine |
| SelfCopy.Dispatcher.DispatchChanges | scripts/wsa-copy-worker.ts:495-509 | the changes are reported one by one in order |
| SelfCopy.Dispatcher.DropSource | scripts/wsa-copy-worker.ts:903-909 | a dropped source is forgotten as a whole |
| SelfCopy.MemoryIsTheLog | scripts/wsa-copy-worker.ts:458-509 | remembered are exactly the tickets whose OPEN was handed over and not undone since |
| SelfCopy.EveryReportIsLogged | scripts/wsa-copy-worker.ts:495-509 | every reported change is handed over or passed over in order, and passed over is exactly an OPEN that is remembered |
| SelfCopy.OpenIsCopiedOnce | scripts/wsa-copy-worker.ts:458-509 | between two OPENs of one ticket handed to the engine lies a CLOSE of it or a drop of its source, however often streams reopen and report everything again |
| SelfCopy.SkippedWasHandedBefore | scripts/wsa-copy-worker.ts:494-500 | an OPEN is passed over only if the same one was handed over before and nothing undid it |
| SelfCopy.CopyEvent | scripts/wsa-copy-worker.ts:476-492 | at most three attempts, another only after one that threw, giving up exactly when all three threw |
| SelfCopy.AttemptDecides | scripts/wsa-copy-worker.ts:476-492 | an engine that throws the first or second time is asked again, anything else settles the event |
| SelfCopy.QueueIsInOrder | scripts/wsa-copy-worker.ts:643-661 | however the chained jobs are scheduled, at most one is under way, events run in the order of dispatch, the attempts of one event stand together and are at most three |
| SelfCopy.FailuresNeverBlock | scripts/wsa-copy-worker.ts:657-659 | while an event is not settled some step is possible, and every step leaves less to do whatever the attempts meet, so all are settled after at most four steps for each event |
| SelfCopy.DispatchOrderIsKept | scripts/wsa-copy-worker.ts:657-660 | dispatched events keep their place and what ran stays run |
| SelfCopy.OrderSurvivesReopeningExactly | scripts/wsa-copy-worker.ts:643-760 | when a source opens again, all interleavings execute its events in the order of dispatch if and only if the old stream takes no callbacks any more and has settled all it dispatched |
| OrderRoutes.Handle | deploy/aws/demo-order-gateway/index.ts:117-228 | refusals before anything is sent, one try, a second one exactly after an uncertain first, and the answer each outcome gets |
| OrderRoutes.SendWebTrade | src/hooks/useWebTrade.ts:320-378 | at most one message to the gateway and one to the platform, all the same order, the second only after an answer that allows it, and how the click ends once the answer is read |
| OrderRoutes.DroppedPlatformWarnsExactly | src/hooks/useWebTrade.ts:369-376 | a dropped connection to the platform warns if and only if the action opens, closes, cancels or closes several |
| OrderRoutes.LastTryDecides | deploy/aws/demo-order-gateway/index.ts:198-228 | the last try made decides the answer: a confirmation is exactly the worker's word that something was done, and its errors are passed on |
| OrderRoutes.RefusedOrdersAreSentAgain | src/hooks/useWebTrade.ts:336-346 | after every refusal of the gateway but its rate limit the browser sends the order to the platform |
| OrderRoutes.PlatformIsReadRight | src/hooks/useWebTrade.ts:54-66 | what each answer of the platform's route ends as |
| OrderRoutes.StrangePlatformWarnsExactly | src/hooks/useWebTrade.ts:54-66 | for which answers in place of the platform's the person is not warned, both directions |
| OrderRoutes.OwnAnswersAreReadRight | src/hooks/useWebTrade.ts:36-66 | the gateway's own answers are never taken for the network's throttle refusal, allow a second sending exactly when they say "not sent", and are read as what they say |
| OrderRoutes.StrangeAnswersWarnExactly | src/hooks/useWebTrade.ts:54-66 | for which answers of something else on the way the person is not warned, both directions |
| OrderRoutes.StrangePagePassesForARefusal | src/hooks/useWebTrade.ts:54-66 | one such answer: status 200 with an empty object |
| OrderProtocol.OneOrderPerClick | deploy/aws/demo-order-gateway/index.ts:198-215 | messages, numbered tries, the worker's row and executions each carry an order of their own, and over every run it is the order of the click: at most one message each way, two tries and one execution |
| OrderProtocol.RowsTakeSteps | src/lib/gateway/gatewayStore.ts:208-352 | the protocol lets the row take no step but those that Gateway.StepsAreRowSteps proves the worker keeps to |
| OrderProtocol.NotSentIsHonest | deploy/aws/demo-order-gateway/index.ts:209-221 | after "not sent" no try is with the worker, now or later, or the worker itself let the order expire; the direct lane never executes it |
| OrderProtocol.SendingAgainIsSafe | src/hooks/useWebTrade.ts:336-346 | once the order went to the platform's route, only that route ever executes it |
| OrderProtocol.DroppedConnectionIsUncertain | src/hooks/useWebTrade.ts:369-376 | a dropped connection to the gateway ends the click as uncertain for good, and it is never sent again |
| OrderProtocol.GatewayOutcomesAreTrue | src/hooks/useWebTrade.ts:320-378 | on the gateway's route, unless something on the way answered in its place: a success means exactly one execution over the direct lane, accepted by the broker; a problem without a warning means that the broker has not accepted the order and never will |
| OrderProtocol.DoneOrdersEndWell | deploy/aws/demo-order-gateway/index.ts:209-228 | when the worker's word that it was done arrives on the gateway's route, the click ends in success if and only if the broker accepted the order |
| OrderProtocol.PlatformSuccessIsTrue | src/lib/services/webTradeService.ts:985-1045 | a success on the platform's route means exactly one execution over it, accepted, and a "done" that arrives ends in success if and only if the broker accepted the order |
| OrderProtocol.PlatformProblemRulesOutExactly | src/hooks/useWebTrade.ts:361-380 | after a problem without a warning on the platform's route, no later run can have the order accepted, if and only if the row is final or the route answered itself with something else than that the order could not be queued |
| OrderProtocol.DroppedPlatformIsFinal | src/hooks/useWebTrade.ts:369-376 | a dropped connection to the platform ends the click for good, with a warning of every action but a change of levels |
| Gateway.Process.RunDirect | src/lib/gateway/gatewayWorker.ts:593-609 | a request is answered anew exactly if it is not being answered and was not within ten minutes; requests being answered are never forgotten |
| Gateway.Process.RememberDirect | src/lib/gateway/gatewayWorker.ts:611-623 | only answered requests make room, and only when there are too many |
| Gateway.Process.OnAnswer | src/lib/gateway/gatewayWorker.ts:602-606 | the answer is kept with the time of the request |
| Gateway.RunsAreFarApart | src/lib/gateway/gatewayWorker.ts:593-699 | over every interleaving of direct attempts, queued commands, several processes, lost statements and restarts: two runs of one request id were written to the table more than three days apart |
| Gateway.AtMostOneRun | src/lib/gateway/gatewayWorker.ts:587-593 | within three days of its first writing a request id reaches the broker at most once |
| Gateway.StepsAreRowSteps | src/lib/gateway/gatewayStore.ts:208-352 | every step of the worker's side takes the row of a request id one step as the order protocol allows it, or none |
| Gateway.RepliesAreTrue | src/lib/gateway/gatewayWorker.ts:625-699 | "executed" is answered only if the broker was asked and did as the answer says, "not sent" only if the row has lapsed, so that the broker never will be; after a code that is not an uncertain one the broker did not accept the order |
| Gateway.RunIsAnswered | src/lib/gateway/gatewayWorker.ts:676-699 | what became of a run is what the waiting request is answered |
| Gateway.RunIsStored | src/lib/gateway/gatewayStore.ts:208-301 | and what its row says, if that is still the running one |
| Gateway.EarlierRowIsAnswered | src/lib/gateway/gatewayWorker.ts:625-635 | a repeated id is answered with what its row says, with uncertainty while that is not finished |
| Gateway.RepeatIsRemembered | src/lib/gateway/gatewayWorker.ts:593-599 | asked again while being answered or within ten minutes, a request changes nothing |
| Gateway.WrittenAndClaimedAreQueued | src/lib/gateway/gatewayWorker.ts:408-432 | requests whose row was written and commands claimed in time are on their way to the broker |
| Gateway.NeverRunsLate | src/lib/gateway/gatewayWorker.ts:513-560 | in every run the broker is asked for no command after it has expired |
| Gateway.LivesAsLongAsGiven | src/lib/gateway/gatewayWorker.ts:644-654 | a request expires its lifetime after it was asked or queued |
| Gateway.WithdrawnHasExpired | src/lib/gateway/gatewayQueue.ts:352-366 | a command nobody claimed that is withdrawn has expired |
| Gateway.HousekeepingIsExact | src/lib/gateway/gatewayStore.ts:310-352 | housekeeping expires what nobody picked up in time, gives up what a worker has had for two minutes, deletes what was finished three days ago, and nothing else |
| Gateway.DeletedIdRunsAgain | src/lib/gateway/gatewayStore.ts:343-349 | after any run, once a finished row is more than three days old and housekeeping has been at work, the same id, sent again with any order, runs once more |
| BatchRotation.LoadAll | scripts/wsa-risk-worker.ts:54-71 | the pages up to the first short one, each from the table of its moment, and the whole table if it does not change |
| BatchRotation.StayingAccountIsReturned | scripts/wsa-risk-worker.ts:58-69 | an account that is there all the time is returned, however the table changes, unless it slips from behind one page to before the next |
| BatchRotation.WhileAccountsOnlyLeave | scripts/wsa-risk-worker.ts:58-69 | while each table is what is left of the one before, an account that stays is returned if and only if it never slips so |
| BatchRotation.LeavingHidesANeighbour | scripts/wsa-risk-worker.ts:58-69 | an account that stays and is missed |
| BatchRotation.BatchLoader.LoadBatch | scripts/wsa-risk-worker.ts:73-95 | the batch at the offset, or the first one of a second reading when the offset is past the end, the next offset, and at most one restart |
| BatchRotation.OffsetStaysOnABatch | scripts/wsa-risk-worker.ts:73-95 | however the accounts change, even within a call, the offset stays a multiple of the batch size and no call is empty while its queries find accounts |
| BatchRotation.EveryAccountIsReached | scripts/wsa-risk-worker.ts:73-95 | with N fixed accounts any ceil(N / B) calls in a row return every account, from any reachable offset |
| BatchRotation.CallsReachEveryAccount | scripts/wsa-risk-worker.ts:73-95 | the same of the batches the calls themselves return, restarts included |
| BatchRotation.RestartReadsTheFirstBatch | scripts/wsa-risk-worker.ts:87-91 | a call past the end returns the first batch of the table it then reads, and the next one goes on behind it |
| BatchRotation.ARoundIsTheTable | scripts/wsa-risk-worker.ts:73-95 | a round from the beginning returns every account exactly once, in order, and ends at the beginning |
| TradeProjection.TradeTable.ActiveIds | scripts/wsa-risk-worker.ts:243 | exactly the ids of the open positions |
| TradeProjection.TradeTable.GroupClosings | scripts/wsa-risk-worker.ts:264-271 | the closing deals of each position that is not open any more, in the broker's order |
| TradeProjection.TradeTable.ProjectOpen | scripts/wsa-risk-worker.ts:292-329 | the rows of the open positions, and of no others, become what the pass is meant to leave |
| TradeProjection.TradeTable.ProjectClosed | scripts/wsa-risk-worker.ts:331-392 | the same for the positions closed today |
| TradeProjection.TradeTable.Project | scripts/wsa-risk-worker.ts:235-392 | after one error-free pass every row is as intended, and the counted changes are exactly the rows that had to be written |
| TradeProjection.OpenPositionsAreProjected | scripts/wsa-risk-worker.ts:292-329 | every open position has its OPEN row whose figures agree within 0.005, with the broker's opening time |
| TradeProjection.ClosedPositionsAreProjected | scripts/wsa-risk-worker.ts:331-392 | every position closed today and not open has its CLOSED row with the last price and time and the sum of its closing deals as profit |
| TradeProjection.InsertedClosedRow | scripts/wsa-risk-worker.ts:331-382 | every field of a row inserted for a position closed today, from its earliest opening deal and its latest closing deal, and what stands in where one is missing |
| TradeProjection.UpdatedClosedRow | scripts/wsa-risk-worker.ts:351-366 | a row that was there keeps its other fields, and status, closing price, profit and time become what the deals say exactly if they differ |
| TradeProjection.OpenRowFieldByField | scripts/wsa-risk-worker.ts:292-329 | every field of the row of an open position, written exactly if it was missing or differs |
| TradeProjection.ChangedRowsAreWritten | scripts/wsa-risk-worker.ts:290-392 | every row that changes is counted as written |
| TradeProjection.NoOtherRows | scripts/wsa-risk-worker.ts:235-392 | rows appear for open positions and positions closed today only, none disappears, and those of all others stay as they are |
| TradeProjection.SecondPassWritesNothing | scripts/wsa-risk-worker.ts:303-311 | a later pass over the same picture writes nothing if and only if every time it has to read is valid |
| Coalescing.Evaluator.Evaluate | scripts/wsa-risk-worker.ts:419-427 | a request starts a pass or is remembered for one more |
| Coalescing.Evaluator.OnPassOver | scripts/wsa-risk-worker.ts:458-459 | a finished pass is followed by another exactly when one was asked for and the worker is not stopping |
| Coalescing.Evaluator.Finally | scripts/wsa-risk-worker.ts:459-461 | the callback only forgets the finished loop; a remembered request stays remembered |
| Coalescing.PassesNeverOverlap | scripts/wsa-risk-worker.ts:419-463 | over every run at most one pass is open, exactly while the loop runs |
| Coalescing.RequestIsServedExactly | scripts/wsa-risk-worker.ts:419-463 | over all runs and at every moment, which requests have been followed by a pass that read its values later, both directions |
| Coalescing.RequestsAreServed | scripts/wsa-risk-worker.ts:419-463 | once the loop is over, every request made before its last test was so served, unless the very pass under way at the request failed or the worker was stopping when it ended |
| Coalescing.LateRequestIsNotServed | scripts/wsa-risk-worker.ts:458-461 | a request between the last test and the callback of finally is served if and only if a later one starts a new loop |
| Coalescing.LateRequestsOccur | scripts/wsa-risk-worker.ts:458-461 | a run in which a request falls between the last test and the callback |
| Coalescing.NextRequestServesTheLateOne | scripts/wsa-risk-worker.ts:419-463 | the next request on an idle loop serves everything asked for before |
| Calendar.Normal | src/components/dashboard/CalendarTracker.tsx:91 | a day counted from the first of a month is the valid date that many days away in the Gregorian calendar, across months and years |
| Calendar.BuildDaySummaryMap | src/components/dashboard/CalendarTracker.tsx:58-81 | each day with closed trades, and no other, holds the sum of its closed trades |
| Calendar.AggregateByMonth | src/components/dashboard/CalendarTracker.tsx:107-132 | each month of the year with closed trades, and no other, holds the sum of its closed trades |
| Calendar.DayEntries | src/components/dashboard/CalendarTracker.tsx:58-81 | an entry counts the trades closed on the day (or opened, where no closing day is known), their sum, and those above and below zero, and there is none without such a trade |
| Calendar.MonthEntries | src/components/dashboard/CalendarTracker.tsx:107-132 | the same of a month |
| Calendar.BuildMonthCells | src/components/dashboard/CalendarTracker.tsx:83-105 | the 42 cells of a month with date, place and the day's summary |
| Calendar.CellShowsItsDate | src/components/dashboard/CalendarTracker.tsx:89-102 | a cell shows the day of its date and the entry of that date |
| Calendar.CellsAreConsecutiveDays | src/components/dashboard/CalendarTracker.tsx:83-105 | the cells run day by day through the calendar, column k showing weekday k from Monday |
| Calendar.WeekdaysAreRight | src/components/dashboard/CalendarTracker.tsx:86 | the days of the week are those of the Gregorian calendar, anchored at three known days |
| Calendar.EachDayOnce | src/components/dashboard/CalendarTracker.tsx:89-102 | the cells marked as in the month show each of its days exactly once and no other day |
| Calendar.CellsAddUp | src/components/dashboard/CalendarTracker.tsx:83-105 | the summaries of the month's cells add up to all closed trades of the month |
| Calendar.View | src/components/dashboard/CalendarTracker.tsx:183-220 | the figures of monthSummary, the entry of aggregateByMonth and the sum of the cells agree |
| Calendar.CellsAndTileAgreeExactly | src/components/dashboard/CalendarTracker.tsx:83-105 | cells and yearly entry agree for all trades if and only if the year is not one the Date constructor reads as 19xx |
| CurveRuns.DedupeX | src/components/charts/AccountPerformanceChart.tsx:153-161 | the points after every later reading at or left of the last column has replaced it |
| CurveRuns.DedupedIsLastOfEachColumn | src/components/charts/AccountPerformanceChart.tsx:149-161 | for all points, exactly those stay that the next one does not hide |
| CurveRuns.DedupedIncreasesExactly | src/components/charts/AccountPerformanceChart.tsx:149-161 | the result has strictly increasing x if and only if every point that the next one does not hide lies left of everything that follows |
| CurveRuns.DedupedIncreases | src/components/charts/AccountPerformanceChart.tsx:149-161 | it has for points in order of x; it always ends with the last point and holds only given points |
| CurveRuns.SplitRuns | src/components/charts/AccountPerformanceChart.tsx:163-184 | the runs cover every segment of the line exactly once and in order, each of one kind, neighbours of different kinds sharing the point where they meet |
| CurveRuns.ChartRuns | src/components/charts/AccountPerformanceChart.tsx:149-184 | both together: all segments of the deduped line, and every run has strictly increasing x if and only if the points meet that condition |

## Left out

- Broker, database, HTTP and timer calls: they are events that happen in any order and with any outcome.
- Supervisor: the two registries are one map whose keys carry the kind; stale failures are events for a key, whichever stream runs under it.
- CopyWorker.Worker.StopRunning: handing a stream to close is one event; unsubscribing, stopping the pump and when the handle is really closed are not part of this model.
- StreamPump and KeyedChains, heartbeats, reports and logs are not part of this model.
- Journal: an event counts as written when it is handed to persistEvent, and no two reconcile passes overlap; a change that could not be stored is a failure of the stream in the supervisor; the API2Trade branch is not part of this model.
- SelfCopy: more than two streams of one source at work at once are not modelled; the ordering per ticket of KeyedChains on the API2Trade branch is not part of this model; the FIFO queue of the MetaApi branch is.
- WorkspaceSync: other tabs and other writers of the stored copy are not modelled; members of a patch explicitly set to `undefined` count as not named.
- WorkspaceMerge: the checks of single values (symbols, addresses, accounts, numbers) are functions of which only soundness is assumed; the closing `sanitizeWorkspace`, which leaves a document of valid values as it is, is not repeated.
- WorkspaceDocuments.DocumentsAgree: settings are compared, not the age of broker addresses, which the stored column (JSONB, supabase/migrations/016_terminal.sql:29) does not keep in order; a patch with values that mergeWorkspace would correct or ignore is not covered.
- WorkspaceDocuments.TameRunsAreWhole: the condition can be seen before a run, but is not necessary: a selection made together with the list it is on is whole too.
- OrderRoutes.Handle: the checks of path, origin, body and signed pass are one refusal each, with the codes of the production scope; how they are computed (JWT, HMAC, schema, the warm-up request) is not part of this model.
- OrderRoutes.SendWebTrade: timing figures and the choice of eligible orders are left out; eligibility is a parameter. Whatever answers in place of the gateway does not forge its success or its "not sent".
- OrderProtocol: the direct lane is taken as its three answers are documented (src/lib/gateway/directLaneClient.ts:10-19), with an error code and status in every refusal, and an error code outside UNCERTAIN_TRADE_CODES as the word that the broker did not accept the order (src/lib/trade/webTrade.ts:380-391); closing several positions counts as accepted unless all of them failed.
- The platform's own route, in OrderProtocol, is one request that is not repeated on its way (so the answer that the same order is already being sent does not occur), its direct lane is one more way for it to bring the order to the worker, and orders that the web tier executes itself are not part of this model.
- Gateway: the order of commands on the chain of an account, the owner check and the executor are left out (a command may be unfit to run); a claim takes one command at a time; clocks of processes and database agree; command ids are never drawn twice; no error of a broker is called NOT_SENT; orders executed by the web tier itself, where no worker is installed, are not part of this model.
- BatchRotation: a range past the end answers with an empty page; a database that answers with an error ends the call before any state changes; the table settles in the end.
- TradeProjection: prices and profits are real numbers; NaN, failing writes in the middle of a pass and rows written by others meanwhile are not modelled.
- Coalescing: what a pass does with its values is left out; persistLiveTrades has the same loop.
- RateLimiter: the choice of a rule from a path and the client address are parameters; buckets are values, although the source counts in the object the map holds; the maintenance switch is left out.
- Throttle: instants are whole milliseconds; timers fire late, in time or, where a lemma says so, punctually, but never early.
- Calendar: dates that are not valid dates, time zones and the text form of a key are left out; selection, sharing and the year picker are view code.
- CurveRuns: smoothing, pixels and SVG are left out.
- Copy and self-copy engines, account lifecycle helpers, billing, seeding and migration scripts, demo pages and forms.
