# ccloudvm: a verified model

ccloudvm creates and manages virtual machines on one host. A client talks to a
long-running service over RPC; the service keeps one goroutine per instance,
answers every request over a channel of its own, downloads images through a
shared download manager, and builds cloud-init data and VM specifications from
workload files that inherit from each other. This project models that logic in
Dafny and proves what it guarantees. `dafny verify dfyconfig.toml` checks
everything.

## How the model is built

**Two concurrent protocols, as step systems.** The download manager
(`DownloadModel`) and the service with its instance loops and API callers
(`ServiceModel`) are state machines over plain values. A run is any interleaving
of enabled steps, so a theorem about `Run` holds for every schedule. Channels
are explicit: what was sent, what was received, whether closed. Whatever Go would
punish or never finish in these parties' use of a channel - a send on a closed
channel, a second close, a send nobody will receive, the close of a nil channel,
a call of a nil function, the explicit panic - sets a `fault` flag, and the
safety theorems say which runs set it: none of the download manager's, and of
the service's exactly those in which a completion meets an unknown id.

**The code itself, in its own form.** The classes `Downloader.Manager`,
`InstanceCode.InstanceLoop` and `ServiceCode.CcvmService` have the source's
fields and its loops and branches, and each method is proved to move the state
exactly as the step system says. `Manager.Start` and `CcvmService.Run` are the
two main loops; the latter owns its name generator and its instance loops as
objects and has each of them, each creation and each Result call execute its own
code. The remaining components (`YamlSplit`, `CloudConfig`,
`KeyedMerge`, `Workload`, `Names`, `HostIPs`) keep the source's in-place loops
as methods and prove them against specifications that are written differently
from the code.

**Plain terms.** Beside the theorems about whole runs, `DownloadAnswers`,
`ServiceRequests`, `ServiceAnswers`, `YamlLaws` and `WorkloadLaws` say what each
operation does without the functions that the step systems and specifications are
made of, so that these functions themselves are held to what the source does.

| file | content |
|---|---|
| `DownloadModel`, `DownloadProofs`, `DownloadTheorems` | download protocol, its invariant, whole-run theorems |
| `DownloadAnswers` | what it does with each request, update and signal, in plain terms |
| `DownloadStalls` | the same protocol in single sends, with clients that block in their callbacks |
| `Downloader` | manager, client and fetcher as code |
| `ServiceModel`, `ServiceInv` | service protocol and its invariants |
| `ServiceLedger` | what every run keeps without any condition |
| `ServiceLoops`, `ServiceSteps` | every step keeps the protocol and the tables |
| `ServiceTheorems` | safety, early completions, idle timer |
| `ServiceWork`, `ServiceShutdown` | the work left in a shutdown, and exactly when it ends |
| `ServiceRequests`, `ServiceAnswers` | what it does with each request, and what each transaction is answered, in plain terms |
| `ServiceAddresses`, `ServiceLimits`, `ServiceWitnesses` | shared and used-up addresses and the other shortcomings, each located exactly, with runs that show them |
| `InstanceCode`, `ServiceCode` | instance loop and Result calls, service, as code |
| `YamlLaws` | laws that determine the splitting, on the lines themselves |
| `YamlSplit` | document splitter, state-file printer, the state file over an instance's life |
| `WorkloadDocs` | parsed workload documents and their chain of inheritance |
| `CloudConfig` | user-data inheritance |
| `KeyedMerge`, `Workload`, `WorkloadLaws` | list merges, VM specifications, workload inheritance, and what they mean field by field |
| `Names`, `HostIPs` | the two allocators |
| `SeqFacts`, `Wrappers` | shared helpers |

**What stands for the outside world.** A fetcher delivers an arbitrary finite
stream of progress followed by one final update; that `initiateDownload`
produces such streams is proved separately (`Downloader.InitiateDownload`).
A backend call is an arbitrary number of progress lines, of requests to the
download manager, and an outcome. Which
listeners the manager finds cancelled, what `os.Stat` says, the swap partners of
the shuffle, the iteration order of Go maps and the order in which ready
channels are chosen are all arbitrary. A transaction id is the index of its
result channel, an instance's channels are named by the index of its loop.

**What the service's theorems ask of the outside.** Nothing is asked of API
callers: they may call for any id, as often as they like, with any Result
function, and give up at any time. The ledger of transactions, timer and drain is
kept by every run. Protocol and tables need free generated names, which
`ServiceCode.CcvmService.Run` has from its generator as long as there are fewer
instances than names; `ServiceLimits.GeneratedNameMustBeFree` says what happens
otherwise. Where callers do
matter, the theorem says exactly how: the panic (`FaultExactly`, `NoFault`), a
transaction completed too early (`PrematureExactly`), the idle timer under live
work (`IdleTimer`), a shutdown that cannot end (`ShutdownEndsExactly`).

## Where the code differs from its documentation or its evident intent

The model follows the code.

- `README.md:465-468` lets the inheriting workload win. For scalars it does; for
  mounts, ports and drives `types/types.go:221-223` lets the parent win
  (`Workload.RootDecides`, `Workload.RootDecidesSSH`).
- `create` assigns to a shadowing `flatIP` (`ccvm/server.go:347`), so an explicit
  host address is recorded as zero and two instances can get the same one
  (`ServiceAddresses.SharedExactly`, `ServiceAddresses.SharingHappens`).
- `newInstanceName` tests a shadowed `i` (`ccvm/server.go:298-307`), so it returns
  a used name instead of an error (`Names.NameGenerator.NewInstanceName`,
  `ServiceLimits.GeneratedNameMustBeFree`, `ServiceWitnesses.ClashHappens`), and the
  return without a close at
  `ccvm/server.go:317-319` cannot be reached.
- A listener found cancelled when its download fails is told of no error
  (`ccvm/download.go:311-320`; `DownloadTheorems.FinalOutcome`), and neither is a
  request whose URL does not parse (`ccvm/download.go:371-376`).
- The manager can leave its loop while a fetcher without listeners still has
  something to send; the final `wg.Wait` then never returns
  (`DownloadTheorems.WaitReturnsIff`, `DownloadTheorems.WaitCanBlock`).
- A request for a file whose fetch was cancelled because nobody listened, but has
  not ended, joins that fetch and shares its fate
  (`ccvm/download.go:380-383`; `DownloadTheorems.JoinsDoomedExactly`,
  `DownloadTheorems.DoomHappens`).
- Service and download manager hear the same signal, and `downloadFile` sends its
  request without regard to any context (`ccvm/download.go:436`). A creation that
  has still to ask for an image when the manager has left waits for good, and so
  does the service, which drains that creation's channel
  (`DownloadTheorems.UntakenAfterSignal`, `ServiceShutdown.ShutdownEndsExactly`,
  `ServiceWitnesses.UnheardShutdown`).
- Addresses are never given back (`ccvm/server.go:579-588`), so an allocation can
  fail with no instance left (`ServiceAddresses.ExhaustedExactly`,
  `ServiceWitnesses.ExhaustionHappens`).
- `restoreWorkload` fills `userData`, but `save` writes `mergedUserData`
  (`ccvm/workload.go:68`, `ccvm/workload.go:200`), so the first start of an instance
  empties the second document of its state (`YamlSplit.LiveThrough`).
- A progress callback prints into the creation's result channel
  (`ccvm/ccvm.go:126-135`, `ccvm/ccvm.go:147-175`). When nobody reads that channel
  it fills up, the client stops receiving, and the manager blocks in its next send
  to it: it takes no request, no update and no signal
  (`DownloadStalls.UpdateProceeds`, `DownloadStalls.StallForever`,
  `DownloadStalls.StallHappens`).
- A Result call other than CreateResult takes a creation's first line for the
  answer and completes the transaction (`ccvm/api.go:81-91`); the idle timer can
  then run out under the creation (`ServiceLimits.TimerUnderWork`), and a shutdown
  no longer drains its channel and may never end (`ServiceShutdown.ShutdownEndsExactly`,
  `ServiceWitnesses.ChokedShutdown`).
- A user-data `runcmd` that is not a sequence makes `generateCloudConfig` panic
  (`ccvm/workload.go:329-330`; `CloudConfig.Generate`).
- The service blocks while it hands a command to an instance loop. If that loop
  is itself blocked on a full result channel that nobody reads, the service takes
  no further request and no signal (`ServiceLimits.CommandProceeds`,
  `ServiceLimits.StallIsForever`, `ServiceLimits.StallHappens`).

## Model

| member | source | states |
|---|---|---|
| DownloadTheorems.RunIsSafe | ccvm/download.go:290-430 | in every reachable state of manager, fetchers and clients: no send without a receiver, no double close, no nil cancel; incomplete entries and live fetchers correspond one to one; unanswered clients are exactly the disjoint union of the listener lists; every closed conversation is well formed; nobody is unanswered when the loop is left |
| DownloadAnswers.RequestAnswered | ccvm/download.go:378-408 | on every run a fetcher is added if and only if the file is not in the table, or is complete there and gone from disk; a file on disk is answered at once with its path and progress and nothing else changes; for a file being fetched the client becomes a listener |
| DownloadAnswers.RequestRefused | ccvm/download.go:362-377 | while shutting down the one answer is the shutting-down error; a URL that does not parse gets an empty answer without an error |
| DownloadAnswers.UpdateHeard | ccvm/download.go:302-344 | on every run, what each listener is told of an update and whether its channel is closed, what the file's entry becomes, and that nobody else notices |
| DownloadAnswers.StopsOnSignal | ccvm/download.go:355-361 | the manager is shutting down or has left if and only if the signal came |
| DownloadProofs.RunKeepsInv | ccvm/download.go:346-430 | the three-party invariant holds along every schedule |
| DownloadTheorems.InvMeans | ccvm/download.go:290-300 | the invariant gives one fetch per file, conservation of listeners, cancelled contexts once nobody wants a file or shutdown began, and no listener on a complete entry |
| DownloadTheorems.WaitingIsAnswered | ccvm/download.go:302-344 | whoever waits has a live fetcher and is answered by the time that fetcher is done, on any continuation |
| DownloadTheorems.AnsweredOrFetching | ccvm/download.go:378-421 | along any run a waiting client stays with the same fetcher until it is answered |
| DownloadTheorems.ShutdownProgress | ccvm/download.go:355-362 | after the signal no fetcher is added, each delivery uses up one unit of a fixed amount of work, some fetcher has an update until the loop is left, and it is left at the latest when the work is used up; that a delivery under way gets on is DownloadStalls.ShutdownProceeds |
| DownloadTheorems.JoinsDoomedExactly | ccvm/download.go:378-384 | a new request waits for an already cancelled fetch if and only if the file is being fetched and nobody listened at some time since that fetch began |
| DownloadTheorems.DoomHappens | ccvm/download.go:336-343 | the only client gives up and a second one joins the abandoned fetch |
| DownloadTheorems.UntakenAfterSignal | ccvm/download.go:355-358 | the signal ends the manager's loop at once if and only if nobody waits for an answer, and from then on no request is taken |
| DownloadStalls.FineRefines | ccvm/download.go:302-344 | notifying listeners one send at a time, with clients that are busy in their callbacks, reaches only worlds of the protocol, so all its theorems hold |
| DownloadStalls.UpdateProceeds | ccvm/download.go:309-334 | inside processUpdate the manager gets on if and only if the next listener is not blocked in its callback on a full channel |
| DownloadStalls.StalledPrints | ccvm/vm.go:157-163 | a client whose callback prints nothing, as for a download of the guest, never stalls the manager |
| DownloadStalls.StallForever | ccvm/download.go:309-334 | until somebody reads that channel no request, update or signal is taken, whatever else happens |
| DownloadStalls.StallHappens | ccvm/ccvm.go:126-175 | a download whose 256 lines of progress nobody reads leads to it |
| DownloadStalls.ShutdownProceeds | ccvm/download.go:355-425 | during shutdown the manager has left its loop or gets on, exactly unless it is stalled |
| DownloadStalls.ShutdownRank | ccvm/download.go:355-425 | each step of manager, fetchers and the awaited callback lowers a rank that no other step raises |
| DownloadTheorems.WaitReturnsIff | ccvm/download.go:423-430 | after the loop the final wait returns if and only if every entry is complete |
| DownloadTheorems.WaitCanBlock | ccvm/download.go:336-343 | a concrete run after which it does not return |
| DownloadTheorems.FinalOutcome | ccvm/download.go:302-334 | the final update answers each waiting client with one more message; its error is the fetch's own unless the client was found cancelled, which hides a failure |
| DownloadProofs.DeliverAllEffect | ccvm/download.go:309-334 | one update reaches every listener exactly once and nobody else, and closes exactly the cancelled and, at the end, all |
| DownloadProofs.SurvivorsOrdered | ccvm/download.go:308-336 | the listeners that stay keep their order |
| DownloadModel.Survivors | ccvm/download.go:308-336 | exactly the uncancelled listeners of an incomplete download stay |
| Downloader.Manager.constructor | ccvm/download.go:254-288 | exactly the cached files, without directories and partial downloads, become complete entries, each with its size in whole megabytes |
| Downloader.PartMeans | ccvm/download.go:268 | a partial download is a file whose name ends in `.part` |
| Downloader.Manager.ActiveDownloads | ccvm/download.go:290-300 | cancels every entry with listeners, in any map order, and says whether there is one |
| Downloader.Manager.NotifyListeners | ccvm/download.go:308-334 | the listener loop delivers and filters as the protocol says |
| Downloader.Manager.ProcessOneUpdate | ccvm/download.go:302-344 | the whole new state after one update |
| Downloader.Manager.OnRequest | ccvm/download.go:362-408 | the whole new state after a request: refused, joined, answered from the cache or fetched |
| Downloader.Manager.OnUpdate | ccvm/download.go:409-425 | the whole new state after an update, a failed file forgotten and the loop left when shutdown is complete |
| Downloader.Manager.Start | ccvm/download.go:346-430 | the select loop refines the step system under every schedule |
| Downloader.DownloadFile | ccvm/download.go:432-461 | the call returns if and only if its request is taken; then the client consumes a whole conversation exactly when it was still listening; it returns the last update's error or path; its callbacks carry the progress of the updates without an error, in order, and only the first is marked first |
| Downloader.ProgressReader.Read | ccvm/download.go:86-103 | counts the bytes and reports when a ten-megabyte step is passed |
| Downloader.AllReportsTrack | ccvm/download.go:86-103 | however a transfer is cut into reads, the reports strictly increase in ten-megabyte steps, are never ahead of the bytes read and never a step behind |
| Downloader.InitiateDownload | ccvm/download.go:138-252 | whatever the transfer does, it sends for its own name the total at the start of a transfer, the reports of the bytes read, and exactly one final update with the transfer's error, or the total size if there is none |
| ServiceTheorems.RunIsSafe | ccvm/server.go:112-598 | in every reachable state, whatever callers do: exactly one party owes each unanswered transaction; each result channel carries a creation's progress, at most one terminal value, and is closed only with it; instance maps, close channels and command channels correspond exactly; a creation is the first command of a fresh loop |
| ServiceAnswers.AnswersAreRight | ccvm/server.go:112-192 | on every run a list is answered with success; a command with its backend's own result if its loop ran it and with a failure if not; a creation ends with Finished if and only if it was started and did not fail |
| ServiceAnswers.CommandTaken | ccvm/server.go:133-173 | a loop runs the command it gets unless its instance is deleted or being created, and fails it at once otherwise; a creation is always started |
| ServiceAnswers.InstancesEnd | ccvm/server.go:160-180 | on every run an instance that is gone was ended by a delete answered with success or a creation answered with failure, and in service each of these ends its instance |
| ServiceRequests.CommandGoes | ccvm/server.go:276-294 | a named command goes to the instance of that name or is refused; one without a name goes to the only instance or is refused |
| ServiceRequests.CreationGoes | ccvm/server.go:314-369 | a creation is accepted if and only if its name is generated, or valid and new, and its address is free; then a fresh loop is registered under that name, and an allocated address is taken, but for a given one only zero |
| ServiceRequests.ListAnswered | ccvm/server.go:470-480 | a list is answered and closed at once |
| ServiceRequests.KnownCallReturns | ccvm/api.go:129-170 | a Result call for a known id takes one value or the end of the channel, and completes the transaction unless it is CreateResult with a line of progress |
| ServiceRequests.UnknownCallEnds | ccvm/server.go:513-516 | a call for an unknown id ends at once and changes nothing |
| ServiceRequests.CancelledExactly | ccvm/server.go:507-512 | on every run a transaction's context is cancelled if and only if Cancel came while it was known, or shutdown came to drain it |
| ServiceRequests.DrainCancels | ccvm/server.go:569-573 | after the drain every transaction that was outstanding is cancelled |
| ServiceRequests.StaysInLoop | ccvm/server.go:558-590 | outside systemd mode the service leaves its loop for the signal only |
| ServiceRequests.LeavesItsLoop | ccvm/server.go:562-578 | the signal makes an idle loop drain all that is outstanding; a running timer can end it |
| ServiceTheorems.FaultExactly | ccvm/server.go:520-526 | over whole runs, a panic or a misuse of a channel occurs if and only if some completion met an id no longer known |
| ServiceTheorems.NoFault | ccvm/api.go:64-91 | with one Result call in flight per id, of whatever kind, none occurs |
| ServiceLedger.NoUnknownCompletion | ccvm/api.go:64-91 | one Result call in flight per id keeps every call's transaction known until it completes, even when generated names clash |
| ServiceTheorems.RunSettled | ccvm/api.go:129-170 | only transactions whose conversation was received to its end are completed, or ones of which a call of the wrong kind took a line |
| ServiceTheorems.PrematureExactly | ccvm/api.go:64-91 | over whole runs, some call completes a conversation that is not over if and only if a call of the wrong kind received a line |
| ServiceLedger.RunLedger | ccvm/server.go:482-595 | every run, without any condition, keeps transactions, receive counters, timer and drain consistent |
| ServiceSteps.StepKeepsInv | ccvm/server.go:482-598 | with a free generated name each step keeps protocol and tables, and its only possible fault is the completion of an unknown id |
| ServiceSteps.RunKeepsInv | ccvm/server.go:537-598 | so does every run, whatever its callers do |
| ServiceSteps.StartKeepsInv | ccvm/server.go:314-505 | every start request keeps it, refused or not |
| ServiceSteps.DeathKeepsInv | ccvm/server.go:579-588 | removing a dead instance closes its command channel once and keeps maps and cases in step |
| ServiceLoops.InnerKeepsInv | ccvm/server.go:124-192 | every step of an instance loop or its creation keeps it |
| ServiceLoops.HandoverKeepsInv | ccvm/server.go:133-173 | so does the hand-over of a command, in whatever state the loop is |
| ServiceTheorems.RestoreInv | ccvm/server.go:239-274 | it holds after the existing instances were found, whatever their saved state says |
| ServiceRequests.RestoredExactly | ccvm/server.go:239-274 | exactly the directories with a readable address that no earlier one has are restored, and exactly the readable addresses are taken |
| ServiceLedger.ClosedForever | ccvm/server.go:112-192 | on any run, a closed result channel never changes again, ids are never reused, addresses once taken stay taken |
| ServiceTheorems.TimerArmed | ccvm/server.go:497-533 | on every run, without any condition, the timer is armed exactly in systemd mode after a first transaction with none outstanding |
| ServiceTheorems.IdleTimer | ccvm/server.go:520-533 | with the timer armed no command or creation is under way, if and only if every transaction of which a call of the wrong kind took a line is answered |
| ServiceTheorems.IdleMeansAnswered | ccvm/server.go:124-192 | while the service is in its loop there is no live work exactly when every conversation has had its terminal value |
| ServiceShutdown.ShutdownEnds | ccvm/server.go:562-598 | from any reachable state of the shutdown no schedule makes more server steps than a measure fixed at its start; whether the given-up transactions fit their channels and readers never changes; if they do and requests for downloads are heard, a server step is possible until the service is gone; and then every loop has exited and every transaction is answered and closed |
| ServiceShutdown.ShutdownEndsExactly | ccvm/server.go:184-191 | from any reachable state of the shutdown, it can end if and only if what given-up transactions have still to say fits into their channels and the calls that read them, and no creation has a request to make of a download manager that has left |
| ServiceShutdown.FitsUnlessMisread | ccvm/server.go:569-573 | it can fail to fit only for a transaction of which a call of the wrong kind took a line |
| ServiceWitnesses.ChokedShutdown | ccvm/server.go:569-573 | a misread creation of 257 lines makes a shutdown that no continuation ends, although the manager is there |
| ServiceWitnesses.UnheardShutdown | ccvm/download.go:432-441 | a creation that has still to ask when the manager leaves makes one, although everything fits |
| ServiceWork.StepWork | ccvm/server.go:184-191 | every server step lowers the measure and nothing from outside raises it |
| ServiceLimits.GeneratedNameMustBeFree | ccvm/server.go:296-322 | a creation under a generated name keeps the tables exact if and only if the name was free; otherwise on every continuation the older instance's loop gets no command, is never told to stop, and the service is never gone |
| ServiceWitnesses.ClashHappens | ccvm/server.go:315-321 | a run in which the generator gives a name in use, after which the older loop is an orphan for good |
| ServiceAddresses.SharedExactly | ccvm/server.go:336-361 | on every run two registered instances have the same host address at some time if and only if some request was accepted on an address that a registered instance was explicitly given |
| ServiceAddresses.SharingHappens | ccvm/server.go:346-359 | two creations with the same explicit address other than 0.0.0.0 are both accepted |
| ServiceAddresses.RunGuarded | ccvm/server.go:203-274 | on every run an allocated or restored address is given to no later instance |
| ServiceAddresses.ExhaustedExactly | ccvm/server.go:218-229 | on every run no address is left to allocate if and only if each of the 254 was once recorded for an instance, whether it still exists or not |
| ServiceWitnesses.ExhaustionHappens | ccvm/server.go:579-588 | after 254 failed creations there is no instance and no address for one |
| ServiceLimits.OrphanForever | ccvm/server.go:592-595 | a loop that no name leads to stays so, and shutdown never ends |
| ServiceLimits.TwoCallsPanic | ccvm/api.go:64-91 | two Result calls in flight for one id make that happen |
| ServiceLimits.TimerUnderWork | ccvm/api.go:81-91 | StopResult called for a running creation takes its first line, and the idle timer runs under the creation |
| ServiceLimits.CommandProceeds | ccvm/server.go:380-387 | a loop a command is waiting for can go on exactly when it is not reporting a creation on a full channel |
| ServiceLimits.StallIsForever | ccvm/server.go:112-122 | such a stall with nobody reading lasts through every run |
| ServiceLimits.StallHappens | ccvm/server.go:174-180 | one creation with 256 unread lines and one command lead to it |
| InstanceCode.InstanceLoop.Receive | ccvm/server.go:133-173 | the whole new state of loop and channels after a command: deleted, busy creating, creation started or executing |
| ServiceCode.CcvmService.StartInstanceLoop | ccvm/server.go:203-216 | a new instance enters all four tables at once |
| ServiceCode.CcvmService.FindExistingInstances | ccvm/server.go:239-274 | restores exactly the readable instances whose address is still free |
| ServiceCode.CcvmService.FindInstance | ccvm/server.go:276-294 | the named instance, or the only one for an empty name |
| ServiceCode.CcvmService.Create | ccvm/server.go:314-369 | the whole new state after a create request, including every refusal |
| ServiceCode.CcvmService.Command | ccvm/server.go:371-468 | the whole new state after stop, start, quit, delete and status |
| ServiceCode.CcvmService.ProcessStart | ccvm/server.go:484-506 | the whole new state after a start action |
| ServiceCode.CcvmService.ProcessComplete | ccvm/server.go:520-533 | the whole new state after a completion, with the idle timer |
| ServiceCode.CcvmService.LoopHasDied | ccvm/server.go:579-588 | the whole new state after an instance's death; cutting the case list at the index removes that instance only |
| ServiceCode.CcvmService.CloseInstances | ccvm/server.go:592-594 | closes, in any map order, the command channel of every loop that is still open, once each |
| ServiceCode.CcvmService.Run | ccvm/server.go:124-192 | service, name generator, instance loops, creations and Result calls, each executing its own code on its own object, refine the step system under every schedule; while there are fewer instances than names the run has free generated names, so that all theorems about runs hold of the code |
| ServiceCode.CcvmService.ChooseName | ccvm/server.go:315-334 | the name of a new instance, which is free if it is generated and there are fewer instances than names |
| InstanceCode.ReceiveOne | ccvm/api.go:151-165 | what one Result call receives, and when it completes the transaction |
| InstanceCode.FollowCreate | ccvm/api.go:124-170 | a client that repeats CreateResult sees every line and then the one terminal value, and leaves nothing unread |
| YamlSplit.FindDocument | ccvm/workload.go:403-456 | cuts off exactly the last document, never out of range, and always shortens the input |
| YamlSplit.SplitYaml | ccvm/workload.go:458-479 | the backward loop returns the documents of the left-to-right reference |
| YamlSplit.CutLast | ccvm/workload.go:403-456 | removing the last document and reading the rest forward is reading everything forward |
| YamlLaws.BodySplits | ccvm/workload.go:403-456 | lines without a marker are one document, with or without an end marker |
| YamlLaws.StartSplits | ccvm/workload.go:429-437 | so are the lines below a start marker, even if there are none |
| YamlLaws.EndSeparates | ccvm/workload.go:411-427 | an end marker closes what was open, and what follows begins afresh |
| YamlLaws.StartSeparates | ccvm/workload.go:429-437 | a start marker, with the `%` lines directly above it, closes what was open, and what it begins does not depend on what was before |
| YamlLaws.OnlyPrefixes | ccvm/workload.go:411-427 | what follows a marker on its line does not matter |
| YamlLaws.DirectiveText | ccvm/workload.go:431-436 | what a `%` line directly above a start marker says does not matter |
| YamlLaws.ContentSurvives | ccvm/workload.go:449-453 | every line that begins with none of the three prefixes survives, once and in order |
| YamlLaws.FourDashes | ccvm/workload_test.go:40-56 | a line of four dashes begins a document |
| YamlSplit.Prefixes | ccvm/workload.go:411-433 | the three tests are tests for the prefixes |
| YamlSplit.SplitConserves | ccvm/workload.go:403-479 | the documents in order are the input without markers and without the `%` lines directly before a start marker |
| YamlSplit.SplitLines | ccvm/workload.go:417-427 | no document contains a line that begins with `---` or `...`, or a line that was not in the input |
| YamlSplit.ScanRender | ccvm/workload.go:449-469 | scanning undoes rendering, whatever follows |
| YamlSplit.RenderScan | ccvm/workload.go:449-469 | rendering undoes scanning exactly on newline-terminated text |
| YamlSplit.RoundTrip | ccvm/workload.go:56-78 | for any number of documents, splitting the frame gives them back if and only if each is newline-terminated and free of marker lines |
| YamlSplit.Save | ccvm/workload.go:56-78 | writes the frame of the two documents, byte for byte |
| YamlSplit.Restore | ccvm/workload.go:386-401 | accepts exactly two documents |
| YamlSplit.SaveRestore | ccvm/workload.go:56-78 | saving and restoring is lossless exactly on clean text, an empty second document included |
| YamlSplit.StartInstance | ccvm/ccvm.go:318-351 | a start restores two documents and saves the new specification with an empty second one |
| YamlSplit.LiveThrough | ccvm/workload.go:386-401 | created and started any number of times, an instance keeps its latest specification, and its user data if and only if there are none or it was never started |
| CloudConfig.ConfigMap.RemoveEmpty | ccvm/workload.go:304-309 | exactly the empty entries go |
| CloudConfig.ConfigMap.FillMapping | ccvm/workload.go:251-258 | the parent's entries fill gaps, in any order |
| CloudConfig.ConfigMap.MergeKey | ccvm/workload.go:226-261 | one key of the parent: copied, concatenated, filled in or overridden, or refused with nothing changed, exactly when a parent's sequence or mapping meets a value of another kind |
| CloudConfig.ConfigMap.MergeFrom | ccvm/workload.go:224-264 | success and result do not depend on map order; it fails exactly when a parent's sequence or mapping meets another kind; no nil survives to the reflection calls |
| CloudConfig.Parse | ccvm/workload.go:266-319 | the recursion over the chain, its merges always called without nil values |
| CloudConfig.ParseMeaning | ccvm/workload.go:224-319 | over a chain of any length: success if and only if no key changes kind below a sequence or mapping, and then every sequence is the root-to-leaf concatenation and every scalar and mapping entry the nearest definition |
| CloudConfig.ScalarsOverride | ccvm/workload.go:261 | a chain of scalars always parses, to the leaf-most one |
| CloudConfig.ParseLevel | ccvm/workload.go:304-316 | one level of inheritance, key by key, in terms of what the parent parses to |
| CloudConfig.NearestEntry | ccvm/workload.go:251-258 | the value of a mapping entry comes from the last level that has it |
| CloudConfig.MergeAssociative | ccvm/workload.go:224-264 | the two orders of merging three levels agree if and only if the leaf-first order fails or no scalar stands between two containers |
| CloudConfig.Generate | ccvm/workload.go:321-345 | the finished command is last in the concatenated runcmd, all else is untouched; the exact conditions for the error and for the panic |
| KeyedMerge.MergeShape | types/types.go:97-113 | old positions are kept and overridden in place, new entries follow in the order supplied |
| KeyedMerge.MergeLookup | types/types.go:97-113 | for every key, which entry a lookup finds afterwards |
| KeyedMerge.MergeUnique | types/types.go:97-113 | keys are unique afterwards if and only if the old ones were and the added ones are |
| KeyedMerge.MergeIdempotent | types/types.go:97-113 | a second identical merge changes nothing |
| Workload.VMSpec.MergeMounts | types/types.go:97-113 | the in-place loops are the keyed merge by tag |
| Workload.VMSpec.MergePorts | types/types.go:117-133 | the same by guest port |
| Workload.VMSpec.MergeDrives | types/types.go:137-153 | the same by path |
| Workload.VMSpec.MergeCustom | types/types.go:159-192 | the new spec, and what each of the two errors leaves behind |
| WorkloadLaws.CustomWins | types/types.go:159-192 | every field, mount, port and drive that a customisation sets wins, and every other stays |
| WorkloadLaws.CustomRefused | types/types.go:160-185 | refused for a mount whose path is not an existing absolute directory, and otherwise only if no host address is known |
| WorkloadLaws.Keys | types/types.go:97-153 | entries are told apart by tag, guest port and path |
| Workload.VMSpec.SSHPort | types/types.go:196-203 | the host port of the first mapping of guest port 22 |
| Workload.VMSpec.MergeParent | types/types.go:206-224 | own scalars win, the parent's list entries win |
| Workload.VMSpec.EnsureSSHPortMapping | ccvm/workload.go:80-95 | adds 10022 to 22 only if guest port 22 is not mapped |
| Workload.WorkloadObject.MergeFrom | ccvm/workload.go:205-220 | inheritance of one workload |
| Workload.CreateWorkload | ccvm/workload.go:347-384 | the recursion over the chain builds the specified workload |
| Workload.ScalarsNearest | ccvm/workload.go:205-220 | over a chain of any length every scalar is the first set value from leaf to default, and nesting is required if any level requires it |
| Workload.RootDecides | types/types.go:206-224 | the level nearest to the root decides every mount and drive |
| Workload.RootDecidesSSH | ccvm/workload.go:371-381 | the SSH port is the root's, or 10022 |
| WorkloadLaws.RootDecidesPorts | types/types.go:206-224 | every other port is decided by the level nearest to the root that maps it |
| WorkloadLaws.OwnFields | ccvm/workload.go:205-220 | name, BIOS, inherits and host address are a workload's own |
| WorkloadLaws.Defaults | ccvm/instance.go:50-70 | what a workload that sets nothing gets |
| Workload.CreatedUnique | types/types.go:206-224 | unique keys at every level give unique keys in the result |
| Workload.CustomiseAllKeepsSSH | types/types.go:117-133 | any number of customisations keeps a mapping of guest port 22 |
| Workload.SSHReachable | ccvm/workload.go:347-384 | whatever a workload says and however it is customised afterwards, SSHPort succeeds |
| Names.NameGenerator.constructor | ccvm/name.go:101-113 | after fill and shuffle, with any swap partners, the table holds every pair exactly once |
| Names.FilledIsAll | ccvm/name.go:103-108 | the nested loops fill in every pair once |
| Names.SwapKeeps | ccvm/name.go:109-112 | a swap keeps that |
| Names.RenderInjective | ccvm/name.go:127 | different pairs of words give different names |
| Names.NameGenerator.MakeRandomName | ccvm/name.go:119-128 | the name at the counter, which advances cyclically |
| Names.NameGenerator.NamesDistinct | ccvm/name.go:119-128 | different positions of the table hold different names |
| Names.NameGenerator.TakeAll | ccvm/name.go:115-128 | as many calls as there are names, from any counter, give every adjective and noun joined by a dash, once each |
| Names.NameGenerator.NewInstanceName | ccvm/server.go:296-312 | returns a free name if and only if one exists, otherwise a used one |
| Names.NameGenerator.SomeNameFree | ccvm/name.go:115-128 | fewer instances than names leave a name free |
| HostIPs.FreeIPLeast | ccvm/server.go:218-229 | the least free address of the block; none exactly when all 254 are taken |
| HostIPs.FindFreeIP | ccvm/server.go:218-237 | the loop finds it without leaving 32 bits, and returns bytes that flatten to it |
| HostIPs.FlattenSplit | ccvm/server.go:194-201 | flattening undoes the byte split |
| HostIPs.SplitFlatten | ccvm/server.go:231-236 | the byte split undoes flattening |
| HostIPs.UserBlock | ccvm/server.go:694 | the block of a user is 127, the second and the first byte of the user id, and 1 to 254 |

## Left out

- QEMU and QMP control, ISO and root file system creation, SSH and the in-guest HTTP server (`ccvm/vm.go`, `ccvm/prepare.go`, most of `ccvm/ccvm.go`): other processes; a backend call is a number of lines, of download requests and an outcome.
- What cancelling a context does inside a backend or a transfer: every call but an untaken request for a download returns, cancelled or not; only the set of cancelled transactions is kept.
- HTTP transfer, the file system and `unxz`: only their outcome enters.
- YAML marshalling, Go templates and URL parsing: values arrive parsed; keys of nested mappings are strings here, and a chain of workloads arrives as a finite list of parsed documents, so loading errors and cyclic inheritance are not modelled.
- The aliasing of slices and maps between the levels of one parse: the parent's result is discarded after the merge, and values are copied here.
- The line scanner's 64 KB limit and its removal of carriage returns: lines end at newlines only.
- RPC transport, systemd activation, signal handling and the one-minute duration of the idle timer: a call interrupted by the signal is the step `Abandon`, the timer is stopped, running or expired.
- Integer widths other than the 32-bit addresses: sizes, ports and counters are unbounded.
- The hostname expression: a creation request says whether its name matches.
- The sorted list of instance names that `getInstances` returns: only that it answers once and closes.
- The randomness of the shuffle and the concrete word lists: the lists are parameters, non-empty, without repetition, and no adjective contains a dash.
- Proxy strings, log output, the command line client, operating system packages and the shipped workload files.
- Downloader.Manager.Start: the sends of one event are one step; the manager is a single goroutine, and `DownloadStalls` shows that taking them one by one, with clients that make it wait, adds no other behaviour than the wait.
- DownloadStalls.StallHappens: the room of the channel a callback prints to is a counter of its own; that it is the result channel of a transaction of `ServiceModel` is not expressed.
- ServiceCode.CcvmService.Run: which party moves next is the schedule's choice; a loop of the source that blocks inside (the drain) appears as one step per iteration.
- ServiceShutdown.ShutdownEndsExactly: that the download manager is in its loop is one bit, which it clears at some time after the signal; how long its downloads keep it there, and a manager that is stalled (`DownloadStalls`), are not part of that model. A creation's lines and download requests may come in any order.
- Workload.VMSpec.MergeCustom: `CheckDirectory` consults a fixed set of existing directories.
