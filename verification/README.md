# A model of the archive module

The archive module follows channels of a public ledger, lists the items inscribed there, and preserves
items by storing their files. This project models its logic in Dafny and proves what the module is for:

- **The scan machine** (`LezClient`). A followed channel is read in pages of 2000 slots, at most 100 pages a
  refresh, each scan pinned to one gateway, resumed from a stored cursor, cut short by failures, oversized
  bodies, unfollows and restarts. Every reachable state agrees with one decode of the whole covered interval.
- **The preserve machine** (`ArchivePlugin` over `StorageClient`). A manifest, then file by file a download,
  a check and an upload; pins and reseeds; unpins; a queue drained one item at a time. The invariants of its
  runs are given with the exact steps that break them.
- **Two parsers and a list diff.** The keeper label splitter, the `files.xml` token loop and `syncListModel`.

## How the files fit together

| file | what it holds |
|---|---|
| `Basics.dfy` | optional values, string operations |
| `Labels.dfy` | the label splitter, its candidates, the round trip through a label |
| `IaFiles.dfy` | the manifest token loop against a document tree, the checksum policy |
| `Inscriptions.dfy` | `extractItems`: loops, their specification, the counters |
| `Channels.dfy` | one page merged into a channel; agreement of a channel with the chain |
| `Persistence.dfy` | the state file: save, load, what a restart changes |
| `ScanSteps.dfy` | the scan handlers as functions; who owns an outstanding reply |
| `ScanRuns.dfy`, `ScanTheorems.dfy` | runs against gateways; the invariant, handler by handler |
| `ScanResults.dfy`, `ScanProgress.dfy`, `ScanPages.dfy` | the main results about scanning |
| `ScanRows.dfy` | what the rows say about the chain |
| `ScanSaved.dfy` | what the state file holds at every point of a run |
| `ScanSignals.dfy` | what listeners are told, whose turn it is to answer, where a fresh follow starts |
| `LezClient.dfy` | the class, each method equal to its function in `ScanSteps` |
| `StorageClient.dfy` | readiness and in-flight guards, and the class |
| `StorageAnswers.dfy` | what each signal says and each call asks, over every order of events |
| `PreserveSteps.dfy` | the preserve handlers as functions |
| `PreserveRuns.dfy` | the machine in step: one right task for each job, and what an exact run is |
| `PreserveServed.dfy` | an item that nothing goes wrong with ends mirrored |
| `PreserveFutures.dfy` | what "mirrored" means over whole runs, and why exactly the allowed steps keep it |
| `PreserveOwnership.dfy`, `PreserveQueue.dfy`, `PreserveUnpins.dfy`, `PreserveProgress.dfy` | one invariant each |
| `PreserveAccounting.dfy` | why exactly the steps that keep the owners of mirroring rows do |
| `PreserveInCalls.dfy` | a transport that answers pins and unpins before the call returns |
| `PreserveCourses.dfy` | how each course ends: pins, re-seeds, preserves that break off, cancellations |
| `PreserveLists.dfy` | what changes rows and queue, and what commands answer |
| `PreserveOutcomes.dfy` | how rows become mirrored, how long a reseed lasts, the harmful interleavings |
| `PreserveResults.dfy` | the same results for every process from its start, and three whole runs |
| `ArchivePlugin.dfy` | the class, each method equal to its function in `PreserveSteps` |
| `ListModelSync.dfy` | the keyed list diff of the view |

The classes change their fields in place. Each method states its whole new state as a function of the old
one; the results are proved about those functions and therefore hold of the objects. Asynchronous replies are
events: an outstanding reply is part of the state, with what its handler captured. The lists `acts`, `completed`
and `settled`, the counter `tried` and `cargo`, which names the item whose re-seed file the outstanding upload
carries, are history that no handler reads.

## Claims the program's own text makes that do not hold as written

- The covered interval of a channel is `[startSlot, cursor]` only once the cursor is positive; at cursor 0
  nothing is covered, not even slot `startSlot` (`ScanResults.NothingCovered`, `ScanResults.CoveredSlots`).
- src/plugin/ArchivePlugin.cpp:403-407 says turning automatic preserving on retries failed items. They are
  queued, but lines 273-277 drop every item that is neither available nor pending, so none is retried
  (`PreserveQueue.FailedIsNotRetried`).
- src/plugin/ArchivePlugin.cpp:825-828 calls a cancellation harmless to storage. During an outstanding upload it
  is not: the old completion is taken for the next item and "completes" it without a download
  (`PreserveOutcomes.AbandonedUploadCompletesAnother`). `PreserveFutures.AllowedIsExact` says
  exactly which steps must not happen: those after which the run, continued by steps that are all allowed, can
  end an item preserve "mirrored" that was not stored entire, or a re-seed by a file that is not its own.
- src/plugin/ArchivePlugin.h:104-110 describes one re-seed and one item at a time. A re-seed can start beside a
  running item, and its file is then taken for the item's (`PreserveOutcomes.ReseedFeedsRunningItem`). While an
  upload of the item is outstanding the re-seed's file is refused instead, the item goes back to pending, and its
  upload then ends the re-seed: a row says "mirrored" of which nothing was stored
  (`PreserveResults.OthersUploadFromTheStart`).
- src/plugin/ArchivePlugin.cpp:112-115 ends a re-seed at any completed upload, its own download still running or not.
  The download's next report then shows the row as "mirroring" with nobody at work on it
  (`PreserveResults.StrandedFromTheStart`). `PreserveAccounting.KeepsOwnersIsExact` says exactly which steps make that
  possible.
- src/plugin/ArchivePlugin.cpp:402-406 says everything un-preserved in the channel is preserved now. The drain
  takes an item from the queue and ignores the refusal of its preserve, so an item whose CID is in flight for
  another is neither queued, running nor pinned (`PreserveQueue.BusyItemIsDropped`,
  `PreserveQueue.SecondOfOneCidIsLost`; `PreserveQueue.AutoOnTakesUpAll` has the exact condition). Those two runs need a
  transport that answers after the call. The one the program constructs answers inside it
  (src/logos_storage_transport.cpp:142-152); then no CID is in flight between commands, and an entry without an
  archive source is the only one a drain drops (`PreserveInCalls.NothingInFlight`).
- src/plugin/ArchivePlugin.cpp:787-789 says an unpreserve removes every stored file. For a collection entry whose
  CID reads `ia:…` it asks storage to remove that text and none of the files, and then forgets them
  (`PreserveUnpins.StoredFilesLeftBehind`, `PreserveUnpins.StoredFilesForgotten`).
- src/plugin/ArchivePlugin.cpp:147 says an item flips to available only once every file is removed. After one
  failed removal a later success still flips it (`PreserveUnpins.FailureForgotten`).
- A pending item is saved as pending but the queue is not saved, so a restart strands it
  (`PreserveQueue.BootQueue`: a process starts with a sound queue if and only if it loads no pending row).

## Model

| member | source | states |
|---|---|---|
| `Labels.DeriveIaCandidates` | src/lez_client.cpp:320-349 | the loop walking leftward from the first dot returns exactly the first four boundaries of the specification, the whole text when there is none |
| `Labels.CandidatesByWalking` | src/lez_client.cpp:340-348 | the search from each hyphen to the next one on its left lists the hyphens from right to left and stops at four |
| `Labels.CandidatesEnumerateBoundaries` | src/lez_client.cpp:338-348 | for every text: the candidates are the splits at the first four hyphens strictly between position 0 and the first dot, nearest to the dot first; each split rejoins to the text |
| `Labels.HeadAgreesWithRef` | src/lez_client.cpp:291-349 | for every CID and label: no candidate exactly when nothing matches, the first candidate is the reference stored with the item, never more than four |
| `Labels.LabelRoundTrip` | src/lez_client.cpp:331-348 | a label written for (id, file) gives that pair back at the index that counts the hyphens of the file's stem when that is below four, and otherwise not at all |
| `Labels.BareLabelRoundTrip` | src/lez_client.cpp:291-348 | the same for a label without an arrow note; a collection CID "ia:x" is the archive item x without a file |
| `Labels.KeeperTextOfBareLabel` | src/lez_client.cpp:300-308 | blanks around the text of a label are no part of it |
| `Labels.LineBreakAfterLabel` | src/lez_client.cpp:300-305 | a line break that ends the label, after the note or without one, is no part of the text |
| `Labels.LineBreakInNote` | src/lez_client.cpp:300-305 | a label whose note goes on after a line break is not matched |
| `Labels.DecodeEncode` | src/plugin/ArchivePlugin.cpp:475-477 | splitting a candidate at its bar returns the pair if and only if neither part contains a bar |
| `Labels.CaptureOfLabel` | src/lez_client.cpp:300-305 | the lazy capture of the label pattern ends where the arrow note begins, at its shortest matching length |
| `Labels.NoIdNoFile` | src/lez_client.cpp:291-318 | a reference without an id has no file, so deriving it again changes nothing |
| `IaFiles.ReadElementText` | src/ia_files.cpp:24-29 | the element text up to the end tag, or an error at a child element or a malformed token |
| `IaFiles.ParseIaFilesXml` | src/ia_files.cpp:7-50 | the token loop computes the recursive reading of the tokens for every token sequence |
| `IaFiles.ParseReadsDocument` | src/ia_files.cpp:16-49 | on the tokens of any document whose file elements hold leaf children: in document order, exactly the named files without a summation child, each with its last md5, sha1 and size, trimmed and lower-cased |
| `IaFiles.ErrorYieldsNoFiles` | src/ia_files.cpp:47-48 | any malformed token anywhere yields the empty list |
| `IaFiles.VerifyIaFile` | src/ia_files.cpp:52-68 | unverified exactly when neither digest is listed; a mismatch exactly when the bytes cannot be read or the digest that counts - the md5 if listed, else the sha1 - is not theirs |
| `IaFiles.ListedDigestsDecide` | src/ia_files.cpp:54-67 | bytes that agree with every listed digest are verified, whatever the unlisted one is; with an md5 listed it alone decides, without one the sha1 does |
| `IaFiles.NumeralsAreRead` | src/ia_files.cpp:28-29 | a size of decimal digits, with or without sign and leading zeros, is read as its number up to the 64-bit range and as 0 beyond |
| `IaFiles.OtherTextIsZero` | src/ia_files.cpp:28-29 | a size that is no numeral is 0 |
| `IaFiles.TextIsCleaned` | src/ia_files.cpp:24-27 | of a digest exactly what stands between white space is kept, capitals made small |
| `Inscriptions.KeeperItem` | src/lez_client.cpp:225-277 | the row built for a keeper record names its block, transaction, index and signer, the manifest's CID, the id of manifest, label or hash, and the reference derived from CID and label |
| `Inscriptions.Judge` | src/lez_client.cpp:185-277 | a row exactly for an inscription of this channel, within the size limit, that names content; the row says where it stands and what the manifest names; otherwise other channel, oversized, no JSON or no CID |
| `Inscriptions.ExtractItems` | src/lez_client.cpp:152-284 | the nested loops return one row for each preservable inscribe operation of the finalized blocks and no other, in chain order, each with its block's slot and id, its transaction's hash and index, its signer and what its manifest names; the counters are their tally |
| `Inscriptions.RowsReadOff` | src/lez_client.cpp:163-281 | rows and places correspond: strictly increasing places (block, transaction, operation), one for each row, and every place that inscribes a preservable item |
| `Inscriptions.CountersCount` | src/lez_client.cpp:183-281 | each counter is the number of operations its name says: of another channel, too large, unreadable, without content, matched |
| `Inscriptions.NotFinalizedAppend` | src/lez_client.cpp:167-170 | the blocks past the finalized end are counted one by one |
| `Inscriptions.ExtractFromBlock` | src/lez_client.cpp:163-282 | one block adds its inscriptions to list and counters |
| `Inscriptions.ExtractFromTx` | src/lez_client.cpp:174-281 | one transaction adds its inscriptions to list and counters |
| `Inscriptions.InscribedAppend` | src/lez_client.cpp:163-184 | the inscriptions of two runs of blocks are those of the first followed by those of the second |
| `Inscriptions.TallyConserves` | src/lez_client.cpp:183-281 | each inscription goes into exactly one counter |
| `Inscriptions.BoundIrrelevant` | src/lez_client.cpp:163-170 | decoding blocks that are final does not depend on how far beyond them the view is final |
| `Channels.AlreadyThere` | src/lez_client.cpp:579-580 | the search finds a row of that id if and only if there is one |
| `Channels.MergeFound` | src/lez_client.cpp:571-604 | the loop appends the first occurrence of every new id, moves a match to the duplicates otherwise, raises lastInscription and takes the last curator |
| `Channels.MergeIsFirstById` | src/lez_client.cpp:571-590 | merging a page into deduplicated rows equals deduplicating everything at once |
| `Channels.DecodeJoin` | src/lez_client.cpp:528-532 | decoding two adjacent slot intervals equals decoding their union |
| `Channels.PageOfChain` | src/lez_client.cpp:560-604 | a page served from the chain keeps a channel's agreement with the chain and its exact counters |
| `Channels.CountsConserve` | src/lez_client.cpp:588-600 | inscribe operations covered by a scan = matched + duplicate + other channel + oversized + not JSON + no CID |
| `Channels.AgreesUnique` | src/lez_client.cpp:573-586 | no two rows of a channel share an id |
| `ScanRows.EveryItemIsInscribed` | src/lez_client.cpp:207-281 | every item of an agreeing channel was inscribed in a covered slot, and has that block's slot and id, the transaction's hash and index, the signer and the manifest's names |
| `ScanRows.EveryInscriptionHasItsItem` | src/lez_client.cpp:565-590 | every inscription of a preservable item in the covered slots has an item of its id |
| `ScanRows.NewestIsARow` | src/lez_client.cpp:585-587 | the newest inscription is the largest slot of a block that holds one of the channel's items, and the curator signed the last of them |
| `Persistence.ChannelRoundTrip` | src/lez_client.cpp:790-934 | loading what was saved keeps cursor, start slot, order and stored CIDs of a channel, changes each row as the normalisation says and clears only transient fields |
| `Persistence.ItemRoundTrip` | src/lez_client.cpp:795-816 | a row saved and loaded is its normalisation: state reset, progress gone, a missing reference derived again |
| `Persistence.RestartTwice` | src/lez_client.cpp:846-934 | a second restart changes nothing; no channel is lost |
| `Persistence.RecordsWithoutIdAreDropped` | src/lez_client.cpp:870-880 | a record without a channel id is dropped, every other kept |
| `Persistence.ResetExactly` | src/lez_client.cpp:920-923 | the states a load changes are exactly mirroring and error |
| `Persistence.EssencesSurvive` | src/lez_client.cpp:895-925 | a restart does not change what a row is apart from its preserve state |
| `ScanSteps.DeliverOwned` | src/lez_client.cpp:451-605 | each reply keeps: every outstanding reply is owned by the context registered for its channel, every scanning channel is followed and waits for exactly one |
| `ScanSteps.FollowOwned` | src/lez_client.cpp:353-374 | following keeps that ownership |
| `ScanSteps.UnfollowOwned` | src/lez_client.cpp:400-411 | unfollowing keeps that ownership |
| `ScanTheorems.StepFaithful` | src/lez_client.cpp:353-605 | every event, restart and growing finality included, keeps the invariant between memory, state file, outstanding requests and chain |
| `ScanTheorems.RunFaithful` | src/lez_client.cpp:353-605 | so does every run |
| `ScanResults.EveryRunAgrees` | src/lez_client.cpp:517-605 | in every run each channel's rows are, up to preserve state, the first occurrences by id of one decode of its covered slots, newest slot and counters exact, and every saved state says the same |
| `ScanResults.NothingCovered` | src/lez_client.cpp:522-523 | at cursor 0 a channel has no rows |
| `ScanResults.CoveredSlots` | src/lez_client.cpp:522-532 | afterwards the covered slots are startSlot to cursor, and their decode depends on no gateway's end |
| `ScanResults.SameCursorSameItems` | src/lez_client.cpp:565-604 | two agreeing channels at one cursor have the same rows, newest slot and curator |
| `ScanResults.ResumeEqualsUninterrupted` | src/lez_client.cpp:543-605 | any two runs, however cut, restarted and failed over, on any gateways, show the same rows at the same cursor |
| `ScanResults.UnpinnedPage` | src/lez_client.cpp:432-434 | a page answered from a shorter view keeps the agreement if and only if the slots it lacks hold no new row, which is why a scan is pinned |
| `ScanResults.UnfollowCancels` | src/lez_client.cpp:400-411 | after an unfollow no reply for that channel is outstanding |
| `ScanResults.NoStaleReply` | src/lez_client.cpp:400-449 | whatever follows, refollowing the same id included, no context from before the unfollow holds a reply for it again |
| `ScanResults.StaleDeliveryHarmless` | src/lez_client.cpp:400-449 | so no delivery on such a context changes the refollowed channel |
| `ScanSaved.StepSaved` | src/lez_client.cpp:353-605 | every event keeps: the state file holds the followed channels and no other, each as memory has it unless a page of it is under way, and none ahead of memory |
| `ScanSaved.RestartLosesNothingFinished` | src/lez_client.cpp:790-934 | from the start, whatever happened: a restart follows the same channels, and one that is not scanning comes back with the same start slot, cursor, synced mark, newest slot, curator, name, mode and rows |
| `ScanSaved.FinishedIsOnDisk` | src/lez_client.cpp:517-557 | when a scan is reported finished its channel is on disk as memory has it; reported as reached, every slot up to the finalized end is covered |
| `ScanSignals.EverythingIsTold` | src/lez_client.cpp:517-604 | while a channel stays followed, each new row is announced once and in order, and the scans begun are those reported finished and the one under way |
| `ScanSignals.GatewaysTakeTurns` | src/lez_client.cpp:86-130 | after n failures of whatever kind the n-th gateway after the first is active |
| `ScanSignals.HealthIsShown` | src/lez_client.cpp:86-130 | offline after a failure, else what the node calls itself |
| `ScanSignals.RestartBeginsAnew` | src/lez_client.cpp:25-30 | a new process is offline with the first gateway active, nothing outstanding and nothing told |
| `ScanSignals.OnlyEndedContextsGo` | src/lez_client.cpp:422-443 | disposing of the context of an ended scan takes no outstanding reply with it |
| `ScanSignals.FollowAsksForInfo` | src/lez_client.cpp:422-486 | a fresh follow asks the explorer only without a start slot, takes over and saves the slot it names, and then asks for the finalized end |
| `ScanSignals.FirstPageStartsThere` | src/lez_client.cpp:422-536 | the first page begins at the slot given, else at the explorer's, else at 0 |
| `ScanSignals.LostPageKeepsTheChannel` | src/lez_client.cpp:543-557 | a page lost or too large leaves the channel as it was, but for the count of oversized bodies, and ends the scan |
| `ScanSignals.SettingsSurvive` | src/lez_client.cpp:378-398 | the first 64 characters of a name and the automatic mode survive a restart |
| `ScanSignals.MarksSurvive` | src/lez_client.cpp:718-757 | a saved mark of the preserve machinery survives a restart, mirroring and error reset |
| `ScanPages.PagesTile` | src/lez_client.cpp:517-532 | the pages merged by all scans of a followed channel tile its covered slots in order without gap or overlap |
| `ScanProgress.OnePage` | src/lez_client.cpp:517-604 | one served page covers the next 2000 slots or the rest, then the scan ends or waits for the page after it |
| `ScanProgress.UninterruptedPages` | src/lez_client.cpp:517-604 | N slots with p pages to go: min(p, ceil(N/2000)) pages, min(N, 2000p) slots, end reported exactly when N fits |
| `ScanProgress.UninterruptedRefresh` | src/lez_client.h:79-80 | a refresh over N slots fetches min(100, ceil(N/2000)) pages, covers min(N, 200000) slots, reports reachedLib exactly when N <= 200000 |
| `ScanProgress.ChainedRefreshes` | src/plugin/ArchivePlugin.cpp:157-170 | at a fixed end chained refreshes finish after exactly max(1, ceil(N/200000)) scans |
| `LezClients.LezClient.constructor` | src/lez_client.cpp:25-30 | a new client follows nothing and has written nothing |
| `LezClients.LezClient.SaveState` | src/lez_client.cpp:790-844 | the loops write one record per channel, rows in order |
| `LezClients.LezClient.Restart` | src/lez_client.cpp:846-934 | a new process holds what the last written state says and nothing outstanding |
| `LezClients.LezClient.StartScan` | src/lez_client.cpp:422-443 | a new context, counters cleared, gateway pinned, the explorer asked only for a fresh follow without a start slot |
| `LezClients.LezClient.FollowChannel` | src/lez_client.cpp:353-374 | the new channel is saved before its scan starts; refused if followed |
| `LezClients.LezClient.UnfollowChannel` | src/lez_client.cpp:400-411 | channel and context are gone and saved |
| `LezClients.LezClient.RefreshChannel` | src/lez_client.cpp:413-420 | starts a scan unless one runs |
| `LezClients.LezClient.SetChannelLabel` | src/lez_client.cpp:378-387 | the first 64 characters, saved |
| `LezClients.LezClient.SetAutoPreserve` | src/lez_client.cpp:389-398 | the flag, saved |
| `LezClients.LezClient.OnExplorerChannel` | src/lez_client.cpp:451-472 | asks for the first block or falls through to the finalized end |
| `LezClients.LezClient.OnExplorerBlock` | src/lez_client.cpp:473-486 | a positive slot becomes the start slot and is saved |
| `LezClients.LezClient.OnInfo` | src/lez_client.cpp:489-515 | a finalized end starts the pages, anything else ends the scan and fails over |
| `LezClients.LezClient.ScanNextPage` | src/lez_client.cpp:517-536 | the next page, or the end - saved, as `ScanSaved.FinishedIsOnDisk` says; its assertion that the channel is there is a precondition every caller meets |
| `LezClients.LezClient.FailPage` | src/lez_client.cpp:543-557 | a failed or oversized page keeps the cursor, saves, fails over and reports |
| `LezClients.LezClient.MergeBlocks` | src/lez_client.cpp:560-604 | rows, newest slot, curator, cursor and all counters of the channel after a page |
| `LezClients.LezClient.OnPage` | src/lez_client.cpp:538-605 | a page reply, all branches |
| `LezClients.LezClient.OnHealth` | src/lez_client.cpp:86-130 | the health answer and its failover |
| `StorageClients.UploadsConserved` | src/storage_client.cpp:24-30 | over every event order: uploads asked for + refusals while idle = uploadFinished signals + the outstanding one |
| `StorageClients.PinsConserved` | src/storage_client.cpp:73-84 | over every event order: pins asked for + fetches nobody waits for = pinFinished signals + outstanding CIDs |
| `StorageClients.EveryCallAnsweredOnce` | src/storage_client.cpp:73-100 | with a transport that acknowledges inside the call and answers each fetch once, nothing is answered twice or lost |
| `StorageClients.NoStrayFetches` | src/storage_client.cpp:79-83 | no surplus pin answer if and only if every fetch answer was awaited |
| `StorageAnswers.PinsAreAnsweredTruly` | src/storage_client.cpp:73-84 | over every event order, for each CID: pins reported good are the fetches that succeeded; pins reported failed with an error are the fetches that failed so, and for "pin_in_progress" also the calls beside an outstanding one |
| `StorageAnswers.UploadsAreAnsweredTruly` | src/storage_client.cpp:24-30 | uploads reported good under a CID are the completions with it that found one outstanding; failures carry the completion's error, the transport's refusal, or "upload_in_progress" |
| `StorageAnswers.RemovalsAreAnsweredTruly` | src/storage_client.cpp:102-112 | removals reported good are those that succeeded or said "not found" in letters of any case; the others carry their error |
| `StorageAnswers.CallsAreAskedFor` | src/storage_client.cpp:73-112 | the transport is called once for each pin, upload, removal, bring-up and ping that is due, and for nothing else |
| `StorageAnswers.ListenersKnowTheState` | src/storage_client.cpp:8-12 | the last health signal says the state |
| `StorageAnswers.BringUpsCount` | src/storage_client.cpp:14-50 | a bring-up is in flight exactly from its begin to its answer; each one begun subscribes to the start event once more, the first also to the end of uploads |
| `StorageAnswers.VerdictsCount` | src/storage_client.cpp:33-71 | each verdict of the node is taken over |
| `StorageClients.ForeignCompletionThenRefusal` | src/storage_client.cpp:24-30 | with late acknowledgements one upload can finish twice |
| `StorageClients.OneUploadAtATime` | src/storage_client.cpp:86-92 | between two uploads handed to the transport the first was settled |
| `StorageClients.ReadyOnlyOnceUp` | src/storage_client.cpp:33-71 | ready only after the node was fully up; whether it ever was is remembered exactly |
| `StorageClients.PingRestores` | src/storage_client.cpp:56-70 | once up, a successful ping after a failed one restores ready |
| `StorageClients.StorageClient.InitStorage` | src/storage_client.cpp:14-50 | subscriptions first, one bring-up in flight |
| `StorageClients.StorageClient.OnStarted` | src/storage_client.cpp:33-37 | the start event reaches every subscription |
| `StorageClients.StorageClient.OnInitDone` | src/storage_client.cpp:38-49 | offline, ready for a running instance, starting otherwise |
| `StorageClients.StorageClient.PollHealth` | src/storage_client.cpp:52-56 | no ping during bring-up |
| `StorageClients.StorageClient.OnPing` | src/storage_client.cpp:56-70 | the three outcomes of a ping |
| `StorageClients.StorageClient.Pin` | src/storage_client.cpp:73-79 | one fetch per CID |
| `StorageClients.StorageClient.OnFetched` | src/storage_client.cpp:79-83 | the CID is free again and the answer passed on as `StorageAnswers.PinsAreAnsweredTruly` says |
| `StorageClients.StorageClient.Upload` | src/storage_client.cpp:86-93 | refused while one is outstanding |
| `StorageClients.StorageClient.OnUploadAck` | src/storage_client.cpp:93-99 | a refusal frees the slot and is reported |
| `StorageClients.StorageClient.OnUploadDone` | src/storage_client.cpp:24-30 | a completion counts only while one is outstanding |
| `StorageClients.StorageClient.OnRemoved` | src/storage_client.cpp:102-112 | "not found" counts as removed |
| `PreserveSteps.KeptIffAllowed` | src/plugin/ArchivePlugin.cpp:75-284 | a property that each step keeps exactly when allowed holds throughout a run exactly when every event of it was allowed |
| `PreserveSteps.AlwaysIffAllowed` | src/plugin/ArchivePlugin.cpp:75-284 | when each step is allowed exactly if the property holds after every allowed continuation of it, a run is allowed exactly if that is so at each of its points |
| `PreserveRuns.StepSound` | src/plugin/ArchivePlugin.cpp:88-133 | one step keeps "every running job has exactly its one download or upload outstanding, every finished run is exact, every finished reseed stored its own file" if and only if it is no cancellation during the item's upload, no reseed beside a running item, no stored file without CID |
| `PreserveRuns.InStepThroughout` | src/plugin/ArchivePlugin.cpp:599-733 | a whole run keeps that at every point if and only if each of its events was allowed when it came |
| `PreserveFutures.AllowedIsExact` | src/plugin/ArchivePlugin.cpp:88-133 | from a machine in step, a step is allowed if and only if no allowed continuation of it ever ends an item preserve mirrored inexactly or a reseed mirrored by an upload that is not of its own file |
| `PreserveFutures.MirroredMeansStored` | src/plugin/ArchivePlugin.cpp:599-733 | over whole runs, restarts included: every event was allowed when it came if and only if at no point an item preserve has ended, or by allowed events can still end, in mirrored without each manifest entry fetched, checked and stored once in order, CIDs in manifest order, unverified = entries without checksum, all bytes done, nor a reseed without its own file stored |
| `PreserveFutures.CompletedAreExact` | src/plugin/ArchivePlugin.cpp:645-667 | in a run of allowed events every item preserve that ended in mirrored did so exactly, and every reseed by its own file |
| `PreserveFutures.AbortIsUnsafe` | src/plugin/ArchivePlugin.cpp:823-842 | after a cancellation during the upload, preserving the same item again can end it mirrored with nothing fetched |
| `PreserveFutures.JoiningIsUnsafe` | src/plugin/ArchivePlugin.cpp:444-471 | after a reseed has started beside a running item, whatever the item waits for, an allowed continuation ends the item mirrored with a file skipped or the reseed mirrored by the item's upload |
| `PreserveFutures.BehindIsUnsafe` | src/plugin/ArchivePlugin.cpp:645-667 | a run with fewer CIDs or acts than files behind it can still end mirrored, and then does so inexactly |
| `PreserveServed.FileServed` | src/plugin/ArchivePlugin.cpp:710-732 | one file that arrives, passes and is stored takes the run to its next file or to mirrored |
| `PreserveServed.FilesServed` | src/plugin/ArchivePlugin.cpp:645-733 | from any point of a run, k files served move it on k files with their k CIDs in order, and the last one ends it in mirrored |
| `PreserveServed.ServedItemIsMirrored` | src/plugin/ArchivePlugin.cpp:599-733 | an item of n files that all arrive, pass and are stored is mirrored with the n-th upload, holding the n CIDs in manifest order, and not before |
| `PreserveCourses.ItemBreaksOff` | src/plugin/ArchivePlugin.cpp:599-733 | after any number of files served: a file that cannot be fetched or mismatches fails the item, one that storage does not take, at once or in the end, leaves it pending and queued |
| `PreserveCourses.FileBreaksOff` | src/plugin/ArchivePlugin.cpp:710-732 | the same at any point of a run |
| `PreserveCourses.ManifestBreaksOff` | src/plugin/ArchivePlugin.cpp:621-634 | no manifest, or one without files, fails the item |
| `PreserveCourses.FetchesTheNamedArchive` | src/plugin/ArchivePlugin.cpp:735-760 | a preserve fetches the manifest of the archive item in the CID "ia:…", else of the one named beside it, and then its first listed file from there |
| `PreserveCourses.PinSucceeds` | src/plugin/ArchivePlugin.cpp:75-81 | on any machine, whatever runs: a pin that succeeds makes its row mirrored with progress 0 and changes nothing else but the books |
| `PreserveCourses.PinnedItemEndsMirrored` | src/plugin/ArchivePlugin.cpp:75-87 | an accepted preserve by CID shows its row mirroring; after any events that neither answer for the CID nor take the row away, a good answer ends it mirrored, and a bad one failed or re-seeding |
| `PreserveCourses.ReseedTriesInTurn` | src/plugin/ArchivePlugin.cpp:473-531 | the candidates are downloaded in order, each after the failure of the one before, and the item fails after the last |
| `PreserveCourses.ReseedEnds` | src/plugin/ArchivePlugin.cpp:112-132 | a candidate that arrives is uploaded; kept, its item is mirrored, and otherwise failed |
| `PreserveCourses.AbortedIsFree` | src/plugin/ArchivePlugin.cpp:823-842 | a cancelled item is available, not running and out of the queue, where the others stay; a late answer to its download does nothing |
| `PreserveLists.RowsComeAndGo` | src/plugin/ArchivePlugin.cpp:363-382 | a row is there after a step exactly when it was and was not taken away, or is discovered or loaded |
| `PreserveLists.RowsAsTheyCome` | src/lez_client.cpp:895-925 | a discovered row is available; a loaded one keeps its stored CIDs, and its state unless that was mirroring or failed |
| `PreserveLists.RowsChangeOnlyIf` | src/plugin/ArchivePlugin.cpp:75-152 | a step changes no row but of the item it names, the item or re-seed it reports on, the owner of the CID it answers for, or the item a drain takes up |
| `PreserveLists.QueuedOnlyIf` | src/plugin/ArchivePlugin.cpp:174-207 | nothing enters the queue but an item sent back to wait, a wanted item of the channel automatic preserving is turned on for, or one discovered while it is on |
| `PreserveLists.BusyQueueTakesAll` | src/plugin/ArchivePlugin.cpp:397-424 | while the machine is busy: turning it on adds exactly the available and failed items of the channel up to 1 GiB, a discovery exactly the discovered ones while it is on |
| `PreserveLists.LeavesOnlyIf` | src/plugin/ArchivePlugin.cpp:266-284 | an item leaves the queue only by its cancellation, an emptied list, a restart - then always - or a drain that finds storage ready and nothing running |
| `PreserveLists.MirrorAnswers` | src/plugin/ArchivePlugin.cpp:735-778 | what each answer to a preserve means; one that is not taken changes nothing, one that is shows its row mirroring from 0 and makes it the running item or the owner of its CID |
| `PreserveLists.UnmirrorAnswers` | src/plugin/ArchivePlugin.cpp:780-812 | what each answer to an unpreserve means; a taken one announces its files and asks for each |
| `PreserveRuns.FetchRecorded` | src/plugin/ArchivePlugin.cpp:718-731 | a file that is no mismatch is handed over with its verdict counted |
| `PreserveFutures.NoCidIsUnsafe` | src/plugin/ArchivePlugin.cpp:104-110 | after a file kept without a CID the item can end, or has ended, mirrored with a CID missing |
| `PreserveOutcomes.MirroredOnlyIf` | src/plugin/ArchivePlugin.cpp:75-133 | a row turns mirrored only because its run completed (and then holds that run's CIDs), its pin succeeded, an upload completed while nothing ran and its reseed was registered, or a restart loaded it so |
| `PreserveOutcomes.MirroredHonestly` | src/plugin/ArchivePlugin.cpp:75-133 | in step and by an allowed event: then the completed run was exact, and the upload that completed the reseed carried the reseed's own file |
| `PreserveOutcomes.RefusedWithoutFile` | src/plugin/ArchivePlugin.cpp:456-466 | a reseed is refused exactly while another runs or when the item's reference names no file |
| `PreserveOutcomes.ReseedsFromItsLabel` | src/plugin/ArchivePlugin.cpp:444-480 | an item with a keeper label for (id, file), no hyphen in the stem, is re-seeded from exactly that file first: a failed pin starts the download of that pair |
| `PreserveOutcomes.ReseedTriesFew` | src/plugin/ArchivePlugin.cpp:473-523 | no reseed downloads more than four candidates, in any run |
| `PreserveOutcomes.AbandonedUploadCompletesAnother` | src/plugin/ArchivePlugin.cpp:823-842 | cancelling during an upload and starting another item completes that item with the old CID and no download |
| `PreserveOutcomes.ReseedFeedsRunningItem` | src/plugin/ArchivePlugin.cpp:444-471 | a reseed beside a running item stores its file as the item's current one, which is skipped |
| `PreserveOutcomes.ReseedBesideUpload` | src/plugin/ArchivePlugin.cpp:86-130 | a reseed that starts while an upload of the running item is outstanding: its own file is refused, the item goes back to pending, and the item's upload ends the reseed mirrored |
| `PreserveOutcomes.StrandedUploadSettlesReseed` | src/plugin/ArchivePlugin.cpp:112-132 | a stranded upload settles the next reseed, whose row is later set back to mirroring with no owner |
| `PreserveOwnership.StepOwned` | src/plugin/ArchivePlugin.cpp:75-152 | a step keeps "every mirroring row is the running item, the running reseed or waits for its pin, and no outstanding upload can complete a reseed that still downloads" if and only if it cancels no running item whose upload is outstanding beside a reseed's download, and starts no reseed while an upload is outstanding with nothing running or a running item has more than one task |
| `PreserveOwnership.OwnedThroughout` | src/plugin/ArchivePlugin.cpp:75-152 | over whole runs, overlaps and restarts included: that holds at every point if and only if each event kept it when it came |
| `PreserveOwnership.MirroringIsOwned` | src/plugin/ArchivePlugin.cpp:75-152 | in every such run each mirroring row is the running item, the running reseed or a value of the pin table |
| `PreserveAccounting.KeepsOwnersIsExact` | src/plugin/ArchivePlugin.cpp:112-132 | from an owned machine a step keeps the owners if and only if no continuation of steps that keep them ever shows a row mirroring that is neither the running item, nor the reseed, nor in the pin table |
| `PreserveAccounting.MirroringIsAccounted` | src/plugin/ArchivePlugin.cpp:75-152 | over whole runs, restarts included: every event kept the owners if and only if at no point a row is, or by such events can come to be, mirroring with nobody at work on it |
| `PreserveAccounting.UnclearIsUnsafe` | src/plugin/ArchivePlugin.cpp:444-506 | a reseed's download beside an upload nobody runs for, or beside two tasks of the running item, can leave its row mirroring unowned: the books emptied, the upload completes the reseed and the download reports |
| `PreserveAccounting.LongManifestRead` | src/ia_files.cpp:7-50 | for every n some manifest is read as n files |
| `PreserveOwnership.BootOwned` | src/lez_client.cpp:920-921 | a process that starts over any saved rows establishes it |
| `PreserveQueue.StepQueue` | src/plugin/ArchivePlugin.cpp:266-284 | a step keeps "every pending item waits in the queue, once" if and only if it is no restart that loads a pending row |
| `PreserveQueue.PendingIsQueued` | src/plugin/ArchivePlugin.cpp:567-587 | so do whole runs, at every point |
| `PreserveQueue.BootQueue` | src/lez_client.cpp:920-923 | a process starts with a sound queue if and only if it loads no pending row |
| `PreserveQueue.LeavesTheQueue` | src/plugin/ArchivePlugin.cpp:266-284 | an id at position p has left the queue after p + 1 drains that found storage ready and nothing in flight |
| `PreserveQueue.StepAdvances` | src/plugin/ArchivePlugin.cpp:203-204 | no step moves an item back; an effective drain moves it forward |
| `PreserveQueue.PendingRetried` | src/plugin/ArchivePlugin.cpp:272-282 | a drain whose first startable item is pending runs it again |
| `PreserveQueue.FailedIsNotRetried` | src/plugin/ArchivePlugin.cpp:397-424 | a failed row stays failed through every drain, also right after automatic preserving is turned on |
| `PreserveQueue.IdleMirror` | src/plugin/ArchivePlugin.cpp:735-778 | an idle machine accepts a preserve if and only if the item has an archive source or, being pinned by CID, its CID is not in flight |
| `PreserveQueue.DrainTakesUp` | src/plugin/ArchivePlugin.cpp:266-284 | a drain leaves a startable entry queued, running or pinned if and only if it does not take it to a refusal |
| `PreserveQueue.AutoOnTakesUpAll` | src/plugin/ArchivePlugin.cpp:402-421 | turning automatic preserving on: an available item of the channel within the cap is then queued, running or pinned if and only if it is not first in line on an idle machine that refuses it, for want of an archive source or because its CID is in flight |
| `PreserveQueue.DiscoveryTakesUpAll` | src/plugin/ArchivePlugin.cpp:174-207 | the same of a newly discovered item within the cap while it is on |
| `PreserveQueue.BusyItemIsDropped` | src/plugin/ArchivePlugin.cpp:272-282 | over a transport that answers later: turning it on for an item whose CID is in flight for another does nothing for it at all |
| `PreserveQueue.SecondOfOneCidIsLost` | src/plugin/ArchivePlugin.cpp:272-282 | over a transport that answers later: of two queued items of one CID the first is pinned and the second dropped at the next tick |
| `PreserveQueue.OversizeStaysManual` | src/plugin/ArchivePlugin.cpp:194-204 | unattended, nothing above 1 GiB enters the queue or starts |
| `PreserveUnpins.StepUnpins` | src/plugin/ArchivePlugin.cpp:134-152 | a step keeps "counter = outstanding unpins" if and only if no unmirror starts over repeated CIDs or beside its own leftovers and no unpin fails before the last |
| `PreserveUnpins.CountersAreOutstanding` | src/plugin/ArchivePlugin.cpp:780-812 | over whole runs, any number of unmirrors and any order of answers: each counter is the number of outstanding unpins of its item, at every point if and only if every step was orderly |
| `PreserveUnpins.CountsOf` | src/plugin/ArchivePlugin.cpp:800-807 | the counter of an item, or its absence, is the number of its outstanding unpins |
| `PreserveUnpins.FreedAtTheLast` | src/plugin/ArchivePlugin.cpp:146-152 | an item becomes available, stored CIDs cleared, exactly at its last answer |
| `PreserveUnpins.FailureForgotten` | src/plugin/ArchivePlugin.cpp:139-150 | after a failed unpin a later success makes the item available all the same |
| `PreserveInCalls.SynchronousAnswersAgree` | src/plugin/ArchivePlugin.cpp:800-807 | for distinct CIDs, answers that arrive inside the unpin loop leave the same state as the same answers later, failures included |
| `PreserveInCalls.UnmirroredAtOnce` | src/plugin/ArchivePlugin.cpp:800-807 | with answers inside the loop, for any stored list, repeated CIDs included, and any answers: nothing of the unmirror stays in the books, the row is available when the last removal succeeded and failed otherwise, and all succeeding it is freed with no stored CID |
| `PreserveInCalls.RepeatedCidNeverFreed` | src/plugin/ArchivePlugin.cpp:134-152 | with later answers a file stored twice is never freed: the second answer finds no item and the counter stays at one |
| `PreserveInCalls.NothingInFlight` | src/logos_storage_transport.cpp:142-152 | for every process over such a transport, whatever commands and replies come and however storage answers: between commands the books of pins and unpins are empty, no pin is refused for a CID in flight, and a preserve is refused only for want of an archive source |
| `PreserveInCalls.CallLeavesNothing` | src/plugin/ArchivePlugin.cpp:735-812 | one command with the answers given inside it leaves the books as empty as it found them |
| `PreserveUnpins.StoredFilesLeftBehind` | src/plugin/ArchivePlugin.cpp:787-796 | an unmirror asks for exactly the item's CID or its stored files; it misses stored files if and only if the CID starts with "ia:" and some are stored, and then it misses all |
| `PreserveUnpins.StoredFilesForgotten` | src/plugin/ArchivePlugin.cpp:146-152 | the answer to that unpin clears the row's stored CIDs, none of them asked for |
| `PreserveUnpins.StepStored` | src/plugin/ArchivePlugin.cpp:645-657 | no step gives stored CIDs to an item that is not preserved from the archive |
| `PreserveUnpins.PinNeverInProgress` | src/storage_client.cpp:73-78 | while the books are kept, an accepted preserve never pins a CID whose fetch is outstanding |
| `PreserveProgress.StepShows` | src/plugin/ArchivePlugin.cpp:695-707 | one step keeps the shown progress in 0..100 and does not move it back while the run lasts |
| `PreserveProgress.ProgressOnlyClimbs` | src/plugin/ArchivePlugin.cpp:695-707 | so over whole allowed runs with plausible reports, in both formulas |
| `PreserveProgress.NextFileGrows` | src/plugin/ArchivePlugin.cpp:106-109 | the next file starts no lower than the last one ended |
| `PreserveProgress.PercentRange` | src/plugin/ArchivePlugin.cpp:699-706 | both formulas stay in 0..100 |
| `PreserveProgress.ReportsShowTheBytes` | src/plugin/ArchivePlugin.cpp:694-709 | a report shows the whole percentage of the bytes arrived of all files; without sizes every file counts alike |
| `PreserveProgress.LateReportsShowNothing` | src/plugin/ArchivePlugin.cpp:694-698 | a report on a download that is over, or on a file of an item that does not run or has no manifest yet, changes nothing |
| `PreserveProgress.ReseedShowsTheBytes` | src/plugin/ArchivePlugin.cpp:504-508 | a report on a re-seed shows the whole percentage of its file |
| `PreserveResults.EveryProcessStoresWhatItMirrors` | src/plugin/ArchivePlugin.cpp:209-240 | for every process over every state file: all events allowed if and only if it was safe at every point, and then every item preserve that ended mirrored was stored entire and every reseed that did by its own file |
| `PreserveResults.EveryProcessOwnsWhatItMirrors` | src/plugin/ArchivePlugin.cpp:209-240 | for every process: every event kept the owners if and only if at no point a row is, or by such events can come to be, mirroring with nobody at work on it |
| `PreserveResults.EveryProcessQueuesWhatIsPending` | src/plugin/ArchivePlugin.cpp:209-240 | for every process: pending items wait in the queue at every point if and only if no state file it or a restart loads holds a pending row |
| `PreserveResults.EveryProcessCountsItsUnpins` | src/plugin/ArchivePlugin.cpp:209-240 | for every process: true counters at every point if and only if every step was orderly |
| `PreserveResults.EveryProcessShowsRisingProgress` | src/plugin/ArchivePlugin.cpp:695-707 | for every process of allowed events with plausible reports: progress in range, no step moves it back |
| `PreserveResults.EveryProcessReseedsBriefly` | src/plugin/ArchivePlugin.cpp:473-523 | for every process: no reseed downloads more than four candidates |
| `PreserveResults.EveryProcessStoresArchiveItemsOnly` | src/plugin/ArchivePlugin.cpp:645-657 | for every process whose storage names its files by CIDs of its own: only items preserved from the archive ever hold stored CIDs |
| `PreserveResults.AllowedKeepsOwners` | src/plugin/ArchivePlugin.cpp:823-842 | in step, every allowed step keeps the owners |
| `PreserveResults.AllowedRunsAreOwned` | src/plugin/ArchivePlugin.cpp:75-152 | so in a run of allowed events every step keeps the owners |
| `PreserveResults.FromStartToMirrored` | src/plugin/ArchivePlugin.cpp:599-733 | from the start of a process over any state file that lists it, an item served entire ends mirrored with its CIDs in order |
| `PreserveResults.OthersUploadFromTheStart` | src/plugin/ArchivePlugin.cpp:86-130 | a whole run from the start of a process that ends with a row mirrored of which nothing was stored, and the one event of it that is not allowed |
| `PreserveResults.StrandedFromTheStart` | src/plugin/ArchivePlugin.cpp:112-132 | a whole run from the start of a process that ends with a mirroring row nobody works on, and the one event of it that does not keep the owners |
| `ArchivePlugins.ArchivePlugin.constructor` | src/lez_client.cpp:895-925 | a process starts with the saved rows reset and nothing in flight |
| `ArchivePlugins.ArchivePlugin.StartIaPreserve` | src/plugin/ArchivePlugin.cpp:599-620 | a fresh run waiting for its manifest |
| `ArchivePlugins.ArchivePlugin.OnManifest` | src/plugin/ArchivePlugin.cpp:621-642 | failure, empty manifest, or the first file; the total is the sum of the sizes |
| `ArchivePlugins.ArchivePlugin.TotalSize` | src/plugin/ArchivePlugin.cpp:635-638 | the loop sums the listed sizes |
| `ArchivePlugins.ArchivePlugin.IaNextFile` | src/plugin/ArchivePlugin.cpp:645-693 | the next download, or mirrored with the stored CIDs |
| `ArchivePlugins.ArchivePlugin.OnFileProgress` | src/plugin/ArchivePlugin.cpp:694-709 | the shown percentage, division towards zero |
| `ArchivePlugins.ArchivePlugin.OnFile` | src/plugin/ArchivePlugin.cpp:710-732 | failure, mismatch, or handed to storage |
| `ArchivePlugins.ArchivePlugin.OnUploadFinished` | src/plugin/ArchivePlugin.cpp:88-133 | the running item owns the completion, else the reseed, else nobody |
| `ArchivePlugins.ArchivePlugin.IaFail` | src/plugin/ArchivePlugin.cpp:551-565 | run dropped, row failed |
| `ArchivePlugins.ArchivePlugin.IaPending` | src/plugin/ArchivePlugin.cpp:567-587 | run dropped, row pending, queued once |
| `ArchivePlugins.ArchivePlugin.StartReseed` | src/plugin/ArchivePlugin.cpp:444-471 | refused without a source or while another runs, else the first candidate |
| `ArchivePlugins.ArchivePlugin.TryReseedCandidate` | src/plugin/ArchivePlugin.cpp:473-506 | the first untried candidate is taken and downloaded |
| `ArchivePlugins.ArchivePlugin.OnCandidate` | src/plugin/ArchivePlugin.cpp:507-536 | upload, next candidate, or failure |
| `ArchivePlugins.ArchivePlugin.MirrorItem` | src/plugin/ArchivePlugin.cpp:735-778 | every refusal code, an item preserve, or a pin |
| `ArchivePlugins.ArchivePlugin.UnmirrorItem` | src/plugin/ArchivePlugin.cpp:780-812 | every refusal code, or the counter set and one unpin per file |
| `ArchivePlugins.ArchivePlugin.Unpins` | src/plugin/ArchivePlugin.cpp:803-807 | the loop notes the owner and asks for each file |
| `ArchivePlugins.ArchivePlugin.AbortPreserve` | src/plugin/ArchivePlugin.cpp:823-842 | out of the queue, run and tracked download dropped, row available; keeps the owners if and only if no upload of the item is left behind beside a reseed's download |
| `ArchivePlugins.ArchivePlugin.OnPinFinished` | src/plugin/ArchivePlugin.cpp:75-87 | mirrored exactly when the pin succeeded (`PreserveCourses.PinSucceeds`), else a reseed; keeps the owners if and only if it starts no reseed that an outstanding task could end |
| `ArchivePlugins.ArchivePlugin.OnUnpinFinished` | src/plugin/ArchivePlugin.cpp:134-152 | one file less, freed at the last, failed at once |
| `ArchivePlugins.ArchivePlugin.DrainAutoQueue` | src/plugin/ArchivePlugin.cpp:266-284 | the loop drops entries that cannot start and starts the first that can |
| `ArchivePlugins.ArchivePlugin.SetAutoPreserve` | src/plugin/ArchivePlugin.cpp:397-424 | the available and failed items of the channel within the cap are queued once, then a drain |
| `ArchivePlugins.ArchivePlugin.OnItemsDiscovered` | src/plugin/ArchivePlugin.cpp:174-207 | new rows within the cap are queued once if automatic preserving is on, then a drain |
| `ListModelSync.SyncListModel` | plugins/archive_ui/qml/Main.qml:64-82 | for every model and rows: the result and the exact number of mutations |
| `ListModelSync.IndexByKey` | plugins/archive_ui/qml/Main.qml:65-66 | the index remembers the last element of each key |
| `ListModelSync.UpdateRoles` | plugins/archive_ui/qml/Main.qml:74-77 | the element takes the row's values, with one mutation per role that differs |
| `ListModelSync.RemoveUnseen` | plugins/archive_ui/qml/Main.qml:80-81 | exactly the elements of unseen keys go, order kept |
| `ListModelSync.SyncedIs` | plugins/archive_ui/qml/Main.qml:62-63 | with distinct keys: the surviving elements in old order with row values, then the new rows in row order |
| `ListModelSync.SecondSyncChangesNothing` | plugins/archive_ui/qml/Main.qml:62-63 | with distinct keys: syncing the same rows again performs no mutation |
| `ListModelSync.SyncedKeys` | plugins/archive_ui/qml/Main.qml:80-81 | for every input, repeated keys included: the keys afterwards are those of the rows |
| `ListModelSync.RepeatedKeysNeverSettle` | plugins/archive_ui/qml/Main.qml:64-82 | with a repeated key a second sync still mutates |

## Left out

- Network and XML/JSON text: replies are events carrying decoded values or tokens; TLS, redirects and timeouts do not appear.
- `parseChannelRef` (src/lez_client.cpp:132-150): the reference arrives as a lower-case channel id, or "" for an invalid one, and a start slot.
- The explorer lookup is reduced to whether a first block is known and to its slot.
- The title, thumbnail and size preference chains of a manifest: one abstract display record.
- 32- and 64-bit overflow of slots, sizes, counters and of the percentage product; `ToLongLong` alone has its 64-bit range.
- Unicode white space and case: trimming and lower-casing are ASCII.
- The legacy `collections` key, the missing `txIndex`, and the rename of a corrupt state file; writing the state file always succeeds.
- Timers: a timer tick is an event that may come at any time; chained refreshes assume the gateway is not marked offline.
- Gateways serve well-formed slices of one chain whose finalized end never moves back, the gateway list does not change while a scan runs, and signal handlers do not re-enter the client.
- `removeItem` in the scan machine: a removed row is no longer the decode of the covered slots; the preserve machine has it.
- The two machines are separate: the preserve machine sees new rows as one event, the scan machine sees preserve marks as another.
- Ids are non-empty and distinct across followed channels, so the preserve machine keeps rows in a map and the order in which a channel lists them is a parameter.
- Temporary files and their names, hashing and streaming: digests are values, and two downloads that write one temporary file are not told apart.
- The abort of a finished but not yet deleted reply has no effect, as in the program; QPointer and deleteLater are not modelled further.
- StartPin: leaves out the storage client's immediate "pin_in_progress" answer to a pin whose fetch is outstanding; `PreserveUnpins.PinNeverInProgress` shows that it cannot come while the books of pins and unpins are kept.
- The views `channelsJson`, `itemsJson`, `scanDiagnosticsJson` and `getMirrorStatus`, which only print fields, and the shown scan progress.
- `m_lastError`, notifications, `queryRepoStat`, `queryPinned`, used bytes and the once-synced set.
- A completion event of another storage consumer is taken for ours, as in the program; `PreserveRuns` counts every completion during an upload as that upload's.
- JavaScript property keys in `syncListModel`: keys are compared as values, not as the strings they coerce to, and prototype names are ordinary keys.
- `src/share_helper`, `openExplorerTx`, `revealCard`, share cards, `setGateways` and `choosePreserveMode`.
