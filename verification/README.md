# Sales journal: verified model

This project models the restartable, database-backed parts of the sales journal and the bookkeeping around them,
and proves what they keep. Tables are maps and sequences. Each committed transaction is one step; crashes, pauses,
imports, deletions, deployments, lost answers and other processes act between the steps. Code that changes state in
place is a class whose methods are proved to compute the specification function of the step; the properties are
proved about those functions, for every history of steps.

| part | modules |
|---|---|
| Signal run: scan, evaluate, publish, resume | `Projection`, `Keyset`, `Source`, `SignalRun`, `SignalRunSafety`, `SignalProgress`, `SignalStuck`, `SignalWorker` |
| Evaluation rules and import evidence | `Inactivity`, `Evidence` |
| Signal episodes and their change log | `Episodes`, `EpisodeStore` |
| Daily churn job and its delivery ledger | `DeliveryLedger`, `JobStore` |
| Catalogue reconciliation and reading | `CatalogSync`, `CatalogSyncRun`, `CatalogRefresh`, `LocalCatalog` |
| Analytics cache, memory accounting, admission | `DatasetCache`, `Measure`, `Traversal`, `Components`, `Admission` |
| Printed snapshots | `Sanitiser`, `SnapshotParser`, `PdfImages` |
| Category drilldown, sales import | `CategoryDetails`, `Imports`, `ImportOrder` |
| Shared types | `Prelude` |

## What turned out differently from what one might expect

- The components of a dataset's memory add up to its deep size exactly when every row has its three nested fields,
  or `None` belongs to the dataset anyway; otherwise the sum is larger by the size of `None` (`Components.ExactWhen`,
  `Components.MissingField`).
- Sanitising a printed snapshot again changes nothing exactly when every photo that was shown was loaded as an
  embedded picture; an image left without its source becomes the placeholder (`Sanitiser.Idempotent`,
  `Sanitiser.NotAlwaysIdempotent`). The program's own loader only ever gives embedded pictures or nothing, also when
  its budget runs out in the middle of a report, so what the program prints is stable (`PdfImages.ReportIsStable`).
- Without confirmed coverage the confidence of an evaluation is at most 0.8, not only at most 0.9
  (`Inactivity.ScoresBounded`).
- An accepted run can fail for good. If a client it has yet to evaluate has an episode of a later cutoff, the run
  succeeds in no later history (`SignalProgress.DoomedNeverSucceeds`); if none has, it succeeds after enough
  undisturbed calls (`SignalProgress.SucceedsExactly`). Ordinary events lead there: a run is superseded after it
  created an episode, and the next request is for an earlier cutoff (`SignalStuck.StuckForGood`). Only the cutoff of
  the published run is compared when a run begins.
- Which sales a first import stores can depend on the order of its rows: a receipt of the same document and gross
  amount hides one partly paid by certificate (`Imports.OrderMatters`). The order is irrelevant exactly when every new
  print of the file has a row whose gross print is its own or the print of no new row
  (`ImportOrder.OrderMattersExactly`). Importing again adds nothing in any order.

## Model

| member | source | states |
|---|---|---|
| Projection.DaysStream | backend/app/services/analytics_signal_worker.py:98-123 | Upserting the purchase days of a batch onto those of the earlier rows gives the group-by over all rows in one pass, for any two consecutive parts of the sales. |
| Projection.LatestIsLatest | backend/app/services/analytics_signal_worker.py:124-131 | The latest-sighting map holds exactly the phones a client was seen with, each with the greatest date it was seen on. |
| Projection.TrimFirst | backend/app/services/analytics_signal_worker.py:130-137 | Keeping only the ten best phones before merging more sightings gives the same ten as merging everything, although evicted phones lose their dates. |
| Projection.PhonesStream | backend/app/services/analytics_signal_worker.py:124-137 | After every batch the trimmed phone table is the ten best phones, with true latest dates, of the whole scanned prefix. |
| Keyset.WindowExtends | backend/app/services/analytics_signal_worker.py:94-97 | The rows up to the old cursor followed by a batch are the rows up to the new cursor: keyset paging skips and repeats nothing. |
| Keyset.NextKeysExtend | backend/app/services/analytics_signal_worker.py:149-153 | Reading the next keys after a cursor extends the ascending list of read keys to exactly the keys up to the new cursor; an empty batch means all were read. |
| Keyset.ReadSoFar | backend/app/services/analytics_signal_worker.py:149-165 | A key that appears at or below the cursor was already read, and one above it will be. |
| Source.AllowedMeans | backend/app/services/analytics_signal_worker.py:199-234 | A run may start only with no pending import, a known and non-empty scope and at least one stored sale in it; its cutoff never exceeds the request or the last closed day. |
| Evidence.ResolveSource | backend/app/services/analytics_source.py:56-114 | The request is allowed exactly when the import list is neither empty nor too long, every import is complete and clean, and some day up to the request and the last closed day is declared by all; the cutoff is the latest such day. |
| Evidence.CommonPeriod | backend/app/services/analytics_source.py:92-100 | The latest start and the earliest end bound exactly the days that all imports declare. |
| Inactivity.ThresholdsOrdered | backend/app/services/inactivity.py:51-52 | For every positive median the overdue threshold is not above the churn threshold. |
| Inactivity.EligibleHasPurchase | backend/app/services/inactivity.py:39-54 | A signal requires eligibility and eligibility requires a last purchase date, for both evaluators. |
| Inactivity.OnlyEscalates | backend/app/services/inactivity.py:51-54 | With the same statistics a later day never lowers the legacy signal. |
| Inactivity.PilotRule | backend/app/services/churn_pilot.py:36-51 | The pilot signals exactly when the client is eligible and the whole days without purchase exceed the median interval. |
| Inactivity.ScoresBounded | backend/app/services/inactivity.py:55-65 | For non-negative statistics scores lie in 0..100 and confidence in 0..1, and at most 0.8 when coverage is not confirmed. |
| Episodes.CloseKeeps | backend/app/services/analytics_signal_store.py:53-64 | Closing an episode on a newer purchase keeps the history legal and only extends it. |
| Episodes.ReassessKeeps | backend/app/services/analytics_signal_store.py:73-97 | Every branch of the reassessment logs a legal event of the episode automaton, keeps anchor and detection, and never moves the cutoff back. |
| Episodes.BeginKeeps | backend/app/services/analytics_signal_store.py:98-109 | A new episode takes the next number, only when the last one is resolved. |
| Episodes.ReconcileKeeps | backend/app/services/analytics_signal_store.py:25-123 | Reconciling a client keeps revisions 1..n, a legal event path, last payload equal to the row, episodes 1..n with only the last one open, and resolved episodes untouched. |
| Episodes.RepeatLogsNothing | backend/app/services/analytics_signal_store.py:53-109 | Reconciling again with the same features, decisions and cutoff appends no change record and opens no episode. |
| Episodes.ClientBalance | backend/app/services/analytics_signal_store.py:63-121 | The tallies of one client balance: created minus resolved is the change in open episodes, and it is counted once as processed and as eligible or not. |
| EpisodeStore.BatchKeeps | backend/app/services/analytics_signal_store.py:25-123 | A batch keeps the invariant of every client and only extends histories. |
| EpisodeStore.BatchKeepsClient | backend/app/services/analytics_signal_store.py:34-38 | A client in the batch is reconciled exactly once, any other is left alone. |
| EpisodeStore.BatchBalance | backend/app/services/analytics_signal_store.py:40-123 | The counters of a batch change by exactly the change in open episodes and by one processed, eligible or not, per client. |
| EpisodeStore.BatchRepeats | backend/app/services/analytics_signal_store.py:25-123 | Repeating a whole batch with the same facts logs nothing for any client. |
| EpisodeStore.TwoLoopsAgree | backend/app/services/analytics_signal_store.py:53-122 | Closing all purchased episodes first and reassessing all clients afterwards gives the same store and counters as treating each client completely, one after the other. |
| EpisodeStore.SignalStore.ResolvePurchases | backend/app/services/analytics_signal_store.py:52-66 | The first loop closes exactly the episodes with a newer purchase, or reports a client whose episode is later than the cutoff. |
| EpisodeStore.SignalStore.Review | backend/app/services/analytics_signal_store.py:67-122 | The second loop leaves every client as the specification of its case says, with counters and evaluation lines. |
| EpisodeStore.SignalStore.ReconcileBatch | backend/app/services/analytics_signal_store.py:25-123 | The two loops together either change nothing and fail, exactly on a case that would go back in time, or leave the store, counters and report of the client-by-client specification. |
| SignalRunSafety.EventKeeps | backend/app/services/analytics_signal_worker.py:237-314 | Every worker call, import step, deletion, pause, report or deployment keeps the invariant, and whatever becomes a succeeded run is published well. |
| SignalRunSafety.EveryHistory | backend/app/services/analytics_signal_worker.py:43-196 | In every history a succeeded run is the one-pass computation on the sales it began with, sequence numbers are 1..n with one per succeeded run, published cutoffs never decrease, and at most one run is in flight. |
| SignalRunSafety.PublishedOnItsSnapshot | backend/app/services/analytics_signal_worker.py:174-196 | At the moment of publication the sales table still equals the snapshot the run began with, and every client of the universe was evaluated exactly once. |
| SignalRunSafety.FinishIsComplete | backend/app/services/analytics_signal_worker.py:141-165 | A run that finds no more keys has read the whole snapshot and every client, its counters satisfy processed = eligible + not eligible, and created minus resolved is the change in open episodes. |
| SignalRunSafety.ScanKeepsSnapshot | backend/app/services/analytics_signal_worker.py:93-138 | A scan batch of any size keeps the tables of the run equal to the one-pass tables of the scanned prefix. |
| SignalRunSafety.UniverseStable | backend/app/services/analytics_signal_worker.py:143-150 | Signals created by a batch do not change the set of clients to evaluate. |
| SignalRunSafety.BlockerNone | backend/app/services/analytics_signal_worker.py:174-196 | A checkpoint that passes the resume checks is still on the current sales up to its watermark. |
| SignalRunSafety.RowArrives | backend/app/services/imports.py:39-58 | A sale committed by a running or killed importer never changes the snapshot of a run that may still publish. |
| SignalRunSafety.PublishedOrder | backend/app/services/analytics_delivery.py:8-38 | Publishing gives the next sequence number to a run that had none and keeps cutoffs in order. |
| SignalRunSafety.LateReportIsHarmless | backend/app/analytics_worker.py:52-89 | A failure or shutdown report changes something only if nothing was committed for that run since its heartbeat was read. |
| SignalRunSafety.BatchFailsExactly | backend/app/services/analytics_signal_store.py:71-72 | An accepted batch fails exactly when one of its clients has an episode with a later cutoff. |
| SignalProgress.EndedForGood | backend/app/services/analytics_signal_worker.py:168-196 | A succeeded or superseded run never changes again, in any history. |
| SignalProgress.DoomedNeverSucceeds | backend/app/services/analytics_signal_store.py:71-72 | While a client still to evaluate has an episode of a later cutoff, a run in flight stays so or is superseded: in no later history does it succeed. |
| SignalProgress.CallNearer | backend/app/services/analytics_signal_worker.py:237-314 | Any other accepted call publishes the run or leaves fewer rows, clients and phases to do, with the same evidence. |
| SignalProgress.SucceedsExactly | backend/app/services/analytics_signal_worker.py:237-314 | As many undisturbed calls as there are batches left, of whatever sizes, publish a run whose evidence stands, if and only if no client still to evaluate has an episode of a later cutoff. |
| SignalStuck.StuckForGood | backend/app/services/analytics_signal_worker.py:43-52 | From an empty database a history of ordinary events leads to an accepted run that fails at every call and succeeds in no continuation. |
| SignalRunSafety.SucceededResult | backend/app/services/analytics_signal_worker.py:93-165 | A succeeded run keeps the days, phones and counts of one pass over its snapshot for ever. |
| SignalWorker.Worker.SupersedeRun | backend/app/services/analytics_signal_worker.py:168-171 | The run gets its terminal status and reason and the control row is released; nothing else changes. |
| SignalWorker.Worker.GuardDecision | backend/app/services/analytics_signal_worker.py:43-52 | The decision is refused when the published run has a later cutoff or another scope policy. |
| SignalWorker.Worker.FindReusable | backend/app/services/analytics_signal_worker.py:53-68 | The finished run is reused exactly when its evidence, scope and versions equal the requested ones. |
| SignalWorker.Worker.InsertRun | backend/app/services/analytics_signal_worker.py:69-90 | A new run starts at the watermark of the current sales, blocked unless the decision allows it. |
| SignalWorker.Worker.ScanBatch | backend/app/services/analytics_signal_worker.py:93-138 | The in-place scan leaves exactly the row that the scan specification gives. |
| SignalWorker.Worker.EvaluateBatch | backend/app/services/analytics_signal_worker.py:141-165 | The in-place evaluation leaves exactly the state of the batch specification, or fails without a trace. |
| SignalWorker.Worker.PublishDelivery | backend/app/services/analytics_delivery.py:8-38 | Only a completed compatible run is published, under the next sequence number and only once. |
| SignalWorker.Worker.Settle | backend/app/services/analytics_signal_worker.py:302-307 | The heartbeat moves to the time of the call and a completed run is published, as specified. |
| SignalWorker.Worker.Advance | backend/app/services/analytics_signal_worker.py:301-310 | One accepted batch computes the specified next state or reports that it cannot. |
| SignalWorker.Worker.Transact | backend/app/services/analytics_signal_worker.py:301-314 | A batch that fails leaves every table as it was before. |
| SignalWorker.Worker.ResumeRun | backend/app/services/analytics_signal_worker.py:251-294 | Resuming supersedes, refuses or continues the checkpoint exactly as specified. |
| SignalWorker.Worker.FirstBatch | backend/app/services/analytics_signal_worker.py:296-310 | A new accepted run does its first batch in the same transaction. |
| SignalWorker.Worker.StartRun | backend/app/services/analytics_signal_worker.py:282-300 | Without a checkpoint a call reuses, blocks or starts a run as specified. |
| SignalWorker.Worker.RunBatch | backend/app/services/analytics_signal_worker.py:237-314 | A whole worker call is one atomic step of the specified protocol. |
| SignalWorker.Worker.RecordFailure | backend/app/services/analytics_signal_worker.py:317-334 | A failure is recorded only on the active run at the named heartbeat. |
| SignalWorker.Worker.Pause | backend/app/analytics_worker.py:31-40 | Pausing switches the worker off and parks only a running checkpoint. |
| DeliveryLedger.PageIsLowest | backend/app/services/churn_schedule.py:126-135 | A page is exactly the lowest events without a receipt, at most twenty-five, in order. |
| DeliveryLedger.AckKeeps | backend/app/services/churn_schedule.py:141-186 | An accepted acknowledgement keeps the job invariant, changes no earlier receipt, and gives every named event one. |
| DeliveryLedger.ReleaseKeeps | backend/app/churn_automation.py:55-94 | A release is bound to a job once, with one event per ready candidate. |
| DeliveryLedger.StepKeeps | backend/app/churn_automation.py:123-158 | Every command, answer, failure, retry and policy change keeps the job invariant, and receipts, release and final status never change back. |
| DeliveryLedger.EveryHistory | backend/app/churn_automation.py:97-158 | In every history there is at most one receipt per released event, and the job is SUCCEEDED or PARTIAL exactly when every event has one, and then stays so. |
| DeliveryLedger.CountersDescribeLedger | backend/app/services/churn_schedule.py:176-186 | In every history the counters of the job are those of its current ledger. |
| DeliveryLedger.RepeatAddsNothing | backend/app/services/churn_schedule.py:166-172 | An acknowledgement that was taken in once is accepted again at any later time and adds nothing. |
| DeliveryLedger.TasksAreTheReceivers | backend/app/services/churn_schedule.py:141-174 | When receipts come from the receiver, the ledger names the receiver's own task and creation flag for every event. |
| DeliveryLedger.AcceptedNeverConflict | backend/app/services/churn_schedule.py:167-171 | Two answers of an idempotent receiver that accept the same event never conflict. |
| DeliveryLedger.SucceededMeans | backend/app/services/churn_schedule.py:177-185 | At SUCCEEDED every event has a task at the receiver and the task counters count different tasks of the receiver. |
| DeliveryLedger.FreshIsTaken | backend/app/services/churn_schedule.py:154-175 | Proper answers to a page just read are always taken in, all of them. |
| DeliveryLedger.OnePage | backend/scripts/run_churn_automation.py:130-149 | One answered page adds as many receipts as fit and reaches a final status exactly at the last one. |
| DeliveryLedger.HostProgress | backend/scripts/run_churn_automation.py:116-150 | When the receiver keeps answering, every loop turn acknowledges a full page and the loop reports a final status exactly when no event is left. |
| JobStore.HostKeeps | backend/scripts/run_churn_automation.py:128-150 | Wherever the host loop stops, the job invariant holds and nothing was undone. |
| JobStore.RunHostKeeps | backend/scripts/run_churn_automation.py:106-127 | A whole host invocation with its error report keeps the job invariant. |
| JobStore.Store.ChangePolicy | backend/app/services/churn_schedule.py:56-91 | A command applies only to the current revision; a draft revokes approval, approval never enables, and only an approved policy can be enabled. |
| JobStore.Store.Tally | backend/app/services/churn_schedule.py:176-180 | One pass over the receipts counts accepted ones and the different created and linked tasks. |
| JobStore.Store.TakeReceipts | backend/app/services/churn_schedule.py:152-175 | The loop takes in all receipts or rejects them at the first malformed or conflicting one. |
| JobStore.Store.Acknowledge | backend/app/services/churn_schedule.py:141-186 | The acknowledgement is one transaction: the specified new state, or no change. |
| JobStore.Store.Authorize | backend/app/churn_automation.py:55-94 | Authorisation binds a release, blocks the job or is refused, as specified. |
| JobStore.Store.FirstUnacknowledged | backend/app/services/churn_schedule.py:132-135 | The query returns the first events without receipts, up to a page. |
| JobStore.Store.ReadPage | backend/app/services/churn_schedule.py:118-135 | A page is refused when the policy changed or the day is over, and empty unless the job is delivering. |
| JobStore.Store.Fail | backend/app/churn_automation.py:136-144 | A failure counts an attempt and fails the job at the third one, unless it is final. |
| JobStore.Store.RetryJob | backend/app/churn_automation.py:145-156 | A retry returns a failed or blocked job to its release or to the queue. |
| JobStore.Store.DeliverPages | backend/scripts/run_churn_automation.py:128-150 | The in-place host loop computes the specified result and state; whatever a delivery answers is acknowledged. |
| JobStore.Store.Run | backend/scripts/run_churn_automation.py:93-127 | The in-place invocation, with its single failure report, computes the specified one. |
| CatalogSync.PlanIs | backend/app/services/catalog_sync.py:258-304 | A pass lists every identity once, skips stamped ones, stops only when its room is used up, and accounts for every row up to its checkpoint. |
| CatalogSync.PlanCovers | backend/app/services/catalog_sync.py:231-246 | Every item up to the checkpoint of a pass is stamped or in the pass. |
| CatalogSync.EachGetsItsAnswer | backend/app/services/catalog_sync.py:172-181 | Every identity of a batch gets its own answer, and earlier data survives anything but a match. |
| CatalogSync.SavedLookups | backend/app/services/catalog_sync.py:311-316 | A save changes exactly the listed lookups and stamps them with the cycle. |
| CatalogSync.StepKeeps | backend/app/services/catalog_sync.py:185-357 | Passes, failures, restarts, new and deleted items, refreshes and tail scans keep every item up to the cursor stamped with the current cycle. |
| CatalogSync.ExtendKeeps | backend/app/services/catalog_sync_worker.py:106-125 | Extending a complete scan to the new items keeps its coverage and its cycle. |
| CatalogSync.RefreshKeeps | backend/app/services/catalog_sync_worker.py:138-210 | Refreshing known identities keeps the coverage of the scan. |
| CatalogSync.EveryHistory | backend/app/services/catalog_sync.py:185-357 | The invariant holds in every history. |
| CatalogSync.CompleteMeans | backend/app/services/catalog_sync.py:241-246 | After a complete scan every item up to its watermark has a settled lookup of this cycle, a matched one with its product. |
| CatalogSync.LookedUpOnce | backend/app/services/catalog_sync.py:262-272 | Within one cycle the scan never looks an identity up successfully twice. |
| CatalogSync.PassAdvances | backend/app/services/catalog_sync.py:221-241 | A pass whose lookups succeed moves the cursor or completes the scan, within both limits. |
| CatalogSyncRun.PassKeeps | backend/app/services/catalog_sync.py:229-357 | A pass, successful or not, keeps the invariant and its limits and goes on only from a later row. |
| CatalogSyncRun.WithinLimits | backend/app/services/catalog_sync.py:185-228 | An invocation stays within its limits, pays for no more lookups than it reports, and never moves the cursor back. |
| CatalogSyncRun.Synchronizer.StartCycle | backend/app/services/catalog_sync.py:206-219 | A complete scan opens a new cycle, an incomplete one goes on. |
| CatalogSyncRun.Synchronizer.TailScan | backend/app/services/catalog_sync_worker.py:106-125 | The worker scans the tail exactly when there are newer items, or no cycle yet. |
| CatalogSyncRun.Synchronizer.ReadRows | backend/app/services/catalog_sync.py:258-304 | The in-place row loop builds the specified pass and stores new identities as pending. |
| CatalogSyncRun.Synchronizer.SavePass | backend/app/services/catalog_sync.py:311-340 | Results, counters and cursor of a pass are stored together as specified. |
| CatalogSyncRun.Synchronizer.OnePass | backend/app/services/catalog_sync.py:229-357 | One pass in place is the specified one; a failed request keeps only the discovered identities. |
| CatalogSyncRun.Synchronizer.Synchronize | backend/app/services/catalog_sync.py:185-409 | A whole invocation in place is the specified one and stays within its limits. |
| CatalogRefresh.PageKeeps | backend/app/services/catalog_sync_worker.py:143-202 | A refresh page moves the cursor over everything between the old and the new one, and completes exactly at the bound. |
| CatalogRefresh.TakePageHandled | backend/app/services/catalog_sync_worker.py:156-201 | Every row of a page that did not fail is looked up or, being invalid or malformed, skipped, and none of them was before. |
| CatalogRefresh.EachOnce | backend/app/services/catalog_sync_worker.py:128-210 | Whatever fails, stops, is discovered or found invalid between the pages, a refresh gives an identity a new answer at most once and an invalid one none; at its end everything known at its beginning has one, except what was invalid or malformed when its page was read. |
| CatalogRefresh.RunRequest | backend/app/services/catalog_sync_worker.py:228-325 | The command ends at the first turn that completes the work, fails for good or fails once too often in a row, and is paused when the operator stops asking first. |
| LocalCatalog.CommonOrAmbiguous | backend/app/services/catalog_attributes.py:143-155 | The status and product of a key are those of all its rows, or ambiguous when they differ. |
| LocalCatalog.OrderDoesNotMatter | backend/app/services/catalog_attributes.py:143-155 | Reordering the rows changes neither the keys nor the status and product of any key. |
| LocalCatalog.Before | backend/benchmarks/benchmark_local_catalog.py:34-67 | The paged plain loop is the row-by-row fold for every page size. |
| LocalCatalog.NewIdentities | backend/app/services/catalog_attributes.py:89-100 | A page asks exactly for the identities that no earlier page mentioned. |
| LocalCatalog.Memoise | backend/app/services/catalog_attributes.py:132-142 | Each new identity gets its projection in a dictionary of its own. |
| LocalCatalog.Answering | backend/app/services/catalog_attributes.py:143-155 | A row gets the memo dictionary of its owner or a copy, or a fresh ambiguous one on conflict; no two keys ever share a dictionary. |
| LocalCatalog.Read | backend/app/services/catalog_attributes.py:75-156 | The memoised reader gives the same map as the plain loop for every row list and page size, distinct fresh dictionaries for distinct keys, and asks for every identity exactly once. |
| DatasetCache.EvictIs | backend/app/services/product_analytics_cache.py:337-341 | Eviction drops the least recently used entries and no more than needed: the rest fits, with one more it would not. |
| DatasetCache.LookupKeeps | backend/app/services/product_analytics_cache.py:237-250 | A lookup, expiring or not, keeps byte counter, limits and order of use. |
| DatasetCache.HitIsFresh | backend/app/services/product_analytics_cache.py:243-250 | A hit was stored less than the time to live ago. |
| DatasetCache.PublishKeeps | backend/app/services/product_analytics_cache.py:332-344 | Storing keeps the byte counter equal to the sum of the entries and within both limits. |
| DatasetCache.EnterKeeps | backend/app/services/product_analytics_cache.py:357-358 | Taking a lock object counts exactly one more user of the key. |
| DatasetCache.LeaveKeeps | backend/app/services/product_analytics_cache.py:374-378 | Every way out counts one user less, and the lock object goes exactly with the last one. |
| DatasetCache.StepKeeps | backend/app/services/product_analytics_cache.py:352-378 | Under any interleaving of loads, stores, lookups, cancellations and invalidations every entry comes from a load begun after the last invalidation, and a key has a lock exactly while it has users. |
| DatasetCache.EveryHistory | backend/app/services/product_analytics_cache.py:229-378 | The invariant holds in every interleaving. |
| DatasetCache.LoadsNeverOverlap | backend/app/services/product_analytics_cache.py:359-365 | Two loads of one key are never under way together. |
| DatasetCache.IdleIsEmpty | backend/app/services/product_analytics_cache.py:374-378 | When no task is inside, no lock object is left. |
| DatasetCache.Cache.Clear | backend/app/services/product_analytics_cache.py:229-234 | Invalidation empties the cache and moves the generation. |
| DatasetCache.Cache.LookUp | backend/app/services/product_analytics_cache.py:237-250 | The in-place lookup computes the specified cache and answer. |
| DatasetCache.Cache.MakeSpace | backend/app/services/product_analytics_cache.py:337-341 | The eviction loop leaves exactly the specified rest and byte counter. |
| DatasetCache.Cache.Store | backend/app/services/product_analytics_cache.py:332-344 | Storing in place computes the specified cache. |
| DatasetCache.Cache.EnterLock | backend/app/services/product_analytics_cache.py:357-358 | The lock table in place changes as specified. |
| DatasetCache.Cache.LeaveLock | backend/app/services/product_analytics_cache.py:374-378 | Leaving in place changes the lock table as specified. |
| Measure.SetBit | backend/app/services/product_analytics_cache.py:160-171 | Setting one bit of a byte sets that bit and no other. |
| Measure.OwnBit | backend/app/services/product_analytics_cache.py:155-171 | Two different aligned identities never share a bit of a page. |
| Measure.SeenObjects.Contains | backend/app/services/product_analytics_cache.py:155-160 | Membership in the paged bitmaps and the extra set is membership in one plain set. |
| Measure.SeenObjects.Add | backend/app/services/product_analytics_cache.py:162-171 | Adding an identity adds exactly it to the plain set, allocating a page when needed. |
| Traversal.MeasureFrom | backend/app/services/product_analytics_cache.py:174-195 | On any graph, cyclic or shared, the traversal ends; within the limit its result is exactly the size of everything reachable from the roots around what was seen, beyond it a part of that. |
| Traversal.Visit | backend/app/services/product_analytics_cache.py:184-194 | Counting one object and stacking its references keeps everything reachable counted or pending. |
| Traversal.Done | backend/app/services/product_analytics_cache.py:178-183 | With an empty stack exactly the reachable objects were counted. |
| Components.BoundedSize | backend/app/services/product_analytics_cache.py:198-200 | A bounded size is the exact deep size within the limit and a lower bound beyond it. |
| Components.Containers | backend/app/services/product_analytics_cache.py:211-219 | The container bytes count the tuple, the list and each row once, however often it is listed. |
| Components.MemoryComponents | backend/app/services/product_analytics_cache.py:203-226 | The seven components add up to the deep size of the dataset, plus None if some row lacks a nested field. |
| Components.GetsAre | backend/app/services/product_analytics_cache.py:220-221 | Looking a field up in every row yields values of the rows, and None exactly when a row lacks it. |
| Components.ExactWhen | backend/app/services/product_analytics_cache.py:203-226 | The components equal the deep size if and only if every row has its nested fields or None is reachable anyway. |
| Components.MissingField | backend/app/services/product_analytics_cache.py:220-221 | One row without fields makes the components exceed the deep size. |
| Admission.OneAdmitted | backend/app/services/product_analytics_runtime.py:91-148 | Two running operations of any processes are the same one. |
| Admission.ReleaseKeeps | backend/app/services/product_analytics_runtime.py:138-148 | Every way out gives back exactly what the task had taken. |
| Admission.AdmitKeeps | backend/app/services/product_analytics_runtime.py:119-122 | Admission turns one waiter into the one active operation. |
| Admission.DieKeeps | backend/app/services/product_analytics_runtime.py:111-118 | When a process dies its descriptors close and nobody else's state changes. |
| Admission.StepKeeps | backend/app/services/product_analytics_runtime.py:91-148 | Every step of every task keeps waiters, flags, owners and descriptors consistent. |
| Admission.EveryHistory | backend/app/services/product_analytics_runtime.py:91-148 | The invariant holds in every interleaving of tasks and processes. |
| Admission.MutualExclusion | backend/app/services/product_analytics_runtime.py:108-125 | In every interleaving at most one operation runs over all processes. |
| Admission.QueueBound | backend/app/services/product_analytics_runtime.py:99-102 | The counter is the number of waiting tasks, never above eight, and a task is turned away exactly when eight wait. |
| Admission.NothingLeaks | backend/app/services/product_analytics_runtime.py:138-148 | With no task inside nothing is held. |
| Admission.InAndOut | backend/app/services/product_analytics_runtime.py:102-148 | Entering and leaving cancel out on every way out. |
| Admission.Gate.Join | backend/app/services/product_analytics_runtime.py:98-102 | Joining counts a waiter unless the queue is full. |
| Admission.Gate.TakeTurn | backend/app/services/product_analytics_runtime.py:109-118 | Taking the queue lock opens the file and tries it, or leaves. |
| Admission.Gate.Try | backend/app/services/product_analytics_runtime.py:113-122 | The file lock admits the task at once, unless memory is short. |
| Admission.Gate.Exit | backend/app/services/product_analytics_runtime.py:138-148 | The last block undoes counter or flag, file lock and queue lock as specified. |
| Sanitiser.RejectedIs | backend/app/services/report_pdf.py:57-62 | Rejected entries are exactly the top of the stack, from the first tag that is not allowed on. |
| Sanitiser.BlockedIs | backend/app/services/report_pdf.py:49-100 | After every event of every stream the block counter is the number of rejected entries on top. |
| Sanitiser.NothingFromRejected | backend/app/services/report_pdf.py:57-103 | Inside an element that is not allowed no event writes anything. |
| Sanitiser.OutputNests | backend/app/services/report_pdf.py:87-100 | The tags written so far nest properly, and those open are the shown elements on the stack. |
| Sanitiser.Balanced | backend/app/services/report_pdf.py:106-119 | An accepted document is balanced. |
| Sanitiser.OutputClean | backend/app/services/report_pdf.py:75-88 | Only allowed tags with allowed attributes are ever written. |
| Sanitiser.Again | backend/app/services/report_pdf.py:57-103 | Running the filter over clean nested tokens shows them all, except images without a picture. |
| Sanitiser.BareAreBad | backend/app/services/report_pdf.py:63-80 | Images without a picture are written exactly for the photos that were loaded as something else. |
| Sanitiser.Idempotent | backend/app/services/report_pdf.py:63-119 | Sanitising again is accepted, and changes nothing if and only if every shown photo was loaded as an embedded picture. |
| Sanitiser.IdempotentWithPictures | backend/app/services/report_pdf.py:63-119 | With a loader whose every answer is nothing or an embedded picture, sanitising again changes nothing, whatever the second loader. |
| Sanitiser.NotAlwaysIdempotent | backend/app/services/report_pdf.py:67-80 | A photo loaded as a plain address makes the second pass differ. |
| PdfImages.WithinBudget | backend/app/services/pdf_images.py:116-127 | For every sequence of requests the text given out, repetitions included, is what the loader counted and within its budget, and every remembered picture is an embedded one. |
| PdfImages.SamePicture | backend/app/services/pdf_images.py:122-163 | An address asked for again, however much later, gets the same picture or none. |
| PdfImages.ReportIsStable | backend/app/services/pdf_images.py:115-164 | A report filled by this loader is not changed by sanitising it again. |
| PdfImages.Images.Load | backend/app/services/pdf_images.py:122-168 | The in-place call computes the specified answer, memory and budget. |
| SnapshotParser.Filter.ImageValues | backend/app/services/report_pdf.py:63-65 | Of several attributes of one name the last decides. |
| SnapshotParser.Filter.Filtered | backend/app/services/report_pdf.py:75-86 | The attribute loop keeps exactly the specified attributes. |
| SnapshotParser.Filter.StartTag | backend/app/services/report_pdf.py:57-88 | A start tag changes stack, counter and output as specified. |
| SnapshotParser.Filter.EndTag | backend/app/services/report_pdf.py:94-100 | An end tag pops a matching element, is ignored on an empty stack and is an error otherwise. |
| SnapshotParser.Filter.Feed | backend/app/services/report_pdf.py:90-103 | Each kind of event is handled as specified. |
| SnapshotParser.SafeDocument | backend/app/services/report_pdf.py:106-119 | The document is the sanitised stream, refused when malformed, unclosed or empty. |
| CategoryDetails.GroupIs | backend/app/services/calltrack_category_details.py:15-46 | Every group has the exact revenue and quantity sums of its rows and the label of the first row with the smallest name. |
| CategoryDetails.MergeIsOnePass | backend/app/services/calltrack_category_details.py:65-76 | Aggregating two parts and merging them gives the groups and totals of the whole. |
| CategoryDetails.GroupsAddUp | backend/app/services/calltrack_category_details.py:23-45 | Group revenues and quantities add up to the parent totals. |
| CategoryDetails.AggregateDetails | backend/app/services/calltrack_category_details.py:10-46 | The row loop computes the one-pass groups and totals. |
| CategoryDetails.MergePage | backend/app/services/calltrack_category_details.py:68-76 | The merge loop computes the specified merge. |
| CategoryDetails.Details | backend/app/services/calltrack_category_details.py:58-76 | For every split into pages the result is that of one pass over all rows. |
| Imports.EveryRowCounted | backend/app/services/imports.py:39-58 | After every committed row total = processed = added + duplicate + skipped + error, every added row is one more sale, and no two sales share a fingerprint. |
| Imports.CountersTell | backend/app/services/imports.py:39-58 | How many rows were left out and how many failed depends on the rows alone, the added ones are the growth of the table that is not due to others, and all the rest were duplicates. |
| Imports.KnownFromThenOn | backend/app/services/imports.py:46-52 | Every row taken in without a database error is known from then on, by its net or its gross fingerprint. |
| Imports.AgainAddsNothing | backend/app/services/imports.py:46-52 | Importing the same rows again adds nothing, in any order and whatever happens in between. |
| Imports.OrderMatters | backend/app/importer/parser.py:412-417 | Two receipts of one document store one or two sales depending on their order. |
| ImportOrder.SafeStores | backend/app/services/imports.py:46-52 | If every new print of the file has a row that nothing in it can hide, every order stores the old sales and all the new prints. |
| ImportOrder.RisingStoresAll | backend/app/importer/parser.py:412-417 | By rising net amounts no row is hidden: every new print of the file is stored. |
| ImportOrder.HiddenIsMissing | backend/app/services/imports.py:46-52 | A new print whose rows can all be hidden is not stored when they come last, after the others by rising amounts. |
| ImportOrder.OrderMattersExactly | backend/app/importer/parser.py:412-417 | All orders of the rows store the same sales if and only if every new print of the file has a row that nothing in it can hide. |
| Imports.Session.TakeRow | backend/app/services/imports.py:39-58 | One row in the session, with commit or rollback and reload, leaves the specified database. |
| Imports.Session.Process | backend/app/services/imports.py:38-59 | The row loop commits the specified counters and the exact span of the dates that were read. |

## Left out

- HTTP routers, Excel, PDF and Chromium rendering, the download and decoding of images, FTP, mail, sessions, signatures: input and output without hard state. The time and download limits of `PdfImages` are inputs of a request.
- SQL report queries and the statistics of `load_inactivity_features`: a function parameter of the run, over the purchase-day table; `log1p` is a function parameter, only its value at the ceiling is assumed positive.
- Texts are compared as ranks in the collation order; digests are represented by what they are taken of, hence injective.
- Files that are not part of this model (`seasonality_storage`, `seasonality_worker`): a source change bumps the revision in the caller's transaction, and the advisory lock is shared or exclusive. Losing the lock while an importer goes on is not modelled.
- Binary floating point: reals instead, with rounding where the code rounds. Clocks are strictly increasing counters.
- The order of change-log ids over all signals: revisions are per signal.
- The contract flag of stored metadata (`stored_sales_contract_valid`) is folded into the policy version.
- Sequence numbers handed out to concurrent importers in any order: new sales have ids above the last one handed out before the first importer took the lock.
- `release_churn` decides which candidates are ready: its decision is an input of `DeliveryLedger.Release`, with the number of ready candidates. An existing release is a refusal: only a release that already carries this job's permanent policy would be accepted, and such a job can no longer be authorised.
- `current_release`, the second check of a page, may refuse it: the same as a host invocation that stops.
- The deadline of the host loop and the retry delay are the length of the list of replies.
- The products table of the catalogue: lookups keep a product number. In `CatalogSync` a refreshed page is any list of known identities; their order is in `CatalogRefresh`.
- The worker's heartbeat, boot and delays, and the control row they write.
- `enqueue`: at most one job a day and kind, by a unique constraint; a job is modelled from its creation on.
- Compression, pickling and restoring of cached datasets: sizes are inputs. Logging and diagnostics are left out.
- Dictionary rows of reports are values, except in `LocalCatalog`, where the identity of a result dictionary matters.
- Tokenising, escaping and regular expressions of the snapshot: events are given, pattern tests are parameters of which only the answers on the filter's own texts are assumed.
- OrderMattersExactly: printing an amount with two decimals is a parameter, assumed never to print a larger amount as a smaller one.
- The final ranking and cut of `category_details`, and the rounding of decimals beyond their 28 digits.
- The reading of spreadsheets and the derivation of a missing total from the items of a receipt: the gross amount of a row is given.
