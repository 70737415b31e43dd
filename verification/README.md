# SortView collector and agent: verified model

SortView watches the log files of a library's sorting machine and streams what happened to a server. This project is a
Dafny model of the parts that carry state: the Contract v2 collector (transformation with the hold ledger, delivery,
quarantine, bounded reading, progressive commit), the v1 collector run, the continuous agent (tailer, generations, spool,
event identity), the deployment check of the migration graph, the run history file and the identity-collision gate.

`dafny verify dfyconfig.toml` checks everything.

## How it is built

Where the program changes things step by step, the model is a class or a method with loops, proved against a function on
values; the properties over whole runs are lemmas about those functions, or loop invariants of a method that drives the
object through any history.

| files | what they model |
|---|---|
| `Text`, `Identity`, `Classify` | text forms, canonical event forms and their keys, flag classification |
| `Patrons`, `PatronCache`, `Transform` | the patron cache and hold ledger as a value and as a class; one chunk of the ACS log |
| `Server`, `Ledger`, `Provenance`, `Refinement`, `Runs` | the insert-if-absent event stream, the batch classifier, the invariant, where rows come from, whole runs |
| `Standing`, `Numbering` | which hold of an item the ledger keeps, told by the log alone; the revisions it has sent |
| `Retry`, `Crashes`, `Attempts` | reading a chunk again; attempts at their own times and whole runs of them; one attempt over the cache's transactions |
| `OneItem`, `LongerRetry` | what a chunk says of one item; failed attempts over a growing log |
| `Limits`, `Lifetimes` | where the refinement stops being true; purging |
| `Quarantine`, `Delivery`, `Reader`, `Cursors` | refused events, the delivery loop, byte-exact reading, cursor safety |
| `EndToEnd` | a run over the files and a server as steps of `Runs` |
| `Spool`, `Capture`, `Collector` | the agent's file names, its capture invariant, the collector object over a whole life |
| `FirstContract`, `Revisions`, `Audit`, `Collisions` | the v1 run, the revision graph, the run history, the collision gate |

What is taken as given: keyed hashes (HMAC) are injective functions of their text (`SoundKeys`, `Keyed`); an instant is an
integer number of seconds with a given spelling; a parser gives each line its records; JSON printed and parsed gives the
record back (`Sound`); a write to a file or a database transaction is one step, and a crash stops between steps; the server
is any function from the requests so far to a reply. `Ledger.SoundKeysExist` and `Auditing.SoundJsonExists` show that the
assumptions about keys and JSON can be met.

## What is proved, and where it stops

* The incremental hold ledger shows a reader what one whole-log classification shows, for every log and every cutting into
  chunks, exactly when a patron's last read profile and latest profile do not set the item's flags differently
  (`Runs.RefinesBatchExactly`). The log must be `Orderly`: a record in the second of its item's latest record repeats that
  record or is the first of its kind in the second (a hold: the first for its destination), and an other-code-10 record
  does not share a second with a hold that has a patron.
* The ledger has a row for an item exactly if a hold stands for it in the log, and the row is that hold's
  (`Standing.LedgerStandsExactly`). `Standing.Standing` reads this off the item records as a whole: the item's latest 101
  record if it is a hold with a patron that nothing withdrew, else what the records read after it leave by the same rule. In
  an orderly log the row is there exactly if the latest record is a hold with a patron, unless a hold with a patron is read
  after a later record of its item that is none; such a hold gets a row and a later profile has it sent again, although a
  reader keeps the later record (`Standing.LateHoldStands`, with the exact condition in `Standing.RowIsLatestExactly`). A
  chunk can correct nothing but the standing hold (`Standing.SilentChunkSays`).
* A chunk may be tried any number of times, each attempt stopping anywhere, at its own time and on its own day: the rows, the
  ledger, the profiles, the last-seen days and the cursor are those of one attempt, because the ledger commits before the
  patrons and both before the cursor (`Crashes.CrashesChangeNothing`). Only the day a new patron was first seen is that of
  the first attempt that stored it. So whole runs under crashes are the runs without them, and refine the batch
  classification under the same condition (`Crashes.CrashRunIsRun`, `Crashes.CrashesRefineBatchExactly`). The chunks must be
  `Retryable`, and the attempts' clocks must accept the same of the chunk's item records.
  `Limits.PatronsFirstWouldStrand` shows what the other commit order would lose, and `PatronStore.PatronCache.Commit` that
  the cache never does it: whichever transaction fails, the patrons are not stored without the ledger. The disks of these
  theorems are exactly those an attempt over the cache can leave (`Attempts.TryChunk`, `Attempts.EveryStopHappens`).
* A batch counts as delivered only by a 200 whose body says success; every other reply has the category of its status, and
  nothing but a well-formed 409 or 422 takes events out of a batch, exactly those at the positions it lists
  (`Delivery.OutcomeSays`). So every event of a committed chunk is stored on the server, was reported by a 409 or 422, or
  was in the quarantine before (`Cursors.EveryEventSettled`). A reported event is listed in the quarantine afterwards exactly
  if one of its records survives the pruning (`Delivery.RefusedListedExactly`).
* A run over the three files (`Cursors.ProcessSources`) against a server that stores what it does not have, with nothing
  refused, leaves the ACS rows, ledger, profiles and identifiers of `Runs.Run` over the chunks whose cursors it saved; so the
  refinement holds from the files to the reader (`EndToEnd.RunIsRun`, `EndToEnd.RunRefinesBatchExactly`).
* Six properties that one could expect do not hold of every log or history. Each has one that breaks it, and the exact
  condition:
  * profiles read out of order: `Limits.OlderProfileMisleads`; `Runs.RefinesBatchExactly` for one cutting into chunks, and
    `Runs.CutsShowAlikeExactly` for all of them (no end of the log has a latest profile that sets the hold's flags
    differently);
  * the patron-card guard and the cut into chunks: `Limits.GuardDependsOnTheCut`, and `Runs.CutsAgreeExactly` (every
    barcode that the log quotes as a patron identifier is quoted by the record that scans it, or before it);
  * a hold that returns in the second of the non-hold that followed it: `Limits.ReturnInOneSecondIsSwallowed`, and
    `Limits.ReturnSeenExactly` (its event was not sent before);
  * a hold that is read after a later record of its item: `Standing.LateHoldStands` and `Standing.RowIsLatestExactly`, above;
  * an other-code-10 record in the second of a hold with a patron: `Limits.OtherCodeStrands`, and
    `Limits.OtherCodeExactly` (the profiles read later do not set the flags differently);
  * failed attempts over a growing log: `LongerRetry.GrownRetryMisleads` (one attempt whose events were stored),
    `LongerRetry.ThirdAttemptMisleads` (two of them) and `LongerRetry.LedgerStopMisleads` (one that died between the cache's
    two transactions), and `LongerRetry.GrownRetryExactly` for any attempts with any stops: the one that finishes leaves the
    reader right about an item exactly if the reader has the right flags before it, or the patron's outcome is a change of
    the stored one, the flags are a change of the ledger's, and the server does not hold these flags under the ledger's
    next revision. `LongerRetry.SeveralFailuresExactly`, `LongerRetry.LedgerStopExactly` and
    `LongerRetry.PatronStopIsHarmless` say what that is for attempts that only failed while delivering, that died after the
    ledger's transaction, and after both.
* Whatever happened before, two looks of the agent at a file whose writes do not fail leave every line that has ended and
  parses in the spool, from where capture of the stream began, which is byte 0 for every stream but the first
  (`Collecting.Live`, `Collecting.AllCaptured`). One look may only note a rotation or truncation; the next confirms it.
* The agent's identities stay unique and its spool lists in capture order, over any failed writes the process survives or
  not, only if a rotation or truncation waits until the previous one's generation has been saved.
  `Collecting.UnsavedGenerationIsReused` shows that the condition is exact, and `Collecting.UnsavedGenerationCollides` gives
  two different records with one identity. A configured start must lie in the file (`Collecting.StartBeyondEnd`).
* With a single head no known revision is divergent exactly if every revision on a cycle of the migration graph is below the
  head (`Revisions.DivergentExactly`).
* The profile lifetime must exceed the hold lifetime (`Lifetimes.MarginIsExact`); the configuration does not enforce it
  (collector/v2_config.py:154-156).
* Six digits of generation are exactly enough for a million generations (`Spooling.GenerationLimit`); `write_batch` checks
  offsets but not generations.

## Model

| member | source | states |
|---|---|---|
| Identity.DecodeCanonical | collector/v2_identity.py:114-146 | every well-formed event of the three kinds has a canonical text, and the text decodes to exactly that event: kind, absent item, revision only above 0 |
| Identity.CanonicalInjective | collector/v2_identity.py:114-146 | equal canonical bytes mean equal safe fields |
| Identity.IdentityStringDetermines | agent/event_identity.py:67-87 | the pipe-joined identity exists exactly for accepted inputs and determines all four of them |
| Classify.EachSetsItsFlag | collector/v2_classify.py:68-79 | a hold keeps its own flags, an unknown patron adds none, and an ILL type, an ILL name, a branch account and a collection account each set their own flag and no other |
| Patrons.CommitKeepsAnswers | collector/v2_patrons.py:128-180 | committing, and its first transaction alone, changes no answer of lookup, contains, hold_get or the holds of a patron |
| Patrons.StagedChanges | collector/v2_patrons.py:147-184 | after any sequence of staged changes commit keeps every answer and discard gives the cache from before them |
| Patrons.NothingStaged | collector/v2_patrons.py:155-161 | skipping a transaction when nothing is staged for it changes nothing |
| Patrons.ListingUnique | collector/v2_patrons.py:254-263 | ordering by time and item key leaves only one listing of a patron's holds |
| PatronStore.SortEntries | collector/v2_patrons.py:263-263 | the sorted list has exactly the found holds, strictly ordered by time, then item key |
| PatronStore.PatronCache.constructor | collector/v2_patrons.py:88-110 | opens over the stored tables with empty overlays |
| PatronStore.PatronCache.Lookup | collector/v2_patrons.py:128-136 | a staged profile, else the stored one, else the empty profile of a mere sighting |
| PatronStore.PatronCache.Contains | collector/v2_patrons.py:138-140 | true exactly for identifiers staged or stored |
| PatronStore.PatronCache.Stage | collector/v2_patrons.py:147-153 | a plain sighting never replaces what is staged; a profile does |
| PatronStore.PatronCache.HoldGet | collector/v2_patrons.py:242-246 | the staged row or deletion, else the stored row |
| PatronStore.PatronCache.HoldPut | collector/v2_patrons.py:248-249 | stages the row and nothing else |
| PatronStore.PatronCache.HoldDelete | collector/v2_patrons.py:251-252 | stages the deletion and nothing else |
| PatronStore.PatronCache.Discard | collector/v2_patrons.py:182-184 | drops both overlays and keeps both tables |
| PatronStore.PatronCache.HoldsForPatron | collector/v2_patrons.py:254-263 | exactly the holds hold_get shows for the patron, staged changes included, in time order, ties by item key |
| PatronStore.PatronCache.CommitHolds | collector/v2_patrons.py:269-281 | the ledger table with every staged row and deletion applied, its overlay empty |
| PatronStore.PatronCache.CommitPatrons | collector/v2_patrons.py:163-180 | the upserts: a profile replaces, a sighting only moves the date, first seen is kept |
| PatronStore.PatronCache.Commit | collector/v2_patrons.py:155-180 | succeeds exactly if the file takes both transactions, and then both are applied; if one fails, the tables are those from before or those with the ledger's transaction alone; a read-only cache drops its overlays |
| PatronStore.PatronCache.Purge | collector/v2_patrons.py:188-204 | rows within the time to live remain, at most the cap of them, none less recently seen than an evicted one; the expired ones are counted and the counts add up; a read-only cache deletes nothing |
| PatronStore.PatronCache.PurgeHolds | collector/v2_patrons.py:283-295 | holds of the last days remain, at most the cap, none of an earlier day than one that went, ties by item key; the count adds up; a read-only cache deletes nothing |
| Lifetimes.ChunkKeepsBacked | collector/v2_transform.py:229-266 | a committed chunk leaves every ledger hold with a patron row seen no earlier than the day before the hold |
| Lifetimes.ProfilesOutliveHolds | collector/v2_patrons.py:188-204 | with rows living longer than holds, over any runs on non-decreasing days and no cap eviction, each purged ledger's holds still have their patron rows |
| Lifetimes.MarginIsExact | collector/v2_patrons.py:283-295 | that margin is necessary and sufficient |
| Transform.CorrectHolds | collector/v2_transform.py:177-193 | re-sends exactly the patron's ledger holds whose flags change, each one revision on, and updates the ledger to match |
| Transform.CollectProfiles | collector/v2_transform.py:218-223 | the profiles a chunk brings, keyed by patron, the latest of each winning, in first-assignment order |
| Transform.FirstPass | collector/v2_transform.py:215-231 | corrections before the profile is staged, then the sightings |
| Transform.GuardedCard | collector/v2_transform.py:156-164 | a known patron identifier is guarded and its sighting staged |
| Transform.HoldRecord | collector/v2_transform.py:250-266 | flags, revision, event and ledger change of one hold record |
| Transform.SecondPass | collector/v2_transform.py:233-277 | the events and ledger of the specification of pass 2: one event for each admitted record (`Standing.ItemPassSays`), each row moved as the standing hold (`Standing.ItemPassStands`) |
| Transform.TransformAcs | collector/v2_transform.py:196-277 | the two passes give exactly the events and the staged cache of the chunk's specification, whose rows are the standing holds (`Standing.LedgerStandsExactly`) and whose events a reader sees as the batch classification (`Runs.RefinesBatchExactly`) |
| Standing.StandingSnoc | collector/v2_transform.py:262-273 | one more record of an item replaces the standing hold, ends it or leaves it by its kind, patron and time |
| Standing.ItemPassStands | collector/v2_transform.py:233-277 | the second pass moves every item's ledger row as its records move the standing hold |
| Standing.LedgerStandsExactly | collector/v2_transform.py:196-277 | after any committed chunks of any log the ledger has a row for an item if and only if a hold stands for it, and the row is that hold's: time, patron, destination and own flags |
| Standing.RowIsLatestExactly | docs/contract-v2-design.md:268-300 | in an orderly log a latest 101 record that is a hold with a patron has the row; the row is there exactly for such records if and only if no hold read after another latest record still stands, and always if no hold with a patron is read after it |
| Standing.SilentChunkSays | collector/v2_transform.py:177-193 | a chunk without records of an item sends of it exactly the standing hold with the flags of the profile it brings, if and only if these differ from those of the profile known before, and else nothing |
| Standing.TakenBackStaysSilent | collector/v2_transform.py:269-273 | so a hold that a later record took back is never sent again by such a chunk, unless a hold is read late |
| Standing.ItemPassSays | collector/v2_transform.py:233-277 | the second pass sends one event for each admitted record, in order, with that record's time, item, kind, destination and flags |
| Standing.ChunkSaysItsItems | collector/v2_transform.py:233-277 | over a run: a chunk ends with one event for each record the guard and the window let through, a hold with the flags of its patron's last read profile |
| Standing.LateHoldStands | collector/v2_transform.py:262-273 | a return and, read after it, the hold it ended: the hold has the row and is sent again with a later profile, and the reader keeps the return |
| Numbering.EveryRevisionWasSent | collector/v2_transform.py:256-264 | every revision up to that of a ledger row was sent for its item and second and is stored |
| Server.LatestIsGreatest | docs/contract-v2-design.md:326-328 | the latest row of an item is one with the greatest time, and the last stored of those |
| Server.InsertLatest | src/services/ingest_v2_service.py:455-504 | a known key changes no item's latest row; a new one becomes it exactly when it is not earlier |
| Server.ResendAfterPrefix | src/services/ingest_v2_service.py:455-504 | resending after any stored prefix gives the rows of one send |
| Ledger.EventKeyDetermines | collector/v2_identity.py:135-151 | an event key determines the event's content and, for a hold, its revision |
| Ledger.CorrectionTransition | collector/v2_transform.py:182-193 | a changed outcome keeps the item's invariant between ledger, rows and profile |
| Ledger.CorrectionIsNew | collector/v2_transform.py:182-193 | a correction of an item's latest record is a row the server does not have and becomes the latest row |
| Ledger.ItemTransition | collector/v2_transform.py:249-273 | every item record that the rows can tell apart in its second keeps the item's invariant, whatever the ledger held |
| Provenance.InOrderToldApart | collector/v2_transform.py:249-273 | records that the log tells apart in one second send events that the stored rows tell apart, because every row goes back to an admitted record |
| Provenance.CorrectionsSourced | collector/v2_transform.py:182-193 | corrections say again, with other flags, what an admitted hold record said |
| Refinement.ProfilePassKeeps | collector/v2_transform.py:224-228 | all of a chunk's profiles keep every item's invariant and leave each patron's profile known |
| Refinement.SightingsKeep | collector/v2_transform.py:229-231 | sightings change no flags and make exactly the quoted identifiers known |
| Refinement.ItemPassKeeps | collector/v2_transform.py:233-277 | the second pass over an orderly log keeps every item's invariant and every row's source |
| Runs.DictFindsLast | collector/v2_transform.py:218-223 | the dict built from the sorted profiles holds each patron's last one |
| Runs.ReaderSeesLastRead | collector/v2_transform.py:196-277 | after any committed chunks a reader sees each item's latest 101 record, a hold with the flags of its patron's last read profile |
| Runs.RefinesBatchExactly | collector/v2_transform.py:196-277 | that view is the whole-log classification if and only if the last read and the latest profile do not set the flags differently |
| Runs.LedgerRefinesBatch | tests/test_collector_v2_late_profile.py:142-146 | the streamed classification equals the whole-window classification however the log is cut, if no chunk brings only older profiles of a patron (`ProfilesAdvance`) and records of one second can be told apart (`Orderly`) |
| Runs.NoCorrectionSwallowed | tests/test_collector_v2_late_profile.py:198-203 | in every state an orderly log reaches, a correction of an item's latest hold is new to the server and wins; no row of that hold's destination, or of the second if it has one destination, is beyond the ledger's revision |
| Runs.CutsAgreeExactly | collector/v2_transform.py:240-242 | which item records become events is the same for all cuttings of a log if and only if every scanned barcode quoted as a patron identifier is quoted no later than the record that scans it |
| Runs.CutsShowAlikeExactly | collector/v2_transform.py:218-228 | all cuttings of a log with a stable guard show a reader the same of an item, and then the whole-log answer, if and only if no end of the log has a latest profile of its patron that sets its flags differently |
| Runs.ChunkingDoesNotMatter | collector/v2_transform.py:373-379 | any two cuttings of one log show a reader the same, namely the classification of the records the guard lets through, under conditions on the log alone |
| Retry.FoldTwice | collector/v2_transform.py:249-273 | running a chunk's records over the ledger they left gives that ledger again |
| Retry.CrashesAtOnce | collector/v2_run.py:198-215 | any stopped attempts, then one finished, all at one clock reading and day, leave exactly the disk of one attempt |
| Retry.FinishedCoherent | collector/v2_run.py:211-215 | a finished attempt leaves every ledger row with the flags of its patron's profile again |
| Crashes.ChunkAlike | collector/v2_transform.py:196-277 | a chunk's events, ledger and staged patrons depend neither on the days in the patron table nor on the clock, as long as it accepts the same item records |
| Crashes.RereadChunk | collector/v2_run.py:198-215 | re-reading a chunk at another time after either cache transaction sends only stored events and leaves the same ledger and staged patrons |
| Crashes.CrashesChangeNothing | collector/v2_run.py:198-215 | any stopped attempts, each with its own clock reading and day, then one finished, leave the rows, ledger, profiles, last-seen days and cursor of one attempt; new patrons were first seen on the day of the first attempt that stored them |
| Crashes.CrashRunIsRun | collector/v2_run.py:182-222 | a run of chunks each tried any number of times leaves the rows, ledger, profiles and last-seen days of the uninterrupted run |
| Crashes.CrashesRefineBatchExactly | collector/v2_run.py:198-215 | under crashes too, the reader's view is the whole-log classification if and only if the last read and the latest profile do not set the flags differently |
| Attempts.TryChunk | collector/v2_run.py:203-215 | an attempt over the cache's own transactions leaves the disk of the stop it makes: while delivering, at the transaction the file does not take, before the cursor is saved, or the finished one |
| Attempts.EveryStopHappens | collector/v2_patrons.py:155-180 | every disk that the crash theorems call stopped is left by some attempt |
| OneItem.AboutChunk | collector/v2_transform.py:177-193 | of an item none of its records is about a chunk sends exactly its ledger row's correction, if the stored outcome and the flags change, and leaves the row and the outcome to match |
| OneItem.AboutDecides | src/services/ingest_v2_service.py:455-504 | what a reader sees of an item depends only on the events about it |
| LongerRetry.StopTells | collector/v2_run.py:198-215 | an attempt, wherever it stops, does to an item's ledger row, stored outcome, stored corrections and latest row what the four-part state says |
| LongerRetry.GrownRetryExactly | collector/v2_run.py:203-206 | after any failed attempts over any records with any stops, the attempt that finishes leaves the reader right about an item if and only if the reader is right already, or the outcome changes the stored one, the flags change the ledger's and are not stored under the next revision |
| LongerRetry.SeveralFailuresExactly | collector/v2_run.py:203-206 | if they all failed while delivering: right if and only if no correction is stored, or the last one stored has the right flags, or these are new to the ledger and to the stored corrections |
| LongerRetry.LedgerStopExactly | collector/v2_patrons.py:155-162 | after a stop between the two cache transactions: right if and only if both runs give the hold the same flags or the last profile changes the stored outcome, and the ledger has the flags the reader sees |
| LongerRetry.PatronStopIsHarmless | collector/v2_run.py:211-215 | after a stop between the cache's commit and the cursor's: always right |
| LongerRetry.GrownRetryMisleads | collector/v2_run.py:203-206 | a hold and two profiles after which the whole log and the ledger say plain and the reader sees an interlibrary loan |
| LongerRetry.ThirdAttemptMisleads | collector/v2_run.py:203-206 | a hold and three profiles, two failed attempts: the whole log and the ledger say interlibrary loan and the reader sees branch services |
| LongerRetry.LedgerStopMisleads | collector/v2_patrons.py:155-162 | a hold and two profiles, a stop between the transactions: the whole log and the stored profile say plain, the ledger and the reader keep the interlibrary loan |
| Limits.PatronsFirstWouldStrand | collector/v2_patrons.py:155-162 | with patrons committed before the ledger, a re-read would send no correction and strand the old flags |
| Limits.GuardDependsOnTheCut | collector/v2_transform.py:240-242 | a log whose guarded barcode depends on where the chunk ends |
| Limits.OlderProfileMisleads | collector/v2_transform.py:219-228 | a chunk that brings only an older profile takes the newer one's flags back |
| Limits.ReturnInOneSecondIsSwallowed | collector/v2_transform.py:256-273 | a hold returning in the second of a later non-hold sends an event the server already holds |
| Limits.OtherCodeStrands | collector/v2_transform.py:269-273 | a hold, an other-code-10 record in its second and a later profile that the reader never sees applied |
| Limits.OtherCodeExactly | collector/v2_transform.py:269-273 | such a record deletes the ledger row; whatever chunks follow without the item, the reader keeps the flags of that time, which is right if and only if the profiles read later do not set them differently |
| Limits.SameSecondExactly | collector/v2_transform.py:249-273 | any hold or non-hold in the second of its item's latest record is seen if and only if its event is new or the reader sees the same already |
| Limits.ReturningHoldExactly | collector/v2_transform.py:256-273 | such a hold starts at revision 0, and a reader sees it if and only if no row has its key |
| Limits.ReturnSeenExactly | collector/v2_transform.py:256-273 | for a whole run that ends with such a hold: a reader sees it if and only if the run had not sent its event before |
| Quarantines.Quarantine.constructor | collector/v2_quarantine.py:65-93 | the file's entries, pruned to today |
| Quarantines.Quarantine.Prune | collector/v2_quarantine.py:95-100 | entries within retention, then the newest up to the cap |
| Quarantines.Quarantine.Contains | collector/v2_quarantine.py:110-111 | exactly the listed events |
| Quarantines.Quarantine.KeysFor | collector/v2_quarantine.py:113-114 | exactly the keys listed under a kind |
| Quarantines.Quarantine.Add | collector/v2_quarantine.py:116-125 | appends each unlisted event once, prunes and saves: with room every incoming event is then listed, and nothing is that was not listed or incoming; a read-only view does nothing |
| Quarantines.AppendedInOrder | collector/v2_quarantine.py:119-123 | what is appended is some of the incoming entries, in order, none of an event that was listed |
| Quarantines.AddListsExactly | collector/v2_quarantine.py:116-125 | every incoming event is in the lengthened list, and after the add it is listed if and only if an entry of it is within retention and fewer such entries than the cap come after that one |
| Quarantines.HistoryLists | collector/v2_quarantine.py:116-125 | every event an add brings is in the history, by the entry itself if it was not listed when its turn came |
| Quarantines.StoreListsExactly | collector/v2_quarantine.py:95-134 | after any operations the store lists exactly the events with an entry in the history that is within retention and among the newest up to the cap |
| Quarantines.Quarantine.PruneAndSave | collector/v2_quarantine.py:132-134 | prunes, and saves unless read-only |
| Quarantines.StoreIsPrunedHistory | collector/v2_quarantine.py:95-134 | from any dated file without repeats, over any adds and prunes on non-decreasing days, the store is the pruned history of the file and all appends, dated in order and without repeats |
| Quarantines.PrunedIsSuffix | collector/v2_quarantine.py:95-100 | of a dated list, pruning keeps exactly the newest suffix within retention and cap |
| Delivery.BatchOf | collector/v2_uploader.py:43-48 | each list holds its kind's events in order |
| Delivery.ListsHoldAll | collector/v2_uploader.py:43-51 | the three lists together hold every event once |
| Delivery.Without | collector/v2_uploader.py:60-68 | kept and removed events are the batch, each list in order, as many removed as there are reported positions |
| Delivery.KeptInOrder | collector/v2_uploader.py:60-68 | the kept events are exactly those at the other positions, in order |
| Delivery.DroppedInOrder | collector/v2_uploader.py:60-68 | a reported position maps back to its event: the removed ones are exactly those at the positions, in order |
| Delivery.ReadConflicts | collector/v2_uploader.py:116-127 | positions of a 409, or nothing if any list is unknown, empty or holds anything but positions in range |
| Delivery.ReadInvalid | collector/v2_uploader.py:130-142 | positions of a 422, or nothing if any error is not about one event |
| Delivery.PostBatch | collector/v2_uploader.py:152-183 | accepted if and only if the reply is a 200 with status "success"; conflict or invalid if and only if it is a well-formed 409 with the conflict code or 422, with exactly the positions listed; any other reply fails with the category of its status |
| Delivery.OutcomeSays | collector/v2_uploader.py:96-183 | the same of the specification's outcome, read off the reply alone |
| Delivery.AckedIsStored | collector/v2_run.py:141-145 | an event is acknowledged if and only if it was in a request answered by a 200 with status "success" |
| Delivery.RefusedIsReported | collector/v2_run.py:146-155 | a refused event stood at a position that the 409 or 422 to its request lists |
| Delivery.RoundIsRequest | collector/v2_run.py:146-151 | every quarantine round is that of one request, with the reason of its status, and its events stood at the listed positions |
| Delivery.RefusedListedExactly | collector/v2_run.py:150-151 | a refused event is recorded with its reason, time and day unless it was listed already, and is listed after delivery if and only if a record of it is within retention and fewer such records than the cap follow |
| Delivery.RefusedAreListed | collector/v2_run.py:150-151 | with room in the store, every refused event is listed after delivery |
| Delivery.RefusalShrinks | collector/v2_run.py:146-149 | a usable 409 or 422 always removes an event |
| Delivery.RestRefused | collector/v2_uploader.py:60-68 | removing takes exactly the refusable events reported out of what is left |
| Delivery.DeliverBatch | collector/v2_run.py:132-157 | replies account for every event; progress is always possible; at least 50 reported a time means at most 21 requests for 1000 events and never the round cap |
| Delivery.Deliver | collector/v2_run.py:128-158 | without a failure the acknowledged and refused events are the chunk's events as a multiset, and never more than those otherwise; refused ones are quarantined round by round, and with room all listed at the end; requests are bounded; if nothing was refused each kind went out once and in order |
| Reading.ReadCompleteLines | collector/reader.py:142-161 | all complete lines from an offset, ending just past the last newline |
| Reading.LinesUnique | collector/reader.py:142-161 | the complete lines are the only lines that cover the data up to where no newline follows |
| Reading.ReadChunk | collector/v2_reader.py:35-70 | the first lines up to the limit from the right start, exact rotation and truncation, the cursor just past them, more only when stopped by the limit |
| Reading.SameFileIsOrder | collector/reader.py:86-105 | the legacy identity rule works in one direction and one step, and matches nothing else |
| Reading.ChunksAreOneReading | collector/v2_reader.py:56-70 | chunked reading of a growing file with any limits gives the lines and offset of one reading and never a partial line |
| Reading.ReadTail | collector/v2_reader.py:73-90 | the complete lines of the last bytes, the cut first one dropped |
| Reading.TailIsSuffix | collector/v2_reader.py:73-90 | they are a suffix of the file's complete lines, exactly those that begin after the cut |
| Cursors.DropListed | collector/v2_run.py:198-199 | exactly the events not in the quarantine, in order |
| Cursors.CommitChunk | collector/v2_run.py:198-215 | a chunk is staged, delivered and committed to the patron cache; a failed delivery leaves the tables as they were, a failed commit those or those with the chunk's ledger rows alone |
| Cursors.ProcessSources | collector/v2_run.py:161-223 | every saved cursor follows a delivered next chunk, within the budget, the ACS log's chunks first; the stored tables hold what exactly those chunks staged, also after a failure, but for the ledger rows of a delivered chunk whose commit stopped halfway; nothing is read after a chunk that failed; with budget to spare every source was read to its end |
| Cursors.KeepsUnlisted | collector/v2_run.py:198-199 | an event is delivered exactly if it is the chunk's and not in the quarantine |
| Cursors.CursorNeverLeads | collector/v2_run.py:182-222 | over any appends, replacements, detected cuts, failures and crashes the lines before the cursor are those of delivered chunks, and it is 0 or past a newline |
| Cursors.EveryEventSettled | collector/v2_run.py:198-206 | each event of a committed chunk was quarantined before, was in a request answered by a 200 with status "success", or stood at a position that a 409 or 422 to its request lists |
| Cursors.OtherBytesExactly | collector/v2_reader.py:47-54 | other bytes under a known cursor keep that property if and only if they end before it or agree up to it |
| EndToEnd.RunIsRun | collector/v2_run.py:161-223 | a run whose events are all accepted leaves on an insert-if-absent server the ACS rows, and in the cache the ledger, profiles and identifiers, of the run of its saved ACS chunks; chunks of the other logs only move last-seen days |
| EndToEnd.RunRefinesBatchExactly | collector/v2_run.py:161-223 | so a reader of that server sees the whole-log classification of those chunks if and only if the last read and the latest profile do not set the flags differently |
| Spooling.NameRoundTrip | agent/spool.py:234-268 | parsing a batch's file name gives back its generation and offsets |
| Spooling.NamesSortByRange | agent/spool.py:226-241 | names sort by generation, start and end, and only equal ranges are left to the tie-breakers |
| Spooling.GenerationLimit | agent/spool.py:226-241 | numeric order of generations holds below a bound if and only if the bound is at most a million |
| Spooling.Refusal | agent/spool.py:370-391 | what is not refused has records, makes progress and fits the name's widths |
| Capturing.NumberedAreLines | agent/tailer.py:163-201 | the numbered lines are the complete lines and end where those end |
| Capturing.NumberedMissesNone | agent/tailer.py:163-201 | every line from the start to the end of a read is numbered with the offset it begins at |
| Capturing.SpoolKeeps | agent/runtime/collector.py:385-396 | spooling before the state is saved keeps the capture invariant |
| Capturing.ForgetKeeps | agent/runtime/collector.py:401-404 | emptying the buffer after everything is spooled keeps it although the position could not be saved |
| Capturing.PersistKeeps | agent/runtime/collector.py:343-355 | saving once everything buffered is spooled keeps it |
| Capturing.ContinueKeeps | agent/runtime/collector.py:560-588 | reading on in one stream keeps it |
| Capturing.FreshKeeps | agent/runtime/collector.py:545-588 | starting the next generation from byte 0 keeps it |
| Capturing.BootKeeps | agent/runtime/collector.py:278-339 | starting from disk, or seeding at the end of the file, keeps it |
| Capturing.AppendKeeps | agent/tailer.py:241-256 | growth that does not hide a truncation keeps it |
| Capturing.BreakKeeps | agent/state.py:225-274 | a rotation or truncation after the last generation was saved keeps it |
| Collecting.ReadNewLines | agent/tailer.py:204-280 | all new lines with offsets, from byte 0 and reported on a discontinuity |
| Collecting.Store.WriteBatch | agent/spool.py:335-399 | the whole batch is installed or nothing is |
| Collecting.SourceCollector.Flush | agent/runtime/collector.py:366-408 | every buffered record is spooled before the cursor is saved; at whichever write it raises, disk and memory keep the invariant |
| Collecting.SourceCollector.SpoolChunk | agent/runtime/collector.py:385-396 | a chunk's batch is named by its generation and a range that ends where the next begins, and is never refused |
| Collecting.SourceCollector.Bootstrap | agent/runtime/collector.py:278-339 | goes by the cursor in memory, else by the saved one, else by none (replay), a configured byte, or the end of file, which is saved at once; waits while the file is away |
| Collecting.SourceCollector.PollOnce | agent/runtime/collector.py:469-610 | the capture invariant of disk and memory survives every poll and every write in it that raises; a first sighting of a discontinuity moves nothing but notes it; any other poll that succeeds leaves the cursor in the file as it is, past its last newline, one generation on exactly after a second sighting, everything that parses from the base on buffered or spooled, and nothing buffered if it was due |
| Collecting.SourceCollector.Accept | agent/runtime/collector.py:543-599 | an ordinary read goes on in its generation; a confirmed discontinuity flushes and starts the next from byte 0; both end past the last newline |
| Collecting.SourceCollector.Absorb | agent/runtime/collector.py:560-599 | a read's records and cursor are taken together, saved at once only if nothing waits |
| Collecting.Live | agent/runtime/collector.py:6-12 | over any life with writes that fail and are survived with the memory as it is, or not, generations number streams in order, records are whole lines of their streams, batches are within the flush size, and everything parsed before the saved cursor is spooled; a life that ends with two looks, the second due or followed by a shutdown, has spooled every line that has ended and parses, from byte 0 in a replay and in every stream after the first |
| Collecting.StartBeyondEnd | agent/runtime/collector.py:311-319 | with a configured start beyond the end of the file, which then grows past it, generations stay in order if and only if one of the two readings has no record |
| Collecting.ListingIsCaptureOrder | agent/spool.py:407-420 | of two batches the one listed first is of an earlier stream, or of the same stream at no later an offset |
| Collecting.IdentityIsPhysical | agent/event_identity.py:67-98 | captured records have one identity string if and only if they are the same place of the same stream, read again or not |
| Collecting.UnsavedGenerationCollides | agent/state.py:270-274 | a state that keeps the invariant with a spooled record above the saved generation: after one more rotation two records of different streams have one identity string |
| Collecting.UnsavedGenerationIsReused | agent/state.py:270-274 | after a break the next generation keeps the order if and only if no spooled record is above the saved generation |
| FirstContract.BuildBatches | collector/uploader.py:181-204 | batches joined are each source's list, within the cap, none empty |
| FirstContract.UploadRecords | collector/uploader.py:229-278 | every request before the last was delivered, and on failure the last was not; the server gains some of the records, all of them on success |
| FirstContract.RunOnce | collector/run.py:211-330 | success adds exactly the records of all lines of the files read, from byte 0 after a rotation or truncation, and reports those; a run fails exactly at its first undelivered request, and then commits nothing |
| FirstContract.AppendKeepsBounds | collector/reader.py:142-161 | appending keeps the bounds if it hides no truncation |
| FirstContract.ReplaceKeepsBounds | collector/reader.py:181-198 | a rotation or truncation the next read sees keeps the bounds |
| FirstContract.History | collector/run.py:211-330 | over any appends, rotations, truncations, failures and crashes the server holds at least what is committed and never more than the complete lines ever there; after a clean run all of the current files', and exactly those if the file was never replaced |
| Revisions.Ancestors | scripts/check_schema_compat.py:129-138 | stops on every graph with exactly the revisions one or more parent steps below |
| Revisions.CodeHeads | scripts/check_schema_compat.py:124-126 | exactly the revisions nobody names as a parent |
| Revisions.Relate | scripts/check_schema_compat.py:141-151 | the relation by reachability |
| Revisions.Check | scripts/check_schema_compat.py:233-256 | passes if and only if the graph was read, has a single head, and the database is at it; each refusal is given exactly in its case, and the relation is unknown exactly if the database's revision is not in the graph |
| Revisions.NothingIsAboveAHead | scripts/check_schema_compat.py:24-25 | no revision descends from a head, so `descendant` never occurs |
| Revisions.KnownIsEqualOrAncestor | scripts/check_schema_compat.py:24-25 | in an acyclic single-head graph a known revision is the head or an ancestor |
| Revisions.DivergentExactly | scripts/check_schema_compat.py:141-151 | with a single head no known revision is divergent if and only if every revision on a cycle is below the head |
| Revisions.CycleCanDiverge | scripts/check_schema_compat.py:141-151 | with a cycle `divergent` does occur |
| Auditing.IterRecords | collector/run_audit.py:343-365 | the records of the lines that parse, oldest first, a line ending where `str.splitlines` ends it |
| Auditing.AppendedRecords | collector/run_audit.py:320-335 | a torn last line never merges with the new record |
| Auditing.Prune | collector/run_audit.py:368-402 | exactly the records in retention remain, in order, and the file is untouched if no line is dropped |
| Auditing.RetentionKeepsExactly | collector/run_audit.py:388-398 | a record is kept if and only if it has a start that is not before the cutoff |
| Auditing.AppendRunRecord | collector/run_audit.py:422-454 | the earlier records in retention, then the new one, whether or not the file was torn or rewritten |
| Auditing.TornWriteLosesNothing | collector/run_audit.py:434-448 | a write cut anywhere leaves the earlier records, and the new one if and only if all of its text but the final newline got there |
| Collisions.CollectSource | collector/identity_collision_diag.py:130-136 | the groups of more than one event, and the count of events beyond distinct keys |
| Collisions.IdenticalIsExtra | collector/identity_collision_diag.py:130-136 | that count is the sum of group sizes less one |
| Collisions.CountGroups | collector/identity_collision_diag.py:191-201 | each counter grows by the number of groups of its kind, the largest is the largest group's size, and all stay clean exactly when every group is of an expected kind |
| Collisions.EvaluateGate | collector/identity_collision_diag.py:187-220 | passes if and only if every group of every source is expected and both ratios are in bounds |
| Collisions.RatiosInWholeNumbers | collector/identity_collision_diag.py:202-210 | the ratios pass if and only if at most 12 in 100 rejects are identical events, and distinct times number at least 90 in 100 of the colliding keys |
| Collisions.PassMeans | collector/identity_collision_diag.py:160-175 | then identical events number the groups, and every event in one is an ACS hold or a keyless reject of a permitted class |
| Collisions.SpreadAtMostOne | collector/identity_collision_diag.py:207-210 | a key fixes the time, so the spread never exceeds 1 |

## Left out

- Transform.TransformAcs: takes each line's record as parsed; the parsers, raw text tests, normalisation and time zones are given inputs, and counters are not kept.
- Standing.SilentChunkSays: for chunks that turn no record into an event about the item; of the others `Standing.ChunkSaysItsItems` says what their item records send.
- Runs.ChunkingDoesNotMatter: assumes no purge between chunks and nothing quarantined; purging has its own theorem (`Lifetimes.ProfilesOutliveHolds`).
- Crashes.CrashesChangeNothing: no purge runs between the attempts, and the rules file stays the same; the attempts read the same lines (longer ones are in `LongerRetry`). The chunk must be `Retryable`: where an item record shares a second with a stored ledger row of its item, all of the item's records in the chunk leave that row alone (as the same hold read again does), and holds of one item and second repeat each other.
- Crashes.CrashRunIsRun: as there, and an attempt that stops is followed by one that finishes before the next chunk.
- LongerRetry.GrownRetryExactly: for items of which no attempt turns a record into an event, and whose ledger row is their latest record.
- Limits.OtherCodeExactly: for later chunks that turn no record into an event about the item.
- EndToEnd.RunIsRun: nothing is refused or quarantined, no purge runs at the start of a run, and the chunks of the other two logs are taken only by what they send and stage.
- Lifetimes.ProfilesOutliveHolds: the row cap evicting a patron is excluded, because the cap can evict any row.
- Reading.ReadChunk: lines are bytes; decoding and CRLF normalisation apply to each line alone and are not modelled.
- Cursors.ProcessSources: what a chunk's lines become and stage is a given function of the read, tied to the transformation in `EndToEnd`; a failed transaction of the patron cache ends the run as it does in the program; a failed save of the state file counts as a crash before it, and a crash between the cache's commit and that save is in `Crashes`.
- Delivery.Deliver: the pause between requests and the totals are not modelled; a quarantine file that cannot be read starts empty in the program and is one of the given contents here.
- Spooling.NameRoundTrip: Python's `int` also accepts signs, spaces and underscores in names no writer makes; those parse to nothing here.
- Spooling.NamesSortByRange: generations of a million and above, which nothing checks, are `Spooling.GenerationLimit`.
- Collecting.SourceCollector.Bootstrap: a configured start lies in the file (`MayStart`); what goes wrong otherwise is `Collecting.StartBeyondEnd`.
- Collecting.Live: uploading and acknowledging batches only remove whole batches and are not part of this model. A rotation or truncation waits for the saved generation (`MayBreak`), and a configured start lies in the file (`MayStart`).
- Collecting.SourceCollector.PollOnce: the two-sighting rule is modelled, its logging and cycle report are not.
- FirstContract.History: growth that hides a truncation, and a replacement that the next read cannot see, are excluded.
- Auditing.AppendRunRecord: the file lock and the failure result are not modelled, and a JSON value is a start time and the rest.
- Revisions.Check: messages and the database connection are not modelled; what went wrong there is one given code.
- Collisions.EvaluateGate: ratios are exact reals, not floating point.
- The ruleset registry and its random ids: an opaque lookup without a whole-run property.
- Key derivation, secret stores, access control, HTTP sessions, SQL text, configuration loading, the schedule query, status heartbeats and the dry run's output: plumbing around the parts modelled.
- The server's services, dashboards and release tooling: only the insert-if-absent rule and the latest rule are modelled.
