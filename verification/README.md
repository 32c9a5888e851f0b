# Mail engine: a verified model of the spine

The mail engine is a PostgreSQL spine: an append-only event log, tables whose columns cache what the
events say, and a fixed set of transactional verbs that are the only writers. This project states that
store and those verbs in Dafny and proves what every run of them keeps.

Each verb that updates rows, dictionaries or counters in place is a method of a class whose fields are
the tables, or a method with the same loop. It is proved against a function on table values (`Value()`),
and the promises are proved about those functions, for all inputs, all runs and every interleaving of the
transactions listed below. Where a promise is not kept, the exact condition is proved and a case is given.
Pure code (stage derivation, picks, gates, the matching chain) is functions and lemmas.

A method and the function it is proved against share their small tests (a gate, a flag, a key). So each
operation also has a reading by columns, stated over the tables before and after in its own terms: which rows
change, to what, what is logged, and what stays. The readings are the modules named `...Columns` and the last
section of `Audience`, `Split`, `Snapshots`, `Attribution`, `Closes`, `Digest` and `Nightly`. Where one still
names a text function (case, white space, patterns, phone numbers) or what makes two requests the same, that has
a reading of its own. Proofs by induction are written out; automatic induction is off.

| file | what it holds |
|---|---|
| `Types.dfy` | ids, time, the event taxonomy, the log and its idempotent append |
| `Derivation.dfy` | the stage of a contact, from its events |
| `Registry.dfy`, `Snapshots.dfy` | the uploaded registry files: format, verdicts, ledger, working copies, crashes |
| `Custody.dfy`, `CustodyProofs.dfy`, `CustodyColumns.dfy`, `Spine.dfy` | leads, batches, gates, suppression, the scrub, export; what each verb keeps, what it does by columns, and the verbs as methods |
| `Scrub.dfy`, `ScrubColumns.dfy`, `Compliance.dfy`, `SafeHarbor.dfy`, `Races.dfy` | the hybrid scrub, the state machine of all custody verbs, what a sheet can contain, and three runs in which a stale read does harm |
| `Receipts.dfy`, `Nightly.dfy`, `Locks.dfy` | retries, the night's custody steps, row locks |
| `Audience.dfy`, `Split.dfy`, `Waves.dfy`, `Overwrites.dfy` | who is mailed, which variant, the wave lifecycle, and what its unlocked reads cost |
| `Drop.dfy`, `DropRuns.dfy`, `Recipients.dfy`, `WaveColumns.dfy` | the resumable drop, its runs, whom they print to, and the lifecycle and the drop by columns |
| `Identity.dfy`, `Intake.dfy`, `IntakeRuns.dfy`, `IntakeColumns.dfy`, `Grain.dfy`, `Agreement.dfy` | rows and businesses, list intake, the one-time merge, and their agreement |
| `Recall.dfy` | a suppression across the custody tables, a hard delete and later loads |
| `Attribution.dfy`, `Closes.dfy` | orphan resolution, the close correlation |
| `Digest.dfy` | the nightly judgment: cooldown, priority, budget |

## How the main results fit together

* **What reaches a sheet may be called.** `Compliance.Next` interleaves pulls, assignment, returns,
  clearances and exports with any number of scrubs, each written row by row, and any number of
  suppressions, each with its read apart from its write. `SafeHarbor.SheetRowMayBeCalled` follows a row of a
  sheet back through the stamp on the contact, the ledger row it names and the file on disk to the bytes
  that were judged: 31 days for the check, 31 days for the list (16 CFR 310.4(b)(3)(iv)), and the number
  absent from the list. The exception is exact: a scrub's delisting, a transaction of its own, clears
  whatever flag it finds, so it is safe if and only if none stands
  (`SafeHarbor.DelistingIsSafeWhen`). Over runs in which no delisting meets a flag every row of every sheet
  may be called (`SafeHarbor.EverySheetMayBeCalled`), runs whose scrubs do not overlap among them; with one
  list per holder, code and date a row may not be called exactly when such a delisting was the last word on
  it (`SafeHarbor.ExactlyTheLate`); and `Races.LateDelistingHappens` is a run from empty tables that sells a
  listed number. `Registry.ListingReads` and `Snapshots.AnyPassesAreSound` are the links to the file. The
  hypothesis throughout is that the portal keeps one file name per FTC guid.
* **Custody is what the events say, and forbidden numbers are home but for two stale reads.**
  `Compliance.CustodyEverywhere` holds under every interleaving. No partner ever holds a do-not-call or listed
  number if and only if no step of the run writes a scrub hit, or a voice-blocking suppression, on the
  strength of an owner read before the lead was assigned (`Compliance.ForbiddenNumbersStayHome`,
  `Compliance.StepForbids`). Both happen (`Races.StaleHitHappens`, `Races.StaleSuppressionHappens`), which is
  why export filters again.
* **Transactions are steps.** `Locks` takes the custody transactions apart into row locks, decisions and single
  row writes. `Locks.OneVerbAtATime` puts them together again: what others can read moves by one whole verb
  at a time, at commits, and the verb chooses from the rows as they are committed at that moment. It is then
  Custody's verb (`Locks.AssignmentIsCustodys`, `Locks.ReturnIsCustodys`, `Locks.SingleRowIsCustodys`), a return
  by query under one condition (`Locks.ReclaimIsCustodysWhen`, `Locks.ExpiryIsCustodysWhen`,
  `Locks.WonIsCustodysWhen`).
* **A scrub never dies on a file, and an impossible date stops the pull.** In no reachable world does a pass
  meet a file that it can neither read nor refuse (`SafeHarbor.NoPassDies`), and an accepted list is readable
  if and only if its directory holds one file of its code (`SafeHarbor.ReadableWhen`). An upload whose name
  carries a date that does not exist raises, and nothing behind it is ever recorded
  (`Snapshots.ReportsWhen`, `Snapshots.NothingBehindIsRecorded`).
* **A suppression is for good.** `Recall.SuppressionStands` within the tables; across a hard delete,
  `Recall.ReturnsSuppressed`, by phone or by primary row. A list row alone is not always recalled:
  `IntakeRuns.ReacquiredWhen` is the exact condition, `IntakeRuns.AttachedRowIsNotRecalled` a case.
* **What fires is what was approved, once.** `DropRuns` interleaves any number of drop attempts,
  transaction by transaction, with crashes before and after the vendor call, every lifecycle verb and any
  change of the contacts. Its assignment of contacts to variants and the audiences its steps resolve are
  arbitrary, so its theorems cover `Split.VariantOf` (`Recipients.AssignedIsAssignment`) and
  `Audience.Resolution` in particular, and `DropRuns.ExecuteIsARun` ties a call of `Drop.Press.ExecuteWave` to
  such a run. When each call resolves its own audience, every line ever printed was printed by a piece of some
  call, and its contact was mailable under the approved rule when that very call began
  (`Recipients.EachPrintWasMailable`).
* **An approval can be overwritten.** There the lifecycle verbs are transactions taken whole. The code reads a
  status with a plain select and updates without locking, so `Overwrites` takes reads and writes apart: what
  approvals promised is kept throughout a run if and only if none of its writes is stale
  (`Overwrites.PromisesKeptWhen`, with the exact list in `Overwrites.StepKeepsWhen`). Three runs show an
  approved card edited, a cancelled wave started and a running one cancelled.
* **The shared pick.** `Agreement.MergeAgreesWithLoad` compares the migration with a fresh load through
  a view of the tables that no id enters. The claim in `resolution/pick.py` is true exactly when no
  filing carries a phone: the migration leaves such a phone on the contact and `load_list` does not
  (`Agreement.PhonedFilingDiffers`; `Agreement.OnePhonedFilingDiffers` is a case).
* **One pass of orphan resolution may not be enough.** `Attribution.OnePassSufficesWhen` is the exact
  condition, `Attribution.OnePassMayNotSuffice` a case, `Attribution.TwoPassesSuffice` the general bound.

## Modelling choices

Ids are natural numbers and only compared and ordered; a list key stands for its rank. Instants are whole
seconds, dates whole days (UTC). Hashes are taken as injective: the request hash, the state hash and the
mailer code are the tuples they cover, a file's digest is its content. Inputs the code reads from outside
are parameters: the clock, the id an insert generates, the rows a rule's where-clause selects for an
assignment, the order in which the database returns subscribed codes, what the print vendor first answers
for a code, and where a process dies. Each `with transaction()` is one atomic step, except in `Locks`, and
except that a suppression's read and its write are two steps of `Compliance`, and those of a lifecycle verb
two steps of `Overwrites`.

## Model

| member | source | states |
|---|---|---|
| Derivation.StageMeaning | derivation/rules.py:28-120 | the scans and the chain of returns compute a reference reading stated with quantifiers over events only: mailed, replied after some mailing, followed up after some reply, lost and not revived |
| Derivation.StageReadsJudgedEventsOnly | service/execution.py:53-64 | a stage depends on the set of judged events alone; order, repetition and every other event, the dnc checks in particular, change nothing |
| Derivation.StageIgnoresOrder | derivation/rules.py:101-120 | the same multiset of events gives the same stage and the same address verdict |
| Derivation.AddingEvents | derivation/rules.py:66-120 | any further events at any instants: suppressed is absorbing, won leaves only to suppressed, lost is left exactly by an opt-out, a signup or an added inbound later than every loss, and the ladder never falls |
| Derivation.AddressMeaning | derivation/rules.py:82-86 | the address has failed if and only if two pieces came back |
| Registry.Listed | seams/dnc_registry.py:66-90 | on any directory and byte stream: refuses, raises, or answers candidates intersected with the listed numbers |
| Registry.ListingReads | seams/dnc_registry.py:66-90 | an answer comes from exactly one file, one that passes validation, and is the exact intersection |
| Registry.PinnedMeans | seams/dnc_registry.py:93-95 | a line is pinned if and only if it is the area code, a comma and seven digits, and no more |
| Registry.ListingMeetsValidation | seams/dnc_registry.py:66-124 | the scrub can read a file if and only if validation accepts it |
| Registry.ValidateAndCount | seams/dnc_registry.py:105-124 | accepts exactly the well-formed streams and counts their lines |
| Registry.PrintThenRead | seams/dnc_registry.py:93-124 | a number set printed in the pinned format is well formed and reads back as that set |
| Registry.OneAreaCode | seams/dnc_registry.py:93-95 | a non-empty file is well formed for one area code only |
| Snapshots.SnapshotStore.RecordSnapshot | service/dnc_snapshots.py:51-143 | the verdict chain: which row stands for a file, or that the name makes the code raise |
| Snapshots.JudgedByColumns | service/dnc_snapshots.py:51-143 | with each fault written out over the name, the file and the ledger: a file is rejected for its first fault and accepted for want of one, the same bytes under a used guid stand as that row, an impossible date raises, and the row holds what the file says |
| Snapshots.SnapshotStore.PullSnapshots | jobs/dnc_pull.py:83-124 | one pass over the inbox, dying wherever it dies, is the specified pass; one that completes reports what became of each object, and why it was skipped |
| Snapshots.FateByColumns | jobs/dnc_pull.py:83-124 | what the report says of an object, in terms of the ledger, the disk and the object alone |
| Snapshots.AnyPassesAreSound | jobs/dnc_pull.py:45-124 | after any passes with any crashes: one ledger row per key, no accepted repeat of a guid or of content, every working copy holds the judged bytes of an accepted row |
| Snapshots.CompletePassRepairs | jobs/dnc_pull.py:60-124 | a pass that completes over unchanged bytes leaves every accepted object with its working copy, whatever earlier crashes lost |
| Snapshots.CopyIsRight | jobs/dnc_pull.py:60-80 | a copy under an accepted row's own name can only be that row's bytes |
| Snapshots.ReportsWhen | jobs/dnc_pull.py:83-124 | a pass that nothing kills reports if and only if no object it is offered raises |
| Snapshots.NothingBehindIsRecorded | jobs/dnc_pull.py:91-124 | an upload that always comes after one with an impossible date, from whatever known partner, is never recorded, over any passes |
| Custody.CurrentOwnerOf | derivation/custody.py:23-31 | the loop returns the owner the specification derives |
| CustodyProofs.CurrentOwnerIsLast | derivation/custody.py:23-31 | the owner is the new owner of the last ownership event, the house if there is none |
| Custody.SetOwnersMoves | service/custody.py:19-66 | a list of moves changes the owner and pointer of exactly the listed contacts |
| Custody.SetOwnersLogs | service/custody.py:19-66 | and appends one ownership event for each, in order, touching nothing else |
| CustodyColumns.GateNamesFirstCause | service/assignment.py:118-160 | with each of the ten causes written out over the columns, the gate names the first a contact has, in order, and passes exactly those that have none |
| Spine.Tables.AssignBatch | service/assignment.py:188-308 | the whole call: each refusal in order, the retry receipt, or a batch with its leads and its shortfall by cause, and the tables after each |
| CustodyColumns.RefusedForFirstWrong | service/assignment.py:199-253 | a call is refused for the first thing wrong with it, each written out over the call and the tables, and opens a batch when nothing is and its key is new |
| CustodyColumns.SameRequestWhen | service/assignment.py:61-71 | two calls are one request if and only if partner, count, rule and ids agree, a bare call being one with the empty rule and an empty list being none |
| CustodyColumns.AssignsExactly | service/assignment.py:240-306 | a new batch takes exactly the candidates (the existing ids, or the rule's matches that are no seed) that are callable and have fewer than the count before them, the default count being the multiple of 50 nearest to twelve per weekly hour; one event each, one row on file for 90 days, and no other row changes |
| CustodyColumns.ShortfallExactly | service/assignment.py:264-272 | each cause lists, in id order, the candidates it is the first cause of, and is absent if there are none |
| CustodyProofs.AssignSplits | service/assignment.py:254-308 | the candidates fall into the first count gate-passing ids in id order, one cause each for those that fail, and the surplus |
| CustodyProofs.AssignMembership | service/assignment.py:264-306 | the new batch's recorded members and its holdings are exactly the chosen leads, and every other contact is untouched |
| CustodyProofs.ReceiptIsMembership | service/assignment.py:163-185 | a receipt's held and released sets are disjoint and together the original membership |
| CustodyColumns.ReceiptIsExactly | service/assignment.py:163-185 | it lists in id order who points at the batch now, and whom the log gave to it that no longer does |
| Receipts.RetryReturnsOriginal | service/assignment.py:163-232 | at any later reachable state the same call under the same key changes nothing and returns the original membership, split |
| Spine.Tables.ExportBatch | service/assignment.py:311-367 | the sheet, the stale shortfall and the export stamp |
| CustodyColumns.SheetIsExactly | service/assignment.py:311-367 | the sheet has one row for each lead the partner holds in a batch on file, unflagged and inside both 31-day windows, in id order; the stale list is the rest of them |
| Spine.Tables.ReclaimAll | service/assignment.py:370-388 | a blank reason is refused; otherwise every holding of the partner goes home with its event |
| CustodyColumns.ReclaimSendsHome | service/assignment.py:370-388 | with a reason that is not blank exactly what the partner owns goes home, one event each with that reason; otherwise nothing changes |
| Spine.Tables.RunExpiryStep | service/assignment.py:391-409 | the loop leaves the tables of the specified expiry and counts its leads |
| CustodyColumns.ExpirySendsHome | service/assignment.py:391-409 | exactly the leads whose batch is on file with its term over go home, one event each; a lead in an unexpired batch, and everything else, stays |
| Spine.Tables.RunWonTerminationStep | service/assignment.py:412-428 | the same for the won leads |
| CustodyColumns.WonStepSendsHome | service/assignment.py:412-428 | exactly the won leads that point at a batch go home, one event each; everything else stays |
| Spine.Tables.SuppressContact | service/contacts.py:421-492 | refusals in order; flags, event, tombstones and the return of a held lead, together |
| CustodyColumns.SuppressionSets | service/contacts.py:446-492 | each channel's column is set if and only if it was or the channel is covered, a held lead that may no longer be called goes home, every other column stays; an opt-out is logged for all channels and a suppression for one, and each covered channel leaves one tombstone |
| CustodyColumns.SuppressionRefusedWhen | service/contacts.py:429-459 | the exact condition of each refusal |
| Spine.Tables.ClearSuppression | service/contacts.py:495-523 | only the registry flag clears |
| CustodyColumns.ClearingTakesTheFlag | service/contacts.py:495-523 | that column alone falls, and the event is logged unless its key was used |
| Spine.Tables.ApplyRows | jobs/dnc_refresh.py:106-162 | the per-contact loop: stamp, flag, event, return, and the delisting that follows; how many rows were checked, on the list and delisted |
| ScrubColumns.RowSets | jobs/dnc_refresh.py:106-162 | what one row leaves: stamp, flag and list on the contact, home if listed and remembered as held, and the events under their keys; nothing else changes |
| Spine.Tables.DncRefreshAll | jobs/dnc_refresh.py:197-272 | the hybrid pass over the due contacts: each code scrubbed against its newest accepted list, skipped with its reason, or the pass dies; its report |
| ScrubColumns.DueInOrder | jobs/dnc_refresh.py:80-96 | the pass reads the due leads of partners in id order, then those of the house, up to the limit; due is a subscribed area, no seed, and no check in 21 days |
| ScrubColumns.PassChecksTheDue | jobs/dnc_refresh.py:232-272 | a pass that reaches its end checks each due contact of a readable code against that code's list, once, and leaves every other contact as it was |
| ScrubColumns.PassAddsUp | jobs/dnc_refresh.py:247-272 | the report adds up, code by code, the due contacts checked, those listed and those come off the list, and names each code skipped with its reason |
| Scrub.RefreshAllKeeps | jobs/dnc_refresh.py:232-272 | a whole pass keeps custody and leaves no listed or do-not-call number with a partner |
| Compliance.CustodyEverywhere | service/custody.py:19-66 | in every reachable state, scrubs interleaved or not, each owner column is what the events derive and a held lead is in one of its owner's batches |
| Compliance.StepForbids | jobs/dnc_refresh.py:80-162 | whatever is in flight, a step hands a do-not-call or listed number to a partner if and only if it is a hit, or a voice-blocking suppression, written on a remembered house owner of a contact assigned since |
| Compliance.ForbiddenNumbersStayHome | service/contacts.py:446-492 | at every moment of a run no partner holds such a number, if and only if no step of the run is one of those two |
| Compliance.StaleRowSlips | jobs/dnc_refresh.py:106-162 | the same condition for the scrub's row write, in any tables |
| Compliance.PassIsARun | jobs/dnc_refresh.py:232-272 | a whole dnc_refresh_all that nothing interrupts is a run of the machine |
| Compliance.ReadThenWriteSuppresses | service/contacts.py:446-492 | a suppression whose write follows its read at once is the atomic verb |
| Races.StaleHitHappens | jobs/dnc_refresh.py:80-162 | a run from empty tables at whose end a partner holds a number just found listed |
| Races.StaleSuppressionHappens | service/contacts.py:446-492 | and one at whose end a partner holds a number just suppressed |
| SafeHarbor.ListingTells | jobs/dnc_refresh.py:197-272 | the hits read from a directory are the verdict of an accepted list of exactly that holder, code and date |
| SafeHarbor.DelistingIsSafeWhen | jobs/dnc_refresh.py:147-161 | the delisting write leaves a contact whose flag and stamp agree with the list it names so, if and only if no flag stands at that moment |
| SafeHarbor.SheetRowMayBeCalled | service/assignment.py:311-367 | over every run, any scrubs in flight, each row of each sheet is held by that partner in its batch, unflagged, checked and listed inside 31 days; unless a late delisting was the last word on it, the list does not hold the number or a person cleared the flag since the check |
| SafeHarbor.ExactlyTheLate | jobs/dnc_refresh.py:147-161 | with unique accepted lists and no clearance by hand, a row of a sheet may be called if and only if no late delisting was the last word on it |
| SafeHarbor.EverySheetMayBeCalled | service/assignment.py:311-367 | over every run in which no delisting meets a standing flag, each row of each sheet may be called |
| SafeHarbor.SequentialScrubsAreSafe | jobs/dnc_refresh.py:197-272 | in particular over every run whose scrubs do not overlap |
| SafeHarbor.NamedListClears | service/dnc_snapshots.py:89-143 | with one accepted list per holder, code and date, the list the check names is the one that clears the number |
| SafeHarbor.NoPassDies | jobs/dnc_refresh.py:250-265 | in every reachable world no scrub of any due rows and codes meets a file that makes it raise |
| SafeHarbor.ReadableWhen | seams/dnc_registry.py:66-90 | an accepted list can be read if and only if its directory holds exactly one file of its area code |
| Races.LateDelistingHappens | jobs/dnc_refresh.py:147-161 | a run from empty tables that ends with a row on a sheet, in date, whose named list holds its number |
| Nightly.RunNight | jobs/nightly.py:52-70 | recompute, expiry and won-termination, in their order |
| Nightly.SnapshotsAreCurrent | jobs/nightly.py:52-70 | after a night the stage is what the contact's final events mean, and the address has failed if and only if two of its pieces came back |
| Nightly.NightReturnsExactly | jobs/nightly.py:52-70 | a lead held before a night goes home if and only if its term is over at the expiry step or its events mean won; otherwise it stays in the same batch with the same owner, and only the two derived columns move |
| Nightly.HeldLeadsAreLive | service/assignment.py:391-428 | a lead still held is in a batch unexpired at the expiry step and is not won |
| Nightly.OneEventPerRelease | service/assignment.py:391-428 | each lead released that night, expired and won included, gets exactly one ownership event; no other contact gets one |
| Spine.Tables.RecomputeState | service/execution.py:35-89 | the two derived columns of every contact, or of the one asked for, and nothing else; how many |
| Nightly.RecomputeSets | service/execution.py:35-89 | the contacts asked for get the stage their events mean and the address verdict, and no other column changes |
| Locks.NeverDeadlocked | service/assignment.py:254-306 | with row locks taken in ascending id order no reachable state is deadlocked |
| Locks.OneVerbAtATime | service/assignment.py:240-306 | in every interleaving of row locks and writes the committed table changes at commits only, by one verb; its choice is made from the rows committed at that moment, an assignment's being the first count that pass the gate in id order |
| Locks.AssignmentIsCustodys | service/assignment.py:240-306 | that assignment is Custody.Assign on the committed table |
| Locks.ReturnIsCustodys | service/assignment.py:370-428 | a return is the single custody writer over the rows it chose |
| Locks.ReclaimIsCustodysWhen | service/assignment.py:370-388 | a reclaim brings home all that the partner holds at its commit if and only if it had locked all of it |
| Locks.ExpiryIsCustodysWhen | service/assignment.py:391-409 | an expiry step is Custody.Expire on the committed table if and only if it had locked every overdue lead |
| Locks.WonIsCustodysWhen | service/assignment.py:412-428 | the same of the won step |
| Locks.SingleRowIsCustodys | service/contacts.py:446-492 | suppression, scrub row and clearance are those of Custody on the committed table |
| Locks.NeverTakenOver | service/assignment.py:264-306 | what an assignment commits was at home, in no batch, and callable in the committed table at that moment |
| Audience.ResolveAudience | service/waves.py:182-249 | the loops over points and sharers compute the declarative resolution; refused exactly on an unknown key or a limit below one |
| Audience.MailsExactly | service/waves.py:60-249 | whom a rule mails, over the columns alone: every seed, and exactly the contacts that no flag, failed address or opt-out stops, that each key reaches, within the cap by hash, at a deliverable address, that lose their delivery point to nobody |
| Audience.TrimsCount | service/waves.py:213-249 | the two counts of a preview are those of the undeliverable and of the losers |
| Audience.AudienceInOrder | service/waves.py:182-249 | the audience is in order of id, or of hash under a cap, the seeds after it |
| Audience.PatternIsPrefix | service/waves.py:106-109 | a SQL pattern with `%` after it selects the texts that begin with its units, escapes and gaps included |
| Audience.PlainPatternIsPrefix | service/waves.py:106-109 | the SQL pattern made of a zip band selects exactly the zips that begin with it |
| Audience.StripMeaning | service/waves.py:106-116 | stripping leaves the middle of a text: white space goes from both ends and from nowhere else |
| Audience.LowerLetters | service/waves.py:102-105 | case folding lowers each ASCII letter where it stands |
| Audience.AudienceAccounts | service/waves.py:182-249 | ids are distinct; mailed, excluded and deduplicated together are the candidates; every seed rides once |
| Audience.OnlyMailableAreMailed | service/waves.py:60-129 | nobody but a seed is mailed against do-not-mail, a failed address, an opt-out or an undeliverable primary row, and a rule without keys or cap reaches everyone else |
| Audience.OnePiecePerDeliveryPoint | service/waves.py:182-239 | each delivery point with a deliverable candidate keeps exactly one sharer, one with a phone if any has one |
| Audience.NoPointNoDedupe | service/waves.py:216-236 | a candidate without a delivery point competes with nobody |
| Audience.SampleIsStable | service/waves.py:182-211 | narrowing the population never drops a sampled contact that still matches: a cap is a prefix of one fixed order |
| Split.AssignVariant | service/execution.py:99-113 | the running-sum scan returns the specified variant |
| Split.VariantIsDealt | service/execution.py:99-113 | for any weights: the lowest variant whose stretch of the weight ends past the contact's place, the last if none does, the first when there is no weight |
| Split.VariantSharesAreFair | service/execution.py:99-113 | each variant's number of buckets is within one of its exact share, and a weight of zero gets none |
| Split.EveryBucketIsSomeones | service/execution.py:99-113 | each bucket has exactly one variant |
| Waves.Office.Approve | service/waves.py:441-492 | the preconditions in order, the fingerprint last, and the approval recorded |
| Waves.Office.NewVariant | service/waves.py:252-271 | an empty hypothesis or a taken name is refused, else the variant is there |
| Waves.Office.NewWave | service/waves.py:309-336 | a malformed rule or a name of a live wave is refused, else the draft is there |
| Waves.Office.EditWave | service/waves.py:339-378 | only a draft can be edited |
| Waves.Office.EditVariant | service/waves.py:274-306 | a variant in any wave ever approved is refused |
| Waves.Office.Cancel | service/waves.py:527-539 | refused once executing or sent, a no-op when cancelled |
| WaveColumns.RefusedForFirstStop | service/waves.py:252-539 | each lifecycle verb is refused for the first of its checks, each written out over the tables, that stops it, and goes ahead when none does |
| WaveColumns.VerbWrites | service/waves.py:252-539 | a verb that goes ahead writes its one row, column by column, and nothing else |
| Waves.VerbHonours | service/waves.py:274-378 | no lifecycle verb, cancelling included, changes an approved wave's card, its approval or a variant in it |
| Waves.ApprovalMatchesPreview | service/waves.py:132-162 | an otherwise approvable draft is approved with a preview's fingerprint if and only if audience set, split and creatives are those previewed |
| Overwrites.StepKeepsWhen | service/waves.py:274-539 | whatever reads are pending, a step keeps approved cards, approvals and creatives, begun drops, cancellations and signed previews if and only if it is not a stale write |
| Overwrites.PromisesKeptWhen | service/waves.py:274-539 | over every run each step keeps them if and only if no write of the run is stale |
| Overwrites.ReadThenWrite | service/waves.py:274-539 | a read and its write with nothing between are the verb as one transaction |
| Overwrites.EditOverwritesApproval | service/waves.py:339-378 | a run that ends with an approved wave whose card nobody approved |
| Overwrites.CancelledWaveStarts | service/execution.py:126-165 | a run in which a cancelled wave starts its drop |
| Overwrites.RunningWaveIsCancelled | service/waves.py:527-539 | a run in which a wave is cancelled after its drop has begun |
| Drop.Press.ExecuteWave | service/execution.py:116-239 | the gate, one transaction per contact, and any death: tables, print log and report are those of the specified attempt |
| WaveColumns.BeginsWhen | service/execution.py:126-165 | a drop begins if and only if its wave is approved or executing and the audience within a tenth of the approved size, with the card's split and each variant's creative |
| WaveColumns.CommitLeaves | service/execution.py:167-219 | one contact's transaction: the vendor's line if the code was not printed, the row with that line's receipt, the submission under its key; nothing else changes |
| DropRuns.EachCodePrintsOnce | service/execution.py:165-219 | over any attempts, crashes and resumes: no code prints twice, each recorded piece has the vendor's answer for its code and exactly one submission event, and unrecorded prints number at most the deaths |
| WaveColumns.EachPieceIsAnnounced | service/execution.py:165-219 | over any attempts, crashes and resumes each recorded piece has its submission on the log, to the contact its code is for, and is of the variant the split deals that contact |
| WaveColumns.ReturnedForGood | service/ingestion.py:200-216 | over any run of drops and deliveries a piece that came back stays returned |
| DropRuns.SentMeansEveryone | service/execution.py:158-226 | a sent wave's last audience, within a tenth of the approved size, has a recorded piece for every contact |
| DropRuns.ApprovalsAreForever | service/waves.py:274-285 | from any reachable state on, approved cards, approvals and creatives never change |
| DropRuns.WhatPrintsWasPreviewed | service/execution.py:176-206 | every piece of a wave approved with a preview's fingerprint bears the creative that preview showed for the contact's variant |
| DropRuns.ExecuteIsARun | service/execution.py:116-239 | a call of execute_wave, to whatever end, is a run of the machine |
| Recipients.EachPrintWasMailable | service/execution.py:128-206 | each line ever printed names the piece step that printed it and the start of that same call; when that call began the contact was a seed, or by its columns not do-not-mail, not at a failed or undeliverable address, not opted out, and in the sample of the wave's approved rule |
| Identity.PickWinner | resolution/pick.py:14-34 | the counting and the minimum return the one winner: an address of maximum frequency, then the lowest key |
| Identity.WinnerIsUnique | resolution/pick.py:14-34 | the rule has one answer, so row order cannot matter |
| Identity.CoalesceEmail | resolution/pick.py:37-46 | the winner's email, else that of the lowest key in the whole group |
| Identity.OneBusinessEach | service/contacts.py:225-239 | every row belongs to exactly one business |
| Intake.Ledger.LoadList | service/contacts.py:84-222 | an unknown source or a missing key changes nothing; otherwise the accepted rows fall into businesses and each attaches or creates; every line is loaded, deduped or invalid |
| IntakeColumns.LineIsStored | service/contacts.py:103-206 | each targetable line whose key is in neither the table nor an earlier line is stored in its slot, column by column as it stands, under a contact of its phone that is do-not-mail if the line is |
| IntakeColumns.NothingElseIsStored | service/contacts.py:103-206 | no other slot is filled and none filled before changes |
| IntakeColumns.LoadReports | service/contacts.py:209-222 | one row loaded for each new line, one suppression for each that is marked, and the log grown by exactly one note for each of those, of its contact |
| IntakeColumns.LoadCreatesAsFiled | service/contacts.py:152-297 | a created contact has a channel blocked if and only if a tombstone names one of its rows for it, mail also if a row is marked, and is otherwise its primary row's |
| IntakeColumns.LoadKeepsContacts | service/contacts.py:256-266 | any other contact keeps all it had, but for a do-not-mail that rises if and only if a marked row was filed under it |
| Intake.Ledger.ResolveGroup | service/contacts.py:242-297 | attach writes only an absorbing do-not-mail; create takes the picks and re-acquires tombstoned channels |
| Intake.GroupRows | service/contacts.py:225-239 | the groups partition the rows by identity |
| IntakeRuns.LoadKeeps | service/contacts.py:84-297 | a load keeps the book sound and takes nothing back, files every accepted row, and a new contact has every channel its tombstones recall |
| IntakeRuns.RunsKeep | service/contacts.py:84-297 | over any loads from a sound book: phones unique, rows point at live contacts of their phone, one primary each, do-not-mail never reverts |
| IntakeRuns.BooksAreSound | service/contacts.py:84-297 | the same from empty tables |
| IntakeRuns.ReloadIsNothing | service/contacts.py:103-132 | loading the same file again changes nothing |
| IntakeRuns.ReacquiredWhen | service/contacts.py:242-297 | a row that a tombstone recalls ends under a contact with that channel suppressed if and only if its group becomes a new contact, or the contact it attaches to has it anyway |
| IntakeRuns.SuppressionSurvives | service/contacts.py:152-182 | over any loads after any deletions: a contact made since, with a row of the tombstone's phone or whose primary row it recalls, has the channel suppressed |
| IntakeRuns.AttachedRowIsNotRecalled | service/contacts.py:152-155 | two one-line files after which a suppressed list row is filed under a contact with the channel open |
| Recall.SuppressionStands | service/contacts.py:421-428 | no step of the custody machine takes a do-not flag back, and a do-not-call contact at home stays there |
| Recall.ReturnsSuppressed | service/contacts.py:421-482 | after a suppression and a hard delete, over any loads, whatever is filed under the phone, and the primary row come back, is filed under a new contact that carries every blocked channel and, if voice was one, fails every gate from then on and stays with the house |
| Grain.Migration.Migrate | jobs/migrate_grain.py:305-461 | backfill, grouping, merge and primaries reach the state in which each row is filed under its group's winner |
| Grain.Migration.MergeOne | jobs/migrate_grain.py:384-442 | one group: rows repointed, survivor's columns written, losers gone |
| Agreement.MergeIsBusinesses | jobs/migrate_grain.py:305-461 | the merged tables describe exactly the businesses of the rows if and only if no filing has a phone |
| Agreement.FreshLoadIsBusinesses | service/contacts.py:84-297 | a file loaded into a fresh book leaves exactly the businesses of its accepted rows |
| Agreement.MergeAgreesWithLoad | resolution/pick.py:3-7 | migration and fresh load agree up to ids if and only if no filing has a phone |
| Agreement.PhonedFilingDiffers | service/contacts.py:279-283 | where one has, the two contacts differ in that phone |
| Agreement.OnePhonedFilingDiffers | resolution/pick.py:3-7 | one phoned filing, merged and loaded: every premise holds and the two descriptions differ |
| Attribution.Ingestion.ResolveOrphans | service/ingestion.py:170-219 | the loop over orphans is the specified pass, each row seeing what earlier ones became; the report lists whom each was given to and who is left |
| Attribution.PassGives | resolution/matcher.py:47-69 | by payload and log: the code's contact and piece; else the contact of the earliest attributed event of the thread; else that of the number; else nothing changes; each row on the log that earlier rows of the pass left |
| Attribution.AttributedWhen | resolution/matcher.py:47-69 | a pass attributes a row if and only if it matches by code or phone, its thread was known, or an earlier row of the pass introduced its thread |
| Attribution.NeverReattributed | service/ingestion.py:170-219 | no attribution is ever changed, and a pass that matches leaves fewer orphans |
| Attribution.TwoPassesSuffice | service/ingestion.py:139-219 | two passes always reach the fixpoint, for any cut-off |
| Attribution.OnePassSufficesWhen | service/ingestion.py:170-219 | one pass does if and only if no orphan precedes the orphan that introduces its thread |
| Attribution.OnePassMayNotSuffice | service/ingestion.py:152-160 | two events of which one pass leaves the first |
| Attribution.StatusIsToldOf | service/ingestion.py:200-216 | a piece is returned after a pass if it was or some row tells so, else delivered if some row tells so, else what it was, in whatever order |
| Attribution.NormalIsFixed | domain/phone.py:8-16 | normalising a normalised number gives it back |
| Closes.Job.CorrelateCloses | jobs/close_correlation.py:49-163 | the run over the served feed, its five counts, the watermark and the orphan pass a backfill triggers |
| Closes.CorrelatesByColumns | jobs/close_correlation.py:66-146 | what one close does to the log: a phone for its orphan, nothing, or its signup with the lead, number, code and instant of the close |
| Closes.RunByColumns | jobs/close_correlation.py:66-163 | a run leaves old events but for such phones, adds only events of its closes, and then at most attributes |
| Closes.ServedWhen | jobs/close_correlation.py:53-62 | exactly the closes recorded after the older of the watermark and 45 days ago are asked for |
| Closes.RunSettles | jobs/close_correlation.py:66-128 | after a run every close seen is ingested and awaits no phone, or its lead has a signup |
| Closes.NothingRecentIsMissed | jobs/close_correlation.py:53-75 | every close of the last 45 days is seen and no watermark falls |
| Closes.ReplayIsNothing | jobs/close_correlation.py:84-114 | replaying an unchanged feed, then or at any later time, is a no-op |
| Closes.NeverSecondSignup | jobs/close_correlation.py:106-114 | a signup the correlation adds to a contact is that contact's first |
| Digest.Judgment.Run | judgment/digest.py:89-141 | what is expired, sent, recorded, deferred and skipped on a night, and the next-action slots it takes |
| Digest.ReadyWhen | judgment/digest.py:27-63 | a hit is ready if and only if no future action stands and no nudge of its subject lies inside the cooldown without a reply since |
| Digest.ReadyAre | judgment/digest.py:95-103 | what is taken up is what may be said, as often as the rules gave it |
| Digest.TakenInOrder | judgment/digest.py:105 | by priority number, and within one priority in the order the rules gave |
| Digest.IthIsDispatched | judgment/digest.py:66-135 | each hit taken up is skipped, sent or deferred by how many of its recipient's came before it, the recipient being the house or the contact's owner |
| Digest.NightLeavesExactly | service/nudges.py:13-61 | one event for each hit sent, and the day as next action of each contact nudged; any other action stays unless it has expired |
| Digest.SheetKeepsBudget | judgment/digest.py:105-135 | at most the budget goes to each recipient and no deferred hit outranks a sent one |
| Digest.DeferredWasOutranked | judgment/digest.py:105-135 | whatever is deferred found its recipient's budget spent, on nothing of lower priority |
| Digest.NothingLost | judgment/digest.py:105-135 | every ready hit is sent, deferred, or was for a partner nobody could reach |
| Digest.CooldownHolds | judgment/digest.py:33-63 | over any nights as of any days: a nudge inside the cooldown of an earlier night's to the same contact follows an inbound its night had read; one of a rule on a wave alone never comes inside it |
| Digest.ActionStands | judgment/digest.py:27-30 | a person's next action stands until its day: no night before it overwrites it or nudges the contact |

## Left out

- Transports and vendor clients: only the contracts their in-memory stand-ins show (`seams/fakes.py`) are modelled.
- The web API, the console, command lines, queries and report texts: dispatch and formatting.
- SQL: rows are maps; where a statement leaves the order of ties open (a repeated content hash, simultaneous events of a thread) the lowest id is taken.
- The where-clause of an assignment rule: the set it selects is a parameter of `Custody.Assign`; the audience rule of a wave is modelled in full.
- `dnc_refresh` with a single registry: it keeps the old snapshot id on the contact, so the sheet theorem is stated for the ledger scrub (`Custody.ApplyRow` itself covers both).
- SafeHarbor.EverySheetMayBeCalled: of runs in which no delisting meets a standing flag; outside them it is false, and `SafeHarbor.ExactlyTheLate` says for which rows. One file name per FTC guid is assumed.
- SafeHarbor.SheetRowMayBeCalled: assumes one file name per FTC guid too.
- Spine.Tables.SuppressContact: the list key is an argument; `Recall.ReturnsSuppressed` asks that it is that of the primary row.
- Spine.Tables.DncRefreshAll: the `checks_written` counter of a snapshot, which nothing reads, is not carried.
- Spine.Tables.RecomputeState: the `stage_computed_at` stamp is not carried.
- Spine.Tables.ExportBatch: the sheet's name and address columns are not carried.
- Nightly.RunNight: the custody steps of the night only; feeds, address checks, the single-registry scrub, orphans, closes and the digest are modelled apart and not chained.
- Locks.NeverDeadlocked: covers the verbs that select their rows in id order; `recompute_state` updates contacts in the order a query returns them and is not among them.
- Locks.OneVerbAtATime: an assignment's gate reads the other tables as its statement saw them, as the database lets it; which rows satisfy its rule once locked is left open; new contacts and recomputed stages are not among the writes.
- Export does not re-check tombstones, subscriptions or stage, so nothing is claimed of them at export time.
- Ingestion: fed events are restricted to types that are not ownership facts in the custody machine, not submissions in that of the drops and not nudges in that of the digest; the code accepts any known type.
- Split.VariantSharesAreFair: weights are exact; the code adds floating-point numbers.
- Split.AssignVariant: the same.
- The hash behind a contact's bucket, the mailer code and the sample order: taken as the identity, as injective, and as a stored key.
- Recipients.EachPrintWasMailable: speaks of the moment a call begins, as the code reads its audience once; a contact suppressed while the call runs may still be printed to.
- Drop.Press.ExecuteWave: the recipient's address block, the piece's cost columns and proofs are not modelled; the vendor answers a repeated code from its log.
- DropRuns.ApprovalsAreForever: of lifecycle verbs taken as single transactions; their unlocked reads are in `Overwrites`.
- DropRuns.WhatPrintsWasPreviewed: the same.
- Waves.VerbHonours: the same.
- Overwrites.PromisesKeptWhen: a drop is its start and its end only; the end is modelled for a wave still executing.
- DropRuns.EachCodePrintsOnce: pieces are not repointed meanwhile; the merge ran once, with no active wave.
- Intake: CSV quoting, trimming and segment texts; a line comes parsed, with its segment or none. Trades, licence class and the delivery verdicts of a row are not carried.
- Grain.Migration.Migrate: pieces, events and the merge map follow the same repointing and are not carried; nor are do-not-text and the next-action notes of a merged contact, the preflight, or the DDL.
- Grain.Migration.MergeOne: the same columns.
- Recall.ReturnsSuppressed: the repository has no verb for the hard delete; it is `IntakeRuns.Forgotten`, which takes a contact with its intake rows.
- Agreement.MergeAgreesWithLoad: one file of one source, into a book without tombstones.
- Closes.Job.CorrelateCloses: payload keys nobody branches on are not carried; the feed serves every close after the watermark, as its stand-in does.
- Digest: composing and sending briefs, the individual rules and the notes of next actions; a night's hits and owners are parameters.
- Each store carries the columns its own code reads, so a contact's row appears as `Custody.Contact`, `Intake.Contact` and `Audience.Addressee`; `Recall.Created` is the row a load leaves for custody.
- Time zones beyond the UTC date.
