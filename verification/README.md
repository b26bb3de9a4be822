# Minnow: verified models

Dafny models of the parts of Minnow where the code decides the answer, each with the properties it is for. Methods
of classes follow the fields the source updates; each is proved against a function of the old state, and the lemmas
beside it say what that function guarantees. Distributed parts are transition systems whose steps interleave freely.

`dafny verify dfyconfig.toml` checks everything.

## Modules

| modules | what they model |
|---|---|
| ChaosTypes, ChaosPage, ChaosStore, KillCampaign, KillInvariant, KillSafety, KillTheorems, KillLanding, KillHold | the kill campaign: a worker that claims a number, posts and works; a channel; a page that receives, answers, kills at any instant, waits at the observation barrier and judges; the store and its recovery |
| PublishRounds | publisher and verifier over an extent space whose owner may be killed at any point |
| Calendar | day counts and proleptic Gregorian dates, against a calendar that goes day by day |
| Checkout | exactly-once sales over optimistic transactions, several clients, conflicts, retries, lost workers |
| CsvStream | the CSV stream, against a reader of RFC 4180, section 2 |
| WhereScanner | the index scanner for WHERE clauses, against tokens |
| RecoveryKilled | a worker lost inside its own recovery |
| ConfirmGate, PreviewGate, AnswerGate | the confirmation layer and overlapping runs of the SQL console, their preview counts, and which button gave a run its answer |
| HashMix | the hash mixer as a permutation of words, and the batches |
| ColumnVectors, OwnerLoad | column vectors and the crash-resumable load |
| Capture | the budgeted capture of files with partial writes |
| WriteScopes | read-modify-write scopes of many tabs under one lock |
| WorkSlicer | cooperative slicing on one shared clock |
| GcSlices | interval accounting with a stack |

## Assumptions

The storage engine, the workload's data and the browser are represented by the guarantees their contracts state.

- A publish is atomic; a flush makes exactly the log written so far durable; a crash keeps the root, the durable log
  prefix and the durable header, and leaves the rest undetermined
  (`packages/core/src/next/storage/contract.ts`).
- Storage work that had begun may still take effect after its worker is gone, until the next owner has opened the
  store: the fence of handles or epochs refuses it from then on (`packages/core/src/next/storage/contract.ts`).
- An open reclaims every extent neither kept root names; retired extents are reused one publish later
  (`packages/core/src/next/storage/extents.ts`).
- The workload waits for its go, acknowledges before it posts its end, and runs one root operation and one log
  operation at a time (`packages/core/src/next/spill/chaos-workload.ts`).
- Message ports deliver in order. A write scope reads one snapshot and commits whole or is refused when a row it
  writes was committed since; a store may refuse more than that.
- A batch insert and a table creation are atomic. The lock admits one writer at a time.

## Where the code falls short of what one might expect

Each is a lemma with the exact condition, the input that shows it, or both.

- Two console runs can execute at once: the running check comes before the run waits for its tools and its prompt
  (ConfirmGate.SingleKept, ConfirmGate.TwoAtOnce).
- A script that needs confirmation sends nothing before its own yes exactly when it has no preview count; one that
  has queries it as the prompt opens (PreviewGate.SilentUntilYes, PreviewGate.SendsExactly).
- A load stopped between creating a dimension and filling it cannot be resumed (OwnerLoad.TornSeen).
- The slice bound of 8 ms and two steps holds exactly when each run between the first and the last yields
  (WorkSlicer.SliceBoundExact).
- The collection time is the time a slice is open plus what overlapping complete events count again, less the slice
  that does not end in the window and the time only slices that began before it are open: it is right exactly when
  these agree (GcSlices.TraceTotal, GcSlices.CoveredTotal, GcSlices.PairedTotal).
- A worker lost during a recovery that starts a fresh log generation leaves a store the same expectation refuses,
  unless a reset was in flight and had not taken effect (RecoveryKilled.RepeatableExactly); a second loss is then
  refused as well (RecoveryKilled.SurvivesExactly).
- A text column of 2^31 bytes or more gets a vector that does not hold it, or a RangeError
  (ColumnVectors.InputVector).
- A record without columns comes back from CSV as one empty field (CsvStream.NothingIsLost).
- Stock may go below zero: the checkout has no lower bound, and its books balance all the same
  (Checkout.StockLevels, Checkout.BooksBalance).

## Model

| member | source | states |
|---|---|---|
| ChaosPage.ChaosPoster.Post | packages/core/browser/next-storage-post.ts:4-15 | a call claims the next number and then posts the message carrying it; the port stays gap-free from 1 and the counter equals its length |
| ChaosPage.ChaosPoster.Claim | packages/core/browser/next-storage-post.ts:10-12 | between the claim and the post exactly one number is claimed that no message carries; nothing was posted yet |
| ChaosPage.ChaosRun.OnMessage | packages/core/browser/next-storage-run.ts:580-624 | the whole effect of one delivered message on the run's fields, and the go it answers with |
| ChaosPage.ChaosRun.OnIntent | packages/core/browser/next-storage-run.ts:607-623 | an intent is recorded and answered unless the page holds; an armed kill counts down and fires on its target |
| ChaosTypes.Put | packages/core/browser/next-storage-run.ts:608 | an insertion-ordered map keyed by sequence: the new intent is in, every other sequence stays, nothing else comes in |
| ChaosTypes.Drop | packages/core/browser/next-storage-run.ts:604 | deleting a sequence removes exactly its entries |
| ChaosStore.RecoverIff | packages/core/src/next/spill/chaos-workload.ts:300-361 | recovery accepts an image exactly when the acknowledgements and the steps in flight allow it |
| ChaosStore.RecoverSettles | packages/core/src/next/spill/chaos-workload.ts:362-399 | an accepted, undisturbed recovery leaves a settled store at the found root, with every acknowledged byte no step in flight may have cut |
| ChaosStore.Cut | packages/core/src/next/spill/chaos-workload.ts:326-336 | the acknowledged length cut to the shortest in-flight truncate: the least of them, and one of them |
| RecoveryKilled.RepairEnds | packages/core/src/next/spill/chaos-workload.ts:362-369 | the steps of recovery's log operation, undisturbed, leave the store it reports |
| RecoveryKilled.SecondRecovery | packages/core/src/next/spill/chaos-workload.ts:326-369 | lost after any of those steps, whatever the crash leaves, the next recovery on the same expectation accepts exactly when the header is one of those named |
| RecoveryKilled.RepeatableExactly | packages/core/src/next/spill/chaos-workload.ts:326-369 | one loss during recovery can always be recovered from exactly when acknowledged bytes are kept, or a reset was in flight and had not taken effect |
| RecoveryKilled.SurvivesExactly | packages/core/src/next/spill/chaos-workload.ts:326-369 | any number of losses one after another can be recovered from exactly when acknowledged bytes are kept |
| RecoveryKilled.LostAfterRecovery | packages/core/src/next/spill/chaos-workload.ts:326-369 | the witness: a recovery that starts a generation nobody is told of is refused the next time |
| KillSafety.StepInv | packages/core/browser/next-storage-run.ts:580-706 | every step of worker, channel, page and store keeps the campaign's invariant, and a restart is never refused |
| KillSafety.JudgedIsAllowed | packages/core/browser/next-storage-run.ts:652-655 | whatever a crash leaves after the page judged is allowed by the expectation it hands to the next worker |
| KillTheorems.RunInv | packages/core/browser/next-storage-run.ts:538-650 | the invariant holds in every state any interleaving and any number of kills can reach |
| KillTheorems.NeverCondemned | packages/core/src/next/spill/chaos-workload.ts:300-399 | after any run, what a contract-keeping store may leave is accepted by the next recovery, at the store's root |
| KillTheorems.BegunIsInFlight | packages/core/browser/next-storage-run.ts:603-623 | an operation that began and whose end was not received is among those in flight |
| KillTheorems.SinceRun | packages/core/browser/next-storage-run.ts:668-706 | from the counter read on, the history only grows, the barrier keeps the count it read, and a judgement is at or past it |
| KillTheorems.BarrierComplete | packages/core/browser/next-storage-run.ts:675-706 | if the barrier resolves, everything claimed before the counter was read, posted by then or not, is received, gap-free and in order; its acknowledged state is the latest, and none of it is a failure |
| KillTheorems.FailureReported | packages/core/browser/next-storage-run.ts:850-887 | the resolved barrier reports the text of the first failure claimed before the kill decision, posted by then or not, and never judges past it |
| KillTheorems.RunReports | packages/core/browser/next-storage-run.ts:580-600 | in every reachable state what the page holds as its failure is the text of the first failure it received, if any |
| KillTheorems.FaultAlwaysReported | packages/core/browser/next-storage-run.ts:850-887 | in every run, over any number of kills, the injected failure, when it is the first claimed, is reported with its text |
| KillTheorems.PostFirstLosesFailure | packages/core/browser/next-storage-post.ts:10-13 | with the post before the claim, a run exists that judges past a failure already posted |
| KillLanding.RunNoted | packages/core/browser/next-storage-run.ts:590-608 | in every reachable state the page's began, settled and open-request notes are exactly what the received prefix says |
| KillLanding.SerialHasOneInFlight | packages/core/src/next/spill/chaos-workload.ts:409-428 | in serial mode the page never has two operations in flight |
| KillLanding.LandingIsObserved | packages/core/browser/next-storage-run.ts:657-664 | the landing label is the phase the received prefix shows of the operation it names |
| KillHold.HoldStartsNothing | packages/core/browser/next-storage-run.ts:607 | from the moment the page holds, in any run: it holds, no operation gets a go, and none is recorded that was not in flight before |
| KillHold.HoldsExactly | packages/core/browser/next-storage-run.ts:607-623 | once prepared, the page starts to hold exactly when it receives, in serial mode, the intent that is the remaining-th of its target since an armed page close, or an injected fault's marker; the operations announced up to and including that message get their go, and no other |
| KillHold.InFlightExactly | packages/core/browser/next-storage-run.ts:603-623 | in every reachable state the operations in flight are those whose intent was received and given a go and whose end was not received |
| KillHold.NotesAreTrue | packages/core/browser/next-storage-run.ts:597-606 | in every reachable state the completed count is the number of ends received, and an open request shows what its latest message, a begin, names |
| KillHold.NoFailureIff | packages/core/browser/next-storage-run.ts:580-595 | after any messages at all, a page has no failure exactly when their numbers run from 1 without gap, repeat or swap and none is a failure |
| PublishRounds.RoundExtents | packages/core/browser/next-storage-worker.ts:252-265 | the list a round returns is the list a reopened owner reads from the root it published |
| PublishRounds.RetireExactly | packages/core/src/next/storage/extents.ts:61-64 | retiring exactly the extents of the root replaced is always accepted; nothing else of a live root can be retired |
| PublishRounds.Space.Extend | packages/core/browser/next-storage-worker.ts:246 | growing a builder keeps the audit, in place or in a segment elsewhere |
| PublishRounds.Space.Seal | packages/core/browser/next-storage-worker.ts:249 | sealing gives one contiguous extent of the written length and frees the rest |
| PublishRounds.Space.Publish | packages/core/src/next/storage/extents.ts:57-75 | atomic: the new root current, the old one previous, what waited released; a bad list changes nothing |
| PublishRounds.WriteRound | packages/core/browser/next-storage-worker.ts:241-252 | a round's writing leaves exactly its two distinct sealed extents, of the written lengths, with the writer and the place of each page, or was killed |
| PublishRounds.Round | packages/core/browser/next-storage-worker.ts:234-259 | killed at any point or not, the kept roots stay one round apart and disjoint; a publish that took effect names all the round wrote, four pages and a small blob, at their places; a finished round returns its root's extents |
| PublishRounds.FilledBlobs | packages/core/browser/next-storage-worker.ts:234-258 | every durable root names five blobs of the round's lengths, each within its extent, none sharing a byte with another, the pages filling theirs |
| PublishRounds.PublishLoop | packages/core/browser/next-storage-worker.ts:509-521 | after any kill the durable root is at most one round past the last announced |
| PublishRounds.Verify | packages/core/browser/next-storage-worker.ts:522-546 | a fresh owner passes exactly when there is a root at least as new as acknowledged: no mismatch, no leak, before and after one more round |
| PublishRounds.RunKillDuringPublish | packages/core/browser/next-storage-run.ts:203-240 | over any number of kills at any point, every verification passes |
| Calendar.CivilScratch.FromDays | packages/core/src/date-value.ts:90-111 | the shared array holds the date of the day count; the same array every time |
| Calendar.NextDayCounts | packages/core/src/date-value.ts:114-122 | the next date of the calendar counts one day more |
| Calendar.DayOfDateOfDay | packages/core/src/date-value.ts:91-122 | every integer day count gives a valid date that converts back to it |
| Calendar.DateOfDayOfDate | packages/core/src/date-value.ts:91-122 | every valid date converts to a day count and back |
| Calendar.CivilFollowsCalendar | packages/core/src/date-value.ts:91-111 | the date of day n+1 is the calendar's successor of the date of day n |
| Calendar.DaysIncrease | packages/core/src/date-value.ts:114-122 | day counts strictly increase in date order |
| Calendar.CivilRepeats | packages/core/src/date-value.ts:91-111 | 400 years are 146 097 days, and dates repeat after them |
| Calendar.EpochIsZero | packages/core/src/date-value.ts:91-122 | day 0 is 1 January 1970 |
| Calendar.EpochDaysFloor | packages/core/src/date-value.ts:81-83 | a millisecond belongs to the day it is in, before the epoch too |
| Checkout.Scope.RunSale | packages/core/browser/checkout-recovery.ts:80-103 | one run of the transaction: its verdict on the snapshot and exactly the rows it stages, none unless it records |
| Checkout.Scope.TakeOne | packages/core/browser/checkout-recovery.ts:67-69 | the stock update and its trigger's audit row, on what the scope sees |
| Checkout.SameOnCurrent | packages/core/browser/checkout-recovery.ts:80-104 | a scope none of whose rows were committed since would have decided and staged the same on the current tables |
| Checkout.AddsBalances | packages/core/browser/checkout-recovery.ts:98-101 | recording one more sale keeps the books balanced |
| Checkout.CommitInv | packages/core/browser/checkout-recovery.ts:80-104 | every commit, refused or not, keeps the invariant and loses no sale and no intent |
| Checkout.RunInv | packages/core/browser/checkout-recovery.ts:74-118 | the invariant holds after any interleaving of clients, conflicts, retries and lost workers |
| Checkout.BooksBalance | packages/core/browser/checkout-recovery.ts:52-118 | after any run: stock plus sales is 100, lines and completed intents match sales one to one, the audit counts down from 100 without a gap |
| Checkout.VerdictMeans | packages/core/browser/checkout-recovery.ts:74-109 | in every reachable state the answer follows from the durable intent: none, one with other details, one not complete, or one complete |
| Checkout.SellAll | packages/core/browser/checkout-recovery.ts:74-135 | from any reachable state an idle client can record any number of new sales |
| Checkout.StockLevels | packages/core/browser/checkout-recovery.ts:100 | the stock can stand at any number up to 100, below zero too, and at no other |
| Checkout.AnswersAreTrue | packages/core/browser/checkout-recovery.ts:74-118 | an answer of success stays true for good; a call gives up on conflicts only at its eighth attempt |
| Checkout.OneRecorder | packages/core/browser/checkout-recovery.ts:80-104 | no two calls are told that they recorded the same sale |
| Checkout.RetryHasNoEffect | packages/core/browser/checkout-recovery.ts:86-97 | once a sale is in, every later attempt finds it: already-recorded, or refused for other details, and stages nothing |
| Checkout.InterruptedSale | packages/core/browser/checkout-recovery.ts:120-135 | a worker lost before the commit leaves the sale to be recorded, one lost after it leaves it recorded |
| Checkout.TwoRetries | packages/core/browser/checkout-recovery.ts:74-118 | of two clients retrying one sale at once, one records it and the other conflicts and then finds it |
| Checkout.Shop.RecordSale | packages/core/browser/checkout-recovery.ts:74-118 | the retry loop against any interference: a run of the system, at most eight attempts, again only after a conflict, and a true answer |
| Checkout.Shop.CommitScope | packages/core/browser/checkout-recovery.ts:80-104 | a commit publishes the whole scope or nothing, as validation says |
| Checkout.Interceptor.Relay | packages/core/browser/checkout-recovery.ts:15-44 | messages pass up to the first fault point and none after it |
| CsvStream.FormatOf | packages/export/src/index.ts:125-141 | a format exactly for a delimiter of one character other than a quote, CR or LF, and an LF or CRLF; it is the one asked for, a comma and CRLF where nothing is |
| CsvStream.FieldReads | packages/export/src/index.ts:48-55 | a printed field, before any delimiter or line break, reads back as its text |
| CsvStream.RecordReads | packages/export/src/index.ts:171-177 | a printed record reads back as its fields |
| CsvStream.LinesRead | packages/export/src/index.ts:166-178 | any list of records reads back |
| CsvStream.CsvStreamer.Encode | packages/export/src/index.ts:163-179 | a batch becomes the lines of its header, if pending, and rows, or the failure that ends the stream |
| CsvStream.CsvStreamer.Pull | packages/export/src/index.ts:87-111 | each pull gives the next non-empty chunk or the one end, and returns the cursor on a failure |
| CsvStream.StreamPrints | packages/export/src/index.ts:160-179 | the chunks together are the lines of the batches before the first bad one, none of them empty |
| CsvStream.SoundColumns | packages/export/src/index.ts:163-165 | the exported batches are the longest run of one column list and valid dates |
| CsvStream.ReadsBack | packages/export/src/index.ts:81-180 | reading the whole stream in the format asked for gives the header once, if asked for, and for every row of the good batches, however they were split, a record that shows its values: the null text, a date's ISO text, -0, or the plain text; the end says why it ended |
| CsvStream.PrintableIff | packages/export/src/index.ts:36-46 | a batch can be exported exactly when no cell it shows is an invalid date |
| CsvStream.QuotedIff | packages/export/src/index.ts:48-55 | a field is printed as it is exactly when it has no delimiter, quote, CR or LF |
| CsvStream.NothingIsLost | packages/export/src/index.ts:166-178 | records come back unchanged exactly when none of them has no column |
| WhereScanner.TokenUnique | packages/devtools/src/statements.ts:288-325 | a text starts with one token only |
| WhereScanner.LexedOnce | packages/devtools/src/statements.ts:284-328 | a text has at most one division into comments, quoted texts, words and marks |
| WhereScanner.Lex | packages/devtools/src/statements.ts:284-328 | and it has one |
| WhereScanner.LexedText | packages/devtools/src/statements.ts:284-328 | the tokens of a division are the text again, so every text is covered by what is said of divisions |
| WhereScanner.SkipQuoted | packages/devtools/src/statements.ts:301-311 | the scan ends where the quoted text ends, doubled quotes skipped, or at the end of the text |
| WhereScanner.WhereClauseOf | packages/devtools/src/statements.ts:284-328 | on every string: the trimmed text between the first top-level WHERE and the next top-level RETURNING or the end, in terms of tokens |
| WhereScanner.UpperSpells | packages/devtools/src/statements.ts:284-328 | a word matches a keyword exactly when it spells it, each letter large or small |
| WhereScanner.FirstOf | packages/devtools/src/statements.ts:314-324 | the first place where the word itself stands outside every parenthesis |
| WhereScanner.ClauseKeeps | packages/devtools/src/statements.ts:330-333 | trimming keeps exactly the span between the outermost characters that count |
| WhereScanner.HiddenTextIgnored | packages/devtools/src/statements.ts:289-311 | whatever a comment or quoted text holds, the same words are found at the same places |
| WhereScanner.SameClause | packages/devtools/src/statements.ts:284-328 | a comment or quoted text outside the clause does not change it |
| ConfirmGate.ConfirmLayer.Silence | packages/devtools/src/confirm.ts:65-74 | the flags this layer set are cleared, and, when on, exactly the siblings not inert are set and noted |
| ConfirmGate.ConfirmLayer.Close | packages/devtools/src/confirm.ts:76-85 | an open prompt is resolved once and the panel's flags are as before it |
| ConfirmGate.ConfirmLayer.Ask | packages/devtools/src/confirm.ts:114-118 | a second prompt declines the first, then opens |
| ConfirmGate.LayerKeeps | packages/devtools/src/confirm.ts:65-85 | asking and closing keep the flags under the prompt, and closing restores them exactly |
| ConfirmGate.Console.Gate | packages/devtools/src/console.ts:643-677 | the gate: compile, write permission, confirmation, in that order, or the first statement |
| ConfirmGate.Console.SendNext | packages/devtools/src/console.ts:683-697 | one turn of the loop: the next statement, unless aborted |
| ConfirmGate.Console.On | packages/devtools/src/console.ts:540-706 | any event in any state of the panel, as the transition system has it, keeping its invariant |
| ConfirmGate.StepInv | packages/devtools/src/console.ts:635-706 | every event keeps the invariant and the panel's own flags |
| ConfirmGate.GateHolds | packages/devtools/src/console.ts:659-706 | the statements a run has sent are the start of its script, and none unless writes allow it and its own prompt settled with yes and never with no |
| ConfirmGate.QuietSendsNothing | packages/devtools/src/console.ts:683-706 | a run that failed, finished or was cancelled sends nothing more, whatever happens next |
| ConfirmGate.BecomesQuiet | packages/devtools/src/console.ts:541-544 | Cancel, or a statement that fails, makes the one executing run quiet |
| ConfirmGate.NothingChanges | packages/devtools/src/statements.ts:235-237 | with writes off every statement sent is a query or a session setting |
| ConfirmGate.PanelRestored | packages/devtools/src/confirm.ts:65-118 | no prompt settles twice; with none open the inert flags are as at the start |
| ConfirmGate.SingleKept | packages/devtools/src/console.ts:641-677 | runs stay one at a time exactly as long as none is set going while another executes |
| ConfirmGate.TwoAtOnce | packages/devtools/src/console.ts:641-705 | two runs pass the running check together, both execute, and the later one cannot be cancelled once the first ended |
| ConfirmGate.Console.CanPreview | packages/devtools/src/statements.ts:266-281 | a preview exists exactly for a single UPDATE or DELETE that is unfiltered or whose WHERE clause can be lifted |
| PreviewGate.SendsExactly | packages/devtools/src/console.ts:641-706 | after any events: all a run sent is its preview, if it was asked and has one, and then the start of its script; so a preview is sent exactly by such runs, with writes on, once each, and before its own yes a run sent nothing else |
| PreviewGate.SilentUntilYes | packages/devtools/src/console.ts:553-585 | a script that needs confirmation sends nothing before its own yes, in every course of events, exactly when it has no preview |
| PreviewGate.PreviewBeforeAnswer | packages/devtools/src/confirm.ts:133-151 | in any state, with no run executing, a run that has a preview queries it as its prompt opens, still unanswered |
| AnswerGate.StepSettles | packages/devtools/src/confirm.ts:76-118 | the confirm button settles the open prompt with yes, Cancel or another prompt with no, and nothing else settles anything |
| AnswerGate.SettledExactly | packages/devtools/src/confirm.ts:76-118 | over any events: a prompt was settled with yes exactly when the confirm button was pressed while it was the open one, and with no exactly when it was then cancelled or replaced by another prompt |
| AnswerGate.SentMeansAnswered | packages/devtools/src/console.ts:659-697 | a run that sent a statement only reads or writes are on; and if its script needs a yes, the confirm button was pressed while its own prompt was open, before any of it was sent, and that prompt was never cancelled or replaced |
| AnswerGate.BadScriptIsSilent | packages/devtools/src/console.ts:643-658 | a script with a statement that does not compile sends nothing, whatever happens next |
| AnswerGate.WholeScript | packages/devtools/src/console.ts:641-706 | a run that may write, undisturbed and confirmed if it needs to be, sends its whole script in order and ends |
| HashMix.Mix | packages/core/browser/next-agg-shapes.ts:46-54 | the mixer, step by step, is the composition of its invertible steps |
| HashMix.FinishUndone | packages/core/browser/next-agg-shapes.ts:48-53 | the shifts and multiplications after the first xor are undone by explicit inverses, both ways |
| HashMix.RowsArePermuted | packages/core/browser/next-agg-shapes.ts:46-54 | under one salt each word is the mix of exactly one row |
| HashMix.SaltsArePermuted | packages/core/browser/next-agg-shapes.ts:46-54 | on one row each word is the mix of exactly one salt |
| HashMix.BatchesOf | packages/core/browser/next-agg-shapes.ts:60-67 | consecutive batches from row 0, of 2048 rows each but the last, none empty, each with the columns of its own slice |
| HashMix.TakenOnce | packages/core/browser/next-agg-shapes.ts:60-67 | each row is in exactly one batch, and nothing else is |
| HashMix.OneTiling | packages/core/browser/next-agg-shapes.ts:60-67 | the batches are determined by the number of rows |
| ColumnVectors.ValidityOf | packages/core/browser/next-storage-owner-load.ts:25-29 | a bitmap only if some value is null; a bit for each value, set exactly when it is not null, spare bits clear |
| ColumnVectors.OffsetsOf | packages/core/browser/next-storage-owner-load.ts:60-65 | each offset is the bytes before its text, as a 32-bit integer keeps it |
| ColumnVectors.BytesOf | packages/core/browser/next-storage-owner-load.ts:66-67 | the texts' bytes end to end, or a RangeError, which needs more bytes than the offsets can count |
| ColumnVectors.InputVector | packages/core/browser/next-storage-owner-load.ts:23-73 | any values, coerced as the source does: the vector holds them exactly when a text column's bytes fit its 32-bit offsets; only other types are refused |
| ColumnVectors.ReadsBack | packages/core/browser/next-storage-owner-load.ts:23-73 | every value of the column's type reads back from the vector |
| ColumnVectors.LaidOut | packages/core/browser/next-storage-owner-load.ts:23-73 | how each value of the column's type is laid out: numbers as they are, booleans as 0 and 1, dates as microseconds since 1 January 2000 by the calendar, texts as their bytes, nulls as zero with a clear validity bit |
| ColumnVectors.VectorsTellApart | packages/core/browser/next-storage-owner-load.ts:23-73 | two columns with one vector are one column |
| OwnerLoad.GuardExact | packages/core/browser/next-storage-owner-load.ts:128-135 | the resume guard accepts exactly the row counts whole batches leave |
| OwnerLoad.PrefixAccepted | packages/core/browser/next-storage-owner-load.ts:128-163 | whatever an interrupted load leaves of the fact table passes the guard and the key probe |
| OwnerLoad.Loader.Load | packages/core/browser/next-storage-owner-load.ts:104-207 | from any point a load can stop at: refused exactly when not resuming or a dimension is torn, else that many writes further along the same load |
| OwnerLoad.Loader.LoadFact | packages/core/browser/next-storage-owner-load.ts:166-173 | the batch loop continues the canonical sequence of batches |
| OwnerLoad.LoadThrough | packages/core/browser/next-storage-owner-load.ts:104-207 | over any interruptions: refused exactly when an earlier stop tore a dimension, otherwise complete exactly when the writes suffice, with every row once, in order |
| OwnerLoad.TornSeen | packages/core/browser/next-storage-owner-load.ts:174-184 | the stops a resumed load refuses are those that leave a dimension created and empty |
| Capture.Capturer.WriteChunk | packages/core/browser-tests/opfs-evidence.ts:276-290 | partial writes: every reported byte is hashed, counted and in the artifact |
| Capture.Capturer.CopyChunks | packages/core/browser-tests/opfs-evidence.ts:250-291 | chunk by chunk up to the size allowed, or what stopped it, as the reads and write calls decide |
| Capture.Capturer.CaptureFile | packages/core/browser-tests/opfs-evidence.ts:225-318 | at every exit the artifact starts with the captured prefix of the source, a digest is of exactly it, and the total stays within the limit; the error and the length are what the calls and the budget make of them |
| Capture.Capturer.CaptureAll | packages/core/browser-tests/opfs-evidence.ts:206-337 | complete exactly when the listing is whole, the files fit the limit and nothing goes wrong with any of them; then every file is whole; only the deadline keeps a later file from being captured |
| Capture.NoErrorIff | packages/core/browser-tests/opfs-evidence.ts:225-318 | a file has no error exactly when it opens and closes, each chunk it needs reads whole, each write call it makes takes a byte, and the budget covers it |
| Capture.ErrorsMean | packages/core/browser-tests/opfs-evidence.ts:225-318 | which cause is reported as the byte limit, as an open error and as the deadline |
| Capture.ExpiredRead | packages/core/browser-tests/opfs-evidence.ts:262-275 | copying ends with the deadline only on a read that expired |
| WriteScopes.StepInv | packages/core/browser/write-scope-admission-run.ts:97-157 | under the lock every step keeps the counts of work and of counter reads |
| WriteScopes.BurstCounts | packages/core/browser/write-scope-admission-run.ts:97-157 | a burst that is over ran each scope and transaction exactly once; the counter is their number; the reads are 0 to N-1 |
| WriteScopes.NeverStuck | packages/core/browser/write-scope-admission-run.ts:97-157 | until the burst is over some step can be taken |
| WriteScopes.CrossingLoses | packages/core/browser/write-scope-admission-run.ts:115-130 | without the lock two scopes that cross lose an increment, or, with validation, one is refused and its table not loaded |
| WriteScopes.Burst.Commit | packages/core/browser/write-scope-admission-run.ts:127-130 | the write half: the counter becomes what the scope read plus one |
| WriteScopes.Burst.Run | packages/core/browser/write-scope-admission-run.ts:97-157 | any schedule of the actors keeps the invariant and, when over, meets the counts |
| WorkSlicer.Thread.RunSteps | packages/core/src/work-slicer.ts:65-70 | calls next until it returns, and gives the value of that last call, for every step function |
| WorkSlicer.Thread.RunStepsSliced | packages/core/src/work-slicer.ts:72-80 | the same value for every step function and clock, and the clock after every step, check and turn |
| WorkSlicer.Thread.MaybeYieldToEventLoop | packages/core/src/work-slicer.ts:29-32 | a turn exactly when the slice has run out, and the slice restarts after it |
| WorkSlicer.RunChain | packages/core/src/work-slicer.ts:11-80 | over a chain of runs each gives its generator's value, and the event loop never waits longer than a slice and the longest stretch between checks, 8 ms and two steps when each inner run yields |
| WorkSlicer.StretchTwo | packages/core/src/work-slicer.ts:72-80 | at most two steps run between checks exactly when each run but the first and last yields |
| WorkSlicer.SliceBoundExact | packages/core/src/work-slicer.ts:11-80 | for runs of given lengths: whatever steps cost and turns take, the event loop waits less than 8 ms and two steps, exactly when each run but the first and last yields |
| WorkSlicer.ListedCosts | packages/core/src/work-slicer.ts:65-80 | any list of step costs is some generator's |
| GcSlices.GcTime | packages/core/browser-tests/export-diagnostics.ts:66-81 | the stack loop's total is the time a paired slice that began in the window is open, less one that does not end, and complete events on top; its count is the outermost slices |
| GcSlices.OpenTimeStep | packages/core/browser-tests/export-diagnostics.ts:69-76 | one more event leaves the open time before it and adds the time after it while a slice that began in the window is open |
| GcSlices.PairedTotal | packages/core/browser-tests/export-diagnostics.ts:66-81 | for paired events the total is the time a slice is open exactly when every slice that begins in the window ends in it and those from before it are open only while one of these is; it never exceeds the window |
| GcSlices.CoveredTotal | packages/core/browser-tests/export-diagnostics.ts:62-82 | for every trace the loop sees: the total is the time a slice of either form is open, plus what several layers count again, less the one that does not end and the time only slices from before the window are open; right exactly when these agree, and, with every slice ended and none missed, exactly when no instant has two layers |
| GcSlices.TraceTotal | packages/core/browser-tests/export-diagnostics.ts:57-82 | for the trace as recorded, the events the filter drops included: the same, less the time only slices are open of which the window has no event; right exactly when these agree |
| GcSlices.ClippedIsCompleteTime | packages/core/browser-tests/export-diagnostics.ts:77-79 | the clipped durations are the sum over instants of the complete events covering them |
| GcSlices.OutermostCounted | packages/core/browser-tests/export-diagnostics.ts:69-76 | the slices counted are the outermost ones, but for one still open |
| GcSlices.CompleteCountsTwice | packages/core/browser-tests/export-diagnostics.ts:70-80 | the witness: a complete event inside a pair counts twice |
| GcSlices.EndAloneIsMissed | packages/core/browser-tests/export-diagnostics.ts:71-76 | the witness: an end alone closes nothing, and the time its slice was open does not count |
| GcSlices.EarlyCompleteIsDropped | packages/core/browser-tests/export-diagnostics.ts:57-64 | the witness: a complete event from before the window is dropped, and the time it reaches into the window does not count |

## Left out

- Kill campaign: the time-out that ends a barrier is a step that may happen at any moment while messages are missing; that an undisturbed barrier resolves in time is not shown.
- Kill campaign: spill steps, reads and requests are messages without storage effect; spill contents, the stolen lock and the stalls injected for regressions are not modelled.
- Kill campaign: a failure the page learns from the rejection of its call to the worker, beside the channel; only failures posted on the channel are modelled.
- Kill campaign: a blob list is its round and identity text; the identity hash is taken to tell blob lists apart.
- KillTheorems.NeverCondemned: a restart in the campaign's runs is one step, because the page waits for the recovery before it kills again; a worker lost inside it is RecoveryKilled's subject, outside those runs.
- ChaosStore.RecoverSettles: takes recovery's log operation as one step, because what its single steps leave is RecoveryKilled's subject.
- PublishRounds.Space.Publish: rejects only bad retire lists, because the other rejections are storage failures the contract leaves undetermined.
- PublishRounds.Verify: does not read or checksum the blobs, because their bytes are not part of the model.
- Publish rounds: pins, caches, alignment and the data length.
- Calendar: results that exceed the integers a double holds exactly.
- Checkout: the client library's queueing, deadlines and error classes; WriteConflictError, UniqueConstraintError and UniqueKeyConflictError are one conflict.
- CsvStream: lone surrogates (a text is a sequence of whole code points), UTF-8 encoding, the printing of numbers and dates, NDJSON.
- WhereScanner: the text of the preview query, the quoting of the table name, and classifyStatement, whose intents ConfirmGate takes as given.
- ConfirmGate.Console.SendNext: sends the statement as written, where a capped query goes out with a LIMIT appended, because the text sent decides nothing about which statements are sent.
- ConfirmGate: focus, keys, labels and everything shown; siblings added or made inert by others while a prompt is open; result rows, history and following.
- HashMix: the value generators over mixed words.
- ColumnVectors.InputVector: takes what Number and String make of a value as given, a real and bytes, because NaN and the rounding of floats are not modelled; a buffer the host refuses to allocate is not either.
- OwnerLoad: the schema comparison on resume, unrelated tables, and the commerce dataset, which cannot be resumed; dimensions have at least one row, as the generator's do.
- Capture: listing and sorting of the files, page handling and the manifest's text; a digest is represented by the bytes it is of.
- Capture.Capturer.CaptureFile: a deadline or failure while releasing the snapshot, which the source ignores.
- WriteScopes: ledger bookkeeping between scopes, held scopes, migrations and throughput; failures other than conflicts.
- WorkSlicer: work of others on the same thread between steps; runs interleaved rather than chained; generators that never return.
- GcSlices: the selection of events by thread and name and the stable sort by time, which come before the loop; fractions of a microsecond; a slice that is open all through the recorded trace, which has no event of it.
- Liveness other than the absence of deadlock in WriteScopes, and all measurements of time, memory and CPU.
