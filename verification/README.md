# Receiving scanner: a verified model

A warehouse scanner receives units against purchase orders. A scan is bound to an unclaimed
inventory row, the claim and a receiving record are committed in one transaction, a board item is
created through a web API, and the record is marked emitted. A sync pass replays what was left
unmarked, a robot drives the vendor's portal for the items on the board, and a window turns barcode
scans into models, serials and calls of the receiving service. This project models that program in
Dafny and proves what its design promises; where a promise does not hold of the code, it gives a
concrete run that breaks it and the exact condition under which it holds.

`dafny verify dfyconfig.toml` checks everything.

## Structure

| files | what they model |
|---|---|
| Matching, ModelResolution, Keys | barcode-to-model matching and the learned / exact / walk / ask resolver; what a normalised key forgets, character by character |
| Schema, Tables, Columns, ScanRecords, Repository, Migrations, Refresh | records and validation, the two tables, receiving ids, the SQLite repository (a class), schema migrations, catalog refresh; Columns says column by column and key by key what is written and what is accepted |
| Sink, Receive, Sync | the board sink (a class), `process_scan` and `sync_pending` as methods over those classes |
| Sessions, Rescans | single-scanner runs of `process_scan`, interrupted anywhere; what a scan leaves field by field, and which earlier scan answers a duplicate |
| Protocol, Claims, Postings, Races, Duplicates, Reposts, Recovery, SyncRuns | the same protocol as a step machine: any number of processes and workers, any interleaving, a crash, database error or lost answer between any two steps; `process_scan` and `sync_pending` are runs of it |
| Dispatch, Numerals, ReceiveSync, RobotPass, RobotReport | the robot's pass: order, reading of ids, loop, kill rule, marks, status log |
| ScanDispatch, ScannerStates, ScannerTable, ScannerRuns, ScannerHistory, ScannerOrder, ScannerPos, ScannerLabels, ScannerForms, ScannerUi | the window: dispatch decision, transitions on values and their table, theorems over its runs, and the class that inherits them |
| Sequences, Text, Wrappers | list functions and their lemmas, stripping, result types |

Code that mutates state is a class or a method with loops whose contract ties the new state to a
function or relation on values; theorems about runs are lemmas about those. What such a function
computes is stated once more without it, in the terms of the data: Keys, Columns, Rescans, Postings,
Numerals, RobotReport, ScannerTable, ScannerLabels. Databases, web API,
portal and clock are oracles: the k-th call of an oracle has a fixed, arbitrary outcome, so a theorem
that mentions no oracle holds for every pattern of failures.

## What does not hold, and when it does

- "No double emission" (services/receive.py:9, adapters/sink.py:8): a record gets up to one board item for
  each worker ever started and one for each request that succeeded with its answer lost
  (`BoundedDuplication`); with a single writer, for each process lifetime (`OneItemPerLifetime`). Both bounds
  are attained by single-writer histories of every length (`BoundIsReached`). A further item is possible
  exactly while the record is unmarked or some worker is still on its way to create one
  (`FurtherItemIff`); with a single writer nothing follows a mark (`SingleWriterNeverRepeats`).
- "A concurrent scan cannot steal a claimed row" (services/receive.py:12): the claim itself is never
  overwritten (`ClaimIsPermanent`), but the loser of a race still stores a receipt for the row
  (`TwoTextsReceiveTwice`). Receipts and claimed rows pair up exactly when each claimed row has one claim
  whose text no later scan hashed (`ReceiptsMatchClaimsIff`).
- The receiving id hashes an unseparated concatenation, so different scans can share one. Exactly when:
  `SamePoCollisionIff`, `NoMatchCollisionIff`. A later scan with the same text erases a receipt
  (`ReceiptStaysIff`, `CollidingScanErases`), so a claimed row can be left without one (`CollidingRun`);
  exactly which rows are: `ClaimedIffReceived`.
- The refresh criterion `count == len(rows)` (services/refresh.py:34) holds exactly when the portal
  returns no inventory id twice (`RefreshCountIff`).
- A crash between two migrations with one version number loses the second for good; without such twins
  every crash pattern is survived (`SurvivesCrashesIff`).
- A proposal confirmed by the operator can be received as nothing (`ProposalNotReceived`); exactly when:
  `ProposalIsReceivedIff`.
- The window can confirm a model that was proposed for another barcode (`WrongModelConfirmed`, exactly
  when: `ConfirmsWrongIff`), receive on one PO a model resolved on another (`LateVerdictCrossesPo`; exactly
  when: `CallKeepsItsPoIff`, and over a run: `AlwaysOnItsPoIff`), have two matches in flight
  (`TwoMatchesInFlight`; exactly when: `OneMatchAtATimeIff`), learn a typed model for the wrong barcode
  (`TypedModelLearnedForAnother`; exactly when: `TypedModelIsLearnedIff`) and stay blocked with its entry form
  closed (`FailedCheckLosesForm`; exactly when: `FormStaysOpenIff`).
- The robot stops at two consecutive executor failures (services/receive_sync.py:35). README.md:80 and
  docs/GETTING_STARTED.md:378 still describe a 50 % rule over five attempts; the model follows the code.
- Nothing in the repository outside its tests calls `sync_pending`; `CleanPassCatchesUp`,
  `SyncIsRun` and `HistoryIsRecoverable` say what a caller would get.
- A robot pass cut off by any exception other than the kill leaves its last status at `running`
  (`StoppedIff`).

## Model

| member | source | states |
|---|---|---|
| Matching.ModelMatchesBarcode | core/matching.py:72-97 | the nested loop decides the walk and passes at most as many positions as the barcode has |
| Matching.WalkIsLeftmost | core/matching.py:85-96 | the greedy walk finds an embedding whenever one exists, each position at or before that one's |
| Matching.WalkMeaning | core/matching.py:72-97 | a walk match is exactly: both texts non-empty and the lower-cased model a subsequence of the lower-cased barcode |
| Matching.TwinsReject | core/matching.py:72-97 | between texts of one length the walk accepts only equality up to case |
| Matching.KeyIsSubsequence | core/matching.py:16-24 | a normalised key is a subsequence of the lower-cased text |
| Keys.KeyIgnoresSeparators | core/matching.py:16-24 | a space or a hyphen anywhere in a text leaves its key as it is |
| Keys.KeyIgnoresCase | core/matching.py:16-24 | so does the case of any letter |
| Keys.KeyIsClean | core/matching.py:16-24 | a key holds no hyphen, no space and no upper-case letter, and a text without them is its own key |
| Keys.SameKeyIff | core/matching.py:16-24 | two texts have one key exactly when their lower-cased characters other than spaces and hyphens agree in order |
| Keys.WalkIgnoresCase | core/matching.py:72-97 | the walk ignores the case of model and barcode |
| Matching.ExactImpliesWalk | core/matching.py:27-34 | for separator-free models an exact match is a walk match |
| Matching.ExactWithoutWalk | core/matching.py:27-34 | with separators it need not be |
| Matching.FindsItselfIff | core/matching.py:37-43 | a listed model's own text finds it exactly when its key is non-empty and unshared |
| Matching.ResolversIgnoreOrder | core/matching.py:37-128 | both resolvers depend on the set of candidates, not on their order |
| ModelResolution.VerdictMeaning | core/model_resolution.py:35-70 | AUTO and PROPOSE verdicts as statements about which models pass which test |
| ModelResolution.WalkStepAutoIff | core/model_resolution.py:55-67 | the AUTO branch of the walk step is taken exactly when the barcode has no key and one model has none |
| ModelResolution.EmptyModelIff | core/model_resolution.py:35-70 | exactly when a verdict names the empty model |
| Keys.LearnedIsAuto | core/model_resolution.py:51-53 | a learned barcode is AUTO for its model, blank or not, whatever the PO lists |
| Keys.LearnedIsReceivedIff | core/model_resolution.py:51-53 | the next scan of a learned barcode is received as a listed model exactly when that is the only listed variant of what was typed |
| Keys.AskedAmong | core/matching.py:100-128 | when the resolver cannot decide, its candidates are the variants of the barcode if there are any, else the models the walk accepts |
| ModelResolution.VerdictIgnoresRowOrder | services/model_resolution.py:19-41 | the verdict does not depend on the order of the un-ordered SELECT |
| ModelResolution.MatchedRowMeaning | services/receive.py:159-169 | a scan is matched exactly when one model binds its text, and to a row of that model |
| ModelResolution.ReceivesItselfIff | services/receive.py:159-169 | scanning a listed model's text is matched to it exactly when its key is non-empty and unshared |
| Keys.VariantBindsTheSame | services/receive.py:159-169 | a text that differs from another only by case, spaces and hyphens binds the same row |
| Keys.VariantIsReceivedIff | services/receive.py:159-169 | such a variant of a listed model is received as it exactly when it is not all separators and no other listed model is a variant |
| ModelResolution.AutoIsReceived | core/model_resolution.py:52-70 | an unlearned AUTO verdict for a barcode with a key is received as the model it names |
| ModelResolution.ProposalIsReceivedIff | core/model_resolution.py:52-70 | a confirmed proposal is received as shown exactly when no other unclaimed model shares its key |
| ModelResolution.ProposalNotReceived | core/model_resolution.py:52-70 | a PO and barcode where the confirmed proposal is received as nothing |
| ModelResolution.TypedIsReceivedIff | services/model_resolution.py:44-51 | a typed model found on the PO is received exactly when one unclaimed model has its key |
| Keys.TypedIsOnPoIff | services/model_resolution.py:44-51 | a typed model is on the PO exactly when some unclaimed model is a variant of it |
| Schema.ValidateRecord | core/schema.py:81-133 | the collected problems name exactly the faulty fields; none means well-formed |
| Columns.FromDictIff | core/schema.py:81-170 | from_dict raises exactly on the dicts that miss a stated field condition, and otherwise reads each field from its own key |
| Schema.FromDictRecovers | core/schema.py:136-170 | from_dict recovers a carried record, or refuses exactly the invalid ones |
| Schema.DictRoundTrip | core/schema.py:147-175 | from_dict after to_dict is the identity on valid records and an error on all others |
| Tables.UpsertKeepsClaims | adapters/db.py:174-205 | upserting a catalog keeps every claim and every row it does not name |
| Tables.LastItemWins | adapters/db.py:174-205 | among items with one id the last one is stored, with the claim the row had |
| Columns.UpsertWrites | adapters/db.py:174-205 | the last item with an id writes every column of its row but the claim |
| Columns.CommitWrites | adapters/db.py:115-172 | every column after a claim and a save: a first claim keeps its time, a stored flag stays, no other row changes |
| Columns.RowHolds | adapters/db.py:257-269 | a pending row holds each column under its own key |
| Tables.RefreshCountIff | services/refresh.py:34 | a replaced catalog has as many rows as items exactly when no id is fetched twice |
| Tables.ReplayReadsRow | core/schema.py:136-170 | reading a pending row back gives its record, or an error exactly when that is not valid |
| Tables.ReplayRoundTrip | adapters/db.py:207-269 | save, select, parse gives the record back but for brand, vendor and tags |
| ScanRecords.SamePoCollisionIff | services/receive.py:35-40 | when two scans on one PO share a receiving id |
| ScanRecords.NoMatchCollisionIff | services/receive.py:35-40 | when an unmatched scan shares the id of a received one |
| ScanRecords.IdsSeparate | services/receive.py:35-40 | prefix-free inventory ids and PO numbers of one length make the id determine its parts |
| ScanRecords.ScanRecordIsValid | services/receive.py:43-96 | every record process_scan builds passes its own validation |
| Repository.SQLiteRepository.UnclaimedForPo | adapters/db.py:79-88 | lists the PO's unclaimed rows, each once, in some order |
| Columns.CandidatesAre | adapters/db.py:79-88 | that listing holds exactly the rows on the PO without a claim, and no inventory id twice |
| Repository.SQLiteRepository.ClaimAndSave | adapters/db.py:115-172 | claim and record are committed together or not at all; a row already claimed keeps its time |
| Repository.SQLiteRepository.SaveRecord | adapters/db.py:207-255 | insert or update that keeps the emitted flag |
| Repository.SQLiteRepository.GetPending | adapters/db.py:257-269 | the rows not marked emitted, each once |
| Repository.SQLiteRepository.MarkEmitted | adapters/db.py:271-284 | sets one flag, and raises when the row is missing |
| Repository.SQLiteRepository.WasRecordEmitted | adapters/db.py:286-296 | the flag, false for a missing row |
| Repository.SQLiteRepository.FindClaimedBySerial | adapters/db.py:298-322 | the PO, serial and status of the receipt found and the row it names; none is found exactly when no receipt has all three and an inventory row |
| Repository.SQLiteRepository.UpsertItems | adapters/db.py:174-205 | all items or none |
| Repository.SQLiteRepository.ReplacePoItems | adapters/db.py:331-363 | delete and reload in one transaction |
| Migrations.Database.EnsureSchema | adapters/db.py:47-66 | applies the pending scripts in order up to the first that does not commit |
| Migrations.CrashesLeaveAPrefix | adapters/db.py:22-66 | after any history of starts cut short anywhere, the committed scripts are the first k of the sorted list and the version is the k-th's |
| Migrations.CompletedIsStable | adapters/db.py:47-66 | after a completed start all are applied and the next start changes nothing |
| Migrations.SurvivesCrashesIff | adapters/db.py:22-66 | every crash pattern is survived exactly when no two pending scripts share a version |
| Refresh.RefreshAll | services/refresh.py:23-57 | which failures keep the old catalog, and what the new one is |
| Refresh.ReplacedCatalog | adapters/db.py:331-363 | last-wins rows for exactly the fetched ids, never empty, with no claim left |
| Sink.ResultSink.Emit | adapters/sink.py:126-154 | one create for an id this process has not seen, remembered only when acknowledged: READY in the ready group for a received record, NO MATCH in the no-match group for any other, every field of the item given |
| Sink.ResultSink.SurfaceAttention | adapters/sink.py:168-191 | the same for the attention group |
| Receive.EmitOnce | services/receive.py:195-205 | the was_emitted guard, the sink call and the mark, under any failure |
| Receive.ProcessScan | services/receive.py:134-205 | every effect of one scan on tables, board and process memory, completed or interrupted at any call |
| Rescans.ReturnTells | services/receive.py:43-96 | each field of the record a scan returns, for a received unit and for an unmatched text |
| Rescans.AnswerTells | services/receive.py:99-131 | each field of the answer to a duplicate: what comes from the receipt, from the row and from this scan |
| Rescans.StoredTells | services/receive.py:182-203 | what a returning scan stores and claims, and that nothing else changes |
| Rescans.PostedTells | adapters/sink.py:126-154 | the group, label and fields of the item a scan posts |
| Sessions.StepTakesAtMostOne | services/receive.py:159-193 | a scan, interrupted or not, takes at most one slot, the one it bound |
| Sessions.ReceivedIffTook | services/receive.py:159-205 | a scan that returns is received exactly when it took a slot, and names that slot |
| Sessions.SlotsAreConserved | services/receive.py:159-193 | a PO's free slots fall by exactly the scans that took one |
| Sessions.ReceivedEqualsSlotsUsed | services/receive.py:159-193 | when every scan returns, by exactly the received results |
| Sessions.SlotsAreTakenOnce | adapters/db.py:115-124 | no slot is taken twice |
| Sessions.ReceivedWhileSlotsRemain | services/receive.py:159-193 | a scan of a model with a unique key is received exactly while a slot of it remains, whatever else was scanned |
| Sessions.FirstNAreReceived | services/receive.py:159-193 | N free slots give exactly N received results and none after |
| Sessions.AlreadyScannedIff | services/receive.py:171-180 | when a scan answers already_scanned, and that it then changes nothing |
| Sessions.ReceiptSurvivesIff | services/receive.py:182-193 | a stored receipt survives a scan, interrupted or not, exactly when the scan hashes another text or commits nothing |
| Sessions.ReceiptStaysIff | services/receive.py:182-193 | over a session the receipt of a scan that took a slot is still stored exactly when no later scan committed the same text; an erased one never returns |
| Sessions.CollidingScanErases | services/receive.py:182-196 | a committing scan with the same text overwrites the receipt; the unit stays claimed, and a marked record gets no new item |
| Sessions.RescanIsAnswered | services/receive.py:165-180 | re-scanning a received serial once no model binds the text, its receipt not overwritten, answers already_scanned from a stored receipt and changes nothing |
| Rescans.AnsweredIff | services/receive.py:165-180 | over any session from empty receipts a returning scan answers already_scanned exactly when no model binds it and an earlier scan took a slot of the same PO for its non-blank serial, its receipt not overwritten |
| Rescans.AnswerNamesEarlier | adapters/db.py:298-322 | the answer carries the receiving id and the row of such an earlier scan |
| Rescans.OtherPoIsNoMatch | services/receive.py:171-205 | a serial received on other POs only is saved as a no-match record under the scanned PO, and claims nothing |
| Sessions.NothingIsLost | services/receive.py:190-203 | wherever scans are interrupted: marked or remembered means on the board, records stay, marks stay |
| Sessions.ReturnedMeansEmitted | services/receive.py:195-205 | every scan that returned has left its record marked and on the board, for good |
| Sync.ProcessItem | services/sync.py:39-50 | one replay: parse, surface, mark, and what each failure leaves |
| Sync.SyncPending | services/sync.py:53-93 | every pending record tried once, counters exact, the still pending exactly those that raised, kill by the rule below |
| Sync.KillRule | services/sync.py:77-88 | the success rate is under one half exactly when more than half raised |
| Sync.PassKeepsAccounts | services/sync.py:62-75 | whatever fails in a pass, what is marked or remembered is on the board |
| Sync.CleanPassCatchesUp | services/sync.py:53-93 | a pass in which nothing raises leaves nothing pending and every saved record on the board |
| Sync.ReplayPostsTheSavedItem | services/sync.py:44-48 | replay creates the board item the scan would have created |
| Sync.ReplayPosts | services/sync.py:39-50 | group and label of a replayed item by its stored status, the other fields from its columns |
| Protocol.AccountableKept | services/receive.py:190-203 | each step of any worker, crash or failure keeps the no-loss invariant |
| Protocol.NoRecordIsLost | services/receive.py:190-203 | over any run: marked implies on the board, the board holds only stored records, records and marks stay |
| Protocol.HistoryLosesNothing | services/receive.py:190-203 | the same between any two points of any history from the empty database |
| Postings.BoardTells | adapters/sink.py:126-154 | in every history from the empty database a ready item names the inventory id of a claiming commit with its receiving id, PO and a matching text; a no-match item is blank and comes from an unmatched commit |
| Postings.RecordsTell | services/receive.py:43-96 | the stored records tell the same of their commits |
| Claims.ClaimsAreExact | adapters/db.py:115-124 | claimed rows are exactly the rows of the claiming commits since the last refresh |
| Claims.ClaimIsPermanent | adapters/db.py:120-124 | between refreshes a claim never changes, for any number of racing workers |
| Claims.ReceiptIsOfLastCommit | services/receive.py:182-193 | over any run a stored receipt tells of the last commit of its text |
| Claims.ClaimedIffReceived | services/receive.py:159-193 | a row is claimed exactly when some commit claimed it, and named by a received record exactly when one of those commits is the last of its text |
| Claims.ReceiptsMatchClaimsIff | services/receive.py:182-193 | one received record for each surviving claim; records and claimed rows pair up exactly when each row has one; equal numbers, if scans hash apart, exactly when no row was claimed through two texts |
| Races.RaceOutcome | adapters/db.py:115-165 | what a race for one row leaves in both tables |
| Races.TwoTextsReceiveTwice | adapters/db.py:120-124 | with two texts one slot gets two receipts |
| Races.OneTextKeepsOneSerial | adapters/db.py:133-146 | with one text the second serial overwrites the first |
| Races.CollidingRun | services/receive.py:35-40 | a run after which a claimed row has no received record |
| Duplicates.BoundedDuplication | adapters/sink.py:133-154 | board items per record are at most workers started plus lost answers |
| Reposts.OneItemPerLifetime | adapters/sink.py:133-154 | with a single writer, at most process lifetimes plus lost answers |
| Reposts.BoundIsReached | adapters/sink.py:59 | for every number of lifetimes and of lost answers a single-writer history with exactly that many items |
| Reposts.OneMore | services/receive.py:195-203 | from any state a new process can create one more item for an unmarked record and leave it unmarked |
| Reposts.FurtherItemIff | services/receive.py:195-203 | some continuation creates a further item exactly when the record is unmarked or a worker is on its way to create one |
| Duplicates.LateItemsAreBounded | services/receive.py:195-203 | after a mark, at most one more item for each worker inside its window then |
| Duplicates.MarkedIsFinal | services/receive.py:195-203 | with a single writer a marked record stays marked and gains no item, even when saved again |
| Duplicates.SingleWriterNeverRepeats | services/receive.py:195-203 | the same for every single-writer history from the empty database |
| Recovery.ScanIsRun | services/receive.py:134-205 | every scan, returning or raising at any call, is a run of the step machine |
| SyncRuns.SyncIsRun | services/sync.py:53-93 | every sync pass, whatever raises in it, is a run of the step machine |
| Recovery.AlwaysRecoverable | services/sync.py:53-93 | from every reachable state a restarted process can bring every record to the board |
| Recovery.HistoryIsRecoverable | services/sync.py:53-93 | so every history from the empty database can be continued to one with nothing pending |
| Recovery.StoredRowsParse | adapters/db.py:257-269 | every row ever stored goes through from_dict and comes back as its record |
| Dispatch.SortedMeaning | services/receive_sync.py:98-110 | dispatch order: a permutation, ascending by parsed id, unparsable last, stable |
| Dispatch.SortIsDetermined | services/receive_sync.py:110 | any list with those properties is the dispatch order |
| Numerals.ParsesDecimal | services/receive_sync.py:98-110 | a number in decimal notation, signed or not and between any white space, reads as that number |
| Numerals.ParsesIff | services/receive_sync.py:98-110 | what reads as a number at all: digits with single underscores between, after at most one sign |
| Numerals.DispatchedByNumber | services/receive_sync.py:98-110 | of two items the one whose id reads as the smaller number goes first, and one whose id does not read goes after all that do |
| Numerals.DispatchedByDecimal | services/receive_sync.py:98-110 | ids m < n in decimal notation are dispatched in that order |
| Numerals.UnreadableIsLast | services/receive_sync.py:98-110 | an id with any other character in it goes behind |
| ReceiveSync.ReceivePending | services/receive_sync.py:76-177 | the loop with its early exits ends with the marks, log, calls and answer of the pass on values |
| RobotPass.LoopIsFaithful | services/receive_sync.py:112-163 | counters, marks, log and phase are those read off the replies to the items processed |
| RobotPass.KillRule | services/receive_sync.py:140-163 | the pass is killed exactly when two executed items fail with only invalid ones between; otherwise it returns |
| RobotPass.KillStopsThere | services/receive_sync.py:140-163 | a kill stops at the second failure of the first pair, both marked needs_attention |
| RobotPass.ReturnAccounts | services/receive_sync.py:116-177 | a returned pass executed every valid item, accounts for every polled one, and failed at most once more than it succeeded |
| RobotPass.EachMarkedOnce | services/receive_sync.py:116-139 | however the pass ends, a prefix of the dispatch order was marked, once an item with an id, in order |
| RobotPass.EachTriedOnce | services/receive_sync.py:116-134 | however the pass ends, the executor was called for a prefix of the valid items in dispatch order |
| RobotReport.CompleteAreExecuted | services/receive_sync.py:53-55 | only items with all five fields are executed, and a returned pass has executed every one |
| RobotReport.ExecutedByDecimal | services/receive_sync.py:98-134 | the executor drives the id m before every greater one |
| RobotReport.ExecutedAreMarked | services/receive_sync.py:129-147 | the mark of each executed item, by its reply |
| RobotReport.IncompleteAreMarked | services/receive_sync.py:116-124 | an incomplete item with an id is marked no_match |
| RobotReport.CountersTell | services/receive_sync.py:112-177 | what the four counters of a returned pass count |
| RobotPass.StatusTrace | services/receive_sync.py:112-166 | one write an executed item with the length of the failing suffix, at most two, and one final stopped write |
| RobotReport.WritesTell | services/receive_sync.py:58-163 | the contents of each status write, from the reply it reports |
| RobotReport.LastWriteTells | services/receive_sync.py:165-177 | the contents of the closing write |
| RobotPass.StoppedIff | services/receive_sync.py:112-166 | the status says stopped exactly when the pass returned or was killed |
| ScanDispatch.DispatchMeaning | core/scan_dispatch.py:56-105 | which scans ask for what; a serial only in MID_SCAN, a PO label never while blocked or busy |
| ScannerLabels.LabelNames | core/scan_dispatch.py:85-90 | "PO:" in any case and a PO number, with white space around either, is the label of that number |
| ScannerTable.LabelScanLeaves | adapters/ui/scanner_ui.py:156-173 | what a scanned label leaves of the window |
| ScannerTable.TextScanLeaves | adapters/ui/scanner_ui.py:174-194 | what any other scan leaves, by phase |
| ScannerTable.VerdictLeaves | adapters/ui/scanner_ui.py:203-220 | what a verdict, or a resolver that raises, leaves |
| ScannerTable.OutcomeLeaves | adapters/ui/scanner_ui.py:222-246 | what an outcome, or a call of process that raises, leaves |
| ScannerTable.CallbackLeaves | adapters/ui/scanner_ui.py:196-201 | what a posted turnstile or PO switch leaves |
| ScannerTable.DismissLeaves | adapters/ui/scan_states.py:180-228 | which states Esc leaves, and for what |
| ScannerTable.TypedLeaves | adapters/ui/blocking_states.py:148-185 | what a typed model leaves, in each of the five cases |
| ScannerUi.ReceivingUI.OnScan | adapters/ui/scanner_ui.py:156-194 | the whole new state after a scan |
| ScannerUi.ReceivingUI.ApplyVerdict | adapters/ui/scanner_ui.py:212-220 | the whole new state after a verdict |
| ScannerUi.ReceivingUI.ApplyOutcome | adapters/ui/scanner_ui.py:231-246 | the whole new state after an outcome |
| ScannerUi.ReceivingUI.HandleProposeScan | adapters/ui/blocking_states.py:73-83 | the turnstile |
| ScannerUi.ReceivingUI.OnNeedsModelSubmit | adapters/ui/blocking_states.py:148-185 | blank, no PO, on-PO, off-PO and failing check |
| ScannerUi.ReceivingUI.OnManualSubmit | adapters/ui/scan_states.py:358-374 | the manual path |
| ScannerUi.ReceivingUI.DismissNoMatch | adapters/ui/scan_states.py:180-185 | what Esc leaves in each state |
| ScannerUi.ReceivingUI.ValidIsSafe | adapters/ui/scanner_ui.py:44-331 | a window that is where its history leads has every invariant below and the sources of its models and calls |
| ScannerUi.ReceivingUI.Handle | adapters/ui/scanner_ui.py:156-331 | the class takes the machine's step for every enabled event, records it, and stays safe |
| ScannerRuns.NextIsSound | adapters/ui/scan_states.py:90-177 | every event keeps the state invariants |
| ScannerRuns.ReachableIsSound | adapters/ui/scanner_ui.py:156-331 | in every reachable state: MID_SCAN holds a model, PROPOSE a barcode and model, busy states a worker, every call a loaded PO, every other state a timer or the Reset button where its handlers count on one |
| ScannerRuns.NeverStuck | adapters/ui/scan_states.py:180-228 | from every reachable state, whatever the worker waited for brings, at most three events lead back to IDLE |
| ScannerRuns.BlockedScansAreInert | core/scan_dispatch.py:75-83 | while busy or blocked a scan launches nothing and switches no PO |
| ScannerRuns.OneMatchAtATimeIff | adapters/ui/scanner_ui.py:186-246 | at most one call of process is ever under way exactly when no event calls it during one |
| ScannerRuns.MatchingThroughoutIff | adapters/ui/scanner_ui.py:186-246 | the window stays in MATCHING throughout each match exactly when none of the listed events falls into one |
| ScannerHistory.ProposeIsOneVerdict | adapters/ui/blocking_states.py:38-51 | in PROPOSE the pending barcode and the model come from one verdict, the last PROPOSE |
| ScannerHistory.ModelsAreSourced | adapters/ui/scanner_ui.py:186-220 | every model passed to process comes from an AUTO verdict, a proposal after a re-scan, or typing |
| ScannerOrder.MidScanHasModel | adapters/ui/scanner_ui.py:212-220 | no blank model is held in MID_SCAN or passed to process unless a verdict named one |
| ScannerOrder.ConfirmsWrongIff | adapters/ui/blocking_states.py:73-83 | when a re-scan's callback confirms a model proposed for another barcode; never while in PROPOSE |
| ScannerOrder.WrongModelConfirmed | adapters/ui/blocking_states.py:73-83 | a run in which it does, up to the serial received under the wrong model |
| ScannerPos.MidScanPoIff | adapters/ui/scanner_ui.py:196-220 | the model in MID_SCAN was vouched for on a PO of the run, which is the PO in use exactly when MID_SCAN was entered on it |
| ScannerPos.CallKeepsItsPoIff | adapters/ui/scanner_ui.py:186-194 | a serial scan calls process with that PO exactly when MID_SCAN was entered on it |
| ScannerPos.CallsKeepTheirPoIff | adapters/ui/scanner_ui.py:186-194 | the same for all serial scans of a run |
| ScannerPos.AlwaysOnItsPoIff | adapters/ui/scanner_ui.py:196-220 | MID_SCAN and PROPOSE belong to the PO in use throughout a run exactly when no verdict and no confirmation crosses; every call then carries its model's PO |
| ScannerLabels.CurrentPoIsInUse | adapters/ui/scanner_ui.py:156-201 | in every reachable state the PO in use is the one last loaded, or last switched to by a label of a loaded PO scanned while neither busy nor blocked |
| ScannerLabels.LabelSwitches | adapters/ui/scanner_ui.py:196-201 | scanning such a label and running its callback leaves that PO in use, the window idle and no model held |
| ScannerPos.LateVerdictCrossesPo | adapters/ui/scanner_ui.py:325-331 | a run in which a model is received on the wrong PO |
| ScannerOrder.TwoMatchesInFlight | adapters/ui/scan_states.py:131 | a stale timer lets two matches run at once |
| ScannerForms.TypedModelIsLearnedIff | adapters/ui/blocking_states.py:148-175 | a typed model is learned for the barcode asked about exactly when the last event to set the pending barcode set it to that one, as it has in NEEDS_MODEL |
| ScannerForms.TypedModelsAreLearnedIff | adapters/ui/blocking_states.py:148-175 | the same for all typed models of a run |
| ScannerForms.TypedModelLearnedForAnother | adapters/ui/blocking_states.py:148-175 | a run in which it is learned for another |
| ScannerForms.FormStaysOpenIff | adapters/ui/blocking_states.py:54-67 | the entry form is open whenever the window is in NEEDS_MODEL exactly when no check of a model typed there raises |
| ScannerForms.FailedCheckLosesForm | adapters/ui/blocking_states.py:157-178 | a check that raises leaves the window blocked with the form closed |

## Left out

- ClaimedIffReceived: a catalog may be loaded by refreshes before the first scan, but a refresh after a scan is excluded, since it erases claims; `ReceiptIsOfLastCommit` and `ClaimsAreExact` cover runs with any refreshes.
- ReceiptsMatchClaimsIff: refreshes likewise.
- ReceivePending: the ports start empty, so the k-th failure of a port is counted from the start of the pass.
- SHA-256 is an injective function to non-blank text; collisions of the hash itself are not modelled, collisions of the hashed text are.
- Text is ASCII: Unicode case folding, digits and white space are not modelled. Reading an ISO date is a parameter. Python's limit on the digits of an integer literal is not modelled.
- In the robot's items an absent, null or empty field is the empty text, as every use of one treats them.
- Columns created_at, updated_at and the JSON form of product_size; SQL parsing; table locking (each transaction is one atomic step).
- The regular expression on migration file names: a script enters the model with its version already read.
- The GraphQL transport of adapters/board.py and adapters/sink.py, and the portal adapters: their calls are oracles.
- Label printing, adapters/ui/controller.py beyond its four outcomes, widgets, colours, flashing, alarm, focus and logging.
- MID_SCAN_DIRECT in the window: scanner_runner.py:65 always wires a resolver, so the window never asks for it; `DispatchMeaning` still covers the decision.
- The key that keeps a dismissed sync alert quiet (adapters/ui/scan_states.py:191-198): the poll's decision to alert is an event.
- Parsing of the PO entry field (adapters/ui/scanner_ui.py:299-313): loaded POs arrive as events with non-empty digit strings.
- The needs_attention branch of process_scan is never reached from the records it builds; it is modelled in the sync pass.
- services/populate.py, adapters/sync_status_db.py, the runners and config.py: a guard, a one-row upsert and wiring.
