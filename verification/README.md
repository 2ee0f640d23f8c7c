# LearnLoop: a verified model of its hard parts

LearnLoop turns photographed exercises into a bank of practice problems. A teacher reviews what was
extracted, a student practises and sits exams, and a home page shows progress. This project models the
parts of it whose correctness depends on interleavings, on graph and text algorithms, or on two pieces of
code agreeing, and proves what they promise.

- **Review autosave** (`Review*.dfy`). The review page keeps a source buffer and a candidate buffer for each
  item; both share one server revision. `ReviewRefs` gives each event of the editor as a step on the refs of
  one item, `ReviewHook` is the editor itself with maps and sets keyed by buffer whose handlers take exactly
  those steps, and `ReviewServer` is the item as the repository stores it, with its revision checks.
  `ReviewWorld` runs one item of the editor against the server with any number of other writers, delayed and
  reordered snapshots, validations and save responses. `ReviewTheorems` holds the main results, `ReviewTests`
  what the editor could test, `ReviewLaws` further laws, `ReviewContents` what buffers, requests and stored
  items hold field by field, `ReviewProgress` the runs in which a save lands, and `ReviewFindings`,
  `ReviewRebase` and `ReviewExtraction` those in which an update is lost.
- **Exams** (`Exam*.dfy`). Saves, submissions, discards, grading workers and self-reports read first and write
  later; each Mongo transaction is one step. `ExamPromises` holds the results over all interleavings,
  `ExamAnswers` what becomes of a saved answer, `ExamFindings` the interleavings that break the running
  summary, the transition table and the per-problem counters, with runs from an empty database that lead to
  them.
- **Folders** (`Folder*.dfy`). The parent graph, the breadth-first closure over any such graph, create, move
  and delete over whole runs, the names of siblings, the tree and its recursive counts, and the browser's
  helpers.
- **Confirming a preview** (`Confirm*.dfy`). Any number of concurrent confirmers, one database step at a time,
  with failing inserts, enqueues, compensating deletes and roll backs, and with confirmers that disappear.
- **Choosing exam problems** (`Selection.dfy`, `Scores.dfy`, `Ranking.dfy`). Eligibility, scores, weighted
  sampling without replacement, and the order of candidates on the server and in the browser.
- **Formulas in text** (`LatexEscape.dfy`, `LatexRender.dfy`, `LatexFormulas.dfy`). The two delimiter
  patterns, the rendering loop, which text is a formula, and the HTML escaper.
- **Aggregates** (`Home.dfy`, `HomeCharts.dfy`, `SolutionTasks.dfy`, `SolutionService.dfy`). The home page's
  folds, histogram and calendar; solution tasks, their status and the list filter.

`Prelude.dfy` holds optional values and the two whitespace classes, `Sorting.dfy` stable sorting.
`dafny verify dfyconfig.toml` checks everything.

## What the code does not keep

Nine promises hold only under a condition. Each has a lemma that exhibits the failing runs and a lemma that
states the condition exactly.

An autosave overwrites content its user never saw in three ways. In general a save is safe exactly when all
that is stored at the revision it names means what was on screen (`ReviewTheorems.SaveLosesNothingIff`).

1. The edit was pinned on a version the buffer had not adopted. A snapshot drops the candidate buffer and an
   older snapshot, arriving late, puts the old candidate back on screen while the buffer's stamp is already
   the new one (`ReviewFindings.UnsafePinLosesCandidate`). The host that receives this is the problem page,
   which shows the answers to its polls as they come
   (`frontend/src/pages/ProblemVariantReviewPage.tsx:123-140`) and keeps a candidate the server does not have
   only while its status is failed. The wizard does not: it refuses a batch of a lower revision
   (`frontend/src/components/BulkIngestionWizard.tsx:142-151`), and every batch carries one
   (`backend/app/presentation/bulk_serialization.py:178`). A test on the editor's own data is exact
   (`ReviewTests.PinTestIsExact`); the editor does not make it.
2. The save of the sibling buffer moved the base on evidence older than the saved revision
   (`ReviewRebase.UnsafeRebaseLosesCandidate`). The wizard hands the batch of each response on as a snapshot
   before the save finishes (`frontend/src/components/BulkIngestionWizard.tsx:411-416`), which brings the
   evidence up to date unless that snapshot is refused. So the run takes another writer's version, read with
   the first response, whose clock reading is older than the buffers' stamps. Again a test is exact
   (`ReviewTests.RebaseTestIsExact`, for every response that moves a base by `ReviewTests.MovedBaseIsScene`); it
   needs the sibling's stamp at dispatch, which the editor does not keep with the save.
3. An extraction result replaced the source at the same revision between the edit and the save
   (`ReviewExtraction.ExtractionIsOverwritten`). For a sound pin this is the only way, and only when the last
   such result means something else (`ReviewTheorems.NoSilentLostUpdate`). The editor cannot see it coming.

When edits and rebases both pass their tests only the third is left (`ReviewTheorems.CarefulRunsLoseNothing`).

4. Generate can confirm a source that is not the one on the server when the snapshot on screen has a newer
   revision and an older clock reading than the buffer's stamp (`ReviewFindings.UnsafeGenerateLosesSource`);
   the exact condition is `ReviewLaws.DirectGenerateConfirmsIff`. One queued behind a save always confirms,
   up to extraction results (`ReviewLaws.QueuedGenerateConfirms`).
5. Two self-reports that both read an exam before either writes count an item twice
   (`ExamFindings.TwoReportsCountTwice`); the exact condition is `ExamConservation.SelfReportConservesExactly`.
6. A discard that is overtaken by a submission takes a counted exam from submitted to discarded
   (`ExamFindings.OvertakenDiscard`), which the transition table forbids. It leaves the table exactly when the
   exam is submitted by the time of the write (`ExamPromises.StepLeavesTableIff`), and breaks the counters
   exactly when the exam then has a resolved item of a stored problem (`ExamConservation.DiscardConservesExactly`).
7. Two grading workers of one exam can leave its running summary behind its items
   (`ExamFindings.TwoWorkersLeaveStaleSummary`); the exact condition is `ExamPromises.PersistSummaryExactly`.
8. A confirm that stops without running its error path leaves the preview confirmed for ever, possibly with
   no problem (`ConfirmTheorems.LostLookUpStrandsPreview`); when it has none is
   `ConfirmTheorems.QuietConfirmedLacksItsProblemIff`.
9. A regeneration between a worker's two writes puts a problem under none of the solution filters
   (`SolutionTasks.RegenerationBetweenWrites`); the exact condition is `SolutionTasks.FiltersPartition`.

The browser's order of a list sorted by date is the server's exactly when the rows of each
millisecond have their ids in the order of the list (`Ranking.ServerListSortedIff`). The folder handlers' own checks keep the names of
siblings apart except where one request renames and moves (`FolderNames.UpdateKeepsNamesIff`,
`FolderNames.RenameAndMoveClashes`).

## Model

| member | source | states |
|---|---|---|
| `ReviewServer.WriteIsLater` | backend/app/problem_variation.py:181-203 | No admitted write changes semantic content, or goes back a generation, without raising the revision, except an extraction result on an item with no variant requested, which counts as another reading. |
| `ReviewServer.RevisionMovesOnlyOnChange` | backend/app/infrastructure/ingestion/repository.py:628-680 | The revision moves exactly for a new generation or a semantic change of source or candidate (worker checkpoints and extraction results aside), so never for tags, formatting or worker progress; the readings move exactly for an extraction result of another meaning. |
| `ReviewServer.HistoryExtends` | backend/app/infrastructure/ingestion/repository.py:1278-1515 | A history of the stored item stays ordered by revision, reading and meaning whatever write the server admits next, extraction results included. |
| `ReviewWorld.SameRevisionSameMeaning` | backend/app/problem_variation.py:181-203 | Two states of an item at one revision and reading mean the same, for source and for a live candidate, wherever in the history they are read; the reading matters only while no variant is requested. |
| `ReviewTheorems.NoSilentLostUpdate` | frontend/src/components/BulkReviewStep.editing.ts:369-372 | In every interleaving of edits, reordered snapshots, own saves, other writers and extraction results, a save with a sound pin overwrites only what its user saw, including after a sibling rebase; for a source save exactly when no extraction result of another meaning was the last to land since the pin. |
| `ReviewTheorems.SaveLosesNothingIff` | frontend/src/components/BulkReviewStep.editing.ts:728-757 | For any admitted save, sound pin or not: it overwrites only what the user saw exactly when every live state of the revision it names, with the present extraction result, means that. |
| `ReviewTheorems.CarefulRunsLoseNothing` | frontend/src/components/BulkReviewStep.editing.ts:638-669 | When every edit is pinned on a draft meaning the adopted one, and every base a sibling save moves is moved on evidence of the saved revision or with the candidate still there, no save of the run loses an update, up to extraction results as above. |
| `ReviewTheorems.RunKeeps` | frontend/src/components/BulkReviewStep.editing.ts:401-758 | Every event keeps the invariant tying refs, in-flight saves, pins and queued Generates to the history of the stored item. |
| `ReviewSaves.ReturnHolds` | frontend/src/components/BulkReviewStep.editing.ts:570-708 | The save invariant survives a save response of either buffer, acknowledged, disowned, late or repeated. |
| `ReviewSaves.SoundRebase` | frontend/src/components/BulkReviewStep.editing.ts:642-669 | A sibling rebase that passes the test moves the pin to a version meaning what the user started from. |
| `ReviewTests.PinTestIsExact` | frontend/src/components/BulkReviewStep.editing.ts:369-372 | The test the editor can make before it pins an edit (an adopted draft that means what is shown) is passed exactly when, in every history the refs may stand for, all that is ever stored at that revision means what is shown. |
| `ReviewTests.AdoptedPassesTest` | frontend/src/components/BulkReviewStep.editing.ts:461-506 | A buffer showing an adopted draft with no failed validation left over passes that test. |
| `ReviewTests.RebaseTestIsExact` | frontend/src/components/BulkReviewStep.editing.ts:642-669 | The test for moving a sibling base (its stamp at dispatch has the saved revision, or the candidate save returned with its candidate) is passed exactly when, in every history with these revisions, the sibling means at the response what it meant when pinned; the code moves the base without it. |
| `ReviewTests.EvidenceBounded` | frontend/src/components/BulkReviewStep.editing.ts:728-757 | The sibling stamp at dispatch never names a later revision than the save, once the server has accepted the save: the bound under which the test is exact holds of every response. |
| `ReviewTests.MovedBaseIsScene` | frontend/src/components/BulkReviewStep.editing.ts:642-669 | Every owned response that moves a soundly pinned sibling base, in any reachable world, is one of the histories the test speaks of. |
| `ReviewSaves.SnapshotHolds` | frontend/src/components/BulkReviewStep.editing.ts:401-565 | The save invariant survives any snapshot of the history, however old, with its conflicts, resets and drops. |
| `ReviewFindings.UnsafePinLosesCandidate` | frontend/src/components/BulkReviewStep.editing.ts:370-372 | For every ready item, text edit and new candidate there is a run after which the server admits a save built on the re-shown old candidate, pinned by an edit that fails the test; it loses nothing only if the two candidates mean the same. |
| `ReviewFindings.UnsafeGenerateLosesSource` | frontend/src/components/BulkReviewStep.editing.ts:290-292 | For every item and every semantic edit of another writer stamped with an older clock there is a run in which Generate carries the old source at the new revision, and the server admits it. |
| `ReviewRebase.UnsafeRebaseLosesCandidate` | frontend/src/components/BulkReviewStep.editing.ts:654-664 | In every such scene, each response seen as a snapshot before its save finishes and the other writer's version refused for its older clock, all edits pass the test and every event before the second response is careful, yet the sibling rebase moves the candidate base and the admitted save overwrites the other writer's candidate. |
| `ReviewRebase.SceneIsStaged` | frontend/src/components/BulkReviewStep.editing.ts:654-664 | A concrete scene: a source respelled with spaces while another writer takes the candidate from a to b and back. |
| `ReviewExtraction.ExtractionIsOverwritten` | backend/app/infrastructure/ingestion/repository.py:628-680 | For every item with no variant requested, text edit and extraction result there is a careful run in which the result lands at the pinned revision and the admitted save overwrites it; nothing is lost only if it means what was shown. |
| `ReviewProgress.UndisturbedEditLands` | frontend/src/components/BulkReviewStep.editing.ts:717-758 | For every editable item without a graph and every edit of its source but one of graph or tags there is a careful run in which the save is admitted, the stored item holds the text, type, answer and subject the edit gives and what was shown in the fields it does not give, and the response leaves the buffer clean. |
| `ReviewRefs.EditTakesPatch` | frontend/src/components/BulkReviewStep.editing.ts:356-399 | An edit leaves in the edited buffer every field the patch gives and what was shown in every other; shared tags reach the sibling and nothing else of it changes; the save target is pinned to the version it was made on; a source locked by Generate takes no content. |
| `ReviewContents.EditReachesBuffer` | frontend/src/components/BulkReviewStep.editing.ts:356-399 | The same of every edit in every world, of the item on screen, with nothing else changed. |
| `ReviewContents.TimerSendsIff` | frontend/src/components/BulkReviewStep.editing.ts:717-757 | The timer sends exactly when the buffer has an edit with a blank graph, no conflict, rejection or validation, and no save of the item is out; it sends the whole draft against the pinned revision. |
| `ReviewContents.ValidDraftIsSentIff` | frontend/src/components/BulkReviewStep.editing.ts:776-811 | A validation answer sends exactly the validated draft if it is still shown and nothing is out; an invalid one marks it rejected, an unavailable one counts a failure. |
| `ReviewContents.SavedDraftIsShown` | frontend/src/components/BulkReviewStep.editing.ts:33-58 | Round trip: the item stored by an admitted save shows the sent draft in every field, for source and candidate, the tags as the server normalized them and the subject only of a source. |
| `ReviewContents.SaveSparesOther` | backend/app/infrastructure/ingestion/repository.py:1352-1515 | A save leaves the other target as it was; a source save of another meaning, and no other, withdraws the candidate. |
| `ReviewContents.GenerationRound` | backend/app/infrastructure/ingestion/repository.py:1278-1911 | A Generate confirms the reviewed source and starts a generation; claimed, checkpointed and judged it ends with the produced candidate and the verdict, and workers move neither revision nor generation; nothing else of the round is admitted meanwhile. |
| `ReviewContents.RevalidationRound` | backend/app/infrastructure/ingestion/repository.py:1518-1911 | An edited candidate is kept by its revalidation, which changes its state alone, or attested at once. |
| `ReviewContents.LeavingTheBatch` | backend/app/infrastructure/ingestion/repository.py:841-980 | A deleted item takes nothing but its restoration, which gives it back with work under way queued again; a submitted one takes nothing any more. |
| `ReviewContents.QuietBufferFollows` | frontend/src/components/BulkReviewStep.editing.ts:416-506 | A buffer with nothing of its own shows every snapshot not older in clock, revision or generation, and no other changes it. |
| `ReviewContents.EditedBufferConflictsIff` | frontend/src/components/BulkReviewStep.editing.ts:461-506 | An edited buffer with no save out keeps its draft and falls into conflict exactly when a current snapshot shows another revision or draft than it was edited on. |
| `ReviewContents.SnapshotWhileSavingKeeps` | frontend/src/components/BulkReviewStep.editing.ts:461-506 | While either buffer is being saved no snapshot of the generation puts an edited buffer in conflict or changes its draft. |
| `ReviewContents.EndedBufferIsEmpty` | frontend/src/components/BulkReviewStep.editing.ts:448-506 | Deletion or withdrawal empties a buffer of everything pinned, saved or failed; regeneration replaces it by the new candidate. |
| `ReviewContents.FailedSaveKeepsDraft` | frontend/src/components/BulkReviewStep.editing.ts:570-715 | A failed save leaves draft and pin; a revision mismatch is a conflict, anything else one more failure. |
| `ReviewContents.OwnResponseAdopts` | frontend/src/components/BulkReviewStep.editing.ts:570-702 | A response nothing has overtaken leaves the buffer at the revision, clock and draft it shows, without failures, clean if nothing was edited since and else pinned there with the edits. |
| `ReviewContents.ThirdDraftIsTaken` | frontend/src/components/BulkReviewStep.editing.ts:424-446 | A snapshot under the stamp of an acknowledged save that shows neither what was saved nor what was there before is taken. |
| `ReviewContents.OldDraftStaysAway` | frontend/src/components/BulkReviewStep.editing.ts:424-446 | A snapshot with the draft from before an acknowledged save, under the stamp it was acknowledged with, changes nothing. |
| `ReviewLaws.CleanBySavingIff` | frontend/src/components/BulkReviewStep.editing.ts:578-702 | A dirty buffer becomes clean by a save exactly when the response is current and successful, is not disowned, and finds the sent draft still in the buffer (candidate tags excepted while tags are pending). |
| `ReviewLaws.OnlyLandingCleans` | frontend/src/components/BulkReviewStep.editing.ts:578-702 | Over every event, a dirty buffer becomes clean only by the owned response to the save it waits for with the sent draft still in it, which always cleans it, or by a snapshot that ends its life. |
| `ReviewLaws.CleanMeansConfirmed` | frontend/src/components/BulkReviewStep.editing.ts:587-610 | Cleaned by a response with an item: the item shows the sent draft, one revision ahead at most, same generation, not deleted, and the local draft is the sent one. |
| `ReviewLaws.EmptyResponseCleans` | frontend/src/components/BulkReviewStep.editing.ts:587-612 | A response without an item cleans the buffer exactly when no newer revision or other generation has been seen. |
| `ReviewLaws.LocalTextSurvives` | frontend/src/components/BulkReviewStep.editing.ts:491-505 | No event but an edit replaces the draft of a dirty, saving, failed or conflicted buffer, and none lifts a conflict, until its target disappears or its candidate is regenerated. |
| `ReviewLaws.ConflictSendsNothing` | frontend/src/components/BulkReviewStep.editing.ts:728-731 | No event makes a conflicted buffer send a save. |
| `ReviewLaws.ConflictedTextSurvivesRuns` | frontend/src/components/BulkReviewStep.editing.ts:448-505 | Over whole runs a conflicted buffer keeps conflict and text while nobody edits it and its target lives. |
| `ReviewLaws.StampsNeverDecrease` | frontend/src/components/BulkReviewStep.editing.ts:74-86 | No event, acknowledgement or sibling rebase takes a buffer back in time stamp, revision or generation. |
| `ReviewLaws.StampsNeverDecreaseOverRuns` | frontend/src/components/BulkReviewStep.editing.ts:416-446 | The same over any run. |
| `ReviewLaws.OneSaveAtATime` | frontend/src/components/BulkReviewStep.editing.ts:578-585 | At most one save of an item is tracked, under a number that was sent, and a success or failure of any other call changes nothing. |
| `ReviewLaws.OnlyValidatedGraphsAreSaved` | frontend/src/components/BulkReviewStep.editing.ts:759-811 | Every save carries a blank graph or one that was found valid exactly as sent. |
| `ReviewLaws.GenerateFollowsClicks` | frontend/src/components/BulkReviewStep.editing.ts:241-295 | Each click sends at most one Generate, with the payload reviewed at that click; a queued one belongs to the last click, waits on a dirty source still showing that payload, and nothing else is under way. |
| `ReviewLaws.QueuedGenerateConfirms` | frontend/src/components/BulkReviewStep.editing.ts:686-699 | A Generate fired by a save response confirms its payload: after any further run in which the server can still admit it, the stored source means the payload, up to extraction results since. |
| `ReviewLaws.GenerateConfirmsReviewedSource` | frontend/src/components/BulkReviewStep.editing.ts:241-295 | The same for every Generate recorded as sound: fired by a response, or sent by a click that showed a source meaning what the snapshot said. |
| `ReviewLaws.DirectGenerateConfirmsIff` | frontend/src/components/BulkReviewStep.editing.ts:275-292 | Sent straight from a click, a Generate the server can still admit, with no extraction result since, confirms the stored source exactly when the draft on screen meant what the snapshot on screen said. |
| `ReviewLaws.TroubleCancelsGenerate` | frontend/src/components/BulkReviewStep.editing.ts:220-239 | A conflict, a rejected or unavailable validation, a failed save or a reset of the source leaves no Generate queued. |
| `ReviewHook.ReviewEditing.UpdateDraft` | frontend/src/components/BulkReviewStep.editing.ts:356-399 | An edit leaves the given fields in the buffer and the shown value in every other, shares tags, pins the save target, and touches no other item. |
| `ReviewHook.ReviewEditing.Reconcile` | frontend/src/components/BulkReviewStep.editing.ts:401-565 | The reconcile loop over all rows leaves every item on screen where observing its row takes it, and only drops pending tags of items that are gone. |
| `ReviewHook.ReviewEditing.FireTimer` | frontend/src/components/BulkReviewStep.editing.ts:717-760 | The debounce timer sends a blank-graph draft under the next number, starts a validation for any other, or does nothing, as the timer step says. |
| `ReviewHook.ReviewEditing.ValidationSettled` | frontend/src/components/BulkReviewStep.editing.ts:776-811 | A validation answer for anything but the current draft changes nothing but the validating mark; otherwise it sends under the next number, rejects or counts a failure. |
| `ReviewHook.ReviewEditing.Send` | frontend/src/components/BulkReviewStep.editing.ts:728-757 | Dispatch sends at most once, against the pinned revision, and records what the sibling showed. |
| `ReviewHook.ReviewEditing.FinishTrackedSave` | frontend/src/components/BulkReviewStep.editing.ts:570-715 | A save response is taken as the finishing step says, including conflict, acknowledgement, rebase, clean-up and the queued Generate; other items are untouched. |
| `ReviewHook.ReviewEditing.SettleSibling` | frontend/src/components/BulkReviewStep.editing.ts:638-669 | After an acknowledged save the dirty sibling is rebased or put in conflict, by the evidence in the response. |
| `ReviewHook.ReviewEditing.HandleGenerate` | frontend/src/components/BulkReviewStep.editing.ts:266-295 | A click is ignored while a Generate is under way, else fires at once on a clean idle source or waits for the save. |
| `ReviewHook.ReviewEditing.GenerateFinished` | frontend/src/components/BulkReviewStep.editing.ts:255-262 | When a Generate settles its item is unlocked and no other. |
| `Exams.GradeShortAnswer` | backend/app/exam_grading.py:76-144 | At most two calls, the second only after a retryable failure, and none for an unanswered item, which is wrong; a verdict decides status, correctness and score, and without one the item is left for review with none of them. |
| `Exams.ShortAnswerIsGradedBy` | backend/app/exam_grading.py:76-144 | A short answer is graded right or wrong exactly by the first verdict, or by the second after a retryable failure, and left for review exactly when there is neither. |
| `Exams.SummaryCounts` | backend/app/domain/scoring.py:5-25 | The summary holds the numbers of all, answered, correct, incorrect and pending positions; the score is the share of correct ones among those resolved, and absent when none is. |
| `Exams.TrackingKeepsLast` | backend/app/presentation/exams.py:465-485 | After tracking, the last verdict kept for a problem is that of its last resolved item. |
| `Exams.SynchronousGradingIsComplete` | backend/app/exam_grading.py:51-73 | An exam with no answered short-answer item is graded without any model reply: every item is right with score one or wrong with score zero, right exactly when it is objective and its stored answer matches the key. |
| `Exams.TrackingAddsTallies` | backend/app/presentation/exams.py:465-485 | The tracking loop adds to every stored problem exactly the numbers of its correct and incorrect items. |
| `Exams.UnchangedIsSameAnswers` | backend/app/presentation/exams.py:426-448 | The comparison by item id accepts exactly when all raw answers agree position by position. |
| `ExamTheorems.RunKeeps` | backend/app/presentation/exams.py:326-691 | Every interleaving, late discards included, keeps exams well-formed, operations consistent with what they read, tasks unique and at most one exam active. |
| `ExamPromises.SubmitFreezesWhatIsStored` | backend/app/presentation/exams.py:416-463 | A synchronous submission takes effect exactly when the stored items are the ones it graded; the submitted exam is those items graded, with their computed summary. |
| `ExamAnswers.SaveReads` | backend/app/presentation/exams.py:333-345 | A save goes on exactly for an exam in progress with that item; what it will write has the given raw answer in that item, also over an earlier one or as none, and every other field of every item as read. |
| `ExamAnswers.SaveStoresAnswer` | backend/app/presentation/exams.py:333-365 | With nothing in between, a save stores exactly that answer, with the summary of the items then stored, and changes nothing else. |
| `ExamAnswers.AnswersStayUnsaved` | backend/app/presentation/exams.py:346-357 | In every run no event but the write of a save of the exam changes a raw answer. |
| `ExamAnswers.LastSaveStays` | backend/app/presentation/exams.py:346-357 | After any run without a further save of the exam, in whatever state, the item holds the answer last saved and every other item what it held. |
| `ExamAnswers.SubmitTakesEffect` | backend/app/presentation/exams.py:399-578 | Submitted with nobody else about, an exam with no short answer given is graded at once, each item by its stored answer and key; any other is left to the workers with one new task and its items as they are. |
| `ExamAnswers.LastSaveIsSubmitted` | backend/app/presentation/exams.py:333-507 | What the student last saved is what is submitted and graded, whatever but another save happens in between. |
| `ExamPromises.AnswersFrozenOverRuns` | backend/app/presentation/exams.py:346-357 | Once an exam has left in-progress, no run changes its questions or raw answers; states move only along the transition table or, by a late discard, from submitted to discarded. |
| `ExamPromises.StepLeavesTableIff` | backend/app/presentation/exams.py:589-601 | One event takes an exam outside the transition table exactly when it is a discard written over an exam submitted since the discard read it. |
| `ExamPromises.StatesFollowTable` | backend/app/domain/state.py:85-102 | In every run without such a discard of the exam its state moves only along the transition table. |
| `ExamPromises.AtMostOneGradingTask` | backend/app/presentation/exams.py:518-568 | At most one grading task per exam: none in progress, exactly one while being graded. |
| `ExamPromises.OneActiveExam` | backend/app/presentation/exams.py:136-139 | Never more than one exam in progress or being graded. |
| `ExamPromises.SummaryMatchesItems` | backend/app/domain/scoring.py:5-25 | In progress and from submission on the stored summary equals the computed one, and a submitted exam has no ungraded item. |
| `ExamPromises.CountersEqualHistory` | backend/app/exam_grading.py:161-171 | In every interleaving whose self-reports are written over the items they read and whose discards are written before submission or over an exam that counted nothing, each problem's correct, failed and exposure counts equal its items over all submitted exams. |
| `ExamPromises.ResolvedOnceOverRuns` | backend/app/presentation/exams.py:629-647 | When self-reports are written over the items they read, an item resolved in a submitted exam keeps its grading for ever, even if the exam is discarded late: it is counted once. |
| `ExamPromises.PersistSummaryExactly` | backend/app/infrastructure/worker/exam_grading_worker.py:149-180 | A worker's write leaves the running summary right exactly when the other items have the result counts they had when it read them. |
| `ExamPromises.SummariesRightOverRuns` | backend/app/infrastructure/worker/exam_grading_worker.py:132-180 | When workers write over what they read, every stored summary of every exam is right throughout, whatever self-reports do. |
| `ExamConservation.SelfReportConservesExactly` | backend/app/presentation/exams.py:650-680 | A self-report keeps all counters right exactly when the exam is no longer submitted, where it does nothing, or, for every problem, the items it read hold as many correct and incorrect results as those stored. |
| `ExamConservation.DiscardConservesExactly` | backend/app/presentation/exams.py:589-601 | A discard keeps all counters right exactly when the exam is not submitted by the time it is written, or has no resolved item of a stored problem. |
| `ExamConservation.RunKeepsBooks` | backend/app/presentation/exams.py:465-485 | Every run whose self-reports and discards are written in time, as above, conserves the counters, through submission, overlapping workers, finalization, discard, creation and new problems. |
| `ExamFindings.TwoReportsCountTwice` | backend/app/presentation/exams.py:629-680 | Two reports of one item that both read before either writes add two exposures for one resolved item. |
| `ExamFindings.ItemForReviewOccurs` | backend/app/presentation/exams.py:510-691 | A run from an empty database leads to an exam from which `TwoReportsCountTwice` starts: submitted, with an item left for review. |
| `ExamFindings.OvertakenDiscard` | backend/app/presentation/exams.py:589-601 | A submission between the read and the write of a discard leaves the exam discarded and the counters wrong. |
| `ExamFindings.GradableExamOccurs` | backend/app/presentation/exams.py:399-507 | A run from an empty database leads to an exam from which `OvertakenDiscard` starts: in progress, gradable without the model. |
| `ExamFindings.TwoWorkersLeaveStaleSummary` | backend/app/infrastructure/worker/exam_grading_worker.py:149-180 | Two workers writing two results read before either write leave a summary that misses one. |
| `ExamFindings.LostLease` | backend/app/infrastructure/worker/exam_grading_worker.py:329-408 | A worker that lost its lease and its successor come to hold results for two items of one exam. |
| `ExamFindings.TwoOpenItemsOccur` | backend/app/presentation/exams.py:510-578 | A run from an empty database leads to an exam being graded with two open items, from which `LostLease` starts. |
| `ExamService.GradeItems` | backend/app/presentation/exams.py:408-413 | The grading loop grades every item in order, all terminal and none left for review. |
| `ExamService.CompareAnswers` | backend/app/presentation/exams.py:426-448 | The loop over a dictionary by id decides whether the answers are unchanged. |
| `ExamService.ExamStore.TrackItems` | backend/app/presentation/exams.py:465-485 | The loop over graded items updates the stored counters as the tracking fold says. |
| `ExamService.ExamStore.SubmitGraded` | backend/app/presentation/exams.py:399-507 | The submission transaction refuses with the right error or writes exam, summary and counters as one step. |
| `ExamService.ExamStore.FreezeExam` | backend/app/presentation/exams.py:510-578 | Freezing moves an exam to grading and inserts its task once; a frozen or submitted exam is left alone. |
| `ExamService.ExamStore.ReadAnswer` | backend/app/presentation/exams.py:333-345 | The search for the item and the copy of all items with its answer replaced, or the refusal, in order. |
| `ExamService.ExamStore.WriteAnswer` | backend/app/presentation/exams.py:339-365 | The conditional write of a save stores the items it carries, with their summary, only while the exam is in progress. |
| `ExamService.ExamStore.PersistResult` | backend/app/infrastructure/worker/exam_grading_worker.py:132-180 | The positional write of one grading with the summary computed at read time, only while grading. |
| `ExamService.ExamStore.FinalizeExam` | backend/app/infrastructure/worker/exam_grading_worker.py:205-284 | Finalization submits a graded exam without open items, with the summary of its items, tracks it and completes the owned task, once; any other exam is left alone. |
| `ExamService.ExamStore.WriteReport` | backend/app/presentation/exams.py:650-685 | The self-report transaction gives the reported item its verdict, score and mark, writes the other items as read, and moves the counters and last verdict of its problem by one. |
| `ExamService.ExamStore.CheckDiscard` | backend/app/presentation/exams.py:589-592 | A discard is refused for a missing exam or one that is not active, else it goes on to write. |
| `ExamService.ExamStore.WriteDiscard` | backend/app/presentation/exams.py:595-605 | The write goes by id alone: whatever the exam has become since the check it is discarded, items and summary untouched, and no other exam changes. |
| `FolderGraph.Descendants` | backend/app/presentation/helpers.py:95-119 | The batch-wise search ends on any parent graph, cyclic or dangling, and returns exactly the transitive descendants. |
| `FolderGraph.AcyclicIffRooted` | backend/app/presentation/helpers.py:95-119 | A parent graph has no cycle exactly when every chain of ancestors ends. |
| `FolderGraph.ReparentKeepsAcyclic` | backend/app/presentation/folders.py:283-295 | Changing the parent of one folder keeps the graph acyclic unless it goes under itself or one of its descendants. |
| `FolderStore.MoveRefusedExactlyForCycles` | backend/app/presentation/folders.py:294-300 | A move is refused as cyclic exactly when it would make a cycle. |
| `FolderStore.CreateFailsFor` | backend/app/presentation/folders.py:208-232 | A creation fails for its trimmed name, else its parent, else a sibling of that name in any case, in this order and for nothing else. |
| `FolderStore.RenameFailsFor` | backend/app/presentation/folders.py:264-276 | A renaming fails for a missing or foreign folder, else its trimmed name, else another folder of that name beside it when more than case changes. |
| `FolderStore.MoveFailsFor` | backend/app/presentation/folders.py:279-309 | A move fails for a missing or foreign folder or place, else for a cycle, else for another folder of its name there. |
| `FolderStore.StripTrims` | backend/app/presentation/folders.py:80-87 | A stored name is the given one without the space around it. |
| `FolderStore.FilingIsAllOrNone` | backend/app/presentation/problems.py:256-287 | Filing moves exactly the named problems, or none if the folder or one of them is missing, foreign or deleted. |
| `FolderStore.ProblemsComeAndGo` | backend/app/presentation/problems.py:432-449 | A new problem is live and unfiled; deleting marks only the user's own live problem. |
| `FolderNames.UpdateKeepsNamesIff` | backend/app/presentation/folders.py:264-309 | An update keeps sibling names apart exactly when it is not a renaming and a move at once to a place where the new name is taken. |
| `FolderNames.RunsKeepNames` | backend/app/presentation/folders.py:90-112 | Over every run in which no request renames and moves at once no two sibling folders of a user have one name, whatever its case. |
| `FolderNames.RenameAndMoveClashes` | backend/app/presentation/folders.py:299-309 | A folder renamed and moved at once comes to stand beside one of the same name. |
| `FolderStore.RunsKeepForest` | backend/app/presentation/folders.py:208-338 | Every run of create, rename, move, delete and filing by any users keeps a forest with no dangling parent and no live problem filed in a missing or foreign folder. |
| `FolderStore.ApplyKeepsSound` | backend/app/presentation/problems.py:256-287 | One request keeps that, filing and deleting problems included. |
| `FolderStore.FolderService.CreateFolder` | backend/app/presentation/folders.py:208-242 | Creation fails with the first error in order, or adds a folder of the trimmed name, the user and the place given, and nothing else. |
| `FolderStore.FolderService.CheckMove` | backend/app/presentation/folders.py:279-309 | The move checks in order, with the descendants found by search. |
| `FolderStore.FolderService.UpdateFolder` | backend/app/presentation/folders.py:257-313 | Rename and move fail with the first error in order and change nothing; on success the folder has the requested place and trimmed name, or the old ones, its owner, and stands below its new parent; every other folder and all problems are as before. |
| `FolderStore.FolderService.DeleteFolder` | backend/app/presentation/folders.py:317-338 | Deletion goes through exactly for the user's folder without subfolders and live problems, removes it and nothing else, and nothing is left dangling. |
| `FolderTree.DescentShrinks` | backend/app/presentation/folders.py:134-158 | Each level of the recursion leaves strictly fewer folders off the path, whatever the rest of the graph. |
| `FolderTree.TreeIds` | backend/app/presentation/folders.py:134-158 | The tree under a folder lists exactly its descendants in the list, each once; from the top, exactly the folders whose chain ends. |
| `FolderCounts.TreeListsEveryFolderOnce` | backend/app/presentation/folders.py:172-190 | In a sound store the tree lists every folder of the user exactly once. |
| `FolderCounts.TreeAddsUp` | backend/app/presentation/folders.py:115-131 | Every node at every depth counts its own live problems plus what its children count. |
| `FolderCounts.RootCountsConserve` | backend/app/presentation/folders.py:192-204 | Root counts and unfiled problems add up to all live problems. |
| `FolderCounts.CountInTree` | backend/app/presentation/folders.py:115-131 | The recursive count is the number of live problems filed in the folder or below it. |
| `FolderCounts.ListTree` | backend/app/presentation/folders.py:172-204 | The listing: all of the above for the tree actually built from the looped counts. |
| `FolderHelpers.SiblingsByName` | backend/app/presentation/folders.py:140-142 | Siblings are listed in the order of their names, lowered in ASCII. |
| `FolderHelpers.DescendantIds` | frontend/src/pages/ProblemsPage.folderHelpers.ts:13-20 | The loop over children collects exactly the ids of the subtree. |
| `FolderHelpers.BuildAncestorMap` | frontend/src/pages/ProblemsPage.folderHelpers.ts:34-42 | The visiting loops leave the map that visiting the forest in order defines. |
| `FolderHelpers.AncestorDescendantDuality` | frontend/src/pages/ProblemsPage.folderHelpers.ts:13-42 | On a tree with distinct ids, a is an ancestor of b in the map exactly when b is a descendant of the folder found for a. |
| `FolderHelpers.FlattenDepthIsAncestorCount` | frontend/src/pages/ProblemsPage.folderHelpers.ts:3-11 | A row is flattened at a depth equal to the number of its ancestors. |
| `FolderHelpers.BrowserAgreesWithServer` | frontend/src/pages/ProblemsPage.folderHelpers.ts:22-42 | Ancestors and descendants computed in the browser from the served tree are those of the folder collection. |
| `Confirm.BuildOriginQuery` | backend/app/presentation/problem_creation.py:159-167 | The query asks for exactly the origin fields that have a value, and is absent when none has. |
| `Confirm.PreviewQueryFindsItsProblems` | backend/app/presentation/problem_creation.py:86-90 | Looking up a preview's origin matches exactly the problems made from it, whatever other origins exist. |
| `Confirm.UnusedMeansFree` | backend/app/presentation/problem_creation.py:103-104 | A new problem gets an identity that no stored problem has and no confirmer holds. |
| `ConfirmTheorems.RunKeeps` | backend/app/presentation/ingestion.py:341-405 | Every interleaving of database steps, failures and disappearances keeps the claim invariant. |
| `ConfirmTheorems.ConfirmIsExclusive` | backend/app/presentation/ingestion.py:341-355 | No interleaving leaves two problems made from one preview, or two confirms of it under way or successful. |
| `ConfirmTheorems.SuccessMeansConfirmed` | backend/app/presentation/ingestion.py:393-405 | After a successful return the preview is confirmed for ever, by that one problem. |
| `ConfirmTheorems.ProblemIffKept` | backend/app/presentation/problem_creation.py:134-156 | At every point of every run a problem of a preview is there exactly when some confirmer of it has landed its insert and not its delete. |
| `ConfirmTheorems.QuietConfirmedLacksItsProblemIff` | backend/app/presentation/ingestion.py:341-405 | A confirmed preview with no confirm under way has no problem exactly when every insert for it failed to land or was deleted, and a confirmer was lost before an insert or after a delete; lost before its insert there is none, lost after it there is one. |
| `ConfirmTheorems.QuietConfirmedHasItsProblem` | backend/app/presentation/ingestion.py:341-405 | A confirmed preview with no confirm under way and none lost has exactly one problem, which some confirm returned. |
| `ConfirmTheorems.RefusalRestores` | backend/app/presentation/ingestion.py:393-404 | A refused confirm gives the preview back in the claimable state it took it from. |
| `ConfirmTheorems.AbandonedForEver` | backend/app/presentation/ingestion.py:341-380 | A preview left confirmed by a lost confirmer stays so for ever with the problems it has. |
| `ConfirmTheorems.LostLookUpStrandsPreview` | backend/app/presentation/problem_creation.py:86-90 | For every confirmable preview without a problem there is such a run: the look-up raises and no later run ever makes a problem from it. |
| `ConfirmService.DriveIsRun` | backend/app/presentation/problem_creation.py:134-156 | A confirm left alone is one of the interleavings. |
| `ConfirmService.AloneIsRun` | backend/app/presentation/ingestion.py:332-405 | A whole request with nobody else about is a run of the model from the claim on, for every pattern of failing calls, and it ends returned, refused or lost. |
| `ConfirmService.AloneReturnsExisting` | backend/app/presentation/problem_creation.py:86-101 | With a problem of the preview already there, such a request returns one of them and inserts nothing. |
| `ConfirmService.UndisturbedConfirm` | backend/app/presentation/ingestion.py:332-405 | With no failing call and no problem yet, a complete draft becomes one new problem of the user and preview, which is then confirmed; any other is refused for its defect and everything is as before. |
| `ConfirmService.DraftFailsIff` | backend/app/presentation/problem_creation.py:43-70 | A draft is refused exactly for a bad graph, a text or answer that is absent or space, a missing type, or one that is not among the four, in the order of the checks. |
| `ConfirmService.PreviewStore.ClaimPreview` | backend/app/presentation/ingestion.py:341-355 | Compare-and-set: claimed exactly when owned and ready or failed, the former document handed back, every other preview unchanged. |
| `ConfirmService.PreviewStore.InsertProblem` | backend/app/presentation/problem_creation.py:134-156 | Insert, enqueue and tags; anything raised after the insert began deletes the problem again. |
| `ConfirmService.PreviewStore.CreateProblem` | backend/app/presentation/problem_creation.py:20-156 | Validation, look-up by origin, then a problem the look-up finds whenever there is one, else a new problem, for every pattern of failing calls. |
| `ConfirmService.PreviewStore.ConfirmPreview` | backend/app/presentation/ingestion.py:332-405 | The endpoint for every pattern of failing calls does what the lone request does, with a problem of the preview found whenever there is one; that is a run of the model, and it comes to an end. |
| `Selection.GetEligible` | backend/app/domain/selection.py:34-58 | The loop keeps exactly the eligible problems, in order. |
| `Selection.FailureScoreGrows` | backend/app/domain/selection.py:90-101 | The failure score never falls with a further failure across all its branches, and its sign compares failures with correct answers. |
| `Scores.LastAttemptCounts` | backend/app/domain/selection.py:72-111 | The whole score after a wrong last attempt exceeds that after a right one by 1.5 last-wrong weights and (0.5 + days/30 - days/40) recency weights; an undecided one lies between by the stated amounts. |
| `Scores.WrongAnswersComeBack` | backend/app/domain/selection.py:72-111 | With weights that are not negative a wrong last attempt never scores less than an undecided one nor that less than a right one. |
| `Scores.LastWrongWeightCounts` | backend/app/domain/selection.py:103-111 | The last-wrong weight counts twice after a wrong attempt, half after a right one, once after an undecided one or none. |
| `Scores.OneMoreDay` | backend/app/domain/selection.py:72-88 | One more day adds a twentieth, fortieth or thirtieth of the recency weight, by the status of the problem. |
| `Scores.FirstDay` | backend/app/domain/selection.py:72-88 | On its first day a problem has one, none or half a recency weight, by its status. |
| `Scores.CountsCount` | backend/app/domain/selection.py:90-101 | The counts add the failure weight times the quotient when failures lead over at least one right answer, else times the signed root of the difference. |
| `Scores.ScoreIsFloored` | backend/app/domain/selection.py:113-118 | The score is the sum of its parts where that is positive and zero elsewhere, and keeps the order of the sums. |
| `Scores.EligibleFromThen` | backend/app/domain/selection.py:34-58 | A usable problem is eligible exactly from the moment it is old enough and has rested long enough, and stays so. |
| `Selection.PickIndex` | backend/app/domain/selection.py:147-153 | The cumulative loop picks the first index whose prefix sum reaches the draw. |
| `Selection.DrawPicksItsShare` | backend/app/domain/selection.py:142-153 | A draw picks a candidate exactly when it lies in that candidate's prefix-sum share, whose width is its weight over the total. |
| `Selection.WeightedSample` | backend/app/domain/selection.py:127-157 | The sampling loop selects what drawing and removing one candidate at a time selects. |
| `Selection.SampleSplits` | backend/app/domain/selection.py:127-157 | Selected and remaining are a permutation of the candidates; as many are selected as asked for, or all. |
| `Selection.SelectProblems` | backend/app/domain/selection.py:160-184 | The selection is duplicate-free, takes only eligible problems of positive score, and has length min(count, number of those). |
| `Ranking.SecondPassKeepsFirst` | backend/app/domain/selection.py:237-240 | A stable pass by key over a list in id order orders it by key and, among equals, by id. |
| `Ranking.RankIsTheOrder` | backend/app/domain/selection.py:226-240 | The ranking is the only arrangement by key in the requested direction with ids ascending among equals. |
| `Ranking.RankedByColumn` | backend/app/domain/selection.py:226-240 | Of two rows of the ranking the one in front has the smaller score, date, right or failed count, as the column says, or the larger in descending order, and of equal ones the smaller id. |
| `Sorting.LexByFirstDifference` | backend/app/domain/selection.py:239-239 | Ids go by the first character they differ in, a prefix before what it begins. |
| `Ranking.RankEligible` | backend/app/domain/selection.py:190-240 | The ranked rows are exactly the eligible kept problems with their scores, in that order. |
| `Ranking.BrowserOrderIsServerOrder` | frontend/src/components/CreateExamModal.tsx:143-152 | Any ticked rows sorted with the browser's comparator are the corresponding part of the server's list; by date, when the rows of each millisecond agree in date and id, as they do for dates of whole milliseconds. |
| `Ranking.ServerListSortedIff` | frontend/src/components/CreateExamModal.tsx:36-42 | For any rows the server's list is in the browser's order exactly when, sorting by date, every two rows of one millisecond have their ids in the order of the list. |
| `Ranking.WithinOneMillisecond` | frontend/src/components/CreateExamModal.tsx:36-42 | Two rows added within one millisecond are ordered differently exactly when date and id point different ways. |
| `LatexEscape.EscapeJoins` | frontend/src/components/LatexText.tsx:112-118 | The four passes distribute over concatenation. |
| `LatexEscape.EscapeIsPerCharacter` | frontend/src/components/LatexText.tsx:112-118 | The four passes are one map over the characters. |
| `LatexEscape.EscapeIsReversible` | frontend/src/components/LatexText.tsx:112-118 | Escaped text can be read back. |
| `LatexEscape.EscapeIsInjective` | frontend/src/components/LatexText.tsx:112-118 | No escaped text stands for two texts. |
| `LatexEscape.OnlyBreaksAreTags` | frontend/src/components/LatexText.tsx:112-118 | Every angle bracket of an escaped text belongs to a line break. |
| `LatexRender.EnginesReturnFirst` | frontend/src/components/LatexText.tsx:48-49 | The two searches return the leftmost match and of those the lazy one, or there is none. |
| `LatexRender.IndexOfMatchIsItsPosition` | frontend/src/components/LatexText.tsx:54-78 | The first occurrence of the matched text is the match position. |
| `LatexRender.FindFormula` | frontend/src/components/LatexText.tsx:48-84 | One round decides by the two indices as the earlier match, display first, with the money and neighbour rules. |
| `LatexRender.SegmentsLoseNothing` | frontend/src/components/LatexText.tsx:43-110 | The slices the loop consumes concatenate to the text. |
| `LatexRender.FormulasAreMatches` | frontend/src/components/LatexText.tsx:48-49 | Every slice rendered as a formula is by itself a match of its pattern. |
| `LatexFormulas.FirstInlineFormula` | frontend/src/components/LatexText.tsx:11-41 | For any text: what stands between its first two single dollar signs on a line is a formula exactly when it is no amount of money and only space or the listed punctuation stands beside them; otherwise the first sign is text and the search goes on behind it. |
| `LatexFormulas.FirstDisplayFormula` | frontend/src/components/LatexText.tsx:48-49 | What stands between two double dollar signs is a displayed formula whatever it is and whatever stands beside it. |
| `LatexFormulas.TrimmedMoneyIffAmount` | frontend/src/components/LatexText.tsx:22-33 | The money test on trimmed text is passed exactly by digits, digits with two decimals, or text that begins with one to three digits, a comma and three digits, with any space around. |
| `LatexFormulas.AmountStaysText` | frontend/src/components/LatexText.tsx:27-33 | An amount between dollar signs leaves no formula in its text. |
| `LatexFormulas.LettersAreNoAmount` | frontend/src/components/LatexText.tsx:27-33 | Text with a character other than digits, point, comma and space is no amount unless it begins with grouped thousands. |
| `LatexFormulas.LetterBesideMakesText` | frontend/src/components/LatexText.tsx:34-39 | A letter or digit directly before or after the signs makes the first of them text. |
| `LatexFormulas.PageOfFirstFormula` | frontend/src/components/LatexText.tsx:90-107 | The page of any text through its first formula: the text before escaped, the trimmed content rendered in its wrapper, or the slice escaped when the renderer throws, then the page of the rest. |
| `LatexRender.RenderLatex` | frontend/src/components/LatexText.tsx:43-110 | The loop ends and produces the page of the segments. |
| `LatexRender.FailingRendererLosesNothing` | frontend/src/components/LatexText.tsx:96-106 | If no formula renders, the page is the escaped text, from which the text can be read back. |
| `LatexRender.PlainTextIsEscaped` | frontend/src/components/LatexText.tsx:70-73 | Text without a dollar sign is escaped and nothing else. |
| `Home.FirstPassIs` | backend/app/presentation/home.py:170-179 | First pass is the earliest time of any attempt and whether some attempt at that time was correct. |
| `Home.FirstPassIgnoresOrder` | backend/app/presentation/home.py:170-179 | First-pass marks do not depend on the reading order. |
| `Home.MasteryIs` | backend/app/presentation/home.py:160-168 | Mastery is the latest decided attempt, of several at that time the one read first. |
| `Home.MasteryIgnoresOrderIff` | backend/app/presentation/home.py:160-168 | Mastery is independent of the reading order exactly when the decided attempts at the latest time agree. |
| `Home.Tally.Consider` | backend/app/presentation/home.py:181-217 | One attempt at an active problem updates the tried set and both folds together. |
| `Home.CountAttempts` | backend/app/presentation/home.py:181-233 | The counts are those of the folds over practice and exam items; mastered and first-pass correct are at most tried, tried at most total. |
| `HomeCharts.CountBuckets` | backend/app/presentation/home.py:90-109 | The counting loop holds, for every bucket and category, the number of valid problems in it. |
| `HomeCharts.CategoryMeansEligible` | backend/app/presentation/home.py:85-108 | The categories against the sampler: a usable problem cooling down cannot be picked, one never tested and old enough can, and any other exactly when its age is no matter or reached. |
| `HomeCharts.CategoryInTime` | backend/app/presentation/home.py:85-108 | A tested problem cools down for exactly the configured days, one never tested is too young for exactly the minimum age, and a tested one is never too young. |
| `HomeCharts.BucketHolds` | backend/app/presentation/home.py:99-99 | A bucket holds exactly the unfloored scores from its start up to the next; a problem that can be picked is in none below zero. |
| `HomeCharts.ScoreDistribution` | backend/app/presentation/home.py:75-126 | Contiguous buckets from lowest to highest raw score, every valid problem in exactly one category of its bucket, and all of them counted. |
| `HomeCharts.ActivityDays` | backend/app/presentation/home.py:234-270 | One entry for each of 365 days in order, each the number of attempts at active problems on that local day. |
| `SolutionTasks.RunKeeps` | backend/app/solution_generation.py:91-136 | Over every run at most one task per problem; a ready task has its solution when workers finish in one step. |
| `SolutionTasks.FilterMatchesStatus` | backend/app/presentation/problems.py:78-124 | A live problem is listed under a state exactly when that is its status, unless its task is ready without a solution. |
| `SolutionTasks.FiltersPartition` | backend/app/presentation/problems.py:452-474 | The five filters agree with every status exactly when no live problem has a ready task without a solution. |
| `SolutionTasks.FiltersPartitionOverRuns` | backend/app/presentation/problems.py:78-124 | They agree after every run in which workers finish in one step. |
| `SolutionTasks.SecondBackfillAddsNothing` | backend/app/solution_generation.py:139-178 | After a backfill every live problem has a task or a solution, and a second backfill adds none. |
| `SolutionTasks.RegenerateMakesPending` | backend/app/solution_generation.py:203-263 | A regeneration makes the problem pending exactly when at most one solution was stored. |
| `SolutionTasks.RegenerationBetweenWrites` | backend/app/infrastructure/worker/solution_worker.py:98-112 | A regeneration between a worker's insert and its ready mark leaves the problem under no filter. |
| `SolutionService.SolutionStore.EnqueueTask` | backend/app/solution_generation.py:91-136 | A task is created exactly when there is neither task nor solution, and afterwards there is one of them. |
| `SolutionService.SolutionStore.Backfill` | backend/app/solution_generation.py:139-178 | The chunked loop inserts exactly the missing tasks for any batch size and returns their number. |
| `SolutionService.SolutionStore.RegenerateTask` | backend/app/solution_generation.py:203-263 | A solution is deleted and the task reset or created, or a failed task reset; anything else is refused unchanged. |

## Left out

- React rendering, hook timing, debounce and backoff delays, the vision model, object storage, HTTP, authentication and the database driver. Timers, validations, responses and snapshots arrive as events in any order; database calls fail as events or parameters.
- ReviewTheorems.NoSilentLostUpdate: one item at a time; items share nothing on the page but the counter of save numbers, which another item's save may advance at any time.
- The item states queued, extracting, ready and failed are one editable state: an extraction result may land on any editable item with no variant requested.
- Batches in original mode, whose draft endpoint takes no revision; submission, reservations and expiry of batches; attestation is admitted for any verdict.
- The review page's problem sessions, in which a candidate buffer outlives the server's candidate: `Reconcile` takes the choice as a parameter, the runs use the batch case.
- The copies the editor keeps of one set in state and in a ref, and the in-flight entry with the saving set, count as one field each; equality of serialized drafts is equality of drafts; tags are stored in any normal form the server chooses.
- The editor's attest, revalidate, delete and submit handlers, which only call the server.
- The time an answer was saved at, feedback text, model names and raw replies of exam items, and the time a problem was last tested.
- Concurrent saves of one exam: items are rewritten whole from an earlier read, so a save can undo another; only submission is protected against that.
- Exam creation's transaction, folder requests, solution requests, and preview edits and retries racing a confirm are one step each.
- Exams and folders of other users enter only where the code looks at them: an exam store belongs to one user.
- FolderHelpers.SiblingsByName: letters are lowered in ASCII only, where the source lowers all of Unicode.
- FolderStore.FolderService.UpdateFolder: names are compared in ASCII case, and the unique index that refuses what the handler's own checks let through is not part of this model.
- Ids that do not parse, the length limits of the request schemas, creation and update times of folders.
- Confirm: the fallback for stores without an atomic find-and-update, and the ownership guard of bulk submission.
- Selection.FailureScoreGrows: square roots are any function with that property, scores and weights exact reals; floating-point rounding is not modelled.
- Ranking.RankEligible: the keyword search is an arbitrary choice of problems.
- Percentages on the home page, the mapping of instants to local days (an arbitrary function), and document parsing (a document is a problem or nothing).
- Stored solutions' contents and context hashes, retries and time-outs of solution workers (any change of progress but to ready).
- Practice tracking, tags, serialization, pagination, normalization of answers (an arbitrary comparison), and the graph language.
