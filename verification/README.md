# Collateral inspections: a verified model

A bank sends inspectors to properties that secure its loans. An inspection is assigned, paid for by the property
owner through mobile money, captured in the field (often offline), submitted, reviewed by somebody else, approved,
and turned into a numbered PDF report. This project models the logic behind that in Dafny and proves what it keeps
over whole runs.

Each part has a specification made of functions from a stored state and a request to the new state and the reply,
a class whose methods update fields step by step as the service does and are proved equal to those functions, and
lemmas about all runs of them. Beside its function every handler states, in terms of the stored fields and the request
alone, exactly when it accepts and what the rows are afterwards; the predicates for that are in the two files of rules
and are used by no handler. The records of inspections and the account tables carry the invariant of those runs as
`Valid()`, which every public method keeps.

| file | contents |
|---|---|
| `Text.dfy` | trimming, blank tests and case mapping |
| `StateMachine.dfy` | the transition table, its evaluation, legal paths |
| `Completeness.dfy` | visibility rules, field checks, counting; the loops proved equal to a declarative definition |
| `Content.dfy` | what an inspector captures, the edits to it, and the submission gate over it |
| `Fees.dfy`, `FeeInterleaving.dfy`, `FeePrompts.dfy` | the fee protocol with atomic handlers, and split at every `await` |
| `Inspections.dfy`, `InspectionRules.dfy`, `InspectionService.dfy`, `Lifecycle.dfy` | one inspection: handler functions, when each accepts and what it leaves, the record that is updated in place, the theorems over runs |
| `Sync.dfy` | offline batches under optimistic concurrency |
| `Numbering.dfy` | inspection numbers, found by string order |
| `Reports.dfy`, `ReportRuns.dfy`, `ReportFailures.dfy` | report versions over a store that writes a key only when it is absent, with and without failures |
| `Example.dfy` | one inspection followed to its report, and a batch sent twice |
| `Accounts.dfy`, `AccountRules.dfy`, `AccountService.dfy`, `AccountRuns.dfy` | sessions, refresh-token rotation, password resets, lockout |

Handlers are atomic everywhere except in `FeeInterleaving` and `FeePrompts`, where threads stop at every `await`,
answers get lost, and webhooks are late, repeated, reordered or unknown.

## Where the code differs from its own documentation

- Refresh (src/auth/auth.service.ts:156-163) promises that presenting a spent token revokes its whole family.
  Rotation marks a spent token revoked as well (237-240), so the first check (179) refuses it and the revocation
  (186-214) is never reached. `AccountRuns.SpentTokensAreOnlyRefused` proves that nothing changes, and that the
  family ends up revoked exactly when its session had been ended before; `AccountRuns.ReplayLeavesTheSessionOpen`
  is a run in which the successor of the replayed token goes on refreshing.
- Synchronisation (src/sync/sync.service.ts:16-22) promises that replaying an operation returns DUPLICATE. That result
  is never produced and operation ids are not stored. Under base versions replay changes nothing
  (`Sync.ReplayIsNoOp`, `Sync.ResendingIsHarmlessIff`). A location reading without one is stored once more with every
  replay, and nothing else is, also in batches that mix both: `Sync.ReplayKeepsContentIff` is the exact condition,
  `Example.AReadingIsStoredTwice` a case.
- SUCCESSFUL is absorbing for atomic handlers (`Fees.SuccessIsAbsorbing`) but not between awaits:
  `FeeInterleaving.SuccessLastsIff` says for which states it lasts and `FeeInterleaving.SuccessCanBeOverwritten` is a run
  that loses it. Work still never starts unpaid (`FeeInterleaving.NoWorkWithoutPayment`).
- A request promises not to charge the owner twice (src/payments/payments.service.ts:66-72), but its guard lets a
  PENDING row pass (100-108), and the row is PENDING for as long as the provider is being called.
  `FeePrompts.NoFurtherPromptIff` says from which states no further prompt can follow;
  `FeePrompts.TappingAgainPromptsAgain` and `FeePrompts.OwnerCanBePromptedTwice` are runs with two.
- A report's checksum describes the stored bytes only while keys are fresh (`ReportRuns.ChecksumHoldsIffKeyWasFree`);
  a row that is lost after its document was stored makes the next report record a wrong checksum exactly when that
  renders other bytes (`ReportRuns.LostDraftSpoilsNextIff`, `LostOfficialSpoilsNextIff`, `LostRefreshSpoilsNextIff`;
  over whole runs `ReportFailures.RowsMatchIffPutsAreClean`).
- After a million inspections of one year the search for the latest number finds 999999 for ever, and every further
  creation breaks the unique constraint (`Numbering.RefusedAfterAMillion`).
- 100 per cent completeness can be shown with something missing once 200 items are asked for
  (`Completeness.HundredPercentMisleadsIff`, `Completeness.HundredPercentCanMislead`).

## Model

| member | source | states |
|---|---|---|
| `Text.BlankMeansOnlySpace` | src/inspections/domain/completeness.ts:12 | a text trims to nothing exactly when it holds only white space, which is what counts as unanswered |
| `Text.CaseMappingsForgetCase` | src/inspections/domain/completeness.ts:14 | two texts have the same upper (or lower) form exactly when they differ in the case of letters only, and the form has no letter of the other case |
| `Text.TrimKeepsTheMiddle` | src/inspections/domain/completeness.ts:12 | trimming takes only white space off, from both ends, and as much of it as there is |
| `StateMachine.ApprovalIsFinal` | src/inspections/domain/inspection-state-machine.ts:40-119 | along every legal path of the table an approved inspection stays approved, report-generated or archived to the end |
| `StateMachine.ApprovalPassesThroughReview` | src/inspections/domain/inspection-state-machine.ts:40-119 | every legal path from assignment to an approved record contains an approval out of a review status |
| `StateMachine.ArchivingRule` | src/inspections/domain/inspection-state-machine.ts:113-118 | archiving is allowed exactly for rejected and reported inspections, by whoever holds its permission |
| `Completeness.EqualsRuleMeans` | src/inspections/domain/completeness.ts:14-15 | a rule with an expected text alone matches a text answer exactly when the two agree up to the case of letters, a list exactly when it holds the text, and a missing answer exactly when it expects nothing |
| `Completeness.BoundRulesMean` | src/inspections/domain/completeness.ts:15 | a bound alone matches exactly the numbers on its side, never anything else |
| `Completeness.ListRulesMean` | src/inspections/domain/completeness.ts:15 | `all` is conjunction, `any` disjunction, an empty given `any` never matches, and a rule that asks nothing always does |
| `Completeness.RulesAreConjunctions` | src/inspections/domain/completeness.ts:15 | every rule tree is the conjunction of the single tests above |
| `Completeness.AnsweredMeans` | src/inspections/domain/completeness.ts:12 | a field is answered by a text with a character that is not white space, any number, date or truth value, or any JSON but null and the empty list |
| `Completeness.LastRowCounts` | src/inspections/domain/completeness.ts:17 | of several rows of one field the last counts |
| `Completeness.LastFieldAnswers` | src/inspections/domain/completeness.ts:17 | of several fields with one code the last that has a row answers for it |
| `Completeness.ValuationMeans` | src/inspections/domain/completeness.ts:20-21 | a valuation is known from its own row or from the first field of either total |
| `Completeness.VisibilityDependsOnNamedCodes` | src/inspections/domain/completeness.ts:15 | two answer sets that agree on the codes a rule tree names make it match alike |
| `Completeness.RaisingKeepsMinimums` | src/inspections/domain/completeness.ts:15 | raising a number never falsifies a rule tree whose only tests on that field are minimums |
| `Completeness.IndexValues` | src/inspections/domain/completeness.ts:17 | the loop over submitted values leaves the last value of every field id |
| `Completeness.IndexCodes` | src/inspections/domain/completeness.ts:17 | raw values by field code, over the sections in order |
| `Completeness.CheckField` | src/inspections/domain/completeness.ts:16 | the issues of one filled field: length, range and pattern bounds in the order they are tested |
| `Completeness.CheckFields` | src/inspections/domain/completeness.ts:17 | the loop over fields yields exactly the issues, and counts exactly the demands and the met ones, of the visible fields |
| `Completeness.CheckAssessments` | src/inspections/domain/completeness.ts:18 | the same for unrated assessments |
| `Completeness.CheckPhotos` | src/inspections/domain/completeness.ts:19 | the same for required photo counts |
| `Completeness.CheckClosing` | src/inspections/domain/completeness.ts:20-22 | the same for valuation, in either form, and location |
| `Completeness.EvaluateCompleteness` | src/inspections/domain/completeness.ts:17-22 | the whole evaluation: `complete` holds iff every visible required field has a value, every visible filled field keeps its bounds, every assessment is rated, every required photo count is met, and valuation and location exist; an issue is reported exactly when it is warranted; a required, unanswered field that is asked for when another answer equals a text is reported missing exactly when the two agree up to case; issues and percentage are those of the declarative facts |
| `Completeness.CompleteMeansNoIssue` | src/inspections/domain/completeness.ts:17-22 | the issue list is empty exactly when the declarative definition holds |
| `Completeness.IssuesExplained` | src/inspections/domain/completeness.ts:16-21 | each of the ten kinds of issue is on the list exactly when its reason exists: a visible required field without an answer, an answer outside one given bound, an unrated assessment, a required photo rule with too few photographs, no valuation, no location |
| `Completeness.AskedExactlyIfEqual` | src/inspections/domain/completeness.ts:14-17 | a required, unanswered field behind an equals rule is missing exactly when the controlling text answer agrees with the expected one up to case |
| `Completeness.DemandsAreCounted` | src/inspections/domain/completeness.ts:17-21 | the total is the number of visible required fields, of assessments and of required photo rules, and two for valuation and location |
| `Completeness.MissingItemsAreCounted` | src/inspections/domain/completeness.ts:17-22 | total minus satisfied is the number of missing-item issues; bound violations are not counted |
| `Completeness.PercentIsNearest` | src/inspections/domain/completeness.ts:22 | the percentage is the nearest whole number to 100 * satisfied / total, halves up, and 100 for no demands |
| `Completeness.PercentIsHonest` | src/inspections/domain/completeness.ts:22 | the rounded percentage stays in 0..100 and is 100 exactly when at most one demand in 200 is unmet |
| `Completeness.HundredPercentMeans` | src/inspections/domain/completeness.ts:22 | complete implies 100, and below 200 demands 100 means that nothing is missing |
| `Completeness.HundredPercentMisleadsIff` | src/inspections/domain/completeness.ts:22 | 100 is shown with something missing exactly when 0 < 200 * missing <= total |
| `Completeness.HundredPercentCanMislead` | src/inspections/domain/completeness.ts:18-22 | 198 rated assessments, a valuation and no location: 199 of 200, shown as 100 |
| `Completeness.UnaskedFieldsLeaveTotalFixed` | src/inspections/domain/completeness.ts:15-17 | changing fields that no rule names changes no visibility and leaves the total fixed |
| `Content.PutValuesStores` | src/inspections/inspections.service.ts:523-553 | after an upsert of entries the last entry of every field of the form is stored, and every other value is as before |
| `Content.ApplyWrites` | src/inspections/inspections.service.ts:523-736 | each edit writes its part of the content as given and leaves all other parts and rows alone; an assessment that exists keeps its name and place |
| `Content.SeedsMean` | src/inspections/inspections.service.ts:306-320 | a new inspection has one unrated assessment row for each assessment section, with its name and place |
| `Content.SectionsThatApply` | src/inspections/inspections.service.ts:1061-1088 | which sections the gate leaves out, and no others: those of buildings and annexes for land, the land valuation for anything else, and the vacant land of a residential property; land is told by the type of the property or by the status answered last |
| `Content.ReadyMeans` | src/inspections/inspections.service.ts:1056-1128 | the gate opens exactly when no visible field of a section that applies is required and unanswered or out of its bounds, every assessment is rated, a valuation and a reading are there, and every required category has its photographs |
| `Content.CountPhotos` | src/inspections/inspections.service.ts:1056-1059 | the counting loop yields, per category, the number of live photographs |
| `Content.ComputeCompleteness` | src/inspections/inspections.service.ts:1015-1128 | whatever order the rows are loaded in, the result is complete exactly when the captured content is ready to submit |
| `Content.GateDependsOnContentOnly` | src/inspections/inspections.service.ts:1056-1128 | the loaded rows are complete exactly when the content they list is, over the sections that apply to the property |
| `Fees.FeeStepHandles` | src/payments/payments.service.ts:73-351 | what request, delivery and poll leave of a fee, in the words of the provider and in seconds |
| `Fees.PaymentsService.Request` | src/payments/payments.service.ts:73-198 | request and retry: guards, early returns, and the row after the provider issued a reference or failed, with its request time and count of attempts |
| `Fees.PaymentsService.ReceiveWebhook` | src/payments/payments.service.ts:218-254 | a delivery for the current reference of an unsettled fee makes it SUCCESSFUL exactly when the provider says "successful" or "success", FAILED exactly when it says "failed", "rejected" or "cancelled", in any case; any other word, an unknown reference or a successful fee changes nothing |
| `Fees.PaymentsService.FindByInspection` | src/payments/payments.service.ts:264-314 | polling asks 20 seconds after the request, settles by the same words, and fails the fee after 15 minutes; anything else leaves it alone |
| `Fees.StepStaysTidy` | src/payments/payments.service.ts:73-351 | every handler keeps the bookkeeping of the row, and leaves a successful row alone |
| `Fees.RunsStayTidy` | src/payments/payments.service.ts:96-197 | in every run `settledAt` is set iff SUCCESSFUL, `failureReason` iff FAILED, no fee rests in PENDING, and `attempts` equals the number of provider calls |
| `Fees.SuccessIsAbsorbing` | src/payments/payments.service.ts:96-108 | with atomic handlers a successful row never changes again and the provider is not called again |
| `Fees.PromptsAreBounded` | src/payments/payments.service.ts:96-108 | with atomic handlers and without retries the owner is prompted at most once more than the fee has failed |
| `Fees.DeliveriesConverge` | src/payments/payments.service.ts:211-254 | after any deliveries for the current reference the fee is SUCCESSFUL exactly when it was or one of them said so, FAILED exactly when it is not SUCCESSFUL and was FAILED or one of them said so, and otherwise as before |
| `Fees.OrderAndRepetitionDoNotMatter` | src/payments/payments.service.ts:211-254 | two histories that agree on whether a payment and whether a failure was reported, in whatever order and number, leave the same status |
| `FeeInterleaving.NoWorkWithoutPayment` | src/payments/payments.service.ts:73-314 | in every interleaving of request, retry, webhook, poll and start, a fee is paid and work starts only after the provider used the word "successful" or "success", in any case, of a reference it had issued earlier for that fee and for no other |
| `FeeInterleaving.UninterruptedRequestIsAtomic` | src/payments/payments.service.ts:73-171 | the split request, run without interruption, is the atomic handler when the provider answers, and leaves other fees alone |
| `FeeInterleaving.UninterruptedFailureIsAtomic` | src/payments/payments.service.ts:173-197 | and when the provider fails |
| `FeeInterleaving.UninterruptedWebhookIsAtomic` | src/payments/payments.service.ts:218-254 | so is the split webhook, which leaves other fees alone |
| `FeeInterleaving.UninterruptedPollIsAtomic` | src/payments/payments.service.ts:264-314 | and the split poll, whatever the row, its age, and the answer or failure of the provider |
| `FeeInterleaving.SuccessLastsIff` | src/payments/payments.service.ts:113-184 | a SUCCESSFUL status lasts through every continuation exactly when no handler that read the row earlier (a request or retry past its guard, a poll at the provider, a failing settlement) is still on its way to it |
| `FeeInterleaving.SuccessCanBeOverwritten` | src/payments/payments.service.ts:96-135 | a run in which a retry overwrites a success that arrived after its read |
| `FeePrompts.NoFurtherPromptIff` | src/payments/payments.service.ts:66-108 | from any state, no further prompt follows in any continuation without retry and failure exactly when the fee is PROCESSING with no other request past its guard and no retry begun, or SUCCESSFUL with none of these or with no request anywhere between its guard and its write of PROCESSING; never while the row is missing or PENDING |
| `FeePrompts.OwnerCanBePromptedTwice` | src/payments/payments.service.ts:96-142 | a run of two first requests that overlap: two prompts, without a retry and without a failure |
| `FeePrompts.TappingAgainPromptsAgain` | src/payments/payments.service.ts:96-154 | a second request that begins after the first has its reference, while the row is still PENDING, prompts again |
| `InspectionService.CreateInspection` | src/inspections/inspections.service.ts:229-366 | creation succeeds exactly for those with permission and branch access who name an eligible inspector or nobody, inspectors only themselves; the record starts in ASSIGNED with one log entry, no submission and no fee, and obeys the invariant of all runs |
| `InspectionService.InspectionRecord.AssignTo` | src/inspections/inspections.service.ts:369-457 | who may assign or take away an inspection, in which status and with what reason, exactly; the inspector named becomes its inspector in one logged move, and nothing changes otherwise; the invariant is kept |
| `InspectionService.InspectionRecord.BeginWork` | src/inspections/inspections.service.ts:459-517 | work starts exactly for the assigned inspector with permission and branch access, on a successful fee; the invariant is kept |
| `InspectionService.InspectionRecord.PutAll` | src/inspections/inspections.service.ts:523-553 | the upsert loop stores the last entry of every field of the form and leaves every other value as it was |
| `InspectionService.InspectionRecord.RateOne` | src/inspections/inspections.service.ts:555-584 | an assessment is upserted; an existing one keeps its name and place |
| `InspectionService.InspectionRecord.ApplyEdit` | src/inspections/inspections.service.ts:523-736 | each edit writes its own part of the content, leaves the rest alone, and raises the version by one |
| `InspectionService.InspectionRecord.Save` | src/inspections/inspections.service.ts:906-932 | a save is accepted exactly from the assigned inspector in the field with permission, branch access, a base version not below the stored one and a plausible reading; then the last entry of every field of the form (or the owner, valuation, assessment or reading given) is stored, all else is as before and the version grows by one; a refused save changes nothing; the invariant is kept |
| `InspectionService.InspectionRecord.UploadPhoto` | src/photos/photos.service.ts:46-153 | a photograph is accepted exactly from the inspector in the field, is stored under its category, and is stored once |
| `InspectionService.InspectionRecord.DeletePhoto` | src/photos/photos.service.ts:186-233 | a photograph that is there is taken out, keeping its row, exactly by the inspector in the field |
| `InspectionService.InspectionRecord.SaveAsAdmin` | src/reviews/admin-inspection-edit.service.ts:18-74 | an administrator edits values and owner in any status but the final ones, under a base version not below the stored one, and the edit is recorded |
| `InspectionService.InspectionRecord.Synchronise` | src/sync/sync.service.ts:133-389 | one offline operation is applied exactly when it comes from the inspector in the field, is not stale and is well formed, conflicts exactly when it is the inspector's but too late, and is rejected otherwise; an applied one stores its values, assessment, owner, valuation or reading and nothing else |
| `InspectionService.InspectionRecord.HandlePayment` | src/payments/payments.service.ts:73-314 | the fee handlers on the record: who may call them, what they leave of the fee in the words of the provider, and no effect once work has started; the invariant is kept |
| `InspectionService.InspectionRecord.HandIn` | src/inspections/inspections.service.ts:742-849 | a submission is accepted exactly from the inspector in the field with complete content; the last snapshot is then the record itself, the round is counted, every correction is resolved; the invariant is kept |
| `InspectionService.InspectionRecord.TakeSnapshot` | src/inspections/inspections.service.ts:776-810 | a new round counts up, snapshots the content, resolves the corrections and logs the move |
| `InspectionService.InspectionRecord.ChangeReview` | src/reviews/reviews.service.ts:176-298 | the reviewer's writers (adjustment, risk, conclusion; valuation and status information of src/reviews/reviews.controller.ts:25-26; map image of src/reviews/reviewer-map.service.ts:37-92): who may use each and when, exactly, and what it writes; they touch no content and no approved record |
| `InspectionService.InspectionRecord.Resolve` | src/reviews/reviews.service.ts:300-491 | claim, approve, reject or return, accepted exactly from somebody with permission and branch access who is not the inspector, on an up-to-date record in review, with a reason for rejection and return; an approval needs the claim and finds risk, conclusion, values, map and status information on record; the whole record afterwards; the invariant is kept |
| `InspectionService.InspectionRecord.RecordDecision` | src/reviews/reviews.service.ts:405-446 | a decision moves the status, names the reviewer, and opens a correction exactly when the inspection is returned |
| `InspectionService.InspectionRecord.IssueReport` | src/reports/reports.service.ts:44-78 | the status change of report generation, exactly for those who may on an approved record, logged once; the prerequisites of the approval still hold |
| `InspectionRules.ReadyMeansPrerequisites` | src/reviews/reviews.service.ts:350-403 | an approval is ready exactly with a LOW, MEDIUM or HIGH risk in any case, a conclusion that is not only white space, the values of land and total, that of the main building where the status reads IMPROVED, a map, three texts and the lease months |
| `InspectionRules.DecisionRule` | src/reviews/reviews.service.ts:300-491 | a decision is accepted exactly when it may be taken, is refused as stale exactly when the base version is below the stored one, and leaves exactly the record named |
| `InspectionRules.ReviewRule` | src/reviews/reviews.service.ts:176-298 | the same for every edit of the review |
| `InspectionRules.SyncRule` | src/sync/sync.service.ts:133-389 | and for every offline operation |
| `InspectionRules.CorrectingRule` | src/reviews/admin-inspection-edit.service.ts:18-74 | and for every edit of an administrator, whose role is read in any case and between white space |
| `Lifecycle.StepStaysSound` | src/inspections/inspections.service.ts:369-849 | every handler keeps the invariant that joins log, rounds, corrections, duties, prerequisites, snapshot and fee |
| `Lifecycle.LogIsLegalPath` | src/inspections/inspections.service.ts:321-329 | in every run the event log is a chained, legal path of the table that starts at ASSIGNED and ends at the current status |
| `Lifecycle.RoundsAndCorrectionsAgree` | src/inspections/inspections.service.ts:776-810 | snapshot rounds are 1..submissionCount; the count exceeds the correction requests by one exactly while the inspection is handed in; only the last correction can be open, and none while handed in |
| `Lifecycle.NobodyReviewsOwnSubmission` | src/reviews/reviews.service.ts:336-348 | whoever claims, approves, rejects or returns an inspection differs from whoever submitted it last |
| `Lifecycle.ApprovalPrerequisitesStand` | src/reviews/reviews.service.ts:350-403 | in every reachable approved or report-generated record the risk is LOW, MEDIUM or HIGH, the conclusion has a character that is not white space, the values of land, total and (where the status reads IMPROVED) main building, the map, the three texts and the lease months are there, and the reviewer is the approver |
| `Lifecycle.HandedInRecordIsItsSnapshot` | src/inspections/inspections.service.ts:742-846 | a handed-in record is the snapshot of its round plus the administrators' edits since, which touch values and owner only; that snapshot was complete |
| `Lifecycle.FrozenWithoutAdmins` | src/inspections/inspections.service.ts:906-932 | without administrator edits a handed-in record equals the complete snapshot of its round |
| `Lifecycle.StartedMeansPaid` | src/inspections/domain/inspection-state-machine.ts:59-68 | every inspection that has left ASSIGNED has a successful, settled fee |
| `Lifecycle.ChangesHaveTheirWriters` | src/inspections/inspections.service.ts:906-932 | whenever content (or review data) differs between two moments of a run, one request between them was of the kind that writes it, changed it, and came from the assigned inspector while editable or an administrator before approval (or from the claiming reviewer, or any reviewer while unclaimed, during review) |
| `Lifecycle.VersionIdentifiesRecord` | src/inspections/inspections.service.ts:923-929 | the version never falls, and equal versions along a run mean an equal record apart from its fee |
| `Lifecycle.NoLostUpdate` | src/reviews/reviews.service.ts:328-334 | a guarded write or decision whose base version was really seen acts on exactly the record that was seen, or is refused and changes nothing |
| `Example.AReportIsReached` | src/inspections/inspections.service.ts:229-849 | a run from creation over payment, field work, submission and review to a generated report |
| `Sync.SyncService.PushBatch` | src/sync/sync.service.ts:110-131 | the batch loop applies the operations in order and returns one result for each |
| `Sync.SyncService.ApplyOne` | src/sync/sync.service.ts:133-201 | one operation in its own transaction: applied, conflicting or rejected by the same conditions, with the same content as on the record itself, every other row left alone |
| `Sync.OneOperation` | src/sync/sync.service.ts:133-201 | an operation is applied exactly when it is admissible and not stale; then the version grows by one, and otherwise nothing changes anywhere |
| `Sync.ReplayIsNoOp` | src/sync/sync.service.ts:110-201 | pushing a batch again, under base versions really seen, changes nothing, and what was applied now conflicts |
| `Sync.OneAppliedPerInspection` | src/sync/sync.service.ts:164-171 | under such base versions a batch applies at most one operation to each inspection |
| `Sync.ResendingIsHarmlessIff` | src/sync/sync.service.ts:16-26 | sending one operation again changes nothing, not even the version, exactly unless it was applied without a base version or with one the server had not reached |
| `Sync.PushExtends` | src/sync/sync.service.ts:203-389 | a batch whose operations carry no base version, or one that is spent, writes to each inspection the last value per key and every location reading |
| `Sync.ReplayRepeatsReadings` | src/sync/sync.service.ts:110-389 | pushing a batch under seen or missing base versions twice stores its location readings without base versions twice, and leaves all other content as pushing it once |
| `Sync.ReplayKeepsContentIff` | src/sync/sync.service.ts:110-389 | so replay of such a batch leaves the content of an inspection alone exactly when it brought no admissible location reading without a base version |
| `Example.AReadingIsStoredTwice` | src/sync/sync.service.ts:16-20 | a reachable inspection and one operation without a base version: sent twice, its reading is stored twice |
| `Sync.UpsertReplayKeepsContent` | src/sync/sync.service.ts:203-337 | pushing upserts without base versions twice leaves the content as pushing them once |
| `Sync.VersionCountsApplied` | src/sync/sync.service.ts:194-201 | each inspection's version grows by its number of APPLIED results |
| `Sync.InspectionsAreIndependent` | src/sync/sync.service.ts:110-192 | to one inspection, and in the results for it, a batch does what its operations for that inspection do alone |
| `Sync.ReorderingChangesNothing` | src/sync/sync.service.ts:110-192 | reordering a batch in any way that keeps the order per inspection leaves the same table and the same results for every inspection |
| `Sync.DifferentInspectionsCommute` | src/sync/sync.service.ts:110-192 | operations on different inspections commute, results included |
| `Numbering.ValueOfDecimal` | src/inspections/inspections.service.ts:990-991 | reading a printed number gives it back |
| `Numbering.ValueOfPadded` | src/inspections/inspections.service.ts:991 | padding changes neither the value nor, when it fits, the width |
| `Numbering.StringOrderIsNumericOrder` | src/inspections/inspections.service.ts:984-988 | numerals of one width compare as strings as they do as numbers |
| `Numbering.NumbersLookLike` | src/inspections/inspections.service.ts:977-992 | a number below a million is INS-, the year, a dash and exactly the six digits that read back as it |
| `Numbering.InspectionRegister.Issue` | src/inspections/inspections.service.ts:977-992 | the latest number of the year plus one is entered, unless it is taken already |
| `Numbering.IssuedInOrder` | src/inspections/inspections.service.ts:977-992 | for every sequence of creations over any years, the numbers of one year are 1, 2, 3, ... in order, up to a million of them |
| `Numbering.RefusedAfterAMillion` | src/inspections/inspections.service.ts:977-992 | the next number is taken exactly when a million were asked for before |
| `Reports.BlobStore.Put` | src/providers/storage/blob-storage.provider.ts:44-70 | a key that exists is left as it is, and the checksum is of the bytes given |
| `Reports.BlobStore.Delete` | src/providers/storage/blob-storage.provider.ts:87-96 | exactly that key goes |
| `Reports.OfficialKeysLookLike` | src/reports/reports.service.ts:52-56 | the storage key of an official report, from organisation, number and version |
| `Reports.DraftKeysLookLike` | src/reports/reports.service.ts:30-34 | and of a draft |
| `Reports.NumbersLookLike` | src/reports/reports.service.ts:113-114 | how official and draft numbers follow from the inspection number and the round |
| `Reports.KeysAreInjective` | src/reports/reports.service.ts:33-61 | a storage key determines report number and version |
| `Reports.NumbersBelongToOne` | src/reports/reports.service.ts:113-114 | an official or draft report number belongs to one inspection number only |
| `Reports.StoringSupersedes` | src/reports/reports.service.ts:28-41 | the stored row is the only one of its number, with the next version, its key and checksum, under the id of the latest row before it or a new one; all other rows stay |
| `Reports.ReportsService.Upsert` | src/reports/reports.service.ts:36-38 | the row of a number is updated or created, and every other of that number is deleted |
| `Reports.ReportsService.Draft` | src/reports/reports.service.ts:21-42 | draft generation over rows and blobs, also when the row is never written, exactly from submission on; a stored draft supersedes every row of its number |
| `Reports.ReportsService.Official` | src/reports/reports.service.ts:44-78 | two puts followed by two superseding rows, exactly for approved inspections, also when it stops after either put |
| `Reports.ReportsService.Download` | src/reports/reports.service.ts:87-107 | downloading an official report of an approved inspection stores a fresh rendering under the next version in the same row, also when the row update is lost; a draft is only read |
| `ReportRuns.RunsStaySound` | src/reports/reports.service.ts:21-107 | every run keeps one row per number, keys that match number and version, and no blob above the version of its row |
| `ReportRuns.NextKeyIsFresh` | src/reports/reports.service.ts:29-34 | the key generation is about to write was never stored |
| `ReportRuns.RefreshKeyIsFresh` | src/reports/reports.service.ts:97-100 | nor was the key a download is about to write |
| `ReportRuns.EveryPutIsFresh` | src/providers/storage/blob-storage.provider.ts:44-70 | every put of a failure-free run stores one more blob, and none that is stored changes |
| `ReportRuns.StoredBytesMatchChecksums` | src/reports/reports.service.ts:27-103 | in every failure-free run each row is the only one of its number, and the bytes behind its key have the recorded checksum |
| `ReportRuns.StoringRaisesVersion` | src/reports/reports.service.ts:29-37 | generation raises the version of its report by one and that of no other |
| `ReportRuns.RefreshRaisesVersion` | src/reports/reports.service.ts:91-103 | a download that renders again raises the version of its report by one and that of no other |
| `ReportRuns.VersionsCountDocuments` | src/reports/reports.service.ts:27-103 | along every failure-free run the version of a report grows by exactly one with each document put under its number, by whichever handler, and by nothing else |
| `ReportRuns.ChecksumHoldsIffKeyWasFree` | src/providers/storage/blob-storage.provider.ts:47-69 | the checksum written is that of the stored bytes exactly when the key was free or held the same bytes |
| `ReportRuns.LostDraftSpoilsNextIff` | src/reports/reports.service.ts:34-41 | a draft whose row was lost after its document was stored gives the next one a wrong checksum exactly when that renders other bytes |
| `ReportRuns.LostOfficialSpoilsNextIff` | src/reports/reports.service.ts:56-77 | so does a lost official generation, for each of its two documents |
| `ReportRuns.LostRefreshSpoilsNextIff` | src/reports/reports.service.ts:97-101 | and a download whose row update was lost |
| `ReportFailures.RowsMatchIffPutsAreClean` | src/reports/reports.service.ts:27-103 | in every run in which any generation or download may be lost after any of its puts: at every moment every row describes the bytes behind its key exactly when every put whose row was committed met a free key or the same bytes |
| `AccountService.Database.RevokeSessionsOf` | src/users/users.service.ts:166-174 | exactly the sessions and tokens of the user are revoked, except those of one session that may be kept |
| `AccountService.AuthService.Login` | src/auth/auth.service.ts:59-154 | a sign-in succeeds exactly with the right password on an account that is enabled and not locked in an active organisation; a wrong one there counts exactly one failure and from the fifth on locks for 15 minutes; anything else changes nothing; a sign-in leaves its session with the returned refresh token as the only live one, its access token passes the guard, and the invariant of all runs is kept |
| `AccountService.AuthService.Refresh` | src/auth/auth.service.ts:164-254 | a refresh succeeds exactly for a fresh token of an open session of an enabled user, stays in that session and leaves the returned token, good for seven days, as the only live one; any other token changes nothing; the invariant is kept |
| `AccountService.AuthService.Exchange` | src/auth/auth.service.ts:172-253 | the same checks over any tables, including the revocation of exactly the family and session of a spent token, which no reachable tables lead to |
| `AccountService.AuthService.Logout` | src/auth/auth.service.ts:256-278 | exactly the session and its tokens are revoked, and the invariant is kept |
| `AccountService.AuthService.ChangePassword` | src/auth/auth.service.ts:280-339 | a change is accepted exactly with the current password and a new strong one, which is stored; every live token of the user then belongs to the session it was made from; the invariant is kept |
| `AccountService.AuthService.RequestReset` | src/auth/auth.service.ts:347-378 | a link of thirty minutes for a known address, and the same reply for an unknown one |
| `AccountService.AuthService.ResetPassword` | src/auth/auth.service.ts:380-432 | exactly an unused, unexpired link with a strong password sets that password, clears the lock, is spent, and leaves the user no live token; the invariant is kept |
| `AccountService.UsersService.Update` | src/users/users.service.ts:132-192 | the status given is stored; deactivation leaves the user no live token; nobody deactivates themselves; the invariant is kept |
| `AccountService.UsersService.ResetPassword` | src/users/users.service.ts:194-235 | an administrator's reset stores the password, clears the lock and leaves the user no live token; the invariant is kept |
| `AccountService.JwtAuthGuard.BuildTenantContext` | src/common/guards/jwt-auth.guard.ts:69-119 | exactly the access tokens of enabled, unlocked users of an active organisation in an open session of theirs are admitted, with the reason otherwise; the session then has exactly one live refresh token |
| `AccountRuns.OutsidersChangeNothing` | src/common/guards/jwt-auth.guard.ts:69-119 | whoever the guard turns away changes nothing by any guarded request |
| `AccountRuns.StepStaysSound` | src/auth/auth.service.ts:112-432 | every handler keeps the invariant that joins sessions, tokens, families and counters |
| `AccountRuns.OneLiveTokenPerOpenSession` | src/auth/auth.service.ts:112-254 | in every run an open session has exactly one unrevoked token and an ended one none; tokens belong to the user of their session; spent tokens are revoked; an account is locked iff five attempts have failed |
| `AccountRuns.SignInOpensSession` | src/auth/auth.service.ts:112-153 | the access token of a sign-in passes the guard, its refresh token can be exchanged for the same session, and no other session is touched |
| `AccountRuns.RefreshContinuesSession` | src/auth/auth.service.ts:216-253 | a refresh stays in its session and leaves the successor as the only live token; the returned access token passes the guard exactly when the account is not locked and the organisation is active, which refresh does not look at |
| `AccountRuns.SessionsEndInAWeek` | src/auth/auth.service.ts:229-234 | however often it is refreshed, no session passes the guard or refreshes once the seven days from its sign-in are over |
| `AccountRuns.SpentTokensAreOnlyRefused` | src/auth/auth.service.ts:156-214 | presenting a spent token changes nothing; its family ends up revoked exactly when its session had been ended before |
| `AccountRuns.ReplayLeavesTheSessionOpen` | src/auth/auth.service.ts:179-253 | a run in which a replayed token is refused and its successor still refreshes |
| `AccountRuns.RevocationIsPermanent` | src/auth/auth.service.ts:164-432 | revoked stays revoked, spent stays spent, and no session or token changes owner, family or expiry |
| `AccountRuns.EarlierSessionsStayShut` | src/users/users.service.ts:166-226 | after a password reset or a deactivation no earlier session of the account passes the guard or refreshes in any later run |
| `AccountRuns.OnlyTheChangingSessionSurvives` | src/auth/auth.service.ts:311-325 | a changed password works, the changing session stays open, and no other of that user does |
| `AccountRuns.ResetLinkWorksOnce` | src/auth/auth.service.ts:386-408 | a used reset link is refused in every later run |
| `AccountRuns.LastPasswordIsStored` | src/auth/auth.service.ts:280-432 | after any run the stored password of an account is the one it was last given, by creation, change, reset link or administrator |
| `AccountRuns.AccountRemembersFailures` | src/auth/auth.service.ts:104-122 | the stored counter and lock are those of the wrong passwords tried, while the account could be tried, since the last right one, reset or unlocking; from the fifth on they are a lockout apart |
| `AccountRuns.GuessingIsSlow` | src/auth/auth.service.ts:83-110 | the n-th such failure comes at least n - 5 lockout periods of 15 minutes after the fifth |
| `AccountRuns.LockedAccountsStayOut` | src/auth/auth.service.ts:83-89 | within a lockout period of the fifth or a later failure no password signs in, right or wrong, and no session of the account passes the guard |
| `AccountRuns.SignsInIff` | src/auth/auth.service.ts:59-154 | after any run a password signs in exactly when it is the one the account was last given, the account and the organisation are active, and the last failure, if it was the fifth or a later one, is at least 15 minutes ago |

## Left out

- Text is compared with ASCII case mapping, and lengths count characters rather than UTF-16 units.
- Numbers are reals that carry their rendering; dates and JSON values are compared through their rendering.
- Patterns of fields are opaque predicates, phone numbers are valid or not, and distances and coordinates are exact.
- Messages, labels and the blocking flag of completeness issues: every issue the evaluator emits is blocking. Its
  `fieldCodesById` input is never passed and its `hasOwner` input is never read.
- The nested loops over sections and their fields run over the flattened list of fields.
- Among several answered fields with the code of the property status an approval reads the first, where the query takes
  any one of them; templates with repeated field ids are assumed away.
- Provider references are non-empty and never issued twice; the provider itself is an environment that issues them
  and reports on them.
- Base versions are ones the client really saw; the server test refuses only versions below the stored one.
- Handlers outside `FeeInterleaving` and `FeePrompts` are atomic, although most check outside the transaction that writes.
- Archiving is in the transition table, but no service performs it.
- Request ids for idempotent creation and upload, timestamps, server ids, target sections, comments, priorities and
  due dates, notifications and audit rows, except the administrators' edits since a submission.
- Encryption and trimming of owner data, file and photo type checks, signed URLs, and the fields of locations other
  than those the gate and the snapshot read.
- Database triggers that rewrite derived valuation rows, and the collation of the database (numbers are compared
  character by character).
- PDF rendering: a document is opaque bytes. Digests are injective.
- Inspection numbers begin with INS- wherever report keys are concerned.
- Deletion of blobs plays no part in the runs of reports, because no report handler deletes one. Reading blobs back
  belongs to the file endpoint, which is not modelled.
- Passwords stand for their hashes and tokens for theirs; session, token, family and link ids come from one counter,
  so they are fresh. The strength of a new password is an input.
- The permission of the synchronisation route, the lookups of property and template at creation, and the permissions,
  roles and branch scopes of user administrators, mail delivery, and the flags that ask for a new password.
- One organisation: its status is one flag, and rows of other organisations are out of sight.
- The two token lifetimes are constants at their defaults, seven days and thirty minutes.
