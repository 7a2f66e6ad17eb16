/** One inspection followed from creation to its report, and a field batch sent twice along the way. */
module Example {
  import opened Text
  import opened StateMachine
  import opened Completeness
  import opened Content
  import opened Inspections
  import Fees
  import Sync

  const FORM := Form([], [], "LAND")
  const MANAGER := Actor(0, {"inspections.create", "inspections.assign"}, [], true, {})
  const INSPECTOR := Actor(1, {"inspections.read", "inspections.write"}, [], true, {})
  const REVIEWER := Actor(2, {"reviews.decide", "reports.generate"}, [], true, {})
  const READING := Location(-1.95, 30.06, None, "2026-01-01", None)
  const ESTIMATE := Valuation("RWF", Some(1.0), None, None, None, None)

  lemma StepReaches(s: Inspection, op: Op)
    requires Reachable(s)
    ensures Reachable(Step(s, op))
  {
    var form, branch, actor, inspector, reviewer, eligible, ops :|
      var created := Create(form, branch, actor, inspector, reviewer, eligible);
      created.Some? && s == Run(created.value, ops);
    var created := Create(form, branch, actor, inspector, reviewer, eligible);
    assert (ops + [op])[..|ops|] == ops;
    assert Run(created.value, ops + [op]) == Step(s, op);
  }

  /** Where the example stands. */
  ghost predicate Stage(s: Inspection, status: Status, reviewerId: Option<UserId>, content: Captured, review: Review,
                        rounds: nat)
  {
    && Reachable(s)
    && s.form == FORM && s.branch == 0 && s.inspectorId == Some(1)
    && s.status == status && s.reviewerId == reviewerId && s.content == content && s.review == review
    && s.submissionCount == rounds
  }

  lemma NewInspection() returns (s: Inspection)
    ensures Stage(s, Assigned, None, Unfilled(FORM), NO_REVIEW, 0) && s.fee == None
  {
    s := Create(FORM, 0, MANAGER, Some(1), None, {1}).value;
    assert Run(s, []) == s;
  }

  lemma FeeRequested() returns (s: Inspection)
    ensures Stage(s, Assigned, None, Unfilled(FORM), NO_REVIEW, 0)
    ensures s.fee.Some? && s.fee.value.status == Processing && s.fee.value.providerRef == Some("r")
  {
    var created := NewInspection();
    var op := FeeOp(INSPECTOR, Fees.Request(false, true, 0, Some("r")));
    StepReaches(created, op);
    s := Step(created, op);
  }

  lemma FeePaid() returns (s: Inspection)
    ensures Stage(s, Assigned, None, Unfilled(FORM), NO_REVIEW, 0) && Fees.StatusOf(s.fee) == Some(Successful)
  {
    var requested := FeeRequested();
    Fees.SuccessIsMapped();
    var op := FeeOp(INSPECTOR, Fees.Webhook("r", Some("success"), 1));
    StepReaches(requested, op);
    s := Step(requested, op);
  }

  /** Work in the field has begun. */
  lemma InField() returns (s: Inspection)
    ensures Stage(s, InProgress, None, Unfilled(FORM), NO_REVIEW, 0)
  {
    var paid := FeePaid();
    StepReaches(paid, StartOp(INSPECTOR));
    s := Step(paid, StartOp(INSPECTOR));
  }

  lemma EditReaches(s: Inspection, e: FormEdit)
    requires Reachable(s) && s.status == InProgress && s.inspectorId == Some(1) && Acceptable(s.content, e)
    ensures Reachable(Edited(s, e))
  {
    StepReaches(s, SaveOp(INSPECTOR, e, None));
  }

  const FILLED := Unfilled(FORM).(valuation := Some(ESTIMATE), locations := [READING])

  lemma Filled() returns (s: Inspection)
    ensures Stage(s, InProgress, None, FILLED, NO_REVIEW, 0)
  {
    s := InField();
    EditReaches(s, SetValuation(ESTIMATE));
    s := Edited(s, SetValuation(ESTIMATE));
    EditReaches(s, AddLocation(READING));
    s := Edited(s, AddLocation(READING));
  }

  lemma FilledIsReady()
    ensures ReadyToSubmit(FORM, FILLED)
  {
    assert FILLED.assessments == map[];
  }

  lemma HandedIn() returns (s: Inspection)
    ensures Stage(s, Submitted, None, FILLED, NO_REVIEW, 1)
  {
    s := Filled();
    FilledIsReady();
    StepReaches(s, SubmitOp(INSPECTOR));
    s := Step(s, SubmitOp(INSPECTOR));
  }

  lemma DecidesAs(s: Inspection, action: Decision, reportStored: bool)
    requires DecisionError(s, REVIEWER, action, None, None).None?
    ensures Step(s, DecideOp(REVIEWER, action, None, None, reportStored))
            == Concluded(s, REVIEWER, action, None, reportStored)
  {
  }

  lemma DecisionReaches(s: Inspection, action: Decision, reportStored: bool)
    requires Reachable(s) && DecisionError(s, REVIEWER, action, None, None).None?
    ensures Reachable(Concluded(s, REVIEWER, action, None, reportStored))
  {
    DecidesAs(s, action, reportStored);
    StepReaches(s, DecideOp(REVIEWER, action, None, None, reportStored));
  }

  lemma Claimed() returns (s: Inspection)
    ensures Stage(s, UnderReview, Some(2), FILLED, NO_REVIEW, 1)
  {
    s := HandedIn();
    DecisionReaches(s, BeginReview, false);
    s := Concluded(s, REVIEWER, BeginReview, None, false);
  }

  lemma ReviewStepReaches(s: Inspection, e: ReviewEdit)
    requires Reachable(s) && s.status == UnderReview && s.reviewerId == Some(2)
    requires ReviewEditValid(s, e) && !e.RemoveMap?
    ensures Reachable(Reviewed(s, REVIEWER, e))
  {
    StepReaches(s, ReviewOp(REVIEWER, e, None));
  }

  const VALUES := ReviewerValuation(Some(1.0), None, Some(1.0))
  const INFORMATION := StatusInformation(Some("NONE"), Some("NONE"), Some("NONE"), Some(12))
  const REVIEWED := Review(Some("LOW"), Some("Sound"), Some(VALUES), Some("map"), INFORMATION, [])

  lemma Judged() returns (s: Inspection)
    ensures Stage(s, UnderReview, Some(2), FILLED, NO_REVIEW.(risk := Some("LOW"), conclusion := Some("Sound")), 1)
  {
    s := Claimed();
    assert Upper(Trim("LOW")) == "LOW" && Trim("Sound") == "Sound";
    ReviewStepReaches(s, SetRisk("LOW"));
    s := Reviewed(s, REVIEWER, SetRisk("LOW"));
    ReviewStepReaches(s, SetConclusion("Sound"));
    s := Reviewed(s, REVIEWER, SetConclusion("Sound"));
  }

  lemma ReviewFilledIn() returns (s: Inspection)
    ensures Stage(s, UnderReview, Some(2), FILLED, REVIEWED, 1)
  {
    s := Judged();
    ReviewStepReaches(s, SetReviewerValuation(VALUES));
    s := Reviewed(s, REVIEWER, SetReviewerValuation(VALUES));
    ReviewStepReaches(s, SetStatusInformation(INFORMATION));
    s := Reviewed(s, REVIEWER, SetStatusInformation(INFORMATION));
    ReviewStepReaches(s, UploadMap("map"));
    s := Reviewed(s, REVIEWER, UploadMap("map"));
  }

  lemma ReviewedIsReady()
    ensures ApprovalReady(FORM, FILLED, REVIEWED)
  {
    assert Upper("LOW") == "LOW" && !Blank("Sound");
    assert Upper("") == "";
  }

  lemma ApprovalConcludes(s: Inspection)
    requires s.status == UnderReview && s.inspectorId == Some(1) && s.reviewerId == Some(2) && s.branch == 0
    requires ApprovalReady(s.form, s.content, s.review)
    ensures DecisionError(s, REVIEWER, Approve, None, None).None?
    ensures Concluded(s, REVIEWER, Approve, None, true).status == ReportGenerated
    ensures Concluded(s, REVIEWER, Approve, None, true).submissionCount == s.submissionCount
  {
  }

  /** The whole life of an inspection can be lived: handed in once, approved, and reported on. */
  lemma AReportIsReached()
    ensures exists s :: Reachable(s) && s.status == ReportGenerated && s.submissionCount == 1
  {
    var s := ReviewFilledIn();
    ReviewedIsReady();
    ApprovalConcludes(s);
    DecisionReaches(s, Approve, true);
  }

  lemma OneReadingIsOne(s: Inspection, op: Sync.Operation)
    requires s.inspectorId == Some(1) && s.status == InProgress
    requires op.inspection == 0 && op.base.None? && op.payload == PushLocation(READING)
    ensures Sync.BatchReadings(s, 0, 1, [op]) == [READING]
  {
    assert [op][..0] == [];
  }

  /** A location reading sent twice without a base version, as after a lost answer, is stored twice. */
  lemma AReadingIsStoredTwice()
    ensures exists s :: Reachable(s) && s.content.locations == []
              && var db: Sync.Table, ops := map[0 := s], [Sync.Operation("a", 0, None, PushLocation(READING))];
                 var once := Sync.Push(db, 1, ops).0;
                 var twice := Sync.Push(once, 1, ops).0;
                 0 in once && 0 in twice
                 && once[0].content.locations == [READING] && twice[0].content.locations == [READING, READING]
  {
    var s := InField();
    var db: Sync.Table := map[0 := s];
    var op := Sync.Operation("a", 0, None, PushLocation(READING));
    OneReadingIsOne(s, op);
    Sync.PushExtends(db, 1, [op], 0);
    Sync.ReplayRepeatsReadings(db, 1, [op], 0);
  }
}
