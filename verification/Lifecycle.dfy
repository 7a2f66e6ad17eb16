/** What every run of the handlers keeps: the audit trail, the counters, separation of duties, the frozen
    snapshot, the standing approval, the paid fee, and the version as a guard against lost updates. */
module Lifecycle {
  import opened Text
  import opened StateMachine
  import opened Content
  import opened Inspections
  import InspectionRules
  import Fees

  /** Submitted, and not handed back since. */
  predicate HandedIn(status: Status) {
    AwaitsReview(status) || status.Approved? || status.Rejected? || status.ReportGenerated?
  }

  // ------------------------------------------------------------------ the status-event log

  /** The entry starts where the one before it ended, and its move is one the table allows. */
  predicate Follows(before: StatusEvent, e: StatusEvent) {
    e.from == Some(before.to) && LegalStep(before.to, e.to)
  }

  ghost predicate LogSound(events: seq<StatusEvent>, status: Status) {
    && events != []
    && events[0].from == None && events[0].to == Assigned
    && events[|events| - 1].to == status
    && (forall j, k :: 0 <= j < k < |events| && k == j + 1 ==> Follows(events[j], events[k]))
  }

  lemma LogGrows(events: seq<StatusEvent>, status: Status, e: StatusEvent)
    requires LogSound(events, status) && e.from == Some(status) && LegalStep(status, e.to)
    ensures LogSound(events + [e], e.to)
  {
    var longer := events + [e];
    forall j, k | 0 <= j < k < |longer| && k == j + 1 ensures Follows(longer[j], longer[k]) {
      if k < |events| {
        assert longer[j] == events[j] && longer[k] == events[k];
      } else {
        assert longer[j] == events[|events| - 1];
      }
    }
  }

  /** What the table allows is a legal step. */
  lemma AllowedIsLegal(ctx: Context)
    requires EvaluateTransition(ctx).Allowed?
    ensures LegalStep(ctx.currentStatus, EvaluateTransition(ctx).nextStatus)
  {
  }

  // ------------------------------------------------------------------ rounds, snapshots and corrections

  predicate Counted(status: Status, count: nat, snapshots: seq<Snapshot>, corrections: seq<Correction>) {
    && |snapshots| == count
    && (forall i :: 0 <= i < |snapshots| ==> snapshots[i].round == i + 1)
    && (forall i :: 0 <= i < |corrections| ==> corrections[i].round == i + 1)
    && count == |corrections| + (if HandedIn(status) then 1 else 0)
    && (forall i :: 0 <= i < |corrections| && !corrections[i].resolved ==> i == |corrections| - 1 && !HandedIn(status))
    && (status.CorrectionRequested? ==> corrections != [] && !corrections[|corrections| - 1].resolved)
    && !status.Archived?
  }

  lemma SubmissionKeepsCounts(status: Status, status': Status, count: nat, snapshots: seq<Snapshot>,
                              corrections: seq<Correction>, content: Captured)
    requires Counted(status, count, snapshots, corrections) && !HandedIn(status) && HandedIn(status')
    ensures Counted(status', count + 1, snapshots + [Snapshot(count + 1, content)], ResolveAll(corrections))
  {
  }

  lemma ReturnKeepsCounts(status: Status, count: nat, snapshots: seq<Snapshot>, corrections: seq<Correction>,
                          c: Correction)
    requires Counted(status, count, snapshots, corrections) && HandedIn(status) && c.round == count && !c.resolved
    ensures Counted(CorrectionRequested, count, snapshots, corrections + [c])
  {
  }

  // ------------------------------------------------------------------ separation of duties

  predicate Submission(e: StatusEvent) {
    e.to.Submitted? || e.to.Resubmitted?
  }

  /** Who made the latest submission. */
  function LastSubmitter(events: seq<StatusEvent>): Option<UserId> {
    if events == [] then None
    else if Submission(events[|events| - 1]) then Some(events[|events| - 1].actor)
    else LastSubmitter(events[..|events| - 1])
  }

  /** Statuses that only a reviewer's decision leads to. */
  predicate Decided(status: Status) {
    status.UnderReview? || status.Approved? || status.Rejected? || status.CorrectionRequested?
  }

  /** If the entry is a decision, its actor is not the latest submitter before it. */
  predicate Foreign(before: seq<StatusEvent>, e: StatusEvent) {
    Decided(e.to) ==> LastSubmitter(before).Some? && LastSubmitter(before) != Some(e.actor)
  }

  /** Every decision in the log was taken by somebody other than the latest submitter. */
  ghost predicate DutiesSeparate(events: seq<StatusEvent>) {
    forall k :: 0 <= k < |events| ==> Foreign(events[..k], events[k])
  }

  ghost predicate DutySound(events: seq<StatusEvent>, status: Status, inspectorId: Option<UserId>) {
    && DutiesSeparate(events)
    && (AwaitsReview(status) ==> inspectorId.Some? && LastSubmitter(events) == inspectorId)
  }

  lemma DutiesGrow(events: seq<StatusEvent>, e: StatusEvent)
    requires DutiesSeparate(events)
    requires Foreign(events, e)
    ensures DutiesSeparate(events + [e])
    ensures LastSubmitter(events + [e]) == if Submission(e) then Some(e.actor) else LastSubmitter(events)
  {
    var longer := events + [e];
    assert longer[..|events|] == events;
    forall k | 0 <= k < |longer| ensures Foreign(longer[..k], longer[k]) {
      assert longer[..k] == events[..k];
      if k < |events| {
        assert longer[k] == events[k];
      } else {
        assert events[..|events|] == events;
      }
    }
  }

  /** A move keeps duties separate when submissions are the inspector's and decisions are somebody else's. */
  lemma MoveKeepsDuties(events: seq<StatusEvent>, status: Status, inspectorId: Option<UserId>, e: StatusEvent)
    requires DutySound(events, status, inspectorId)
    requires Submission(e) ==> inspectorId == Some(e.actor)
    requires Decided(e.to) ==> AwaitsReview(status) && inspectorId != Some(e.actor)
    ensures DutySound(events + [e], e.to, inspectorId)
  {
    DutiesGrow(events, e);
  }

  // ------------------------------------------------------------------ the standing approval

  predicate ApprovedRecord(status: Status) {
    status.Approved? || status.ReportGenerated?
  }

  /** Who approved. */
  function Approver(events: seq<StatusEvent>): Option<UserId> {
    if events == [] then None
    else if events[|events| - 1].to == Approved then Some(events[|events| - 1].actor)
    else Approver(events[..|events| - 1])
  }

  predicate Standing(form: Form, content: Captured, review: Review, status: Status, reviewerId: Option<UserId>,
                     events: seq<StatusEvent>)
  {
    ApprovedRecord(status) ==>
      && ApprovalReady(form, content, review)
      && reviewerId.Some? && reviewerId == Approver(events)
  }

  lemma ApproverGrows(events: seq<StatusEvent>, e: StatusEvent)
    ensures Approver(events + [e]) == if e.to == Approved then Some(e.actor) else Approver(events)
  {
    assert (events + [e])[..|events|] == events;
  }

  /** An approval stands under the reviewer who gives it, and a report is generated of a standing approval only. */
  lemma MoveKeepsApproval(form: Form, content: Captured, review: Review, status: Status, reviewerId: Option<UserId>,
                          reviewerId': Option<UserId>, events: seq<StatusEvent>, e: StatusEvent)
    requires Standing(form, content, review, status, reviewerId, events)
    requires e.to == Approved ==> ApprovalReady(form, content, review) && reviewerId' == Some(e.actor)
    requires e.to == ReportGenerated ==> ApprovedRecord(status) && reviewerId' == reviewerId
    ensures Standing(form, content, review, e.to, reviewerId', events + [e])
  {
    ApproverGrows(events, e);
  }

  // ------------------------------------------------------------------ the frozen record

  /** The content after these administrator edits. */
  function Replay(form: Form, c: Captured, edits: seq<Edit>): Captured {
    if edits == [] then c
    else
      var before, last := Replay(form, c, edits[..|edits| - 1]), edits[|edits| - 1];
      if Acceptable(before, last) then Apply(form, before, last) else before
  }

  predicate Frozen(form: Form, status: Status, content: Captured, snapshots: seq<Snapshot>, edits: seq<Edit>) {
    && (forall i :: 0 <= i < |snapshots| ==> ReadyToSubmit(form, snapshots[i].content))
    && (forall i :: 0 <= i < |edits| ==> edits[i].SetValues? || edits[i].SetOwner?)
    && (HandedIn(status) ==>
          snapshots != [] && content == Replay(form, snapshots[|snapshots| - 1].content, edits))
  }

  lemma SubmissionFreezes(form: Form, status: Status, status': Status, content: Captured, snapshots: seq<Snapshot>,
                          edits: seq<Edit>, round: nat)
    requires Frozen(form, status, content, snapshots, edits) && ReadyToSubmit(form, content)
    ensures Frozen(form, status', content, snapshots + [Snapshot(round, content)], [])
  {
  }

  lemma AdminKeepsFrozen(form: Form, status: Status, content: Captured, snapshots: seq<Snapshot>, edits: seq<Edit>,
                         e: AdminEdit)
    requires Frozen(form, status, content, snapshots, edits)
    ensures Frozen(form, status, Apply(form, content, e), snapshots, edits + [e])
  {
    assert (edits + [e])[..|edits|] == edits;
  }

  lemma {:induction false} ReplayTouchesValuesAndOwnerOnly(form: Form, c: Captured, edits: seq<Edit>)
    requires forall i :: 0 <= i < |edits| ==> edits[i].SetValues? || edits[i].SetOwner?
    ensures Replay(form, c, edits) == c.(values := Replay(form, c, edits).values, owner := Replay(form, c, edits).owner)
  {
    if edits != [] {
      ReplayTouchesValuesAndOwnerOnly(form, c, edits[..|edits| - 1]);
    }
  }

  // ------------------------------------------------------------------ the fee gate

  predicate FeeSound(fee: Option<Fees.Fee>, status: Status) {
    && Fees.Tidy(fee)
    && (status != Assigned ==> Fees.StatusOf(fee) == Some(Successful))
  }

  // ------------------------------------------------------------------ all runs

  ghost predicate Sound(s: Inspection) {
    && LogSound(s.events, s.status)
    && Counted(s.status, s.submissionCount, s.snapshots, s.corrections)
    && DutySound(s.events, s.status, s.inspectorId)
    && Standing(s.form, s.content, s.review, s.status, s.reviewerId, s.events)
    && Frozen(s.form, s.status, s.content, s.snapshots, s.adminEdits)
    && FeeSound(s.fee, s.status)
  }

  /** What a move by this actor appends to the log. */
  function MoveOf(s: Inspection, to: Status, actor: Actor, round: Option<nat>): StatusEvent {
    StatusEvent(Some(s.status), to, actor.id, round)
  }

  lemma AssignedToStaysSound(s: Inspection, actor: Actor, inspector: UserId, reviewer: Option<UserId>)
    requires Sound(s) && LegalStep(s.status, Assigned) && !HandedIn(s.status)
    ensures Sound(AssignedTo(s, actor, inspector, reviewer))
  {
    var e := MoveOf(s, Assigned, actor, None);
    LogGrows(s.events, s.status, e);
    DutiesGrow(s.events, e);
  }

  lemma AssignStaysSound(s: Inspection, actor: Actor, inspector: UserId, eligible: bool, reviewer: Option<UserId>,
                         reason: Option<string>)
    requires Sound(s)
    ensures Sound(AssignInspector(s, actor, inspector, eligible, reviewer, reason).0)
  {
    if AssignInspector(s, actor, inspector, eligible, reviewer, reason).1.Done? {
      var action := if s.inspectorId.Some? && s.inspectorId != Some(inspector) then Reassign else Assign;
      AllowedIsLegal(ContextOf(s, actor, action, None, reason, None));
      AssignedToStaysSound(s, actor, inspector, if reviewer.Some? then reviewer else s.reviewerId);
    }
  }

  lemma StartStaysSound(s: Inspection, actor: Actor)
    requires Sound(s)
    ensures Sound(StartWork(s, actor).0)
  {
    if StartWork(s, actor).1.Done? {
      AllowedIsLegal(ContextOf(s, actor, Start, None, None, Fees.StatusOf(s.fee)));
      var e := MoveOf(s, InProgress, actor, None);
      LogGrows(s.events, s.status, e);
      MoveKeepsDuties(s.events, s.status, s.inspectorId, e);
    }
  }

  lemma NextRoundStaysSound(s: Inspection, to: Status, actor: Actor)
    requires Sound(s) && LegalStep(s.status, to) && IsEditable(s.status) && (to.Submitted? || to.Resubmitted?)
    requires s.inspectorId == Some(actor.id) && ReadyToSubmit(s.form, s.content)
    ensures Sound(NextRound(s, to, actor))
  {
    var e := MoveOf(s, to, actor, Some(s.submissionCount + 1));
    LogGrows(s.events, s.status, e);
    MoveKeepsDuties(s.events, s.status, s.inspectorId, e);
    SubmissionKeepsCounts(s.status, to, s.submissionCount, s.snapshots, s.corrections, s.content);
    SubmissionFreezes(s.form, s.status, to, s.content, s.snapshots, s.adminEdits, s.submissionCount + 1);
  }

  lemma SubmitStaysSound(s: Inspection, actor: Actor)
    requires Sound(s)
    ensures Sound(SubmitWork(s, actor).0)
  {
    if SubmitWork(s, actor).1.Done? {
      var action := if s.status == CorrectionRequested then Resubmit else Submit;
      AllowedIsLegal(ContextOf(s, actor, action, None, None, None));
      NextRoundStaysSound(s, Transitions(action).to, actor);
    }
  }

  lemma ReportedStaysSound(s: Inspection, actor: Actor)
    requires Sound(s) && ApprovedRecord(s.status) && LegalStep(s.status, ReportGenerated)
    ensures Sound(Moved(s, ReportGenerated, actor, None))
  {
    var e := MoveOf(s, ReportGenerated, actor, None);
    LogGrows(s.events, s.status, e);
    MoveKeepsDuties(s.events, s.status, s.inspectorId, e);
    MoveKeepsApproval(s.form, s.content, s.review, s.status, s.reviewerId, s.reviewerId, s.events, e);
  }

  lemma ReportStaysSound(s: Inspection, actor: Actor, stored: bool)
    requires Sound(s)
    ensures Sound(ReportFor(s, actor, stored).0)
  {
    if ReportFor(s, actor, stored).1.Done? && s.status != ReportGenerated {
      AllowedIsLegal(ContextOf(s, actor, GenerateReport, None, None, None));
      ReportedStaysSound(s, actor);
    }
  }

  lemma DecidedByStaysSound(s: Inspection, to: Status, actor: Actor, reason: string)
    requires Sound(s) && AwaitsReview(s.status) && LegalStep(s.status, to) && Decided(to)
    requires s.inspectorId != Some(actor.id)
    requires to.Approved? ==> ApprovalReady(s.form, s.content, s.review)
    ensures Sound(DecidedBy(s, to, actor, reason))
  {
    var e := MoveOf(s, to, actor, Some(s.submissionCount));
    LogGrows(s.events, s.status, e);
    MoveKeepsDuties(s.events, s.status, s.inspectorId, e);
    MoveKeepsApproval(s.form, s.content, s.review, s.status, s.reviewerId, Some(actor.id), s.events, e);
    ReturnKeepsCounts(s.status, s.submissionCount, s.snapshots, s.corrections,
                      Correction(s.submissionCount, actor.id, reason, false));
  }

  /** What the table demands of a decision. */
  lemma DecisionsAreOthers(s: Inspection, actor: Actor, action: Decision, reason: Option<string>, base: Option<nat>)
    requires DecisionError(s, actor, action, reason, base).None?
    ensures AwaitsReview(s.status) && s.inspectorId != Some(actor.id)
    ensures LegalStep(s.status, Transitions(action).to) && Decided(Transitions(action).to)
    ensures Transitions(action).to == Approved <==> action == Approve
  {
    AllowedIsLegal(ContextOf(s, actor, action, s.inspectorId, reason, None));
  }

  lemma DecideStaysSound(s: Inspection, actor: Actor, action: Decision, reason: Option<string>, base: Option<nat>,
                         reportStored: bool)
    requires Sound(s)
    ensures Sound(Decide(s, actor, action, reason, base, reportStored).0)
  {
    if DecisionError(s, actor, action, reason, base).None? {
      DecisionsAreOthers(s, actor, action, reason, base);
      DecidedByStaysSound(s, Transitions(action).to, actor, Trim(reason.GetOr("")));
      if action == Approve {
        ReportStaysSound(DecidedBy(s, Approved, actor, Trim(reason.GetOr(""))), actor, reportStored);
      }
    }
  }

  /** The inspector's edits, saved online or synchronised. */
  lemma CaptureStaysSound(s: Inspection, e: Edit)
    requires Sound(s) && IsEditable(s.status) && Acceptable(s.content, e)
    ensures Sound(Edited(s, e))
  {
  }

  lemma AdminStaysSound(s: Inspection, actor: Actor, e: AdminEdit, base: Option<nat>)
    requires Sound(s)
    ensures Sound(AdminSave(s, actor, e, base).0)
  {
    AdminKeepsFrozen(s.form, s.status, s.content, s.snapshots, s.adminEdits, e);
  }

  lemma ReviewedStaysSound(s: Inspection, actor: Actor, e: ReviewEdit)
    requires Sound(s) && AwaitsReview(s.status)
    ensures Sound(Reviewed(s, actor, e))
  {
  }

  lemma ReviewStaysSound(s: Inspection, actor: Actor, e: ReviewEdit, base: Option<nat>)
    requires Sound(s)
    ensures Sound(EditReview(s, actor, e, base).0)
  {
    if ReviewError(s, actor, e, base).None? { ReviewedStaysSound(s, actor, e); }
  }

  lemma FeeStaysSound(s: Inspection, actor: Actor, op: Fees.FeeOp)
    requires Sound(s)
    ensures Sound(HandleFee(s, actor, op))
  {
    Fees.StepStaysTidy(s.fee, op);
  }

  lemma CapturingStaysSound(s: Inspection, op: Op)
    requires Sound(s) && (op.SaveOp? || op.PhotoOp? || op.SyncOp?)
    ensures Sound(Step(s, op))
  {
    match op {
      case SaveOp(actor, edit, base) =>
        if SaveContent(s, actor, edit, base).1.Done? { CaptureStaysSound(s, edit); }
      case PhotoOp(actor, photo) =>
        if ChangePhoto(s, actor, photo).1.Done? { CaptureStaysSound(s, photo); }
      case SyncOp(user, payload, base) =>
        if SyncApply(s, user, base, payload).1.Applied? { CaptureStaysSound(s, PayloadEdit(payload).value); }
    }
  }

  lemma StepStaysSound(s: Inspection, op: Op)
    requires Sound(s)
    ensures Sound(Step(s, op))
  {
    match op {
      case AssignOp(actor, inspector, eligible, reviewer, reason) =>
        AssignStaysSound(s, actor, inspector, eligible, reviewer, reason);
      case StartOp(actor) => StartStaysSound(s, actor);
      case SaveOp(_, _, _) => CapturingStaysSound(s, op);
      case PhotoOp(_, _) => CapturingStaysSound(s, op);
      case AdminOp(actor, change, base) => AdminStaysSound(s, actor, change, base);
      case SyncOp(_, _, _) => CapturingStaysSound(s, op);
      case SubmitOp(actor) => SubmitStaysSound(s, actor);
      case ReviewOp(actor, review, base) => ReviewStaysSound(s, actor, review, base);
      case DecideOp(actor, action, reason, base, reportStored) =>
        DecideStaysSound(s, actor, action, reason, base, reportStored);
      case ReportOp(actor, stored) => ReportStaysSound(s, actor, stored);
      case FeeOp(actor, fee) => FeeStaysSound(s, actor, fee);
    }
  }

  lemma {:induction false} RunsStaySound(s: Inspection, ops: seq<Op>)
    requires Sound(s)
    ensures Sound(Run(s, ops))
  {
    if ops != [] {
      RunsStaySound(s, ops[..|ops| - 1]);
      StepStaysSound(Run(s, ops[..|ops| - 1]), ops[|ops| - 1]);
    }
  }

  lemma CreationIsSound(form: Form, branch: BranchId, creator: UserId, inspectorId: Option<UserId>,
                        reviewerId: Option<UserId>)
    ensures Sound(Created(form, branch, creator, inspectorId, reviewerId))
  {
  }

  lemma ReachableIsSound(s: Inspection)
    requires Reachable(s)
    ensures Sound(s)
  {
    var form, branch, actor, inspector, reviewer, eligible, ops :|
      var created := Create(form, branch, actor, inspector, reviewer, eligible);
      created.Some? && s == Run(created.value, ops);
    RunsStaySound(Create(form, branch, actor, inspector, reviewer, eligible).value, ops);
  }

  function Path(events: seq<StatusEvent>): seq<Status> {
    seq(|events|, i requires 0 <= i < |events| => events[i].to)
  }

  /** The log is a legal path of the table from assignment to the current status. */
  lemma LogIsLegalPath(s: Inspection)
    requires Reachable(s)
    ensures s.events != [] && Path(s.events)[0] == Assigned && Path(s.events)[|s.events| - 1] == s.status
    ensures LegalPath(Path(s.events))
    ensures forall k :: 0 < k < |s.events| ==> s.events[k].from == Some(s.events[k - 1].to)
  {
    ReachableIsSound(s);
    forall k | 0 < k < |s.events|
      ensures LegalStep(Path(s.events)[k - 1], Path(s.events)[k]) && s.events[k].from == Some(s.events[k - 1].to)
    {
      assert Follows(s.events[k - 1], s.events[k]);
    }
  }

  /** Snapshot rounds are 1..submissionCount; the count exceeds the correction requests by one exactly while the
      inspection is handed in; at most the last correction is open, and none while it is handed in. */
  lemma RoundsAndCorrectionsAgree(s: Inspection)
    requires Reachable(s)
    ensures |s.snapshots| == s.submissionCount
    ensures forall i :: 0 <= i < |s.snapshots| ==> s.snapshots[i].round == i + 1
    ensures HandedIn(s.status) <==> s.submissionCount == |s.corrections| + 1
    ensures !HandedIn(s.status) <==> s.submissionCount == |s.corrections|
    ensures forall i :: 0 <= i < |s.corrections| && !s.corrections[i].resolved ==>
              i == |s.corrections| - 1 && !HandedIn(s.status)
    ensures s.status == CorrectionRequested ==> s.corrections != [] && !s.corrections[|s.corrections| - 1].resolved
  {
    ReachableIsSound(s);
  }

  /** Whoever claims, approves, rejects or returns an inspection is not the one who submitted it last. */
  lemma NobodyReviewsOwnSubmission(s: Inspection, k: nat)
    requires Reachable(s) && k < |s.events| && Decided(s.events[k].to)
    ensures LastSubmitter(s.events[..k]).Some? && LastSubmitter(s.events[..k]) != Some(s.events[k].actor)
  {
    ReachableIsSound(s);
    assert Foreign(s.events[..k], s.events[k]);
  }

  /** For as long as an approval stands, the record holds a risk, a conclusion, the values of land and property, of
      the main building too where the property reads as improved, a map and the whole status information, under the
      reviewer who approved. */
  lemma ApprovalPrerequisitesStand(s: Inspection)
    requires Reachable(s) && s.status in {Approved, ReportGenerated}
    ensures s.review.risk.Some? && (SameButCase(s.review.risk.value, "LOW")
                                    || SameButCase(s.review.risk.value, "MEDIUM")
                                    || SameButCase(s.review.risk.value, "HIGH"))
    ensures s.review.conclusion.Some?
            && exists i :: 0 <= i < |s.review.conclusion.value| && !IsSpace(s.review.conclusion.value[i])
    ensures s.review.valuation.Some? && s.review.valuation.value.landValue.Some?
            && s.review.valuation.value.totalEstimatedValue.Some?
    ensures InspectionRules.AnswerReads(s.form, s.content, "PROPERTY_STATUS", "IMPROVED") ==>
              s.review.valuation.value.mainBuildingValue.Some?
    ensures s.review.mapImage.Some?
    ensures s.review.information.mortgage.Some? && s.review.information.mortgage.value != ""
    ensures s.review.information.restriction.Some? && s.review.information.restriction.value != ""
    ensures s.review.information.process.Some? && s.review.information.process.value != ""
    ensures s.review.information.leaseMonths.Some?
    ensures s.reviewerId.Some? && s.reviewerId == Approver(s.events)
  {
    ReachableIsSound(s);
    InspectionRules.ReadyMeansPrerequisites(s);
  }

  /** A handed-in inspection is its latest snapshot plus the administrators' audited edits since, that snapshot was
      complete when taken, and without such edits the two are equal. */
  lemma HandedInRecordIsItsSnapshot(s: Inspection)
    requires Reachable(s) && HandedIn(s.status)
    ensures 0 < s.submissionCount == |s.snapshots| && s.snapshots[s.submissionCount - 1].round == s.submissionCount
    ensures var taken := s.snapshots[s.submissionCount - 1].content;
            && ReadyToSubmit(s.form, taken)
            && s.content == Replay(s.form, taken, s.adminEdits)
            && s.content == taken.(values := s.content.values, owner := s.content.owner)
            && (s.adminEdits == [] ==> s.content == taken)
  {
    ReachableIsSound(s);
    ReplayTouchesValuesAndOwnerOnly(s.form, s.snapshots[s.submissionCount - 1].content, s.adminEdits);
  }

  ghost predicate Framed(s: Inspection, s': Inspection) {
    s'.form == s.form && (s'.adminEdits == s.adminEdits || s'.adminEdits == [])
  }

  lemma DecideFrame(s: Inspection, actor: Actor, action: Decision, reason: Option<string>, base: Option<nat>,
                    reportStored: bool)
    ensures Framed(s, Decide(s, actor, action, reason, base, reportStored).0)
  {
  }

  lemma StepFrame(s: Inspection, op: Op)
    ensures Step(s, op).form == s.form && (!op.AdminOp? ==> Framed(s, Step(s, op)))
  {
    if op.DecideOp? { DecideFrame(s, op.actor, op.action, op.reason, op.base, op.reportStored); }
  }

  lemma {:induction false} RunFrame(s: Inspection, ops: seq<Op>)
    ensures Run(s, ops).form == s.form
    ensures s.adminEdits == [] && (forall i :: 0 <= i < |ops| ==> !ops[i].AdminOp?) ==> Run(s, ops).adminEdits == []
  {
    if ops != [] {
      RunFrame(s, ops[..|ops| - 1]);
      StepFrame(Run(s, ops[..|ops| - 1]), ops[|ops| - 1]);
    }
  }

  /** In every run without administrator edits a handed-in inspection equals the snapshot of its round. */
  lemma FrozenWithoutAdmins(
    form: Form, branch: BranchId, actor: Actor, inspector: Option<UserId>, reviewer: Option<UserId>,
    eligible: set<UserId>, ops: seq<Op>)
    requires Create(form, branch, actor, inspector, reviewer, eligible).Some?
    requires forall i :: 0 <= i < |ops| ==> !ops[i].AdminOp?
    ensures var s := Run(Create(form, branch, actor, inspector, reviewer, eligible).value, ops);
            HandedIn(s.status) ==>
              s.submissionCount > 0 && |s.snapshots| == s.submissionCount
              && s.snapshots[s.submissionCount - 1] == Snapshot(s.submissionCount, s.content)
              && ReadyToSubmit(form, s.content)
  {
    var created := Create(form, branch, actor, inspector, reviewer, eligible);
    var s := Run(created.value, ops);
    assert Reachable(s);
    ReachableIsSound(s);
    RunFrame(created.value, ops);
  }

  /** An inspection that has left the assigned state has a settled fee. */
  lemma StartedMeansPaid(s: Inspection)
    requires Reachable(s) && s.status != Assigned
    ensures Fees.StatusOf(s.fee) == Some(Successful) && s.fee.value.settledAt.Some?
  {
    ReachableIsSound(s);
  }

  // ------------------------------------------------------------------ who may write what

  /** A capture request of the assigned inspector while content may be edited, or an administrator's edit before
      approval. */
  predicate WriterOfContent(s: Inspection, op: Op) {
    match op
    case AdminOp(actor, _, _) => IsAdmin(actor) && !Final(s.status)
    case SaveOp(actor, _, _) => IsEditable(s.status) && s.inspectorId == Some(actor.id)
    case PhotoOp(actor, _) => IsEditable(s.status) && s.inspectorId == Some(actor.id)
    case SyncOp(user, _, _) => IsEditable(s.status) && s.inspectorId == Some(user)
    case _ => false
  }

  /** A review request of the reviewer who claimed the inspection, or of any reviewer while nobody has. */
  predicate WriterOfReview(s: Inspection, op: Op) {
    && op.ReviewOp? && "reviews.decide" in op.actor.permissions
    && AwaitsReview(s.status) && (s.reviewerId.None? || s.reviewerId == Some(op.actor.id))
  }

  lemma ContentStep(s: Inspection, op: Op)
    ensures Step(s, op).content == s.content || WriterOfContent(s, op)
  {
  }

  lemma ReviewStep(s: Inspection, op: Op)
    ensures Step(s, op).review == s.review || WriterOfReview(s, op)
  {
  }

  /** The request at this place writes content, came from somebody entitled to in the state it met, and changed it. */
  ghost predicate ContentWrittenAt(s: Inspection, ops: seq<Op>, k: int) {
    && 0 <= k < |ops| && WriterOfContent(Run(s, ops[..k]), ops[k])
    && Step(Run(s, ops[..k]), ops[k]).content != Run(s, ops[..k]).content
  }

  ghost predicate ReviewWrittenAt(s: Inspection, ops: seq<Op>, k: int) {
    && 0 <= k < |ops| && WriterOfReview(Run(s, ops[..k]), ops[k])
    && Step(Run(s, ops[..k]), ops[k]).review != Run(s, ops[..k]).review
  }

  lemma {:induction false} ContentHasItsWriters(s: Inspection, ops: seq<Op>)
    ensures Run(s, ops).content == s.content || exists k :: ContentWrittenAt(s, ops, k)
  {
    if ops != [] {
      var init, n := ops[..|ops| - 1], |ops| - 1;
      ContentHasItsWriters(s, init);
      ContentStep(Run(s, init), ops[n]);
      if Run(s, init).content != s.content {
        var k :| ContentWrittenAt(s, init, k);
        assert init[..k] == ops[..k];
        assert ContentWrittenAt(s, ops, k);
      } else if Run(s, ops).content != s.content {
        assert ContentWrittenAt(s, ops, n);
      }
    }
  }

  lemma {:induction false} ReviewHasItsWriters(s: Inspection, ops: seq<Op>)
    ensures Run(s, ops).review == s.review || exists k :: ReviewWrittenAt(s, ops, k)
  {
    if ops != [] {
      var init, n := ops[..|ops| - 1], |ops| - 1;
      ReviewHasItsWriters(s, init);
      ReviewStep(Run(s, init), ops[n]);
      if Run(s, init).review != s.review {
        var k :| ReviewWrittenAt(s, init, k);
        assert init[..k] == ops[..k];
        assert ReviewWrittenAt(s, ops, k);
      } else if Run(s, ops).review != s.review {
        assert ReviewWrittenAt(s, ops, n);
      }
    }
  }

  /** Whenever content or review data differ between two moments, one of the requests between them was of the kind
      that writes them, came from somebody entitled to in the state it met, and changed them. */
  lemma ChangesHaveTheirWriters(s: Inspection, ops: seq<Op>)
    ensures Run(s, ops).content == s.content || exists k :: ContentWrittenAt(s, ops, k)
    ensures Run(s, ops).review == s.review || exists k :: ReviewWrittenAt(s, ops, k)
  {
    ContentHasItsWriters(s, ops);
    ReviewHasItsWriters(s, ops);
  }

  // ------------------------------------------------------------------ no lost update

  /** Everything the version guards: all of the record except its fee. */
  ghost predicate SameRecord(s: Inspection, s': Inspection) {
    s'.(fee := s.fee) == s
  }

  ghost predicate Raised(s: Inspection, s': Inspection) {
    s.version <= s'.version && (s.version == s'.version ==> SameRecord(s, s'))
  }

  lemma AssigningRaises(s: Inspection, actor: Actor, inspector: UserId, eligible: bool, reviewer: Option<UserId>,
                        reason: Option<string>)
    ensures Raised(s, AssignInspector(s, actor, inspector, eligible, reviewer, reason).0)
  {
  }

  lemma SubmittingRaises(s: Inspection, actor: Actor)
    ensures Raised(s, SubmitWork(s, actor).0)
  {
  }

  lemma ReportingRaises(s: Inspection, actor: Actor, stored: bool)
    ensures Raised(s, ReportFor(s, actor, stored).0)
  {
  }

  lemma DecidingRaises(s: Inspection, actor: Actor, action: Decision, reason: Option<string>, base: Option<nat>,
                       reportStored: bool)
    ensures Raised(s, Decide(s, actor, action, reason, base, reportStored).0)
  {
    if Decide(s, actor, action, reason, base, reportStored).1.Done? {
      var decided := DecidedBy(s, Transitions(action).to, actor, Trim(reason.GetOr("")));
      ReportingRaises(decided, actor, reportStored);
    }
  }

  lemma StepRaisesVersion(s: Inspection, op: Op)
    ensures Raised(s, Step(s, op))
  {
    match op {
      case AssignOp(actor, inspector, eligible, reviewer, reason) =>
        AssigningRaises(s, actor, inspector, eligible, reviewer, reason);
      case SubmitOp(actor) => SubmittingRaises(s, actor);
      case DecideOp(actor, action, reason, base, reportStored) =>
        DecidingRaises(s, actor, action, reason, base, reportStored);
      case ReportOp(actor, stored) => ReportingRaises(s, actor, stored);
      case _ =>
    }
  }

  /** Equal versions along a run mean an equal record. */
  lemma {:induction false} VersionIdentifiesRecord(s: Inspection, ops: seq<Op>)
    ensures s.version <= Run(s, ops).version
    ensures s.version == Run(s, ops).version ==> SameRecord(s, Run(s, ops))
  {
    if ops != [] {
      VersionIdentifiesRecord(s, ops[..|ops| - 1]);
      StepRaisesVersion(Run(s, ops[..|ops| - 1]), ops[|ops| - 1]);
    }
  }

  /** The base version a request carries, where its handler looks at one. */
  function BaseOf(op: Op): Option<nat> {
    match op
    case SaveOp(_, _, base) => base
    case AdminOp(_, _, base) => base
    case SyncOp(_, _, base) => base
    case ReviewOp(_, review, base) => if review.UploadMap? || review.RemoveMap? then None else base
    case DecideOp(_, _, _, base, _) => base
    case _ => None
  }

  predicate Accepted(s: Inspection, op: Op) {
    match op
    case SaveOp(actor, edit, base) => SaveContent(s, actor, edit, base).1.Done?
    case AdminOp(actor, change, base) => AdminSave(s, actor, change, base).1.Done?
    case SyncOp(user, payload, base) => SyncApply(s, user, base, payload).1.Applied?
    case ReviewOp(actor, review, base) => EditReview(s, actor, review, base).1.Done?
    case DecideOp(actor, action, reason, base, reportStored) =>
      Decide(s, actor, action, reason, base, reportStored).1.Done?
    case _ => true
  }

  /** A guarded write whose base version was really seen acts on exactly the record that was seen; once anything
      has been written since, it is refused and changes nothing. */
  lemma NoLostUpdate(seen: Inspection, ops: seq<Op>, op: Op)
    requires BaseOf(op) == Some(seen.version)
    ensures Accepted(Run(seen, ops), op) ==> SameRecord(seen, Run(seen, ops))
    ensures Run(seen, ops).version > seen.version ==>
              !Accepted(Run(seen, ops), op) && Step(Run(seen, ops), op) == Run(seen, ops)
  {
    VersionIdentifiesRecord(seen, ops);
  }
}
