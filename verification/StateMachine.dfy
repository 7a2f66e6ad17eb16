/** The inspection lifecycle as a table, and the one function that answers whether an action may happen. */
module StateMachine {
  import opened Text

  datatype Status =
    | Assigned | InProgress | Submitted | UnderReview | CorrectionRequested
    | Resubmitted | Approved | Rejected | ReportGenerated | Archived

  datatype Action =
    | Assign | Reassign | Start | Submit | BeginReview | Approve | Reject
    | RequestCorrection | Resubmit | GenerateReport | Archive

  datatype FeeStatus = Pending | Processing | Successful | Failed

  datatype Rule = Rule(
    from: set<Status>,
    to: Status,
    permission: string,
    assigneeOnly: bool := false,
    forbidSelfReview: bool := false,
    requiresReason: bool := false,
    requiresSettledFee: bool := false)

  function Transitions(action: Action): Rule {
    match action
    case Assign => Rule({Assigned}, Assigned, "inspections.assign")
    case Reassign =>
      Rule({Assigned, InProgress, CorrectionRequested}, Assigned, "inspections.assign", requiresReason := true)
    case Start =>
      Rule({Assigned}, InProgress, "inspections.write", assigneeOnly := true, requiresSettledFee := true)
    case Submit => Rule({InProgress}, Submitted, "inspections.write", assigneeOnly := true)
    case BeginReview => Rule({Submitted, Resubmitted}, UnderReview, "reviews.decide", forbidSelfReview := true)
    case Approve =>
      Rule({Submitted, Resubmitted, UnderReview}, Approved, "reviews.decide", forbidSelfReview := true)
    case Reject =>
      Rule({Submitted, Resubmitted, UnderReview}, Rejected, "reviews.decide",
           forbidSelfReview := true, requiresReason := true)
    case RequestCorrection =>
      Rule({Submitted, Resubmitted, UnderReview}, CorrectionRequested, "reviews.decide",
           forbidSelfReview := true, requiresReason := true)
    case Resubmit => Rule({CorrectionRequested}, Resubmitted, "inspections.write", assigneeOnly := true)
    case GenerateReport => Rule({Approved, ReportGenerated}, ReportGenerated, "reports.generate")
    case Archive => Rule({ReportGenerated, Rejected}, Archived, "inspections.archive")
  }

  /** What the caller knows when it asks for a transition. */
  datatype Context = Context(
    action: Action,
    currentStatus: Status,
    userId: UserId,
    permissions: set<string>,
    inspectorId: Option<UserId>,
    submittedById: Option<UserId>,
    reason: Option<string>,
    feeStatus: Option<FeeStatus>)

  datatype Refusal =
    | InvalidState | MissingPermission | NotAssignee | SelfReview | ReasonRequired | PaymentRequired

  datatype Outcome = Allowed(nextStatus: Status) | Refused(code: Refusal)

  function EvaluateTransition(ctx: Context): Outcome {
    var rule := Transitions(ctx.action);
    if ctx.currentStatus !in rule.from then Refused(InvalidState)
    else if rule.permission !in ctx.permissions then Refused(MissingPermission)
    else if rule.assigneeOnly && ctx.inspectorId != Some(ctx.userId) then Refused(NotAssignee)
    else if rule.forbidSelfReview && ctx.submittedById == Some(ctx.userId) then Refused(SelfReview)
    else if rule.requiresReason && Blank(ctx.reason.GetOr("")) then Refused(ReasonRequired)
    else if rule.requiresSettledFee && ctx.feeStatus != Some(Successful) then Refused(PaymentRequired)
    else Allowed(rule.to)
  }

  /** The inspector is in the field, or was sent back there. */
  predicate IsEditable(status: Status) {
    status.InProgress? || status.CorrectionRequested?
  }

  /** Handed in and not yet decided on. */
  predicate AwaitsReview(status: Status) {
    status.Submitted? || status.Resubmitted? || status.UnderReview?
  }

  /** Archiving, which no handler performs: rejected inspections and those with a report, by whoever may archive. */
  lemma ArchivingRule(ctx: Context)
    requires ctx.action == Archive
    ensures EvaluateTransition(ctx) == Allowed(Archived)
            <==> ctx.currentStatus in {ReportGenerated, Rejected} && "inspections.archive" in ctx.permissions
  {
  }

  /** Some action of the table leads from one status to the other. */
  predicate LegalStep(from: Status, to: Status) {
    exists action :: from in Transitions(action).from && to == Transitions(action).to
  }

  ghost predicate LegalPath(path: seq<Status>) {
    forall k :: 0 < k < |path| ==> LegalStep(path[k - 1], path[k])
  }

  /** Statuses from which the approved record can no longer be reopened. */
  predicate Final(status: Status) {
    status.Approved? || status.ReportGenerated? || status.Archived?
  }

  /** Every legal path that touches an approved record stays with it to the end. */
  lemma {:induction false} ApprovalIsFinal(path: seq<Status>, k: nat)
    requires LegalPath(path) && k < |path| && Final(path[k])
    ensures Final(path[|path| - 1])
    decreases |path| - k
  {
    if k + 1 < |path| {
      assert LegalStep(path[k + 1 - 1], path[k + 1]);
      ApprovalIsFinal(path, k + 1);
    }
  }

  /** A path from assignment to an approved record contains the approval itself, taken out of a review status. */
  lemma {:induction false} ApprovalPassesThroughReview(path: seq<Status>)
    requires LegalPath(path) && path != [] && path[0] == Assigned
    requires path[|path| - 1] in {Approved, ReportGenerated}
    ensures exists k :: 0 < k < |path| && AwaitsReview(path[k - 1]) && path[k] == Approved
  {
    var n := |path|;
    assert LegalStep(path[n - 2], path[n - 1]);
    if path[n - 1] == ReportGenerated {
      var shorter := path[..n - 1];
      forall k | 0 < k < |shorter| ensures LegalStep(shorter[k - 1], shorter[k]) {
        assert LegalStep(path[k - 1], path[k]);
      }
      ApprovalPassesThroughReview(shorter);
      var k :| 0 < k < |shorter| && AwaitsReview(shorter[k - 1]) && shorter[k] == Approved;
      assert AwaitsReview(path[k - 1]) && path[k] == Approved;
    }
  }
}
