/** One inspection and every handler that writes to it, each as a function from the stored state and the
    request to the new state and the reply. */
module Inspections {
  import opened Text
  import opened StateMachine
  import opened Completeness
  import opened Content
  import Fees

  type BranchId = nat

  /** The caller, as the authentication guard rebuilds it for each request. */
  datatype Actor = Actor(
    id: UserId, permissions: set<string>, roles: seq<string>, allBranches: bool, branches: set<BranchId>)

  datatype ReviewerValuation = ReviewerValuation(
    landValue: Option<real>, mainBuildingValue: Option<real>, totalEstimatedValue: Option<real>)

  datatype StatusInformation = StatusInformation(
    mortgage: Option<string>, restriction: Option<string>, process: Option<string>, leaseMonths: Option<int>)

  datatype Adjustment = Adjustment(reviewer: UserId, fieldCode: string, adjusted: string, reason: Option<string>)

  datatype Review = Review(
    risk: Option<string>, conclusion: Option<string>, valuation: Option<ReviewerValuation>,
    mapImage: Option<string>, information: StatusInformation, adjustments: seq<Adjustment>)

  datatype Snapshot = Snapshot(round: nat, content: Captured)
  datatype Correction = Correction(round: nat, requestedBy: UserId, reason: string, resolved: bool)
  datatype StatusEvent = StatusEvent(from: Option<Status>, to: Status, actor: UserId, round: Option<nat>)

  datatype Inspection = Inspection(
    form: Form, branch: BranchId,
    status: Status, inspectorId: Option<UserId>, reviewerId: Option<UserId>, submissionCount: nat, version: nat,
    content: Captured, review: Review,
    snapshots: seq<Snapshot>, corrections: seq<Correction>, events: seq<StatusEvent>,
    fee: Option<Fees.Fee>,
    adminEdits: seq<Edit> // the administrators' audited edits since the latest submission
  )

  datatype Error =
    | NotPermitted | NoBranchAccess | NotAssignedToYou | NotYourReview | AdminsOnly
    | NotEditable | NotFound | Invalid | Incomplete
    | RefusedBy(code: Refusal) | Stale(serverVersion: nat)

  datatype Reply = Done | Denied(error: Error)

  predicate CanAccess(actor: Actor, branch: BranchId) {
    actor.allBranches || branch in actor.branches
  }

  /** The optimistic-concurrency test: only a version older than the stored one is refused. */
  predicate StaleBase(s: Inspection, base: Option<nat>) {
    base.Some? && base.value < s.version
  }

  function ContextOf(
    s: Inspection, actor: Actor, action: Action, submittedBy: Option<UserId>, reason: Option<string>,
    fee: Option<FeeStatus>): Context
  {
    Context(action, s.status, actor.id, actor.permissions, s.inspectorId, submittedBy, reason, fee)
  }

  function Moved(s: Inspection, to: Status, actor: Actor, round: Option<nat>): Inspection {
    s.(status := to, version := s.version + 1, events := s.events + [StatusEvent(Some(s.status), to, actor.id, round)])
  }

  // ------------------------------------------------------------------ creation and assignment

  const NO_REVIEW := Review(None, None, None, None, StatusInformation(None, None, None, None), [])

  /** `eligible` holds the active users who may carry out inspections. */
  function Create(form: Form, branch: BranchId, actor: Actor, inspector: Option<UserId>, reviewer: Option<UserId>,
                  eligible: set<UserId>): Option<Inspection>
  {
    var canAssign := "inspections.assign" in actor.permissions;
    var byInspector := !canAssign && "inspections.write" in actor.permissions;
    var inspectorId := if inspector.Some? then inspector else if byInspector then Some(actor.id) else None;
    if "inspections.create" !in actor.permissions || !CanAccess(actor, branch) then None
    else if byInspector && inspector.Some? && inspector != Some(actor.id) then None
    else if inspectorId.Some? && inspectorId.value !in eligible then None
    else Some(Created(form, branch, actor.id, inspectorId, if canAssign then reviewer else None))
  }

  function Created(form: Form, branch: BranchId, creator: UserId, inspectorId: Option<UserId>,
                   reviewerId: Option<UserId>): Inspection
  {
    Inspection(form, branch, Assigned, inspectorId, reviewerId, 0, 1, Unfilled(form), NO_REVIEW, [], [],
               [StatusEvent(None, Assigned, creator, None)], None, [])
  }

  function AssignInspector(s: Inspection, actor: Actor, inspector: UserId, eligible: bool, reviewer: Option<UserId>,
                  reason: Option<string>): (Inspection, Reply)
  {
    var action := if s.inspectorId.Some? && s.inspectorId != Some(inspector) then Reassign else Assign;
    var outcome := EvaluateTransition(ContextOf(s, actor, action, None, reason, None));
    if !CanAccess(actor, s.branch) then (s, Denied(NoBranchAccess))
    else if outcome.Refused? then (s, Denied(RefusedBy(outcome.code)))
    else if !eligible then (s, Denied(NotFound))
    else (AssignedTo(s, actor, inspector, if reviewer.Some? then reviewer else s.reviewerId), Done)
  }

  function AssignedTo(s: Inspection, actor: Actor, inspector: UserId, reviewer: Option<UserId>): Inspection {
    Moved(s, Assigned, actor, None).(inspectorId := Some(inspector), reviewerId := reviewer)
  }

  function StartWork(s: Inspection, actor: Actor): (Inspection, Reply) {
    var outcome := EvaluateTransition(ContextOf(s, actor, Start, None, None, Fees.StatusOf(s.fee)));
    if !CanAccess(actor, s.branch) then (s, Denied(NoBranchAccess))
    else if outcome.Refused? then (s, Denied(RefusedBy(outcome.code)))
    else (Moved(s, outcome.nextStatus, actor, None), Done)
  }

  // ------------------------------------------------------------------ content capture

  type FormEdit = e: Edit | e.SetValues? || e.SetAssessment? || e.SetOwner? || e.SetValuation? || e.AddLocation?
    witness SetValues([])
  type PhotoEdit = e: Edit | e.AddPhoto? || e.RemovePhoto? witness RemovePhoto(0)
  type AdminEdit = e: Edit | e.SetValues? || e.SetOwner? witness SetValues([])

  function Edited(s: Inspection, e: Edit): Inspection
    requires Acceptable(s.content, e)
  {
    s.(content := Apply(s.form, s.content, e), version := s.version + 1)
  }

  function SaveContent(s: Inspection, actor: Actor, e: FormEdit, base: Option<nat>): (Inspection, Reply) {
    if "inspections.write" !in actor.permissions then (s, Denied(NotPermitted))
    else if !CanAccess(actor, s.branch) then (s, Denied(NoBranchAccess))
    else if s.inspectorId != Some(actor.id) then (s, Denied(NotAssignedToYou))
    else if !IsEditable(s.status) then (s, Denied(NotEditable))
    else if StaleBase(s, base) then (s, Denied(Stale(s.version)))
    else if !Acceptable(s.content, e) then (s, Denied(Invalid))
    else (Edited(s, e), Done)
  }

  function ChangePhoto(s: Inspection, actor: Actor, e: PhotoEdit): (Inspection, Reply) {
    if "inspections.write" !in actor.permissions then (s, Denied(NotPermitted))
    else if !Acceptable(s.content, e) then (s, Denied(NotFound))
    else if s.inspectorId != Some(actor.id) then (s, Denied(NotAssignedToYou))
    else if !IsEditable(s.status) then (s, Denied(NotEditable))
    else if Duplicate(s.content, e) then (s, Done)
    else (Edited(s, e), Done)
  }

  predicate IsAdmin(actor: Actor) {
    exists i | 0 <= i < |actor.roles| :: Lower(Trim(actor.roles[i])) == "admin"
  }

  function AdminSave(s: Inspection, actor: Actor, e: AdminEdit, base: Option<nat>): (Inspection, Reply) {
    if !IsAdmin(actor) || "inspections.write" !in actor.permissions then (s, Denied(AdminsOnly))
    else if !CanAccess(actor, s.branch) then (s, Denied(NoBranchAccess))
    else if Final(s.status) then (s, Denied(NotEditable))
    else if StaleBase(s, base) then (s, Denied(Stale(s.version)))
    else (Edited(s, e).(adminEdits := s.adminEdits + [e]), Done)
  }

  // ------------------------------------------------------------------ offline synchronisation of one operation

  datatype SyncPayload =
    | UpsertValues(entries: seq<SubmittedValue>)
    | UpsertAssessment(code: string, name: Option<string>, rating: Option<int>, condition: Option<string>,
                       notes: Option<string>, sortOrder: Option<int>)
    | UpsertOwner(owner: Owner)
    | UpsertValuation(valuation: Valuation)
    | PushLocation(location: Location)
    | Unsupported

  datatype SyncOutcome = Applied(version: nat) | Conflict(serverVersion: nat) | Rejected

  /** The edit a payload asks for; none when it is not acceptable. */
  function PayloadEdit(p: SyncPayload): Option<Edit> {
    match p
    case UpsertValues(entries) => Some(SetValues(entries))
    case UpsertAssessment(code, name, rating, condition, notes, sortOrder) =>
      if code == "" then None
      else Some(PutAssessment(code, Assessment(name.GetOr(code), rating, condition, notes, sortOrder.GetOr(0))))
    case UpsertOwner(owner) =>
      if Blank(owner.fullName) then None else Some(SetOwner(owner.(fullName := Trim(owner.fullName))))
    case UpsertValuation(valuation) => Some(SetValuation(valuation))
    case PushLocation(l) => if PlausibleCoordinate(l.latitude, l.longitude) then Some(AddLocation(l)) else None
    case Unsupported => None
  }

  function SyncApply(s: Inspection, user: UserId, base: Option<nat>, p: SyncPayload): (Inspection, SyncOutcome) {
    if s.inspectorId != Some(user) then (s, SyncOutcome.Rejected)
    else if !IsEditable(s.status) || StaleBase(s, base) then (s, Conflict(s.version))
    else if PayloadEdit(p).None? then (s, SyncOutcome.Rejected)
    else (Edited(s, PayloadEdit(p).value), Applied(s.version + 1))
  }

  // ------------------------------------------------------------------ submission

  function SubmitWork(s: Inspection, actor: Actor): (Inspection, Reply) {
    var action := if s.status == CorrectionRequested then Resubmit else Submit;
    var outcome := EvaluateTransition(ContextOf(s, actor, action, None, None, None));
    if !CanAccess(actor, s.branch) then (s, Denied(NoBranchAccess))
    else if outcome.Refused? then (s, Denied(RefusedBy(outcome.code)))
    else if !ReadyToSubmit(s.form, s.content) then (s, Denied(Incomplete))
    else (NextRound(s, outcome.nextStatus, actor), Done)
  }

  function Opened(s: Inspection, round: nat): Inspection {
    s.(submissionCount := round,
       snapshots := s.snapshots + [Snapshot(round, s.content)],
       corrections := ResolveAll(s.corrections),
       adminEdits := [])
  }

  function NextRound(s: Inspection, to: Status, actor: Actor): Inspection {
    var round := s.submissionCount + 1;
    Moved(Opened(s, round), to, actor, Some(round))
  }

  function ResolveAll(corrections: seq<Correction>): seq<Correction> {
    seq(|corrections|, i requires 0 <= i < |corrections| => corrections[i].(resolved := true))
  }

  // ------------------------------------------------------------------ professional review

  datatype ReviewEdit =
    | AddAdjustment(fieldCode: string, adjusted: string, reason: Option<string>)
    | SetRisk(level: string)
    | SetConclusion(conclusion: string)
    | SetReviewerValuation(valuation: ReviewerValuation)
    | SetStatusInformation(information: StatusInformation)
    | UploadMap(image: string)
    | RemoveMap

  const RISK_LEVELS := ["LOW", "MEDIUM", "HIGH"]

  predicate HasValueFor(s: Inspection, code: string) {
    exists i, j | 0 <= i < |s.form.sections| && 0 <= j < |s.form.sections[i].fields| ::
      s.form.sections[i].fields[j].code == code && s.form.sections[i].fields[j].id in s.content.values
  }

  predicate ReviewEditValid(s: Inspection, e: ReviewEdit) {
    match e
    case AddAdjustment(code, _, _) => Trim(code) != "" && HasValueFor(s, Trim(code))
    case SetRisk(level) => Upper(Trim(level)) in RISK_LEVELS
    case _ => true
  }

  function ApplyReview(r: Review, reviewer: UserId, e: ReviewEdit): Review {
    match e
    case AddAdjustment(code, adjusted, reason) =>
      r.(adjustments := r.adjustments + [Adjustment(reviewer, Trim(code), adjusted, reason)])
    case SetRisk(level) => r.(risk := Some(Upper(Trim(level))))
    case SetConclusion(conclusion) => r.(conclusion := Some(Trim(conclusion)))
    case SetReviewerValuation(valuation) => r.(valuation := Some(valuation))
    case SetStatusInformation(information) => r.(information := information)
    case UploadMap(image) => r.(mapImage := Some(image))
    case RemoveMap => r.(mapImage := None)
  }

  function Reviewed(s: Inspection, actor: Actor, e: ReviewEdit): Inspection {
    s.(review := ApplyReview(s.review, actor.id, e), version := s.version + 1)
  }

  /** Why a review request is refused, if it is: the map has guards of its own. */
  function ReviewError(s: Inspection, actor: Actor, e: ReviewEdit, base: Option<nat>): Option<Error> {
    if "reviews.decide" !in actor.permissions then Some(NotPermitted)
    else if !CanAccess(actor, s.branch) then Some(NoBranchAccess)
    else if e.UploadMap? || e.RemoveMap? then
      if !AwaitsReview(s.status) then Some(NotEditable)
      else if s.reviewerId != Some(actor.id) then Some(NotYourReview)
      else if e.RemoveMap? && s.review.mapImage.None? then Some(NotFound)
      else None
    else if s.reviewerId.Some? && s.reviewerId != Some(actor.id) then Some(NotYourReview)
    else if (e.SetReviewerValuation? || e.SetStatusInformation?) && s.reviewerId.None? then Some(NotYourReview)
    else if !AwaitsReview(s.status) then Some(NotEditable)
    else if StaleBase(s, base) then Some(Stale(s.version))
    else if !ReviewEditValid(s, e) then Some(Invalid)
    else None
  }

  function EditReview(s: Inspection, actor: Actor, e: ReviewEdit, base: Option<nat>): (Inspection, Reply) {
    var error := ReviewError(s, actor, e, base);
    if error.Some? then (s, Denied(error.value)) else (Reviewed(s, actor, e), Done)
  }

  // ------------------------------------------------------------------ decisions and reports

  type Decision = a: Action | a in {BeginReview, Approve, Reject, RequestCorrection} witness BeginReview

  /** The stored answer of the first answered field with this code. */
  function RowOfCode(flat: seq<Placed>, values: map<FieldId, FieldValue>, code: string): Option<FieldValue> {
    if flat == [] then None
    else if flat[0].field.code == code && flat[0].field.id in values then Some(values[flat[0].field.id])
    else RowOfCode(flat[1..], values, code)
  }

  function PropertyStatus(form: Form, c: Captured): string {
    match RowOfCode(Flat(form.sections), c.values, "PROPERTY_STATUS")
    case None => ""
    case Some(v) => if v.text.Some? then v.text.value else Rendered(v.json.GetOr(Absent))
  }

  predicate Stated(text: Option<string>) {
    text.Some? && text.value != ""
  }

  /** Everything an approval needs besides the reviewer who claimed the inspection. */
  predicate ApprovalReady(form: Form, c: Captured, r: Review) {
    && r.risk.Some? && Upper(r.risk.value) in RISK_LEVELS
    && r.conclusion.Some? && !Blank(r.conclusion.value)
    && r.valuation.Some? && r.valuation.value.landValue.Some? && r.valuation.value.totalEstimatedValue.Some?
    && (Upper(PropertyStatus(form, c)) == "IMPROVED" ==> r.valuation.value.mainBuildingValue.Some?)
    && r.mapImage.Some?
    && Stated(r.information.mortgage) && Stated(r.information.restriction) && Stated(r.information.process)
    && r.information.leaseMonths.Some?
  }

  /** Why a decision is refused, if it is. */
  function DecisionError(s: Inspection, actor: Actor, action: Decision, reason: Option<string>,
                         base: Option<nat>): Option<Error>
  {
    var outcome := EvaluateTransition(ContextOf(s, actor, action, s.inspectorId, reason, None));
    if !CanAccess(actor, s.branch) then Some(NoBranchAccess)
    else if StaleBase(s, base) then Some(Stale(s.version))
    else if outcome.Refused? then Some(RefusedBy(outcome.code))
    else if action == Approve && !ApprovalReady(s.form, s.content, s.review) then Some(Invalid)
    else if action == Approve && s.reviewerId != Some(actor.id) then Some(NotYourReview)
    else None
  }

  /** The record after a decision that nothing stands against; an approval generates the report at once. */
  function Concluded(s: Inspection, actor: Actor, action: Decision, reason: Option<string>,
                     reportStored: bool): Inspection
  {
    var decided := DecidedBy(s, Transitions(action).to, actor, Trim(reason.GetOr("")));
    if action == Approve then ReportFor(decided, actor, reportStored).0 else decided
  }

  function Decide(s: Inspection, actor: Actor, action: Decision, reason: Option<string>, base: Option<nat>,
                  reportStored: bool): (Inspection, Reply)
  {
    var error := DecisionError(s, actor, action, reason, base);
    if error.Some? then (s, Denied(error.value)) else (Concluded(s, actor, action, reason, reportStored), Done)
  }

  function DecidedBy(s: Inspection, to: Status, actor: Actor, reason: string): Inspection {
    var decided := Moved(s, to, actor, Some(s.submissionCount)).(reviewerId := Some(actor.id));
    if to != CorrectionRequested then decided
    else decided.(corrections := s.corrections + [Correction(s.submissionCount, actor.id, reason, false)])
  }

  /** `stored` tells whether rendering and storing the documents succeeded. */
  function ReportFor(s: Inspection, actor: Actor, stored: bool): (Inspection, Reply) {
    var outcome := EvaluateTransition(ContextOf(s, actor, GenerateReport, None, None, None));
    if outcome.Refused? then (s, Denied(RefusedBy(outcome.code)))
    else if !CanAccess(actor, s.branch) then (s, Denied(NoBranchAccess))
    else if !stored then (s, Denied(Invalid))
    else if s.status == ReportGenerated then (s, Done)
    else (Moved(s, ReportGenerated, actor, None), Done)
  }

  // ------------------------------------------------------------------ the fee

  /** Webhooks come from the provider; the other routes ask for a permission. */
  predicate MayCall(actor: Actor, op: Fees.FeeOp) {
    match op
    case Request(_, _, _, _) => "inspections.write" in actor.permissions
    case Poll(_, _) => "inspections.read" in actor.permissions
    case Webhook(_, _, _) => true
  }

  function HandleFee(s: Inspection, actor: Actor, op: Fees.FeeOp): Inspection {
    if !MayCall(actor, op) || (!op.Webhook? && !CanAccess(actor, s.branch)) then s
    else if op.Request? && !Fees.MayRequest(actor.id, s.inspectorId, s.status) then s
    else s.(fee := Fees.FeeStep(s.fee, op))
  }

  // ------------------------------------------------------------------ runs

  datatype Op =
    | AssignOp(actor: Actor, inspector: UserId, eligible: bool, reviewer: Option<UserId>, reason: Option<string>)
    | StartOp(actor: Actor)
    | SaveOp(actor: Actor, edit: FormEdit, base: Option<nat>)
    | PhotoOp(actor: Actor, photo: PhotoEdit)
    | AdminOp(actor: Actor, change: AdminEdit, base: Option<nat>)
    | SyncOp(user: UserId, payload: SyncPayload, base: Option<nat>)
    | SubmitOp(actor: Actor)
    | ReviewOp(actor: Actor, review: ReviewEdit, base: Option<nat>)
    | DecideOp(actor: Actor, action: Decision, reason: Option<string>, base: Option<nat>, reportStored: bool)
    | ReportOp(actor: Actor, stored: bool)
    | FeeOp(actor: Actor, fee: Fees.FeeOp)

  function Step(s: Inspection, op: Op): Inspection {
    match op
    case AssignOp(actor, inspector, eligible, reviewer, reason) =>
      AssignInspector(s, actor, inspector, eligible, reviewer, reason).0
    case StartOp(actor) => StartWork(s, actor).0
    case SaveOp(actor, edit, base) => SaveContent(s, actor, edit, base).0
    case PhotoOp(actor, photo) => ChangePhoto(s, actor, photo).0
    case AdminOp(actor, change, base) => AdminSave(s, actor, change, base).0
    case SyncOp(user, payload, base) => SyncApply(s, user, base, payload).0
    case SubmitOp(actor) => SubmitWork(s, actor).0
    case ReviewOp(actor, review, base) => EditReview(s, actor, review, base).0
    case DecideOp(actor, action, reason, base, reportStored) => Decide(s, actor, action, reason, base, reportStored).0
    case ReportOp(actor, stored) => ReportFor(s, actor, stored).0
    case FeeOp(actor, fee) => HandleFee(s, actor, fee)
  }

  function Run(s: Inspection, ops: seq<Op>): Inspection {
    if ops == [] then s else Step(Run(s, ops[..|ops| - 1]), ops[|ops| - 1])
  }

  /** A state that some run from some creation leads to. */
  ghost predicate Reachable(s: Inspection) {
    exists form, branch, actor, inspector, reviewer, eligible, ops ::
      var created := Create(form, branch, actor, inspector, reviewer, eligible);
      created.Some? && s == Run(created.value, ops)
  }
}
