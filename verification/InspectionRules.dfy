/** When each handler of an inspection accepts a request, and what the record is afterwards, in terms of the stored
    fields and the request alone. */
module InspectionRules {
  import opened Text
  import opened StateMachine
  import opened Completeness
  import opened Content
  import opened Inspections
  import Fees

  predicate Reaches(actor: Actor, s: Inspection) {
    actor.allBranches || s.branch in actor.branches
  }

  predicate UpToDate(s: Inspection, base: Option<nat>) {
    base.None? || base.value >= s.version
  }

  predicate HasInk(text: string) {
    exists i :: 0 <= i < |text| && !IsSpace(text[i])
  }

  predicate InReview(s: Inspection) {
    s.status in {Submitted, Resubmitted, UnderReview}
  }

  lemma InkIsNotBlank(text: string)
    ensures HasInk(text) <==> !Blank(text)
  {
    BlankMeansOnlySpace(text);
  }

  /** The record after one logged change of status. */
  function Logged(s: Inspection, to: Status, actor: Actor, round: Option<nat>): Inspection {
    s.(status := to, version := s.version + 1, events := s.events + [StatusEvent(Some(s.status), to, actor.id, round)])
  }

  // ------------------------------------------------------------------ creation, assignment and start

  /** Managers name any eligible inspector or none; inspectors create for themselves only. */
  predicate MayCreate(branch: BranchId, actor: Actor, inspector: Option<UserId>, eligible: set<UserId>) {
    && "inspections.create" in actor.permissions
    && (actor.allBranches || branch in actor.branches)
    && (inspector.Some? ==> inspector.value in eligible)
    && ("inspections.assign" !in actor.permissions && "inspections.write" in actor.permissions ==>
          inspector in {None, Some(actor.id)} && actor.id in eligible)
  }

  lemma CreationRule(form: Form, branch: BranchId, actor: Actor, inspector: Option<UserId>, reviewer: Option<UserId>,
                     eligible: set<UserId>)
    ensures var created := Create(form, branch, actor, inspector, reviewer, eligible);
            && (created.Some? <==> MayCreate(branch, actor, inspector, eligible))
            && (created.Some? ==>
                  var s := created.value;
                  && s.form == form && s.branch == branch
                  && s.status == Assigned && s.submissionCount == 0 && s.version == 1
                  && s.events == [StatusEvent(None, Assigned, actor.id, None)]
                  && s.snapshots == [] && s.corrections == [] && s.adminEdits == [] && s.fee.None?
                  && s.content == Captured(map[], SeedAssessments(form.sections), None, None, [], map[])
                  && s.inspectorId == (if inspector.Some? || "inspections.assign" in actor.permissions
                                          || "inspections.write" !in actor.permissions then inspector
                                       else Some(actor.id))
                  && s.reviewerId == (if "inspections.assign" in actor.permissions then reviewer else None))
  {
  }

  /** Taking an inspection from its inspector needs a reason and may happen in the field; otherwise it has not begun. */
  predicate MayAssign(s: Inspection, actor: Actor, inspector: UserId, eligible: bool, reason: Option<string>) {
    && Reaches(actor, s) && "inspections.assign" in actor.permissions && eligible
    && if s.inspectorId in {None, Some(inspector)} then s.status == Assigned
       else s.status in {Assigned, InProgress, CorrectionRequested} && reason.Some? && HasInk(reason.value)
  }

  lemma AssignmentRule(s: Inspection, actor: Actor, inspector: UserId, eligible: bool, reviewer: Option<UserId>,
                       reason: Option<string>)
    ensures var (after, reply) := AssignInspector(s, actor, inspector, eligible, reviewer, reason);
            && (reply.Done? <==> MayAssign(s, actor, inspector, eligible, reason))
            && after == if reply.Done?
                        then Logged(s, Assigned, actor, None).(
                               inspectorId := Some(inspector),
                               reviewerId := if reviewer.Some? then reviewer else s.reviewerId)
                        else s
  {
    InkIsNotBlank(reason.GetOr(""));
  }

  predicate MayStart(s: Inspection, actor: Actor) {
    && Reaches(actor, s) && "inspections.write" in actor.permissions
    && s.status == Assigned && s.inspectorId == Some(actor.id)
    && s.fee.Some? && s.fee.value.status == Successful
  }

  lemma StartRule(s: Inspection, actor: Actor)
    ensures StartWork(s, actor).1.Done? <==> MayStart(s, actor)
    ensures StartWork(s, actor).0 == if MayStart(s, actor) then Logged(s, InProgress, actor, None) else s
  {
  }

  // ------------------------------------------------------------------ capture

  /** The assigned inspector, in the field. */
  predicate InField(s: Inspection, user: UserId) {
    s.inspectorId == Some(user) && s.status in {InProgress, CorrectionRequested}
  }

  predicate Plausible(l: Location) {
    && -90.0 <= l.latitude <= 90.0 && -180.0 <= l.longitude <= 180.0
    && (l.latitude != 0.0 || l.longitude != 0.0)
  }

  predicate MaySave(s: Inspection, actor: Actor, e: FormEdit, base: Option<nat>) {
    && "inspections.write" in actor.permissions && Reaches(actor, s) && InField(s, actor.id) && UpToDate(s, base)
    && (e.AddLocation? ==> Plausible(e.location))
  }

  /** The edit was written, and nothing else but the version differs. */
  ghost predicate Captures(s: Inspection, after: Inspection, e: Edit) {
    && Wrote(s.form, s.content, after.content, e)
    && after == s.(content := after.content, version := s.version + 1)
  }

  lemma SavingRule(s: Inspection, actor: Actor, e: FormEdit, base: Option<nat>)
    ensures var (after, reply) := SaveContent(s, actor, e, base);
            && (reply.Done? <==> MaySave(s, actor, e, base))
            && (reply == Denied(Stale(s.version)) <==>
                  "inspections.write" in actor.permissions && Reaches(actor, s) && InField(s, actor.id)
                  && !UpToDate(s, base))
            && if reply.Done? then Captures(s, after, e) else after == s
  {
    if Acceptable(s.content, e) { ApplyWrites(s.form, s.content, e); }
  }

  predicate MayTouchPhotos(s: Inspection, actor: Actor) {
    "inspections.write" in actor.permissions && InField(s, actor.id)
  }

  lemma PhotographRule(s: Inspection, actor: Actor, id: PhotoId, category: Category)
    ensures var (after, reply) := ChangePhoto(s, actor, AddPhoto(id, category));
            && (reply.Done? <==> MayTouchPhotos(s, actor))
            && if reply.Done? && id !in s.content.photos then Captures(s, after, AddPhoto(id, category)) else after == s
    ensures var (after, reply) := ChangePhoto(s, actor, RemovePhoto(id));
            && (reply.Done? <==>
                  MayTouchPhotos(s, actor) && id in s.content.photos && s.content.photos[id].live)
            && if reply.Done? then Captures(s, after, RemovePhoto(id)) else after == s
  {
    ApplyWrites(s.form, s.content, AddPhoto(id, category));
    if Acceptable(s.content, RemovePhoto(id)) { ApplyWrites(s.form, s.content, RemovePhoto(id)); }
  }

  predicate MayCorrect(s: Inspection, actor: Actor, base: Option<nat>) {
    && (exists i | 0 <= i < |actor.roles| :: SameButCase(Trim(actor.roles[i]), "admin"))
    && "inspections.write" in actor.permissions && Reaches(actor, s)
    && s.status !in {Approved, ReportGenerated, Archived} && UpToDate(s, base)
  }

  lemma AdminRoles(actor: Actor)
    ensures IsAdmin(actor) <==> exists i | 0 <= i < |actor.roles| :: SameButCase(Trim(actor.roles[i]), "admin")
  {
    assert Lower("admin") == "admin";
    forall i | 0 <= i < |actor.roles|
      ensures Lower(Trim(actor.roles[i])) == "admin" <==> SameButCase(Trim(actor.roles[i]), "admin")
    {
      CaseMappingsForgetCase(Trim(actor.roles[i]), "admin");
    }
  }

  lemma CorrectingRule(s: Inspection, actor: Actor, e: AdminEdit, base: Option<nat>)
    ensures var (after, reply) := AdminSave(s, actor, e, base);
            && (reply.Done? <==> MayCorrect(s, actor, base))
            && if reply.Done? then Captures(s, after.(adminEdits := s.adminEdits), e)
                                   && after.adminEdits == s.adminEdits + [e]
               else after == s
  {
    AdminRoles(actor);
    ApplyWrites(s.form, s.content, e);
  }

  // ------------------------------------------------------------------ offline operations

  predicate Sendable(p: SyncPayload) {
    match p
    case UpsertValues(_) => true
    case UpsertAssessment(code, _, _, _, _, _) => code != ""
    case UpsertOwner(owner) => HasInk(owner.fullName)
    case UpsertValuation(_) => true
    case PushLocation(l) => Plausible(l)
    case Unsupported => false
  }

  /** What an applied operation leaves of the content; an assessment is replaced whole. */
  ghost predicate Synced(form: Form, c: Captured, after: Captured, p: SyncPayload) {
    match p
    case UpsertValues(entries) => after == c.(values := after.values) && Stored(form, c.values, after.values, entries)
    case UpsertAssessment(code, name, rating, condition, notes, sortOrder) =>
      after == c.(assessments := c.assessments[code :=
        Assessment(if name.Some? then name.value else code, rating, condition, notes,
                   if sortOrder.Some? then sortOrder.value else 0)])
    case UpsertOwner(owner) => after == c.(owner := Some(owner.(fullName := Trim(owner.fullName))))
    case UpsertValuation(valuation) => after == c.(valuation := Some(valuation))
    case PushLocation(location) => after == c.(locations := c.locations + [location])
    case Unsupported => false
  }

  lemma SyncRule(s: Inspection, user: UserId, base: Option<nat>, p: SyncPayload)
    ensures var (after, outcome) := SyncApply(s, user, base, p);
            && (outcome.Applied? <==> InField(s, user) && UpToDate(s, base) && Sendable(p))
            && (outcome.Conflict? <==> s.inspectorId == Some(user) && !(InField(s, user) && UpToDate(s, base)))
            && (outcome.Conflict? ==> outcome.serverVersion == s.version)
            && if outcome.Applied?
               then outcome.version == s.version + 1 && Synced(s.form, s.content, after.content, p)
                    && after == s.(content := after.content, version := s.version + 1)
               else after == s
  {
    if p.UpsertOwner? { InkIsNotBlank(p.owner.fullName); }
    if p.UpsertValues? { PutValuesStores(s.form, s.content.values, p.entries); }
  }

  // ------------------------------------------------------------------ submission

  predicate MaySubmit(s: Inspection, actor: Actor) {
    && Reaches(actor, s) && "inspections.write" in actor.permissions && InField(s, actor.id)
    && ReadyToSubmit(s.form, s.content)
  }

  /** The next round: its snapshot, no open correction, and no administrator's edit yet. */
  ghost predicate HandsIn(s: Inspection, after: Inspection, actor: Actor) {
    var round := s.submissionCount + 1;
    var to := if s.status == CorrectionRequested then Resubmitted else Submitted;
    && |after.corrections| == |s.corrections|
    && (forall i :: 0 <= i < |s.corrections| ==> after.corrections[i] == s.corrections[i].(resolved := true))
    && after == Logged(s, to, actor, Some(round)).(
                  submissionCount := round, snapshots := s.snapshots + [Snapshot(round, s.content)],
                  corrections := after.corrections, adminEdits := [])
  }

  lemma NextRoundHandsIn(s: Inspection, to: Status, actor: Actor)
    requires to == if s.status == CorrectionRequested then Resubmitted else Submitted
    ensures HandsIn(s, NextRound(s, to, actor), actor)
  {
  }

  lemma SubmissionRule(s: Inspection, actor: Actor)
    ensures var (after, reply) := SubmitWork(s, actor);
            && (reply.Done? <==> MaySubmit(s, actor))
            && if reply.Done? then HandsIn(s, after, actor) else after == s
  {
    NextRoundHandsIn(s, if s.status == CorrectionRequested then Resubmitted else Submitted, actor);
  }

  // ------------------------------------------------------------------ review

  predicate MayReview(s: Inspection, actor: Actor, e: ReviewEdit, base: Option<nat>) {
    && "reviews.decide" in actor.permissions && Reaches(actor, s) && InReview(s)
    && match e
       case UploadMap(_) => s.reviewerId == Some(actor.id)
       case RemoveMap => s.reviewerId == Some(actor.id) && s.review.mapImage.Some?
       case SetReviewerValuation(_) => s.reviewerId == Some(actor.id) && UpToDate(s, base)
       case SetStatusInformation(_) => s.reviewerId == Some(actor.id) && UpToDate(s, base)
       case AddAdjustment(code, _, _) =>
         s.reviewerId in {None, Some(actor.id)} && UpToDate(s, base) && HasInk(code)
         && exists k | 0 <= k < |Flat(s.form.sections)| ::
              Carries(Flat(s.form.sections), s.content.values, Trim(code), k)
       case SetRisk(level) =>
         s.reviewerId in {None, Some(actor.id)} && UpToDate(s, base)
         && (SameButCase(Trim(level), "LOW") || SameButCase(Trim(level), "MEDIUM") || SameButCase(Trim(level), "HIGH"))
       case SetConclusion(_) => s.reviewerId in {None, Some(actor.id)} && UpToDate(s, base)
  }

  predicate WroteReview(r: Review, after: Review, reviewer: UserId, e: ReviewEdit) {
    match e
    case AddAdjustment(code, adjusted, reason) =>
      after == r.(adjustments := r.adjustments + [Adjustment(reviewer, Trim(code), adjusted, reason)])
    case SetRisk(level) =>
      && after == r.(risk := after.risk)
      && after.risk in {Some("LOW"), Some("MEDIUM"), Some("HIGH")} && SameButCase(Trim(level), after.risk.value)
    case SetConclusion(conclusion) => after == r.(conclusion := Some(Trim(conclusion)))
    case SetReviewerValuation(valuation) => after == r.(valuation := Some(valuation))
    case SetStatusInformation(information) => after == r.(information := information)
    case UploadMap(image) => after == r.(mapImage := Some(image))
    case RemoveMap => after == r.(mapImage := None)
  }

  lemma RiskLevels(level: string)
    ensures Upper(level) in RISK_LEVELS <==>
            SameButCase(level, "LOW") || SameButCase(level, "MEDIUM") || SameButCase(level, "HIGH")
    ensures SameButCase(level, Upper(level))
  {
    CaseMappingsForgetCase(level, "LOW");
    CaseMappingsForgetCase(level, "MEDIUM");
    CaseMappingsForgetCase(level, "HIGH");
    assert Upper("LOW") == "LOW" && Upper("MEDIUM") == "MEDIUM" && Upper("HIGH") == "HIGH";
  }

  lemma AnsweredCode(s: Inspection, code: string)
    ensures HasValueFor(s, code) <==> exists k | 0 <= k < |Flat(s.form.sections)| ::
              Carries(Flat(s.form.sections), s.content.values, code, k)
  {
    var flat := Flat(s.form.sections);
    if HasValueFor(s, code) {
      var i, j :| 0 <= i < |s.form.sections| && 0 <= j < |s.form.sections[i].fields|
                  && s.form.sections[i].fields[j].code == code && s.form.sections[i].fields[j].id in s.content.values;
      var p := Placed(s.form.sections[i].code, s.form.sections[i].fields[j]);
      assert s.form.sections[i] in s.form.sections && p.field in s.form.sections[i].fields;
      FlatMembers(s.form.sections, p);
      var k :| 0 <= k < |flat| && flat[k] == p;
      assert Carries(flat, s.content.values, code, k);
    }
    if exists k | 0 <= k < |flat| :: Carries(flat, s.content.values, code, k) {
      var k :| 0 <= k < |flat| && Carries(flat, s.content.values, code, k);
      FlatMembers(s.form.sections, flat[k]);
      assert flat[k] in flat;
    }
  }

  lemma ReviewErrorRule(s: Inspection, actor: Actor, e: ReviewEdit, base: Option<nat>)
    ensures ReviewError(s, actor, e, base).None? <==> MayReview(s, actor, e, base)
  {
    if e.SetRisk? { RiskLevels(Trim(e.level)); }
    if e.AddAdjustment? {
      InkIsNotBlank(e.fieldCode);
      AnsweredCode(s, Trim(e.fieldCode));
    }
  }

  lemma ReviewRule(s: Inspection, actor: Actor, e: ReviewEdit, base: Option<nat>)
    ensures var (after, reply) := EditReview(s, actor, e, base);
            && (reply.Done? <==> MayReview(s, actor, e, base))
            && if reply.Done? then WroteReview(s.review, after.review, actor.id, e)
                                   && after == s.(review := after.review, version := s.version + 1)
               else after == s
  {
    ReviewErrorRule(s, actor, e, base);
    if e.SetRisk? { RiskLevels(Trim(e.level)); }
  }

  // ------------------------------------------------------------------ decisions

  /** The first answered field with this code reads, in any case, as this word. */
  predicate AnswerReads(form: Form, c: Captured, code: string, word: string) {
    var flat := Flat(form.sections);
    exists k | 0 <= k < |flat| ::
      && Carries(flat, c.values, code, k) && (forall i :: 0 <= i < k ==> !Carries(flat, c.values, code, i))
      && var v := c.values[flat[k].field.id];
         if v.text.Some? then SameButCase(v.text.value, word)
         else v.json.Some? && SameButCase(Rendered(v.json.value), word)
  }

  lemma {:induction false} RowOfCodeIsFirst(flat: seq<Placed>, values: map<FieldId, FieldValue>, code: string)
    returns (k: int)
    ensures if RowOfCode(flat, values, code).None? then forall i :: !Carries(flat, values, code, i)
            else Carries(flat, values, code, k) && (forall i :: 0 <= i < k ==> !Carries(flat, values, code, i))
                 && RowOfCode(flat, values, code) == Some(values[flat[k].field.id])
  {
    k := 0;
    if flat != [] && !Carries(flat, values, code, 0) {
      k := RowOfCodeIsFirst(flat[1..], values, code);
      assert forall i :: i > 0 ==> (Carries(flat, values, code, i) <==> Carries(flat[1..], values, code, i - 1));
      k := k + 1;
    }
  }

  lemma PropertyStatusReads(form: Form, c: Captured, word: string)
    requires word != "" && Upper(word) == word
    ensures Upper(PropertyStatus(form, c)) == word <==> AnswerReads(form, c, "PROPERTY_STATUS", word)
  {
    var k := RowOfCodeIsFirst(Flat(form.sections), c.values, "PROPERTY_STATUS");
    CaseMappingsForgetCase(PropertyStatus(form, c), word);
  }

  /** What the reviewer must have put on record before an approval. */
  predicate Prerequisites(s: Inspection) {
    var r := s.review;
    && r.risk.Some?
    && (SameButCase(r.risk.value, "LOW") || SameButCase(r.risk.value, "MEDIUM") || SameButCase(r.risk.value, "HIGH"))
    && r.conclusion.Some? && HasInk(r.conclusion.value)
    && r.valuation.Some? && r.valuation.value.landValue.Some? && r.valuation.value.totalEstimatedValue.Some?
    && (AnswerReads(s.form, s.content, "PROPERTY_STATUS", "IMPROVED") ==> r.valuation.value.mainBuildingValue.Some?)
    && r.mapImage.Some?
    && r.information.mortgage.Some? && r.information.mortgage.value != ""
    && r.information.restriction.Some? && r.information.restriction.value != ""
    && r.information.process.Some? && r.information.process.value != ""
    && r.information.leaseMonths.Some?
  }

  lemma ReadyMeansPrerequisites(s: Inspection)
    ensures ApprovalReady(s.form, s.content, s.review) <==> Prerequisites(s)
  {
    var r := s.review;
    assert Upper("IMPROVED") == "IMPROVED";
    PropertyStatusReads(s.form, s.content, "IMPROVED");
    if r.risk.Some? && r.conclusion.Some? {
      RiskLevels(r.risk.value);
      InkIsNotBlank(r.conclusion.value);
    }
  }

  /** Somebody else than the inspector, with the record as it stands before them; an approval also needs its
      prerequisites and the claim, and a rejection or return a reason. */
  predicate MayDecide(s: Inspection, actor: Actor, action: Decision, reason: Option<string>, base: Option<nat>) {
    && "reviews.decide" in actor.permissions && Reaches(actor, s) && UpToDate(s, base)
    && InReview(s) && (action == BeginReview ==> s.status != UnderReview)
    && s.inspectorId != Some(actor.id)
    && (action in {Reject, RequestCorrection} ==> reason.Some? && HasInk(reason.value))
    && (action == Approve ==> Prerequisites(s) && s.reviewerId == Some(actor.id))
  }

  /** The record after the decision; a return opens a correction, and an approval is reported on at once if that can
      be. */
  function AfterDecision(s: Inspection, actor: Actor, action: Decision, reason: Option<string>,
                         reportStored: bool): Inspection
  {
    var named := s.(reviewerId := Some(actor.id));
    var round := Some(s.submissionCount);
    if action == BeginReview then Logged(named, UnderReview, actor, round)
    else if action == Reject then Logged(named, Status.Rejected, actor, round)
    else if action == RequestCorrection then
      var asked := Correction(s.submissionCount, actor.id, Trim(if reason.Some? then reason.value else ""), false);
      Logged(named, CorrectionRequested, actor, round).(corrections := s.corrections + [asked])
    else
      var approved := Logged(named, Approved, actor, round);
      if reportStored && "reports.generate" in actor.permissions then Logged(approved, ReportGenerated, actor, None)
      else approved
  }

  lemma DecisionErrorRule(s: Inspection, actor: Actor, action: Decision, reason: Option<string>, base: Option<nat>)
    ensures DecisionError(s, actor, action, reason, base).None? <==> MayDecide(s, actor, action, reason, base)
  {
    ReadyMeansPrerequisites(s);
    InkIsNotBlank(reason.GetOr(""));
  }

  lemma ConclusionRule(s: Inspection, actor: Actor, action: Decision, reason: Option<string>, reportStored: bool)
    requires Reaches(actor, s)
    ensures Concluded(s, actor, action, reason, reportStored) == AfterDecision(s, actor, action, reason, reportStored)
  {
  }

  lemma DecisionRule(s: Inspection, actor: Actor, action: Decision, reason: Option<string>, base: Option<nat>,
                     reportStored: bool)
    ensures var (after, reply) := Decide(s, actor, action, reason, base, reportStored);
            && (reply.Done? <==> MayDecide(s, actor, action, reason, base))
            && (reply == Denied(Stale(s.version)) <==> Reaches(actor, s) && !UpToDate(s, base))
            && after == if reply.Done? then AfterDecision(s, actor, action, reason, reportStored) else s
  {
    DecisionErrorRule(s, actor, action, reason, base);
    if Reaches(actor, s) { ConclusionRule(s, actor, action, reason, reportStored); }
  }

  predicate MayReport(s: Inspection, actor: Actor, stored: bool) {
    "reports.generate" in actor.permissions && Reaches(actor, s) && s.status in {Approved, ReportGenerated} && stored
  }

  lemma ReportRule(s: Inspection, actor: Actor, stored: bool)
    ensures var (after, reply) := ReportFor(s, actor, stored);
            && (reply.Done? <==> MayReport(s, actor, stored))
            && after == if reply.Done? && s.status == Approved then Logged(s, ReportGenerated, actor, None) else s
  {
  }

  // ------------------------------------------------------------------ the fee

  /** Webhooks need no permission; a request is the assigned inspector's, before the start. */
  predicate MayHandleFee(s: Inspection, actor: Actor, op: Fees.FeeOp) {
    match op
    case Webhook(_, _, _) => true
    case Poll(_, _) => "inspections.read" in actor.permissions && Reaches(actor, s)
    case Request(_, _, _, _) =>
      && "inspections.write" in actor.permissions && Reaches(actor, s)
      && s.inspectorId == Some(actor.id) && s.status == Assigned
  }

  lemma FeeRule(s: Inspection, actor: Actor, op: Fees.FeeOp)
    ensures var after := HandleFee(s, actor, op);
            && after == s.(fee := after.fee)
            && if MayHandleFee(s, actor, op) then Fees.Handled(s.fee, after.fee, op) else after.fee == s.fee
  {
    Fees.FeeStepHandles(s.fee, op);
  }
}
