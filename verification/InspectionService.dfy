/** The stored rows of one inspection, and the service handlers that check a request and then change the rows. */
module InspectionService {
  import opened Text
  import opened StateMachine
  import opened Completeness
  import opened Content
  import opened Inspections
  import opened InspectionRules
  import Fees
  import Lifecycle

  class InspectionRecord {
    const form: Form
    const branch: BranchId
    var status: Status
    var inspectorId: Option<UserId>
    var reviewerId: Option<UserId>
    var submissionCount: nat
    var version: nat
    var values: map<FieldId, FieldValue>
    var assessments: map<string, Assessment>
    var owner: Option<Owner>
    var valuation: Option<Valuation>
    var locations: seq<Location>
    var photos: map<PhotoId, Photo>
    var review: Review
    var snapshots: seq<Snapshot>
    var corrections: seq<Correction>
    var events: seq<StatusEvent>
    var fee: Option<Fees.Fee>
    var adminEdits: seq<Edit>

    function Content(): Captured
      reads this
    {
      Captured(values, assessments, owner, valuation, locations, photos)
    }

    function View(): Inspection
      reads this
    {
      Inspection(form, branch, status, inspectorId, reviewerId, submissionCount, version, Content(), review,
                 snapshots, corrections, events, fee, adminEdits)
    }

    /** The record obeys everything that runs of its handlers keep. */
    ghost predicate Valid()
      reads this
    {
      Lifecycle.Sound(View())
    }

    constructor (form: Form, branch: BranchId, creator: UserId, inspectorId: Option<UserId>, reviewerId: Option<UserId>)
      ensures View() == Created(form, branch, creator, inspectorId, reviewerId)
      ensures Valid()
    {
      Lifecycle.CreationIsSound(form, branch, creator, inspectorId, reviewerId);
      this.form, this.branch := form, branch;
      this.inspectorId, this.reviewerId := inspectorId, reviewerId;
      status, submissionCount, version := Assigned, 0, 1;
      values, owner, valuation, locations, photos := map[], None, None, [], map[];
      assessments := SeedAssessments(form.sections);
      review := NO_REVIEW;
      snapshots, corrections, adminEdits, fee := [], [], [], None;
      events := [StatusEvent(None, Assigned, creator, None)];
    }

    /** The transition the state machine answers for this record. */
    function Evaluate(actor: Actor, action: Action, submittedBy: Option<UserId>, reason: Option<string>,
                      feeStatus: Option<FeeStatus>): Outcome
      reads this
    {
      EvaluateTransition(
        Context(action, status, actor.id, actor.permissions, inspectorId, submittedBy, reason, feeStatus))
    }

    method Record(to: Status, actor: Actor, round: Option<nat>)
      modifies this`events, this`status, this`version
      ensures View() == Moved(old(View()), to, actor, round)
    {
      events := events + [StatusEvent(Some(status), to, actor.id, round)];
      status := to;
      version := version + 1;
    }

    method AssignTo(actor: Actor, inspector: UserId, eligible: bool, reviewer: Option<UserId>, reason: Option<string>)
      returns (reply: Reply)
      requires Valid()
      modifies this
      ensures Valid()
      ensures (View(), reply) == AssignInspector(old(View()), actor, inspector, eligible, reviewer, reason)
      ensures reply.Done? <==> MayAssign(old(View()), actor, inspector, eligible, reason)
      ensures View() == if reply.Done?
                then Logged(old(View()), Assigned, actor, None).(
                       inspectorId := Some(inspector),
                       reviewerId := if reviewer.Some? then reviewer else old(reviewerId))
                else old(View())
    {
      AssignmentRule(View(), actor, inspector, eligible, reviewer, reason);
      Lifecycle.AssignStaysSound(View(), actor, inspector, eligible, reviewer, reason);
      if !CanAccess(actor, branch) { return Denied(NoBranchAccess); }
      var isReassignment := inspectorId.Some? && inspectorId.value != inspector;
      var outcome := Evaluate(actor, if isReassignment then Reassign else Assign, None, reason, None);
      if outcome.Refused? { return Denied(RefusedBy(outcome.code)); }
      if !eligible { return Denied(NotFound); }
      GiveTo(actor, inspector, reviewer);
      reply := Done;
    }

    method GiveTo(actor: Actor, inspector: UserId, reviewer: Option<UserId>)
      modifies this`events, this`status, this`version, this`inspectorId, this`reviewerId
      ensures View() == AssignedTo(old(View()), actor, inspector, if reviewer.Some? then reviewer else old(reviewerId))
    {
      Record(Assigned, actor, None);
      inspectorId := Some(inspector);
      if reviewer.Some? { reviewerId := reviewer; }
    }

    method BeginWork(actor: Actor) returns (reply: Reply)
      requires Valid()
      modifies this
      ensures Valid()
      ensures (View(), reply) == StartWork(old(View()), actor)
      ensures reply.Done? <==> MayStart(old(View()), actor)
      ensures View() == if reply.Done? then Logged(old(View()), InProgress, actor, None) else old(View())
      ensures reply.Done? ==> Fees.StatusOf(fee) == Some(Successful)
    {
      Lifecycle.StartStaysSound(View(), actor);
      StartRule(View(), actor);
      if !CanAccess(actor, branch) { return Denied(NoBranchAccess); }
      var outcome := Evaluate(actor, Start, None, None, if fee.Some? then Some(fee.value.status) else None);
      if outcome.Refused? { return Denied(RefusedBy(outcome.code)); }
      Record(outcome.nextStatus, actor, None);
      reply := Done;
    }

    // ---------------------------------------------------------------- content

    /** Upserts the entries that belong to the template, one after the other: the last one of each field is stored. */
    method PutAll(entries: seq<SubmittedValue>)
      modifies this`values
      ensures values == PutValues(form, old(values), entries)
      ensures Stored(form, old(values), values, entries)
    {
      for i := 0 to |entries|
        invariant values == PutValues(form, old(values), entries[..i])
      {
        var entry := entries[i];
        assert entries[..i + 1][..i] == entries[..i];
        if !OfTemplate(form, entry.fieldId) { continue; }
        values := values[entry.fieldId := entry.data];
      }
      assert entries[..|entries|] == entries;
      PutValuesStores(form, old(values), entries);
    }

    /** Upserts the assessment of one element; an existing row keeps its name and place. */
    method RateOne(code: string, name: Option<string>, rating: Option<int>, condition: Option<string>,
                   notes: Option<string>)
      modifies this`assessments
      ensures assessments
              == Apply(form, old(Content()), SetAssessment(code, name, rating, condition, notes)).assessments
    {
      if code in assessments {
        var row := assessments[code];
        assessments := assessments[code := Assessment(row.name, rating, condition, notes, row.sortOrder)];
      } else {
        assessments := assessments[code := Assessment(name.GetOr(code), rating, condition, notes, 0)];
      }
    }

    method WriteContent(e: Edit)
      requires Acceptable(Content(), e)
      modifies this`values, this`assessments, this`owner, this`valuation, this`locations, this`photos
      ensures Content() == Apply(form, old(Content()), e)
    {
      match e {
        case SetValues(entries) => PutAll(entries);
        case SetAssessment(code, name, rating, condition, notes) => RateOne(code, name, rating, condition, notes);
        case PutAssessment(code, assessment) => assessments := assessments[code := assessment];
        case SetOwner(o) => owner := Some(o);
        case SetValuation(v) => valuation := Some(v);
        case AddLocation(location) => locations := locations + [location];
        case AddPhoto(id, category) => photos := photos[id := Photo(category, true)];
        case RemovePhoto(id) => photos := photos[id := Photo(photos[id].category, false)];
      }
    }

    method ApplyEdit(e: Edit)
      requires Acceptable(Content(), e)
      modifies this
      ensures View() == Edited(old(View()), e)
      ensures Captures(old(View()), View(), e)
    {
      ApplyWrites(form, Content(), e);
      WriteContent(e);
      version := version + 1;
    }

    /** What every capture handler does once its guards have let the inspector through. */
    method Capture(e: Edit)
      requires Valid() && IsEditable(status) && Acceptable(Content(), e)
      modifies this
      ensures Valid()
      ensures View() == Edited(old(View()), e)
    {
      Lifecycle.CaptureStaysSound(View(), e);
      ApplyEdit(e);
    }

    method Save(actor: Actor, e: FormEdit, base: Option<nat>) returns (reply: Reply)
      requires Valid()
      modifies this
      ensures Valid()
      ensures (View(), reply) == SaveContent(old(View()), actor, e, base)
      ensures reply.Done? <==> MaySave(old(View()), actor, e, base)
      ensures if reply.Done? then Captures(old(View()), View(), e) else View() == old(View())
      ensures reply.Done? && e.SetValues? ==> Stored(form, old(values), values, e.entries)
      ensures reply.Done? ==> version == old(version) + 1 && IsEditable(old(status)) && inspectorId == Some(actor.id)
      ensures reply.Done? && base.Some? ==> base.value >= old(version)
    {
      SavingRule(View(), actor, e, base);
      if "inspections.write" !in actor.permissions { return Denied(NotPermitted); }
      if !CanAccess(actor, branch) { return Denied(NoBranchAccess); }
      if inspectorId != Some(actor.id) { return Denied(NotAssignedToYou); }
      if !IsEditable(status) { return Denied(NotEditable); }
      if base.Some? && base.value < version { return Denied(Stale(version)); }
      if e.AddLocation? && !PlausibleCoordinate(e.location.latitude, e.location.longitude) { return Denied(Invalid); }
      Capture(e);
      reply := Done;
    }

    method UploadPhoto(actor: Actor, id: PhotoId, category: Category) returns (reply: Reply)
      requires Valid()
      modifies this
      ensures Valid()
      ensures (View(), reply) == ChangePhoto(old(View()), actor, AddPhoto(id, category))
      ensures reply.Done? <==> MayTouchPhotos(old(View()), actor)
      ensures if reply.Done? && id !in old(photos) then Captures(old(View()), View(), AddPhoto(id, category))
              else View() == old(View())
    {
      PhotographRule(View(), actor, id, category);
      if "inspections.write" !in actor.permissions { return Denied(NotPermitted); }
      if inspectorId != Some(actor.id) { return Denied(NotAssignedToYou); }
      if !IsEditable(status) { return Denied(NotEditable); }
      if id in photos { return Done; }
      Capture(AddPhoto(id, category));
      reply := Done;
    }

    method DeletePhoto(actor: Actor, id: PhotoId) returns (reply: Reply)
      requires Valid()
      modifies this
      ensures Valid()
      ensures (View(), reply) == ChangePhoto(old(View()), actor, RemovePhoto(id))
      ensures reply.Done? <==> MayTouchPhotos(old(View()), actor) && id in old(photos) && old(photos)[id].live
      ensures if reply.Done? then Captures(old(View()), View(), RemovePhoto(id)) else View() == old(View())
    {
      if id in photos { PhotographRule(View(), actor, id, photos[id].category); }
      if "inspections.write" !in actor.permissions { return Denied(NotPermitted); }
      if id !in photos || !photos[id].live { return Denied(NotFound); }
      if inspectorId != Some(actor.id) { return Denied(NotAssignedToYou); }
      if !IsEditable(status) { return Denied(NotEditable); }
      Capture(RemovePhoto(id));
      reply := Done;
    }

    method SaveAsAdmin(actor: Actor, e: AdminEdit, base: Option<nat>) returns (reply: Reply)
      requires Valid()
      modifies this
      ensures Valid()
      ensures (View(), reply) == AdminSave(old(View()), actor, e, base)
      ensures reply.Done? <==> MayCorrect(old(View()), actor, base)
      ensures if reply.Done? then Captures(old(View()), View().(adminEdits := old(adminEdits)), e)
                                  && adminEdits == old(adminEdits) + [e]
              else View() == old(View())
    {
      CorrectingRule(View(), actor, e, base);
      Lifecycle.AdminStaysSound(View(), actor, e, base);
      if !IsAdmin(actor) || "inspections.write" !in actor.permissions { return Denied(AdminsOnly); }
      if !CanAccess(actor, branch) { return Denied(NoBranchAccess); }
      if Final(status) { return Denied(NotEditable); }
      if base.Some? && base.value < version { return Denied(Stale(version)); }
      ApplyEdit(e);
      adminEdits := adminEdits + [e];
      reply := Done;
    }

    method Synchronise(user: UserId, base: Option<nat>, p: SyncPayload) returns (outcome: SyncOutcome)
      requires Valid()
      modifies this
      ensures Valid()
      ensures (View(), outcome) == SyncApply(old(View()), user, base, p)
      ensures outcome.Applied? <==> InField(old(View()), user) && UpToDate(old(View()), base) && Sendable(p)
      ensures outcome.Conflict? <==>
                old(inspectorId) == Some(user) && !(InField(old(View()), user) && UpToDate(old(View()), base))
      ensures if outcome.Applied?
              then Synced(form, old(Content()), Content(), p)
                   && View() == old(View()).(content := Content(), version := old(version) + 1)
              else View() == old(View())
      ensures outcome.Applied? && p.UpsertValues? ==> Stored(form, old(values), values, p.entries)
    {
      SyncRule(View(), user, base, p);
      if inspectorId != Some(user) { return SyncOutcome.Rejected; }
      if !IsEditable(status) { return Conflict(version); }
      if base.Some? && base.value < version { return Conflict(version); }
      var edit := PayloadEdit(p);
      if edit.None? { return SyncOutcome.Rejected; }
      Capture(edit.value);
      outcome := Applied(version);
    }

    // ---------------------------------------------------------------- the fee

    method HandlePayment(actor: Actor, op: Fees.FeeOp)
      requires Valid()
      modifies this
      ensures Valid()
      ensures View() == HandleFee(old(View()), actor, op)
      ensures old(status) != Assigned ==> fee == old(fee)
      ensures View() == old(View()).(fee := fee)
      ensures if MayHandleFee(old(View()), actor, op) then Fees.Handled(old(fee), fee, op) else fee == old(fee)
    {
      FeeRule(View(), actor, op);
      Lifecycle.FeeStaysSound(View(), actor, op);
      if !MayCall(actor, op) { return; }
      if !op.Webhook? && !CanAccess(actor, branch) { return; }
      if op.Request? && !Fees.MayRequest(actor.id, inspectorId, status) { return; }
      fee := Fees.FeeStep(fee, op);
    }

    // ---------------------------------------------------------------- submission and review

    method HandIn(actor: Actor) returns (reply: Reply)
      requires Valid()
      modifies this
      ensures Valid()
      ensures (View(), reply) == SubmitWork(old(View()), actor)
      ensures reply.Done? <==> MaySubmit(old(View()), actor)
      ensures if reply.Done? then HandsIn(old(View()), View(), actor) else View() == old(View())
      ensures reply.Done? ==>
                && snapshots != [] && snapshots[|snapshots| - 1] == Snapshot(submissionCount, Content())
                && ReadyToSubmit(form, Content()) && adminEdits == []
    {
      Lifecycle.SubmitStaysSound(View(), actor);
      SubmissionRule(View(), actor);
      if !CanAccess(actor, branch) { return Denied(NoBranchAccess); }
      var outcome := Evaluate(actor, if status == CorrectionRequested then Resubmit else Submit, None, None, None);
      if outcome.Refused? { return Denied(RefusedBy(outcome.code)); }
      if !ReadyToSubmit(form, Content()) { return Denied(Incomplete); }
      TakeSnapshot(outcome.nextStatus, actor);
      reply := Done;
    }

    method OpenRound(round: nat)
      modifies this`submissionCount, this`snapshots, this`corrections, this`adminEdits
      ensures View() == Opened(old(View()), round)
    {
      submissionCount := round;
      snapshots := snapshots + [Snapshot(round, Content())];
      corrections := ResolveAll(corrections);
      adminEdits := [];
    }

    method TakeSnapshot(to: Status, actor: Actor)
      modifies this
      ensures View() == NextRound(old(View()), to, actor)
    {
      OpenRound(submissionCount + 1);
      Record(to, actor, Some(submissionCount));
    }

    method WriteReview(actor: Actor, e: ReviewEdit)
      modifies this`review, this`version
      ensures View() == Reviewed(old(View()), actor, e)
    {
      review := ApplyReview(review, actor.id, e);
      version := version + 1;
    }

    method CheckReview(actor: Actor, e: ReviewEdit, base: Option<nat>) returns (error: Option<Error>)
      ensures error == ReviewError(View(), actor, e, base)
    {
      if "reviews.decide" !in actor.permissions { return Some(NotPermitted); }
      if !CanAccess(actor, branch) { return Some(NoBranchAccess); }
      if e.UploadMap? || e.RemoveMap? {
        if !AwaitsReview(status) { return Some(NotEditable); }
        if reviewerId != Some(actor.id) { return Some(NotYourReview); }
        if e.RemoveMap? && review.mapImage.None? { return Some(NotFound); }
        return None;
      }
      if reviewerId.Some? && reviewerId.value != actor.id { return Some(NotYourReview); }
      if (e.SetReviewerValuation? || e.SetStatusInformation?) && reviewerId.None? { return Some(NotYourReview); }
      if !AwaitsReview(status) { return Some(NotEditable); }
      if base.Some? && base.value < version { return Some(Stale(version)); }
      if !ReviewEditValid(View(), e) { return Some(Invalid); }
      error := None;
    }

    /** The reviewer's writers. An approved record is never written to. */
    method ChangeReview(actor: Actor, e: ReviewEdit, base: Option<nat>) returns (reply: Reply)
      requires Valid()
      modifies this
      ensures Valid()
      ensures (View(), reply) == EditReview(old(View()), actor, e, base)
      ensures reply.Done? <==> MayReview(old(View()), actor, e, base)
      ensures if reply.Done? then WroteReview(old(review), review, actor.id, e)
                                  && View() == old(View()).(review := review, version := old(version) + 1)
              else View() == old(View())
      ensures reply.Done? ==> AwaitsReview(status) && Content() == old(Content())
    {
      ReviewRule(View(), actor, e, base);
      var error := CheckReview(actor, e, base);
      if error.Some? { return Denied(error.value); }
      Lifecycle.ReviewedStaysSound(View(), actor, e);
      WriteReview(actor, e);
      reply := Done;
    }

    method CheckDecision(actor: Actor, action: Decision, reason: Option<string>, base: Option<nat>)
      returns (error: Option<Error>)
      ensures error == DecisionError(View(), actor, action, reason, base)
    {
      if !CanAccess(actor, branch) { return Some(NoBranchAccess); }
      if base.Some? && base.value < version { return Some(Stale(version)); }
      var outcome := Evaluate(actor, action, inspectorId, reason, None);
      if outcome.Refused? { return Some(RefusedBy(outcome.code)); }
      if action == Approve {
        if !ApprovalReady(form, Content(), review) { return Some(Invalid); }
        if reviewerId != Some(actor.id) { return Some(NotYourReview); }
      }
      error := None;
    }

    /** Claims, approves, rejects or returns, exactly for those who may. The actor is never the latest submitter, and an
        approval finds risk, conclusion, values, map and status information on record. */
    method Resolve(actor: Actor, action: Decision, reason: Option<string>, base: Option<nat>, reportStored: bool)
      returns (reply: Reply)
      requires Valid()
      modifies this
      ensures Valid()
      ensures (View(), reply) == Decide(old(View()), actor, action, reason, base, reportStored)
      ensures reply.Done? ==> Lifecycle.LastSubmitter(old(events)).Some?
                              && Lifecycle.LastSubmitter(old(events)) != Some(actor.id)
      ensures reply.Done? <==> MayDecide(old(View()), actor, action, reason, base)
      ensures reply.Done? && action == Approve ==> Prerequisites(old(View())) && old(reviewerId) == Some(actor.id)
      ensures View() == if reply.Done? then AfterDecision(old(View()), actor, action, reason, reportStored)
                        else old(View())
    {
      DecisionRule(View(), actor, action, reason, base, reportStored);
      var error := CheckDecision(actor, action, reason, base);
      if error.Some? { return Denied(error.value); }
      Lifecycle.DecideStaysSound(View(), actor, action, reason, base, reportStored);
      Lifecycle.DecisionsAreOthers(View(), actor, action, reason, base);
      Conclude(actor, action, reason, reportStored);
      reply := Done;
    }

    method Conclude(actor: Actor, action: Decision, reason: Option<string>, reportStored: bool)
      modifies this
      ensures View() == Concluded(old(View()), actor, action, reason, reportStored)
    {
      RecordDecision(Transitions(action).to, actor, Trim(reason.GetOr("")));
      if action == Approve {
        var _ := GenerateReport(actor, reportStored);
      }
    }

    method RecordDecision(to: Status, actor: Actor, reason: string)
      modifies this
      ensures View() == DecidedBy(old(View()), to, actor, reason)
    {
      reviewerId := Some(actor.id);
      if to == CorrectionRequested {
        corrections := corrections + [Correction(submissionCount, actor.id, reason, false)];
      }
      Record(to, actor, Some(submissionCount));
    }

    method IssueReport(actor: Actor, stored: bool) returns (reply: Reply)
      requires Valid()
      modifies this
      ensures Valid()
      ensures (View(), reply) == ReportFor(old(View()), actor, stored)
      ensures reply.Done? ==> status == ReportGenerated && Prerequisites(View())
      ensures reply.Done? <==> MayReport(old(View()), actor, stored)
      ensures View() == if reply.Done? && old(status) == Approved then Logged(old(View()), ReportGenerated, actor, None)
                        else old(View())
    {
      ReportRule(View(), actor, stored);
      Lifecycle.ReportStaysSound(View(), actor, stored);
      reply := GenerateReport(actor, stored);
      ReadyMeansPrerequisites(View());
    }

    method GenerateReport(actor: Actor, stored: bool) returns (reply: Reply)
      modifies this
      ensures (View(), reply) == ReportFor(old(View()), actor, stored)
    {
      var outcome := Evaluate(actor, Action.GenerateReport, None, None, None);
      if outcome.Refused? { return Denied(RefusedBy(outcome.code)); }
      if !CanAccess(actor, branch) { return Denied(NoBranchAccess); }
      if !stored { return Denied(Invalid); }
      if status != ReportGenerated {
        Record(ReportGenerated, actor, None);
      }
      reply := Done;
    }
  }

  /** `eligible` holds the active users who may carry out inspections. */
  method CreateInspection(form: Form, branch: BranchId, actor: Actor, inspector: Option<UserId>,
                          reviewer: Option<UserId>, eligible: set<UserId>)
    returns (created: InspectionRecord?)
    ensures created == null <==> Create(form, branch, actor, inspector, reviewer, eligible).None?
    ensures created != null <==> MayCreate(branch, actor, inspector, eligible)
    ensures created != null ==>
              && fresh(created) && created.Valid()
              && created.View() == Create(form, branch, actor, inspector, reviewer, eligible).value
  {
    CreationRule(form, branch, actor, inspector, reviewer, eligible);
    if "inspections.create" !in actor.permissions { return null; }
    if !CanAccess(actor, branch) { return null; }
    var canAssign := "inspections.assign" in actor.permissions;
    var isInspectorCreator := !canAssign && "inspections.write" in actor.permissions;
    if isInspectorCreator && inspector.Some? && inspector.value != actor.id { return null; }
    var inspectorId := inspector;
    if inspectorId.None? && isInspectorCreator { inspectorId := Some(actor.id); }
    if inspectorId.Some? && inspectorId.value !in eligible { return null; }
    var reviewerId := if canAssign then reviewer else None;
    created := new InspectionRecord(form, branch, actor.id, inspectorId, reviewerId);
  }
}
