/** The inspection fee of one inspection: request, retry, webhook and poll-time reconciliation,
    each handler taken as one step. */
module Fees {
  import opened Text
  import opened StateMachine

  const RECONCILE_AFTER_MS := 20 * 1000
  const PROCESSING_TIMEOUT_MS := 15 * 60 * 1000

  /** A provider reference; the provider never issues an empty one. */
  type Ref = r: string | r != "" witness "r"

  datatype FailureReason = NotSent | NotCompleted | Expired

  datatype Fee = Fee(
    status: FeeStatus, providerRef: Option<Ref>, failureReason: Option<FailureReason>,
    settledAt: Option<int>, requestedAt: int, attempts: nat)

  /** What a provider status means; words it does not know leave the payment open. */
  function MapStatus(raw: Option<string>): FeeStatus {
    var s := Lower(raw.GetOr(""));
    if s in ["successful", "success"] then Successful
    else if s in ["failed", "rejected", "cancelled"] then Failed
    else Processing
  }

  /** The provider's word, in any case, that the owner has paid. */
  predicate SaysPaid(raw: Option<string>) {
    raw.Some? && Lower(raw.value) in ["successful", "success"]
  }

  /** The provider's word, in any case, that the payment will not come. */
  predicate SaysFailed(raw: Option<string>) {
    raw.Some? && Lower(raw.value) in ["failed", "rejected", "cancelled"]
  }

  lemma SuccessIsMapped()
    ensures MapStatus(Some("success")) == Successful
  {
    assert Lower("success") == "success";
  }

  lemma FailureIsMapped()
    ensures MapStatus(Some("failed")) == Failed
  {
    assert Lower("failed") == "failed";
  }

  // ------------------------------------------------------------------ row updates

  /** The row written before the provider is called. */
  function Prompted(existing: Option<Fee>, now: int): Fee {
    match existing
    case None => Fee(Pending, None, None, None, now, 0)
    case Some(f) => f.(status := Pending, providerRef := None, failureReason := None, requestedAt := now)
  }

  function Charged(f: Fee, ref: Ref): Fee {
    f.(status := Processing, providerRef := Some(ref), attempts := f.attempts + 1)
  }

  function Unsent(f: Fee): Fee {
    f.(status := Failed, failureReason := Some(NotSent), attempts := f.attempts + 1)
  }

  function Settled(f: Fee, status: FeeStatus, reason: Option<FailureReason>, now: int): Fee {
    f.(status := status, settledAt := if status == Successful then Some(now) else None, failureReason := reason)
  }

  /** The reason recorded with a provider verdict. */
  function ReasonFor(status: FeeStatus): Option<FailureReason> {
    if status == Failed then Some(NotCompleted) else None
  }

  // ------------------------------------------------------------------ handlers

  /** Only the assigned inspector may ask for the fee, and only before work has started. */
  predicate MayRequest(user: UserId, inspectorId: Option<UserId>, status: Status) {
    inspectorId == Some(user) && status == Assigned
  }

  /** True when a request goes through to the provider. */
  predicate Prompts(fee: Option<Fee>, isRetry: bool) {
    fee.None? || (fee.value.status != Successful && (fee.value.status == Processing ==> isRetry))
  }

  function RequestFee(fee: Option<Fee>, isRetry: bool, phoneValid: bool, now: int, cashin: Option<Ref>): Option<Fee> {
    if !Prompts(fee, isRetry) || !phoneValid then fee
    else
      var f := Prompted(fee, now);
      Some(match cashin case Some(ref) => Charged(f, ref) case None => Unsent(f))
  }

  function ApplyWebhook(fee: Option<Fee>, ref: string, raw: Option<string>, now: int): Option<Fee> {
    if ref == "" || fee.None? || fee.value.providerRef != Some(ref) || fee.value.status == Successful then fee
    else
      var next := MapStatus(raw);
      if next == Processing then fee else Some(Settled(fee.value, next, ReasonFor(next), now))
  }

  /** `lookup` is the provider's answer, absent when the call failed. */
  function ReconcileIfStale(f: Fee, now: int, lookup: Option<string>): Fee {
    if f.status != Processing || f.providerRef.None? || now - f.requestedAt < RECONCILE_AFTER_MS then f
    else if now - f.requestedAt > PROCESSING_TIMEOUT_MS then Settled(f, Failed, Some(Expired), now)
    else if lookup.None? then f
    else
      var next := MapStatus(lookup);
      if next == Processing then f else Settled(f, next, ReasonFor(next), now)
  }

  datatype FeeOp =
    | Request(isRetry: bool, phoneValid: bool, now: int, cashin: Option<Ref>)
    | Webhook(ref: string, raw: Option<string>, now: int)
    | Poll(now: int, lookup: Option<string>)

  function FeeStep(fee: Option<Fee>, op: FeeOp): Option<Fee> {
    match op
    case Request(isRetry, phoneValid, now, cashin) => RequestFee(fee, isRetry, phoneValid, now, cashin)
    case Webhook(ref, raw, now) => ApplyWebhook(fee, ref, raw, now)
    case Poll(now, lookup) => if fee.None? then fee else Some(ReconcileIfStale(fee.value, now, lookup))
  }

  predicate CallsProvider(fee: Option<Fee>, op: FeeOp) {
    op.Request? && Prompts(fee, op.isRetry) && op.phoneValid
  }

  function StatusOf(fee: Option<Fee>): Option<FeeStatus> {
    if fee.None? then None else Some(fee.value.status)
  }

  // ------------------------------------------------------------------ the service

  /** The row of a fee that is paid, whatever it was before. */
  function Paid(f: Fee, now: int): Fee {
    Fee(Successful, f.providerRef, None, Some(now), f.requestedAt, f.attempts)
  }

  /** The row of a fee that is not going to be paid. */
  function Lost(f: Fee, reason: FailureReason): Fee {
    Fee(Failed, f.providerRef, Some(reason), None, f.requestedAt, f.attempts)
  }

  /** What a handler that is let through leaves of the fee, in the provider's own words. A request goes out for a new
      or failed fee, one left pending, or on a retry; a delivery settles the fee of its reference once it says how the
      payment went; a poll asks after 20 seconds and gives up after 15 minutes. */
  predicate Handled(fee: Option<Fee>, after: Option<Fee>, op: FeeOp) {
    match op
    case Request(isRetry, phoneValid, now, cashin) =>
      if !phoneValid || (fee.Some? && (fee.value.status == Successful || (fee.value.status == Processing && !isRetry)))
      then after == fee
      else
        && after.Some? && after.value.requestedAt == now && after.value.providerRef == cashin
        && after.value.attempts == (if fee.None? then 1 else fee.value.attempts + 1)
        && after.value.settledAt == (if fee.None? then None else fee.value.settledAt)
        && (after.value.status, after.value.failureReason)
           == (if cashin.Some? then (Processing, None) else (Failed, Some(NotSent)))
    case Webhook(ref, raw, now) =>
      if fee.None? || fee.value.providerRef != Some(ref) || fee.value.status == Successful then after == fee
      else if SaysPaid(raw) then after == Some(Paid(fee.value, now))
      else if SaysFailed(raw) then after == Some(Lost(fee.value, NotCompleted))
      else after == fee
    case Poll(now, lookup) =>
      if fee.None? || fee.value.status != Processing || fee.value.providerRef.None?
         || now - fee.value.requestedAt < 20_000 then after == fee
      else if now - fee.value.requestedAt > 900_000 then after == Some(Lost(fee.value, Expired))
      else if SaysPaid(lookup) then after == Some(Paid(fee.value, now))
      else if SaysFailed(lookup) then after == Some(Lost(fee.value, NotCompleted))
      else after == fee
  }

  lemma FeeStepHandles(fee: Option<Fee>, op: FeeOp)
    ensures Handled(fee, FeeStep(fee, op), op)
  {
  }

  class PaymentsService {
    var fee: Option<Fee>

    constructor ()
      ensures fee == None
    {
      fee := None;
    }

    method Request(user: UserId, inspectorId: Option<UserId>, status: Status,
                   isRetry: bool, phoneValid: bool, now: int, cashin: Option<Ref>)
      returns (admitted: bool)
      modifies this
      ensures admitted <==> MayRequest(user, inspectorId, status) && (Prompts(old(fee), isRetry) ==> phoneValid)
      ensures fee == if admitted then RequestFee(old(fee), isRetry, phoneValid, now, cashin) else old(fee)
      ensures if inspectorId == Some(user) && status == Assigned
              then Handled(old(fee), fee, FeeOp.Request(isRetry, phoneValid, now, cashin)) else fee == old(fee)
    {
      admitted := true;
      if inspectorId != Some(user) { return false; }
      if status != Assigned { return false; }
      if fee.Some? && fee.value.status == Successful { return; }
      if fee.Some? && fee.value.status == Processing && !isRetry { return; }
      if !phoneValid { return false; }
      if fee.Some? {
        var f := fee.value;
        fee := Some(Fee(Pending, None, None, f.settledAt, now, f.attempts));
      } else {
        fee := Some(Fee(Pending, None, None, None, now, 0));
      }
      var f := fee.value;
      if cashin.Some? {
        fee := Some(f.(providerRef := cashin, status := Processing, attempts := f.attempts + 1));
      } else {
        fee := Some(f.(status := Failed, failureReason := Some(NotSent), attempts := f.attempts + 1));
      }
    }

    method ReceiveWebhook(ref: string, raw: Option<string>, now: int)
      modifies this
      ensures fee == ApplyWebhook(old(fee), ref, raw, now)
      ensures Handled(old(fee), fee, Webhook(ref, raw, now))
    {
      if ref == "" { return; }
      if fee.None? || fee.value.providerRef != Some(ref) { return; }
      if fee.value.status == Successful { return; }
      var next := MapStatus(raw);
      if next == Processing { return; }
      Settle(next, if next == Failed then Some(NotCompleted) else None, now);
    }

    method FindByInspection(now: int, lookup: Option<string>)
      modifies this
      ensures fee == FeeStep(old(fee), Poll(now, lookup))
      ensures Handled(old(fee), fee, Poll(now, lookup))
    {
      if fee.None? { return; }
      if fee.value.status != Processing || fee.value.providerRef.None? { return; }
      var age := now - fee.value.requestedAt;
      if age < RECONCILE_AFTER_MS { return; }
      if age > PROCESSING_TIMEOUT_MS {
        Settle(Failed, Some(Expired), now);
        return;
      }
      if lookup.None? { return; }
      var next := MapStatus(lookup);
      if next == Processing { return; }
      Settle(next, if next == Failed then Some(NotCompleted) else None, now);
    }

    method Settle(status: FeeStatus, reason: Option<FailureReason>, now: int)
      requires fee.Some?
      modifies this
      ensures fee == Some(Settled(old(fee).value, status, reason, now))
    {
      var f := fee.value;
      f := f.(status := status);
      f := f.(settledAt := if status == Successful then Some(now) else None);
      fee := Some(f.(failureReason := reason));
    }
  }

  // ------------------------------------------------------------------ runs

  /** A fee with the number of provider calls made and of entries into FAILED. */
  datatype History = History(fee: Option<Fee>, calls: nat, failures: nat)

  const START := History(None, 0, 0)

  function Advance(h: History, op: FeeOp): History {
    var next := FeeStep(h.fee, op);
    var called := CallsProvider(h.fee, op);
    var fails := StatusOf(next) == Some(Failed) && (StatusOf(h.fee) != Some(Failed) || called);
    History(next, h.calls + (if called then 1 else 0), h.failures + (if fails then 1 else 0))
  }

  function Run(h: History, ops: seq<FeeOp>): History {
    if ops == [] then h else Advance(Run(h, ops[..|ops| - 1]), ops[|ops| - 1])
  }

  /** The bookkeeping of a stored fee. */
  predicate Tidy(fee: Option<Fee>) {
    fee.Some? ==>
      var f := fee.value;
      && f.status != Pending
      && (f.settledAt.Some? <==> f.status == Successful)
      && (f.failureReason.Some? <==> f.status == Failed)
      && (f.status in {Processing, Successful} ==> f.providerRef.Some?)
  }

  lemma StepStaysTidy(fee: Option<Fee>, op: FeeOp)
    requires Tidy(fee)
    ensures Tidy(FeeStep(fee, op))
    ensures StatusOf(fee) == Some(Successful) ==> FeeStep(fee, op) == fee
  {
  }

  /** In every run: `settledAt` is set iff SUCCESSFUL, `failureReason` iff FAILED, no fee rests in PENDING, and
      `attempts` counts the provider calls. */
  lemma {:induction false} RunsStayTidy(ops: seq<FeeOp>)
    ensures var h := Run(START, ops);
            Tidy(h.fee) && h.calls == (if h.fee.None? then 0 else h.fee.value.attempts)
  {
    if ops != [] {
      RunsStayTidy(ops[..|ops| - 1]);
      StepStaysTidy(Run(START, ops[..|ops| - 1]).fee, ops[|ops| - 1]);
    }
  }

  /** Once SUCCESSFUL, the whole row never changes again. */
  lemma {:induction false} SuccessIsAbsorbing(h: History, ops: seq<FeeOp>)
    requires StatusOf(h.fee) == Some(Successful)
    ensures Run(h, ops).fee == h.fee && Run(h, ops).calls == h.calls
  {
    if ops != [] {
      SuccessIsAbsorbing(h, ops[..|ops| - 1]);
    }
  }

  /** Without retries the owner's handset is prompted at most once more than the fee has failed. */
  lemma {:induction false} PromptsAreBounded(ops: seq<FeeOp>)
    requires forall op | op in ops :: op.Request? ==> !op.isRetry
    ensures var h := Run(START, ops);
            h.calls <= h.failures + (if StatusOf(h.fee) in {None, Some(Failed)} then 0 else 1)
  {
    if ops != [] {
      PromptsAreBounded(ops[..|ops| - 1]);
      RunsStayTidy(ops[..|ops| - 1]);
      assert ops[|ops| - 1] in ops;
    }
  }

  // ------------------------------------------------------------------ webhook confluence

  datatype Delivery = Delivery(raw: Option<string>, now: int)

  function DeliverAll(fee: Fee, ref: Ref, events: seq<Delivery>): (delivered: Fee)
    requires fee.providerRef == Some(ref)
    ensures delivered.providerRef == Some(ref)
  {
    if events == [] then fee
    else
      var last := events[|events| - 1];
      ApplyWebhook(Some(DeliverAll(fee, ref, events[..|events| - 1])), ref, last.raw, last.now).value
  }

  /** However deliveries are ordered or repeated, the fee ends paid exactly when it was or one of them says so, and
      failed exactly when it does not end paid and was failed or one of them says so. */
  lemma {:induction false} DeliveriesConverge(fee: Fee, ref: Ref, events: seq<Delivery>)
    requires fee.providerRef == Some(ref)
    ensures var last := DeliverAll(fee, ref, events).status;
            && (last == Successful <==> fee.status == Successful || exists e | e in events :: SaysPaid(e.raw))
            && (last == Failed <==>
                  last != Successful && (fee.status == Failed || exists e | e in events :: SaysFailed(e.raw)))
            && (last in {Pending, Processing} ==> last == fee.status)
  {
    if events != [] {
      var init, last := events[..|events| - 1], events[|events| - 1];
      DeliveriesConverge(fee, ref, init);
      assert forall e :: e in events <==> e in init || e == last by { assert events == init + [last]; }
    }
  }

  /** Two delivery histories that both report a payment or neither, and both report a failure or neither, leave the
      same fee status. */
  lemma OrderAndRepetitionDoNotMatter(fee: Fee, ref: Ref, events: seq<Delivery>, others: seq<Delivery>)
    requires fee.providerRef == Some(ref)
    requires (exists e | e in events :: SaysPaid(e.raw)) <==> (exists e | e in others :: SaysPaid(e.raw))
    requires (exists e | e in events :: SaysFailed(e.raw)) <==> (exists e | e in others :: SaysFailed(e.raw))
    ensures DeliverAll(fee, ref, events).status == DeliverAll(fee, ref, others).status
  {
    DeliveriesConverge(fee, ref, events);
    DeliveriesConverge(fee, ref, others);
  }
}
