/** The fee protocol with every handler split at its awaits: threads interleave freely, provider answers
    may be lost, webhooks may be late, repeated, reordered or unknown, and a handler may stop anywhere. */
module FeeInterleaving {
  import opened Text
  import opened StateMachine
  import opened Fees

  type FeeId = nat
  type ThreadId = nat

  /** What a handler remembers between two awaits. */
  datatype Thread =
    | RequestBegun(fee: FeeId, isRetry: bool)
    | RequestCleared(fee: FeeId)
    | PromptWritten(fee: FeeId)
    | PromptSent(fee: FeeId, ref: Ref)
    | ProcessingWritten(fee: FeeId)
    | RequestFailing(fee: FeeId)
    | Delivered(ref: Ref, word: Option<string>)
    | Polling(fee: FeeId, ref: Ref)
    | Settling(fee: FeeId, status: FeeStatus, reason: Option<FailureReason>)
    | Starting(fee: FeeId)
    | Finished

  /** What happens between the service and the provider, whose reports stand in its own words. */
  datatype Event =
    | Issued(fee: FeeId, ref: Ref)
    | Reported(ref: Ref, word: Option<string>)
    | Paid(fee: FeeId)
    | Started(fee: FeeId)

  datatype State = State(rows: map<FeeId, Fee>, threads: map<ThreadId, Thread>, log: seq<Event>)

  const INITIAL := State(map[], map[], [])

  datatype Step =
    | BeginRequest(tid: ThreadId, fee: FeeId, isRetry: bool)
    | ReadExisting(tid: ThreadId)
    | WritePrompt(tid: ThreadId, now: int)
    | ProviderIssues(tid: ThreadId, ref: Ref)
    | CashinFails(tid: ThreadId)
    | WriteProcessing(tid: ThreadId)
    | WriteFailed(tid: ThreadId)
    | ReceiveWebhook(tid: ThreadId, ref: Ref, raw: Option<string>)
    | FindByRef(tid: ThreadId, fee: FeeId)
    | ReadForPoll(tid: ThreadId, fee: FeeId, now: int)
    | LookupFails(tid: ThreadId)
    | ProviderAnswers(tid: ThreadId, answer: string)
    | WriteSettlement(tid: ThreadId, now: int)
    | ReadForStart(tid: ThreadId, fee: FeeId)
    | CommitStart(tid: ThreadId)
    | Stop(tid: ThreadId)

  function RowOf(s: State, fee: FeeId): Option<Fee> {
    if fee in s.rows then Some(s.rows[fee]) else None
  }

  function At(s: State, tid: ThreadId): Thread {
    if tid in s.threads then s.threads[tid] else Finished
  }

  function Goto(s: State, tid: ThreadId, t: Thread): State {
    s.(threads := s.threads[tid := t])
  }

  function Note(s: State, e: Event): State {
    s.(log := s.log + [e])
  }

  function Write(s: State, fee: FeeId, f: Fee): State {
    s.(rows := s.rows[fee := f])
  }

  /** What a poll does next with the row it read. */
  function PollOf(fee: FeeId, f: Fee, now: int): Thread {
    if f.status != Processing || f.providerRef.None? || now - f.requestedAt < RECONCILE_AFTER_MS then Finished
    else if now - f.requestedAt > PROCESSING_TIMEOUT_MS then Settling(fee, Failed, Some(Expired))
    else Polling(fee, f.providerRef.value)
  }

  predicate FreshRef(log: seq<Event>, ref: Ref) {
    forall i :: 0 <= i < |log| && (log[i].Issued? || log[i].Reported?) ==> log[i].ref != ref
  }

  /** One step between two awaits; a step that does not fit the thread leaves the state alone. */
  function Next(s: State, step: Step): State {
    var t := At(s, step.tid);
    match step
    case BeginRequest(tid, fee, isRetry) => if tid in s.threads then s else Goto(s, tid, RequestBegun(fee, isRetry))
    case ReadExisting(tid) =>
      if !t.RequestBegun? then s
      else Goto(s, tid, if Prompts(RowOf(s, t.fee), t.isRetry) then RequestCleared(t.fee) else Finished)
    case WritePrompt(tid, now) =>
      if !t.RequestCleared? then s
      else Goto(Write(s, t.fee, Prompted(RowOf(s, t.fee), now)), tid, PromptWritten(t.fee))
    case ProviderIssues(tid, ref) =>
      if !t.PromptWritten? || !FreshRef(s.log, ref) then s
      else Goto(Note(s, Issued(t.fee, ref)), tid, PromptSent(t.fee, ref))
    case CashinFails(tid) =>
      if t.PromptWritten? || t.PromptSent? || t.ProcessingWritten? then Goto(s, tid, RequestFailing(t.fee)) else s
    case WriteProcessing(tid) =>
      if !t.PromptSent? || t.fee !in s.rows then s
      else Goto(Write(s, t.fee, Charged(s.rows[t.fee], t.ref)), tid, ProcessingWritten(t.fee))
    case WriteFailed(tid) =>
      if !t.RequestFailing? || t.fee !in s.rows then s
      else Goto(Write(s, t.fee, Unsent(s.rows[t.fee])), tid, Finished)
    case ReceiveWebhook(tid, ref, raw) =>
      if tid in s.threads then s else Goto(Note(s, Reported(ref, raw)), tid, Delivered(ref, raw))
    case FindByRef(tid, fee) =>
      if !t.Delivered? || fee !in s.rows || s.rows[fee].providerRef != Some(t.ref) then s
      else
        var status := MapStatus(t.word);
        Goto(s, tid,
             if s.rows[fee].status == Successful || status == Processing then Finished
             else Settling(fee, status, ReasonFor(status)))
    case ReadForPoll(tid, fee, now) =>
      if tid in s.threads || fee !in s.rows then s else Goto(s, tid, PollOf(fee, s.rows[fee], now))
    case LookupFails(tid) => if t.Polling? then Goto(s, tid, Finished) else s
    case ProviderAnswers(tid, answer) =>
      if !t.Polling? then s
      else
        var status := MapStatus(Some(answer));
        Goto(Note(s, Reported(t.ref, Some(answer))), tid,
             if status == Processing then Finished else Settling(t.fee, status, ReasonFor(status)))
    case WriteSettlement(tid, now) =>
      if !t.Settling? || t.fee !in s.rows then s
      else
        var written := Goto(Write(s, t.fee, Settled(s.rows[t.fee], t.status, t.reason, now)), tid, Finished);
        if t.status == Successful then Note(written, Paid(t.fee)) else written
    case ReadForStart(tid, fee) =>
      if tid in s.threads then s
      else Goto(s, tid, if StatusOf(RowOf(s, fee)) == Some(Successful) then Starting(fee) else Finished)
    case CommitStart(tid) => if t.Starting? then Goto(Note(s, Started(t.fee)), tid, Finished) else s
    case Stop(tid) => Goto(s, tid, Finished)
  }

  function Run(s: State, steps: seq<Step>): State {
    if steps == [] then s else Next(Run(s, steps[..|steps| - 1]), steps[|steps| - 1])
  }

  // ------------------------------------------------------------------ evidence

  predicate WasIssued(log: seq<Event>, fee: FeeId, ref: Ref) {
    Issued(fee, ref) in log
  }

  /** The provider issued a reference for this fee and afterwards reported success for it. */
  ghost predicate Backed(log: seq<Event>, fee: FeeId) {
    exists j, k ::
      0 <= j < k < |log| && log[j].Issued? && log[j].fee == fee && ReportsPayment(log[k], log[j].ref)
  }

  predicate ReportsPayment(e: Event, ref: Ref) {
    e.Reported? && e.ref == ref && SaysPaid(e.word)
  }

  /** Every payment and every start in the log is backed by what stands before it. */
  ghost predicate Honest(log: seq<Event>) {
    forall i :: 0 <= i < |log| && (log[i].Paid? || log[i].Started?) ==> Backed(log[..i], log[i].fee)
  }

  /** A reference is issued once, and nothing is reported about it before. */
  ghost predicate WellIssued(log: seq<Event>) {
    forall j, k :: 0 <= j < |log| && 0 <= k < |log| && log[j].Issued? ==>
      && (log[k].Issued? && log[k].ref == log[j].ref ==> j == k)
      && (log[k].Reported? && log[k].ref == log[j].ref ==> j < k)
  }

  ghost predicate RowSound(log: seq<Event>, fee: FeeId, f: Fee) {
    && (f.providerRef.Some? ==> WasIssued(log, fee, f.providerRef.value))
    && (f.status == Successful ==> Backed(log, fee) && Paid(fee) in log)
  }

  ghost predicate ThreadSound(log: seq<Event>, t: Thread) {
    match t
    case PromptSent(fee, ref) => WasIssued(log, fee, ref)
    case Polling(fee, ref) => WasIssued(log, fee, ref)
    case Delivered(ref, word) => Reported(ref, word) in log
    case Settling(fee, status, _) => status in {Failed, Successful} && (status == Successful ==> Backed(log, fee))
    case Starting(fee) => Backed(log, fee)
    case _ => true
  }

  ghost predicate Sound(s: State) {
    && Honest(s.log)
    && WellIssued(s.log)
    && (forall fee | fee in s.rows :: RowSound(s.log, fee, s.rows[fee]))
    && (forall tid | tid in s.threads :: ThreadSound(s.log, s.threads[tid]))
  }

  lemma BackedGrows(log: seq<Event>, e: Event, fee: FeeId)
    requires Backed(log, fee)
    ensures Backed(log + [e], fee)
  {
    var j, k :| 0 <= j < k < |log| && log[j].Issued? && log[j].fee == fee && ReportsPayment(log[k], log[j].ref);
    var longer := log + [e];
    assert longer[j] == log[j] && longer[k] == log[k];
  }

  /** An issue and a success report that are both in the log stand in the right order. */
  lemma ReportBacksIssue(log: seq<Event>, fee: FeeId, ref: Ref, word: Option<string>)
    requires WellIssued(log) && WasIssued(log, fee, ref) && Reported(ref, word) in log && SaysPaid(word)
    ensures Backed(log, fee)
  {
    var j :| 0 <= j < |log| && log[j] == Issued(fee, ref);
    var k :| 0 <= k < |log| && log[k] == Reported(ref, word);
    assert j < k && ReportsPayment(log[k], log[j].ref);
  }

  /** Appending an event keeps the whole state sound when the event itself is justified. */
  lemma NotingStaysSound(s: State, e: Event)
    requires Sound(s)
    requires e.Issued? ==> FreshRef(s.log, e.ref)
    requires e.Paid? || e.Started? ==> Backed(s.log, e.fee)
    ensures Sound(Note(s, e))
  {
    var log := s.log + [e];
    forall i | 0 <= i < |log| && (log[i].Paid? || log[i].Started?) ensures Backed(log[..i], log[i].fee) {
      assert log[..i] == s.log[..i];
      assert s.log[..|s.log|] == s.log;
    }
    forall fee | fee in s.rows ensures RowSound(log, fee, s.rows[fee]) {
      if s.rows[fee].status == Successful { BackedGrows(s.log, e, fee); }
    }
    forall tid | tid in s.threads ensures ThreadSound(log, s.threads[tid]) {
      var t := s.threads[tid];
      if t.Starting? || (t.Settling? && t.status == Successful) { BackedGrows(s.log, e, t.fee); }
    }
  }

  lemma GotoStaysSound(s: State, tid: ThreadId, t: Thread)
    requires Sound(s) && ThreadSound(s.log, t)
    ensures Sound(Goto(s, tid, t))
  {
  }

  lemma WriteStaysSound(s: State, fee: FeeId, f: Fee)
    requires Sound(s) && RowSound(s.log, fee, f)
    ensures Sound(Write(s, fee, f))
  {
  }

  /** Where a step leaves its thread. */
  function Target(s: State, step: Step): Thread {
    At(Next(s, step), step.tid)
  }

  lemma RequestStaysSound(s: State, step: Step)
    requires Sound(s)
    requires step.WritePrompt? || step.ProviderIssues? || step.WriteProcessing? || step.WriteFailed?
    ensures Sound(Next(s, step))
  {
    var t := At(s, step.tid);
    match step {
      case WritePrompt(tid, now) =>
        if t.RequestCleared? {
          WriteStaysSound(s, t.fee, Prompted(RowOf(s, t.fee), now));
          GotoStaysSound(Write(s, t.fee, Prompted(RowOf(s, t.fee), now)), tid, PromptWritten(t.fee));
        }
      case ProviderIssues(tid, ref) =>
        if t.PromptWritten? && FreshRef(s.log, ref) {
          NotingStaysSound(s, Issued(t.fee, ref));
          GotoStaysSound(Note(s, Issued(t.fee, ref)), tid, PromptSent(t.fee, ref));
        }
      case WriteProcessing(tid) =>
        if t.PromptSent? && t.fee in s.rows {
          WriteStaysSound(s, t.fee, Charged(s.rows[t.fee], t.ref));
          GotoStaysSound(Write(s, t.fee, Charged(s.rows[t.fee], t.ref)), tid, ProcessingWritten(t.fee));
        }
      case WriteFailed(tid) =>
        if t.RequestFailing? && t.fee in s.rows {
          WriteStaysSound(s, t.fee, Unsent(s.rows[t.fee]));
          GotoStaysSound(Write(s, t.fee, Unsent(s.rows[t.fee])), tid, Finished);
        }
    }
  }

  lemma AnswerStaysSound(s: State, tid: ThreadId, answer: string)
    requires Sound(s) && At(s, tid).Polling?
    ensures Sound(Next(s, ProviderAnswers(tid, answer)))
  {
    var t := At(s, tid);
    var e := Reported(t.ref, Some(answer));
    NotingStaysSound(s, e);
    if SaysPaid(e.word) { ReportBacksIssue(s.log + [e], t.fee, t.ref, e.word); }
    GotoStaysSound(Note(s, e), tid, Target(s, ProviderAnswers(tid, answer)));
  }

  lemma PayingStaysSound(s: State, fee: FeeId, f: Fee)
    requires Sound(s) && fee in s.rows && Backed(s.log, fee) && f.providerRef == s.rows[fee].providerRef
    ensures var noted := Note(s, Paid(fee));
            Sound(noted) && RowSound(noted.log, fee, f)
  {
    var noted := Note(s, Paid(fee));
    assert RowSound(s.log, fee, s.rows[fee]);
    NotingStaysSound(s, Paid(fee));
    assert RowSound(noted.log, fee, s.rows[fee]);
    BackedGrows(s.log, Paid(fee), fee);
    assert noted.log[|s.log|] == Paid(fee);
  }

  lemma SettlingUnpaidStaysSound(s: State, tid: ThreadId, now: int)
    requires Sound(s) && At(s, tid).Settling? && At(s, tid).fee in s.rows && At(s, tid).status != Successful
    ensures Sound(Next(s, WriteSettlement(tid, now)))
  {
    var t := At(s, tid);
    var f := Settled(s.rows[t.fee], t.status, t.reason, now);
    assert RowSound(s.log, t.fee, s.rows[t.fee]);
    WriteStaysSound(s, t.fee, f);
    GotoStaysSound(Write(s, t.fee, f), tid, Finished);
  }

  lemma SettlingPaidStaysSound(s: State, tid: ThreadId, now: int)
    requires Sound(s) && At(s, tid).Settling? && At(s, tid).fee in s.rows && At(s, tid).status == Successful
    ensures Sound(Next(s, WriteSettlement(tid, now)))
  {
    var t := At(s, tid);
    var f, noted := Settled(s.rows[t.fee], t.status, t.reason, now), Note(s, Paid(t.fee));
    assert ThreadSound(s.log, t);
    PayingStaysSound(s, t.fee, f);
    WriteStaysSound(noted, t.fee, f);
    GotoStaysSound(Write(noted, t.fee, f), tid, Finished);
  }

  lemma SettlementStaysSound(s: State, tid: ThreadId, now: int)
    requires Sound(s) && At(s, tid).Settling? && At(s, tid).fee in s.rows
    ensures Sound(Next(s, WriteSettlement(tid, now)))
  {
    if At(s, tid).status == Successful {
      SettlingPaidStaysSound(s, tid, now);
    } else {
      SettlingUnpaidStaysSound(s, tid, now);
    }
  }

  lemma StepStaysSound(s: State, step: Step)
    requires Sound(s)
    ensures Sound(Next(s, step))
  {
    var t := At(s, step.tid);
    match step {
      case WritePrompt(_, _) => RequestStaysSound(s, step);
      case ProviderIssues(_, _) => RequestStaysSound(s, step);
      case WriteProcessing(_) => RequestStaysSound(s, step);
      case WriteFailed(_) => RequestStaysSound(s, step);
      case ReceiveWebhook(tid, ref, raw) =>
        if tid !in s.threads {
          NotingStaysSound(s, Reported(ref, raw));
          GotoStaysSound(Note(s, Reported(ref, raw)), tid, Target(s, step));
        }
      case FindByRef(tid, fee) =>
        if t.Delivered? && fee in s.rows && s.rows[fee].providerRef == Some(t.ref) {
          if SaysPaid(t.word) { ReportBacksIssue(s.log, fee, t.ref, t.word); }
          GotoStaysSound(s, tid, Target(s, step));
        }
      case ProviderAnswers(tid, answer) => if t.Polling? { AnswerStaysSound(s, tid, answer); }
      case WriteSettlement(tid, now) => if t.Settling? && t.fee in s.rows { SettlementStaysSound(s, tid, now); }
      case CommitStart(tid) =>
        if t.Starting? {
          NotingStaysSound(s, Started(t.fee));
          GotoStaysSound(Note(s, Started(t.fee)), tid, Finished);
        }
      case _ => if Next(s, step) != s { GotoStaysSound(s, step.tid, Target(s, step)); }
    }
  }

  lemma {:induction false} RunsStaySound(steps: seq<Step>)
    ensures Sound(Run(INITIAL, steps))
  {
    if steps != [] {
      RunsStaySound(steps[..|steps| - 1]);
      StepStaysSound(Run(INITIAL, steps[..|steps| - 1]), steps[|steps| - 1]);
    }
  }

  /** In every interleaving, a fee is marked paid and work is started on it only after the provider said "successful"
      or "success", in any case, of a reference it had earlier issued for that same fee and for no other. */
  lemma NoWorkWithoutPayment(steps: seq<Step>)
    ensures var s := Run(INITIAL, steps);
            && (forall i :: 0 <= i < |s.log| && (s.log[i].Paid? || s.log[i].Started?) ==>
                  exists j, k :: 0 <= j < k < i && s.log[j].Issued? && s.log[j].fee == s.log[i].fee
                                 && s.log[k].Reported? && s.log[k].ref == s.log[j].ref && s.log[k].word.Some?
                                 && Lower(s.log[k].word.value) in ["successful", "success"])
            && (forall j, k | 0 <= j < |s.log| && 0 <= k < |s.log| && s.log[j].Issued? && s.log[k].Issued? ::
                  s.log[j].ref == s.log[k].ref ==> s.log[j].fee == s.log[k].fee)
            && (forall fee | fee in s.rows && s.rows[fee].status == Successful :: Paid(fee) in s.log)
  {
    RunsStaySound(steps);
    var s := Run(INITIAL, steps);
    forall i | 0 <= i < |s.log| && (s.log[i].Paid? || s.log[i].Started?)
      ensures exists j, k :: 0 <= j < k < i && s.log[j].Issued? && s.log[j].fee == s.log[i].fee
                             && s.log[k].Reported? && s.log[k].ref == s.log[j].ref && s.log[k].word.Some?
                             && Lower(s.log[k].word.value) in ["successful", "success"]
    {
      var log := s.log[..i];
      var j, k :| 0 <= j < k < |log| && log[j].Issued? && log[j].fee == s.log[i].fee
                  && ReportsPayment(log[k], log[j].ref);
      assert s.log[j] == log[j] && s.log[k] == log[k];
    }
  }

  // ------------------------------------------------------------------ handlers run without interruption

  lemma RequestUpToProvider(s: State, tid: ThreadId, fee: FeeId, isRetry: bool, now: int)
    requires tid !in s.threads
    ensures var s1 := Next(Next(Next(s, BeginRequest(tid, fee, isRetry)), ReadExisting(tid)), WritePrompt(tid, now));
            && s1.log == s.log
            && if Prompts(RowOf(s, fee), isRetry)
               then At(s1, tid) == PromptWritten(fee) && s1.rows == s.rows[fee := Prompted(RowOf(s, fee), now)]
               else At(s1, tid) == Finished && s1.rows == s.rows
  {
  }

  lemma PromptAnswered(s: State, tid: ThreadId, ref: Ref)
    requires FreshRef(s.log, ref) && (At(s, tid).PromptWritten? ==> At(s, tid).fee in s.rows)
    ensures var t := At(s, tid);
            var answered := Next(Next(s, ProviderIssues(tid, ref)), WriteProcessing(tid));
            && (t.PromptWritten? ==> answered.rows == s.rows[t.fee := Charged(s.rows[t.fee], ref)])
            && (t == Finished ==> answered.rows == s.rows)
  {
  }

  lemma PromptFailed(s: State, tid: ThreadId)
    requires At(s, tid).PromptWritten? ==> At(s, tid).fee in s.rows
    ensures var t := At(s, tid);
            var failed := Next(Next(s, CashinFails(tid)), WriteFailed(tid));
            && (t.PromptWritten? ==> failed.rows == s.rows[t.fee := Unsent(s.rows[t.fee])])
            && (t == Finished ==> failed.rows == s.rows)
  {
  }

  /** A request that nobody interrupts does exactly what the atomic handler does when the provider answers. */
  lemma UninterruptedRequestIsAtomic(s: State, tid: ThreadId, fee: FeeId, isRetry: bool, now: int, ref: Ref)
    requires tid !in s.threads && FreshRef(s.log, ref)
    ensures var s1 := Next(Next(Next(s, BeginRequest(tid, fee, isRetry)), ReadExisting(tid)), WritePrompt(tid, now));
            var answered := Next(Next(s1, ProviderIssues(tid, ref)), WriteProcessing(tid));
            && RowOf(answered, fee) == RequestFee(RowOf(s, fee), isRetry, true, now, Some(ref))
            && (forall other | other != fee :: RowOf(answered, other) == RowOf(s, other))
  {
    RequestUpToProvider(s, tid, fee, isRetry, now);
    var read := Next(Next(s, BeginRequest(tid, fee, isRetry)), ReadExisting(tid));
    PromptAnswered(Next(read, WritePrompt(tid, now)), tid, ref);
  }

  /** And when it fails. */
  lemma UninterruptedFailureIsAtomic(s: State, tid: ThreadId, fee: FeeId, isRetry: bool, now: int)
    requires tid !in s.threads
    ensures var s1 := Next(Next(Next(s, BeginRequest(tid, fee, isRetry)), ReadExisting(tid)), WritePrompt(tid, now));
            var failed := Next(Next(s1, CashinFails(tid)), WriteFailed(tid));
            && RowOf(failed, fee) == RequestFee(RowOf(s, fee), isRetry, true, now, None)
            && (forall other | other != fee :: RowOf(failed, other) == RowOf(s, other))
  {
    RequestUpToProvider(s, tid, fee, isRetry, now);
    var read := Next(Next(s, BeginRequest(tid, fee, isRetry)), ReadExisting(tid));
    PromptFailed(Next(read, WritePrompt(tid, now)), tid);
  }

  /** So does a webhook, whether or not its reference is known. */
  lemma UninterruptedWebhookIsAtomic(s: State, tid: ThreadId, fee: FeeId, ref: Ref, raw: Option<string>, now: int)
    requires tid !in s.threads
    ensures var found := Next(Next(s, ReceiveWebhook(tid, ref, raw)), FindByRef(tid, fee));
            var done := Next(found, WriteSettlement(tid, now));
            && RowOf(done, fee) == ApplyWebhook(RowOf(s, fee), ref, raw, now)
            && (forall other | other != fee :: RowOf(done, other) == RowOf(s, other))
  {
  }

  /** And a poll, whatever the row, its age and the provider's answer. */
  lemma UninterruptedPollIsAtomic(s: State, tid: ThreadId, fee: FeeId, now: int, lookup: Option<string>)
    requires tid !in s.threads
    ensures var read := Next(s, ReadForPoll(tid, fee, now));
            var heard := Next(read, if lookup.None? then LookupFails(tid) else ProviderAnswers(tid, lookup.value));
            var settled := Next(heard, WriteSettlement(tid, now));
            && RowOf(settled, fee) == FeeStep(RowOf(s, fee), Poll(now, lookup))
            && (forall other | other != fee :: RowOf(settled, other) == RowOf(s, other))
  {
  }

  // ------------------------------------------------------------------ when success is safe

  /** The thread read the row before it was settled, and may still write something else than SUCCESSFUL to it. */
  predicate Threatens(t: Thread, fee: FeeId) {
    match t
    case RequestCleared(f) => f == fee
    case PromptWritten(f) => f == fee
    case PromptSent(f, _) => f == fee
    case ProcessingWritten(f) => f == fee
    case RequestFailing(f) => f == fee
    case Polling(f, _) => f == fee
    case Settling(f, status, _) => f == fee && status != Successful
    case _ => false
  }

  ghost predicate Threatened(s: State, fee: FeeId) {
    exists tid :: Threatens(At(s, tid), fee)
  }

  predicate Successfully(s: State, fee: FeeId) {
    StatusOf(RowOf(s, fee)) == Some(Successful)
  }

  lemma StepTouchesOneThread(s: State, step: Step)
    ensures forall other | other != step.tid :: At(Next(s, step), other) == At(s, other)
  {
  }

  lemma SafeThreadStaysSafe(s: State, step: Step, fee: FeeId)
    requires Successfully(s, fee) && !Threatens(At(s, step.tid), fee)
    ensures Successfully(Next(s, step), fee) && !Threatens(At(Next(s, step), step.tid), fee)
  {
  }

  lemma SafeSuccessStays(s: State, step: Step, fee: FeeId)
    requires Successfully(s, fee) && !Threatened(s, fee)
    ensures Successfully(Next(s, step), fee) && !Threatened(Next(s, step), fee)
  {
    SafeThreadStaysSafe(s, step, fee);
    StepTouchesOneThread(s, step);
  }

  lemma {:induction false} SafeSuccessLasts(s: State, steps: seq<Step>, fee: FeeId)
    requires Successfully(s, fee) && !Threatened(s, fee)
    ensures Successfully(Run(s, steps), fee) && !Threatened(Run(s, steps), fee)
  {
    if steps != [] {
      SafeSuccessLasts(s, steps[..|steps| - 1], fee);
      SafeSuccessStays(Run(s, steps[..|steps| - 1]), steps[|steps| - 1], fee);
    }
  }

  lemma RunOne(s: State, a: Step)
    ensures Run(s, [a]) == Next(s, a)
  {
    assert [a][..0] == [];
    assert Run(s, []) == s;
  }

  lemma RunTwo(s: State, a: Step, b: Step)
    ensures Run(s, [a, b]) == Next(Next(s, a), b)
  {
    RunOne(s, a);
    assert [a, b][..1] == [a];
  }

  /** How a threatening thread goes on to overwrite the row. */
  function Overwriting(s: State, tid: ThreadId): seq<Step> {
    match At(s, tid)
    case RequestCleared(_) => [WritePrompt(tid, 0)]
    case PromptWritten(_) => [CashinFails(tid), WriteFailed(tid)]
    case PromptSent(_, _) => [WriteProcessing(tid)]
    case ProcessingWritten(_) => [CashinFails(tid), WriteFailed(tid)]
    case RequestFailing(_) => [WriteFailed(tid)]
    case Polling(_, _) => [ProviderAnswers(tid, "failed"), WriteSettlement(tid, 0)]
    case Settling(_, _, _) => [WriteSettlement(tid, 0)]
    case _ => []
  }

  lemma PolledFailureLosesSuccess(s: State, tid: ThreadId, fee: FeeId)
    requires Successfully(s, fee) && At(s, tid).Polling? && At(s, tid).fee == fee
    ensures !Successfully(Next(Next(s, ProviderAnswers(tid, "failed")), WriteSettlement(tid, 0)), fee)
  {
    FailureIsMapped();
    assert At(Next(s, ProviderAnswers(tid, "failed")), tid) == Settling(fee, Failed, Some(NotCompleted));
  }

  lemma OverwritingLosesSuccess(s: State, tid: ThreadId, fee: FeeId)
    requires Successfully(s, fee) && Threatens(At(s, tid), fee)
    ensures !Successfully(Run(s, Overwriting(s, tid)), fee)
  {
    var steps := Overwriting(s, tid);
    if |steps| == 1 {
      RunOne(s, steps[0]);
    } else {
      RunTwo(s, steps[0], steps[1]);
      if At(s, tid).Polling? { PolledFailureLosesSuccess(s, tid, fee); }
    }
  }

  /** Between awaits SUCCESSFUL is not absorbing: it lasts through every continuation exactly when no handler that
      read the row before is still on its way to it. */
  lemma SuccessLastsIff(s: State, fee: FeeId)
    requires Successfully(s, fee)
    ensures (forall steps :: Successfully(Run(s, steps), fee)) <==> !Threatened(s, fee)
  {
    if Threatened(s, fee) {
      var tid :| Threatens(At(s, tid), fee);
      OverwritingLosesSuccess(s, tid, fee);
    } else {
      forall steps ensures Successfully(Run(s, steps), fee) { SafeSuccessLasts(s, steps, fee); }
    }
  }

  // ------------------------------------------------------------------ what interleaving costs

  ghost predicate Reachable(s: State) {
    exists steps :: Run(INITIAL, steps) == s
  }

  lemma StepReaches(s: State, step: Step)
    requires Reachable(s)
    ensures Reachable(Next(s, step))
  {
    var steps :| Run(INITIAL, steps) == s;
    assert (steps + [step])[..|steps|] == steps;
    assert Run(INITIAL, steps + [step]) == Next(s, step);
  }

  lemma PromptedOnce() returns (s: State)
    ensures Reachable(s)
    ensures s == State(map[0 := Prompted(None, 0)], map[0 := PromptWritten(0)], [])
  {
    assert Run(INITIAL, []) == INITIAL;
    StepReaches(INITIAL, BeginRequest(0, 0, false));
    s := Next(INITIAL, BeginRequest(0, 0, false));
    StepReaches(s, ReadExisting(0));
    s := Next(s, ReadExisting(0));
    StepReaches(s, WritePrompt(0, 0));
    s := Next(s, WritePrompt(0, 0));
  }

  lemma AwaitingProvider() returns (s: State, ref: Ref)
    ensures Reachable(s)
    ensures s == State(map[0 := Fee(Processing, Some(ref), None, None, 0, 1)], map[0 := ProcessingWritten(0)],
                       [Issued(0, ref)])
  {
    ref := "a";
    s := PromptedOnce();
    StepReaches(s, ProviderIssues(0, ref));
    s := Next(s, ProviderIssues(0, ref));
    StepReaches(s, WriteProcessing(0));
    s := Next(s, WriteProcessing(0));
  }

  lemma RetryPastItsRead() returns (s: State, ref: Ref)
    ensures Reachable(s)
    ensures s == State(map[0 := Fee(Processing, Some(ref), None, None, 0, 1)],
                       map[0 := ProcessingWritten(0), 1 := RequestCleared(0)], [Issued(0, ref)])
  {
    s, ref := AwaitingProvider();
    StepReaches(s, BeginRequest(1, 0, true));
    s := Next(s, BeginRequest(1, 0, true));
    StepReaches(s, ReadExisting(1));
    s := Next(s, ReadExisting(1));
  }

  lemma WebhookIsFound(s: State, tid: ThreadId, fee: FeeId, ref: Ref, raw: Option<string>)
    requires Reachable(s) && tid !in s.threads && fee in s.rows
    requires s.rows[fee].status != Successful && s.rows[fee].providerRef == Some(ref) && SaysPaid(raw)
    ensures exists s' :: Reachable(s') && At(s', tid) == Settling(fee, Successful, None) && fee in s'.rows
                         && forall other | other != tid :: At(s', other) == At(s, other)
  {
    var heard := Next(s, ReceiveWebhook(tid, ref, raw));
    StepReaches(s, ReceiveWebhook(tid, ref, raw));
    StepReaches(heard, FindByRef(tid, fee));
    assert At(Next(heard, FindByRef(tid, fee)), tid) == Settling(fee, Successful, None);
  }

  lemma SettlementPays(s: State, tid: ThreadId, fee: FeeId, now: int)
    requires At(s, tid) == Settling(fee, Successful, None) && fee in s.rows
    ensures Paid(fee) in Next(s, WriteSettlement(tid, now)).log && fee in Next(s, WriteSettlement(tid, now)).rows
  {
    var log := Next(s, WriteSettlement(tid, now)).log;
    assert log[|log| - 1] == Paid(fee);
  }

  /** A delivered success settles the fee it was issued for while another thread waits. */
  lemma DeliveredSuccessPays(s: State, tid: ThreadId, fee: FeeId, ref: Ref, raw: Option<string>)
    requires Reachable(s) && tid !in s.threads && fee in s.rows
    requires s.rows[fee].status != Successful && s.rows[fee].providerRef == Some(ref) && SaysPaid(raw)
    ensures exists s' :: Reachable(s') && Paid(fee) in s'.log && fee in s'.rows
                         && forall other | other != tid :: At(s', other) == At(s, other)
  {
    WebhookIsFound(s, tid, fee, ref, raw);
    var found :| Reachable(found) && At(found, tid) == Settling(fee, Successful, None) && fee in found.rows
                 && forall other | other != tid :: At(found, other) == At(s, other);
    StepReaches(found, WriteSettlement(tid, 1));
    SettlementPays(found, tid, fee, 1);
    StepTouchesOneThread(found, WriteSettlement(tid, 1));
  }

  /** A run in which that happens: a retry reads PROCESSING, the success arrives, the retry goes on and writes. */
  lemma SuccessCanBeOverwritten()
    ensures exists s :: Reachable(s) && Paid(0) in s.log && StatusOf(RowOf(s, 0)) == Some(Pending)
  {
    var s, ref := RetryPastItsRead();
    SuccessIsMapped();
    DeliveredSuccessPays(s, 2, 0, ref, Some("success"));
    var paid :| Reachable(paid) && Paid(0) in paid.log && 0 in paid.rows
                && forall other | other != 2 :: At(paid, other) == At(s, other);
    StepReaches(paid, WritePrompt(1, 2));
    assert Next(paid, WritePrompt(1, 2)).log == paid.log;
  }
}
