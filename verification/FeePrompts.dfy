/** How often the owner of the property is prompted when handlers stop at their awaits. */
module FeePrompts {
  import opened Text
  import opened StateMachine
  import opened FeeInterleaving
  import Fees

  /** How many references the provider has issued for the fee: each is a prompt on the owner's handset. */
  function PromptCount(log: seq<Event>, fee: FeeId): nat {
    if log == [] then 0
    else
      var before, last := PromptCount(log[..|log| - 1], fee), log[|log| - 1];
      if last.Issued? && last.fee == fee then before + 1 else before
  }

  /** Nobody asks for a retry of the fee, and it never fails. */
  ghost predicate Quiet(s: State, steps: seq<Step>, fee: FeeId) {
    && (forall i :: 0 <= i < |steps| ==> !Retries(steps[i], fee))
    && (forall n :: 0 <= n <= |steps| ==> Fees.StatusOf(RowOf(Run(s, steps[..n]), fee)) != Some(Failed))
  }

  predicate Retries(step: Step, fee: FeeId) {
    step.BeginRequest? && step.fee == fee && step.isRetry
  }

  /** A request that has passed its guard, or a retry that is about to, and has not reached the provider yet. */
  predicate WillPrompt(t: Thread, fee: FeeId) {
    match t
    case RequestBegun(f, isRetry) => f == fee && isRetry
    case RequestCleared(f) => f == fee
    case PromptWritten(f) => f == fee
    case _ => false
  }

  ghost predicate PromptUnderWay(s: State, fee: FeeId) {
    exists tid :: WillPrompt(At(s, tid), fee)
  }

  predicate Waiting(s: State, fee: FeeId) {
    Fees.StatusOf(RowOf(s, fee)) in {Some(Processing), Some(Successful)}
  }

  lemma NoteCounts(log: seq<Event>, e: Event, fee: FeeId)
    ensures PromptCount(log + [e], fee) == PromptCount(log, fee) + (if e.Issued? && e.fee == fee then 1 else 0)
  {
    assert (log + [e])[..|log|] == log;
  }

  lemma QuietStepWaits(s: State, step: Step, fee: FeeId)
    requires Waiting(s, fee) && !WillPrompt(At(s, step.tid), fee) && ThreadSound(s.log, At(s, step.tid))
    requires Fees.StatusOf(RowOf(Next(s, step), fee)) != Some(Failed)
    ensures Waiting(Next(s, step), fee)
  {
  }

  lemma QuietStepThread(s: State, step: Step, fee: FeeId)
    requires Waiting(s, fee) && !WillPrompt(At(s, step.tid), fee) && !Retries(step, fee)
    ensures !WillPrompt(At(Next(s, step), step.tid), fee)
  {
  }

  /** A step notes at most one event, and only a written prompt is answered by a reference. */
  lemma NextNotes(s: State, step: Step)
    ensures var log := Next(s, step).log;
            || log == s.log
            || (log == s.log + [log[|log| - 1]]
                && (log[|log| - 1].Issued? ==> At(s, step.tid) == PromptWritten(log[|log| - 1].fee)))
  {
  }

  lemma QuietStep(s: State, step: Step, fee: FeeId)
    requires Sound(s) && Waiting(s, fee) && !PromptUnderWay(s, fee)
    requires !Retries(step, fee) && Fees.StatusOf(RowOf(Next(s, step), fee)) != Some(Failed)
    ensures Waiting(Next(s, step), fee) && !PromptUnderWay(Next(s, step), fee)
    ensures PromptCount(Next(s, step).log, fee) == PromptCount(s.log, fee)
  {
    var s' := Next(s, step);
    assert !WillPrompt(At(s, step.tid), fee) && ThreadSound(s.log, At(s, step.tid));
    QuietStepWaits(s, step, fee);
    QuietStepThread(s, step, fee);
    NextNotes(s, step);
    if s'.log != s.log { NoteCounts(s.log, s'.log[|s'.log| - 1], fee); }
    StepTouchesOneThread(s, step);
  }

  lemma {:induction false} QuietRunPromptsNobody(s: State, steps: seq<Step>, fee: FeeId)
    requires Sound(s) && Waiting(s, fee) && !PromptUnderWay(s, fee) && Quiet(s, steps, fee)
    ensures Sound(Run(s, steps)) && Waiting(Run(s, steps), fee) && !PromptUnderWay(Run(s, steps), fee)
    ensures PromptCount(Run(s, steps).log, fee) == PromptCount(s.log, fee)
  {
    if steps != [] {
      var init, last := steps[..|steps| - 1], steps[|steps| - 1];
      assert forall n :: 0 <= n <= |init| ==> init[..n] == steps[..n];
      QuietRunPromptsNobody(s, init, fee);
      assert steps[..|steps|] == steps;
      QuietStep(Run(s, init), last, fee);
      StepStaysSound(Run(s, init), last);
    }
  }

  /** A reference longer than every one in the log. */
  lemma {:induction false} SomeRefIsFresh(log: seq<Event>) returns (ref: Fees.Ref)
    ensures forall i :: 0 <= i < |log| && (log[i].Issued? || log[i].Reported?) ==> |log[i].ref| < |ref|
  {
    ref := "a";
    if log != [] {
      var last := log[|log| - 1];
      ref := SomeRefIsFresh(log[..|log| - 1]);
      if (last.Issued? || last.Reported?) && |last.ref| >= |ref| { ref := last.ref + "a"; }
    }
  }

  /** How such a thread goes on to prompt the owner. */
  function Prompting(s: State, tid: ThreadId, ref: Fees.Ref): seq<Step> {
    match At(s, tid)
    case RequestBegun(_, _) => [ReadExisting(tid), WritePrompt(tid, 0), ProviderIssues(tid, ref)]
    case RequestCleared(_) => [WritePrompt(tid, 0), ProviderIssues(tid, ref)]
    case _ => [ProviderIssues(tid, ref)]
  }

  lemma {:induction false} RunFirst(s: State, a: Step, rest: seq<Step>)
    ensures Run(s, [a] + rest) == Run(Next(s, a), rest)
  {
    var steps := [a] + rest;
    if rest == [] {
      RunOne(s, a);
      assert steps == [a];
    } else {
      var init, last := rest[..|rest| - 1], rest[|rest| - 1];
      RunFirst(s, a, init);
      assert steps[..|steps| - 1] == [a] + init && steps[|steps| - 1] == last;
      assert Run(s, steps) == Next(Run(s, [a] + init), last);
    }
  }

  lemma QuietFirst(s: State, a: Step, rest: seq<Step>, fee: FeeId)
    requires Fees.StatusOf(RowOf(s, fee)) != Some(Failed) && !Retries(a, fee) && Quiet(Next(s, a), rest, fee)
    ensures Quiet(s, [a] + rest, fee) && Run(s, [a] + rest) == Run(Next(s, a), rest)
  {
    var steps := [a] + rest;
    RunFirst(s, a, rest);
    forall n | 0 <= n <= |steps| ensures Fees.StatusOf(RowOf(Run(s, steps[..n]), fee)) != Some(Failed) {
      if n > 0 {
        assert steps[..n] == [a] + rest[..n - 1];
        RunFirst(s, a, rest[..n - 1]);
      }
    }
  }

  lemma PromptWrittenPrompts(s: State, tid: ThreadId, fee: FeeId, ref: Fees.Ref)
    requires At(s, tid) == PromptWritten(fee) && FreshRef(s.log, ref) && Fees.StatusOf(RowOf(s, fee)) != Some(Failed)
    ensures Quiet(s, [ProviderIssues(tid, ref)], fee)
    ensures PromptCount(Run(s, [ProviderIssues(tid, ref)]).log, fee) == PromptCount(s.log, fee) + 1
  {
    QuietFirst(s, ProviderIssues(tid, ref), [], fee);
    assert [ProviderIssues(tid, ref)] + [] == [ProviderIssues(tid, ref)];
    NoteCounts(s.log, Issued(fee, ref), fee);
  }

  lemma RequestClearedPrompts(s: State, tid: ThreadId, fee: FeeId, ref: Fees.Ref)
    requires At(s, tid) == RequestCleared(fee) && FreshRef(s.log, ref) && Fees.StatusOf(RowOf(s, fee)) != Some(Failed)
    ensures Quiet(s, [WritePrompt(tid, 0), ProviderIssues(tid, ref)], fee)
    ensures PromptCount(Run(s, [WritePrompt(tid, 0), ProviderIssues(tid, ref)]).log, fee) == PromptCount(s.log, fee) + 1
  {
    PromptWrittenPrompts(Next(s, WritePrompt(tid, 0)), tid, fee, ref);
    QuietFirst(s, WritePrompt(tid, 0), [ProviderIssues(tid, ref)], fee);
    assert [WritePrompt(tid, 0)] + [ProviderIssues(tid, ref)] == [WritePrompt(tid, 0), ProviderIssues(tid, ref)];
  }

  lemma UnderWayPrompts(s: State, tid: ThreadId, fee: FeeId, ref: Fees.Ref)
    requires WillPrompt(At(s, tid), fee) && FreshRef(s.log, ref) && Fees.StatusOf(RowOf(s, fee)) == Some(Processing)
    ensures Quiet(s, Prompting(s, tid, ref), fee)
    ensures PromptCount(Run(s, Prompting(s, tid, ref)).log, fee) == PromptCount(s.log, fee) + 1
  {
    match At(s, tid) {
      case RequestBegun(_, _) =>
        RequestClearedPrompts(Next(s, ReadExisting(tid)), tid, fee, ref);
        QuietFirst(s, ReadExisting(tid), [WritePrompt(tid, 0), ProviderIssues(tid, ref)], fee);
        assert [ReadExisting(tid)] + [WritePrompt(tid, 0), ProviderIssues(tid, ref)] == Prompting(s, tid, ref);
      case RequestCleared(_) => RequestClearedPrompts(s, tid, fee, ref);
      case PromptWritten(_) => PromptWrittenPrompts(s, tid, fee, ref);
    }
  }

  lemma {:induction false} SomeThreadIsFree(used: set<ThreadId>) returns (tid: ThreadId)
    ensures forall other | other in used :: other < tid
    decreases |used|
  {
    tid := 0;
    if used != {} {
      var one :| one in used;
      tid := SomeThreadIsFree(used - {one});
      assert forall other | other in used :: other == one || other in used - {one};
      if one >= tid { tid := one + 1; }
    }
  }

  /** A plain request that begins now and is not interrupted. */
  function Tapping(tid: ThreadId, fee: FeeId, ref: Fees.Ref): seq<Step> {
    [BeginRequest(tid, fee, false), ReadExisting(tid), WritePrompt(tid, 0), ProviderIssues(tid, ref)]
  }

  /** As long as the row is missing or PENDING, a plain request gets through. */
  lemma TappingPrompts(s: State, tid: ThreadId, fee: FeeId, ref: Fees.Ref)
    requires tid !in s.threads && FreshRef(s.log, ref)
    requires Fees.StatusOf(RowOf(s, fee)) in {None, Some(Pending)}
    ensures Quiet(s, Tapping(tid, fee, ref), fee)
    ensures PromptCount(Run(s, Tapping(tid, fee, ref)).log, fee) == PromptCount(s.log, fee) + 1
  {
    var begun := Next(s, BeginRequest(tid, fee, false));
    var cleared := Next(begun, ReadExisting(tid));
    var rest := [WritePrompt(tid, 0), ProviderIssues(tid, ref)];
    RequestClearedPrompts(cleared, tid, fee, ref);
    QuietFirst(begun, ReadExisting(tid), rest, fee);
    QuietFirst(s, BeginRequest(tid, fee, false), [ReadExisting(tid)] + rest, fee);
    assert [BeginRequest(tid, fee, false)] + ([ReadExisting(tid)] + rest) == Tapping(tid, fee, ref);
  }

  // ------------------------------------------------------------------ prompts behind a settled fee

  /** A request past its guard that the provider has not answered yet. */
  predicate PastGuard(t: Thread, fee: FeeId) {
    t == RequestCleared(fee) || t == PromptWritten(fee)
  }

  /** A request that holds its reference and is about to write PROCESSING. */
  predicate Answered(t: Thread, fee: FeeId) {
    t.PromptSent? && t.fee == fee
  }

  ghost predicate RequestsOver(s: State, fee: FeeId) {
    forall tid :: !PastGuard(At(s, tid), fee) && !Answered(At(s, tid), fee)
  }

  lemma SettledStepRow(s: State, step: Step, fee: FeeId)
    requires Successfully(s, fee) && ThreadSound(s.log, At(s, step.tid))
    requires !PastGuard(At(s, step.tid), fee) && !Answered(At(s, step.tid), fee)
    requires Fees.StatusOf(RowOf(Next(s, step), fee)) != Some(Failed)
    ensures Successfully(Next(s, step), fee)
  {
  }

  lemma SettledStepThread(s: State, step: Step, fee: FeeId)
    requires Successfully(s, fee) && !PastGuard(At(s, step.tid), fee) && !Answered(At(s, step.tid), fee)
    ensures !PastGuard(At(Next(s, step), step.tid), fee) && !Answered(At(Next(s, step), step.tid), fee)
  {
  }

  lemma SettledStep(s: State, step: Step, fee: FeeId)
    requires Sound(s) && Successfully(s, fee) && RequestsOver(s, fee)
    requires Fees.StatusOf(RowOf(Next(s, step), fee)) != Some(Failed)
    ensures Successfully(Next(s, step), fee) && RequestsOver(Next(s, step), fee)
    ensures PromptCount(Next(s, step).log, fee) == PromptCount(s.log, fee)
  {
    var s' := Next(s, step);
    assert ThreadSound(s.log, At(s, step.tid));
    SettledStepRow(s, step, fee);
    SettledStepThread(s, step, fee);
    NextNotes(s, step);
    if s'.log != s.log { NoteCounts(s.log, s'.log[|s'.log| - 1], fee); }
    StepTouchesOneThread(s, step);
  }

  lemma {:induction false} SettledRunPromptsNobody(s: State, steps: seq<Step>, fee: FeeId)
    requires Sound(s) && Successfully(s, fee) && RequestsOver(s, fee) && Quiet(s, steps, fee)
    ensures Sound(Run(s, steps)) && Successfully(Run(s, steps), fee) && RequestsOver(Run(s, steps), fee)
    ensures PromptCount(Run(s, steps).log, fee) == PromptCount(s.log, fee)
  {
    if steps != [] {
      var init, last := steps[..|steps| - 1], steps[|steps| - 1];
      assert forall n :: 0 <= n <= |init| ==> init[..n] == steps[..n];
      SettledRunPromptsNobody(s, init, fee);
      assert steps[..|steps|] == steps;
      SettledStep(Run(s, init), last, fee);
      StepStaysSound(Run(s, init), last);
    }
  }

  /** An answered request puts a settled row back to PROCESSING, where a begun retry passes. */
  lemma AnsweredReopensForRetry(s: State, answered: ThreadId, retry: ThreadId, fee: FeeId, ref: Fees.Ref)
    requires Successfully(s, fee) && Answered(At(s, answered), fee) && At(s, retry) == RequestBegun(fee, true)
    requires FreshRef(s.log, ref)
    ensures exists steps :: Quiet(s, steps, fee) && PromptCount(Run(s, steps).log, fee) == PromptCount(s.log, fee) + 1
  {
    var reopened := Next(s, WriteProcessing(answered));
    assert Fees.StatusOf(RowOf(reopened, fee)) == Some(Processing) && At(reopened, retry) == RequestBegun(fee, true);
    UnderWayPrompts(reopened, retry, fee, ref);
    QuietFirst(s, WriteProcessing(answered), Prompting(reopened, retry, ref), fee);
  }

  // ------------------------------------------------------------------ when no further prompt can follow

  /** A PROCESSING fee with no other request past its guard and no retry begun, or a settled fee that no request can
      reopen for a begun retry. A failed fee has no quiet continuation. */
  ghost predicate NoneToCome(s: State, fee: FeeId) {
    match Fees.StatusOf(RowOf(s, fee))
    case Some(Processing) => !PromptUnderWay(s, fee)
    case Some(Successful) => !PromptUnderWay(s, fee) || RequestsOver(s, fee)
    case Some(Failed) => true
    case _ => false
  }

  lemma QuietStartsUnfailed(s: State, steps: seq<Step>, fee: FeeId)
    requires Quiet(s, steps, fee)
    ensures Fees.StatusOf(RowOf(s, fee)) != Some(Failed)
  {
    assert steps[..0] == [] && Run(s, []) == s;
  }

  lemma NoneToComeSuffices(s: State, steps: seq<Step>, fee: FeeId)
    requires Sound(s) && NoneToCome(s, fee) && Quiet(s, steps, fee)
    ensures PromptCount(Run(s, steps).log, fee) == PromptCount(s.log, fee)
  {
    QuietStartsUnfailed(s, steps, fee);
    if PromptUnderWay(s, fee) {
      SettledRunPromptsNobody(s, steps, fee);
    } else {
      QuietRunPromptsNobody(s, steps, fee);
    }
  }

  lemma SettledPromptsAgain(s: State, fee: FeeId, ref: Fees.Ref)
    requires Successfully(s, fee) && PromptUnderWay(s, fee) && !RequestsOver(s, fee) && FreshRef(s.log, ref)
    ensures exists steps :: Quiet(s, steps, fee) && PromptCount(Run(s, steps).log, fee) == PromptCount(s.log, fee) + 1
  {
    if exists tid :: PastGuard(At(s, tid), fee) {
      var tid :| PastGuard(At(s, tid), fee);
      if At(s, tid).RequestCleared? {
        RequestClearedPrompts(s, tid, fee, ref);
      } else {
        PromptWrittenPrompts(s, tid, fee, ref);
      }
    } else {
      var retry :| WillPrompt(At(s, retry), fee);
      var answered :| Answered(At(s, answered), fee);
      AnsweredReopensForRetry(s, answered, retry, fee, ref);
    }
  }

  lemma NoneToComeIsNeeded(s: State, fee: FeeId)
    requires !NoneToCome(s, fee)
    ensures exists steps :: Quiet(s, steps, fee) && PromptCount(Run(s, steps).log, fee) == PromptCount(s.log, fee) + 1
  {
    var ref := SomeRefIsFresh(s.log);
    match Fees.StatusOf(RowOf(s, fee)) {
      case Some(Processing) =>
        var tid :| WillPrompt(At(s, tid), fee);
        UnderWayPrompts(s, tid, fee, ref);
      case Some(Successful) => SettledPromptsAgain(s, fee, ref);
      case _ =>
        var tid := SomeThreadIsFree(s.threads.Keys);
        TappingPrompts(s, tid, fee, ref);
    }
  }

  /** Whatever the state: no further prompt follows in any continuation without retry and failure exactly when none is
      to come. In particular one always can while the row is PENDING, as it is while the provider is being called. */
  lemma NoFurtherPromptIff(s: State, fee: FeeId)
    requires Sound(s)
    ensures (forall steps :: Quiet(s, steps, fee) ==> PromptCount(Run(s, steps).log, fee) == PromptCount(s.log, fee))
            <==> NoneToCome(s, fee)
  {
    if NoneToCome(s, fee) {
      forall steps | Quiet(s, steps, fee) ensures PromptCount(Run(s, steps).log, fee) == PromptCount(s.log, fee) {
        NoneToComeSuffices(s, steps, fee);
      }
    } else {
      NoneToComeIsNeeded(s, fee);
    }
  }

  // ------------------------------------------------------------------ runs in which the owner is prompted twice

  ghost predicate QuietlyReached(s: State) {
    exists steps :: Quiet(INITIAL, steps, 0) && Run(INITIAL, steps) == s
  }

  lemma QuietlyOn(s: State, a: Step)
    requires QuietlyReached(s) && !Retries(a, 0) && Fees.StatusOf(RowOf(Next(s, a), 0)) != Some(Failed)
    ensures QuietlyReached(Next(s, a))
  {
    var steps :| Quiet(INITIAL, steps, 0) && Run(INITIAL, steps) == s;
    var longer := steps + [a];
    assert longer[..|steps|] == steps;
    forall n | 0 <= n <= |longer| ensures Fees.StatusOf(RowOf(Run(INITIAL, longer[..n]), 0)) != Some(Failed) {
      if n <= |steps| {
        assert longer[..n] == steps[..n];
      } else {
        assert longer[..n] == longer;
      }
    }
    assert Run(INITIAL, longer) == Next(s, a);
  }

  lemma TwoRequestsReadTogether()
    ensures QuietlyReached(State(map[], map[0 := RequestCleared(0), 1 := RequestCleared(0)], []))
  {
    assert Quiet(INITIAL, [], 0) && Run(INITIAL, []) == INITIAL;
    var s := INITIAL;
    QuietlyOn(s, BeginRequest(0, 0, false));
    s := Next(s, BeginRequest(0, 0, false));
    QuietlyOn(s, BeginRequest(1, 0, false));
    s := Next(s, BeginRequest(1, 0, false));
    QuietlyOn(s, ReadExisting(0));
    s := Next(s, ReadExisting(0));
    QuietlyOn(s, ReadExisting(1));
    s := Next(s, ReadExisting(1));
    assert s == State(map[], map[0 := RequestCleared(0), 1 := RequestCleared(0)], []);
  }

  lemma ClearedRequestGoesThrough(s: State, tid: ThreadId, ref: Fees.Ref)
    requires QuietlyReached(s) && At(s, tid) == RequestCleared(0) && FreshRef(s.log, ref)
    ensures exists s' :: QuietlyReached(s') && s'.log == s.log + [Issued(0, ref)]
                         && forall other | other != tid :: At(s', other) == At(s, other)
  {
    var written := Next(s, WritePrompt(tid, 0));
    QuietlyOn(s, WritePrompt(tid, 0));
    assert At(written, tid) == PromptWritten(0);
    QuietlyOn(written, ProviderIssues(tid, ref));
    var issued := Next(written, ProviderIssues(tid, ref));
    assert QuietlyReached(issued) && issued.log == s.log + [Issued(0, ref)];
  }

  /** Two first requests that both read before either writes: the owner is prompted twice without a retry and without
      a failure. */
  lemma OwnerCanBePromptedTwice()
    ensures exists s :: QuietlyReached(s) && PromptCount(s.log, 0) == 2
  {
    TwoRequestsReadTogether();
    var s := State(map[], map[0 := RequestCleared(0), 1 := RequestCleared(0)], []);
    ClearedRequestGoesThrough(s, 0, "a");
    var once :| QuietlyReached(once) && once.log == s.log + [Issued(0, "a")]
                && forall other | other != 0 :: At(once, other) == At(s, other);
    assert At(once, 1) == RequestCleared(0);
    ClearedRequestGoesThrough(once, 1, "b");
    var twice :| QuietlyReached(twice) && twice.log == once.log + [Issued(0, "b")];
    NoteCounts(s.log, Issued(0, "a"), 0);
    NoteCounts(once.log, Issued(0, "b"), 0);
  }

  const TAPPED := State(map[0 := Fees.Prompted(None, 0)], map[0 := PromptSent(0, "a")], [Issued(0, "a")])

  lemma FirstTapReads()
    ensures QuietlyReached(State(map[], map[0 := RequestCleared(0)], []))
  {
    assert Quiet(INITIAL, [], 0) && Run(INITIAL, []) == INITIAL;
    QuietlyOn(INITIAL, BeginRequest(0, 0, false));
    var s := Next(INITIAL, BeginRequest(0, 0, false));
    QuietlyOn(s, ReadExisting(0));
    assert Next(s, ReadExisting(0)) == State(map[], map[0 := RequestCleared(0)], []);
  }

  lemma FirstTapWrites()
    ensures QuietlyReached(State(map[0 := Fees.Prompted(None, 0)], map[0 := PromptWritten(0)], []))
  {
    FirstTapReads();
    var s := State(map[], map[0 := RequestCleared(0)], []);
    QuietlyOn(s, WritePrompt(0, 0));
    assert Next(s, WritePrompt(0, 0)) == State(map[0 := Fees.Prompted(None, 0)], map[0 := PromptWritten(0)], []);
  }

  lemma FirstTapIsAnswered()
    ensures QuietlyReached(TAPPED)
  {
    FirstTapWrites();
    var s := State(map[0 := Fees.Prompted(None, 0)], map[0 := PromptWritten(0)], []);
    QuietlyOn(s, ProviderIssues(0, "a"));
    assert Next(s, ProviderIssues(0, "a")) == TAPPED;
  }

  lemma OnePromptSoFar()
    ensures PromptCount(TAPPED.log, 0) == 1 && !PromptUnderWay(TAPPED, 0) && FreshRef(TAPPED.log, "b")
  {
    assert [] + [Issued(0, "a")] == TAPPED.log;
    NoteCounts([], Issued(0, "a"), 0);
    assert "a"[0] != "b"[0];
  }

  /** One after the other does too: the first request has its reference, its row is still PENDING, nothing else is
      under way, and a second tap begins only now. */
  lemma TappingAgainPromptsAgain()
    ensures QuietlyReached(TAPPED) && PromptCount(TAPPED.log, 0) == 1 && !PromptUnderWay(TAPPED, 0)
    ensures Quiet(TAPPED, Tapping(1, 0, "b"), 0) && PromptCount(Run(TAPPED, Tapping(1, 0, "b")).log, 0) == 2
  {
    FirstTapIsAnswered();
    OnePromptSoFar();
    TappingPrompts(TAPPED, 1, 0, "b");
  }
}
