/** Offline synchronisation: a batch of operations, each in its own transaction, under optimistic concurrency. */
module Sync {
  import opened Text
  import opened StateMachine
  import opened Completeness
  import opened Content
  import opened Inspections
  import InspectionRules

  type InspectionId = nat
  type Table = map<InspectionId, Inspection>

  datatype Operation = Operation(clientId: string, inspection: InspectionId, base: Option<nat>, payload: SyncPayload)
  datatype OperationResult = OperationResult(clientId: string, outcome: SyncOutcome)

  function ApplyOperation(db: Table, user: UserId, op: Operation): (Table, SyncOutcome) {
    if op.inspection !in db then (db, SyncOutcome.Rejected)
    else
      var (next, outcome) := SyncApply(db[op.inspection], user, op.base, op.payload);
      (db[op.inspection := next], outcome)
  }

  /** The table after the batch, and one result per operation. */
  function Push(db: Table, user: UserId, ops: seq<Operation>): (r: (Table, seq<OperationResult>))
    ensures |r.1| == |ops|
  {
    if ops == [] then (db, [])
    else
      var (before, results) := Push(db, user, ops[..|ops| - 1]);
      var last := ops[|ops| - 1];
      var (after, outcome) := ApplyOperation(before, user, last);
      (after, results + [OperationResult(last.clientId, outcome)])
  }

  /** What one operation does to the inspection `s` it is for. */
  ghost predicate OperationDone(s: Inspection, user: UserId, op: Operation, after: Table, outcome: SyncOutcome) {
    && op.inspection in after
    && var s' := after[op.inspection];
    && (outcome.Applied? <==>
          && InspectionRules.InField(s, user) && InspectionRules.UpToDate(s, op.base)
          && InspectionRules.Sendable(op.payload))
    && (outcome.Conflict? <==>
          s.inspectorId == Some(user)
          && !(InspectionRules.InField(s, user) && InspectionRules.UpToDate(s, op.base)))
    && if outcome.Applied?
       then InspectionRules.Synced(s.form, s.content, s'.content, op.payload)
            && s' == s.(content := s'.content, version := s.version + 1) && outcome.version == s'.version
       else s' == s
  }

  lemma OperationRule(db: Table, user: UserId, op: Operation)
    requires op.inspection in db
    ensures var (after, outcome) := ApplyOperation(db, user, op);
            OperationDone(db[op.inspection], user, op, after, outcome)
  {
    InspectionRules.SyncRule(db[op.inspection], user, op.base, op.payload);
  }

  class SyncService {
    var table: Table

    method PushBatch(user: UserId, ops: seq<Operation>) returns (results: seq<OperationResult>)
      modifies this
      ensures (table, results) == Push(old(table), user, ops)
    {
      results := [];
      for i := 0 to |ops|
        invariant (table, results) == Push(old(table), user, ops[..i])
      {
        assert ops[..i + 1][..i] == ops[..i];
        var outcome := ApplyOne(user, ops[i]);
        results := results + [OperationResult(ops[i].clientId, outcome)];
      }
      assert ops[..|ops|] == ops;
    }

    method ApplyOne(user: UserId, op: Operation) returns (outcome: SyncOutcome)
      modifies this
      ensures (table, outcome) == ApplyOperation(old(table), user, op)
      ensures if op.inspection !in old(table) then outcome == SyncOutcome.Rejected && table == old(table)
              else OperationDone(old(table)[op.inspection], user, op, table, outcome)
                   && table.Keys == old(table).Keys
                   && forall id | id in table && id != op.inspection :: table[id] == old(table)[id]
    {
      if op.inspection in table { OperationRule(table, user, op); }
      if op.inspection !in table { return SyncOutcome.Rejected; }
      var s := table[op.inspection];
      outcome := SyncOutcome.Rejected;
      if s.inspectorId == Some(user) {
        if !IsEditable(s.status) {
          outcome := Conflict(s.version);
        } else if op.base.Some? && op.base.value < s.version {
          outcome := Conflict(s.version);
        } else {
          var edit := PayloadEdit(op.payload);
          if edit.Some? {
            s := s.(content := Apply(s.form, s.content, edit.value));
            s := s.(version := s.version + 1);
            outcome := Applied(s.version);
          }
        }
      }
      table := table[op.inspection := s];
    }
  }

  // ------------------------------------------------------------------ one operation

  /** The operation's inspection exists, is the user's, may still be edited, and the payload is acceptable. */
  predicate Admissible(db: Table, user: UserId, op: Operation) {
    && op.inspection in db
    && db[op.inspection].inspectorId == Some(user)
    && IsEditable(db[op.inspection].status)
    && PayloadEdit(op.payload).Some?
  }

  /** What synchronisation never touches. */
  ghost predicate SameHeader(db: Table, db': Table) {
    && db.Keys == db'.Keys
    && (forall id | id in db :: db[id].version <= db'[id].version
                                && db'[id] == db[id].(content := db'[id].content, version := db'[id].version))
  }

  /** An operation is applied exactly when it is admissible and not stale; then it raises the version by one, and
      otherwise it changes nothing. */
  lemma OneOperation(db: Table, user: UserId, op: Operation)
    ensures var (after, outcome) := ApplyOperation(db, user, op);
            && (outcome.Applied? <==> Admissible(db, user, op) && !StaleBase(db[op.inspection], op.base))
            && SameHeader(db, after)
            && (forall id | id in db && id != op.inspection :: after[id] == db[id])
            && (if outcome.Applied? then after[op.inspection].version == db[op.inspection].version + 1 else after == db)
  {
  }

  lemma {:induction false} PushKeepsHeaders(db: Table, user: UserId, ops: seq<Operation>)
    ensures SameHeader(db, Push(db, user, ops).0)
  {
    if ops != [] {
      PushKeepsHeaders(db, user, ops[..|ops| - 1]);
      OneOperation(Push(db, user, ops[..|ops| - 1]).0, user, ops[|ops| - 1]);
    }
  }

  /** The table after the first `i` operations, and what the next one got. */
  lemma {:induction false} ResultAt(db: Table, user: UserId, ops: seq<Operation>, i: nat)
    requires i < |ops|
    ensures Push(db, user, ops).1[i].outcome == ApplyOperation(Push(db, user, ops[..i]).0, user, ops[i]).1
  {
    if i < |ops| - 1 {
      ResultAt(db, user, ops[..|ops| - 1], i);
      assert ops[..|ops| - 1][..i] == ops[..i];
    }
  }

  /** Pushing a batch is pushing its beginning and then the rest. */
  lemma {:induction false} PushSplits(db: Table, user: UserId, ops: seq<Operation>, i: nat)
    requires i <= |ops|
    ensures Push(db, user, ops).0 == Push(Push(db, user, ops[..i]).0, user, ops[i..]).0
  {
    if i < |ops| {
      var init := ops[..|ops| - 1];
      PushSplits(db, user, init, i);
      assert init[..i] == ops[..i] && init[i..] == ops[i..][..|ops| - i - 1];
    } else {
      assert ops[..i] == ops && ops[i..] == [];
    }
  }

  // ------------------------------------------------------------------ replay under seen versions

  /** The operation carries a base version the device really saw before the batch was processed. */
  predicate SeenBase(db: Table, op: Operation) {
    op.base.Some? && (op.inspection in db ==> op.base.value <= db[op.inspection].version)
  }

  /** Every base version is one the device really saw before the batch was processed. */
  predicate SeenBases(db: Table, ops: seq<Operation>) {
    forall i :: 0 <= i < |ops| ==> SeenBase(db, ops[i])
  }

  /** The operation can no longer be applied. */
  predicate Spent(db: Table, user: UserId, op: Operation) {
    Admissible(db, user, op) ==> StaleBase(db[op.inspection], op.base)
  }

  lemma PushedOperationIsSpent(db: Table, user: UserId, ops: seq<Operation>, i: nat)
    requires i < |ops| && SeenBase(db, ops[i])
    ensures Spent(Push(db, user, ops).0, user, ops[i])
  {
    var before := Push(db, user, ops[..i]).0;
    PushKeepsHeaders(db, user, ops[..i]);
    OneOperation(before, user, ops[i]);
    assert ops[..i + 1][..i] == ops[..i];
    PushSplits(db, user, ops, i + 1);
    PushKeepsHeaders(Push(db, user, ops[..i + 1]).0, user, ops[i + 1..]);
  }

  lemma {:induction false} SpentBatchDoesNothing(db: Table, user: UserId, ops: seq<Operation>)
    requires forall i :: 0 <= i < |ops| ==> Spent(db, user, ops[i])
    ensures Push(db, user, ops).0 == db
    ensures forall i :: 0 <= i < |ops| ==> !Push(db, user, ops).1[i].outcome.Applied?
    ensures forall i :: 0 <= i < |ops| && Admissible(db, user, ops[i]) ==> Push(db, user, ops).1[i].outcome.Conflict?
  {
    if ops != [] {
      SpentBatchDoesNothing(db, user, ops[..|ops| - 1]);
      OneOperation(db, user, ops[|ops| - 1]);
    }
  }

  /** Replaying a batch whose base versions were really seen changes nothing, and every operation that was applied
      the first time now conflicts. */
  lemma ReplayIsNoOp(db: Table, user: UserId, ops: seq<Operation>)
    requires SeenBases(db, ops)
    ensures var (once, first) := Push(db, user, ops);
            var (twice, second) := Push(once, user, ops);
            && twice == once
            && (forall i :: 0 <= i < |ops| && first[i].outcome.Applied? ==> second[i].outcome.Conflict?)
  {
    var once := Push(db, user, ops).0;
    forall i | 0 <= i < |ops| ensures Spent(once, user, ops[i]) {
      PushedOperationIsSpent(db, user, ops, i);
    }
    SpentBatchDoesNothing(once, user, ops);
    PushKeepsHeaders(db, user, ops);
    forall i | 0 <= i < |ops| && Push(db, user, ops).1[i].outcome.Applied? ensures Admissible(once, user, ops[i]) {
      ResultAt(db, user, ops, i);
      OneOperation(Push(db, user, ops[..i]).0, user, ops[i]);
      PushKeepsHeaders(db, user, ops[..i]);
    }
  }

  /** Under seen base versions a batch applies at most one operation to each inspection. */
  lemma OneAppliedPerInspection(db: Table, user: UserId, ops: seq<Operation>, i: nat, j: nat)
    requires SeenBases(db, ops) && i < j < |ops|
    requires Push(db, user, ops).1[i].outcome.Applied? && Push(db, user, ops).1[j].outcome.Applied?
    ensures ops[i].inspection != ops[j].inspection
  {
    ResultAt(db, user, ops, i);
    ResultAt(db, user, ops, j);
    var first, later := Push(db, user, ops[..i]).0, Push(db, user, ops[..j]).0;
    PushKeepsHeaders(db, user, ops[..i]);
    OneOperation(first, user, ops[i]);
    assert ops[..j][..i + 1] == ops[..i + 1] && ops[..i + 1][..i] == ops[..i];
    PushSplits(db, user, ops[..j], i + 1);
    PushKeepsHeaders(Push(db, user, ops[..i + 1]).0, user, ops[..j][i + 1..]);
    OneOperation(later, user, ops[j]);
  }

  /** The documented idempotency of a single operation, and its limit: sending it again changes nothing unless it was
      applied without a base version or with one the server had not reached yet. */
  lemma ResendingIsHarmlessIff(db: Table, user: UserId, op: Operation)
    ensures var once := ApplyOperation(db, user, op).0;
            ApplyOperation(once, user, op).0 == once
            <==> (Admissible(db, user, op) ==> op.base.Some? && op.base.value <= db[op.inspection].version)
  {
    var once := ApplyOperation(db, user, op).0;
    OneOperation(db, user, op);
    OneOperation(once, user, op);
  }

  // ------------------------------------------------------------------ replay without base versions

  /** What a batch of upserts writes: the last value of every key. */
  datatype Patch = Patch(
    values: map<FieldId, FieldValue>, assessments: map<string, Assessment>, owner: Option<Owner>,
    valuation: Option<Valuation>)

  const NO_PATCH := Patch(map[], map[], None, None)

  function Patched(c: Captured, p: Patch): Captured {
    c.(values := c.values + p.values,
       assessments := c.assessments + p.assessments,
       owner := if p.owner.Some? then p.owner else c.owner,
       valuation := if p.valuation.Some? then p.valuation else c.valuation)
  }

  function Combined(p: Patch, later: Patch): Patch {
    Patch(p.values + later.values, p.assessments + later.assessments,
          if later.owner.Some? then later.owner else p.owner,
          if later.valuation.Some? then later.valuation else p.valuation)
  }

  function PatchOf(form: Form, p: SyncPayload): Patch {
    match PayloadEdit(p)
    case Some(SetValues(entries)) => NO_PATCH.(values := PutValues(form, map[], entries))
    case Some(PutAssessment(code, assessment)) => NO_PATCH.(assessments := map[code := assessment])
    case Some(SetOwner(owner)) => NO_PATCH.(owner := Some(owner))
    case Some(SetValuation(valuation)) => NO_PATCH.(valuation := Some(valuation))
    case _ => NO_PATCH
  }

  /** Location readings are appended, not upserted. */
  function ReadingsOf(p: SyncPayload): seq<Location> {
    match PayloadEdit(p)
    case Some(AddLocation(l)) => [l]
    case _ => []
  }

  function Extended(c: Captured, p: Patch, readings: seq<Location>): Captured {
    Patched(c, p).(locations := c.locations + readings)
  }

  /** The operation goes, without a base version, to this inspection, which is the user's and may be edited. */
  predicate Reaches(s: Inspection, id: InspectionId, user: UserId, op: Operation) {
    op.base.None? && op.inspection == id && s.inspectorId == Some(user) && IsEditable(s.status)
  }

  /** The writes without a base version that a batch makes to one inspection, later ones over earlier ones. */
  function BatchPatch(s: Inspection, id: InspectionId, user: UserId, ops: seq<Operation>): Patch {
    if ops == [] then NO_PATCH
    else
      var before, last := BatchPatch(s, id, user, ops[..|ops| - 1]), ops[|ops| - 1];
      if Reaches(s, id, user, last) then Combined(before, PatchOf(s.form, last.payload)) else before
  }

  /** Its location readings without a base version for one inspection, in order. */
  function BatchReadings(s: Inspection, id: InspectionId, user: UserId, ops: seq<Operation>): seq<Location> {
    if ops == [] then []
    else
      var before, last := BatchReadings(s, id, user, ops[..|ops| - 1]), ops[|ops| - 1];
      if Reaches(s, id, user, last) then before + ReadingsOf(last.payload) else before
  }

  predicate Versionless(ops: seq<Operation>) {
    forall i :: 0 <= i < |ops| ==> ops[i].base.None?
  }

  /** Operations for this inspection that carry a base version can no longer be applied. */
  predicate VersionedAreSpent(db: Table, user: UserId, ops: seq<Operation>, id: InspectionId) {
    forall i :: 0 <= i < |ops| && ops[i].inspection == id && ops[i].base.Some? ==> Spent(db, user, ops[i])
  }

  /** Every base version, where there is one, was really seen. */
  predicate SeenOrNone(db: Table, ops: seq<Operation>) {
    forall i :: 0 <= i < |ops| ==> ops[i].base.None? || SeenBase(db, ops[i])
  }

  lemma {:induction false} PutValuesIsOverride(form: Form, values: map<FieldId, FieldValue>,
                                               entries: seq<SubmittedValue>)
    ensures PutValues(form, values, entries) == values + PutValues(form, map[], entries)
  {
    if entries != [] {
      PutValuesIsOverride(form, values, entries[..|entries| - 1]);
    }
  }

  lemma OverridesCombine<K, V>(m: map<K, V>, p: map<K, V>, later: map<K, V>)
    ensures (m + p) + later == m + (p + later)
    ensures (m + p) + p == m + p
    ensures m + map[] == m
  {
  }

  lemma UpdateIsOverride<K, V>(m: map<K, V>, k: K, v: V)
    ensures m[k := v] == m + map[k := v]
  {
  }

  lemma EditExtends(form: Form, c: Captured, p: SyncPayload)
    requires PayloadEdit(p).Some?
    ensures Apply(form, c, PayloadEdit(p).value) == Extended(c, PatchOf(form, p), ReadingsOf(p))
  {
    OverridesCombine(c.values, map[], map[]);
    OverridesCombine(c.assessments, map[], map[]);
    match PayloadEdit(p).value {
      case SetValues(entries) => PutValuesIsOverride(form, c.values, entries);
      case PutAssessment(code, assessment) => UpdateIsOverride(c.assessments, code, assessment);
      case _ =>
    }
  }

  lemma PatchingCombines(c: Captured, p: Patch, later: Patch)
    ensures Patched(Patched(c, p), later) == Patched(c, Combined(p, later))
    ensures Patched(Patched(c, p), p) == Patched(c, p)
    ensures Patched(c, NO_PATCH) == c
  {
    OverridesCombine(c.values, p.values, later.values);
    OverridesCombine(c.assessments, p.assessments, later.assessments);
  }

  lemma ExtendingCombines(c: Captured, p: Patch, readings: seq<Location>, later: Patch, more: seq<Location>)
    ensures Extended(Extended(c, p, readings), later, more) == Extended(c, Combined(p, later), readings + more)
    ensures Extended(Extended(c, p, readings), p, more) == Extended(c, p, readings + more)
    ensures Extended(c, NO_PATCH, []) == c
  {
    PatchingCombines(c, p, later);
    assert (c.locations + readings) + more == c.locations + (readings + more);
  }

  lemma OneOperationExtends(s: Inspection, user: UserId, p: SyncPayload)
    ensures SyncApply(s, user, None, p).0.content
            == if s.inspectorId == Some(user) && IsEditable(s.status)
               then Extended(s.content, PatchOf(s.form, p), ReadingsOf(p)) else s.content
  {
    if PayloadEdit(p).Some? {
      EditExtends(s.form, s.content, p);
    } else {
      ExtendingCombines(s.content, NO_PATCH, [], NO_PATCH, []);
    }
  }

  /** One more operation of a batch, without a base version or spent, extends the content by what it says. */
  lemma OneMoreExtends(s: Inspection, id: InspectionId, user: UserId, op: Operation, c: Captured, p: Patch,
                       readings: seq<Location>)
    requires op.inspection == id && s.content == Extended(c, p, readings)
    requires op.base.Some? ==> SyncApply(s, user, op.base, op.payload).0 == s
    ensures SyncApply(s, user, op.base, op.payload).0.content
            == if Reaches(s, id, user, op)
               then Extended(c, Combined(p, PatchOf(s.form, op.payload)), readings + ReadingsOf(op.payload))
               else s.content
  {
    OneOperationExtends(s, user, op.payload);
    ExtendingCombines(c, p, readings, PatchOf(s.form, op.payload), ReadingsOf(op.payload));
  }

  /** A spent operation stays spent, and does nothing. */
  lemma SpentDoesNothing(db: Table, user: UserId, ops: seq<Operation>, op: Operation)
    requires Spent(db, user, op)
    ensures ApplyOperation(Push(db, user, ops).0, user, op).0 == Push(db, user, ops).0
  {
    PushKeepsHeaders(db, user, ops);
    OneOperation(Push(db, user, ops).0, user, op);
  }

  /** A batch whose operations carry no base versions, or spent ones, writes to an inspection the last value per key
      and every location reading. */
  lemma {:induction false} PushExtends(db: Table, user: UserId, ops: seq<Operation>, id: InspectionId)
    requires id in db && VersionedAreSpent(db, user, ops, id)
    ensures id in Push(db, user, ops).0
    ensures Push(db, user, ops).0[id].content
            == Extended(db[id].content, BatchPatch(db[id], id, user, ops), BatchReadings(db[id], id, user, ops))
  {
    if ops == [] {
      ExtendingCombines(db[id].content, NO_PATCH, [], NO_PATCH, []);
    } else {
      var init, last := ops[..|ops| - 1], ops[|ops| - 1];
      PushExtends(db, user, init, id);
      PushKeepsHeaders(db, user, init);
      if last.inspection == id {
        if last.base.Some? { SpentDoesNothing(db, user, init, last); }
        OneMoreExtends(Push(db, user, init).0[id], id, user, last, db[id].content, BatchPatch(db[id], id, user, init),
                       BatchReadings(db[id], id, user, init));
      }
    }
  }

  /** What is behind the writes without base versions when a batch under seen or missing base versions was pushed: the
      content before, or what an operation with a base version made of it, which can only be the first to apply. */
  ghost predicate Underlies(db: Table, user: UserId, ops: seq<Operation>, id: InspectionId, c: Captured)
    requires id in db && id in Push(db, user, ops).0
  {
    var p, readings := BatchPatch(db[id], id, user, ops), BatchReadings(db[id], id, user, ops);
    && Push(db, user, ops).0[id].content == Extended(c, p, readings)
    && (Push(db, user, ops).0[id].version == db[id].version ==> p == NO_PATCH && readings == [])
  }

  lemma OneMoreUnderlies(db: Table, user: UserId, ops: seq<Operation>, id: InspectionId, c: Captured)
    returns (under: Captured)
    requires ops != [] && id in db && ops[|ops| - 1].inspection == id && SeenOrNone(db, ops)
    requires id in Push(db, user, ops[..|ops| - 1]).0 && Underlies(db, user, ops[..|ops| - 1], id, c)
    ensures id in Push(db, user, ops).0 && Underlies(db, user, ops, id, under)
  {
    var init, last := ops[..|ops| - 1], ops[|ops| - 1];
    var before := Push(db, user, init).0;
    PushKeepsHeaders(db, user, init);
    OneOperation(before, user, last);
    under := c;
    if ApplyOperation(before, user, last).0 == before || last.base.None? {
      OneMoreExtends(before[id], id, user, last, c, BatchPatch(db[id], id, user, init),
                     BatchReadings(db[id], id, user, init));
    } else {
      under := Push(db, user, ops).0[id].content;
      ExtendingCombines(under, NO_PATCH, [], NO_PATCH, []);
    }
  }

  lemma {:induction false} SomethingUnderlies(db: Table, user: UserId, ops: seq<Operation>, id: InspectionId)
    returns (c: Captured)
    requires id in db && SeenOrNone(db, ops)
    ensures id in Push(db, user, ops).0 && Underlies(db, user, ops, id, c)
  {
    if ops == [] {
      c := db[id].content;
      ExtendingCombines(c, NO_PATCH, [], NO_PATCH, []);
    } else {
      c := SomethingUnderlies(db, user, ops[..|ops| - 1], id);
      if ops[|ops| - 1].inspection == id { c := OneMoreUnderlies(db, user, ops, id, c); }
    }
  }

  lemma {:induction false} SameHeaderSamePatch(s: Inspection, s': Inspection, id: InspectionId, user: UserId,
                                               ops: seq<Operation>)
    requires s.form == s'.form && s.inspectorId == s'.inspectorId && s.status == s'.status
    ensures BatchPatch(s, id, user, ops) == BatchPatch(s', id, user, ops)
    ensures BatchReadings(s, id, user, ops) == BatchReadings(s', id, user, ops)
  {
    if ops != [] {
      SameHeaderSamePatch(s, s', id, user, ops[..|ops| - 1]);
    }
  }

  /** Pushing a batch under seen or missing base versions twice stores its location readings without base versions
      twice, and leaves all other content as pushing it once. */
  lemma ReplayRepeatsReadings(db: Table, user: UserId, ops: seq<Operation>, id: InspectionId)
    requires SeenOrNone(db, ops) && id in db
    ensures var once := Push(db, user, ops).0;
            var twice := Push(once, user, ops).0;
            && id in once && id in twice
            && twice[id].content
               == once[id].content.(locations := once[id].content.locations + BatchReadings(db[id], id, user, ops))
  {
    var once := Push(db, user, ops).0;
    var p, readings := BatchPatch(db[id], id, user, ops), BatchReadings(db[id], id, user, ops);
    PushKeepsHeaders(db, user, ops);
    var c := SomethingUnderlies(db, user, ops, id);
    forall i | 0 <= i < |ops| && ops[i].inspection == id && ops[i].base.Some? ensures Spent(once, user, ops[i]) {
      PushedOperationIsSpent(db, user, ops, i);
    }
    PushExtends(once, user, ops, id);
    SameHeaderSamePatch(db[id], once[id], id, user, ops);
    ExtendingCombines(c, p, readings, p, readings);
    assert (c.locations + readings) + readings == c.locations + (readings + readings);
  }

  /** An admissible location reading for this inspection, sent without a base version. */
  predicate PushesReading(db: Table, user: UserId, op: Operation, id: InspectionId) {
    op.inspection == id && op.base.None? && op.payload.PushLocation? && Admissible(db, user, op)
  }

  lemma {:induction false} ReadingsComeFromPushes(db: Table, user: UserId, ops: seq<Operation>, id: InspectionId)
    requires id in db
    ensures BatchReadings(db[id], id, user, ops) == []
            <==> forall i :: 0 <= i < |ops| ==> !PushesReading(db, user, ops[i], id)
  {
    if ops != [] {
      ReadingsComeFromPushes(db, user, ops[..|ops| - 1], id);
    }
  }

  /** Under seen or missing base versions, replay leaves the content of an inspection alone exactly when the batch
      brought it no admissible location reading without a base version. */
  lemma ReplayKeepsContentIff(db: Table, user: UserId, ops: seq<Operation>, id: InspectionId)
    requires SeenOrNone(db, ops) && id in db
    ensures var once := Push(db, user, ops).0;
            var twice := Push(once, user, ops).0;
            && id in once && id in twice
            && (twice[id].content == once[id].content
                <==> forall i :: 0 <= i < |ops| ==> !PushesReading(db, user, ops[i], id))
  {
    var once := Push(db, user, ops).0;
    var twice := Push(once, user, ops).0;
    var readings := BatchReadings(db[id], id, user, ops);
    ReplayRepeatsReadings(db, user, ops, id);
    ReadingsComeFromPushes(db, user, ops, id);
    assert |twice[id].content.locations| == |once[id].content.locations| + |readings|;
  }

  /** Pushing upserts without base versions twice leaves all content as pushing them once. */
  lemma UpsertReplayKeepsContent(db: Table, user: UserId, ops: seq<Operation>, id: InspectionId)
    requires Versionless(ops) && (forall i :: 0 <= i < |ops| ==> !ops[i].payload.PushLocation?) && id in db
    ensures var once := Push(db, user, ops).0;
            var twice := Push(once, user, ops).0;
            id in once && id in twice && twice[id].content == once[id].content
  {
    ReplayKeepsContentIff(db, user, ops, id);
  }

  /** How many operations of the batch were applied to this inspection. */
  function AppliedTo(ops: seq<Operation>, results: seq<OperationResult>, id: InspectionId): nat
    requires |results| == |ops|
  {
    if ops == [] then 0
    else
      var before := AppliedTo(ops[..|ops| - 1], results[..|ops| - 1], id);
      if ops[|ops| - 1].inspection == id && results[|ops| - 1].outcome.Applied? then before + 1 else before
  }

  /** Each inspection's version grows by exactly its number of APPLIED results. */
  lemma {:induction false} VersionCountsApplied(db: Table, user: UserId, ops: seq<Operation>, id: InspectionId)
    requires id in db
    ensures id in Push(db, user, ops).0
    ensures Push(db, user, ops).0[id].version == db[id].version + AppliedTo(ops, Push(db, user, ops).1, id)
  {
    if ops != [] {
      VersionCountsApplied(db, user, ops[..|ops| - 1], id);
      OneOperation(Push(db, user, ops[..|ops| - 1]).0, user, ops[|ops| - 1]);
      assert Push(db, user, ops).1[..|ops| - 1] == Push(db, user, ops[..|ops| - 1]).1;
    }
  }

  // ------------------------------------------------------------------ inspections are independent

  /** The operations of the batch for one inspection, in order. */
  function Only(ops: seq<Operation>, id: InspectionId): seq<Operation> {
    if ops == [] then []
    else
      var before, last := Only(ops[..|ops| - 1], id), ops[|ops| - 1];
      if last.inspection == id then before + [last] else before
  }

  /** What they got, in order. */
  function ResultsFor(ops: seq<Operation>, results: seq<OperationResult>, id: InspectionId): seq<OperationResult>
    requires |results| == |ops|
  {
    if ops == [] then []
    else
      var before := ResultsFor(ops[..|ops| - 1], results[..|ops| - 1], id);
      if ops[|ops| - 1].inspection == id then before + [results[|ops| - 1]] else before
  }

  /** Two tables agree on one inspection. */
  ghost predicate AgreeOn(db: Table, db': Table, id: InspectionId) {
    (id in db <==> id in db') && (id in db ==> db[id] == db'[id])
  }

  lemma OperationIsLocal(db: Table, db': Table, user: UserId, op: Operation)
    requires AgreeOn(db, db', op.inspection)
    ensures ApplyOperation(db, user, op).1 == ApplyOperation(db', user, op).1
    ensures AgreeOn(ApplyOperation(db, user, op).0, ApplyOperation(db', user, op).0, op.inspection)
  {
  }

  lemma OtherOperationIsForeign(db: Table, user: UserId, op: Operation, id: InspectionId)
    requires op.inspection != id
    ensures AgreeOn(db, ApplyOperation(db, user, op).0, id)
  {
  }

  lemma PushGrows(db: Table, user: UserId, ops: seq<Operation>, op: Operation)
    ensures Push(db, user, ops + [op]).0 == ApplyOperation(Push(db, user, ops).0, user, op).0
    ensures Push(db, user, ops + [op]).1
            == Push(db, user, ops).1 + [OperationResult(op.clientId, ApplyOperation(Push(db, user, ops).0, user, op).1)]
  {
    assert (ops + [op])[..|ops|] == ops;
  }

  /** To one inspection, and in the results for it, a batch does what its operations for that inspection do alone. */
  lemma {:induction false} InspectionsAreIndependent(db: Table, user: UserId, ops: seq<Operation>, id: InspectionId)
    ensures AgreeOn(Push(db, user, ops).0, Push(db, user, Only(ops, id)).0, id)
    ensures ResultsFor(ops, Push(db, user, ops).1, id) == Push(db, user, Only(ops, id)).1
  {
    if ops != [] {
      var init, last := ops[..|ops| - 1], ops[|ops| - 1];
      InspectionsAreIndependent(db, user, init, id);
      assert init + [last] == ops;
      PushGrows(db, user, init, last);
      assert Push(db, user, ops).1[..|init|] == Push(db, user, init).1;
      if last.inspection == id {
        PushGrows(db, user, Only(init, id), last);
        OperationIsLocal(Push(db, user, init).0, Push(db, user, Only(init, id)).0, user, last);
      } else {
        OtherOperationIsForeign(Push(db, user, init).0, user, last, id);
      }
    }
  }

  lemma SameOperationsSameStory(db: Table, user: UserId, ops: seq<Operation>, others: seq<Operation>, id: InspectionId)
    requires Only(ops, id) == Only(others, id)
    ensures AgreeOn(Push(db, user, ops).0, Push(db, user, others).0, id)
    ensures ResultsFor(ops, Push(db, user, ops).1, id) == ResultsFor(others, Push(db, user, others).1, id)
  {
    InspectionsAreIndependent(db, user, ops, id);
    InspectionsAreIndependent(db, user, others, id);
  }

  lemma AgreeingTablesAreEqual(db: Table, db': Table)
    requires forall id :: AgreeOn(db, db', id)
    ensures db == db'
  {
    assert forall id :: id in db <==> id in db' by {
      forall id ensures id in db <==> id in db' { assert AgreeOn(db, db', id); }
    }
    forall id | id in db ensures db[id] == db'[id] {
      assert AgreeOn(db, db', id);
    }
  }

  /** Reordering a batch in any way that keeps the order per inspection leaves the same table, and the same results for
      every inspection. */
  lemma ReorderingChangesNothing(db: Table, user: UserId, ops: seq<Operation>, others: seq<Operation>)
    requires forall id :: Only(ops, id) == Only(others, id)
    ensures Push(db, user, ops).0 == Push(db, user, others).0
    ensures forall id :: ResultsFor(ops, Push(db, user, ops).1, id) == ResultsFor(others, Push(db, user, others).1, id)
  {
    forall id
      ensures AgreeOn(Push(db, user, ops).0, Push(db, user, others).0, id)
      ensures ResultsFor(ops, Push(db, user, ops).1, id) == ResultsFor(others, Push(db, user, others).1, id)
    {
      SameOperationsSameStory(db, user, ops, others, id);
    }
    AgreeingTablesAreEqual(Push(db, user, ops).0, Push(db, user, others).0);
  }

  /** In particular operations on different inspections commute, results included. */
  lemma DifferentInspectionsCommute(db: Table, user: UserId, a: Operation, b: Operation)
    requires a.inspection != b.inspection
    ensures var (afterA, gotA) := ApplyOperation(db, user, a);
            var (afterB, gotB) := ApplyOperation(db, user, b);
            ApplyOperation(afterA, user, b) == (ApplyOperation(afterB, user, a).0, gotB)
            && ApplyOperation(afterB, user, a).1 == gotA
  {
    assert ApplyOperation(ApplyOperation(db, user, a).0, user, b).0
        == ApplyOperation(ApplyOperation(db, user, b).0, user, a).0;
  }
}
