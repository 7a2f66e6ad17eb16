/** The completeness evaluator: a recursive visibility-rule interpreter, the counting loops over a
    form, and the declarative meaning the loops are proved equal to. */
module Completeness {
  import opened Text

  type FieldId = string
  type Category = string

  /** A number together with its `String(n)` rendering. */
  datatype Num = Num(value: real, shown: string)

  /** A captured value as JavaScript sees it; `Absent` stands for both null and undefined. */
  datatype Raw =
    | Absent
    | Words(text: string)
    | Number(num: Num)
    | Truth(truth: bool)
    | Day(shown: string)
    | Items(items: seq<string>)
    | Document(shown: string)

  datatype FieldValue = FieldValue(
    text: Option<string>, number: Option<Num>, date: Option<string>, truth: Option<bool>, json: Option<Raw>)

  /** An absent `all` list and an empty one mean the same; `any` says nothing unless it is given. */
  datatype VisibilityRule = VisibilityRule(
    field: Option<string>, equals: Option<Raw>, min: Option<real>, max: Option<real>,
    all: seq<VisibilityRule>, anyGiven: bool, any: seq<VisibilityRule>)

  /** The verdict of a regular expression; one that does not compile accepts everything. */
  datatype Pattern = Pattern(accepts: string -> bool)

  datatype Validation = Validation(
    min: Option<real>, max: Option<real>, minLength: Option<int>, maxLength: Option<int>,
    pattern: Option<Pattern>, hidden: bool, visibleWhen: Option<VisibilityRule>)

  datatype Field = Field(id: FieldId, code: string, required: bool, validation: Option<Validation>)
  datatype Section = Section(code: string, name: string, isAssessment: bool, sortOrder: int, fields: seq<Field>)
  datatype PhotoRule = PhotoRule(category: Category, minCount: int, required: bool)
  datatype SubmittedValue = SubmittedValue(fieldId: FieldId, data: FieldValue)
  datatype AssessmentState = AssessmentState(categoryCode: string, rating: Option<int>)

  datatype CompletenessInput = CompletenessInput(
    sections: seq<Section>, photoRules: seq<PhotoRule>, values: seq<SubmittedValue>,
    assessments: seq<AssessmentState>, photoCounts: map<Category, nat>, hasValuation: bool, hasLocation: bool)

  datatype IssueCode =
    | RequiredFieldMissing | ValueBelowMin | ValueAboveMax | TextTooShort | TextTooLong | PatternMismatch
    | AssessmentNotRated | PhotoRequirementUnmet | ValuationMissing | LocationMissing

  /** Every issue the evaluator raises is a blocking one. */
  datatype Issue = Issue(code: IssueCode, sectionCode: string, fieldCode: Option<string> := None)

  datatype CompletenessResult = CompletenessResult(
    complete: bool, percentage: int, issues: seq<Issue>, blockingIssues: seq<Issue>)

  // ------------------------------------------------------------------ single values

  predicate HasValue(v: FieldValue) {
    || (v.text.Some? && !Blank(v.text.value))
    || v.number.Some?
    || v.date.Some?
    || v.truth.Some?
    || (v.json.Some? && !(v.json.value.Absent?) && (v.json.value.Items? ==> v.json.value.items != []))
  }

  function RawValue(v: FieldValue): Raw {
    if v.text.Some? then Words(v.text.value)
    else if v.number.Some? then Number(v.number.value)
    else if v.truth.Some? then Truth(v.truth.value)
    else if v.date.Some? then Day(v.date.value)
    else v.json.GetOr(Absent)
  }

  function Joined(items: seq<string>): string {
    if items == [] then "" else if |items| == 1 then items[0] else items[0] + "," + Joined(items[1..])
  }

  /** `String(a ?? '')`. */
  function Rendered(a: Raw): string {
    match a
    case Absent => ""
    case Words(text) => text
    case Number(num) => num.shown
    case Truth(truth) => if truth then "true" else "false"
    case Day(shown) => shown
    case Items(items) => Joined(items)
    case Document(shown) => shown
  }

  predicate SameValue(a: Raw, expected: Raw) {
    if a.Items? then (if expected.Absent? then "null" else Rendered(expected)) in a.items
    else Upper(Rendered(a)) == Upper(Rendered(expected))
  }

  function Lookup(values: map<string, Raw>, code: string): Raw {
    if code in values then values[code] else Absent
  }

  // ------------------------------------------------------------------ visibility

  predicate TestsField(r: VisibilityRule) {
    r.field.Some? && r.field.value != ""
  }

  predicate MatchesRule(r: VisibilityRule, values: map<string, Raw>) {
    && (forall x | x in r.all :: MatchesRule(x, values))
    && (r.anyGiven ==> exists x | x in r.any :: MatchesRule(x, values))
    && (TestsField(r) ==>
          var a := Lookup(values, r.field.value);
          && (r.equals.Some? ==> SameValue(a, r.equals.value))
          && (r.min.Some? ==> a.Number? && a.num.value >= r.min.value)
          && (r.max.Some? ==> a.Number? && a.num.value <= r.max.value))
  }

  predicate Visible(f: Field, byCode: map<string, Raw>) {
    f.validation.None? ||
    (&& !f.validation.value.hidden
     && (f.validation.value.visibleWhen.Some? ==> MatchesRule(f.validation.value.visibleWhen.value, byCode)))
  }

  /** The rule tree asks about this field code somewhere. */
  predicate Names(r: VisibilityRule, code: string) {
    || (TestsField(r) && r.field.value == code)
    || (exists x | x in r.all :: Names(x, code))
    || (r.anyGiven && exists x | x in r.any :: Names(x, code))
  }

  /** The rule tree asks nothing about this field code except for a minimum. */
  predicate OnlyMinimums(r: VisibilityRule, code: string) {
    && (TestsField(r) && r.field.value == code ==> r.equals.None? && r.max.None?)
    && (forall x | x in r.all :: OnlyMinimums(x, code))
    && (r.anyGiven ==> forall x | x in r.any :: OnlyMinimums(x, code))
  }

  /** Visibility depends only on the codes the rule tree names. */
  lemma {:induction false} VisibilityDependsOnNamedCodes(r: VisibilityRule, m: map<string, Raw>, m': map<string, Raw>)
    requires forall code :: Names(r, code) ==> Lookup(m, code) == Lookup(m', code)
    ensures MatchesRule(r, m) <==> MatchesRule(r, m')
  {
    forall x | x in r.all ensures MatchesRule(x, m) <==> MatchesRule(x, m') {
      assert forall code :: Names(x, code) ==> Names(r, code);
      VisibilityDependsOnNamedCodes(x, m, m');
    }
    if r.anyGiven {
      forall x | x in r.any ensures MatchesRule(x, m) <==> MatchesRule(x, m') {
        assert forall code :: Names(x, code) ==> Names(r, code);
        VisibilityDependsOnNamedCodes(x, m, m');
      }
    }
    if TestsField(r) {
      assert Names(r, r.field.value);
    }
  }

  /** Raising a number never falsifies a rule tree whose only tests on that field are minimums. */
  lemma {:induction false} RaisingKeepsMinimums(
    r: VisibilityRule, m: map<string, Raw>, code: string, low: Num, high: Num)
    requires OnlyMinimums(r, code) && low.value <= high.value
    requires MatchesRule(r, m[code := Number(low)])
    ensures MatchesRule(r, m[code := Number(high)])
  {
    forall x | x in r.all ensures MatchesRule(x, m[code := Number(high)]) {
      RaisingKeepsMinimums(x, m, code, low, high);
    }
    if r.anyGiven {
      var x :| x in r.any && MatchesRule(x, m[code := Number(low)]);
      RaisingKeepsMinimums(x, m, code, low, high);
    }
  }

  // ------------------------------------------------------------------ what a rule asks

  const NO_TEST := VisibilityRule(None, None, None, None, [], false, [])

  /** Rules that ask one thing. */
  function EqualsRule(code: string, expected: Raw): VisibilityRule {
    NO_TEST.(field := Some(code), equals := Some(expected))
  }

  function MinRule(code: string, bound: real): VisibilityRule {
    NO_TEST.(field := Some(code), min := Some(bound))
  }

  function MaxRule(code: string, bound: real): VisibilityRule {
    NO_TEST.(field := Some(code), max := Some(bound))
  }

  function AllOf(rules: seq<VisibilityRule>): VisibilityRule {
    NO_TEST.(all := rules)
  }

  function AnyOf(rules: seq<VisibilityRule>): VisibilityRule {
    NO_TEST.(anyGiven := true, any := rules)
  }

  /** The answer agrees with this text: up to case, or as one item of a list. */
  predicate Agrees(a: Raw, shown: string) {
    match a
    case Absent => shown == ""
    case Words(text) => SameButCase(text, shown)
    case Number(num) => SameButCase(num.shown, shown)
    case Truth(truth) => SameButCase(if truth then "true" else "false", shown)
    case Day(day) => SameButCase(day, shown)
    case Items(items) => shown in items
    case Document(text) => SameButCase(text, shown)
  }

  /** A rule with an expected text alone matches exactly the answers that agree with it. */
  lemma EqualsRuleMeans(code: string, expected: string, values: map<string, Raw>)
    requires code != ""
    ensures MatchesRule(EqualsRule(code, Words(expected)), values) <==>
            if code in values then Agrees(values[code], expected) else expected == ""
  {
    var a := Lookup(values, code);
    CaseMappingsForgetCase(Rendered(a), expected);
    assert MatchesRule(EqualsRule(code, Words(expected)), values) <==> SameValue(a, Words(expected));
  }

  /** An expected value that is no text asks for its rendering. */
  lemma EqualsRuleRenders(code: string, num: Num, truth: bool, values: map<string, Raw>)
    requires code != ""
    ensures MatchesRule(EqualsRule(code, Number(num)), values) <==>
            MatchesRule(EqualsRule(code, Words(num.shown)), values)
    ensures MatchesRule(EqualsRule(code, Truth(truth)), values) <==>
            MatchesRule(EqualsRule(code, Words(if truth then "true" else "false")), values)
  {
  }

  /** A bound alone matches exactly the numbers on its side, and nothing that is not a number. */
  lemma BoundRulesMean(code: string, bound: real, values: map<string, Raw>)
    requires code != ""
    ensures MatchesRule(MinRule(code, bound), values) <==>
            code in values && values[code].Number? && values[code].num.value >= bound
    ensures MatchesRule(MaxRule(code, bound), values) <==>
            code in values && values[code].Number? && values[code].num.value <= bound
  {
  }

  /** `all` is conjunction, `any` disjunction, and an empty `any` never matches. */
  lemma ListRulesMean(rules: seq<VisibilityRule>, values: map<string, Raw>)
    ensures MatchesRule(AllOf(rules), values) <==> forall i :: 0 <= i < |rules| ==> MatchesRule(rules[i], values)
    ensures MatchesRule(AnyOf(rules), values) <==> exists i :: 0 <= i < |rules| && MatchesRule(rules[i], values)
    ensures !MatchesRule(AnyOf([]), values) && MatchesRule(NO_TEST, values)
  {
  }

  /** Every rule is the conjunction of the single things it asks. */
  lemma RulesAreConjunctions(r: VisibilityRule, values: map<string, Raw>)
    ensures MatchesRule(r, values) <==>
            && MatchesRule(AllOf(r.all), values)
            && (r.anyGiven ==> MatchesRule(AnyOf(r.any), values))
            && (r.field.Some? && r.field.value != "" ==>
                  && (r.equals.Some? ==> MatchesRule(EqualsRule(r.field.value, r.equals.value), values))
                  && (r.min.Some? ==> MatchesRule(MinRule(r.field.value, r.min.value), values))
                  && (r.max.Some? ==> MatchesRule(MaxRule(r.field.value, r.max.value), values)))
  {
  }

  /** A hidden field is never visible; any other is visible exactly when it has no rule or its rule matches. */
  lemma VisibilityMeans(f: Field, byCode: map<string, Raw>)
    ensures f.validation.None? ==> Visible(f, byCode)
    ensures f.validation.Some? && f.validation.value.hidden ==> !Visible(f, byCode)
    ensures f.validation.Some? && !f.validation.value.hidden && f.validation.value.visibleWhen.None? ==>
              Visible(f, byCode)
    ensures f.validation.Some? && !f.validation.value.hidden && f.validation.value.visibleWhen.Some? ==>
              (Visible(f, byCode) <==> MatchesRule(f.validation.value.visibleWhen.value, byCode))
  {
  }

  /** What counts as an answer: a text with some ink, or any number, date, truth value, or JSON but null and []. */
  lemma AnsweredMeans(v: FieldValue)
    ensures HasValue(v) <==>
            || (v.text.Some? && exists i :: 0 <= i < |v.text.value| && !IsSpace(v.text.value[i]))
            || v.number != None || v.date != None || v.truth != None
            || (v.json != None && v.json != Some(Absent) && v.json != Some(Items([])))
  {
    if v.text.Some? { BlankMeansOnlySpace(v.text.value); }
  }

  /** Of several parts of an answer, rules look at the text, then number, truth value, date and JSON. */
  lemma RulesLookAt(v: FieldValue, text: string, num: Num, truth: bool, day: string)
    ensures v.text == Some(text) ==> RawValue(v) == Words(text)
    ensures v.(text := None, number := Some(num)) == v ==> RawValue(v) == Number(num)
    ensures v.(text := None, number := None, truth := Some(truth)) == v ==> RawValue(v) == Truth(truth)
    ensures v.(text := None, number := None, truth := None, date := Some(day)) == v ==> RawValue(v) == Day(day)
    ensures v == FieldValue(None, None, None, None, v.json) ==>
              RawValue(v) == if v.json.Some? then v.json.value else Absent
  {
  }

  // ------------------------------------------------------------------ facts drawn from the input

  datatype Placed = Placed(section: string, field: Field)

  function PlacedFields(code: string, fields: seq<Field>): seq<Placed> {
    seq(|fields|, i requires 0 <= i < |fields| => Placed(code, fields[i]))
  }

  /** The fields of all sections in reading order. */
  function Flat(sections: seq<Section>): seq<Placed> {
    if sections == [] then []
    else
      var last := sections[|sections| - 1];
      Flat(sections[..|sections| - 1]) + PlacedFields(last.code, last.fields)
  }

  /** `new Map(values)`: the last row of a field id counts. */
  function LastById(values: seq<SubmittedValue>): map<FieldId, FieldValue> {
    if values == [] then map[]
    else
      var last := values[|values| - 1];
      LastById(values[..|values| - 1])[last.fieldId := last.data]
  }

  function RawByCode(flat: seq<Placed>, byId: map<FieldId, FieldValue>): map<string, Raw> {
    if flat == [] then map[]
    else
      var f := flat[|flat| - 1].field;
      var before := RawByCode(flat[..|flat| - 1], byId);
      if f.id in byId then before[f.code := RawValue(byId[f.id])] else before
  }

  /** The fields that are neither hidden nor switched off by their rule. */
  function Shown(flat: seq<Placed>, byCode: map<string, Raw>): seq<Placed> {
    if flat == [] then []
    else
      var before, last := Shown(flat[..|flat| - 1], byCode), flat[|flat| - 1];
      if Visible(last.field, byCode) then before + [last] else before
  }

  predicate Filled(byId: map<FieldId, FieldValue>, id: FieldId) {
    id in byId && HasValue(byId[id])
  }

  function PhotoCount(counts: map<Category, nat>, category: Category): nat {
    if category in counts then counts[category] else 0
  }

  /** The parts of the input that decide completeness, with the value rows indexed. */
  datatype Facts = Facts(
    sections: seq<Section>, photoRules: seq<PhotoRule>, byId: map<FieldId, FieldValue>,
    assessments: seq<AssessmentState>, photoCounts: map<Category, nat>, hasValuation: bool, hasLocation: bool)
  {
    function ByCode(): map<string, Raw> {
      RawByCode(Flat(sections), byId)
    }

    function Asked(): seq<Placed> {
      Shown(Flat(sections), ByCode())
    }

  }

  function FactsOf(input: CompletenessInput): Facts {
    Facts(input.sections, input.photoRules, LastById(input.values), input.assessments, input.photoCounts,
          input.hasValuation, input.hasLocation)
  }

  function FirstWithCode(flat: seq<Placed>, code: string): FieldId {
    if flat == [] then "" else if flat[0].field.code == code then flat[0].field.id else FirstWithCode(flat[1..], code)
  }

  /** A valuation row, or either of the two structured total fields of the form. */
  predicate ValuationKnown(x: Facts) {
    || x.hasValuation
    || Filled(x.byId, FirstWithCode(Flat(x.sections), "LAND_ESTIMATED_VALUE"))
    || Filled(x.byId, FirstWithCode(Flat(x.sections), "IMPROVED_TOTAL_VALUE"))
  }

  // ------------------------------------------------------------------ how rows and fields are looked up

  /** Reading order: section by section. */
  lemma {:induction false} FlatReadsOn(sections: seq<Section>, more: seq<Section>, s: Section)
    ensures Flat(sections + more) == Flat(sections) + Flat(more)
    ensures |Flat([s])| == |s.fields|
    ensures forall i :: 0 <= i < |s.fields| ==> Flat([s])[i] == Placed(s.code, s.fields[i])
  {
    assert [s][..0] == [];
    if more == [] {
      assert sections + more == sections;
    } else {
      FlatReadsOn(sections, more[..|more| - 1], s);
      assert (sections + more)[..|sections + more| - 1] == sections + more[..|more| - 1];
    }
  }

  predicate NoLaterRow(values: seq<SubmittedValue>, k: nat) {
    k < |values| && forall i :: k < i < |values| ==> values[i].fieldId != values[k].fieldId
  }

  /** Of several rows of one field the last counts. */
  lemma {:induction false} LastRowCounts(values: seq<SubmittedValue>, k: nat)
    requires NoLaterRow(values, k)
    ensures values[k].fieldId in LastById(values) && LastById(values)[values[k].fieldId] == values[k].data
  {
    if k < |values| - 1 {
      LastRowCounts(values[..|values| - 1], k);
      assert values[|values| - 1].fieldId != values[k].fieldId;
    }
  }

  lemma {:induction false} IndexedIdsAreListed(values: seq<SubmittedValue>, id: FieldId)
    ensures id in LastById(values) <==> exists k :: 0 <= k < |values| && values[k].fieldId == id
  {
    if values != [] {
      IndexedIdsAreListed(values[..|values| - 1], id);
      assert values[|values| - 1].fieldId == id || (id in LastById(values) <==> id in LastById(values[..|values| - 1]));
    }
  }

  /** The field at this place has this code and a row. */
  predicate Carries(flat: seq<Placed>, byId: map<FieldId, FieldValue>, code: string, k: int) {
    0 <= k < |flat| && flat[k].field.code == code && flat[k].field.id in byId
  }

  ghost predicate LastCarrier(flat: seq<Placed>, byId: map<FieldId, FieldValue>, code: string, k: int) {
    Carries(flat, byId, code, k) && forall i :: i > k ==> !Carries(flat, byId, code, i)
  }

  lemma {:induction false} AnsweredCodes(flat: seq<Placed>, byId: map<FieldId, FieldValue>, code: string)
    ensures code in RawByCode(flat, byId) <==> exists k :: Carries(flat, byId, code, k)
  {
    if flat != [] {
      var init, n := flat[..|flat| - 1], |flat| - 1;
      AnsweredCodes(init, byId, code);
      assert forall k :: k != n ==> (Carries(flat, byId, code, k) <==> Carries(init, byId, code, k));
      assert Carries(flat, byId, code, n) || (code in RawByCode(flat, byId) <==> code in RawByCode(init, byId));
    }
  }

  /** The answer to a code is that of its last field that has a row. */
  lemma {:induction false} LastFieldAnswers(flat: seq<Placed>, byId: map<FieldId, FieldValue>, code: string, k: int)
    requires LastCarrier(flat, byId, code, k)
    ensures code in RawByCode(flat, byId) && RawByCode(flat, byId)[code] == RawValue(byId[flat[k].field.id])
  {
    var init, n := flat[..|flat| - 1], |flat| - 1;
    if k < n {
      assert !Carries(flat, byId, code, n);
      forall i | i > k ensures !Carries(init, byId, code, i) { assert !Carries(flat, byId, code, i); }
      LastFieldAnswers(init, byId, code, k);
    }
  }

  predicate IsFirst(flat: seq<Placed>, code: string, k: int) {
    0 <= k < |flat| && flat[k].field.code == code && forall i :: 0 <= i < k ==> flat[i].field.code != code
  }

  predicate Unknown(flat: seq<Placed>, code: string) {
    forall i :: 0 <= i < |flat| ==> flat[i].field.code != code
  }

  /** A code stands for its first field. */
  lemma {:induction false} FirstFieldIsFound(flat: seq<Placed>, code: string) returns (k: int)
    ensures if Unknown(flat, code) then FirstWithCode(flat, code) == ""
            else IsFirst(flat, code, k) && FirstWithCode(flat, code) == flat[k].field.id
  {
    k := 0;
    if flat != [] && flat[0].field.code != code {
      k := FirstFieldIsFound(flat[1..], code);
      assert Unknown(flat, code) <==> Unknown(flat[1..], code) by { assert flat == [flat[0]] + flat[1..]; }
      k := k + 1;
    }
  }

  /** The first field with this code is answered. */
  predicate FirstAnswered(flat: seq<Placed>, byId: map<FieldId, FieldValue>, code: string) {
    || (Unknown(flat, code) && Filled(byId, ""))
    || exists k | 0 <= k < |flat| :: IsFirst(flat, code, k) && Filled(byId, flat[k].field.id)
  }

  lemma FirstFieldDecides(flat: seq<Placed>, byId: map<FieldId, FieldValue>, code: string)
    ensures Filled(byId, FirstWithCode(flat, code)) <==> FirstAnswered(flat, byId, code)
  {
    var first := FirstFieldIsFound(flat, code);
    if !Unknown(flat, code) { assert forall k :: IsFirst(flat, code, k) ==> !(first < k) && !(k < first); }
  }

  /** A valuation is known from its own row or from either total of the form. */
  lemma ValuationMeans(x: Facts)
    ensures ValuationKnown(x) <==>
            || x.hasValuation
            || FirstAnswered(Flat(x.sections), x.byId, "LAND_ESTIMATED_VALUE")
            || FirstAnswered(Flat(x.sections), x.byId, "IMPROVED_TOTAL_VALUE")
  {
    FirstFieldDecides(Flat(x.sections), x.byId, "LAND_ESTIMATED_VALUE");
    FirstFieldDecides(Flat(x.sections), x.byId, "IMPROVED_TOTAL_VALUE");
  }

  // ------------------------------------------------------------------ the declarative meaning

  predicate WithinBounds(f: Field, v: FieldValue) {
    f.validation.None? ||
    var r := f.validation.value;
    && (v.number.Some? ==>
          && (r.min.Some? ==> v.number.value.value >= r.min.value)
          && (r.max.Some? ==> v.number.value.value <= r.max.value))
    && (v.text.Some? && v.text.value != "" ==>
          && (r.minLength.Some? ==> |v.text.value| >= r.minLength.value)
          && (r.maxLength.Some? ==> |v.text.value| <= r.maxLength.value)
          && (r.pattern.Some? ==> r.pattern.value.accepts(v.text.value)))
  }

  predicate Settled(byId: map<FieldId, FieldValue>, f: Field) {
    && (f.required ==> Filled(byId, f.id))
    && (Filled(byId, f.id) ==> WithinBounds(f, byId[f.id]))
  }

  /** What it means for an inspection to be complete. */
  predicate Complete(x: Facts) {
    && (forall i, j | 0 <= i < |x.sections| && 0 <= j < |x.sections[i].fields| ::
          Visible(x.sections[i].fields[j], x.ByCode()) ==> Settled(x.byId, x.sections[i].fields[j]))
    && (forall a | a in x.assessments :: a.rating.Some?)
    && (forall r | r in x.photoRules && r.required :: PhotoCount(x.photoCounts, r.category) >= r.minCount)
    && ValuationKnown(x)
    && x.hasLocation
  }

  // ------------------------------------------------------------------ the issue list

  function IssueIf(broken: bool, issue: Issue): seq<Issue> {
    if broken then [issue] else []
  }

  function BoundIssues(f: Field, v: FieldValue, section: string): seq<Issue> {
    if f.validation.None? then []
    else
      var r := f.validation.value;
      NumberIssues(f, r, v.number, section)
      + (if v.text.Some? && v.text.value != "" then TextIssues(f.code, r, v.text.value, section) else [])
  }

  function NumberIssues(f: Field, r: Validation, number: Option<Num>, section: string): seq<Issue> {
    IssueIf(number.Some? && r.min.Some? && number.value.value < r.min.value,
            Issue(ValueBelowMin, section, Some(f.code)))
    + IssueIf(number.Some? && r.max.Some? && number.value.value > r.max.value,
              Issue(ValueAboveMax, section, Some(f.code)))
  }

  function TextIssues(code: string, r: Validation, t: string, section: string): seq<Issue> {
    IssueIf(r.minLength.Some? && |t| < r.minLength.value, Issue(TextTooShort, section, Some(code)))
    + IssueIf(r.maxLength.Some? && |t| > r.maxLength.value, Issue(TextTooLong, section, Some(code)))
    + IssueIf(r.pattern.Some? && !r.pattern.value.accepts(t), Issue(PatternMismatch, section, Some(code)))
  }

  function FieldIssues(byId: map<FieldId, FieldValue>, p: Placed): seq<Issue> {
    if Filled(byId, p.field.id) then BoundIssues(p.field, byId[p.field.id], p.section)
    else if p.field.required then [Issue(RequiredFieldMissing, p.section, Some(p.field.code))]
    else []
  }

  function IssuesOfFields(byId: map<FieldId, FieldValue>, asked: seq<Placed>): seq<Issue> {
    if asked == [] then []
    else IssuesOfFields(byId, asked[..|asked| - 1]) + FieldIssues(byId, asked[|asked| - 1])
  }

  function IssuesOfAssessments(assessments: seq<AssessmentState>): seq<Issue> {
    if assessments == [] then []
    else
      var before, last := IssuesOfAssessments(assessments[..|assessments| - 1]), assessments[|assessments| - 1];
      if last.rating.Some? then before else before + [Issue(AssessmentNotRated, last.categoryCode)]
  }

  function IssuesOfPhotos(counts: map<Category, nat>, rules: seq<PhotoRule>): seq<Issue> {
    if rules == [] then []
    else
      var before, last := IssuesOfPhotos(counts, rules[..|rules| - 1]), rules[|rules| - 1];
      if last.required && PhotoCount(counts, last.category) < last.minCount
      then before + [Issue(PhotoRequirementUnmet, "PHOTOS")] else before
  }

  function ClosingIssues(x: Facts): seq<Issue> {
    (if ValuationKnown(x) then [] else [Issue(ValuationMissing, "VALUATION")])
    + (if x.hasLocation then [] else [Issue(LocationMissing, "LOCATION")])
  }

  function Issues(x: Facts): seq<Issue> {
    IssuesOfFields(x.byId, x.Asked()) + IssuesOfAssessments(x.assessments) + IssuesOfPhotos(x.photoCounts, x.photoRules)
    + ClosingIssues(x)
  }

  // ------------------------------------------------------------------ demands and their count

  /** One entry for every item that must be present, true when it is. */
  function FieldDemands(byId: map<FieldId, FieldValue>, asked: seq<Placed>): seq<bool> {
    if asked == [] then []
    else
      var before, f := FieldDemands(byId, asked[..|asked| - 1]), asked[|asked| - 1].field;
      if f.required then before + [Filled(byId, f.id)] else before
  }

  function AssessmentDemands(assessments: seq<AssessmentState>): seq<bool> {
    if assessments == [] then []
    else AssessmentDemands(assessments[..|assessments| - 1]) + [assessments[|assessments| - 1].rating.Some?]
  }

  function PhotoDemands(counts: map<Category, nat>, rules: seq<PhotoRule>): seq<bool> {
    if rules == [] then []
    else
      var before, last := PhotoDemands(counts, rules[..|rules| - 1]), rules[|rules| - 1];
      if last.required then before + [PhotoCount(counts, last.category) >= last.minCount] else before
  }

  function Demands(x: Facts): seq<bool> {
    FieldDemands(x.byId, x.Asked()) + AssessmentDemands(x.assessments) + PhotoDemands(x.photoCounts, x.photoRules)
    + [ValuationKnown(x), x.hasLocation]
  }

  function Met(demands: seq<bool>): nat {
    if demands == [] then 0
    else Met(demands[..|demands| - 1]) + (if demands[|demands| - 1] then 1 else 0)
  }

  /** `Math.round(satisfied / total * 100)`, halves rounded up. */
  function Percent(satisfied: nat, total: nat): int {
    if total == 0 then 100 else (200 * satisfied + total) / (2 * total)
  }

  predicate Missing(code: IssueCode) {
    code in {RequiredFieldMissing, AssessmentNotRated, PhotoRequirementUnmet, ValuationMissing, LocationMissing}
  }

  function CountMissing(issues: seq<Issue>): nat {
    if issues == [] then 0
    else CountMissing(issues[..|issues| - 1]) + (if Missing(issues[|issues| - 1].code) then 1 else 0)
  }

  // ------------------------------------------------------------------ the evaluator

  method IndexValues(values: seq<SubmittedValue>) returns (byId: map<FieldId, FieldValue>)
    ensures byId == LastById(values)
  {
    byId := map[];
    for i := 0 to |values|
      invariant byId == LastById(values[..i])
    {
      byId := byId[values[i].fieldId := values[i].data];
      assert values[..i + 1][..i] == values[..i];
    }
    assert values[..|values|] == values;
  }

  method IndexCodes(flat: seq<Placed>, byId: map<FieldId, FieldValue>) returns (byCode: map<string, Raw>)
    ensures byCode == RawByCode(flat, byId)
  {
    byCode := map[];
    for k := 0 to |flat|
      invariant byCode == RawByCode(flat[..k], byId)
    {
      var f := flat[k].field;
      if f.id in byId {
        byCode := byCode[f.code := RawValue(byId[f.id])];
      }
      assert flat[..k + 1][..k] == flat[..k];
    }
    assert flat[..|flat|] == flat;
  }

  method CheckField(byId: map<FieldId, FieldValue>, section: string, f: Field)
    returns (issues: seq<Issue>, satisfied: int, total: int)
    ensures issues == FieldIssues(byId, Placed(section, f))
    ensures total == if f.required then 1 else 0
    ensures satisfied == if f.required && Filled(byId, f.id) then 1 else 0
  {
    issues, satisfied, total := [], 0, 0;
    var present := Filled(byId, f.id);
    if f.required {
      total := total + 1;
      if present {
        satisfied := satisfied + 1;
      } else {
        issues := issues + [Issue(RequiredFieldMissing, section, Some(f.code))];
      }
    }
    if present {
      issues := issues + BoundIssues(f, byId[f.id], section);
    }
  }

  method CheckFields(flat: seq<Placed>, byId: map<FieldId, FieldValue>, byCode: map<string, Raw>)
    returns (issues: seq<Issue>, satisfied: int, total: int)
    ensures Tally(byId, Shown(flat, byCode), issues, satisfied, total)
  {
    issues, satisfied, total := [], 0, 0;
    ghost var asked: seq<Placed> := [];
    for k := 0 to |flat|
      invariant asked == Shown(flat[..k], byCode)
      invariant Tally(byId, asked, issues, satisfied, total)
    {
      var p := flat[k];
      assert flat[..k + 1][..k] == flat[..k];
      if !Visible(p.field, byCode) { continue; }
      AskedAppend(byId, asked, p);
      asked := asked + [p];
      var more, ok, count := CheckField(byId, p.section, p.field);
      issues, satisfied, total := issues + more, satisfied + ok, total + count;
    }
    assert flat[..|flat|] == flat;
  }

  /** The running issue list and counters after these visible fields. */
  ghost predicate Tally(
    byId: map<FieldId, FieldValue>, asked: seq<Placed>, issues: seq<Issue>, satisfied: int, total: int)
  {
    && issues == IssuesOfFields(byId, asked)
    && total == |FieldDemands(byId, asked)|
    && satisfied == Met(FieldDemands(byId, asked))
  }

  /** How one more visible field changes the issues and the two counters. */
  lemma AskedAppend(byId: map<FieldId, FieldValue>, asked: seq<Placed>, p: Placed)
    ensures IssuesOfFields(byId, asked + [p]) == IssuesOfFields(byId, asked) + FieldIssues(byId, p)
    ensures |FieldDemands(byId, asked + [p])| == |FieldDemands(byId, asked)| + (if p.field.required then 1 else 0)
    ensures Met(FieldDemands(byId, asked + [p])) ==
            Met(FieldDemands(byId, asked)) + (if p.field.required && Filled(byId, p.field.id) then 1 else 0)
  {
    assert (asked + [p])[..|asked|] == asked;
    MetAppend(FieldDemands(byId, asked), Filled(byId, p.field.id));
  }

  method CheckAssessments(assessments: seq<AssessmentState>) returns (issues: seq<Issue>, satisfied: int, total: int)
    ensures issues == IssuesOfAssessments(assessments)
    ensures total == |AssessmentDemands(assessments)| && satisfied == Met(AssessmentDemands(assessments))
  {
    issues, satisfied, total := [], 0, 0;
    for i := 0 to |assessments|
      invariant issues == IssuesOfAssessments(assessments[..i])
      invariant total == |AssessmentDemands(assessments[..i])|
      invariant satisfied == Met(AssessmentDemands(assessments[..i]))
    {
      var a := assessments[i];
      assert assessments[..i + 1][..i] == assessments[..i];
      MetAppend(AssessmentDemands(assessments[..i]), a.rating.Some?);
      total := total + 1;
      if a.rating.Some? {
        satisfied := satisfied + 1;
      } else {
        issues := issues + [Issue(AssessmentNotRated, a.categoryCode)];
      }
    }
    assert assessments[..|assessments|] == assessments;
  }

  method CheckPhotos(counts: map<Category, nat>, rules: seq<PhotoRule>)
    returns (issues: seq<Issue>, satisfied: int, total: int)
    ensures issues == IssuesOfPhotos(counts, rules)
    ensures total == |PhotoDemands(counts, rules)| && satisfied == Met(PhotoDemands(counts, rules))
  {
    issues, satisfied, total := [], 0, 0;
    for i := 0 to |rules|
      invariant issues == IssuesOfPhotos(counts, rules[..i])
      invariant total == |PhotoDemands(counts, rules[..i])| && satisfied == Met(PhotoDemands(counts, rules[..i]))
    {
      var r := rules[i];
      assert rules[..i + 1][..i] == rules[..i];
      if !r.required { continue; }
      var count := PhotoCount(counts, r.category);
      MetAppend(PhotoDemands(counts, rules[..i]), count >= r.minCount);
      total := total + 1;
      if count >= r.minCount {
        satisfied := satisfied + 1;
      } else {
        issues := issues + [Issue(PhotoRequirementUnmet, "PHOTOS")];
      }
    }
    assert rules[..|rules|] == rules;
  }

  method EvaluateCompleteness(input: CompletenessInput) returns (result: CompletenessResult)
    ensures result.issues == Issues(FactsOf(input)) && result.blockingIssues == result.issues
    ensures result.complete <==> Complete(FactsOf(input))
    ensures result.percentage == Percent(Met(Demands(FactsOf(input))), |Demands(FactsOf(input))|)
    ensures forall issue :: issue in result.issues <==> Warranted(FactsOf(input), issue)
    ensures forall i, j, code, expected, k, answer
              | AskedIfEqual(FactsOf(input), i, j, code, expected, k, answer) ::
              ReportedMissing(FactsOf(input), result.issues, i, j) <==> SameButCase(answer, expected)
  {
    var byId := IndexValues(input.values);
    var flat := Flat(input.sections);
    var byCode := IndexCodes(flat, byId);
    var x := Facts(input.sections, input.photoRules, byId, input.assessments, input.photoCounts,
                   input.hasValuation, input.hasLocation);
    assert x == FactsOf(input);
    var issues, satisfied, total := CheckFields(flat, byId, byCode);
    var rated, ratedCount, ratedTotal := CheckAssessments(input.assessments);
    var shot, shotCount, shotTotal := CheckPhotos(input.photoCounts, input.photoRules);
    var closing, closed, closingTotal := CheckClosing(x);
    issues := issues + rated + shot + closing;
    satisfied, total := satisfied + ratedCount + shotCount + closed, total + ratedTotal + shotTotal + closingTotal;
    assert issues == Issues(x) && (issues == [] <==> Complete(x)) by { CompleteMeansNoIssue(x); }
    assert satisfied == Met(Demands(x)) && total == |Demands(x)| by { SumsAddUp(x); }
    result := CompletenessResult(issues == [], Percent(satisfied, total), issues, issues);
    EveryIssueExplained(x);
  }

  method CheckClosing(x: Facts) returns (issues: seq<Issue>, satisfied: int, total: int)
    ensures issues == ClosingIssues(x) && total == 2 && satisfied == Two(ValuationKnown(x), x.hasLocation)
  {
    issues, satisfied, total := [], 0, 1;
    if ValuationKnown(x) {
      satisfied := satisfied + 1;
    } else {
      issues := issues + [Issue(ValuationMissing, "VALUATION")];
    }
    total := total + 1;
    if x.hasLocation {
      satisfied := satisfied + 1;
    } else {
      issues := issues + [Issue(LocationMissing, "LOCATION")];
    }
  }

  function Two(first: bool, second: bool): nat {
    (if first then 1 else 0) + (if second then 1 else 0)
  }

  /** The demand and issue lists are assembled part by part. */
  lemma SumsAddUp(x: Facts)
    ensures |Demands(x)| == |FieldDemands(x.byId, x.Asked())| + |AssessmentDemands(x.assessments)|
                            + |PhotoDemands(x.photoCounts, x.photoRules)| + 2
    ensures Met(Demands(x)) == Met(FieldDemands(x.byId, x.Asked())) + Met(AssessmentDemands(x.assessments))
                               + Met(PhotoDemands(x.photoCounts, x.photoRules)) + Two(ValuationKnown(x), x.hasLocation)
  {
    PartsAddUp(FieldDemands(x.byId, x.Asked()), AssessmentDemands(x.assessments),
               PhotoDemands(x.photoCounts, x.photoRules), ValuationKnown(x), x.hasLocation);
  }

  lemma PartsAddUp(fields: seq<bool>, assessments: seq<bool>, photos: seq<bool>, valuation: bool, location: bool)
    ensures Met(fields + assessments + photos + [valuation, location])
            == Met(fields) + Met(assessments) + Met(photos) + Two(valuation, location)
  {
    MetConcat(fields, assessments);
    MetConcat(fields + assessments, photos);
    var most := fields + assessments + photos;
    MetAppend(most, valuation);
    MetAppend(most + [valuation], location);
    assert most + [valuation] + [location] == most + [valuation, location];
  }

  lemma MetAppend(demands: seq<bool>, last: bool)
    ensures Met(demands + [last]) == Met(demands) + (if last then 1 else 0)
  {
    assert (demands + [last])[..|demands|] == demands;
  }

  // ------------------------------------------------------------------ properties

  lemma {:induction false} FlatMembers(sections: seq<Section>, p: Placed)
    ensures p in Flat(sections) <==> exists s | s in sections :: s.code == p.section && p.field in s.fields
  {
    if sections != [] {
      var init, last := sections[..|sections| - 1], sections[|sections| - 1];
      FlatMembers(init, p);
      assert sections == init + [last];
      assert p in PlacedFields(last.code, last.fields) <==> last.code == p.section && p.field in last.fields by {
        if last.code == p.section && p.field in last.fields {
          var i :| 0 <= i < |last.fields| && last.fields[i] == p.field;
          assert PlacedFields(last.code, last.fields)[i] == p;
        }
      }
    }
  }

  lemma {:induction false} ShownMembers(flat: seq<Placed>, byCode: map<string, Raw>, p: Placed)
    ensures p in Shown(flat, byCode) <==> p in flat && Visible(p.field, byCode)
  {
    if flat != [] {
      ShownMembers(flat[..|flat| - 1], byCode, p);
      assert flat == flat[..|flat| - 1] + [flat[|flat| - 1]];
    }
  }

  lemma NoOneFieldIssue(byId: map<FieldId, FieldValue>, p: Placed)
    ensures FieldIssues(byId, p) == [] <==> Settled(byId, p.field)
  {
  }

  predicate AllSettled(byId: map<FieldId, FieldValue>, asked: seq<Placed>) {
    asked == [] || (AllSettled(byId, asked[..|asked| - 1]) && Settled(byId, asked[|asked| - 1].field))
  }

  lemma {:induction false} SettledMembers(byId: map<FieldId, FieldValue>, asked: seq<Placed>)
    ensures AllSettled(byId, asked) <==> forall p | p in asked :: Settled(byId, p.field)
  {
    if asked != [] {
      var init, last := asked[..|asked| - 1], asked[|asked| - 1];
      SettledMembers(byId, init);
      assert forall p :: p in asked <==> p in init || p == last by { assert asked == init + [last]; }
    }
  }

  lemma {:induction false} NoFieldIssue(byId: map<FieldId, FieldValue>, asked: seq<Placed>)
    ensures IssuesOfFields(byId, asked) == [] <==> AllSettled(byId, asked)
  {
    if asked != [] {
      NoFieldIssue(byId, asked[..|asked| - 1]);
      NoOneFieldIssue(byId, asked[|asked| - 1]);
    }
  }

  lemma {:induction false} NoAssessmentIssue(assessments: seq<AssessmentState>)
    ensures IssuesOfAssessments(assessments) == [] <==> forall a | a in assessments :: a.rating.Some?
  {
    if assessments != [] {
      var init, last := assessments[..|assessments| - 1], assessments[|assessments| - 1];
      NoAssessmentIssue(init);
      assert assessments == init + [last];
    }
  }

  lemma {:induction false} NoPhotoIssue(counts: map<Category, nat>, rules: seq<PhotoRule>)
    ensures IssuesOfPhotos(counts, rules) == [] <==>
            forall r | r in rules && r.required :: PhotoCount(counts, r.category) >= r.minCount
  {
    if rules != [] {
      var init, last := rules[..|rules| - 1], rules[|rules| - 1];
      NoPhotoIssue(counts, init);
      assert rules == init + [last];
    }
  }

  /** The issue list is empty exactly when the inspection is complete. */
  lemma CompleteMeansNoIssue(x: Facts)
    ensures Issues(x) == [] <==> Complete(x)
  {
    NoFieldIssue(x.byId, x.Asked());
    SettledMembers(x.byId, x.Asked());
    NoAssessmentIssue(x.assessments);
    NoPhotoIssue(x.photoCounts, x.photoRules);
    if forall p | p in x.Asked() :: Settled(x.byId, p.field) {
      forall i, j | 0 <= i < |x.sections| && 0 <= j < |x.sections[i].fields|
        ensures Visible(x.sections[i].fields[j], x.ByCode()) ==> Settled(x.byId, x.sections[i].fields[j])
      {
        var p := Placed(x.sections[i].code, x.sections[i].fields[j]);
        FlatMembers(x.sections, p);
        ShownMembers(Flat(x.sections), x.ByCode(), p);
        assert x.sections[i] in x.sections;
      }
    }
    if Complete(x) {
      forall p | p in x.Asked() ensures Settled(x.byId, p.field) {
        ShownMembers(Flat(x.sections), x.ByCode(), p);
        FlatMembers(x.sections, p);
      }
    }
  }

  lemma {:induction false} CountMissingConcat(a: seq<Issue>, b: seq<Issue>)
    ensures CountMissing(a + b) == CountMissing(a) + CountMissing(b)
  {
    if b == [] {
      assert a + b == a;
    } else {
      assert (a + b)[..|a + b| - 1] == a + b[..|b| - 1];
      CountMissingConcat(a, b[..|b| - 1]);
    }
  }

  lemma {:induction false} MetConcat(a: seq<bool>, b: seq<bool>)
    ensures Met(a + b) == Met(a) + Met(b)
  {
    if b == [] {
      assert a + b == a;
    } else {
      assert (a + b)[..|a + b| - 1] == a + b[..|b| - 1];
      MetConcat(a, b[..|b| - 1]);
    }
  }

  lemma {:induction false} MetBounded(demands: seq<bool>)
    ensures Met(demands) <= |demands|
  {
    if demands != [] {
      MetBounded(demands[..|demands| - 1]);
    }
  }

  function Unmet(demands: seq<bool>): int {
    |demands| - Met(demands)
  }

  lemma PresentIssue(broken: bool, issue: Issue, rest: seq<Issue>)
    requires !Missing(issue.code)
    ensures CountMissing(rest + IssueIf(broken, issue)) == CountMissing(rest)
  {
    CountMissingConcat(rest, IssueIf(broken, issue));
  }

  lemma TextIssuesAreNotMissing(code: string, r: Validation, t: string, section: string)
    ensures CountMissing(TextIssues(code, r, t, section)) == 0
  {
    var short := IssueIf(r.minLength.Some? && |t| < r.minLength.value, Issue(TextTooShort, section, Some(code)));
    var long := IssueIf(r.maxLength.Some? && |t| > r.maxLength.value, Issue(TextTooLong, section, Some(code)));
    PresentIssue(r.maxLength.Some? && |t| > r.maxLength.value, Issue(TextTooLong, section, Some(code)), short);
    PresentIssue(r.pattern.Some? && !r.pattern.value.accepts(t), Issue(PatternMismatch, section, Some(code)),
                 short + long);
  }

  lemma NumberIssuesAreNotMissing(f: Field, r: Validation, number: Option<Num>, section: string)
    ensures CountMissing(NumberIssues(f, r, number, section)) == 0
  {
    PresentIssue(number.Some? && r.max.Some? && number.value.value > r.max.value,
                 Issue(ValueAboveMax, section, Some(f.code)),
                 IssueIf(number.Some? && r.min.Some? && number.value.value < r.min.value,
                         Issue(ValueBelowMin, section, Some(f.code))));
  }

  lemma BoundIssuesAreNotMissing(f: Field, v: FieldValue, section: string)
    ensures CountMissing(BoundIssues(f, v, section)) == 0
  {
    if f.validation.Some? {
      var r := f.validation.value;
      var texts := if v.text.Some? && v.text.value != "" then TextIssues(f.code, r, v.text.value, section) else [];
      NumberIssuesAreNotMissing(f, r, v.number, section);
      if texts != [] { TextIssuesAreNotMissing(f.code, r, v.text.value, section); }
      CountMissingConcat(NumberIssues(f, r, v.number, section), texts);
    }
  }

  /** A field misses something exactly when it is required and not filled. */
  lemma OneFieldCounts(byId: map<FieldId, FieldValue>, p: Placed)
    ensures CountMissing(FieldIssues(byId, p)) == if p.field.required && !Filled(byId, p.field.id) then 1 else 0
  {
    if Filled(byId, p.field.id) {
      BoundIssuesAreNotMissing(p.field, byId[p.field.id], p.section);
    } else if p.field.required {
      OneIssueCounts(Issue(RequiredFieldMissing, p.section, Some(p.field.code)));
    }
  }

  lemma OneIssueCounts(issue: Issue)
    ensures CountMissing([issue]) == if Missing(issue.code) then 1 else 0
  {
    assert [issue][..0] == [];
  }

  lemma {:induction false} FieldCounts(byId: map<FieldId, FieldValue>, asked: seq<Placed>)
    ensures CountMissing(IssuesOfFields(byId, asked)) == Unmet(FieldDemands(byId, asked))
  {
    if asked != [] {
      var init, last := asked[..|asked| - 1], asked[|asked| - 1];
      FieldCounts(byId, init);
      OneFieldCounts(byId, last);
      CountMissingConcat(IssuesOfFields(byId, init), FieldIssues(byId, last));
      MetAppend(FieldDemands(byId, init), Filled(byId, last.field.id));
    }
  }

  lemma {:induction false} AssessmentCounts(assessments: seq<AssessmentState>)
    ensures CountMissing(IssuesOfAssessments(assessments)) == Unmet(AssessmentDemands(assessments))
  {
    if assessments != [] {
      var init, last := assessments[..|assessments| - 1], assessments[|assessments| - 1];
      AssessmentCounts(init);
      CountMissingConcat(IssuesOfAssessments(init), [Issue(AssessmentNotRated, last.categoryCode)]);
      MetAppend(AssessmentDemands(init), last.rating.Some?);
    }
  }

  lemma {:induction false} PhotoDemandCounts(counts: map<Category, nat>, rules: seq<PhotoRule>)
    ensures CountMissing(IssuesOfPhotos(counts, rules)) == Unmet(PhotoDemands(counts, rules))
  {
    if rules != [] {
      var init, last := rules[..|rules| - 1], rules[|rules| - 1];
      PhotoDemandCounts(counts, init);
      var enough := PhotoCount(counts, last.category) >= last.minCount;
      CountMissingConcat(IssuesOfPhotos(counts, init), [Issue(PhotoRequirementUnmet, "PHOTOS")]);
      MetAppend(PhotoDemands(counts, init), enough);
    }
  }

  /** Total minus satisfied is the number of missing-item issues. */
  lemma MissingItemsAreCounted(x: Facts)
    ensures |Demands(x)| - Met(Demands(x)) == CountMissing(Issues(x))
  {
    FieldCounts(x.byId, x.Asked());
    AssessmentCounts(x.assessments);
    PhotoDemandCounts(x.photoCounts, x.photoRules);
    SumsAddUp(x);
    var fields, assessments, photos, closing := IssuesOfFields(x.byId, x.Asked()), IssuesOfAssessments(x.assessments),
                                                IssuesOfPhotos(x.photoCounts, x.photoRules), ClosingIssues(x);
    CountMissingConcat(fields + assessments + photos, closing);
    CountMissingConcat(fields + assessments, photos);
    CountMissingConcat(fields, assessments);
    CountMissingConcat(if ValuationKnown(x) then [] else [Issue(ValuationMissing, "VALUATION")],
                       if x.hasLocation then [] else [Issue(LocationMissing, "LOCATION")]);
  }

  // ------------------------------------------------------------------ what warrants an issue

  /** The issue names this field of this section. */
  predicate Concerns(issue: Issue, s: Section, f: Field) {
    issue.sectionCode == s.code && issue.fieldCode == Some(f.code)
  }

  /** Why one visible field is complained about. */
  predicate FieldAtFault(byId: map<FieldId, FieldValue>, f: Field, code: IssueCode) {
    if code.RequiredFieldMissing? then f.required && !Filled(byId, f.id)
    else Filled(byId, f.id) && f.validation.Some? && OutOfBounds(byId[f.id], f.validation.value, code)
  }

  predicate OutOfBounds(v: FieldValue, r: Validation, code: IssueCode) {
    match code
    case ValueBelowMin => v.number.Some? && r.min.Some? && v.number.value.value < r.min.value
    case ValueAboveMax => v.number.Some? && r.max.Some? && v.number.value.value > r.max.value
    case TextTooShort => v.text.Some? && v.text.value != "" && r.minLength.Some? && |v.text.value| < r.minLength.value
    case TextTooLong => v.text.Some? && v.text.value != "" && r.maxLength.Some? && |v.text.value| > r.maxLength.value
    case PatternMismatch =>
      v.text.Some? && v.text.value != "" && r.pattern.Some? && !r.pattern.value.accepts(v.text.value)
    case _ => false
  }

  /** The issue is about this visible field. */
  predicate Blames(x: Facts, issue: Issue, s: Section, f: Field) {
    Concerns(issue, s, f) && Visible(f, x.ByCode()) && FieldAtFault(x.byId, f, issue.code)
  }

  predicate SomeFieldAtFault(x: Facts, issue: Issue) {
    exists i, j | 0 <= i < |x.sections| && 0 <= j < |x.sections[i].fields| ::
      Blames(x, issue, x.sections[i], x.sections[i].fields[j])
  }

  predicate SomePhotoLacks(counts: map<Category, nat>, rules: seq<PhotoRule>) {
    exists r | r in rules :: r.required && PhotoCount(counts, r.category) < r.minCount
  }

  predicate Warranted(x: Facts, issue: Issue) {
    match issue.code
    case AssessmentNotRated =>
      issue.fieldCode.None? && AssessmentState(issue.sectionCode, None) in x.assessments
    case PhotoRequirementUnmet =>
      issue.sectionCode == "PHOTOS" && issue.fieldCode.None? && SomePhotoLacks(x.photoCounts, x.photoRules)
    case ValuationMissing => issue.sectionCode == "VALUATION" && issue.fieldCode.None? && !ValuationKnown(x)
    case LocationMissing => issue.sectionCode == "LOCATION" && issue.fieldCode.None? && !x.hasLocation
    case _ => SomeFieldAtFault(x, issue)
  }

  predicate OfField(code: IssueCode) {
    code in {RequiredFieldMissing, ValueBelowMin, ValueAboveMax, TextTooShort, TextTooLong, PatternMismatch}
  }

  lemma NumberIssueMembers(f: Field, r: Validation, number: Option<Num>, section: string, issue: Issue)
    ensures issue in NumberIssues(f, r, number, section) <==>
            && issue.sectionCode == section && issue.fieldCode == Some(f.code)
            && number.Some?
            && ((issue.code.ValueBelowMin? && r.min.Some? && number.value.value < r.min.value)
                || (issue.code.ValueAboveMax? && r.max.Some? && number.value.value > r.max.value))
  {
  }

  lemma TextIssueMembers(code: string, r: Validation, t: string, section: string, issue: Issue)
    ensures issue in TextIssues(code, r, t, section) <==>
            && issue.sectionCode == section && issue.fieldCode == Some(code)
            && ((issue.code.TextTooShort? && r.minLength.Some? && |t| < r.minLength.value)
                || (issue.code.TextTooLong? && r.maxLength.Some? && |t| > r.maxLength.value)
                || (issue.code.PatternMismatch? && r.pattern.Some? && !r.pattern.value.accepts(t)))
  {
  }

  lemma BoundIssueMembers(f: Field, v: FieldValue, section: string, issue: Issue)
    ensures issue in BoundIssues(f, v, section) <==>
            && issue.sectionCode == section && issue.fieldCode == Some(f.code)
            && f.validation.Some? && OutOfBounds(v, f.validation.value, issue.code)
  {
    if f.validation.Some? {
      NumberIssueMembers(f, f.validation.value, v.number, section, issue);
      if v.text.Some? { TextIssueMembers(f.code, f.validation.value, v.text.value, section, issue); }
    }
  }

  lemma OneFieldIssues(byId: map<FieldId, FieldValue>, p: Placed, issue: Issue)
    ensures issue in FieldIssues(byId, p) <==>
            && OfField(issue.code) && issue.sectionCode == p.section && issue.fieldCode == Some(p.field.code)
            && FieldAtFault(byId, p.field, issue.code)
  {
    if Filled(byId, p.field.id) { BoundIssueMembers(p.field, byId[p.field.id], p.section, issue); }
  }

  lemma {:induction false} FieldIssueMembers(byId: map<FieldId, FieldValue>, asked: seq<Placed>, issue: Issue)
    ensures issue in IssuesOfFields(byId, asked) <==> exists p | p in asked :: issue in FieldIssues(byId, p)
  {
    if asked != [] {
      var init, last := asked[..|asked| - 1], asked[|asked| - 1];
      FieldIssueMembers(byId, init, issue);
      assert forall p :: p in asked <==> p in init || p == last by { assert asked == init + [last]; }
    }
  }

  lemma {:induction false} AssessmentIssueMembers(assessments: seq<AssessmentState>, issue: Issue)
    ensures issue in IssuesOfAssessments(assessments) <==>
            issue.code.AssessmentNotRated? && issue.fieldCode.None?
            && AssessmentState(issue.sectionCode, None) in assessments
  {
    if assessments != [] {
      var init, last := assessments[..|assessments| - 1], assessments[|assessments| - 1];
      AssessmentIssueMembers(init, issue);
      assert assessments == init + [last];
    }
  }

  lemma {:induction false} PhotoIssueMembers(counts: map<Category, nat>, rules: seq<PhotoRule>, issue: Issue)
    ensures issue in IssuesOfPhotos(counts, rules) <==>
            issue == Issue(PhotoRequirementUnmet, "PHOTOS", None) && SomePhotoLacks(counts, rules)
  {
    if rules != [] {
      var init, last := rules[..|rules| - 1], rules[|rules| - 1];
      PhotoIssueMembers(counts, init, issue);
      assert forall r :: r in rules <==> r in init || r == last by { assert rules == init + [last]; }
    }
  }

  lemma FieldIssueIsWarranted(x: Facts, issue: Issue)
    requires issue in IssuesOfFields(x.byId, x.Asked())
    ensures OfField(issue.code) && SomeFieldAtFault(x, issue)
  {
    FieldIssueMembers(x.byId, x.Asked(), issue);
    var p :| p in x.Asked() && issue in FieldIssues(x.byId, p);
    OneFieldIssues(x.byId, p, issue);
    ShownMembers(Flat(x.sections), x.ByCode(), p);
    FlatMembers(x.sections, p);
    var i :| 0 <= i < |x.sections| && x.sections[i].code == p.section && p.field in x.sections[i].fields;
    var j :| 0 <= j < |x.sections[i].fields| && x.sections[i].fields[j] == p.field;
    assert Blames(x, issue, x.sections[i], x.sections[i].fields[j]);
  }

  lemma WarrantedFieldIssue(x: Facts, issue: Issue, i: int, j: int)
    requires OfField(issue.code) && 0 <= i < |x.sections| && 0 <= j < |x.sections[i].fields|
    requires Blames(x, issue, x.sections[i], x.sections[i].fields[j])
    ensures issue in IssuesOfFields(x.byId, x.Asked())
  {
    var p := Placed(x.sections[i].code, x.sections[i].fields[j]);
    assert x.sections[i] in x.sections && p.field in x.sections[i].fields;
    FlatMembers(x.sections, p);
    ShownMembers(Flat(x.sections), x.ByCode(), p);
    OneFieldIssues(x.byId, p, issue);
    FieldIssueMembers(x.byId, x.Asked(), issue);
  }

  lemma FieldIssuesExplained(x: Facts, issue: Issue)
    ensures issue in IssuesOfFields(x.byId, x.Asked()) <==> OfField(issue.code) && SomeFieldAtFault(x, issue)
  {
    if issue in IssuesOfFields(x.byId, x.Asked()) { FieldIssueIsWarranted(x, issue); }
    if OfField(issue.code) && SomeFieldAtFault(x, issue) {
      var i, j :| 0 <= i < |x.sections| && 0 <= j < |x.sections[i].fields|
                  && Blames(x, issue, x.sections[i], x.sections[i].fields[j]);
      WarrantedFieldIssue(x, issue, i, j);
    }
  }

  /** Every issue on the list is warranted, and every warranted issue is on the list. */
  lemma IssuesExplained(x: Facts, issue: Issue)
    ensures issue in Issues(x) <==> Warranted(x, issue)
  {
    FieldIssuesExplained(x, issue);
    AssessmentIssueMembers(x.assessments, issue);
    PhotoIssueMembers(x.photoCounts, x.photoRules, issue);
    PartsHoldIssues(x, issue);
  }

  lemma PartsHoldIssues(x: Facts, issue: Issue)
    ensures issue in Issues(x) <==>
            || issue in IssuesOfFields(x.byId, x.Asked()) || issue in IssuesOfAssessments(x.assessments)
            || issue in IssuesOfPhotos(x.photoCounts, x.photoRules) || issue in ClosingIssues(x)
    ensures issue in ClosingIssues(x) <==>
            || (issue == Issue(ValuationMissing, "VALUATION", None) && !ValuationKnown(x))
            || (issue == Issue(LocationMissing, "LOCATION", None) && !x.hasLocation)
  {
  }

  /** A required, unanswered field that is only asked for when the answer to another code, given as a text, equals an
      expected one; no other field shares its code within a section of the same code. */
  ghost predicate AskedIfEqual(x: Facts, i: int, j: int, code: string, expected: string, k: int, answer: string) {
    && 0 <= i < |x.sections| && 0 <= j < |x.sections[i].fields|
    && var f := x.sections[i].fields[j];
    && f.required && !Filled(x.byId, f.id)
    && f.validation.Some? && !f.validation.value.hidden
    && f.validation.value.visibleWhen == Some(EqualsRule(code, Words(expected))) && code != ""
    && LastCarrier(Flat(x.sections), x.byId, code, k)
    && x.byId[Flat(x.sections)[k].field.id].text == Some(answer)
    && (forall p, q | 0 <= p < |x.sections| && 0 <= q < |x.sections[p].fields| ::
          x.sections[p].code == x.sections[i].code && x.sections[p].fields[q].code == f.code ==>
            x.sections[p].fields[q] == f)
  }

  predicate ReportedMissing(x: Facts, issues: seq<Issue>, i: int, j: int) {
    && 0 <= i < |x.sections| && 0 <= j < |x.sections[i].fields|
    && Issue(RequiredFieldMissing, x.sections[i].code, Some(x.sections[i].fields[j].code)) in issues
  }

  /** Such a field is reported missing exactly when the two texts agree up to case. */
  lemma AskedExactlyIfEqual(x: Facts, i: int, j: int, code: string, expected: string, k: int, answer: string)
    requires AskedIfEqual(x, i, j, code, expected, k, answer)
    ensures ReportedMissing(x, Issues(x), i, j) <==> SameButCase(answer, expected)
  {
    var f := x.sections[i].fields[j];
    IssuesExplained(x, Issue(RequiredFieldMissing, x.sections[i].code, Some(f.code)));
    LastFieldAnswers(Flat(x.sections), x.byId, code, k);
    assert x.ByCode()[code] == Words(answer);
    EqualsRuleMeans(code, expected, x.ByCode());
  }

  lemma EveryIssueExplained(x: Facts)
    ensures forall issue :: issue in Issues(x) <==> Warranted(x, issue)
    ensures forall i, j, code, expected, k, answer | AskedIfEqual(x, i, j, code, expected, k, answer) ::
              ReportedMissing(x, Issues(x), i, j) <==> SameButCase(answer, expected)
  {
    forall issue ensures issue in Issues(x) <==> Warranted(x, issue) { IssuesExplained(x, issue); }
    forall i, j, code, expected, k, answer | AskedIfEqual(x, i, j, code, expected, k, answer)
      ensures ReportedMissing(x, Issues(x), i, j) <==> SameButCase(answer, expected)
    {
      AskedExactlyIfEqual(x, i, j, code, expected, k, answer);
    }
  }

  /** The places that hold true. */
  function Places(bits: seq<bool>): set<nat> {
    set k: nat | k < |bits| && bits[k]
  }

  lemma PlacesGrow(bits: seq<bool>, last: bool)
    ensures |Places(bits + [last])| == |Places(bits)| + (if last then 1 else 0)
  {
    assert Places(bits + [last]) == Places(bits) + (if last then {|bits|} else {});
  }

  function RequiredFields(asked: seq<Placed>): seq<bool> {
    seq(|asked|, k requires 0 <= k < |asked| => asked[k].field.required)
  }

  function RequiredRules(rules: seq<PhotoRule>): seq<bool> {
    seq(|rules|, k requires 0 <= k < |rules| => rules[k].required)
  }

  lemma {:induction false} FieldDemandsAreCounted(byId: map<FieldId, FieldValue>, asked: seq<Placed>)
    ensures |FieldDemands(byId, asked)| == |Places(RequiredFields(asked))|
  {
    if asked != [] {
      var init, last := asked[..|asked| - 1], asked[|asked| - 1];
      FieldDemandsAreCounted(byId, init);
      PlacesGrow(RequiredFields(init), last.field.required);
      assert RequiredFields(asked) == RequiredFields(init) + [last.field.required];
    }
  }

  lemma {:induction false} AssessmentDemandsAreCounted(assessments: seq<AssessmentState>)
    ensures |AssessmentDemands(assessments)| == |assessments|
  {
    if assessments != [] {
      AssessmentDemandsAreCounted(assessments[..|assessments| - 1]);
    }
  }

  lemma {:induction false} PhotoDemandsAreCounted(counts: map<Category, nat>, rules: seq<PhotoRule>)
    ensures |PhotoDemands(counts, rules)| == |Places(RequiredRules(rules))|
  {
    if rules != [] {
      var init, last := rules[..|rules| - 1], rules[|rules| - 1];
      PhotoDemandsAreCounted(counts, init);
      PlacesGrow(RequiredRules(init), last.required);
      assert RequiredRules(rules) == RequiredRules(init) + [last.required];
    }
  }

  /** What the percentage is taken of: the required fields that are visible, the assessments, the required photo rules,
      the valuation and the location. */
  lemma DemandsAreCounted(x: Facts)
    ensures |Demands(x)| == |Places(RequiredFields(x.Asked()))| + |x.assessments|
                            + |Places(RequiredRules(x.photoRules))| + 2
    ensures forall p :: p in x.Asked() <==> p in Flat(x.sections) && Visible(p.field, x.ByCode())
  {
    SumsAddUp(x);
    FieldDemandsAreCounted(x.byId, x.Asked());
    AssessmentDemandsAreCounted(x.assessments);
    PhotoDemandsAreCounted(x.photoCounts, x.photoRules);
    forall p ensures p in x.Asked() <==> p in Flat(x.sections) && Visible(p.field, x.ByCode()) {
      ShownMembers(Flat(x.sections), x.ByCode(), p);
    }
  }

  /** The percentage is the nearest whole number, halves rounded up. */
  lemma PercentIsNearest(satisfied: nat, total: nat)
    ensures total > 0 ==> -(total as int) <= 200 * satisfied - 2 * total * Percent(satisfied, total) < total
    ensures total == 0 ==> Percent(satisfied, total) == 100
  {
    if total > 0 {
      var n, d := 200 * satisfied + total, 2 * total;
      assert n == d * (n / d) + n % d;
    }
  }

  lemma ProductsKeepOrder(a: int, b: int, d: nat)
    requires a <= b
    ensures a * d <= b * d
  {
  }

  lemma QuotientReaches(n: int, d: nat, k: int)
    requires d > 0
    ensures n / d >= k <==> n >= k * d
  {
    var q := n / d;
    assert n == q * d + n % d;
    if q >= k {
      ProductsKeepOrder(k, q, d);
    } else {
      ProductsKeepOrder(q + 1, k, d);
      assert (q + 1) * d == q * d + d;
    }
  }

  /** The percentage stays in 0..100, and shows 100 exactly when at most one demand in 200 is unmet. */
  lemma PercentIsHonest(satisfied: nat, total: nat)
    requires satisfied <= total
    ensures 0 <= Percent(satisfied, total) <= 100
    ensures Percent(satisfied, total) == 100 <==> 200 * (total - satisfied) <= total
  {
    if total > 0 {
      var n, d := 200 * satisfied + total, 2 * total;
      QuotientReaches(n, d, 0);
      QuotientReaches(n, d, 100);
      QuotientReaches(n, d, 101);
    }
  }

  /** A complete inspection shows 100; with fewer than 200 demands, 100 means nothing is missing. */
  lemma HundredPercentMeans(x: Facts)
    ensures Complete(x) ==> Percent(Met(Demands(x)), |Demands(x)|) == 100
    ensures |Demands(x)| < 200 ==>
              (Percent(Met(Demands(x)), |Demands(x)|) == 100 <==> CountMissing(Issues(x)) == 0)
  {
    MetBounded(Demands(x));
    PercentIsHonest(Met(Demands(x)), |Demands(x)|);
    MissingItemsAreCounted(x);
    CompleteMeansNoIssue(x);
  }

  /** Exactly when a percentage of 100 hides something missing. */
  lemma HundredPercentMisleadsIff(x: Facts)
    ensures Percent(Met(Demands(x)), |Demands(x)|) == 100 && CountMissing(Issues(x)) > 0
            <==> 0 < 200 * CountMissing(Issues(x)) <= |Demands(x)|
  {
    MetBounded(Demands(x));
    PercentIsHonest(Met(Demands(x)), |Demands(x)|);
    MissingItemsAreCounted(x);
  }

  lemma {:induction false} AllRated(assessments: seq<AssessmentState>)
    requires forall i :: 0 <= i < |assessments| ==> assessments[i].rating.Some?
    ensures |AssessmentDemands(assessments)| == Met(AssessmentDemands(assessments)) == |assessments|
  {
    if assessments != [] {
      AllRated(assessments[..|assessments| - 1]);
      MetAppend(AssessmentDemands(assessments[..|assessments| - 1]), true);
    }
  }

  /** For instance 198 rated assessments, a valuation, and no location: 199 of 200 shows as 100. */
  lemma HundredPercentCanMislead()
    ensures exists x: Facts :: !Complete(x) && Percent(Met(Demands(x)), |Demands(x)|) == 100
                               && CountMissing(Issues(x)) == 1
  {
    var assessments := seq(198, i => AssessmentState("ROOF", Some(4)));
    var x := Facts([], [], map[], assessments, map[], true, false);
    AllRated(assessments);
    SumsAddUp(x);
    MissingItemsAreCounted(x);
    assert |Demands(x)| == 200 && Met(Demands(x)) == 199;
  }

  /** No rule tree of the form names this code. */
  ghost predicate NobodyAsks(flat: seq<Placed>, code: string) {
    forall p | p in flat ::
      p.field.validation.Some? && p.field.validation.value.visibleWhen.Some? ==>
        !Names(p.field.validation.value.visibleWhen.value, code)
  }

  predicate SameAnswer(byId: map<FieldId, FieldValue>, byId': map<FieldId, FieldValue>, id: FieldId) {
    && (id in byId <==> id in byId')
    && (id in byId ==> byId[id] == byId'[id])
  }

  /** Two sets of answers that differ only in fields whose codes no rule names. */
  ghost predicate SameApartFromUnasked(flat: seq<Placed>, byId: map<FieldId, FieldValue>,
                                       byId': map<FieldId, FieldValue>)
  {
    forall p | p in flat ::
      SameAnswer(byId, byId', p.field.id) || NobodyAsks(flat, p.field.code)
  }

  lemma {:induction false} UnaskedCodesDoNotMatter(
    all: seq<Placed>, flat: seq<Placed>, byId: map<FieldId, FieldValue>, byId': map<FieldId, FieldValue>, code: string)
    requires forall p | p in flat :: p in all
    requires SameApartFromUnasked(all, byId, byId') && !NobodyAsks(all, code)
    ensures Lookup(RawByCode(flat, byId), code) == Lookup(RawByCode(flat, byId'), code)
  {
    if flat != [] {
      assert flat[|flat| - 1] in all;
      UnaskedCodesDoNotMatter(all, flat[..|flat| - 1], byId, byId', code);
    }
  }

  lemma {:induction false} SameVisibilitySameFields(flat: seq<Placed>, byCode: map<string, Raw>,
                                                    byCode': map<string, Raw>)
    requires forall p | p in flat :: Visible(p.field, byCode) <==> Visible(p.field, byCode')
    ensures Shown(flat, byCode) == Shown(flat, byCode')
  {
    if flat != [] {
      assert flat[|flat| - 1] in flat;
      SameVisibilitySameFields(flat[..|flat| - 1], byCode, byCode');
    }
  }

  lemma {:induction false} TotalIgnoresAnswers(
    asked: seq<Placed>, byId: map<FieldId, FieldValue>, byId': map<FieldId, FieldValue>)
    ensures |FieldDemands(byId, asked)| == |FieldDemands(byId', asked)|
  {
    if asked != [] {
      TotalIgnoresAnswers(asked[..|asked| - 1], byId, byId');
    }
  }

  /** Answering or clearing fields nobody asks about changes no visibility and leaves the total fixed. */
  lemma UnaskedFieldsLeaveTotalFixed(x: Facts, byId': map<FieldId, FieldValue>)
    requires SameApartFromUnasked(Flat(x.sections), x.byId, byId')
    ensures x.Asked() == x.(byId := byId').Asked()
    ensures |Demands(x)| == |Demands(x.(byId := byId'))|
  {
    var x' := x.(byId := byId');
    var flat := Flat(x.sections);
    forall p | p in flat ensures Visible(p.field, x.ByCode()) <==> Visible(p.field, x'.ByCode()) {
      if p.field.validation.Some? && p.field.validation.value.visibleWhen.Some? {
        var r := p.field.validation.value.visibleWhen.value;
        forall code | Names(r, code) ensures Lookup(x.ByCode(), code) == Lookup(x'.ByCode(), code) {
          UnaskedCodesDoNotMatter(flat, flat, x.byId, byId', code);
        }
        VisibilityDependsOnNamedCodes(r, x.ByCode(), x'.ByCode());
      }
    }
    SameVisibilitySameFields(flat, x.ByCode(), x'.ByCode());
    TotalIgnoresAnswers(x.Asked(), x.byId, byId');
  }
}
