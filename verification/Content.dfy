/** What an inspector captures for one inspection, the edits that change it, and when it may be submitted. */
module Content {
  import opened Text
  import opened Completeness

  type PhotoId = nat

  datatype Assessment = Assessment(
    name: string, rating: Option<int>, condition: Option<string>, notes: Option<string>, sortOrder: int)

  datatype Owner = Owner(
    fullName: string, nationalIdEnc: Option<string>, nationalIdHash: Option<string>, phone: Option<string>,
    email: Option<string>, occupancyStatus: Option<string>, ownershipType: Option<string>)

  datatype Valuation = Valuation(
    currency: string, marketValue: Option<real>, forcedSaleValue: Option<real>, replacementCost: Option<real>,
    rentalEstimate: Option<real>, comments: Option<string>)

  /** A reading with the distance the server computed from the registered position. */
  datatype Location = Location(
    latitude: real, longitude: real, accuracyM: Option<real>, capturedAt: string, distanceM: Option<int>)

  /** A removed photograph keeps its row. */
  datatype Photo = Photo(category: Category, live: bool)

  datatype Captured = Captured(
    values: map<FieldId, FieldValue>, assessments: map<string, Assessment>, owner: Option<Owner>,
    valuation: Option<Valuation>, locations: seq<Location>, photos: map<PhotoId, Photo>)

  /** The template an inspection is filled in against, and the type of its property. */
  datatype Form = Form(sections: seq<Section>, photoRules: seq<PhotoRule>, propertyType: string)

  // ------------------------------------------------------------------ edits

  datatype Edit =
    | SetValues(entries: seq<SubmittedValue>)
    | SetAssessment(code: string, name: Option<string>, rating: Option<int>, condition: Option<string>,
                    notes: Option<string>)
    | PutAssessment(code: string, assessment: Assessment)
    | SetOwner(owner: Owner)
    | SetValuation(valuation: Valuation)
    | AddLocation(location: Location)
    | AddPhoto(photo: PhotoId, category: Category)
    | RemovePhoto(photo: PhotoId)

  predicate OfTemplate(form: Form, id: FieldId) {
    exists i, j | 0 <= i < |form.sections| && 0 <= j < |form.sections[i].fields| :: form.sections[i].fields[j].id == id
  }

  /** Values for fields of another template are skipped. */
  function PutValues(form: Form, values: map<FieldId, FieldValue>,
                     entries: seq<SubmittedValue>): map<FieldId, FieldValue>
  {
    if entries == [] then values
    else
      var before, last := PutValues(form, values, entries[..|entries| - 1]), entries[|entries| - 1];
      if OfTemplate(form, last.fieldId) then before[last.fieldId := last.data] else before
  }

  /** The ids of the fields of the form. */
  ghost function FieldIds(form: Form): set<FieldId> {
    set s, f | s in form.sections && f in s.fields :: f.id
  }

  /** No later entry is for the same field. */
  predicate Decisive(entries: seq<SubmittedValue>, i: int) {
    0 <= i < |entries| && forall k :: i < k < |entries| ==> entries[k].fieldId != entries[i].fieldId
  }

  /** What saving these entries does to the stored values: the last entry of each field of the form is stored, and
      every other value is as before. */
  ghost predicate Stored(form: Form, before: map<FieldId, FieldValue>, after: map<FieldId, FieldValue>,
                         entries: seq<SubmittedValue>)
  {
    && (forall i | Decisive(entries, i) && entries[i].fieldId in FieldIds(form) ::
          entries[i].fieldId in after && after[entries[i].fieldId] == entries[i].data)
    && (forall id | id !in FieldIds(form) || (forall i :: 0 <= i < |entries| ==> entries[i].fieldId != id) ::
          if id in before then id in after && after[id] == before[id] else id !in after)
  }

  lemma TemplateFields(form: Form, id: FieldId)
    ensures OfTemplate(form, id) <==> id in FieldIds(form)
  {
    if id in FieldIds(form) {
      var s, f :| s in form.sections && f in s.fields && f.id == id;
      var i :| 0 <= i < |form.sections| && form.sections[i] == s;
      var j :| 0 <= j < |s.fields| && s.fields[j] == f;
    }
    if OfTemplate(form, id) {
      var i, j :| 0 <= i < |form.sections| && 0 <= j < |form.sections[i].fields|
                  && form.sections[i].fields[j].id == id;
      assert form.sections[i] in form.sections && form.sections[i].fields[j] in form.sections[i].fields;
    }
  }

  lemma OneMorePut(form: Form, values: map<FieldId, FieldValue>, entries: seq<SubmittedValue>)
    requires entries != []
    ensures var last, between := entries[|entries| - 1], PutValues(form, values, entries[..|entries| - 1]);
            PutValues(form, values, entries)
            == if last.fieldId in FieldIds(form) then between[last.fieldId := last.data] else between
  {
    TemplateFields(form, entries[|entries| - 1].fieldId);
  }

  lemma {:induction false} PutValuesStores(form: Form, values: map<FieldId, FieldValue>, entries: seq<SubmittedValue>)
    ensures Stored(form, values, PutValues(form, values, entries), entries)
  {
    if entries != [] {
      var init := entries[..|entries| - 1];
      PutValuesStores(form, values, init);
      OneMorePut(form, values, entries);
      OneMoreStored(form, values, PutValues(form, values, init), PutValues(form, values, entries), entries);
    }
  }

  lemma OneMoreStored(form: Form, before: map<FieldId, FieldValue>, between: map<FieldId, FieldValue>,
                      after: map<FieldId, FieldValue>, entries: seq<SubmittedValue>)
    requires entries != [] && Stored(form, before, between, entries[..|entries| - 1])
    requires var last := entries[|entries| - 1];
             after == if last.fieldId in FieldIds(form) then between[last.fieldId := last.data] else between
    ensures Stored(form, before, after, entries)
  {
    var init, n := entries[..|entries| - 1], |entries| - 1;
    forall i | Decisive(entries, i) && entries[i].fieldId in FieldIds(form)
      ensures entries[i].fieldId in after && after[entries[i].fieldId] == entries[i].data
    {
      if i < n { assert Decisive(init, i) && entries[n].fieldId != entries[i].fieldId; }
    }
    forall id | id !in FieldIds(form) || (forall i :: 0 <= i < |entries| ==> entries[i].fieldId != id)
      ensures if id in before then id in after && after[id] == before[id] else id !in after
    {
      assert entries[n].fieldId != id || id !in FieldIds(form);
      assert id in FieldIds(form) ==> forall i :: 0 <= i < n ==> init[i].fieldId != id;
    }
  }

  predicate PlausibleCoordinate(latitude: real, longitude: real) {
    && -90.0 <= latitude <= 90.0
    && -180.0 <= longitude <= 180.0
    && !(latitude == 0.0 && longitude == 0.0)
  }

  predicate Acceptable(c: Captured, e: Edit) {
    match e
    case AddLocation(l) => PlausibleCoordinate(l.latitude, l.longitude)
    case RemovePhoto(id) => id in c.photos && c.photos[id].live
    case _ => true
  }

  /** A photograph already stored under its client id is returned as it is. */
  predicate Duplicate(c: Captured, e: Edit) {
    e.AddPhoto? && e.photo in c.photos
  }

  function Apply(form: Form, c: Captured, e: Edit): Captured
    requires Acceptable(c, e)
  {
    match e
    case SetValues(entries) => c.(values := PutValues(form, c.values, entries))
    case SetAssessment(code, name, rating, condition, notes) =>
      var was :=
        if code in c.assessments then c.assessments[code] else Assessment(name.GetOr(code), None, None, None, 0);
      c.(assessments := c.assessments[code := was.(rating := rating, condition := condition, notes := notes)])
    case PutAssessment(code, assessment) => c.(assessments := c.assessments[code := assessment])
    case SetOwner(owner) => c.(owner := Some(owner))
    case SetValuation(valuation) => c.(valuation := Some(valuation))
    case AddLocation(location) => c.(locations := c.locations + [location])
    case AddPhoto(id, category) => c.(photos := c.photos[id := Photo(category, true)])
    case RemovePhoto(id) => c.(photos := c.photos[id := c.photos[id].(live := false)])
  }

  /** What each edit does to the captured content, part by part. */
  ghost predicate Wrote(form: Form, c: Captured, after: Captured, e: Edit) {
    match e
    case SetValues(entries) => after == c.(values := after.values) && Stored(form, c.values, after.values, entries)
    case SetAssessment(code, name, rating, condition, notes) =>
      && after == c.(assessments := after.assessments)
      && after.assessments.Keys == c.assessments.Keys + {code}
      && (forall other | other in c.assessments && other != code :: after.assessments[other] == c.assessments[other])
      && (after.assessments[code].rating, after.assessments[code].condition, after.assessments[code].notes)
         == (rating, condition, notes)
      && (after.assessments[code].name, after.assessments[code].sortOrder)
         == (if code in c.assessments then (c.assessments[code].name, c.assessments[code].sortOrder)
             else (if name.Some? then name.value else code, 0))
    case PutAssessment(code, assessment) =>
      && after == c.(assessments := after.assessments)
      && after.assessments.Keys == c.assessments.Keys + {code} && after.assessments[code] == assessment
      && (forall other | other in c.assessments && other != code :: after.assessments[other] == c.assessments[other])
    case SetOwner(owner) => after == c.(owner := Some(owner))
    case SetValuation(valuation) => after == c.(valuation := Some(valuation))
    case AddLocation(location) => after == c.(locations := c.locations + [location])
    case AddPhoto(id, category) =>
      && after == c.(photos := after.photos)
      && after.photos.Keys == c.photos.Keys + {id} && after.photos[id] == Photo(category, true)
      && (forall other | other in c.photos && other != id :: after.photos[other] == c.photos[other])
    case RemovePhoto(id) =>
      && after == c.(photos := after.photos) && after.photos.Keys == c.photos.Keys
      && id in c.photos && after.photos[id] == Photo(c.photos[id].category, false)
      && (forall other | other in c.photos && other != id :: after.photos[other] == c.photos[other])
  }

  lemma ApplyWrites(form: Form, c: Captured, e: Edit)
    requires Acceptable(c, e)
    ensures Wrote(form, c, Apply(form, c, e), e)
  {
    if e.SetValues? { PutValuesStores(form, c.values, e.entries); }
  }

  /** Readings lie on the globe and not at its origin, and only a photograph that is there is removed. */
  lemma AcceptableMeans(c: Captured, e: Edit)
    ensures Acceptable(c, e) <==>
            && (e.AddLocation? ==>
                  && -90.0 <= e.location.latitude <= 90.0 && -180.0 <= e.location.longitude <= 180.0
                  && (e.location.latitude != 0.0 || e.location.longitude != 0.0))
            && (e.RemovePhoto? ==> e.photo in c.photos && c.photos[e.photo].live)
  {
  }

  /** The assessment rows an inspection is created with. */
  function SeedAssessments(sections: seq<Section>): map<string, Assessment> {
    if sections == [] then map[]
    else
      var before, s := SeedAssessments(sections[..|sections| - 1]), sections[|sections| - 1];
      if s.isAssessment then before[s.code := Assessment(s.name, None, None, None, s.sortOrder)] else before
  }

  /** The last assessment section with its code. */
  predicate LastAssessment(sections: seq<Section>, i: int) {
    && 0 <= i < |sections| && sections[i].isAssessment
    && forall k :: i < k < |sections| && sections[k].isAssessment ==> sections[k].code != sections[i].code
  }

  lemma {:induction false} SeededCodes(sections: seq<Section>, code: string)
    ensures code in SeedAssessments(sections) <==> exists s | s in sections :: s.isAssessment && s.code == code
  {
    if sections != [] {
      var init, last := sections[..|sections| - 1], sections[|sections| - 1];
      SeededCodes(init, code);
      assert forall s :: s in sections <==> s in init || s == last by { assert sections == init + [last]; }
    }
  }

  /** One unrated row for each assessment section, named after it. */
  lemma {:induction false} SeedsMean(sections: seq<Section>, i: int)
    requires LastAssessment(sections, i)
    ensures var seeds, s := SeedAssessments(sections), sections[i];
            s.code in seeds && seeds[s.code] == Assessment(s.name, None, None, None, s.sortOrder)
  {
    var n := |sections| - 1;
    if i < n {
      SeedsMean(sections[..n], i);
      assert sections[n].isAssessment ==> sections[n].code != sections[i].code;
    }
  }

  function Unfilled(form: Form): Captured {
    Captured(map[], SeedAssessments(form.sections), None, None, [], map[])
  }

  // ------------------------------------------------------------------ readiness for submission

  function LastWithCode(flat: seq<Placed>, code: string): Option<FieldId> {
    if flat == [] then None
    else if flat[|flat| - 1].field.code == code then Some(flat[|flat| - 1].field.id)
    else LastWithCode(flat[..|flat| - 1], code)
  }

  function Answer(form: Form, byId: map<FieldId, FieldValue>, code: string): string {
    var id := LastWithCode(Flat(form.sections), code);
    if id.Some? && id.value in byId then Upper(Trim(Rendered(RawValue(byId[id.value])))) else ""
  }

  predicate IsLand(form: Form, byId: map<FieldId, FieldValue>) {
    || Upper(Trim(form.propertyType)) == "LAND"
    || Answer(form, byId, "PROPERTY_STATUS") in ["VACANT_PLOT", "LAND", "VACANT LAND"]
  }

  predicate Applies(form: Form, byId: map<FieldId, FieldValue>, code: string) {
    if IsLand(form, byId) && (code in ["MAIN_BUILDING", "ADDITIONAL_BUILDINGS", "IMPROVED_VALUATION"]
                              || StartsWith(code, "ANNEX_")) then false
    else if !IsLand(form, byId) && code == "LAND_VALUATION" then false
    else !(Answer(form, byId, "PROPERTY_USE") == "RESIDENTIAL" && code == "VACANT_LAND")
  }

  predicate IsLast(flat: seq<Placed>, code: string, k: int) {
    0 <= k < |flat| && flat[k].field.code == code && forall i :: k < i < |flat| ==> flat[i].field.code != code
  }

  lemma {:induction false} LastFieldIsFound(flat: seq<Placed>, code: string) returns (k: int)
    ensures if Unknown(flat, code) then LastWithCode(flat, code) == None
            else IsLast(flat, code, k) && LastWithCode(flat, code) == Some(flat[k].field.id)
  {
    k := |flat| - 1;
    if flat != [] && flat[k].field.code != code {
      var init := flat[..k];
      assert Unknown(flat, code) <==> Unknown(init, code) by { assert flat == init + [flat[k]]; }
      k := LastFieldIsFound(init, code);
    }
  }

  /** The last field with this code is answered, in any case and between white space, by this word. */
  predicate Says(form: Form, byId: map<FieldId, FieldValue>, code: string, word: string) {
    var flat := Flat(form.sections);
    exists k | 0 <= k < |flat| :: IsLast(flat, code, k) && flat[k].field.id in byId
                                  && SameButCase(Trim(Rendered(RawValue(byId[flat[k].field.id]))), word)
  }

  lemma AnswerSays(form: Form, byId: map<FieldId, FieldValue>, code: string, word: string)
    requires word != "" && Upper(word) == word
    ensures Answer(form, byId, code) == word <==> Says(form, byId, code, word)
  {
    var flat := Flat(form.sections);
    var k := LastFieldIsFound(flat, code);
    if !Unknown(flat, code) && flat[k].field.id in byId {
      CaseMappingsForgetCase(Trim(Rendered(RawValue(byId[flat[k].field.id]))), word);
    }
  }

  /** Land, by the type of the property or by the answer to its status. */
  predicate SaysLand(form: Form, byId: map<FieldId, FieldValue>) {
    || SameButCase(Trim(form.propertyType), "LAND")
    || Says(form, byId, "PROPERTY_STATUS", "VACANT_PLOT")
    || Says(form, byId, "PROPERTY_STATUS", "LAND")
    || Says(form, byId, "PROPERTY_STATUS", "VACANT LAND")
  }

  lemma LandMeans(form: Form, byId: map<FieldId, FieldValue>)
    ensures IsLand(form, byId) <==> SaysLand(form, byId)
  {
    CaseMappingsForgetCase(Trim(form.propertyType), "LAND");
    assert Upper("LAND") == "LAND" && Upper("VACANT_PLOT") == "VACANT_PLOT" && Upper("VACANT LAND") == "VACANT LAND";
    AnswerSays(form, byId, "PROPERTY_STATUS", "VACANT_PLOT");
    AnswerSays(form, byId, "PROPERTY_STATUS", "LAND");
    AnswerSays(form, byId, "PROPERTY_STATUS", "VACANT LAND");
  }

  /** Which sections the gate leaves out: those about buildings for land, the valuation of land for anything else, and
      the vacant land of a residential property. */
  lemma SectionsThatApply(form: Form, byId: map<FieldId, FieldValue>, code: string)
    ensures SaysLand(form, byId) && code in ["MAIN_BUILDING", "ADDITIONAL_BUILDINGS", "IMPROVED_VALUATION"] ==>
              !Applies(form, byId, code)
    ensures SaysLand(form, byId) && |code| >= 6 && code[..6] == "ANNEX_" ==> !Applies(form, byId, code)
    ensures !SaysLand(form, byId) && code == "LAND_VALUATION" ==> !Applies(form, byId, code)
    ensures Says(form, byId, "PROPERTY_USE", "RESIDENTIAL") && code == "VACANT_LAND" ==> !Applies(form, byId, code)
    ensures !Applies(form, byId, code) ==>
              if SaysLand(form, byId)
              then code in ["MAIN_BUILDING", "ADDITIONAL_BUILDINGS", "IMPROVED_VALUATION", "VACANT_LAND"]
                   || (|code| >= 6 && code[..6] == "ANNEX_")
              else code in ["LAND_VALUATION", "VACANT_LAND"]
    ensures !Applies(form, byId, code) && code == "VACANT_LAND" ==> Says(form, byId, "PROPERTY_USE", "RESIDENTIAL")
  {
    LandMeans(form, byId);
    assert Upper("RESIDENTIAL") == "RESIDENTIAL";
    if StartsWith(code, "ANNEX_") { assert code[..6][0] == 'A' && "VACANT_LAND"[0] == 'V'; }
    AnswerSays(form, byId, "PROPERTY_USE", "RESIDENTIAL");
  }

  /** The evaluator is given exactly the sections that apply, in their order. */
  lemma {:induction false} ApplicableKeepsOrder(form: Form, byId: map<FieldId, FieldValue>, sections: seq<Section>,
                                                s: Section)
    ensures Applicable(form, byId, sections + [s])
            == Applicable(form, byId, sections) + (if Applies(form, byId, s.code) then [s] else [])
    ensures forall x :: x in Applicable(form, byId, sections) <==> x in sections && Applies(form, byId, x.code)
  {
    assert (sections + [s])[..|sections|] == sections;
    if sections != [] {
      var init, last := sections[..|sections| - 1], sections[|sections| - 1];
      ApplicableKeepsOrder(form, byId, init, s);
      assert sections == init + [last];
    }
  }

  function Applicable(form: Form, byId: map<FieldId, FieldValue>, sections: seq<Section>): seq<Section> {
    if sections == [] then []
    else
      var before, last := Applicable(form, byId, sections[..|sections| - 1]), sections[|sections| - 1];
      if Applies(form, byId, last.code) then before + [last] else before
  }

  /** What the captured content says about the sections that apply, leaving assessments and photographs aside. */
  function FieldFacts(form: Form, c: Captured): Facts {
    Facts(Applicable(form, c.values, form.sections), [], c.values, [], map[], c.valuation.Some?, c.locations != [])
  }

  function LivePhotos(photos: map<PhotoId, Photo>, category: Category): set<PhotoId> {
    set id | id in photos && photos[id].live && photos[id].category == category
  }

  /** The submission gate, stated on the captured content itself. */
  predicate ReadyToSubmit(form: Form, c: Captured) {
    && Complete(FieldFacts(form, c))
    && (forall code | code in c.assessments :: c.assessments[code].rating.Some?)
    && (forall r | r in form.photoRules && r.required :: |LivePhotos(c.photos, r.category)| >= r.minCount)
  }

  /** One field of a section that applies keeps the gate shut. */
  predicate Lacking(form: Form, c: Captured, s: Section, f: Field) {
    && Applies(form, c.values, s.code) && Visible(f, FieldFacts(form, c).ByCode())
    && ((f.required && !Filled(c.values, f.id))
        || (Filled(c.values, f.id) && f.validation.Some?
            && exists code | code in {ValueBelowMin, ValueAboveMax, TextTooShort, TextTooLong, PatternMismatch} ::
                 OutOfBounds(c.values[f.id], f.validation.value, code)))
  }

  lemma LackingMeansUnsettled(form: Form, c: Captured, s: Section, f: Field)
    ensures Lacking(form, c, s, f) <==>
            Applies(form, c.values, s.code) && Visible(f, FieldFacts(form, c).ByCode()) && !Settled(c.values, f)
  {
    if Filled(c.values, f.id) && f.validation.Some? { OutOfBoundsMeans(f, c.values[f.id]); }
  }

  lemma OutOfBoundsMeans(f: Field, v: FieldValue)
    requires f.validation.Some?
    ensures !WithinBounds(f, v) <==>
            exists code | code in {ValueBelowMin, ValueAboveMax, TextTooShort, TextTooLong, PatternMismatch} ::
              OutOfBounds(v, f.validation.value, code)
  {
    var r := f.validation.value;
    if !WithinBounds(f, v) {
      assert OutOfBounds(v, r, ValueBelowMin) || OutOfBounds(v, r, ValueAboveMax) || OutOfBounds(v, r, TextTooShort)
          || OutOfBounds(v, r, TextTooLong) || OutOfBounds(v, r, PatternMismatch);
    }
  }

  predicate NoneLacking(form: Form, c: Captured) {
    forall i, j | 0 <= i < |form.sections| && 0 <= j < |form.sections[i].fields| ::
      !Lacking(form, c, form.sections[i], form.sections[i].fields[j])
  }

  lemma CompleteLacksNothing(form: Form, c: Captured, i: int, j: int)
    requires Complete(FieldFacts(form, c)) && 0 <= i < |form.sections| && 0 <= j < |form.sections[i].fields|
    ensures !Lacking(form, c, form.sections[i], form.sections[i].fields[j])
  {
    var x, s := FieldFacts(form, c), form.sections[i];
    LackingMeansUnsettled(form, c, s, s.fields[j]);
    ApplicableKeepsOrder(form, c.values, form.sections, s);
    if Applies(form, c.values, s.code) {
      assert s in x.sections;
      var k :| 0 <= k < |x.sections| && x.sections[k] == s;
      assert x.sections[k].fields[j] == s.fields[j];
    }
  }

  lemma NoneLackingSettles(form: Form, c: Captured, k: int, j: int)
    requires NoneLacking(form, c)
    requires var x := FieldFacts(form, c);
             && 0 <= k < |x.sections| && 0 <= j < |x.sections[k].fields| && Visible(x.sections[k].fields[j], x.ByCode())
    ensures Settled(c.values, FieldFacts(form, c).sections[k].fields[j])
  {
    var s := FieldFacts(form, c).sections[k];
    ApplicableKeepsOrder(form, c.values, form.sections, s);
    assert s in FieldFacts(form, c).sections;
    var i :| 0 <= i < |form.sections| && form.sections[i] == s;
    assert !Lacking(form, c, form.sections[i], form.sections[i].fields[j]);
    LackingMeansUnsettled(form, c, s, s.fields[j]);
  }

  /** The gate opens exactly when no field of a section that applies keeps it shut, every assessment is rated, the
      valuation and a reading are there, and every required category has its photographs. */
  lemma ReadyMeans(form: Form, c: Captured)
    ensures ReadyToSubmit(form, c) <==>
            && NoneLacking(form, c)
            && (forall code | code in c.assessments :: c.assessments[code].rating.Some?)
            && ValuationKnown(FieldFacts(form, c)) && c.locations != []
            && (forall r | r in form.photoRules && r.required :: |LivePhotos(c.photos, r.category)| >= r.minCount)
  {
    var x := FieldFacts(form, c);
    if Complete(x) {
      forall i, j | 0 <= i < |form.sections| && 0 <= j < |form.sections[i].fields|
        ensures !Lacking(form, c, form.sections[i], form.sections[i].fields[j])
      {
        CompleteLacksNothing(form, c, i, j);
      }
    }
    if NoneLacking(form, c) {
      forall k, j | 0 <= k < |x.sections| && 0 <= j < |x.sections[k].fields|
                    && Visible(x.sections[k].fields[j], x.ByCode())
        ensures Settled(x.byId, x.sections[k].fields[j])
      {
        NoneLackingSettles(form, c, k, j);
      }
    }
  }

  // ------------------------------------------------------------------ the gate as the service computes it

  datatype PhotoRow = PhotoRow(id: PhotoId, category: Category)

  /** The rows the service loads; the database promises no order, only that each row comes once. */
  datatype Rows = Rows(
    values: seq<SubmittedValue>, assessments: seq<AssessmentState>, photos: seq<PhotoRow>,
    valuation: bool, locations: bool)

  predicate DistinctFields(values: seq<SubmittedValue>) {
    forall i, j :: 0 <= i < j < |values| ==> values[i].fieldId != values[j].fieldId
  }

  ghost predicate Lists(rows: Rows, c: Captured) {
    && DistinctFields(rows.values)
    && (forall v | v in rows.values :: v.fieldId in c.values && c.values[v.fieldId] == v.data)
    && (forall id | id in c.values :: SubmittedValue(id, c.values[id]) in rows.values)
    && (forall a | a in rows.assessments ::
          a.categoryCode in c.assessments && c.assessments[a.categoryCode].rating == a.rating)
    && (forall code | code in c.assessments :: AssessmentState(code, c.assessments[code].rating) in rows.assessments)
    && (forall i, j :: 0 <= i < j < |rows.photos| ==> rows.photos[i].id != rows.photos[j].id)
    && (forall p | p in rows.photos :: p.id in c.photos && c.photos[p.id] == Photo(p.category, true))
    && (forall id | id in c.photos && c.photos[id].live :: PhotoRow(id, c.photos[id].category) in rows.photos)
    && rows.valuation == c.valuation.Some?
    && rows.locations == (c.locations != [])
  }

  /** The ids of the listed photographs of one category. */
  function Shots(photos: seq<PhotoRow>, category: Category): set<PhotoId> {
    set p | p in photos && p.category == category :: p.id
  }

  method CountPhotos(photos: seq<PhotoRow>) returns (counts: map<Category, nat>)
    requires forall i, j :: 0 <= i < j < |photos| ==> photos[i].id != photos[j].id
    ensures forall category :: PhotoCount(counts, category) == |Shots(photos, category)|
  {
    counts := map[];
    for i := 0 to |photos|
      invariant forall category :: PhotoCount(counts, category) == |Shots(photos[..i], category)|
    {
      var p := photos[i];
      ghost var before := counts;
      counts := counts[p.category := PhotoCount(counts, p.category) + 1];
      forall category ensures PhotoCount(counts, category) == |Shots(photos[..i + 1], category)| {
        assert PhotoCount(before, category) == |Shots(photos[..i], category)|;
        OneMoreShot(photos, i, category);
      }
    }
    assert photos[..|photos|] == photos;
  }

  lemma OneMoreShot(photos: seq<PhotoRow>, i: nat, category: Category)
    requires i < |photos| && forall i, j :: 0 <= i < j < |photos| ==> photos[i].id != photos[j].id
    ensures |Shots(photos[..i + 1], category)| ==
            |Shots(photos[..i], category)| + (if photos[i].category == category then 1 else 0)
  {
    var p := photos[i];
    assert photos[..i + 1] == photos[..i] + [p];
    assert p.id !in Shots(photos[..i], category);
    assert Shots(photos[..i + 1], category)
        == Shots(photos[..i], category) + (if p.category == category then {p.id} else {});
  }

  lemma ListedValuesAreIndexed(rows: Rows, c: Captured)
    requires Lists(rows, c)
    ensures LastById(rows.values) == c.values
  {
    var values := rows.values;
    forall id ensures id in c.values <==> id in LastById(values) {
      IndexedIdsAreListed(values, id);
      if id in c.values {
        assert SubmittedValue(id, c.values[id]) in values;
      }
    }
    forall id | id in c.values ensures LastById(values)[id] == c.values[id] {
      var k :| 0 <= k < |values| && values[k] == SubmittedValue(id, c.values[id]);
      LastRowCounts(values, k);
    }
  }

  lemma ListedPhotosAreCounted(rows: Rows, c: Captured, category: Category)
    requires Lists(rows, c)
    ensures Shots(rows.photos, category) == LivePhotos(c.photos, category)
  {
    forall id | id in LivePhotos(c.photos, category) ensures id in Shots(rows.photos, category) {
      assert PhotoRow(id, category) in rows.photos;
    }
  }

  /** The evaluator accepts the loaded rows exactly when the captured content is ready, in whatever order
      the rows come. */
  method ComputeCompleteness(form: Form, rows: Rows, ghost c: Captured) returns (result: CompletenessResult)
    requires Lists(rows, c)
    ensures result.complete <==> ReadyToSubmit(form, c)
    ensures result.complete <==> result.blockingIssues == []
  {
    var counts := CountPhotos(rows.photos);
    var byId := IndexValues(rows.values);
    var input := CompletenessInput(Applicable(form, byId, form.sections), form.photoRules, rows.values,
                                   rows.assessments, counts, rows.valuation, rows.locations);
    result := EvaluateCompleteness(input);
    CompleteMeansNoIssue(FactsOf(input));
    ListedValuesAreIndexed(rows, c);
    GateDependsOnContentOnly(form, rows, c, counts);
  }

  lemma GateDependsOnContentOnly(form: Form, rows: Rows, c: Captured, counts: map<Category, nat>)
    requires Lists(rows, c)
    requires forall category :: PhotoCount(counts, category) == |Shots(rows.photos, category)|
    ensures ReadyToSubmit(form, c) <==>
            Complete(Facts(Applicable(form, c.values, form.sections), form.photoRules, c.values, rows.assessments,
                           counts, rows.valuation, rows.locations))
  {
    var x := Facts(Applicable(form, c.values, form.sections), form.photoRules, c.values, rows.assessments, counts,
                   rows.valuation, rows.locations);
    var y := FieldFacts(form, c);
    assert x.ByCode() == y.ByCode() && ValuationKnown(x) == ValuationKnown(y);
    forall category ensures PhotoCount(counts, category) == |LivePhotos(c.photos, category)| {
      ListedPhotosAreCounted(rows, c, category);
    }
    if forall a | a in rows.assessments :: a.rating.Some? {
      forall code | code in c.assessments ensures c.assessments[code].rating.Some? {
        assert AssessmentState(code, c.assessments[code].rating) in rows.assessments;
      }
    }
  }
}
