/** Runs in which any generation or download may fail after its documents were stored. */
module ReportFailures {
  import opened Text
  import opened StateMachine
  import opened Reports
  import opened ReportRuns

  /** An operation and how far it gets. */
  datatype Attempt = Attempt(op: Op, fate: Fate)

  /** What is stored when the transaction behind the puts is lost. */
  function Lost(org: string, w: World, op: Op, fate: Fate): State {
    match op
    case Progress(_, _) => w.s
    case Draft(inspection, pdf) =>
      if inspection !in w.infos then w.s else GenerateDraft(org, w.s, inspection, w.infos[inspection], pdf, false)
    case Official(inspection, pdf, draftPdf) =>
      if inspection !in w.infos then w.s
      else GenerateOfficial(org, w.s, inspection, w.infos[inspection], pdf, draftPdf, fate)
    case Download(i, pdf) =>
      if i >= |w.s.rows| || w.s.rows[i].inspection !in w.infos then w.s
      else RefreshRow(org, w.s, i, w.infos[w.s.rows[i].inspection].status, pdf, false)
  }

  function Attempted(org: string, w: World, a: Attempt): World {
    if a.fate.Committed? then Step(org, w, a.op) else w.(s := Lost(org, w, a.op, a.fate))
  }

  function RunAttempts(org: string, attempts: seq<Attempt>): World {
    if attempts == [] then EMPTY
    else Attempted(org, RunAttempts(org, attempts[..|attempts| - 1]), attempts[|attempts| - 1])
  }

  // ------------------------------------------------------------------ rows and their bytes

  predicate Matches(blobs: map<Key, Bytes>, r: Report) {
    r.key in blobs && Sha256(blobs[r.key]) == r.checksum
  }

  predicate AllMatch(s: State) {
    forall r | r in s.rows :: Matches(s.blobs, r)
  }

  /** The put stores its bytes, or finds them there. */
  predicate CleanPut(blobs: map<Key, Bytes>, key: Key, body: Bytes) {
    key in blobs ==> blobs[key] == body
  }

  function NextKey(org: string, s: State, inspection: InspectionId, number: string): Key {
    KeyFor(org, number, NextVersion(s.rows, inspection, number))
  }

  predicate CleanStore(org: string, s: State, inspection: InspectionId, number: string, body: Bytes) {
    CleanPut(s.blobs, NextKey(org, s, inspection, number), body)
  }

  /** Every put whose row is committed is clean. */
  predicate Clean(org: string, w: World, a: Attempt) {
    a.fate.Committed? ==>
      match a.op
      case Progress(_, _) => true
      case Draft(inspection, pdf) =>
        inspection in w.infos && DraftReady(w.infos[inspection].status) ==>
          CleanStore(org, w.s, inspection, DraftOf(w.infos[inspection]), pdf)
      case Official(inspection, pdf, draftPdf) =>
        inspection in w.infos && OfficialReady(w.infos[inspection].status) ==>
          var info := w.infos[inspection];
          var official := StoreVersion(org, w.s, inspection, OfficialNumber(info.number), pdf);
          && CleanStore(org, w.s, inspection, OfficialNumber(info.number), pdf)
          && CleanStore(org, official, inspection, DraftOf(info), draftPdf)
      case Download(i, pdf) =>
        Renders(w, i) ==> CleanPut(w.s.blobs, KeyFor(org, w.s.rows[i].number, w.s.rows[i].version + 1), pdf)
  }

  lemma PutKeepsMatches(blobs: map<Key, Bytes>, key: Key, body: Bytes, r: Report)
    requires Matches(blobs, r)
    ensures Matches(PutBlob(blobs, key, body), r)
  {
  }

  /** After storing, all rows match exactly when the put was clean, provided they matched before. */
  lemma StoringMatchesIff(org: string, s: State, inspection: InspectionId, number: string, body: Bytes)
    requires AllMatch(s)
    ensures AllMatch(StoreVersion(org, s, inspection, number, body)) <==> CleanStore(org, s, inspection, number, body)
  {
    var after := StoreVersion(org, s, inspection, number, body);
    var written := after.rows[|after.rows| - 1];
    StoredRows(org, s, inspection, number, body);
    assert Matches(after.blobs, written) <==> CleanStore(org, s, inspection, number, body);
    forall r | r in s.rows ensures Matches(after.blobs, r) {
      PutKeepsMatches(s.blobs, NextKey(org, s, inspection, number), body, r);
    }
    assert written in after.rows;
  }

  /** A row that does not match never comes to match while it stands. */
  lemma SpoiledRowStaysSpoiled(org: string, s: State, inspection: InspectionId, number: string, body: Bytes, r: Report)
    requires r in s.rows && r.key in s.blobs && !Matches(s.blobs, r) && !Of(r, inspection, number)
    ensures !AllMatch(StoreVersion(org, s, inspection, number, body))
  {
    StoredRows(org, s, inspection, number, body);
    assert !Matches(StoreVersion(org, s, inspection, number, body).blobs, r);
  }

  lemma OfficialMatchesIff(org: string, s: State, inspection: InspectionId, number: string, draft: string, pdf: Bytes,
                           draftPdf: Bytes)
    requires AllMatch(s) && number != draft
    ensures var official := StoreVersion(org, s, inspection, number, pdf);
            AllMatch(StoreVersion(org, official, inspection, draft, draftPdf))
            <==> CleanStore(org, s, inspection, number, pdf) && CleanStore(org, official, inspection, draft, draftPdf)
  {
    var official := StoreVersion(org, s, inspection, number, pdf);
    StoringMatchesIff(org, s, inspection, number, pdf);
    if CleanStore(org, s, inspection, number, pdf) {
      StoringMatchesIff(org, official, inspection, draft, draftPdf);
    } else {
      SpoiledRowStaysSpoiled(org, official, inspection, draft, draftPdf, official.rows[|official.rows| - 1]);
    }
  }

  lemma RefreshMatchesIff(org: string, s: State, i: nat, status: Status, pdf: Bytes)
    requires AllMatch(s) && i < |s.rows| && Rerenders(s.rows[i], status)
    ensures AllMatch(RefreshRow(org, s, i, status, pdf, true))
            <==> CleanPut(s.blobs, KeyFor(org, s.rows[i].number, s.rows[i].version + 1), pdf)
  {
    var after := RefreshRow(org, s, i, status, pdf, true);
    assert after.rows[i] in after.rows;
    assert Matches(after.blobs, after.rows[i])
      <==> CleanPut(s.blobs, KeyFor(org, s.rows[i].number, s.rows[i].version + 1), pdf);
    forall r | r in after.rows && r != after.rows[i] ensures Matches(after.blobs, r) {
      assert r in s.rows;
      PutKeepsMatches(s.blobs, KeyFor(org, s.rows[i].number, s.rows[i].version + 1), pdf, r);
    }
  }

  lemma LosingKeepsMatches(org: string, w: World, op: Op, fate: Fate)
    requires AllMatch(w.s) && !fate.Committed?
    ensures AllMatch(w.(s := Lost(org, w, op, fate)).s)
  {
    var after := Lost(org, w, op, fate);
    assert after.rows == w.s.rows;
    forall r | r in after.rows ensures Matches(after.blobs, r) {
      assert Matches(w.s.blobs, r);
    }
  }

  lemma AttemptMatchesIff(org: string, w: World, a: Attempt)
    requires AllMatch(w.s)
    ensures AllMatch(Attempted(org, w, a).s) <==> Clean(org, w, a)
  {
    if !a.fate.Committed? {
      LosingKeepsMatches(org, w, a.op, a.fate);
    } else {
      match a.op {
        case Progress(_, _) =>
        case Draft(inspection, pdf) =>
          if inspection in w.infos { StoringMatchesIff(org, w.s, inspection, DraftOf(w.infos[inspection]), pdf); }
        case Official(inspection, pdf, draftPdf) =>
          if inspection in w.infos {
            var info := w.infos[inspection];
            OfficialIsNoDraft(info);
            OfficialMatchesIff(org, w.s, inspection, OfficialNumber(info.number), DraftOf(info), pdf, draftPdf);
          }
        case Download(i, pdf) =>
          if Renders(w, i) { RefreshMatchesIff(org, w.s, i, w.infos[w.s.rows[i].inspection].status, pdf); }
      }
    }
  }

  /** Now, and before each attempt of the run, every row describes the bytes behind its key. */
  ghost predicate MatchesThroughout(org: string, attempts: seq<Attempt>) {
    && AllMatch(RunAttempts(org, attempts).s)
    && (attempts != [] ==> MatchesThroughout(org, attempts[..|attempts| - 1]))
  }

  /** Each attempt of the run was clean where it was made. */
  ghost predicate CleanThroughout(org: string, attempts: seq<Attempt>) {
    attempts != [] ==>
      && CleanThroughout(org, attempts[..|attempts| - 1])
      && Clean(org, RunAttempts(org, attempts[..|attempts| - 1]), attempts[|attempts| - 1])
  }

  /** Whatever is lost along the way: at every moment every row describes the bytes behind its key exactly when every
      put whose row was committed met a free key or the same bytes. */
  lemma {:induction false} RowsMatchIffPutsAreClean(org: string, attempts: seq<Attempt>)
    ensures MatchesThroughout(org, attempts) <==> CleanThroughout(org, attempts)
  {
    if attempts != [] {
      var init := attempts[..|attempts| - 1];
      RowsMatchIffPutsAreClean(org, init);
      if MatchesThroughout(org, init) {
        AttemptMatchesIff(org, RunAttempts(org, init), attempts[|attempts| - 1]);
      }
    }
  }
}
