/** What runs of report generation and download keep: one row per number, fresh keys, and checksums that match
    the stored bytes. */
module ReportRuns {
  import opened Text
  import opened StateMachine
  import opened Numbering
  import opened Reports

  /** The inspections as the report service reads them, beside its own rows and blobs. */
  datatype World = World(infos: map<InspectionId, Info>, s: State)

  const EMPTY := World(map[], State([], map[], 0))

  datatype Op =
    | Progress(inspection: InspectionId, info: Info)
    | Draft(inspection: InspectionId, pdf: Bytes)
    | Official(inspection: InspectionId, pdf: Bytes, draftPdf: Bytes)
    | Download(row: nat, pdf: Bytes)

  /** An inspection keeps its number; a new one gets a number nobody has. */
  predicate MayProgress(infos: map<InspectionId, Info>, inspection: InspectionId, info: Info) {
    if inspection in infos then info.number == infos[inspection].number
    else StartsWith(info.number, "INS-") && forall other | other in infos :: infos[other].number != info.number
  }

  function Step(org: string, w: World, op: Op): World {
    match op
    case Progress(inspection, info) =>
      if MayProgress(w.infos, inspection, info) then w.(infos := w.infos[inspection := info]) else w
    case Draft(inspection, pdf) =>
      if inspection !in w.infos then w else w.(s := GenerateDraft(org, w.s, inspection, w.infos[inspection], pdf, true))
    case Official(inspection, pdf, draftPdf) =>
      if inspection !in w.infos then w
      else w.(s := GenerateOfficial(org, w.s, inspection, w.infos[inspection], pdf, draftPdf, Committed))
    case Download(i, pdf) =>
      if i >= |w.s.rows| || w.s.rows[i].inspection !in w.infos then w
      else w.(s := RefreshRow(org, w.s, i, w.infos[w.s.rows[i].inspection].status, pdf, true))
  }

  function Run(org: string, w: World, ops: seq<Op>): World {
    if ops == [] then w else Step(org, Run(org, w, ops[..|ops| - 1]), ops[|ops| - 1])
  }

  // ------------------------------------------------------------------ the invariant

  ghost predicate Numbered(infos: map<InspectionId, Info>) {
    && (forall a | a in infos :: StartsWith(infos[a].number, "INS-"))
    && (forall a, b | a in infos && b in infos && a != b :: infos[a].number != infos[b].number)
  }

  predicate OneRowPerNumber(rows: seq<Report>) {
    forall i, j :: 0 <= i < j < |rows| ==> rows[i].number != rows[j].number
  }

  ghost predicate RowSound(org: string, infos: map<InspectionId, Info>, blobs: map<Key, Bytes>, r: Report) {
    && r.inspection in infos && BelongsTo(infos[r.inspection].number, r.number)
    && r.version >= 1
    && r.key == KeyFor(org, r.number, r.version)
    && r.key in blobs && r.checksum == Sha256(blobs[r.key])
  }

  /** The blob is some version, up to the current one, of a report that has a row. */
  ghost predicate Known(org: string, rows: seq<Report>, key: Key) {
    exists r, v: nat :: r in rows && v <= r.version && key == KeyFor(org, r.number, v)
  }

  ghost predicate Sound(org: string, w: World) {
    && Numbered(w.infos)
    && OneRowPerNumber(w.s.rows)
    && (forall r | r in w.s.rows :: RowSound(org, w.infos, w.s.blobs, r))
    && (forall key {:trigger Known(org, w.s.rows, key)} | key in w.s.blobs :: Known(org, w.s.rows, key))
  }

  // ------------------------------------------------------------------ lookups

  lemma {:induction false} OthersStayDistinct(rows: seq<Report>, inspection: InspectionId, number: string)
    requires OneRowPerNumber(rows)
    ensures OneRowPerNumber(Others(rows, inspection, number))
  {
    if rows != [] {
      var init := rows[..|rows| - 1];
      OthersStayDistinct(init, inspection, number);
      OthersMembers(init, inspection, number);
      var kept := Others(init, inspection, number);
      forall i | 0 <= i < |kept| ensures kept[i].number != rows[|rows| - 1].number {
        assert kept[i] in init;
      }
    }
  }

  /** A row that carries the number belongs to the inspection whose number it is. */
  lemma RowOfNumber(org: string, w: World, inspection: InspectionId, number: string, r: Report)
    requires Sound(org, w) && inspection in w.infos && BelongsTo(w.infos[inspection].number, number)
    requires r in w.s.rows && r.number == number
    ensures r.inspection == inspection && ReportNumber(number)
  {
    NumbersBelongToOne(w.infos[inspection].number, w.infos[r.inspection].number, number);
  }

  /** A key above every stored version of its number is in no blob. */
  lemma KeyAboveIsFresh(org: string, w: World, number: string, version: nat)
    requires Sound(org, w) && ReportNumber(number)
    requires forall r | r in w.s.rows && r.number == number :: r.version < version
    ensures KeyFor(org, number, version) !in w.s.blobs
  {
    var key := KeyFor(org, number, version);
    if key in w.s.blobs {
      assert Known(org, w.s.rows, key);
      var r, v: nat :| r in w.s.rows && v <= r.version && key == KeyFor(org, r.number, v);
      NumbersBelongToOne(w.infos[r.inspection].number, w.infos[r.inspection].number, r.number);
      KeysAreInjective(org, number, r.number, version, v);
    }
  }

  /** Generation always writes under a key nothing was ever stored under. */
  lemma NextKeyIsFresh(org: string, w: World, inspection: InspectionId, number: string)
    requires Sound(org, w) && inspection in w.infos && BelongsTo(w.infos[inspection].number, number)
    ensures KeyFor(org, number, NextVersion(w.s.rows, inspection, number)) !in w.s.blobs
  {
    NumbersBelongToOne(w.infos[inspection].number, w.infos[inspection].number, number);
    LatestIsThere(w.s.rows, inspection, number);
    forall r | r in w.s.rows && r.number == number ensures r.version < NextVersion(w.s.rows, inspection, number) {
      RowOfNumber(org, w, inspection, number, r);
    }
    KeyAboveIsFresh(org, w, number, NextVersion(w.s.rows, inspection, number));
  }

  /** So does a download that renders an official report again. */
  lemma RefreshKeyIsFresh(org: string, w: World, i: nat)
    requires Sound(org, w) && i < |w.s.rows|
    ensures KeyFor(org, w.s.rows[i].number, w.s.rows[i].version + 1) !in w.s.blobs
  {
    var r := w.s.rows[i];
    assert r in w.s.rows;
    NumbersBelongToOne(w.infos[r.inspection].number, w.infos[r.inspection].number, r.number);
    forall q | q in w.s.rows && q.number == r.number ensures q.version < r.version + 1 {
      assert q == r;
    }
    KeyAboveIsFresh(org, w, r.number, r.version + 1);
  }

  // ------------------------------------------------------------------ preservation

  lemma StoringKeepsRowsSound(org: string, w: World, inspection: InspectionId, number: string, key: Key, pdf: Bytes,
                              r: Report)
    requires Sound(org, w) && inspection in w.infos && BelongsTo(w.infos[inspection].number, number)
    requires key !in w.s.blobs && r in w.s.rows && !Of(r, inspection, number)
    ensures r.number != number && RowSound(org, w.infos, PutBlob(w.s.blobs, key, pdf), r)
  {
    if r.number == number { RowOfNumber(org, w, inspection, number, r); }
  }

  lemma StoringKeepsBlobsKnown(org: string, rows: seq<Report>, kept: seq<Report>, written: Report, key: Key)
    requires forall r | r in rows :: r in kept || (r.number == written.number && r.version <= written.version)
    requires Known(org, rows, key)
    ensures Known(org, kept + [written], key)
  {
    var r, v: nat :| r in rows && v <= r.version && key == KeyFor(org, r.number, v);
    assert (kept + [written])[|kept|] == written;
    if r in kept {
      assert r in kept + [written];
    } else {
      assert written in kept + [written] && key == KeyFor(org, written.number, v);
    }
  }

  /** Putting a document under a free key and replacing the rows of its number by the row that records it. */
  lemma AppendedRowsStayDistinct(kept: seq<Report>, written: Report)
    requires OneRowPerNumber(kept) && forall r | r in kept :: r.number != written.number
    ensures OneRowPerNumber(kept + [written])
  {
    forall i | 0 <= i < |kept| ensures kept[i].number != written.number {
      assert kept[i] in kept;
    }
  }

  lemma StoredKeyIsKnown(org: string, s: State, kept: seq<Report>, written: Report, pdf: Bytes, key: Key)
    requires key in s.blobs ==> Known(org, s.rows, key)
    requires written.key == KeyFor(org, written.number, written.version)
    requires forall r | r in s.rows :: r in kept || (r.number == written.number && r.version <= written.version)
    ensures key in PutBlob(s.blobs, written.key, pdf) ==> Known(org, kept + [written], key)
  {
    if key in s.blobs {
      StoringKeepsBlobsKnown(org, s.rows, kept, written, key);
    } else {
      assert (kept + [written])[|kept|] == written;
    }
  }

  lemma ReplacingStaysSound(org: string, w: World, kept: seq<Report>, written: Report, pdf: Bytes, nextId: nat)
    requires Sound(org, w) && OneRowPerNumber(kept) && written.key !in w.s.blobs && written.checksum == Sha256(pdf)
    requires RowSound(org, w.infos, w.s.blobs[written.key := pdf], written)
    requires forall r | r in kept ::
               r.number != written.number && RowSound(org, w.infos, w.s.blobs[written.key := pdf], r)
    requires forall r | r in w.s.rows :: r in kept || (r.number == written.number && r.version <= written.version)
    ensures Sound(org, World(w.infos, State(kept + [written], PutBlob(w.s.blobs, written.key, pdf), nextId)))
  {
    var rows, blobs := kept + [written], PutBlob(w.s.blobs, written.key, pdf);
    AppendedRowsStayDistinct(kept, written);
    assert forall r | r in rows :: RowSound(org, w.infos, blobs, r);
    forall key | key in blobs ensures Known(org, rows, key) {
      assert key in w.s.blobs ==> Known(org, w.s.rows, key);
      StoredKeyIsKnown(org, w.s, kept, written, pdf, key);
    }
  }

  lemma StoringStaysSound(org: string, w: World, inspection: InspectionId, number: string, pdf: Bytes)
    requires Sound(org, w) && inspection in w.infos && BelongsTo(w.infos[inspection].number, number)
    ensures Sound(org, w.(s := StoreVersion(org, w.s, inspection, number, pdf)))
  {
    var s, s' := w.s, StoreVersion(org, w.s, inspection, number, pdf);
    var kept, written := Others(s.rows, inspection, number), s'.rows[|s'.rows| - 1];
    NextKeyIsFresh(org, w, inspection, number);
    OthersMembers(s.rows, inspection, number);
    OthersStayDistinct(s.rows, inspection, number);
    LatestIsThere(s.rows, inspection, number);
    forall r | r in kept ensures r.number != number && RowSound(org, w.infos, s.blobs[written.key := pdf], r) {
      StoringKeepsRowsSound(org, w, inspection, number, written.key, pdf, r);
    }
    ReplacingStaysSound(org, w, kept, written, pdf, s'.nextId);
  }

  lemma RefreshKeepsBlobsKnown(org: string, rows: seq<Report>, i: nat, r: Report, key: Key)
    requires i < |rows| && r.number == rows[i].number && r.version >= rows[i].version
    requires Known(org, rows, key)
    ensures Known(org, rows[i := r], key)
  {
    var q, v: nat :| q in rows && v <= q.version && key == KeyFor(org, q.number, v);
    var j :| 0 <= j < |rows| && rows[j] == q;
    var moved := rows[i := r][j];
    assert moved in rows[i := r] && moved.number == q.number && moved.version >= q.version;
  }

  lemma RewrittenRows(rows: seq<Report>, i: nat, r: Report)
    requires i < |rows| && r.number == rows[i].number && OneRowPerNumber(rows)
    ensures OneRowPerNumber(rows[i := r]) && forall q | q in rows[i := r] :: q == r || q in rows
  {
    var after := rows[i := r];
    forall j, k | 0 <= j < k < |after| ensures after[j].number != after[k].number {
      assert rows[j].number != rows[k].number;
    }
  }

  lemma PuttingKeepsRowSound(org: string, infos: map<InspectionId, Info>, blobs: map<Key, Bytes>, key: Key,
                             pdf: Bytes, r: Report)
    requires key !in blobs && RowSound(org, infos, blobs, r)
    ensures RowSound(org, infos, PutBlob(blobs, key, pdf), r)
  {
  }

  lemma RewritingKeepsKeysKnown(org: string, s: State, i: nat, r: Report, pdf: Bytes, key: Key)
    requires i < |s.rows| && r.number == s.rows[i].number && r.version >= s.rows[i].version
    requires r.key == KeyFor(org, r.number, r.version)
    requires key in s.blobs ==> Known(org, s.rows, key)
    ensures key in PutBlob(s.blobs, r.key, pdf) ==> Known(org, s.rows[i := r], key)
  {
    if key in s.blobs {
      RefreshKeepsBlobsKnown(org, s.rows, i, r, key);
    } else {
      assert s.rows[i := r][i] == r;
    }
  }

  lemma RewritingKeepsRowsSound(org: string, infos: map<InspectionId, Info>, s: State, i: nat, r: Report, pdf: Bytes)
    requires i < |s.rows| && r.number == s.rows[i].number && r.key !in s.blobs && OneRowPerNumber(s.rows)
    requires forall q | q in s.rows :: RowSound(org, infos, s.blobs, q)
    requires RowSound(org, infos, PutBlob(s.blobs, r.key, pdf), r)
    ensures OneRowPerNumber(s.rows[i := r])
    ensures forall q | q in s.rows[i := r] :: RowSound(org, infos, PutBlob(s.blobs, r.key, pdf), q)
  {
    RewrittenRows(s.rows, i, r);
    forall q | q in s.rows[i := r] ensures RowSound(org, infos, PutBlob(s.blobs, r.key, pdf), q) {
      if q != r { PuttingKeepsRowSound(org, infos, s.blobs, r.key, pdf, q); }
    }
  }

  lemma RewritingStaysSound(org: string, w: World, i: nat, r: Report, pdf: Bytes)
    requires Sound(org, w) && i < |w.s.rows| && r.number == w.s.rows[i].number && r.version >= w.s.rows[i].version
    requires r.key !in w.s.blobs && RowSound(org, w.infos, PutBlob(w.s.blobs, r.key, pdf), r)
    ensures Sound(org, World(w.infos, State(w.s.rows[i := r], PutBlob(w.s.blobs, r.key, pdf), w.s.nextId)))
  {
    var rows, blobs := w.s.rows[i := r], PutBlob(w.s.blobs, r.key, pdf);
    RewritingKeepsRowsSound(org, w.infos, w.s, i, r, pdf);
    forall key | key in blobs ensures Known(org, rows, key) {
      assert key in w.s.blobs ==> Known(org, w.s.rows, key);
      RewritingKeepsKeysKnown(org, w.s, i, r, pdf, key);
    }
  }

  lemma RefreshStaysSound(org: string, w: World, i: nat, status: Status, pdf: Bytes)
    requires Sound(org, w) && i < |w.s.rows|
    ensures Sound(org, w.(s := RefreshRow(org, w.s, i, status, pdf, true)))
  {
    var r := w.s.rows[i];
    if Rerenders(r, status) {
      assert r in w.s.rows && RowSound(org, w.infos, w.s.blobs, r);
      RefreshKeyIsFresh(org, w, i);
      RewritingStaysSound(org, w, i, RefreshRow(org, w.s, i, status, pdf, true).rows[i], pdf);
    }
  }

  lemma ProgressStaysSound(org: string, w: World, inspection: InspectionId, info: Info)
    requires Sound(org, w) && MayProgress(w.infos, inspection, info)
    ensures Sound(org, w.(infos := w.infos[inspection := info]))
  {
    var infos := w.infos[inspection := info];
    forall r | r in w.s.rows ensures RowSound(org, infos, w.s.blobs, r) {
      assert RowSound(org, w.infos, w.s.blobs, r);
    }
  }

  lemma GeneratingStaysSound(org: string, w: World, inspection: InspectionId, pdf: Bytes, draftPdf: Bytes)
    requires Sound(org, w) && inspection in w.infos
    ensures Sound(org, w.(s := GenerateOfficial(org, w.s, inspection, w.infos[inspection], pdf, draftPdf, Committed)))
  {
    var info := w.infos[inspection];
    var number := OfficialNumber(info.number);
    StoringStaysSound(org, w, inspection, number, pdf);
    var official := StoreVersion(org, w.s, inspection, number, pdf);
    StoringStaysSound(org, w.(s := official), inspection, DraftOf(info), draftPdf);
  }

  lemma StepStaysSound(org: string, w: World, op: Op)
    requires Sound(org, w)
    ensures Sound(org, Step(org, w, op))
  {
    match op {
      case Progress(inspection, info) =>
        if MayProgress(w.infos, inspection, info) { ProgressStaysSound(org, w, inspection, info); }
      case Draft(inspection, pdf) =>
        if inspection in w.infos { StoringStaysSound(org, w, inspection, DraftOf(w.infos[inspection]), pdf); }
      case Official(inspection, pdf, draftPdf) =>
        if inspection in w.infos { GeneratingStaysSound(org, w, inspection, pdf, draftPdf); }
      case Download(i, pdf) =>
        if i < |w.s.rows| && w.s.rows[i].inspection in w.infos {
          RefreshStaysSound(org, w, i, w.infos[w.s.rows[i].inspection].status, pdf);
        }
    }
  }

  lemma {:induction false} RunsStaySound(org: string, ops: seq<Op>)
    ensures Sound(org, Run(org, EMPTY, ops))
  {
    if ops != [] {
      RunsStaySound(org, ops[..|ops| - 1]);
      StepStaysSound(org, Run(org, EMPTY, ops[..|ops| - 1]), ops[|ops| - 1]);
    }
  }

  /** In failure-free runs every report row is the only one of its number, and the bytes behind its key are the
      bytes its checksum was taken of. */
  lemma StoredBytesMatchChecksums(org: string, ops: seq<Op>)
    ensures var s := Run(org, EMPTY, ops).s;
            && OneRowPerNumber(s.rows)
            && (forall r | r in s.rows :: r.key in s.blobs && Sha256(s.blobs[r.key]) == r.checksum)
            && (forall r, q | r in s.rows && q in s.rows && r.key == q.key :: r.number == q.number)
  {
    RunsStaySound(org, ops);
    var w := Run(org, EMPTY, ops);
    forall r, q | r in w.s.rows && q in w.s.rows && r.key == q.key ensures r.number == q.number {
      NumbersBelongToOne(w.infos[r.inspection].number, w.infos[r.inspection].number, r.number);
      NumbersBelongToOne(w.infos[q.inspection].number, w.infos[q.inspection].number, q.number);
      KeysAreInjective(org, r.number, q.number, r.version, q.version);
    }
  }

  /** Whether a download of the row renders the report again. */
  predicate Renders(w: World, i: nat) {
    && i < |w.s.rows| && w.s.rows[i].inspection in w.infos
    && Rerenders(w.s.rows[i], w.infos[w.s.rows[i].inspection].status)
  }

  /** How many documents an operation hands to `put`. */
  function Puts(w: World, op: Op): nat {
    match op
    case Progress(_, _) => 0
    case Draft(inspection, _) => if inspection in w.infos && DraftReady(w.infos[inspection].status) then 1 else 0
    case Official(inspection, _, _) =>
      if inspection in w.infos && OfficialReady(w.infos[inspection].status) then 2 else 0
    case Download(i, _) =>
      if Renders(w, i) then 1 else 0
  }

  /** So many blobs are new, and those that were there are untouched. */
  predicate Adds(blobs: map<Key, Bytes>, after: map<Key, Bytes>, n: nat) {
    && |after| == |blobs| + n
    && forall key | key in blobs :: key in after && after[key] == blobs[key]
  }

  lemma FreshPutAdds(blobs: map<Key, Bytes>, key: Key, body: Bytes)
    requires key !in blobs
    ensures Adds(blobs, PutBlob(blobs, key, body), 1)
  {
  }

  lemma DraftPutsFresh(org: string, w: World, inspection: InspectionId, pdf: Bytes)
    requires Sound(org, w) && inspection in w.infos
    ensures Adds(w.s.blobs, StoreVersion(org, w.s, inspection, DraftOf(w.infos[inspection]), pdf).blobs, 1)
  {
    var draft := DraftOf(w.infos[inspection]);
    NextKeyIsFresh(org, w, inspection, draft);
    FreshPutAdds(w.s.blobs, KeyFor(org, draft, NextVersion(w.s.rows, inspection, draft)), pdf);
  }

  lemma OfficialPutsFresh(org: string, w: World, inspection: InspectionId, pdf: Bytes, draftPdf: Bytes)
    requires Sound(org, w) && inspection in w.infos
    ensures var official := StoreVersion(org, w.s, inspection, OfficialNumber(w.infos[inspection].number), pdf);
            Adds(w.s.blobs, StoreVersion(org, official, inspection, DraftOf(w.infos[inspection]), draftPdf).blobs, 2)
  {
    var number := OfficialNumber(w.infos[inspection].number);
    var official := StoreVersion(org, w.s, inspection, number, pdf);
    NextKeyIsFresh(org, w, inspection, number);
    FreshPutAdds(w.s.blobs, KeyFor(org, number, NextVersion(w.s.rows, inspection, number)), pdf);
    StoringStaysSound(org, w, inspection, number, pdf);
    DraftPutsFresh(org, w.(s := official), inspection, draftPdf);
  }

  lemma StepPutsFresh(org: string, w: World, op: Op)
    requires Sound(org, w)
    ensures Adds(w.s.blobs, Step(org, w, op).s.blobs, Puts(w, op))
  {
    if Puts(w, op) > 0 {
      match op {
        case Draft(inspection, pdf) => DraftPutsFresh(org, w, inspection, pdf);
        case Official(inspection, pdf, draftPdf) => OfficialPutsFresh(org, w, inspection, pdf, draftPdf);
        case Download(i, pdf) =>
          RefreshKeyIsFresh(org, w, i);
          FreshPutAdds(w.s.blobs, KeyFor(org, w.s.rows[i].number, w.s.rows[i].version + 1), pdf);
      }
    }
  }

  /** Every put of a failure-free run stores a new blob and none is overwritten. */
  lemma EveryPutIsFresh(org: string, ops: seq<Op>, op: Op)
    ensures var w := Run(org, EMPTY, ops);
            Adds(w.s.blobs, Step(org, w, op).s.blobs, Puts(w, op))
  {
    RunsStaySound(org, ops);
    StepPutsFresh(org, Run(org, EMPTY, ops), op);
  }

  // ------------------------------------------------------------------ versions

  lemma {:induction false} LatestOfOthersAfterUpdate(rows: seq<Report>, i: nat, r: Report, inspection: InspectionId,
                                                     number: string)
    requires i < |rows| && !Of(rows[i], inspection, number) && !Of(r, inspection, number)
    ensures LatestRow(rows[i := r], inspection, number) == LatestRow(rows, inspection, number)
  {
    var init, after := rows[..|rows| - 1], rows[i := r];
    if i < |init| {
      LatestOfOthersAfterUpdate(init, i, r, inspection, number);
      assert after[..|after| - 1] == init[i := r];
    } else {
      assert after[..|after| - 1] == init;
    }
  }

  lemma OnlyRowIsLatest(rows: seq<Report>, i: nat)
    requires OneRowPerNumber(rows) && i < |rows|
    ensures LatestRow(rows, rows[i].inspection, rows[i].number) == Some(rows[i])
  {
    LatestIsThere(rows, rows[i].inspection, rows[i].number);
    assert rows[i] in rows;
  }

  /** A download that renders again raises the version of its report by one and that of no other. */
  lemma RefreshRaisesVersion(org: string, w: World, i: nat, status: Status, pdf: Bytes)
    requires Sound(org, w) && i < |w.s.rows| && Rerenders(w.s.rows[i], status)
    ensures var r, s' := w.s.rows[i], RefreshRow(org, w.s, i, status, pdf, true);
            && NextVersion(s'.rows, r.inspection, r.number) == NextVersion(w.s.rows, r.inspection, r.number) + 1
            && (forall other, n | other != r.inspection || n != r.number ::
                  NextVersion(s'.rows, other, n) == NextVersion(w.s.rows, other, n))
  {
    var r, rows := w.s.rows[i], RefreshRow(org, w.s, i, status, pdf, true).rows;
    RewrittenRows(w.s.rows, i, rows[i]);
    OnlyRowIsLatest(w.s.rows, i);
    OnlyRowIsLatest(rows, i);
    forall other, n | other != r.inspection || n != r.number
      ensures NextVersion(rows, other, n) == NextVersion(w.s.rows, other, n)
    {
      LatestOfOthersAfterUpdate(w.s.rows, i, rows[i], other, n);
    }
  }

  lemma StoringRaisesVersion(org: string, s: State, inspection: InspectionId, number: string, pdf: Bytes)
    ensures var s' := StoreVersion(org, s, inspection, number, pdf);
            && NextVersion(s'.rows, inspection, number) == NextVersion(s.rows, inspection, number) + 1
            && (forall other, n | other != inspection || n != number ::
                  NextVersion(s'.rows, other, n) == NextVersion(s.rows, other, n))
  {
    var s' := StoreVersion(org, s, inspection, number, pdf);
    var kept := Others(s.rows, inspection, number);
    assert s'.rows[..|kept|] == kept;
    OthersMembers(s.rows, inspection, number);
    LatestIsThere(kept, inspection, number);
    forall other, n | other != inspection || n != number
      ensures NextVersion(s'.rows, other, n) == NextVersion(s.rows, other, n)
    {
      OthersKeepLatest(s.rows, inspection, number, other, n);
    }
  }

  lemma {:induction false} OthersKeepLatest(rows: seq<Report>, inspection: InspectionId, number: string,
                                            other: InspectionId, n: string)
    requires other != inspection || n != number
    ensures LatestRow(Others(rows, inspection, number), other, n) == LatestRow(rows, other, n)
  {
    if rows != [] {
      OthersKeepLatest(rows[..|rows| - 1], inspection, number, other, n);
      var kept, last := Others(rows[..|rows| - 1], inspection, number), rows[|rows| - 1];
      assert (kept + [last])[..|kept|] == kept;
    }
  }

  function One(c: bool): nat {
    if c then 1 else 0
  }

  /** How many documents the operation puts under the report number. */
  function PutsUnder(w: World, op: Op, inspection: InspectionId, number: string): nat {
    match op
    case Progress(_, _) => 0
    case Draft(id, _) =>
      One(id == inspection && id in w.infos && DraftReady(w.infos[id].status) && DraftOf(w.infos[id]) == number)
    case Official(id, _, _) =>
      if id != inspection || id !in w.infos || !OfficialReady(w.infos[id].status) then 0
      else One(OfficialNumber(w.infos[id].number) == number) + One(DraftOf(w.infos[id]) == number)
    case Download(i, _) => One(Renders(w, i) && Of(w.s.rows[i], inspection, number))
  }

  function Documents(org: string, w: World, ops: seq<Op>, inspection: InspectionId, number: string): nat {
    if ops == [] then 0
    else
      var before := Run(org, w, ops[..|ops| - 1]);
      Documents(org, w, ops[..|ops| - 1], inspection, number) + PutsUnder(before, ops[|ops| - 1], inspection, number)
  }

  lemma OfficialCountsDocuments(org: string, s: State, id: InspectionId, official: string, draft: string, pdf: Bytes,
                                draftPdf: Bytes, inspection: InspectionId, number: string)
    ensures var stored := StoreVersion(org, StoreVersion(org, s, id, official, pdf), id, draft, draftPdf);
            NextVersion(stored.rows, inspection, number)
            == NextVersion(s.rows, inspection, number)
               + (if id != inspection then 0 else One(official == number) + One(draft == number))
  {
    StoringRaisesVersion(org, s, id, official, pdf);
    StoringRaisesVersion(org, StoreVersion(org, s, id, official, pdf), id, draft, draftPdf);
  }

  lemma StepCountsDocuments(org: string, w: World, op: Op, inspection: InspectionId, number: string)
    requires Sound(org, w)
    ensures NextVersion(Step(org, w, op).s.rows, inspection, number)
            == NextVersion(w.s.rows, inspection, number) + PutsUnder(w, op, inspection, number)
  {
    match op {
      case Progress(_, _) =>
      case Draft(id, pdf) =>
        if id in w.infos { StoringRaisesVersion(org, w.s, id, DraftOf(w.infos[id]), pdf); }
      case Official(id, pdf, draftPdf) =>
        if id in w.infos {
          OfficialCountsDocuments(org, w.s, id, OfficialNumber(w.infos[id].number), DraftOf(w.infos[id]), pdf, draftPdf,
                                  inspection, number);
        }
      case Download(i, pdf) =>
        if Renders(w, i) { RefreshRaisesVersion(org, w, i, w.infos[w.s.rows[i].inspection].status, pdf); }
    }
  }

  /** Along every failure-free run the version of a report grows by exactly one with each document put under its
      number, by whichever of the three handlers, and by nothing else. */
  lemma {:induction false} VersionsCountDocuments(org: string, w: World, ops: seq<Op>, inspection: InspectionId,
                                                  number: string)
    requires Sound(org, w)
    ensures Sound(org, Run(org, w, ops))
    ensures NextVersion(Run(org, w, ops).s.rows, inspection, number)
            == NextVersion(w.s.rows, inspection, number) + Documents(org, w, ops, inspection, number)
  {
    if ops != [] {
      var before := Run(org, w, ops[..|ops| - 1]);
      VersionsCountDocuments(org, w, ops[..|ops| - 1], inspection, number);
      StepCountsDocuments(org, before, ops[|ops| - 1], inspection, number);
      StepStaysSound(org, before, ops[|ops| - 1]);
    }
  }

  // ------------------------------------------------------------------ failures

  /** What a written row records is what is stored exactly when the key was free or held the same bytes already. */
  lemma ChecksumHoldsIffKeyWasFree(org: string, s: State, inspection: InspectionId, number: string, pdf: Bytes)
    ensures var s' := StoreVersion(org, s, inspection, number, pdf);
            var r := s'.rows[|s'.rows| - 1];
            r.key in s'.blobs && (Sha256(s'.blobs[r.key]) == r.checksum <==> r.key !in s.blobs || s.blobs[r.key] == pdf)
  {
  }

  /** What a lost row does to the next report of its number. */
  lemma LostVersionSpoilsNext(org: string, s: State, inspection: InspectionId, number: string, pdf: Bytes, later: Bytes)
    requires KeyFor(org, number, NextVersion(s.rows, inspection, number)) !in s.blobs
    ensures var s' := StoreVersion(org, LoseVersion(org, s, inspection, number, pdf), inspection, number, later);
            var r := s'.rows[|s'.rows| - 1];
            r.key in s'.blobs && (Sha256(s'.blobs[r.key]) == r.checksum <==> later == pdf)
  {
    ChecksumHoldsIffKeyWasFree(org, LoseVersion(org, s, inspection, number, pdf), inspection, number, later);
  }

  /** The row of this number does not describe the bytes that are stored. */
  ghost predicate Spoiled(s: State, number: string) {
    exists r | r in s.rows :: r.number == number && (r.key in s.blobs ==> Sha256(s.blobs[r.key]) != r.checksum)
  }

  /** A draft whose row was lost after its document was stored spoils the next draft exactly when that renders other
      bytes. */
  lemma LostDraftSpoilsNextIff(org: string, w: World, inspection: InspectionId, pdf: Bytes, later: Bytes)
    requires Sound(org, w) && inspection in w.infos && DraftReady(w.infos[inspection].status)
    ensures var info := w.infos[inspection];
            var lost := GenerateDraft(org, w.s, inspection, info, pdf, false);
            Spoiled(GenerateDraft(org, lost, inspection, info, later, true), DraftOf(info)) <==> pdf != later
  {
    var info := w.infos[inspection];
    NextKeyIsFresh(org, w, inspection, DraftOf(info));
    LostVersionSpoilsNext(org, w.s, inspection, DraftOf(info), pdf, later);
    NumbersAreOwned(org, w, inspection, DraftOf(info));
    NewRowIsOnly(org, LoseVersion(org, w.s, inspection, DraftOf(info), pdf), inspection, DraftOf(info), later);
  }

  /** The rows after a document was stored: the new one and those of other reports. */
  lemma StoredRows(org: string, s: State, inspection: InspectionId, number: string, pdf: Bytes)
    ensures var rows := StoreVersion(org, s, inspection, number, pdf).rows;
            forall q :: q in rows <==> q == rows[|rows| - 1] || (q in s.rows && !Of(q, inspection, number))
  {
    OthersMembers(s.rows, inspection, number);
  }

  ghost predicate OwnedBy(rows: seq<Report>, inspection: InspectionId, number: string) {
    forall q | q in rows && q.number == number :: q.inspection == inspection
  }

  lemma NumbersAreOwned(org: string, w: World, inspection: InspectionId, number: string)
    requires Sound(org, w) && inspection in w.infos && BelongsTo(w.infos[inspection].number, number)
    ensures OwnedBy(w.s.rows, inspection, number)
  {
    forall r | r in w.s.rows && r.number == number ensures r.inspection == inspection {
      RowOfNumber(org, w, inspection, number, r);
    }
  }

  predicate OnlyRow(rows: seq<Report>, r: Report) {
    r in rows && forall q | q in rows && q.number == r.number :: q == r
  }

  /** Storing leaves the new row as the only one of its number. */
  lemma NewRowIsOnly(org: string, s: State, inspection: InspectionId, number: string, pdf: Bytes)
    requires OwnedBy(s.rows, inspection, number)
    ensures var rows := StoreVersion(org, s, inspection, number, pdf).rows; OnlyRow(rows, rows[|rows| - 1])
  {
    StoredRows(org, s, inspection, number, pdf);
    var rows := StoreVersion(org, s, inspection, number, pdf).rows;
    assert rows[|rows| - 1] in rows;
  }

  /** What is stored once both documents of a lost official generation are there. */
  lemma LostOfficialBlobs(org: string, w: World, inspection: InspectionId, pdf: Bytes, draftPdf: Bytes)
    requires Sound(org, w) && inspection in w.infos && OfficialReady(w.infos[inspection].status)
    ensures var info := w.infos[inspection];
            var lost := GenerateOfficial(org, w.s, inspection, info, pdf, draftPdf, RowsLost);
            var number := OfficialNumber(info.number);
            var key := KeyFor(org, number, NextVersion(w.s.rows, inspection, number));
            var draftKey := KeyFor(org, DraftOf(info), NextVersion(w.s.rows, inspection, DraftOf(info)));
            && lost.rows == w.s.rows
            && key in lost.blobs && lost.blobs[key] == pdf
            && draftKey in lost.blobs && lost.blobs[draftKey] == draftPdf
  {
    var info := w.infos[inspection];
    var number, draft := OfficialNumber(info.number), DraftOf(info);
    var version, draftVersion := NextVersion(w.s.rows, inspection, number), NextVersion(w.s.rows, inspection, draft);
    NextKeyIsFresh(org, w, inspection, number);
    NextKeyIsFresh(org, w, inspection, draft);
    OfficialIsNoDraft(info);
    NumbersBelongToOne(info.number, info.number, number);
    NumbersBelongToOne(info.number, info.number, draft);
    if KeyFor(org, number, version) == KeyFor(org, draft, draftVersion) {
      KeysAreInjective(org, number, draft, version, draftVersion);
    }
  }

  lemma SpoiledByItsOnlyRow(s: State, r: Report)
    requires OnlyRow(s.rows, r) && r.key in s.blobs
    ensures Spoiled(s, r.number) <==> Sha256(s.blobs[r.key]) != r.checksum
  {
  }

  /** Two numbers stored one after the other leave one row each. */
  lemma TwoStoredRows(org: string, s: State, inspection: InspectionId, number: string, draft: string, pdf: Bytes,
                      draftPdf: Bytes)
    requires number != draft && OwnedBy(s.rows, inspection, number) && OwnedBy(s.rows, inspection, draft)
    ensures var official := StoreVersion(org, s, inspection, number, pdf);
            var rows := StoreVersion(org, official, inspection, draft, draftPdf).rows;
            OnlyRow(rows, official.rows[|official.rows| - 1]) && OnlyRow(rows, rows[|rows| - 1])
  {
    var official := StoreVersion(org, s, inspection, number, pdf);
    StoredRows(org, s, inspection, number, pdf);
    NewRowIsOnly(org, s, inspection, number, pdf);
    StoredRows(org, official, inspection, draft, draftPdf);
    NewRowIsOnly(org, official, inspection, draft, draftPdf);
  }

  /** Generating over keys that are taken stores nothing, and what the new rows record is right exactly where the taken
      bytes are. */
  lemma OfficialOverTakenKeys(org: string, w: World, s: State, inspection: InspectionId, number: string, draft: string,
                              pdf: Bytes, draftPdf: Bytes)
    requires Sound(org, w) && inspection in w.infos && s.rows == w.s.rows && number != draft
    requires BelongsTo(w.infos[inspection].number, number) && BelongsTo(w.infos[inspection].number, draft)
    requires KeyFor(org, number, NextVersion(s.rows, inspection, number)) in s.blobs
    requires KeyFor(org, draft, NextVersion(s.rows, inspection, draft)) in s.blobs
    ensures var after := StoreVersion(org, StoreVersion(org, s, inspection, number, pdf), inspection, draft, draftPdf);
            && (Spoiled(after, number)
                <==> s.blobs[KeyFor(org, number, NextVersion(s.rows, inspection, number))] != pdf)
            && (Spoiled(after, draft)
                <==> s.blobs[KeyFor(org, draft, NextVersion(s.rows, inspection, draft))] != draftPdf)
  {
    var official := StoreVersion(org, s, inspection, number, pdf);
    var after := StoreVersion(org, official, inspection, draft, draftPdf);
    StoringRaisesVersion(org, s, inspection, number, pdf);
    NumbersAreOwned(org, w, inspection, number);
    NumbersAreOwned(org, w, inspection, draft);
    TwoStoredRows(org, s, inspection, number, draft, pdf, draftPdf);
    SpoiledByItsOnlyRow(after, official.rows[|official.rows| - 1]);
    SpoiledByItsOnlyRow(after, after.rows[|after.rows| - 1]);
  }

  /** A lost official generation spoils each of its two documents at the next one exactly when that renders other
      bytes. */
  lemma LostOfficialSpoilsNextIff(org: string, w: World, inspection: InspectionId, pdf: Bytes, draftPdf: Bytes,
                                  later: Bytes, laterDraft: Bytes)
    requires Sound(org, w) && inspection in w.infos && OfficialReady(w.infos[inspection].status)
    ensures var info := w.infos[inspection];
            var lost := GenerateOfficial(org, w.s, inspection, info, pdf, draftPdf, RowsLost);
            var s := GenerateOfficial(org, lost, inspection, info, later, laterDraft, Committed);
            && (Spoiled(s, OfficialNumber(info.number)) <==> pdf != later)
            && (Spoiled(s, DraftOf(info)) <==> draftPdf != laterDraft)
  {
    LostOfficialBlobs(org, w, inspection, pdf, draftPdf);
    var info := w.infos[inspection];
    OfficialIsNoDraft(info);
    OfficialOverTakenKeys(org, w, GenerateOfficial(org, w.s, inspection, info, pdf, draftPdf, RowsLost), inspection,
                          OfficialNumber(info.number), DraftOf(info), later, laterDraft);
  }

  /** And a download whose row update was lost spoils the next one in the same way. */
  lemma LostRefreshSpoilsNextIff(org: string, w: World, i: nat, status: Status, pdf: Bytes, later: Bytes)
    requires Sound(org, w) && i < |w.s.rows| && Rerenders(w.s.rows[i], status)
    ensures var lost := RefreshRow(org, w.s, i, status, pdf, false);
            Spoiled(RefreshRow(org, lost, i, status, later, true), w.s.rows[i].number) <==> pdf != later
  {
    RefreshKeyIsFresh(org, w, i);
    var s := RefreshRow(org, RefreshRow(org, w.s, i, status, pdf, false), i, status, later, true);
    RewrittenRows(w.s.rows, i, s.rows[i]);
    assert s.rows[i] in s.rows;
    forall r | r in s.rows && r.number == w.s.rows[i].number ensures r == s.rows[i] {
      var j :| 0 <= j < |s.rows| && s.rows[j] == r;
    }
  }
}
