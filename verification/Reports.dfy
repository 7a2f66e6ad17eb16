/** Report versions over a blob store that writes a key only when it is absent. */
module Reports {
  import opened Text
  import opened StateMachine
  import opened Numbering

  type InspectionId = nat
  type Bytes = seq<int>
  type Key = string

  /** A SHA-256 digest, taken to be injective. */
  datatype Digest = Sha256(body: Bytes)

  // ------------------------------------------------------------------ the blob store

  function PutBlob(blobs: map<Key, Bytes>, key: Key, body: Bytes): map<Key, Bytes> {
    if key in blobs then blobs else blobs[key := body]
  }

  class BlobStore {
    var blobs: map<Key, Bytes>

    constructor ()
      ensures blobs == map[]
    {
      blobs := map[];
    }

    method Put(key: Key, body: Bytes) returns (checksum: Digest)
      modifies this
      ensures blobs == PutBlob(old(blobs), key, body)
      ensures checksum == Sha256(body)
    {
      var alreadyExists := Exists(key);
      if !alreadyExists {
        blobs := blobs[key := body];
      }
      checksum := Sha256(body);
    }

    method Exists(key: Key) returns (stored: bool)
      ensures stored <==> key in blobs
    {
      stored := key in blobs;
    }

    method Delete(key: Key)
      modifies this
      ensures blobs == old(blobs) - {key}
    {
      blobs := map k | k in blobs && k != key :: blobs[k];
    }
  }

  // ------------------------------------------------------------------ report numbers and keys

  function Tail(inspectionNumber: string): string {
    if StartsWith(inspectionNumber, "INS-") then inspectionNumber[4..] else inspectionNumber
  }

  function OfficialNumber(inspectionNumber: string): string {
    if StartsWith(inspectionNumber, "INS-") then "RPT-" + inspectionNumber[4..] else inspectionNumber
  }

  function DraftNumber(inspectionNumber: string, round: nat): string {
    "DRF-" + Tail(inspectionNumber) + "-R" + Decimal(round)
  }

  function Folder(number: string): string {
    if StartsWith(number, "DRF-") then "drafts/" else ""
  }

  function Stem(number: string, version: nat): string {
    Folder(number) + number + "-v" + Decimal(version)
  }

  function Root(org: string): string {
    "reports/" + org + "/"
  }

  function KeyFor(org: string, number: string, version: nat): Key {
    Root(org) + Stem(number, version) + ".pdf"
  }

  /** The part behind the last marker that is followed by digits only can be read off. */
  lemma MarkedDecimalSplits(a: string, b: string, x: char, m: nat, n: nat)
    requires !IsDigit(x) && a + ['-', x] + Decimal(m) == b + ['-', x] + Decimal(n)
    ensures a == b && m == n
  {
    var p, q := a + ['-', x] + Decimal(m), b + ['-', x] + Decimal(n);
    var d, e := Decimal(m), Decimal(n);
    assert p[|p| - |d| - 1] == x && q[|q| - |e| - 1] == x;
    assert forall i :: 0 <= i < |d| ==> p[|p| - |d| + i] == d[i];
    assert forall i :: 0 <= i < |e| ==> q[|q| - |e| + i] == e[i];
    assert |d| == |e|;
    assert p[|p| - |d|..] == d && q[|q| - |e|..] == e;
    assert p[..|p| - |d| - 2] == a && q[..|q| - |e| - 2] == b;
    ValueOfDecimal(m);
    ValueOfDecimal(n);
  }

  predicate ReportNumber(number: string) {
    StartsWith(number, "RPT-") || StartsWith(number, "DRF-")
  }

  lemma SameFrame(head: string, p: string, q: string, tail: string)
    requires head + p + tail == head + q + tail
    ensures p == q
  {
    assert |p| == |q|;
    assert p == (head + p + tail)[|head|..][..|p|] && q == (head + q + tail)[|head|..][..|q|];
  }

  /** A storage key determines the report number and its version. */
  lemma KeysAreInjective(org: string, number: string, other: string, version: nat, otherVersion: nat)
    requires ReportNumber(number) && ReportNumber(other)
    requires KeyFor(org, number, version) == KeyFor(org, other, otherVersion)
    ensures number == other && version == otherVersion
  {
    SameFrame(Root(org), Stem(number, version), Stem(other, otherVersion), ".pdf");
    assert "-v" == ['-', 'v'];
    MarkedDecimalSplits(Folder(number) + number, Folder(other) + other, 'v', version, otherVersion);
    FoldersTellApart(number, other);
  }

  lemma FolderHead(number: string)
    requires ReportNumber(number)
    ensures (Folder(number) + number)[0] == if StartsWith(number, "DRF-") then 'd' else 'R'
  {
  }

  lemma FoldersTellApart(number: string, other: string)
    requires ReportNumber(number) && ReportNumber(other) && Folder(number) + number == Folder(other) + other
    ensures number == other
  {
    FolderHead(number);
    FolderHead(other);
    assert number + "" == number && other + "" == other;
    SameFrame(Folder(number), number, other, "");
  }

  /** The number is the official number of this inspection, or one of its drafts. */
  ghost predicate BelongsTo(inspectionNumber: string, number: string) {
    || number == OfficialNumber(inspectionNumber)
    || exists round :: number == DraftNumber(inspectionNumber, round)
  }

  lemma NumbersBelongToOne(n: string, other: string, number: string)
    requires StartsWith(n, "INS-") && StartsWith(other, "INS-")
    requires BelongsTo(n, number) && BelongsTo(other, number)
    ensures n == other && ReportNumber(number)
  {
    assert n == "INS-" + n[4..] && other == "INS-" + other[4..];
    if number[0] == 'R' {
      assert number == "RPT-" + n[4..] && number == "RPT-" + other[4..];
      assert number[4..] == n[4..] && number[4..] == other[4..];
    } else {
      var r :| number == DraftNumber(n, r);
      var r' :| number == DraftNumber(other, r');
      assert "DRF-" + n[4..] + ['-', 'R'] + Decimal(r) == "DRF-" + other[4..] + ['-', 'R'] + Decimal(r');
      MarkedDecimalSplits("DRF-" + n[4..], "DRF-" + other[4..], 'R', r, r');
      assert ("DRF-" + n[4..])[4..] == n[4..] && ("DRF-" + other[4..])[4..] == other[4..];
    }
  }

  /** What numbers and keys look like. */
  lemma NumbersLookLike(rest: string, round: nat)
    ensures OfficialNumber("INS-" + rest) == "RPT-" + rest
    ensures DraftNumber("INS-" + rest, round) == "DRF-" + rest + "-R" + Decimal(round)
  {
    assert ("INS-" + rest)[4..] == rest && ("INS-" + rest)[..4] == "INS-";
  }

  lemma KeyFrame(org: string, a: string, b: string, c: string, d: string)
    ensures Root(org) + (a + b + c) + d == "reports/" + org + ("/" + a) + b + c + d
  {
  }

  lemma OfficialKeysLookLike(org: string, rest: string, version: nat)
    ensures KeyFor(org, "RPT-" + rest, version) == "reports/" + org + "/RPT-" + rest + "-v" + Decimal(version) + ".pdf"
  {
    assert ("RPT-" + rest)[0] == 'R' && !StartsWith("RPT-" + rest, "DRF-");
    assert Stem("RPT-" + rest, version) == "RPT-" + rest + ("-v" + Decimal(version));
    KeyFrame(org, "RPT-", rest, "-v" + Decimal(version), ".pdf");
    assert "/" + "RPT-" == "/RPT-";
  }

  lemma DraftKeysLookLike(org: string, rest: string, version: nat)
    ensures KeyFor(org, "DRF-" + rest, version)
            == "reports/" + org + "/drafts/DRF-" + rest + "-v" + Decimal(version) + ".pdf"
  {
    assert ("DRF-" + rest)[..4] == "DRF-";
    assert Stem("DRF-" + rest, version) == "drafts/DRF-" + rest + ("-v" + Decimal(version));
    KeyFrame(org, "drafts/DRF-", rest, "-v" + Decimal(version), ".pdf");
    assert "/" + "drafts/DRF-" == "/drafts/DRF-";
  }

  // ------------------------------------------------------------------ report rows

  datatype Report = Report(id: nat, inspection: InspectionId, number: string, version: nat, key: Key, checksum: Digest)

  datatype State = State(rows: seq<Report>, blobs: map<Key, Bytes>, nextId: nat)

  /** What the service reads of an inspection. */
  datatype Info = Info(number: string, status: Status, submissionCount: nat)

  predicate Of(r: Report, inspection: InspectionId, number: string) {
    r.inspection == inspection && r.number == number
  }

  /** `findFirst` ordered by version, descending. */
  function LatestRow(rows: seq<Report>, inspection: InspectionId, number: string): Option<Report> {
    if rows == [] then None
    else
      var before, last := LatestRow(rows[..|rows| - 1], inspection, number), rows[|rows| - 1];
      if Of(last, inspection, number) && (before.None? || last.version > before.value.version) then Some(last)
      else before
  }

  function Others(rows: seq<Report>, inspection: InspectionId, number: string): seq<Report> {
    if rows == [] then []
    else
      var before, last := Others(rows[..|rows| - 1], inspection, number), rows[|rows| - 1];
      if Of(last, inspection, number) then before else before + [last]
  }

  function NextVersion(rows: seq<Report>, inspection: InspectionId, number: string): nat {
    var existing := LatestRow(rows, inspection, number);
    if existing.None? then 1 else existing.value.version + 1
  }

  /** Puts the document and makes its row the only one of that number. */
  function StoreVersion(org: string, s: State, inspection: InspectionId, number: string, pdf: Bytes): State {
    var version := NextVersion(s.rows, inspection, number);
    var key := KeyFor(org, number, version);
    var existing := LatestRow(s.rows, inspection, number);
    var id := if existing.None? then s.nextId else existing.value.id;
    State(Others(s.rows, inspection, number) + [Report(id, inspection, number, version, key, Sha256(pdf))],
          PutBlob(s.blobs, key, pdf), if existing.None? then s.nextId + 1 else s.nextId)
  }

  /** The document is put but the row is never written. */
  function LoseVersion(org: string, s: State, inspection: InspectionId, number: string, pdf: Bytes): State {
    s.(blobs := PutBlob(s.blobs, KeyFor(org, number, NextVersion(s.rows, inspection, number)), pdf))
  }

  function DraftOf(info: Info): string {
    DraftNumber(info.number, if info.submissionCount < 1 then 1 else info.submissionCount)
  }

  /** How far an official generation gets: through its transaction, through both puts, or through the first alone. */
  datatype Fate = Committed | RowsLost | DraftNotPut

  predicate DraftReady(status: Status) {
    AwaitsReview(status) || OfficialReady(status)
  }

  predicate OfficialReady(status: Status) {
    status.Approved? || status.ReportGenerated?
  }

  function GenerateDraft(org: string, s: State, inspection: InspectionId, info: Info, pdf: Bytes,
                         commits: bool): State {
    if !DraftReady(info.status) then s
    else if commits then StoreVersion(org, s, inspection, DraftOf(info), pdf)
    else LoseVersion(org, s, inspection, DraftOf(info), pdf)
  }

  function GenerateOfficial(org: string, s: State, inspection: InspectionId, info: Info, pdf: Bytes, draftPdf: Bytes,
                            fate: Fate): State
  {
    if !OfficialReady(info.status) then s
    else
      match fate
      case Committed =>
        var official := StoreVersion(org, s, inspection, OfficialNumber(info.number), pdf);
        StoreVersion(org, official, inspection, DraftOf(info), draftPdf)
      case RowsLost =>
        var official := LoseVersion(org, s, inspection, OfficialNumber(info.number), pdf);
        LoseVersion(org, official, inspection, DraftOf(info), draftPdf)
      case DraftNotPut => LoseVersion(org, s, inspection, OfficialNumber(info.number), pdf)
  }

  /** Whether a download of this row renders it again. */
  predicate Rerenders(r: Report, status: Status) {
    !StartsWith(r.number, "DRF-") && OfficialReady(status)
  }

  /** Downloading an official report renders it again under the next version. */
  function RefreshRow(org: string, s: State, i: nat, status: Status, pdf: Bytes, commits: bool): State
    requires i < |s.rows|
  {
    var r := s.rows[i];
    if !Rerenders(r, status) then s
    else
      var key := KeyFor(org, r.number, r.version + 1);
      var stored := s.(blobs := PutBlob(s.blobs, key, pdf));
      if !commits then stored
      else stored.(rows := s.rows[i := r.(version := r.version + 1, key := key, checksum := Sha256(pdf))])
  }

  lemma {:induction false} LatestIsThere(rows: seq<Report>, inspection: InspectionId, number: string)
    ensures var r := LatestRow(rows, inspection, number);
            && (r.Some? ==> r.value in rows && Of(r.value, inspection, number))
            && (forall q | q in rows && Of(q, inspection, number) :: r.Some? && q.version <= r.value.version)
  {
    if rows != [] {
      LatestIsThere(rows[..|rows| - 1], inspection, number);
      assert rows == rows[..|rows| - 1] + [rows[|rows| - 1]];
    }
  }

  lemma {:induction false} OthersMembers(rows: seq<Report>, inspection: InspectionId, number: string)
    ensures forall r :: r in Others(rows, inspection, number) <==> r in rows && !Of(r, inspection, number)
  {
    if rows != [] {
      OthersMembers(rows[..|rows| - 1], inspection, number);
      assert rows == rows[..|rows| - 1] + [rows[|rows| - 1]];
    }
  }

  /** The last row is the only one of its number: the first version, under a new id, or one above the highest before,
      whose id it keeps. All other rows stay. */
  ghost predicate Supersedes(org: string, s: State, after: State, inspection: InspectionId, number: string, pdf: Bytes)
  {
    && after.rows != []
    && var written := after.rows[|after.rows| - 1];
    && written.inspection == inspection && written.number == number && written.checksum == Sha256(pdf)
    && written.key == KeyFor(org, number, written.version)
    && (forall q :: q in after.rows <==>
          q == written || (q in s.rows && !(q.inspection == inspection && q.number == number)))
    && (forall q | q in s.rows && q.inspection == inspection && q.number == number :: q.version < written.version)
    && (|| (written.version == 1 && written.id == s.nextId && after.nextId == s.nextId + 1
            && forall q | q in s.rows :: q.inspection != inspection || q.number != number)
        || (after.nextId == s.nextId
            && exists q | q in s.rows :: q.inspection == inspection && q.number == number
                                         && q.version + 1 == written.version && q.id == written.id))
  }

  lemma StoringSupersedes(org: string, s: State, inspection: InspectionId, number: string, pdf: Bytes)
    ensures Supersedes(org, s, StoreVersion(org, s, inspection, number, pdf), inspection, number, pdf)
  {
    LatestIsThere(s.rows, inspection, number);
    OthersMembers(s.rows, inspection, number);
  }

  /** The official document first, then the draft beside it. */
  ghost predicate SupersedesBoth(org: string, s: State, after: State, inspection: InspectionId, info: Info, pdf: Bytes,
                                 draftPdf: Bytes)
  {
    exists official ::
      && Supersedes(org, s, official, inspection, OfficialNumber(info.number), pdf)
      && Supersedes(org, official, after, inspection, DraftOf(info), draftPdf)
  }

  lemma OfficialSupersedes(org: string, s: State, inspection: InspectionId, info: Info, pdf: Bytes, draftPdf: Bytes)
    requires info.status in {Approved, ReportGenerated}
    ensures SupersedesBoth(org, s, GenerateOfficial(org, s, inspection, info, pdf, draftPdf, Committed), inspection,
                           info, pdf, draftPdf)
  {
    var official := StoreVersion(org, s, inspection, OfficialNumber(info.number), pdf);
    StoringSupersedes(org, s, inspection, OfficialNumber(info.number), pdf);
    StoringSupersedes(org, official, inspection, DraftOf(info), draftPdf);
  }

  lemma OfficialIsNoDraft(info: Info)
    ensures OfficialNumber(info.number) != DraftOf(info)
  {
    if StartsWith(info.number, "INS-") {
      assert OfficialNumber(info.number)[0] == 'R' && DraftOf(info)[0] == 'D';
    } else {
      assert |DraftOf(info)| > |OfficialNumber(info.number)|;
    }
  }

  lemma {:induction false} OthersLatest(rows: seq<Report>, inspection: InspectionId, number: string, other: string)
    requires number != other
    ensures LatestRow(Others(rows, inspection, number), inspection, other) == LatestRow(rows, inspection, other)
  {
    if rows != [] {
      OthersLatest(rows[..|rows| - 1], inspection, number, other);
      var kept, last := Others(rows[..|rows| - 1], inspection, number), rows[|rows| - 1];
      assert (kept + [last])[..|kept|] == kept;
    }
  }

  /** Storing one number leaves the next version of another alone. */
  lemma StoringLeavesOthersVersion(org: string, s: State, inspection: InspectionId, number: string, other: string,
                                   pdf: Bytes)
    requires number != other
    ensures NextVersion(StoreVersion(org, s, inspection, number, pdf).rows, inspection, other)
            == NextVersion(s.rows, inspection, other)
  {
    var kept := Others(s.rows, inspection, number);
    var rows := StoreVersion(org, s, inspection, number, pdf).rows;
    OthersLatest(s.rows, inspection, number, other);
    assert rows[..|rows| - 1] == kept;
  }

  /** With the official document in place, it does not matter whether the draft is put before or after its row. */
  lemma DraftMayBePutFirst(org: string, s: State, inspection: InspectionId, number: string, draft: string, pdf: Bytes,
                           draftPdf: Bytes)
    requires number != draft && KeyFor(org, number, NextVersion(s.rows, inspection, number)) in s.blobs
    ensures var put := LoseVersion(org, s, inspection, draft, draftPdf);
            StoreVersion(org, StoreVersion(org, put, inspection, number, pdf), inspection, draft, draftPdf)
            == StoreVersion(org, StoreVersion(org, s, inspection, number, pdf), inspection, draft, draftPdf)
  {
    StoringLeavesOthersVersion(org, s, inspection, number, draft, pdf);
  }

  class ReportsService {
    const org: string
    const store: BlobStore
    var rows: seq<Report>
    var nextId: nat

    constructor (org: string, store: BlobStore)
      ensures this.org == org && this.store == store && rows == [] && nextId == 0
    {
      this.org, this.store, rows, nextId := org, store, [], 0;
    }

    function View(): State
      reads this, store
    {
      State(rows, store.blobs, nextId)
    }

    /** Updates the latest row of the number or creates one, and deletes every other. */
    method Upsert(inspection: InspectionId, number: string, version: nat, key: Key, checksum: Digest)
      modifies this
      ensures var existing := LatestRow(old(rows), inspection, number);
              && rows == Others(old(rows), inspection, number)
                         + [Report(if existing.None? then old(nextId) else existing.value.id,
                                   inspection, number, version, key, checksum)]
              && nextId == if existing.None? then old(nextId) + 1 else old(nextId)
    {
      var current := LatestRow(rows, inspection, number);
      var id := nextId;
      if current.Some? {
        id := current.value.id;
      } else {
        nextId := nextId + 1;
      }
      rows := Others(rows, inspection, number);
      rows := rows + [Report(id, inspection, number, version, key, checksum)];
    }

    /** Puts the document under the next version of its number, without a row yet. */
    method PutNext(inspection: InspectionId, number: string, pdf: Bytes)
      returns (version: nat, key: Key, checksum: Digest)
      modifies store
      ensures version == NextVersion(rows, inspection, number) && key == KeyFor(org, number, version)
      ensures checksum == Sha256(pdf)
      ensures store.blobs == PutBlob(old(store.blobs), key, pdf)
    {
      version := NextVersion(rows, inspection, number);
      key := KeyFor(org, number, version);
      checksum := store.Put(key, pdf);
    }

    method Draft(inspection: InspectionId, info: Info, pdf: Bytes, commits: bool)
      modifies this, store
      ensures View() == GenerateDraft(org, old(View()), inspection, info, pdf, commits)
      ensures info.status !in {Submitted, Resubmitted, UnderReview, Approved, ReportGenerated} ==>
                View() == old(View())
      ensures info.status in {Submitted, Resubmitted, UnderReview, Approved, ReportGenerated} && commits ==>
                Supersedes(org, old(View()), View(), inspection,
                           DraftNumber(info.number, if info.submissionCount == 0 then 1 else info.submissionCount), pdf)
    {
      if !DraftReady(info.status) { return; }
      var number := DraftOf(info);
      StoringSupersedes(org, View(), inspection, number, pdf);
      var version, key, checksum := PutNext(inspection, number, pdf);
      if commits {
        Upsert(inspection, number, version, key, checksum);
      }
    }

    method Official(inspection: InspectionId, info: Info, pdf: Bytes, draftPdf: Bytes, fate: Fate)
      modifies this, store
      ensures View() == GenerateOfficial(org, old(View()), inspection, info, pdf, draftPdf, fate)
      ensures info.status !in {Approved, ReportGenerated} ==> View() == old(View())
      ensures info.status in {Approved, ReportGenerated} && fate.Committed? ==>
                SupersedesBoth(org, old(View()), View(), inspection, info, pdf, draftPdf)
    {
      if !OfficialReady(info.status) { return; }
      var number := OfficialNumber(info.number);
      var version, key, checksum := PutNext(inspection, number, pdf);
      if fate.DraftNotPut? { return; }
      OfficialIsNoDraft(info);
      OfficialDraft(inspection, number, version, key, pdf, DraftOf(info), draftPdf, fate.Committed?);
      assert View() == GenerateOfficial(org, old(View()), inspection, info, pdf, draftPdf, fate);
      OfficialSupersedes(org, old(View()), inspection, info, pdf, draftPdf);
    }

    /** The second half of official generation: the draft beside it, and both rows. */
    method OfficialDraft(inspection: InspectionId, number: string, version: nat, key: Key, pdf: Bytes,
                         draftNumber: string, draftPdf: Bytes, commits: bool)
      requires number != draftNumber
      requires version == NextVersion(rows, inspection, number) && key == KeyFor(org, number, version)
      requires key in store.blobs
      modifies this, store
      ensures var official := StoreVersion(org, old(View()), inspection, number, pdf);
              View() == if commits then StoreVersion(org, official, inspection, draftNumber, draftPdf)
                        else LoseVersion(org, old(View()), inspection, draftNumber, draftPdf)
    {
      var draftVersion, draftKey, _ := PutNext(inspection, draftNumber, draftPdf);
      if commits {
        DraftMayBePutFirst(org, old(View()), inspection, number, draftNumber, pdf, draftPdf);
        StoringLeavesOthersVersion(org, View(), inspection, number, draftNumber, pdf);
        CommitRow(inspection, number, version, key, pdf);
        CommitRow(inspection, draftNumber, draftVersion, draftKey, draftPdf);
      }
    }

    /** The row of a document that has been put. */
    method CommitRow(inspection: InspectionId, number: string, version: nat, key: Key, pdf: Bytes)
      requires version == NextVersion(rows, inspection, number) && key == KeyFor(org, number, version)
      requires key in store.blobs
      modifies this
      ensures View() == StoreVersion(org, old(View()), inspection, number, pdf)
    {
      Upsert(inspection, number, version, key, Sha256(pdf));
    }

    method Download(i: nat, status: Status, pdf: Bytes, commits: bool)
      requires i < |rows|
      modifies this, store
      ensures View() == RefreshRow(org, old(View()), i, status, pdf, commits)
      ensures StartsWith(old(rows)[i].number, "DRF-") || status !in {Approved, ReportGenerated} ==>
                View() == old(View())
      ensures !StartsWith(old(rows)[i].number, "DRF-") && status in {Approved, ReportGenerated} && commits ==>
                var r := old(rows)[i];
                && rows == old(rows)[i := Report(r.id, r.inspection, r.number, r.version + 1,
                                                 KeyFor(org, r.number, r.version + 1), Sha256(pdf))]
                && nextId == old(nextId)
    {
      var r := rows[i];
      if StartsWith(r.number, "DRF-") { return; }
      if !OfficialReady(status) { return; }
      var version := r.version + 1;
      var key := KeyFor(org, r.number, version);
      var checksum := store.Put(key, pdf);
      if commits {
        rows := rows[i := Report(r.id, r.inspection, r.number, version, key, checksum)];
      }
    }
  }
}
