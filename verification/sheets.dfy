/**
 * The "ERC Tracking" tab of the tracking spreadsheet, seen as a table of rows
 * of cells (row 1 at index 0, column A at index 0), and the service object
 * that reads and writes it: header repair, appending a submission row,
 * overwriting selected cells of the row of a tracking ID, and reading every
 * data row back as a record.
 *
 * Every call to the Sheets API is represented by its outcome, a `Call`,
 * passed in by the caller.
 */
module SheetsService {
  import opened Wrappers

  /** Outcome of one request to the Sheets API (or of building the client). */
  datatype Call = Ok | Fail(message: string)

  /** Columns A to N. */
  const Columns := 14

  const Headers: seq<string> := [
    "Tracking ID", "Business Name", "EIN", "Location", "Business Website",
    "NAICS Code", "Time Period", "Additional Info", "Status", "Timestamp",
    "Protest Letter Path", "ZIP Path", "Tracking Number", "Google Drive Link"]

  const DefaultStatus := "Gathering data"

  // Column indices of the cells `updateSubmission` may write.
  const StatusColumn := 8
  const TimestampColumn := 9
  const LetterPathColumn := 10
  const ZipPathColumn := 11
  const TrackingNumberColumn := 12
  const DriveLinkColumn := 13

  // ---------------------------------------------------------------------------
  // Header row
  // ---------------------------------------------------------------------------

  /** Row 1 is missing, empty, or shorter than the 14 headers. */
  predicate NeedsHeaders(rows: seq<seq<string>>) {
    rows == [] || |rows[0]| < Columns
  }

  /** The table after a successful `ensureHeadersExist`: the 14 names are
      written to A1:N1 exactly when row 1 needs them; no other row changes. */
  function WithHeaders(rows: seq<seq<string>>): (r: seq<seq<string>>)
    ensures |r| == if rows == [] then 1 else |rows|
    ensures NeedsHeaders(rows) ==> r[0] == Headers
    ensures !NeedsHeaders(rows) ==> r == rows
    ensures forall k :: 1 <= k < |rows| ==> r[k] == rows[k]
    ensures !NeedsHeaders(r)
  {
    if rows == [] then [Headers]
    else if |rows[0]| < Columns then rows[0 := Headers]
    else rows
  }

  /** Repairing the header row twice is the same as repairing it once. */
  lemma WithHeadersIdempotent(rows: seq<seq<string>>)
    ensures WithHeaders(WithHeaders(rows)) == WithHeaders(rows)
  {
    assert !NeedsHeaders(WithHeaders(rows));
  }

  /** The table after an `ensureHeadersExist` whose requests had outcome
      `check`; a failure is swallowed and leaves the table alone. */
  function Checked(rows: seq<seq<string>>, check: Call): seq<seq<string>> {
    if check.Ok? then WithHeaders(rows) else rows
  }

  // ---------------------------------------------------------------------------
  // Rows written by addSubmission
  // ---------------------------------------------------------------------------

  /** The fields `addSubmission` destructures; `None` is `undefined`. */
  datatype Submission = Submission(
    trackingId: Option<string>, businessName: Option<string>, ein: Option<string>,
    location: Option<string>, businessWebsite: Option<string>, naicsCode: Option<string>,
    timePeriod: Option<string>, additionalInfo: Option<string>, status: Option<string>,
    timestamp: Option<string>, protestLetterPath: Option<string>, zipPath: Option<string>,
    trackingNumber: Option<string>, googleDriveLink: Option<string>)

  /** An `undefined` value in the appended row becomes an empty cell. */
  function Cell(v: Option<string>): string {
    if v.Some? then v.value else ""
  }

  /** A destructuring default: it applies only when the field is `undefined`. */
  function Default(v: Option<string>, d: string): string {
    if v.Some? then v.value else d
  }

  /** The row `addSubmission` appends; `now` is the current ISO time. */
  function SubmissionRow(s: Submission, now: string): (row: seq<string>)
    ensures |row| == Columns
  {
    [ Cell(s.trackingId), Cell(s.businessName), Cell(s.ein), Cell(s.location),
      Cell(s.businessWebsite), Cell(s.naicsCode), Cell(s.timePeriod), Cell(s.additionalInfo),
      Default(s.status, DefaultStatus), Default(s.timestamp, now),
      Default(s.protestLetterPath, ""), Default(s.zipPath, ""),
      Default(s.trackingNumber, ""), Default(s.googleDriveLink, "") ]
  }

  // ---------------------------------------------------------------------------
  // Records read by getAllSubmissions
  // ---------------------------------------------------------------------------

  datatype SubmissionRecord = SubmissionRecord(
    trackingId: string, businessName: string, ein: string, location: string,
    businessWebsite: string, naicsCode: string, timePeriod: string, additionalInfo: string,
    status: string, timestamp: string, protestLetterPath: string, zipPath: string,
    trackingNumber: string, googleDriveLink: string)

  /** The cell in column `c` of a row, blank when the row is shorter. */
  function CellAt(row: seq<string>, c: nat): string {
    if c < |row| then row[c] else ""
  }

  /** The cells of a row inside the range A:N. */
  function Clip(row: seq<string>): (r: seq<string>)
    ensures |r| <= Columns && r <= row
    ensures |row| <= Columns ==> r == row
  {
    if |row| <= Columns then row else row[..Columns]
  }

  /** `while (row.length < 14) row.push('')` as a value. */
  function Pad(row: seq<string>): (r: seq<string>)
    ensures |r| == if |row| < Columns then Columns else |row|
    ensures r[..|row|] == row
    ensures forall k :: |row| <= k < |r| ==> r[k] == ""
    decreases Columns - |row|
  {
    if |row| < Columns then Pad(row + [""]) else row
  }

  /** The record for a padded row; `row[k] || ''` is the cell itself, since an
      empty cell is already `''`. */
  function RecordOf(row: seq<string>): SubmissionRecord
    requires |row| >= Columns
  {
    SubmissionRecord(row[0], row[1], row[2], row[3], row[4], row[5], row[6], row[7],
                     row[8], row[9], row[10], row[11], row[12], row[13])
  }

  /** The records of the data rows 2, 3, ... of the table, in order. */
  function Records(rows: seq<seq<string>>): (rs: seq<SubmissionRecord>)
    ensures |rs| == if rows == [] then 0 else |rows| - 1
  {
    if |rows| <= 1 then []
    else seq(|rows| - 1, k requires 0 <= k < |rows| - 1 => RecordOf(Pad(Clip(rows[k + 1]))))
  }

  /** The `k`-th record holds the cells of row `k + 2`, with a blank for every
      cell the row does not have; cells right of column N are not read. */
  lemma RecordsReadCells(rows: seq<seq<string>>, k: nat)
    requires k + 1 < |rows|
    ensures var r := Records(rows)[k];
      && r.trackingId == CellAt(rows[k + 1], 0) && r.businessName == CellAt(rows[k + 1], 1)
      && r.ein == CellAt(rows[k + 1], 2) && r.location == CellAt(rows[k + 1], 3)
      && r.businessWebsite == CellAt(rows[k + 1], 4) && r.naicsCode == CellAt(rows[k + 1], 5)
      && r.timePeriod == CellAt(rows[k + 1], 6) && r.additionalInfo == CellAt(rows[k + 1], 7)
      && r.status == CellAt(rows[k + 1], 8) && r.timestamp == CellAt(rows[k + 1], 9)
      && r.protestLetterPath == CellAt(rows[k + 1], 10) && r.zipPath == CellAt(rows[k + 1], 11)
      && r.trackingNumber == CellAt(rows[k + 1], 12) && r.googleDriveLink == CellAt(rows[k + 1], 13)
  {
    var row := rows[k + 1];
    assert Records(rows)[k] == RecordOf(Pad(Clip(row)));
    forall c | 0 <= c < Columns ensures Pad(Clip(row))[c] == CellAt(row, c) {
      PaddedCell(row, c);
    }
  }

  /** Clipping to A:N and padding to fourteen cells reads every cell of A:N as
      the row holds it, blank past its end. */
  lemma PaddedCell(row: seq<string>, c: nat)
    requires c < Columns
    ensures Pad(Clip(row))[c] == CellAt(row, c)
  {
    var q := Clip(row);
    var p := Pad(q);
    if c < |q| {
      assert p[c] == p[..|q|][c];
    }
  }

  /** The record read back for an appended submission: the submitted fields,
      blanks for the undefined ones, and the defaults of `addSubmission`. */
  function AppendedRecord(s: Submission, now: string): SubmissionRecord {
    SubmissionRecord(
      Cell(s.trackingId), Cell(s.businessName), Cell(s.ein), Cell(s.location),
      Cell(s.businessWebsite), Cell(s.naicsCode), Cell(s.timePeriod), Cell(s.additionalInfo),
      Default(s.status, DefaultStatus), Default(s.timestamp, now),
      Cell(s.protestLetterPath), Cell(s.zipPath), Cell(s.trackingNumber), Cell(s.googleDriveLink))
  }

  /** Reading the table after an append gives the earlier records unchanged and
      the appended submission last. */
  lemma AppendedRowReadsBack(rows: seq<seq<string>>, s: Submission, now: string)
    requires rows != []
    ensures Records(rows + [SubmissionRow(s, now)]) == Records(rows) + [AppendedRecord(s, now)]
  {
    var row := SubmissionRow(s, now);
    var after := rows + [row];
    assert Pad(Clip(row)) == row;
    var lhs := Records(after);
    var rhs := Records(rows) + [AppendedRecord(s, now)];
    assert |lhs| == |rhs|;
    forall k | 0 <= k < |lhs| ensures lhs[k] == rhs[k] {
      assert after[k + 1] == if k + 1 < |rows| then rows[k + 1] else row;
    }
  }

  // ---------------------------------------------------------------------------
  // Cells written by updateSubmission
  // ---------------------------------------------------------------------------

  /** Column A of the row holds the tracking ID. A row without cells reads as
      `undefined`, which equals no ID. */
  predicate RowHasId(row: seq<string>, trackingId: string) {
    row != [] && row[0] == trackingId
  }

  /** Index of the first row (header row included) whose column A holds the ID. */
  function FirstMatch(rows: seq<seq<string>>, trackingId: string): (m: Option<nat>)
    ensures m.Some? ==> m.value < |rows| && RowHasId(rows[m.value], trackingId)
    ensures m.Some? ==> forall j :: 0 <= j < m.value ==> !RowHasId(rows[j], trackingId)
    ensures m.None? <==> forall j :: 0 <= j < |rows| ==> !RowHasId(rows[j], trackingId)
  {
    if rows == [] then None
    else if RowHasId(rows[0], trackingId) then Some(0)
    else
      var m := FirstMatch(rows[1..], trackingId);
      if m.Some? then Some(m.value + 1) else None
  }

  /** A single-cell update of column `c`: the row grows with blank cells when
      it is shorter. */
  function SetCell(row: seq<string>, c: nat, v: string): (r: seq<string>)
    ensures |r| == if c < |row| then |row| else c + 1
    ensures r[c] == v
    ensures forall k :: 0 <= k < |row| && k != c ==> r[k] == row[k]
    ensures forall k :: |row| <= k < c ==> r[k] == ""
  {
    if c < |row| then row[c := v]
    else row + seq(c - |row|, _ => "") + [v]
  }

  /** The fields `updateSubmission` destructures; `None` is `undefined`. */
  datatype Update = Update(
    status: Option<string>, timestamp: Option<string>, protestLetterPath: Option<string>,
    zipPath: Option<string>, trackingNumber: Option<string>, googleDriveLink: Option<string>)

  function SetIfDefined(row: seq<string>, c: nat, v: Option<string>): seq<string> {
    if v.Some? then SetCell(row, c, v.value) else row
  }

  /** The matched row after the writes of `updateSubmission`, in their order:
      I if status is defined, J always, then K, L, M, N if defined. */
  function UpdatedRow(row: seq<string>, u: Update, now: string): seq<string> {
    var i := SetIfDefined(row, StatusColumn, u.status);
    var j := SetCell(i, TimestampColumn, Default(u.timestamp, now));
    var k := SetIfDefined(j, LetterPathColumn, u.protestLetterPath);
    var l := SetIfDefined(k, ZipPathColumn, u.zipPath);
    var m := SetIfDefined(l, TrackingNumberColumn, u.trackingNumber);
    SetIfDefined(m, DriveLinkColumn, u.googleDriveLink)
  }

  /** What a cell of the matched row holds after the update: the new value for
      a written column, the old cell (or a blank) for any other. */
  function UpdatedCell(row: seq<string>, u: Update, now: string, c: nat): string {
    if c == StatusColumn && u.status.Some? then u.status.value
    else if c == TimestampColumn then Default(u.timestamp, now)
    else if c == LetterPathColumn && u.protestLetterPath.Some? then u.protestLetterPath.value
    else if c == ZipPathColumn && u.zipPath.Some? then u.zipPath.value
    else if c == TrackingNumberColumn && u.trackingNumber.Some? then u.trackingNumber.value
    else if c == DriveLinkColumn && u.googleDriveLink.Some? then u.googleDriveLink.value
    else CellAt(row, c)
  }

  /** One conditional write, read cell by cell: the written cell holds the new
      value, every other cell (blank past the end) keeps what it held. */
  lemma CellAfterSet(row: seq<string>, c: nat, v: Option<string>, k: nat)
    ensures CellAt(SetIfDefined(row, c, v), k) == if k == c && v.Some? then v.value else CellAt(row, k)
    ensures |SetIfDefined(row, c, v)| >= |row| && (v.Some? ==> |SetIfDefined(row, c, v)| > c)
  {
  }

  /** Each cell of the matched row after the update, in any column. */
  lemma {:induction false} UpdatedCellAt(row: seq<string>, u: Update, now: string, c: nat)
    ensures CellAt(UpdatedRow(row, u, now), c) == UpdatedCell(row, u, now, c)
    ensures |UpdatedRow(row, u, now)| >= TimestampColumn + 1
    ensures |UpdatedRow(row, u, now)| >= |row|
  {
    var i := SetIfDefined(row, StatusColumn, u.status);
    var j := SetIfDefined(i, TimestampColumn, Some(Default(u.timestamp, now)));
    var k := SetIfDefined(j, LetterPathColumn, u.protestLetterPath);
    var l := SetIfDefined(k, ZipPathColumn, u.zipPath);
    var m := SetIfDefined(l, TrackingNumberColumn, u.trackingNumber);
    var n := SetIfDefined(m, DriveLinkColumn, u.googleDriveLink);
    assert n == UpdatedRow(row, u, now);
    CellAfterSet(row, StatusColumn, u.status, c);
    CellAfterSet(i, TimestampColumn, Some(Default(u.timestamp, now)), c);
    CellAfterSet(j, LetterPathColumn, u.protestLetterPath, c);
    CellAfterSet(k, ZipPathColumn, u.zipPath, c);
    CellAfterSet(l, TrackingNumberColumn, u.trackingNumber, c);
    CellAfterSet(m, DriveLinkColumn, u.googleDriveLink, c);
  }

  /** The timestamp cell J is always written; I, K, L, M, N only for defined
      fields; columns A to H and every cell right of N keep their values. */
  lemma UpdateWritesOnlyItsCells(row: seq<string>, u: Update, now: string)
    ensures |UpdatedRow(row, u, now)| >= TimestampColumn + 1
    ensures |UpdatedRow(row, u, now)| >= |row|
    ensures forall c :: 0 <= c < |UpdatedRow(row, u, now)| ==>
      UpdatedRow(row, u, now)[c] == UpdatedCell(row, u, now, c)
    ensures forall c :: 0 <= c < |row| && c < StatusColumn ==> UpdatedRow(row, u, now)[c] == row[c]
  {
    var n := UpdatedRow(row, u, now);
    UpdatedCellAt(row, u, now, 0);
    forall c | 0 <= c < |n| ensures n[c] == UpdatedCell(row, u, now, c) {
      UpdatedCellAt(row, u, now, c);
    }
    forall c | 0 <= c < |row| && c < StatusColumn ensures n[c] == row[c] {
      UpdatedCellAt(row, u, now, c);
    }
  }

  /** Every cell of A:N of the matched row, read after the update. */
  lemma UpdatedCellsRead(row: seq<string>, u: Update, now: string)
    ensures forall c :: 0 <= c < Columns ==> CellAt(UpdatedRow(row, u, now), c) == UpdatedCell(row, u, now, c)
  {
    forall c | 0 <= c < Columns ensures CellAt(UpdatedRow(row, u, now), c) == UpdatedCell(row, u, now, c) {
      UpdatedCellAt(row, u, now, c);
    }
  }

  /** The record of the matched row after the update. */
  lemma UpdatedRowRecord(row: seq<string>, u: Update, now: string)
    ensures CellsRecord(UpdatedRow(row, u, now)) == UpdatedRecord(CellsRecord(row), u, now)
  {
    UpdatedCellsRead(row, u, now);
    RecordOfUpdatedCells(UpdatedRow(row, u, now), row, u, now);
  }

  /** A row whose cells in A:N are the updated cells reads as the updated
      record. */
  lemma RecordOfUpdatedCells(r: seq<string>, row: seq<string>, u: Update, now: string)
    requires forall c :: 0 <= c < Columns ==> CellAt(r, c) == UpdatedCell(row, u, now, c)
    ensures CellsRecord(r) == UpdatedRecord(CellsRecord(row), u, now)
  {
    assert CellAt(r, 0) == UpdatedCell(row, u, now, 0);
    assert CellAt(r, 1) == UpdatedCell(row, u, now, 1);
    assert CellAt(r, 2) == UpdatedCell(row, u, now, 2);
    assert CellAt(r, 3) == UpdatedCell(row, u, now, 3);
    assert CellAt(r, 4) == UpdatedCell(row, u, now, 4);
    assert CellAt(r, 5) == UpdatedCell(row, u, now, 5);
    assert CellAt(r, 6) == UpdatedCell(row, u, now, 6);
    assert CellAt(r, 7) == UpdatedCell(row, u, now, 7);
    assert CellAt(r, 8) == UpdatedCell(row, u, now, 8);
    assert CellAt(r, 9) == UpdatedCell(row, u, now, 9);
    assert CellAt(r, 10) == UpdatedCell(row, u, now, 10);
    assert CellAt(r, 11) == UpdatedCell(row, u, now, 11);
    assert CellAt(r, 12) == UpdatedCell(row, u, now, 12);
    assert CellAt(r, 13) == UpdatedCell(row, u, now, 13);
  }

  /** The record of a row after `updateSubmission`: the written fields take
      their new values, every other field keeps the old one. */
  function UpdatedRecord(rec: SubmissionRecord, u: Update, now: string): SubmissionRecord {
    rec.(status := u.status.GetOr(rec.status),
         timestamp := Default(u.timestamp, now),
         protestLetterPath := u.protestLetterPath.GetOr(rec.protestLetterPath),
         zipPath := u.zipPath.GetOr(rec.zipPath),
         trackingNumber := u.trackingNumber.GetOr(rec.trackingNumber),
         googleDriveLink := u.googleDriveLink.GetOr(rec.googleDriveLink))
  }

  /** The record of a single row, cell by cell. */
  function CellsRecord(row: seq<string>): SubmissionRecord {
    SubmissionRecord(CellAt(row, 0), CellAt(row, 1), CellAt(row, 2), CellAt(row, 3),
                     CellAt(row, 4), CellAt(row, 5), CellAt(row, 6), CellAt(row, 7),
                     CellAt(row, 8), CellAt(row, 9), CellAt(row, 10), CellAt(row, 11),
                     CellAt(row, 12), CellAt(row, 13))
  }

  /** Reading the table back after an update of data row `i` gives the old
      record of that row with the update applied, and every other record
      unchanged. */
  lemma {:induction false} UpdatedRecordReadsBack(rows: seq<seq<string>>, i: nat, u: Update, now: string)
    requires 1 <= i < |rows|
    ensures |Records(UpdatedRows(rows, i, u, now))| == |Records(rows)|
    ensures Records(UpdatedRows(rows, i, u, now))[i - 1] == UpdatedRecord(Records(rows)[i - 1], u, now)
    ensures forall k :: 0 <= k < |Records(rows)| && k != i - 1 ==>
      Records(UpdatedRows(rows, i, u, now))[k] == Records(rows)[k]
  {
    RecordIsCells(rows, i - 1);
    UpdatedRowRecord(rows[i], u, now);
    RowReplacedBy(rows, UpdatedRows(rows, i, u, now), i, UpdatedRecord(Records(rows)[i - 1], u, now));
  }

  /** A table that differs from `rows` only in data row `i`, which reads as
      `rec`, has `rec` in place `i - 1` and every other record unchanged. */
  lemma RowReplacedBy(rows: seq<seq<string>>, updated: seq<seq<string>>, i: nat, rec: SubmissionRecord)
    requires 1 <= i < |rows| && |updated| == |rows| && CellsRecord(updated[i]) == rec
    requires forall k :: 0 <= k < |rows| && k != i ==> updated[k] == rows[k]
    ensures |Records(updated)| == |Records(rows)|
    ensures Records(updated)[i - 1] == rec
    ensures forall k :: 0 <= k < |Records(rows)| && k != i - 1 ==> Records(updated)[k] == Records(rows)[k]
  {
    assert updated == rows[i := updated[i]];
    RowReadsBack(rows, i, updated[i]);
  }

  /** A data record is the record of its row's cells. */
  lemma RecordIsCells(rows: seq<seq<string>>, k: nat)
    requires k + 1 < |rows|
    ensures Records(rows)[k] == CellsRecord(rows[k + 1])
  {
    RecordsReadCells(rows, k);
  }

  /** Replacing data row `i` changes its record alone. */
  lemma RowReadsBack(rows: seq<seq<string>>, i: nat, row: seq<string>)
    requires 1 <= i < |rows|
    ensures |Records(rows[i := row])| == |Records(rows)|
    ensures Records(rows[i := row])[i - 1] == CellsRecord(row)
    ensures forall k :: 0 <= k < |Records(rows)| && k != i - 1 ==> Records(rows[i := row])[k] == Records(rows)[k]
  {
    RecordIsCells(rows[i := row], i - 1);
  }

  /** The table after the writes to the row with index `i`; every other row is
      unchanged. */
  function UpdatedRows(rows: seq<seq<string>>, i: nat, u: Update, now: string): (r: seq<seq<string>>)
    requires i < |rows|
    ensures |r| == |rows| && r[i] == UpdatedRow(rows[i], u, now)
    ensures forall k :: 0 <= k < |rows| && k != i ==> r[k] == rows[k]
  {
    rows[i := UpdatedRow(rows[i], u, now)]
  }

  /** The table once `ensureInitialized` has run: unchanged when the service
      was already initialized or building the client failed. */
  function AfterInit(rows: seq<seq<string>>, wasInitialized: bool, auth: Call, check: Call): seq<seq<string>> {
    if wasInitialized || auth.Fail? then rows else Checked(rows, check)
  }

  // ---------------------------------------------------------------------------
  // The service object
  // ---------------------------------------------------------------------------

  class TrackingSheet {
    /** The cells of the tab, row by row. */
    var rows: seq<seq<string>>
    /** Set once the API client has been built. */
    var initialized: bool

    constructor(existing: seq<seq<string>>)
      ensures rows == existing && !initialized
    {
      rows := existing;
      initialized := false;
    }

    /** Reads A1:N1 and writes the 14 headers when row 1 is missing or short;
        an API failure is logged and swallowed. */
    method EnsureHeadersExist(check: Call)
      modifies this
      ensures rows == Checked(old(rows), check)
      ensures initialized == old(initialized)
    {
      if check.Fail? {
        return;
      }
      if rows == [] || rows[0] == [] {
        rows := if rows == [] then [Headers] else rows[0 := Headers];
      } else if |rows[0]| < Columns {
        rows := rows[0 := Headers];
      }
    }

    /** Builds the client (outcome `auth`), marks the service initialized and
        repairs the header row. A client failure is rethrown. */
    method Initialize(auth: Call, check: Call) returns (r: Result<(), string>)
      modifies this
      ensures r.Success? <==> auth.Ok?
      ensures auth.Fail? ==> r == Failure(auth.message)
      ensures auth.Ok? ==> initialized && rows == Checked(old(rows), check)
      ensures auth.Fail? ==> initialized == old(initialized) && rows == old(rows)
    {
      if auth.Fail? {
        return Failure(auth.message);
      }
      initialized := true;
      EnsureHeadersExist(check);
      return Success(());
    }

    /** Initializes only when not yet initialized. */
    method EnsureInitialized(auth: Call, check: Call) returns (r: Result<(), string>)
      modifies this
      ensures r.Success? <==> old(initialized) || auth.Ok?
      ensures r.Failure? ==> r.error == auth.message && rows == old(rows) && !initialized
      ensures r.Success? ==> initialized
      ensures rows == AfterInit(old(rows), old(initialized), auth, check)
    {
      if !initialized {
        r := Initialize(auth, check);
      } else {
        r := Success(());
      }
    }

    /** `addSubmission`: header repair, then one append of the 14-cell row; when
        the append fails, one re-initialization and one more append, whose
        failure is thrown. `check` is the outcome of every header repair in the
        call. */
    method AddSubmission(s: Submission, now: string, auth: Call, check: Call,
                         append: Call, retryAuth: Call, retryAppend: Call)
      returns (r: Result<(), string>)
      modifies this
      ensures r.Success? <==>
        (old(initialized) || auth.Ok?) && (append.Ok? || (retryAuth.Ok? && retryAppend.Ok?))
      ensures r.Success? ==> rows == Checked(old(rows), check) + [SubmissionRow(s, now)]
      ensures r.Failure? ==>
        rows == if !old(initialized) && auth.Fail? then old(rows) else Checked(old(rows), check)
      ensures r.Failure? && !old(initialized) && auth.Fail? ==> r.error == auth.message
    {
      var ready := EnsureInitialized(auth, check);
      if ready.Failure? {
        return ready;
      }
      EnsureHeadersExist(check);
      WithHeadersIdempotent(old(rows));
      var row := SubmissionRow(s, now);
      if append.Ok? {
        rows := rows + [row];
        return Success(());
      }
      var again := Initialize(retryAuth, check);
      if again.Failure? {
        return again;
      }
      if retryAppend.Fail? {
        return Failure(retryAppend.message);
      }
      rows := rows + [row];
      return Success(());
    }

    /** The scan of column A: the 1-based number of the first row holding the
        ID, or -1. */
    method FindRow(trackingId: string) returns (rowIndex: int)
      ensures FirstMatch(rows, trackingId).None? ==> rowIndex == -1
      ensures FirstMatch(rows, trackingId).Some? ==> rowIndex == FirstMatch(rows, trackingId).value + 1
    {
      rowIndex := -1;
      var i := 0;
      while i < |rows|
        invariant 0 <= i <= |rows|
        invariant forall j :: 0 <= j < i ==> !RowHasId(rows[j], trackingId)
      {
        if |rows[i]| > 0 && rows[i][0] == trackingId {
          rowIndex := i + 1;
          break;
        }
        i := i + 1;
      }
    }

    /** `updateSubmission`: finds the row, throws when there is none, then
        writes I (if status is defined), J, K, L, M, N (if defined) of that
        row. `read` is the outcome of reading column A, `write` of every cell
        write. */
    method UpdateSubmission(trackingId: string, u: Update, now: string,
                            auth: Call, check: Call, read: Call, write: Call)
      returns (r: Result<nat, string>)
      modifies this
      ensures r.Success? <==> (old(initialized) || auth.Ok?) && read.Ok? && write.Ok?
                              && FirstMatch(AfterInit(old(rows), old(initialized), auth, check), trackingId).Some?
      ensures r.Success? ==>
        r.value == FirstMatch(AfterInit(old(rows), old(initialized), auth, check), trackingId).value + 1
      ensures r.Success? ==>
        rows == UpdatedRows(AfterInit(old(rows), old(initialized), auth, check), r.value - 1, u, now)
      ensures r.Failure? ==> rows == AfterInit(old(rows), old(initialized), auth, check)
      ensures (old(initialized) || auth.Ok?) && read.Ok?
              && FirstMatch(AfterInit(old(rows), old(initialized), auth, check), trackingId).None? ==>
        r == Failure("Submission with tracking ID " + trackingId + " not found")
    {
      var ready := EnsureInitialized(auth, check);
      if ready.Failure? {
        return Failure(ready.error);
      }
      if read.Fail? {
        return Failure(read.message);
      }
      var rowIndex := FindRow(trackingId);
      if rowIndex == -1 {
        return Failure("Submission with tracking ID " + trackingId + " not found");
      }
      if write.Fail? {
        return Failure(write.message);
      }
      WriteCells(rowIndex - 1, u, now);
      return Success(rowIndex);
    }

    /** The cell writes of `updateSubmission` to the row with index `i`. */
    method WriteCells(i: nat, u: Update, now: string)
      requires i < |rows|
      modifies this
      ensures rows == UpdatedRows(old(rows), i, u, now)
      ensures initialized == old(initialized)
    {
      if u.status.Some? {
        rows := rows[i := SetCell(rows[i], StatusColumn, u.status.value)];
      }
      rows := rows[i := SetCell(rows[i], TimestampColumn, Default(u.timestamp, now))];
      if u.protestLetterPath.Some? {
        rows := rows[i := SetCell(rows[i], LetterPathColumn, u.protestLetterPath.value)];
      }
      if u.zipPath.Some? {
        rows := rows[i := SetCell(rows[i], ZipPathColumn, u.zipPath.value)];
      }
      if u.trackingNumber.Some? {
        rows := rows[i := SetCell(rows[i], TrackingNumberColumn, u.trackingNumber.value)];
      }
      if u.googleDriveLink.Some? {
        rows := rows[i := SetCell(rows[i], DriveLinkColumn, u.googleDriveLink.value)];
      }
    }

    /** `getAllSubmissions`: reads A2:N and maps every row, padded to 14 cells,
        to a record. */
    method GetAllSubmissions(auth: Call, check: Call, read: Call)
      returns (r: Result<seq<SubmissionRecord>, string>)
      modifies this
      ensures initialized == (old(initialized) || auth.Ok?)
      ensures rows == AfterInit(old(rows), old(initialized), auth, check)
      ensures r.Success? <==> (old(initialized) || auth.Ok?) && read.Ok?
      ensures r.Success? ==> r.value == Records(rows)
    {
      var ready := EnsureInitialized(auth, check);
      if ready.Failure? {
        return Failure(ready.error);
      }
      if read.Fail? {
        return Failure(read.message);
      }
      var table := rows;
      var data := if |table| <= 1 then [] else table[1..];
      var submissions: seq<SubmissionRecord> := [];
      for k := 0 to |data|
        invariant submissions == Records(table)[..k]
        invariant initialized && rows == table
      {
        var row := PadRow(Clip(data[k]));
        submissions := submissions + [RecordOf(row)];
      }
      assert Records(table)[..|data|] == Records(table);
      return Success(submissions);
    }
  }

  /** The padding loop of `getAllSubmissions`. */
  method PadRow(row: seq<string>) returns (padded: seq<string>)
    ensures padded == Pad(row)
    ensures |padded| >= Columns
  {
    padded := row;
    while |padded| < Columns
      invariant Pad(padded) == Pad(row)
      invariant |row| <= |padded|
      decreases Columns - |padded|
    {
      padded := padded + [""];
    }
  }
}
