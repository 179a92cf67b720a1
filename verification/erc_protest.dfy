/**
 * The ERC protest routes: `/submit` (tracking ID, uploaded-file list, local
 * submission record, Drive link, sheet row), `/status/:trackingId` (local
 * record first, then the sheet) and `/update-status` (local merge, then the
 * sheet cells).
 *
 * A local `submission_info.json` is a `LocalRecord`, a map from key to JSON
 * value; a file that is absent or unreadable is `None`. The uuid, the clock,
 * the Drive folder and the file-system outcome are parameters.
 */
module ErcProtest {
  import opened Wrappers
  import opened JsStrings
  import opened SheetsService

  datatype FileInfo = FileInfo(originalName: string, path: string, mimetype: string, size: nat)

  /** The JSON values a submission record holds; `Undefined` is a field that
      was never given (and is read back as `undefined`). */
  datatype Value = Str(text: string) | FileList(files: seq<FileInfo>) | Undefined

  function Opt(v: Option<string>): Value {
    if v.Some? then Str(v.value) else Undefined
  }

  type LocalRecord = map<string, Value>

  /** The record has `key` set to `v`. */
  predicate Holds(r: LocalRecord, key: string, v: Value) {
    key in r && r[key] == v
  }

  const TrackingPrefix := "ERC-"

  // ---------------------------------------------------------------------------
  // /submit
  // ---------------------------------------------------------------------------

  /** `ERC-${uuid.substring(0, 8).toUpperCase()}` */
  function TrackingId(uuid: string): (id: string)
    ensures StartsWith(id, TrackingPrefix)
    ensures |uuid| >= 8 ==> |id| == 12
    ensures |id| - 4 <= |uuid|
    ensures forall k :: 4 <= k < |id| ==> id[k] == UpperChar(uuid[k - 4])
  {
    var head := if |uuid| <= 8 then uuid else uuid[..8];
    TrackingPrefix + ToUpper(head)
  }

  /** An uploaded file as multer reports it. */
  datatype Upload = Upload(originalName: string, mimetype: string, size: nat)

  /** The form fields of `/submit`; `None` is a missing field. */
  datatype SubmitForm = SubmitForm(
    businessName: Option<string>, ein: Option<string>, location: Option<string>,
    businessWebsite: Option<string>, naicsCode: Option<string>, timePeriod: Option<string>,
    additionalInfo: Option<string>)

  /** The entry of one upload once moved into `dir`: same name, type and
      size, path inside `dir`. */
  function Moved(dir: string, file: Upload): FileInfo {
    FileInfo(file.originalName, JoinPath(dir, file.originalName), file.mimetype, file.size)
  }

  /** The file list of a submission whose uploads were moved into `dir`. */
  function MovedAll(dir: string, files: seq<Upload>): (infos: seq<FileInfo>)
    ensures |infos| == |files|
    ensures forall k :: 0 <= k < |files| ==>
      infos[k].originalName == files[k].originalName && infos[k].path == JoinPath(dir, files[k].originalName)
      && infos[k].mimetype == files[k].mimetype && infos[k].size == files[k].size
  {
    seq(|files|, k requires 0 <= k < |files| => Moved(dir, files[k]))
  }

  /** The loop that moves each upload into the submission directory and lists
      it. */
  method MoveFiles(dir: string, files: seq<Upload>) returns (fileInfo: seq<FileInfo>)
    ensures fileInfo == MovedAll(dir, files)
  {
    fileInfo := [];
    for i := 0 to |files|
      invariant fileInfo == MovedAll(dir, files[..i])
    {
      var file := files[i];
      assert files[..i + 1] == files[..i] + [file];
      fileInfo := fileInfo + [Moved(dir, file)];
    }
    assert files[..|files|] == files;
  }

  /** `submissionInfo`; `driveLink` is the folder link when the Drive folder
      was created. */
  function NewRecord(trackingId: string, form: SubmitForm, files: seq<FileInfo>, now: string,
                     driveLink: Option<string>): (r: LocalRecord)
    ensures Holds(r, "trackingId", Str(trackingId)) && Holds(r, "status", Str(DefaultStatus))
    ensures Holds(r, "timestamp", Str(now)) && Holds(r, "files", FileList(files))
    ensures Holds(r, "businessName", Opt(form.businessName)) && Holds(r, "ein", Opt(form.ein))
    ensures Holds(r, "location", Opt(form.location)) && Holds(r, "timePeriod", Opt(form.timePeriod))
    ensures Holds(r, "googleDriveLink", Opt(driveLink))
    ensures Holds(r, "businessWebsite", Opt(form.businessWebsite)) && Holds(r, "naicsCode", Opt(form.naicsCode))
    ensures Holds(r, "additionalInfo", Opt(form.additionalInfo))
    ensures r.Keys == {"trackingId", "businessName", "ein", "location", "businessWebsite", "naicsCode",
                       "timePeriod", "additionalInfo", "files", "timestamp", "status", "googleDriveLink"}
  {
    map["trackingId" := Str(trackingId), "businessName" := Opt(form.businessName),
        "ein" := Opt(form.ein), "location" := Opt(form.location),
        "businessWebsite" := Opt(form.businessWebsite), "naicsCode" := Opt(form.naicsCode),
        "timePeriod" := Opt(form.timePeriod), "additionalInfo" := Opt(form.additionalInfo),
        "files" := FileList(files), "timestamp" := Str(now), "status" := Str(DefaultStatus),
        "googleDriveLink" := Opt(driveLink)]
  }

  /** The fields `/submit` forwards to the sheet: the ID, business name,
      quarter, default status, time, empty letter and ZIP paths and the Drive
      link (empty without a folder); no EIN, location, website, NAICS code,
      additional information or tracking number. */
  function SheetSubmission(trackingId: string, form: SubmitForm, now: string,
                           driveLink: Option<string>): (s: Submission)
    ensures s.trackingId == Some(trackingId) && s.status == Some(DefaultStatus)
    ensures s.businessName == form.businessName && s.timePeriod == form.timePeriod
    ensures s.timestamp == Some(now) && s.googleDriveLink == Some(OrElse(driveLink, ""))
    ensures s.protestLetterPath == Some("") && s.zipPath == Some("")
    ensures s.ein.None? && s.location.None? && s.businessWebsite.None?
            && s.naicsCode.None? && s.additionalInfo.None? && s.trackingNumber.None?
  {
    Submission(Some(trackingId), form.businessName, None, None, None, None, form.timePeriod, None,
               Some(DefaultStatus), Some(now), Some(""), Some(""), None,
               Some(if driveLink.Some? then driveLink.value else ""))
  }

  /** The sheet row of a submitted form holds the ID, the business name, the
      quarter, the default status, the time and the Drive link, and leaves the
      EIN, location, website, NAICS, additional-information and tracking-number
      cells blank and the letter and ZIP paths empty. */
  lemma SubmittedRowOmitsFields(trackingId: string, form: SubmitForm, now: string,
                                driveLink: Option<string>)
    ensures var row := SubmissionRow(SheetSubmission(trackingId, form, now, driveLink), now);
      && row[0] == trackingId && row[8] == DefaultStatus && row[9] == now
      && row[1] == OrElse(form.businessName, "") && row[6] == OrElse(form.timePeriod, "")
      && row[13] == OrElse(driveLink, "")
      && row[2] == "" && row[3] == "" && row[4] == "" && row[5] == "" && row[7] == ""
      && row[10] == "" && row[11] == "" && row[12] == ""
  {
  }

  datatype SubmitReply = Accepted(trackingId: string, timestamp: string) | SubmitFailed(message: string)

  function SubmitStatus(r: SubmitReply): int {
    if r.Accepted? then 201 else 500
  }

  /** `/submit`. `fsError` is the message of a failed directory, rename or
      record write (`None` when the file system cooperates); the sheet append's
      outcome never changes the reply. */
  method Submit(sheet: TrackingSheet, form: SubmitForm, files: seq<Upload>, uuid: string,
                now: string, dataDir: string, driveLink: Option<string>, fsError: Option<string>,
                auth: Call, check: Call, append: Call, retryAuth: Call, retryAppend: Call)
    returns (reply: SubmitReply, record: Option<LocalRecord>)
    modifies sheet
    ensures fsError.Some? ==>
      reply == SubmitFailed("Error processing submission: " + fsError.value)
      && record.None? && sheet.rows == old(sheet.rows)
    ensures fsError.None? ==> reply == Accepted(TrackingId(uuid), now)
    ensures fsError.None? ==>
      record == Some(NewRecord(TrackingId(uuid), form, MovedAll(JoinPath(dataDir, TrackingId(uuid)), files),
                               now, driveLink))
    ensures fsError.None? ==>
      var appended := (old(sheet.initialized) || auth.Ok?) && (append.Ok? || (retryAuth.Ok? && retryAppend.Ok?));
      sheet.rows == if appended then
                      Checked(old(sheet.rows), check) + [SubmissionRow(SheetSubmission(TrackingId(uuid), form, now, driveLink), now)]
                    else if !old(sheet.initialized) && auth.Fail? then old(sheet.rows)
                    else Checked(old(sheet.rows), check)
  {
    var trackingId := TrackingId(uuid);
    var dir := JoinPath(dataDir, trackingId);
    if fsError.Some? {
      return SubmitFailed("Error processing submission: " + fsError.value), None;
    }
    var fileInfo := MoveFiles(dir, files);
    var info := NewRecord(trackingId, form, fileInfo, now, driveLink);
    var _ := sheet.AddSubmission(SheetSubmission(trackingId, form, now, driveLink), now,
                                 auth, check, append, retryAuth, retryAppend);
    return Accepted(trackingId, now), Some(info);
  }

  // ---------------------------------------------------------------------------
  // /status/:trackingId
  // ---------------------------------------------------------------------------

  datatype StatusReply =
    | StatusFound(status: Option<string>, timestamp: Option<string>,
                  businessName: Option<string>, timePeriod: Option<string>)
    | StatusError(code: int, message: string)

  /** A string field of a local record; `undefined` when absent. */
  function Field(r: LocalRecord, key: string): Option<string> {
    if key in r && r[key].Str? then Some(r[key].text) else None
  }

  /** `submissions.find(s => s.trackingId === trackingId)` */
  function FindRecord(records: seq<SubmissionRecord>, trackingId: string): (m: Option<nat>)
    ensures m.Some? ==> m.value < |records| && records[m.value].trackingId == trackingId
    ensures m.Some? ==> forall j :: 0 <= j < m.value ==> records[j].trackingId != trackingId
    ensures m.None? ==> forall j :: 0 <= j < |records| ==> records[j].trackingId != trackingId
  {
    if records == [] then None
    else if records[0].trackingId == trackingId then Some(0)
    else
      var m := FindRecord(records[1..], trackingId);
      if m.Some? then Some(m.value + 1) else None
  }

  /** `/status/:trackingId`: 400 for an empty ID, the local record when it can
      be read, otherwise the first sheet record with the ID, otherwise 404 (a
      sheet failure included). */
  method Status(sheet: TrackingSheet, trackingId: string, local: Option<LocalRecord>,
                auth: Call, check: Call, read: Call)
    returns (reply: StatusReply)
    modifies sheet
    ensures trackingId == "" ==> reply == StatusError(400, "Tracking ID is required")
    ensures trackingId != "" && local.Some? ==>
      reply == StatusFound(Field(local.value, "status"), Field(local.value, "timestamp"),
                           Field(local.value, "businessName"), Field(local.value, "timePeriod"))
    ensures reply.StatusFound? && local.None? ==>
      reply.status.Some? && reply.timestamp.Some? && reply.businessName.Some? && reply.timePeriod.Some?
    ensures reply.StatusError? && reply.code != 400 ==> reply == StatusError(404, "Submission not found")
    ensures trackingId != "" && local.None? && reply.StatusFound? ==>
      FindRecord(Records(sheet.rows), trackingId).Some?
      && var rec := Records(sheet.rows)[FindRecord(Records(sheet.rows), trackingId).value];
      reply == StatusFound(Some(rec.status), Some(rec.timestamp), Some(rec.businessName), Some(rec.timePeriod))
    ensures local.Some? || trackingId == "" ==> sheet.rows == old(sheet.rows)
    ensures trackingId != "" && local.None? ==>
      sheet.rows == AfterInit(old(sheet.rows), old(sheet.initialized), auth, check)
    ensures trackingId != "" && local.None? ==>
      (reply.StatusFound? <==> (old(sheet.initialized) || auth.Ok?) && read.Ok?
                               && FindRecord(Records(sheet.rows), trackingId).Some?)
  {
    if trackingId == "" {
      return StatusError(400, "Tracking ID is required");
    }
    if local.Some? {
      var info := local.value;
      return StatusFound(Field(info, "status"), Field(info, "timestamp"),
                         Field(info, "businessName"), Field(info, "timePeriod"));
    }
    var all := sheet.GetAllSubmissions(auth, check, read);
    if all.Failure? {
      return StatusError(404, "Submission not found");
    }
    var m := FindRecord(all.value, trackingId);
    if m.None? {
      return StatusError(404, "Submission not found");
    }
    var rec := all.value[m.value];
    return StatusFound(Some(rec.status), Some(rec.timestamp), Some(rec.businessName), Some(rec.timePeriod));
  }

  // ---------------------------------------------------------------------------
  // /update-status
  // ---------------------------------------------------------------------------

  /** The body of `/update-status`. */
  datatype StatusUpdate = StatusUpdate(
    trackingId: Option<string>, status: Option<string>, protestLetterPath: Option<string>,
    zipPath: Option<string>, googleDriveLink: Option<string>)

  /** The keys `/update-status` sets in the local record. */
  function Touched(letterPath: Option<string>, zipPath: Option<string>, driveLink: Option<string>): set<string> {
    {"status", "timestamp"}
    + (if Truthy(letterPath) then {"protestLetterPath"} else {})
    + (if Truthy(zipPath) then {"zipPath"} else {})
    + (if Truthy(driveLink) then {"googleDriveLink"} else {})
  }

  /** `merged` is `info` with status and timestamp set, the two paths and the
      Drive link set only when the new value is non-empty, and every other key
      kept. */
  predicate StatusMerged(merged: LocalRecord, info: LocalRecord, status: string, now: string,
                         letterPath: Option<string>, zipPath: Option<string>, driveLink: Option<string>)
  {
    && Holds(merged, "status", Str(status)) && Holds(merged, "timestamp", Str(now))
    && (Truthy(letterPath) ==> Holds(merged, "protestLetterPath", Str(letterPath.value)))
    && (Truthy(zipPath) ==> Holds(merged, "zipPath", Str(zipPath.value)))
    && (Truthy(driveLink) ==> Holds(merged, "googleDriveLink", Str(driveLink.value)))
    && merged.Keys == info.Keys + Touched(letterPath, zipPath, driveLink)
    && (forall k :: k in info && k !in Touched(letterPath, zipPath, driveLink) ==>
          k in merged && merged[k] == info[k])
  }

  /** The in-place edit of the local record. */
  method MergeStatus(info: LocalRecord, status: string, now: string, letterPath: Option<string>,
                     zipPath: Option<string>, driveLink: Option<string>)
    returns (merged: LocalRecord)
    ensures StatusMerged(merged, info, status, now, letterPath, zipPath, driveLink)
  {
    merged := info;
    merged := merged["status" := Str(status)];
    merged := merged["timestamp" := Str(now)];
    if Truthy(letterPath) {
      merged := merged["protestLetterPath" := Str(letterPath.value)];
    }
    if Truthy(zipPath) {
      merged := merged["zipPath" := Str(zipPath.value)];
    }
    if Truthy(driveLink) {
      merged := merged["googleDriveLink" := Str(driveLink.value)];
    }
  }

  datatype UpdateReply = Updated(message: string) | UpdateFailed(code: int, message: string)

  /** The cells `/update-status` asks the sheet to write: status and timestamp,
      and the paths and Drive link exactly as given (an empty string too). */
  function StatusCells(body: StatusUpdate, now: string): Update
    requires body.status.Some?
  {
    Update(body.status, Some(now), body.protestLetterPath, body.zipPath, None, body.googleDriveLink)
  }

  /** `/update-status`: 400 without a tracking ID and status, and nothing is
      written; otherwise the local record (when readable) is merged and the
      sheet row is updated; the reply follows the sheet update alone. */
  method UpdateStatus(sheet: TrackingSheet, body: StatusUpdate, local: Option<LocalRecord>,
                      now: string, auth: Call, check: Call, read: Call, write: Call)
    returns (reply: UpdateReply, written: Option<LocalRecord>)
    modifies sheet
    ensures !Truthy(body.trackingId) || !Truthy(body.status) ==>
      reply == UpdateFailed(400, "Tracking ID and status are required")
      && written.None? && sheet.rows == old(sheet.rows) && sheet.initialized == old(sheet.initialized)
    ensures Truthy(body.trackingId) && Truthy(body.status) ==>
      (written.Some? <==> local.Some?)
      && (local.Some? ==> StatusMerged(written.value, local.value, body.status.value, now,
                                       body.protestLetterPath, body.zipPath, body.googleDriveLink))
    ensures Truthy(body.trackingId) && Truthy(body.status) ==>
      var before := AfterInit(old(sheet.rows), old(sheet.initialized), auth, check);
      && (reply.Updated? <==> (old(sheet.initialized) || auth.Ok?) && read.Ok? && write.Ok?
                              && FirstMatch(before, body.trackingId.value).Some?)
      && (reply.UpdateFailed? ==> reply.code == 500 && sheet.rows == before)
    ensures reply.Updated? ==> reply.message == "Status updated successfully"
    ensures reply.Updated? ==>
      && Truthy(body.trackingId) && body.status.Some?
      && var before := AfterInit(old(sheet.rows), old(sheet.initialized), auth, check);
      && FirstMatch(before, body.trackingId.value).Some?
      && sheet.rows == UpdatedRows(before, FirstMatch(before, body.trackingId.value).value,
                                   StatusCells(body, now), now)
    ensures reply.UpdateFailed? && reply.code == 500 ==> StartsWith(reply.message, "Error updating status: ")
  {
    if !Truthy(body.trackingId) || !Truthy(body.status) {
      return UpdateFailed(400, "Tracking ID and status are required"), None;
    }
    var trackingId := body.trackingId.value;
    var status := body.status.value;
    written := None;
    if local.Some? {
      var merged := MergeStatus(local.value, status, now, body.protestLetterPath, body.zipPath,
                                body.googleDriveLink);
      written := Some(merged);
    }
    var r := sheet.UpdateSubmission(trackingId, StatusCells(body, now), now, auth, check, read, write);
    if r.Failure? {
      return UpdateFailed(500, "Error updating status: " + r.error), written;
    }
    reply := Updated("Status updated successfully");
  }
}
