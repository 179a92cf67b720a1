/**
 * The admin routes: `/submissions` (every sheet record), `/update-tracking`
 * (the sheet row, then the local record when it can be read) and `/download`
 * (a file by path). The clock and the file system are parameters.
 */
module AdminRoutes {
  import opened Wrappers
  import opened JsStrings
  import opened SheetsService
  import opened ErcProtest

  // ---------------------------------------------------------------------------
  // /submissions
  // ---------------------------------------------------------------------------

  datatype ListReply = Listed(submissions: seq<SubmissionRecord>) | ListFailed(message: string)

  /** `/submissions`: the sheet's records, or 500 with the sheet's message. */
  method Submissions(sheet: TrackingSheet, auth: Call, check: Call, read: Call)
    returns (reply: ListReply)
    modifies sheet
    ensures sheet.rows == AfterInit(old(sheet.rows), old(sheet.initialized), auth, check)
    ensures reply.Listed? <==> (old(sheet.initialized) || auth.Ok?) && read.Ok?
    ensures reply.Listed? ==> reply.submissions == Records(sheet.rows)
    ensures reply.ListFailed? ==> StartsWith(reply.message, "Error fetching submissions: ")
  {
    var all := sheet.GetAllSubmissions(auth, check, read);
    if all.Failure? {
      return ListFailed("Error fetching submissions: " + all.error);
    }
    return Listed(all.value);
  }

  // ---------------------------------------------------------------------------
  // /update-tracking
  // ---------------------------------------------------------------------------

  /** The body of `/update-tracking`. */
  datatype TrackingRequest = TrackingRequest(
    submissionId: Option<string>, trackingNumber: Option<string>, status: Option<string>)

  const MailedStatus := "mailed"

  /** The cells `/update-tracking` asks the sheet to write: the status (`mailed`
      when none is given), the tracking number and the timestamp. */
  function TrackingCells(req: TrackingRequest, now: string): (u: Update)
    requires Truthy(req.trackingNumber)
    ensures u.status == Some(OrElse(req.status, MailedStatus)) && u.timestamp == Some(now)
    ensures u.trackingNumber == req.trackingNumber
    ensures u.protestLetterPath.None? && u.zipPath.None? && u.googleDriveLink.None?
  {
    Update(Some(OrElse(req.status, MailedStatus)), Some(now), None, None, req.trackingNumber, None)
  }

  /** `merged` is `info` with status, tracking number and timestamp set and
      every other key kept. */
  predicate TrackingMerged(merged: LocalRecord, info: LocalRecord, status: string,
                           trackingNumber: string, now: string)
  {
    && Holds(merged, "status", Str(status)) && Holds(merged, "trackingNumber", Str(trackingNumber))
    && Holds(merged, "timestamp", Str(now))
    && merged.Keys == info.Keys + {"status", "trackingNumber", "timestamp"}
    && (forall k :: k in info && k !in {"status", "trackingNumber", "timestamp"} ==>
          k in merged && merged[k] == info[k])
  }

  /** The in-place edit of the local record. */
  method MergeTracking(info: LocalRecord, status: string, trackingNumber: string, now: string)
    returns (merged: LocalRecord)
    ensures TrackingMerged(merged, info, status, trackingNumber, now)
  {
    merged := info;
    merged := merged["status" := Str(status)];
    merged := merged["trackingNumber" := Str(trackingNumber)];
    merged := merged["timestamp" := Str(now)];
  }

  datatype TrackingReply = TrackingUpdated(message: string) | TrackingFailed(code: int, message: string)

  /** `/update-tracking`: 400 without a submission ID and a tracking number,
      and nothing is written; a failed sheet update is a 500 and the local
      record is then left alone; otherwise the local record is merged when it
      can be read (a missing file is skipped) and the reply is 200. */
  method UpdateTracking(sheet: TrackingSheet, req: TrackingRequest, local: Option<LocalRecord>,
                        now: string, auth: Call, check: Call, read: Call, write: Call)
    returns (reply: TrackingReply, written: Option<LocalRecord>)
    modifies sheet
    ensures !Truthy(req.submissionId) || !Truthy(req.trackingNumber) ==>
      reply == TrackingFailed(400, "Submission ID and tracking number are required")
      && written.None? && sheet.rows == old(sheet.rows) && sheet.initialized == old(sheet.initialized)
    ensures reply.TrackingFailed? ==> written.None?
    ensures reply.TrackingFailed? && reply.code != 400 ==>
      reply.code == 500 && StartsWith(reply.message, "Error updating tracking number: ")
    ensures reply.TrackingUpdated? ==>
      && reply.message == "Tracking number updated successfully"
      && (written.Some? <==> local.Some?)
      && (local.Some? ==>
            TrackingMerged(written.value, local.value, OrElse(req.status, MailedStatus),
                           req.trackingNumber.value, now))
    ensures Truthy(req.submissionId) && Truthy(req.trackingNumber) ==>
      var before := AfterInit(old(sheet.rows), old(sheet.initialized), auth, check);
      && (reply.TrackingUpdated? <==> (old(sheet.initialized) || auth.Ok?) && read.Ok? && write.Ok?
                                      && FirstMatch(before, req.submissionId.value).Some?)
      && (reply.TrackingFailed? ==> sheet.rows == before)
    ensures reply.TrackingUpdated? ==>
      && Truthy(req.submissionId) && Truthy(req.trackingNumber)
      && var before := AfterInit(old(sheet.rows), old(sheet.initialized), auth, check);
      && FirstMatch(before, req.submissionId.value).Some?
      && sheet.rows == UpdatedRows(before, FirstMatch(before, req.submissionId.value).value,
                                   TrackingCells(req, now), now)
  {
    if !Truthy(req.submissionId) || !Truthy(req.trackingNumber) {
      return TrackingFailed(400, "Submission ID and tracking number are required"), None;
    }
    var r := sheet.UpdateSubmission(req.submissionId.value, TrackingCells(req, now), now,
                                    auth, check, read, write);
    if r.Failure? {
      return TrackingFailed(500, "Error updating tracking number: " + r.error), None;
    }
    written := None;
    if local.Some? {
      var merged := MergeTracking(local.value, OrElse(req.status, MailedStatus),
                                  req.trackingNumber.value, now);
      written := Some(merged);
    }
    reply := TrackingUpdated("Tracking number updated successfully");
  }

  /** After a tracking update of a data row, the admin list shows that row
      with the new tracking number, the status (`mailed` by default) and the
      timestamp, and every other submission as before. */
  lemma TrackingShownInList(rows: seq<seq<string>>, i: nat, req: TrackingRequest, now: string)
    requires 1 <= i < |rows| && Truthy(req.trackingNumber)
    ensures |Records(UpdatedRows(rows, i, TrackingCells(req, now), now))| == |Records(rows)|
    ensures Records(UpdatedRows(rows, i, TrackingCells(req, now), now))[i - 1]
      == Records(rows)[i - 1].(status := OrElse(req.status, MailedStatus), timestamp := now,
                               trackingNumber := req.trackingNumber.value)
    ensures forall k :: 0 <= k < |Records(rows)| && k != i - 1 ==>
      Records(UpdatedRows(rows, i, TrackingCells(req, now), now))[k] == Records(rows)[k]
  {
    UpdatedRecordReadsBack(rows, i, TrackingCells(req, now), now);
  }

  // ---------------------------------------------------------------------------
  // /download
  // ---------------------------------------------------------------------------

  datatype DownloadReply = SendFile(path: string) | DownloadFailed(code: int, message: string)

  /** `/download?path=`: 400 without a path, 404 when the file cannot be
      accessed, otherwise the file itself. `accessible` is the outcome of
      `fs.access`. */
  function Download(filePath: Option<string>, accessible: string -> bool): (r: DownloadReply)
    ensures r.SendFile? <==> Truthy(filePath) && accessible(filePath.value)
    ensures r.SendFile? ==> r.path == filePath.value
    ensures r == DownloadFailed(400, "File path is required") <==> !Truthy(filePath)
    ensures r == DownloadFailed(404, "File not found") <==> Truthy(filePath) && !accessible(filePath.value)
  {
    if !Truthy(filePath) then DownloadFailed(400, "File path is required")
    else if !accessible(filePath.value) then DownloadFailed(404, "File not found")
    else SendFile(filePath.value)
  }
}
