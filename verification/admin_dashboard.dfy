/**
 * The admin dashboard's list logic: the search-and-status filter, the status
 * chip colours, the "Add Tracking" rule and the local list update after a
 * tracking number is saved. The list holds the records `/submissions`
 * returns.
 */
module AdminDashboard {
  import opened Wrappers
  import opened JsStrings
  import SheetsService
  import AdminRoutes

  type Record = SheetsService.SubmissionRecord

  // ---------------------------------------------------------------------------
  // Filter
  // ---------------------------------------------------------------------------

  const AllStatuses := "all"

  /** A submission matches when the search text occurs, ignoring case, in its
      business name or its tracking ID, and the status filter is `all` or its
      status. */
  predicate Kept(s: Record, search: string, statusFilter: string) {
    && (Contains(ToLower(s.businessName), ToLower(search)) || Contains(ToLower(s.trackingId), ToLower(search)))
    && (statusFilter == AllStatuses || s.status == statusFilter)
  }

  /** `xs` is `ys` with some elements left out, in the same order. */
  predicate Subsequence<T(==)>(xs: seq<T>, ys: seq<T>)
    decreases |ys|
  {
    xs == [] || (ys != [] && if xs[0] == ys[0] then Subsequence(xs[1..], ys[1..]) else Subsequence(xs, ys[1..]))
  }

  /** `filteredSubmissions`: the matching submissions, in list order. */
  function Filtered(subs: seq<Record>, search: string, statusFilter: string): (r: seq<Record>)
    ensures Subsequence(r, subs)
    ensures forall k :: 0 <= k < |r| ==> Kept(r[k], search, statusFilter)
    ensures forall k :: 0 <= k < |subs| && Kept(subs[k], search, statusFilter) ==> subs[k] in r
  {
    if subs == [] then []
    else
      var rest := Filtered(subs[1..], search, statusFilter);
      assert forall k :: 1 <= k < |subs| ==> subs[k] == subs[1..][k - 1];
      if Kept(subs[0], search, statusFilter) then [subs[0]] + rest
      else
        assert rest != [] ==> rest[0] != subs[0];
        rest
  }

  /** The filtered list holds every matching submission as often as the list
      does, and nothing else. */
  lemma FilteredKeepsEveryMatch(subs: seq<Record>, search: string, statusFilter: string)
    ensures forall x :: multiset(Filtered(subs, search, statusFilter))[x]
                        == if Kept(x, search, statusFilter) then multiset(subs)[x] else 0
  {
    forall x {
      FilteredCount(subs, search, statusFilter, x);
    }
  }

  lemma {:induction false} FilteredCount(subs: seq<Record>, search: string, statusFilter: string, x: Record)
    ensures multiset(Filtered(subs, search, statusFilter))[x]
            == if Kept(x, search, statusFilter) then multiset(subs)[x] else 0
  {
    if subs != [] {
      FilteredCount(subs[1..], search, statusFilter, x);
      var rest := Filtered(subs[1..], search, statusFilter);
      assert subs == [subs[0]] + subs[1..];
      assert multiset(subs) == multiset{subs[0]} + multiset(subs[1..]);
      if Kept(subs[0], search, statusFilter) {
        assert multiset([subs[0]] + rest) == multiset{subs[0]} + multiset(rest);
      }
    }
  }

  /** The empty search under the `all` filter shows every submission. */
  lemma {:induction false} EmptySearchKeepsAll(subs: seq<Record>)
    ensures Filtered(subs, "", AllStatuses) == subs
  {
    if subs != [] {
      EmptySearchKeepsAll(subs[1..]);
      assert Kept(subs[0], "", AllStatuses) by {
        assert ToLower("") == "";
      }
      assert [subs[0]] + subs[1..] == subs;
    }
  }

  /** Filtering twice with the same settings changes nothing more. */
  lemma {:induction false} FilterIdempotent(subs: seq<Record>, search: string, statusFilter: string)
    ensures Filtered(Filtered(subs, search, statusFilter), search, statusFilter) == Filtered(subs, search, statusFilter)
  {
    if subs != [] {
      FilterIdempotent(subs[1..], search, statusFilter);
      var rest := Filtered(subs[1..], search, statusFilter);
      if Kept(subs[0], search, statusFilter) {
        assert ([subs[0]] + rest)[1..] == rest;
      }
    }
  }

  // ---------------------------------------------------------------------------
  // Status chips and the Add Tracking button
  // ---------------------------------------------------------------------------

  datatype ChipColor = ColorDefault | ColorInfo | ColorWarning | ColorSuccess | ColorSecondary

  const LlmPassDone := "LLM pass #1 complete"
  const LinksVerified := "Links verified"
  const PdfDone := "PDF done"

  /** `getStatusColor` */
  function StatusColor(status: string): (c: ChipColor)
    ensures c == ColorInfo <==> status == LlmPassDone
    ensures c == ColorWarning <==> status == LinksVerified
    ensures c == ColorSuccess <==> status == PdfDone
    ensures c == ColorSecondary <==> status == AdminRoutes.MailedStatus
    ensures c == ColorDefault <==> status !in {LlmPassDone, LinksVerified, PdfDone, AdminRoutes.MailedStatus}
  {
    if status == SheetsService.DefaultStatus then ColorDefault
    else if status == LlmPassDone then ColorInfo
    else if status == LinksVerified then ColorWarning
    else if status == PdfDone then ColorSuccess
    else if status == AdminRoutes.MailedStatus then ColorSecondary
    else ColorDefault
  }

  /** "Add Tracking" is enabled only for a submission whose PDF is done: a new
      submission shows the default chip and cannot be given a tracking number,
      and one that can shows the success chip. */
  function AddTrackingEnabled(s: Record): (b: bool)
    ensures s.status == SheetsService.DefaultStatus ==> StatusColor(s.status) == ColorDefault && !b
    ensures b ==> StatusColor(s.status) == ColorSuccess
  {
    s.status == PdfDone
  }

  // ---------------------------------------------------------------------------
  // The list after a saved tracking number
  // ---------------------------------------------------------------------------

  /** `submission.id`: the records of `/submissions` carry no `id` field, so it
      reads as `undefined`. */
  function IdOf(s: Record): Option<string> {
    None
  }

  /** The update of the local list after a tracking number is saved, as
      written: every entry whose `id` is the submission ID is marked `mailed`
      with the tracking number. */
  function MarkMailed(subs: seq<Record>, submissionId: string, trackingNumber: string): (r: seq<Record>)
    ensures |r| == |subs|
    ensures forall k :: 0 <= k < |subs| && IdOf(subs[k]) != Some(submissionId) ==> r[k] == subs[k]
    ensures forall k :: 0 <= k < |subs| && IdOf(subs[k]) == Some(submissionId) ==>
      r[k] == subs[k].(trackingNumber := trackingNumber, status := AdminRoutes.MailedStatus)
  {
    seq(|subs|, k requires 0 <= k < |subs| =>
      if IdOf(subs[k]) == Some(submissionId)
      then subs[k].(trackingNumber := trackingNumber, status := AdminRoutes.MailedStatus)
      else subs[k])
  }

  /** Since no record has an `id`, the update as written leaves the list as
      it was: the saved tracking number shows only after a reload. */
  lemma {:induction false} MarkMailedChangesNothing(subs: seq<Record>, submissionId: string, trackingNumber: string)
    ensures MarkMailed(subs, submissionId, trackingNumber) == subs
  {
    var r := MarkMailed(subs, submissionId, trackingNumber);
    assert forall k :: 0 <= k < |subs| ==> r[k] == subs[k];
  }

  /** The update as intended: the entries with the submission's tracking ID
      are marked `mailed` with the tracking number; the others are unchanged. */
  function MarkMailedByTrackingId(subs: seq<Record>, submissionId: string, trackingNumber: string): (r: seq<Record>)
    ensures |r| == |subs|
    ensures forall k :: 0 <= k < |subs| && subs[k].trackingId != submissionId ==> r[k] == subs[k]
    ensures forall k :: 0 <= k < |subs| && subs[k].trackingId == submissionId ==>
      r[k] == subs[k].(trackingNumber := trackingNumber, status := AdminRoutes.MailedStatus)
  {
    seq(|subs|, k requires 0 <= k < |subs| =>
      if subs[k].trackingId == submissionId
      then subs[k].(trackingNumber := trackingNumber, status := AdminRoutes.MailedStatus)
      else subs[k])
  }

  /** After the intended update, the updated entry shows the `mailed` chip and
      no longer offers "Add Tracking". */
  lemma {:induction false} MailedEntryShown(subs: seq<Record>, submissionId: string, trackingNumber: string, k: nat)
    requires k < |subs| && subs[k].trackingId == submissionId
    ensures StatusColor(MarkMailedByTrackingId(subs, submissionId, trackingNumber)[k].status) == ColorSecondary
    ensures !AddTrackingEnabled(MarkMailedByTrackingId(subs, submissionId, trackingNumber)[k])
  {
    var r := MarkMailedByTrackingId(subs, submissionId, trackingNumber);
    assert r[k].status == AdminRoutes.MailedStatus;
  }
}
