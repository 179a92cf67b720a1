# ERC protest tool — a Dafny model of its core

The ERC protest tool helps a business contest an IRS disallowance of its
Employee Retention Credit. A client form collects the business details and
the disallowance notices. The server stores each submission under a tracking
ID (`ERC-XXXXXXXX`) on local disk and in a Google Sheets tracking tab. A
research prompt and a ChatGPT conversation then feed the generation of a
protest letter. The ChatGPT route cleans the shared conversation, captures
every URL it cites as a PDF attachment, rewrites the URLs into
`[See Attachment i: file]` references and packages the letter, the
attachments and a README into a ZIP. Admins behind a bearer-token check can
list submissions, record a mailing tracking number and download files.

This project models that core in Dafny:

- `wrappers.dfy`: `Option` and `Result`.
- `js_strings.dfy`: the JavaScript string operations the code relies on:
  the `\s` class, `trim`, `split`/`join`, `includes`/`startsWith`, a literal
  replace-all, ASCII case mapping and the rendering of `undefined` and of
  counters.
- `urls.dfy`: the URL regular expression, the de-duplication through a `Set`,
  attachment file names and the reference text that replaces a URL.
- `scraper.dfy`: the capture loop of `extractAndDownloadUrls` as a method
  with its loop invariant, specified by a function over the unique URLs.
  It also holds the tag/whitespace fallback and the role-prefixed transcript
  of the sanitiser, the request checks of `/process-chatgpt`, and the ZIP
  entries and README text.
- `sheets.dfy`: the tracking tab as a class `TrackingSheet` whose `rows`
  field the methods reassign. It covers header repair, append (with its one
  retry), the column-A scan, the cell writes of an update and the padded
  read-back into records. Lemmas tie every write to what a later read
  returns.
- `erc_protest.dfy`, `admin_routes.dfy`, `letter_generator.dfy`, `auth.dfy`:
  the server routes and middleware. Each reply, status code and message
  follows the code's branches. The local-record edits and the sheet rows
  after each route are stated, with the conditions under which a route
  succeeds.
- `location.dfy`, `client_api.dfy`, `naics.dfy`, `prompt_generator.dfy`,
  `document_generator.dfy`, `admin_dashboard.dfy`: the client side. This is
  the city/state split, the endpoint choice, the letter template (order
  lines picked by a regular expression, numbered, with a boilerplate
  fallback), the NAICS lookup, the research prompt, the document generator's
  link check, buttons and answer handling, and the dashboard's filter,
  status chips and list update.

External services are parameters:

- The outcome of each Sheets request is a `Call` (`Ok` or `Fail(message)`).
- The completion API is a function from the prompt to its outcome.
- Page capture is a predicate on the URL.
- `fs.access` is a predicate on the path.
- The UUID and the current ISO time are strings.

## Model

| member | source | states |
|---|---|---|
| Urls.RunLength | server/routes/chatgpt-scraper.js:173 | the longest run of URL characters (no whitespace, no `)`) at the start of a text, so a match ends at a non-URL character or at the end |
| Urls.MatchLengthAt | server/routes/chatgpt-scraper.js:173 | a non-zero match at a position is a full `https?://[^\s)]+` match and cannot be extended; a zero length means no match of any length starts there |
| Urls.NoMatchWithoutScheme | server/routes/chatgpt-scraper.js:173 | a match can only start where `http://` or `https://` is followed by a URL character |
| Urls.ScanFrom | server/routes/chatgpt-scraper.js:174 | the global scan yields ordered, non-overlapping spans, each a maximal URL match, and every position where a match could start lies inside one of them |
| Urls.ExtractUrls | server/routes/chatgpt-scraper.js:173-174 | every string `letter.match(urlRegex)` returns is a URL match, and the result is non-empty exactly when the letter holds a URL |
| Urls.EveryUrlIsExtracted | server/routes/chatgpt-scraper.js:173-174 | every URL occurring in the letter starts inside the span of one of the extracted URLs |
| Urls.ExtractedUrlsAreMaximalRuns | server/routes/chatgpt-scraper.js:174 | every extracted URL occurs in the letter at its span and is followed by a non-URL character or the end |
| Urls.Dedup | server/routes/chatgpt-scraper.js:174 | `[...new Set(urls)]` has no duplicates and holds exactly the elements of the input |
| Urls.DedupKeepsFirstOccurrenceOrder | server/routes/chatgpt-scraper.js:174 | the unique URLs appear in the order of their first occurrence |
| Urls.DedupPairOrder | server/routes/chatgpt-scraper.js:174 | of any two unique URLs, the earlier one first occurs earlier in the extracted list |
| Urls.FirstIndex | server/routes/chatgpt-scraper.js:174 | the first position of an element, the key of the order a `Set` keeps |
| Urls.Stem | server/routes/chatgpt-scraper.js:190 | the file-name stem is the first 30 characters of the URL with every non-alphanumeric character replaced by `_` |
| Urls.AttachmentFilename | server/routes/chatgpt-scraper.js:190 | an attachment file name never contains a colon |
| Urls.ReferenceColons | server/routes/chatgpt-scraper.js:239 | in the reference text `[See Attachment i: file]` every colon follows a digit |
| Urls.NoOverlapWithScheme | server/routes/chatgpt-scraper.js:239 | a text whose colons all follow digits and which ends in `]` cannot overlap an `http://` or `https://` URL |
| Urls.ReferenceAvoidsUrls | server/routes/chatgpt-scraper.js:173-239 | the reference written for a captured URL cannot overlap any URL match, so it cannot create a new one |
| ChatGptScraper.UniqueUrls | server/routes/chatgpt-scraper.js:173-174 | the unique URLs of a letter are distinct URL matches, include every extracted URL, and exist exactly when the letter holds a URL |
| ChatGptScraper.ExtractAndDownloadUrls | server/routes/chatgpt-scraper.js:171-253 | the browser is launched exactly when the letter holds a URL, and the loop leaves the letter and attachment list of the capture specification |
| ChatGptScraper.CaptureEach | server/routes/chatgpt-scraper.js:188-247 | the capture loop over a non-empty URL list ends with the letter and attachments the capture specification gives for the whole list |
| ChatGptScraper.Captured | server/routes/chatgpt-scraper.js:188-247 | the URLs whose capture succeeds form a list no longer than the unique list and drawn from it |
| ChatGptScraper.AttachmentsFollowCapturedUrls | server/routes/chatgpt-scraper.js:232-236 | one attachment per successfully captured URL, in unique-URL order; a failed capture adds nothing |
| ChatGptScraper.AttachmentNamesUseUrlPosition | server/routes/chatgpt-scraper.js:190-236 | each attachment is named after its URL's position among all unique URLs, not among the captured ones, so numbers skip over failures |
| ChatGptScraper.NoCaptureKeepsLetter | server/routes/chatgpt-scraper.js:188-247 | when no capture succeeds the letter comes back unchanged with no attachment |
| ChatGptScraper.NoUrlsNoWork | server/routes/chatgpt-scraper.js:174-179 | a letter without URLs is returned unchanged, with no attachment and no capture |
| ChatGptScraper.CapturedUrlsAreReplaced | server/routes/chatgpt-scraper.js:188-239 | once a URL free of regex operators is captured, its text no longer occurs anywhere in the letter |
| ChatGptScraper.CloseIndex | server/routes/chatgpt-scraper.js:163 | the index of the first `>`, or the length when there is none |
| ChatGptScraper.StripTags | server/routes/chatgpt-scraper.js:163 | removing `<[^>]*>` tags keeps only spaces and characters of the input, and leaves a text without `<` unchanged |
| ChatGptScraper.StripTagsCons | server/routes/chatgpt-scraper.js:163 | a character other than `<` is kept in place and stripping goes on after it |
| ChatGptScraper.StripTagsReplacesTag | server/routes/chatgpt-scraper.js:163 | a tag from `<` to the first `>` after it becomes one space and stripping goes on after the `>` |
| ChatGptScraper.StripTagsWithoutClose | server/routes/chatgpt-scraper.js:163 | a text without `>` holds no tag and is kept as it is |
| ChatGptScraper.StripTagsLeavesNoTag | server/routes/chatgpt-scraper.js:163 | after tag stripping no `<` is followed anywhere by a `>` |
| ChatGptScraper.CollapseSpaces | server/routes/chatgpt-scraper.js:163 | the result is empty only for the empty input, and starts with the input's first character, or with a single space when the input starts with whitespace |
| ChatGptScraper.CollapseFixesCollapsed | server/routes/chatgpt-scraper.js:163 | collapsing leaves text without whitespace runs or non-space whitespace unchanged |
| ChatGptScraper.CollapseIdempotent | server/routes/chatgpt-scraper.js:163 | collapsing twice gives the same text as collapsing once |
| ChatGptScraper.CollapseKeepsCharacters | server/routes/chatgpt-scraper.js:163 | every character of the collapsed text is a single space or a non-whitespace character of the input |
| ChatGptScraper.CollapseCharAt | server/routes/chatgpt-scraper.js:163 | the collapsed text's character at any one position is a space or a non-whitespace character of the input |
| ChatGptScraper.CollapsedText | server/routes/chatgpt-scraper.js:163 | collapsing leaves only single spaces as whitespace |
| ChatGptScraper.CollapseKeepsNoTag | server/routes/chatgpt-scraper.js:163 | collapsing whitespace cannot create a tag |
| ChatGptScraper.TrimKeepsShape | server/routes/chatgpt-scraper.js:163 | trimming a collapsed, tag-free text leaves it clean and tag-free |
| ChatGptScraper.InfixKeepsShape | server/routes/chatgpt-scraper.js:163 | any infix of a collapsed, tag-free text is collapsed and tag-free |
| ChatGptScraper.StrippedTextIsClean | server/routes/chatgpt-scraper.js:163 | the last-resort text has no tag, no surrounding whitespace and no doubled whitespace |
| ChatGptScraper.MessageLine | server/routes/chatgpt-scraper.js:150-156 | a message element is kept exactly when its trimmed text is non-empty and its role is user or assistant, prefixed `User: ` or `ChatGPT: ` |
| ChatGptScraper.MessageLines | server/routes/chatgpt-scraper.js:147-157 | the kept lines are non-empty and no more numerous than the elements |
| ChatGptScraper.PresentIndices | server/routes/chatgpt-scraper.js:147-157 | the indices of the elements that yield a line, strictly increasing, and all of them |
| ChatGptScraper.MessageLinesAreKeptLines | server/routes/chatgpt-scraper.js:147-157 | the transcript lines are exactly the lines of the kept elements, in element order |
| ChatGptScraper.TranscriptEmptyIffNoMessage | server/routes/chatgpt-scraper.js:145-159 | the transcript is empty exactly when no element is kept, which is when the tag-stripping fallback applies |
| ChatGptScraper.NoLinesIffNoMessage | server/routes/chatgpt-scraper.js:147-157 | no transcript line is produced exactly when no message element is kept |
| ChatGptScraper.Sanitize | server/routes/chatgpt-scraper.js:120-166 | the model's reply comes back trimmed; a failed call falls back to the transcript of the message elements, or, without them, to the stripped page text, which is clean and tag-free |
| ChatGptScraper.ZipEntries | server/routes/chatgpt-scraper.js:596-618 | the ZIP holds the letter PDF first, every attachment PDF in order, and README.txt last |
| ChatGptScraper.ReadmeListsAttachments | server/routes/chatgpt-scraper.js:599-613 | the README's attachment section has one line per attachment and names every original URL |
| ChatGptScraper.ValidateProcessRequest | server/routes/chatgpt-scraper.js:414-440 | 400 without a link, then 400 without name, EIN or period; otherwise the business info keeps the fields, with `business` as the default type (lines 552-558) |
| Location.CityState | client/src/services/api.js:92-94 | the city and state are trimmed and contain no comma |
| Location.CityStateWithoutComma | client/src/services/api.js:92-94 | a location without a comma is all city, with an empty state |
| Location.CityStateOfParts | server/routes/letter-generator.js:32-34 | `city,state...` gives back the trimmed city and state |
| ClientApi.Endpoint | client/src/services/api.js:42-48 | the ChatGPT processor is called exactly when a link is given, the plain letter endpoint otherwise |
| ClientApi.KeywordLength | client/src/services/api.js:98-99 | the length of the order keyword (`executive order`, `directive`, `proclamation`, `public health order`, any case) at a position, or 0 |
| ClientApi.LineEnd | client/src/services/api.js:98-99 | the end of the line holding a position: the next line feed or the end of the text |
| ClientApi.CovidFrom | client/src/services/api.js:98-99 | a COVID word found in a range lies inside it |
| ClientApi.OrderStarts | client/src/services/api.js:98-99 | the global matches start at matching positions, at most one per line, and every position where the pattern matches lies on the line of a match found |
| ClientApi.MatchedOrders | client/src/services/api.js:98-99 | the matched order list is non-empty exactly when the pattern matches somewhere in the research text |
| ClientApi.StartsIffMatch | client/src/services/api.js:98-99 | some match start is found exactly when the pattern matches at some position |
| ClientApi.MatchedOrdersShape | client/src/services/api.js:98-99 | every matched order is one line, starts with an order keyword and names COVID or coronavirus after it; successive matches lie on different lines |
| ClientApi.MatchedOrderShape | client/src/services/api.js:98-99 | any one matched order is a single line that starts with a keyword and names COVID or coronavirus, and ends before the next match begins |
| ClientApi.MatchLineShape | client/src/services/api.js:98-99 | the line from a match position to the end of its line has no newline, starts with an order keyword and names COVID or coronavirus after it |
| ClientApi.MatchStartsWithKeyword | client/src/services/api.js:98-99 | a position where an order keyword matches never holds a newline |
| ClientApi.NumberedOrders | client/src/services/api.js:102-104 | at most the first three matches, each numbered from 1 |
| ClientApi.NumberedItem | client/src/services/api.js:103 | a numbered order line is never empty |
| ClientApi.FormatOrders | client/src/services/api.js:102-104 | the formatted list is empty exactly when nothing matched |
| ClientApi.FirstOrderIsNumberedOne | client/src/services/api.js:102-104 | the list opens with `1. ` and the first match trimmed |
| ClientApi.OnlyFirstThreeOrders | client/src/services/api.js:102 | matches after the third never reach the letter |
| ClientApi.NoOrdersGiveBoilerplate | client/src/services/api.js:127-131 | without a matching line the orders section is the boilerplate naming the city, state, business type and period |
| ClientApi.AttachmentLine | client/src/services/api.js:107-109 | a numbered attachment line starts with a digit |
| ClientApi.AttachmentsSectionFallback | client/src/services/api.js:107-109 | the fallback line is used exactly when there is no attachment; otherwise the list opens with the first numbered line |
| ClientApi.UntitledAttachmentsReadUndefined | client/src/services/api.js:108 | attachments without a title are listed as `undefined - PDF` |
| ClientApi.FormatLetter | client/src/services/api.js:81-147 | the letter is produced exactly when the location, the content and the attachment list are present; otherwise it throws |
| ClientApi.LetterStartsWithHeader | client/src/services/api.js:111-118 | a formatted letter opens with the header lines |
| ClientApi.LetterHeaderEmbedsFields | client/src/services/api.js:111-118 | the letter's first lines are the date, the EIN, the business name and the period lines of the header |
| ClientApi.HeaderLinesHaveNoLineFeed | client/src/services/api.js:111-118 | single-line fields give single-line header lines |
| ClientApi.HeaderSurvivesSplit | client/src/services/api.js:111-118 | splitting a letter on line feeds gives its header lines back |
| ClientApi.ShapeResult | client/src/services/api.js:61-77 | for a 2xx answer: on the ChatGPT path with success the result is exactly FormatLetter's letter (or its error), succeeding exactly when the location, conversation and titles are present; otherwise the server's body unchanged |
| SheetsService.WithHeaders | server/services/googleSheetsService.js:53-124 | after header repair row 1 has the 14 headers, data rows are untouched, and a table that needed no repair is unchanged |
| SheetsService.WithHeadersIdempotent | server/services/googleSheetsService.js:53-124 | repairing the header row twice equals repairing it once |
| SheetsService.SubmissionRow | server/services/googleSheetsService.js:158-175 | the appended row has the 14 cells A to N |
| SheetsService.Clip | server/services/googleSheetsService.js:348 | a read of A:N keeps at most the first 14 cells of a row |
| SheetsService.Pad | server/services/googleSheetsService.js:356 | a short row is padded with blanks to 14 cells and keeps its cells |
| SheetsService.PadRow | server/services/googleSheetsService.js:356 | the padding loop gives the padded row |
| SheetsService.Records | server/services/googleSheetsService.js:358-373 | one record per data row, in order, the header row excluded |
| SheetsService.RecordsReadCells | server/services/googleSheetsService.js:358-373 | every field of a record is the cell of its column, blank when the row is short |
| SheetsService.PaddedCell | server/services/googleSheetsService.js:358-373 | clipping a row to A:N and padding it to fourteen cells reads each cell as the row holds it, blank past its end |
| SheetsService.AppendedRowReadsBack | server/services/googleSheetsService.js:126-222 | after an append the records are the old ones followed by the submission's record, with status and timestamp defaults applied |
| SheetsService.FirstMatch | server/services/googleSheetsService.js:235-242 | the first row whose column A holds the ID; none exactly when no row does |
| SheetsService.SetCell | server/services/googleSheetsService.js:271-333 | a single-cell write sets its cell, keeps the others and pads a short row with blanks |
| SheetsService.UpdateWritesOnlyItsCells | server/services/googleSheetsService.js:271-333 | an update always writes the timestamp, writes I, K, L, M, N only for defined fields, and never touches A to H |
| SheetsService.CellAfterSet | server/services/googleSheetsService.js:271-333 | one conditional cell write changes only its own cell, blank cells fill any gap, and the row never shrinks |
| SheetsService.UpdatedCellAt | server/services/googleSheetsService.js:271-333 | every cell of the updated row, in any column, holds the written value or the old cell, and the row reaches column J |
| SheetsService.UpdatedCellsRead | server/services/googleSheetsService.js:271-333 | every cell read back from the updated row is the written value or the old cell |
| SheetsService.UpdatedRowRecord | server/services/googleSheetsService.js:271-333 | the record of the updated row is the old record with the written fields replaced |
| SheetsService.RecordOfUpdatedCells | server/services/googleSheetsService.js:271-333 | any row whose A:N cells are the updated cells reads as the updated record |
| SheetsService.UpdatedRecordReadsBack | server/services/googleSheetsService.js:224-381 | after updating data row i, a full read shows that record with its written fields replaced and every other record unchanged |
| SheetsService.RecordIsCells | server/services/googleSheetsService.js:358-373 | a data record is the record of its row's cells |
| SheetsService.RowReadsBack | server/services/googleSheetsService.js:343-381 | replacing one data row changes its record alone |
| SheetsService.RowReplacedBy | server/services/googleSheetsService.js:343-381 | a table that differs only in data row i, which reads as a given record, holds that record in place i and every other record unchanged |
| SheetsService.UpdatedRows | server/services/googleSheetsService.js:271-333 | an update rewrites the matched row with its cell writes and changes no other row |
| SheetsService.TrackingSheet.constructor | server/services/googleSheetsService.js:6-15 | a new service is not initialized and holds the existing tab |
| SheetsService.TrackingSheet.EnsureHeadersExist | server/services/googleSheetsService.js:53-124 | the tab after the header check; a failed check changes nothing |
| SheetsService.TrackingSheet.Initialize | server/services/googleSheetsService.js:17-44 | success exactly when the client is built; the service is then initialized and the headers checked; a failure rethrows its message and changes nothing |
| SheetsService.TrackingSheet.EnsureInitialized | server/services/googleSheetsService.js:46-50 | initializes only when not yet initialized and reports the same outcome |
| SheetsService.TrackingSheet.AddSubmission | server/services/googleSheetsService.js:126-222 | success exactly when initialization succeeds and the append, or one re-initialization and a second append, succeeds; the tab then gains the submission row after the header repair |
| SheetsService.TrackingSheet.FindRow | server/services/googleSheetsService.js:235-242 | the 1-based number of the first row with the ID, or -1 |
| SheetsService.TrackingSheet.UpdateSubmission | server/services/googleSheetsService.js:224-341 | success exactly when initialization, the read and the writes succeed and a row holds the ID; the first such row is rewritten and its 1-based number returned; with no matching row it fails with `Submission with tracking ID ... not found` and writes nothing |
| SheetsService.TrackingSheet.WriteCells | server/services/googleSheetsService.js:271-333 | the cell writes change the matched row as specified and nothing else |
| SheetsService.TrackingSheet.GetAllSubmissions | server/services/googleSheetsService.js:343-381 | success exactly when initialization and the read succeed, returning the records of the tab |
| Auth.BearerToken | server/middleware/auth.js:14 | the token is the text after `Bearer ` up to the next space |
| Auth.SplitPrefix | server/middleware/auth.js:14 | the first part of a space split is the longest space-free prefix |
| Auth.AuthenticateUser | server/middleware/auth.js:2-31 | 401 exactly without a `Bearer ` header, 403 exactly for a wrong token; otherwise the request continues with an admin user, who therefore also passes `adminOnly` |
| Auth.SecretPasses | server/middleware/auth.js:14-18 | the header `Bearer <secret>` passes when the secret has no space |
| Auth.AdminOnly | server/middleware/auth.js:33-42 | passes exactly when a user is set and is an admin; otherwise 403 |
| LetterGenerator.PromptEmbedsFields | server/routes/letter-generator.js:37-61 | the prompt names the business, EIN, location, quarter and business type (default `business`) after their labels and carries the research text |
| LetterGenerator.FramedJoinHoldsParts | server/routes/letter-generator.js:37-61 | each labelled field line occurs in the framed prompt |
| LetterGenerator.GenerateLetter | server/routes/letter-generator.js:13-103 | 400 exactly when a required field is missing; with them, a missing location is the 500 of `split`, and otherwise a letter comes back exactly when the completion of the prompt built from the fields succeeds, a completion failure being a 500 with the route's prefix and its message |
| ErcProtest.TrackingId | server/routes/erc-protest.js:30 | the ID is `ERC-` and the first 8 UUID characters upper-cased, 12 characters for a full UUID |
| ErcProtest.MoveFiles | server/routes/erc-protest.js:37-47 | the loop lists exactly the moved uploads, in order |
| ErcProtest.MovedAll | server/routes/erc-protest.js:37-47 | one file entry per upload, in order, with its original name, type and size and its new path under the submission directory |
| ErcProtest.NewRecord | server/routes/erc-protest.js:50-75 | the local record has exactly the twelve keys of the code, holding the tracking ID, every form field, the files, the timestamp, the default status and the Drive link |
| ErcProtest.SheetSubmission | server/routes/erc-protest.js:83-99 | the sheet receives the ID, business name, quarter, default status, timestamp, empty letter and ZIP paths and the Drive link (empty without a folder), but no EIN, location, website, NAICS code, additional information or tracking number |
| ErcProtest.SubmittedRowOmitsFields | server/routes/erc-protest.js:83-99 | the appended row holds the ID, business name, quarter, status, time and Drive link, and leaves every other column blank |
| ErcProtest.Submit | server/routes/erc-protest.js:24-113 | a file-system failure is a 500 with nothing stored; otherwise 201 with the new ID and timestamp, the stored record is the full new record with the moved files, and the sheet gets the submission row exactly when the append (or its one retry) succeeds, whatever the reply |
| ErcProtest.FindRecord | server/routes/erc-protest.js:145 | the first sheet record with the ID; none exactly when no record has it |
| ErcProtest.Status | server/routes/erc-protest.js:117-176 | 400 for an empty ID, the local record's fields when readable, else the first sheet record with the ID, found exactly when the sheet can be read and holds the ID, else 404 |
| ErcProtest.MergeStatus | server/routes/erc-protest.js:194-209 | status and timestamp are set, the paths and Drive link only when non-empty, and every other key is kept |
| ErcProtest.UpdateStatus | server/routes/erc-protest.js:179-247 | 400 without ID and status and nothing written; the local record is merged when readable; success holds exactly when the sheet is ready, readable, writable and holds the ID, and then the matched row is updated; on a 500 the sheet is as initialization left it |
| AdminRoutes.Submissions | server/routes/admin.js:9-25 | the sheet's records, or 500 with the sheet's message |
| AdminRoutes.TrackingCells | server/routes/admin.js:40-44 | the sheet update sets the status (`mailed` by default), the tracking number and the timestamp, and nothing else |
| AdminRoutes.MergeTracking | server/routes/admin.js:50-54 | the local record gets the status, tracking number and timestamp; every other key is kept |
| AdminRoutes.UpdateTracking | server/routes/admin.js:28-75 | 400 without ID and tracking number and nothing written; success holds exactly when the sheet is ready, readable, writable and holds the ID, and then updates the matched row and merges the local record; a 500 leaves the local record alone and the sheet as initialization left it |
| AdminRoutes.TrackingShownInList | server/routes/admin.js:28-75 | after a tracking update the admin list shows that submission with the new number, status and timestamp, and every other submission as before |
| AdminRoutes.Download | server/routes/admin.js:78-108 | 400 exactly without a path, 404 exactly when the file is not accessible, otherwise the file at that path |
| Naics.DescriptionAsWritten | client/src/components/ERCDocumentGenerator.js:13-31 | the twelve codes give their names; an inherited `Object.prototype` name gives an inherited member instead of `business` |
| Naics.ToStringCodeIsNotBusiness | client/src/components/ERCDocumentGenerator.js:30 | the code `toString` is not in the table, yet the lookup as written does not answer `business` |
| Naics.NaicsDescription | client/src/components/COVIDPromptGenerator.js:21-39 | the twelve codes give their business types, every other input gives `business` |
| Naics.DescriptionNeverEmpty | client/src/components/COVIDPromptGenerator.js:21-39 | the business type is never empty |
| Naics.DescriptionAgreesOffPrototype | client/src/components/ERCDocumentGenerator.js:13-31 | the intended lookup agrees with the one as written on every code that is not an inherited member name |
| PromptGenerator.ExtractCityStateAgrees | client/src/components/COVIDPromptGenerator.js:9-18 | the component's city/state split agrees with the one used by the letter template and the server |
| PromptGenerator.SplitQuarterYear | client/src/components/COVIDPromptGenerator.js:61-70 | a period that splits into two space-free parts yields them as quarter and year; otherwise both are empty |
| PromptGenerator.QuarterYearOfPeriod | client/src/components/COVIDPromptGenerator.js:61-70 | `<quarter> <year>` gives that quarter and year back |
| PromptGenerator.PromptEmbedsFields | client/src/components/COVIDPromptGenerator.js:72 | the prompt names the quoted business type with its city and state, the type with the period, and the period in the closing request |
| PromptGenerator.ClosingNamesPeriod | client/src/components/COVIDPromptGenerator.js:72 | the closing request reads `how <period> Covid Orders` |
| PromptGenerator.JoinDropsPrefix | client/src/components/COVIDPromptGenerator.js:72 | text in the later pieces of the template occurs in the whole prompt |
| PromptGenerator.GeneratePrompt | client/src/components/COVIDPromptGenerator.js:52-81 | the prompt states the NAICS business type, the city and state of the location, and the time period (`undefined` when missing) |
| PromptGenerator.OnFormData | client/src/components/COVIDPromptGenerator.js:46-50 | a prompt is generated exactly when form data with at least one field is present |
| DocumentGenerator.ValidLinkMentionsHost | client/src/components/ERCDocumentGenerator.js:234-241 | a link is valid exactly when it mentions `chat.openai.com` or `chatgpt.com`; the `startsWith` tests add nothing |
| DocumentGenerator.PrefixMentionsHost | client/src/components/ERCDocumentGenerator.js:236-239 | a link starting `https://<host>/` mentions the host |
| DocumentGenerator.ClaimPeriods | client/src/components/ERCDocumentGenerator.js:250-258 | a typed value splits on commas into comma-free parts that join back to it; a selection is kept |
| DocumentGenerator.TypedQuartersRoundTrip | client/src/components/ERCDocumentGenerator.js:250-258 | autofilling comma-joined quarters selects exactly those quarters |
| DocumentGenerator.Progress | client/src/components/ERCDocumentGenerator.js:444 | the bar value is the step as a percentage of 5 steps: steps 0 to 5 fill it from 0 to 100 in parts of 20, reaching 100 only at the last step |
| DocumentGenerator.ButtonsEnabled | client/src/components/ERCDocumentGenerator.js:322-429 | the protest button is enabled exactly when nothing is generating and the link mentions a ChatGPT host; the 886-A button also needs a claim period |
| DocumentGenerator.EnabledProtestUsesProcessor | client/src/components/ERCDocumentGenerator.js:108 | a protest request from the enabled button always goes to the ChatGPT processor |
| DocumentGenerator.ProtestRequest | client/src/components/ERCDocumentGenerator.js:86-97 | the request carries the NAICS business type, never empty, and the tracking ID or `''` |
| DocumentGenerator.SubstantiationRequestOf | client/src/components/ERCDocumentGenerator.js:156-170 | the 886-A request carries the same business type and tracking ID as the protest request, with the claim periods and link |
| DocumentGenerator.Shape | client/src/components/ERCDocumentGenerator.js:124-140 | a package exactly on success, with the document, `[]` for missing attachments and the default package name; otherwise the prefixed error |
| DocumentGenerator.ProtestOutcome | client/src/components/ERCDocumentGenerator.js:124-140 | a protest package always has a non-empty name |
| DocumentGenerator.SubstantiationOutcome | client/src/components/ERCDocumentGenerator.js:197-213 | a Form 886-A package always has a non-empty name |
| DocumentGenerator.DefaultPackageNamesDiffer | client/src/components/ERCDocumentGenerator.js:130-203 | without a name in the answer, the two tabs name their packages differently |
| AdminDashboard.Filtered | client/src/components/AdminDashboard.js:96-106 | the shown list is an ordered sub-list of the submissions that match the search (case-insensitive) and the status filter, and every matching submission is in it |
| AdminDashboard.FilteredKeepsEveryMatch | client/src/components/AdminDashboard.js:96-106 | the shown list holds each matching submission as often as the full list does, and nothing else |
| AdminDashboard.EmptySearchKeepsAll | client/src/components/AdminDashboard.js:96-106 | an empty search under `all` shows every submission |
| AdminDashboard.FilterIdempotent | client/src/components/AdminDashboard.js:96-106 | filtering twice with the same settings equals filtering once |
| AdminDashboard.StatusColor | client/src/components/AdminDashboard.js:109-124 | each workflow status has its own chip colour, and every other status the default one |
| AdminDashboard.AddTrackingEnabled | client/src/components/AdminDashboard.js:283 | a new submission has the default chip and cannot get a tracking number; one that can shows the success chip |
| AdminDashboard.MarkMailed | client/src/components/AdminDashboard.js:72-78 | the list update as written marks the entries whose `id` is the submission ID |
| AdminDashboard.MarkMailedChangesNothing | client/src/components/AdminDashboard.js:74 | since records carry no `id`, the update as written leaves the list unchanged |
| AdminDashboard.MarkMailedByTrackingId | client/src/components/AdminDashboard.js:72-78 | the intended update gives the entries with that tracking ID status `mailed` and the number, changes nothing else in them, and keeps the other entries |
| AdminDashboard.MailedEntryShown | client/src/components/AdminDashboard.js:72-78 | after the intended update the entry shows the `mailed` chip and no longer offers Add Tracking |

## Left out

- The Google Sheets transport is left out. Every request is summarised by the `Call` outcome passed in, and the `spreadsheetId` and credential fallbacks are not modelled.
- Sheets trims trailing blank cells and rows from a read. The model reads the stored cells as they are.
- The header check: one outcome (`check`) stands for every call made within one operation.
- SheetsService.TrackingSheet.UpdateSubmission: each of the five to six cell writes can fail separately in the source, leaving a partial update. The model has a single `write` outcome for all of them.
- The server calls `new Date()` several times per request. The model uses one `now` for all of them.
- `path.join` normalisation is not modelled. Paths are plain concatenation with `/`.
- Puppeteer page loading and PDF rendering, OpenAI calls, `fs` reads and writes, multer uploads, the Google Drive service and the AdmZip bytes are external. They appear only as parameters or outcomes.
- `toLowerCase` and `toUpperCase` are modelled on ASCII letters only.
- The rewrite `letter.replace(new RegExp(url, 'g'), ...)` is modelled as a literal replace-all. CapturedUrlsAreReplaced therefore requires a URL without regular-expression operators.
- ChatGptScraper.CaptureLoop: `new RegExp(url, 'g')` (server/routes/chatgpt-scraper.js:232-239) throws on a URL with an unbalanced `(` or `[`. Because the URL pattern stops at `)`, `https://en.wikipedia.org/wiki/Foo_(bar)` is extracted as `https://en.wikipedia.org/wiki/Foo_(bar`. The source has then already recorded the attachment, and its `catch` leaves that URL unreplaced in the letter. The model's loop replaces it.
- Urls.Stem: the source counts UTF-16 code units, the model Unicode scalar values. For a character outside the Basic Multilingual Plane, `replace(/[^a-zA-Z0-9]/g, '_')` writes two `_` in the source (one per surrogate) and one in the model, and `substring(0, 30)` cuts at a different place.
- Request bodies are modelled with string fields only. A JSON number or boolean in a body is not modelled, for example a numeric `trackingNumber` sent to `/update-tracking`.
- StripTags: its own contract states only where the output characters come from and that a text without `<` is kept. What becomes of each tag and of the text around it is stated by StripTagsCons, StripTagsReplacesTag and StripTagsWithoutClose.
- CollapseSpaces: its own contract states only when the result is empty and how it starts. The rest is stated by CollapseCharAt, CollapseKeepsCharacters, CollapsedText and CollapseFixesCollapsed.
- MessageLines: its own contract states only that the lines are non-empty and at most one per element. That they are the kept elements' lines in element order is stated by MessageLinesAreKeptLines.
- Filtered: its own contract states an ordered sub-list of matching submissions that holds every matching submission. That each one appears as often as in the full list is stated by FilteredKeepsEveryMatch, because the solver runs out of resource when the count is proved inside the function.
- ErcProtest.NewRecord: keys whose value is `undefined` are kept as `Undefined`. `JSON.stringify` drops them, but a later read of either form gives `undefined`.
- ClientApi.ShapeResult: `axios.post` (client/src/services/api.js:49-57) rejects every non-2xx answer, so the server's 400 and 500 bodies reach the caller as a thrown error, not as a returned body. The model has no HTTP status and returns every server body unchanged off the ChatGPT path; it covers 2xx answers only.
- JSON `null` bodies are not distinguished from missing fields.
- LetterGenerator.GenerateLetter: the city and state the route computes are unused by its prompt, as in the source. The model checks only that the split can run.
- PromptGenerator.GeneratePrompt: the quarter and year are computed but unused by the template, as in the source.
- PromptGenerator.GeneratePrompt: the business type is the corrected lookup Naics.NaicsDescription, not the as-written `naicsMap[naicsCode] || 'business'` (client/src/components/COVIDPromptGenerator.js:38). For a code naming one of the twelve `Object.prototype` members, such as `toString`, the source puts the inherited function's text into the prompt where the model writes `business`; Naics.DescriptionAsWritten and Naics.ToStringCodeIsNotBusiness record that path.
- DocumentGenerator.ProtestRequest: the business type is the corrected lookup Naics.NaicsDescription, not the as-written one (client/src/components/ERCDocumentGenerator.js:30). For a prototype-name code the source's JSON request carries the inherited function, which `JSON.stringify` drops, where the model sends `business`. DocumentGenerator.SubstantiationRequestOf uses the same corrected business type.
- React state, effects' timing, the progress delays, clipboard copying, dialogs and rendering are not modelled. Only the values the components compute are.
- `server/services/googleDriveService.js` is not part of this model, beyond the folder link it returns.
- Not part of this model: the Form 2848 generator, the protest form and letter-generator components, the static-form middleware, `forms.js`, `server.js` and `App.js`.

## Findings

| source | as written | input that shows it | evidently intended | confidence | as-written member | corrected member |
|---|---|---|---|---|---|---|
| client/src/components/ERCDocumentGenerator.js:30 | the code is looked up in an object literal, falling back to `business` only on a falsy result, and an object literal also answers inherited `Object.prototype` names | NAICS code `toString` gives a function instead of `business`; the same holds at client/src/components/COVIDPromptGenerator.js:38 | every code outside the twelve gives `business` | not executed | Naics.DescriptionAsWritten | Naics.NaicsDescription |
| client/src/components/AdminDashboard.js:74 | after saving a tracking number the list entry is matched by `submission.id === submissionId`, but the records from `/submissions` have no `id` | any saved tracking number: the list keeps the old status and number until reloaded | match on `submission.trackingId`, the ID the dialog sends | not executed | AdminDashboard.MarkMailed | AdminDashboard.MarkMailedByTrackingId |
