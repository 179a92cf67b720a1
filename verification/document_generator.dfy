/**
 * The document-generator component's logic: the ChatGPT link check, the
 * claim-period selection, the progress bar value, when the two generate
 * buttons are enabled, the request bodies it sends and the package data it
 * keeps from a successful answer. Component state and UI are not modelled;
 * the values they hold are parameters.
 */
module DocumentGenerator {
  import opened Wrappers
  import opened JsStrings
  import opened Naics
  import ClientApi
  import ChatGptScraper

  // ---------------------------------------------------------------------------
  // Link check
  // ---------------------------------------------------------------------------

  const OpenAiHost := "chat.openai.com"
  const ChatGptHost := "chatgpt.com"
  const OpenAiPrefix := "https://" + OpenAiHost + "/"
  const ChatGptPrefix := "https://" + ChatGptHost + "/"

  /** `validateChatGptLink` read as a condition: a non-empty link that starts
      with one of the two conversation URLs or mentions one of the two hosts. */
  predicate ValidChatGptLink(link: string) {
    link != "" && (StartsWith(link, OpenAiPrefix) || StartsWith(link, ChatGptPrefix)
                   || Contains(link, OpenAiHost) || Contains(link, ChatGptHost))
  }

  /** The two `startsWith` checks add nothing: a link is valid exactly when it
      mentions one of the hosts (and the empty link is never valid). */
  lemma {:induction false} ValidLinkMentionsHost(link: string)
    ensures ValidChatGptLink(link) <==> Contains(link, OpenAiHost) || Contains(link, ChatGptHost)
  {
    if StartsWith(link, OpenAiPrefix) {
      PrefixMentionsHost(link, OpenAiHost);
    }
    if StartsWith(link, ChatGptPrefix) {
      PrefixMentionsHost(link, ChatGptHost);
    }
    if Contains(link, OpenAiHost) || Contains(link, ChatGptHost) {
      assert link != "";
    }
  }

  /** A link that starts with `https://<host>/` mentions the host. */
  lemma {:induction false} PrefixMentionsHost(link: string, host: string)
    requires StartsWith(link, "https://" + host + "/")
    ensures Contains(link, host)
  {
    var prefix := "https://" + host + "/";
    ContainsInfix("https://", host, "/");
    assert prefix <= link[0..];
    ContainsAt(link, 0, prefix);
    ContainsTransitive(link, prefix, host);
  }

  // ---------------------------------------------------------------------------
  // Claim periods, progress and buttons
  // ---------------------------------------------------------------------------

  /** The value of the claim-period select: a string on autofill, otherwise
      the selected list. */
  datatype ClaimPeriodValue = Typed(text: string) | Selected(periods: seq<string>)

  /** `handleClaimPeriodChange`: a string is split on commas, a list is kept. */
  function ClaimPeriods(v: ClaimPeriodValue): (periods: seq<string>)
    ensures v.Selected? ==> periods == v.periods
    ensures v.Typed? ==> |periods| >= 1 && Join(periods, ",") == v.text
    ensures v.Typed? ==> forall k :: 0 <= k < |periods| ==> ',' !in periods[k]
  {
    match v
    case Typed(text) => JoinSplit(text, ','); Split(text, ',')
    case Selected(periods) => periods
  }

  /** Autofilling the comma-joined quarters selects exactly those quarters. */
  lemma {:induction false} TypedQuartersRoundTrip(quarters: seq<string>)
    requires |quarters| >= 1
    requires forall k :: 0 <= k < |quarters| ==> ',' !in quarters[k]
    ensures ClaimPeriods(Typed(Join(quarters, ","))) == quarters
  {
    SplitJoin(quarters, ',');
  }

  const Steps := 5

  /** The progress bar value `(processingStep * 100) / 5`, a percentage: steps
      0 to 5 fill the bar from 0 to 100 in equal parts of 20. */
  function Progress(step: nat): (percent: int)
    ensures percent * 5 == step * 100 && percent == 20 * step
    ensures step <= Steps ==> 0 <= percent <= 100
    ensures percent == 100 <==> step == Steps
  {
    step * 100 / 5
  }

  /** The protest button: not while generating, and only for a non-empty, valid
      link. */
  predicate ProtestEnabled(generating: bool, link: string) {
    !(generating || link == "" || !ValidChatGptLink(link))
  }

  /** The Form 886-A button: the protest conditions and at least one claim
      period. */
  predicate SubstantiationEnabled(generating: bool, link: string, claimPeriods: seq<string>) {
    !(generating || link == "" || !ValidChatGptLink(link) || |claimPeriods| == 0)
  }

  /** Either button is enabled exactly when nothing is generating and the link
      mentions a ChatGPT host; the 886-A button additionally needs a claim
      period. */
  lemma {:induction false} ButtonsEnabled(generating: bool, link: string, claimPeriods: seq<string>)
    ensures ProtestEnabled(generating, link) <==>
      !generating && (Contains(link, OpenAiHost) || Contains(link, ChatGptHost))
    ensures SubstantiationEnabled(generating, link, claimPeriods) <==>
      ProtestEnabled(generating, link) && |claimPeriods| > 0
  {
    ValidLinkMentionsHost(link);
  }

  /** A protest request sent from the enabled button goes to the ChatGPT
      processor, never to the plain letter endpoint. */
  lemma EnabledProtestUsesProcessor(generating: bool, link: string)
    requires ProtestEnabled(generating, link)
    ensures ClientApi.Endpoint(Some(link)) == ClientApi.ProcessorEndpoint
  {
  }

  // ---------------------------------------------------------------------------
  // Requests and answers
  // ---------------------------------------------------------------------------

  /** The component's `formData`; `None` is a missing field. */
  datatype FormData = FormData(
    businessName: Option<string>, ein: Option<string>, location: Option<string>,
    timePeriod: Option<string>, naicsCode: Option<string>, trackingId: Option<string>)

  /** The body of the protest-letter request. */
  datatype LetterRequest = LetterRequest(
    businessName: Option<string>, ein: Option<string>, location: Option<string>,
    timePeriod: Option<string>, chatGptLink: string, businessType: string, trackingId: string)

  /** The body of the Form 886-A request. */
  datatype SubstantiationRequest = SubstantiationRequest(
    businessName: Option<string>, ein: Option<string>, location: Option<string>,
    businessWebsite: string, businessType: string, naicsCode: Option<string>,
    claimPeriods: seq<string>, chatGptLink: string, additionalContext: string, trackingId: string)

  /** `letterData`: the form fields, the link, the NAICS business type and the
      tracking ID (`''` when there is none). */
  function ProtestRequest(form: FormData, link: string): (req: LetterRequest)
    ensures req.businessType == NaicsDescription(form.naicsCode) && req.businessType != ""
    ensures Truthy(form.trackingId) ==> req.trackingId == form.trackingId.value
    ensures !Truthy(form.trackingId) ==> req.trackingId == ""
  {
    DescriptionNeverEmpty(form.naicsCode);
    LetterRequest(form.businessName, form.ein, form.location, form.timePeriod, link,
                  NaicsDescription(form.naicsCode), OrElse(form.trackingId, ""))
  }

  /** `substantiationData`: the same business type and tracking ID as the
      protest request, with the website, claim periods and context. */
  function SubstantiationRequestOf(form: FormData, link: string, website: string,
                                   claimPeriods: seq<string>, context: string): (req: SubstantiationRequest)
    ensures req.businessType == ProtestRequest(form, link).businessType
    ensures req.trackingId == ProtestRequest(form, link).trackingId
    ensures req.claimPeriods == claimPeriods && req.chatGptLink == link
  {
    SubstantiationRequest(form.businessName, form.ein, form.location, website,
                          NaicsDescription(form.naicsCode), form.naicsCode, claimPeriods, link,
                          context, OrElse(form.trackingId, ""))
  }

  /** A server answer as the component reads it; `document` is the letter or
      the 886-A text. */
  datatype GeneratorResponse = GeneratorResponse(
    success: bool, document: Option<string>, pdfPath: Option<string>, zipPath: Option<string>,
    attachments: Option<seq<ChatGptScraper.Attachment>>, packageFilename: Option<string>,
    message: Option<string>)

  datatype PackageData = PackageData(
    pdfPath: Option<string>, zipPath: Option<string>,
    attachments: seq<ChatGptScraper.Attachment>, packageFilename: string)

  /** The outcome shown: the document and its package, or the error text. */
  datatype Outcome = Package(document: Option<string>, data: PackageData) | Failed(error: string)

  const ProtestPackageName := "complete_protest_package.zip"
  const SubstantiationPackageName := "erc_substantiation_package.zip"

  /** What a tab keeps from an answer: on success the document and the package
      data with `[]` for missing attachments and the tab's default package
      name; otherwise `<prefix><message or fallback>`. */
  function Shape(r: GeneratorResponse, defaultName: string, errorPrefix: string, fallback: string): (o: Outcome)
    ensures o.Package? <==> r.success
    ensures o.Package? ==> o.document == r.document && o.data.zipPath == r.zipPath
    ensures o.Package? ==> o.data.attachments == (if r.attachments.Some? then r.attachments.value else [])
    ensures o.Package? && Truthy(r.packageFilename) ==> o.data.packageFilename == r.packageFilename.value
    ensures o.Package? && !Truthy(r.packageFilename) ==> o.data.packageFilename == defaultName
    ensures o.Failed? ==> StartsWith(o.error, errorPrefix)
  {
    if r.success then
      Package(r.document, PackageData(r.pdfPath, r.zipPath, r.attachments.GetOr([]),
                                      OrElse(r.packageFilename, defaultName)))
    else Failed(errorPrefix + OrElse(r.message, fallback))
  }

  /** The protest tab's reading of an answer. */
  function ProtestOutcome(r: GeneratorResponse): (o: Outcome)
    ensures o.Package? ==> o.data.packageFilename != ""
  {
    Shape(r, ProtestPackageName, "Failed to generate protest letter: ", "Failed to generate letter")
  }

  /** The Form 886-A tab's reading of an answer. */
  function SubstantiationOutcome(r: GeneratorResponse): (o: Outcome)
    ensures o.Package? ==> o.data.packageFilename != ""
  {
    Shape(r, SubstantiationPackageName, "Failed to generate Form 886-A: ",
          "Failed to generate substantiation document")
  }

  /** Without a package name in the answer, the two tabs name their packages
      differently. */
  lemma DefaultPackageNamesDiffer(r: GeneratorResponse)
    requires r.success && !Truthy(r.packageFilename)
    ensures ProtestOutcome(r).data.packageFilename == ProtestPackageName
    ensures SubstantiationOutcome(r).data.packageFilename == SubstantiationPackageName
    ensures ProtestPackageName != SubstantiationPackageName
  {
    assert ProtestPackageName[0] != SubstantiationPackageName[0];
  }
}
