/**
 * The `/generate-letter` route: a presence check of the required fields, the
 * city/state split of the location, the prompt sent to the completion API,
 * and the answer built from the completion. The completion API is a function
 * parameter from the prompt to its outcome.
 */
module LetterGenerator {
  import opened Wrappers
  import opened JsStrings
  import opened Location

  /** The fields of the request body; `None` is a missing field. */
  datatype LetterRequest = LetterRequest(
    businessName: Option<string>, ein: Option<string>, location: Option<string>,
    timePeriod: Option<string>, disallowanceInfo: Option<string>, businessType: Option<string>)

  /** The outcome of the completion request: the first choice's content, or the
      error's message. */
  datatype Completion = Completed(content: string) | CompletionError(message: string)

  /** The route's answer: 200 `{success: true, letter}` or an error status with
      its message. */
  datatype Reply = Generated(letter: string) | Error(status: int, message: string)

  const MissingFields := "Missing required fields for letter generation"
  const ErrorPrefix := "Error generating protest letter: "
  /** The `TypeError` message of `location.split` on a missing location. */
  const SplitOfUndefined := "Cannot read properties of undefined " + "(reading 'split')"

  // The fixed text of the prompt around the interpolated fields.
  const Indent := "\n    "
  const Opening := "Generate a formal IRS protest letter for Employee Retention Credit (ERC) disallowance. "
    + Indent + "Use the following information:" + Indent + Indent
  const NameLabel := "Business Name: "
  const EinLabel := "EIN: "
  const LocationLabel := "Location: "
  const PeriodLabel := "Time Period (Quarter): "
  const TypeLabel := "Business Type: "
  const Research := Indent + Indent
    + "The letter should be addressed to the IRS and should formally protest the disallowance of the ERC for the specified quarter."
    + Indent + Indent
    + "Use the following COVID-19 orders research to substantiate the claim that the business was partially suspended due to government orders:"
    + Indent + Indent
  const Closing := Indent + Indent + "The protest letter should include:"
    + Indent + "1. An introduction stating disagreement with the IRS disallowance"
    + Indent + "2. A detailed timeline of relevant COVID-19 government orders active during the specified quarter"
    + Indent + "3. Explanation of how these orders impacted the business operations constituting a \"partial suspension\""
    + Indent + "4. References to IRS Notices 2021-20, 2021-23, and 2021-49 regarding ERC eligibility"
    + Indent + "5. A formal request to reconsider and reverse the disallowance"
    + Indent + "6. An attestation statement with perjury language"
    + Indent + "7. A signature line for an authorized representative"
    + Indent + Indent
    + "Format the letter formally and professionally as would be appropriate for IRS submission."

  /** The labelled field lines of the prompt, in order. */
  function Fields(businessName: string, ein: string, location: string, timePeriod: string,
                  businessType: string): seq<string> {
    [NameLabel + businessName, EinLabel + ein, LocationLabel + location,
     PeriodLabel + timePeriod, TypeLabel + businessType]
  }

  /** The user message sent for the letter. */
  function Prompt(businessName: string, ein: string, location: string, timePeriod: string,
                  businessType: Option<string>, disallowanceInfo: string): string {
    Opening + Join(Fields(businessName, ein, location, timePeriod, OrElse(businessType, "business")), Indent)
    + Research + disallowanceInfo + Closing
  }

  /** The prompt names the business, the EIN, the location, the quarter and the
      business type (`business` when none is given), each after its label, and
      carries the research text. */
  lemma {:induction false} PromptEmbedsFields(businessName: string, ein: string, location: string,
                                              timePeriod: string, businessType: Option<string>,
                                              disallowanceInfo: string)
    ensures Contains(Prompt(businessName, ein, location, timePeriod, businessType, disallowanceInfo), NameLabel + businessName)
    ensures Contains(Prompt(businessName, ein, location, timePeriod, businessType, disallowanceInfo), EinLabel + ein)
    ensures Contains(Prompt(businessName, ein, location, timePeriod, businessType, disallowanceInfo), LocationLabel + location)
    ensures Contains(Prompt(businessName, ein, location, timePeriod, businessType, disallowanceInfo), PeriodLabel + timePeriod)
    ensures Contains(Prompt(businessName, ein, location, timePeriod, businessType, disallowanceInfo), TypeLabel + OrElse(businessType, "business"))
    ensures Contains(Prompt(businessName, ein, location, timePeriod, businessType, disallowanceInfo), disallowanceInfo)
  {
    var fields := Fields(businessName, ein, location, timePeriod, OrElse(businessType, "business"));
    FramedJoinHoldsParts(Opening, fields, Indent, Research, disallowanceInfo, Closing, 0);
    FramedJoinHoldsParts(Opening, fields, Indent, Research, disallowanceInfo, Closing, 1);
    FramedJoinHoldsParts(Opening, fields, Indent, Research, disallowanceInfo, Closing, 2);
    FramedJoinHoldsParts(Opening, fields, Indent, Research, disallowanceInfo, Closing, 3);
    FramedJoinHoldsParts(Opening, fields, Indent, Research, disallowanceInfo, Closing, 4);
    ContainsInfix(Opening + Join(fields, Indent) + Research, disallowanceInfo, Closing);
  }

  /** A part of a join occurs in any text that frames the join. */
  lemma FramedJoinHoldsParts(pre: string, parts: seq<string>, sep: string,
                              a: string, b: string, c: string, k: nat)
    requires k < |parts|
    ensures Contains(pre + Join(parts, sep) + a + b + c, parts[k])
  {
    var t := parts[k];
    JoinContainsPart(parts, sep, k);
    ContainsExtendLeft(pre, Join(parts, sep), t);
    ContainsExtendRight(pre + Join(parts, sep), a, t);
    ContainsExtendRight(pre + Join(parts, sep) + a, b, t);
    ContainsExtendRight(pre + Join(parts, sep) + a + b, c, t);
  }

  /** The four fields the route checks are all present and non-empty. */
  predicate HasRequiredFields(req: LetterRequest) {
    Truthy(req.businessName) && Truthy(req.ein) && Truthy(req.timePeriod) && Truthy(req.disallowanceInfo)
  }

  /** The route: 400 unless businessName, ein, timePeriod and disallowanceInfo
      are all non-empty; a missing location then fails in `split` (500); the
      completion's content is the letter, a failed completion a 500. */
  function GenerateLetter(req: LetterRequest, complete: string -> Completion): (r: Reply)
    ensures r == Error(400, MissingFields) <==> !HasRequiredFields(req)
    ensures r.Generated? ==>
      && req.location.Some?
      && complete(Prompt(req.businessName.value, req.ein.value, req.location.value,
                         req.timePeriod.value, req.businessType, req.disallowanceInfo.value))
         == Completed(r.letter)
    ensures r.Error? && r.status == 500 ==> StartsWith(r.message, ErrorPrefix)
    ensures HasRequiredFields(req) && req.location.None? ==> r == Error(500, ErrorPrefix + SplitOfUndefined)
    ensures HasRequiredFields(req) && req.location.Some? ==>
      var outcome := complete(Prompt(req.businessName.value, req.ein.value, req.location.value,
                                     req.timePeriod.value, req.businessType, req.disallowanceInfo.value));
      && (r.Generated? <==> outcome.Completed?)
      && (outcome.CompletionError? ==> r == Error(500, ErrorPrefix + outcome.message))
  {
    if !HasRequiredFields(req) then
      Error(400, MissingFields)
    else if req.location.None? then
      Error(500, ErrorPrefix + SplitOfUndefined)
    else
      var place := CityState(req.location.value);
      match complete(Prompt(req.businessName.value, req.ein.value, req.location.value,
                            req.timePeriod.value, req.businessType, req.disallowanceInfo.value))
      case Completed(letter) => Generated(letter)
      case CompletionError(m) => Error(500, ErrorPrefix + m)
  }
}
