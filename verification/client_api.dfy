/**
 * The client's letter request: the endpoint choice, the shaping of the server's
 * answer, and the letter template filled from the processed ChatGPT
 * conversation (government-order lines picked out by a regular expression,
 * numbered, with a boilerplate fallback, and an attachment list).
 */
module ClientApi {
  import opened Wrappers
  import opened JsStrings
  import opened Location

  // ---------------------------------------------------------------------------
  // Endpoint choice
  // ---------------------------------------------------------------------------

  const LetterEndpoint := "/api/erc-protest/letter/generate-letter"
  const ProcessorEndpoint := "/api/erc-protest/chatgpt/process-chatgpt"

  /** The ChatGPT processor is used exactly when a link is given. */
  function Endpoint(chatGptLink: Option<string>): (url: string)
    ensures url == ProcessorEndpoint <==> Truthy(chatGptLink)
    ensures url == LetterEndpoint <==> !Truthy(chatGptLink)
  {
    if Truthy(chatGptLink) then ProcessorEndpoint else LetterEndpoint
  }

  // ---------------------------------------------------------------------------
  // Government-order lines:
  //   /(Executive Order|Directive|Proclamation|Public Health Order)[^\n]+(COVID|coronavirus)[^\n]+/gi
  // ---------------------------------------------------------------------------

  /** `s[i..]` starts with the lower-case word `w`, ignoring ASCII case. */
  predicate CiPrefixAt(s: string, i: nat, w: string)
    requires i <= |s|
  {
    |w| <= |s| - i && forall k :: 0 <= k < |w| ==> LowerChar(s[i + k]) == w[k]
  }

  /** Length of the order keyword at `i`, 0 when there is none. At most one of
      the four alternatives can match at a given position. */
  function KeywordLength(s: string, i: nat): (n: nat)
    requires i <= |s|
    ensures n in {0, 9, 12, 15, 19}
    ensures n > 0 ==> i + n <= |s|
  {
    if CiPrefixAt(s, i, "executive order") then 15
    else if CiPrefixAt(s, i, "directive") then 9
    else if CiPrefixAt(s, i, "proclamation") then 12
    else if CiPrefixAt(s, i, "public health order") then 19
    else 0
  }

  /** End of the line holding index `i`: the next line feed, or the end. */
  function LineEnd(s: string, i: nat): (e: nat)
    requires i <= |s|
    ensures i <= e <= |s|
    ensures e == |s| || s[e] == '\n'
    ensures forall k :: i <= k < e ==> s[k] != '\n'
    decreases |s| - i
  {
    if i == |s| || s[i] == '\n' then i else LineEnd(s, i + 1)
  }

  /** `COVID` or `coronavirus` (any case) at `c`, with at least one more
      character before the line end `e`. */
  predicate CovidAt(s: string, c: nat, e: nat)
    requires c <= e <= |s|
  {
    || (CiPrefixAt(s, c, "covid") && c + 5 < e)
    || (CiPrefixAt(s, c, "coronavirus") && c + 11 < e)
  }

  /** Some position in `[c, e)` holds a COVID word as `CovidAt` describes. */
  function CovidFrom(s: string, c: nat, e: nat): (found: bool)
    requires e <= |s|
    ensures found ==> c < e
    decreases e - c
  {
    if c >= e then false else CovidAt(s, c, e) || CovidFrom(s, c + 1, e)
  }

  /** The pattern matches at `p`: a keyword, at least one character, a COVID
      word, at least one more character, all on the line of `p`. By greed the
      match then runs to the end of that line. */
  predicate OrderMatchAt(s: string, p: nat)
    requires p <= |s|
  {
    var n := KeywordLength(s, p);
    n > 0 && CovidFrom(s, p + n + 1, LineEnd(s, p))
  }

  /** Position `q` lies between one of the match starts and the end of its line. */
  predicate OrderCovered(s: string, starts: seq<nat>, q: nat) {
    exists k :: 0 <= k < |starts| && starts[k] <= q < |s| && q < LineEnd(s, starts[k])
  }

  /** Start positions of the successive global matches from `p` on. After a
      match the scan resumes at the end of its line, so a line yields at most
      one match, and every position from `p` on where the pattern matches lies
      on the line of a match found. */
  function OrderStarts(s: string, p: nat): (starts: seq<nat>)
    requires p <= |s|
    ensures forall k :: 0 <= k < |starts| ==> p <= starts[k] < |s| && OrderMatchAt(s, starts[k])
    ensures forall k :: 0 <= k < |starts| - 1 ==> LineEnd(s, starts[k]) <= starts[k + 1]
    ensures forall q :: p <= q < |s| && OrderMatchAt(s, q) ==> OrderCovered(s, starts, q)
    decreases |s| - p
  {
    if p == |s| then []
    else if OrderMatchAt(s, p) then
      var rest := OrderStarts(s, LineEnd(s, p));
      var starts := [p] + rest;
      OrderConsScan(s, p, rest, starts);
      OrderConsOrdered(s, p, rest, starts);
      OrderConsCovers(s, p, rest, starts);
      starts
    else
      var starts := OrderStarts(s, p + 1);
      OrderSkipScan(s, p, starts);
      starts
  }

  /** A match at `p` followed by matches from the end of its line on are
      matches from `p` on. */
  lemma OrderConsScan(s: string, p: nat, rest: seq<nat>, starts: seq<nat>)
    requires p < |s| && OrderMatchAt(s, p) && starts == [p] + rest
    requires forall k :: 0 <= k < |rest| ==> LineEnd(s, p) <= rest[k] < |s| && OrderMatchAt(s, rest[k])
    ensures forall k :: 0 <= k < |starts| ==> p <= starts[k] < |s| && OrderMatchAt(s, starts[k])
  {
    forall k | 0 <= k < |starts|
      ensures p <= starts[k] < |s| && OrderMatchAt(s, starts[k])
    {
      if k > 0 {
        assert starts[k] == rest[k - 1];
      }
    }
  }

  /** Prepending `p` keeps each start past the line of the one before, when
      the rest starts past the line of `p`. */
  lemma OrderConsOrdered(s: string, p: nat, rest: seq<nat>, starts: seq<nat>)
    requires p < |s| && starts == [p] + rest
    requires forall k :: 0 <= k < |rest| ==> LineEnd(s, p) <= rest[k] < |s|
    requires forall k :: 0 <= k < |rest| - 1 ==> LineEnd(s, rest[k]) <= rest[k + 1]
    ensures forall k :: 0 <= k < |starts| - 1 ==> LineEnd(s, starts[k]) <= starts[k + 1]
  {
    forall k | 0 <= k < |starts| - 1
      ensures LineEnd(s, starts[k]) <= starts[k + 1]
    {
      assert starts[k + 1] == rest[k];
      if k > 0 {
        assert starts[k] == rest[k - 1];
      }
    }
  }

  /** A match at `p` before starts covering every match from the end of its
      line on covers every match from `p` on. */
  lemma OrderConsCovers(s: string, p: nat, rest: seq<nat>, starts: seq<nat>)
    requires p < |s| && starts == [p] + rest
    requires forall q :: LineEnd(s, p) <= q < |s| && OrderMatchAt(s, q) ==> OrderCovered(s, rest, q)
    ensures forall q :: p <= q < |s| && OrderMatchAt(s, q) ==> OrderCovered(s, starts, q)
  {
    forall q | p <= q < |s| && OrderMatchAt(s, q) ensures OrderCovered(s, starts, q) {
      OrderConsCoversAt(s, p, rest, starts, q);
    }
  }

  lemma OrderConsCoversAt(s: string, p: nat, rest: seq<nat>, starts: seq<nat>, q: nat)
    requires p <= q < |s| && starts == [p] + rest
    requires LineEnd(s, p) <= q ==> OrderCovered(s, rest, q)
    ensures OrderCovered(s, starts, q)
  {
    if q < LineEnd(s, p) {
      assert starts[0] <= q < |s| && q < LineEnd(s, starts[0]);
    } else {
      var k :| 0 <= k < |rest| && rest[k] <= q < |s| && q < LineEnd(s, rest[k]);
      assert starts[k + 1] <= q < |s| && q < LineEnd(s, starts[k + 1]);
    }
  }

  /** Where the pattern does not match, the scan from the next position on is a
      scan from `p` on. */
  lemma OrderSkipScan(s: string, p: nat, starts: seq<nat>)
    requires p < |s| && !OrderMatchAt(s, p)
    requires forall k :: 0 <= k < |starts| ==> p + 1 <= starts[k] < |s| && OrderMatchAt(s, starts[k])
    requires forall q :: p + 1 <= q < |s| && OrderMatchAt(s, q) ==> OrderCovered(s, starts, q)
    ensures forall k :: 0 <= k < |starts| ==> p <= starts[k] < |s| && OrderMatchAt(s, starts[k])
    ensures forall q :: p <= q < |s| && OrderMatchAt(s, q) ==> OrderCovered(s, starts, q)
  {
  }

  /** Some position of `s` starts a match of the pattern. */
  predicate HasOrderMatch(s: string) {
    exists q :: 0 <= q < |s| && OrderMatchAt(s, q)
  }

  /** `content.match(ordersRegex) || []`: each match runs from its keyword to the
      end of its line; there is one exactly when the pattern matches somewhere. */
  function MatchedOrders(content: string): (orders: seq<string>)
    ensures orders != [] <==> HasOrderMatch(content)
  {
    var starts := OrderStarts(content, 0);
    var orders := seq(|starts|, k requires 0 <= k < |starts| => content[starts[k]..LineEnd(content, starts[k])]);
    StartsIffMatch(content);
    assert |orders| == |starts|;
    orders
  }

  lemma StartsIffMatch(s: string)
    ensures OrderStarts(s, 0) != [] <==> HasOrderMatch(s)
  {
    var starts := OrderStarts(s, 0);
    if starts != [] {
      assert 0 <= starts[0] < |s| && OrderMatchAt(s, starts[0]);
    }
    if HasOrderMatch(s) {
      var q :| 0 <= q < |s| && OrderMatchAt(s, q);
      assert OrderCovered(s, starts, q);
    }
  }

  /** The `k`-th match stays within one line, starts with an order keyword,
      names COVID or coronavirus after it, and the next match (if any) lies on a
      later line. */
  predicate WellFormedMatch(content: string, starts: seq<nat>, matches: seq<string>, k: nat)
    requires k < |starts| == |matches|
    requires forall j :: 0 <= j < |starts| ==> starts[j] <= |content|
  {
    && '\n' !in matches[k]
    && KeywordLength(matches[k], 0) > 0
    && CovidFrom(matches[k], KeywordLength(matches[k], 0) + 1, |matches[k]|)
    && (k + 1 < |starts| ==> exists j :: starts[k] <= j < starts[k + 1] && content[j] == '\n')
  }

  /** Every matched order stays within one line, starts with an order keyword
      and names COVID or coronavirus after it; consecutive matches lie on
      different lines. */
  lemma MatchedOrdersShape(content: string)
    ensures |MatchedOrders(content)| == |OrderStarts(content, 0)|
    ensures forall k :: 0 <= k < |OrderStarts(content, 0)| ==>
      WellFormedMatch(content, OrderStarts(content, 0), MatchedOrders(content), k)
  {
    forall k | 0 <= k < |OrderStarts(content, 0)|
      ensures WellFormedMatch(content, OrderStarts(content, 0), MatchedOrders(content), k)
    {
      MatchedOrderShape(content, k);
    }
  }

  /** The shape of the `k`-th match. */
  lemma MatchedOrderShape(content: string, k: nat)
    requires k < |OrderStarts(content, 0)|
    ensures WellFormedMatch(content, OrderStarts(content, 0), MatchedOrders(content), k)
  {
    var starts := OrderStarts(content, 0);
    var p := starts[k];
    var e := LineEnd(content, p);
    assert MatchedOrders(content)[k] == content[p..e];
    MatchLineShape(content, p);
    if k + 1 < |starts| {
      assert e <= starts[k + 1];
      MatchStartsWithKeyword(content, starts[k + 1]);
      assert starts[k] <= e < starts[k + 1] && content[e] == '\n';
    }
  }

  /** The text of a match, from its keyword to the end of its line, is one
      line that starts with the keyword and names COVID after it. */
  lemma MatchLineShape(s: string, p: nat)
    requires p < |s| && OrderMatchAt(s, p)
    ensures var m := s[p..LineEnd(s, p)];
      && '\n' !in m
      && KeywordLength(m, 0) > 0
      && CovidFrom(m, KeywordLength(m, 0) + 1, |m|)
  {
    var e := LineEnd(s, p);
    var m := s[p..e];
    assert forall i :: 0 <= i < |m| ==> m[i] == s[p + i];
    MatchKeywordShifts(s, p, e);
    CovidShifts(s, p, e, p + KeywordLength(s, p) + 1);
  }

  /** A match never starts on a line feed: its first character is a letter of
      an order keyword. */
  lemma MatchStartsWithKeyword(s: string, p: nat)
    requires p < |s| && OrderMatchAt(s, p)
    ensures s[p] != '\n'
  {
    if CiPrefixAt(s, p, "executive order") {
      assert LowerChar(s[p]) == "executive order"[0];
    } else if CiPrefixAt(s, p, "directive") {
      assert LowerChar(s[p]) == "directive"[0];
    } else if CiPrefixAt(s, p, "proclamation") {
      assert LowerChar(s[p]) == "proclamation"[0];
    } else {
      assert LowerChar(s[p]) == "public health order"[0];
    }
  }

  lemma MatchKeywordShifts(s: string, p: nat, e: nat)
    requires p <= e <= |s| && KeywordLength(s, p) > 0 && p + KeywordLength(s, p) <= e
    ensures KeywordLength(s[p..e], 0) == KeywordLength(s, p)
  {
    var m := s[p..e];
    assert forall i :: 0 <= i < |m| ==> m[i] == s[p + i];
  }

  lemma {:induction false} CovidShifts(s: string, p: nat, e: nat, c: nat)
    requires p <= c && p <= e <= |s|
    ensures CovidFrom(s[p..e], c - p, e - p) == CovidFrom(s, c, e)
    decreases e - c
  {
    var m := s[p..e];
    assert forall i :: 0 <= i < |m| ==> m[i] == s[p + i];
    if c < e {
      CovidShifts(s, p, e, c + 1);
    }
  }

  /** `slice(0, 3).map((order, index) => `${index + 1}. ${order.trim()}`).join('\n\n')` */
  function NumberedOrders(matches: seq<string>): (items: seq<string>)
    ensures |items| == if |matches| <= 3 then |matches| else 3
    ensures forall k :: 0 <= k < |items| ==> items[k] == NumberedItem(k, matches[k])
  {
    var kept := if |matches| <= 3 then matches else matches[..3];
    seq(|kept|, k requires 0 <= k < |kept| => NumberedItem(k, kept[k]))
  }

  /** `${index + 1}. ${order.trim()}` */
  function NumberedItem(k: nat, order: string): (item: string)
    ensures |item| > 0
  {
    NatToString(k + 1) + ". " + Trim(order)
  }

  function FormatOrders(matches: seq<string>): (text: string)
    ensures text == [] <==> matches == []
  {
    var items := NumberedOrders(matches);
    if items != [] then
      JoinStartsWithFirst(items, "\n\n");
      assert |items[0]| > 0;
      Join(items, "\n\n")
    else []
  }

  /** The list opens with the first match, trimmed and numbered 1. */
  lemma FirstOrderIsNumberedOne(matches: seq<string>)
    requires matches != []
    ensures StartsWith(FormatOrders(matches), "1. " + Trim(matches[0]))
  {
    var items := NumberedOrders(matches);
    assert items[0] == NumberedItem(0, matches[0]);
    FirstItem(matches[0]);
    JoinStartsWithFirst(items, "\n\n");
  }

  lemma FirstItem(order: string)
    ensures NumberedItem(0, order) == "1. " + Trim(order)
  {
    assert NatToString(1) == [DigitChar(1)] == "1";
    assert "1" + ". " == "1. ";
  }

  /** Matches after the third one never reach the letter. */
  lemma OnlyFirstThreeOrders(matches: seq<string>)
    requires |matches| > 3
    ensures FormatOrders(matches) == FormatOrders(matches[..3])
    ensures |NumberedOrders(matches)| == 3
  {
    assert matches[..3][..3] == matches[..3];
  }

  /** The three fixed items used when no order line matched. */
  function Boilerplate(place: Place, businessType: string, timePeriod: string): string {
    BoilerplateHead + place.city + ", " + place.state
    + ImpactedOur + businessType + OperationsDuring + timePeriod + BoilerplateTail
  }

  const BoilerplateHead := "1. COVID-19 restrictions in "
  const ImpactedOur := " significantly impacted our "
  const OperationsDuring := " operations during "

  const BoilerplateTail := ".\n\n2. Social distancing requirements mandated by state and local authorities reduced our operational capacity.\n\n3. Enhanced health and safety protocols required by government orders created substantial modifications to our standard business procedures."

  /** `formattedOrders || boilerplate` */
  function OrdersSection(matches: seq<string>, place: Place, businessType: string,
                         timePeriod: string): string {
    var formatted := FormatOrders(matches);
    if formatted != [] then formatted else Boilerplate(place, businessType, timePeriod)
  }

  /** With no matching line, the orders section is the boilerplate, which names
      the city, the state, the business type and the period. */
  lemma NoOrdersGiveBoilerplate(matches: seq<string>, place: Place, businessType: string,
                                timePeriod: string)
    requires matches == []
    ensures OrdersSection(matches, place, businessType, timePeriod)
         == Boilerplate(place, businessType, timePeriod)
    ensures Contains(Boilerplate(place, businessType, timePeriod), place.city)
    ensures Contains(Boilerplate(place, businessType, timePeriod), place.state)
    ensures Contains(Boilerplate(place, businessType, timePeriod), businessType)
    ensures Contains(Boilerplate(place, businessType, timePeriod), timePeriod)
  {
    var a := BoilerplateHead + place.city;
    var b := a + ", " + place.state;
    var c := b + ImpactedOur + businessType;
    var d := c + OperationsDuring + timePeriod;
    ContainsSelf(place.city);
    ContainsExtendLeft(BoilerplateHead, place.city, place.city);
    ContainsExtendRight(a, ", ", place.city);
    ContainsExtendRight(a + ", ", place.state, place.city);
    ContainsSelf(place.state);
    ContainsExtendLeft(a + ", ", place.state, place.state);
    ContainsExtendRight(b, ImpactedOur, place.city);
    ContainsExtendRight(b, ImpactedOur, place.state);
    ContainsExtendRight(b + ImpactedOur, businessType, place.city);
    ContainsExtendRight(b + ImpactedOur, businessType, place.state);
    ContainsSelf(businessType);
    ContainsExtendLeft(b + ImpactedOur, businessType, businessType);
    ContainsExtendRight(c, OperationsDuring, place.city);
    ContainsExtendRight(c, OperationsDuring, place.state);
    ContainsExtendRight(c, OperationsDuring, businessType);
    ContainsExtendRight(c + OperationsDuring, timePeriod, place.city);
    ContainsExtendRight(c + OperationsDuring, timePeriod, place.state);
    ContainsExtendRight(c + OperationsDuring, timePeriod, businessType);
    ContainsSelf(timePeriod);
    ContainsExtendLeft(c + OperationsDuring, timePeriod, timePeriod);
    ContainsExtendRight(d, BoilerplateTail, place.city);
    ContainsExtendRight(d, BoilerplateTail, place.state);
    ContainsExtendRight(d, BoilerplateTail, businessType);
    ContainsExtendRight(d, BoilerplateTail, timePeriod);
  }

  // ---------------------------------------------------------------------------
  // Attachment list
  // ---------------------------------------------------------------------------

  const NoAttachmentsLine := "COVID-19 " + "Government Orders Documentation - PDF"

  lemma FallbackLineStartsWithLetter()
    ensures |NoAttachmentsLine| > 0 && !IsDigit(NoAttachmentsLine[0])
  {
    assert NoAttachmentsLine[0] == 'C';
  }

  /** `${index + 1}. ${attachment.title} - PDF` */
  function AttachmentLine(k: nat, title: Option<string>): (line: string)
    ensures line != [] && IsDigit(line[0])
  {
    NatToString(k + 1) + ". " + Text(title) + " - PDF"
  }

  function AttachmentLines(titles: seq<Option<string>>): seq<string> {
    seq(|titles|, k requires 0 <= k < |titles| => AttachmentLine(k, titles[k]))
  }

  /** `attachmentsList || 'COVID-19 Government Orders Documentation - PDF'` */
  function AttachmentsSection(titles: seq<Option<string>>): string {
    var list := Join(AttachmentLines(titles), "\n");
    if list != [] then list else NoAttachmentsLine
  }

  /** The fallback line is used exactly when there is no attachment; otherwise
      the section starts with the numbered line of the first one. */
  lemma AttachmentsSectionFallback(titles: seq<Option<string>>)
    ensures AttachmentsSection(titles) == NoAttachmentsLine <==> titles == []
    ensures titles != [] ==> StartsWith(AttachmentsSection(titles), AttachmentLine(0, titles[0]))
  {
    if titles != [] {
      var lines := AttachmentLines(titles);
      JoinStartsWithFirst(lines, "\n");
      var list := Join(lines, "\n");
      assert list[0] == lines[0][0];
      FallbackLineStartsWithLetter();
    }
  }

  /** The records the server returns carry no `title`, so each listed
      attachment reads `n. undefined - PDF`. */
  lemma UntitledAttachmentsReadUndefined(titles: seq<Option<string>>)
    requires forall k :: 0 <= k < |titles| ==> titles[k].None?
    ensures forall k :: 0 <= k < |titles| ==>
      AttachmentLines(titles)[k] == NatToString(k + 1) + ". undefined - PDF"
  {
  }

  // ---------------------------------------------------------------------------
  // The letter
  // ---------------------------------------------------------------------------

  const ReLine := "RE: Formal Protest to Letter 105 - " + "ERC Disallowance for "

  /** The letter's opening lines, up to the blank line after the claim amount. */
  function HeaderLines(date: string, ein: string, businessName: string, timePeriod: string): seq<string> {
    [ date, "Internal Revenue Service", "Ogden, UT 84201", "",
      "EIN: " + ein,
      "Taxpayer Name: " + businessName,
      ReLine + timePeriod,
      "Tax Period: " + timePeriod,
      "Claim Amount: $XXXXX", "" ]
  }

  // Fixed passages of the letter, between the interpolated fields.
  const Salutation := "Dear Appeals Officer,\n\nWe write in response to the IRS notice disallowing "
  const ClaimFor := "'s Employee Retention Credit (ERC) claim for "
  const Disagreement := ". The disallowance was based on an assertion that \"no government orders were in effect\" that caused a suspension of our operations. We respectfully disagree. Multiple federal, state, county, and city government orders were active during "
  const Restrictions := ", and they did impose COVID-19 related restrictions and requirements that partially suspended or limited "
  const OrdersIntro := "'s normal operations.\n\nBased on the COVID-19 research obtained (see attachments), the following government orders directly impacted our business operations:\n\n"
  const Conclusion := "\n\nIn light of these facts and supporting authorities, "
  const Qualifies := " qualifies for the Employee Retention Credit for "
  const Request := " due to a partial suspension of its operations caused by COVID-19 government orders. We have shown that numerous government orders were in effect during the quarter and that they had a direct, significant impact on our ability to conduct our mission.\n\nWe respectfully request that the IRS reconsider and reverse the disallowance of our "
  const Attestation := " ERC. The credit we claimed was fully in line with the law and guidance.\n\nAttestation: \"Under penalties of perjury, I declare that I submitted the protest and accompanying documents, and to the best of my personal knowledge and belief, the information stated in the protest and accompanying documents is true, correct, and complete.\"\n\nSincerely,\n\n[Authorized Representative]\n"
  const AttachmentsHeading := "\n\nAttachments:\n"

  function LetterBody(businessName: string, timePeriod: string, orders: string,
                      attachments: string): string {
    Salutation + businessName + ClaimFor + timePeriod + Disagreement + timePeriod
    + Restrictions + businessName + OrdersIntro + orders
    + Conclusion + businessName + Qualifies + timePeriod + Request + timePeriod
    + Attestation + businessName + AttachmentsHeading + attachments + "\n"
  }

  /** The fields of the letter request the client sends. */
  datatype LetterData = LetterData(
    chatGptLink: Option<string>, businessName: Option<string>, ein: Option<string>,
    location: Option<string>, timePeriod: Option<string>, businessType: Option<string>)

  /** `formatLetterWithChatGptData`: it throws when the location, the
      conversation or the attachment list is missing; `date` is the formatted
      current date. */
  function FormatLetter(data: LetterData, content: Option<string>,
                        titles: Option<seq<Option<string>>>, date: string): (r: Result<string, string>)
    ensures r.Success? <==> data.location.Some? && content.Some? && titles.Some?
  {
    if data.location.None? || content.None? || titles.None? then Failure("TypeError")
    else
      var place := CityState(data.location.value);
      var orders := OrdersSection(MatchedOrders(content.value), place, Text(data.businessType),
                                  Text(data.timePeriod));
      Success(Lines(HeaderLines(date, Text(data.ein), Text(data.businessName), Text(data.timePeriod)))
              + LetterBody(Text(data.businessName), Text(data.timePeriod), orders,
                           AttachmentsSection(titles.value)))
  }

  /** A formatted letter opens with the ten header lines. */
  lemma LetterStartsWithHeader(data: LetterData, content: string,
                               titles: seq<Option<string>>, date: string)
    requires data.location.Some?
    ensures FormatLetter(data, Some(content), Some(titles), date).Success?
    ensures Lines(HeaderLines(date, Text(data.ein), Text(data.businessName), Text(data.timePeriod)))
            <= FormatLetter(data, Some(content), Some(titles), date).value
  {
  }

  /** The letter's header lines embed the date, the EIN, the business name, and
      the period twice, when none of them holds a line feed. */
  lemma {:induction false} LetterHeaderEmbedsFields(data: LetterData, content: string,
                                 titles: seq<Option<string>>, date: string)
    requires data.location.Some?
    requires '\n' !in date && '\n' !in Text(data.ein) && '\n' !in Text(data.businessName)
             && '\n' !in Text(data.timePeriod)
    ensures FormatLetter(data, Some(content), Some(titles), date).Success?
    ensures var lines := Split(FormatLetter(data, Some(content), Some(titles), date).value, '\n');
      && |lines| > 9
      && lines[0] == date
      && lines[4] == "EIN: " + Text(data.ein)
      && lines[5] == "Taxpayer Name: " + Text(data.businessName)
      && lines[6] == ReLine + Text(data.timePeriod)
      && lines[7] == "Tax Period: " + Text(data.timePeriod)
  {
    LetterStartsWithHeader(data, content, titles, date);
    HeaderFieldsOnLines(date, Text(data.ein), Text(data.businessName), Text(data.timePeriod),
                        FormatLetter(data, Some(content), Some(titles), date).value);
  }

  /** Any text opening with the header lines, none of whose fields holds a line
      feed, splits into lines that begin with those header lines. */
  lemma {:induction false} HeaderFieldsOnLines(date: string, ein: string, businessName: string,
                                               timePeriod: string, letter: string)
    requires '\n' !in date && '\n' !in ein && '\n' !in businessName && '\n' !in timePeriod
    requires Lines(HeaderLines(date, ein, businessName, timePeriod)) <= letter
    ensures var lines := Split(letter, '\n');
      && |lines| > 9
      && lines[0] == date
      && lines[4] == "EIN: " + ein
      && lines[5] == "Taxpayer Name: " + businessName
      && lines[6] == ReLine + timePeriod
      && lines[7] == "Tax Period: " + timePeriod
  {
    var hs := HeaderLines(date, ein, businessName, timePeriod);
    HeaderLinesHaveNoLineFeed(date, ein, businessName, timePeriod);
    HeaderOfLetter(hs, letter);
    var lines := Split(letter, '\n');
    assert lines[..10] == hs;
    assert lines[0] == hs[0] && lines[4] == hs[4] && lines[5] == hs[5];
    assert lines[6] == hs[6] && lines[7] == hs[7];
  }

  lemma {:induction false} HeaderOfLetter(hs: seq<string>, letter: string)
    requires forall k :: 0 <= k < |hs| ==> '\n' !in hs[k]
    requires Lines(hs) <= letter
    ensures |Split(letter, '\n')| > |hs|
    ensures Split(letter, '\n')[..|hs|] == hs
  {
    var body := letter[|Lines(hs)|..];
    assert letter == Lines(hs) + body;
    HeaderSurvivesSplit(hs, body);
  }

  lemma HeaderLinesHaveNoLineFeed(date: string, ein: string, businessName: string, timePeriod: string)
    requires '\n' !in date && '\n' !in ein && '\n' !in businessName && '\n' !in timePeriod
    ensures forall k :: 0 <= k < 10 ==> '\n' !in HeaderLines(date, ein, businessName, timePeriod)[k]
  {
    FixedHeaderHasNoLineFeed();
  }

  /** None of the fixed header texts holds a line feed. */
  lemma FixedHeaderHasNoLineFeed()
    ensures '\n' !in "Internal Revenue Service" && '\n' !in "Ogden, UT 84201"
    ensures '\n' !in "EIN: " && '\n' !in "Taxpayer Name: " && '\n' !in "Tax Period: "
    ensures '\n' !in ReLine && '\n' !in "Claim Amount: $XXXXX"
  {
    ReLineHasNoLineFeed();
  }

  lemma ReLineHasNoLineFeed()
    ensures '\n' !in ReLine
  {
  }

  lemma HeaderSurvivesSplit(hs: seq<string>, body: string)
    requires forall k :: 0 <= k < |hs| ==> '\n' !in hs[k]
    ensures |Split(Lines(hs) + body, '\n')| > |hs|
    ensures Split(Lines(hs) + body, '\n')[..|hs|] == hs
  {
    SplitLinesPrefix(hs, body);
    assert (hs + Split(body, '\n'))[..|hs|] == hs;
  }

  // ---------------------------------------------------------------------------
  // Result shaping
  // ---------------------------------------------------------------------------

  /** The parts of the server's answer the client reads. */
  datatype ServerBody = ServerBody(success: bool, conversationContent: Option<string>,
                                   attachmentTitles: Option<seq<Option<string>>>)

  datatype ClientResult = Formatted(letter: string) | PassThrough(body: ServerBody)

  /** `generateERCProtestLetter` after the POST: on the ChatGPT path with a
      successful answer the result is just the formatted letter (or the
      formatting error); otherwise the server's body is returned unchanged. */
  function ShapeResult(data: LetterData, body: ServerBody, date: string): (r: Result<ClientResult, string>)
    ensures !(Truthy(data.chatGptLink) && body.success) ==> r == Success(PassThrough(body))
    ensures Truthy(data.chatGptLink) && body.success ==>
      r == (match FormatLetter(data, body.conversationContent, body.attachmentTitles, date)
            case Success(letter) => Success(Formatted(letter))
            case Failure(e) => Failure(e))
    ensures Truthy(data.chatGptLink) && body.success ==>
      (r.Success? <==> data.location.Some? && body.conversationContent.Some? && body.attachmentTitles.Some?)
  {
    if Truthy(data.chatGptLink) && body.success then
      match FormatLetter(data, body.conversationContent, body.attachmentTitles, date)
      case Success(letter) => Success(Formatted(letter))
      case Failure(e) => Failure(e)
    else Success(PassThrough(body))
  }
}
