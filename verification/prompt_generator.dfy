/**
 * The research-prompt component: `extractCityState`, the quarter/year split
 * of the time period, the prompt template of `generatePrompt`, and the
 * effect that generates the prompt when form data arrives. The form data is
 * a map from field name to a possibly `undefined` string.
 */
module PromptGenerator {
  import opened Wrappers
  import opened JsStrings
  import opened Location
  import opened Naics

  /** `extractCityState`: without a comma the trimmed location is the city and
      the state is empty; otherwise the first two comma-separated parts,
      trimmed. */
  function ExtractCityState(location: string): Place {
    var parts := Split(location, ',');
    if |parts| < 2 then Place(Trim(location), "")
    else Place(Trim(parts[0]), Trim(parts[1]))
  }

  /** The component's split agrees with the one the letter template and the
      server route use (`parts[i]?.trim() || ''`). */
  lemma {:induction false} ExtractCityStateAgrees(location: string)
    ensures ExtractCityState(location) == CityState(location)
  {
    var parts := Split(location, ',');
    if |parts| < 2 {
      JoinSplit(location, ',');
      assert parts == [parts[0]];
    }
  }

  datatype QuarterYear = QuarterYear(quarter: string, year: string)

  /** The quarter and year of `generatePrompt`: set from a time period that
      splits on spaces into exactly two parts, otherwise both empty. */
  function SplitQuarterYear(timePeriod: Option<string>): (q: QuarterYear)
    ensures Truthy(timePeriod) && |Split(timePeriod.value, ' ')| == 2 ==>
      ' ' !in q.quarter && ' ' !in q.year && q.quarter + " " + q.year == timePeriod.value
    ensures !(Truthy(timePeriod) && |Split(timePeriod.value, ' ')| == 2) ==> q == QuarterYear("", "")
  {
    if Truthy(timePeriod) then
      var parts := Split(timePeriod.value, ' ');
      if |parts| == 2 then
        JoinSplit(timePeriod.value, ' ');
        assert Join(parts, " ") == parts[0] + " " + Join(parts[1..], " ");
        QuarterYear(parts[0], parts[1])
      else QuarterYear("", "")
    else QuarterYear("", "")
  }

  /** A period written `<quarter> <year>` gives that quarter and year back. */
  lemma {:induction false} QuarterYearOfPeriod(quarter: string, year: string)
    requires ' ' !in quarter && ' ' !in year
    ensures SplitQuarterYear(Some(quarter + " " + year)) == QuarterYear(quarter, year)
  {
    SplitWithoutSeparator(year, ' ');
    SplitAfterPart(quarter, ' ', year);
  }

  // The fixed text of the template around the interpolated values.
  const Lead := "Please provide all state, city, and county COVID-related government orders, proclamations, and public health orders in place during 2020-2021 that would affect a "
  const LocatedIn := "\" business located in "
  const Detail := ". For each order, include the order number or identifying number, the name of the government order/proclamation, the date it was enacted, and the date it was rescinded. If rescinded by subsequent orders, list subsequent order and dates. Additionally, please provide a detailed summary of 3-5 sentences for each order, explaining what the order entailed and how it specifically impacted a "
  const Reasons := ". Provide possible reasons " + "how "
  const Tail := " Covid Orders" + " would have affected the business in that quarter."

  /** `a "<type>" business located in <city>, <state>` */
  function Located(businessType: string, place: Place): string {
    "\"" + businessType + LocatedIn + place.city + ", " + place.state
  }

  /** `<type> in <period>` */
  function Impacted(businessType: string, period: string): string {
    businessType + " in " + period
  }

  /** The template as its consecutive pieces. */
  function PromptPieces(businessType: string, place: Place, period: string): seq<string> {
    [Lead, Located(businessType, place), Detail, Impacted(businessType, period), Reasons, period, Tail]
  }

  /** The prompt for a business type, a place and the (rendered) time period. */
  function PromptText(businessType: string, place: Place, period: string): string {
    Join(PromptPieces(businessType, place, period), "")
  }

  /** The prompt names the business type where it asks for the orders and
      again where it asks for their impact, states the city and the state,
      and names the time period in the impact and in the closing request. */
  lemma {:induction false} PromptEmbedsFields(businessType: string, place: Place, period: string)
    ensures Contains(PromptText(businessType, place, period), "\"" + businessType + "\" business located in " + place.city + ", " + place.state)
    ensures Contains(PromptText(businessType, place, period), businessType + " in " + period)
    ensures Contains(PromptText(businessType, place, period), "how " + period + " Covid Orders")
  {
    var pieces := PromptPieces(businessType, place, period);
    JoinContainsPart(pieces, "", 1);
    assert "\"" + businessType + "\" business located in " + place.city + ", " + place.state
      == Located(businessType, place);
    JoinContainsPart(pieces, "", 3);
    ClosingNamesPeriod(pieces, period);
  }

  /** `how <period> Covid Orders` spans the last three pieces. */
  lemma {:induction false} ClosingNamesPeriod(pieces: seq<string>, period: string)
    requires |pieces| == 7 && pieces[4] == Reasons && pieces[5] == period && pieces[6] == Tail
    ensures Contains(Join(pieces, ""), "how " + period + " Covid Orders")
  {
    var tail := pieces[4..];
    assert tail[1..][1..] == [Tail];
    assert Join(tail[1..], "") == period + "" + Tail;
    assert Join(tail, "") == Reasons + "" + (period + "" + Tail);
    assert Join(tail, "") == ". Provide possible reasons " + ("how " + period + " Covid Orders")
      + " would have affected the business in that quarter.";
    ContainsInfix(". Provide possible reasons ", "how " + period + " Covid Orders",
                  " would have affected the business in that quarter.");
    JoinDropsPrefix(pieces, 4);
  }

  /** A join without separator contains the join of any suffix of its parts. */
  lemma {:induction false} JoinDropsPrefix(pieces: seq<string>, k: nat)
    requires k < |pieces|
    ensures forall t :: Contains(Join(pieces[k..], ""), t) ==> Contains(Join(pieces, ""), t)
  {
    if k > 0 {
      JoinDropsPrefix(pieces[1..], k - 1);
      assert pieces[1..][k - 1..] == pieces[k..];
      assert Join(pieces, "") == pieces[0] + Join(pieces[1..], "") by {
        assert Join(pieces, "") == pieces[0] + "" + Join(pieces[1..], "");
      }
      forall t | Contains(Join(pieces[1..], ""), t) ensures Contains(Join(pieces, ""), t) {
        ContainsExtendLeft(pieces[0], Join(pieces[1..], ""), t);
      }
    }
  }

  /** The form fields the prompt reads. */
  type FormData = map<string, Option<string>>

  /** `formData.<key>`: `undefined` when the key is absent. */
  function Get(form: FormData, key: string): Option<string> {
    if key in form then form[key] else None
  }

  /** `generatePrompt`: city and state from `location || ''`, the business type
      from the NAICS code, and the time period as interpolated (`undefined`
      when missing). */
  function GeneratePrompt(form: FormData): (prompt: string)
    ensures var place := ExtractCityState(OrElse(Get(form, "location"), ""));
      Contains(prompt, "\"" + NaicsDescription(Get(form, "naicsCode")) + "\" business located in "
                       + place.city + ", " + place.state)
    ensures Contains(prompt, NaicsDescription(Get(form, "naicsCode")) + " in " + Text(Get(form, "timePeriod")))
  {
    var place := ExtractCityState(OrElse(Get(form, "location"), ""));
    var businessType := NaicsDescription(Get(form, "naicsCode"));
    var _ := SplitQuarterYear(Get(form, "timePeriod"));
    PromptEmbedsFields(businessType, place, Text(Get(form, "timePeriod")));
    PromptText(businessType, place, Text(Get(form, "timePeriod")))
  }

  /** The effect on `formData`: a prompt exactly when form data with at least
      one key is present. */
  function OnFormData(form: Option<FormData>): (prompt: Option<string>)
    ensures prompt.Some? <==> form.Some? && |form.value| > 0
    ensures prompt.Some? ==> prompt.value == GeneratePrompt(form.value)
  {
    if form.Some? && |form.value| > 0 then Some(GeneratePrompt(form.value)) else None
  }
}
