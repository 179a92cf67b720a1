/**
 * Splitting a "City, State" location: `location.split(',')`, then
 * `parts[0]?.trim() || ''` for the city and `parts[1]?.trim() || ''` for the
 * state. The client letter template and the server letter route share it.
 */
module Location {
  import opened JsStrings

  datatype Place = Place(city: string, state: string)

  predicate Trimmed(s: string) {
    s == [] || (!IsSpace(s[0]) && !IsSpace(s[|s| - 1]))
  }

  function CityState(location: string): (p: Place)
    ensures ',' !in p.city && ',' !in p.state
    ensures Trimmed(p.city) && Trimmed(p.state)
  {
    var parts := Split(location, ',');
    TrimKeepsCharacters(parts[0]);
    if |parts| >= 2 then TrimKeepsCharacters(parts[1]); Place(Trim(parts[0]), Trim(parts[1]))
    else Place(Trim(parts[0]), "")
  }

  /** Without a comma, the whole location (trimmed) is the city and the state is
      empty. */
  lemma CityStateWithoutComma(location: string)
    requires ',' !in location
    ensures CityState(location) == Place(Trim(location), "")
  {
    SplitWithoutSeparator(location, ',');
  }

  /** With a comma, the city and the state are the first two comma-separated
      parts, trimmed; whatever follows a second comma is ignored. */
  lemma CityStateOfParts(city: string, state: string, rest: string)
    requires ',' !in city && ',' !in state
    requires rest == [] || rest[0] == ','
    ensures CityState(city + "," + state + rest) == Place(Trim(city), Trim(state))
  {
    var location := city + "," + state + rest;
    assert location == city + [','] + (state + rest);
    SplitAfterPart(city, ',', state + rest);
    if rest == [] {
      assert state + rest == state;
      SplitWithoutSeparator(state, ',');
    } else {
      assert state + rest == state + [','] + rest[1..];
      SplitAfterPart(state, ',', rest[1..]);
    }
  }
}
