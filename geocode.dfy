/** The reverse-geocode endpoint of index.js: the field extraction from a
    Google reply, the Nominatim fallback, the merge that fills only empty
    fields, and the response. The two geocoder replies are inputs; `None`
    stands for a call that threw or returned nothing usable. */
module Geocode {
  import opened Common

  /** One entry of Google's `address_components`. */
  datatype Component = Component(longName: string, shortName: string, types: seq<string>)

  /** `types.some(t => c.types.includes(t))`. */
  predicate HasAnyType(c: Component, types: seq<string>) {
    exists t :: t in types && t in c.types
  }

  /** `components.find(...)`: the position of the first component carrying
      one of the types. */
  function Find(components: seq<Component>, types: seq<string>): (r: Option<nat>)
    ensures r.Some? ==> r.value < |components| && HasAnyType(components[r.value], types)
    ensures r.Some? ==> forall j :: 0 <= j < r.value ==> !HasAnyType(components[j], types)
    ensures r.None? <==> forall j :: 0 <= j < |components| ==> !HasAnyType(components[j], types)
    decreases |components|
  {
    if components == [] then None
    else if HasAnyType(components[0], types) then Some(0)
    else match Find(components[1..], types)
      case None => None
      case Some(i) => Some(i + 1)
  }

  /** `found?.long_name` as a string, the empty string when nothing was found. */
  function LongName(components: seq<Component>, found: Option<nat>): string
  {
    if found.Some? && found.value < |components| then components[found.value].longName else ""
  }

  /** `a || b || ... || ""`: the first non-empty string of the list. */
  function FirstNonEmpty(xs: seq<string>): (r: string)
    ensures r == "" <==> forall i :: 0 <= i < |xs| ==> xs[i] == ""
    ensures r != "" ==> exists i :: 0 <= i < |xs| && xs[i] == r && forall j :: 0 <= j < i ==> xs[j] == ""
    decreases |xs|
  {
    if xs == [] then ""
    else if xs[0] != "" then xs[0]
    else
      var r := FirstNonEmpty(xs[1..]);
      assert forall i :: 1 <= i < |xs| ==> xs[i] == xs[1..][i - 1];
      if r != "" then
        var k :| 0 <= k < |xs[1..]| && xs[1..][k] == r && forall j :: 0 <= j < k ==> xs[1..][j] == "";
        assert xs[k + 1] == r && forall j :: 0 <= j < k + 1 ==> xs[j] == "";
        r
      else r
  }

  /** The place fields the endpoint assembles. */
  datatype Place = Place(city: string, country: string, state: string, formattedAddress: string)

  /** `found?.short_name`, the empty string when nothing was found. */
  function ShortName(components: seq<Component>, found: Option<nat>): string
  {
    if found.Some? && found.value < |components| then components[found.value].shortName else ""
  }

  /** The candidate city names of a reply, best first: the locality, the
      sublocality, the second-level and the first-level administrative area. */
  function CityCandidates(components: seq<Component>): seq<string> {
    [LongName(components, Find(components, ["locality"])),
     LongName(components, Find(components, ["sublocality_level_1", "sublocality"])),
     LongName(components, Find(components, ["administrative_area_level_2"])),
     LongName(components, Find(components, ["administrative_area_level_1"]))]
  }

  /** `extractFromGoogleComponents`: the city is the best non-empty
      candidate; the state is the first-level area's short name, or its long
      name when the short one is empty; the country is the country
      component's long name. */
  function ExtractFromGoogle(components: seq<Component>): (r: Place)
    ensures r.city == FirstNonEmpty(CityCandidates(components))
    ensures var admin1 := Find(components, ["administrative_area_level_1"]);
      r.state == Or(ShortName(components, admin1), LongName(components, admin1))
    ensures r.country == LongName(components, Find(components, ["country"]))
    ensures r.formattedAddress == ""
  {
    var locality := Find(components, ["locality"]);
    var subloc := Find(components, ["sublocality_level_1", "sublocality"]);
    var admin2 := Find(components, ["administrative_area_level_2"]);
    var admin1 := Find(components, ["administrative_area_level_1"]);
    var countryComp := Find(components, ["country"]);
    var city := Or(LongName(components, locality), Or(LongName(components, subloc),
                Or(LongName(components, admin2), Or(LongName(components, admin1), ""))));
    var state := if admin1.Some? then components[admin1.value].longName else "";
    var stateShort := if admin1.Some? then components[admin1.value].shortName else "";
    var country := if countryComp.Some? then components[countryComp.value].longName else "";
    CityIsFirstCandidate(CityCandidates(components));
    Place(city, country, Or(stateShort, state), "")
  }

  /** The `||` chain picks what `FirstNonEmpty` picks. */
  lemma CityIsFirstCandidate(c: seq<string>)
    requires |c| == 4
    ensures Or(c[0], Or(c[1], Or(c[2], Or(c[3], "")))) == FirstNonEmpty(c)
  {
    assert c[1..][1..][1..][1..] == [];
  }

  /** A locality name wins over every other candidate, and a reply with no
      candidate at all gives no city. */
  lemma LocalityWins(components: seq<Component>)
    ensures LongName(components, Find(components, ["locality"])) != "" ==>
      ExtractFromGoogle(components).city == LongName(components, Find(components, ["locality"]))
    ensures (forall i :: 0 <= i < 4 ==> CityCandidates(components)[i] == "") ==>
      ExtractFromGoogle(components).city == ""
  {
  }

  /** The Google reply: its status and the results, each with its components
      and formatted address. */
  datatype GoogleResult = GoogleResult(components: seq<Component>, formattedAddress: string)
  datatype GoogleReply = GoogleReply(status: string, results: seq<GoogleResult>)

  /** What the Google step leaves in the handler's variables: the first
      result's fields when the status is "OK" and there is a result,
      otherwise every field empty. */
  function Primary(google: Option<GoogleReply>): (r: Place)
    ensures (google.None? || google.value.status != "OK" || google.value.results == []) ==> r == Place("", "", "", "")
    ensures google.Some? && google.value.status == "OK" && google.value.results != [] ==>
      var first := google.value.results[0];
      r == ExtractFromGoogle(first.components).(formattedAddress := first.formattedAddress)
  {
    if google.Some? && google.value.status == "OK" && |google.value.results| > 0 then
      var first := google.value.results[0];
      var e := ExtractFromGoogle(first.components);
      Place(e.city, e.country, e.state, first.formattedAddress)
    else Place("", "", "", "")
  }

  /** The Nominatim `address` object; the empty string is an absent key. */
  datatype Address = Address(city: string, town: string, village: string, suburb: string, county: string,
                             state: string, region: string, country: string)

  /** The Nominatim reply body: an error flag, the address object (which
      may be missing) and `display_name`. */
  const NoAddress := Address("", "", "", "", "", "", "", "")

  datatype NominatimReply = NominatimReply(error: bool, address: Option<Address>, displayName: string)

  /** `nominatimReverseGeocode`: nothing for an error reply, otherwise each
      field from its first non-empty source key, a missing address counting
      as an empty one. */
  function FromNominatim(reply: Option<NominatimReply>): (r: Option<Place>)
    ensures r.None? <==> reply.None? || reply.value.error
    ensures r.Some? ==>
      var a := reply.value.address.OrElse(NoAddress);
      && r.value.city == FirstNonEmpty([a.city, a.town, a.village, a.suburb, a.county])
      && r.value.state == Or(a.state, a.region)
      && r.value.country == a.country
      && r.value.formattedAddress == reply.value.displayName
  {
    if reply.None? || reply.value.error then None
    else
      var a := reply.value.address.OrElse(NoAddress);
      var cities := [a.city, a.town, a.village, a.suburb, a.county];
      var city := FirstNonEmpty(cities);
      assert cities[0] == a.city && cities[1] == a.town && cities[2] == a.village
          && cities[3] == a.suburb && cities[4] == a.county;
      assert city != "" ==> city in cities;
      Some(Place(city, Or(a.country, ""), Or(a.state, Or(a.region, "")), Or(reply.value.displayName, "")))
  }

  /** The fallback step: every field still empty takes the fallback's value;
      a field already set is kept. */
  function FillEmpty(p: Place, fallback: Place): (r: Place)
    ensures p.city != "" ==> r.city == p.city
    ensures p.country != "" ==> r.country == p.country
    ensures p.state != "" ==> r.state == p.state
    ensures p.formattedAddress != "" ==> r.formattedAddress == p.formattedAddress
    ensures p.city == "" ==> r.city == fallback.city
    ensures p.country == "" ==> r.country == fallback.country
    ensures p.state == "" ==> r.state == fallback.state
    ensures p.formattedAddress == "" ==> r.formattedAddress == fallback.formattedAddress
  {
    Place(Or(p.city, fallback.city), Or(p.country, fallback.country), Or(p.state, fallback.state),
          Or(p.formattedAddress, fallback.formattedAddress))
  }

  /** Filling twice from the same fallback is filling once; a complete
      place is left as it is. */
  lemma FillEmptyIdempotent(p: Place, fallback: Place)
    ensures FillEmpty(FillEmpty(p, fallback), fallback) == FillEmpty(p, fallback)
    ensures p.city != "" && p.country != "" && p.state != "" && p.formattedAddress != "" ==>
      FillEmpty(p, fallback) == p
  {
  }

  datatype Response = MissingCoordinates | ZeroResults | Found(place: Place)

  /** The address shown when no formatted address is known:
      `city[, state], country`. */
  function FallbackAddress(p: Place): (r: string)
    ensures |r| >= 2
    ensures p.state == "" ==> r == p.city + ", " + p.country
    ensures p.state != "" ==> r == p.city + ", " + p.state + ", " + p.country
  {
    p.city + (if p.state != "" then ", " + p.state else "") + ", " + p.country
  }

  /** The final answer: `OK` with the place when a city or a country is
      known, `ZERO_RESULTS` otherwise. */
  function Respond(p: Place): (r: Response)
    ensures r.Found? <==> p.city != "" || p.country != ""
    ensures r.Found? ==> r.place.city == p.city && r.place.country == p.country && r.place.state == p.state
    ensures r.Found? ==> r.place.formattedAddress == (if p.formattedAddress != "" then p.formattedAddress else FallbackAddress(p))
    ensures r.Found? ==> r.place.formattedAddress != ""
    ensures !r.Found? ==> r == ZeroResults
  {
    if p.city != "" || p.country != "" then
      Found(p.(formattedAddress := Or(p.formattedAddress, FallbackAddress(p))))
    else ZeroResults
  }

  /** The handler: reject a request without coordinates, take the Google
      fields, consult the fallback only while the city is empty, then
      answer. */
  method ReverseGeocode(lat: Option<string>, lng: Option<string>,
                        google: Option<GoogleReply>, nominatim: Option<NominatimReply>) returns (r: Response)
    ensures Text(lat) == "" || Text(lng) == "" ==> r == MissingCoordinates
    ensures Text(lat) != "" && Text(lng) != "" && Primary(google).city != "" ==> r == Respond(Primary(google))
    ensures Text(lat) != "" && Text(lng) != "" && Primary(google).city == "" ==>
      r == Respond(if FromNominatim(nominatim).Some? then FillEmpty(Primary(google), FromNominatim(nominatim).value)
                   else Primary(google))
  {
    if Text(lat) == "" || Text(lng) == "" {
      return MissingCoordinates;
    }
    var city, country, state, formatted := "", "", "", "";
    if google.Some? && google.value.status == "OK" && |google.value.results| > 0 {
      var result := google.value.results[0];
      var extracted := ExtractFromGoogle(result.components);
      city := extracted.city;
      country := extracted.country;
      state := extracted.state;
      formatted := result.formattedAddress;
    }
    assert Place(city, country, state, formatted) == Primary(google);
    if city == "" {
      var nom := FromNominatim(nominatim);
      if nom.Some? {
        if nom.value.city != "" { city := nom.value.city; }
        if country == "" { country := nom.value.country; }
        if state == "" { state := nom.value.state; }
        if formatted == "" { formatted := nom.value.formattedAddress; }
      }
    }
    return Respond(Place(city, country, state, formatted));
  }
}
