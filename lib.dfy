/** The lookup-normalisation pipeline of `src/lib.rs`: the result handling of
    `lookup_asn` and `lookup_city`, the summary line of `get_summary`, and the
    record `lookup` assembles from them. Every `unwrap()` and the
    `subdivisions[0]` index are panic points; a panic is the outcome `Panic`. */
module GeoLib {
  import opened Outcomes
  import opened GeoIp2
  import opened Decimal

  /** The placeholder written wherever a lookup failed. */
  const Dash: string := "-"

  /** The only locale whose name is read. */
  const En: string := "en"

  /** `LookupAsnResult`. */
  datatype LookupAsnResult = LookupAsnResult(asn: u32, asnOrganization: string)

  /** `LookupCityResult`; each pair is (code, English name). */
  datatype LookupCityResult = LookupCityResult(
    city: string,
    continent: (string, string),
    country: (string, string),
    subdivisions: (string, string))

  /** `LookupResult`, the flat record the service returns. */
  datatype LookupResult = LookupResult(
    address: IpAddr,
    asn: u32,
    asnOrganization: string,
    city: string,
    continent: (string, string),
    country: (string, string),
    subdivisions: (string, string),
    summary: string)

  /** `asn_result_default`: ASN zero with the placeholder organisation. */
  function AsnDefault(): (r: LookupAsnResult)
    ensures r.asn == 0 && r.asnOrganization == Dash
  {
    LookupAsnResult(0, Dash)
  }

  /** `city_result_default`: the placeholder in every slot. */
  function CityDefault(): (r: LookupCityResult)
    ensures r.city == Dash
    ensures r.continent.0 == Dash && r.continent.1 == Dash
    ensures r.country.0 == Dash && r.country.1 == Dash
    ensures r.subdivisions.0 == Dash && r.subdivisions.1 == Dash
  {
    LookupCityResult(Dash, (Dash, Dash), (Dash, Dash), (Dash, Dash))
  }

  /** `names.unwrap().get("en").unwrap()` succeeds. */
  predicate HasEnglish(names: Option<Names>) {
    names.Some? && En in names.value
  }

  /** `names.unwrap().get("en").unwrap().to_string()`. */
  function EnglishName(names: Option<Names>): (r: Outcome<string>)
    ensures r.Value? <==> HasEnglish(names)
    ensures r.Value? ==> r.value == names.value[En]
  {
    match names
    case None => Panic
    case Some(m) => if En in m then Value(m[En]) else Panic
  }

  /** The result handling of `lookup_asn`: the default on a lookup error,
      otherwise both fields through `unwrap`, with no per-field default. */
  function LookupAsn(res: LookupRes<Asn>): (o: Outcome<LookupAsnResult>)
    ensures res.Err? ==> o == Value(LookupAsnResult(0, Dash))
    ensures res.Ok? ==> (o.Value? <==>
      res.value.autonomousSystemNumber.Some? && res.value.autonomousSystemOrganization.Some?)
    ensures res.Ok? && o.Value? ==>
      o.value.asn == res.value.autonomousSystemNumber.value &&
      o.value.asnOrganization == res.value.autonomousSystemOrganization.value
  {
    match res
    case Err(_) => Value(AsnDefault())
    case Ok(r) =>
      match (Unwrap(r.autonomousSystemNumber), Unwrap(r.autonomousSystemOrganization))
      case (Value(number), Value(organization)) => Value(LookupAsnResult(number, organization))
      case _ => Panic
  }

  /** The `city` group of `lookup_city`. */
  function CityGroup(g: Option<CityPlace>): (o: Outcome<string>)
    ensures g.None? ==> o == Value(Dash)
    ensures g.Some? ==> (o.Value? <==> g.value.names.Some? && En in g.value.names.value)
    ensures g.Some? && o.Value? ==> o.value == g.value.names.value[En]
  {
    match g
    case None => Value(Dash)
    case Some(place) => EnglishName(place.names)
  }

  /** A (code, English name) pair read through `code.unwrap()` and the names
      chain; the common shape of the continent, country and subdivision groups. */
  function CodeAndName(code: Option<string>, names: Option<Names>): (o: Outcome<(string, string)>)
    ensures o.Value? <==> code.Some? && HasEnglish(names)
    ensures o.Value? ==> o.value == (code.value, names.value[En])
  {
    match (Unwrap(code), EnglishName(names))
    case (Value(c), Value(n)) => Value((c, n))
    case _ => Panic
  }

  /** The `continent` group of `lookup_city`. */
  function ContinentGroup(g: Option<Continent>): (o: Outcome<(string, string)>)
    ensures g.None? ==> o == Value((Dash, Dash))
    ensures g.Some? ==> (o.Value? <==> g.value.code.Some? && HasEnglish(g.value.names))
    ensures g.Some? && o.Value? ==> o.value == (g.value.code.value, g.value.names.value[En])
  {
    match g
    case None => Value((Dash, Dash))
    case Some(c) => CodeAndName(c.code, c.names)
  }

  /** The `country` group of `lookup_city`. */
  function CountryGroup(g: Option<Country>): (o: Outcome<(string, string)>)
    ensures g.None? ==> o == Value((Dash, Dash))
    ensures g.Some? ==> (o.Value? <==> g.value.isoCode.Some? && HasEnglish(g.value.names))
    ensures g.Some? && o.Value? ==> o.value == (g.value.isoCode.value, g.value.names.value[En])
  {
    match g
    case None => Value((Dash, Dash))
    case Some(c) => CodeAndName(c.isoCode, c.names)
  }

  /** The `subdivisions` group of `lookup_city`: only element 0 is read, and
      indexing an empty list panics. */
  function SubdivisionGroup(g: Option<seq<Subdivision>>): (o: Outcome<(string, string)>)
    ensures g.None? ==> o == Value((Dash, Dash))
    ensures g.Some? ==> (o.Value? <==>
      |g.value| > 0 && g.value[0].isoCode.Some? && HasEnglish(g.value[0].names))
    ensures g.Some? && o.Value? ==>
      o.value == (g.value[0].isoCode.value, g.value[0].names.value[En])
  {
    match g
    case None => Value((Dash, Dash))
    case Some(list) =>
      if |list| == 0 then Panic else CodeAndName(list[0].isoCode, list[0].names)
  }

  /** The result handling of `lookup_city`: the all-placeholder default on a
      lookup error; otherwise each of the four groups on its own, and a panic
      in any one of them panics the whole call. */
  function LookupCity(res: LookupRes<City>): (o: Outcome<LookupCityResult>)
    ensures res.Err? ==> o == Value(LookupCityResult(Dash, (Dash, Dash), (Dash, Dash), (Dash, Dash)))
    ensures res.Ok? ==> (o.Value? <==>
      && CityGroup(res.value.city).Value?
      && ContinentGroup(res.value.continent).Value?
      && CountryGroup(res.value.country).Value?
      && SubdivisionGroup(res.value.subdivisions).Value?)
    ensures res.Ok? && o.Value? ==>
      && o.value.city == CityGroup(res.value.city).value
      && o.value.continent == ContinentGroup(res.value.continent).value
      && o.value.country == CountryGroup(res.value.country).value
      && o.value.subdivisions == SubdivisionGroup(res.value.subdivisions).value
  {
    match res
    case Err(_) => Value(CityDefault())
    case Ok(r) =>
      match (CityGroup(r.city), ContinentGroup(r.continent), CountryGroup(r.country),
             SubdivisionGroup(r.subdivisions))
      case (Value(city), Value(continent), Value(country), Value(subdivisions)) =>
        Value(LookupCityResult(city, continent, country, subdivisions))
      case _ => Panic
  }

  /** A group that is absent defaults to the placeholder whatever the other
      groups hold, as long as none of them panics. */
  lemma AbsentGroupsDefault(r: City)
    requires LookupCity(Ok(r)).Value?
    ensures r.city.None? ==> LookupCity(Ok(r)).value.city == Dash
    ensures r.continent.None? ==> LookupCity(Ok(r)).value.continent == (Dash, Dash)
    ensures r.country.None? ==> LookupCity(Ok(r)).value.country == (Dash, Dash)
    ensures r.subdivisions.None? ==> LookupCity(Ok(r)).value.subdivisions == (Dash, Dash)
  {
  }

  /** Each output field depends on its own group only: two records that agree
      on a group give that group's field the same value. */
  lemma GroupsIndependent(r1: City, r2: City)
    requires LookupCity(Ok(r1)).Value? && LookupCity(Ok(r2)).Value?
    ensures r1.city == r2.city ==> LookupCity(Ok(r1)).value.city == LookupCity(Ok(r2)).value.city
    ensures r1.continent == r2.continent ==>
      LookupCity(Ok(r1)).value.continent == LookupCity(Ok(r2)).value.continent
    ensures r1.country == r2.country ==>
      LookupCity(Ok(r1)).value.country == LookupCity(Ok(r2)).value.country
    ensures r1.subdivisions == r2.subdivisions ==>
      LookupCity(Ok(r1)).value.subdivisions == LookupCity(Ok(r2)).value.subdivisions
  {
  }

  /** Subdivisions after the first never affect the outcome. */
  lemma FirstSubdivisionOnly(r: City, first: Subdivision, rest1: seq<Subdivision>, rest2: seq<Subdivision>)
    ensures LookupCity(Ok(r.(subdivisions := Some([first] + rest1))))
         == LookupCity(Ok(r.(subdivisions := Some([first] + rest2))))
  {
  }

  /** A present but empty subdivision list panics, whatever else the record holds. */
  lemma EmptySubdivisionsPanic(r: City)
    requires r.subdivisions == Some([])
    ensures LookupCity(Ok(r)) == Panic
  {
  }

  /** The summary line `"<city>,<subdivision code>/<country code>; <organization> (<asn>);"`:
      it starts with the city name and a comma, ends with the decimal ASN in
      parentheses and `;`, and adds eight delimiter characters to the five fields. */
  function Summary(asn: LookupAsnResult, city: LookupCityResult): (s: string)
    ensures |s| == |city.city| + |city.subdivisions.0| + |city.country.0|
                 + |asn.asnOrganization| + |NatToDecimal(asn.asn as int)| + 8
    ensures s[..|city.city|] == city.city && s[|city.city|] == ','
    ensures s[|s| - |NatToDecimal(asn.asn as int)| - 4..] == " (" + NatToDecimal(asn.asn as int) + ");"
  {
    city.city + "," + city.subdivisions.0 + "/" + city.country.0 + "; "
      + asn.asnOrganization + " (" + NatToDecimal(asn.asn as int) + ");"
  }

  /** `get_summary`: builds the line by appending to a growing string. */
  method GetSummary(asn: LookupAsnResult, city: LookupCityResult) returns (summary: string)
    ensures summary == Summary(asn, city)
  {
    summary := "";
    summary := summary + city.city;
    summary := summary + [','];
    summary := summary + city.subdivisions.0;
    summary := summary + ['/'];
    summary := summary + city.country.0;
    summary := summary + "; ";
    summary := summary + asn.asnOrganization;
    summary := summary + " (";
    summary := summary + NatToDecimal(asn.asn as int);
    summary := summary + ");";
  }

  /** `lookup`: both lookups, the summary, and the address echoed back. It
      panics exactly when one of the two lookups does. */
  function Lookup(addr: IpAddr, asnRes: LookupRes<Asn>, cityRes: LookupRes<City>): (o: Outcome<LookupResult>)
    ensures o.Value? <==> LookupAsn(asnRes).Value? && LookupCity(cityRes).Value?
    ensures o.Value? ==>
      var asn := LookupAsn(asnRes).value;
      var city := LookupCity(cityRes).value;
      && o.value.address == addr
      && o.value.asn == asn.asn
      && o.value.asnOrganization == asn.asnOrganization
      && o.value.city == city.city
      && o.value.continent == city.continent
      && o.value.country == city.country
      && o.value.subdivisions == city.subdivisions
      && o.value.summary == Summary(asn, city)
  {
    match (LookupAsn(asnRes), LookupCity(cityRes))
    case (Value(asn), Value(city)) =>
      Value(LookupResult(addr, asn.asn, asn.asnOrganization, city.city, city.continent,
                         city.country, city.subdivisions, Summary(asn, city)))
    case _ => Panic
  }

  /** With both lookups failing, the record is all placeholders and the
      summary is `"-,-/-; - (0);"`. */
  lemma LookupBothFailed(addr: IpAddr, asnErr: MaxMindDbError, cityErr: MaxMindDbError)
    ensures Lookup(addr, Err(asnErr), Err(cityErr))
         == Value(LookupResult(addr, 0, Dash, Dash, (Dash, Dash), (Dash, Dash), (Dash, Dash), "-,-/-; - (0);"))
  {
    assert NatToDecimal(0) == "0";
    assert Summary(AsnDefault(), CityDefault()) == "-,-/-; - (0);";
  }
}
