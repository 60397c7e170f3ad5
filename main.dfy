/** `src/main.rs` repeats the pipeline of `src/lib.rs` for its `address`
    handler. The record types have the same fields in both files and are
    shared here, and so are the four group readers of `lookup_city`, whose
    text differs between the files only in layout. `lookup_asn`, `lookup_city`,
    `get_summary` and the handler's result are the file's own, proved to
    behave exactly as the library's. */
module GeoMain {
  import opened Outcomes
  import opened GeoIp2
  import opened Decimal
  import GeoLib

  /** `lookup_asn` of `src/main.rs`. */
  function LookupAsn(res: LookupRes<Asn>): (o: Outcome<GeoLib.LookupAsnResult>)
    ensures res.Err? ==> o == Value(GeoLib.LookupAsnResult(0, GeoLib.Dash))
    ensures o == GeoLib.LookupAsn(res)
  {
    match res
    case Err(_) => Value(GeoLib.AsnDefault())
    case Ok(r) =>
      match (Unwrap(r.autonomousSystemNumber), Unwrap(r.autonomousSystemOrganization))
      case (Value(number), Value(organization)) =>
        Value(GeoLib.LookupAsnResult(number, organization))
      case _ => Panic
  }

  /** `lookup_city` of `src/main.rs`. */
  function LookupCity(res: LookupRes<City>): (o: Outcome<GeoLib.LookupCityResult>)
    ensures res.Err? ==> o == Value(GeoLib.LookupCityResult(
      GeoLib.Dash, (GeoLib.Dash, GeoLib.Dash), (GeoLib.Dash, GeoLib.Dash), (GeoLib.Dash, GeoLib.Dash)))
    ensures o == GeoLib.LookupCity(res)
  {
    match res
    case Err(_) => Value(GeoLib.CityDefault())
    case Ok(r) =>
      match (GeoLib.CityGroup(r.city), GeoLib.ContinentGroup(r.continent),
             GeoLib.CountryGroup(r.country), GeoLib.SubdivisionGroup(r.subdivisions))
      case (Value(city), Value(continent), Value(country), Value(subdivisions)) =>
        Value(GeoLib.LookupCityResult(city, continent, country, subdivisions))
      case _ => Panic
  }

  /** `get_summary` of `src/main.rs`, appending one-character strings where
      the library appends characters; the line is the same. */
  method GetSummary(asn: GeoLib.LookupAsnResult, city: GeoLib.LookupCityResult) returns (summary: string)
    ensures summary == GeoLib.Summary(asn, city)
  {
    summary := "";
    summary := summary + city.city;
    summary := summary + ",";
    summary := summary + city.subdivisions.0;
    summary := summary + "/";
    summary := summary + city.country.0;
    summary := summary + "; ";
    summary := summary + asn.asnOrganization;
    summary := summary + " (";
    summary := summary + NatToDecimal(asn.asn as int);
    summary := summary + ");";
  }

  /** The record the `address` handler builds for a parsed address. */
  function AddressResult(address: IpAddr, asnRes: LookupRes<Asn>, cityRes: LookupRes<City>)
    : (o: Outcome<GeoLib.LookupResult>)
    ensures o.Value? ==> o.value.address == address
    ensures o == GeoLib.Lookup(address, asnRes, cityRes)
  {
    match (LookupAsn(asnRes), LookupCity(cityRes))
    case (Value(asnResult), Value(cityResult)) =>
      Value(GeoLib.LookupResult(
        address, asnResult.asn, asnResult.asnOrganization, cityResult.city,
        cityResult.continent, cityResult.country, cityResult.subdivisions,
        GeoLib.Summary(asnResult, cityResult)))
    case _ => Panic
  }
}
