/** A per-field defaulting rule: every missing field, name map or English
    name becomes the placeholder on its own. It extends to every field the
    fallback `get("en", "-")` that a TODO in `lookup_city` sketches for the
    city name. The code itself panics in those cases. This module states the
    rule, proves that the code agrees with it on every input where the code
    does not panic, and names inputs where the two part ways. */
module DesignDefaults {
  import opened Outcomes
  import opened GeoIp2
  import opened GeoLib

  function OrDash(o: Option<string>): string {
    match o
    case Some(s) => s
    case None => Dash
  }

  /** The English name, or the placeholder when the map or the key is missing. */
  function SelectLocale(names: Option<Names>): (s: string)
    ensures HasEnglish(names) ==> s == names.value[En]
    ensures !HasEnglish(names) ==> s == Dash
  {
    if HasEnglish(names) then names.value[En] else Dash
  }

  /** `lookup_asn` under the per-field defaulting rule: never panics. */
  function DesignAsn(res: LookupRes<Asn>): LookupAsnResult {
    match res
    case Err(_) => AsnDefault()
    case Ok(r) =>
      LookupAsnResult(
        match r.autonomousSystemNumber case Some(n) => n case None => 0,
        OrDash(r.autonomousSystemOrganization))
  }

  /** `lookup_city` under the per-field defaulting rule: never panics. */
  function DesignCity(res: LookupRes<City>): LookupCityResult {
    match res
    case Err(_) => CityDefault()
    case Ok(r) =>
      LookupCityResult(
        match r.city case Some(p) => SelectLocale(p.names) case None => Dash,
        match r.continent case Some(c) => (OrDash(c.code), SelectLocale(c.names)) case None => (Dash, Dash),
        match r.country case Some(c) => (OrDash(c.isoCode), SelectLocale(c.names)) case None => (Dash, Dash),
        match r.subdivisions
        case Some(list) =>
          if |list| > 0 then (OrDash(list[0].isoCode), SelectLocale(list[0].names)) else (Dash, Dash)
        case None => (Dash, Dash))
  }

  /** Wherever `lookup_asn` returns, it returns what the defaulting rule gives;
      it returns exactly when both fields are present or the lookup failed. */
  lemma LookupAsnAgreesWithDesign(res: LookupRes<Asn>)
    ensures LookupAsn(res).Value? ==> LookupAsn(res).value == DesignAsn(res)
    ensures LookupAsn(res).Panic? <==>
      res.Ok? && (res.value.autonomousSystemNumber.None? || res.value.autonomousSystemOrganization.None?)
  {
  }

  /** Wherever `lookup_city` returns, it returns what the defaulting rule gives. */
  lemma LookupCityAgreesWithDesign(res: LookupRes<City>)
    ensures LookupCity(res).Value? ==> LookupCity(res).value == DesignCity(res)
  {
  }

  /** A city whose names lack English panics, where the rule gives `"-"`. */
  lemma MissingEnglishNamePanics()
    ensures LookupCity(Ok(City(Some(CityPlace(Some(map["fr" := "Paris"]))), None, None, None))) == Panic
    ensures DesignCity(Ok(City(Some(CityPlace(Some(map["fr" := "Paris"]))), None, None, None))).city == Dash
  {
    assert !HasEnglish(Some(map["fr" := "Paris"]));
  }

  /** A number without an organisation panics, where the rule keeps the number. */
  lemma MissingOrganizationPanics()
    ensures LookupAsn(Ok(Asn(Some(15169), None))) == Panic
    ensures DesignAsn(Ok(Asn(Some(15169), None))) == LookupAsnResult(15169, Dash)
  {
  }
}
