/** What can be read back from the summary line. Names are written verbatim,
    so the line is not a structured format in general; the ASN at its end,
    however, can always be recovered, because decimal digits never contain
    the `(` that introduces it. */
module SummaryGrammar {
  import opened Outcomes
  import opened Decimal
  import opened GeoLib

  /** The position of the last occurrence of `c` in `s`, if any. */
  function LastIndexOf(s: string, c: char): (r: Option<nat>)
    ensures r.Some? ==> r.value < |s| && s[r.value] == c
    ensures r.Some? ==> forall j :: r.value < j < |s| ==> s[j] != c
    ensures r.None? <==> forall j :: 0 <= j < |s| ==> s[j] != c
  {
    if |s| == 0 then None
    else if s[|s| - 1] == c then Some(|s| - 1)
    else LastIndexOf(s[..|s| - 1], c)
  }

  /** Reads the ASN back from a line that ends in `" (<digits>);"`. */
  function ParseSummaryAsn(s: string): Option<nat> {
    if |s| < 2 || s[|s| - 2..] != ");" then None
    else
      var body := s[..|s| - 2];
      match LastIndexOf(body, '(')
      case None => None
      case Some(i) =>
        var digits := body[i + 1..];
        if |digits| > 0 && AllDigits(digits) then Some(DecimalValue(digits)) else None
  }

  /** The ASN is recovered from any summary line, whatever the names contain. */
  lemma SummaryAsnRoundTrip(asn: LookupAsnResult, city: LookupCityResult)
    ensures ParseSummaryAsn(Summary(asn, city)) == Some(asn.asn as int)
  {
    var d := NatToDecimal(asn.asn as int);
    var p := city.city + "," + city.subdivisions.0 + "/" + city.country.0 + "; "
      + asn.asnOrganization;
    var s := Summary(asn, city);
    var body := p + " (" + d;
    assert s == body + ");";
    assert s[..|s| - 2] == body;
    assert s[|s| - 2..] == ");";
    var k := |p| + 1;
    assert body[k] == '(';
    var r := LastIndexOf(body, '(');
    assert r.Some?;
    var i := r.value;
    assert i == k;
    assert body[i + 1..] == d;
    DecimalRoundTrip(asn.asn as int);
  }

  /** Two summary lines that are equal carry the same ASN. */
  lemma SummaryDeterminesAsn(a1: LookupAsnResult, c1: LookupCityResult,
                             a2: LookupAsnResult, c2: LookupCityResult)
    requires Summary(a1, c1) == Summary(a2, c2)
    ensures a1.asn == a2.asn
  {
    SummaryAsnRoundTrip(a1, c1);
    SummaryAsnRoundTrip(a2, c2);
  }

  /** A worked line: Mountain View, California, United States, AS15169. */
  lemma SummaryExample()
    ensures Summary(LookupAsnResult(15169, "Google LLC"),
                    LookupCityResult("Mountain View", ("NA", "North America"),
                                     ("US", "United States"), ("CA", "California")))
         == "Mountain View,CA/US; Google LLC (15169);"
  {
    var asn := LookupAsnResult(15169, "Google LLC");
    var city := LookupCityResult("Mountain View", ("NA", "North America"),
                                 ("US", "United States"), ("CA", "California"));
    assert NatToDecimal(15169) == "15169" by {
      assert NatToDecimal(1) == "1";
      assert NatToDecimal(15) == "15";
      assert NatToDecimal(151) == "151";
      assert NatToDecimal(1516) == "1516";
    }
    assert Summary(asn, city)
        == "Mountain View" + "," + "CA" + "/" + "US" + "; " + "Google LLC" + " (" + "15169" + ");";
  }
}
