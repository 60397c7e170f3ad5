# Geo widget lookup pipeline, modelled in Dafny

The service answers "what is known about this IP address?" from two MaxMind
databases (GeoLite2-ASN and GeoLite2-City). This project models the part of
it that turns the two MaxMind lookup results into the flat record the service
returns:

- `lookup_asn` maps the ASN lookup result to `{asn, asn_organization}`. A
  lookup error gives `{0, "-"}`. A found record has both fields taken
  through `unwrap`.
- `lookup_city` maps the City lookup result to
  `{city, continent, country, subdivisions}`. A lookup error gives all
  placeholders (`"-"`). A found record has each of the four groups read on its
  own. An absent group gives `"-"` or `("-", "-")`. A present group is read
  through `unwrap` on its code, its names map and the `"en"` entry. For
  subdivisions, only element 0 is read.
- `get_summary` appends the pieces of
  `"<city>,<subdivision code>/<country code>; <organization> (<asn>);"`
  to a string.
- `lookup` (and the `address` handler in `src/main.rs`) combines the three and
  echoes the address.

The reader call is replaced by an input value of type
`GeoIp2.LookupRes<T> = Ok(T) | Err(MaxMindDbError)`. Each `unwrap` and the
`subdivisions[0]` index are panic points: every function that reaches one
returns `Outcomes.Outcome = Value(x) | Panic`. An ASN is a `u32` newtype, and
its `to_string` is `Decimal.NatToDecimal`. That function is proved to be
read back exactly by `Decimal.DecimalValue`.

The code defaults only at the top level: a failed lookup gives the default
record, and a found record is read through `unwrap`. A TODO in
`lookup_city` sketches a gentler names lookup, `get("en", "-")`, for the
city name. `DesignDefaults` extends that fallback to every field as a
per-field defaulting rule. Under that rule a present group without its
code, names map or English name gives the placeholder, where the code
panics. The code also panics on an empty subdivision list and on an ASN
record missing either field. The model follows the code. `DesignDefaults`
proves that the code agrees with the rule on every input where the code
does not panic, and it names inputs where the two differ.

Modules: `Outcomes` (Option, Outcome, unwrap), `GeoIp2` (the reader's
records), `Decimal` (`to_string` of an unsigned integer), `GeoLib`
(`src/lib.rs`), `SummaryGrammar` (what the summary line determines),
`DesignDefaults` (the defaulting rule), `GeoMain` (`src/main.rs`).

## Model

| member | source | states |
|---|---|---|
| `Outcomes.Unwrap` | src/lib.rs:58-59 | `Option::unwrap`: the wrapped value exactly when it is `Some`, a panic on `None` |
| `Decimal.NatToDecimal` | src/lib.rs:219 | `to_string` of the ASN: a non-empty string of decimal digits with no leading zero, `"0"` for zero |
| `Decimal.DecimalRoundTrip` | src/lib.rs:219 | reading the rendered digits back gives the number |
| `Decimal.DecimalInjective` | src/lib.rs:219 | different ASNs render differently |
| `GeoLib.AsnDefault` | src/lib.rs:40-43 | `asn_result_default`: ASN 0 with organisation `"-"` |
| `GeoLib.CityDefault` | src/lib.rs:90-95 | `city_result_default`: `"-"` in the city slot and in both halves of every pair |
| `GeoLib.EnglishName` | src/lib.rs:117-121 | `names.unwrap().get("en").unwrap()` returns the `"en"` entry when the map and the key exist, and panics otherwise |
| `GeoLib.LookupAsn` | src/lib.rs:56-69 | Err gives exactly `{0, "-"}`. Ok returns exactly when number and organisation are both present, and then copies both verbatim. Otherwise it panics: there is no per-field default |
| `GeoLib.CityGroup` | src/lib.rs:111-122 | an absent city gives `"-"`. A present one gives its `"en"` name, or panics when the names map or the key is missing |
| `GeoLib.CodeAndName` | src/lib.rs:128-132 | a (code, English name) pair is returned exactly when the code and the `"en"` name both exist; otherwise it panics |
| `GeoLib.ContinentGroup` | src/lib.rs:125-134 | an absent continent gives `("-","-")`. A present one gives (code, `"en"` name) verbatim, or panics |
| `GeoLib.CountryGroup` | src/lib.rs:137-146 | an absent country gives `("-","-")`. A present one gives (iso code, `"en"` name) verbatim, or panics |
| `GeoLib.SubdivisionGroup` | src/lib.rs:149-164 | an absent list gives `("-","-")`. Otherwise element 0 gives (iso code, `"en"` name). An empty list or a missing part panics |
| `GeoLib.LookupCity` | src/lib.rs:108-188 | Err gives the all-`"-"` record. Ok returns exactly when none of the four groups panics, and each output field is then its own group's value |
| `GeoLib.AbsentGroupsDefault` | src/lib.rs:111-164 | on a non-panicking Ok, every absent group is `"-"` / `("-","-")` whatever the other groups hold |
| `GeoLib.GroupsIndependent` | src/lib.rs:111-177 | two records agreeing on a group give the same output for that group |
| `GeoLib.FirstSubdivisionOnly` | src/lib.rs:149-163 | subdivisions after the first never change the outcome |
| `GeoLib.EmptySubdivisionsPanic` | src/lib.rs:152-154 | a present but empty subdivision list panics on `[0]` |
| `GeoLib.Summary` | src/lib.rs:209-221 | the summary line starts with the city name and a comma and ends with `" (" ++ decimal(asn) ++ ");"`. Its length is the five fields plus eight delimiter characters |
| `GeoLib.GetSummary` | src/lib.rs:208-222 | the appended string equals the summary grammar `city,subdiv/country; org (asn);` |
| `GeoLib.Lookup` | src/lib.rs:225-246 | returns exactly when both lookups return. The address is echoed, the ASN fields and the city fields are those of the two lookups, and the summary is built from them |
| `GeoLib.LookupBothFailed` | src/lib.rs:225-246 | two failed lookups give the all-placeholder record with summary `"-,-/-; - (0);"` |
| `SummaryGrammar.SummaryAsnRoundTrip` | src/lib.rs:208-222 | the ASN is recovered from any summary line, whatever the names contain |
| `SummaryGrammar.SummaryDeterminesAsn` | src/lib.rs:216-220 | equal summary lines carry equal ASNs |
| `SummaryGrammar.SummaryExample` | src/lib.rs:208-222 | Mountain View / CA / US with AS15169 "Google LLC" gives `"Mountain View,CA/US; Google LLC (15169);"` |
| `DesignDefaults.SelectLocale` | src/lib.rs:113 | the `get("en", "-")` the comment asks for: the English name, or `"-"` when the map or key is missing |
| `DesignDefaults.LookupAsnAgreesWithDesign` | src/lib.rs:53-69 | wherever `lookup_asn` returns, it returns the per-field default result. It panics exactly on an Ok record missing a field |
| `DesignDefaults.LookupCityAgreesWithDesign` | src/lib.rs:106-188 | wherever `lookup_city` returns, it returns the per-field default result |
| `DesignDefaults.MissingEnglishNamePanics` | src/lib.rs:114-121 | a city whose names map holds only `"fr"` panics, where the defaulting rule gives `"-"` |
| `DesignDefaults.MissingOrganizationPanics` | src/lib.rs:57-60 | an ASN record with a number but no organisation panics, where the rule gives `{number, "-"}` |
| `GeoMain.LookupAsn` | src/main.rs:70-87 | Err gives `{0, "-"}`. On every input it has the same outcome as the `src/lib.rs` version |
| `GeoMain.LookupCity` | src/main.rs:137-216 | Err gives the all-`"-"` record. On every input it has the same outcome as the `src/lib.rs` version |
| `GeoMain.GetSummary` | src/main.rs:221-235 | the `push_str(",")`/`push_str("/")` version builds the same line as the `push(',')`/`push('/')` one |
| `GeoMain.AddressResult` | src/main.rs:288-300 | the handler's record echoes the address and equals `lookup`'s record on every input |

## Left out

- `Reader::open_readfile(...).unwrap()` and `reader.lookup(addr)`: file I/O and the MaxMind binary format. A lookup result is an input value, so a missing or unreadable database file (a panic in the source) is not modelled.
- `lookup_metadata`: returns the reader's metadata unchanged and decides nothing.
- A database freshness or staleness check: no such code exists in `src/lib.rs` or `src/main.rs`.
- The `debug`/`verbose` printing and the empty `//TODO` branches: output only.
- The actix-web routes `default` and `ping`, `AppData`, `actix_main`, logger and server setup, the clap `Args` and `main`: process plumbing.
- Parsing the address string (`parse::<IpAddr>().unwrap()` in the `address` handler): the address enters as an already-valid `IpAddr`, and only the handler's result assembly is modelled.
- JSON serialisation of `LookupResult`.
- `Outcome`: a panic carries no message, and the model does not say which `unwrap` fired first. The functions are pure, so evaluation order cannot change a returned value.
- `GeoMain`: the record structs of `src/main.rs` are separate Rust types with the same fields as those of `src/lib.rs`. The model uses one set of datatypes for both. The four group readers inside `lookup_city` (src/main.rs:140-189) are shared with the `src/lib.rs` model too, so that part of `src/main.rs` has no members of its own.
