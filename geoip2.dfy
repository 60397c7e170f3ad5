/** The records the MaxMind reader hands back to the service. The reader
    itself (file handling, the binary database format) is not modelled: a
    lookup result enters the model as a value of type `LookupRes`. */
module GeoIp2 {
  import opened Outcomes

  /** Rust's `u32`. */
  newtype u32 = x: int | 0 <= x < 0x1_0000_0000

  /** `std::net::IpAddr`: only ever echoed back, never inspected. */
  datatype IpAddr = V4(v4: bv32) | V6(v6: bv128)

  /** The kinds of `MaxMindDBError`; the service treats them all alike. */
  datatype MaxMindDbError =
    | AddressNotFound | InvalidDatabase | Io | Map | Decoding | InvalidNetwork

  /** `Result<T, MaxMindDBError>` as returned by `Reader::lookup`. */
  datatype LookupRes<+T> = Ok(value: T) | Err(error: MaxMindDbError)

  /** A locale-keyed names map (`BTreeMap<&str, &str>`). */
  type Names = map<string, string>

  /** `geoip2::Asn`. */
  datatype Asn = Asn(
    autonomousSystemNumber: Option<u32>,
    autonomousSystemOrganization: Option<string>)

  /** `geoip2::city::City`. */
  datatype CityPlace = CityPlace(names: Option<Names>)

  /** `geoip2::city::Continent`. */
  datatype Continent = Continent(code: Option<string>, names: Option<Names>)

  /** `geoip2::city::Country`. */
  datatype Country = Country(isoCode: Option<string>, names: Option<Names>)

  /** `geoip2::city::Subdivision`. */
  datatype Subdivision = Subdivision(isoCode: Option<string>, names: Option<Names>)

  /** `geoip2::City`, restricted to the four groups the service reads. */
  datatype City = City(
    city: Option<CityPlace>,
    continent: Option<Continent>,
    country: Option<Country>,
    subdivisions: Option<seq<Subdivision>>)
}
