/**
 * The three-stage geoname lookup used by distance-based source selection
 * (InventorySourceSelection, ResourceModel/GetGeoNameDataByAddressRequest).
 * The `inventory_geoname` table is a sequence of rows; the lookup only reads it.
 */
module GeoNameLookup {
  import opened Wrappers

  /** The destination address of a source-selection request. */
  datatype AddressRequest = AddressRequest(
    country: string, postcode: string, street: string, region: string, city: string)

  /** A row of the `inventory_geoname` table. */
  datatype GeoNameRow = GeoNameRow(
    countryCode: string, postcode: string, city: string, region: string,
    latitude: real, longitude: real)

  /** The WHERE clause of one lookup stage. */
  datatype Criterion =
    | CountryAndPostcode(country: string, postcode: string)
    | CityIs(city: string)
    | RegionIs(region: string)

  /** `NoSuchEntityException('Unknown geoname for %1')`, carrying the address. */
  datatype GeoNameError = UnknownGeoname(address: AddressRequest)

  predicate Matches(row: GeoNameRow, c: Criterion)
  {
    match c
    case CountryAndPostcode(country, postcode) => row.countryCode == country && row.postcode == postcode
    case CityIs(city) => row.city == city
    case RegionIs(region) => row.region == region
  }

  /** `fetchRow(SELECT * WHERE <criterion> LIMIT 1)`. The query has no ORDER BY, so the database may return
      any matching row; the model returns the first one in table order. */
  function FetchRow(table: seq<GeoNameRow>, c: Criterion): (r: Option<GeoNameRow>)
    ensures r.Some? ==> r.value in table && Matches(r.value, c)
    ensures r.None? <==> forall row :: row in table ==> !Matches(row, c)
  {
    if table == [] then None
    else if Matches(table[0], c) then Some(table[0])
    else FetchRow(table[1..], c)
  }

  /** The three stages in the order they are tried. */
  function Stage1(a: AddressRequest): Criterion { CountryAndPostcode(a.country, a.postcode) }
  function Stage2(a: AddressRequest): Criterion { CityIs(a.city) }
  function Stage3(a: AddressRequest): Criterion { RegionIs(a.region) }

  predicate AnyMatch(table: seq<GeoNameRow>, c: Criterion)
  {
    exists row :: row in table && Matches(row, c)
  }

  /** `GetGeoNameDataByAddressRequest::execute`: country and postcode, else city, else region, else an error. */
  function GetGeoNameData(table: seq<GeoNameRow>, address: AddressRequest): (r: Result<GeoNameRow, GeoNameError>)
    ensures r.Success? ==> r.value in table
  {
    var byPostcode := FetchRow(table, Stage1(address));
    if byPostcode.Some? then Success(byPostcode.value)
    else
      var byCity := FetchRow(table, Stage2(address));
      if byCity.Some? then Success(byCity.value)
      else
        var byRegion := FetchRow(table, Stage3(address));
        if byRegion.Some? then Success(byRegion.value)
        else Failure(UnknownGeoname(address))
  }

  /** When some row has the address's country code and postcode, such a row is returned. */
  lemma PostcodeStageWins(table: seq<GeoNameRow>, address: AddressRequest)
    requires AnyMatch(table, Stage1(address))
    ensures GetGeoNameData(table, address).Success?
    ensures var row := GetGeoNameData(table, address).value;
      row.countryCode == address.country && row.postcode == address.postcode
  {
  }

  /** The city stage runs only when no row matched country and postcode, and it matches on the city alone. */
  lemma CityStageIsSecond(table: seq<GeoNameRow>, address: AddressRequest)
    requires !AnyMatch(table, Stage1(address)) && AnyMatch(table, Stage2(address))
    ensures GetGeoNameData(table, address).Success?
    ensures GetGeoNameData(table, address).value.city == address.city
  {
  }

  /** The region stage runs only when both earlier stages found nothing. */
  lemma RegionStageIsLast(table: seq<GeoNameRow>, address: AddressRequest)
    requires !AnyMatch(table, Stage1(address)) && !AnyMatch(table, Stage2(address))
    ensures GetGeoNameData(table, address).Success? <==> AnyMatch(table, Stage3(address))
    ensures GetGeoNameData(table, address).Success? ==>
      GetGeoNameData(table, address).value.region == address.region
  {
  }

  /** The lookup fails, with the address in the error, exactly when no stage matches any row. */
  lemma UnknownGeonameIff(table: seq<GeoNameRow>, address: AddressRequest)
    ensures GetGeoNameData(table, address) == Failure(UnknownGeoname(address)) <==>
      (!AnyMatch(table, Stage1(address)) && !AnyMatch(table, Stage2(address)) && !AnyMatch(table, Stage3(address)))
  {
  }

  /** A returned row meets the criterion of the stage that produced it, and every earlier stage matched
      nothing. */
  lemma ResultMeetsItsStage(table: seq<GeoNameRow>, address: AddressRequest)
    requires GetGeoNameData(table, address).Success?
    ensures var row := GetGeoNameData(table, address).value;
      Matches(row, Stage1(address)) ||
      (!AnyMatch(table, Stage1(address)) && Matches(row, Stage2(address))) ||
      (!AnyMatch(table, Stage1(address)) && !AnyMatch(table, Stage2(address)) && Matches(row, Stage3(address)))
  {
  }

  /** The city stage does not filter on the country: a row of another country with the same city is found. */
  lemma CityStageIgnoresCountry()
    ensures var row := GeoNameRow("DE", "10115", "Springfield", "Berlin", 52.5, 13.4);
      GetGeoNameData([row], AddressRequest("US", "62701", "1 Main St", "Illinois", "Springfield")) == Success(row)
  {
  }
}
