/**
 * Address geocoding through the Google geocoding endpoint, memoised per instance
 * (InventorySourceSelection, DistanceProvider/GoogleMap/GetLatLngRequestFromAddress).
 * The HTTP client and JSON decoding are replaced by a function from the query sent to the decoded response.
 */
module GeocodeCache {
  import opened Wrappers
  import opened ApiKey
  import opened GeoNameLookup

  const GoogleEndpoint := "https://maps.google.com/maps/api/geocode/json"

  /** Coordinates, kept as opaque values. */
  datatype LatLng = LatLng(lat: real, lng: real)

  /** The GET request: the endpoint URL and the `key` and `address` parameters of its query string. */
  datatype GeocodeQuery = GeocodeQuery(url: string, key: string, address: string)

  /** An element of `results`, reduced to `geometry.location`. */
  datatype GeocodeResult = GeocodeResult(location: LatLng)

  /** The decoded JSON body: `status` and `results`. */
  datatype GeocodeBody = GeocodeBody(status: string, results: seq<GeocodeResult>)

  datatype HttpResponse = HttpResponse(statusCode: int, body: GeocodeBody)

  datatype GeocodeError =
    | ApiKeyMissing                   // from GetApiKey: 'Google API key is not defined'
    | UnableToConnect                 // 'Unable to connect google API for geocoding'
    | UnableToGeocode(address: string) // 'Unable to geocode address %1'
    | NoResultLocation                // `results[0]` absent although status is "OK"

  /** What a response with an HTTP status of 200 and a body status of "OK" yields; any other response fails. */
  function Decode(response: HttpResponse, address: string): (r: Result<LatLng, GeocodeError>)
    ensures r.Success? <==>
      response.statusCode == 200 && response.body.status == "OK" && response.body.results != []
    ensures r.Success? ==> r.value == response.body.results[0].location
    ensures response.statusCode != 200 ==> r == Failure(UnableToConnect)
    ensures response.statusCode == 200 && response.body.status != "OK" ==> r == Failure(UnableToGeocode(address))
  {
    if response.statusCode != 200 then Failure(UnableToConnect)
    else if response.body.status != "OK" then Failure(UnableToGeocode(address))
    else if response.body.results == [] then Failure(NoResultLocation)
    else Success(response.body.results[0].location)
  }

  class GetLatLngRequestFromAddress {
    /** `$latLngCache`: address string to coordinates. */
    var latLngCache: map<string, LatLng>
    /** The GET requests this instance has sent, oldest first. */
    var sentQueries: seq<GeocodeQuery>

    constructor ()
      ensures latLngCache == map[] && sentQueries == []
    {
      latLngCache := map[];
      sentQueries := [];
    }

    /** `execute($addressRequest)`. `asString` is `AddressRequestInterface::getAsString`, `configuredKey` the
        configuration value of the API key, and `endpoint` what the geocoding service answers to a query. */
    method Execute(
      address: AddressRequest,
      asString: AddressRequest -> string,
      configuredKey: Option<string>,
      endpoint: GeocodeQuery -> HttpResponse)
      returns (r: Result<LatLng, GeocodeError>)
      modifies this
      // A hit answers from the cache and sends nothing.
      ensures asString(address) in old(latLngCache) ==>
        r == Success(old(latLngCache)[asString(address)]) &&
        latLngCache == old(latLngCache) && sentQueries == old(sentQueries)
      // A miss without a usable key fails before any request.
      ensures asString(address) !in old(latLngCache) && GetApiKey(configuredKey).Failure? ==>
        r == Failure(ApiKeyMissing) && latLngCache == old(latLngCache) && sentQueries == old(sentQueries)
      // Otherwise exactly one request, carrying the key and the address string, is sent and its answer decides.
      ensures asString(address) !in old(latLngCache) && GetApiKey(configuredKey).Success? ==>
        var query := GeocodeQuery(GoogleEndpoint, GetApiKey(configuredKey).value, asString(address));
        sentQueries == old(sentQueries) + [query] &&
        r == Decode(endpoint(query), asString(address)) &&
        (r.Success? ==> latLngCache == old(latLngCache)[asString(address) := r.value]) &&
        (r.Failure? ==> latLngCache == old(latLngCache))
      // Entries already cached are never overwritten or removed.
      ensures forall k :: k in old(latLngCache) ==> k in latLngCache && latLngCache[k] == old(latLngCache)[k]
      // After a success the address string is cached with the returned coordinates.
      ensures r.Success? ==> asString(address) in latLngCache && latLngCache[asString(address)] == r.value
    {
      var cacheKey := asString(address);
      if cacheKey in latLngCache {
        r := Success(latLngCache[cacheKey]);
        return;
      }
      var apiKey := GetApiKey(configuredKey);
      if apiKey.Failure? {
        r := Failure(ApiKeyMissing);
        return;
      }
      r := RequestLocation(apiKey.value, cacheKey, endpoint);
    }

    /** The GET request of `execute` with its key and address, its answer decoded, and a successful answer cached. */
    method RequestLocation(apiKey: string, cacheKey: string, endpoint: GeocodeQuery -> HttpResponse)
      returns (r: Result<LatLng, GeocodeError>)
      modifies this
      ensures sentQueries == old(sentQueries) + [GeocodeQuery(GoogleEndpoint, apiKey, cacheKey)]
      ensures r == Decode(endpoint(GeocodeQuery(GoogleEndpoint, apiKey, cacheKey)), cacheKey)
      ensures r.Success? ==> latLngCache == old(latLngCache)[cacheKey := r.value]
      ensures r.Failure? ==> latLngCache == old(latLngCache)
    {
      var query := GeocodeQuery(GoogleEndpoint, apiKey, cacheKey);
      sentQueries := sentQueries + [query];
      r := Decode(endpoint(query), cacheKey);
      if r.Success? {
        latLngCache := latLngCache[cacheKey := r.value];
      }
    }
  }

  /** Two requests whose address strings are equal share one cache entry: the second call sends nothing and
      returns what the first one returned. */
  method RepeatedAddressIsServedFromCache(
    geocoder: GetLatLngRequestFromAddress,
    first: AddressRequest,
    second: AddressRequest,
    asString: AddressRequest -> string,
    configuredKey: Option<string>,
    endpoint: GeocodeQuery -> HttpResponse)
    returns (r1: Result<LatLng, GeocodeError>, r2: Result<LatLng, GeocodeError>)
    requires asString(first) == asString(second)
    modifies geocoder
    ensures r1.Success? ==> r2 == r1
    // Only the first call can send a request, and only on a miss; the second call sends none.
    ensures r1.Success? && asString(first) in old(geocoder.latLngCache) ==>
      geocoder.sentQueries == old(geocoder.sentQueries)
    ensures r1.Success? && asString(first) !in old(geocoder.latLngCache) ==>
      GetApiKey(configuredKey).Success? &&
      geocoder.sentQueries == old(geocoder.sentQueries) + [GeocodeQuery(GoogleEndpoint, GetApiKey(configuredKey).value, asString(first))]
  {
    r1 := geocoder.Execute(first, asString, configuredKey, endpoint);
    ghost var cacheBetween := geocoder.latLngCache;
    ghost var sentBetween := geocoder.sentQueries;
    assert r1.Success? ==> asString(second) in cacheBetween && cacheBetween[asString(second)] == r1.value;
    r2 := geocoder.Execute(second, asString, configuredKey, endpoint);
    assert r1.Success? ==> geocoder.sentQueries == sentBetween;
  }
}
