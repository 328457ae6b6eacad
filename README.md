# nasumilu/geocoder: the provider-adapter layer in Dafny

This project models the adapter layer of the `nasumilu/geocoder` PHP library.

Forward geocoding works like this:
- an option bag is resolved against a geocoder's declared option schema;
- each provider turns the resolved options into its query-parameter map;
- each provider turns the decoded JSON body of its response into an ordered, keyed array of `{address, score, location}` rows;
- the common `geocode` pipeline replaces each row's `[x, y]` with a point of the caller's geometry factory, then optionally filters the rows.

There are five HTTP adapters: Esri World, Google, HERE, TomTom and TAMU.

Reverse geocoding reads an `[x, y]` pair, or an `x`/`y` map, from a location array and checks it three ways. It sends a provider-specific query (Esri World, HERE) and answers with one `AddressCandidate` with a null score, or with null.

`AddressCandidate` is an immutable record with a fixed GeoJSON-like serialised form. It is also what the HERE adapter of the `Geocoder` namespace returns.

Files, one module each:

| file | module | models |
|---|---|---|
| `php.dfy` | `Php` | PHP values and arrays, truthiness (`array_filter`), `??` lookups, `rtrim`, `implode`, `str_replace`, `is_numeric`, loose `== 0`, string conversion |
| `geocoder.dfy` | `Geocoder` | option-key constants, rows, error outcomes, `toArray` of a response |
| `abstract_geocoder.dfy` | `AbstractGeocoder` | the option schema and its resolution, the `geocode` pipeline |
| `http_get_geocoder.dfy` | `HttpGetGeocoder` | the `path`/`headers`/`auth` options and the request built from the path and query |
| `esri_world_geocoder.dfy`, `google_geocoder.dfy`, `here_geocoder.dfy`, `tomtom_geocoder.dfy`, `tamu_geocoder.dfy` | one per adapter | `configureOptions`, `query`, `mapResponse`, `geocode` |
| `address_candidate.dfy` | `Candidate` | `AddressCandidate` and `jsonSerialize` |
| `abstract_reverse_geocoder.dfy` | `AbstractReverseGeocoder` | `reverseGeocode` |
| `reverse_esri_world.dfy`, `reverse_here.dfy` | `ReverseEsriWorld`, `ReverseHere` | the reverse adapters' `query` and `mapCandidates` |
| `geocoder_here.dfy` | `GeocoderHere` | `Geocoder/Here`: `query` and `mapCandidates` |

How PHP is modelled:
- **Values.** A PHP value is `Php.Value`. An array is an ordered sequence of `(key, value)` entries. A float is carried as the text PHP prints for it. The geometry factory is known only by its SRID.
- **Numbers in rows.** `(float)` casts and `* 100` stay symbolic: `Geocoder.Num`.
- **Lookups.** `$a['k']` and `$a['k'] ?? null` both read as null when the key is missing or `$a` is not an array.
- **Errors.** A PHP `Error` (TypeError, undefined constant) is `TypeFault`, and `catch (Exception)` does not catch it. An HTTP client exception is `Transport(kind)`. A `GeocoderException` wrapping `e` is `GeocoderError(Some(e))`.
- **Imperative code.** A `foreach` that appends, an `.=` sequence, and the in-place location loop are each a `method` with loop invariants. Each is proved equal to a specification function, and the lemmas are proved about that function.

Where the specification and the code disagree, the model follows the code, with one exception. `reverseGeocode` is modelled with the intended check errors, because the checks as written raise a TypeError (see "## Findings"). For the code as written, see `AbstractReverseGeocoder.CoordinatesAsWritten`.
- **Empty address.** An empty address passes validation (`AbstractGeocoder.EmptyAddressResolves`). Nothing local rejects it.
- **Empty values in queries.** Empty values are not always left out:
  - TAMU always sends `allowTies`, as `"true"` or `"false"`, and sends `streetAddress`, `apiKey` and `format` whatever their value.
  - `Geocoder/Here` and the HERE reverse adapter do not filter their queries.
- **Empty results.** An empty result is not always an error:
  - TomTom can return no rows when `totalResults` is non-zero.
  - `Geocoder/Here` has no count check.
- **Exception wrapping.** Errors are not uniformly wrapped:
  - Esri wraps nothing.
  - HERE wraps only client (4xx) failures.
  - TAMU wraps only an undecodable body.
  - Google and TomTom wrap everything, including their own `NoCandidatesFoundException`.
- **Reverse numeric check.** The check fails only when both coordinates are non-numeric.
- **Coordinates unconverted.** Reverse candidates echo the coordinates unconverted. `Geocoder/Here` does not cast its coordinates.
- **TAMU census year.** It may be any string or int, not only a selection of the three years.
- **Validation order.** Defaults are merged before the required and type checks.

## Model

| member | source | states |
|---|---|---|
| AbstractGeocoder.Resolve | src/AbstractGeocoder.php:42-65 | Resolution fails with all required options that lack a value. Otherwise it fails with an option of a wrong type or disallowed value. Otherwise it gives the caller's options over the defaults. It succeeds exactly when those satisfy every rule. |
| AbstractGeocoder.BaseResolution | src/AbstractGeocoder.php:45-64 | Resolved options have the declared types: a string address; string neighborhood, city, region and country when given; a string-or-int postal code. The factory is the caller's own, because it has no default. |
| AbstractGeocoder.RequiredOptions | src/AbstractGeocoder.php:45-49 | Without a factory or an address, resolution fails and names the missing ones. |
| AbstractGeocoder.EmptyAddressResolves | src/AbstractGeocoder.php:48-49 | A factory plus an empty-string address resolves, with a postal code given as a string or as an int. |
| AbstractGeocoder.OptionalPartsTyped | src/AbstractGeocoder.php:51-64 | A non-string neighborhood, city, region or country is rejected. So is a postal code that is neither a string nor an int. |
| AbstractGeocoder.Located | src/AbstractGeocoder.php:86-89 | The rows keep their number, keys, order, addresses and scores. Only each location becomes a point of the factory's SRID. |
| AbstractGeocoder.PlaceLocations | src/AbstractGeocoder.php:86-89 | The in-place loop leaves the array equal to the located form of its previous contents. |
| AbstractGeocoder.Geocode | src/AbstractGeocoder.php:83-96 | Resolution errors and `findCandidates` errors come back unchanged. A caller factory that is not a geometry factory is an `Error` as soon as there is a row. Otherwise the result is the located rows, selected by the filter. |
| AbstractGeocoder.GeocodedRows | src/AbstractGeocoder.php:85-95 | Every returned row is a candidate under its own key, with its address and score and a point location. The result is an in-order subsequence. Without a filter, every row comes back. With a filter, exactly the accepted rows come back. |
| Php.Filter | src/AbstractGeocoder.php:91-93 | `array_filter` with a callback keeps exactly the accepted entries, under their keys, as an in-order subsequence. |
| Php.ArrayFilterCarries | src/EsriWorldGeocoder.php:57-66 | `array_filter` of a literal with distinct names carries each truthy entry and drops each falsy one. The result keeps its keys distinct. |
| HttpGetGeocoder.ResolvedReady | src/HttpGetGeocoder.php:64-73 | Resolved adapter options have the base types and a string path. The factory is the caller's own, with the SRID the adapter demands when it demands one. |
| HttpGetGeocoder.PathDefault | src/HttpGetGeocoder.php:67-68 | The resolved path is the caller's, else the adapter's default. |
| EsriWorldGeocoder.Query | src/EsriWorldGeocoder.php:55-67 | `f=json` is always sent. The address and each optional part is sent under Esri's name exactly when it is truthy. `outSR` is the factory's SRID unless that SRID is 0. No other key appears, and keys are distinct. |
| EsriWorldGeocoder.Candidates | src/EsriWorldGeocoder.php:69-83 | An empty `candidates` array is NoCandidatesFound. A non-array is a TypeError. Nothing is wrapped. Otherwise there is one row per candidate, same keys and order, with address and score copied and location `[x, y]`. |
| EsriWorldGeocoder.Geocode | src/EsriWorldGeocoder.php:45-83 | Esri's resolution errors come first. Otherwise the result is the mapped candidates placed by the caller's factory and filtered. |
| GoogleGeocoder.ComponentsCases | src/GoogleGeocoder.php:88-91 | `components` is empty, `country:C`, `postal_code:P` or `country:C|postal_code:P`, and never ends with `|`. |
| GoogleGeocoder.Query | src/GoogleGeocoder.php:82-93 | It carries the address line, with `" part,"` for each set part and the trailing comma kept. It carries the components and the key. Each is left out when falsy, and no other key appears. |
| GoogleGeocoder.BuildQuery | src/GoogleGeocoder.php:82-93 | The `.=` steps and the trim build exactly that query. |
| GoogleGeocoder.ScoreTable | src/GoogleGeocoder.php:34-37 | ROOFTOP=100, RANGE_INTERPOLATED=80, GEOMETRIC_CENTER=60, APPROXIMATE=50. Other names (case matters) resolve to no constant. |
| GoogleGeocoder.MapRows | src/GoogleGeocoder.php:65-75 | When every result maps, there is one row per result in order. Otherwise the error is a TypeError from a result with an unknown location type. |
| GoogleGeocoder.MapRowsFailed | src/GoogleGeocoder.php:66-75 | Once a prefix of the results fails, the whole loop fails with that error. |
| GoogleGeocoder.CollectRows | src/GoogleGeocoder.php:66-75 | The `foreach` that appends one row per result computes `MapRows`: every row in order, or the first result's error. |
| Geocoder.MapEach | src/GoogleGeocoder.php:66-75 | A mapping `foreach` that stops at the first raise succeeds exactly when every entry maps. It then gives one image per entry, in order. Otherwise it gives the error of some entry. |
| Geocoder.MapEachFailed | src/GoogleGeocoder.php:66-75 | Once a prefix raises, the whole `foreach` raises the same error. |
| GoogleGeocoder.Candidates | src/GoogleGeocoder.php:54-80 | `ZERO_RESULTS` gives NoCandidatesFound re-wrapped as a GeocoderException. Any other status than `OK` gives exactly a GeocoderException wrapping a bare GeocoderException. Every client exception is wrapped. A TypeError, from a result that cannot be mapped, escapes unwrapped, and only under status `OK`. `OK` gives the mapped rows, numbered from 0, exactly when every result maps. |
| GoogleGeocoder.MapResponse | src/GoogleGeocoder.php:54-80 | The status checks followed by the `foreach` compute `Candidates`. |
| GoogleGeocoder.Geocode | src/GoogleGeocoder.php:47-52 | Google's resolution errors come first. Otherwise the result is the mapped rows, placed and filtered. |
| HereGeocoder.SegmentIsPart | src/HereGeocoder.php:86-89 | Each `.=` step adds its qualifier followed by `;` when the option is set, and nothing otherwise. |
| HereGeocoder.QqIsJoin | src/HereGeocoder.php:85-90 | If the last set qualifier does not end in `;`, which `rtrim` would also strip, then `qq` is the set qualifiers `city=`, `district=`, `state=` and `country=` in that order, joined by `;`, with no trailing `;`. |
| HereGeocoder.BuildQuery | src/HereGeocoder.php:83-92 | The `.=` steps and the trim build exactly the query. |
| HereGeocoder.Query | src/HereGeocoder.php:83-92 | It carries `q`, `qq` and `apikey`, each left out when falsy. No other key appears, so the postal code is never sent. |
| HereGeocoder.Candidates | src/HereGeocoder.php:56-81 | Only a client failure becomes a GeocoderException. Empty `items` is NoCandidatesFound, unwrapped. A non-array is a TypeError. Otherwise there is one row per item in order: `title`, `queryScore * 100`, `[lng, lat]`. |
| HereGeocoder.MapResponse | src/HereGeocoder.php:56-81 | The `foreach` computes `Candidates`. |
| HereGeocoder.Geocode | src/HereGeocoder.php:46-54 | A factory whose SRID is not 4326 fails resolution before any request. Otherwise the result is the mapped rows placed by that factory. |
| TomTomGeocoder.NormalisePath | src/TomTomGeocoder.php:82-92 | The normaliser's `.=` steps compute the address and each set part, space-separated and right-trimmed. That text is encoded and put in place of every `{path}`. |
| TomTomGeocoder.Normalised | src/TomTomGeocoder.php:82-92 | Normalising changes only the path, and the options stay ready to send. |
| TomTomGeocoder.ResolveOptions | src/TomTomGeocoder.php:78-95 | Resolution with the normaliser fails exactly when the schema's resolution fails, with the same error. On success, the factory's SRID is 4326. |
| TomTomGeocoder.DefaultPath | src/TomTomGeocoder.php:81-91 | Without a caller path, the path is `search/2/geocode/<encoded text>.json`. |
| TomTomGeocoder.TemplatePath | src/TomTomGeocoder.php:89-91 | The default template holds one placeholder between its fixed prefix and suffix. |
| TomTomGeocoder.Query | src/TomTomGeocoder.php:97-102 | The query holds at most `key`, which is the constructor's key, and only when it is not empty. |
| TomTomGeocoder.PointRowsFrom | src/TomTomGeocoder.php:59-71 | Every row comes from a point address. |
| TomTomGeocoder.PointRowsComplete | src/TomTomGeocoder.php:59-71 | The row of every point address is among the rows. |
| TomTomGeocoder.PointRowsSnoc | src/TomTomGeocoder.php:59-62 | One more result adds its row exactly when it is a point address. |
| TomTomGeocoder.Candidates | src/TomTomGeocoder.php:50-76 | A total loosely equal to 0 gives NoCandidatesFound, re-wrapped. Every failure is a GeocoderException. Otherwise the result is the rows of the point addresses, in the order of the results, numbered from 0, possibly none. Each row comes from a point address, and each point address gives a row. |
| Geocoder.CollectKept | src/TomTomGeocoder.php:59-71 | A `foreach` that skips the entries it does not keep yields the images of the kept entries, in order. |
| TomTomGeocoder.MapResponse | src/TomTomGeocoder.php:50-76 | The total check followed by the `foreach` with `continue` over the point addresses computes `Candidates`. |
| TomTomGeocoder.Geocode | src/TomTomGeocoder.php:78-95 | A non-4326 factory fails before any request. Otherwise the request goes to the normalised path, and the mapped rows are placed and filtered. |
| TAMUGeocoder.DefaultCensusYears | src/TAMUGeocoder.php:99-103 | The default census year is `1990|2000|2010`. |
| TAMUGeocoder.TamuDefaults | src/TAMUGeocoder.php:139-149 | After resolution, the API key, census year, tie policy and strategy always have a value. |
| TAMUGeocoder.TamuDefaultValues | src/TAMUGeocoder.php:139-149 | When the caller leaves them out, the options resolve to these defaults: the API key to the constructor's key, the census year to `1990\|2000\|2010`, the tie policy to true, and the strategy to `revertToHierarchy`. |
| TAMUGeocoder.TiesAccepted | src/TAMUGeocoder.php:147-153 | Accepted options have a boolean tie policy and a strategy of `flipACoin` or `revertToHierarchy`. |
| TAMUGeocoder.ResolvedTies | src/TAMUGeocoder.php:166-167 | For resolved options, `allowTies` is sent as `"true"` or `"false"`. `tieBreakingStrategy` is sent exactly when ties are not allowed. |
| TAMUGeocoder.Query | src/TAMUGeocoder.php:159-172 | `version` is always `4.01`. City, state, zip and census year are each sent when truthy. `allowTies` is always sent. The query ends with `streetAddress`, `apiKey` and `format=json` whatever their value. Keys are distinct, and no other name is sent. |
| TAMUGeocoder.QueryCarries | src/TAMUGeocoder.php:161-171 | The merge keeps every filtered entry and appends the three unfiltered ones. |
| TAMUGeocoder.Candidates | src/TAMUGeocoder.php:174-195 | Only an undecodable body is a GeocoderException. A match count loosely equal to 0 is NoCandidatesFound, unwrapped. Otherwise one row per output geocode, in order, all under the echoed street address, at `[Longitude, Latitude]`. |
| TAMUGeocoder.CollectRows | src/TAMUGeocoder.php:182-190 | The `foreach` gives one row per output geocode, in order. |
| TAMUGeocoder.MapResponse | src/TAMUGeocoder.php:174-195 | The decoding and count checks followed by the `foreach` compute `Candidates`. |
| TAMUGeocoder.Geocode | src/TAMUGeocoder.php:136-154 | A non-4326 factory or an unknown strategy fails before any request. Otherwise the result is the mapped rows, placed and filtered. |
| Candidate.GettersReturnArguments | src/AddressCandidate.php:29-59 | The getters return exactly the constructor's arguments, including a null score. |
| Candidate.JsonSerialize | src/AddressCandidate.php:66-76 | The top-level keys are exactly `type`, `coordinates` and `properties`. `type` is `Point` and `coordinates` is the location. `properties` holds exactly `address` and `score`, equal to the getters. |
| Candidate.ReadBackSerialized | src/AddressCandidate.php:66-76 | Reading the serialised form back reproduces the candidate. |
| Candidate.SerializeInjective | src/AddressCandidate.php:66-76 | Different candidates serialise differently. |
| AbstractReverseGeocoder.Lookup | src/ReverseGeocoder/AbstractReverseGeocoder.php:55-62 | A coordinate is the positional entry, else the named one. A null entry falls through. |
| AbstractReverseGeocoder.Coordinates | src/ReverseGeocoder/AbstractReverseGeocoder.php:54-67 | A missing x is reported before y. A missing y is reported next. Non-numeric is reported only when both are non-numeric. Otherwise the pair is returned. |
| AbstractReverseGeocoder.PositionalPair | src/ReverseGeocoder/AbstractReverseGeocoder.php:55-62 | A positional pair is read as given, whatever else the array holds. |
| AbstractReverseGeocoder.KeyedPair | src/ReverseGeocoder/AbstractReverseGeocoder.php:55-62 | An `x`/`y` map is read through the fallback. |
| AbstractReverseGeocoder.OneNumericSuffices | src/ReverseGeocoder/AbstractReverseGeocoder.php:65-67 | One numeric coordinate is enough to pass. |
| AbstractReverseGeocoder.QueryArgument | src/ReverseGeocoder/AbstractReverseGeocoder.php:70 | Strings, ints and floats pass into `query` unchanged. A boolean becomes an int. Anything else is a TypeError. |
| AbstractReverseGeocoder.ReturnedAddress | src/ReverseGeocoder/AbstractReverseGeocoder.php:74 | Null means no address. A string is the address. Only arrays and objects fail the `string|null` return type. |
| AbstractReverseGeocoder.Answered | src/ReverseGeocoder/AbstractReverseGeocoder.php:71-80 | Exactly the HTTP client's exceptions become GeocoderExceptions, with the original as `previous`. No address gives null. An address gives a candidate at `[x, y]` with no score. |
| AbstractReverseGeocoder.ReverseGeocode | src/ReverseGeocoder/AbstractReverseGeocoder.php:52-82 | A failed check is returned before any request, with the intended check error, not the TypeError of the code as written. Otherwise the adapter's query for the converted coordinates is requested, and the response answered. A candidate always has a null score and the coordinates as given. |
| AbstractReverseGeocoder.NoRequestWhenInvalid | src/ReverseGeocoder/AbstractReverseGeocoder.php:55-71 | When a check fails, the outcome does not depend on the client: no request is made. The error is the intended check error, not the TypeError of the code as written. |
| AbstractReverseGeocoder.SplitCommaPair | src/ReverseGeocoder/EsriWorld.php:22 | An `"a,b"` text splits back into `a` and `b` when `a` has no comma. |
| AbstractReverseGeocoder.CoordinatesAsWritten | src/ReverseGeocoder/AbstractReverseGeocoder.php:55-67 | As written, the checks fail exactly when the intended checks do, and each failure is a TypeError raised by the exception's constructor. Otherwise the pair is the intended one. |
| AbstractReverseGeocoder.MessageThrowsAreTypeErrors | src/ReverseGeocoder/AbstractReverseGeocoder.php:55-67 | As written, a missing x and a non-numeric pair fail identically, with an `Error` no `catch (Exception)` catches. |
| AbstractReverseGeocoder.CheckErrorsAreExceptions | src/ReverseGeocoder/AbstractReverseGeocoder.php:55-67 | The intended check errors are exceptions, each distinct. |
| ReverseEsriWorld.Query | src/ReverseGeocoder/EsriWorld.php:19-25 | The query has exactly `location` and `f`, with `f=json`. `location` reads back as x then y. |
| ReverseEsriWorld.MapCandidates | src/ReverseGeocoder/EsriWorld.php:14-17 | A string `address.Match_addr` is the address. A missing `address` or `Match_addr` gives null. |
| ReverseEsriWorld.ReverseGeocode | src/ReverseGeocoder/EsriWorld.php:5-26 | The intended check errors come first, not the TypeError of the code as written. A candidate has a null score and the coordinates as given. |
| ReverseHere.Query | src/ReverseGeocoder/Here.php:36-43 | The query has exactly `at`, `lang` and `apiKey`, unfiltered. `at` reads back as y then x. `lang` is the current locale and `apiKey` is the constructor's key. |
| ReverseHere.MapCandidates | src/ReverseGeocoder/Here.php:31-34 | A string label of item 0 is the address. A missing item 0 gives null. |
| ReverseHere.FirstItemOnly | src/ReverseGeocoder/Here.php:33 | Items after the first do not change the answer. Empty items give null. |
| ReverseHere.ReverseGeocode | src/ReverseGeocoder/Here.php:26-43 | The intended check errors come first, not the TypeError of the code as written. A candidate has a null score and the coordinates as given. |
| GeocoderHere.Query | src/Geocoder/Here.php:46-52 | The query has exactly `q` (the address) and `apiKey` (the key), unfiltered. |
| GeocoderHere.EmptyAddressSent | src/Geocoder/Here.php:48-51 | An empty address is still sent, where the HERE geocoder leaves `q` out entirely. |
| GeocoderHere.MapItem | src/Geocoder/Here.php:34-38 | An array item becomes a candidate: `address.label` converted to string, `[lat, lng]` as found, score `queryScore * 100`. Anything else is a TypeError. |
| GeocoderHere.MapAll | src/Geocoder/Here.php:33-40 | The mapping succeeds exactly when every item maps. It then gives one candidate per item, under its key and in order. |
| GeocoderHere.MapCandidates | src/Geocoder/Here.php:31-41 | There is no count check: empty `items` gives no candidates. Non-array items are a TypeError. Otherwise every item is mapped. |
| GeocoderHere.AxisOrderReversed | src/Geocoder/Here.php:36 | For the same item, this adapter's `[lat, lng]` is the HERE geocoder's `[lng, lat]` reversed. |

## Findings

| source | as written | input that shows it | evidently intended | confidence | as-written member | corrected member |
|---|---|---|---|---|---|---|
| src/ReverseGeocoder/AbstractReverseGeocoder.php:56 | `throw new GeocoderException('Expected ...')` passes a message string. The only parameter is `?Throwable $previous` (src/GeocoderException.php:14), so the check raises a TypeError. The same happens at lines 61 and 66. | `reverseGeocode([])`, or `reverseGeocode(['a', 'b'])` | a `GeocoderException` per failed check, with distinct messages | high, not executed | AbstractReverseGeocoder.MessageThrowsAreTypeErrors | AbstractReverseGeocoder.CheckErrorsAreExceptions |

## Left out

- HTTP transport. `HttpClient::create`/`createForBaseUri`, `maxRedirects` and the base URIs are not modelled. The request is a function parameter from path and query to a response. A response is a decoded body or a client exception of one of five kinds, and it surfaces at `toArray`.
- Header and authentication options. `findCandidates` merges `headers` and `auth` into the request options. The model sends only the path and the query, because those options configure the transport.
- Option resolver internals. Rejection of unknown option keys and Symfony's exact check order are not modelled. The schema is only the declared rules.
- AbstractGeocoder.Resolve: it reports the first broken rule in declaration order after defaults are merged. Symfony may report a different one of several broken rules.
- Floating point. `(float)`, `floatval`, `* 100` and float-to-string are kept as terms or given texts. No IEEE facts are stated.
- GeocoderHere.MapItem: for a string `queryScore`, `queryScore * 100` is kept symbolic. PHP 8 raises a TypeError for a wholly non-numeric string and warns for a leading-numeric one; the model keeps the term.
- `urlencode`. It is a function parameter of the TomTom adapter.
- The geometry factory. It is known only by its SRID, and `createPoint` gives a point term.
- The locale. It is a string parameter of the HERE reverse adapter.
- Interfaces and constants-only files. Only their key names appear, as constants.
- AbstractReverseGeocoder.ReverseGeocode, ReverseEsriWorld.ReverseGeocode, ReverseHere.ReverseGeocode and AbstractReverseGeocoder.NoRequestWhenInvalid: these use the corrected checks of the Findings row. They return MissingLongitude, MissingLatitude or NonNumericCoordinates, where the code as written raises a TypeError. The code as written is `AbstractReverseGeocoder.CoordinatesAsWritten`.
- The GeocoderException message text. Only the wrapping and the `previous` exception are modelled.
- The Census adapter. Its class is not part of this model.
- The tests. They depend on live services.
- String offsets. Reading `$s['k']` from a string is not modelled: such a read gives null.
- Array keys. PHP 8's conversion of numeric-string keys to int keys is not modelled, and an array's keys are taken as they are given (a lookup finds the first).
- Class-hierarchy mismatches. The constructor arguments of `Geocoder/Here` and the namespace of the HERE reverse adapter are not modelled. Each adapter's methods stand alone.
