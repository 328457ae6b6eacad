/**
 * What every forward and reverse geocoder shares: the option and row keys,
 * the shape of a mapped row, the decoded response, and the exceptions the
 * adapters raise, catch and wrap.
 */
module Geocoder {
  import opened Php

  // Option keys of the generic request.
  const ADDRESS := "address"
  const NEIGHBORHOOD := "neighborhood"
  const CITY := "city"
  const REGION := "region"
  const POSTAL_CODE := "postal_code"
  const COUNTRY := "country"
  const FACTORY := "factory"

  // Keys of a mapped row.
  const SCORE := "score"
  const LOCATION := "location"

  // Option keys of an HTTP GET geocoder.
  const PATH := "path"
  const HEADERS := "headers"
  const AUTH := "auth"
  const API_KEY := "api_key"

  /**
   * A number in a mapped row. `(float)` casts and multiplications by 100
   * are kept as terms over the provider's value: nothing is computed.
   */
  datatype Num = Lit(v: Value) | AsFloat(of: Value) | Times100(n: Num)

  /**
   * A row's location: the `[x, y]` pair an adapter builds, or the point the
   * geometry factory with the given SRID makes of it.
   */
  datatype Place = Pair(x: Num, y: Num) | Point(srid: int, x: Num, y: Num)

  /** One candidate row `['address' => ..., 'score' => ..., 'location' => ...]`. */
  datatype Row = Row(address: Value, score: Num, location: Place)

  /** An array of rows under their PHP keys, in order. */
  type Rows = seq<(Key, Row)>

  /** Rows appended one after another with `$rows[] = ...`: keys 0, 1, 2, ... */
  function Numbered(rows: seq<Row>): (r: Rows)
    ensures |r| == |rows|
    ensures forall i :: 0 <= i < |rows| ==> r[i] == (IKey(i), rows[i])
  {
    seq(|rows|, i requires 0 <= i < |rows| => (IKey(i), rows[i]))
  }

  /** The classes of the HTTP client's exceptions. */
  datatype TransportKind =
    | TransportFailure    // network-level failure
    | ServerFailure       // 5xx status
    | RedirectionFailure  // 3xx status after the redirect limit
    | DecodingFailure     // the body is not a JSON array (`JsonException`)
    | ClientFailure       // 4xx status (`ClientException`)

  /** The outcomes other than a result. */
  datatype Error =
    | NoCandidatesFound                     // the provider reported zero matches
    | GeocoderError(previous: Option<Error>) // `GeocoderException`, possibly wrapping another
    | MissingOptions(keys: set<string>)     // required options without a value
    | InvalidOption(key: string)            // an option of the wrong type or value
    | Transport(kind: TransportKind)        // an HTTP client exception, unwrapped
    | TypeFault                             // a PHP `Error` (TypeError, undefined constant)
    | MissingLongitude                      // reverse geocoding: no x coordinate
    | MissingLatitude                       // reverse geocoding: no y coordinate
    | NonNumericCoordinates                 // reverse geocoding: neither coordinate numeric

  /** Whether `catch (Exception $e)` catches it: a PHP `Error` is not an `Exception`. */
  predicate IsException(e: Error) {
    !e.TypeFault?
  }

  datatype Result<+T> = Ok(value: T) | Fail(error: Error)

  /** `throw new GeocoderException($e)`. */
  function Wrapped(e: Error): Error {
    GeocoderError(Some(e))
  }

  /** What the HTTP client hands back: a decoded body, or the exception it raises. */
  datatype Response = Body(data: Value) | Broken(kind: TransportKind)

  /** `$response->toArray()`: the decoded array, or the client's exception. */
  function ToArray(response: Response): (r: Result<Value>)
    ensures r.Ok? ==> response == Body(r.value) && r.value.Arr?
    ensures r.Fail? ==> r.error.Transport?
  {
    match response
    case Broken(k) => Fail(Transport(k))
    case Body(v) => if v.Arr? then Ok(v) else Fail(Transport(DecodingFailure))
  }

  /** An ordered query-parameter map. */
  type Query = seq<(string, Value)>

  /** Each entry's value mapped, in order, keys dropped. */
  function MapValues<R>(f: Value -> R, es: seq<(Key, Value)>): (r: seq<R>)
    ensures |r| == |es| && forall i :: 0 <= i < |es| ==> r[i] == f(es[i].1)
  {
    seq(|es|, i requires 0 <= i < |es| => f(es[i].1))
  }

  /** Mapping one more entry appends its image. */
  lemma MapValuesSnoc<R>(f: Value -> R, es: seq<(Key, Value)>, e: (Key, Value))
    ensures MapValues(f, es + [e]) == MapValues(f, es) + [f(e.1)]
  {
    assert forall i :: 0 <= i < |es| ==> (es + [e])[i] == es[i];
  }

  /** Every image of the kept entries is the image of a kept entry. */
  lemma KeptFrom<R>(f: Value -> R, keep: Value -> bool, es: seq<(Key, Value)>)
    ensures forall i :: 0 <= i < |MapValues(f, Filter(es, keep))| ==>
              exists j :: 0 <= j < |es| && keep(es[j].1) && MapValues(f, Filter(es, keep))[i] == f(es[j].1)
  {
    var kept := Filter(es, keep);
    var images := MapValues(f, kept);
    forall i | 0 <= i < |images|
      ensures exists j :: 0 <= j < |es| && keep(es[j].1) && images[i] == f(es[j].1)
    {
      assert kept[i] in es;
      var j :| 0 <= j < |es| && es[j] == kept[i];
      assert keep(es[j].1) && images[i] == f(es[j].1);
    }
  }

  /** Every kept entry has its image among the images. */
  lemma KeptComplete<R>(f: Value -> R, keep: Value -> bool, es: seq<(Key, Value)>)
    ensures forall j :: 0 <= j < |es| && keep(es[j].1) ==> f(es[j].1) in MapValues(f, Filter(es, keep))
  {
    var kept := Filter(es, keep);
    var images := MapValues(f, kept);
    forall j | 0 <= j < |es| && keep(es[j].1)
      ensures f(es[j].1) in images
    {
      assert es[j] in kept;
      var i :| 0 <= i < |kept| && kept[i] == es[j];
      assert images[i] == f(es[j].1);
    }
  }

  /** A `foreach` that `continue`s past the entries it does not keep and appends the image of the others. */
  method CollectKept<R>(f: Value -> R, keep: Value -> bool, es: seq<(Key, Value)>) returns (out: seq<R>)
    ensures out == MapValues(f, Filter(es, keep))
  {
    out := [];
    var i := 0;
    while i < |es|
      invariant 0 <= i <= |es|
      invariant out == MapValues(f, Filter(es[..i], keep))
    {
      var e := es[i];
      ghost var before := es[..i];
      assert es[..i + 1] == before + [e];
      FilterSnoc(before, e, keep);
      if keep(e.1) {
        MapValuesSnoc(f, Filter(before, keep), e);
        out := out + [f(e.1)];
      }
      i := i + 1;
    }
    assert es[..i] == es;
  }

  /**
   * A `foreach` that maps each entry's value and stops at the first one
   * that raises: all the results in order, or that first error.
   */
  function MapEach<T>(f: Value -> Result<T>, items: seq<(Key, Value)>): (r: Result<seq<T>>)
    ensures r.Ok? ==> (|r.value| == |items| &&
                       forall i :: 0 <= i < |items| ==> f(items[i].1) == Ok(r.value[i]))
    ensures r.Fail? ==> exists i :: 0 <= i < |items| && f(items[i].1) == Fail(r.error)
    ensures (forall i :: 0 <= i < |items| ==> f(items[i].1).Ok?) ==> r.Ok?
  {
    if items == [] then Ok([])
    else
      var last := |items| - 1;
      var init := items[..last];
      var rest := MapEach(f, init);
      assert forall i :: 0 <= i < |init| ==> init[i] == items[i];
      if rest.Fail? then rest
      else
        var v := f(items[last].1);
        if v.Fail? then Fail(v.error)
        else
          var r := rest.value + [v.value];
          assert forall i :: 0 <= i < last ==> r[i] == rest.value[i];
          Ok(r)
  }

  /** Once a prefix raises, the whole `foreach` does, with the same error. */
  lemma {:induction false} MapEachFailed<T>(f: Value -> Result<T>, items: seq<(Key, Value)>, k: nat)
    requires k <= |items| && MapEach(f, items[..k]).Fail?
    ensures MapEach(f, items) == MapEach(f, items[..k])
    decreases |items| - k
  {
    if k < |items| {
      assert items[..k + 1][..k] == items[..k];
      MapEachFailed(f, items, k + 1);
    } else {
      assert items[..k] == items;
    }
  }
}
