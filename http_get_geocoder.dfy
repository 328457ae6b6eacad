/**
 * A forward geocoder that sends one HTTP GET request: it adds the endpoint
 * path (with a default) and optional header and authentication options to
 * the base schema, and finds candidates by mapping the response to the
 * request built from the path and the adapter's query.
 */
module HttpGetGeocoder {
  import opened Php
  import opened Geocoder
  import opened AbstractGeocoder

  const QUERY := "query"

  /** The options an HTTP GET geocoder adds, with its own default path. */
  function HttpRules(path: string): Schema {
    [ Rule(PATH, false, Some(Str(path)), Some({TString}), AnyValue),
      Defined(HEADERS, {TArray}),
      Defined(AUTH, {TArray}) ]
  }

  /** The whole schema of an adapter: base, HTTP, then the adapter's own rules. */
  function HttpSchema(factory: Allowed, path: string, extra: Schema): Schema {
    BaseSchema(factory) + (HttpRules(path) + extra)
  }

  /**
   * The HTTP client: given the request path and the query parameters, the
   * response it receives.
   */
  type Transport = (string, Query) -> Response

  /** What resolved options always offer: the base types and a string path. */
  predicate Ready(options: Options) {
    BaseTyped(options) && PATH in options && options[PATH].Str?
  }

  /**
   * Resolution against an adapter's schema makes the options ready to be
   * sent, and the geometry factory is the caller's own, with the SRID the
   * adapter demands if it demands one.
   */
  lemma ResolvedReady(factory: Allowed, path: string, extra: Schema, options: Options)
    requires DefaultOf(extra, FACTORY).None?
    requires Resolve(HttpSchema(factory, path, extra), options).Ok?
    ensures Ready(Resolve(HttpSchema(factory, path, extra), options).value)
    ensures FACTORY in options && options[FACTORY].Factory?
    ensures factory.SridIs? ==> options[FACTORY].srid == factory.srid
  {
    var m := Resolve(HttpSchema(factory, path, extra), options).value;
    PathDefault(factory, path, extra, options);
    SatisfiedReady(factory, path, extra, m);
    NoFactoryDefault(path, extra);
    FactoryGiven(factory, HttpRules(path) + extra, options);
  }

  lemma SatisfiedReady(factory: Allowed, path: string, extra: Schema, m: Options)
    requires Satisfies(HttpSchema(factory, path, extra), m) && PATH in m
    ensures Ready(m)
    ensures factory.SridIs? ==> m[FACTORY].srid == factory.srid
  {
    var schema := HttpSchema(factory, path, extra);
    BaseTypedBy(factory, HttpRules(path) + extra, m);
    assert schema[7] == Rule(PATH, false, Some(Str(path)), Some({TString}), AnyValue);
    RuleHolds(schema, m, 7);
  }

  lemma NoFactoryDefault(path: string, extra: Schema)
    requires DefaultOf(extra, FACTORY).None?
    ensures DefaultOf(HttpRules(path) + extra, FACTORY).None?
  {
    DefaultOfAppend(HttpRules(path), extra, FACTORY);
    assert DefaultOf(HttpRules(path), FACTORY).None?;
  }

  /** The path resolves to the caller's, or else to the adapter's default. */
  lemma PathDefault(factory: Allowed, path: string, extra: Schema, options: Options)
    requires Resolve(HttpSchema(factory, path, extra), options).Ok?
    ensures PATH in Resolve(HttpSchema(factory, path, extra), options).value
    ensures Resolve(HttpSchema(factory, path, extra), options).value[PATH] ==
              if PATH in options then options[PATH] else Str(path)
  {
    HttpPathDefault(factory, path, extra);
    assert PATH in DefaultKeys(HttpSchema(factory, path, extra));
  }

  lemma HttpPathDefault(factory: Allowed, path: string, extra: Schema)
    ensures DefaultOf(HttpSchema(factory, path, extra), PATH) == Some(Str(path))
  {
    DefaultOfAppend(BaseSchema(factory), HttpRules(path) + extra, PATH);
    DefaultOfAppend(HttpRules(path), extra, PATH);
    BaseNoDefault(factory, PATH);
  }

  /** Replacing the path by another string keeps the options ready. */
  lemma ReadyWithPath(options: Options, path: string)
    requires Ready(options)
    ensures Ready(options[PATH := Str(path)])
    ensures forall k :: k in options && k != PATH ==> options[PATH := Str(path)][k] == options[k]
  {
    var m := options[PATH := Str(path)];
    assert m[FACTORY] == options[FACTORY] && m[ADDRESS] == options[ADDRESS];
    assert NEIGHBORHOOD in m ==> m[NEIGHBORHOOD] == options[NEIGHBORHOOD];
    assert CITY in m ==> m[CITY] == options[CITY];
    assert REGION in m ==> m[REGION] == options[REGION];
    assert POSTAL_CODE in m ==> m[POSTAL_CODE] == options[POSTAL_CODE];
    assert COUNTRY in m ==> m[COUNTRY] == options[COUNTRY];
  }

  /** `$this->client->request('GET', $options['path'], ['query' => ...])`. */
  function Send(request: Transport, options: Options, query: Query): Response
    requires Ready(options)
  {
    request(options[PATH].s, query)
  }
}
