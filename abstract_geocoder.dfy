/**
 * The template every forward geocoder follows: resolve the caller's options
 * against the geocoder's option schema, ask the concrete geocoder for
 * candidate rows, turn each row's `[x, y]` pair into a point made by the
 * caller's geometry factory, and optionally filter the rows.
 */
module AbstractGeocoder {
  import opened Php
  import opened Geocoder

  /** The option array as a map from option name to value. */
  type Options = map<string, Value>

  /** The type names an option resolver can restrict an option to. */
  datatype PhpType = TNull | TBool | TInt | TFloat | TString | TArray | TFactory

  function TypeOf(v: Value): PhpType {
    match v
    case Null => TNull
    case Bool(_) => TBool
    case Int(_) => TInt
    case Float(_) => TFloat
    case Str(_) => TString
    case Arr(_) => TArray
    case Factory(_) => TFactory
  }

  /** The allowed values of an option beyond its type. */
  datatype Allowed =
    | AnyValue
    | OneOf(values: seq<Value>)  // `setAllowedValues($key, [...])`
    | SridIs(srid: int)          // a geometry factory whose SRID is the given one

  /**
   * What the option resolver knows about one option: whether it must be
   * present, its default, its allowed types (none given: any type) and its
   * allowed values.
   */
  datatype Rule = Rule(key: string, required: bool, default: Option<Value>,
                       types: Option<set<PhpType>>, allowed: Allowed)

  /** The rules `configureOptions` sets up, in the order it sets them up. */
  type Schema = seq<Rule>

  /** An option that may be given but has no default. */
  function Defined(key: string, types: set<PhpType>): Rule {
    Rule(key, false, None, Some(types), AnyValue)
  }

  predicate Accepts(rule: Rule, v: Value) {
    (rule.types.None? || TypeOf(v) in rule.types.value) &&
    match rule.allowed
    case AnyValue => true
    case OneOf(vs) => v in vs
    case SridIs(n) => v.Factory? && v.srid == n
  }

  /** The options every forward geocoder defines. */
  function BaseSchema(factory: Allowed): Schema {
    [ Rule(FACTORY, true, None, Some({TFactory}), factory),
      Rule(ADDRESS, true, None, Some({TString}), AnyValue),
      Defined(NEIGHBORHOOD, {TString}),
      Defined(CITY, {TString}),
      Defined(REGION, {TString}),
      Defined(POSTAL_CODE, {TString, TInt}),
      Defined(COUNTRY, {TString}) ]
  }

  /** The default the schema gives `key`, if any. */
  function DefaultOf(schema: Schema, key: string): (r: Option<Value>)
    ensures r.Some? <==> exists i :: 0 <= i < |schema| && schema[i].key == key && schema[i].default.Some?
    ensures r.Some? ==> exists i :: 0 <= i < |schema| && schema[i].key == key && schema[i].default == r
  {
    if schema == [] then None
    else if schema[0].key == key && schema[0].default.Some? then schema[0].default
    else
      var r := DefaultOf(schema[1..], key);
      assert forall i :: 1 <= i < |schema| ==> schema[i] == schema[1..][i - 1];
      r
  }

  function DefaultKeys(schema: Schema): set<string> {
    set i | 0 <= i < |schema| && schema[i].default.Some? :: schema[i].key
  }

  /** The given options over the schema's defaults. */
  function Merged(schema: Schema, options: Options): (m: Options)
    ensures m.Keys == options.Keys + DefaultKeys(schema)
    ensures forall k :: k in options ==> m[k] == options[k]
    ensures forall k :: k in m && k !in options ==> DefaultOf(schema, k) == Some(m[k])
  {
    map k | k in options.Keys + DefaultKeys(schema) ::
      if k in options then options[k] else DefaultOf(schema, k).value
  }

  /** The required options that have no value after defaults. */
  function Missing(schema: Schema, m: Options): set<string> {
    set i | 0 <= i < |schema| && schema[i].required && schema[i].key !in m :: schema[i].key
  }

  predicate Violated(rule: Rule, m: Options) {
    rule.key in m && !Accepts(rule, m[rule.key])
  }

  /** The first rule, in schema order, that the options break. */
  function FirstViolation(schema: Schema, m: Options): (r: Option<string>)
    ensures r.None? <==> forall i :: 0 <= i < |schema| ==> !Violated(schema[i], m)
    ensures r.Some? ==> exists i :: 0 <= i < |schema| && schema[i].key == r.value && Violated(schema[i], m)
  {
    if schema == [] then None
    else if Violated(schema[0], m) then Some(schema[0].key)
    else
      var r := FirstViolation(schema[1..], m);
      assert forall i :: 1 <= i < |schema| ==> schema[i] == schema[1..][i - 1];
      r
  }

  /** Every required option has a value and no option breaks its rule. */
  predicate Satisfies(schema: Schema, m: Options) {
    forall i :: 0 <= i < |schema| ==>
      (schema[i].required ==> schema[i].key in m) && !Violated(schema[i], m)
  }

  /**
   * `$optionsResolver->resolve($options)`: every missing required option is
   * reported together; otherwise the first option of a wrong type or value
   * is; otherwise the options over their defaults.
   */
  function Resolve(schema: Schema, options: Options): (r: Result<Options>)
    ensures Missing(schema, Merged(schema, options)) != {} ==>
              r == Fail(MissingOptions(Missing(schema, Merged(schema, options))))
    ensures r.Fail? ==> r.error.MissingOptions? || r.error.InvalidOption?
    ensures r.Fail? && r.error.InvalidOption? ==>
              exists i :: 0 <= i < |schema| && schema[i].key == r.error.key
                       && Violated(schema[i], Merged(schema, options))
    ensures r.Ok? ==> r.value == Merged(schema, options)
    ensures r.Ok? <==> Satisfies(schema, Merged(schema, options))
  {
    var m := Merged(schema, options);
    var missing := Missing(schema, m);
    if missing != {} then Fail(MissingOptions(missing))
    else match FirstViolation(schema, m)
      case Some(k) => Fail(InvalidOption(k))
      case None =>
        assert forall i :: 0 <= i < |schema| && schema[i].required && schema[i].key !in m ==>
                 schema[i].key in missing;
        Ok(m)
  }

  /** The types the base schema guarantees of resolved options. */
  predicate Typed(options: Options, key: string, types: set<PhpType>) {
    key in options ==> TypeOf(options[key]) in types
  }

  predicate BaseTyped(options: Options) {
    FACTORY in options && options[FACTORY].Factory? &&
    ADDRESS in options && options[ADDRESS].Str? &&
    Typed(options, NEIGHBORHOOD, {TString}) &&
    Typed(options, CITY, {TString}) &&
    Typed(options, REGION, {TString}) &&
    Typed(options, POSTAL_CODE, {TString, TInt}) &&
    Typed(options, COUNTRY, {TString})
  }

  /** `isset($options[$key])`. */
  predicate IsSet(options: Options, key: string) {
    key in options && options[key] != Null
  }

  /** The string form of an option the base schema types as string or int. */
  function Text(v: Value): (s: string)
    requires v.Str? || v.Int?
    ensures StringOf(v) == Some(s)
  {
    if v.Str? then v.s else DecimalString(v.i)
  }

  /** `"{before}{$options[$key]}{after}"` when the option is set, else nothing. */
  function Segment(options: Options, key: string, before: string, after: string): string
    requires BaseTyped(options)
    requires key in {NEIGHBORHOOD, CITY, REGION, POSTAL_CODE, COUNTRY}
  {
    if IsSet(options, key) then before + Text(options[key]) + after else ""
  }

  /** What satisfying a schema guarantees of one of its rules. */
  lemma RuleHolds(schema: Schema, m: Options, i: int)
    requires Satisfies(schema, m) && 0 <= i < |schema|
    ensures schema[i].required ==> schema[i].key in m
    ensures schema[i].key in m ==> Accepts(schema[i], m[schema[i].key])
  {
  }

  /**
   * Resolution against a schema that extends the base one yields options of
   * the base types, and the factory is the caller's own (it has no default).
   */
  lemma BaseResolution(factory: Allowed, rest: Schema, options: Options)
    requires DefaultOf(rest, FACTORY).None?
    requires Resolve(BaseSchema(factory) + rest, options).Ok?
    ensures BaseTyped(Resolve(BaseSchema(factory) + rest, options).value)
    ensures FACTORY in options && options[FACTORY].Factory?
  {
    var schema := BaseSchema(factory) + rest;
    var m := Merged(schema, options);
    assert Resolve(schema, options).value == m;
    BaseTypedBy(factory, rest, m);
    FactoryGiven(factory, rest, options);
  }

  lemma BaseTypedBy(factory: Allowed, rest: Schema, m: Options)
    requires Satisfies(BaseSchema(factory) + rest, m)
    ensures BaseTyped(m)
    ensures factory.SridIs? ==> m[FACTORY].srid == factory.srid
  {
    var schema := BaseSchema(factory) + rest;
    assert schema[0] == Rule(FACTORY, true, None, Some({TFactory}), factory);
    RuleHolds(schema, m, 0);
    assert schema[1] == Rule(ADDRESS, true, None, Some({TString}), AnyValue);
    RuleHolds(schema, m, 1);
    assert schema[2] == Defined(NEIGHBORHOOD, {TString});
    RuleHolds(schema, m, 2);
    assert schema[3] == Defined(CITY, {TString});
    RuleHolds(schema, m, 3);
    assert schema[4] == Defined(REGION, {TString});
    RuleHolds(schema, m, 4);
    assert schema[5] == Defined(POSTAL_CODE, {TString, TInt});
    RuleHolds(schema, m, 5);
    assert schema[6] == Defined(COUNTRY, {TString});
    RuleHolds(schema, m, 6);
  }

  /** Defaults come from the first rule that gives one. */
  lemma {:induction false} DefaultOfAppend(a: Schema, b: Schema, key: string)
    ensures DefaultOf(a + b, key) == if DefaultOf(a, key).Some? then DefaultOf(a, key) else DefaultOf(b, key)
    decreases |a|
  {
    if a == [] {
      assert a + b == b;
    } else {
      assert (a + b)[0] == a[0];
      assert (a + b)[1..] == a[1..] + b;
      DefaultOfAppend(a[1..], b, key);
    }
  }

  /** The factory, having no default, must come from the caller. */
  lemma FactoryGiven(factory: Allowed, rest: Schema, options: Options)
    requires DefaultOf(rest, FACTORY).None?
    requires FACTORY in Merged(BaseSchema(factory) + rest, options)
    ensures FACTORY in options
  {
    BaseNoDefault(factory, FACTORY);
    DefaultOfAppend(BaseSchema(factory), rest, FACTORY);
    NoDefaultNoKey(BaseSchema(factory) + rest, FACTORY);
  }

  /** The base schema gives no option a default. */
  lemma BaseNoDefault(factory: Allowed, key: string)
    ensures DefaultOf(BaseSchema(factory), key).None?
  {
    var base := BaseSchema(factory);
    assert forall i :: 0 <= i < |base| ==> base[i].default.None?;
  }

  /** A key the schema gives no default is not among its default keys. */
  lemma NoDefaultNoKey(schema: Schema, key: string)
    requires DefaultOf(schema, key).None?
    ensures key !in DefaultKeys(schema)
  {
    assert forall i :: 0 <= i < |schema| && schema[i].key == key ==> schema[i].default.None?;
  }

  lemma NoBaseDefaults(factory: Allowed, options: Options)
    ensures DefaultKeys(BaseSchema(factory)) == {}
    ensures Merged(BaseSchema(factory), options) == options
  {
    var schema := BaseSchema(factory);
    assert forall i :: 0 <= i < |schema| ==> schema[i].default.None?;
  }

  /**
   * Nothing local rejects an empty address: a geometry factory and `''`
   * resolve, with a postal code given as a string or as an int.
   */
  lemma EmptyAddressResolves(srid: int, postal: Value)
    requires postal.Str? || postal.Int?
    ensures Resolve(BaseSchema(AnyValue), map[FACTORY := Factory(srid), ADDRESS := Str(""), POSTAL_CODE := postal]).Ok?
  {
    var options := map[FACTORY := Factory(srid), ADDRESS := Str(""), POSTAL_CODE := postal];
    NoBaseDefaults(AnyValue, options);
    assert Satisfies(BaseSchema(AnyValue), options);
  }

  /** The factory and the address are required: without either nothing resolves. */
  lemma RequiredOptions(factory: Allowed, options: Options)
    requires FACTORY !in options || ADDRESS !in options
    ensures Resolve(BaseSchema(factory), options).Fail?
    ensures Resolve(BaseSchema(factory), options).error.MissingOptions?
    ensures FACTORY !in options ==> FACTORY in Resolve(BaseSchema(factory), options).error.keys
    ensures ADDRESS !in options ==> ADDRESS in Resolve(BaseSchema(factory), options).error.keys
  {
    var schema := BaseSchema(factory);
    NoBaseDefaults(factory, options);
    assert schema[0].key == FACTORY && schema[0].required;
    assert schema[1].key == ADDRESS && schema[1].required;
  }

  /**
   * The optional parts are typed: a neighborhood, city, region or country
   * that is not a string, or a postal code that is neither a string nor an
   * int, is refused.
   */
  lemma OptionalPartsTyped(factory: Allowed, options: Options, key: string)
    requires key in {NEIGHBORHOOD, CITY, REGION, POSTAL_CODE, COUNTRY} && key in options
    requires !options[key].Str? && (key == POSTAL_CODE ==> !options[key].Int?)
    ensures Resolve(BaseSchema(factory), options).Fail?
  {
    var schema := BaseSchema(factory);
    NoBaseDefaults(factory, options);
    var i := if key == NEIGHBORHOOD then 2 else if key == CITY then 3 else if key == REGION then 4
             else if key == POSTAL_CODE then 5 else 6;
    assert schema[i].key == key && Violated(schema[i], options);
  }

  /** The factory's `createPoint([x, y])`. */
  function CreatePoint(srid: int, location: Place): Place {
    Point(srid, location.x, location.y)
  }

  /** The rows with each location turned into a point: nothing else changes. */
  function Located(rows: Rows, srid: int): (r: Rows)
    ensures |r| == |rows|
    ensures forall i :: 0 <= i < |rows| ==>
              r[i].0 == rows[i].0 && r[i].1.address == rows[i].1.address &&
              r[i].1.score == rows[i].1.score &&
              r[i].1.location == Point(srid, rows[i].1.location.x, rows[i].1.location.y)
  {
    seq(|rows|, i requires 0 <= i < |rows| =>
      (rows[i].0, rows[i].1.(location := CreatePoint(srid, rows[i].1.location))))
  }

  /** `foreach ($candidates as &$candidate)`: places every row's location in place. */
  method PlaceLocations(a: array<(Key, Row)>, srid: int)
    modifies a
    ensures a[..] == Located(old(a[..]), srid)
  {
    var i := 0;
    while i < a.Length
      invariant 0 <= i <= a.Length
      invariant forall j :: 0 <= j < i ==>
                  a[j] == (old(a[j]).0, old(a[j]).1.(location := CreatePoint(srid, old(a[j]).1.location)))
      invariant forall j :: i <= j < a.Length ==> a[j] == old(a[j])
    {
      a[i] := (a[i].0, a[i].1.(location := CreatePoint(srid, a[i].1.location)));
      i := i + 1;
    }
  }

  /** `array_filter($candidates, $filter)` when a filter is given. */
  function Selected(rows: Rows, filter: Option<Row -> bool>): Rows {
    if filter.Some? then Filter(rows, filter.value) else rows
  }

  /**
   * `geocode($options, $filter)`, given the option resolver the geocoder
   * configured and its `findCandidates`. The factory that makes the points
   * is read from the caller's options, not the resolved ones; when it is
   * not a geometry factory and there is a row to place, PHP raises an `Error`.
   */
  method Geocode(resolve: Options -> Result<Options>, findCandidates: Options -> Result<Rows>,
                 options: Options, filter: Option<Row -> bool>) returns (r: Result<Rows>)
    ensures resolve(options).Fail? ==> r == Fail(resolve(options).error)
    ensures resolve(options).Ok? && findCandidates(resolve(options).value).Fail? ==>
              r == Fail(findCandidates(resolve(options).value).error)
    ensures resolve(options).Ok? && findCandidates(resolve(options).value).Ok? ==>
              var rows := findCandidates(resolve(options).value).value;
              var factory := OptionAt(options, FACTORY);
              if rows != [] && !factory.Factory? then r == Fail(TypeFault)
              else r.Ok? && (rows == [] ==> r.value == []) &&
                   (factory.Factory? ==> r.value == Selected(Located(rows, factory.srid), filter))
  {
    var resolved := resolve(options);
    if resolved.Fail? {
      return Fail(resolved.error);
    }
    var found := findCandidates(resolved.value);
    if found.Fail? {
      return Fail(found.error);
    }
    var rows := found.value;
    var factory := OptionAt(options, FACTORY);
    if rows == [] {
      return Ok([]);
    }
    if !factory.Factory? {
      return Fail(TypeFault);
    }
    var a := new (Key, Row)[|rows|](i requires 0 <= i < |rows| => rows[i]);
    assert a[..] == rows;
    PlaceLocations(a, factory.srid);
    return Ok(Selected(a[..], filter));
  }

  /**
   * Every row `geocode` returns is one of the candidates under its own key,
   * with its address and score, and with its location made a point of the
   * factory's SRID. They keep their order; without a filter all of them
   * come back, with one exactly those the filter accepts.
   */
  lemma {:induction false} GeocodedRows(rows: Rows, srid: int, filter: Option<Row -> bool>)
    ensures forall e :: e in Selected(Located(rows, srid), filter) ==>
              exists i :: 0 <= i < |rows| && e.0 == rows[i].0 &&
                e.1 == Row(rows[i].1.address, rows[i].1.score,
                           Point(srid, rows[i].1.location.x, rows[i].1.location.y))
    ensures filter.None? ==> |Selected(Located(rows, srid), filter)| == |rows|
    ensures filter.Some? ==> forall i :: 0 <= i < |rows| && filter.value(Located(rows, srid)[i].1) ==>
              Located(rows, srid)[i] in Selected(Located(rows, srid), filter)
    ensures filter.Some? ==> forall e :: e in Selected(Located(rows, srid), filter) ==> filter.value(e.1)
    ensures Subsequence(Selected(Located(rows, srid), filter), Located(rows, srid))
  {
    var located := Located(rows, srid);
    if filter.None? {
      SubsequenceReflexive(located);
    }
    forall e | e in Selected(located, filter)
      ensures exists i :: 0 <= i < |rows| && e.0 == rows[i].0 &&
                e.1 == Row(rows[i].1.address, rows[i].1.score,
                           Point(srid, rows[i].1.location.x, rows[i].1.location.y))
    {
      assert e in located;
      var i :| 0 <= i < |located| && located[i] == e;
      assert e.1 == located[i].1;
    }
  }
}
