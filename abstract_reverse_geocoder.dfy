/**
 * Reverse geocoding, shared by every reverse adapter: a coordinate pair is
 * read from a location array (positionally or by `x`/`y`), checked, sent as
 * the adapter's query, and the adapter's address for the decoded response
 * becomes one candidate with a null score, or no candidate at all.
 */
module AbstractReverseGeocoder {
  import opened Php
  import opened Geocoder
  import opened Candidate

  /** A value a `string|float|int` parameter accepts. */
  predicate IsCoordinateValue(v: Value) {
    v.Str? || v.Int? || v.Float?
  }

  type Coordinate = v: Value | IsCoordinateValue(v) witness Str("")

  /** `"$v"` for a query argument. */
  function CoordinateText(v: Coordinate): (s: string)
    ensures StringOf(v) == Some(s)
  {
    StringOf(v).value
  }

  /** `"$a,$b"`: two query arguments joined by a comma. */
  function CommaPair(a: Coordinate, b: Coordinate): string {
    CoordinateText(a) + "," + CoordinateText(b)
  }

  /** A text cut at its first comma: what comes before it and what after (no comma: all of it, and nothing). */
  function SplitAtComma(s: string): (string, string) {
    if s == [] then ("", "")
    else if s[0] == ',' then ("", s[1..])
    else var rest := SplitAtComma(s[1..]); ([s[0]] + rest.0, rest.1)
  }

  /** A comma pair splits back into its halves when the first has no comma of its own. */
  lemma {:induction false} SplitCommaPair(a: string, b: string)
    requires ',' !in a
    ensures SplitAtComma(a + "," + b) == (a, b)
  {
    if a == [] {
      assert a + "," + b == [','] + b;
    } else {
      assert (a + "," + b)[1..] == a[1..] + "," + b;
      SplitCommaPair(a[1..], b);
      assert [a[0]] + a[1..] == a;
    }
  }

  /** `$location[$index] ?? $location[$name] ?? null`: a null entry falls through like a missing one. */
  function Lookup(location: seq<(Key, Value)>, index: int, name: string): (v: Value)
    ensures Find(location, IKey(index)) != Null ==> v == Find(location, IKey(index))
    ensures Find(location, IKey(index)) == Null ==> v == Find(location, SKey(name))
  {
    var v := Find(location, IKey(index));
    if v != Null then v else Find(location, SKey(name))
  }

  /** The x coordinate: `$location[0]`, else `$location['x']`. */
  function X(location: seq<(Key, Value)>): Value {
    Lookup(location, 0, "x")
  }

  /** The y coordinate: `$location[1]`, else `$location['y']`. */
  function Y(location: seq<(Key, Value)>): Value {
    Lookup(location, 1, "y")
  }

  /**
   * The three checks of `reverseGeocode`, in order: an x, then a y, then
   * at least one of them numeric. A pair with one numeric coordinate
   * passes.
   */
  function Coordinates(location: seq<(Key, Value)>): (r: Result<(Value, Value)>)
    ensures r == Fail(MissingLongitude) <==> X(location) == Null
    ensures r == Fail(MissingLatitude) <==> X(location) != Null && Y(location) == Null
    ensures r == Fail(NonNumericCoordinates) <==>
              X(location) != Null && Y(location) != Null && !IsNumeric(X(location)) && !IsNumeric(Y(location))
    ensures r.Fail? ==> r.error in [MissingLongitude, MissingLatitude, NonNumericCoordinates]
    ensures r.Ok? ==> r.value == (X(location), Y(location))
  {
    var x := X(location);
    if x == Null then Fail(MissingLongitude)
    else
      var y := Y(location);
      if y == Null then Fail(MissingLatitude)
      else if !IsNumeric(x) && !IsNumeric(y) then Fail(NonNumericCoordinates)
      else Ok((x, y))
  }

  /** A positional pair is read as it is, whatever keys `x` and `y` hold. */
  lemma PositionalPair(x: Value, y: Value, rest: seq<(Key, Value)>)
    requires x != Null && y != Null
    ensures X([(IKey(0), x), (IKey(1), y)] + rest) == x
    ensures Y([(IKey(0), x), (IKey(1), y)] + rest) == y
  {
    var l := [(IKey(0), x), (IKey(1), y)] + rest;
    assert Find(l, IKey(0)) == x;
    assert l[1..][0] == (IKey(1), y);
    assert Find(l, IKey(1)) == Find(l[1..], IKey(1)) == y;
  }

  /** A keyed pair is read through the `x`/`y` fallback. */
  lemma KeyedPair(x: Value, y: Value)
    ensures X([(SKey("x"), x), (SKey("y"), y)]) == x
    ensures Y([(SKey("x"), x), (SKey("y"), y)]) == y
  {
    var l := [(SKey("x"), x), (SKey("y"), y)];
    assert l[1..] == [(SKey("y"), y)] && l[1..][1..] == [];
    assert Find(l, IKey(0)) == Null && Find(l, IKey(1)) == Null;
    assert Find(l, SKey("x")) == x;
    assert Find(l, SKey("y")) == Find(l[1..], SKey("y")) == y;
  }

  /** The numeric check joins its two tests with `&&`: one numeric coordinate is enough. */
  lemma OneNumericSuffices(x: Value, y: Value)
    requires x != Null && y != Null
    requires IsNumeric(x) || IsNumeric(y)
    ensures Coordinates([(IKey(0), x), (IKey(1), y)]) == Ok((x, y))
  {
    PositionalPair(x, y, []);
    assert [(IKey(0), x), (IKey(1), y)] + [] == [(IKey(0), x), (IKey(1), y)];
  }

  /**
   * A value passed to a `string|float|int` parameter outside strict mode:
   * a boolean becomes an int, any other value outside the union is a
   * TypeError.
   */
  function QueryArgument(v: Value): (r: Option<Coordinate>)
    ensures IsCoordinateValue(v) ==> r == Some(v)
    ensures r.None? <==> !IsCoordinateValue(v) && !v.Bool?
  {
    match v
    case Bool(b) => Some(Int(if b then 1 else 0))
    case Str(_) => Some(v)
    case Int(_) => Some(v)
    case Float(_) => Some(v)
    case _ => None
  }

  /** The value `mapCandidates` returns, through its declared type `string|null`. */
  function ReturnedAddress(v: Value): (r: Result<Option<string>>)
    ensures r == Ok(None) <==> v == Null
    ensures v.Str? ==> r == Ok(Some(v.s))
    ensures r.Fail? ==> r.error == TypeFault && (v.Arr? || v.Factory?)
  {
    if v == Null then Ok(None)
    else match CoerceToString(v)
         case None => Fail(TypeFault)
         case Some(s) => Ok(Some(s))
  }

  /** The candidate for mapped `address` at `[$x, $y]`: the coordinates as given, no score. */
  function Found(address: string, x: Value, y: Value): AddressCandidate {
    AddressCandidate(address, [(IKey(0), x), (IKey(1), y)], None)
  }

  /**
   * The outcome once the request is made: every HTTP client exception
   * wrapped with the original as `previous`; the mapped address, when
   * there is one, as a candidate; a TypeError unwrapped.
   */
  function Answered(mapCandidates: Value -> Result<Option<string>>, x: Value, y: Value, response: Response)
    : (r: Result<Option<AddressCandidate>>)
    requires forall data :: mapCandidates(data).Fail? ==> mapCandidates(data).error == TypeFault
    ensures r.Fail? && r.error.GeocoderError? <==> ToArray(response).Fail?
    ensures ToArray(response).Fail? ==> r == Fail(Wrapped(ToArray(response).error))
    ensures ToArray(response).Ok? ==>
              var mapped := mapCandidates(ToArray(response).value);
              (mapped.Fail? ==> r == Fail(mapped.error)) &&
              (mapped == Ok(None) <==> r == Ok(None)) &&
              (mapped.Ok? && mapped.value.Some? ==> r == Ok(Some(Found(mapped.value.value, x, y))))
  {
    match ToArray(response)
    case Fail(e) => Fail(Wrapped(e))
    case Ok(data) =>
      match mapCandidates(data)
      case Fail(e) => Fail(e)
      case Ok(None) => Ok(None)
      case Ok(Some(address)) => Ok(Some(Found(address, x, y)))
  }

  /**
   * `reverseGeocode`: the checks' error before anything is sent; then the
   * adapter's query for the coordinates (converted to its parameter types)
   * is requested and the response answered. Only the candidate keeps the
   * coordinates unconverted.
   */
  function ReverseGeocode(query: (Coordinate, Coordinate) -> Query, mapCandidates: Value -> Result<Option<string>>,
                          request: Query -> Response, location: seq<(Key, Value)>)
    : (r: Result<Option<AddressCandidate>>)
    requires forall data :: mapCandidates(data).Fail? ==> mapCandidates(data).error == TypeFault
    ensures Coordinates(location).Fail? ==> r == Fail(Coordinates(location).error)
    ensures Coordinates(location).Ok? ==>
              var (x, y) := Coordinates(location).value;
              var (qx, qy) := (QueryArgument(x), QueryArgument(y));
              (qx.None? || qy.None? ==> r == Fail(TypeFault)) &&
              (qx.Some? && qy.Some? ==> r == Answered(mapCandidates, x, y, request(query(qx.value, qy.value))))
    ensures r.Ok? && r.value.Some? ==>
              r.value.value.score == None && r.value.value.location == [(IKey(0), X(location)), (IKey(1), Y(location))]
  {
    match Coordinates(location)
    case Fail(e) => Fail(e)
    case Ok((x, y)) =>
      match (QueryArgument(x), QueryArgument(y))
      case (Some(qx), Some(qy)) => Answered(mapCandidates, x, y, request(query(qx, qy)))
      case _ => Fail(TypeFault)
  }

  /** No request is made unless the checks pass: the result does not depend on the client. */
  lemma NoRequestWhenInvalid(query: (Coordinate, Coordinate) -> Query, mapCandidates: Value -> Result<Option<string>>,
                             one: Query -> Response, other: Query -> Response, location: seq<(Key, Value)>)
    requires forall data :: mapCandidates(data).Fail? ==> mapCandidates(data).error == TypeFault
    requires Coordinates(location).Fail?
    ensures ReverseGeocode(query, mapCandidates, one, location) == ReverseGeocode(query, mapCandidates, other, location)
    ensures ReverseGeocode(query, mapCandidates, one, location).error in [MissingLongitude, MissingLatitude, NonNumericCoordinates]
  {
  }

  /**
   * The three checks as written: each throws `new GeocoderException($message)`,
   * whose only parameter is `?Throwable $previous`, so the throw itself
   * fails with a TypeError.
   */
  function CoordinatesAsWritten(location: seq<(Key, Value)>): (r: Result<(Value, Value)>)
    ensures r.Fail? <==> Coordinates(location).Fail?
    ensures r.Fail? ==> r.error == TypeFault
    ensures r.Ok? ==> r == Coordinates(location)
  {
    match Coordinates(location)
    case Fail(_) => Fail(TypeFault)
    case Ok(p) => Ok(p)
  }

  /**
   * As written, an empty location and a non-numeric pair fail the same way,
   * and with an `Error` that `catch (GeocoderException)` or
   * `catch (Exception)` does not catch.
   */
  lemma MessageThrowsAreTypeErrors()
    ensures CoordinatesAsWritten([]) == CoordinatesAsWritten([(IKey(0), Str("a")), (IKey(1), Str("b"))])
    ensures CoordinatesAsWritten([]).Fail? && !IsException(CoordinatesAsWritten([]).error)
  {
    var pair := [(IKey(0), Str("a")), (IKey(1), Str("b"))];
    assert Coordinates([]) == Fail(MissingLongitude);
    NonNumericPair();
  }

  /** Two letters are not numeric: the pair fails the third check. */
  lemma NonNumericPair()
    ensures Coordinates([(IKey(0), Str("a")), (IKey(1), Str("b"))]) == Fail(NonNumericCoordinates)
  {
    var pair := [(IKey(0), Str("a")), (IKey(1), Str("b"))];
    PositionalPair(Str("a"), Str("b"), []);
    assert pair + [] == pair;
    StartsNonNumericIsText("a");
    StartsNonNumericIsText("b");
  }

  /** The intended checks: three distinct exceptions, each one a caller can catch. */
  lemma CheckErrorsAreExceptions(location: seq<(Key, Value)>)
    requires Coordinates(location).Fail?
    ensures IsException(Coordinates(location).error)
    ensures Coordinates(location).error != TypeFault
  {
  }
}
