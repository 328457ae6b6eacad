/**
 * An address candidate: an immutable record of an address, the location
 * array it was found at and an optional score, with its GeoJSON-like
 * serialised form `{type: "Point", coordinates, properties: {address, score}}`.
 */
module Candidate {
  import opened Php
  import opened Geocoder

  /**
   * `new AddressCandidate($address, $location, $score)`. The three
   * readonly properties are the datatype's fields, so no operation can
   * change a candidate once it is built. A null score is `None`.
   */
  datatype AddressCandidate = AddressCandidate(address: string, location: seq<(Key, Value)>, score: Option<Num>)

  /** `getAddress`, `getLocation`, `getScore`. */
  function GetAddress(c: AddressCandidate): (a: string)
  {
    c.address
  }

  function GetLocation(c: AddressCandidate): (l: seq<(Key, Value)>)
  {
    c.location
  }

  function GetScore(c: AddressCandidate): (s: Option<Num>)
  {
    c.score
  }

  /** Each getter hands back exactly what the constructor was given, a null score included. */
  lemma GettersReturnArguments(a: string, l: seq<(Key, Value)>, s: Option<Num>)
    ensures GetAddress(AddressCandidate(a, l, s)) == a
    ensures GetLocation(AddressCandidate(a, l, s)) == l
    ensures GetScore(AddressCandidate(a, l, s)) == s
  {
  }

  /**
   * The serialised form: PHP values, numbers kept as terms, and string-keyed
   * arrays of members.
   */
  datatype Json = Scalar(v: Value) | Number(n: Num) | Object(members: seq<(string, Json)>)

  /** The member names of an object, in order. */
  function Names(j: Json): seq<string> {
    if j.Object? then Keys(j.members) else []
  }

  /** `$j[$name] ?? null` on a serialised value: the first member with that name. */
  function Member(j: Json, name: string): Option<Json> {
    if j.Object? then MemberOf(j.members, name) else None
  }

  function MemberOf(ms: seq<(string, Json)>, name: string): Option<Json> {
    if ms == [] then None
    else if ms[0].0 == name then Some(ms[0].1)
    else MemberOf(ms[1..], name)
  }

  lemma MemberOfPair(n0: string, j0: Json, n1: string, j1: Json)
    requires n0 != n1
    ensures MemberOf([(n0, j0), (n1, j1)], n0) == Some(j0)
    ensures MemberOf([(n0, j0), (n1, j1)], n1) == Some(j1)
  {
    assert [(n0, j0), (n1, j1)][1..] == [(n1, j1)];
  }

  lemma MemberOfTriple(n0: string, j0: Json, n1: string, j1: Json, n2: string, j2: Json)
    requires n0 != n1 && n0 != n2 && n1 != n2
    ensures MemberOf([(n0, j0), (n1, j1), (n2, j2)], n0) == Some(j0)
    ensures MemberOf([(n0, j0), (n1, j1), (n2, j2)], n1) == Some(j1)
    ensures MemberOf([(n0, j0), (n1, j1), (n2, j2)], n2) == Some(j2)
  {
    assert [(n0, j0), (n1, j1), (n2, j2)][1..] == [(n1, j1), (n2, j2)];
    MemberOfPair(n1, j1, n2, j2);
  }

  /** The score as it is serialised: the number, or null. */
  function ScoreJson(s: Option<Num>): Json {
    match s
    case None => Scalar(Null)
    case Some(n) => Number(n)
  }

  /** `jsonSerialize`. */
  function JsonSerialize(c: AddressCandidate): (j: Json)
    ensures Names(j) == ["type", "coordinates", "properties"]
    ensures Member(j, "type") == Some(Scalar(Str("Point")))
    ensures Member(j, "coordinates") == Some(Scalar(Arr(GetLocation(c))))
    ensures Member(j, "properties").Some? && Names(Member(j, "properties").value) == ["address", "score"]
    ensures Member(Member(j, "properties").value, "address") == Some(Scalar(Str(GetAddress(c))))
    ensures Member(Member(j, "properties").value, "score") == Some(ScoreJson(GetScore(c)))
  {
    var properties := [("address", Scalar(Str(c.address))), ("score", ScoreJson(c.score))];
    var members := [ ("type", Scalar(Str("Point"))),
                     ("coordinates", Scalar(Arr(c.location))),
                     ("properties", Object(properties)) ];
    MemberOfPair("address", properties[0].1, "score", properties[1].1);
    MemberOfTriple("type", members[0].1, "coordinates", members[1].1, "properties", members[2].1);
    Object(members)
  }

  /**
   * A candidate read back from a serialised form: the address and score
   * from `properties`, the location from `coordinates`; none when the
   * form does not have that shape.
   */
  function ReadBack(j: Json): Option<AddressCandidate> {
    var coordinates := Member(j, "coordinates");
    var properties := Member(j, "properties");
    if coordinates.None? || !coordinates.value.Scalar? || !coordinates.value.v.Arr? || properties.None? then None
    else
      var address := Member(properties.value, "address");
      var score := Member(properties.value, "score");
      if address.None? || !address.value.Scalar? || !address.value.v.Str? || score.None? then None
      else if score.value == Scalar(Null) then Some(AddressCandidate(address.value.v.s, coordinates.value.v.entries, None))
      else if score.value.Number? then Some(AddressCandidate(address.value.v.s, coordinates.value.v.entries, Some(score.value.n)))
      else None
  }

  /** Reading the serialised form back reproduces the candidate. */
  lemma ReadBackSerialized(c: AddressCandidate)
    ensures ReadBack(JsonSerialize(c)) == Some(c)
  {
    var j := JsonSerialize(c);
    assert Member(j, "coordinates") == Some(Scalar(Arr(c.location)));
    var p := Member(j, "properties").value;
    assert Member(p, "address") == Some(Scalar(Str(c.address)));
    assert Member(p, "score") == Some(ScoreJson(c.score));
  }

  /** Two candidates with the same serialised form are the same candidate. */
  lemma SerializeInjective(c: AddressCandidate, d: AddressCandidate)
    requires JsonSerialize(c) == JsonSerialize(d)
    ensures c == d
  {
    ReadBackSerialized(c);
    ReadBackSerialized(d);
  }
}
