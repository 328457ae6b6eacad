/**
 * The small part of PHP's value model and standard library that the
 * geocoder adapters rely on: values and arrays, truthiness (`array_filter`
 * without a callback), `??` lookups, `rtrim`, `implode`, `str_replace`,
 * `is_numeric`, loose comparison with zero and string conversion.
 */
module Php {

  datatype Option<+T> = None | Some(value: T)

  /** A key of a PHP array. */
  datatype Key = IKey(i: int) | SKey(s: string)

  /**
   * A PHP value as it reaches the adapters: a decoded JSON body, a user
   * option, or the geometry factory object (known only by its SRID).
   * A float is carried as the text PHP's string conversion gives for it,
   * so that nothing is asserted about floating-point arithmetic.
   */
  datatype Value =
    | Null
    | Bool(b: bool)
    | Int(i: int)
    | Float(text: string)
    | Str(s: string)
    | Arr(entries: seq<(Key, Value)>)
    | Factory(srid: int)

  /** PHP's conversion to boolean yields false (what `array_filter` drops). */
  predicate Falsy(v: Value) {
    match v
    case Null => true
    case Bool(b) => !b
    case Int(i) => i == 0
    case Float(t) => t == "0" || t == "-0"
    case Str(s) => s == "" || s == "0"
    case Arr(es) => es == []
    case Factory(_) => false
  }

  /** First value stored under `k`, or null when there is none. */
  function Find(es: seq<(Key, Value)>, k: Key): (r: Value)
    ensures r != Null ==> (k, r) in es
    ensures (forall e :: e in es ==> e.0 != k) ==> r == Null
  {
    if es == [] then Null
    else if es[0].0 == k then es[0].1
    else Find(es[1..], k)
  }

  /** `$v[$k] ?? null`: null for a missing key and for a value that is not an array. */
  function At(v: Value, k: Key): Value {
    if v.Arr? then Find(v.entries, k) else Null
  }

  /** `$v['name'] ?? null`. */
  function Field(v: Value, name: string): Value {
    At(v, SKey(name))
  }

  /** The entries `foreach` visits: none when the value is not an array. */
  function Items(v: Value): seq<(Key, Value)> {
    if v.Arr? then v.entries else []
  }

  /** `$options[$key] ?? null` over a resolved option map. */
  function OptionAt(options: map<string, Value>, key: string): Value {
    if key in options then options[key] else Null
  }

  /** `s` is `t` with some of its elements left out, in order. */
  predicate Subsequence<T(==)>(s: seq<T>, t: seq<T>)
    decreases |t|
  {
    s == [] || (t != [] && ((s[0] == t[0] && Subsequence(s[1..], t[1..])) || Subsequence(s, t[1..])))
  }

  lemma {:induction false} SubsequenceReflexive<T>(s: seq<T>)
    ensures Subsequence(s, s)
    decreases |s|
  {
    if s != [] {
      SubsequenceReflexive(s[1..]);
    }
  }

  /**
   * `array_filter($q, $keep)`: the entries whose value `keep` accepts,
   * under their original keys and in their original order.
   */
  function Filter<K(==), T(==)>(q: seq<(K, T)>, keep: T -> bool): (r: seq<(K, T)>)
    ensures forall i :: 0 <= i < |r| ==> r[i] in q && keep(r[i].1)
    ensures forall i :: 0 <= i < |q| && keep(q[i].1) ==> q[i] in r
    ensures Subsequence(r, q)
    ensures (forall i :: 0 <= i < |q| ==> keep(q[i].1)) ==> r == q
  {
    if q == [] then []
    else
      var rest := Filter(q[1..], keep);
      if keep(q[0].1) then [q[0]] + rest else rest
  }

  lemma {:induction false} FilterSnoc<K, T>(q: seq<(K, T)>, e: (K, T), keep: T -> bool)
    ensures Filter(q + [e], keep) == Filter(q, keep) + (if keep(e.1) then [e] else [])
    decreases |q|
  {
    if q == [] {
      assert q + [e] == [e];
    } else {
      assert q + [e] == [q[0]] + (q[1..] + [e]);
      assert (q + [e])[0] == q[0];
      assert (q + [e])[1..] == q[1..] + [e];
      FilterSnoc(q[1..], e, keep);
    }
  }

  predicate Truthy(v: Value) { !Falsy(v) }

  /** `array_filter($q)`: drops every entry whose value is falsy. */
  function ArrayFilter(q: seq<(string, Value)>): (r: seq<(string, Value)>)
    ensures forall e :: e in r <==> e in q && !Falsy(e.1)
    ensures Subsequence(r, q)
  {
    Filter(q, Truthy)
  }

  /** No key occurs twice. */
  predicate DistinctKeys<K(==), T>(q: seq<(K, T)>) {
    forall i, j :: 0 <= i < j < |q| ==> q[i].0 != q[j].0
  }

  /**
   * The map holds `v` under `name` exactly when `v` is truthy, and never
   * anything else under `name`: when `v` is falsy the name is absent.
   */
  predicate Carries(q: seq<(string, Value)>, name: string, v: Value) {
    (Truthy(v) <==> (name, v) in q) && forall i :: 0 <= i < |q| && q[i].0 == name ==> q[i].1 == v
  }

  /** Appending entries under other names keeps what a map carries. */
  lemma CarriesAppend(f: seq<(string, Value)>, tail: seq<(string, Value)>, name: string, v: Value)
    requires Carries(f, name, v)
    requires forall j :: 0 <= j < |tail| ==> tail[j].0 != name
    ensures Carries(f + tail, name, v)
  {
    var q := f + tail;
    assert forall j :: |f| <= j < |q| ==> q[j] == tail[j - |f|];
    assert forall j :: 0 <= j < |f| ==> q[j] == f[j];
  }

  /**
   * Appending entries under names outside `names` to a map whose names all
   * lie in `names` keeps everything it carries and keeps keys distinct.
   */
  lemma AppendCarriesAll(f: seq<(string, Value)>, tail: seq<(string, Value)>,
                         lit: seq<(string, Value)>, names: set<string>)
    requires forall k :: 0 <= k < |lit| ==> Carries(f, lit[k].0, lit[k].1) && lit[k].0 in names
    requires DistinctKeys(f) && forall i :: 0 <= i < |f| ==> f[i].0 in names
    requires DistinctKeys(tail) && forall j :: 0 <= j < |tail| ==> tail[j].0 !in names
    ensures forall k :: 0 <= k < |lit| ==> Carries(f + tail, lit[k].0, lit[k].1)
    ensures DistinctKeys(f + tail)
  {
    forall k | 0 <= k < |lit|
      ensures Carries(f + tail, lit[k].0, lit[k].1)
    {
      CarriesAppend(f, tail, lit[k].0, lit[k].1);
    }
    DistinctAppend(f, tail);
  }

  /** Two maps with distinct keys and no key in common append to one with distinct keys. */
  lemma DistinctAppend<K, T>(f: seq<(K, T)>, tail: seq<(K, T)>)
    requires DistinctKeys(f) && DistinctKeys(tail)
    requires forall i, j :: 0 <= i < |f| && 0 <= j < |tail| ==> f[i].0 != tail[j].0
    ensures DistinctKeys(f + tail)
  {
    var q := f + tail;
    forall a, b | 0 <= a < b < |q|
      ensures q[a].0 != q[b].0
    {
      if b < |f| {
        assert q[a] == f[a] && q[b] == f[b];
      } else if a >= |f| {
        assert q[a] == tail[a - |f|] && q[b] == tail[b - |f|];
      } else {
        assert q[a] == f[a] && q[b] == tail[b - |f|];
      }
    }
  }

  lemma {:induction false} SubsequenceDistinct<K, T>(s: seq<(K, T)>, t: seq<(K, T)>)
    requires Subsequence(s, t) && DistinctKeys(t)
    ensures DistinctKeys(s)
    decreases |t|
  {
    if s != [] {
      assert DistinctKeys(t[1..]) by {
        forall i, j | 0 <= i < j < |t[1..]|
          ensures t[1..][i].0 != t[1..][j].0
        {
          assert t[1..][i] == t[i + 1] && t[1..][j] == t[j + 1];
        }
      }
      if s[0] == t[0] && Subsequence(s[1..], t[1..]) {
        SubsequenceDistinct(s[1..], t[1..]);
        SubsequenceMember(s[1..], t[1..]);
        forall j | 0 < j < |s|
          ensures s[0].0 != s[j].0
        {
          assert s[j] == s[1..][j - 1];
          assert s[j] in t[1..];
        }
      } else {
        SubsequenceDistinct(s, t[1..]);
      }
    }
  }

  lemma {:induction false} SubsequenceMember<T>(s: seq<T>, t: seq<T>)
    requires Subsequence(s, t)
    ensures forall e :: e in s ==> e in t
    decreases |t|
  {
    if s != [] {
      if s[0] == t[0] && Subsequence(s[1..], t[1..]) {
        SubsequenceMember(s[1..], t[1..]);
        assert s == [s[0]] + s[1..];
      } else {
        SubsequenceMember(s, t[1..]);
      }
    }
  }

  /**
   * `array_filter` over an array literal with distinct keys: each entry is
   * carried when truthy, keys stay distinct, and no other key appears.
   */
  lemma ArrayFilterCarries(lit: seq<(string, Value)>)
    requires DistinctKeys(lit)
    ensures forall i :: 0 <= i < |lit| ==> Carries(ArrayFilter(lit), lit[i].0, lit[i].1)
    ensures DistinctKeys(ArrayFilter(lit))
    ensures forall e :: e in ArrayFilter(lit) ==> e in lit
  {
    var q := ArrayFilter(lit);
    SubsequenceDistinct(q, lit);
    forall i | 0 <= i < |lit|
      ensures Carries(q, lit[i].0, lit[i].1)
    {
      forall j | 0 <= j < |q| && q[j].0 == lit[i].0
        ensures q[j].1 == lit[i].1
      {
        assert q[j] in lit;
        var k :| 0 <= k < |lit| && lit[k] == q[j];
        assert k == i;
      }
    }
  }

  /** The keys of an ordered query map. */
  function Keys<K, T>(q: seq<(K, T)>): (r: seq<K>)
    ensures |r| == |q| && forall i :: 0 <= i < |q| ==> r[i] == q[i].0
  {
    seq(|q|, i requires 0 <= i < |q| => q[i].0)
  }

  /**
   * `rtrim($s, $chars)`: removes every trailing character that belongs to
   * `chars`, however many there are.
   */
  function RTrim(s: string, chars: set<char>): (r: string)
    ensures r <= s
    ensures r == [] || r[|r| - 1] !in chars
    ensures forall i :: |r| <= i < |s| ==> s[i] in chars
  {
    if s != [] && s[|s| - 1] in chars then RTrim(s[..|s| - 1], chars) else s
  }

  /** The characters `rtrim` strips when it is given no character list. */
  const RTrimDefault: set<char> := {' ', '\t', '\n', '\r', '\0', '\U{000B}'}

  /** Trimming after appending one more strippable character changes nothing. */
  lemma RTrimAbsorbs(s: string, c: char, chars: set<char>)
    requires c in chars
    ensures RTrim(s + [c], chars) == RTrim(s, chars)
  {
    assert (s + [c])[..|s + [c]| - 1] == s;
  }

  /**
   * Trimming a concatenation: the left part is touched only when the right
   * part trims away completely.
   */
  lemma {:induction false} RTrimConcat(a: string, b: string, chars: set<char>)
    ensures RTrim(a + b, chars) == if RTrim(b, chars) == [] then RTrim(a, chars) else a + RTrim(b, chars)
    decreases |b|
  {
    if b == [] {
      assert a + b == a;
    } else if b[|b| - 1] in chars {
      var b' := b[..|b| - 1];
      assert (a + b)[..|a + b| - 1] == a + b';
      RTrimConcat(a, b', chars);
    } else {
      assert (a + b)[|a + b| - 1] == b[|b| - 1];
    }
  }

  /** `implode($sep, $parts)`. */
  function Join(sep: string, parts: seq<string>): string {
    if parts == [] then ""
    else if |parts| == 1 then parts[0]
    else parts[0] + sep + Join(sep, parts[1..])
  }

  /** Every part followed by the separator, as a chain of `.=` builds it. */
  function Terminated(sep: string, parts: seq<string>): string {
    if parts == [] then "" else parts[0] + sep + Terminated(sep, parts[1..])
  }

  lemma {:induction false} TerminatedIsJoin(sep: string, parts: seq<string>)
    requires parts != []
    ensures Terminated(sep, parts) == Join(sep, parts) + sep
    decreases |parts|
  {
    if |parts| > 1 {
      TerminatedIsJoin(sep, parts[1..]);
    }
  }

  lemma {:induction false} TerminatedSnoc(sep: string, parts: seq<string>, p: string)
    ensures Terminated(sep, parts + [p]) == Terminated(sep, parts) + p + sep
    decreases |parts|
  {
    if parts == [] {
      assert parts + [p] == [p];
    } else {
      assert (parts + [p])[1..] == parts[1..] + [p];
      TerminatedSnoc(sep, parts[1..], p);
    }
  }

  lemma {:induction false} TerminatedAppend(sep: string, a: seq<string>, b: seq<string>)
    ensures Terminated(sep, a + b) == Terminated(sep, a) + Terminated(sep, b)
    decreases |a|
  {
    if a == [] {
      assert a + b == b;
    } else {
      assert (a + b)[0] == a[0] && (a + b)[1..] == a[1..] + b;
      TerminatedAppend(sep, a[1..], b);
    }
  }

  /** A join ends with its last part. */
  lemma {:induction false} JoinEndsWith(sep: string, parts: seq<string>)
    requires parts != []
    ensures |parts[|parts| - 1]| <= |Join(sep, parts)|
    ensures Join(sep, parts)[|Join(sep, parts)| - |parts[|parts| - 1]|..] == parts[|parts| - 1]
    decreases |parts|
  {
    if |parts| > 1 {
      JoinEndsWith(sep, parts[1..]);
      var rest := Join(sep, parts[1..]);
      var l := parts[|parts| - 1];
      assert parts[1..][|parts[1..]| - 1] == l;
      assert Join(sep, parts) == parts[0] + sep + rest;
      assert (parts[0] + sep + rest)[|parts[0] + sep + rest| - |l|..] == rest[|rest| - |l|..];
    }
  }

  /** `array_filter` of a literal sends only names the literal lists. */
  lemma ArrayFilterNames(lit: seq<(string, Value)>, names: seq<string>)
    requires Keys(lit) == names
    ensures forall i :: 0 <= i < |ArrayFilter(lit)| ==> ArrayFilter(lit)[i].0 in names
  {
    var q := ArrayFilter(lit);
    forall i | 0 <= i < |q|
      ensures q[i].0 in names
    {
      assert q[i] in lit;
      var k :| 0 <= k < |lit| && lit[k] == q[i];
      assert names[k] == q[i].0;
    }
  }

  /**
   * Trimming the separator off parts that are each followed by it gives
   * their join, when the last part is not empty and does not itself end
   * with the separator; the join then does not end with it.
   */
  lemma TrimTerminated(c: char, parts: seq<string>)
    requires parts != [] ==> parts[|parts| - 1] != [] && parts[|parts| - 1][|parts[|parts| - 1]| - 1] != c
    ensures RTrim(Terminated([c], parts), {c}) == Join([c], parts)
    ensures Join([c], parts) == [] || Join([c], parts)[|Join([c], parts)| - 1] != c
  {
    if parts != [] {
      TerminatedIsJoin([c], parts);
      var j := Join([c], parts);
      assert Terminated([c], parts) == j + [c];
      RTrimAbsorbs(j, c, {c});
      JoinEndsWith([c], parts);
      var l := parts[|parts| - 1];
      assert j[|j| - 1] == j[|j| - |l|..][|l| - 1];
    }
  }

  /** `str_replace($pattern, $replacement, $s)`: every non-overlapping occurrence, left to right. */
  function ReplaceAll(s: string, pattern: string, replacement: string): (r: string)
    requires pattern != []
    decreases |s|
  {
    if |s| < |pattern| then s
    else if s[..|pattern|] == pattern then replacement + ReplaceAll(s[|pattern|..], pattern, replacement)
    else [s[0]] + ReplaceAll(s[1..], pattern, replacement)
  }

  /** A string in which the pattern's first character never occurs holds no occurrence. */
  lemma {:induction false} ReplaceAllFree(s: string, pattern: string, replacement: string)
    requires pattern != [] && pattern[0] !in s
    ensures ReplaceAll(s, pattern, replacement) == s
    decreases |s|
  {
    if |s| >= |pattern| {
      assert s[..|pattern|][0] == s[0];
      assert s == [s[0]] + s[1..];
      ReplaceAllFree(s[1..], pattern, replacement);
    }
  }

  /**
   * Replacing in `prefix + pattern + suffix`, where the pattern's first
   * character occurs in neither the prefix nor the suffix, substitutes
   * exactly once.
   */
  lemma {:induction false} ReplaceAllOnce(prefix: string, pattern: string, suffix: string, replacement: string)
    requires pattern != [] && pattern[0] !in prefix && pattern[0] !in suffix
    ensures ReplaceAll(prefix + pattern + suffix, pattern, replacement) == prefix + replacement + suffix
    decreases |prefix|
  {
    var s := prefix + pattern + suffix;
    if prefix == [] {
      assert s == pattern + suffix;
      assert s[..|pattern|] == pattern;
      assert s[|pattern|..] == suffix;
      ReplaceAllFree(suffix, pattern, replacement);
    } else {
      var tail := prefix[1..] + pattern + suffix;
      assert s == [prefix[0]] + tail;
      assert s[..|pattern|][0] == prefix[0];
      assert s[..|pattern|] != pattern;
      assert s[1..] == tail;
      assert ReplaceAll(s, pattern, replacement) == [prefix[0]] + ReplaceAll(tail, pattern, replacement);
      ReplaceAllOnce(prefix[1..], pattern, suffix, replacement);
      assert prefix == [prefix[0]] + prefix[1..];
    }
  }

  /** Decimal digits of a natural number. */
  function Digits(n: nat): (r: string)
    ensures r != []
    decreases n
  {
    (if n < 10 then "" else Digits(n / 10)) + ["0123456789"[n % 10]]
  }

  /** PHP's string form of an integer. */
  function DecimalString(i: int): string {
    if i < 0 then "-" + Digits(-i) else Digits(i)
  }

  /**
   * PHP's conversion of a value to string, as interpolation performs it;
   * none for an object without `__toString` (an Error in PHP).
   */
  function StringOf(v: Value): Option<string> {
    match v
    case Null => Some("")
    case Bool(b) => Some(if b then "1" else "")
    case Int(i) => Some(DecimalString(i))
    case Float(t) => Some(t)
    case Str(s) => Some(s)
    case Arr(_) => Some("Array")
    case Factory(_) => None
  }

  /**
   * Coercion of a value to a `string` parameter or return type outside
   * strict mode: scalars convert, null, arrays and objects are a TypeError.
   */
  function CoerceToString(v: Value): Option<string> {
    match v
    case Bool(b) => Some(if b then "1" else "")
    case Int(i) => Some(DecimalString(i))
    case Float(t) => Some(t)
    case Str(s) => Some(s)
    case _ => None
  }

  /** The whitespace PHP allows around a numeric string. */
  const NumericWhitespace: set<char> := {' ', '\t', '\n', '\r', '\U{000B}', '\U{000C}'}

  predicate IsDigit(c: char) { '0' <= c <= '9' }

  predicate AllDigits(s: string) { forall i :: 0 <= i < |s| ==> IsDigit(s[i]) }

  /** `LNUM` or `DNUM`: digits with at most one decimal point and at least one digit. */
  predicate IsDecimal(m: string) {
    (m != [] && AllDigits(m))
    || (exists k :: 0 <= k < |m| && m[k] == '.' && |m| > 1 && AllDigits(m[..k]) && AllDigits(m[k + 1..]))
  }

  /** An optionally signed run of digits. */
  predicate IsExponent(e: string) {
    if e != [] && (e[0] == '+' || e[0] == '-') then e[1..] != [] && AllDigits(e[1..])
    else e != [] && AllDigits(e)
  }

  /** An optional sign, a decimal, and an optional exponent. */
  predicate IsNumberText(t: string) {
    var u := if t != [] && (t[0] == '+' || t[0] == '-') then t[1..] else t;
    IsDecimal(u)
    || (exists k :: 0 <= k < |u| && (u[k] == 'e' || u[k] == 'E') && IsDecimal(u[..k]) && IsExponent(u[k + 1..]))
  }

  /** Leading characters from `chars` removed. */
  function LTrim(s: string, chars: set<char>): (r: string)
    ensures r == [] || r[0] !in chars
    ensures |r| <= |s|
  {
    if s != [] && s[0] in chars then LTrim(s[1..], chars) else s
  }

  /** A numeric string in the sense of PHP 8: whitespace is allowed on both sides. */
  predicate IsNumericString(s: string) {
    IsNumberText(RTrim(LTrim(s, NumericWhitespace), NumericWhitespace))
  }

  /** `is_numeric($v)`. */
  predicate IsNumeric(v: Value) {
    v.Int? || v.Float? || (v.Str? && IsNumericString(v.s))
  }

  /** The part of a string before its first `e` or `E`. */
  function Mantissa(s: string): string {
    if s == [] || s[0] == 'e' || s[0] == 'E' then "" else [s[0]] + Mantissa(s[1..])
  }

  /** `$v == 0` under PHP 8's loose comparison. */
  predicate LooselyZero(v: Value) {
    match v
    case Null => true
    case Bool(b) => !b
    case Int(i) => i == 0
    case Float(t) => t == "0" || t == "-0"
    case Str(s) => IsNumericString(s) && forall i :: 0 <= i < |Mantissa(s)| ==> !('1' <= Mantissa(s)[i] <= '9')
    case Arr(_) => false
    case Factory(_) => false
  }

  /**
   * A text no numeric string starts like: not with whitespace, a sign, a
   * digit or a decimal point.
   */
  predicate StartsNonNumeric(text: string) {
    text != [] && text[0] !in NumericWhitespace && text[0] !in "+-." && !IsDigit(text[0])
  }

  /** Such a text is not numeric, so loose comparison with it compares strings. */
  lemma StartsNonNumericIsText(text: string)
    requires StartsNonNumeric(text)
    ensures !IsNumericString(text)
  {
    assert LTrim(text, NumericWhitespace) == text;
    var t := RTrim(text, NumericWhitespace);
    assert t != [] && t[0] == text[0];
    NotDecimal(t);
    forall k | 0 <= k < |t| && (t[k] == 'e' || t[k] == 'E')
      ensures !IsDecimal(t[..k])
    {
      NotDecimal(t[..k]);
    }
  }

  lemma NotDecimal(m: string)
    requires m == [] || (!IsDigit(m[0]) && m[0] != '.')
    ensures !IsDecimal(m)
  {
    if m != [] {
      assert !IsDigit(m[0]);
      forall k | 0 <= k < |m| && m[k] == '.'
        ensures !AllDigits(m[..k])
      {
        assert k > 0 && m[..k][0] == m[0];
      }
    }
  }

  /**
   * `$text == $v` under PHP 8's loose comparison, for a text that is not
   * numeric: equal strings, or a true boolean.
   */
  predicate LooselyEqualsText(text: string, v: Value)
    requires StartsNonNumeric(text)
  {
    match v
    case Str(s) => s == text
    case Bool(b) => b
    case _ => false
  }
}
