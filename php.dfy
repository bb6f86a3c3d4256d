/**
 * The slice of PHP and of the framework's string helpers that the asset
 * resolver relies on: configuration values, truthiness, string conversion,
 * `Str::startsWith` and `Str::contains`.
 */
module Php {
  import opened Wrappers

  /** A value read from configuration or an options array (floats are not modelled). */
  datatype Value =
    | Null
    | Bool(b: bool)
    | Int(i: int)
    | Str(s: string)
    | Object(handle: nat)                      // an object instance, e.g. a filter or a closure
    | List(items: seq<Value>)                  // an array with keys 0, 1, 2, ...
    | Dict(entries: seq<(string, Value)>)      // an array with string keys, in insertion order

  /** PHP's conversion to bool, as used by `if ($v)`, `!$v` and `&&`. */
  predicate Truthy(v: Value) {
    match v
    case Null => false
    case Bool(b) => b
    case Int(i) => i != 0
    case Str(s) => s != "" && s != "0"
    case Object(_) => true
    case List(items) => items != []
    case Dict(entries) => entries != []
  }

  predicate IsArray(v: Value) {
    v.List? || v.Dict?
  }

  /** The key/value pairs `foreach ($v as $k => $x)` visits; a non-array is skipped with a warning. */
  function Entries(v: Value): seq<(string, Value)> {
    match v
    case List(items) => seq(|items|, i requires 0 <= i < |items| => (DecimalString(i), items[i]))
    case Dict(entries) => entries
    case _ => []
  }

  /** The values `foreach ($v as $x)` visits, in order. */
  function Items(v: Value): (r: seq<Value>)
    ensures |r| == |Entries(v)|
    ensures forall i :: 0 <= i < |r| ==> r[i] == Entries(v)[i].1
  {
    match v
    case List(items) => items
    case Dict(entries) => seq(|entries|, i requires 0 <= i < |entries| => entries[i].1)
    case _ => []
  }

  /** PHP's string conversion of a scalar; arrays and objects have none in this model. */
  function ToStr(v: Value): Option<string> {
    match v
    case Null => Some("")
    case Bool(b) => Some(if b then "1" else "")
    case Int(i) => Some(DecimalString(i))
    case Str(s) => Some(s)
    case _ => None
  }

  /**
   * The key an array lookup such as `isset($a[$v])` uses for a scalar: as its string
   * conversion, except that `false` selects key 0.
   */
  function ArrayKey(v: Value): (r: Option<string>)
    ensures r.Some? <==> ToStr(v).Some?
    ensures v == Bool(false) ==> r == Some("0")
    ensures v != Bool(false) ==> r == ToStr(v)
  {
    match v
    case Bool(false) => Some("0")
    case _ => ToStr(v)
  }

  function DecimalString(i: int): string {
    if i < 0 then "-" + Digits(-i) else Digits(i)
  }

  function Digits(n: nat): string {
    if n < 10 then ["0123456789"[n]] else Digits(n / 10) + ["0123456789"[n % 10]]
  }

  predicate IsPrefix(p: string, s: string) {
    |p| <= |s| && s[..|p|] == p
  }

  /** `Str::startsWith($hay, $needle)`: an empty needle never matches. */
  predicate StartsWith(hay: string, needle: string) {
    needle != "" && IsPrefix(needle, hay)
  }

  /** `mb_strpos($hay, $needle) !== false`: the needle occurs at some offset. */
  predicate Occurs(needle: string, hay: string)
    decreases |hay|
  {
    IsPrefix(needle, hay) || (hay != "" && Occurs(needle, hay[1..]))
  }

  /** `Str::contains($hay, $needles)`: some non-empty needle of the list occurs in `hay`. */
  function ContainsAny(hay: string, needles: seq<string>): (b: bool)
    ensures b <==> exists k :: 0 <= k < |needles| && needles[k] != "" && Occurs(needles[k], hay)
  {
    if needles == [] then false
    else (needles[0] != "" && Occurs(needles[0], hay)) || ContainsAny(hay, needles[1..])
  }

  /** A one-character needle occurs exactly when that character is in the string. */
  lemma {:induction false} OccursChar(c: char, hay: string)
    ensures Occurs([c], hay) <==> c in hay
    decreases |hay|
  {
    if hay != "" {
      OccursChar(c, hay[1..]);
      assert hay == [hay[0]] + hay[1..];
    }
  }
}
