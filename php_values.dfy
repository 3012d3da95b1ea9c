/**
 * PHP values as the DPD client handles them: scalars and string-keyed
 * arrays (the nested "records" of the order message), with the few pieces
 * of PHP's type juggling the client depends on.
 */
module PhpValues {
  import opened Wrappers
  import opened PhpStrings

  /** A PHP value: null, a boolean, an integer, a string, or an array keyed by strings. */
  datatype Value = Null | Bool(b: bool) | Int(i: int) | Str(s: string) | Arr(m: map<string, Value>)

  /** A PHP associative array such as `$array` in the setters. */
  type Record = map<string, Value>

  /**
   * `isset($a[$k])`: the key is present and its value is not null. Unlike
   * `empty`, it accepts false, 0, "" and "0".
   */
  function IsSet(a: Record, k: string): (r: bool)
    ensures r ==> k in a
    ensures k in a ==> (r <==> !a[k].Null?)
    ensures k in a && a[k] in {Bool(false), Int(0), Str(""), Str("0"), Arr(map[])} ==> r
  {
    k in a && a[k] != Null
  }

  /** `empty($v)`: null, false, 0, "", "0" and the empty array, and nothing else. */
  function IsEmpty(v: Value): (r: bool)
    ensures r <==> v in {Null, Bool(false), Int(0), Str(""), Str("0"), Arr(map[])}
  {
    match v
    case Null => true
    case Bool(b) => !b
    case Int(i) => i == 0
    case Str(s) => s == "" || s == "0"
    case Arr(m) => m == map[]
  }

  /** The value read as a condition (`if ($v)`). */
  predicate Truthy(v: Value) {
    !IsEmpty(v)
  }

  /**
   * The string a string built-in (`strtoupper`, `strtolower`, `strtr`)
   * receives for `v`; None where PHP 8 raises a TypeError (an array).
   */
  function StringOf(v: Value): (r: Option<string>)
    ensures r.None? <==> v.Arr?
    ensures v.Str? ==> r == Some(v.s)
    ensures v.Int? ==> r == Some(IntToString(v.i))
    ensures v.Int? ==> r.Some? && |r.value| >= 1 && (r.value[0] == '-' <==> v.i < 0)
    ensures v.Bool? ==> r == Some(if v.b then "1" else "")
    ensures v == Null ==> r == Some("")
  {
    match v
    case Null => Some("")
    case Bool(b) => Some(if b then "1" else "")
    case Int(i) => Some(IntToString(i))
    case Str(s) => Some(s)
    case Arr(_) => None
  }

  /**
   * `array_merge($a, $b)` on string-keyed arrays: every key of either, the
   * value from `b` where both have it.
   */
  function ArrayMerge(a: Record, b: Record): (r: Record)
    ensures r.Keys == a.Keys + b.Keys
    ensures forall k :: k in b ==> r[k] == b[k]
    ensures forall k :: k in a && k !in b ==> r[k] == a[k]
  {
    a + b
  }
}
