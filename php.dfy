/**
 * The few pieces of PHP's value model and standard library that the provider
 * relies on: decoded JSON / PHP array values, `rtrim` with a character list of
 * one character, `empty` on strings and `implode`.
 */
module Php {
  import opened Wrappers

  /** One byte of a PHP string. */
  type Byte = b: int | 0 <= b < 256

  /**
   * A PHP value as produced by decoding a JSON response body. A PHP array
   * (list or dictionary) is a map from string keys to values.
   */
  datatype Json =
    | Null
    | Bool(b: bool)
    | Int(i: int)
    | Str(s: string)
    | Array(entries: map<string, Json>)

  /**
   * `rtrim($s, $c)`: removes every trailing occurrence of `c`, not only one.
   * The result is the longest prefix of `s` that does not end in `c` such
   * that everything after it is `c`.
   */
  function RTrim(s: string, c: char): (r: string)
    ensures |r| <= |s| && r == s[..|r|]
    ensures r == [] || r[|r| - 1] != c
    ensures forall i :: |r| <= i < |s| ==> s[i] == c
    decreases |s|
  {
    if s == [] || s[|s| - 1] != c then s else RTrim(s[..|s| - 1], c)
  }

  /** Trimming twice is the same as trimming once. */
  lemma RTrimIdempotent(s: string, c: char)
    ensures RTrim(RTrim(s, c), c) == RTrim(s, c)
  {
  }

  /**
   * The three properties in RTrim's contract determine its result: any prefix
   * of `s` that does not end in `c` and is followed only by `c` is RTrim(s, c).
   */
  lemma RTrimUnique(s: string, c: char, t: string)
    requires |t| <= |s| && t == s[..|t|]
    requires t == [] || t[|t| - 1] != c
    requires forall i :: |t| <= i < |s| ==> s[i] == c
    ensures t == RTrim(s, c)
  {
  }

  /** A string made only of `c` trims to the empty string. */
  lemma RTrimAllSame(s: string, c: char)
    requires forall i :: 0 <= i < |s| ==> s[i] == c
    ensures RTrim(s, c) == ""
  {
  }

  /**
   * `$data[$key] ?? $default` for a non-numeric `key` such as 'message': the
   * value under `key` when `data` is an array holding `key` with a non-null
   * value, and `default` otherwise (a number, boolean or null `data` has no
   * entries, and a string has none under a non-numeric offset). The offsets
   * a string has under numeric keys are not modelled.
   */
  function IndexOr(data: Json, key: string, default: Json): (r: Json)
    ensures data.Array? && key in data.entries && data.entries[key] != Null ==> r == data.entries[key]
    ensures !(data.Array? && key in data.entries && data.entries[key] != Null) ==> r == default
  {
    match data
    case Array(entries) => if key in entries && entries[key] != Null then entries[key] else default
    case _ => default
  }

  /** PHP's `empty` on a string value: true exactly for "" and "0". */
  predicate IsEmptyString(s: string)
  {
    s == "" || s == "0"
  }

  /** PHP's `empty($m[$k])`: true when the key is absent or its value is empty. */
  predicate EmptyEntry(m: map<string, string>, k: string)
  {
    k !in m || IsEmptyString(m[k])
  }

  /** `implode($sep, $xs)`: the pieces in order with `sep` between neighbours. */
  function Implode(sep: string, xs: seq<string>): (r: string)
    decreases |xs|
  {
    if xs == [] then ""
    else if |xs| == 1 then xs[0]
    else xs[0] + sep + Implode(sep, xs[1..])
  }

  /** The decimal digit character for `d`. */
  function DigitChar(d: int): char
    requires 0 <= d < 10
  {
    ('0' as int + d) as char
  }

  /** True when `s` is a non-empty run of decimal digits. */
  predicate IsDigits(s: string)
  {
    |s| > 0 && forall i :: 0 <= i < |s| ==> '0' <= s[i] <= '9'
  }

  /** The number a run of decimal digits denotes. */
  function DigitsValue(s: string): nat
    requires forall i :: 0 <= i < |s| ==> '0' <= s[i] <= '9'
    decreases |s|
  {
    if s == [] then 0 else DigitsValue(s[..|s| - 1]) * 10 + (s[|s| - 1] as int - '0' as int)
  }

  /**
   * The decimal form of a natural number: digits only, no leading zero, and
   * denoting the number.
   */
  function NatToString(n: nat): (r: string)
    ensures IsDigits(r)
    ensures DigitsValue(r) == n
    ensures |r| > 1 ==> r[0] != '0'
    decreases n
  {
    if n < 10 then [DigitChar(n)]
    else
      var init := NatToString(n / 10);
      var r := init + [DigitChar(n % 10)];
      assert r[..|r| - 1] == init;
      r
  }

  /**
   * PHP's conversion of an integer to a string: the decimal digits of its
   * magnitude, after a `-` when it is negative.
   */
  function IntToString(i: int): (r: string)
    ensures i >= 0 ==> IsDigits(r) && DigitsValue(r) == i && (|r| > 1 ==> r[0] != '0')
    ensures i < 0 ==> |r| > 1 && r[0] == '-' && IsDigits(r[1..]) && DigitsValue(r[1..]) == -i && r[1] != '0'
  {
    if i < 0 then
      var digits := NatToString(-i);
      assert ("-" + digits)[1..] == digits;
      "-" + digits
    else NatToString(i)
  }

  /** A TypeError: an array passed where a string is expected. */
  datatype CoercionError = ArrayToString(value: Json)

  /**
   * Passing a value to a `string` parameter of a built-in function from code
   * without `strict_types`: a string as it is, an integer in decimal, true as
   * "1", false and null as "", and a TypeError for an array.
   */
  function StringArgument(v: Json): (r: Result<string, CoercionError>)
    ensures r.Failure? <==> v.Array?
    ensures r.Failure? ==> r.error == ArrayToString(v)
    ensures v.Str? ==> r == Success(v.s)
    ensures v.Bool? ==> r == Success(if v.b then "1" else "")
    ensures v.Null? ==> r == Success("")
    ensures v.Int? && v.i >= 0 ==>
      r.Success? && IsDigits(r.value) && DigitsValue(r.value) == v.i && (|r.value| > 1 ==> r.value[0] != '0')
    ensures v.Int? && v.i < 0 ==>
      && r.Success? && |r.value| > 1 && r.value[0] == '-' && IsDigits(r.value[1..])
      && DigitsValue(r.value[1..]) == -v.i && r.value[1] != '0'
  {
    match v
    case Null => Success("")
    case Bool(b) => Success(if b then "1" else "")
    case Int(i) => Success(IntToString(i))
    case Str(s) => Success(s)
    case Array(_) => Failure(ArrayToString(v))
  }

  /** Two decimal forms that denote the same number and have no leading zero are equal. */
  lemma {:induction false} DigitsValueInjective(s: string, t: string)
    requires IsDigits(s) && (|s| > 1 ==> s[0] != '0')
    requires IsDigits(t) && (|t| > 1 ==> t[0] != '0')
    requires DigitsValue(s) == DigitsValue(t)
    ensures s == t
    decreases |s|
  {
    var si, ti := s[..|s| - 1], t[..|t| - 1];
    var sd, td := s[|s| - 1] as int - '0' as int, t[|t| - 1] as int - '0' as int;
    assert DigitsValue(s) == DigitsValue(si) * 10 + sd;
    assert DigitsValue(t) == DigitsValue(ti) * 10 + td;
    assert sd == td && DigitsValue(si) == DigitsValue(ti);
    if |s| == 1 || |t| == 1 {
      if |s| > 1 {
        LeadingDigitPositive(si);
      } else if |t| > 1 {
        LeadingDigitPositive(ti);
      }
    } else {
      DigitsValueInjective(si, ti);
      assert s == si + [s[|s| - 1]] && t == ti + [t[|t| - 1]];
    }
  }

  /** A decimal form that starts with a non-zero digit denotes a positive number. */
  lemma {:induction false} LeadingDigitPositive(s: string)
    requires IsDigits(s) && s[0] != '0'
    ensures DigitsValue(s) > 0
    decreases |s|
  {
    if |s| > 1 {
      LeadingDigitPositive(s[..|s| - 1]);
    }
  }

  /** NatToString gives the only decimal form of `n` without a leading zero. */
  lemma NatToStringCanonical(n: nat, s: string)
    requires IsDigits(s) && (|s| > 1 ==> s[0] != '0')
    requires DigitsValue(s) == n
    ensures s == NatToString(n)
  {
    DigitsValueInjective(s, NatToString(n));
  }
}
