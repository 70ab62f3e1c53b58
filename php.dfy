/**
 * The slice of PHP's value semantics the client relies on: array lookup,
 * conversion to boolean (truthiness) and conversion to string.
 */
module Php {

  /** A PHP value as the client meets it; an array is an ordered list of entries. */
  datatype Value =
    | Null
    | Bool(b: bool)
    | Int(i: int)
    | Str(s: string)
    | Arr(entries: PhpArray)

  type PhpArray = seq<(string, Value)>

  /** The values PHP converts to false. */
  const FalsyValues: set<Value> := {Null, Bool(false), Int(0), Str(""), Str("0"), Arr([])}

  /** PHP's conversion to boolean: false exactly for the listed falsy values. */
  predicate ToBool(v: Value)
    ensures ToBool(v) <==> v !in FalsyValues
  {
    match v
    case Null => false
    case Bool(b) => b
    case Int(i) => i != 0
    case Str(s) => s != "" && s != "0"
    case Arr(entries) => entries != []
  }

  /** `if ($s)` for a string: false exactly for "" and "0". */
  predicate Truthy(s: string)
    ensures Truthy(s) <==> |s| > 1 || (|s| == 1 && s[0] != '0')
  {
    ToBool(Str(s))
  }

  /** `if ($a)` for an array: false exactly for the empty array. */
  predicate ArrayTruthy(a: PhpArray)
    ensures ArrayTruthy(a) <==> |a| > 0
  {
    ToBool(Arr(a))
  }

  predicate HasKey(a: PhpArray, k: string) {
    exists i | 0 <= i < |a| :: a[i].0 == k
  }

  /**
   * `$a[$k]` read: the value stored under k, or null when there is none
   * (PHP raises only a warning for a missing key).
   */
  function Get(a: PhpArray, k: string): (v: Value)
    ensures HasKey(a, k) ==> exists i | 0 <= i < |a| :: a[i] == (k, v)
    ensures !HasKey(a, k) ==> v == Null
  {
    if a == [] then Null
    else if a[0].0 == k then a[0].1
    else
      var v := Get(a[1..], k);
      assert HasKey(a, k) ==> HasKey(a[1..], k) by {
        if HasKey(a, k) {
          var i :| 0 <= i < |a| && a[i].0 == k;
          assert i != 0 && a[1..][i - 1].0 == k;
        }
      }
      assert forall i | 0 <= i < |a| - 1 :: a[1..][i] == a[i + 1];
      v
  }

  function DigitChar(d: int): (c: char)
    requires 0 <= d < 10
  {
    ('0' as int + d) as char
  }

  predicate IsDigit(c: char) {
    '0' <= c <= '9'
  }

  predicate AllDigits(s: string) {
    forall i | 0 <= i < |s| :: IsDigit(s[i])
  }

  /** The value of a string of decimal digits. */
  function DigitsValue(s: string): nat
    requires AllDigits(s)
  {
    if s == [] then 0
    else
      var last := s[|s| - 1];
      assert IsDigit(last);
      DigitsValue(s[..|s| - 1]) * 10 + (last as int - '0' as int)
  }

  /** The decimal digits of a natural number, most significant first, without leading zeros. */
  function NatDigits(n: nat): (s: string)
    ensures s != [] && AllDigits(s)
    ensures |s| > 1 ==> s[0] != '0'
    decreases n
  {
    if n < 10 then [DigitChar(n)] else NatDigits(n / 10) + [DigitChar(n % 10)]
  }

  /** Reading the digits back gives the number. */
  lemma {:induction false} NatDigitsValue(n: nat)
    ensures DigitsValue(NatDigits(n)) == n
    decreases n
  {
    if n >= 10 {
      var s := NatDigits(n);
      NatDigitsValue(n / 10);
      assert s[..|s| - 1] == NatDigits(n / 10);
    }
  }

  /** The decimal form of an integer, as PHP prints it. */
  function IntString(i: int): (s: string)
    ensures i >= 0 ==> AllDigits(s) && DigitsValue(s) == i
    ensures i < 0 ==> |s| >= 2 && s[0] == '-' && AllDigits(s[1..]) && DigitsValue(s[1..]) == -i
    ensures var d := if i < 0 then s[1..] else s; d != [] && (|d| > 1 ==> d[0] != '0')
  {
    NatDigitsValue(if i < 0 then -i else i);
    assert i < 0 ==> ("-" + NatDigits(-i))[1..] == NatDigits(-i);
    if i < 0 then "-" + NatDigits(-i) else NatDigits(i)
  }

  /** PHP's conversion to string, as done by the `.` operator. */
  function ToPhpString(v: Value): (s: string)
    ensures s == "" <==> v == Null || v == Bool(false) || v == Str("")
    ensures v.Str? ==> s == v.s
    ensures v.Int? ==> s == IntString(v.i) && s != ""
  {
    match v
    case Null => ""
    case Bool(b) => if b then "1" else ""
    case Int(i) => IntString(i)
    case Str(s) => s
    case Arr(_) => "Array"
  }
}
