/**
 * A field of a JSON request body as the validation chains see it, and the
 * field rules (`exists`, `isInt`, `isString`/`isLength`, `trim`) they use.
 */
module BodyValue {

  /**
   * `Absent` is a key the body does not have (undefined); `Null` is an
   * explicit null. A JSON number with an integral value is an `Int` (3 and
   * 3.0 parse to the same number); `Num` holds the others.
   */
  datatype Value = Absent | Null | Int(i: int) | Num(r: real) | Text(s: string) | Bool(b: bool) | Other

  /** `exists()`: the key is present, with any value (null included). */
  predicate Exists(v: Value) {
    !v.Absent?
  }

  /** `isInt({ min })`. */
  predicate IsIntAtLeast(v: Value, min: int) {
    v.Int? && v.i >= min
  }

  /** `isString().isLength({ min: lo, max: hi })`. */
  predicate IsStringOfLength(v: Value, lo: nat, hi: nat) {
    v.Text? && lo <= |v.s| <= hi
  }

  predicate IsSpace(c: char) {
    c == ' ' || c == '\t' || c == '\n' || c == '\r' || c == '\U{0B}' || c == '\U{0C}'
  }

  /** Number of leading whitespace characters. */
  function LeadingSpaces(s: string): (n: nat)
    ensures n <= |s|
    ensures forall k :: 0 <= k < n ==> IsSpace(s[k])
    ensures n < |s| ==> !IsSpace(s[n])
  {
    if |s| > 0 && IsSpace(s[0]) then 1 + LeadingSpaces(s[1..]) else 0
  }

  /** Length of `s` without its trailing whitespace. */
  function EndWithoutSpaces(s: string): (m: nat)
    ensures m <= |s|
    ensures forall k :: m <= k < |s| ==> IsSpace(s[k])
    ensures m > 0 ==> !IsSpace(s[m - 1])
  {
    if |s| > 0 && IsSpace(s[|s| - 1]) then EndWithoutSpaces(s[..|s| - 1]) else |s|
  }

  /** `trim()`: `s` without leading and trailing whitespace. */
  function Trim(s: string): (r: string)
    ensures r == [] <==> forall k :: 0 <= k < |s| ==> IsSpace(s[k])
    ensures r != [] ==> !IsSpace(r[0]) && !IsSpace(r[|r| - 1])
    ensures exists i, j :: 0 <= i <= j <= |s| && r == s[i..j] &&
                           (forall k :: 0 <= k < i ==> IsSpace(s[k])) &&
                           (forall k :: j <= k < |s| ==> IsSpace(s[k]))
  {
    var n := LeadingSpaces(s);
    var m := EndWithoutSpaces(s);
    if n >= m then
      assert n == |s|;
      assert s[0..0] == [];
      []
    else
      assert !IsSpace(s[n]);
      s[n..m]
  }

  predicate IsDigit(c: char) {
    '0' <= c <= '9'
  }

  /** A non-empty run of decimal digits. */
  predicate IsDecimal(s: string) {
    |s| > 0 && forall k :: 0 <= k < |s| ==> IsDigit(s[k])
  }

  /** The number a run of digits spells, most significant digit first. */
  function DecimalValue(s: string): nat
    requires forall k :: 0 <= k < |s| ==> IsDigit(s[k])
  {
    if |s| == 0 then 0
    else
      assert IsDigit(s[|s| - 1]);
      10 * DecimalValue(s[..|s| - 1]) + (s[|s| - 1] as int - '0' as int)
  }

  /** `String(n)`: the decimal numeral of a non-negative integer, without leading zeros. */
  function Numeral(n: nat): (s: string)
    ensures IsDecimal(s)
  {
    var digit := ('0' as int + n % 10) as char;
    if n < 10 then [digit] else Numeral(n / 10) + [digit]
  }

  /** Reading back the numeral of `n` gives `n`. */
  lemma {:induction false} NumeralRoundTrip(n: nat)
    ensures DecimalValue(Numeral(n)) == n
  {
    var s := Numeral(n);
    if n >= 10 {
      assert s[..|s| - 1] == Numeral(n / 10);
      NumeralRoundTrip(n / 10);
    } else {
      assert s[..|s| - 1] == [];
    }
  }
}
