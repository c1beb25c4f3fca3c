/** The slice of JavaScript value semantics the bookkeeping client relies on:
    the values a grid cell can hold, truthiness, `Number(…)`, `String(…)` and
    the loose equality `==` used when matching bookings to accounts.
    Numbers are exact integers; fractions are not modelled. */
module JsValues {

  datatype Option<+T> = None | Some(value: T)

  /** A cell value: a missing property (`undefined`), `null`, a string
      (everything an input control produces) or a number (what the backend
      delivers). */
  datatype Value = Undef | Null | Str(s: string) | Num(n: int)

  /** `!!v` */
  predicate Truthy(v: Value) {
    match v
    case Str(s) => s != ""
    case Num(n) => n != 0
    case _ => false
  }

  /** `v == null`, which also holds for `undefined` */
  predicate IsNullish(v: Value) {
    v.Undef? || v.Null?
  }

  predicate IsDigit(c: char) {
    '0' <= c <= '9'
  }

  predicate AllDigits(s: string) {
    forall i :: 0 <= i < |s| ==> IsDigit(s[i])
  }

  /** The value of a string of decimal digits. */
  function DigitsValue(s: string): (v: nat)
    requires AllDigits(s)
    ensures s == [] ==> v == 0
  {
    if s == [] then 0 else DigitsValue(s[..|s| - 1]) * 10 + (s[|s| - 1] - '0') as nat
  }

  /** `Number(s)` for a string: the empty string is 0, an optionally signed
      run of decimal digits is its value, anything else is not a finite
      number (`None` stands for NaN). */
  function Parse(s: string): (r: Option<int>)
    ensures s == "" ==> r == Some(0)
    ensures r.Some? && s != "" ==> exists i :: 0 <= i < |s| && IsDigit(s[i])
  {
    if s == "" then Some(0)
    else if (s[0] == '-' || s[0] == '+') && |s| > 1 && AllDigits(s[1..]) then
      assert IsDigit(s[1..][0]);
      var v: int := DigitsValue(s[1..]);
      Some(if s[0] == '-' then -v else v)
    else if AllDigits(s) then
      assert IsDigit(s[0]);
      Some(DigitsValue(s))
    else None
  }

  function DigitChar(d: nat): (c: char)
    requires d < 10
    ensures IsDigit(c) && (c - '0') as nat == d
  {
    ('0' as int + d) as char
  }

  /** The decimal digits of a natural number, without leading zeros. */
  function ShowNat(n: nat): (s: string)
    ensures s != [] && AllDigits(s)
    ensures DigitsValue(s) == n
    decreases n
  {
    if n < 10 then [DigitChar(n)]
    else
      var p := ShowNat(n / 10);
      var s := p + [DigitChar(n % 10)];
      assert s[..|s| - 1] == p;
      s
  }

  /** `String(n)` for an integer. */
  function Show(n: int): (s: string)
    ensures s != ""
    ensures n >= 0 ==> AllDigits(s)
    ensures n < 0 ==> s[0] == '-' && AllDigits(s[1..])
  {
    if n < 0 then "-" + ShowNat(-n) else ShowNat(n)
  }

  /** Parsing what `String` printed gives the number back. */
  lemma ParseShow(n: int)
    ensures Parse(Show(n)) == Some(n)
  {
    var s := Show(n);
    if n < 0 {
      assert s[1..] == ShowNat(-n);
    } else {
      assert IsDigit(s[0]);
    }
  }

  /** `Number(v)`; `None` stands for NaN. */
  function ToNumber(v: Value): (r: Option<int>)
    ensures v.Null? ==> r == Some(0)
    ensures v.Undef? ==> r == None
    ensures v.Num? ==> r == Some(v.n)
  {
    match v
    case Undef => None
    case Null => Some(0)
    case Str(s) => Parse(s)
    case Num(n) => Some(n)
  }

  /** `String(v)` */
  function ToStr(v: Value): (s: string)
    ensures v.Str? ==> s == v.s
    ensures v.Num? ==> Parse(s) == Some(v.n)
  {
    match v
    case Undef => "undefined"
    case Null => "null"
    case Str(s) => s
    case Num(n) => ParseShow(n); Show(n)
  }

  /** The loose equality `a == b`: `null` and `undefined` equal each other
      and nothing else, two strings or two numbers compare by value, and a
      number equals a string when the string converts to that number. */
  predicate LooseEq(a: Value, b: Value) {
    if IsNullish(a) || IsNullish(b) then IsNullish(a) && IsNullish(b)
    else match (a, b)
      case (Str(s), Str(t)) => s == t
      case (Num(m), Num(n)) => m == n
      case (Num(m), Str(t)) => Parse(t) == Some(m)
      case (Str(s), Num(n)) => Parse(s) == Some(n)
      case _ => false
  }

  /** A number loosely equals its own decimal rendering, which is how a
      number chosen in a `<select>` (whose values are strings) still matches
      the account it came from. */
  lemma NumberMatchesItsRendering(n: int)
    ensures LooseEq(Num(n), Str(Show(n)))
    ensures LooseEq(Str(Show(n)), Num(n))
  {
    ParseShow(n);
  }
}
