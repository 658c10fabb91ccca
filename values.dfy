/** Values carried by the push stream, and the JavaScript conversions the
    dashboard applies to them (string concatenation and numeric comparison). */
module JsValues {

  datatype Option<+T> = None | Some(value: T)

  /** A decoded JSON scalar. A missing key (JavaScript `undefined`) is an
      `Option<Value>` that is `None`. */
  datatype Value = Null | Bool(b: bool) | Int(i: int) | Str(s: string)

  /** Loose `x != null` in JavaScript: false for both `undefined` and `null`. */
  predicate NotNullish(v: Option<Value>)
    ensures NotNullish(v) <==> v != None && v != Some(Null)
  {
    v.Some? && !v.value.Null?
  }

  function DigitChar(d: nat): (c: char)
    requires d < 10
    ensures '0' <= c <= '9' && c as int - '0' as int == d
  {
    "0123456789"[d]
  }

  predicate IsDigit(c: char)
  {
    '0' <= c <= '9'
  }

  predicate AllDigits(s: string)
  {
    forall i :: 0 <= i < |s| ==> IsDigit(s[i])
  }

  /** Decimal rendering of a natural number, most significant digit first. */
  function NatToString(n: nat): (s: string)
    ensures |s| > 0 && AllDigits(s)
    ensures n > 0 ==> s[0] != '0'
  {
    if n < 10 then [DigitChar(n)] else NatToString(n / 10) + [DigitChar(n % 10)]
  }

  /** `String(n)` for an integer `n`. */
  function IntToString(n: int): (s: string)
    ensures |s| > 0
    ensures s[0] == '-' <==> n < 0
  {
    if n < 0 then "-" + NatToString(-n) else NatToString(n)
  }

  /** The value a run of decimal digits denotes. */
  function DigitsValue(s: string): (n: nat)
    requires AllDigits(s)
  {
    if s == [] then 0 else 10 * DigitsValue(s[..|s| - 1]) + (s[|s| - 1] as int - '0' as int)
  }

  lemma {:induction false} DigitsValueOfNatToString(n: nat)
    ensures DigitsValue(NatToString(n)) == n
  {
    var s := NatToString(n);
    if n >= 10 {
      DigitsValueOfNatToString(n / 10);
      assert s[..|s| - 1] == NatToString(n / 10);
    }
  }

  /** `+"…"` on the integer strings the model distinguishes: the empty string
      is 0, an optional `-` followed by at least one decimal digit is that
      integer, anything else is NaN (`None`). */
  function StringToNumber(s: string): (r: Option<int>)
    ensures r.Some? && s != [] && s[0] != '-' ==> r.value >= 0
  {
    if s == [] then Some(0)
    else if s[0] == '-' && |s| > 1 && AllDigits(s[1..]) then Some(0 - DigitsValue(s[1..]) as int)
    else if AllDigits(s) then Some(DigitsValue(s))
    else None
  }

  /** Reading back a rendered natural number. */
  lemma StringToNumberOfNatToString(n: nat)
    ensures StringToNumber(NatToString(n)) == Some(n)
  {
    var s := NatToString(n);
    assert IsDigit(s[0]);
    DigitsValueOfNatToString(n);
  }

  /** Reading back a rendered negative number. */
  lemma StringToNumberOfNegative(m: nat)
    requires m > 0
    ensures StringToNumber("-" + NatToString(m)) == Some(0 - m)
  {
    var digits := NatToString(m);
    assert ("-" + digits)[1..] == digits;
    DigitsValueOfNatToString(m);
  }

  /** The round trip between rendering and reading back an integer. */
  lemma StringToNumberOfIntToString(n: int)
    ensures StringToNumber(IntToString(n)) == Some(n)
  {
    if n < 0 {
      StringToNumberOfNegative(-n);
    } else {
      StringToNumberOfNatToString(n);
    }
  }

  /** JavaScript's `ToNumber` on a present value (`None` is NaN). */
  function ToNumber(v: Value): (r: Option<int>)
    ensures v.Int? ==> r == Some(v.i)
    ensures v.Bool? ==> r == Some(if v.b then 1 else 0)
  {
    match v
    case Null => Some(0)
    case Bool(b) => Some(if b then 1 else 0)
    case Int(i) => Some(i)
    case Str(s) => StringToNumber(s)
  }

  /** The text `"…" + x` appends for a value `x` (`undefined` when absent). */
  function ConcatText(v: Option<Value>): (s: string)
    ensures v.Some? && v.value.Str? ==> s == v.value.s
    ensures v.Some? && v.value.Int? ==> StringToNumber(s) == Some(v.value.i)
    ensures v.None? ==> s == "undefined"
  {
    match v
    case None => "undefined"
    case Some(Null) => "null"
    case Some(Bool(b)) => if b then "true" else "false"
    case Some(Int(i)) => StringToNumberOfIntToString(i); IntToString(i)
    case Some(Str(s)) => s
  }

  /** First position of `c` in `s`. */
  function IndexOf(s: string, c: char): (r: Option<nat>)
    ensures r.Some? ==> r.value < |s| && s[r.value] == c && c !in s[..r.value]
    ensures r.None? ==> c !in s
  {
    if s == [] then None
    else if s[0] == c then Some(0)
    else
      match IndexOf(s[1..], c)
      case None => None
      case Some(i) => assert s[..i + 1] == [s[0]] + s[1..][..i]; Some(i + 1)
  }
}
