/** The Python values that flow through an expert's attributes and its
    `model_params` dictionary, and the text `str()` gives each of them
    (the f-string in `get_content` formats its fields with `str()`). */
module PyValues {

  /** A Python scalar. A float is carried by the text its `repr` gives
      (`0.5` is `Float("0.5")`): the experts never compute with floats,
      they only store them, hand them to the chat client and print them. */
  datatype Value =
    | Null                 // None
    | Str(s: string)
    | Int(i: int)
    | Float(repr: string)
    | Bool(b: bool)

  /** The exceptions the modelled code can raise. */
  datatype Error =
    | KeyError     // unknown key in a dict
    | IndexError   // `[0]` on an empty list
    | TypeError    // `**x` where x is not a mapping

  /** Python's `str(v)`: a string is itself, an int its decimal numeral
      (with a minus sign when negative), and None and the booleans their names. */
  function PyStr(v: Value): (t: string)
    ensures v.Str? ==> t == v.s
    ensures v.Null? ==> t == "None"
    ensures v.Bool? ==> t == (if v.b then "True" else "False")
    ensures v.Int? && v.i >= 0 ==> IsNumeral(t) && DecimalValue(t) == v.i
    ensures v.Int? && v.i < 0 ==> |t| > 1 && t[0] == '-' && IsNumeral(t[1..]) && DecimalValue(t[1..]) == -v.i
  {
    match v
    case Null => "None"
    case Str(s) => s
    case Int(i) =>
      NatToDecimalRoundTrip(if i < 0 then -i else i);
      assert i < 0 ==> IntToDecimal(i)[1..] == NatToDecimal(-i);
      IntToDecimal(i)
    case Float(r) => r
    case Bool(b) => if b then "True" else "False"
  }

  /** A canonical decimal numeral: digits only, at least one, no leading zero. */
  predicate IsNumeral(s: string)
  {
    && |s| > 0
    && (forall k :: 0 <= k < |s| ==> IsDigit(s[k]))
    && (|s| > 1 ==> s[0] != '0')
  }

  function DigitChar(d: nat): char
    requires d < 10
  {
    "0123456789"[d]
  }

  predicate IsDigit(c: char)
  {
    '0' <= c <= '9'
  }

  function DigitValue(c: char): nat
    requires IsDigit(c)
  {
    (c - '0') as nat
  }

  /** `str(n)` for a non-negative int: its decimal numeral. */
  function NatToDecimal(n: nat): string
    decreases n
  {
    if n < 10 then [DigitChar(n)] else NatToDecimal(n / 10) + [DigitChar(n % 10)]
  }

  /** `str(i)` for any int: a minus sign in front of a negative one. */
  function IntToDecimal(i: int): string
  {
    if i < 0 then "-" + NatToDecimal(-i) else NatToDecimal(i)
  }

  /** The number a string of decimal digits denotes. */
  function DecimalValue(s: string): nat
    requires forall k :: 0 <= k < |s| ==> IsDigit(s[k])
  {
    if s == [] then 0 else DecimalValue(s[..|s| - 1]) * 10 + DigitValue(s[|s| - 1])
  }

  /** The rendering of a natural number is a canonical decimal numeral
      (digits only, no leading zero) that denotes that number. */
  lemma {:induction false} NatToDecimalRoundTrip(n: nat)
    ensures var s := NatToDecimal(n);
      && |s| > 0
      && (forall k :: 0 <= k < |s| ==> IsDigit(s[k]))
      && (|s| > 1 ==> s[0] != '0')
      && DecimalValue(s) == n
  {
    var s := NatToDecimal(n);
    if n < 10 {
      assert s == [DigitChar(n)];
    } else {
      NatToDecimalRoundTrip(n / 10);
      var p := NatToDecimal(n / 10);
      assert s == p + [DigitChar(n % 10)];
      assert s[..|s| - 1] == p;
      assert DigitValue(s[|s| - 1]) == n % 10;
    }
  }

  /** `str()` of an int is determined by, and determines, the int. */
  lemma IntToDecimalInjective(i: int, j: int)
    ensures IntToDecimal(i) == IntToDecimal(j) <==> i == j
  {
    if IntToDecimal(i) == IntToDecimal(j) {
      NatToDecimalRoundTrip(if i < 0 then -i else i);
      NatToDecimalRoundTrip(if j < 0 then -j else j);
      var si, sj := IntToDecimal(i), IntToDecimal(j);
      if i < 0 && j < 0 {
        assert NatToDecimal(-i) == si[1..] == sj[1..] == NatToDecimal(-j);
      }
    }
  }
}
