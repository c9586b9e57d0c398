/** Values of the form fields as the event handlers read them, and the two pieces of
    Python number handling the handlers rely on: `round` and `str` of an integer. */
module Fields {

  datatype Option<T> = None | Some(value: T)

  /** The text of a line edit, as `float(text)` sees it: empty, a number, or text that
      `float` rejects (the handlers' `except` branch). */
  datatype Text = Empty | Number(value: real) | Unparsable

  /** The text of the girder-count field, as `int(text)` sees it. */
  datatype CountText = NoCount | Count(n: int) | NotACount

  /** `float(field.text()) if field.text() else default`: None when `float` raises. */
  function ReadOr(t: Text, default: real): (r: Option<real>)
    ensures r.None? <==> t.Unparsable?
    ensures t.Number? ==> r == Some(t.value)
    ensures t.Empty? ==> r == Some(default)
  {
    match t
    case Empty => Some(default)
    case Number(v) => Some(v)
    case Unparsable => None
  }

  /** Python's `round` on a number: the nearest integer, ties going to the even neighbour. */
  function RoundHalfEven(x: real): (r: int)
    ensures r as real - 0.5 <= x <= r as real + 0.5
    ensures (x == r as real - 0.5 || x == r as real + 0.5) ==> r % 2 == 0
  {
    var f := x.Floor;
    var frac := x - f as real;
    if frac < 0.5 then f
    else if frac > 0.5 then f + 1
    else if f % 2 == 0 then f
    else f + 1
  }

  lemma RoundHalfEvenOfInteger(k: int)
    ensures RoundHalfEven(k as real) == k
  {
  }

  predicate IsDigit(c: char) {
    '0' <= c <= '9'
  }

  predicate AllDigits(s: string) {
    forall i :: 0 <= i < |s| ==> IsDigit(s[i])
  }

  function DigitChar(d: nat): (c: char)
    requires d < 10
    ensures IsDigit(c) && (c as int) - ('0' as int) == d
  {
    (('0' as int) + d) as char
  }

  /** `str(n)` for a non-negative integer: decimal digits, no leading zero. */
  function NatToString(n: nat): (s: string)
    ensures |s| >= 1 && AllDigits(s)
    ensures n > 0 ==> s[0] != '0'
    ensures n == 0 ==> s == "0"
  {
    if n < 10 then [DigitChar(n)] else NatToString(n / 10) + [DigitChar(n % 10)]
  }

  /** The value of a string of decimal digits (the inverse of NatToString). */
  function DigitsValue(s: string): nat
    requires AllDigits(s)
  {
    if s == [] then 0
    else DigitsValue(s[..|s| - 1]) * 10 + ((s[|s| - 1] as int) - ('0' as int))
  }

  lemma {:induction false} DigitsValueOfNatToString(n: nat)
    ensures DigitsValue(NatToString(n)) == n
  {
    if n >= 10 {
      var s := NatToString(n);
      DigitsValueOfNatToString(n / 10);
      assert s[..|s| - 1] == NatToString(n / 10);
    }
  }

  lemma NatToStringInjective(m: nat, n: nat)
    requires NatToString(m) == NatToString(n)
    ensures m == n
  {
    DigitsValueOfNatToString(m);
    DigitsValueOfNatToString(n);
  }
}
