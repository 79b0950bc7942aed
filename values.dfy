/** The scalar values a telemetry snapshot holds, and the coercion of a value to a
    number that Python's `float()` performs on them. */
module Values {
  import opened Strings

  datatype Option<+T> = None | Some(value: T)

  /** A scalar reading: a number or a piece of text. */
  datatype Value = Num(x: real) | Text(s: string)

  function Pow10(n: nat): (r: nat)
    ensures r >= 1
  {
    if n == 0 then 1 else 10 * Pow10(n - 1)
  }

  /** Position of the first '.' in s, if any. */
  function IndexOfDot(s: string): (r: Option<nat>)
    ensures r.Some? ==> r.value < |s| && s[r.value] == '.' && '.' !in s[..r.value]
    ensures r.None? <==> '.' !in s
  {
    if s == [] then None
    else if s[0] == '.' then Some(0)
    else match IndexOfDot(s[1..])
      case None => None
      case Some(k) => assert s[..k + 1] == [s[0]] + s[1..][..k]; Some(k + 1)
  }

  /** Digits with at most one decimal point and at least one digit: "12", "12.5", "1.", ".5". */
  function ParseUnsigned(s: string): Option<real> {
    match IndexOfDot(s)
    case None =>
      if |s| > 0 && AllDigits(s) then Some(DigitsValue(s) as real) else None
    case Some(k) =>
      var whole, frac := s[..k], s[k + 1..];
      if |whole| + |frac| > 0 && AllDigits(whole) && AllDigits(frac)
      then Some(DigitsValue(whole) as real + DigitsValue(frac) as real / Pow10(|frac|) as real)
      else None
  }

  /** `float(text)` for decimal text with an optional sign; None where Python raises ValueError. */
  function ParseNumber(s: string): Option<real> {
    if |s| > 0 && (s[0] == '-' || s[0] == '+') then
      match ParseUnsigned(s[1..])
      case None => None
      case Some(x) => Some(if s[0] == '-' then -x else x)
    else ParseUnsigned(s)
  }

  /** A character that can occur in text `float()` accepts here. */
  predicate NumberChar(c: char) {
    IsDigit(c) || c == '.' || c == '+' || c == '-'
  }

  /** `float(value)`: numbers pass through, text is parsed. */
  function Coerce(v: Value): Option<real> {
    match v
    case Num(x) => Some(x)
    case Text(s) => ParseNumber(s)
  }

  lemma UnsignedRejectsForeignChar(s: string, i: nat)
    requires i < |s| && !IsDigit(s[i]) && s[i] != '.'
    ensures ParseUnsigned(s) == None
  {
    match IndexOfDot(s)
    case None =>
    case Some(k) =>
      if i < k {
        assert s[..k][i] == s[i];
      } else {
        assert s[k + 1..][i - k - 1] == s[i];
      }
  }

  /** Text holding any character other than a digit, a sign or a point never parses. */
  lemma NonNumericTextRejected(s: string, i: nat)
    requires i < |s| && !NumberChar(s[i])
    ensures ParseNumber(s) == None
  {
    if |s| > 0 && (s[0] == '-' || s[0] == '+') {
      assert s[1..][i - 1] == s[i];
      UnsignedRejectsForeignChar(s[1..], i - 1);
    } else {
      UnsignedRejectsForeignChar(s, i);
    }
  }

  /** A string of decimal digits without a point parses as the number it denotes. */
  lemma {:induction false} UnsignedDigits(n: nat)
    ensures ParseUnsigned(NatToString(n)) == Some(n as real)
  {
    var digits := NatToString(n);
    NatToStringRoundTrip(n);
    assert forall i :: 0 <= i < |digits| ==> digits[i] != '.';
    assert IndexOfDot(digits) == None;
  }

  /** The decimal rendering of a negative integer coerces back to that integer. */
  lemma NegativeParse(m: nat)
    ensures ParseNumber("-" + NatToString(m)) == Some(-(m as real))
  {
    var s := "-" + NatToString(m);
    assert s[1..] == NatToString(m);
    UnsignedDigits(m);
  }

  /** The decimal rendering of a natural number coerces back to that number. */
  lemma NonNegativeParse(m: nat)
    ensures ParseNumber(NatToString(m)) == Some(m as real)
  {
    var digits := NatToString(m);
    NatToStringRoundTrip(m);
    assert IsDigit(digits[0]);
    UnsignedDigits(m);
  }

  /** The decimal rendering of an integer coerces back to that integer. */
  lemma ParseIntToString(n: int)
    ensures ParseNumber(IntToString(n)) == Some(n as real)
  {
    if n < 0 {
      NegativeParse(-n);
    } else {
      NonNegativeParse(n);
    }
  }
}
