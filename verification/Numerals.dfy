/** How numbers are written in decimal, and that the number grammars read
    exactly such writings, each as the number it writes. */
module Numerals {
  import opened Arithmetic
  import opened Wrappers
  import opened Text

  const DIGITS: string := "0123456789"

  function Tens(k: nat): (p: nat)
    ensures p >= 1
  {
    if k == 0 then 1 else 10 * Tens(k - 1)
  }

  /** The last `places` decimal digits of `n`. */
  function Digits(n: nat, places: nat): (s: string)
    ensures |s| == places
  {
    if places == 0 then "" else Digits(n / 10, places - 1) + [DIGITS[n % 10]]
  }

  /** A number without leading zeros. */
  function Decimal(n: nat): (s: string)
    ensures s != ""
  {
    if n < 10 then [DIGITS[n]] else Decimal(n / 10) + [DIGITS[n % 10]]
  }

  // ---- Digits ----

  lemma DigitOf(d: nat)
    requires d < 10
    ensures IsDigit(DIGITS[d]) && (DIGITS[d] - '0') as nat == d
  {
    assert d == 0 || d == 1 || d == 2 || d == 3 || d == 4 || d == 5 || d == 6 || d == 7 || d == 8 || d == 9;
  }

  lemma DigitWritten(c: char)
    requires IsDigit(c)
    ensures (c - '0') as nat < 10 && DIGITS[(c - '0') as nat] == c
  {
    DigitOf((c - '0') as nat);
  }

  lemma LastDigit(s: string, c: char)
    requires AllDigits(s) && IsDigit(c)
    ensures AllDigits(s + [c]) && DigitsValue(s + [c]) == 10 * DigitsValue(s) + (c - '0') as nat
  {
    assert (s + [c])[..|s|] == s;
  }

  lemma {:induction false} DigitsRead(n: nat, places: nat)
    requires n < Tens(places)
    ensures AllDigits(Digits(n, places)) && DigitsValue(Digits(n, places)) == n
  {
    if places > 0 {
      DigitsRead(n / 10, places - 1);
      DigitOf(n % 10);
      LastDigit(Digits(n / 10, places - 1), DIGITS[n % 10]);
    }
  }

  lemma {:induction false} DigitsWritten(s: string)
    requires AllDigits(s)
    ensures DigitsValue(s) < Tens(|s|) && Digits(DigitsValue(s), |s|) == s
  {
    hide Digits, Tens;
    if s != "" {
      var k := |s| - 1;
      DigitsWritten(s[..k]);
      DigitWritten(s[k]);
      OneMoreDigit(DigitsValue(s[..k]), (s[k] - '0') as nat, k);
      assert s == s[..k] + [s[k]];
    }
  }

  lemma OneMoreDigit(n: nat, d: nat, places: nat)
    requires d < 10 && n < Tens(places)
    ensures 10 * n + d < Tens(places + 1)
    ensures Digits(10 * n + d, places + 1) == Digits(n, places) + [DIGITS[d]]
  {
    assert (10 * n + d) / 10 == n && (10 * n + d) % 10 == d;
  }

  lemma {:induction false} DecimalIsDigits(n: nat) returns (places: nat)
    ensures places > 0 && n < Tens(places) && Decimal(n) == Digits(n, places)
  {
    if n < 10 {
      places := 1;
      assert Tens(1) == 10 * Tens(0);
    } else {
      var fewer := DecimalIsDigits(n / 10);
      places := fewer + 1;
    }
  }

  lemma DecimalRead(n: nat)
    ensures AllDigits(Decimal(n)) && DigitsValue(Decimal(n)) == n
  {
    var places := DecimalIsDigits(n);
    DigitsRead(n, places);
  }

  // ---- Whole numbers ----

  ghost predicate WritesNumber(s: string, plus: bool, n: nat, places: nat) {
    0 < places && n < Tens(places) && s == (if plus then "+" else "") + Digits(n, places)
  }

  lemma WritingIsRead(s: string, max: nat, plus: bool, n: nat, places: nat)
    requires WritesNumber(s, plus, n, places) && n <= max
    ensures ParseUnsigned(s, max) == Some(n)
  {
    hide DigitsValue, Tens, Digits;
    DigitsRead(n, places);
    var digits := Digits(n, places);
    if plus {
      assert s[0] == '+' && s[1..] == digits;
    } else {
      assert s == digits && IsDigit(s[0]);
    }
  }

  lemma ReadIsWriting(s: string, max: nat, n: nat) returns (plus: bool, places: nat)
    requires ParseUnsigned(s, max) == Some(n)
    ensures WritesNumber(s, plus, n, places) && n <= max
  {
    hide DigitsValue, Tens, Digits;
    plus := s[0] == '+';
    var digits := if plus then s[1..] else s;
    places := |digits|;
    DigitsWritten(digits);
    assert plus ==> s == "+" + digits;
  }

  /** A whole number is read exactly from its writings, with or without a plus
      sign and leading zeros, and only up to the largest value. */
  lemma UnsignedReads(s: string, max: nat, n: nat)
    ensures ParseUnsigned(s, max) == Some(n) <==>
            n <= max && exists plus: bool, places: nat :: WritesNumber(s, plus, n, places)
  {
    hide ParseUnsigned, WritesNumber;
    if ParseUnsigned(s, max) == Some(n) {
      var plus, places := ReadIsWriting(s, max, n);
    }
    if plus: bool, places: nat :| n <= max && WritesNumber(s, plus, n, places) {
      WritingIsRead(s, max, plus, n, places);
    }
  }

  /** A number without leading zeros is read as itself. */
  lemma DecimalReads(n: nat, max: nat)
    ensures ParseUnsigned(Decimal(n), max) == if n <= max then Some(n) else None
    ensures ParseUnsigned("+" + Decimal(n), max) == if n <= max then Some(n) else None
    ensures Unsigned(Decimal(n), max) == if n <= max then Some(n) else None
  {
    hide DigitsValue, Decimal;
    DecimalRead(n);
    assert ("+" + Decimal(n))[1..] == Decimal(n);
    assert IsDigit(Decimal(n)[0]);
  }

  lemma StrictIsSignless(s: string, max: nat)
    ensures Unsigned(s, max) == if s != "" && AllDigits(s) then ParseUnsigned(s, max) else None
  {
    hide ParseUnsigned;
  }

  lemma SignlessWriting(s: string, plus: bool, n: nat, places: nat)
    requires WritesNumber(s, plus, n, places)
    ensures s != "" && (AllDigits(s) <==> !plus)
  {
    DigitsRead(n, places);
    if plus {
      assert s[0] == '+' && !IsDigit(s[0]);
    } else {
      assert s == Digits(n, places);
    }
  }

  /** The stricter reader takes the same writings without the sign. */
  lemma StrictReads(s: string, max: nat, n: nat)
    ensures Unsigned(s, max) == Some(n) <==>
            n <= max && exists places: nat :: WritesNumber(s, false, n, places)
  {
    hide Unsigned, ParseUnsigned, WritesNumber;
    StrictIsSignless(s, max);
    if Unsigned(s, max) == Some(n) {
      var plus, places := ReadIsWriting(s, max, n);
      SignlessWriting(s, plus, n, places);
    }
    if places: nat :| n <= max && WritesNumber(s, false, n, places) {
      WritingIsRead(s, max, false, n, places);
      SignlessWriting(s, false, n, places);
    }
  }

  // ---- Decimal numbers ----

  datatype Sign = NoSign | Plus | Minus

  datatype Exponent = NoExponent | Exponent(capital: bool, sign: Sign, value: nat, places: nat)

  /** A decimal number as it is written: digits before and after the point,
      of which there may be none on one side, and an exponent. */
  datatype Numeral = Numeral(
    sign: Sign, whole: nat, wholePlaces: nat, dotted: bool, fraction: nat, places: nat, exponent: Exponent)

  ghost predicate ProperExponent(e: Exponent) {
    e.Exponent? ==> e.places > 0 && e.value < Tens(e.places)
  }

  ghost predicate Proper(n: Numeral) {
    && n.whole < Tens(n.wholePlaces) && n.fraction < Tens(n.places)
    && n.wholePlaces + n.places > 0 && (!n.dotted ==> n.places == 0)
    && ProperExponent(n.exponent)
  }

  function SignWritten(sign: Sign): string {
    match sign case NoSign => "" case Plus => "+" case Minus => "-"
  }

  function ExponentWritten(e: Exponent): string {
    match e
    case NoExponent => ""
    case Exponent(capital, sign, value, places) =>
      [if capital then 'E' else 'e'] + (SignWritten(sign) + Digits(value, places))
  }

  function PointWritten(n: Numeral): string {
    if n.dotted then "." + Digits(n.fraction, n.places) else ""
  }

  function Written(n: Numeral): string {
    SignWritten(n.sign) + UnsignedWritten(n)
  }

  function UnsignedWritten(n: Numeral): string {
    Digits(n.whole, n.wholePlaces) + PointWritten(n) + ExponentWritten(n.exponent)
  }

  /** The whole part and the fraction over a power of ten, scaled by the
      exponent. */
  function Magnitude(n: Numeral): real {
    var unscaled := n.whole as real + n.fraction as real / Tens(n.places) as real;
    match n.exponent
    case NoExponent => unscaled
    case Exponent(_, sign, value, _) =>
      if sign.Minus? then unscaled / Tens(value) as real else unscaled * Tens(value) as real
  }

  function Signed(sign: Sign, magnitude: real): real {
    if sign.Minus? then -magnitude else magnitude
  }

  lemma {:induction false} TensSum(j: nat, k: nat)
    ensures Tens(j + k) == Tens(j) * Tens(k)
  {
    if j > 0 {
      TensSum(j - 1, k);
    }
  }

  lemma {:induction false} ScaledUp(e: int, k: nat)
    ensures Pow10(e + k) == Pow10(e) * Tens(k) as real
  {
    hide Pow10;
    if k == 0 {
      assert Pow10(e) * 1.0 == Pow10(e);
    } else {
      ScaledUp(e, k - 1);
      OneMoreTen(e + k - 1);
      TimesTen(Pow10(e), Tens(k - 1), Tens(k));
    }
  }

  lemma OneMoreTen(e: int)
    ensures Pow10(e + 1) == 10.0 * Pow10(e)
  {
  }

  lemma TimesTen(x: real, n: nat, m: nat)
    requires m == 10 * n
    ensures 10.0 * (x * n as real) == x * m as real
  {
    assert m as real == 10.0 * n as real;
  }

  lemma NoDigits(a: string)
    requires AllDigits(a)
    ensures a + "" == a && DigitsValue(a) == DigitsValue(a) * Tens(0) + DigitsValue("")
  {
  }

  lemma {:induction false} JoinedDigits(a: string, b: string)
    requires AllDigits(a) && AllDigits(b)
    ensures AllDigits(a + b) && DigitsValue(a + b) == DigitsValue(a) * Tens(|b|) + DigitsValue(b)
    decreases |b|
  {
    hide DigitsValue;
    if b == "" {
      NoDigits(a);
    } else {
      var k := |b| - 1;
      var front, c := b[..k], b[k];
      JoinedDigits(a, front);
      assert b == front + [c] && a + b == a + front + [c];
      LastDigit(a + front, c);
      LastDigit(front, c);
      Shifted(DigitsValue(a), Tens(k), Tens(|b|));
    }
  }

  lemma Shifted(x: nat, n: nat, m: nat)
    requires m == 10 * n
    ensures x * m == 10 * (x * n)
  {
  }

  lemma {:induction false} RunOfDigits(a: string, rest: string)
    requires AllDigits(a) && (rest == "" || !IsDigit(rest[0]))
    ensures DigitRun(a + rest) == |a|
  {
    if a == "" {
      assert a + rest == rest;
    } else {
      RunOfDigits(a[1..], rest);
      assert (a + rest)[1..] == a[1..] + rest;
    }
  }

  // ---- What a decimal number is worth ----

  function Power(e: Exponent): int {
    match e
    case NoExponent => 0
    case Exponent(_, sign, value, _) => if sign.Minus? then -(value as int) else value
  }

  lemma {:induction false} RealProduct(x: nat, y: nat)
    ensures (x * y) as real == x as real * y as real
  {
    if x == 0 {
      assert 0.0 * y as real == 0.0;
    } else {
      RealProduct(x - 1, y);
      assert x as real == (x - 1) as real + 1.0;
      assert x * y == (x - 1) * y + y;
    }
  }

  lemma Unscaled(w: real, f: real, t: real, p: real, q: real)
    requires t > 0.0 && q == p * t
    ensures (w * t + f) * p == (w + f / t) * q
  {
    var g := f / t;
    assert f == g * t;
    Rescaled(w, g, t, p);
  }

  lemma Rescaled(w: real, g: real, t: real, p: real)
    ensures (w * t + g * t) * p == (w + g) * (p * t)
  {
  }

  lemma PowerOfTen(e: Exponent)
    requires e.Exponent?
    ensures e.sign.Minus? ==> Pow10(Power(e)) * Tens(e.value) as real == 1.0
    ensures !e.sign.Minus? ==> Pow10(Power(e)) == Tens(e.value) as real
  {
    hide Tens;
    if e.sign.Minus? {
      ScaledUp(-(e.value as int), e.value);
    } else {
      ScaledUp(0, e.value);
    }
  }

  lemma Reciprocal(x: real, p: real, t: real)
    requires p * t == 1.0 && t > 0.0
    ensures x * p == x / t
  {
    var y := x / t;
    assert x == y * t;
    assert x * p == y * (p * t);
  }

  /** All its digits as one number, times the power of ten that puts the point
      in its place. */
  lemma MagnitudeOf(n: Numeral)
    ensures (n.whole * Tens(n.places) + n.fraction) as real * Pow10(Power(n.exponent) - n.places) == Magnitude(n)
  {
    hide Pow10, Tens;
    var e, t := Power(n.exponent), Tens(n.places) as real;
    RealProduct(n.whole, Tens(n.places));
    ScaledUp(e - n.places, n.places);
    Unscaled(n.whole as real, n.fraction as real, t, Pow10(e - n.places), Pow10(e));
    var unscaled := n.whole as real + n.fraction as real / t;
    match n.exponent
    case NoExponent =>
      assert Pow10(0) == 1.0 by { ScaledUp(0, 0); NoPower(); }
    case Exponent(_, sign, value, _) =>
      PowerOfTen(n.exponent);
      if sign.Minus? {
        Reciprocal(unscaled, Pow10(e), Tens(value) as real);
      }
  }

  lemma NoPower()
    ensures Pow10(0) == 1.0
  {
  }

  // ---- Reading decimal numbers ----

  lemma ExponentIsRead(e: Exponent)
    requires ProperExponent(e)
    ensures ParseExponent(ExponentWritten(e)) == Some(Power(e))
  {
    hide DigitsValue, Tens, Digits;
    if e.Exponent? {
      var digits := Digits(e.value, e.places);
      DigitsRead(e.value, e.places);
      var signed := SignWritten(e.sign) + digits;
      assert ExponentWritten(e)[1..] == signed;
      assert IsDigit(digits[0]);
      if e.sign.NoSign? {
        assert signed == digits;
      } else {
        assert signed[1..] == digits;
      }
    }
  }

  lemma SplitSign(signed: string) returns (sign: Sign, digits: string)
    requires signed != ""
    ensures signed == SignWritten(sign) + digits
    ensures digits == if signed[0] in "+-" then signed[1..] else signed
    ensures sign.Minus? <==> signed[0] == '-'
  {
    if signed[0] == '+' {
      sign, digits := Plus, signed[1..];
    } else if signed[0] == '-' {
      sign, digits := Minus, signed[1..];
    } else {
      sign, digits := NoSign, signed;
    }
  }

  lemma ExponentParts(s: string, power: int)
    requires s != "" && ParseExponent(s) == Some(power)
    ensures (s[0] == 'e' || s[0] == 'E') && s[1..] != ""
    ensures var signed := s[1..];
            var digits := if signed[0] in "+-" then signed[1..] else signed;
            digits != "" && AllDigits(digits) &&
            power == if signed[0] == '-' then -(DigitsValue(digits) as int) else DigitsValue(digits) as int
  {
    hide DigitsValue, AllDigits;
  }

  lemma ReadIsExponent(s: string, power: int) returns (e: Exponent)
    requires ParseExponent(s) == Some(power)
    ensures ProperExponent(e) && ExponentWritten(e) == s && Power(e) == power
  {
    hide DigitsValue, Tens, Digits, SignWritten, ParseExponent;
    if s == "" {
      e := NoExponent;
      assert power == 0 by { NothingToRead(); }
    } else {
      ExponentParts(s, power);
      var sign, digits := SplitSign(s[1..]);
      DigitsWritten(digits);
      e := Exponent(s[0] == 'E', sign, DigitsValue(digits), |digits|);
      assert s == [s[0]] + s[1..];
    }
  }

  lemma NothingToRead()
    ensures ParseExponent("") == Some(0)
  {
  }

  /** A written exponent cannot be taken for more digits or for a point. */
  lemma ExponentStarts(e: Exponent)
    ensures ExponentWritten(e) == "" || ExponentWritten(e)[0] == 'e' || ExponentWritten(e)[0] == 'E'
  {
    hide Digits;
  }

  lemma NumberParts(n: Numeral)
    requires Proper(n)
    ensures var s, rest := UnsignedWritten(n), ExponentWritten(n.exponent);
            var start := if n.dotted then n.wholePlaces + 1 else n.wholePlaces;
            && DigitRun(s) == n.wholePlaces && s[..n.wholePlaces] == Digits(n.whole, n.wholePlaces)
            && (n.wholePlaces < |s| && s[n.wholePlaces] == '.' <==> n.dotted) && start + n.places <= |s|
            && (n.dotted ==> DigitRun(s[start..]) == n.places && s[start..][..n.places] == Digits(n.fraction, n.places))
            && s[start + n.places..] == rest
  {
    hide DigitsValue, Tens, Digits, ExponentWritten, DigitRun;
    var s, rest := UnsignedWritten(n), ExponentWritten(n.exponent);
    DigitsRead(n.whole, n.wholePlaces);
    DigitsRead(n.fraction, n.places);
    ExponentStarts(n.exponent);
    var whole, fraction := Digits(n.whole, n.wholePlaces), Digits(n.fraction, n.places);
    var after := PointWritten(n) + rest;
    assert s == whole + after;
    assert after == "" || !IsDigit(after[0]);
    RunOfDigits(whole, after);
    if n.dotted {
      assert after == "." + (fraction + rest);
      assert s[n.wholePlaces..] == after;
      assert s[n.wholePlaces + 1..] == fraction + rest;
      RunOfDigits(fraction, rest);
    } else {
      assert after == rest;
    }
  }

  lemma NumberIsRead(n: Numeral)
    requires Proper(n)
    ensures ParseNumber(UnsignedWritten(n)).Some? && ParseNumber(UnsignedWritten(n)).value == Magnitude(n)
  {
    hide DigitsValue, Tens, Digits, ExponentWritten, DigitRun, UnsignedWritten, ParseExponent, Power, Pow10, Magnitude;
    NumberParts(n);
    ExponentIsRead(n.exponent);
    DigitsRead(n.whole, n.wholePlaces);
    DigitsRead(n.fraction, n.places);
    JoinedDigits(Digits(n.whole, n.wholePlaces), Digits(n.fraction, n.places));
    MagnitudeOf(n);
    var s := UnsignedWritten(n);
    var start := if n.dotted then n.wholePlaces + 1 else n.wholePlaces;
    var mantissa := s[..n.wholePlaces] + s[start..][..n.places];
    assert n.dotted || (n.places == 0 && s[start..][..0] == "" == Digits(n.fraction, n.places));
    assert mantissa == Digits(n.whole, n.wholePlaces) + Digits(n.fraction, n.places);
    NumberOf(s, n.wholePlaces, n.dotted, n.places, Power(n.exponent));
  }

  lemma NumberOf(s: string, whole: nat, dotted: bool, places: nat, power: int)
    requires whole == DigitRun(s) && (dotted <==> whole < |s| && s[whole] == '.')
    requires if dotted then places == DigitRun(s[whole + 1..]) else places == 0
    requires whole + places > 0
    requires ParseExponent(s[(if dotted then whole + 1 else whole) + places..]) == Some(power)
    ensures var mantissa := s[..whole] + s[if dotted then whole + 1 else whole..][..places];
            AllDigits(mantissa) && ParseNumber(s).Some? &&
            ParseNumber(s).value == DigitsValue(mantissa) as real * Pow10(power - places)
  {
    hide DigitRun, ParseExponent, DigitsValue, Pow10;
    var start := if dotted then whole + 1 else whole;
    var mantissa := s[..whole] + s[start..][..places];
    assert AllDigits(mantissa);
  }

  lemma ParsedParts(s: string) returns (whole: nat, dotted: bool, start: nat, places: nat)
    requires ParseNumber(s).Some?
    ensures whole == DigitRun(s) && (dotted <==> whole < |s| && s[whole] == '.')
    ensures start == if dotted then whole + 1 else whole
    ensures places == if dotted then DigitRun(s[start..]) else 0
    ensures whole + places > 0 && start + places <= |s| && ParseExponent(s[start + places..]).Some?
  {
    hide DigitRun, ParseExponent, DigitsValue, Pow10, AllDigits;
    whole := DigitRun(s);
    dotted := whole < |s| && s[whole] == '.';
    start := if dotted then whole + 1 else whole;
    places := if dotted then DigitRun(s[start..]) else 0;
  }

  lemma ReadIsNumber(s: string, sign: Sign) returns (n: Numeral)
    requires ParseNumber(s).Some?
    ensures Proper(n) && n.sign == sign && UnsignedWritten(n) == s && ParseNumber(s).value == Magnitude(n)
  {
    hide DigitRun, ParseExponent, DigitsValue, Pow10, ParseNumber, Digits, Tens, ExponentWritten, Magnitude;
    var whole, dotted, start, places := ParsedParts(s);
    var fraction, rest := s[start..][..places], s[start + places..];
    var e := ReadIsExponent(rest, ParseExponent(rest).value);
    assert AllDigits(fraction);
    DigitsWritten(s[..whole]);
    DigitsWritten(fraction);
    n := Numeral(sign, DigitsValue(s[..whole]), whole, dotted, DigitsValue(fraction), places, e);
    assert s == s[..whole] + (if dotted then "." + fraction else "") + rest;
    NumberIsRead(n);
  }

  lemma UnsignedStarts(n: Numeral)
    requires Proper(n)
    ensures UnsignedWritten(n) != "" && UnsignedWritten(n)[0] !in "+-"
  {
    hide Digits, Tens, ExponentWritten;
    DigitsRead(n.whole, n.wholePlaces);
    var s := UnsignedWritten(n);
    if n.wholePlaces > 0 {
      assert s[0] == Digits(n.whole, n.wholePlaces)[0] && IsDigit(s[0]);
    } else {
      assert s[0] == '.';
    }
  }

  ghost predicate WritesDecimal(s: string, n: Numeral) {
    Proper(n) && Written(n) == s
  }

  lemma DecimalIsRead(s: string, n: Numeral)
    requires WritesDecimal(s, n)
    ensures Magnitude(n) < F32_OVERFLOW ==> ParseFloat(s) == Some(Finite(Signed(n.sign, Magnitude(n))))
    ensures Magnitude(n) >= F32_OVERFLOW ==> ParseFloat(s) == Some(Infinite(n.sign.Minus?))
  {
    hide Proper, UnsignedWritten, ParseNumber, Magnitude;
    UnsignedStarts(n);
    NumberIsRead(n);
    var body := UnsignedWritten(n);
    if n.sign.NoSign? {
      assert s == body;
    } else {
      assert s[1..] == body;
    }
  }

  lemma FloatParts(s: string)
    requires ParseFloat(s).Some? && ParseFloat(s).value.Finite?
    ensures s != ""
    ensures var body := if s[0] in "+-" then s[1..] else s;
            body != "" && ParseNumber(body).Some? && ParseNumber(body).value < F32_OVERFLOW
  {
    hide ParseNumber, Lower;
  }

  /** A finite float is read exactly from the decimal numbers below the
      overflow bound, each as what it is worth. */
  lemma FloatReads(s: string, value: real)
    ensures ParseFloat(s) == Some(Finite(value)) <==>
            exists n: Numeral ::
              WritesDecimal(s, n) && Magnitude(n) < F32_OVERFLOW && value == Signed(n.sign, Magnitude(n))
  {
    hide ParseNumber, Magnitude, ParseFloat, SignWritten, UnsignedWritten;
    if ParseFloat(s) == Some(Finite(value)) {
      FloatParts(s);
      var sign, body := SplitSign(s);
      var n := ReadIsNumber(body, sign);
      assert WritesDecimal(s, n);
      DecimalIsRead(s, n);
    }
    if n: Numeral :| WritesDecimal(s, n) && Magnitude(n) < F32_OVERFLOW && value == Signed(n.sign, Magnitude(n)) {
      DecimalIsRead(s, n);
    }
  }

  // ---- Seconds ----

  ghost predicate WritesSeconds(s: string, whole: nat, wholePlaces: nat, fraction: nat, places: nat) {
    && 0 < wholePlaces && whole < Tens(wholePlaces) && whole <= U64_MAX
    && 0 < places && fraction < Tens(places) && fraction <= U64_MAX
    && s == Digits(whole, wholePlaces) + "." + Digits(fraction, places)
  }

  function WithFraction(whole: nat, fraction: nat, places: nat): real {
    whole as real + fraction as real / Tens(places) as real
  }

  lemma DigitsAreUnsigned(s: string, max: nat, n: nat)
    requires s != "" && AllDigits(s)
    ensures Unsigned(s, max) == Some(n) <==> n <= max && DigitsValue(s) == n
  {
    hide DigitsValue;
    assert IsDigit(s[0]);
  }

  lemma PointFound(whole: string, fraction: string)
    requires AllDigits(whole)
    ensures IndexOf(whole + "." + fraction, '.') == |whole|
    ensures (whole + "." + fraction)[..|whole|] == whole
    ensures (whole + "." + fraction)[|whole| + 1..] == fraction
  {
    hide IndexOf;
    var s := whole + "." + fraction;
    assert s[|whole|] == '.';
    assert forall k | 0 <= k < |whole| :: s[k] == whole[k] && IsDigit(s[k]);
  }

  lemma FractionIsSmall(x: nat, n: nat)
    requires x < n
    ensures 0.0 <= x as real / n as real < 1.0
  {
    var q := x as real / n as real;
    assert q * n as real == x as real;
  }

  lemma SecondsIsRead(s: string, whole: nat, wholePlaces: nat, fraction: nat, places: nat)
    requires WritesSeconds(s, whole, wholePlaces, fraction, places)
    ensures Seconds(s) == Some(WithFraction(whole, fraction, places))
  {
    hide Tens, Digits, ParseFloat, IndexOf, Unsigned, WithFraction, DigitsValue;
    var w, f := Digits(whole, wholePlaces), Digits(fraction, places);
    DigitsRead(whole, wholePlaces);
    DigitsRead(fraction, places);
    DigitsAreUnsigned(w, U64_MAX, whole);
    DigitsAreUnsigned(f, U64_MAX, fraction);
    PointFound(w, f);
    SecondsAreDecimal(s, whole, wholePlaces, fraction, places);
  }

  lemma SecondsAreDecimal(s: string, whole: nat, wholePlaces: nat, fraction: nat, places: nat)
    requires WritesSeconds(s, whole, wholePlaces, fraction, places)
    ensures ParseFloat(s) == Some(Finite(WithFraction(whole, fraction, places)))
    ensures WithFraction(whole, fraction, places) >= 0.0
  {
    hide Tens, Digits, ParseFloat;
    var n := Numeral(NoSign, whole, wholePlaces, true, fraction, places, NoExponent);
    assert Written(n) == s;
    DecimalIsRead(s, n);
    FractionIsSmall(fraction, Tens(places));
  }

  lemma ReadIsSeconds(s: string)
      returns (whole: nat, wholePlaces: nat, fraction: nat, places: nat)
    requires Seconds(s).Some?
    ensures WritesSeconds(s, whole, wholePlaces, fraction, places)
  {
    hide Tens, Digits, ParseFloat, IndexOf, DigitsValue;
    wholePlaces := IndexOf(s, '.');
    var w, f := s[..wholePlaces], s[wholePlaces + 1..];
    places := |f|;
    DigitsWritten(w);
    DigitsWritten(f);
    whole, fraction := DigitsValue(w), DigitsValue(f);
    DigitsAreUnsigned(w, U64_MAX, whole);
    DigitsAreUnsigned(f, U64_MAX, fraction);
    assert s == w + "." + f;
  }

  /** Seconds are read exactly from digits, a point and digits, each side no
      more than 64 bits hold, as the whole part and the fraction they write. */
  lemma SecondsReads(s: string, value: real)
    ensures Seconds(s) == Some(value) <==>
            exists whole: nat, wholePlaces: nat, fraction: nat, places: nat ::
              WritesSeconds(s, whole, wholePlaces, fraction, places) && value == WithFraction(whole, fraction, places)
  {
    hide Seconds, WritesSeconds, WithFraction;
    if Seconds(s) == Some(value) {
      var whole, wholePlaces, fraction, places := ReadIsSeconds(s);
      SecondsIsRead(s, whole, wholePlaces, fraction, places);
    }
    if whole: nat, wholePlaces: nat, fraction: nat, places: nat :|
      WritesSeconds(s, whole, wholePlaces, fraction, places) && value == WithFraction(whole, fraction, places)
    {
      SecondsIsRead(s, whole, wholePlaces, fraction, places);
    }
  }
}
