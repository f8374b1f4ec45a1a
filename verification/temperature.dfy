/** Unit conversion and display of temperatures (src/utils/temperature.js).

    Values are exact reals. `ToFixed` follows ECMAScript's
    `Number.prototype.toFixed` for values below 10^21: the digits of the integer
    n for which n / 10^f is closest to |x| (the larger n on a tie), with a
    decimal point inserted f digits from the right, and a leading "-" when x is
    negative. */
module Temperature {
  import opened Common

  const Fahrenheit := "fahrenheit"

  /** Celsius converted to the requested unit; any unit other than
      "fahrenheit" leaves the value in Celsius. */
  function ConvertTemperature(celsius: real, toUnit: string): (r: real)
    ensures toUnit == Fahrenheit ==> (r - 32.0) * 5.0 / 9.0 == celsius
    ensures toUnit != Fahrenheit ==> r == celsius
  {
    if toUnit == Fahrenheit then celsius * 9.0 / 5.0 + 32.0 else celsius
  }

  /** Freezing and boiling points, and the point where the scales meet. */
  lemma {:induction false} ConvertTemperatureExamples()
    ensures ConvertTemperature(0.0, Fahrenheit) == 32.0
    ensures ConvertTemperature(100.0, Fahrenheit) == 212.0
    ensures ConvertTemperature(-40.0, Fahrenheit) == -40.0
    ensures ConvertTemperature(23.5, "celsius") == 23.5
  {
  }

  /** Conversion is strictly increasing in the Celsius value, whatever the unit. */
  lemma {:induction false} ConvertTemperatureIncreasing(c1: real, c2: real, unit: string)
    requires c1 < c2
    ensures ConvertTemperature(c1, unit) < ConvertTemperature(c2, unit)
  {
  }

  /** The unit symbol shown after the number. */
  function Symbol(unit: string): string {
    if unit == Fahrenheit then "°F" else "°C"
  }

  predicate EndsWith(s: string, suffix: string) {
    |suffix| <= |s| && s[|s| - |suffix|..] == suffix
  }

  /** The integer n for which n / 10^decimals is closest to |x|, the larger one on a tie. */
  function RoundedMagnitude(x: real, decimals: nat): nat {
    var a := if x < 0.0 then -x else x;
    (a * Pow10(decimals) as real + 0.5).Floor
  }

  /** The rounded magnitude is within half a unit in the last place of |x|. */
  lemma {:induction false} RoundedMagnitudeClose(x: real, decimals: nat)
    ensures var a := if x < 0.0 then -x else x;
      var scale := Pow10(decimals) as real;
      var v := RoundedMagnitude(x, decimals) as real / scale;
      a - 0.5 / scale < v <= a + 0.5 / scale
  {
    var a := if x < 0.0 then -x else x;
    var scale := Pow10(decimals) as real;
    RoundHalf(a * scale);
    WithinHalf(a, scale, RoundedMagnitude(x, decimals) as real);
  }

  /** Rounding half up lands within half a unit of the value. */
  lemma RoundHalf(y: real)
    ensures y - 0.5 < (y + 0.5).Floor as real <= y + 0.5
  {
  }

  /** Dividing a value within half a unit of a * scale by scale. */
  lemma {:induction false} WithinHalf(a: real, scale: real, n: real)
    requires scale > 0.0 && a * scale - 0.5 < n <= a * scale + 0.5
    ensures a - 0.5 / scale < n / scale <= a + 0.5 / scale
  {
    DivideMonotone(a * scale - 0.5, n, scale);
    DivideMonotone(n, a * scale + 0.5, scale);
    ScaleBack(a, scale, -0.5);
    ScaleBack(a, scale, 0.5);
  }

  lemma {:induction false} ScaleBack(a: real, scale: real, h: real)
    requires scale > 0.0
    ensures (a * scale + h) / scale == a + h / scale
  {
    assert (a * scale + h) / scale == a * scale / scale + h / scale;
  }

  lemma {:induction false} DivideMonotone(p: real, q: real, scale: real)
    requires scale > 0.0 && p <= q
    ensures p / scale <= q / scale
    ensures p < q ==> p / scale < q / scale
  {
  }

  /** The digits of n, left-padded with zeros to at least decimals + 1 of them. */
  function PaddedDigits(n: nat, decimals: nat): (s: string)
    ensures |s| > decimals && AllDigits(s) && DigitsValue(s) == n
  {
    var m := NatToString(n);
    NatToStringRoundTrip(n);
    if |m| <= decimals then
      ZeroPadded(decimals + 1 - |m|, m);
      Zeros(decimals + 1 - |m|) + m
    else
      m
  }

  /** Leading zeros change neither the digit property nor the value. */
  lemma ZeroPadded(count: nat, digits: string)
    requires AllDigits(digits)
    ensures AllDigits(Zeros(count) + digits) && DigitsValue(Zeros(count) + digits) == DigitsValue(digits)
  {
    DigitsValueConcat(Zeros(count), digits);
  }

  /** The shape of an unsigned fixed-point numeral with `decimals` places: all
      digits when there are none, otherwise at least one digit, the point, and
      exactly `decimals` digits after it. */
  predicate FixedShape(body: string, decimals: nat) {
    && body != "" && IsDigit(body[0])
    && if decimals == 0 then AllDigits(body)
      else
        && |body| >= decimals + 2
        && body[|body| - decimals - 1] == '.'
        && AllDigits(body[..|body| - decimals - 1])
        && AllDigits(body[|body| - decimals..])
  }

  /** The digits with a decimal point inserted `decimals` places from the right. */
  function InsertPoint(digits: string, decimals: nat): (body: string)
    requires |digits| > decimals && AllDigits(digits)
    ensures FixedShape(body, decimals)
  {
    var k := |digits| - decimals;
    if decimals == 0 then digits
    else
      var body := digits[..k] + "." + digits[k..];
      assert body[..|body| - decimals - 1] == digits[..k] && body[|body| - decimals..] == digits[k..];
      body
  }

  /** `x.toFixed(decimals)` for |x| < 10^21. */
  function ToFixed(x: real, decimals: nat): (s: string)
    ensures |s| > 0 && (s[0] == '-' <==> x < 0.0)
    ensures FixedShape(if x < 0.0 then s[1..] else s, decimals)
  {
    var body := InsertPoint(PaddedDigits(RoundedMagnitude(x, decimals), decimals), decimals);
    if x < 0.0 then
      assert ("-" + body)[1..] == body;
      "-" + body
    else
      body
  }

  // Reading a fixed-point numeral back

  /** The index of the first '.' in s, or |s| when there is none. */
  function DotIndex(s: string): (k: nat)
    ensures k <= |s| && (k < |s| ==> s[k] == '.')
    ensures forall i :: 0 <= i < k ==> s[i] != '.'
  {
    if s == [] || s[0] == '.' then 0 else 1 + DotIndex(s[1..])
  }

  /** The value of an unsigned numeral "digits" or "digits.digits", or None. */
  function ReadUnsigned(s: string): Option<real> {
    var k := DotIndex(s);
    var whole := s[..k];
    var frac := if k < |s| then s[k + 1..] else "";
    if whole != "" && AllDigits(whole) && AllDigits(frac) && (k < |s| ==> frac != "") then
      Some(DigitsValue(whole) as real + DigitsValue(frac) as real / Pow10(|frac|) as real)
    else
      None
  }

  /** The value of an optionally signed fixed-point numeral, or None. */
  function ReadFixed(s: string): Option<real> {
    if s != [] && s[0] == '-' then
      match ReadUnsigned(s[1..])
      case Some(v) => Some(-v)
      case None => None
    else
      ReadUnsigned(s)
  }

  /** The value `ToFixed` prints: the rounded magnitude over 10^decimals, negated for negative x. */
  function FixedValue(x: real, decimals: nat): real {
    var v := RoundedMagnitude(x, decimals) as real / Pow10(decimals) as real;
    if x < 0.0 then -v else v
  }

  /** Splitting n = w * p + f into its whole and fractional parts over p. */
  lemma {:induction false} SplitOverScale(w: nat, f: nat, p: nat)
    requires p >= 1
    ensures (w * p + f) as real / p as real == w as real + f as real / p as real
  {
    var P := p as real;
    assert (w * p) as real == w as real * P;
    assert (w as real * P + f as real) / P == w as real * P / P + f as real / P;
  }

  /** The first '.' of a string is where the prefix of non-dots ends. */
  lemma {:induction false} DotIndexAt(s: string, k: nat)
    requires k <= |s| && (k < |s| ==> s[k] == '.')
    requires forall i :: 0 <= i < k ==> s[i] != '.'
    ensures DotIndex(s) == k
  {
    if k > 0 {
      assert s[0] != '.';
      DotIndexAt(s[1..], k - 1);
    }
  }

  lemma {:induction false} ReadWhole(whole: string)
    requires whole != "" && AllDigits(whole)
    ensures ReadUnsigned(whole) == Some(DigitsValue(whole) as real)
  {
    DotIndexAt(whole, |whole|);
    assert whole[..|whole|] == whole;
    assert Pow10(0) == 1;
  }

  lemma {:induction false} ReadWholeFrac(whole: string, frac: string)
    requires whole != "" && AllDigits(whole) && frac != "" && AllDigits(frac)
    ensures ReadUnsigned(whole + "." + frac)
      == Some(DigitsValue(whole) as real + DigitsValue(frac) as real / Pow10(|frac|) as real)
  {
    var s := whole + "." + frac;
    var k := |whole|;
    assert s[k] == '.';
    forall i | 0 <= i < k ensures s[i] != '.' {
      assert s[i] == whole[i];
      assert IsDigit(whole[i]);
    }
    DotIndexAt(s, k);
    assert s[..k] == whole && s[k + 1..] == frac;
  }

  /** The value of a digit string over 10^decimals, split at the point. */
  lemma {:induction false} ValueAtPoint(digits: string, decimals: nat)
    requires |digits| > decimals && AllDigits(digits)
    ensures var k := |digits| - decimals;
      DigitsValue(digits) as real / Pow10(decimals) as real
        == DigitsValue(digits[..k]) as real + DigitsValue(digits[k..]) as real / Pow10(decimals) as real
  {
    var k := |digits| - decimals;
    var whole, frac := digits[..k], digits[k..];
    assert digits == whole + frac;
    DigitsValueConcat(whole, frac);
    SplitOverScale(DigitsValue(whole), DigitsValue(frac), Pow10(decimals));
  }

  lemma {:induction false} ReadPadded(digits: string, decimals: nat)
    requires |digits| > decimals && AllDigits(digits)
    ensures ReadUnsigned(InsertPoint(digits, decimals)) == Some(DigitsValue(digits) as real / Pow10(decimals) as real)
  {
    var p := Pow10(decimals) as real;
    if decimals == 0 {
      assert InsertPoint(digits, 0) == digits;
      ReadWhole(digits);
      assert p == 1.0;
    } else {
      ReadPointed(digits, decimals);
    }
  }

  /** Both sides of a cut through a digit string are digit strings. */
  lemma DigitsSplit(digits: string, k: nat)
    requires k <= |digits| && AllDigits(digits)
    ensures AllDigits(digits[..k]) && AllDigits(digits[k..])
  {
    var frac := digits[k..];
    forall j | 0 <= j < |frac| ensures IsDigit(frac[j]) {
      assert frac[j] == digits[k + j];
    }
  }

  /** `ReadPadded` when there is a point: the whole part and the fraction read separately. */
  lemma {:induction false} ReadPointed(digits: string, decimals: nat)
    requires |digits| > decimals > 0 && AllDigits(digits)
    ensures ReadUnsigned(InsertPoint(digits, decimals)) == Some(DigitsValue(digits) as real / Pow10(decimals) as real)
  {
    var k := |digits| - decimals;
    var whole, frac := digits[..k], digits[k..];
    DigitsSplit(digits, k);
    assert InsertPoint(digits, decimals) == whole + "." + frac;
    ValueAtPoint(digits, decimals);
    ReadWholeFrac(whole, frac);
    assert |frac| == decimals;
  }

  /** The partner of `ToFixed`: its text reads back as the rounded value. */
  lemma {:induction false} ReadSigned(body: string, v: real)
    requires body != [] && body[0] != '-' && ReadUnsigned(body) == Some(v)
    ensures ReadFixed(body) == Some(v)
    ensures ReadFixed("-" + body) == Some(-v)
  {
    assert ("-" + body)[1..] == body;
  }

  lemma {:induction false} ToFixedReadsBack(x: real, decimals: nat)
    ensures ReadFixed(ToFixed(x, decimals)) == Some(FixedValue(x, decimals))
  {
    var n := RoundedMagnitude(x, decimals);
    var digits := PaddedDigits(n, decimals);
    var body := InsertPoint(digits, decimals);
    ReadPadded(digits, decimals);
    var v := n as real / Pow10(decimals) as real;
    ReadSigned(body, v);
    var s := ToFixed(x, decimals);
    var r := if x < 0.0 then -v else v;
    assert FixedValue(x, decimals) == r;
    assert s == if x < 0.0 then "-" + body else body;
    assert ReadFixed(s) == Some(r);
  }

  /** `formatTemperature(celsius, unit, decimals = 1)`. */
  function FormatTemperature(celsius: real, unit: string, decimals: nat := 1): (s: string)
    ensures EndsWith(s, "°F") <==> unit == Fahrenheit
    ensures EndsWith(s, "°C") <==> unit != Fahrenheit
    ensures ReadFixed(s[..|s| - 2]) == Some(FixedValue(ConvertTemperature(celsius, unit), decimals))
  {
    var number := ToFixed(ConvertTemperature(celsius, unit), decimals);
    AppendSymbol(number, unit);
    ToFixedReadsBack(ConvertTemperature(celsius, unit), decimals);
    number + Symbol(unit)
  }

  /** The symbol is the last two characters, and the two symbols differ. */
  lemma {:induction false} AppendSymbol(number: string, unit: string)
    ensures var s := number + Symbol(unit);
      && s[..|s| - 2] == number
      && (EndsWith(s, "°F") <==> unit == Fahrenheit)
      && (EndsWith(s, "°C") <==> unit != Fahrenheit)
  {
    var s := number + Symbol(unit);
    assert s[|s| - 2..] == Symbol(unit);
    assert "°F" != "°C" by { assert "°F"[1] != "°C"[1]; }
  }

  /** The displayed number is within half a unit in the last place of the converted value. */
  lemma {:induction false} FormatTemperatureClose(celsius: real, unit: string, decimals: nat)
    ensures var v := ConvertTemperature(celsius, unit);
      var shown := FixedValue(v, decimals);
      var half := 0.5 / Pow10(decimals) as real;
      v - half <= shown <= v + half
  {
    RoundedMagnitudeClose(ConvertTemperature(celsius, unit), decimals);
  }

  /** `ToFixed` with one decimal on a value that is already a whole number of tenths. */
  lemma {:induction false} ToFixedTenths(x: real, n: nat, text: string)
    requires x >= 0.0 && x * 10.0 == n as real && n >= 10 && text == NatToString(n)
    ensures ToFixed(x, 1) == text[..|text| - 1] + "." + text[|text| - 1..]
  {
    assert Pow10(1) == 10;
    assert RoundedMagnitude(x, 1) == n;
    assert PaddedDigits(n, 1) == text;
  }

  /** Formatting a value that is a whole number of tenths with the default one decimal. */
  lemma {:induction false} FormatTenths(celsius: real, unit: string, n: nat, text: string, shown: string)
    requires ConvertTemperature(celsius, unit) >= 0.0 && ConvertTemperature(celsius, unit) * 10.0 == n as real
    requires n >= 10 && text == NatToString(n)
    requires shown == text[..|text| - 1] + "." + text[|text| - 1..] + Symbol(unit)
    ensures FormatTemperature(celsius, unit) == shown
  {
    ToFixedTenths(ConvertTemperature(celsius, unit), n, text);
  }

  /** Freezing point in Fahrenheit with the default one decimal. */
  lemma {:induction false} FormatFreezingFahrenheit()
    ensures FormatTemperature(0.0, Fahrenheit) == "32.0°F"
  {
    assert NatToString(320) == "320" by {
      assert NatToString(32) == "32";
    }
    FormatTenths(0.0, Fahrenheit, 320, "320", "32.0°F");
  }

  /** Boiling point in Fahrenheit with the default one decimal. */
  lemma {:induction false} FormatBoilingFahrenheit()
    ensures FormatTemperature(100.0, Fahrenheit) == "212.0°F"
  {
    assert NatToString(2120) == "2120" by {
      assert NatToString(21) == "21";
      assert NatToString(212) == "212";
    }
    FormatTenths(100.0, Fahrenheit, 2120, "2120", "212.0°F");
  }

  /** A Celsius reading is shown unchanged, with the Celsius symbol. */
  lemma {:induction false} FormatCelsiusReading()
    ensures FormatTemperature(23.5, "celsius") == "23.5°C"
  {
    assert "celsius" != Fahrenheit by {
      assert |"celsius"| != |Fahrenheit|;
    }
    assert NatToString(235) == "235" by {
      assert NatToString(23) == "23";
    }
    assert Symbol("celsius") == "°C";
    assert "235"[..2] == "23" && "235"[2..] == "5";
    FormatTenths(23.5, "celsius", 235, "235", "23.5°C");
  }
}
