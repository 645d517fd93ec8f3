/**
 Stepping a quantity as it is written: "+1.50e-3 A" one step up is "+1.51e-3 A". The number is read from the text, moved
 by an exact decimal amount, and written back in the notation the operator used. Decimals are unbounded here.
 */
module DecimalStepping {
  import opened Outcomes

  // ---- Text ----

  type Digits = s: seq<char> | forall i | 0 <= i < |s| :: IsDigit(s[i])

  predicate IsDigit(c: char) {
    '0' <= c <= '9'
  }

  predicate IsSpace(c: char) {
    c == ' ' || c == '\t' || c == '\n' || c == '\r'
  }

  datatype Sign = Unsigned | Plus | Minus

  /** The exponent suffix as it was written. */
  datatype Suffix = Suffix(marker: char, sign: Sign, digits: Digits)

  /** A number as it was written. */
  datatype Written = Written(sign: Sign, whole: Digits, separator: Option<char>, fraction: Digits, suffix: Option<Suffix>)

  predicate WellFormed(w: Written) {
    && (w.separator.None? ==> w.whole != [] && w.fraction == [])
    && (w.separator.Some? ==> (w.separator.value == '.' || w.separator.value == ',') && (w.whole != [] || w.fraction != []))
    && (w.suffix.Some? ==> (w.suffix.value.marker == 'e' || w.suffix.value.marker == 'E') && w.suffix.value.digits != [])
  }

  function SignText(s: Sign): string {
    match s
    case Unsigned => ""
    case Plus => "+"
    case Minus => "-"
  }

  function FractionText(w: Written): string {
    if w.separator.Some? then [w.separator.value] + w.fraction else ""
  }

  function SuffixText(s: Option<Suffix>): string {
    if s.Some? then [s.value.marker] + SignText(s.value.sign) + s.value.digits else ""
  }

  function NumberText(w: Written): string {
    SignText(w.sign) + (w.whole + (FractionText(w) + SuffixText(w.suffix)))
  }

  function QuantityText(w: Written, unit: string): string {
    NumberText(w) + (" " + unit)
  }

  predicate IsUnit(unit: string) {
    unit != "" && !IsSpace(unit[0]) && !IsSpace(unit[|unit| - 1])
  }

  // ---- The scanner ----

  function SkipSpaces(s: string): string {
    if s != "" && IsSpace(s[0]) then SkipSpaces(s[1..]) else s
  }

  function TrimEnd(s: string): string {
    if s != "" && IsSpace(s[|s| - 1]) then TrimEnd(s[..|s| - 1]) else s
  }

  function ScanSign(s: string): (Sign, string) {
    if s != "" && s[0] == '+' then (Plus, s[1..])
    else if s != "" && s[0] == '-' then (Minus, s[1..])
    else (Unsigned, s)
  }

  /** The longest run of digits. */
  function ScanDigits(s: string): (Digits, string) {
    if s != "" && IsDigit(s[0]) then
      var (more, rest) := ScanDigits(s[1..]);
      ([s[0]] + more, rest)
    else ([], s)
  }

  function ScanFraction(s: string): (Option<char>, Digits, string) {
    if s != "" && (s[0] == '.' || s[0] == ',') then
      var (digits, rest) := ScanDigits(s[1..]);
      (Some(s[0]), digits, rest)
    else (None, [], s)
  }

  function ScanSuffix(s: string): (Option<Suffix>, string) {
    if s != "" && (s[0] == 'e' || s[0] == 'E') then
      var (sign, rest) := ScanSign(s[1..]);
      var (digits, tail) := ScanDigits(rest);
      if digits != [] then (Some(Suffix(s[0], sign, digits)), tail) else (None, s)
    else (None, s)
  }

  /** A number and its unit. A text whose unit would have to be taken from the digits has none. */
  function Scan(text: string): Option<(Written, string)> {
    var (sign, s1) := ScanSign(SkipSpaces(text));
    var (whole, s2) := ScanDigits(s1);
    var (separator, fraction, s3) := ScanFraction(s2);
    var (suffix, s4) := ScanSuffix(s3);
    var w := Written(sign, whole, separator, fraction, suffix);
    var unit := TrimEnd(SkipSpaces(s4));
    if (whole == [] && fraction == []) || unit == "" then None else Some((w, unit))
  }

  lemma {:induction false} ScanDigitsOf(digits: Digits, rest: string)
    requires rest == "" || !IsDigit(rest[0])
    ensures ScanDigits(digits + rest) == (digits, rest)
  {
    if digits == [] {
      assert digits + rest == rest;
    } else {
      assert (digits + rest)[0] == digits[0] && (digits + rest)[1..] == digits[1..] + rest;
      ScanDigitsOf(digits[1..], rest);
      assert [digits[0]] + digits[1..] == digits;
    }
  }

  lemma ScanSignOf(sign: Sign, rest: string)
    requires rest != "" && rest[0] != '+' && rest[0] != '-'
    ensures ScanSign(SignText(sign) + rest) == (sign, rest)
  {
    assert SignText(Unsigned) + rest == rest;
    assert sign != Unsigned ==> (SignText(sign) + rest)[1..] == rest;
  }

  lemma ScanSuffixOf(suffix: Option<Suffix>, rest: string)
    requires rest != "" && rest[0] == ' '
    requires suffix.Some? ==> (suffix.value.marker == 'e' || suffix.value.marker == 'E') && suffix.value.digits != []
    ensures ScanSuffix(SuffixText(suffix) + rest) == (suffix, rest)
  {
    if suffix.Some? {
      var x := suffix.value;
      assert (SuffixText(suffix) + rest)[1..] == SignText(x.sign) + (x.digits + rest);
      ScanSignOf(x.sign, x.digits + rest);
      ScanDigitsOf(x.digits, rest);
    } else {
      assert SuffixText(suffix) + rest == rest;
    }
  }

  lemma ScanFractionOf(w: Written, rest: string)
    requires WellFormed(w) && rest != "" && !IsDigit(rest[0]) && rest[0] != '.' && rest[0] != ','
    ensures ScanFraction(FractionText(w) + rest) == (w.separator, w.fraction, rest)
  {
    if w.separator.Some? {
      assert (FractionText(w) + rest)[1..] == w.fraction + rest;
      ScanDigitsOf(w.fraction, rest);
    } else {
      assert FractionText(w) + rest == rest;
    }
  }

  lemma {:induction false} TrimEndOf(unit: string)
    requires IsUnit(unit)
    ensures TrimEnd(unit) == unit && SkipSpaces(" " + unit) == unit
  {
    assert (" " + unit)[1..] == unit;
  }

  /** What was written is read back exactly. */
  lemma ScanQuantityText(w: Written, unit: string)
    requires WellFormed(w) && IsUnit(unit)
    ensures Scan(QuantityText(w, unit)) == Some((w, unit))
  {
    hide SkipSpaces, TrimEnd, ScanSign, ScanDigits, ScanFraction, ScanSuffix, SignText, FractionText, SuffixText,
         IsDigit, IsSpace;
    var end := " " + unit;
    var s3 := SuffixText(w.suffix) + end;
    var s2 := FractionText(w) + s3;
    var s1 := w.whole + s2;
    PartsOfText(w, unit);
    FirstCharacters(w, unit);
    NoSpaceToSkip(QuantityText(w, unit));
    ScanSignOf(w.sign, s1);
    ScanDigitsOf(w.whole, s2);
    SuffixIsNoFraction(s3);
    ScanFractionOf(w, s3);
    SpaceFirst(unit);
    ScanSuffixOf(w.suffix, end);
    TrimEndOf(unit);
  }

  lemma PartsOfText(w: Written, unit: string)
    ensures QuantityText(w, unit) == SignText(w.sign) + (w.whole + (FractionText(w) + (SuffixText(w.suffix) + (" " + unit))))
  {
    hide SignText, FractionText, SuffixText;
  }

  lemma NoSpaceToSkip(text: string)
    requires text != "" && !IsSpace(text[0])
    ensures SkipSpaces(text) == text
  {
  }

  lemma SuffixIsNoFraction(rest: string)
    requires rest != "" && (rest[0] == ' ' || rest[0] == 'e' || rest[0] == 'E')
    ensures !IsDigit(rest[0]) && rest[0] != '.' && rest[0] != ','
  {
  }

  lemma SpaceFirst(unit: string)
    ensures " " + unit != "" && (" " + unit)[0] == ' '
  {
  }

  /** What each part of the text begins with. */
  lemma FirstCharacters(w: Written, unit: string)
    requires WellFormed(w) && IsUnit(unit)
    ensures var s3 := SuffixText(w.suffix) + (" " + unit);
            var s2 := FractionText(w) + s3;
            var s1 := w.whole + s2;
            && s3 != "" && (s3[0] == ' ' || s3[0] == 'e' || s3[0] == 'E')
            && s2 != "" && !IsDigit(s2[0]) && s1 != "" && s1[0] != '+' && s1[0] != '-' && !IsSpace(s1[0])
            && SignText(w.sign) + s1 != "" && !IsSpace((SignText(w.sign) + s1)[0])
  {
    assert w.whole == [] ==> w.whole + (FractionText(w) + (SuffixText(w.suffix) + (" " + unit))) ==
                             FractionText(w) + (SuffixText(w.suffix) + (" " + unit));
  }

  // ---- Decimals ----

  /** coef times ten to the power exp. */
  datatype Decimal = Decimal(coef: int, exp: int)

  function Ten(n: nat): (r: nat)
    ensures r > 0
  {
    if n == 0 then 1 else 10 * Ten(n - 1)
  }

  /** The integer a decimal is at a scale fine enough for it. */
  function At(d: Decimal, exp: int): int
    requires exp <= d.exp
  {
    d.coef * Ten(d.exp - exp)
  }

  /** Two decimals denote the same number. */
  predicate Same(a: Decimal, b: Decimal) {
    var e := Min(a.exp, b.exp);
    At(a, e) == At(b, e)
  }

  /** a plus m times b, exactly. */
  function PlusTimes(a: Decimal, m: int, b: Decimal): Decimal {
    var e := Min(a.exp, b.exp);
    Decimal(At(a, e) + m * At(b, e), e)
  }

  function Product(a: Decimal, b: Decimal): Decimal {
    Decimal(a.coef * b.coef, a.exp + b.exp)
  }

  lemma {:induction false} TenSum(m: nat, n: nat)
    ensures Ten(m + n) == Ten(m) * Ten(n)
  {
    if m > 0 {
      TenSum(m - 1, n);
    }
  }

  lemma Rescale(d: Decimal, fine: int, coarse: int)
    requires fine <= coarse <= d.exp
    ensures At(d, fine) == At(d, coarse) * Ten(coarse - fine)
  {
    TenSum(d.exp - coarse, coarse - fine);
    Associate(d.coef, Ten(d.exp - coarse), Ten(coarse - fine));
  }

  lemma Associate(a: int, b: int, c: int)
    ensures a * (b * c) == (a * b) * c
  {
  }

  lemma CancelFactor(a: int, b: int, c: int)
    requires c > 0
    ensures a * c == b * c <==> a == b
  {
    if a < b {
      assert (b - a) * c > 0;
    } else if b < a {
      assert (a - b) * c > 0;
    }
  }

  /** Sameness can be seen at any scale fine enough for both. */
  lemma SameAt(a: Decimal, b: Decimal, e: int)
    requires e <= a.exp && e <= b.exp
    ensures Same(a, b) <==> At(a, e) == At(b, e)
  {
    var m := Min(a.exp, b.exp);
    Rescale(a, e, m);
    Rescale(b, e, m);
    CancelFactor(At(a, m), At(b, m), Ten(m - e));
  }

  lemma SameTransitive(a: Decimal, b: Decimal, c: Decimal)
    requires Same(a, b) && Same(b, c)
    ensures Same(a, c)
  {
    var e := Min(a.exp, Min(b.exp, c.exp));
    SameAt(a, b, e);
    SameAt(b, c, e);
    SameAt(a, c, e);
  }

  // ---- The number that is written ----

  function DigitsValue(digits: Digits): nat {
    if digits == [] then 0
    else
      assert IsDigit(digits[|digits| - 1]);
      10 * DigitsValue(digits[..|digits| - 1]) + (digits[|digits| - 1] as int - '0' as int)
  }

  function Signed(sign: Sign, n: int): int {
    if sign.Minus? then -n else n
  }

  function ExponentOf(w: Written): int {
    if w.suffix.Some? then Signed(w.suffix.value.sign, DigitsValue(w.suffix.value.digits)) else 0
  }

  /** The number, in the unit that is written. */
  function Number(w: Written): Decimal {
    Decimal(Signed(w.sign, DigitsValue(w.whole + w.fraction)), ExponentOf(w) - |w.fraction|)
  }

  /** The value of the last written digit of the mantissa. */
  function WrittenQuantum(w: Written): Decimal {
    Decimal(1, ExponentOf(w) - |w.fraction|)
  }

  function Zeros(k: nat): (digits: Digits)
    ensures |digits| == k
  {
    seq(k, _ => '0')
  }

  lemma {:induction false} ZerosScale(digits: Digits, k: nat)
    ensures DigitsValue(digits + Zeros(k)) == DigitsValue(digits) * Ten(k)
  {
    if k == 0 {
      assert digits + Zeros(0) == digits;
    } else {
      var longer := digits + Zeros(k);
      assert longer[..|longer| - 1] == digits + Zeros(k - 1) && longer[|longer| - 1] == '0';
      ZerosScale(digits, k - 1);
      Associate(DigitsValue(digits), 10, Ten(k - 1));
    }
  }

  /**
   The suffix against the separator: a suffix of e and k moves the separator k places to the right, one of e- and k
   moves it k places to the left.
   */
  lemma SuffixMovesSeparator(sign: Sign, whole: Digits, separator: char, fraction: Digits, marker: char, digits: Digits)
    requires DigitsValue(digits) == |fraction|
    ensures var plain, parted := Written(sign, whole + fraction, None, [], None), Written(sign, whole, Some(separator), fraction, None);
            && Number(parted.(suffix := Some(Suffix(marker, Unsigned, digits)))) == Number(plain)
            && Number(parted.(suffix := Some(Suffix(marker, Plus, digits)))) == Number(plain)
            && Number(plain.(suffix := Some(Suffix(marker, Minus, digits)))) == Number(parted)
  {
    assert whole + fraction + [] == whole + fraction;
  }

  /** The suffix against trailing zeros: one of e and k appends k of them. */
  lemma SuffixAppendsZeros(sign: Sign, whole: Digits, marker: char, digits: Digits)
    ensures Same(Number(Written(sign, whole, None, [], Some(Suffix(marker, Plus, digits)))),
                 Number(Written(sign, whole + Zeros(DigitsValue(digits)), None, [], None)))
  {
    hide DigitsValue;
    var k := DigitsValue(digits);
    ZerosScale(whole, k);
    assert whole + [] == whole && whole + Zeros(k) + [] == whole + Zeros(k);
    Associate(-1, DigitsValue(whole), Ten(k));
  }

  // ---- Rendering ----

  function DigitOf(n: nat): char
    requires n < 10
  {
    n as char + '0'
  }

  /** The decimal digits of n, at least `width` of them. */
  function ToDigits(n: nat, width: nat): (digits: Digits)
    ensures |digits| >= width && DigitsValue(digits) == n
    decreases n + width
  {
    if n == 0 && width == 0 then []
    else ToDigits(n / 10, if width == 0 then 0 else width - 1) + [DigitOf(n % 10)]
  }

  /** The number with trailing zeros dropped; zero is written without a scale. */
  function Normal(d: Decimal): Decimal
    decreases if d.coef < 0 then -d.coef else d.coef
  {
    if d.coef == 0 then Decimal(0, 0)
    else if d.coef % 10 == 0 then Normal(Decimal(d.coef / 10, d.exp + 1))
    else d
  }

  lemma {:induction false} NormalIsSame(d: Decimal, e: int)
    requires e <= d.exp
    ensures d.coef != 0 ==> d.exp <= Normal(d).exp && At(Normal(d), e) == At(d, e) && Normal(d).coef != 0
    ensures d.coef == 0 ==> At(d, e) == 0
    decreases if d.coef < 0 then -d.coef else d.coef
  {
    if d.coef != 0 && d.coef % 10 == 0 {
      var up := Decimal(d.coef / 10, d.exp + 1);
      NormalIsSame(up, e);
      assert Ten(d.exp + 1 - e) == 10 * Ten(d.exp - e);
      Associate(up.coef, 10, Ten(d.exp - e));
    }
  }

  /** Shifting the scale shifts the normal form. */
  lemma {:induction false} NormalShifted(d: Decimal, shift: int)
    requires d.coef != 0
    ensures Normal(Decimal(d.coef, d.exp + shift)) == Decimal(Normal(d).coef, Normal(d).exp + shift)
    decreases if d.coef < 0 then -d.coef else d.coef
  {
    if d.coef % 10 == 0 {
      NormalShifted(Decimal(d.coef / 10, d.exp + 1), shift);
    }
  }

  /** n over q, to the nearest integer, ties to even. */
  function RoundedQuotient(n: int, q: nat): int
    requires q > 0
  {
    var low, rest := n / q, n % q;
    if 2 * rest < q || (2 * rest == q && low % 2 == 0) then low else low + 1
  }

  /** The number in units of ten to the power minus `places`, as fixed-point formatting rounds it. */
  function FixedPoint(d: Decimal, places: int): int {
    if -places <= d.exp then At(d, -places) else RoundedQuotient(d.coef, Ten(-places - d.exp))
  }

  lemma ExactQuotient(m: int, q: nat)
    requires q > 0
    ensures RoundedQuotient(m * q, q) == m
  {
    QuotientIs(m * q / q, m * q % q, m, q);
  }

  lemma QuotientIs(d: int, r: int, m: int, q: int)
    requires d * q + r == m * q && 0 <= r < q
    ensures d == m && r == 0
  {
    assert (m - d) * q == r;
    if m - d != 0 {
      ProductTooBig(m - d, q);
    }
  }

  lemma ProductTooBig(k: int, q: int)
    requires k != 0 && q > 0
    ensures !(0 <= k * q < q)
  {
  }

  // ---- One step ----

  /** How many decimals the result shows: those written, and as many more as the step itself needs. */
  function PlacesFor(w: Written, delta: Decimal): (places: int)
    ensures |w.fraction| <= places
  {
    Max(|w.fraction|, Max(0, -Normal(Decimal(delta.coef, delta.exp - ExponentOf(w))).exp))
  }

  /** The scaled result as the integer that is printed. */
  function Printed(w: Written, direction: int, delta: Decimal): int {
    var updated := PlusTimes(Number(w), direction, delta);
    FixedPoint(Decimal(updated.coef, updated.exp - ExponentOf(w)), PlacesFor(w, delta))
  }

  function Absolute(n: int): nat {
    if n < 0 then -n else n
  }

  function Front(digits: Digits, k: int): Digits
    requires 0 <= k <= |digits|
  {
    digits[..k]
  }

  function Back(digits: Digits, k: int): Digits
    requires 0 <= k <= |digits|
  {
    digits[k..]
  }

  /** A fixed-point number in the notation of w: its separator, its plus sign, its suffix. */
  function Render(w: Written, n: int, places: int): (r: Written)
    requires 0 <= places
    ensures WellFormed(w) ==> WellFormed(r)
    ensures |r.fraction| == places && r.suffix == w.suffix && r.whole != []
    ensures r.separator == if places == 0 then None else if w.separator == Some(',') then Some(',') else Some('.')
    ensures r.sign == if n < 0 then Minus else if w.sign.Plus? then Plus else Unsigned
    ensures Signed(r.sign, DigitsValue(r.whole + r.fraction)) == n
  {
    var digits := ToDigits(Absolute(n), places + 1);
    assert Front(digits, |digits| - places) + Back(digits, |digits| - places) == digits;
    Written(if n < 0 then Minus else if w.sign.Plus? then Plus else Unsigned,
            Front(digits, |digits| - places),
            if places == 0 then None else if w.separator == Some(',') then Some(',') else Some('.'),
            Back(digits, |digits| - places),
            w.suffix)
  }

  /** The stepped number in the notation of the old one. */
  function StepNumber(w: Written, direction: int, delta: Decimal): (r: Written)
    ensures WellFormed(w) ==> WellFormed(r)
    ensures r.suffix == w.suffix && |w.fraction| <= |r.fraction| == PlacesFor(w, delta)
    ensures Number(r) == Decimal(Printed(w, direction, delta), ExponentOf(w) - PlacesFor(w, delta))
  {
    Render(w, Printed(w, direction, delta), PlacesFor(w, delta))
  }

  /** The scale at which a step can be computed exactly. */
  function FineScale(w: Written, delta: Decimal): int {
    Min(-|w.fraction|, delta.exp - ExponentOf(w))
  }

  /** The old number and the step, added at that scale. */
  function ExactSum(w: Written, direction: int, delta: Decimal): int {
    var e := FineScale(w, delta);
    At(Decimal(Number(w).coef, -|w.fraction|), e) + direction * At(Decimal(delta.coef, delta.exp - ExponentOf(w)), e)
  }

  lemma Distribute(a: int, m: int, b: int, q: int)
    ensures (a + m * b) * q == a * q + m * (b * q)
  {
  }

  /** The step in units of the last place that is shown. */
  lemma StepInPlaces(shown: Decimal, e: int, places: int) returns (share: int)
    requires e <= shown.exp && e <= -places && 0 <= places
    requires shown.coef != 0 ==> -places <= Normal(shown).exp
    ensures At(shown, e) == share * Ten(-places - e)
  {
    NormalIsSame(shown, e);
    if shown.coef == 0 {
      return 0;
    }
    Rescale(Normal(shown), e, -places);
    return At(Normal(shown), -places);
  }

  /** No rounding happens: the printed integer is the old number plus the step, exactly. */
  lemma PrintedIsExact(w: Written, direction: int, delta: Decimal)
    ensures var places, e := PlacesFor(w, delta), FineScale(w, delta);
            if e <= -places then Printed(w, direction, delta) * Ten(-places - e) == ExactSum(w, direction, delta)
            else Printed(w, direction, delta) == ExactSum(w, direction, delta) * Ten(e + places)
  {
    var places, expo, e := PlacesFor(w, delta), ExponentOf(w), FineScale(w, delta);
    var own, shown := Decimal(Number(w).coef, -|w.fraction|), Decimal(delta.coef, delta.exp - expo);
    var updated := PlusTimes(Number(w), direction, delta);
    assert updated.exp - expo == e && updated.coef == ExactSum(w, direction, delta);
    if e < -places {
      Rescale(own, e, -places);
      var share := StepInPlaces(shown, e, places);
      var q := Ten(-places - e);
      Distribute(At(own, -places), direction, share, q);
      ExactQuotient(At(own, -places) + direction * share, q);
    }
  }

  /** A number scaled by a power of ten is the same number at a shifted exponent. */
  lemma SameShifted(a: Decimal, b: Decimal, shift: int)
    requires Same(a, b)
    ensures Same(Decimal(a.coef, a.exp + shift), Decimal(b.coef, b.exp + shift))
  {
  }

  /** The new text denotes exactly the old number plus the step. */
  lemma StepIsExact(w: Written, direction: int, delta: Decimal)
    ensures Same(Number(StepNumber(w, direction, delta)), PlusTimes(Number(w), direction, delta))
  {
    var places, e := PlacesFor(w, delta), FineScale(w, delta);
    PrintedIsExact(w, direction, delta);
    var printed, sum := Decimal(Printed(w, direction, delta), -places), Decimal(ExactSum(w, direction, delta), e);
    assert Same(printed, sum);
    SameShifted(printed, sum, ExponentOf(w));
    assert PlusTimes(Number(w), direction, delta) == Decimal(sum.coef, e + ExponentOf(w));
  }

  // ---- The whole operation ----

  /** The amount of one step: an explicit step, or the last written digit, times the multiplier of the keys held down. */
  function Delta(w: Written, step: Option<Decimal>, multiplier: Decimal): Decimal {
    Product(if step.Some? then step.value else WrittenQuantum(w), multiplier)
  }

  /** Without an explicit step, m steps at once add m to the digits as they are written. */
  lemma DefaultStepIsLastDigit(w: Written, direction: int, multiplier: int)
    ensures var sum := PlusTimes(Number(w), direction, Delta(w, None, Decimal(multiplier, 0)));
            sum == Decimal(Signed(w.sign, DigitsValue(w.whole + w.fraction)) + direction * multiplier, Number(w).exp)
  {
    var d := Delta(w, None, Decimal(multiplier, 0));
    assert d == Decimal(multiplier, Number(w).exp);
    assert Ten(0) == 1;
  }

  function Step(w: Written, direction: int, step: Option<Decimal>, multiplier: Decimal): Written {
    StepNumber(w, direction, Delta(w, step, multiplier))
  }

  /** Steps a quantity text in its written unit. */
  function StepQuantityText(text: string, direction: int, step: Option<Decimal>, multiplier: Decimal): Option<string> {
    match Scan(text)
    case None => None
    case Some((w, unit)) => Some(QuantityText(Step(w, direction, step, multiplier), unit))
  }

  lemma {:induction false} SkippedSpaces(s: string)
    ensures SkipSpaces(s) == "" || !IsSpace(SkipSpaces(s)[0])
  {
    if s != "" && IsSpace(s[0]) {
      SkippedSpaces(s[1..]);
    }
  }

  lemma {:induction false} TrimmedEnd(s: string)
    ensures TrimEnd(s) == "" || !IsSpace(TrimEnd(s)[|TrimEnd(s)| - 1])
    ensures |TrimEnd(s)| <= |s| && TrimEnd(s) == s[..|TrimEnd(s)|]
  {
    if s != "" && IsSpace(s[|s| - 1]) {
      TrimmedEnd(s[..|s| - 1]);
    }
  }

  lemma ScannedIsWellFormed(text: string)
    requires Scan(text).Some?
    ensures WellFormed(Scan(text).value.0) && IsUnit(Scan(text).value.1)
  {
    var (sign, s1) := ScanSign(SkipSpaces(text));
    var (whole, s2) := ScanDigits(s1);
    var (separator, fraction, s3) := ScanFraction(s2);
    var (suffix, s4) := ScanSuffix(s3);
    SkippedSpaces(s4);
    TrimmedEnd(SkipSpaces(s4));
  }

  /**
   Stepping a text: the result reads back as a number in the same unit that is exactly the old one plus the step, with
   the exponent suffix kept and at least as many decimals as were written.
   */
  lemma StepQuantityTextIsExact(text: string, direction: int, step: Option<Decimal>, multiplier: Decimal)
    requires Scan(text).Some?
    ensures var (w, unit) := Scan(text).value;
            var result := StepQuantityText(text, direction, step, multiplier);
            && result.Some? && Scan(result.value).Some?
            && var (r, u) := Scan(result.value).value;
               && u == unit && r == Step(w, direction, step, multiplier)
               && Same(Number(r), PlusTimes(Number(w), direction, Delta(w, step, multiplier)))
               && r.suffix == w.suffix && |w.fraction| <= |r.fraction|
               && (r.separator == Some(',') ==> w.separator == Some(','))
               && (r.separator == Some('.') ==> w.separator != Some(','))
  {
    ScannedIsWellFormed(text);
    var (w, unit) := Scan(text).value;
    var r := Step(w, direction, step, multiplier);
    ScanQuantityText(r, unit);
    StepIsExact(w, direction, Delta(w, step, multiplier));
  }

  /** A step of whole multiples of the last written digit shows no further decimals. */
  lemma DefaultStepKeepsDecimals(w: Written, direction: int, multiplier: int)
    ensures |StepNumber(w, direction, Delta(w, None, Decimal(multiplier, 0))).fraction| == |w.fraction|
  {
    var d := Decimal(multiplier, -|w.fraction|);
    assert Delta(w, None, Decimal(multiplier, 0)) == Decimal(multiplier, ExponentOf(w) - |w.fraction|);
    if multiplier != 0 {
      NormalIsSame(d, d.exp);
    }
  }

  // ---- A boundary value in the same notation ----

  /** A boundary in the written unit and precision, with as many more decimals as it needs itself. */
  function RenderBoundary(w: Written, value: Decimal): Written {
    var places := PlacesFor(w, Decimal(1, Normal(value).exp));
    Render(w, FixedPoint(Decimal(value.coef, value.exp - ExponentOf(w)), places), places)
  }

  /** It denotes exactly the boundary: rounding it could land outside of a safety limit. */
  lemma BoundaryIsExact(w: Written, value: Decimal)
    ensures Same(Number(RenderBoundary(w, value)), value)
    ensures |w.fraction| <= |RenderBoundary(w, value).fraction| && RenderBoundary(w, value).suffix == w.suffix
  {
    hide Same, FixedPoint;
    var expo := ExponentOf(w);
    var quantum, shown := Decimal(1, Normal(value).exp), Decimal(value.coef, value.exp - expo);
    var places := PlacesFor(w, quantum);
    if value.coef != 0 {
      NormalShifted(value, -expo);
    }
    FixedPointIsExact(shown, places);
    SameShifted(Decimal(FixedPoint(shown, places), -places), shown, expo);
  }

  lemma FixedPointIsExact(shown: Decimal, places: int)
    requires 0 <= places && (shown.coef != 0 ==> -places <= Normal(shown).exp)
    ensures Same(Decimal(FixedPoint(shown, places), -places), shown)
  {
    hide Normal, RoundedQuotient;
    assert Ten(0) == 1;
    if shown.exp < -places {
      var share := StepInPlaces(shown, shown.exp, places);
      ExactQuotient(share, Ten(-places - shown.exp));
      assert shown.coef == share * Ten(-places - shown.exp);
      assert FixedPoint(shown, places) == share;
    } else {
      assert FixedPoint(shown, places) == At(shown, -places);
    }
  }

  // ---- Up and down again ----

  lemma AtPlusTimes(a: Decimal, m: int, d: Decimal, e: int)
    requires e <= a.exp && e <= d.exp
    ensures At(PlusTimes(a, m, d), e) == At(a, e) + m * At(d, e)
  {
    var top := Min(a.exp, d.exp);
    Rescale(a, e, top);
    Rescale(d, e, top);
    Distribute(At(a, top), m, At(d, top), Ten(top - e));
  }

  /** Two steps of the same amount add up. */
  lemma StepsAdd(a: Decimal, m: int, b: Decimal, k: int, d: Decimal)
    requires Same(b, PlusTimes(a, m, d))
    ensures Same(PlusTimes(b, k, d), PlusTimes(a, m + k, d))
  {
    var e := Min(a.exp, Min(b.exp, d.exp));
    AtPlusTimes(a, m, d, e);
    AtPlusTimes(b, k, d, e);
    AtPlusTimes(a, m + k, d, e);
    SameAt(b, PlusTimes(a, m, d), e);
    SameAt(PlusTimes(b, k, d), PlusTimes(a, m + k, d), e);
    assert (m + k) * At(d, e) == m * At(d, e) + k * At(d, e);
  }

  /** A whole number, whatever zeros it is written with. */
  predicate Integral(m: Decimal) {
    Normal(m).exp >= 0
  }

  /** With an explicit step, or a whole multiple of the last digit, the next step is of the same amount. */
  lemma SameAmountNext(w: Written, direction: int, step: Option<Decimal>, multiplier: Decimal)
    requires step.Some? || Integral(multiplier)
    ensures Delta(Step(w, direction, step, multiplier), step, multiplier) == Delta(w, step, multiplier)
  {
    if step.None? {
      var delta := Delta(w, step, multiplier);
      assert delta == Decimal(multiplier.coef, multiplier.exp + ExponentOf(w) - |w.fraction|);
      if multiplier.coef != 0 {
        NormalShifted(multiplier, -|w.fraction|);
      }
      assert PlacesFor(w, delta) == |w.fraction|;
    }
  }

  lemma NoStep(a: Decimal, d: Decimal)
    ensures Same(a, PlusTimes(a, 0, d)) && Same(PlusTimes(a, 0, d), a)
  {
    var e := Min(a.exp, d.exp);
    AtPlusTimes(a, 0, d, e);
    SameAt(a, PlusTimes(a, 0, d), e);
    SameAt(PlusTimes(a, 0, d), a, e);
  }

  function Steps(w: Written, direction: int, n: nat, step: Option<Decimal>, multiplier: Decimal): Written {
    if n == 0 then w else Step(Steps(w, direction, n - 1, step, multiplier), direction, step, multiplier)
  }

  /** n steps of the same amount. */
  lemma {:induction false} ManySteps(w: Written, direction: int, n: nat, step: Option<Decimal>, multiplier: Decimal)
    requires step.Some? || Integral(multiplier)
    ensures var r := Steps(w, direction, n, step, multiplier);
            && Delta(r, step, multiplier) == Delta(w, step, multiplier)
            && Same(Number(r), PlusTimes(Number(w), direction * n, Delta(w, step, multiplier)))
  {
    hide Same, PlusTimes, Number, Delta, StepNumber, Integral;
    var delta := Delta(w, step, multiplier);
    if n == 0 {
      NoStep(Number(w), delta);
      assert direction * n == 0;
    } else {
      ManySteps(w, direction, n - 1, step, multiplier);
      var before := Steps(w, direction, n - 1, step, multiplier);
      SameAmountNext(before, direction, step, multiplier);
      StepIsExact(before, direction, delta);
      StepsAdd(Number(w), direction * (n - 1), Number(before), direction, delta);
      assert direction * (n - 1) + direction == direction * n;
      SameTransitive(Number(Steps(w, direction, n, step, multiplier)), PlusTimes(Number(before), direction, delta),
                     PlusTimes(Number(w), direction * n, delta));
    }
  }

  /** Any number of steps up, and as many down again, restore the number. */
  lemma UpAndDownRestores(w: Written, n: nat, step: Option<Decimal>, multiplier: Decimal)
    requires step.Some? || Integral(multiplier)
    ensures Same(Number(Steps(Steps(w, 1, n, step, multiplier), -1, n, step, multiplier)), Number(w))
  {
    hide Same, PlusTimes, Number, Delta, Steps, Integral;
    var delta := Delta(w, step, multiplier);
    var up := Steps(w, 1, n, step, multiplier);
    var down := Steps(up, -1, n, step, multiplier);
    ManySteps(w, 1, n, step, multiplier);
    ManySteps(up, -1, n, step, multiplier);
    StepsAdd(Number(w), 1 * n, Number(up), -1 * n, delta);
    assert 1 * n + -1 * n == 0;
    SameTransitive(Number(down), PlusTimes(Number(up), -1 * n, delta), PlusTimes(Number(w), 0, delta));
    NoStep(Number(w), delta);
    SameTransitive(Number(down), PlusTimes(Number(w), 0, delta), Number(w));
  }

  /** Finer by some decimals, the same amount of digits is a different number. */
  lemma FinerIsDifferent(coef: int, exp: int, finer: nat)
    requires coef != 0 && finer > 0
    ensures !Same(Decimal(coef, exp), Decimal(coef, exp - finer))
  {
    assert Ten(finer) >= 10;
    if coef * Ten(finer) == coef * 1 {
      CancelCoefficient(coef, Ten(finer), 1);
    }
  }

  lemma CancelCoefficient(c: int, a: int, b: int)
    requires c != 0 && c * a == c * b
    ensures a == b
  {
    assert c * (a - b) == 0;
  }

  /** Up by one amount and down by another restores the number only if the amounts are the same. */
  lemma DifferentAmounts(a: Decimal, up: Decimal, down: Decimal, d1: Decimal, d2: Decimal)
    requires Same(up, PlusTimes(a, 1, d1)) && Same(down, PlusTimes(up, -1, d2)) && Same(down, a)
    ensures Same(d1, d2)
  {
    var e := Min(Min(a.exp, Min(up.exp, down.exp)), Min(d1.exp, d2.exp));
    AtPlusTimes(a, 1, d1, e);
    AtPlusTimes(up, -1, d2, e);
    SameAt(up, PlusTimes(a, 1, d1), e);
    SameAt(down, PlusTimes(up, -1, d2), e);
    SameAt(down, a, e);
    SameAt(d1, d2, e);
  }

  /**
   With the last written digit as the step, one step up and one down restore the number exactly when the multiplier is
   whole: a fractional one adds decimals, and the step down is then of the finer last digit.
   */
  lemma OneUpOneDownIff(w: Written, multiplier: Decimal)
    ensures Same(Number(Step(Step(w, 1, None, multiplier), -1, None, multiplier)), Number(w)) <==> Integral(multiplier)
  {
    var up := Step(w, 1, None, multiplier);
    var down := Step(up, -1, None, multiplier);
    if Integral(multiplier) {
      UpAndDownRestores(w, 1, None, multiplier);
      assert Steps(w, 1, 1, None, multiplier) == up && Steps(up, -1, 1, None, multiplier) == down;
    } else {
      StepIsExact(w, 1, Delta(w, None, multiplier));
      StepIsExact(up, -1, Delta(up, None, multiplier));
      FractionalMultiplierAddsDecimals(w, multiplier);
      if Same(Number(down), Number(w)) {
        DifferentAmounts(Number(w), Number(up), Number(down), Delta(w, None, multiplier), Delta(up, None, multiplier));
        assert false;
      }
    }
  }

  lemma FractionalMultiplierAddsDecimals(w: Written, multiplier: Decimal)
    requires !Integral(multiplier)
    ensures !Same(Delta(w, None, multiplier), Delta(Step(w, 1, None, multiplier), None, multiplier))
  {
    var delta := Delta(w, None, multiplier);
    assert delta == Decimal(multiplier.coef, multiplier.exp + ExponentOf(w) - |w.fraction|);
    NormalShifted(multiplier, -|w.fraction|);
    var more := -Normal(multiplier).exp;
    assert PlacesFor(w, delta) == |w.fraction| + more;
    FinerIsDifferent(delta.coef, delta.exp, more);
  }
}
