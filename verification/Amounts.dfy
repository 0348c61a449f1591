/**
 * Payment amounts as decimal strings (src/common/utils/amount.util.ts).
 *
 * The code scales both operands to integers and never leaves integer arithmetic; the
 * theorems relate the strings it returns to the rational numbers they denote.
 */
module Amounts {
  import opened Wrappers
  import opened Text

  // ---------- the grammar ----------

  /** `^(?:0|[1-9]\d*)(?:\.\d+)?$`, read off the regular expression. */
  predicate Grammatical(v: string) {
    IsPlainNumeral(v) || exists k | 0 <= k < |v| :: PointAt(v, k)
  }

  predicate PointAt(v: string, k: nat)
    requires k < |v|
  {
    v[k] == '.' && IsPlainNumeral(v[..k]) && v[k + 1..] != "" && AllDigits(v[k + 1..])
  }

  function IntPart(v: string): string {
    Split(v, ".")[0]
  }

  function FracPart(v: string): string {
    var parts := Split(v, ".");
    if |parts| > 1 then parts[1] else ""
  }

  /** A grammatical string is its integer part, or both parts around one point. */
  lemma Parts(v: string)
    requires Grammatical(v)
    ensures IsPlainNumeral(IntPart(v)) && AllDigits(IntPart(v)) && AllDigits(FracPart(v))
    ensures v == if FracPart(v) == "" then IntPart(v) else IntPart(v) + "." + FracPart(v)
    ensures Split(v, ".") == if FracPart(v) == "" then [IntPart(v)] else [IntPart(v), FracPart(v)]
    ensures IndexOf(v, ".") == if FracPart(v) == "" then -1 else |IntPart(v)|
  {
    if IsPlainNumeral(v) {
      SplitWithout(v, ".");
    } else {
      var k :| 0 <= k < |v| && PointAt(v, k);
      assert v == v[..k] + "." + v[k + 1..];
      PartsOf(v[..k], v[k + 1..]);
    }
  }

  /** Writing the two parts around a point is undone by splitting at it. */
  lemma {:induction false} PartsOf(i: string, f: string)
    requires IsPlainNumeral(i) && AllDigits(f) && f != ""
    ensures Grammatical(i + "." + f)
    ensures Split(i + "." + f, ".") == [i, f] && IntPart(i + "." + f) == i && FracPart(i + "." + f) == f
    ensures IndexOf(i + "." + f, ".") == |i|
  {
    var v := i + "." + f;
    assert v[|i|] == '.' && v[..|i|] == i && v[|i| + 1..] == f;
    assert PointAt(v, |i|);
    SplitFirst(i, ".", f);
    SplitWithout(f, ".");
  }

  lemma PartsOfInteger(i: string)
    requires IsPlainNumeral(i)
    ensures Grammatical(i) && IntPart(i) == i && FracPart(i) == "" && DecimalPlaces(i) == 0
  {
    SplitWithout(i, ".");
  }

  // ---------- the code ----------

  datatype Currency = USDC | EURC | XLM

  function CurrencyMaxPrecision(c: Currency): nat {
    match c
    case USDC => 7
    case EURC => 7
    case XLM => 7
  }

  predicate AllZeros(s: string) {
    forall k | 0 <= k < |s| :: s[k] == '0'
  }

  predicate IsValidDecimalString(v: string) {
    Grammatical(v) &&
    var parts := Split(v, ".");
    var isIntZero := parts[0] == "0";
    var isFracAllZeros := |parts| > 1 && parts[1] != "" && AllZeros(parts[1]);
    !(isIntZero && (|parts| == 1 || isFracAllZeros))
  }

  predicate CheckPrecision(v: string, maxDecimals: nat) {
    var dot := IndexOf(v, ".");
    dot == -1 || |v| - dot - 1 <= maxDecimals
  }

  predicate IsValidPaymentAmount(v: string, c: Currency) {
    IsValidDecimalString(v) && CheckPrecision(v, CurrencyMaxPrecision(c))
  }

  function DecimalPlaces(v: string): nat {
    var dot := IndexOf(v, ".");
    if dot == -1 then 0 else |v| - dot - 1
  }

  /** `scale`: the fraction is padded, then cut, to `precision` digits. */
  function Scale(v: string, precision: nat): nat
    requires Grammatical(v)
  {
    Parts(v);
    Numeral(IntPart(v) + PaddedFrac(v, precision))
  }

  function PaddedFrac(v: string, precision: nat): (f: string)
    requires Grammatical(v)
    ensures |f| == precision && AllDigits(f)
  {
    Parts(v);
    PadEnd(FracPart(v), precision, '0')[..precision]
  }

  /** `s.replace(/0+$/, '')`. */
  function TrimZeros(s: string): string {
    if s != "" && s[|s| - 1] == '0' then TrimZeros(s[..|s| - 1]) else s
  }

  /** BigInt `/` and `%` on non-negative operands, by repeated subtraction. */
  function Div(n: nat, d: nat): nat
    requires d > 0
  {
    if n < d then 0 else 1 + Div(n - d, d)
  }

  function Mod(n: nat, d: nat): nat
    requires d > 0
  {
    if n < d then n else Mod(n - d, d)
  }

  lemma {:induction false} DivMod(n: nat, d: nat)
    requires d > 0
    ensures Div(n, d) * d + Mod(n, d) == n && Mod(n, d) < d
  {
    if n >= d {
      DivMod(n - d, d);
    }
  }

  function DescaleAndNormalize(scaled: nat, precision: nat): string {
    if precision == 0 then Print(scaled)
    else
      var divisor := Pow10(precision);
      var intPart := Print(Div(scaled, divisor));
      var trimmed := TrimZeros(PadStart(Print(Mod(scaled, divisor)), precision, '0'));
      if |trimmed| > 0 then intPart + "." + trimmed else intPart
  }

  datatype Operand = A | B

  function Max(m: nat, n: nat): nat {
    if m < n then n else m
  }

  /** `addDecimalStrings`; the error names the operand the grammar rejects. */
  function AddDecimalStrings(a: string, b: string): Result<string, Operand> {
    if !Grammatical(a) then Err(A)
    else if !Grammatical(b) then Err(B)
    else
      var prec := Max(DecimalPlaces(a), DecimalPlaces(b));
      Ok(DescaleAndNormalize(Scale(a, prec) + Scale(b, prec), prec))
  }

  /** `compareDecimalStrings`. */
  function CompareDecimalStrings(a: string, b: string): Result<int, Operand> {
    if !Grammatical(a) then Err(A)
    else if !Grammatical(b) then Err(B)
    else
      var prec := Max(DecimalPlaces(a), DecimalPlaces(b));
      var scaledA, scaledB := Scale(a, prec), Scale(b, prec);
      Ok(if scaledA < scaledB then -1 else if scaledA > scaledB then 1 else 0)
  }

  // ---------- what the strings denote ----------

  /** x * 10^n and x / 10^n, one factor of ten at a time. */
  ghost function TimesTen(x: real, n: nat): real {
    if n == 0 then x else TimesTen(x, n - 1) * 10.0
  }

  ghost function OverTen(x: real, n: nat): real {
    if n == 0 then x else OverTen(x, n - 1) / 10.0
  }

  /** The rational number a grammatical string denotes: its digits, over ten once for each fraction digit. */
  ghost function Value(v: string): real
    requires Grammatical(v)
  {
    Parts(v);
    OverTen(Numeral(IntPart(v) + FracPart(v)) as real, |FracPart(v)|)
  }

  /** The canonical spelling: grammatical, and no trailing zero after a point. */
  predicate IsNormal(v: string) {
    Grammatical(v) && (IndexOf(v, ".") == -1 || v[|v| - 1] != '0')
  }

  lemma PlacesAreFraction(v: string)
    requires Grammatical(v)
    ensures DecimalPlaces(v) == |FracPart(v)|
  {
    Parts(v);
  }

  lemma {:induction false} TimesTenOrder(x: real, y: real, n: nat)
    ensures TimesTen(x, n) < TimesTen(y, n) <==> x < y
    ensures TimesTen(x, n) == TimesTen(y, n) <==> x == y
    ensures TimesTen(x + y, n) == TimesTen(x, n) + TimesTen(y, n)
  {
    if n > 0 {
      TimesTenOrder(x, y, n - 1);
    }
  }

  lemma {:induction false} TimesTenOverTen(x: real, n: nat, more: nat)
    ensures TimesTen(OverTen(x, n), n + more) == TimesTen(x, more)
  {
    if n > 0 {
      TimesTenOverTen(x, n - 1, more + 1);
      TimesTenInside(OverTen(x, n - 1) / 10.0, n - 1 + more);
      TimesTenInside(x, more);
    }
  }

  lemma {:induction false} TimesTenInside(x: real, n: nat)
    ensures TimesTen(x * 10.0, n) == TimesTen(x, n) * 10.0
  {
    if n > 0 {
      TimesTenInside(x, n - 1);
    }
  }

  lemma {:induction false} TrailingZeros(s: string, n: nat)
    requires AllDigits(s)
    ensures AllDigits(s + Repeat('0', n)) && Numeral(s + Repeat('0', n)) as real == TimesTen(Numeral(s) as real, n)
  {
    var t := s + Repeat('0', n);
    if n == 0 {
      assert t == s;
    } else {
      TrailingZeros(s, n - 1);
      assert t[..|t| - 1] == s + Repeat('0', n - 1);
    }
  }

  /** Scaling to at least as many places as the string has loses nothing: it is Value(v) * 10^p. */
  lemma ScaleIsExact(v: string, p: nat)
    requires Grammatical(v) && p >= DecimalPlaces(v)
    ensures Scale(v, p) as real == TimesTen(Value(v), p)
  {
    PaddedDigits(v, p);
    var digits, places := IntPart(v) + FracPart(v), |FracPart(v)|;
    TrailingZeros(digits, p - places);
    TimesTenOverTen(Numeral(digits) as real, places, p - places);
  }

  lemma PaddedDigits(v: string, p: nat)
    requires Grammatical(v) && p >= DecimalPlaces(v)
    ensures AllDigits(IntPart(v) + FracPart(v)) && |FracPart(v)| <= p
    ensures IntPart(v) + PaddedFrac(v, p) == IntPart(v) + FracPart(v) + Repeat('0', p - |FracPart(v)|)
  {
    Parts(v);
    PlacesAreFraction(v);
    assert PaddedFrac(v, p) == FracPart(v) + Repeat('0', p - |FracPart(v)|);
  }

  /** Trimming only removes a block of zeros at the end. */
  lemma {:induction false} TrimSplits(s: string)
    ensures |TrimZeros(s)| <= |s| && s == TrimZeros(s) + Repeat('0', |s| - |TrimZeros(s)|)
    ensures TrimZeros(s) == "" || TrimZeros(s)[|TrimZeros(s)| - 1] != '0'
  {
    if s != "" && s[|s| - 1] == '0' {
      var s' := s[..|s| - 1];
      TrimSplits(s');
      assert s == s' + "0";
    }
  }

  /** Descaling spells n * 10^-p canonically, in at most p places. */
  lemma DescaleIsNormal(n: nat, p: nat)
    ensures IsNormal(DescaleAndNormalize(n, p))
    ensures DecimalPlaces(DescaleAndNormalize(n, p)) <= p
    ensures Scale(DescaleAndNormalize(n, p), p) == n
  {
    var v := DescaleAndNormalize(n, p);
    if p == 0 {
      NumeralPrint(n);
      PartsOfInteger(v);
      assert v + PadEnd("", 0, '0')[..0] == v;
    } else {
      DescaledParts(n, p);
      PlacesAreFraction(v);
      var q, r := Div(n, Pow10(p)), Mod(n, Pow10(p));
      var padded := PadStart(Print(r), p, '0');
      DivMod(n, Pow10(p));
      PadStartNumeral(r, p);
      TrimSplits(padded);
      assert PaddedFrac(v, p) == padded;
      NumeralPrint(q);
      NumeralAppend(Print(q), padded);
    }
  }

  lemma {:induction false} DescaledParts(n: nat, p: nat)
    requires p > 0
    ensures var v := DescaleAndNormalize(n, p);
      IsNormal(v) && IntPart(v) == Print(Div(n, Pow10(p)))
      && FracPart(v) == TrimZeros(PadStart(Print(Mod(n, Pow10(p))), p, '0'))
  {
    var q, r := Div(n, Pow10(p)), Mod(n, Pow10(p));
    DivMod(n, Pow10(p));
    NumeralPrint(q);
    PadStartNumeral(r, p);
    var padded := PadStart(Print(r), p, '0');
    TrimSplits(padded);
    TrimKeepsDigits(padded);
    Assemble(Print(q), TrimZeros(padded));
  }

  lemma TrimKeepsDigits(s: string)
    requires AllDigits(s)
    ensures AllDigits(TrimZeros(s))
  {
    TrimSplits(s);
    assert forall k | 0 <= k < |TrimZeros(s)| :: TrimZeros(s)[k] == s[k];
  }

  /** Joining an integer part and a trimmed fraction, as the code does, gives a canonical string with those parts. */
  lemma Assemble(i: string, f: string)
    requires IsPlainNumeral(i) && AllDigits(f) && (f == "" || f[|f| - 1] != '0')
    ensures var v := if |f| > 0 then i + "." + f else i;
      IsNormal(v) && IntPart(v) == i && FracPart(v) == f
  {
    if f == "" {
      PartsOfInteger(i);
      SplitWithout(i, ".");
    } else {
      PartsOf(i, f);
    }
  }

  /** There is only one canonical spelling of a number. */
  lemma NormalIsUnique(s: string, t: string)
    requires IsNormal(s) && IsNormal(t) && Value(s) == Value(t)
    ensures s == t
  {
    var p := Max(DecimalPlaces(s), DecimalPlaces(t));
    ScaleIsExact(s, p);
    ScaleIsExact(t, p);
    SameScaled(s, t, p);
    Parts(s);
    Parts(t);
  }

  lemma SameScaled(s: string, t: string, p: nat)
    requires IsNormal(s) && IsNormal(t) && Scale(s, p) == Scale(t, p)
    requires DecimalPlaces(s) <= p && DecimalPlaces(t) <= p
    ensures IntPart(s) == IntPart(t) && FracPart(s) == FracPart(t)
  {
    Parts(s);
    Parts(t);
    DigitSplit(IntPart(s), PaddedFrac(s, p), IntPart(t), PaddedFrac(t, p));
    Recover(s, p);
    Recover(t, p);
  }

  /** Both parts of a canonical string can be read back from its scaled digits. */
  lemma Recover(v: string, p: nat)
    requires IsNormal(v) && DecimalPlaces(v) <= p
    ensures AllDigits(IntPart(v)) && IntPart(v) == Print(Numeral(IntPart(v)))
    ensures FracPart(v) == TrimZeros(PaddedFrac(v, p))
  {
    Parts(v);
    PlacesAreFraction(v);
    PrintNumeral(IntPart(v));
    TrimOfPadded(FracPart(v), p);
  }

  lemma {:induction false} DigitSplit(i: string, f: string, j: string, g: string)
    requires AllDigits(i) && AllDigits(f) && AllDigits(j) && AllDigits(g) && |f| == |g|
    requires Numeral(i + f) == Numeral(j + g)
    ensures Numeral(i) == Numeral(j) && f == g
  {
    NumeralAppend(i, f);
    NumeralAppend(j, g);
    NumeralBound(f);
    NumeralBound(g);
    QuotientUnique(Numeral(i), Numeral(f), Numeral(j), Numeral(g), Pow10(|f|));
    NumeralInjective(f, g);
  }

  lemma QuotientUnique(q: nat, r: nat, q': nat, r': nat, d: nat)
    requires q * d + r == q' * d + r' && r < d && r' < d
    ensures q == q' && r == r'
  {
    if q < q' {
      SmallerQuotient(q, r, q', r', d);
    } else if q' < q {
      SmallerQuotient(q', r', q, r, d);
    }
  }

  lemma SmallerQuotient(q: nat, r: nat, q': nat, r': nat, d: nat)
    requires q < q' && r < d
    ensures q * d + r < q' * d + r'
  {
    MulAtLeast(q' - q, d);
    assert (q' - q) * d == q' * d - q * d;
  }

  lemma MulAtLeast(k: nat, d: nat)
    requires k > 0
    ensures k * d >= d
  {
  }

  lemma {:induction false} TrimOfPadded(f: string, p: nat)
    requires |f| <= p && (f == "" || f[|f| - 1] != '0')
    ensures TrimZeros(PadEnd(f, p, '0')[..p]) == f
    decreases p
  {
    var padded := PadEnd(f, p, '0')[..p];
    if |f| < p {
      assert padded[..p - 1] == PadEnd(f, p - 1, '0')[..p - 1];
      TrimOfPadded(f, p - 1);
    } else {
      assert padded == f;
    }
  }

  // ---------- theorems ----------

  /** Value of a string through its scaled integer, at any sufficient precision. */
  lemma ValueOrder(a: string, b: string, p: nat)
    requires Grammatical(a) && Grammatical(b) && p >= DecimalPlaces(a) && p >= DecimalPlaces(b)
    ensures Scale(a, p) < Scale(b, p) <==> Value(a) < Value(b)
    ensures Scale(a, p) == Scale(b, p) <==> Value(a) == Value(b)
  {
    ScaleIsExact(a, p);
    ScaleIsExact(b, p);
    TimesTenOrder(Value(a), Value(b), p);
  }

  /** Addition returns the canonical spelling of the rational sum, and rejects exactly the ungrammatical operands. */
  lemma AdditionIsExact(a: string, b: string)
    ensures AddDecimalStrings(a, b).Ok? <==> Grammatical(a) && Grammatical(b)
    ensures AddDecimalStrings(a, b) == Err(A) <==> !Grammatical(a)
    ensures AddDecimalStrings(a, b) == Err(B) <==> Grammatical(a) && !Grammatical(b)
    ensures AddDecimalStrings(a, b).Ok? ==>
      var s := AddDecimalStrings(a, b).value;
      IsNormal(s) && Value(s) == Value(a) + Value(b)
  {
    AdditionErrors(a, b);
    if Grammatical(a) && Grammatical(b) {
      var p := Max(DecimalPlaces(a), DecimalPlaces(b));
      AdditionAtScale(a, b);
      SumIsExact(a, b, p);
    }
  }

  lemma AdditionErrors(a: string, b: string)
    ensures AddDecimalStrings(a, b).Ok? <==> Grammatical(a) && Grammatical(b)
    ensures AddDecimalStrings(a, b) == Err(A) <==> !Grammatical(a)
    ensures AddDecimalStrings(a, b) == Err(B) <==> Grammatical(a) && !Grammatical(b)
  {
  }

  lemma AdditionAtScale(a: string, b: string)
    requires Grammatical(a) && Grammatical(b)
    ensures var p := Max(DecimalPlaces(a), DecimalPlaces(b));
      AddDecimalStrings(a, b) == Ok(DescaleAndNormalize(Scale(a, p) + Scale(b, p), p))
  {
  }

  lemma SumIsExact(a: string, b: string, p: nat)
    requires Grammatical(a) && Grammatical(b) && p >= DecimalPlaces(a) && p >= DecimalPlaces(b)
    ensures var s := DescaleAndNormalize(Scale(a, p) + Scale(b, p), p);
      IsNormal(s) && Value(s) == Value(a) + Value(b)
  {
    var sum := Scale(a, p) + Scale(b, p);
    var s := DescaleAndNormalize(sum, p);
    ScaleIsExact(a, p);
    ScaleIsExact(b, p);
    DescaleIsNormal(sum, p);
    ScaleIsExact(s, p);
    SumScaled(Value(a), Value(b), Value(s), p);
  }

  lemma SumScaled(x: real, y: real, z: real, p: nat)
    requires TimesTen(z, p) == TimesTen(x, p) + TimesTen(y, p)
    ensures z == x + y
  {
    TimesTenOrder(x, y, p);
    TimesTenOrder(z, x + y, p);
  }

  lemma AdditionCommutes(a: string, b: string)
    requires Grammatical(a) && Grammatical(b)
    ensures AddDecimalStrings(a, b) == AddDecimalStrings(b, a)
  {
    AdditionIsExact(a, b);
    AdditionIsExact(b, a);
    NormalIsUnique(AddDecimalStrings(a, b).value, AddDecimalStrings(b, a).value);
  }

  lemma AdditionAssociates(a: string, b: string, c: string)
    requires Grammatical(a) && Grammatical(b) && Grammatical(c)
    ensures AddDecimalStrings(a, b).Ok? && AddDecimalStrings(b, c).Ok?
    ensures AddDecimalStrings(AddDecimalStrings(a, b).value, c) == AddDecimalStrings(a, AddDecimalStrings(b, c).value)
    ensures AddDecimalStrings(a, AddDecimalStrings(b, c).value).Ok?
  {
    AdditionIsExact(a, b);
    AdditionIsExact(b, c);
    var ab, bc := AddDecimalStrings(a, b).value, AddDecimalStrings(b, c).value;
    AdditionIsExact(ab, c);
    AdditionIsExact(a, bc);
    NormalIsUnique(AddDecimalStrings(ab, c).value, AddDecimalStrings(a, bc).value);
  }

  /** The canonical spelling of a grammatical string's value. */
  function NormalForm(v: string): string
    requires Grammatical(v)
  {
    DescaleAndNormalize(Scale(v, DecimalPlaces(v)), DecimalPlaces(v))
  }

  /** Scaling at any sufficient precision and descaling back gives the canonical spelling of the same number. */
  lemma ScaleThenDescale(v: string, p: nat)
    requires Grammatical(v) && p >= DecimalPlaces(v)
    ensures DescaleAndNormalize(Scale(v, p), p) == NormalForm(v)
    ensures IsNormal(NormalForm(v)) && Value(NormalForm(v)) == Value(v)
  {
    NormalFormAt(v, p);
    NormalFormAt(v, DecimalPlaces(v));
    NormalIsUnique(DescaleAndNormalize(Scale(v, p), p), NormalForm(v));
  }

  lemma NormalFormAt(v: string, p: nat)
    requires Grammatical(v) && p >= DecimalPlaces(v)
    ensures var s := DescaleAndNormalize(Scale(v, p), p); IsNormal(s) && Value(s) == Value(v)
  {
    var s := DescaleAndNormalize(Scale(v, p), p);
    DescaleIsNormal(Scale(v, p), p);
    ScaleIsExact(s, p);
    ScaleIsExact(v, p);
    TimesTenOrder(Value(s), Value(v), p);
  }

  lemma ComparisonErrors(a: string, b: string)
    ensures CompareDecimalStrings(a, b).Err? <==> !Grammatical(a) || !Grammatical(b)
  {
  }

  /** Comparison is the order of the rationals, and 0 exactly when the canonical spellings coincide. */
  lemma ComparisonIsRationalOrder(a: string, b: string)
    requires Grammatical(a) && Grammatical(b)
    ensures CompareDecimalStrings(a, b).Ok?
    ensures CompareDecimalStrings(a, b).value == -1 <==> Value(a) < Value(b)
    ensures CompareDecimalStrings(a, b).value == 1 <==> Value(a) > Value(b)
    ensures CompareDecimalStrings(a, b).value == 0 <==> Value(a) == Value(b)
    ensures CompareDecimalStrings(a, b).value == 0 <==> NormalForm(a) == NormalForm(b)
  {
    ValueOrder(a, b, Max(DecimalPlaces(a), DecimalPlaces(b)));
    ScaleThenDescale(a, DecimalPlaces(a));
    ScaleThenDescale(b, DecimalPlaces(b));
    if Value(a) == Value(b) {
      NormalIsUnique(NormalForm(a), NormalForm(b));
    }
  }

  /** Adding one amount to both sides never changes how they compare. */
  lemma AdditionPreservesComparison(a: string, b: string, c: string)
    requires Grammatical(a) && Grammatical(b) && Grammatical(c)
    ensures AddDecimalStrings(a, c).Ok? && AddDecimalStrings(b, c).Ok?
    ensures CompareDecimalStrings(AddDecimalStrings(a, c).value, AddDecimalStrings(b, c).value) == CompareDecimalStrings(a, b)
  {
    AdditionIsExact(a, c);
    AdditionIsExact(b, c);
    ComparisonIsRationalOrder(a, b);
    ComparisonIsRationalOrder(AddDecimalStrings(a, c).value, AddDecimalStrings(b, c).value);
  }

  /** The validator accepts exactly the grammatical strings that denote a positive whole number of 10^-7 units in at most 7 places. */
  lemma ValidAmountsAreUnits(v: string, c: Currency)
    ensures IsValidPaymentAmount(v, c) <==>
      Grammatical(v) && DecimalPlaces(v) <= 7 && Scale(v, 7) > 0 && Scale(v, 7) as real == Value(v) * 10000000.0
  {
    if Grammatical(v) && DecimalPlaces(v) <= 7 {
      ScaleIsExact(v, 7);
      SevenTens(Value(v));
      ZeroAmount(v, 7);
    }
  }

  lemma SevenTens(x: real)
    ensures TimesTen(x, 7) == x * 10000000.0
  {
    assert TimesTen(x, 1) == x * 10.0;
    assert TimesTen(x, 3) == TimesTen(x, 2) * 10.0 == x * 1000.0;
    assert TimesTen(x, 5) == TimesTen(x, 4) * 10.0 == x * 100000.0;
  }

  /** The zero test on the split parts finds exactly the strings whose scaled value is zero. */
  lemma ZeroAmount(v: string, p: nat)
    requires Grammatical(v) && DecimalPlaces(v) <= p
    ensures IsValidDecimalString(v) <==> Scale(v, p) > 0
  {
    Parts(v);
    PlacesAreFraction(v);
    ZeroDigits(IntPart(v) + PaddedFrac(v, p));
    ZeroPadded(IntPart(v), FracPart(v), p);
    ZeroTest(v);
  }

  lemma ZeroTest(v: string)
    requires Grammatical(v)
    ensures IsValidDecimalString(v) <==> !(IntPart(v) == "0" && AllZeros(FracPart(v)))
  {
    Parts(v);
  }

  lemma ZeroPadded(i: string, f: string, p: nat)
    requires IsPlainNumeral(i) && |f| <= p
    ensures AllZeros(i + PadEnd(f, p, '0')[..p]) <==> i == "0" && AllZeros(f)
  {
    var padded := PadEnd(f, p, '0')[..p];
    assert (i + padded)[0] == i[0];
    assert forall k | 0 <= k < |f| :: f[k] == padded[k] == (i + padded)[k + |i|];
    assert forall k | |f| <= k < p :: padded[k] == '0';
  }

  lemma {:induction false} ZeroDigits(s: string)
    requires AllDigits(s)
    ensures Numeral(s) == 0 <==> AllZeros(s)
  {
    if s != "" {
      var s' := s[..|s| - 1];
      ZeroDigits(s');
      assert forall k | 0 <= k < |s'| :: s[k] == s'[k];
    }
  }
}
