/** The string operations the gateway uses: indexOf, split, join, padding, and decimal numerals. */
module Text {

  // ---------- searching and splitting ----------

  predicate OccursAt(s: string, sub: string, i: nat) {
    i + |sub| <= |s| && s[i..i + |sub|] == sub
  }

  /** `s.indexOf(sub)`: the first position at which `sub` occurs, or -1. */
  function IndexOf(s: string, sub: string): (r: int)
    requires sub != ""
    ensures -1 <= r && r + |sub| <= |s| + (if r < 0 then |sub| else 0)
    ensures r >= 0 ==> OccursAt(s, sub, r)
  {
    if |s| < |sub| then -1
    else if s[..|sub|] == sub then 0
    else
      var r := IndexOf(s[1..], sub);
      if r < 0 then -1 else assert s[r + 1..r + 1 + |sub|] == s[1..][r..r + |sub|]; r + 1
  }

  /** `indexOf` misses no occurrence and skips none. */
  lemma {:induction false} IndexOfIsFirst(s: string, sub: string, j: nat)
    requires sub != "" && OccursAt(s, sub, j)
    ensures 0 <= IndexOf(s, sub) <= j
  {
    if s[..|sub|] != sub {
      assert s[0..|sub|] == s[..|sub|];
      SliceOfTail(s, j, |sub|);
      IndexOfIsFirst(s[1..], sub, j - 1);
    }
  }

  lemma SliceOfTail(s: string, j: nat, n: nat)
    requires 1 <= j && j + n <= |s|
    ensures s[1..][j - 1..j - 1 + n] == s[j..j + n]
  {
  }

  /** `s.split(sep)`. */
  function Split(s: string, sep: string): (parts: seq<string>)
    requires sep != ""
    ensures parts != []
    decreases |s|
  {
    var i := IndexOf(s, sep);
    if i < 0 then [s] else [s[..i]] + Split(s[i + |sep|..], sep)
  }

  /** `parts.join(sep)`. */
  function Join(parts: seq<string>, sep: string): string {
    if parts == [] then "" else if |parts| == 1 then parts[0] else parts[0] + sep + Join(parts[1..], sep)
  }

  lemma SplitWithout(s: string, sep: string)
    requires sep != "" && sep[0] !in s
    ensures IndexOf(s, sep) == -1 && Split(s, sep) == [s]
  {
    assert forall i: nat | OccursAt(s, sep, i) :: sep[0] == s[i..i + |sep|][0] == s[i];
  }

  /** A piece free of the separator's first character is exactly what split cuts off first. */
  lemma SplitFirst(a: string, sep: string, b: string)
    requires sep != "" && sep[0] !in a
    ensures IndexOf(a + sep + b, sep) == |a|
    ensures Split(a + sep + b, sep) == [a] + Split(b, sep)
  {
    var s := a + sep + b;
    IndexOfIsFirst(s, sep, |a|);
    assert forall i: nat | OccursAt(s, sep, i) :: sep[0] == s[i..i + |sep|][0] == s[i];
    assert s[..|a|] == a && s[|a| + |sep|..] == b;
  }

  /** Splitting undoes joining when no piece contains the separator's first character. */
  lemma {:induction false} SplitJoin(parts: seq<string>, sep: string)
    requires parts != [] && sep != ""
    requires forall i | 0 <= i < |parts| :: sep[0] !in parts[i]
    ensures Split(Join(parts, sep), sep) == parts
  {
    if |parts| == 1 {
      SplitWithout(parts[0], sep);
    } else {
      SplitJoin(parts[1..], sep);
      SplitFirst(parts[0], sep, Join(parts[1..], sep));
      assert Split(Join(parts, sep), sep) == [parts[0]] + parts[1..];
    }
  }

  // ---------- padding ----------

  function Repeat(c: char, n: nat): (s: string)
    ensures |s| == n && forall i | 0 <= i < n :: s[i] == c
  {
    seq(n, _ => c)
  }

  function PadStart(s: string, n: nat, c: char): string {
    if |s| < n then Repeat(c, n - |s|) + s else s
  }

  function PadEnd(s: string, n: nat, c: char): string {
    if |s| < n then s + Repeat(c, n - |s|) else s
  }

  // ---------- decimal numerals ----------

  predicate IsDigit(c: char) {
    '0' <= c <= '9'
  }

  predicate AllDigits(s: string) {
    forall i | 0 <= i < |s| :: IsDigit(s[i])
  }

  function Digit(d: nat): (c: char)
    requires d < 10
    ensures IsDigit(c) && DigitValue(c) == d
  {
    '0' + d as char
  }

  function DigitValue(c: char): (d: nat)
    requires IsDigit(c)
    ensures d < 10
  {
    c as int - '0' as int
  }

  function Pow10(n: nat): (r: nat)
    ensures r > 0
  {
    if n == 0 then 1 else 10 * Pow10(n - 1)
  }

  /** `BigInt(s)` on a string of decimal digits; the empty string is 0. */
  function Numeral(s: string): nat
    requires AllDigits(s)
  {
    if s == "" then 0 else 10 * Numeral(s[..|s| - 1]) + DigitValue(s[|s| - 1])
  }

  /** `n.toString()`. */
  function Print(n: nat): (s: string)
    ensures s != "" && AllDigits(s)
  {
    if n < 10 then [Digit(n)] else Print(n / 10) + [Digit(n % 10)]
  }

  /** A numeral with no leading zero: `0|[1-9]\d*`. */
  predicate IsPlainNumeral(s: string) {
    s == "0" || (s != "" && '1' <= s[0] <= '9' && AllDigits(s))
  }

  lemma Pow10Adds(m: nat, n: nat)
    ensures Pow10(m + n) == Pow10(m) * Pow10(n)
  {
    if m > 0 {
      Pow10Adds(m - 1, n);
    }
  }

  lemma {:induction false} NumeralAppend(a: string, b: string)
    requires AllDigits(a) && AllDigits(b)
    ensures AllDigits(a + b)
    ensures Numeral(a + b) == Numeral(a) * Pow10(|b|) + Numeral(b)
  {
    if b == "" {
      assert a + b == a;
    } else {
      var b', d := b[..|b| - 1], DigitValue(b[|b| - 1]);
      NumeralAppend(a, b');
      assert (a + b)[..|a + b| - 1] == a + b' && (a + b)[|a + b| - 1] == b[|b| - 1];
      TenTimes(Numeral(a), Pow10(|b'|));
    }
  }

  lemma TenTimes(x: nat, y: nat)
    ensures 10 * (x * y) == x * (10 * y)
  {
  }

  lemma {:induction false} NumeralZeros(n: nat)
    ensures AllDigits(Repeat('0', n)) && Numeral(Repeat('0', n)) == 0
  {
    if n > 0 {
      NumeralZeros(n - 1);
      assert Repeat('0', n)[..n - 1] == Repeat('0', n - 1);
    }
  }

  lemma {:induction false} NumeralBound(s: string)
    requires AllDigits(s)
    ensures Numeral(s) < Pow10(|s|)
  {
    if s != "" {
      NumeralBound(s[..|s| - 1]);
    }
  }

  /** Two digit strings of one length with one value are the same string. */
  lemma {:induction false} NumeralInjective(s: string, t: string)
    requires AllDigits(s) && AllDigits(t) && |s| == |t| && Numeral(s) == Numeral(t)
    ensures s == t
  {
    if s != "" {
      var s', t' := s[..|s| - 1], t[..|t| - 1];
      assert s == s' + [s[|s| - 1]] && t == t' + [t[|t| - 1]];
      assert DigitValue(s[|s| - 1]) == DigitValue(t[|t| - 1]);
      NumeralInjective(s', t');
    }
  }

  lemma {:induction false} NumeralPrint(n: nat)
    ensures Numeral(Print(n)) == n && IsPlainNumeral(Print(n))
    ensures n > 0 ==> Print(n)[0] != '0'
  {
    var s := Print(n);
    if n < 10 {
      assert s[..0] == "";
    } else {
      NumeralPrint(n / 10);
      assert s[..|s| - 1] == Print(n / 10);
    }
  }

  lemma {:induction false} PrintNumeral(s: string)
    requires IsPlainNumeral(s)
    ensures Print(Numeral(s)) == s
  {
    if |s| == 1 {
      assert s[..0] == "";
    } else {
      var s' := s[..|s| - 1];
      PrintNumeral(s');
      NumeralPositive(s');
      LastDigit(Numeral(s'), DigitValue(s[|s| - 1]));
      assert s == s' + [s[|s| - 1]];
    }
  }

  lemma LastDigit(x: nat, d: nat)
    requires x > 0 && d < 10
    ensures Print(10 * x + d) == Print(x) + [Digit(d)]
  {
  }

  lemma {:induction false} NumeralPositive(s: string)
    requires AllDigits(s) && s != "" && s[0] != '0'
    ensures Numeral(s) > 0
  {
    if |s| > 1 {
      NumeralPositive(s[..|s| - 1]);
    } else {
      assert s[..0] == "";
    }
  }

  /** Zero-padding a number below 10^n to n digits keeps its value and gives exactly n digits. */
  lemma PadStartNumeral(r: nat, n: nat)
    requires r < Pow10(n) && n > 0
    ensures var s := PadStart(Print(r), n, '0'); |s| == n && AllDigits(s) && Numeral(s) == r
  {
    PrintLength(r, n);
    NumeralPrint(r);
    var zeros := Repeat('0', n - |Print(r)|);
    NumeralZeros(n - |Print(r)|);
    NumeralAppend(zeros, Print(r));
    assert zeros + Print(r) == PadStart(Print(r), n, '0');
  }

  lemma {:induction false} PrintLength(r: nat, n: nat)
    requires r < Pow10(n) && n > 0
    ensures |Print(r)| <= n
  {
    if r >= 10 {
      assert n > 1 by { assert Pow10(0) == 1 && Pow10(1) == 10; }
      PrintLength(r / 10, n - 1);
    }
  }
}
