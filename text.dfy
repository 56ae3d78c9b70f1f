/**
 * The Kotlin string predicates the screens use: `isDigit`, `isBlank`,
 * `contains(..., ignoreCase = true)`, `equals(..., ignoreCase = true)`
 * and `toDoubleOrNull` on the text that the amount fields admit.
 */
module Text {
  import opened Wrappers

  /** Decimal digit: the ASCII digits '0' to '9'. */
  predicate IsDigit(c: char) {
    '0' <= c <= '9'
  }

  /** Kotlin `Char.isWhitespace`: Java whitespace controls and the Unicode space separators. */
  predicate IsWhitespace(c: char) {
    || c == ' ' || c == '\t' || c == '\n' || c == '\r'
    || c == '\U{B}' || c == '\U{C}'
    || ('\U{1C}' <= c <= '\U{1F}')
    || c == '\U{A0}' || c == '\U{1680}'
    || ('\U{2000}' <= c <= '\U{200A}')
    || c == '\U{2028}' || c == '\U{2029}' || c == '\U{202F}' || c == '\U{205F}' || c == '\U{3000}'
  }

  /** `isBlank`: empty or whitespace only. */
  predicate IsBlank(s: string) {
    forall i | 0 <= i < |s| :: IsWhitespace(s[i])
  }

  predicate AllDigits(s: string) {
    forall i | 0 <= i < |s| :: IsDigit(s[i])
  }

  /** The amount fields' input filter: `it.all { c -> c.isDigit() || c == '.' }`. */
  predicate IsAmountText(s: string) {
    forall i | 0 <= i < |s| :: IsDigit(s[i]) || s[i] == '.'
  }

  /** Case folding of one character (ASCII letters). */
  function LowerChar(c: char): char {
    if 'A' <= c <= 'Z' then (c as int + 32) as char else c
  }

  function Lower(s: string): (r: string)
    ensures |r| == |s|
    ensures forall i | 0 <= i < |s| :: r[i] == LowerChar(s[i])
  {
    if s == [] then [] else Lower(s[..|s| - 1]) + [LowerChar(s[|s| - 1])]
  }

  /** `needle` occurs at position `i` of `hay`. */
  predicate OccursAt(hay: string, needle: string, i: int) {
    0 <= i && i + |needle| <= |hay| && hay[i..i + |needle|] == needle
  }

  /** `hay.contains(needle)`. */
  predicate Contains(hay: string, needle: string) {
    exists i | 0 <= i <= |hay| :: OccursAt(hay, needle, i)
  }

  /** `hay.contains(needle, ignoreCase = true)`. */
  predicate ContainsIgnoreCase(hay: string, needle: string) {
    Contains(Lower(hay), Lower(needle))
  }

  /** `a.equals(b, ignoreCase = true)` for a non-null `b`. */
  predicate EqualsIgnoreCase(a: string, b: string) {
    |a| == |b| && forall i | 0 <= i < |a| :: LowerChar(a[i]) == LowerChar(b[i])
  }

  lemma EqualsIgnoreCaseIsLowerEquality(a: string, b: string)
    ensures EqualsIgnoreCase(a, b) <==> Lower(a) == Lower(b)
  {
    if Lower(a) == Lower(b) {
      assert |a| == |b|;
      forall i | 0 <= i < |a| ensures LowerChar(a[i]) == LowerChar(b[i]) {
        assert Lower(a)[i] == Lower(b)[i];
      }
    }
  }

  /** Every string contains the empty string; case folding keeps that. */
  lemma ContainsReflexive(s: string)
    ensures ContainsIgnoreCase(s, s)
  {
    assert OccursAt(Lower(s), Lower(s), 0);
  }

  /** Number of '.' characters. */
  function DotCount(s: string): nat {
    multiset(s)['.']
  }

  predicate HasDigit(s: string) {
    exists i | 0 <= i < |s| :: IsDigit(s[i])
  }

  /** Value of a string of decimal digits. */
  function DigitsValue(s: string): nat
    requires AllDigits(s)
  {
    if s == [] then 0 else DigitsValue(s[..|s| - 1]) * 10 + (s[|s| - 1] as int - '0' as int)
  }

  function Pow10(n: nat): (p: nat)
    ensures p >= 1
  {
    if n == 0 then 1 else 10 * Pow10(n - 1)
  }

  /** Index of the first '.', or |s| when there is none. */
  function FirstDot(s: string): (k: nat)
    ensures k <= |s|
    ensures k < |s| ==> s[k] == '.'
    ensures forall j | 0 <= j < k :: s[j] != '.'
  {
    if s == [] then 0 else if s[0] == '.' then 0 else 1 + FirstDot(s[1..])
  }

  /**
   * `toDoubleOrNull` on amount-field text. On digits and dots the literal is
   * accepted exactly when it has at least one digit and at most one dot
   * ("12", "12.", ".5", "12.50"); the value is read exactly, without
   * binary rounding. Text outside that alphabet is not parsed.
   */
  function ParseDecimal(s: string): (r: Option<real>)
    ensures IsAmountText(s) ==> (r.Some? <==> HasDigit(s) && DotCount(s) <= 1)
    ensures !IsAmountText(s) ==> r.None?
    ensures r.Some? ==> r.value >= 0.0
  {
    if !IsAmountText(s) then None
    else
      var k := FirstDot(s);
      var whole, frac := s[..k], if k < |s| then s[k + 1..] else [];
      DotSplit(s, k);
      if AllDigits(frac) && |whole| + |frac| > 0 then
        Some(DecimalValue(whole, frac))
      else None
  }

  /** The value of the digits `whole`, a dot and the digits `frac`, read exactly. */
  function DecimalValue(whole: string, frac: string): (v: real)
    requires AllDigits(whole) && AllDigits(frac)
    ensures v >= 0.0
  {
    DigitsValue(whole) as real + DigitsValue(frac) as real / Pow10(|frac|) as real
  }

  /** How the dots and digits of an amount text sit around its first dot. */
  lemma DotSplit(s: string, k: nat)
    requires IsAmountText(s) && k == FirstDot(s)
    ensures AllDigits(s[..k])
    ensures k < |s| ==> DotCount(s) == 1 + DotCount(s[k + 1..])
    ensures k == |s| ==> DotCount(s) == 0
    ensures k < |s| ==> (AllDigits(s[k + 1..]) <==> DotCount(s[k + 1..]) == 0)
    ensures k < |s| && AllDigits(s[k + 1..]) ==> (HasDigit(s) <==> |s[..k]| + |s[k + 1..]| > 0)
    ensures k == |s| ==> (HasDigit(s) <==> |s| > 0)
  {
    var w := s[..k];
    assert AllDigits(w);
    NoDotsIffDigits(w);
    if k < |s| {
      var f := s[k + 1..];
      assert s == w + [s[k]] + f;
      assert multiset(s) == multiset(w) + multiset([s[k]]) + multiset(f);
      NoDotsIffDigits(f);
      if AllDigits(f) {
        HasDigitOfDigits(w);
        HasDigitOfDigits(f);
        HasDigitConcat(w, [s[k]], f);
      }
    } else {
      assert w == s;
      HasDigitOfDigits(s);
    }
  }

  lemma NoDotsIffDigits(f: string)
    requires IsAmountText(f)
    ensures AllDigits(f) <==> DotCount(f) == 0
  {
    if DotCount(f) == 0 {
      forall i | 0 <= i < |f| ensures IsDigit(f[i]) {
        assert f[i] in multiset(f);
      }
    } else {
      assert '.' in multiset(f);
      var i :| 0 <= i < |f| && f[i] == '.';
    }
  }

  lemma HasDigitOfDigits(s: string)
    requires AllDigits(s)
    ensures HasDigit(s) <==> |s| > 0
  {
    if |s| > 0 { assert IsDigit(s[0]); }
  }

  lemma HasDigitConcat(a: string, b: string, c: string)
    requires !HasDigit(b)
    ensures HasDigit(a + b + c) <==> HasDigit(a) || HasDigit(c)
  {
    var s := a + b + c;
    if HasDigit(s) {
      var i :| 0 <= i < |s| && IsDigit(s[i]);
      if i < |a| { assert IsDigit(a[i]); }
      else if i >= |a| + |b| { assert IsDigit(c[i - |a| - |b|]); }
    }
    if HasDigit(a) {
      var i :| 0 <= i < |a| && IsDigit(a[i]);
      assert s[i] == a[i];
    }
    if HasDigit(c) {
      var i :| 0 <= i < |c| && IsDigit(c[i]);
      assert s[|a| + |b| + i] == c[i];
    }
  }

  // ------------------------------------------------------------ values of amount texts

  /** Digits only: the text reads as its decimal value. */
  lemma ParseWhole(w: string)
    requires AllDigits(w) && |w| > 0
    ensures ParseDecimal(w) == Some(DigitsValue(w) as real)
  {
    assert FirstDot(w) == |w|;
    assert w[..|w|] == w;
    var none: string := [];
    assert Pow10(|none|) == 1;
    assert DecimalValue(w, none) == DigitsValue(w) as real;
  }

  /** Digits, one dot, digits: the whole part plus the fraction over its power of ten. */
  lemma ParseFraction(w: string, f: string)
    requires AllDigits(w) && AllDigits(f) && |w| + |f| > 0
    ensures ParseDecimal(w + "." + f) == Some(DecimalValue(w, f))
  {
    var s := w + "." + f;
    assert IsAmountText(s) by {
      forall i | 0 <= i < |s| ensures IsDigit(s[i]) || s[i] == '.' {
        if i < |w| { assert s[i] == w[i]; }
        else if i > |w| { assert s[i] == f[i - |w| - 1]; }
      }
    }
    assert s[|w|] == '.';
    assert FirstDot(s) == |w|;
    assert s[..|w|] == w && s[|w| + 1..] == f;
  }

  /** `n` in exactly `width` digits: its last `width` decimal digits, left-padded with '0'. */
  function DigitsOf(n: nat, width: nat): (s: string)
    ensures |s| == width && AllDigits(s)
  {
    if width == 0 then [] else DigitsOf(n / 10, width - 1) + [('0' as int + n % 10) as char]
  }

  /** The fewest digits that write `q`. */
  function NumDigits(q: nat): (w: nat)
    ensures w >= 1 && q < Pow10(w)
  {
    if q < 10 then 1 else 1 + NumDigits(q / 10)
  }

  function Quotient(n: nat, p: nat): nat
    requires p >= 1
  {
    n / p
  }

  /** The whole part of `n / 10^k`. */
  function WholePart(n: nat, k: nat): nat {
    Quotient(n, Pow10(k))
  }

  /**
   * The amount text of `n / 10^k`: the whole part in its own digits, then,
   * when `k > 0`, a dot and exactly `k` fraction digits ("12.50" for n = 1250, k = 2).
   */
  function DecimalText(n: nat, k: nat): string {
    var q := WholePart(n, k);
    DigitsOf(q, NumDigits(q)) + (if k == 0 then "" else "." + DigitsOf(n, k))
  }

  /** Euclidean division is unique. */
  lemma DivModUnique(n: int, m: int, a: int, b: int)
    requires m > 0 && n == m * a + b && 0 <= b < m
    ensures n / m == a && n % m == b
  {
    var q, r := n / m, n % m;
    assert n == m * q + r;
    if a > q {
      MulAtLeast(m, a - q);
      assert false;
    } else if a < q {
      MulAtLeast(m, q - a);
      assert false;
    }
  }

  lemma MulAtLeast(m: int, x: int)
    requires m > 0 && x >= 1
    ensures m * x >= m
  {
  }

  /** The last digit and the rest of `n` modulo `10 * p`. */
  lemma ModStep(n: nat, p: nat)
    requires p >= 1
    ensures n % (10 * p) == (n / 10) % p * 10 + n % 10
  {
    var a, b := (n / 10) / p, (n / 10) % p;
    assert n / 10 == p * a + b;
    assert n == 10 * (n / 10) + n % 10;
    assert n == (10 * p) * a + (10 * b + n % 10);
    DivModUnique(n, 10 * p, a, 10 * b + n % 10);
  }

  /** Reading back `width` printed digits gives `n` modulo `10^width`. */
  lemma {:induction false} DigitsOfValue(n: nat, width: nat)
    ensures DigitsValue(DigitsOf(n, width)) == n % Pow10(width)
  {
    if width == 0 {
      DivModUnique(n, 1, n, 0);
    } else {
      var s := DigitsOf(n, width);
      assert s[..width - 1] == DigitsOf(n / 10, width - 1);
      assert s[width - 1] as int - '0' as int == n % 10;
      DigitsOfValue(n / 10, width - 1);
      ModStep(n, Pow10(width - 1));
    }
  }

  /** Over the reals, `n / p` is its quotient plus its remainder over `p`. */
  lemma RealSplit(n: nat, p: nat)
    requires p >= 1
    ensures (n / p) as real + (n % p) as real / p as real == n as real / p as real
  {
    assert n as real == p as real * (n / p) as real + (n % p) as real;
  }

  lemma DecimalValueOf(w: string, f: string, a: nat, b: nat, p: nat)
    requires AllDigits(w) && AllDigits(f) && DigitsValue(w) == a && DigitsValue(f) == b && Pow10(|f|) == p
    ensures DecimalValue(w, f) == a as real + b as real / p as real
  {
  }

  /** The whole part reads back as itself. */
  lemma WholeDigitsValue(q: nat)
    ensures DigitsValue(DigitsOf(q, NumDigits(q))) == q
  {
    DigitsOfValue(q, NumDigits(q));
    DivModUnique(q, Pow10(NumDigits(q)), 0, q);
  }

  /** The printed whole and fraction parts are worth `n / p`. */
  lemma PrintedValue(n: nat, k: nat, p: nat, q: nat)
    requires p == Pow10(k) && q == n / p
    ensures DecimalValue(DigitsOf(q, NumDigits(q)), DigitsOf(n, k)) == n as real / p as real
  {
    WholeDigitsValue(q);
    DigitsOfValue(n, k);
    DecimalValueOf(DigitsOf(q, NumDigits(q)), DigitsOf(n, k), q, n % p, p);
    RealSplit(n, p);
  }

  /** With fraction digits, the printed text parses to the value of its two parts. */
  lemma ParsePrinted(n: nat, k: nat)
    requires k > 0
    ensures var q := WholePart(n, k);
            ParseDecimal(DecimalText(n, k)) == Some(DecimalValue(DigitsOf(q, NumDigits(q)), DigitsOf(n, k)))
  {
    var q := WholePart(n, k);
    var w, f := DigitsOf(q, NumDigits(q)), DigitsOf(n, k);
    assert DecimalText(n, k) == w + "." + f;
    ParseFraction(w, f);
  }

  lemma WholeTextRoundTrip(n: nat)
    ensures ParseDecimal(DecimalText(n, 0)) == Some(n as real)
  {
    assert WholePart(n, 0) == n;
    var w := DigitsOf(n, NumDigits(n));
    WholeDigitsValue(n);
    assert DecimalText(n, 0) == w;
    ParseWhole(w);
  }

  lemma FractionTextRoundTrip(n: nat, k: nat)
    requires k > 0
    ensures ParseDecimal(DecimalText(n, k)) == Some(n as real / Pow10(k) as real)
  {
    ParsePrinted(n, k);
    PrintedValue(n, k, Pow10(k), WholePart(n, k));
  }

  /** Printing then parsing gives back `n / 10^k` exactly. */
  lemma DecimalTextRoundTrip(n: nat, k: nat)
    ensures ParseDecimal(DecimalText(n, k)) == Some(n as real / Pow10(k) as real)
  {
    if k == 0 {
      WholeTextRoundTrip(n);
      assert n as real / Pow10(k) as real == n as real;
    } else {
      FractionTextRoundTrip(n, k);
    }
  }
}
