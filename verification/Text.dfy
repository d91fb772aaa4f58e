/**
 Strings as the program uses them: trimming, decimal numbers and case folding.
 One `char` stands for one code point.
 */
module Text {
  import opened Sequences

  /** The code points Python's `str.isspace` accepts. */
  predicate IsSpace(c: char) {
    var n := c as int;
    || 9 <= n <= 13 || 28 <= n <= 32 || n == 133 || n == 160 || n == 5760
    || 8192 <= n <= 8202 || n == 8232 || n == 8233 || n == 8239 || n == 8287 || n == 12288
  }

  /** No white space at either end; true of the empty string. */
  predicate Trimmed(s: string) {
    s == "" || (!IsSpace(s[0]) && !IsSpace(s[|s| - 1]))
  }

  function TrimLeft(s: string): (r: string)
    ensures r == "" || !IsSpace(r[0])
    ensures |r| <= |s|
    ensures s != "" && !IsSpace(s[0]) ==> r == s
    ensures r != "" ==> r[|r| - 1] == s[|s| - 1]
  {
    if s == "" then "" else if IsSpace(s[0]) then TrimLeft(s[1..]) else s
  }

  function TrimRight(s: string): (r: string)
    ensures r <= s
    ensures r == "" || !IsSpace(r[|r| - 1])
    ensures s != "" && !IsSpace(s[|s| - 1]) ==> r == s
  {
    if s == "" then "" else if IsSpace(s[|s| - 1]) then TrimRight(s[..|s| - 1]) else s
  }

  /** Python's `str.strip`. */
  function Trim(s: string): (r: string)
    ensures Trimmed(r)
    ensures |r| <= |s|
    ensures Trimmed(s) ==> r == s
  {
    TrimRight(TrimLeft(s))
  }

  predicate AllSpace(s: string) { forall i | 0 <= i < |s| :: IsSpace(s[i]) }

  lemma {:induction false} TrimLeftCuts(s: string) returns (cut: string)
    ensures s == cut + TrimLeft(s) && AllSpace(cut)
  {
    cut := "";
    if s != "" && IsSpace(s[0]) {
      var rest := TrimLeftCuts(s[1..]);
      cut := [s[0]] + rest;
      assert s == [s[0]] + s[1..];
    }
  }

  lemma {:induction false} TrimRightCuts(s: string) returns (cut: string)
    ensures s == TrimRight(s) + cut && AllSpace(cut)
  {
    cut := "";
    if s != "" && IsSpace(s[|s| - 1]) {
      var rest := TrimRightCuts(s[..|s| - 1]);
      cut := rest + [s[|s| - 1]];
      assert s == s[..|s| - 1] + [s[|s| - 1]];
    }
  }

  /** Trimming takes away white space at both ends and nothing else. */
  lemma TrimCuts(s: string) returns (left: string, right: string)
    ensures s == left + Trim(s) + right && AllSpace(left) && AllSpace(right)
  {
    left := TrimLeftCuts(s);
    right := TrimRightCuts(TrimLeft(s));
  }

  predicate IsDigit(c: char) { '0' <= c <= '9' }

  predicate AllDigits(s: string) { forall i | 0 <= i < |s| :: IsDigit(s[i]) }

  function DigitChar(n: nat): (c: char)
    requires n < 10
    ensures IsDigit(c) && c as int == 48 + n
  {
    (48 + n) as char
  }

  /** The decimal form of a number, without leading zeros. */
  function Decimal(n: nat): (s: string)
    ensures s != "" && AllDigits(s)
  {
    if n < 10 then [DigitChar(n)] else Decimal(n / 10) + [DigitChar(n % 10)]
  }

  /** The number a string of digits denotes. */
  function DecimalValue(s: string): nat
    requires AllDigits(s)
  {
    if s == "" then 0 else 10 * DecimalValue(s[..|s| - 1]) + (s[|s| - 1] as int - 48)
  }

  lemma {:induction false} DecimalRoundTrip(n: nat)
    ensures DecimalValue(Decimal(n)) == n
  {
    if n >= 10 {
      var d := Decimal(n);
      assert d[..|d| - 1] == Decimal(n / 10);
      DecimalRoundTrip(n / 10);
    } else {
      var d := Decimal(n);
      assert d[..0] == "";
    }
  }

  /** No number but zero is written with a zero in front. */
  lemma {:induction false} NoLeadingZero(n: nat)
    ensures Decimal(n)[0] == '0' <==> n == 0
    ensures n < 10 ==> |Decimal(n)| == 1
  {
    if n >= 10 { NoLeadingZero(n / 10); }
  }

  lemma DecimalInjective(m: nat, n: nat)
    requires Decimal(m) == Decimal(n)
    ensures m == n
  {
    DecimalRoundTrip(m);
    DecimalRoundTrip(n);
  }

  lemma {:induction false} DecimalLengthMonotone(m: nat, n: nat)
    requires m <= n
    ensures |Decimal(m)| <= |Decimal(n)|
  {
    if m >= 10 {
      DecimalLengthMonotone(m / 10, n / 10);
    }
  }

  /** The text before a separator is determined when it cannot contain the separator. */
  lemma {:induction false} DigitRunUnique(a: string, b: string, x: string, y: string)
    requires AllDigits(a) && AllDigits(b)
    requires x == "" || !IsDigit(x[0])
    requires y == "" || !IsDigit(y[0])
    requires a + x == b + y
    ensures a == b && x == y
  {
    var u := a + x;
    assert forall i | 0 <= i < |a| :: IsDigit(u[i]);
    assert forall i | 0 <= i < |b| :: IsDigit(u[i]) by {
      assert forall i | 0 <= i < |b| :: u[i] == b[i];
    }
    if x != "" { assert u[|a|] == x[0]; }
    if y != "" { assert u[|b|] == y[0]; }
    assert |a| == |b|;
    assert a == (a + x)[..|a|] && b == (b + y)[..|b|];
    assert x == (a + x)[|a|..] && y == (b + y)[|b|..];
  }

  /** Characters on which every case folding is the identity. */
  predicate IsPlain(c: char) {
    'a' <= c <= 'z' || IsDigit(c) || c == ' ' || c == '(' || c == ')' || c == '_' || c == '-'
  }

  predicate AllPlain(s: string) { forall i | 0 <= i < |s| :: IsPlain(s[i]) }

  /**
   A case folding works one code point at a time, may lengthen the text, and leaves lower-case
   ASCII letters, digits and some punctuation alone. Python's `str.casefold` is one of them.
   */
  type CaseFold = f: char -> string | forall c :: IsPlain(c) || c == '"' ==> f(c) == [c]
    witness (c => [c])

  function Fold(cf: CaseFold, s: string): string {
    if s == "" then "" else cf(s[0]) + Fold(cf, s[1..])
  }

  lemma {:induction false} FoldConcat(cf: CaseFold, s: string, t: string)
    ensures Fold(cf, s + t) == Fold(cf, s) + Fold(cf, t)
  {
    if s == "" {
      assert s + t == t;
    } else {
      assert (s + t)[1..] == s[1..] + t;
      FoldConcat(cf, s[1..], t);
      Associate(cf(s[0]), Fold(cf, s[1..]), Fold(cf, t));
    }
  }

  lemma {:induction false} FoldPlain(cf: CaseFold, s: string)
    requires AllPlain(s)
    ensures Fold(cf, s) == s
  {
    if s != "" {
      assert IsPlain(s[0]);
      FoldPlain(cf, s[1..]);
    }
  }

  predicate OccursAt(text: string, needle: string, i: nat) {
    i + |needle| <= |text| && text[i..i + |needle|] == needle
  }

  /** Python's `needle in text`. */
  predicate Occurs(text: string, needle: string) {
    exists i | 0 <= i <= |text| :: OccursAt(text, needle, i)
  }

  /** Where a text occurs, each of its characters stands at its place. */
  lemma OccursCharacter(text: string, needle: string, i: nat, j: nat)
    requires OccursAt(text, needle, i) && j < |needle|
    ensures i + j < |text| && text[i + j] == needle[j]
  {
    assert text[i..i + |needle|][j] == needle[j];
  }
}
