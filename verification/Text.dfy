/** Characters, character runs and decimal numerals, shared by every parser of the agent. */
module Text {

  datatype Option<+T> = None | Some(value: T)

  predicate IsDigit(c: char) {
    '0' <= c <= '9'
  }

  /** isspace of the C locale: space, tab, newline, vertical tab, form feed, carriage return. */
  predicate IsSpace(c: char) {
    c == ' ' || '\t' <= c <= '\r'
  }

  datatype CharClass = Blank | NonBlank | Margin | Digits | Only(one: char) | Except(stop: char) {
    predicate Has(c: char) {
      match this
      case Blank => IsSpace(c)
      case NonBlank => !IsSpace(c)
      case Margin => c == ' ' || c == '\t' || c == '\r' || c == '\n'
      case Digits => IsDigit(c)
      case Only(one) => c == one
      case Except(stop) => c != stop
    }

    predicate All(s: string) {
      forall i | 0 <= i < |s| :: Has(s[i])
    }

    /** `s` cannot extend a run of this class. */
    predicate Stops(s: string) {
      s == "" || !Has(s[0])
    }
  }

  /** Length of the longest prefix of `s` made of characters of class `k`. */
  function Span(k: CharClass, s: string): (n: nat)
    ensures n <= |s|
  {
    if s == "" || !k.Has(s[0]) then 0 else 1 + Span(k, s[1..])
  }

  lemma {:induction false} SpanExact(k: CharClass, s: string)
    ensures k.All(s[..Span(k, s)]) && k.Stops(s[Span(k, s)..])
  {
    if s != "" && k.Has(s[0]) {
      SpanExact(k, s[1..]);
      var n := Span(k, s);
      assert s[..n] == [s[0]] + s[1..][..n - 1];
      assert s[n..] == s[1..][n - 1..];
    }
  }

  /** `s` without its longest prefix of class `k`. */
  function Drop(k: CharClass, s: string): (r: string)
    ensures |r| <= |s|
  {
    s[Span(k, s)..]
  }

  lemma {:induction false} SpanOf(k: CharClass, a: string, b: string)
    requires k.All(a) && k.Stops(b)
    ensures Span(k, a + b) == |a|
    ensures (a + b)[..|a|] == a && (a + b)[|a|..] == b && Drop(k, a + b) == b
  {
    if a == "" {
      assert a + b == b;
    } else {
      assert (a + b)[1..] == a[1..] + b;
      SpanOf(k, a[1..], b);
    }
  }

  /** A run that ends inside `s` is not affected by what follows `s`. */
  lemma {:induction false} SpanPrefix(k: CharClass, s: string, t: string)
    requires Span(k, s) < |s| || k.Stops(t)
    ensures Span(k, s + t) == Span(k, s)
    ensures (s + t)[..Span(k, s)] == s[..Span(k, s)]
    ensures (s + t)[Span(k, s)..] == s[Span(k, s)..] + t
    ensures Drop(k, s + t) == Drop(k, s) + t
  {
    if s == "" {
      assert s + t == t;
    } else {
      assert (s + t)[1..] == s[1..] + t;
      if k.Has(s[0]) { SpanPrefix(k, s[1..], t); }
    }
  }

  function Repeat(c: char, n: nat): (s: string)
    ensures |s| == n && Only(c).All(s)
  {
    seq(n, _ => c)
  }

  function Spaces(n: nat): (s: string)
    ensures |s| == n && Only(' ').All(s) && Blank.All(s)
  {
    Repeat(' ', n)
  }

  /** `pattern` occurs somewhere in `s` (std::string::find does not return npos). */
  predicate Contains(s: string, pattern: string) {
    exists i | 0 <= i <= |s| - |pattern| :: OccursAt(s, pattern, i)
  }

  predicate OccursAt(s: string, pattern: string, i: nat) {
    i + |pattern| <= |s| && s[i..i + |pattern|] == pattern
  }

  lemma ContainsMiddle(a: string, pattern: string, b: string)
    ensures Contains(a + (pattern + b), pattern)
  {
    assert OccursAt(a + (pattern + b), pattern, |a|);
  }

  /** Position of the last `c` in `s`, or None (std::string::rfind). */
  function LastIndex(s: string, c: char): (r: Option<nat>)
    ensures r.Some? ==> r.value < |s| && s[r.value] == c && Except(c).All(s[r.value + 1..])
    ensures r.None? ==> Except(c).All(s)
  {
    if s == "" then None
    else if s[|s| - 1] == c then Some(|s| - 1)
    else
      var r := LastIndex(s[..|s| - 1], c);
      assert r.Some? ==> s[r.value + 1..] == s[..|s| - 1][r.value + 1..] + [s[|s| - 1]];
      r
  }

  lemma {:induction false} LastIndexOf(a: string, c: char, b: string)
    requires Except(c).All(b)
    ensures LastIndex(a + ([c] + b), c) == Some(|a|)
  {
    var s := a + ([c] + b);
    if b != "" {
      assert s[..|s| - 1] == a + ([c] + b[..|b| - 1]);
      LastIndexOf(a, c, b[..|b| - 1]);
    }
  }

  // ----- decimal numerals -----

  function DigitChar(d: nat): (c: char)
    requires d < 10
    ensures IsDigit(c)
  {
    ('0' as int + d) as char
  }

  function DigitValue(c: char): (d: nat)
    requires IsDigit(c)
    ensures d < 10 && DigitChar(d) == c
  {
    c as int - '0' as int
  }

  /** The number a digit string denotes; leading zeros are allowed. */
  function Value(s: string): nat
    requires Digits.All(s)
  {
    if s == "" then 0
    else
      assert Digits.All(s[..|s| - 1]);
      10 * Value(s[..|s| - 1]) + DigitValue(s[|s| - 1])
  }

  /** Canonical decimal numeral. */
  function Decimal(n: nat): (s: string)
    ensures s != "" && Digits.All(s)
  {
    if n < 10 then [DigitChar(n)] else Decimal(n / 10) + [DigitChar(n % 10)]
  }

  lemma {:induction false} DecimalValue(n: nat)
    ensures Value(Decimal(n)) == n
  {
    var s := Decimal(n);
    if n < 10 {
      assert s[..0] == "";
    } else {
      assert s[..|s| - 1] == Decimal(n / 10);
      DecimalValue(n / 10);
    }
  }

  function Pow10(k: nat): (p: nat)
    ensures p > 0
  {
    if k == 0 then 1 else 10 * Pow10(k - 1)
  }

  /** A canonical numeral has at most `k` digits exactly when its value is below 10^k. */
  lemma {:induction false} DecimalLength(n: nat, k: nat)
    requires k > 0
    ensures |Decimal(n)| <= k <==> n < Pow10(k)
    decreases k
  {
    if k == 1 {
      assert Pow10(1) == 10 * Pow10(0);
    } else if n < 10 {
      assert Pow10(k) == 10 * Pow10(k - 1);
    } else {
      DecimalLength(n / 10, k - 1);
    }
  }

  /** Any cut of a canonical numeral keeps a leading part that is still large. */
  lemma {:induction false} DecimalPrefix(n: nat, k: nat)
    requires 0 < k < |Decimal(n)|
    ensures Value(Decimal(n)[..k]) >= Pow10(k - 1)
    decreases n
  {
    var s := Decimal(n);
    assert s[..|s| - 1] == Decimal(n / 10);
    if k == |s| - 1 {
      assert s[..k] == Decimal(n / 10);
      DecimalValue(n / 10);
      if k > 1 { DecimalLength(n / 10, k - 1); }
    } else {
      assert s[..k] == Decimal(n / 10)[..k];
      DecimalPrefix(n / 10, k);
    }
  }

  function Abs(v: int): nat {
    if v < 0 then -v else v
  }

  /** The sign printf writes; `plus` is its %+ flag. */
  function SignText(plus: bool, v: int): string {
    if v < 0 then "-" else if plus then "+" else ""
  }

  function Signed(plus: bool, v: int): string {
    SignText(plus, v) + Decimal(Abs(v))
  }
}
