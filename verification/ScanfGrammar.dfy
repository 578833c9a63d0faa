/**
 What a format accepts, said without scanning: a text is accepted exactly if it is made of one
 piece per directive, each of the directive's own shape and not prolonged by what follows it.
 */
module ScanfGrammar {
  import opened Text
  import opened Scanf

  /** A decimal number as %lf takes it, part by part. */
  datatype RealNumeral = RealNumeral(
    sign: string, whole: string, point: bool, fraction: string, exponent: string, powerSign: string, power: string)
  {
    predicate Ok() {
      && IsSign(sign) && Digits.All(whole) && Digits.All(fraction) && (point || fraction == "")
      && |whole| + |fraction| > 0
      && if exponent == "" then powerSign == "" && power == ""
         else (exponent == "e" || exponent == "E") && IsSign(powerSign) && power != "" && Digits.All(power)
    }

    function ExponentText(rest: string): string {
      exponent + (powerSign + (power + rest))
    }

    function MantissaText(rest: string): string {
      whole + ((if point then "." else "") + (fraction + rest))
    }

    function Text(rest: string): string {
      sign + MantissaText(ExponentText(rest))
    }

    /** What follows is not the beginning of a longer number. */
    predicate EndsBefore(rest: string) {
      && Digits.Stops(rest)
      && (exponent == "" ==> !StartsExponent(rest))
      && (exponent == "" && !point ==> !StartsFraction(rest))
    }
  }

  predicate StartsExponent(s: string) {
    s != "" && (s[0] == 'e' || s[0] == 'E')
  }

  predicate StartsFraction(s: string) {
    s != "" && s[0] == '.'
  }

  datatype Piece =
    | Gap(blanks: string)
    | Same
    | Number(blanks: string, n: Numeral)
    | Real(blanks: string, x: RealNumeral)
    | Token(blanks: string, word: string)

  /** A nonempty run of the class, as long as the width or the text allows. */
  predicate RunFits(k: CharClass, width: Option<nat>, word: string, rest: string) {
    && word != "" && k.All(word)
    && (width.Some? ==> |word| <= width.value)
    && (width == Some(|word|) || k.Stops(rest))
  }

  predicate Fits(d: Directive, p: Piece, rest: string) {
    match d
    case Space => p.Gap? && Blank.All(p.blanks) && Blank.Stops(rest)
    case Lit(_) => p.Same?
    case Dec(_) => p.Number? && Blank.All(p.blanks) && p.n.Ok() && Digits.Stops(rest)
    case Float(_) => p.Real? && Blank.All(p.blanks) && p.x.Ok() && p.x.EndsBefore(rest)
    case Word(width, _) => p.Token? && Blank.All(p.blanks) && RunFits(NonBlank, width, p.word, rest)
    case Until(limit, stop, _) => p.Token? && p.blanks == "" && RunFits(Except(stop), Some(limit), p.word, rest)
  }

  function PieceText(d: Directive, p: Piece, rest: string): string {
    match p
    case Gap(blanks) => blanks + rest
    case Same => (if d.Lit? then d.text else "") + rest
    case Number(blanks, n) => blanks + (n.sign + (n.digits + rest))
    case Real(blanks, x) => blanks + x.Text(rest)
    case Token(blanks, word) => blanks + (word + rest)
  }

  function PieceItem(d: Directive, p: Piece, rest: string): Option<Item>
    requires Fits(d, p, rest)
  {
    match p
    case Gap(_) => None
    case Same => None
    case Number(_, n) => Some(Num(n.Value()))
    case Real(_, _) => Some(Seconds)
    case Token(_, word) => Some(Str(word))
  }

  // ----- one directive: pieces that fit are matched -----

  lemma RunIsMatched(k: CharClass, width: Option<nat>, word: string, rest: string)
    requires RunFits(k, width, word, rest)
    ensures MatchRun(k, width, word + rest) == Match(Some(Str(word)), rest)
  {
    var n := Span(k, rest);
    SpanExact(k, rest);
    assert k.All(word + rest[..n]);
    assert word + rest == (word + rest[..n]) + rest[n..];
    SpanOf(k, word + rest[..n], rest[n..]);
    assert (word + rest)[..|word|] == word && (word + rest)[|word|..] == rest;
    assert k.Stops(rest) ==> n == 0;
  }

  lemma SignedText(sign: string, s: string)
    requires IsSign(sign) && (sign == "" ==> !Sign(s))
    ensures SkipSign(sign + s) == s
  {
    if sign == "" {
      assert sign + s == s;
    } else {
      assert (sign + s)[0] == sign[0] && (sign + s)[1..] == s;
    }
  }

  lemma ExponentIsMatched(x: RealNumeral, rest: string)
    requires x.Ok() && x.EndsBefore(rest)
    ensures MatchExponent(x.ExponentText(rest)) == Match(Some(Seconds), rest)
  {
    var s := x.ExponentText(rest);
    if x.exponent == "" {
      assert s == rest;
    } else {
      var t := x.powerSign + (x.power + rest);
      assert s[0] == x.exponent[0] && s[1..] == t;
      MatchUnsigned(x.power, rest);
      SignedText(x.powerSign, x.power + rest);
    }
  }

  /** Where the mantissa's digits end. */
  lemma ExponentStops(x: RealNumeral, rest: string)
    requires x.Ok() && x.EndsBefore(rest)
    ensures var s := x.ExponentText(rest);
            Digits.Stops(s) && (!x.point ==> !StartsFraction(s))
  {
    if x.exponent == "" {
      assert x.ExponentText(rest) == rest;
    } else {
      assert x.ExponentText(rest)[0] == x.exponent[0];
    }
  }

  lemma MantissaIsMatched(x: RealNumeral, after: string)
    requires Digits.All(x.whole) && Digits.All(x.fraction) && (x.point || x.fraction == "")
    requires |x.whole| + |x.fraction| > 0
    requires Digits.Stops(after) && (!x.point ==> !StartsFraction(after))
    ensures MatchMantissa(x.MantissaText(after)) == MatchExponent(after)
    ensures !Sign(x.MantissaText(after)) && Blank.Stops(x.MantissaText(after))
  {
    var u := x.MantissaText(after);
    if x.point {
      var v := "." + (x.fraction + after);
      assert u == x.whole + v && v[1..] == x.fraction + after;
      SpanOf(Digits, x.whole, v);
      SpanOf(Digits, x.fraction, after);
    } else {
      assert u == x.whole + after;
      SpanOf(Digits, x.whole, after);
    }
    if x.whole != "" { assert u[0] == x.whole[0] && Digits.Has(x.whole[0]); } else { assert u[0] == '.'; }
  }

  lemma RealIsMatched(blanks: string, x: RealNumeral, rest: string)
    requires Blank.All(blanks) && x.Ok() && x.EndsBefore(rest)
    ensures MatchFloat(blanks + x.Text(rest)) == Match(Some(Seconds), rest)
  {
    var after := x.ExponentText(rest);
    var u := x.MantissaText(after);
    ExponentIsMatched(x, rest);
    ExponentStops(x, rest);
    MantissaIsMatched(x, after);
    SignedText(x.sign, u);
    assert Blank.Stops(x.sign + u) by {
      if x.sign == "" { assert x.sign + u == u; } else { assert (x.sign + u)[0] == x.sign[0]; }
    }
    DropBlanks(blanks, x.sign + u);
  }

  lemma NumberIsMatched(blanks: string, n: Numeral, rest: string)
    requires Blank.All(blanks) && n.Ok() && Digits.Stops(rest)
    ensures MatchDec(blanks + (n.sign + (n.digits + rest))) == Match(Some(Num(n.Value())), rest)
  {
    NumeralIsMatched(n, rest);
    MatchDecBlanks(blanks, n.sign + (n.digits + rest));
  }

  lemma NumeralIsMatched(n: Numeral, rest: string)
    requires n.Ok() && Digits.Stops(rest)
    ensures Blank.Stops(n.sign + (n.digits + rest))
    ensures MatchDec(n.sign + (n.digits + rest)) == Match(Some(Num(n.Value())), rest)
  {
    MatchNumeral(n.sign, n.digits, rest);
  }

  lemma WordIsMatched(blanks: string, width: Option<nat>, word: string, rest: string)
    requires Blank.All(blanks) && RunFits(NonBlank, width, word, rest)
    ensures MatchRun(NonBlank, width, Drop(Blank, blanks + (word + rest))) == Match(Some(Str(word)), rest)
  {
    assert (word + rest)[0] == word[0] && NonBlank.Has(word[0]);
    DropBlanks(blanks, word + rest);
    RunIsMatched(NonBlank, width, word, rest);
  }

  lemma FittingIsMatched(d: Directive, p: Piece, rest: string)
    requires Fits(d, p, rest)
    ensures MatchOne(d, PieceText(d, p, rest)) == Match(PieceItem(d, p, rest), rest)
  {
    match d
    case Space => DropBlanks(p.blanks, rest);
    case Lit(text) => assert (text + rest)[|text|..] == rest;
    case Dec(_) => NumberIsMatched(p.blanks, p.n, rest);
    case Float(_) => RealIsMatched(p.blanks, p.x, rest);
    case Word(width, _) => WordIsMatched(p.blanks, width, p.word, rest);
    case Until(limit, stop, _) =>
      assert "" + (p.word + rest) == p.word + rest;
      RunIsMatched(Except(stop), Some(limit), p.word, rest);
  }

  // ----- one directive: what is matched is a piece that fits -----

  lemma SplitBlanks(s: string) returns (blanks: string)
    ensures Blank.All(blanks) && Blank.Stops(Drop(Blank, s)) && s == blanks + Drop(Blank, s)
  {
    SpanExact(Blank, s);
    blanks := s[..Span(Blank, s)];
  }

  lemma MatchedRun(k: CharClass, width: Option<nat>, s: string) returns (word: string)
    requires MatchRun(k, width, s).Match?
    ensures var rest := MatchRun(k, width, s).rest;
            && RunFits(k, width, word, rest) && s == word + rest
            && MatchRun(k, width, s).value == Some(Str(word))
  {
    SpanExact(k, s);
    var n := Span(k, s);
    var m := if width.Some? && width.value < n then width.value else n;
    word := s[..m];
    assert forall i | 0 <= i < m :: s[..n][i] == word[i];
  }

  lemma MatchedNumber(s: string) returns (blanks: string, n: Numeral)
    requires MatchDec(s).Match?
    ensures var rest := MatchDec(s).rest;
            && Blank.All(blanks) && n.Ok() && Digits.Stops(rest)
            && s == blanks + (n.sign + (n.digits + rest))
            && MatchDec(s).value == Some(Num(n.Value()))
  {
    blanks := SplitBlanks(s);
    var u := Drop(Blank, s);
    var v := SkipSign(u);
    SignSplit(u);
    DigitSplit(v);
    n := Numeral(SignOf(u), v[..Span(Digits, v)]);
  }

  lemma MatchedExponent(s: string) returns (exponent: string, powerSign: string, power: string)
    requires MatchExponent(s).Match?
    ensures var rest := MatchExponent(s).rest;
            && s == exponent + (powerSign + (power + rest))
            && (if exponent == "" then powerSign == "" && power == "" && !StartsExponent(rest)
                else (exponent == "e" || exponent == "E") && IsSign(powerSign) && power != "" && Digits.All(power)
                     && Digits.Stops(rest))
  {
    if StartsExponent(s) {
      var v := SkipSign(s[1..]);
      SignSplit(s[1..]);
      DigitSplit(v);
      exponent, powerSign, power := s[..1], SignOf(s[1..]), v[..Span(Digits, v)];
      SplitAt(s, 1);
      assert s[..1] == [s[0]];
    } else {
      exponent, powerSign, power := "", "", "";
      assert "" + ("" + ("" + s)) == s;
    }
  }

  /** The digits and the point in front of the exponent part. */
  lemma MatchedMantissa(u: string) returns (whole: string, point: bool, fraction: string, after: string)
    requires MatchMantissa(u).Match?
    ensures Digits.All(whole) && Digits.All(fraction) && (point || fraction == "") && |whole| + |fraction| > 0
    ensures Digits.Stops(after) && (!point ==> !StartsFraction(after))
    ensures u == whole + ((if point then "." else "") + (fraction + after)) && MatchMantissa(u) == MatchExponent(after)
  {
    DigitSplit(u);
    whole := u[..Span(Digits, u)];
    var v := Drop(Digits, u);
    point := v != "" && v[0] == '.';
    if point {
      DigitSplit(v[1..]);
      fraction, after := v[1..][..Span(Digits, v[1..])], Drop(Digits, v[1..]);
      assert v == "." + v[1..];
    } else {
      fraction, after := "", v;
      assert "" + ("" + v) == v;
    }
  }

  lemma MatchedReal(s: string) returns (blanks: string, x: RealNumeral)
    requires MatchFloat(s).Match?
    ensures var rest := MatchFloat(s).rest;
            && Blank.All(blanks) && x.Ok() && x.EndsBefore(rest) && s == blanks + x.Text(rest)
            && MatchFloat(s).value == Some(Seconds)
  {
    blanks := SplitBlanks(s);
    var u := Drop(Blank, s);
    SignSplit(u);
    var whole, point, fraction, after := MatchedMantissa(SkipSign(u));
    var exponent, powerSign, power := MatchedExponent(after);
    x := RealNumeral(SignOf(u), whole, point, fraction, exponent, powerSign, power);
    var rest := MatchExponent(after).rest;
    if exponent == "" { assert after == rest; }
  }

  lemma MatchedFits(d: Directive, s: string) returns (p: Piece)
    requires MatchOne(d, s).Match?
    ensures var rest := MatchOne(d, s).rest;
            Fits(d, p, rest) && s == PieceText(d, p, rest) && MatchOne(d, s).value == PieceItem(d, p, rest)
  {
    match d
    case Space =>
      var blanks := SplitBlanks(s);
      p := Gap(blanks);
    case Lit(text) =>
      assert s == text + s[|text|..];
      p := Same;
    case Dec(_) =>
      var blanks, n := MatchedNumber(s);
      p := Number(blanks, n);
    case Float(_) =>
      var blanks, x := MatchedReal(s);
      p := Real(blanks, x);
    case Word(width, _) =>
      var blanks := SplitBlanks(s);
      var word := MatchedRun(NonBlank, width, Drop(Blank, s));
      p := Token(blanks, word);
    case Until(limit, stop, _) =>
      var word := MatchedRun(Except(stop), Some(limit), s);
      p := Token("", word);
      assert "" + s == s;
  }

  // ----- whole formats -----

  /** The text of the pieces; directives behind the last assignment demand nothing. */
  function Render(f: Format, ps: seq<Piece>, rest: string): string {
    if Assigns(f) == 0 || ps == [] then rest else PieceText(f.head, ps[0], Render(f.tail, ps[1..], rest))
  }

  predicate Derives(f: Format, ps: seq<Piece>, rest: string) {
    if Assigns(f) == 0 then ps == []
    else ps != [] && Fits(f.head, ps[0], Render(f.tail, ps[1..], rest)) && Derives(f.tail, ps[1..], rest)
  }

  /** The variables after the pieces have been stored. */
  function Stored(f: Format, ps: seq<Piece>, rest: string, r: Result): Result
    requires Derives(f, ps, rest)
  {
    if Assigns(f) == 0 then r
    else
      var item := PieceItem(f.head, ps[0], Render(f.tail, ps[1..], rest));
      Stored(f.tail, ps[1..], rest, Put(f.head.Goal(), item, r))
  }

  lemma {:induction false} DerivedIsRead(f: Format, ps: seq<Piece>, rest: string, r: Result)
    requires Derives(f, ps, rest)
    ensures Run(f, Render(f, ps, rest), r) == Stored(f, ps, rest, r)
    ensures Stored(f, ps, rest, r).count == r.count + Assigns(f)
  {
    if Assigns(f) == 0 {
      NoAssignment(f, rest, r);
    } else {
      var after := Render(f.tail, ps[1..], rest);
      FittingIsMatched(f.head, ps[0], after);
      DerivedIsRead(f.tail, ps[1..], rest, Put(f.head.Goal(), PieceItem(f.head, ps[0], after), r));
      ItemWhereGoal(f.head, ps[0], after);
    }
  }

  /** A directive with a variable always has an item for it. */
  lemma ItemWhereGoal(d: Directive, p: Piece, rest: string)
    requires Fits(d, p, rest)
    ensures d.Goal().Some? ==> PieceItem(d, p, rest).Some?
  {
  }

  lemma {:induction false} ReadIsDerived(f: Format, s: string, r: Result) returns (ps: seq<Piece>, rest: string)
    requires Run(f, s, r).count == r.count + Assigns(f)
    ensures Derives(f, ps, rest) && s == Render(f, ps, rest) && Run(f, s, r) == Stored(f, ps, rest, r)
    decreases f
  {
    if Assigns(f) == 0 {
      NoAssignment(f, s, r);
      ps, rest := [], s;
    } else {
      var m := MatchOne(f.head, s);
      var p := MatchedFits(f.head, s);
      var r' := Put(f.head.Goal(), m.value, r);
      CountBound(f.tail, m.rest, r');
      ps, rest := ReadIsDerived(f.tail, m.rest, r');
      ps := [p] + ps;
      assert ps[1..] == ps[1..];
    }
  }

  /** The text begins with pieces for the whole format, and they store `r`. */
  ghost predicate Spells(f: Format, s: string, r: Result) {
    exists ps, rest :: Derives(f, ps, rest) && s == Render(f, ps, rest) && r == Stored(f, ps, rest, START)
  }

  ghost predicate Spelled(f: Format, s: string) {
    exists r :: Spells(f, s, r)
  }

  /** The scanner accepts exactly the texts that are spelled, and stores what they spell. */
  lemma AcceptsWhatIsSpelled(f: Format, s: string)
    ensures Accepts(f, s) <==> Spelled(f, s)
    ensures forall r :: Spells(f, s, r) ==> Run(f, s, START) == r
    ensures Accepts(f, s) ==> Spells(f, s, Run(f, s, START))
  {
    if Accepts(f, s) {
      var ps, rest := ReadIsDerived(f, s, START);
      assert Spells(f, s, Run(f, s, START));
    }
    forall r | Spells(f, s, r) ensures Run(f, s, START) == r && Accepts(f, s) {
      var ps, rest :| Derives(f, ps, rest) && s == Render(f, ps, rest) && r == Stored(f, ps, rest, START);
      DerivedIsRead(f, ps, rest, START);
    }
  }
}
