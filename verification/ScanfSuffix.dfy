/** How text appended to a line affects a scan: not at all once every conversion has been made. */
module ScanfSuffix {
  import opened Text
  import opened Scanf

  lemma SkipSignExtends(u: string, t: string)
    requires u != ""
    ensures SkipSign(u + t) == SkipSign(u) + t
  {
    assert (u + t)[1..] == u[1..] + t;
  }

  lemma DecExtends(s: string, t: string)
    requires MatchDec(s).Match? && (MatchDec(s).rest != "" || Digits.Stops(t))
    ensures MatchDec(s + t) == Match(MatchDec(s).value, MatchDec(s).rest + t)
  {
    var u := Drop(Blank, s);
    var v := SkipSign(u);
    SpanPrefix(Blank, s, t);
    SkipSignExtends(u, t);
    SpanPrefix(Digits, v, t);
  }

  lemma ExponentExtends(s: string, t: string)
    requires MatchExponent(s).Match? && MatchExponent(s).rest != ""
    ensures MatchExponent(s + t) == Match(MatchExponent(s).value, MatchExponent(s).rest + t)
  {
    assert (s + t)[0] == s[0];
    if s[0] == 'e' || s[0] == 'E' {
      assert (s + t)[1..] == s[1..] + t;
      SkipSignExtends(s[1..], t);
      SpanPrefix(Digits, SkipSign(s[1..]), t);
    }
  }

  lemma MantissaExtends(u: string, t: string)
    requires MatchMantissa(u).Match? && MatchMantissa(u).rest != ""
    ensures MatchMantissa(u + t) == Match(MatchMantissa(u).value, MatchMantissa(u).rest + t)
  {
    var v := Drop(Digits, u);
    SpanPrefix(Digits, u, t);
    assert (v + t)[0] == v[0] && (v + t)[1..] == v[1..] + t;
    if v[0] == '.' {
      SpanPrefix(Digits, v[1..], t);
      ExponentExtends(Drop(Digits, v[1..]), t);
    } else {
      ExponentExtends(v, t);
    }
  }

  lemma FloatExtends(s: string, t: string)
    requires MatchFloat(s).Match? && MatchFloat(s).rest != ""
    ensures MatchFloat(s + t) == Match(MatchFloat(s).value, MatchFloat(s).rest + t)
  {
    var u := Drop(Blank, s);
    SpanPrefix(Blank, s, t);
    SkipSignExtends(u, t);
    MantissaExtends(SkipSign(u), t);
  }

  lemma {:induction false} SpanGrows(k: CharClass, s: string, t: string)
    ensures Span(k, s) <= Span(k, s + t)
    ensures Span(k, s) < |s| ==> Span(k, s + t) == Span(k, s)
  {
    if s != "" {
      assert (s + t)[1..] == s[1..] + t;
      SpanGrows(k, s[1..], t);
    }
  }

  lemma RunExtends(k: CharClass, width: Option<nat>, s: string, t: string)
    requires MatchRun(k, width, s).Match? && MatchRun(k, width, s).rest != ""
    ensures MatchRun(k, width, s + t) == Match(MatchRun(k, width, s).value, MatchRun(k, width, s).rest + t)
  {
    SpanGrows(k, s, t);
    var m := |s| - |MatchRun(k, width, s).rest|;
    assert (s + t)[..m] == s[..m] && (s + t)[m..] == s[m..] + t;
  }

  /** A directive that left something unread reads the same from a longer text. */
  lemma MatchExtends(d: Directive, s: string, t: string)
    requires MatchOne(d, s).Match?
    requires MatchOne(d, s).rest != "" || (d.Dec? && Digits.Stops(t))
    ensures MatchOne(d, s + t) == Match(MatchOne(d, s).value, MatchOne(d, s).rest + t)
  {
    match d
    case Space => SpanPrefix(Blank, s, t);
    case Lit(text) => assert (s + t)[|text|..] == s[|text|..] + t;
    case Dec(_) => DecExtends(s, t);
    case Float(_) => FloatExtends(s, t);
    case Word(width, _) =>
      SpanPrefix(Blank, s, t);
      RunExtends(NonBlank, width, Drop(Blank, s), t);
    case Until(limit, stop, _) => RunExtends(Except(stop), Some(limit), s, t);
  }

  /** The last conversion that assigns is a number. */
  predicate EndsInNumber(f: Format) {
    f.Then? ==>
      if Assigns(f.tail) > 0 then EndsInNumber(f.tail)
      else f.head.Goal().Some? ==> f.head.Dec?
  }

  /** A complete scan is blind to appended text that cannot prolong its last number. */
  lemma {:induction false} AcceptStable(f: Format, s: string, t: string, r: Result)
    requires EndsInNumber(f) && Digits.Stops(t)
    requires Run(f, s, r).count == r.count + Assigns(f)
    ensures Run(f, s + t, r) == Run(f, s, r)
  {
    if Assigns(f) == 0 {
      NoAssignment(f, s, r);
      NoAssignment(f, s + t, r);
    } else {
      var m := MatchOne(f.head, s);
      var r' := Put(f.head.Goal(), m.value, r);
      if Assigns(f.tail) > 0 {
        CountBound(f.tail, m.rest, r');
        EmptyInput(f.tail, r');
        MatchExtends(f.head, s, t);
        AcceptStable(f.tail, m.rest, t, r');
      } else {
        MatchExtends(f.head, s, t);
        NoAssignment(f.tail, m.rest, r');
        NoAssignment(f.tail, m.rest + t, r');
      }
    }
  }

  /** No directive of `f` can consume the letter `c`. */
  predicate Avoids(f: Format, c: char) {
    f.Then? ==>
      && Avoids(f.tail, c)
      && (f.head.Space? || f.head.Dec? || (f.head.Lit? && c !in f.head.text))
  }

  predicate Letter(c: char) {
    'a' <= c <= 'z'
  }

  lemma SplitIn(s: string, n: nat, c: char)
    requires n <= |s| && c in s && c !in s[..n]
    ensures c in s[n..]
  {
    assert s == s[..n] + s[n..];
  }

  lemma DropKeeps(k: CharClass, s: string, c: char)
    requires c in s && !k.Has(c)
    ensures c in Drop(k, s) && Drop(k, s) != ""
  {
    SpanExact(k, s);
    SplitIn(s, Span(k, s), c);
  }

  lemma SkipSignKeeps(s: string, c: char)
    requires c in s && Letter(c)
    ensures c in SkipSign(s)
  {
    if Sign(s) { SplitIn(s, 1, c); }
  }

  lemma LitStaysAway(text: string, s: string, t: string, c: char)
    requires c in s && c !in text && !(text <= s)
    ensures !(text <= s + t)
  {
    var j :| 0 <= j < |s| && s[j] == c;
    if j < |text| {
      assert (s + t)[j] == c;
    } else {
      assert (s + t)[..|text|] == s[..|text|];
    }
  }

  /** A letter that a directive cannot consume stays in the rest, and pins its verdict. */
  lemma LetterBlocks(d: Directive, s: string, t: string, c: char)
    requires Letter(c) && c in s
    requires d.Space? || d.Dec? || (d.Lit? && c !in d.text)
    ensures MatchOne(d, s).Match? ==> c in MatchOne(d, s).rest
    ensures MatchOne(d, s).Fail? ==> MatchOne(d, s + t).Fail?
  {
    match d
    case Space => DropKeeps(Blank, s, c);
    case Lit(text) =>
      if text <= s { SplitIn(s, |text|, c); }
      else { LitStaysAway(text, s, t, c); }
    case Dec(_) =>
      DropKeeps(Blank, s, c);
      var u := Drop(Blank, s);
      SkipSignKeeps(u, c);
      var v := SkipSign(u);
      DropKeeps(Digits, v, c);
      SpanPrefix(Blank, s, t);
      SkipSignExtends(u, t);
      SpanPrefix(Digits, v, t);
  }

  /** A line with a letter the format cannot consume is rejected whatever follows it. */
  lemma {:induction false} RejectStable(f: Format, s: string, t: string, r: Result, c: char)
    requires Avoids(f, c) && Letter(c) && c in s
    requires Run(f, s, r).count < r.count + Assigns(f)
    ensures Run(f, s + t, r).count < r.count + Assigns(f)
  {
    if f.Then? {
      var m := MatchOne(f.head, s);
      LetterBlocks(f.head, s, t, c);
      if m.Match? {
        MatchExtends(f.head, s, t);
        RejectStable(f.tail, m.rest, t, Put(f.head.Goal(), m.value, r), c);
      }
    }
  }

  lemma {:induction false} StuckAtLetter(f: Format, s: string, r: Result, c: char)
    requires Avoids(f, c) && Letter(c) && s != "" && s[0] == c
    ensures Run(f, s, r) == r
  {
    if f.Then? {
      DropBlanks("", s);
      assert '-' < 'a' <= s[0] && '+' < s[0];
      assert SkipSign(s) == s && Span(Digits, s) == 0;
      if f.head.Space? || f.head == Lit("") {
        assert s[0..] == s;
        StuckAtLetter(f.tail, s, r, c);
      } else if f.head.Lit? {
        assert f.head.text[0] in f.head.text;
      }
    }
  }

  /** Literals of `f` have no white space in them. */
  predicate Solid(f: Format) {
    f.Then? ==> Solid(f.tail) && (f.head.Lit? ==> NonBlank.All(f.head.text))
  }

  lemma DropBlanksInto(s: string, blanks: string, tail: string)
    requires Blank.All(blanks) && Blank.Stops(tail)
    ensures Drop(Blank, s + (blanks + tail)) == if Drop(Blank, s) == "" then tail else Drop(Blank, s) + (blanks + tail)
  {
    SpanExact(Blank, s);
    if Drop(Blank, s) == "" {
      assert s + (blanks + tail) == (s + blanks) + tail && s[..|s|] == s;
      DropBlanks(s + blanks, tail);
    } else {
      SpanPrefix(Blank, s, blanks + tail);
    }
  }

  /** A directive that fails on `s` fails on `s` followed by blanks and such a letter. */
  lemma FailBeforeLetter(d: Directive, s: string, blanks: string, tail: string, c: char)
    requires Letter(c) && tail != "" && tail[0] == c && blanks != "" && Blank.All(blanks)
    requires d.Dec? || (d.Lit? && NonBlank.All(d.text))
    requires MatchOne(d, s).Fail?
    ensures MatchOne(d, s + (blanks + tail)).Fail?
  {
    assert (blanks + tail)[0] == blanks[0] && Blank.Has(blanks[0]);
    match d
    case Lit(text) => LitFails(text, s, blanks + tail);
    case Dec(_) => DecFails(s, blanks, tail, c);
  }

  lemma LitFails(text: string, s: string, t: string)
    requires NonBlank.All(text) && t != "" && Blank.Has(t[0]) && !(text <= s)
    ensures !(text <= s + t)
  {
    if |text| <= |s| {
      assert (s + t)[..|text|] == s[..|text|];
    } else {
      assert (s + t)[|s|] == t[0];
      assert NonBlank.Has(text[|s|]);
    }
  }

  /** MatchDec behind its leading blanks. */
  predicate Numberless(u: string) {
    Span(Digits, SkipSign(u)) == 0
  }

  lemma NumberlessExtends(u: string, t: string)
    requires u != "" && t != "" && Blank.Has(t[0]) && Numberless(u)
    ensures Numberless(u + t)
  {
    SkipSignExtends(u, t);
    assert !Digits.Has(t[0]);
    var v := SkipSign(u);
    if v == "" { assert v + t == t; } else { assert (v + t)[0] == v[0]; }
  }

  lemma DecFails(s: string, blanks: string, tail: string, c: char)
    requires Letter(c) && tail != "" && tail[0] == c && blanks != "" && Blank.All(blanks)
    requires MatchDec(s).Fail?
    ensures MatchDec(s + (blanks + tail)).Fail?
  {
    var u := Drop(Blank, s);
    assert (blanks + tail)[0] == blanks[0] && Blank.Has(blanks[0]);
    DropBlanksInto(s, blanks, tail);
    assert Numberless(u);
    if u == "" {
      assert Numberless(tail);
    } else {
      NumberlessExtends(u, blanks + tail);
    }
  }

  /** An incomplete scan of `s` stays incomplete when blanks and a foreign letter follow. */
  lemma {:induction false} RejectBeforeLetter(f: Format, s: string, blanks: string, tail: string, r: Result, c: char)
    requires Avoids(f, c) && Solid(f) && Letter(c)
    requires tail != "" && tail[0] == c && blanks != "" && Blank.All(blanks)
    requires Run(f, s, r).count < r.count + Assigns(f)
    ensures Run(f, s + (blanks + tail), r).count < r.count + Assigns(f)
  {
    if f.Then? {
      var t := blanks + tail;
      var m := MatchOne(f.head, s);
      if m.Fail? {
        FailBeforeLetter(f.head, s, blanks, tail, c);
      } else {
        var r' := Put(f.head.Goal(), m.value, r);
        if f.head.Space? {
          DropBlanksInto(s, blanks, tail);
          if m.rest == "" {
            StuckAtLetter(f.tail, tail, r, c);
            if Assigns(f.tail) == 0 { NoAssignment(f.tail, m.rest, r); }
          } else {
            RejectBeforeLetter(f.tail, m.rest, blanks, tail, r, c);
          }
        } else {
          assert t[0] == blanks[0] && Blank.Has(blanks[0]);
          LitOrDecExtends(f.head, s, t);
          RejectBeforeLetter(f.tail, m.rest, blanks, tail, r', c);
        }
      }
    }
  }

  lemma LitOrDecExtends(d: Directive, s: string, t: string)
    requires (d.Lit? || d.Dec?) && MatchOne(d, s).Match? && Digits.Stops(t)
    ensures MatchOne(d, s + t) == Match(MatchOne(d, s).value, MatchOne(d, s).rest + t)
  {
    if d.Lit? { assert (s + t)[|d.text|..] == s[|d.text|..] + t; } else { DecExtends(s, t); }
  }
}
