/** Which single words satisfy the summary format of the metrics parsers, and as which numbers. */
module SummaryNames {
  import opened Text
  import opened Scanf
  import opened LogParsers

  /** The five numbers of a summary and whatever follows them. */
  datatype Spelling = Spelling(
    rms: Numeral, max: Numeral, freq: Numeral, deviation: Numeral, delay: Numeral, rest: string)
  {
    predicate Ok() {
      rms.Ok() && max.Ok() && freq.Ok() && deviation.Ok() && delay.Ok() && Digits.Stops(rest)
    }

    function Numbers(): Stats
      requires Ok()
    {
      Stats(max.Value(), freq.Value(), delay.Value(), 0)
    }
  }

  /** A key with its number, run together. */
  function KeyText(key: string, n: Numeral, rest: string): string {
    key + (n.sign + (n.digits + rest))
  }

  function SpellingText(p: Spelling): string {
    KeyText("rms", p.rms, KeyText("max", p.max, KeyText("freq", p.freq, KeyText("+/-", p.deviation,
      KeyText("delay", p.delay, p.rest)))))
  }

  /** The word begins with `rms`, `max`, `freq`, `+/-` and `delay`, each followed by a number. */
  ghost predicate SpellsSummary(word: string) {
    exists p: Spelling :: p.Ok() && word == SpellingText(p)
  }

  /** The summary format reads its three values from the word alone. */
  predicate AcceptsName(word: string) {
    Run(RmsFields(), " " + word, START).count == 3
  }

  predicate KeyOk(key: string) {
    key != "" && NonBlank.All(key) && !IsDigit(key[0])
  }

  function PutValue(t: Option<Target>, n: Numeral, r: Result): Result
    requires n.Ok()
  {
    Put(t, Some(Num(n.Value())), r)
  }

  // ----- a spelled word is read -----

  lemma KeyStops(key: string, n: Numeral, rest: string)
    requires KeyOk(key)
    ensures Digits.Stops(KeyText(key, n, rest)) && Blank.Stops(KeyText(key, n, rest))
  {
    assert KeyText(key, n, rest)[0] == key[0] && NonBlank.Has(key[0]);
  }

  lemma NoBlanks(s: string, f: Format, r: Result)
    requires Blank.Stops(s)
    ensures Run(Then(Space, f), s, r) == Run(f, s, r)
  {
    ScanSpace("", s, f, r);
    assert "" + s == s;
  }

  lemma ScanNumber(t: Option<Target>, n: Numeral, rest: string, f: Format, r: Result)
    requires n.Ok() && Digits.Stops(rest)
    ensures Run(Then(Space, Then(Dec(t), f)), n.sign + (n.digits + rest), r) == Run(f, rest, PutValue(t, n, r))
  {
    var number := n.sign + (n.digits + rest);
    MatchNumeral(n.sign, n.digits, rest);
    NoBlanks(number, Then(Dec(t), f), r);
    RunStep(Dec(t), f, number, Some(Num(n.Value())), rest, r);
  }

  lemma ScanKey(key: string, t: Option<Target>, n: Numeral, rest: string, f: Format, r: Result)
    requires KeyOk(key) && n.Ok() && Digits.Stops(rest)
    ensures Run(Keyed(key, t, f), KeyText(key, n, rest), r) == Run(f, rest, PutValue(t, n, r))
  {
    PastKey(key, t, n.sign + (n.digits + rest), f, r);
    ScanNumber(t, n, rest, f, r);
  }

  lemma ScanTwoKeys(k1: string, t1: Option<Target>, n1: Numeral, k2: string, t2: Option<Target>, n2: Numeral,
                    rest: string, f: Format, r: Result)
    requires KeyOk(k1) && KeyOk(k2) && n1.Ok() && n2.Ok() && Digits.Stops(rest)
    ensures Run(Keyed(k1, t1, Keyed(k2, t2, f)), KeyText(k1, n1, KeyText(k2, n2, rest)), r)
         == Run(f, rest, PutValue(t2, n2, PutValue(t1, n1, r)))
  {
    KeyStops(k2, n2, rest);
    ScanKey(k1, t1, n1, KeyText(k2, n2, rest), Keyed(k2, t2, f), r);
    ScanKey(k2, t2, n2, rest, f, PutValue(t1, n1, r));
  }

  lemma BlankInFront(word: string, key: string, t: Option<Target>, f: Format, r: Result)
    requires Blank.Stops(word)
    ensures Run(Keyed(key, t, f), " " + word, r) == Run(Keyed(key, t, f), word, r)
  {
    DropBlanks(" ", word);
  }

  /** " +/- %*ld" */
  function LastField(): Format {
    Keyed("+/-", None, End)
  }

  lemma SpellingIsRead(p: Spelling, r: Result)
    requires p.Ok()
    ensures Run(RmsFields(), " " + SpellingText(p), r)
         == PutValue(Some(PathDelay), p.delay, PutValue(Some(Freq), p.freq, PutValue(Some(Offset), p.max, r)))
  {
    var t5 := KeyText("delay", p.delay, p.rest);
    var t3 := KeyText("freq", p.freq, KeyText("+/-", p.deviation, t5));
    var f5 := Keyed("delay", Some(PathDelay), LastField());
    var f3 := Keyed("freq", Some(Freq), Keyed("+/-", None, f5));
    var r2 := PutValue(Some(Offset), p.max, r);
    KeyStops("rms", p.rms, KeyText("max", p.max, t3));
    BlankInFront(SpellingText(p), "rms", None, Keyed("max", Some(Offset), f3), r);
    KeyStops("freq", p.freq, KeyText("+/-", p.deviation, t5));
    ScanTwoKeys("rms", None, p.rms, "max", Some(Offset), p.max, t3, f3, r);
    FreqAndDelay(p, r2);
  }

  lemma FreqAndDelay(p: Spelling, r: Result)
    requires p.Ok()
    ensures Run(Keyed("freq", Some(Freq), Keyed("+/-", None, Keyed("delay", Some(PathDelay), LastField()))),
                KeyText("freq", p.freq, KeyText("+/-", p.deviation, KeyText("delay", p.delay, p.rest))), r)
         == PutValue(Some(PathDelay), p.delay, PutValue(Some(Freq), p.freq, r))
  {
    var t5 := KeyText("delay", p.delay, p.rest);
    var r4 := PutValue(Some(Freq), p.freq, r);
    KeyStops("delay", p.delay, p.rest);
    ScanTwoKeys("freq", Some(Freq), p.freq, "+/-", None, p.deviation, t5,
      Keyed("delay", Some(PathDelay), LastField()), r);
    ScanKey("delay", Some(PathDelay), p.delay, p.rest, LastField(), r4);
    NoAssignment(LastField(), p.rest, PutValue(Some(PathDelay), p.delay, r4));
  }

  // ----- a word that is read is spelled -----

  lemma NonBlankTail(s: string, i: nat)
    requires NonBlank.All(s) && i <= |s|
    ensures NonBlank.All(s[i..]) && Blank.Stops(s[i..]) && Drop(Blank, s[i..]) == s[i..]
  {
    assert forall k | 0 <= k < |s[i..]| :: s[i..][k] == s[i + k] && NonBlank.Has(s[i + k]);
    assert "" + s[i..] == s[i..];
    SpanOf(Blank, "", s[i..]);
  }

  /** A number that is read off a text without leading blanks starts it. */
  lemma SplitNumeral(s: string) returns (n: Numeral, rest: string)
    requires Drop(Blank, s) == s && MatchDec(s).Match?
    ensures n.Ok() && Digits.Stops(rest) && s == n.sign + (n.digits + rest)
  {
    var v := SkipSign(s);
    var k := Span(Digits, v);
    assert k > 0;
    SignSplit(s);
    DigitSplit(v);
    n, rest := Numeral(SignOf(s), v[..k]), v[k..];
  }

  lemma NoNumber(t: Option<Target>, s: string, f: Format, r: Result)
    requires NonBlank.All(s) && MatchDec(s).Fail?
    ensures Run(Then(Space, Then(Dec(t), f)), s, r) == r
  {
    NonBlankTail(s, 0);
    assert s[0..] == s;
    NoBlanks(s, Then(Dec(t), f), r);
  }

  /** Either a number starts the text or the scan ends in front of it. */
  lemma SplitNumber(t: Option<Target>, u: string, f: Format, r: Result)
    returns (found: bool, n: Numeral, rest: string)
    requires NonBlank.All(u)
    ensures !found ==> Run(Then(Space, Then(Dec(t), f)), u, r) == r
    ensures found ==> n.Ok() && Digits.Stops(rest) && u == n.sign + (n.digits + rest)
    ensures found ==> Run(Then(Space, Then(Dec(t), f)), u, r) == Run(f, rest, PutValue(t, n, r))
  {
    found, n, rest := MatchDec(u).Match?, Numeral("", ""), "";
    if found {
      NonBlankTail(u, 0);
      assert u[0..] == u;
      n, rest := SplitNumeral(u);
      ScanNumber(t, n, rest, f, r);
    } else {
      NoNumber(t, u, f, r);
    }
  }

  /** Either the field is on the word or the scan ends in front of it. */
  lemma SplitKey(key: string, t: Option<Target>, s: string, f: Format, r: Result)
    returns (found: bool, n: Numeral, rest: string)
    requires KeyOk(key) && NonBlank.All(s)
    ensures !found ==> Run(Keyed(key, t, f), s, r) == r
    ensures found ==> n.Ok() && Digits.Stops(rest) && NonBlank.All(rest) && s == KeyText(key, n, rest)
    ensures found ==> Run(Keyed(key, t, f), s, r) == Run(f, rest, PutValue(t, n, r))
  {
    found, n, rest := false, Numeral("", ""), "";
    if key <= s {
      var u := s[|key|..];
      NonBlankTail(s, |key|);
      assert s == key + u;
      PastKey(key, t, u, f, r);
      found, n, rest := SplitNumber(t, u, f, r);
      if found {
        RestIsWord(u, n.digits + rest, n.sign);
        RestIsWord(n.digits + rest, rest, n.digits);
      }
    } else {
      NoKey(key, t, s, f, r);
    }
  }

  lemma RestIsWord(s: string, rest: string, front: string)
    requires NonBlank.All(s) && s == front + rest
    ensures NonBlank.All(rest)
  {
    NonBlankTail(s, |front|);
    assert rest == s[|front|..];
  }

  lemma PastKey(key: string, t: Option<Target>, u: string, f: Format, r: Result)
    requires KeyOk(key)
    ensures Run(Keyed(key, t, f), key + u, r) == Run(Then(Space, Then(Dec(t), f)), u, r)
  {
    var g := Then(Space, Then(Dec(t), f));
    assert (key + u)[0] == key[0] && NonBlank.Has(key[0]);
    NoBlanks(key + u, Then(Lit(key), g), r);
    ScanLit(key, u, g, r);
  }

  lemma NoKey(key: string, t: Option<Target>, s: string, f: Format, r: Result)
    requires NonBlank.All(s) && !(key <= s)
    ensures Run(Keyed(key, t, f), s, r) == r
  {
    NonBlankTail(s, 0);
    assert s[0..] == s;
    NoBlanks(s, Then(Lit(key), Then(Space, Then(Dec(t), f))), r);
  }

  /** Two fields on the word, or the scan gets no further than the first. */
  lemma SplitTwoKeys(k1: string, t1: Option<Target>, k2: string, t2: Option<Target>, s: string, f: Format, r: Result)
    returns (found: bool, n1: Numeral, n2: Numeral, rest: string)
    requires KeyOk(k1) && KeyOk(k2) && NonBlank.All(s)
    ensures !found ==> Run(Keyed(k1, t1, Keyed(k2, t2, f)), s, r).count <= r.count + if t1.Some? then 1 else 0
    ensures found ==> n1.Ok() && n2.Ok() && Digits.Stops(rest) && NonBlank.All(rest)
    ensures found ==> s == KeyText(k1, n1, KeyText(k2, n2, rest))
    ensures found ==> Run(Keyed(k1, t1, Keyed(k2, t2, f)), s, r) == Run(f, rest, PutValue(t2, n2, PutValue(t1, n1, r)))
  {
    n2 := Numeral("", "");
    var middle;
    found, n1, middle := SplitKey(k1, t1, s, Keyed(k2, t2, f), r);
    rest := "";
    if found {
      found, n2, rest := SplitKey(k2, t2, middle, f, PutValue(t1, n1, r));
    }
  }

  lemma ReadIsSpelling(word: string) returns (p: Spelling)
    requires NonBlank.All(word) && AcceptsName(word)
    ensures p.Ok() && word == SpellingText(p)
  {
    NonBlankTail(word, 0);
    assert word[0..] == word;
    BlankInFront(word, "rms", None, Keyed("max", Some(Offset), FreqFormat()), START);
    var found, rms, max, s3 := SplitTwoKeys("rms", None, "max", Some(Offset), word, FreqFormat(), START);
    var r2 := PutValue(Some(Offset), max, START);
    var freq, deviation, delay, rest := SplitRest(s3, r2);
    p := Spelling(rms, max, freq, deviation, delay, rest);
  }

  /** " freq %ld +/- %*ld delay %ld +/- %*ld" */
  function FreqFormat(): Format {
    Keyed("freq", Some(Freq), Keyed("+/-", None, Keyed("delay", Some(PathDelay), LastField())))
  }

  lemma SplitRest(s: string, r: Result) returns (freq: Numeral, deviation: Numeral, delay: Numeral, rest: string)
    requires NonBlank.All(s) && Run(FreqFormat(), s, r).count == r.count + 2
    ensures freq.Ok() && deviation.Ok() && delay.Ok() && Digits.Stops(rest)
    ensures s == KeyText("freq", freq, KeyText("+/-", deviation, KeyText("delay", delay, rest)))
  {
    var f5 := Keyed("delay", Some(PathDelay), LastField());
    var found, found5, s5;
    found, freq, deviation, s5 := SplitTwoKeys("freq", Some(Freq), "+/-", None, s, f5, r);
    found5, delay, rest := SplitKey("delay", Some(PathDelay), s5, LastField(), PutValue(Some(Freq), freq, r));
  }

  /** The format accepts exactly the words that spell a summary. */
  lemma NameAccepted(word: string)
    requires NonBlank.All(word)
    ensures AcceptsName(word) <==> SpellsSummary(word)
  {
    if AcceptsName(word) {
      var p := ReadIsSpelling(word);
    }
    if SpellsSummary(word) {
      var p: Spelling :| p.Ok() && word == SpellingText(p);
      SpellingIsRead(p, START);
    }
  }

  // ----- building such words -----

  lemma KeyTextIsWord(key: string, n: Numeral, rest: string)
    requires NonBlank.All(key) && n.Ok() && NonBlank.All(rest) && '\0' !in key && '\0' !in rest
    ensures NonBlank.All(KeyText(key, n, rest)) && '\0' !in KeyText(key, n, rest)
  {
    assert NonBlank.All(n.sign) && NonBlank.All(n.digits);
    assert KeyText(key, n, rest) == key + ((n.sign + n.digits) + rest);
  }

  lemma SpellingIsWord(p: Spelling)
    requires p.Ok() && NonBlank.All(p.rest) && '\0' !in p.rest
    ensures NonBlank.All(SpellingText(p)) && '\0' !in SpellingText(p) && SpellingText(p) != ""
  {
    var t5 := KeyText("delay", p.delay, p.rest);
    var t4 := KeyText("+/-", p.deviation, t5);
    var t3 := KeyText("freq", p.freq, t4);
    KeyTextIsWord("delay", p.delay, p.rest);
    KeyTextIsWord("+/-", p.deviation, t5);
    KeyTextIsWord("freq", p.freq, t4);
    KeyTextIsWord("max", p.max, t3);
    KeyTextIsWord("rms", p.rms, KeyText("max", p.max, t3));
  }
}
