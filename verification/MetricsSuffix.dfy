/** Properties of the two metrics parsers that hold for every message. */
module MetricsSuffix {
  import opened Text
  import opened Scanf
  import opened ScanfSuffix
  import opened LogParsers

  // ----- the shapes of the formats -----

  lemma KeyedShape(key: string, t: Option<Target>, f: Format)
    requires EndsInNumber(f)
    ensures Assigns(Keyed(key, t, f)) == Assigns(f) + (if t.Some? then 1 else 0)
    ensures EndsInNumber(Keyed(key, t, f))
    ensures Avoids(f, 'o') && 'o' !in key ==> Avoids(Keyed(key, t, f), 'o')
    ensures forall x :: Assigned(f, x) || t == Some(x) ==> Assigned(Keyed(key, t, f), x)
  {
    var d := Then(Dec(t), f);
    assert Assigns(d) == Assigns(f) + (if t.Some? then 1 else 0);
    assert EndsInNumber(d) && EndsInNumber(Then(Space, d)) && EndsInNumber(Then(Lit(key), Then(Space, d)));
    assert forall x :: Assigned(f, x) || t == Some(x) ==> Assigned(d, x) && Assigned(Then(Space, d), x);
    assert forall x :: Assigned(Then(Space, d), x) ==> Assigned(Then(Lit(key), Then(Space, d)), x);
    assert Avoids(f, 'o') ==> Avoids(d, 'o') && Avoids(Then(Space, d), 'o');
    assert Avoids(f, 'o') && 'o' !in key ==> Avoids(Then(Lit(key), Then(Space, d)), 'o');
  }

  lemma SilentShape(d: Directive, f: Format)
    requires EndsInNumber(f) && d.Goal().None?
    ensures Assigns(Then(d, f)) == Assigns(f) && EndsInNumber(Then(d, f))
    ensures forall x :: Assigned(f, x) <==> Assigned(Then(d, f), x)
  {
  }

  lemma RmsShape()
    ensures Assigns(RmsFields()) == 3 && EndsInNumber(RmsFields()) && Avoids(RmsFields(), 'o')
    ensures !Assigned(RmsFields(), State)
  {
    var f6 := Keyed("+/-", None, End);
    var f5 := Keyed("delay", Some(PathDelay), f6);
    var f4 := Keyed("+/-", None, f5);
    var f3 := Keyed("freq", Some(Freq), f4);
    var f2 := Keyed("max", Some(Offset), f3);
    KeyedShape("+/-", None, End);
    KeyedShape("delay", Some(PathDelay), f6);
    KeyedShape("+/-", None, f5);
    KeyedShape("freq", Some(Freq), f4);
    KeyedShape("max", Some(Offset), f3);
    KeyedShape("rms", None, f2);
    assert !Assigned(f6, State) && !Assigned(f5, State) && !Assigned(f4, State) && !Assigned(f3, State);
    assert !Assigned(f2, State);
  }

  predicate WritesStats(f: Format) {
    Assigned(f, Offset) && Assigned(f, State) && Assigned(f, Freq) && Assigned(f, PathDelay)
  }

  lemma OffsetShape(f: Format)
    requires EndsInNumber(f) && Assigns(f) == 1 && Assigned(f, PathDelay)
    ensures Assigns(OffsetFields(f)) == 4 && EndsInNumber(OffsetFields(f)) && WritesStats(OffsetFields(f))
    ensures Needs(OffsetFields(f), 'o')
  {
    var freq := Keyed("freq", Some(Freq), f);
    var servo := Then(Dec(Some(State)), freq);
    KeyedShape("freq", Some(Freq), f);
    SilentShape(Lit("s"), servo);
    SilentShape(Space, Then(Lit("s"), servo));
    KeyedShape("offset", Some(Offset), Then(Space, Then(Lit("s"), servo)));
    assert 'o' in "offset" by { assert "offset"[0] == 'o'; }
  }

  lemma Ptp4lRegularShape()
    ensures var f := OffsetFields(Spaced("path", Keyed("delay", Some(PathDelay), End)));
            Assigns(f) == 4 && EndsInNumber(f) && WritesStats(f) && Needs(f, 'o')
  {
    var d := Keyed("delay", Some(PathDelay), End);
    KeyedShape("delay", Some(PathDelay), End);
    SilentShape(Lit("path"), d);
    SilentShape(Space, Then(Lit("path"), d));
    OffsetShape(Spaced("path", d));
  }

  lemma Phc2SysRegularShape()
    ensures var f := OffsetFields(Keyed("delay", Some(PathDelay), End));
            Assigns(f) == 4 && EndsInNumber(f) && WritesStats(f) && Needs(f, 'o')
  {
    KeyedShape("delay", Some(PathDelay), End);
    OffsetShape(Keyed("delay", Some(PathDelay), End));
  }

  lemma SkippedShape(f: Format)
    requires EndsInNumber(f)
    ensures Assigns(SkippedWord(f)) == Assigns(f) && EndsInNumber(SkippedWord(f))
    ensures forall x :: Assigned(f, x) <==> Assigned(SkippedWord(f), x)
  {
    SilentShape(Word(None, None), f);
    SilentShape(Space, Then(Word(None, None), f));
  }

  lemma StampedShape(f: Format)
    requires EndsInNumber(f) && Assigns(f) > 0
    ensures Assigns(Stamped(f)) == Assigns(f) + 1 && EndsInNumber(Stamped(f))
    ensures WritesStats(f) ==> WritesStats(Stamped(f))
    ensures Assigned(f, State) <==> Assigned(Stamped(f), State)
  {
    var close := Then(Lit("]"), f);
    SilentShape(Lit("]"), f);
    assert forall x :: Assigned(close, x) ==> Assigned(Then(Float(Some(Timestamp)), close), x);
    assert Assigned(Then(Float(Some(Timestamp)), close), State) ==> Assigned(f, State);
    SilentShape(Lit("["), Then(Float(Some(Timestamp)), close));
  }

  // ----- the second format never sees what the first one left behind -----

  /** The two attempts as if each had its own fresh struct. */
  function ParseFresh(s: string, rms: Format, regular: Format): Option<Stats> {
    if Accepts(rms, s) then Some(StatsOf(Run(rms, s, START)))
    else if Accepts(regular, s) then Some(StatsOf(Run(regular, s, START)))
    else None
  }

  lemma NoLeak(f: Format, s: string, store: map<Target, Item>)
    requires Accepts(f, s) && WritesStats(f)
    ensures StatsOf(Run(f, s, Result(0, store))) == StatsOf(Run(f, s, START))
  {
    RunIsRelative(f, s, Result(0, store));
    AcceptWritesAll(f, s, Offset);
    AcceptWritesAll(f, s, State);
    AcceptWritesAll(f, s, Freq);
    AcceptWritesAll(f, s, PathDelay);
  }

  lemma StatsAreFresh(msg: string, rms: Format, regular: Format)
    requires Assigns(rms) == 4 && Assigns(regular) == 5 && WritesStats(regular)
    ensures ParseStats(msg, rms, regular) == ParseFresh(CStr(msg), rms, regular)
  {
    var s := CStr(msg);
    var first := Run(rms, s, START);
    RunIsRelative(regular, s, Result(0, first.store));
    if Accepts(regular, s) { NoLeak(regular, s, first.store); }
  }

  lemma SummaryHasNoState(f: Format, s: string)
    requires Accepts(f, s) && !Assigned(f, State)
    ensures StatsOf(Run(f, s, START)).state == 0
  {
    AcceptWritesAll(f, s, State);
  }

  /** Nothing a failed rms attempt stored survives, and a summary line reports servo state 0. */
  lemma Ptp4lStatsAreFresh(msg: string)
    ensures ParsePtp4lMetrics(msg) == ParseFresh(CStr(msg), Ptp4lRms(), Ptp4lOffset())
    ensures Accepts(Ptp4lRms(), CStr(msg)) ==> ParsePtp4lMetrics(msg).value.state == 0
  {
    var g := OffsetFields(Spaced("path", Keyed("delay", Some(PathDelay), End)));
    RmsShape();
    StampedShape(RmsFields());
    Ptp4lRegularShape();
    SkippedShape(g);
    StampedShape(SkippedWord(g));
    StatsAreFresh(msg, Ptp4lRms(), Ptp4lOffset());
    if Accepts(Ptp4lRms(), CStr(msg)) { SummaryHasNoState(Ptp4lRms(), CStr(msg)); }
  }

  lemma Phc2SysStatsAreFresh(msg: string)
    ensures ParsePhc2SysMetrics(msg) == ParseFresh(CStr(msg), Phc2SysRms(), Phc2SysOffset())
    ensures Accepts(Phc2SysRms(), CStr(msg)) ==> ParsePhc2SysMetrics(msg).value.state == 0
  {
    var g := OffsetFields(Keyed("delay", Some(PathDelay), End));
    RmsShape();
    SkippedShape(RmsFields());
    StampedShape(SkippedWord(RmsFields()));
    Phc2SysRegularShape();
    SkippedShape(g);
    SkippedShape(SkippedWord(g));
    StampedShape(SkippedWord(SkippedWord(g)));
    StatsAreFresh(msg, Phc2SysRms(), Phc2SysOffset());
    if Accepts(Phc2SysRms(), CStr(msg)) { SummaryHasNoState(Phc2SysRms(), CStr(msg)); }
  }

  // ----- appended text -----

  /** `f` must match a literal with `c` in it before its last assignment. */
  predicate Needs(f: Format, c: char) {
    f.Then? && ((f.head.Lit? && c in f.head.text && Assigns(f.tail) > 0) || Needs(f.tail, c))
  }

  lemma MantissaRest(u: string, c: char)
    requires MatchMantissa(u).Match? && c in MatchMantissa(u).rest
    ensures c in u
  {
    var v := Drop(Digits, u);
    if v != "" && v[0] == '.' {
      ExponentRest(Drop(Digits, v[1..]), c);
      assert c in v[1..];
    } else {
      ExponentRest(v, c);
    }
    assert c in v;
  }

  lemma ExponentRest(s: string, c: char)
    requires MatchExponent(s).Match? && c in MatchExponent(s).rest
    ensures c in s
  {
    if s != "" && (s[0] == 'e' || s[0] == 'E') {
      assert c in SkipSign(s[1..]);
      assert c in s[1..];
    }
  }

  /** A directive leaves part of the text it was given. */
  lemma RestIsPart(d: Directive, s: string, c: char)
    requires MatchOne(d, s).Match? && c in MatchOne(d, s).rest
    ensures c in s
  {
    if d.Float? {
      MantissaRest(SkipSign(Drop(Blank, s)), c);
    } else if d.Dec? {
      assert c in SkipSign(Drop(Blank, s));
    }
  }

  lemma {:induction false} NeedsAssigns(f: Format, c: char)
    requires Needs(f, c)
    ensures Assigns(f) > 0
  {
    if !(f.head.Lit? && c in f.head.text && Assigns(f.tail) > 0) { NeedsAssigns(f.tail, c); }
  }

  lemma {:induction false} AcceptedHasLetter(f: Format, s: string, r: Result, c: char)
    requires Needs(f, c) && Run(f, s, r).count == r.count + Assigns(f)
    ensures c in s
  {
    NeedsAssigns(f, c);
    var m := MatchOne(f.head, s);
    if f.head.Lit? && c in f.head.text && Assigns(f.tail) > 0 {
      var i :| 0 <= i < |f.head.text| && f.head.text[i] == c;
      assert s[i] == c;
    } else {
      CountBound(f.tail, m.rest, Put(f.head.Goal(), m.value, r));
      AcceptedHasLetter(f.tail, m.rest, Put(f.head.Goal(), m.value, r), c);
      RestIsPart(f.head, s, c);
    }
  }

  /** What a shared beginning of two formats leaves for each of them. */
  lemma SharedStep(d: Directive, f: Format, g: Format, s: string, t: string, r: Result)
    requires Assigns(g) > 0 && Run(Then(d, g), s, r).count == r.count + Assigns(Then(d, g))
    ensures var m := MatchOne(d, s);
            var r' := Put(d.Goal(), m.value, r);
            && m.Match? && m.rest != ""
            && Run(Then(d, f), s, r) == Run(f, m.rest, r')
            && Run(Then(d, f), s + t, r) == Run(f, m.rest + t, r')
            && Run(g, m.rest, r').count == r'.count + Assigns(g)
            && r'.count == r.count + Assigns(Then(d, g)) - Assigns(g)
  {
    CountBound(Then(d, g), s, r);
    var m := MatchOne(d, s);
    var r' := Put(d.Goal(), m.value, r);
    CountBound(g, m.rest, r');
    EmptyInput(g, r');
    MatchExtends(d, s, t);
  }

  lemma RejectRmsStable(g: Format, s: string, t: string, r: Result)
    requires Needs(g, 'o') && Run(g, s, r).count == r.count + Assigns(g)
    requires Run(RmsFields(), s, r).count != r.count + 3
    ensures Run(RmsFields(), s + t, r).count != r.count + 3
  {
    RmsShape();
    AcceptedHasLetter(g, s, r, 'o');
    CountBound(RmsFields(), s, r);
    RejectStable(RmsFields(), s, t, r, 'o');
  }

  lemma RejectSkippedStable(g: Format, s: string, t: string, r: Result)
    requires Needs(g, 'o') && Assigns(g) > 0
    requires Run(SkippedWord(g), s, r).count == r.count + Assigns(g)
    requires Run(SkippedWord(RmsFields()), s, r).count != r.count + 3
    ensures Run(SkippedWord(RmsFields()), s + t, r).count != r.count + 3
  {
    var d := Word(None, None);
    SharedStep(Space, Then(d, RmsFields()), Then(d, g), s, t, r);
    var s1 := MatchOne(Space, s).rest;
    SharedStep(d, RmsFields(), g, s1, t, r);
    RejectRmsStable(g, MatchOne(d, s1).rest, t, r);
  }

  lemma StampedStep(f: Format, g: Format, s: string, t: string) returns (b: string, r: Result)
    requires Assigns(g) > 0 && Accepts(Stamped(g), s)
    ensures r.count == 1 && b != ""
    ensures Run(Stamped(f), s, START) == Run(f, b, r)
    ensures Run(Stamped(f), s + t, START) == Run(f, b + t, r)
    ensures Run(g, b, r).count == 1 + Assigns(g)
  {
    var tail := Then(Lit("]"), g);
    var float := Float(Some(Timestamp));
    assert Assigns(tail) == Assigns(g);
    SharedStep(Lit("["), Then(float, Then(Lit("]"), f)), Then(float, tail), s, t, START);
    var s1 := MatchOne(Lit("["), s).rest;
    SharedStep(float, Then(Lit("]"), f), tail, s1, t, START);
    var s2 := MatchOne(float, s1).rest;
    r := Put(Some(Timestamp), MatchOne(float, s1).value, START);
    SharedStep(Lit("]"), f, g, s2, t, r);
    b := MatchOne(Lit("]"), s2).rest;
  }

  lemma CStrConcat(msg: string, t: string) returns (u: string)
    requires Digits.Stops(t)
    ensures CStr(msg + t) == CStr(msg) + u && Digits.Stops(u)
  {
    var k := Except('\0');
    if Span(k, msg) < |msg| {
      SpanPrefix(k, msg, t);
      u := "";
    } else {
      SpanExact(k, msg);
      SpanExact(k, t);
      var n := Span(k, t);
      assert msg + t == (msg + t[..n]) + t[n..] && msg[..|msg|] == msg;
      SpanOf(k, msg + t[..n], t[n..]);
      u := t[..n];
    }
  }

  /** An accepted line means the same after any appended text that cannot prolong a number. */
  lemma Ptp4lMetricsStable(msg: string, t: string)
    requires ParsePtp4lMetrics(msg).Some? && Digits.Stops(t)
    ensures ParsePtp4lMetrics(msg + t) == ParsePtp4lMetrics(msg)
  {
    var u := CStrConcat(msg, t);
    var s := CStr(msg);
    var g := OffsetFields(Spaced("path", Keyed("delay", Some(PathDelay), End)));
    RmsShape();
    StampedShape(RmsFields());
    Ptp4lRegularShape();
    SkippedShape(g);
    StampedShape(SkippedWord(g));
    Ptp4lStatsAreFresh(msg);
    Ptp4lStatsAreFresh(msg + t);
    if Accepts(Ptp4lRms(), s) {
      AcceptStable(Ptp4lRms(), s, u, START);
    } else {
      AcceptStable(Ptp4lOffset(), s, u, START);
      var b, r := StampedStep(RmsFields(), SkippedWord(g), s, u);
      assert Needs(SkippedWord(g), 'o');
      RejectRmsStable(SkippedWord(g), b, u, r);
    }
  }

  lemma Phc2SysMetricsStable(msg: string, t: string)
    requires ParsePhc2SysMetrics(msg).Some? && Digits.Stops(t)
    ensures ParsePhc2SysMetrics(msg + t) == ParsePhc2SysMetrics(msg)
  {
    var u := CStrConcat(msg, t);
    var s := CStr(msg);
    var g := OffsetFields(Keyed("delay", Some(PathDelay), End));
    RmsShape();
    SkippedShape(RmsFields());
    StampedShape(SkippedWord(RmsFields()));
    Phc2SysRegularShape();
    SkippedShape(g);
    SkippedShape(SkippedWord(g));
    StampedShape(SkippedWord(SkippedWord(g)));
    Phc2SysStatsAreFresh(msg);
    Phc2SysStatsAreFresh(msg + t);
    if Accepts(Phc2SysRms(), s) {
      AcceptStable(Phc2SysRms(), s, u, START);
    } else {
      AcceptStable(Phc2SysOffset(), s, u, START);
      var b, r := StampedStep(SkippedWord(RmsFields()), SkippedWord(SkippedWord(g)), s, u);
      assert Needs(SkippedWord(g), 'o');
      RejectSkippedStable(SkippedWord(g), b, u, r);
    }
  }
}
