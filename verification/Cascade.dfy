/** The ptp4l cascade inverts printing: every line reaches its own parser with its own fields. */
module Cascade {
  import opened Text
  import opened Scanf
  import opened LogParsers
  import opened LogLines
  import opened SummaryNames
  import S = ScanfSuffix
  import M = MetricsSuffix

  const STAMPED := Put(Some(Timestamp), Some(Seconds), START)

  function StampedText(t: Stamp, body: string): string {
    StampText(t.lead, t.seconds, t.fraction, body)
  }

  // ----- c_str() shows a printed line in full -----

  lemma CleanStr(s: string)
    requires '\0' !in s
    ensures CStr(s) == s
  {
    SpanOf(Except('\0'), s, "");
    assert s + "" == s;
  }

  lemma CleanNumber(plus: bool, v: int)
    ensures '\0' !in Signed(plus, v)
  {
    assert Digits.All(Decimal(Abs(v)));
  }

  lemma CleanField(key: string, x: Field, rest: string)
    requires '\0' !in key && '\0' !in rest
    ensures '\0' !in FieldText(key, x, rest)
  {
    CleanNumber(x.plus, x.value);
  }

  lemma CleanStamp(t: Stamp, body: string)
    requires StampOk(t) && '\0' !in body
    ensures '\0' !in StampedText(t, body)
  {
    assert Digits.All(Decimal(t.seconds));
    assert '\0' !in t.fraction;
  }

  lemma CleanRms(x: Line)
    requires x.RmsLine?
    ensures '\0' !in RmsText(x)
  {
    var t6 := FieldText("+/-", x.delayDeviation, "");
    CleanField("+/-", x.delayDeviation, "");
    CleanField("delay", x.delay, t6);
    var t4 := FieldText("+/-", x.freqDeviation, FieldText("delay", x.delay, t6));
    CleanField("+/-", x.freqDeviation, FieldText("delay", x.delay, t6));
    CleanField("freq", x.freq, t4);
    CleanField("max", x.max, FieldText("freq", x.freq, t4));
    CleanField("rms", x.rms, FieldText("max", x.max, FieldText("freq", x.freq, t4)));
  }

  lemma CleanOffset(x: Line)
    requires x.OffsetLine? && '\0' !in x.source
    ensures '\0' !in Body(x)
  {
    var tail := PathText(x.pathGap, x.delay);
    CleanField("delay", x.delay, "");
    CleanField("freq", x.freq, tail);
    CleanField("s", x.servo, FieldText("freq", x.freq, tail));
    CleanField("offset", x.offset, FieldText("s", x.servo, FieldText("freq", x.freq, tail)));
  }

  lemma CleanPort(number: int, name: string, rest: string)
    requires '\0' !in name && '\0' !in rest
    ensures '\0' !in PortText(number, name, rest)
  {
    CleanField("port", Field(1, 1, false, number), " " + ("(" + (name + ("):" + rest))));
  }

  lemma CleanSpaced(word: string, rest: string)
    requires '\0' !in word && '\0' !in rest
    ensures '\0' !in SpacedText(word, rest)
  {
  }

  lemma CleanTransition(e: PortEvent)
    requires WellFormed(PortLine(e))
    ensures '\0' !in TransitionText(e)
  {
    CleanSpaced(e.trigger, "");
    CleanSpaced("on", SpacedText(e.trigger, ""));
    CleanSpaced(e.toState, SpacedText("on", SpacedText(e.trigger, "")));
    CleanSpaced("to", SpacedText(e.toState, SpacedText("on", SpacedText(e.trigger, ""))));
  }

  lemma CleanForeign(e: ForeignMaster)
    requires WellFormed(ForeignLine(e))
    ensures '\0' !in ForeignText(e)
  {
    CleanNumber(false, e.masterPort);
    var tail := IdentityText(e);
    CleanSpaced("master", tail);
    CleanSpaced("foreign", SpacedText("master", tail));
  }

  lemma SameStamp(store: map<Target, Item>)
    requires store == map[] || store == STAMPED.store
    ensures Put(Some(Timestamp), Some(Seconds), Result(0, store)) == STAMPED
  {
    assert Put(Some(Timestamp), Some(Seconds), Result(0, store)).store == STAMPED.store;
  }

  /** sscanf on a printed line starts behind the time stamp. */
  lemma ScanPrinted(t: Stamp, body: string, f: Format, store: map<Target, Item>)
    requires StampOk(t) && '\0' !in body && (store == map[] || store == STAMPED.store)
    ensures Sscanf(StampedText(t, body), Stamped(f), store) == Run(f, body, STAMPED)
  {
    SameStamp(store);
    CleanStamp(t, body);
    CleanStr(StampedText(t, body));
    ScanStamp(t.lead, t.seconds, t.fraction, body, f, Result(0, store));
  }

  // ----- substring tests -----

  lemma ContainsSuffix(a: string, b: string, pattern: string)
    requires Contains(b, pattern)
    ensures Contains(a + b, pattern)
  {
    var i :| 0 <= i <= |b| - |pattern| && OccursAt(b, pattern, i);
    assert (a + b)[|a| + i..|a| + i + |pattern|] == b[i..i + |pattern|];
    assert OccursAt(a + b, pattern, |a| + i);
  }

  lemma ContainsStart(s: string, pattern: string)
    requires pattern <= s
    ensures Contains(s, pattern)
  {
    assert s == "" + (pattern + s[|pattern|..]);
    ContainsMiddle("", pattern, s[|pattern|..]);
  }

  lemma ContainsBehindStamp(t: Stamp, body: string, pattern: string)
    requires Contains(body, pattern)
    ensures Contains(StampedText(t, body), pattern)
  {
    ContainsSuffix("]", body, pattern);
    ContainsSuffix(t.fraction, "]" + body, pattern);
    ContainsSuffix(".", t.fraction + ("]" + body), pattern);
    ContainsSuffix(Decimal(t.seconds), "." + (t.fraction + ("]" + body)), pattern);
    ContainsSuffix(Spaces(t.lead), Decimal(t.seconds) + ("." + (t.fraction + ("]" + body))), pattern);
    ContainsSuffix("[", Spaces(t.lead) + (Decimal(t.seconds) + ("." + (t.fraction + ("]" + body)))), pattern);
  }

  // ----- metrics lines -----

  /** What the four numbers of a metrics scan are read from. */
  function Measured(offset: Field, freq: Field, delay: Field): Result {
    PutNum(Some(PathDelay), delay, PutNum(Some(Freq), freq, PutNum(Some(Offset), offset, STAMPED)))
  }

  lemma RmsParses(t: Stamp, x: Line)
    requires StampOk(t) && x.RmsLine?
    ensures ParsePtp4lMetrics(Print(t, x)) == Some(Stats(x.max.value, x.freq.value, x.delay.value, 0))
  {
    CleanRms(x);
    ScanRms(x, STAMPED);
    ThreeNumbers(x.max, x.freq, x.delay);
    SummaryFrom(t, RmsText(x), Measured(x.max, x.freq, x.delay));
  }

  lemma ThreeNumbers(offset: Field, freq: Field, delay: Field)
    ensures Measured(offset, freq, delay).count == 4
    ensures StatsOf(Measured(offset, freq, delay)) == Stats(offset.value, freq.value, delay.value, 0)
  {
  }

  /** What an offset scan leaves. */
  function MeasuredAll(offset: Field, servo: Field, freq: Field, delay: Field): Result {
    PutNum(Some(PathDelay), delay, PutNum(Some(Freq), freq, PutNum(Some(State), servo,
      PutNum(Some(Offset), offset, STAMPED))))
  }

  lemma FourNumbers(offset: Field, servo: Field, freq: Field, delay: Field)
    ensures MeasuredAll(offset, servo, freq, delay).count == 5
    ensures StatsOf(MeasuredAll(offset, servo, freq, delay))
         == Stats(offset.value, freq.value, delay.value, servo.value)
  {
  }

  lemma RejectKeyed(key: string, t: Option<Target>, blanks: string, s: string, f: Format, r: Result)
    requires Blank.All(blanks) && s != "" && !IsSpace(s[0]) && !(key <= s)
    ensures Run(Keyed(key, t, f), blanks + s, r) == r
  {
    ScanSpace(blanks, s, Then(Lit(key), Then(Space, Then(Dec(t), f))), r);
  }

  lemma RejectRms(blanks: string, s: string, r: Result)
    requires Blank.All(blanks) && s != "" && !IsSpace(s[0]) && !("rms" <= s)
    ensures Run(RmsFields(), blanks + s, r) == r
  {
    RejectKeyed("rms", None, blanks, s, Keyed("max", Some(Offset), Keyed("freq", Some(Freq), Keyed("+/-", None,
      Keyed("delay", Some(PathDelay), Keyed("+/-", None, End))))), r);
  }

  function DelayFormat(): Format {
    Keyed("delay", Some(PathDelay), End)
  }

  lemma ScanPathDelay(gap: nat, delay: Field, r: Result)
    ensures Run(Spaced("path", DelayFormat()), PathText(gap, delay), r)
         == PutNum(Some(PathDelay), delay, r)
    ensures Digits.Stops(PathText(gap, delay))
  {
    var text := FieldText("delay", delay, "");
    BlanksStop(gap, "path" + text);
    ScanBehindBlanks(Spaces(gap), "path", text, DelayFormat(), r);
    ScanKeyed("delay", Some(PathDelay), delay, "", End, r);
  }

  lemma BlanksStop(gap: nat, s: string)
    requires Digits.Stops(s)
    ensures Digits.Stops(Spaces(gap) + s)
  {
    if gap == 0 {
      assert Spaces(gap) + s == s;
    } else {
      assert (Spaces(gap) + s)[0] == Spaces(gap)[0];
    }
  }

  lemma RmsIsSolid()
    ensures S.Solid(RmsFields())
  {
    var f5 := Keyed("delay", Some(PathDelay), Keyed("+/-", None, End));
    var f3 := Keyed("freq", Some(Freq), Keyed("+/-", None, f5));
    SolidPair("delay", Some(PathDelay), "+/-", None, End);
    SolidPair("freq", Some(Freq), "+/-", None, f5);
    SolidPair("rms", None, "max", Some(Offset), f3);
  }

  lemma SolidPair(k1: string, t1: Option<Target>, k2: string, t2: Option<Target>, f: Format)
    requires S.Solid(f) && NonBlank.All(k1) && NonBlank.All(k2)
    ensures S.Solid(Keyed(k1, t1, Keyed(k2, t2, f)))
  {
    SolidKeyed(k2, t2, f);
    SolidKeyed(k1, t1, Keyed(k2, t2, f));
  }

  lemma SolidKeyed(key: string, t: Option<Target>, f: Format)
    requires S.Solid(f) && NonBlank.All(key)
    ensures S.Solid(Keyed(key, t, f))
  {
    SolidStep(Dec(t), f);
    SolidStep(Space, Then(Dec(t), f));
    SolidStep(Lit(key), Then(Space, Then(Dec(t), f)));
    SolidStep(Space, Then(Lit(key), Then(Space, Then(Dec(t), f))));
  }

  lemma SolidStep(d: Directive, f: Format)
    requires S.Solid(f) && (d.Lit? ==> NonBlank.All(d.text))
    ensures S.Solid(Then(d, f))
  {
  }

  /** Behind a name, blanks and an `o`, the rms format accepts exactly if the name alone satisfies it. */
  lemma NameReadAsSummary(source: string, blanks: string, tail: string)
    requires blanks != "" && Blank.All(blanks) && tail != "" && tail[0] == 'o'
    ensures var body := " " + (source + (blanks + tail));
            && (Run(RmsFields(), body, STAMPED).count == 4 <==> AcceptsName(source))
            && (AcceptsName(source) ==> Run(RmsFields(), body, STAMPED) == Run(RmsFields(), " " + source, STAMPED))
  {
    var s := " " + source;
    assert " " + (source + (blanks + tail)) == s + (blanks + tail);
    M.RmsShape();
    RmsIsSolid();
    AcceptedBehindStamp(source);
    assert (blanks + tail)[0] == blanks[0] && Blank.Has(blanks[0]);
    if AcceptsName(source) {
      S.AcceptStable(RmsFields(), s, blanks + tail, STAMPED);
    } else {
      S.RejectBeforeLetter(RmsFields(), s, blanks, tail, STAMPED, 'o');
    }
  }

  lemma AcceptedBehindStamp(source: string)
    ensures var n := Run(RmsFields(), " " + source, STAMPED).count;
            n <= 4 && (AcceptsName(source) <==> n == 4)
  {
    M.RmsShape();
    RunIsRelative(RmsFields(), " " + source, STAMPED);
    CountBound(RmsFields(), " " + source, STAMPED);
  }

  /** The rms format accepts an offset line exactly when it accepts the source name alone. */
  lemma OffsetReadAsSummary(x: Line)
    requires x.OffsetLine? && x.offset.gap > 0
    ensures Run(RmsFields(), Body(x), STAMPED).count == 4 <==> AcceptsName(x.source)
    ensures AcceptsName(x.source) ==> Run(RmsFields(), Body(x), STAMPED) == Run(RmsFields(), " " + x.source, STAMPED)
  {
    OffsetBehindName(x.source, x.offset,
      FieldText("s", x.servo, FieldText("freq", x.freq, PathText(x.pathGap, x.delay))));
  }

  lemma OffsetBehindName(source: string, offset: Field, rest: string)
    requires offset.gap > 0
    ensures var body := SpacedText(source, FieldText("offset", offset, rest));
            && (Run(RmsFields(), body, STAMPED).count == 4 <==> AcceptsName(source))
            && (AcceptsName(source) ==> Run(RmsFields(), body, STAMPED) == Run(RmsFields(), " " + source, STAMPED))
  {
    var tail := "offset" + (Spaces(offset.pad) + (Signed(offset.plus, offset.value) + rest));
    assert tail[0] == 'o';
    assert Spaces(offset.gap)[0] == ' ';
    NameReadAsSummary(source, Spaces(offset.gap), tail);
  }

  /** Names that do not begin with "rms", such as `master`, never spell a summary. */
  lemma OrdinaryName(source: string)
    requires !("rms" <= source)
    ensures !SpellsSummary(source)
  {
    forall p: Spelling ensures "rms" <= SpellingText(p) {
      KeyTextStart("rms", p.rms, KeyText("max", p.max, KeyText("freq", p.freq, KeyText("+/-", p.deviation,
        KeyText("delay", p.delay, p.rest)))));
    }
  }

  lemma KeyTextStart(key: string, n: Numeral, rest: string)
    ensures key <= KeyText(key, n, rest)
  {
  }

  /** The offset format reads all four numbers. */
  lemma ScanOffsetLine(x: Line)
    requires x.OffsetLine? && OffsetOk(x)
    ensures Run(SkippedWord(OffsetFields(Spaced("path", DelayFormat()))), Body(x), STAMPED)
         == MeasuredAll(x.offset, x.servo, x.freq, x.delay)
  {
    var f := Spaced("path", DelayFormat());
    var fields := OffsetText(x.offset, x.servo, x.freq, PathText(x.pathGap, x.delay));
    FieldStops("offset", x.offset, FieldText("s", x.servo, FieldText("freq", x.freq, PathText(x.pathGap, x.delay))));
    ScanSpacedWord(None, None, x.source, fields, OffsetFields(f), STAMPED);
    var r := PutNum(Some(Freq), x.freq, PutNum(Some(State), x.servo, PutNum(Some(Offset), x.offset, STAMPED)));
    ScanPathDelay(x.pathGap, x.delay, r);
    ScanOffset(x.offset, x.servo, x.freq, PathText(x.pathGap, x.delay), f, STAMPED);
  }

  lemma StatsFrom(msg: string, rms: Format, regular: Format, first: Result, second: Result)
    requires Sscanf(msg, rms, map[]) == first && first.count != 4
    requires Sscanf(msg, regular, first.store) == second
    ensures ParseStats(msg, rms, regular) == if second.count == 5 then Some(StatsOf(second)) else None
  {
  }

  /** A line whose first attempt failed is read by the second one alone. */
  lemma RegularFrom(t: Stamp, body: string, second: Result)
    requires StampOk(t) && '\0' !in body
    requires Run(RmsFields(), body, STAMPED).count != 4
    requires Run(SkippedWord(OffsetFields(Spaced("path", DelayFormat()))), body, STAMPED) == second && second.count == 5
    ensures ParsePtp4lMetrics(StampedText(t, body)) == Some(StatsOf(second))
  {
    var msg := StampedText(t, body);
    CleanStamp(t, body);
    CleanStr(msg);
    ScanPrinted(t, body, RmsFields(), map[]);
    ScanPrinted(t, body, SkippedWord(OffsetFields(Spaced("path", DelayFormat()))), map[]);
    M.Ptp4lRegularShape();
    M.SkippedShape(OffsetFields(Spaced("path", DelayFormat())));
    M.StampedShape(SkippedWord(OffsetFields(Spaced("path", DelayFormat()))));
    M.RmsShape();
    M.StampedShape(RmsFields());
    M.Ptp4lStatsAreFresh(msg);
  }

  lemma OffsetParses(t: Stamp, x: Line)
    requires StampOk(t) && x.OffsetLine? && WellFormed(x)
    ensures ParsePtp4lMetrics(Print(t, x)) == Some(Stats(x.offset.value, x.freq.value, x.delay.value, x.servo.value))
  {
    CleanOffset(x);
    NameAccepted(x.source);
    OffsetReadAsSummary(x);
    ScanOffsetLine(x);
    FourNumbers(x.offset, x.servo, x.freq, x.delay);
    RegularFrom(t, Body(x), MeasuredAll(x.offset, x.servo, x.freq, x.delay));
  }

  /** A line the first format accepts. */
  lemma SummaryFrom(t: Stamp, body: string, first: Result)
    requires StampOk(t) && '\0' !in body && Run(RmsFields(), body, STAMPED) == first && first.count == 4
    ensures ParsePtp4lMetrics(StampedText(t, body)) == Some(StatsOf(first))
  {
    ScanPrinted(t, body, RmsFields(), map[]);
  }

  lemma SpelledNumbers(p: Spelling)
    requires p.Ok()
    ensures var r := Run(RmsFields(), " " + SpellingText(p), STAMPED);
            AcceptsName(SpellingText(p)) && r.count == 4 && StatsOf(r) == p.Numbers()
  {
    SpellingIsRead(p, START);
    SpellingIsRead(p, STAMPED);
  }

  /** A line whose name spells a summary reports the numbers in that name. */
  lemma NameIsReported(t: Stamp, x: Line, p: Spelling)
    requires StampOk(t) && x.OffsetLine? && OffsetOk(x) && p.Ok() && x.source == SpellingText(p)
    ensures ParsePtp4lMetrics(Print(t, x)) == Some(p.Numbers())
  {
    CleanOffset(x);
    SpelledNumbers(p);
    OffsetReadAsSummary(x);
    SummaryFrom(t, Body(x), Run(RmsFields(), " " + x.source, STAMPED));
  }

  /**
   What the cascade makes of any offset line: its own numbers, unless the name of the source
   spells a summary, and then the numbers in that name.
   */
  lemma OffsetClassified(t: Stamp, x: Line)
    requires StampOk(t) && x.OffsetLine? && OffsetOk(x)
    ensures !SpellsSummary(x.source) ==> ClassifyPtp4l(Print(t, x)) == Meaning(x)
    ensures forall p: Spelling | p.Ok() && x.source == SpellingText(p) ::
              ClassifyPtp4l(Print(t, x)) == Metrics(p.Numbers())
  {
    if !SpellsSummary(x.source) { OffsetParses(t, x); }
    forall p: Spelling | p.Ok() && x.source == SpellingText(p)
      ensures ClassifyPtp4l(Print(t, x)) == Metrics(p.Numbers())
    {
      NameIsReported(t, x, p);
    }
  }

  /** Every spelled word without blanks is a name that hides the numbers of its offset line. */
  lemma NameHidesOffset(t: Stamp, p: Spelling, offset: Field, servo: Field, freq: Field, pathGap: nat, delay: Field)
    requires StampOk(t) && p.Ok() && NonBlank.All(p.rest) && '\0' !in p.rest
    requires offset.gap > 0 && servo.pad == 0
    requires Int64(offset.value) && Int32(servo.value) && Int64(freq.value) && Int64(delay.value)
    ensures var x := OffsetLine(SpellingText(p), offset, servo, freq, pathGap, delay);
            && OffsetOk(x) && ClassifyPtp4l(Print(t, x)) == Metrics(p.Numbers())
            && (servo.value != 0 ==> ClassifyPtp4l(Print(t, x)) != Meaning(x))
  {
    SpellingIsWord(p);
    OffsetClassified(t, OffsetLine(SpellingText(p), offset, servo, freq, pathGap, delay));
  }

  // ----- the other lines are not metrics -----

  lemma RejectOffset(blanks: string, word: string, gap: string, tail: string, r: Result)
    requires Blank.All(blanks) && word != "" && NonBlank.All(word) && NonBlank.Stops(gap + tail)
    requires Blank.All(gap) && tail != "" && !IsSpace(tail[0]) && tail[0] != 'o'
    ensures Run(SkippedWord(OffsetFields(Spaced("path", DelayFormat()))), blanks + (word + (gap + tail)), r) == r
  {
    var rest := Then(Space, Then(Lit("s"), Then(Dec(Some(State)),
      Keyed("freq", Some(Freq), Spaced("path", DelayFormat())))));
    var f := Keyed("offset", Some(Offset), rest);
    ScanSpace(blanks, word + (gap + tail), Then(Word(None, None), f), r);
    ScanWord(None, None, word, gap + tail, f, r);
    RejectKeyed("offset", Some(Offset), gap, tail, rest, r);
  }

  lemma NotMetrics(t: Stamp, blanks: string, word: string, gap: string, tail: string)
    requires StampOk(t) && Blank.All(blanks) && word != "" && NonBlank.All(word) && word[0] != 'r'
    requires gap != "" && Blank.All(gap)
    requires tail != "" && !IsSpace(tail[0]) && tail[0] != 'o'
    requires '\0' !in blanks + (word + (gap + tail))
    ensures ParsePtp4lMetrics(StampedText(t, blanks + (word + (gap + tail)))) == None
  {
    var body := blanks + (word + (gap + tail));
    var f := SkippedWord(OffsetFields(Spaced("path", DelayFormat())));
    assert (word + (gap + tail))[0] == word[0] && (gap + tail)[0] == gap[0];
    assert NonBlank.Has(word[0]) && Blank.Has(gap[0]);
    ScanPrinted(t, body, RmsFields(), map[]);
    RejectRms(blanks, word + (gap + tail), STAMPED);
    ScanPrinted(t, body, f, STAMPED.store);
    RejectOffset(blanks, word, gap, tail, STAMPED);
    StatsFrom(StampedText(t, body), Stamped(RmsFields()), Stamped(f), STAMPED, STAMPED);
  }

  lemma PortIsNotMetrics(t: Stamp, number: int, name: string, rest: string)
    requires StampOk(t) && '\0' !in PortText(number, name, rest)
    ensures ParsePtp4lMetrics(StampedText(t, PortText(number, name, rest))) == None
  {
    var tail := Signed(false, number) + (" " + ("(" + (name + ("):" + rest))));
    assert tail[0] == Signed(false, number)[0];
    assert Digits.Has(Decimal(Abs(number))[0]);
    NotMetrics(t, Spaces(1), "port", Spaces(1), tail);
  }

  lemma ScanThree(w1: string, w2: string, w3: string, rest: string, f: Format, r: Result)
    requires w1 != "" && w2 != "" && w3 != "" && !IsSpace(w1[0]) && !IsSpace(w2[0]) && !IsSpace(w3[0])
    ensures Run(Spaced(w1, Spaced(w2, Spaced(w3, f))), SpacedText(w1, SpacedText(w2, SpacedText(w3, rest))), r)
         == Run(f, rest, r)
  {
    ScanSpaced(w1, SpacedText(w2, SpacedText(w3, rest)), Spaced(w2, Spaced(w3, f)), r);
    ScanSpaced(w2, SpacedText(w3, rest), Spaced(w3, f), r);
    ScanSpaced(w3, rest, f, r);
  }

  // ----- port transitions and foreign masters -----

  lemma ScanPrintedPort(t: Stamp, number: int, name: string, rest: string, f: Format)
    requires StampOk(t) && PortNameOk(name) && '\0' !in rest
    ensures Sscanf(StampedText(t, PortText(number, name, rest)), PortPrefix(f), map[])
         == Run(f, rest, PortResult(number, name))
  {
    CleanPort(number, name, rest);
    CleanStamp(t, PortText(number, name, rest));
    CleanStr(StampedText(t, PortText(number, name, rest)));
    ScanPort(number, name, rest, f, t, START);
  }

  lemma PortContains(t: Stamp, number: int, name: string, rest: string, pattern: string)
    requires Contains(rest, pattern)
    ensures Contains(StampedText(t, PortText(number, name, rest)), pattern)
  {
    ContainsSuffix("):", rest, pattern);
    ContainsSuffix(name, "):" + rest, pattern);
    ContainsSuffix("(", name + ("):" + rest), pattern);
    var open := "(" + (name + ("):" + rest));
    ContainsSuffix(" ", open, pattern);
    ContainsSuffix(Signed(false, number), " " + open, pattern);
    ContainsSuffix(Spaces(1), Signed(false, number) + (" " + open), pattern);
    ContainsSuffix("port", Spaces(1) + (Signed(false, number) + (" " + open)), pattern);
    ContainsSuffix(Spaces(1), "port" + (Spaces(1) + (Signed(false, number) + (" " + open))), pattern);
    ContainsBehindStamp(t, PortText(number, name, rest), pattern);
  }

  lemma PortContainsPort(t: Stamp, number: int, name: string, rest: string)
    ensures Contains(StampedText(t, PortText(number, name, rest)), "port ")
  {
    var after := "port" + (Spaces(1) + (Signed(false, number) + (" " + ("(" + (name + ("):" + rest))))));
    assert "port " <= after;
    ContainsStart(after, "port ");
    ContainsSuffix(Spaces(1), after, "port ");
    ContainsBehindStamp(t, PortText(number, name, rest), "port ");
  }

  lemma ScanTransition(e: PortEvent, r: Result)
    requires WellFormed(PortLine(e))
    ensures Run(TransitionFields(), TransitionText(e), r)
         == Put(Some(Trigger), Some(Str(e.trigger)), Put(Some(ToState), Some(Str(e.toState)),
              Put(Some(FromState), Some(Str(e.fromState)), r)))
  {
    var s4 := SpacedText("on", SpacedText(e.trigger, ""));
    var s2 := SpacedText("to", SpacedText(e.toState, s4));
    var f6 := Then(Until(127, '\n', Some(Trigger)), End);
    var f5 := Then(Space, f6);
    var f3 := Then(Space, Then(Word(Some(63), Some(ToState)), Spaced("on", f5)));
    var r1 := Put(Some(FromState), Some(Str(e.fromState)), r);
    var r2 := Put(Some(ToState), Some(Str(e.toState)), r1);
    ScanSpacedWord(Some(63), Some(FromState), e.fromState, s2, Spaced("to", f3), r);
    ScanSpaced("to", SpacedText(e.toState, s4), f3, r1);
    ScanSpacedWord(Some(63), Some(ToState), e.toState, s4, Spaced("on", f5), r1);
    ScanSpaced("on", SpacedText(e.trigger, ""), f5, r2);
    ScanSpace(" ", e.trigger + "", f6, r2);
    ScanUntil(127, '\n', Some(Trigger), e.trigger, "", End, r2);
  }

  function PortResult(number: int, name: string): Result {
    Put(Some(PortName), Some(Str(name)), Put(Some(PortNumber), Some(Num(number)), STAMPED))
  }

  lemma TransitionContainsTo(e: PortEvent)
    ensures Contains(TransitionText(e), " to ")
  {
    var onward := SpacedText("to", SpacedText(e.toState, SpacedText("on", SpacedText(e.trigger, ""))));
    assert " to " <= onward;
    ContainsStart(onward, " to ");
    ContainsSuffix(e.fromState, onward, " to ");
    ContainsSuffix(" ", e.fromState + onward, " to ");
  }

  lemma PortFrom(t: Stamp, number: int, name: string, rest: string, r: Result)
    requires StampOk(t) && PortNameOk(name) && '\0' !in rest && Contains(rest, " to ")
    requires Run(TransitionFields(), rest, PortResult(number, name)) == r && r.count == 6
    ensures ParsePortEvent(StampedText(t, PortText(number, name, rest))) == Some(PortEventOf(r))
  {
    PortContainsPort(t, number, name, rest);
    PortContains(t, number, name, rest, " to ");
    ScanPrintedPort(t, number, name, rest, TransitionFields());
  }

  function TransitionResult(e: PortEvent): Result {
    Put(Some(Trigger), Some(Str(e.trigger)), Put(Some(ToState), Some(Str(e.toState)),
      Put(Some(FromState), Some(Str(e.fromState)), PortResult(e.portNumber, e.portName))))
  }

  lemma TransitionFieldsOf(e: PortEvent)
    ensures TransitionResult(e).count == 6 && e == PortEventOf(TransitionResult(e))
  {
  }

  lemma PortParses(t: Stamp, e: PortEvent)
    requires StampOk(t) && WellFormed(PortLine(e))
    ensures ParsePortEvent(StampedText(t, PortText(e.portNumber, e.portName, TransitionText(e)))) == Some(e)
  {
    CleanTransition(e);
    TransitionContainsTo(e);
    ScanTransition(e, PortResult(e.portNumber, e.portName));
    TransitionFieldsOf(e);
    PortFrom(t, e.portNumber, e.portName, TransitionText(e), TransitionResult(e));
  }

  lemma ScanForeign(e: ForeignMaster, r: Result)
    requires WellFormed(ForeignLine(e))
    ensures Run(ForeignFields(), ForeignText(e), r)
         == Put(Some(MasterPort), Some(Num(e.masterPort)), Put(Some(ClockIdentity), Some(Str(e.identity)), r))
  {
    var number := Signed(false, e.masterPort) + "";
    var s3 := e.identity + ("-" + number);
    var f6 := Then(Dec(Some(MasterPort)), End);
    var f5 := Then(Lit("-"), f6);
    var f4 := Then(Until(63, '-', Some(ClockIdentity)), f5);
    var f3 := Then(Space, f4);
    var r1 := Put(Some(ClockIdentity), Some(Str(e.identity)), r);
    ScanThree("new", "foreign", "master", " " + s3, f3, r);
    ScanSpace(" ", s3, f4, r);
    ScanUntil(63, '-', Some(ClockIdentity), e.identity, "-" + number, f5, r);
    ScanLit("-", number, f6, r1);
    assert "" + number == number;
    ScanDec(Some(MasterPort), "", false, e.masterPort, "", End, r1);
  }

  lemma ForeignIsNotTransition(rest: string, r: Result)
    ensures Run(TransitionFields(), SpacedText("new", SpacedText("foreign", rest)), r)
         == Put(Some(FromState), Some(Str("new")), r)
  {
    var f := Then(Space, Then(Word(Some(63), Some(ToState)), Spaced("on",
      Then(Space, Then(Until(127, '\n', Some(Trigger)), End)))));
    ScanSpacedWord(Some(63), Some(FromState), "new", SpacedText("foreign", rest), Spaced("to", f), r);
    assert ("foreign" + rest)[0] == 'f';
    RejectSpaced("foreign", "to", rest, f, Put(Some(FromState), Some(Str("new")), r));
  }

  lemma ForeignContains(e: ForeignMaster)
    ensures Contains(ForeignText(e), "new foreign master")
  {
    var after := "new" + SpacedText("foreign", SpacedText("master", IdentityText(e)));
    assert "new foreign master" <= after;
    ContainsStart(after, "new foreign master");
    ContainsSuffix(" ", after, "new foreign master");
  }

  lemma ForeignParses(t: Stamp, e: ForeignMaster)
    requires StampOk(t) && WellFormed(ForeignLine(e))
    ensures ParseForeignMaster(Print(t, ForeignLine(e))) == Some(e)
  {
    CleanForeign(e);
    ForeignContains(e);
    ScanForeign(e, PortResult(e.portNumber, e.portName));
    ForeignFieldsOf(e);
    ForeignFrom(t, e.portNumber, e.portName, ForeignText(e), ForeignResult(e));
  }

  function ForeignResult(e: ForeignMaster): Result {
    Put(Some(MasterPort), Some(Num(e.masterPort)), Put(Some(ClockIdentity), Some(Str(e.identity)),
      PortResult(e.portNumber, e.portName)))
  }

  lemma ForeignFieldsOf(e: ForeignMaster)
    ensures ForeignResult(e).count == 5 && e == ForeignOf(ForeignResult(e))
  {
  }

  lemma ForeignFrom(t: Stamp, number: int, name: string, rest: string, r: Result)
    requires StampOk(t) && PortNameOk(name) && '\0' !in rest && Contains(rest, "new foreign master")
    requires Run(ForeignFields(), rest, PortResult(number, name)) == r && r.count == 5
    ensures ParseForeignMaster(StampedText(t, PortText(number, name, rest))) == Some(ForeignOf(r))
  {
    PortContains(t, number, name, rest, "new foreign master");
    ScanPrintedPort(t, number, name, rest, ForeignFields());
  }

  lemma ForeignIsNotPort(t: Stamp, e: ForeignMaster)
    requires StampOk(t) && WellFormed(ForeignLine(e))
    ensures ParsePortEvent(Print(t, ForeignLine(e))) == None
  {
    CleanForeign(e);
    ScanPrintedPort(t, e.portNumber, e.portName, ForeignText(e), TransitionFields());
    ForeignIsNotTransition(SpacedText("master", IdentityText(e)),
      PortResult(e.portNumber, e.portName));
  }

  // ----- best master selections -----

  lemma SelectedIsNotEarlier(t: Stamp, word: string, rest: string)
    requires StampOk(t) && word != "" && !IsSpace(word[0]) && word[0] != 'o'
    requires '\0' !in word && '\0' !in rest
    ensures var line := StampedText(t, SpacedText("selected", SpacedText(word, rest)));
            && ParsePtp4lMetrics(line) == None && ParsePortEvent(line) == None
            && ParseForeignMaster(line) == None && Contains(line, "selected")
  {
    var after := SpacedText(word, rest);
    var body := SpacedText("selected", after);
    NotMetrics(t, " ", "selected", " ", word + rest);
    RejectPort(t, after, TransitionFields());
    RejectPort(t, after, ForeignFields());
    ContainsStart("selected" + after, "selected");
    ContainsSuffix(" ", "selected" + after, "selected");
    ContainsBehindStamp(t, body, "selected");
  }

  lemma RejectPort(t: Stamp, after: string, f: Format)
    requires StampOk(t) && '\0' !in after
    ensures Sscanf(StampedText(t, SpacedText("selected", after)), PortPrefix(f), map[]) == STAMPED
  {
    var f2 := Then(Space, Then(Lit("("), Then(Until(127, ')', Some(PortName)), Then(Lit("):"), f))));
    var f1 := Then(Space, Then(Dec(Some(PortNumber)), f2));
    ScanPrinted(t, SpacedText("selected", after), Spaced("port", f1), map[]);
    assert ("selected" + after)[0] == 's';
    RejectSpaced("selected", "port", after, f1, STAMPED);
  }

  lemma BestFrom(msg: string, best: Result, local: Result)
    requires Contains(msg, "selected")
    requires Sscanf(msg, Stamped(BestFields()), map[]) == best
    requires best.count == 2 || Sscanf(msg, Stamped(LocalFields()), best.store) == local
    ensures ParseBestMaster(msg) == if best.count == 2 then Some(StrOf(best, ClockIdentity))
                                    else if local.count == 2 then Some(StrOf(local, ClockIdentity)) else None
  {
  }

  function Selected(identity: string): Result {
    Put(Some(ClockIdentity), Some(Str(identity)), STAMPED)
  }

  lemma ScanBest(identity: string)
    requires Token(identity)
    ensures Run(BestFields(), Body(BestLine(identity)), STAMPED) == Selected(identity)
  {
    var id := SpacedText(identity, "");
    ScanThree("selected", "best", "master", SpacedText("clock", id), Spaced("clock", IdentityWord(End)), STAMPED);
    ScanSpaced("clock", id, IdentityWord(End), STAMPED);
    ScanSpacedWord(Some(63), Some(ClockIdentity), identity, "", End, STAMPED);
  }

  lemma LocalIsNotBest(s: string)
    ensures Run(BestFields(), SpacedText("selected", SpacedText("local", s)), STAMPED) == STAMPED
  {
    var f := Spaced("master", Spaced("clock", IdentityWord(End)));
    ScanSpaced("selected", SpacedText("local", s), Spaced("best", f), STAMPED);
    assert ("local" + s)[0] == 'l';
    RejectSpaced("local", "best", s, f, STAMPED);
  }

  /** Words behind the identity that assign nothing do not change the outcome. */
  lemma ScanIdentity(identity: string, tail: string, f: Format)
    requires Token(identity) && NonBlank.Stops(tail) && Assigns(f) == 0
    ensures Run(IdentityWord(f), SpacedText(identity, tail), STAMPED) == Selected(identity)
  {
    ScanSpacedWord(Some(63), Some(ClockIdentity), identity, tail, f, STAMPED);
    NoAssignment(f, tail, Selected(identity));
  }

  lemma ScanLocal(identity: string)
    requires Token(identity)
    ensures Run(LocalFields(), Body(LocalLine(identity)), STAMPED) == Selected(identity)
  {
    var f := Spaced("as", Spaced("best", Spaced("master", End)));
    ScanLocalTail(identity, SpacedText("as", SpacedText("best", SpacedText("master", ""))), f);
  }

  lemma ScanLocalTail(identity: string, tail: string, f: Format)
    requires Token(identity) && NonBlank.Stops(tail) && Assigns(f) == 0
    ensures Run(Spaced("selected", Spaced("local", Spaced("clock", IdentityWord(f)))),
                SpacedText("selected", SpacedText("local", SpacedText("clock", SpacedText(identity, tail)))), STAMPED)
         == Selected(identity)
  {
    ScanThree("selected", "local", "clock", SpacedText(identity, tail), IdentityWord(f), STAMPED);
    ScanIdentity(identity, tail, f);
  }

  lemma BestBehind(t: Stamp, tail: string, identity: string)
    requires StampOk(t) && '\0' !in tail
    requires Run(BestFields(), SpacedText("selected", SpacedText("best", tail)), STAMPED) == Selected(identity)
    ensures ParseBestMaster(StampedText(t, SpacedText("selected", SpacedText("best", tail)))) == Some(identity)
  {
    var body := SpacedText("selected", SpacedText("best", tail));
    CleanSpaced("best", tail);
    CleanSpaced("selected", SpacedText("best", tail));
    SelectedIsNotEarlier(t, "best", tail);
    ScanPrinted(t, body, BestFields(), map[]);
    BestFrom(StampedText(t, body), Selected(identity), STAMPED);
  }

  lemma CleanBest(identity: string)
    requires Token(identity)
    ensures '\0' !in BestTail(identity)
  {
    CleanSpaced(identity, "");
    CleanSpaced("clock", SpacedText(identity, ""));
  }

  lemma BestParses(t: Stamp, identity: string)
    requires StampOk(t) && Token(identity)
    ensures ParseBestMaster(Print(t, BestLine(identity))) == Some(identity)
  {
    ScanBest(identity);
    CleanBest(identity);
    BestBehind(t, BestTail(identity), identity);
  }

  lemma LocalFrom(t: Stamp, body: string, identity: string)
    requires StampOk(t) && '\0' !in body && Contains(StampedText(t, body), "selected")
    requires Run(BestFields(), body, STAMPED) == STAMPED && Run(LocalFields(), body, STAMPED) == Selected(identity)
    ensures ParseBestMaster(StampedText(t, body)) == Some(identity)
  {
    ScanPrinted(t, body, BestFields(), map[]);
    ScanPrinted(t, body, LocalFields(), STAMPED.store);
    BestFrom(StampedText(t, body), STAMPED, Selected(identity));
  }

  lemma CleanLocal(identity: string)
    requires Token(identity)
    ensures '\0' !in LocalTail(identity)
  {
    CleanSpaced("best", SpacedText("master", ""));
    CleanSpaced("as", SpacedText("best", SpacedText("master", "")));
    CleanSpaced(identity, SpacedText("as", SpacedText("best", SpacedText("master", ""))));
  }

  lemma LocalBehind(t: Stamp, tail: string, identity: string)
    requires StampOk(t) && '\0' !in tail
    requires Run(LocalFields(), SpacedText("selected", SpacedText("local", tail)), STAMPED) == Selected(identity)
    ensures ParseBestMaster(StampedText(t, SpacedText("selected", SpacedText("local", tail)))) == Some(identity)
  {
    CleanSpaced("local", tail);
    CleanSpaced("selected", SpacedText("local", tail));
    SelectedIsNotEarlier(t, "local", tail);
    LocalIsNotBest(tail);
    LocalFrom(t, SpacedText("selected", SpacedText("local", tail)), identity);
  }

  lemma LocalParses(t: Stamp, identity: string)
    requires StampOk(t) && Token(identity)
    ensures ParseBestMaster(Print(t, LocalLine(identity))) == Some(identity)
  {
    CleanLocal(identity);
    ScanLocal(identity);
    LocalBehind(t, LocalTail(identity), identity);
  }

  /** Printing a line and classifying it gives back its kind and all its fields. */
  lemma CascadeInvertsPrinting(t: Stamp, x: Line)
    requires StampOk(t) && WellFormed(x)
    ensures ClassifyPtp4l(Print(t, x)) == Meaning(x)
  {
    match x
    case RmsLine(_, _, _, _, _, _) => RmsParses(t, x);
    case OffsetLine(_, _, _, _, _, _) => OffsetParses(t, x);
    case PortLine(e) => PortClassified(t, e);
    case ForeignLine(e) => ForeignClassified(t, e);
    case BestLine(identity) => BestClassified(t, identity);
    case LocalLine(identity) => LocalClassified(t, identity);
  }

  lemma BestClassified(t: Stamp, identity: string)
    requires StampOk(t) && Token(identity)
    ensures ClassifyPtp4l(Print(t, BestLine(identity))) == BestMaster(identity)
  {
    CleanBest(identity);
    SelectedIsNotEarlier(t, "best", BestTail(identity));
    BestParses(t, identity);
  }

  lemma LocalClassified(t: Stamp, identity: string)
    requires StampOk(t) && Token(identity)
    ensures ClassifyPtp4l(Print(t, LocalLine(identity))) == BestMaster(identity)
  {
    CleanLocal(identity);
    SelectedIsNotEarlier(t, "local", LocalTail(identity));
    LocalParses(t, identity);
  }

  lemma PortClassified(t: Stamp, e: PortEvent)
    requires StampOk(t) && WellFormed(PortLine(e))
    ensures ClassifyPtp4l(Print(t, PortLine(e))) == PortChange(e)
  {
    CleanTransition(e);
    CleanPort(e.portNumber, e.portName, TransitionText(e));
    PortIsNotMetrics(t, e.portNumber, e.portName, TransitionText(e));
    PortParses(t, e);
  }

  lemma ForeignClassified(t: Stamp, e: ForeignMaster)
    requires StampOk(t) && WellFormed(ForeignLine(e))
    ensures ClassifyPtp4l(Print(t, ForeignLine(e))) == NewForeignMaster(e)
  {
    CleanForeign(e);
    CleanPort(e.portNumber, e.portName, ForeignText(e));
    PortIsNotMetrics(t, e.portNumber, e.portName, ForeignText(e));
    ForeignIsNotPort(t, e);
    ForeignParses(t, e);
  }
}
