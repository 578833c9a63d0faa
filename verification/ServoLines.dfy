/** The lines of phc2sys and ppswatch, and what their parsers make of them. */
module ServoLines {
  import opened Text
  import opened Scanf
  import opened LogParsers
  import opened LogLines
  import opened SummaryNames
  import opened Cascade
  import M = MetricsSuffix

  datatype ServoLine =
    | ClockSummary(clock: string, summary: Line)
    | ClockOffset(clock: string, source: string, offset: Field, servo: Field, freq: Field, delay: Field)

  predicate NameOk(s: string) {
    s != "" && NonBlank.All(s) && '\0' !in s
  }

  predicate ServoOk(x: ServoLine) {
    match x
    case ClockSummary(clock, y) =>
      && NameOk(clock) && y.RmsLine? && y.rms.gap > 0
      && Int64(y.max.value) && Int64(y.freq.value) && Int64(y.delay.value)
    case ClockOffset(clock, source, offset, servo, freq, delay) =>
      && NameOk(clock) && NameOk(source) && offset.gap > 0 && servo.pad == 0
      && Int64(offset.value) && Int32(servo.value) && Int64(freq.value) && Int64(delay.value)
  }

  /** The name in front of `offset` does not pass for a summary. */
  ghost predicate ServoPlain(x: ServoLine) {
    x.ClockOffset? ==> !SpellsSummary(x.source)
  }

  function ServoBody(x: ServoLine): string
    requires ServoOk(x)
  {
    match x
    case ClockSummary(clock, summary) => SpacedText(clock, RmsText(summary))
    case ClockOffset(clock, source, offset, servo, freq, delay) =>
      SpacedText(clock, SpacedText(source, OffsetText(offset, servo, freq, FieldText("delay", delay, ""))))
  }

  function PrintServo(t: Stamp, x: ServoLine): string
    requires ServoOk(x)
  {
    StampedText(t, ServoBody(x))
  }

  function ServoMeaning(x: ServoLine): Stats
    requires ServoOk(x)
  {
    match x
    case ClockSummary(_, y) => Stats(y.max.value, y.freq.value, y.delay.value, 0)
    case ClockOffset(_, _, offset, servo, freq, delay) => Stats(offset.value, freq.value, delay.value, servo.value)
  }

  lemma SummaryParses(t: Stamp, clock: string, y: Line)
    requires StampOk(t) && NameOk(clock) && y.RmsLine? && y.rms.gap > 0
    ensures ParsePhc2SysMetrics(StampedText(t, SpacedText(clock, RmsText(y))))
         == Some(Stats(y.max.value, y.freq.value, y.delay.value, 0))
  {
    CleanRms(y);
    CleanSpaced(clock, RmsText(y));
    RmsTextStops(y);
    ScanSpacedWord(None, None, clock, RmsText(y), RmsFields(), STAMPED);
    ScanRms(y, STAMPED);
    ThreeNumbers(y.max, y.freq, y.delay);
    FirstServo(t, SpacedText(clock, RmsText(y)), Measured(y.max, y.freq, y.delay));
  }

  /** A line the first phc2sys format accepts. */
  lemma FirstServo(t: Stamp, body: string, first: Result)
    requires StampOk(t) && '\0' !in body && Run(SkippedWord(RmsFields()), body, STAMPED) == first && first.count == 4
    ensures ParsePhc2SysMetrics(StampedText(t, body)) == Some(StatsOf(first))
  {
    ScanPrinted(t, body, SkippedWord(RmsFields()), map[]);
  }

  lemma RmsTextStops(y: Line)
    requires y.RmsLine? && y.rms.gap > 0
    ensures NonBlank.Stops(RmsText(y))
  {
    FieldStops("rms", y.rms, FieldText("max", y.max, FieldText("freq", y.freq, FieldText("+/-", y.freqDeviation,
      FieldText("delay", y.delay, FieldText("+/-", y.delayDeviation, ""))))));
  }

  lemma ScanTwoNames(clock: string, source: string, rest: string, f: Format)
    requires NameOk(clock) && NameOk(source) && NonBlank.Stops(rest)
    ensures Run(SkippedWord(SkippedWord(f)), SpacedText(clock, SpacedText(source, rest)), STAMPED)
         == Run(f, rest, STAMPED)
  {
    ScanSpacedWord(None, None, clock, SpacedText(source, rest), SkippedWord(f), STAMPED);
    ScanSpacedWord(None, None, source, rest, f, STAMPED);
  }

  lemma ScanDelayed(offset: Field, servo: Field, freq: Field, delay: Field)
    requires servo.pad == 0
    ensures Run(OffsetFields(DelayFormat()), OffsetText(offset, servo, freq, FieldText("delay", delay, "")), STAMPED)
         == MeasuredAll(offset, servo, freq, delay)
  {
    FieldStops("delay", delay, "");
    ScanOffset(offset, servo, freq, FieldText("delay", delay, ""), DelayFormat(), STAMPED);
    LastNumber("delay", Some(PathDelay), delay,
      PutNum(Some(Freq), freq, PutNum(Some(State), servo, PutNum(Some(Offset), offset, STAMPED))));
  }

  /** The second phc2sys format, when the first one has failed. */
  lemma RegularServo(t: Stamp, body: string, second: Result)
    requires StampOk(t) && '\0' !in body
    requires Run(SkippedWord(RmsFields()), body, STAMPED).count != 4
    requires Run(SkippedWord(SkippedWord(OffsetFields(DelayFormat()))), body, STAMPED) == second && second.count == 5
    ensures ParsePhc2SysMetrics(StampedText(t, body)) == Some(StatsOf(second))
  {
    var g := OffsetFields(DelayFormat());
    var msg := StampedText(t, body);
    CleanStamp(t, body);
    CleanStr(msg);
    ScanPrinted(t, body, SkippedWord(RmsFields()), map[]);
    ScanPrinted(t, body, SkippedWord(SkippedWord(g)), map[]);
    M.RmsShape();
    M.SkippedShape(RmsFields());
    M.StampedShape(SkippedWord(RmsFields()));
    M.Phc2SysRegularShape();
    M.SkippedShape(g);
    M.SkippedShape(SkippedWord(g));
    M.StampedShape(SkippedWord(SkippedWord(g)));
    M.Phc2SysStatsAreFresh(msg);
  }

  lemma CleanServo(offset: Field, servo: Field, freq: Field, delay: Field)
    ensures '\0' !in OffsetText(offset, servo, freq, FieldText("delay", delay, ""))
  {
    var tail := FieldText("delay", delay, "");
    CleanField("delay", delay, "");
    CleanField("freq", freq, tail);
    CleanField("s", servo, FieldText("freq", freq, tail));
    CleanField("offset", offset, FieldText("s", servo, FieldText("freq", freq, tail)));
  }

  lemma NameDecides(clock: string, source: string, offset: Field, rest: string)
    requires NameOk(clock) && NameOk(source) && offset.gap > 0
    ensures var r := Run(SkippedWord(RmsFields()),
                         SpacedText(clock, SpacedText(source, FieldText("offset", offset, rest))), STAMPED);
            && (r.count == 4 <==> SpellsSummary(source))
            && (SpellsSummary(source) ==> r == Run(RmsFields(), " " + source, STAMPED))
  {
    NameAccepted(source);
    ScanSpacedWord(None, None, clock, SpacedText(source, FieldText("offset", offset, rest)), RmsFields(), STAMPED);
    OffsetBehindName(source, offset, rest);
  }

  /** The body of an offset line and what its parser sees of it first. */
  lemma ServoBodyClean(x: ServoLine)
    requires ServoOk(x) && x.ClockOffset?
    ensures '\0' !in ServoBody(x)
  {
    var rest := OffsetText(x.offset, x.servo, x.freq, FieldText("delay", x.delay, ""));
    CleanServo(x.offset, x.servo, x.freq, x.delay);
    CleanSpaced(x.source, rest);
    CleanSpaced(x.clock, SpacedText(x.source, rest));
  }

  lemma ScanServoBody(x: ServoLine)
    requires ServoOk(x) && x.ClockOffset?
    ensures Run(SkippedWord(SkippedWord(OffsetFields(DelayFormat()))), ServoBody(x), STAMPED)
         == MeasuredAll(x.offset, x.servo, x.freq, x.delay)
  {
    var rest := OffsetText(x.offset, x.servo, x.freq, FieldText("delay", x.delay, ""));
    FieldStops("offset", x.offset, FieldText("s", x.servo, FieldText("freq", x.freq, FieldText("delay", x.delay, ""))));
    ScanTwoNames(x.clock, x.source, rest, OffsetFields(DelayFormat()));
    ScanDelayed(x.offset, x.servo, x.freq, x.delay);
  }

  lemma OffsetServoParses(t: Stamp, x: ServoLine)
    requires StampOk(t) && ServoOk(x) && x.ClockOffset? && ServoPlain(x)
    ensures ParsePhc2SysMetrics(PrintServo(t, x)) == Some(ServoMeaning(x))
  {
    ServoBodyClean(x);
    NameDecides(x.clock, x.source, x.offset,
      FieldText("s", x.servo, FieldText("freq", x.freq, FieldText("delay", x.delay, ""))));
    ScanServoBody(x);
    FourNumbers(x.offset, x.servo, x.freq, x.delay);
    RegularServo(t, ServoBody(x), MeasuredAll(x.offset, x.servo, x.freq, x.delay));
  }

  lemma ServoNameIsReported(t: Stamp, x: ServoLine, p: Spelling)
    requires StampOk(t) && ServoOk(x) && x.ClockOffset? && p.Ok() && x.source == SpellingText(p)
    ensures ParsePhc2SysMetrics(PrintServo(t, x)) == Some(p.Numbers())
  {
    var after := FieldText("s", x.servo, FieldText("freq", x.freq, FieldText("delay", x.delay, "")));
    ServoBodyClean(x);
    SpelledNumbers(p);
    NameDecides(x.clock, x.source, x.offset, after);
    FirstServo(t, ServoBody(x), Run(RmsFields(), " " + x.source, STAMPED));
  }

  /** Printing a phc2sys line and parsing it gives back its numbers. */
  lemma ServoRoundTrip(t: Stamp, x: ServoLine)
    requires StampOk(t) && ServoOk(x) && ServoPlain(x)
    ensures ParsePhc2SysMetrics(PrintServo(t, x)) == Some(ServoMeaning(x))
  {
    match x
    case ClockSummary(clock, summary) => SummaryParses(t, clock, summary);
    case ClockOffset(_, _, _, _, _, _) => OffsetServoParses(t, x);
  }

  /**
   What the parser makes of any phc2sys line: its own numbers, unless the name in front of
   `offset` spells a summary, and then the numbers in that name.
   */
  lemma ServoClassified(t: Stamp, x: ServoLine)
    requires StampOk(t) && ServoOk(x)
    ensures ServoPlain(x) ==> ParsePhc2SysMetrics(PrintServo(t, x)) == Some(ServoMeaning(x))
    ensures forall p: Spelling | p.Ok() && x.ClockOffset? && x.source == SpellingText(p) ::
              ParsePhc2SysMetrics(PrintServo(t, x)) == Some(p.Numbers())
  {
    if ServoPlain(x) { ServoRoundTrip(t, x); }
    forall p: Spelling | p.Ok() && x.ClockOffset? && x.source == SpellingText(p)
      ensures ParsePhc2SysMetrics(PrintServo(t, x)) == Some(p.Numbers())
    {
      ServoNameIsReported(t, x, p);
    }
  }

  // ----- ppswatch -----

  datatype PpsLine = PpsLine(timestamp: Field, sequence: Field, offset: Field)

  predicate PpsOk(x: PpsLine) {
    x.timestamp.gap == 0 && Int64(x.timestamp.value) && Int64(x.sequence.value) && Int64(x.offset.value)
  }

  function SequenceText(sequence: Field, offset: Field): string {
    FieldText("sequence:", sequence, "," + FieldText("offset:", offset, ""))
  }

  /** "sequence: %ld, offset: %ld" */
  function SequenceFormat(): Format {
    Keyed("sequence:", Some(Sequence), Then(Lit(","), Keyed("offset:", Some(Offset), End)))
  }

  function PrintPps(x: PpsLine): string {
    FieldText("timestamp:", x.timestamp, "," + SequenceText(x.sequence, x.offset))
  }

  lemma CleanPps(x: PpsLine)
    ensures '\0' !in PrintPps(x)
  {
    var t2 := "," + FieldText("offset:", x.offset, "");
    CleanField("offset:", x.offset, "");
    CleanField("sequence:", x.sequence, t2);
    CleanField("timestamp:", x.timestamp, "," + FieldText("sequence:", x.sequence, t2));
  }

  /** A key at the very start: the blank before it in `Keyed` makes no difference. */
  lemma ScanLeading(key: string, t: Option<Target>, x: Field, rest: string, f: Format, r: Result)
    requires NonBlank.All(key) && key != "" && Digits.Stops(rest) && x.gap == 0
    ensures Run(Then(Lit(key), Then(Space, Then(Dec(t), f))), FieldText(key, x, rest), r)
         == Run(f, rest, PutNum(t, x, r))
  {
    var g := Then(Lit(key), Then(Space, Then(Dec(t), f)));
    var s := key + (Spaces(x.pad) + (Signed(x.plus, x.value) + rest));
    assert Spaces(0) == "" && FieldText(key, x, rest) == s;
    ScanSpace("", s, g, r);
    assert "" + s == s;
    ScanKeyed(key, t, x, rest, f, r);
  }

  /** A number, a comma and whatever follows. */
  lemma ScanComma(t: Option<Target>, key: string, x: Field, rest: string, f: Format, r: Result)
    requires NonBlank.All(key) && key != ""
    ensures Run(Keyed(key, t, Then(Lit(","), f)), FieldText(key, x, "," + rest), r) == Run(f, rest, PutNum(t, x, r))
  {
    ScanKeyed(key, t, x, "," + rest, Then(Lit(","), f), r);
    ScanLit(",", rest, f, PutNum(t, x, r));
  }

  lemma ScanSequence(sequence: Field, offset: Field, r: Result)
    ensures Run(SequenceFormat(), SequenceText(sequence, offset), r)
         == PutNum(Some(Offset), offset, PutNum(Some(Sequence), sequence, r))
  {
    var rest, f := FieldText("offset:", offset, ""), Keyed("offset:", Some(Offset), End);
    ScanComma(Some(Sequence), "sequence:", sequence, rest, f, r);
    LastNumber("offset:", Some(Offset), offset, PutNum(Some(Sequence), sequence, r));
  }

  lemma LastNumber(key: string, t: Option<Target>, x: Field, r: Result)
    requires NonBlank.All(key) && key != ""
    ensures Run(Keyed(key, t, End), FieldText(key, x, ""), r) == PutNum(t, x, r)
  {
    ScanKeyed(key, t, x, "", End, r);
  }

  lemma ScanPps(x: PpsLine)
    requires x.timestamp.gap == 0
    ensures Run(PpsFields(), PrintPps(x), START)
         == PutNum(Some(Offset), x.offset, PutNum(Some(Sequence), x.sequence,
              PutNum(Some(Timestamp), x.timestamp, START)))
  {
    var rest := SequenceText(x.sequence, x.offset);
    var f := Then(Lit(","), SequenceFormat());
    var r := PutNum(Some(Timestamp), x.timestamp, START);
    ScanLeading("timestamp:", Some(Timestamp), x.timestamp, "," + rest, f, START);
    ScanLit(",", rest, SequenceFormat(), r);
    ScanSequence(x.sequence, x.offset, r);
  }

  /** Printing a ppswatch line and parsing it gives back its offset. */
  lemma PpsRoundTrip(x: PpsLine)
    requires PpsOk(x)
    ensures ParsePps(PrintPps(x)) == Some(x.offset.value)
  {
    CleanPps(x);
    CleanStr(PrintPps(x));
    ScanPps(x);
  }
}
