/** The lines ptp4l prints, what they mean, and how the formats scan their pieces. */
module LogLines {
  import opened Text
  import opened Scanf
  import opened LogParsers
  import opened SummaryNames

  datatype Stamp = Stamp(lead: nat, seconds: nat, fraction: string)

  /** Blanks and plus signs are free where printf pads or signs a number. */
  datatype Line =
    | RmsLine(rms: Field, max: Field, freq: Field, freqDeviation: Field, delay: Field, delayDeviation: Field)
    | OffsetLine(source: string, offset: Field, servo: Field, freq: Field, pathGap: nat, delay: Field)
    | PortLine(port: PortEvent)
    | ForeignLine(foreign: ForeignMaster)
    | BestLine(identity: string)
    | LocalLine(identity: string)

  predicate Int64(v: int) { -0x8000_0000_0000_0000 <= v < 0x8000_0000_0000_0000 }

  predicate Int32(v: int) { -0x8000_0000 <= v < 0x8000_0000 }

  predicate Token(s: string) {
    0 < |s| <= 63 && NonBlank.All(s) && '\0' !in s
  }

  predicate PortNameOk(s: string) {
    0 < |s| <= 127 && ')' !in s && '\0' !in s
  }

  predicate OffsetOk(x: Line)
    requires x.OffsetLine?
  {
    && x.source != "" && NonBlank.All(x.source) && '\0' !in x.source
    && x.offset.gap > 0 && x.servo.pad == 0
    && Int64(x.offset.value) && Int32(x.servo.value) && Int64(x.freq.value) && Int64(x.delay.value)
  }

  /** What linuxptp can print, within the widths of the formats and the ranges of the C variables. */
  ghost predicate WellFormed(x: Line) {
    match x
    case RmsLine(rms, max, freq, _, delay, _) =>
      Int64(max.value) && Int64(freq.value) && Int64(delay.value)
    case OffsetLine(source, _, _, _, _, _) => OffsetOk(x) && !SpellsSummary(source)
    case PortLine(e) =>
      && Int32(e.portNumber) && PortNameOk(e.portName) && Token(e.fromState) && Token(e.toState)
      && 0 < |e.trigger| <= 127 && '\n' !in e.trigger && '\0' !in e.trigger && !IsSpace(e.trigger[0])
    case ForeignLine(e) =>
      && Int32(e.portNumber) && PortNameOk(e.portName) && Int32(e.masterPort)
      && 0 < |e.identity| <= 63 && '-' !in e.identity && '\0' !in e.identity && !IsSpace(e.identity[0])
    case BestLine(identity) => Token(identity)
    case LocalLine(identity) => Token(identity)
  }

  predicate StampOk(t: Stamp) {
    Digits.All(t.fraction)
  }

  // ----- printing -----

  /** " word" followed by anything. */
  function SpacedText(word: string, rest: string): string {
    " " + (word + rest)
  }

  function PortText(number: int, name: string, rest: string): string {
    FieldText("port", Field(1, 1, false, number), " " + ("(" + (name + ("):" + rest))))
  }

  function RmsText(x: Line): string
    requires x.RmsLine?
  {
    FieldText("rms", x.rms, FieldText("max", x.max, FieldText("freq", x.freq, FieldText("+/-", x.freqDeviation,
      FieldText("delay", x.delay, FieldText("+/-", x.delayDeviation, ""))))))
  }

  function OffsetText(offset: Field, servo: Field, freq: Field, rest: string): string {
    FieldText("offset", offset, FieldText("s", servo, FieldText("freq", freq, rest)))
  }

  function TransitionText(e: PortEvent): string {
    SpacedText(e.fromState, SpacedText("to", SpacedText(e.toState, SpacedText("on", SpacedText(e.trigger, "")))))
  }

  function ForeignText(e: ForeignMaster): string {
    SpacedText("new", SpacedText("foreign", SpacedText("master", IdentityText(e))))
  }

  function IdentityText(e: ForeignMaster): string {
    " " + (e.identity + ("-" + (Signed(false, e.masterPort) + "")))
  }

  function BestTail(identity: string): string {
    SpacedText("master", SpacedText("clock", SpacedText(identity, "")))
  }

  function LocalTail(identity: string): string {
    SpacedText("clock", SpacedText(identity, SpacedText("as", SpacedText("best", SpacedText("master", "")))))
  }

  /** The end of an offset line. */
  function PathText(gap: nat, delay: Field): string {
    Spaces(gap) + ("path" + FieldText("delay", delay, ""))
  }

  function Body(x: Line): string {
    match x
    case RmsLine(_, _, _, _, _, _) => RmsText(x)
    case OffsetLine(source, offset, servo, freq, pathGap, delay) =>
      SpacedText(source, OffsetText(offset, servo, freq, PathText(pathGap, delay)))
    case PortLine(e) => PortText(e.portNumber, e.portName, TransitionText(e))
    case ForeignLine(e) => PortText(e.portNumber, e.portName, ForeignText(e))
    case BestLine(identity) => SpacedText("selected", SpacedText("best", BestTail(identity)))
    case LocalLine(identity) => SpacedText("selected", SpacedText("local", LocalTail(identity)))
  }

  function Print(t: Stamp, x: Line): string {
    StampText(t.lead, t.seconds, t.fraction, Body(x))
  }

  /** The kind and the fields the line was printed from. */
  function Meaning(x: Line): Ptp4lKind {
    match x
    case RmsLine(_, max, freq, _, delay, _) => Metrics(Stats(max.value, freq.value, delay.value, 0))
    case OffsetLine(_, offset, servo, freq, _, delay) =>
      Metrics(Stats(offset.value, freq.value, delay.value, servo.value))
    case PortLine(e) => PortChange(e)
    case ForeignLine(e) => NewForeignMaster(e)
    case BestLine(identity) => BestMaster(identity)
    case LocalLine(identity) => BestMaster(identity)
  }

  // ----- scanning the printed pieces -----

  lemma ScanSpaced(word: string, rest: string, f: Format, r: Result)
    requires word != "" && !IsSpace(word[0])
    ensures Run(Spaced(word, f), SpacedText(word, rest), r) == Run(f, rest, r)
  {
    ScanSpace(" ", word + rest, Then(Lit(word), f), r);
    ScanLit(word, rest, f, r);
  }

  /** The same behind any blanks. */
  lemma ScanBehindBlanks(blanks: string, word: string, rest: string, f: Format, r: Result)
    requires Blank.All(blanks) && word != "" && !IsSpace(word[0])
    ensures Run(Spaced(word, f), blanks + (word + rest), r) == Run(f, rest, r)
  {
    ScanSpace(blanks, word + rest, Then(Lit(word), f), r);
    ScanLit(word, rest, f, r);
  }

  /** A word where the format wants another one ends the scan. */
  lemma RejectSpaced(word: string, expected: string, rest: string, f: Format, r: Result)
    requires word != "" && !IsSpace(word[0])
    requires !(expected <= word + rest)
    ensures Run(Spaced(expected, f), SpacedText(word, rest), r) == r
  {
    ScanSpace(" ", word + rest, Then(Lit(expected), f), r);
  }

  lemma ScanSpacedWord(width: Option<nat>, t: Option<Target>, word: string, rest: string, f: Format, r: Result)
    requires word != "" && NonBlank.All(word) && NonBlank.Stops(rest)
    requires width.Some? ==> |word| <= width.value
    ensures Run(Then(Space, Then(Word(width, t), f)), SpacedText(word, rest), r)
         == Run(f, rest, Put(t, Some(Str(word)), r))
  {
    ScanSpace(" ", word + rest, Then(Word(width, t), f), r);
    ScanWord(width, t, word, rest, f, r);
  }

  lemma FieldStops(key: string, x: Field, rest: string)
    requires key != "" && !IsDigit(key[0])
    ensures Digits.Stops(FieldText(key, x, rest))
    ensures x.gap > 0 ==> NonBlank.Stops(FieldText(key, x, rest))
  {
    if x.gap == 0 {
      assert FieldText(key, x, rest)[0] == key[0];
    } else {
      assert FieldText(key, x, rest)[0] == Spaces(x.gap)[0];
    }
  }

  function PutNum(t: Option<Target>, x: Field, r: Result): Result {
    Put(t, Some(Num(x.value)), r)
  }

  lemma ScanPair(k1: string, t1: Option<Target>, x1: Field, k2: string, t2: Option<Target>, x2: Field,
                 rest: string, f: Format, r: Result)
    requires KeyOk(k1) && KeyOk(k2) && Digits.Stops(rest)
    ensures Run(Keyed(k1, t1, Keyed(k2, t2, f)), FieldText(k1, x1, FieldText(k2, x2, rest)), r)
         == Run(f, rest, PutNum(t2, x2, PutNum(t1, x1, r)))
    ensures Digits.Stops(FieldText(k1, x1, FieldText(k2, x2, rest)))
  {
    FieldStops(k2, x2, rest);
    FieldStops(k1, x1, FieldText(k2, x2, rest));
    ScanKeyed(k1, t1, x1, FieldText(k2, x2, rest), Keyed(k2, t2, f), r);
    ScanKeyed(k2, t2, x2, rest, f, PutNum(t1, x1, r));
  }

  lemma ScanRms(x: Line, r: Result)
    requires x.RmsLine?
    ensures Run(RmsFields(), RmsText(x), r)
         == PutNum(Some(PathDelay), x.delay, PutNum(Some(Freq), x.freq, PutNum(Some(Offset), x.max, r)))
  {
    var t5 := FieldText("delay", x.delay, FieldText("+/-", x.delayDeviation, ""));
    var t3 := FieldText("freq", x.freq, FieldText("+/-", x.freqDeviation, t5));
    var r2 := PutNum(Some(Offset), x.max, r);
    ScanFreqAndDelay(x.freq, x.freqDeviation, x.delay, x.delayDeviation, r2);
    ScanPair("rms", None, x.rms, "max", Some(Offset), x.max, t3, FreqFormat(), r);
  }

  lemma ScanFreqAndDelay(freq: Field, freqDeviation: Field, delay: Field, delayDeviation: Field, r: Result)
    ensures var s := FieldText("freq", freq, FieldText("+/-", freqDeviation,
                       FieldText("delay", delay, FieldText("+/-", delayDeviation, ""))));
            && Run(FreqFormat(), s, r) == PutNum(Some(PathDelay), delay, PutNum(Some(Freq), freq, r))
            && Digits.Stops(s)
  {
    var t5 := FieldText("delay", delay, FieldText("+/-", delayDeviation, ""));
    var f5 := Keyed("delay", Some(PathDelay), LastField());
    ScanPair("delay", Some(PathDelay), delay, "+/-", None, delayDeviation, "", End, PutNum(Some(Freq), freq, r));
    ScanPair("freq", Some(Freq), freq, "+/-", None, freqDeviation, t5, f5, r);
  }

  /** " s%d": the number follows its key directly. */
  lemma ScanServo(servo: Field, rest: string, f: Format, r: Result)
    requires servo.pad == 0 && Digits.Stops(rest)
    ensures Run(Spaced("s", Then(Dec(Some(State)), f)), FieldText("s", servo, rest), r)
         == Run(f, rest, PutNum(Some(State), servo, r))
    ensures Digits.Stops(FieldText("s", servo, rest))
  {
    FieldStops("s", servo, rest);
    var number := Spaces(0) + (Signed(servo.plus, servo.value) + rest);
    ScanBehindBlanks(Spaces(servo.gap), "s", number, Then(Dec(Some(State)), f), r);
    ScanDec(Some(State), Spaces(0), servo.plus, servo.value, rest, f, r);
  }

  lemma ScanServoFreq(servo: Field, freq: Field, rest: string, f: Format, r: Result)
    requires servo.pad == 0 && Digits.Stops(rest)
    ensures Run(Spaced("s", Then(Dec(Some(State)), Keyed("freq", Some(Freq), f))),
                FieldText("s", servo, FieldText("freq", freq, rest)), r)
         == Run(f, rest, PutNum(Some(Freq), freq, PutNum(Some(State), servo, r)))
    ensures Digits.Stops(FieldText("s", servo, FieldText("freq", freq, rest)))
  {
    FieldStops("freq", freq, rest);
    ScanServo(servo, FieldText("freq", freq, rest), Keyed("freq", Some(Freq), f), r);
    ScanKeyed("freq", Some(Freq), freq, rest, f, PutNum(Some(State), servo, r));
  }

  lemma ScanOffset(offset: Field, servo: Field, freq: Field, rest: string, f: Format, r: Result)
    requires servo.pad == 0 && Digits.Stops(rest)
    ensures Run(OffsetFields(f), OffsetText(offset, servo, freq, rest), r)
         == Run(f, rest, PutNum(Some(Freq), freq, PutNum(Some(State), servo, PutNum(Some(Offset), offset, r))))
  {
    var r1 := PutNum(Some(Offset), offset, r);
    ScanServoFreq(servo, freq, rest, f, r1);
    ScanKeyed("offset", Some(Offset), offset, FieldText("s", servo, FieldText("freq", freq, rest)),
      Spaced("s", Then(Dec(Some(State)), Keyed("freq", Some(Freq), f))), r);
  }

  lemma ScanPort(number: int, name: string, rest: string, f: Format, t: Stamp, r: Result)
    requires StampOk(t) && PortNameOk(name)
    ensures Run(PortPrefix(f), StampText(t.lead, t.seconds, t.fraction, PortText(number, name, rest)), r)
         == Run(f, rest, Put(Some(PortName), Some(Str(name)), Put(Some(PortNumber), Some(Num(number)),
              Put(Some(Timestamp), Some(Seconds), r))))
  {
    var t2 := "):" + rest;
    var t1 := "(" + (name + t2);
    var f3 := Then(Lit("):"), f);
    var f2 := Then(Until(127, ')', Some(PortName)), f3);
    var f1 := Then(Space, Then(Lit("("), f2));
    var r1 := Put(Some(Timestamp), Some(Seconds), r);
    var r2 := Put(Some(PortNumber), Some(Num(number)), r1);
    ScanStamp(t.lead, t.seconds, t.fraction, PortText(number, name, rest), Keyed("port", Some(PortNumber), f1), r);
    ScanKeyed("port", Some(PortNumber), Field(1, 1, false, number), " " + t1, f1, r1);
    ScanSpace(" ", t1, Then(Lit("("), f2), r2);
    ScanLit("(", name + t2, f2, r2);
    ScanUntil(127, ')', Some(PortName), name, t2, f3, r2);
    ScanLit("):", rest, f, Put(Some(PortName), Some(Str(name)), r2));
  }
}
