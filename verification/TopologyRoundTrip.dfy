/** Rendering a snapshot the way pmc prints it and parsing it gives the snapshot back. */
module TopologyRoundTrip {
  import opened Text
  import opened Topology
  import T = TopologyPorts

  /** A line of pmc output: a key with its value, or anything the parser has to skip. */
  datatype Row =
    | Noise(text: string)
    | Entry(indent: string, key: string, gap: string, value: string, trail: string)

  predicate Padding(s: string) {
    Margin.All(s) && '\n' !in s
  }

  predicate Solid(s: string) {
    s != "" && NonBlank.All(s)
  }

  function RowText(row: Row): string {
    match row
    case Noise(text) => text
    case Entry(indent, key, gap, value, trail) => indent + (key + (gap + (value + trail)))
  }

  /** Noise is a line without a key and value, such as a blank or `sending:` line, or one with a foreign key. */
  predicate RowOk(d: DataSet, row: Row) {
    match row
    case Noise(text) =>
      '\n' !in text && (ParseKeyValue(text).None? || !Recognised(d, ParseKeyValue(text).value.key))
    case Entry(indent, key, gap, value, trail) =>
      && Recognised(d, key) && Solid(value)
      && Padding(indent) && Padding(gap) && gap != "" && Padding(trail)
  }

  predicate RowsOk(d: DataSet, rows: seq<Row>) {
    forall i | 0 <= i < |rows| :: RowOk(d, rows[i])
  }

  function Unlines(rows: seq<Row>): string {
    if rows == [] then "" else Unlines(rows[..|rows| - 1]) + (RowText(rows[|rows| - 1]) + "\n")
  }

  function DataOf(row: Row): seq<KeyValue> {
    if row.Entry? then [KeyValue(row.key, row.value)] else []
  }

  function Data(rows: seq<Row>): seq<KeyValue> {
    if rows == [] then [] else Data(rows[..|rows| - 1]) + DataOf(rows[|rows| - 1])
  }

  // ----- one line -----

  lemma {:induction false} DropEndOf(k: CharClass, a: string, b: string)
    requires k.All(b) && a != "" && !k.Has(a[|a| - 1])
    ensures DropEnd(k, a + b) == a
  {
    if b == "" {
      assert a + b == a;
    } else {
      assert (a + b)[..|a + b| - 1] == a + b[..|b| - 1];
      DropEndOf(k, a, b[..|b| - 1]);
    }
  }

  lemma TrimOf(a: string, s: string, b: string)
    requires Margin.All(a) && Margin.All(b) && s != "" && !Margin.Has(s[0]) && !Margin.Has(s[|s| - 1])
    ensures Trim(a + (s + b)) == s
  {
    assert (s + b)[0] == s[0];
    SpanOf(Margin, a, s + b);
    DropEndOf(Margin, s, b);
  }

  lemma MarginIsBlank(s: string)
    requires Margin.All(s)
    ensures Blank.All(s)
  {
  }

  lemma TokenAndRest(key: string, gap: string, value: string)
    requires Solid(key) && Solid(value) && Padding(gap) && gap != ""
    ensures FirstToken(key + (gap + value)) == key
    ensures RestOfLine(key + (gap + value)) == gap + value
  {
    MarginIsBlank(gap);
    assert (gap + value)[0] == gap[0] && Blank.Has(gap[0]);
    KeyToken(key, gap + value);
    assert '\n' !in value by { assert forall i | 0 <= i < |value| :: NonBlank.Has(value[i]); }
    WholeRest(gap + value);
  }

  /** A token that starts a text is its first token. */
  lemma KeyToken(key: string, rest: string)
    requires Solid(key) && NonBlank.Stops(rest)
    ensures FirstToken(key + rest) == key && Drop(NonBlank, Drop(Blank, key + rest)) == rest
  {
    var s := key + rest;
    assert s[0] == key[0] && NonBlank.Has(key[0]);
    assert "" + s == s;
    SpanOf(Blank, "", s);
    SpanOf(NonBlank, key, rest);
  }

  lemma NotSending(key: string, gap: string, value: string)
    requires Padding(gap) && gap != "" && !("sending:" <= key)
    ensures !("sending:" <= key + (gap + value))
  {
    var s := key + (gap + value);
    if |key| < 8 {
      assert s[|key|] == gap[0] && Margin.Has(gap[0]);
      assert NonBlank.All("sending:");
      assert NonBlank.Has("sending:"[|key|]);
    } else {
      assert s[..8] == key[..8];
    }
  }

  lemma KeyValueLine(indent: string, key: string, gap: string, value: string, trail: string)
    requires Padding(indent) && Padding(gap) && gap != "" && Padding(trail)
    requires Solid(key) && Solid(value) && !("sending:" <= key)
    ensures ParseKeyValue(indent + (key + (gap + (value + trail)))) == Some(KeyValue(key, value))
  {
    var s := key + (gap + value);
    assert NonBlank.Has(key[0]) && NonBlank.Has(value[0]) && NonBlank.Has(value[|value| - 1]);
    assert s[0] == key[0] && s[|s| - 1] == value[|value| - 1];
    assert key + (gap + (value + trail)) == s + trail;
    TrimOf(indent, s, trail);
    NotSending(key, gap, value);
    TokenAndRest(key, gap, value);
    TrimValue(gap, value);
  }

  lemma TrimValue(gap: string, value: string)
    requires Padding(gap) && Solid(value)
    ensures Trim(gap + value) == value
  {
    assert NonBlank.Has(value[0]) && NonBlank.Has(value[|value| - 1]);
    assert value + "" == value;
    TrimOf(gap, value, "");
  }

  lemma RecognisedIsSolid(d: DataSet, key: string)
    requires Recognised(d, key)
    ensures Solid(key) && !("sending:" <= key)
  {
    NotSendingKey(d, key);
    match d
    case ParentSet => ParentKeySolid(key);
    case CurrentSet => CurrentKeySolid(key);
    case _ =>
  }

  lemma ParentKeySolid(key: string)
    requires Recognised(ParentSet, key)
    ensures Solid(key)
  {
  }

  lemma CurrentKeySolid(key: string)
    requires Recognised(CurrentSet, key)
    ensures Solid(key)
  {
  }

  lemma NotSendingKey(d: DataSet, key: string)
    requires Recognised(d, key)
    ensures !("sending:" <= key)
  {
    assert key[0] == 's' ==> key[1] == 't';
    assert "sending:"[0] == 's' && "sending:"[1] == 'e';
  }

  /** A row contributes its own entry, or nothing the data set reads. */
  lemma RowEntry(d: DataSet, row: Row)
    requires RowOk(d, row)
    ensures row.Entry? ==> ParseKeyValue(RowText(row)) == Some(KeyValue(row.key, row.value))
    ensures '\n' !in RowText(row)
  {
    if row.Entry? {
      RecognisedIsSolid(d, row.key);
      KeyValueLine(row.indent, row.key, row.gap, row.value, row.trail);
      NoNewline(row.key);
      NoNewline(row.value);
    }
  }

  lemma {:induction false} DropEndKeeps(k: CharClass, a: string, b: string)
    requires a != "" && !k.Has(a[|a| - 1])
    ensures a <= DropEnd(k, a + b)
  {
    var s := a + b;
    if b != "" && k.Has(s[|s| - 1]) {
      assert s[..|s| - 1] == a + b[..|b| - 1];
      DropEndKeeps(k, a, b[..|b| - 1]);
    }
  }

  lemma DropAll(k: CharClass, s: string)
    requires k.All(s)
    ensures Drop(k, s) == ""
  {
    assert s + "" == s;
    SpanOf(k, s, "");
  }

  lemma {:induction false} DropEndTail(k: CharClass, a: string, b: string)
    requires k.All(b)
    ensures DropEnd(k, a + b) == DropEnd(k, a)
  {
    if b == "" {
      assert a + b == a;
    } else {
      assert (a + b)[..|a + b| - 1] == a + b[..|b| - 1];
      DropEndTail(k, a, b[..|b| - 1]);
    }
  }

  lemma SpanAll(k: CharClass, s: string)
    ensures Span(k, s) == |s| <==> k.All(s)
  {
    SpanExact(k, s);
    assert s[..|s|] == s;
  }

  lemma TrimTail(s: string, b: string)
    requires Margin.All(b)
    ensures Trim(s + b) == Trim(s)
    ensures Trim(s) == "" <==> Margin.All(s)
  {
    if Margin.All(s) {
      DropAll(Margin, s);
      DropAll(Margin, s + b);
    } else {
      SpanExact(Margin, s);
      SpanAll(Margin, s);
      SpanPrefix(Margin, s, b);
      var u := Drop(Margin, s);
      assert Drop(Margin, s + b) == u + b;
      DropEndTail(Margin, u, b);
      DropEndKeeps(Margin, u[..1], u[1..]);
      assert u[..1] + u[1..] == u;
    }
  }

  /** White space at the end changes neither the first token nor, but for itself, what follows it. */
  lemma TailToken(s: string, b: string)
    requires Margin.All(b) && '\n' !in s + b
    ensures FirstToken(s + b) == FirstToken(s)
    ensures Trim(RestOfLine(s + b)) == Trim(RestOfLine(s))
  {
    var u := Drop(Blank, s);
    SpanExact(Blank, s);
    if u == "" {
      assert s[..|s|] == s;
      MarginIsBlank(b);
      DropAll(Blank, s + b);
      DropAll(Blank, s);
    } else {
      SpanPrefix(Blank, s, b);
      assert Drop(Blank, s + b) == u + b;
      TokenTail(u, b);
      TrimTail(Drop(NonBlank, u), b);
      assert '\n' !in Drop(NonBlank, u) + b;
      WholeRest(Drop(NonBlank, u) + b);
      assert '\n' !in Drop(NonBlank, u);
      WholeRest(Drop(NonBlank, u));
    }
  }

  lemma WholeRest(rest: string)
    requires '\n' !in rest
    ensures rest[..Span(Except('\n'), rest)] == rest
  {
    assert rest + "" == rest;
    SpanOf(Except('\n'), rest, "");
  }

  lemma TokenTail(u: string, b: string)
    requires Margin.All(b) && u != ""
    ensures (u + b)[..Span(NonBlank, u + b)] == u[..Span(NonBlank, u)]
    ensures Drop(NonBlank, u + b) == Drop(NonBlank, u) + b
  {
    SpanExact(NonBlank, u);
    if Span(NonBlank, u) < |u| {
      SpanPrefix(NonBlank, u, b);
    } else {
      assert u[..|u|] == u;
      assert NonBlank.Stops(b) by { if b != "" { assert Margin.Has(b[0]); } }
      SpanOf(NonBlank, u, b);
    }
  }

  /** Blanks in front change neither of them. */
  lemma FrontToken(a: string, s: string)
    requires Blank.All(a)
    ensures FirstToken(a + s) == FirstToken(s) && RestOfLine(a + s) == RestOfLine(s)
  {
    assert Drop(Blank, a + s) == Drop(Blank, s) by {
      SpanExact(Blank, s);
      var n := Span(Blank, s);
      assert a + s == (a + s[..n]) + s[n..];
      SpanOf(Blank, a + s[..n], s[n..]);
    }
  }

  lemma TrimParts(line: string) returns (a: string, b: string)
    ensures line == a + (Trim(line) + b) && Margin.All(a) && Margin.All(b)
  {
    SpanExact(Margin, line);
    a := line[..Span(Margin, line)];
    b := EndParts(Margin, Drop(Margin, line));
  }

  lemma {:induction false} EndParts(k: CharClass, s: string) returns (b: string)
    ensures s == DropEnd(k, s) + b && k.All(b)
  {
    if s == "" || !k.Has(s[|s| - 1]) {
      b := "";
    } else {
      b := EndParts(k, s[..|s| - 1]);
      b := b + [s[|s| - 1]];
    }
  }

  /** Trimming the line first makes no difference to its key and value. */
  lemma TrimmedParts(line: string)
    requires '\n' !in line
    ensures FirstToken(Trim(line)) == FirstToken(line)
    ensures Trim(RestOfLine(Trim(line))) == Trim(RestOfLine(line))
  {
    var a, b := TrimParts(line);
    MarginIsBlank(a);
    FrontToken(a, Trim(line) + b);
    TailToken(Trim(line), b);
  }

  lemma TokenKeepsFront(front: string, s: string)
    requires Solid(front) && front <= s
    ensures front <= FirstToken(s)
  {
    var tail := s[|front|..];
    var n := Span(NonBlank, tail);
    SpanExact(NonBlank, tail);
    assert s == (front + tail[..n]) + tail[n..];
    KeyToken(front + tail[..n], tail[n..]);
  }

  lemma TrimKeepsFront(front: string, line: string)
    requires '\n' !in line && Solid(front) && !(front <= FirstToken(line))
    ensures !(front <= Trim(line))
  {
    TrimmedParts(line);
    if front <= Trim(line) { TokenKeepsFront(front, Trim(line)); }
  }

  /** What ParseKeyValue makes of a line, said of the line itself. */
  lemma ParsedParts(line: string)
    requires '\n' !in line
    ensures var key, value := FirstToken(line), Trim(RestOfLine(line));
            && (ParseKeyValue(line).Some? ==> value != "" && ParseKeyValue(line).value == KeyValue(key, value))
            && (key != "" && value != "" && !("sending:" <= key) ==> ParseKeyValue(line).Some?)
  {
    TrimmedParts(line);
    ParsedTrimmed(line);
    if !("sending:" <= FirstToken(line)) {
      KeepsSending(line);
    }
  }

  lemma SendingIsSolid()
    ensures Solid("sending:")
  {
  }

  lemma KeepsSending(line: string)
    requires '\n' !in line && !("sending:" <= FirstToken(line))
    ensures !("sending:" <= Trim(line))
  {
    SendingIsSolid();
    TrimKeepsFront("sending:", line);
  }

  lemma ParsedTrimmed(line: string)
    ensures var trimmed := Trim(line);
            var key, value := FirstToken(trimmed), Trim(RestOfLine(trimmed));
            && (ParseKeyValue(line).Some? ==> value != "" && ParseKeyValue(line).value == KeyValue(key, value))
            && (key != "" && value != "" && !("sending:" <= trimmed) ==> ParseKeyValue(line).Some?)
  {
    assert FirstToken("") == "";
  }

  /**
   A line is without effect on a data set exactly if its first token is not one of the set's
   keys, or nothing but margin follows it. Blank lines, `sending:` lines and the header line
   of a reply are among them.
   */
  lemma NoiseLines(d: DataSet, line: string)
    requires '\n' !in line
    ensures RowOk(d, Noise(line)) <==> !Recognised(d, FirstToken(line)) || Margin.All(RestOfLine(line))
  {
    var key, value := FirstToken(line), Trim(RestOfLine(line));
    TrimTail(RestOfLine(line), "");
    ParsedParts(line);
    NoiseFrom(d, line, key, value);
  }

  lemma NoiseFrom(d: DataSet, line: string, key: string, value: string)
    requires '\n' !in line
    requires ParseKeyValue(line).Some? ==> value != "" && ParseKeyValue(line).value == KeyValue(key, value)
    requires key != "" && value != "" && !("sending:" <= key) ==> ParseKeyValue(line).Some?
    ensures RowOk(d, Noise(line)) <==> !Recognised(d, key) || value == ""
  {
    if Recognised(d, key) { RecognisedIsSolid(d, key); }
  }

  lemma NoNewline(s: string)
    requires NonBlank.All(s)
    ensures '\n' !in s
  {
    assert forall i | 0 <= i < |s| :: NonBlank.Has(s[i]);
  }

  // ----- whole texts -----

  lemma OneLine(t: string)
    requires '\n' !in t
    ensures Lines(t + "\n") == [t]
  {
    SpanOf(Except('\n'), t, "\n");
    assert (t + "\n")[|t| + 1..] == "";
  }

  lemma {:induction false} UnlinesEnded(rows: seq<Row>)
    ensures T.NewlineEnded(Unlines(rows))
  {
  }

  /** Whatever noise is woven in, only the entries count. */
  lemma {:induction false} RowsFold(d: DataSet, round: Rounding, p: Progress, rows: seq<Row>)
    requires RowsOk(d, rows)
    ensures FoldText(d, round, p, Unlines(rows)) == Fold(d, round, p, Data(rows))
  {
    if rows != [] {
      var n := |rows| - 1;
      var row := rows[n];
      var t := RowText(row);
      RowsFold(d, round, p, rows[..n]);
      RowEntry(d, row);
      UnlinesEnded(rows[..n]);
      T.LinesConcat(Unlines(rows[..n]), t + "\n");
      OneLine(t);
      T.EntriesSnoc(Lines(Unlines(rows[..n])), t);
      FoldStep(d, round, p, Entries(Lines(Unlines(rows[..n]))), t);
      FoldData(d, round, p, Data(rows[..n]), row);
    }
  }

  lemma FoldData(d: DataSet, round: Rounding, p: Progress, es: seq<KeyValue>, row: Row)
    ensures Fold(d, round, p, es + DataOf(row))
         == var q := Fold(d, round, p, es);
            if row.Entry? then Apply(d, round, q, KeyValue(row.key, row.value)) else q
  {
    if row.Entry? {
      assert (es + DataOf(row))[..|es|] == es;
    } else {
      assert es + [] == es;
    }
  }

  // ----- the four data sets -----

  /** What is assumed of llround(stod(.)): whole decimal numbers below 2^53 come out exactly. */
  ghost predicate ReadsWholeNumbers(round: Rounding) {
    forall v | -0x20_0000_0000_0000 < v < 0x20_0000_0000_0000 ::
      round(Signed(false, v)) == Some(v) && round(Signed(false, v) + ".0") == Some(v)
  }

  predicate Int31(n: int) { 0 <= n < 0x8000_0000 }

  /** The identity ends in a dash and the port's number. */
  predicate PortOk(p: Port) {
    && Int31(p.number) && NonBlank.All(p.state)
    && var tail := "-" + Decimal(p.number);
       NonBlank.All(p.identity) && |tail| <= |p.identity| && p.identity[|p.identity| - |tail|..] == tail
  }

  predicate SnapshotOk(s: Snapshot) {
    && Solid(s.local) && Solid(s.parent) && Int31(s.parentPort) && Solid(s.grandmaster) && Int31(s.steps)
    && -0x20_0000_0000_0000 < s.delay < 0x20_0000_0000_0000
    && (forall i | 0 <= i < |s.ports| :: PortOk(s.ports[i]))
    && s.child == FirstSlave(s.ports)
  }

  function DefaultData(s: Snapshot): seq<KeyValue> {
    [KeyValue("clockIdentity", s.local)]
  }

  function ParentData(s: Snapshot): seq<KeyValue>
    requires Int31(s.parentPort)
  {
    [KeyValue("parentPortIdentity", s.parent + ("-" + Decimal(s.parentPort))),
     KeyValue("grandmasterIdentity", s.grandmaster)]
  }

  /** pmc prints the delay with one decimal. */
  function CurrentData(s: Snapshot, decimal: bool): seq<KeyValue> {
    [KeyValue("stepsRemoved", Signed(false, s.steps)),
     KeyValue("meanPathDelay", Signed(false, s.delay) + if decimal then ".0" else "")]
  }

  function PortRows(p: Port): seq<KeyValue> {
    [KeyValue("portIdentity", p.identity)] + if p.state == "" then [] else [KeyValue("portState", p.state)]
  }

  function PortData(ports: seq<Port>): seq<KeyValue> {
    if ports == [] then [] else PortData(ports[..|ports| - 1]) + PortRows(ports[|ports| - 1])
  }

  lemma FoldOne(d: DataSet, round: Rounding, p: Progress, es: seq<KeyValue>, e: KeyValue)
    ensures Fold(d, round, p, es + [e]) == Apply(d, round, Fold(d, round, p, es), e)
  {
    assert (es + [e])[..|es|] == es;
  }

  lemma FoldTwo(d: DataSet, round: Rounding, p: Progress, a: KeyValue, b: KeyValue)
    ensures Fold(d, round, p, [a, b]) == Apply(d, round, Apply(d, round, p, a), b)
  {
    assert [a, b][..1] == [a] && [a][..0] == [];
    assert Fold(d, round, p, [a]) == Apply(d, round, Fold(d, round, p, []), a);
  }

  lemma PortIdentityToken(clock: string, n: nat)
    requires NonBlank.All(clock) && Int31(n)
    ensures var identity := clock + ("-" + Decimal(n));
            && FirstToken(identity) == identity && ParseClockIdentity(identity) == clock
            && ParsePortNumber(identity) == Some(n)
  {
    T.DecimalChars(n);
    SolidConcat(clock, Decimal(n));
    T.TokenOf(clock + ("-" + Decimal(n)));
    T.SplitPortIdentity(clock, n);
  }

  lemma FoldParent(round: Rounding, s: Snapshot, p: Progress)
    requires SnapshotOk(s)
    ensures Fold(ParentSet, round, p, ParentData(s))
         == p.(snapshot := p.snapshot.(parent := s.parent, parentPort := s.parentPort, grandmaster := s.grandmaster))
  {
    var identity := s.parent + ("-" + Decimal(s.parentPort));
    ApplyParent(round, p, s.parent, s.parentPort);
    T.TokenOf(s.grandmaster);
    FoldTwo(ParentSet, round, p, KeyValue("parentPortIdentity", identity),
      KeyValue("grandmasterIdentity", s.grandmaster));
  }

  lemma ApplyParent(round: Rounding, p: Progress, clock: string, n: nat)
    requires NonBlank.All(clock) && Int31(n)
    ensures Apply(ParentSet, round, p, KeyValue("parentPortIdentity", clock + ("-" + Decimal(n))))
         == p.(snapshot := p.snapshot.(parent := clock, parentPort := n))
  {
    PortIdentityToken(clock, n);
  }

  lemma SolidConcat(a: string, b: string)
    requires NonBlank.All(a) && NonBlank.All(b)
    ensures NonBlank.All(a + ("-" + b))
  {
    var s := a + ("-" + b);
    assert forall i | 0 <= i < |s| :: s[i] == if i < |a| then a[i] else if i == |a| then '-' else b[i - |a| - 1];
  }

  lemma NumberToken(v: int, suffix: string)
    requires suffix == "" || suffix == ".0"
    ensures FirstToken(Signed(false, v) + suffix) == Signed(false, v) + suffix
    ensures Signed(false, v) + suffix != ""
  {
    var d := Decimal(Abs(v));
    T.DecimalChars(Abs(v));
    assert NonBlank.All(SignText(false, v)) && NonBlank.All(suffix);
    var s := (SignText(false, v) + d) + suffix;
    assert NonBlank.All(SignText(false, v) + d);
    assert NonBlank.All(s);
    T.TokenOf(s);
  }

  lemma FoldCurrent(round: Rounding, s: Snapshot, decimal: bool, p: Progress)
    requires SnapshotOk(s) && ReadsWholeNumbers(round)
    ensures Fold(CurrentSet, round, p, CurrentData(s, decimal))
         == p.(snapshot := p.snapshot.(steps := s.steps, delay := s.delay))
  {
    ApplySteps(round, s.steps, p);
    ApplyDelay(round, s.delay, decimal, p.(snapshot := p.snapshot.(steps := s.steps)));
    FoldTwo(CurrentSet, round, p, KeyValue("stepsRemoved", Signed(false, s.steps)),
      KeyValue("meanPathDelay", Signed(false, s.delay) + if decimal then ".0" else ""));
  }

  lemma ApplySteps(round: Rounding, steps: int, p: Progress)
    requires Int31(steps) && ReadsWholeNumbers(round)
    ensures Apply(CurrentSet, round, p, KeyValue("stepsRemoved", Signed(false, steps)))
         == p.(snapshot := p.snapshot.(steps := steps))
  {
    NumberToken(steps, "");
    assert Signed(false, steps) + "" == Signed(false, steps);
  }

  lemma ApplyDelay(round: Rounding, delay: int, decimal: bool, p: Progress)
    requires -0x20_0000_0000_0000 < delay < 0x20_0000_0000_0000 && ReadsWholeNumbers(round)
    ensures Apply(CurrentSet, round, p, KeyValue("meanPathDelay", Signed(false, delay) + if decimal then ".0" else ""))
         == p.(snapshot := p.snapshot.(delay := delay))
  {
    NumberToken(delay, if decimal then ".0" else "");
    assert Signed(false, delay) + "" == Signed(false, delay);
  }

  lemma NewPortOf(p: Port)
    requires PortOk(p)
    ensures NewPort(p.identity) == p.(state := "")
  {
    var tail := "-" + Decimal(p.number);
    var clock := p.identity[..|p.identity| - |tail|];
    assert p.identity == clock + tail;
    T.TokenOf(p.identity);
    T.DecimalChars(p.number);
    T.NumberBehindDash(clock, Decimal(p.number));
    T.NumberAfterDash(p.number);
  }

  lemma ApplyIdentity(round: Rounding, q: Progress, port: Port)
    requires PortOk(port)
    ensures Apply(PortSet, round, q, KeyValue("portIdentity", port.identity))
         == Progress(q.snapshot.(ports := Flushed(q)), Some(port.(state := "")))
  {
    NewPortOf(port);
  }

  lemma ApplyState(round: Rounding, s: Snapshot, port: Port)
    requires NonBlank.All(port.state)
    ensures Apply(PortSet, round, Progress(s, Some(port.(state := ""))), KeyValue("portState", port.state))
         == Progress(s, Some(port))
  {
    T.TokenOf(port.state);
  }

  lemma FoldPort(round: Rounding, p: Progress, es: seq<KeyValue>, q: Progress, port: Port)
    requires Fold(PortSet, round, p, es) == q && PortOk(port)
    ensures Fold(PortSet, round, p, es + PortRows(port)) == Progress(q.snapshot.(ports := Flushed(q)), Some(port))
  {
    var first := KeyValue("portIdentity", port.identity);
    ApplyIdentity(round, q, port);
    FoldOne(PortSet, round, p, es, first);
    if port.state == "" {
      assert es + PortRows(port) == es + [first];
    } else {
      var second := KeyValue("portState", port.state);
      assert es + PortRows(port) == (es + [first]) + [second];
      FoldOne(PortSet, round, p, es + [first], second);
      ApplyState(round, q.snapshot.(ports := Flushed(q)), port);
    }
  }

  ghost predicate Holds(p: Progress, s: Snapshot, ports: seq<Port>) {
    Flushed(p) == ports && p.snapshot == s.(ports := p.snapshot.ports)
  }

  lemma {:induction false} FoldPorts(round: Rounding, s: Snapshot, ports: seq<Port>)
    requires s.ports == [] && forall i | 0 <= i < |ports| :: PortOk(ports[i])
    ensures Holds(Fold(PortSet, round, Progress(s, None), PortData(ports)), s, ports)
  {
    if ports != [] {
      var before, port := ports[..|ports| - 1], ports[|ports| - 1];
      var q := Fold(PortSet, round, Progress(s, None), PortData(before));
      FoldPorts(round, s, before);
      FoldPort(round, Progress(s, None), PortData(before), q, port);
      assert ports == before + [port];
      assert Holds(Progress(q.snapshot.(ports := Flushed(q)), Some(port)), s, ports);
    }
  }

  lemma FoldDefault(round: Rounding, s: Snapshot, p: Progress)
    requires Solid(s.local)
    ensures Fold(DefaultSet, round, p, DefaultData(s)) == p.(snapshot := p.snapshot.(local := s.local))
  {
    T.TokenOf(s.local);
    assert DefaultData(s)[..0] == [];
  }

  /** The four texts, line by line; the delay may be printed with a decimal. */
  datatype Rendering = Rendering(
    decimal: bool, defaults: seq<Row>, parent: seq<Row>, current: seq<Row>, ports: seq<Row>)

  /**
   The texts carry the data of the snapshot, with any skipped lines woven in. A current data
   set that is missing altogether stands for no steps and no delay.
   */
  predicate Renders(d: Rendering, s: Snapshot)
    requires SnapshotOk(s)
  {
    && RowsOk(DefaultSet, d.defaults) && Data(d.defaults) == DefaultData(s)
    && RowsOk(ParentSet, d.parent) && Data(d.parent) == ParentData(s)
    && RowsOk(CurrentSet, d.current)
    && (Data(d.current) == CurrentData(s, d.decimal) || (Data(d.current) == [] && s.steps == 0 && s.delay == 0))
    && RowsOk(PortSet, d.ports) && Data(d.ports) == PortData(s.ports)
  }

  /** Parsing the texts of a rendered snapshot gives back that snapshot. */
  lemma RoundTrip(round: Rounding, s: Snapshot, d: Rendering)
    requires SnapshotOk(s) && ReadsWholeNumbers(round) && Renders(d, s)
    ensures Snap(round, Unlines(d.defaults), Unlines(d.parent), Unlines(d.current), Unlines(d.ports)) == Some(s)
  {
    var p1 := EMPTY.(snapshot := EMPTY.snapshot.(local := s.local));
    var p2 := p1.(snapshot := p1.snapshot.(
      parent := s.parent, parentPort := s.parentPort, grandmaster := s.grandmaster));
    var p3 := p2.(snapshot := p2.snapshot.(steps := s.steps, delay := s.delay));
    RowsFold(DefaultSet, round, EMPTY, d.defaults);
    FoldDefault(round, s, EMPTY);
    RowsFold(ParentSet, round, p1, d.parent);
    FoldParent(round, s, p1);
    RowsFold(CurrentSet, round, p2, d.current);
    if Data(d.current) != [] { FoldCurrent(round, s, d.decimal, p2); }
    RowsFold(PortSet, round, p3, d.ports);
    FoldPorts(round, p3.snapshot, s.ports);
  }
}
