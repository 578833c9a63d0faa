/** Which ports a PORT_DATA_SET text produces, and how two texts combine. */
module TopologyPorts {
  import opened Text
  import opened Scanf
  import opened Topology
  import G = ScanfGrammar

  function Ports(round: Rounding, s: Snapshot, es: seq<KeyValue>): seq<Port> {
    Flushed(Fold(PortSet, round, Progress(s, None), es))
  }

  // ----- the identity and the port number of "identity-number" -----

  lemma TokenOf(s: string)
    requires NonBlank.All(s)
    ensures FirstToken(s) == s
  {
    assert s + "" == s && "" + s == s;
    assert Blank.Stops(s) by { if s != "" { assert NonBlank.Has(s[0]); } }
    SpanOf(Blank, "", s);
    SpanOf(NonBlank, s, "");
  }

  lemma NumberAfterDash(n: nat)
    ensures Stoi(Decimal(n)) == if n < 0x8000_0000 then Some(n) else None
  {
    var d := Decimal(n);
    assert SignText(false, n) + d == d;
    assert "" + (Signed(false, n) + "") == d;
    MatchSigned("", false, n, "");
  }

  lemma DecimalChars(n: nat)
    ensures Except('-').All(Decimal(n)) && NonBlank.All(Decimal(n))
  {
    assert Digits.All(Decimal(n));
  }

  lemma NumberBehindDash(clock: string, digits: string)
    requires digits != "" && Except('-').All(digits)
    ensures ParsePortNumber(clock + ("-" + digits)) == Stoi(digits)
  {
    LastIndexOf(clock, '-', digits);
    assert (clock + ("-" + digits))[|clock| + 1..] == digits;
  }

  lemma ClockBeforeDash(clock: string, digits: string)
    requires NonBlank.All(clock) && NonBlank.All(digits) && Except('-').All(digits)
    ensures ParseClockIdentity(clock + ("-" + digits)) == clock
  {
    var s := clock + ("-" + digits);
    LastIndexOf(clock, '-', digits);
    assert NonBlank.All(s) by {
      assert forall i | 0 <= i < |s| ::
          s[i] == if i < |clock| then clock[i] else if i == |clock| then '-' else digits[i - |clock| - 1];
    }
    TokenOf(s);
    assert s[..|clock|] == clock;
  }

  /**
   Splitting at the last dash gives back both parts, whatever dashes the identity has itself;
   a number that does not fit an int is refused.
   */
  lemma SplitPortIdentity(clock: string, n: nat)
    requires NonBlank.All(clock)
    ensures ParseClockIdentity(clock + ("-" + Decimal(n))) == clock
    ensures ParsePortNumber(clock + ("-" + Decimal(n))) == if n < 0x8000_0000 then Some(n) else None
  {
    DecimalChars(n);
    ClockBeforeDash(clock, Decimal(n));
    NumberBehindDash(clock, Decimal(n));
    NumberAfterDash(n);
  }

  /** stoi: leading white space, a number that fits an int, and anything that does not prolong it. */
  ghost predicate SpellsInt(s: string, v: int) {
    -0x8000_0000 <= v < 0x8000_0000
    && exists blanks, n: Numeral, rest ::
         && n.Ok() && n.Value() == v && Blank.All(blanks) && Digits.Stops(rest)
         && s == blanks + (n.sign + (n.digits + rest))
  }

  lemma StoiExactly(s: string, v: int)
    ensures Stoi(s) == Some(v) <==> SpellsInt(s, v)
  {
    if MatchDec(s).Match? {
      var blanks, n := G.MatchedNumber(s);
    }
    forall blanks, n: Numeral, rest
      | n.Ok() && Blank.All(blanks) && Digits.Stops(rest) && s == blanks + (n.sign + (n.digits + rest))
      ensures MatchDec(s) == Match(Some(Num(n.Value())), rest)
    {
      G.NumberIsMatched(blanks, n, rest);
    }
  }

  /** Without a dash there is no number and all is identity; behind a final dash there is no number. */
  lemma NoPortNumber(clock: string)
    requires NonBlank.All(clock)
    ensures '-' !in clock ==> ParsePortNumber(clock) == None && ParseClockIdentity(clock) == clock
    ensures ParsePortNumber(clock + "-") == None
  {
    TokenOf(clock);
    assert clock + ("-" + "") == clock + "-";
    LastIndexOf(clock, '-', "");
  }

  // ----- one port per portIdentity line -----

  /** Where the port blocks start. */
  function Starts(es: seq<KeyValue>): (r: seq<nat>)
    ensures forall j | 0 <= j < |r| :: r[j] < |es|
  {
    if es == [] then []
    else Starts(es[..|es| - 1]) + if es[|es| - 1].key == "portIdentity" then [|es| - 1] else []
  }

  /** Value of the last portState among es[from..to], or "". */
  function LastState(es: seq<KeyValue>, from: nat, to: nat): string
    requires to <= |es|
  {
    if to <= from then ""
    else if es[to - 1].key == "portState" then FirstToken(es[to - 1].value)
    else LastState(es, from, to - 1)
  }

  lemma {:induction false} LastStatePrefix(es: seq<KeyValue>, n: nat, from: nat, to: nat)
    requires to <= n <= |es|
    ensures LastState(es[..n], from, to) == LastState(es, from, to)
  {
    if to > from && es[to - 1].key != "portState" { LastStatePrefix(es, n, from, to - 1); }
  }

  /** The j-th block ends where the next one starts. */
  function BlockEnd(es: seq<KeyValue>, j: nat): nat
    requires j < |Starts(es)|
  {
    if j + 1 < |Starts(es)| then Starts(es)[j + 1] else |es|
  }

  /** What the j-th port of a text must be. */
  function PortOf(es: seq<KeyValue>, j: nat): Port
    requires j < |Starts(es)|
  {
    PortAt(es, Starts(es)[j], BlockEnd(es, j))
  }

  /** The port of the block es[from..to]. */
  function PortAt(es: seq<KeyValue>, from: nat, to: nat): Port
    requires from < |es| && to <= |es|
  {
    NewPort(es[from].value).(state := LastState(es, from + 1, to))
  }

  function AllPorts(es: seq<KeyValue>): (r: seq<Port>)
    ensures |r| == |Starts(es)| && forall j | 0 <= j < |r| :: r[j] == PortOf(es, j)
  {
    seq(|Starts(es)|, j requires 0 <= j < |Starts(es)| => PortOf(es, j))
  }

  lemma PortAtPrefix(es: seq<KeyValue>, n: nat, from: nat, to: nat)
    requires from < n <= |es| && to <= n
    ensures PortAt(es[..n], from, to) == PortAt(es, from, to)
  {
    LastStatePrefix(es, n, from + 1, to);
  }

  lemma PortAtGrows(es: seq<KeyValue>, from: nat)
    requires es != [] && from < |es| - 1
    ensures PortAt(es, from, |es|)
         == var p := PortAt(es, from, |es| - 1);
            if es[|es| - 1].key == "portState" then p.(state := FirstToken(es[|es| - 1].value)) else p
  {
  }

  /** Only the last block grows with a line, and only if the line does not start a new one. */
  lemma BlockOfPrefix(es: seq<KeyValue>, j: nat)
    requires es != [] && j < |Starts(es[..|es| - 1])|
    ensures var es' := es[..|es| - 1];
            && j < |Starts(es)| && Starts(es)[j] == Starts(es')[j]
            && BlockEnd(es, j) == if j == |Starts(es')| - 1 && es[|es| - 1].key != "portIdentity" then |es|
                                  else BlockEnd(es', j)
  {
  }

  /** Earlier blocks do not see a later line; the last block sees it at its end. */
  lemma PortOfPrefix(es: seq<KeyValue>, j: nat)
    requires es != [] && j < |Starts(es[..|es| - 1])|
    ensures j < |Starts(es)| && Starts(es)[j] == Starts(es[..|es| - 1])[j]
    ensures PortOf(es, j)
         == var last := es[|es| - 1];
            var p := PortOf(es[..|es| - 1], j);
            if last.key == "portState" && j == |Starts(es[..|es| - 1])| - 1
            then p.(state := FirstToken(last.value)) else p
  {
    var n := |es| - 1;
    var a := Starts(es[..n])[j];
    BlockOfPrefix(es, j);
    PortAtPrefix(es, n, a, BlockEnd(es[..n], j));
    PortAtGrows(es, a);
  }

  /** AllPorts obeys the same recurrence as the parser's loop. */
  lemma AllPortsStep(es: seq<KeyValue>)
    requires es != []
    ensures var last := es[|es| - 1];
            var before := AllPorts(es[..|es| - 1]);
            AllPorts(es) ==
              if last.key == "portIdentity" then before + [NewPort(last.value)]
              else if last.key == "portState" && before != [] then
                before[|before| - 1 := before[|before| - 1].(state := FirstToken(last.value))]
              else before
  {
    forall j | 0 <= j < |Starts(es[..|es| - 1])|
      ensures j < |Starts(es)| && PortOf(es, j)
         == var last := es[|es| - 1];
            var p := PortOf(es[..|es| - 1], j);
            if last.key == "portState" && j == |Starts(es[..|es| - 1])| - 1
            then p.(state := FirstToken(last.value)) else p
    {
      PortOfPrefix(es, j);
    }
  }

  predicate OpenIsLast(p: Progress, ports: seq<Port>) {
    && Flushed(p) == ports
    && (p.open.Some? <==> ports != [])
    && (p.open.Some? ==> p.open.value == ports[|ports| - 1] && p.snapshot.ports == ports[..|ports| - 1])
  }

  lemma {:induction false} LoopKeepsPorts(round: Rounding, s: Snapshot, es: seq<KeyValue>)
    requires s.ports == []
    ensures OpenIsLast(Fold(PortSet, round, Progress(s, None), es), AllPorts(es))
  {
    if es != [] {
      LoopKeepsPorts(round, s, es[..|es| - 1]);
      AllPortsStep(es);
      KeepStep(round, Fold(PortSet, round, Progress(s, None), es[..|es| - 1]), AllPorts(es[..|es| - 1]), es[|es| - 1]);
    }
  }

  lemma KeepStep(round: Rounding, p: Progress, ports: seq<Port>, e: KeyValue)
    requires OpenIsLast(p, ports)
    ensures OpenIsLast(Apply(PortSet, round, p, e),
              if e.key == "portIdentity" then ports + [NewPort(e.value)]
              else if e.key == "portState" && ports != [] then
                ports[|ports| - 1 := ports[|ports| - 1].(state := FirstToken(e.value))]
              else ports)
  {
  }

  /** `ports` has one entry per portIdentity line, in order, each with the last state of its own block. */
  lemma PortsOfBlocks(round: Rounding, s: Snapshot, es: seq<KeyValue>)
    requires s.ports == []
    ensures var ports := Ports(round, s, es);
            |ports| == |Starts(es)| && forall j | 0 <= j < |ports| :: ports[j] == PortOf(es, j)
  {
    LoopKeepsPorts(round, s, es);
  }

  lemma {:induction false} OtherSetsKeepPorts(d: DataSet, round: Rounding, p: Progress, es: seq<KeyValue>)
    requires d != PortSet
    ensures Fold(d, round, p, es).open == p.open && Fold(d, round, p, es).snapshot.ports == p.snapshot.ports
  {
    if es != [] { OtherSetsKeepPorts(d, round, p, es[..|es| - 1]); }
  }

  /** The ports of a parsed snapshot are those of the port text, and its child is their first SLAVE. */
  lemma SnapshotPorts(round: Rounding, defaults: string, parent: string, current: string, ports: string)
    requires Snap(round, defaults, parent, current, ports).Some?
    ensures var s := Snap(round, defaults, parent, current, ports).value;
            var es := Entries(Lines(ports));
            && |s.ports| == |Starts(es)| && (forall j | 0 <= j < |s.ports| :: s.ports[j] == PortOf(es, j))
            && s.child == FirstSlave(s.ports)
  {
    var p1 := FoldText(DefaultSet, round, EMPTY, defaults);
    var p2 := FoldText(ParentSet, round, p1, parent);
    var p3 := FoldText(CurrentSet, round, p2, current);
    OtherSetsKeepPorts(DefaultSet, round, EMPTY, Entries(Lines(defaults)));
    OtherSetsKeepPorts(ParentSet, round, p1, Entries(Lines(parent)));
    OtherSetsKeepPorts(CurrentSet, round, p2, Entries(Lines(current)));
    PortsOfBlocks(round, p3.snapshot, Entries(Lines(ports)));
  }

  // ----- concatenating two port texts -----

  predicate NewlineEnded(text: string) {
    text == "" || text[|text| - 1] == '\n'
  }

  lemma {:induction false} LinesConcat(a: string, b: string)
    requires NewlineEnded(a)
    ensures Lines(a + b) == Lines(a) + Lines(b)
    decreases |a|
  {
    if a == "" {
      assert a + b == b;
    } else {
      var k := Except('\n');
      var n := Span(k, a);
      SpanExact(k, a);
      assert a[..|a|] == a && !k.Has(a[|a| - 1]);
      SpanPrefix(k, a, b);
      assert (a + b)[n + 1..] == a[n + 1..] + b;
      LinesConcat(a[n + 1..], b);
    }
  }

  /** Every line with its newline. */
  function EndedLines(lines: seq<string>): string {
    if lines == [] then "" else lines[0] + ("\n" + EndedLines(lines[1..]))
  }

  lemma LinesStep(line: string, rest: string)
    requires '\n' !in line
    ensures Lines(line + ("\n" + rest)) == [line] + Lines(rest)
  {
    SpanOf(Except('\n'), line, "\n" + rest);
    assert (line + ("\n" + rest))[|line| + 1..] == rest;
  }

  lemma LastLine(line: string)
    requires '\n' !in line && line != ""
    ensures Lines(line) == [line]
  {
    assert line + "" == line;
    SpanOf(Except('\n'), line, "");
  }

  lemma EndedStep(line: string, rest: string, lines: seq<string>, end: string)
    requires EndedLines(lines) == rest + end
    ensures EndedLines([line] + lines) == (line + ("\n" + rest)) + end
  {
    assert ([line] + lines)[1..] == lines;
    assert (line + ("\n" + rest)) + end == line + ("\n" + (rest + end));
  }

  /** The lines are the newline-free parts of the text; a last part without a newline is one of them. */
  lemma {:induction false} LinesExactly(text: string)
    ensures forall line | line in Lines(text) :: '\n' !in line
    ensures EndedLines(Lines(text)) == text + if NewlineEnded(text) then "" else "\n"
    decreases |text|
  {
    if text != "" {
      var n := Span(Except('\n'), text);
      SpanExact(Except('\n'), text);
      var line := text[..n];
      assert '\n' !in line by { assert forall i | 0 <= i < n :: Except('\n').Has(line[i]); }
      if n == |text| {
        assert line == text;
        LastLine(text);
        assert NewlineEnded(text) ==> '\n' in text;
        EndedStep(text, "", [], "");
        assert [text] + [] == [text] && (text + ("\n" + "")) + "" == text + "\n";
      } else {
        var rest := text[n + 1..];
        assert text == line + ("\n" + rest);
        LinesExactly(rest);
        LinesStep(line, rest);
        EndedStep(line, rest, Lines(rest), if NewlineEnded(rest) then "" else "\n");
        assert NewlineEnded(rest) == NewlineEnded(text) by {
          if rest != "" { assert rest[|rest| - 1] == text[|text| - 1]; } else { assert text[|text| - 1] == '\n'; }
        }
      }
    }
  }

  lemma Assoc<T>(x: seq<T>, y: seq<T>, z: seq<T>)
    ensures x + (y + z) == (x + y) + z
  {
  }

  lemma EntriesSnoc(lines: seq<string>, line: string)
    ensures Entries(lines + [line]) == Entries(lines) + OneEntry(line)
  {
    assert (lines + [line])[..|lines|] == lines;
  }

  lemma {:induction false} EntriesConcat(a: seq<string>, b: seq<string>)
    ensures Entries(a + b) == Entries(a) + Entries(b)
  {
    if b == [] {
      assert a + b == a;
    } else {
      var b', last := b[..|b| - 1], b[|b| - 1];
      assert b == b' + [last];
      assert a + b == (a + b') + [last];
      EntriesSnoc(a + b', last);
      EntriesSnoc(b', last);
      EntriesConcat(a, b');
      Assoc(Entries(a), Entries(b'), OneEntry(last));
    }
  }

  predicate HasPort(es: seq<KeyValue>) {
    es != [] && (es[|es| - 1].key == "portIdentity" || HasPort(es[..|es| - 1]))
  }

  /** The first recognised key, if any, opens a port: no portState comes before a portIdentity. */
  predicate StartsWithPort(es: seq<KeyValue>) {
    es != [] ==> StartsWithPort(es[..|es| - 1]) && (es[|es| - 1].key == "portState" ==> HasPort(es[..|es| - 1]))
  }

  /** How the loop state after both parts relates to the state after each of them. */
  ghost predicate Joined(p: Progress, first: Progress, q: Progress, hasPort: bool) {
    && (q.open.Some? <==> hasPort)
    && (if hasPort then p.open == q.open && p.snapshot.ports == Flushed(first) + q.snapshot.ports
        else p == first && q.snapshot.ports == [])
  }

  lemma JoinedStep(round: Rounding, p: Progress, first: Progress, q: Progress, hasPort: bool, e: KeyValue)
    requires Joined(p, first, q, hasPort) && (e.key == "portState" ==> hasPort)
    ensures Joined(Apply(PortSet, round, p, e), first, Apply(PortSet, round, q, e), hasPort || e.key == "portIdentity")
  {
    if e.key == "portIdentity" {
      if hasPort {
        Assoc(Flushed(first), q.snapshot.ports, [q.open.value]);
      } else {
        assert Flushed(first) + [] == Flushed(first);
      }
    }
  }

  lemma {:induction false} FoldAfter(round: Rounding, s: Snapshot, a: seq<KeyValue>, b: seq<KeyValue>)
    requires StartsWithPort(b) && s.ports == []
    ensures Joined(Fold(PortSet, round, Progress(s, None), a + b), Fold(PortSet, round, Progress(s, None), a),
                   Fold(PortSet, round, Progress(s, None), b), HasPort(b))
    decreases |b|
  {
    if b == [] {
      assert a + b == a;
    } else {
      var n := |b| - 1;
      FoldAfter(round, s, a, b[..n]);
      assert (a + b)[..|a| + n] == a + b[..n];
      JoinedStep(round, Fold(PortSet, round, Progress(s, None), a + b[..n]), Fold(PortSet, round, Progress(s, None), a),
        Fold(PortSet, round, Progress(s, None), b[..n]), HasPort(b[..n]), b[n]);
    }
  }

  /** Appending a text that opens with a port block concatenates the port lists. */
  lemma PortTextsConcatenate(round: Rounding, s: Snapshot, a: string, b: string)
    requires s.ports == [] && NewlineEnded(a) && StartsWithPort(Entries(Lines(b)))
    ensures Ports(round, s, Entries(Lines(a + b)))
         == Ports(round, s, Entries(Lines(a))) + Ports(round, s, Entries(Lines(b)))
  {
    LinesConcat(a, b);
    EntriesConcat(Lines(a), Lines(b));
    var e, f := Entries(Lines(a)), Entries(Lines(b));
    FoldAfter(round, s, e, f);
    var q := Fold(PortSet, round, Progress(s, None), f);
    if q.open.Some? {
      Assoc(Ports(round, s, e), q.snapshot.ports, [q.open.value]);
    } else {
      assert Ports(round, s, e) + [] == Ports(round, s, e);
    }
  }
}
