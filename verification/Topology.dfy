/** The pmc output parser of src/ptp_topology.cpp. */
module Topology {
  import opened Text
  import opened Scanf

  datatype Port = Port(number: int, identity: string, state: string)

  /** PtpTopologySnapshotData without its time stamp, which is the clock's at the call. */
  datatype Snapshot = Snapshot(
    local: string, parent: string, parentPort: int, grandmaster: string,
    steps: int, delay: int, child: int, ports: seq<Port>)

  datatype KeyValue = KeyValue(key: string, value: string)

  // ----- text helpers -----

  function DropEnd(k: CharClass, s: string): (r: string)
    ensures |r| <= |s|
  {
    if s == "" || !k.Has(s[|s| - 1]) then s else DropEnd(k, s[..|s| - 1])
  }

  function Trim(s: string): string {
    DropEnd(Margin, Drop(Margin, s))
  }

  /** `stream >> token` on a fresh stream; skips more kinds of white space than Trim does. */
  function FirstToken(s: string): string {
    var u := Drop(Blank, s);
    u[..Span(NonBlank, u)]
  }

  /** getline of what `>>` left. */
  function RestOfLine(s: string): string {
    var rest := Drop(NonBlank, Drop(Blank, s));
    rest[..Span(Except('\n'), rest)]
  }

  function ParseKeyValue(line: string): Option<KeyValue> {
    var trimmed := Trim(line);
    if trimmed == "" || "sending:" <= trimmed then None
    else
      var key := FirstToken(trimmed);
      var value := Trim(RestOfLine(trimmed));
      if key == "" || value == "" then None else Some(KeyValue(key, value))
  }

  /** std::stoi; None stands for either exception. */
  function Stoi(s: string): Option<int> {
    match MatchDec(s)
    case Match(Some(Num(v)), _) => if -0x8000_0000 <= v < 0x8000_0000 then Some(v) else None
    case _ => None
  }

  function ParsePortNumber(identity: string): Option<int> {
    var dash := LastIndex(identity, '-');
    if dash.None? || dash.value + 1 >= |identity| then None else Stoi(identity[dash.value + 1..])
  }

  function ParseClockIdentity(identity: string): string {
    var token := FirstToken(identity);
    var dash := LastIndex(token, '-');
    if dash.None? then token else token[..dash.value]
  }

  /** llround(stod(token)); None stands for an exception. */
  type Rounding = string -> Option<int>

  function ParseNanoseconds(round: Rounding, value: string): Option<int> {
    var token := FirstToken(value);
    if token == "" then None else round(token)
  }

  /** static_cast<int> of an int64_t. */
  function ToInt32(v: int): (r: int)
    ensures -0x8000_0000 <= r < 0x8000_0000 && (r - v) % 0x1_0000_0000 == 0
    ensures -0x8000_0000 <= v < 0x8000_0000 ==> r == v
  {
    (v + 0x8000_0000) % 0x1_0000_0000 - 0x8000_0000
  }

  /** The lines a getline loop sees; a last line needs no newline but may not be empty. */
  function Lines(text: string): seq<string>
    decreases |text|
  {
    if text == "" then []
    else
      var n := Span(Except('\n'), text);
      if n == |text| then [text] else [text[..n]] + Lines(text[n + 1..])
  }

  // ----- what one key does to the snapshot -----

  datatype DataSet = DefaultSet | ParentSet | CurrentSet | PortSet

  /** The snapshot under construction and the port block that is still open. */
  datatype Progress = Progress(snapshot: Snapshot, open: Option<Port>)

  const EMPTY := Progress(Snapshot("", "", 0, "", 0, 0, 0, []), None)

  function Or(x: Option<int>, otherwise: int): int {
    if x.Some? then x.value else otherwise
  }

  function NewPort(value: string): Port {
    var identity := FirstToken(value);
    Port(Or(ParsePortNumber(identity), 0), identity, "")
  }

  /** The ports if the open block ended here. */
  function Flushed(p: Progress): seq<Port> {
    if p.open.Some? then p.snapshot.ports + [p.open.value] else p.snapshot.ports
  }

  predicate Recognised(d: DataSet, key: string) {
    match d
    case DefaultSet => key == "clockIdentity"
    case ParentSet => key == "parentPortIdentity" || key == "grandmasterIdentity"
    case CurrentSet => key == "stepsRemoved" || key == "meanPathDelay"
    case PortSet => key == "portIdentity" || key == "portState"
  }

  function Apply(d: DataSet, round: Rounding, p: Progress, e: KeyValue): (r: Progress)
    ensures !Recognised(d, e.key) ==> r == p
  {
    var s := p.snapshot;
    match d
    case DefaultSet =>
      if e.key == "clockIdentity" then p.(snapshot := s.(local := FirstToken(e.value))) else p
    case ParentSet =>
      if e.key == "parentPortIdentity" then
        var identity := FirstToken(e.value);
        var number := Or(ParsePortNumber(identity), s.parentPort);
        p.(snapshot := s.(parent := ParseClockIdentity(identity), parentPort := number))
      else if e.key == "grandmasterIdentity" then p.(snapshot := s.(grandmaster := FirstToken(e.value)))
      else p
    case CurrentSet =>
      var n := ParseNanoseconds(round, e.value);
      if e.key == "stepsRemoved" && n.Some? then p.(snapshot := s.(steps := ToInt32(n.value)))
      else if e.key == "meanPathDelay" && n.Some? then p.(snapshot := s.(delay := n.value))
      else p
    case PortSet =>
      if e.key == "portIdentity" then Progress(s.(ports := Flushed(p)), Some(NewPort(e.value)))
      else if e.key == "portState" && p.open.Some? then p.(open := Some(p.open.value.(state := FirstToken(e.value))))
      else p
  }

  function OneEntry(line: string): seq<KeyValue> {
    var e := ParseKeyValue(line);
    if e.Some? then [e.value] else []
  }

  function Entries(lines: seq<string>): seq<KeyValue> {
    if lines == [] then [] else Entries(lines[..|lines| - 1]) + OneEntry(lines[|lines| - 1])
  }

  function Fold(d: DataSet, round: Rounding, p: Progress, es: seq<KeyValue>): Progress {
    if es == [] then p else Apply(d, round, Fold(d, round, p, es[..|es| - 1]), es[|es| - 1])
  }

  /** Number of the first port in state SLAVE, or 0. */
  function FirstSlave(ports: seq<Port>): int {
    if ports == [] then 0 else if ports[0].state == "SLAVE" then ports[0].number else FirstSlave(ports[1..])
  }

  function FoldText(d: DataSet, round: Rounding, p: Progress, text: string): Progress {
    Fold(d, round, p, Entries(Lines(text)))
  }

  function AllSets(round: Rounding, defaults: string, parent: string, current: string, ports: string): Progress {
    FoldText(PortSet, round, FoldText(CurrentSet, round, FoldText(ParentSet, round,
      FoldText(DefaultSet, round, EMPTY, defaults), parent), current), ports)
  }

  function Snap(round: Rounding, defaults: string, parent: string, current: string, ports: string): Option<Snapshot> {
    var p := AllSets(round, defaults, parent, current, ports);
    if p.snapshot.local == "" then None
    else Some(p.snapshot.(ports := Flushed(p), child := FirstSlave(Flushed(p))))
  }

  // ----- the loops of PtpTopologyParser::parse -----

  lemma EntriesStep(lines: seq<string>, i: nat)
    requires i < |lines|
    ensures Entries(lines[..i + 1]) == Entries(lines[..i]) + OneEntry(lines[i])
  {
    assert lines[..i + 1][..i] == lines[..i];
  }

  lemma FoldStep(d: DataSet, round: Rounding, p: Progress, es: seq<KeyValue>, line: string)
    ensures Fold(d, round, p, es + OneEntry(line))
         == var e := ParseKeyValue(line);
            if e.Some? then Apply(d, round, Fold(d, round, p, es), e.value) else Fold(d, round, p, es)
  {
    var e := ParseKeyValue(line);
    if e.Some? {
      assert (es + [e.value])[..|es|] == es;
    } else {
      assert es + [] == es;
    }
  }

  lemma FoldLines(d: DataSet, round: Rounding, p: Progress, lines: seq<string>, i: nat)
    requires i < |lines|
    ensures Fold(d, round, p, Entries(lines[..i + 1]))
         == var q := Fold(d, round, p, Entries(lines[..i]));
            var e := ParseKeyValue(lines[i]);
            if e.Some? then Apply(d, round, q, e.value) else q
  {
    EntriesStep(lines, i);
    FoldStep(d, round, p, Entries(lines[..i]), lines[i]);
  }

  method ReadDefault(round: Rounding, s0: Snapshot, text: string) returns (s: Snapshot)
    ensures Progress(s, None) == FoldText(DefaultSet, round, Progress(s0, None), text)
  {
    s := s0;
    var lines := Lines(text);
    for i := 0 to |lines|
      invariant Progress(s, None) == Fold(DefaultSet, round, Progress(s0, None), Entries(lines[..i]))
    {
      FoldLines(DefaultSet, round, Progress(s0, None), lines, i);
      var e := ParseKeyValue(lines[i]);
      if e.Some? && e.value.key == "clockIdentity" {
        s := s.(local := FirstToken(e.value.value));
      }
    }
    assert lines[..|lines|] == lines;
  }

  method ReadParent(round: Rounding, s0: Snapshot, text: string) returns (s: Snapshot)
    ensures Progress(s, None) == FoldText(ParentSet, round, Progress(s0, None), text)
  {
    s := s0;
    var lines := Lines(text);
    for i := 0 to |lines|
      invariant Progress(s, None) == Fold(ParentSet, round, Progress(s0, None), Entries(lines[..i]))
    {
      FoldLines(ParentSet, round, Progress(s0, None), lines, i);
      var e := ParseKeyValue(lines[i]);
      if e.None? { continue; }
      if e.value.key == "parentPortIdentity" {
        var identity := FirstToken(e.value.value);
        s := s.(parent := ParseClockIdentity(identity));
        var number := ParsePortNumber(identity);
        if number.Some? { s := s.(parentPort := number.value); }
      } else if e.value.key == "grandmasterIdentity" {
        s := s.(grandmaster := FirstToken(e.value.value));
      }
    }
    assert lines[..|lines|] == lines;
  }

  method ReadCurrent(round: Rounding, s0: Snapshot, text: string) returns (s: Snapshot)
    ensures Progress(s, None) == FoldText(CurrentSet, round, Progress(s0, None), text)
  {
    s := s0;
    var lines := Lines(text);
    for i := 0 to |lines|
      invariant Progress(s, None) == Fold(CurrentSet, round, Progress(s0, None), Entries(lines[..i]))
    {
      FoldLines(CurrentSet, round, Progress(s0, None), lines, i);
      var e := ParseKeyValue(lines[i]);
      if e.None? { continue; }
      if e.value.key == "stepsRemoved" {
        var steps := ParseNanoseconds(round, e.value.value);
        if steps.Some? { s := s.(steps := ToInt32(steps.value)); }
      } else if e.value.key == "meanPathDelay" {
        var delay := ParseNanoseconds(round, e.value.value);
        if delay.Some? { s := s.(delay := delay.value); }
      }
    }
    assert lines[..|lines|] == lines;
  }

  /** A new block: the number stays 0 when the identity carries none. */
  method OpenBlock(value: string) returns (port: Port)
    ensures port == NewPort(value)
  {
    var identity := FirstToken(value);
    port := Port(0, identity, "");
    var number := ParsePortNumber(identity);
    if number.Some? { port := port.(number := number.value); }
  }

  /** One key of the port data set: flush and open a block, or set the open block's state. */
  method PortEntry(round: Rounding, s0: Snapshot, open0: Option<Port>, e: KeyValue)
    returns (s: Snapshot, open: Option<Port>)
    ensures Progress(s, open) == Apply(PortSet, round, Progress(s0, open0), e)
  {
    s, open := s0, open0;
    if e.key == "portIdentity" {
      if open.Some? { s := s.(ports := s.ports + [open.value]); }
      var port := OpenBlock(e.value);
      open := Some(port);
    } else if e.key == "portState" && open.Some? {
      open := Some(open.value.(state := FirstToken(e.value)));
    }
  }

  method ReadPorts(round: Rounding, s0: Snapshot, text: string) returns (s: Snapshot)
    ensures var p := FoldText(PortSet, round, Progress(s0, None), text);
            s == p.snapshot.(ports := Flushed(p))
  {
    s := s0;
    var open: Option<Port> := None;
    var lines := Lines(text);
    for i := 0 to |lines|
      invariant Progress(s, open) == Fold(PortSet, round, Progress(s0, None), Entries(lines[..i]))
    {
      FoldLines(PortSet, round, Progress(s0, None), lines, i);
      var e := ParseKeyValue(lines[i]);
      if e.Some? { s, open := PortEntry(round, s, open, e.value); }
    }
    assert lines[..|lines|] == lines;
    if open.Some? { s := s.(ports := s.ports + [open.value]); }
  }

  method Parse(round: Rounding, defaults: string, parent: string, current: string, ports: string)
    returns (r: Option<Snapshot>)
    ensures r == Snap(round, defaults, parent, current, ports)
  {
    var s := ReadDefault(round, EMPTY.snapshot, defaults);
    s := ReadParent(round, s, parent);
    s := ReadCurrent(round, s, current);
    s := ReadPorts(round, s, ports);
    var child := ChildPort(s.ports);
    s := s.(child := child);
    if s.local == "" { return None; }
    return Some(s);
  }

  /** The last loop: stop at the first SLAVE. */
  method ChildPort(ports: seq<Port>) returns (child: int)
    ensures child == FirstSlave(ports)
    ensures (exists k | 0 <= k < |ports| :: ports[k].state == "SLAVE" && ports[k].number == child
               && forall j | 0 <= j < k :: ports[j].state != "SLAVE")
            || (child == 0 && forall k | 0 <= k < |ports| :: ports[k].state != "SLAVE")
  {
    assert ports[0..] == ports;
    for i := 0 to |ports|
      invariant FirstSlave(ports) == FirstSlave(ports[i..])
      invariant forall j | 0 <= j < i :: ports[j].state != "SLAVE"
    {
      if ports[i].state == "SLAVE" { return ports[i].number; }
    }
    return 0;
  }
}
