/** The handlers of src/agent.cpp, and the agent as a whole: from log lines to send calls. */
module AgentHandlers {
  import opened Text
  import Scanf
  import LogParsers
  import LogLines
  import Cascade
  import ServoLines
  import ParserGrammar
  import ScanfGrammar
  import Topology
  import TopologyFields
  import TopologyRoundTrip
  import AgentProtocol
  import AgentTheorems
  import AgentProgress

  datatype CollectorEvent = CollectorEvent(tsUsec: nat, unit: string, msg: string)

  /** Output of the four pmc commands; None where the command failed. */
  datatype PmcReplies = PmcReplies(
    defaults: Option<string>, parent: Option<string>, current: Option<string>, ports: Option<string>)

  /** An event together with what the environment answers while it is handled. */
  datatype Delivery = Delivery(event: CollectorEvent, adapterName: string, pmc: PmcReplies)

  datatype SendCall =
    | PtpStatistics(tsUsec: nat, unit: string, stats: LogParsers.Stats, node: string)
    | Phc2SysStatistics(tsUsec: nat, unit: string, stats: LogParsers.Stats, node: string)
    | PpsStatistics(tsUsec: nat, unit: string, offset: int, node: string)
    | Ptp4lPortEvent(tsUsec: nat, unit: string, port: LogParsers.PortEvent, adapterName: string, node: string)
    | TopologySnapshot(snapshot: Topology.Snapshot, node: string)
    | SysStatistics(sample: nat, node: string)

  datatype Settings = Settings(node: string, topologyOn: bool, round: Topology.Rounding)

  /** PtpTopologyCollector::collect: the last two commands may fail. */
  function CollectTopology(cfg: Settings, pmc: PmcReplies): Option<Topology.Snapshot> {
    if pmc.defaults.None? || pmc.parent.None? then None
    else
      Topology.Snap(cfg.round, pmc.defaults.value, pmc.parent.value,
                    if pmc.current.Some? then pmc.current.value else "",
                    if pmc.ports.Some? then pmc.ports.value else "")
  }

  /** A port named by a path, such as a socket, is not a network interface. */
  predicate IsInterface(portName: string) {
    !Contains(portName, "/")
  }

  /** The snapshot is asked for and sent only if the feature is on. */
  function SelectionCall(cfg: Settings, snapshot: Option<Topology.Snapshot>): Option<SendCall> {
    if cfg.topologyOn && snapshot.Some? then Some(TopologySnapshot(snapshot.value, cfg.node)) else None
  }

  /** The call the ptp4l handler makes for a classified line. */
  function Ptp4lCall(cfg: Settings, d: Delivery, kind: LogParsers.Ptp4lKind): Option<SendCall> {
    match kind
    case Metrics(stats) => Some(PtpStatistics(d.event.tsUsec, d.event.unit, stats, cfg.node))
    case PortChange(port) =>
      var adapterName := if IsInterface(port.portName) then d.adapterName else "";
      Some(Ptp4lPortEvent(d.event.tsUsec, d.event.unit, port, adapterName, cfg.node))
    case NewForeignMaster(_) => None
    case BestMaster(_) => SelectionCall(cfg, CollectTopology(cfg, d.pmc))
    case Unhandled => None
  }

  /** The interface the ptp4l handler makes the metrics collector watch. */
  function Watched(kind: LogParsers.Ptp4lKind): Option<string> {
    if kind.PortChange? && IsInterface(kind.port.portName) then Some(kind.port.portName) else None
  }

  function Handle(cfg: Settings, name: string, d: Delivery): Option<SendCall> {
    if name == "ptp4l" then Ptp4lCall(cfg, d, LogParsers.ClassifyPtp4l(d.event.msg))
    else if name == "phc2sys" then
      var stats := LogParsers.ParsePhc2SysMetrics(d.event.msg);
      if stats.Some? then Some(Phc2SysStatistics(d.event.tsUsec, d.event.unit, stats.value, cfg.node)) else None
    else if name == "ppswatch" then
      var offset := LogParsers.ParsePps(d.event.msg);
      if offset.Some? then Some(PpsStatistics(d.event.tsUsec, d.event.unit, offset.value, cfg.node)) else None
    else None
  }

  predicate HasHandler(name: string) {
    name == "ptp4l" || name == "phc2sys" || name == "ppswatch"
  }

  /** A collector: its name and whether it reads the journal. */
  datatype Source = Source(name: string, journal: bool)

  function AgentConfig(cfg: Settings, sources: seq<Source>): AgentProtocol.Config<Delivery, SendCall> {
    AgentProtocol.Config(
      seq(|sources|, i requires 0 <= i < |sources| =>
        AgentProtocol.Collector(HasHandler(sources[i].name), sources[i].journal)),
      (i: nat, d: Delivery) => if i < |sources| then Handle(cfg, sources[i].name, d) else None,
      n => SysStatistics(n, cfg.node))
  }

  // ----- printed lines all the way through the agent -----

  /** A line as one of the three programs printed it. */
  datatype LogText =
    | Ptp4lText(stamp: LogLines.Stamp, line: LogLines.Line)
    | Phc2SysText(stamp: LogLines.Stamp, servo: ServoLines.ServoLine)
    | PpsText(pps: ServoLines.PpsLine)

  ghost predicate TextOk(name: string, x: LogText) {
    match x
    case Ptp4lText(stamp, line) => name == "ptp4l" && LogLines.StampOk(stamp) && LogLines.WellFormed(line)
    case Phc2SysText(stamp, servo) =>
      name == "phc2sys" && LogLines.StampOk(stamp) && ServoLines.ServoOk(servo) && ServoLines.ServoPlain(servo)
    case PpsText(pps) => name == "ppswatch" && ServoLines.PpsOk(pps)
  }

  function Print(name: string, x: LogText): string
    requires TextOk(name, x)
  {
    match x
    case Ptp4lText(stamp, line) => LogLines.Print(stamp, line)
    case Phc2SysText(stamp, servo) => ServoLines.PrintServo(stamp, servo)
    case PpsText(pps) => ServoLines.PrintPps(pps)
  }

  /** A printed line that was delivered, with the environment's answers to it. */
  datatype Printed = Printed(text: LogText, delivery: Delivery)

  ghost predicate PrintedOk(name: string, p: Printed) {
    TextOk(name, p.text) && p.delivery.event.msg == Print(name, p.text)
  }

  function OrEmpty(reply: Option<string>): string {
    if reply.Some? then reply.value else ""
  }

  /** The four replies are the four texts of a rendering. */
  predicate Replied(pmc: PmcReplies, d: TopologyRoundTrip.Rendering) {
    && pmc.defaults == Some(TopologyRoundTrip.Unlines(d.defaults))
    && pmc.parent == Some(TopologyRoundTrip.Unlines(d.parent))
    && OrEmpty(pmc.current) == TopologyRoundTrip.Unlines(d.current)
    && OrEmpty(pmc.ports) == TopologyRoundTrip.Unlines(d.ports)
  }

  /** pmc gave the data sets without which there is no snapshot. */
  ghost predicate Answered(pmc: PmcReplies) {
    pmc.defaults.Some? && pmc.parent.Some? && TopologyFields.NamesClock(pmc.defaults.value)
  }

  /**
   What must be sent when a master has been selected: one snapshot if the feature is on and pmc
   answered, nothing otherwise. Each field comes from its own reply; if the replies render a
   snapshot it is that one.
   */
  ghost predicate SelectionSays(cfg: Settings, pmc: PmcReplies, call: Option<SendCall>) {
    && (call.Some? <==> cfg.topologyOn && Answered(pmc))
    && (call.Some? ==>
          call.value.TopologySnapshot? && call.value.node == cfg.node && OwnFields(cfg, pmc, call.value.snapshot))
    && (forall s, d | cfg.topologyOn && Rendered(cfg, pmc, s, d) :: call == Some(TopologySnapshot(s, cfg.node)))
  }

  ghost predicate OwnFields(cfg: Settings, pmc: PmcReplies, s: Topology.Snapshot) {
    TopologyFields.SnapshotOf(cfg.round, OrEmpty(pmc.defaults), OrEmpty(pmc.parent),
      OrEmpty(pmc.current), OrEmpty(pmc.ports), s)
  }

  /** The replies render the snapshot `s`. */
  ghost predicate Rendered(cfg: Settings, pmc: PmcReplies, s: Topology.Snapshot, d: TopologyRoundTrip.Rendering) {
    && TopologyRoundTrip.ReadsWholeNumbers(cfg.round) && TopologyRoundTrip.SnapshotOk(s)
    && TopologyRoundTrip.Renders(d, s) && Replied(pmc, d)
  }

  /** The ptp4l part: metrics and transitions are sent, foreign masters are not. */
  ghost predicate LineSays(cfg: Settings, d: Delivery, line: LogLines.Line, call: Option<SendCall>) {
    var ts, unit, node := d.event.tsUsec, d.event.unit, cfg.node;
    match line
    case RmsLine(_, max, freq, _, delay, _) =>
      call == Some(PtpStatistics(ts, unit, LogParsers.Stats(max.value, freq.value, delay.value, 0), node))
    case OffsetLine(_, offset, servo, freq, _, delay) =>
      call == Some(PtpStatistics(ts, unit,
                     LogParsers.Stats(offset.value, freq.value, delay.value, servo.value), node))
    case PortLine(port) =>
      call == Some(Ptp4lPortEvent(ts, unit, port, if '/' in port.portName then "" else d.adapterName, node))
    case ForeignLine(_) => call == None
    case BestLine(_) => SelectionSays(cfg, d.pmc, call)
    case LocalLine(_) => SelectionSays(cfg, d.pmc, call)
  }

  /** What must be sent for a printed line, said of the line and not of the handlers. */
  ghost predicate Says(cfg: Settings, name: string, p: Printed, call: Option<SendCall>)
    requires PrintedOk(name, p)
  {
    var ts, unit, node := p.delivery.event.tsUsec, p.delivery.event.unit, cfg.node;
    match p.text
    case Ptp4lText(_, line) => LineSays(cfg, p.delivery, line, call)
    case Phc2SysText(_, ClockSummary(_, y)) =>
      call == Some(Phc2SysStatistics(ts, unit, LogParsers.Stats(y.max.value, y.freq.value, y.delay.value, 0), node))
    case Phc2SysText(_, ClockOffset(_, _, offset, servo, freq, delay)) =>
      call == Some(Phc2SysStatistics(ts, unit,
                     LogParsers.Stats(offset.value, freq.value, delay.value, servo.value), node))
    case PpsText(pps) => call == Some(PpsStatistics(ts, unit, pps.offset.value, node))
  }

  ghost predicate AllPrinted(name: string, ps: seq<Printed>) {
    forall k | 0 <= k < |ps| :: PrintedOk(name, ps[k])
  }

  /** One answer per line, each what the line says. */
  ghost predicate AllSay(cfg: Settings, name: string, ps: seq<Printed>, calls: seq<Option<SendCall>>)
    requires AllPrinted(name, ps)
  {
    |calls| == |ps| && forall k | 0 <= k < |ps| :: Says(cfg, name, ps[k], calls[k])
  }

  function Deliveries(ps: seq<Printed>): seq<Delivery> {
    seq(|ps|, k requires 0 <= k < |ps| => ps[k].delivery)
  }

  // ----- the handlers do what the lines say -----

  lemma SlashIn(s: string)
    ensures IsInterface(s) <==> '/' !in s
  {
    if '/' in s {
      var i :| 0 <= i < |s| && s[i] == '/';
      assert OccursAt(s, "/", i);
    }
    if Contains(s, "/") {
      var i :| 0 <= i <= |s| - 1 && OccursAt(s, "/", i);
      assert s[i..i + 1][0] == s[i];
    }
  }

  lemma Collected(cfg: Settings, pmc: PmcReplies)
    ensures var snapshot := CollectTopology(cfg, pmc);
            && (snapshot.Some? <==> Answered(pmc))
            && (snapshot.Some? ==> OwnFields(cfg, pmc, snapshot.value))
  {
    if pmc.defaults.Some? && pmc.parent.Some? {
      var defaults, parent := pmc.defaults.value, pmc.parent.value;
      TopologyFields.SnapshotExists(cfg.round, defaults, parent, OrEmpty(pmc.current), OrEmpty(pmc.ports));
      if CollectTopology(cfg, pmc).Some? {
        TopologyFields.SnapshotFields(cfg.round, defaults, parent, OrEmpty(pmc.current), OrEmpty(pmc.ports));
      }
    }
  }

  lemma CollectedRendering(cfg: Settings, pmc: PmcReplies, s: Topology.Snapshot, d: TopologyRoundTrip.Rendering)
    requires Rendered(cfg, pmc, s, d)
    ensures CollectTopology(cfg, pmc) == Some(s)
  {
    TopologyRoundTrip.RoundTrip(cfg.round, s, d);
  }

  /** The handler's branch for a selected master. */
  lemma SelectionSaid(cfg: Settings, pmc: PmcReplies)
    ensures SelectionSays(cfg, pmc, SelectionCall(cfg, CollectTopology(cfg, pmc)))
  {
    Collected(cfg, pmc);
    forall s, d | cfg.topologyOn && Rendered(cfg, pmc, s, d)
      ensures CollectTopology(cfg, pmc) == Some(s)
    {
      CollectedRendering(cfg, pmc, s, d);
    }
  }

  lemma Ptp4lSays(cfg: Settings, d: Delivery, line: LogLines.Line)
    ensures LineSays(cfg, d, line, Ptp4lCall(cfg, d, LogLines.Meaning(line)))
  {
    match line
    case PortLine(port) => SlashIn(port.portName);
    case BestLine(_) => SelectionSaid(cfg, d.pmc);
    case LocalLine(_) => SelectionSaid(cfg, d.pmc);
    case _ =>
  }

  /** A handler makes of a printed line the call for what the line says. */
  lemma HandlePrinted(cfg: Settings, name: string, p: Printed)
    requires PrintedOk(name, p)
    ensures Says(cfg, name, p, Handle(cfg, name, p.delivery))
  {
    match p.text
    case Ptp4lText(_, _) => Ptp4lHandled(cfg, p);
    case Phc2SysText(_, _) => Phc2SysHandled(cfg, p);
    case PpsText(pps) => ServoLines.PpsRoundTrip(pps);
  }

  lemma Ptp4lHandled(cfg: Settings, p: Printed)
    requires PrintedOk("ptp4l", p)
    ensures Says(cfg, "ptp4l", p, Handle(cfg, "ptp4l", p.delivery))
  {
    Cascade.CascadeInvertsPrinting(p.text.stamp, p.text.line);
    Ptp4lSays(cfg, p.delivery, p.text.line);
  }

  lemma Phc2SysHandled(cfg: Settings, p: Printed)
    requires PrintedOk("phc2sys", p)
    ensures Says(cfg, "phc2sys", p, Handle(cfg, "phc2sys", p.delivery))
  {
    ServoLines.ServoRoundTrip(p.text.stamp, p.text.servo);
  }

  /** The metrics collector is pointed at the interface a printed port transition names. */
  lemma WatchedPrinted(p: Printed)
    requires PrintedOk("ptp4l", p)
    ensures Watched(LogParsers.ClassifyPtp4l(p.delivery.event.msg))
         == if p.text.line.PortLine? && '/' !in p.text.line.port.portName then Some(p.text.line.port.portName) else None
  {
    Cascade.CascadeInvertsPrinting(p.text.stamp, p.text.line);
    if p.text.line.PortLine? { SlashIn(p.text.line.port.portName); }
  }

  function Handled(cfg: Settings, name: string, ps: seq<Printed>): (calls: seq<Option<SendCall>>)
    ensures |calls| == |ps|
  {
    seq(|ps|, k requires 0 <= k < |ps| => Handle(cfg, name, ps[k].delivery))
  }

  lemma ExpectedForPrinted(cfg: Settings, sources: seq<Source>, i: nat, ps: seq<Printed>)
    returns (calls: seq<Option<SendCall>>)
    requires i < |sources| && AllPrinted(sources[i].name, ps)
    ensures AllSay(cfg, sources[i].name, ps, calls)
    ensures AgentProtocol.Expected(AgentConfig(cfg, sources), i, Deliveries(ps)) == AgentTheorems.Flatten(calls)
  {
    var c, name := AgentConfig(cfg, sources), sources[i].name;
    calls := Handled(cfg, name, ps);
    forall k | 0 <= k < |ps| ensures Says(cfg, name, ps[k], calls[k]) {
      HandlePrinted(cfg, name, ps[k]);
    }
    AgentTheorems.ExpectedIs(c, i, Deliveries(ps), calls);
  }

  /** For arbitrary messages: exactly when the ptp4l handler makes a call at all. */
  lemma Ptp4lCallsExactly(cfg: Settings, d: Delivery)
    ensures var msg := d.event.msg;
            var selected := !ParserGrammar.IsForeign(msg) && ParserGrammar.IsSelection(msg);
            Handle(cfg, "ptp4l", d).Some? <==>
              || ParserGrammar.IsMetrics(msg) || ParserGrammar.IsTransition(msg)
              || (selected && cfg.topologyOn && Answered(d.pmc))
  {
    ParserGrammar.ClassifiedExactly(d.event.msg);
    Collected(cfg, d.pmc);
  }

  /** The same for the handlers of phc2sys and ppswatch. */
  lemma ServoCallsExactly(cfg: Settings, d: Delivery)
    ensures var s := Scanf.CStr(d.event.msg);
            && (Handle(cfg, "phc2sys", d).Some? <==>
                  || ScanfGrammar.Spelled(LogParsers.Phc2SysRms(), s)
                  || ScanfGrammar.Spelled(LogParsers.Phc2SysOffset(), s))
            && (Handle(cfg, "ppswatch", d).Some? <==> ScanfGrammar.Spelled(LogParsers.PpsFields(), s))
  {
    ParserGrammar.Phc2SysStatsExactly(d.event.msg);
    ParserGrammar.PpsExactly(d.event.msg);
  }

  // ----- the agent as a whole -----

  /**
   From log to wire: on every schedule of the whole agent that ends with run() returning, if
   the lines a reader consumed are lines its program prints, then the calls it made are
   exactly what those lines say, in order.
   */
  lemma PrintedLinesReachTheAdapter(cfg: Settings, sources: seq<Source>, i: nat, ps: seq<Printed>,
                                    schedule: seq<AgentProtocol.Label<Delivery>>,
                                    s: AgentProtocol.State<Delivery, SendCall>)
    returns (calls: seq<Option<SendCall>>)
    requires i < |sources| && AllPrinted(sources[i].name, ps)
    requires var c := AgentConfig(cfg, sources);
             AgentProtocol.Exec(c, AgentProtocol.Init(c), schedule) == Some(s)
    requires s.main.Returned? && s.consumed[i] == Deliveries(ps)
    ensures AllSay(cfg, sources[i].name, ps, calls)
    ensures AgentProtocol.CallsBy(s.log, AgentProtocol.Reader(i)) == AgentTheorems.Flatten(calls)
  {
    var c := AgentConfig(cfg, sources);
    AgentTheorems.ReturnedForGood(c, schedule, s, [], s);
    calls := ExpectedForPrinted(cfg, sources, i, ps);
  }

  /** The program whose events lead to a call, or "" for the calls of the metrics thread. */
  function OriginOf(call: SendCall): string {
    match call
    case PtpStatistics(_, _, _, _) => "ptp4l"
    case Ptp4lPortEvent(_, _, _, _, _) => "ptp4l"
    case TopologySnapshot(_, _) => "ptp4l"
    case Phc2SysStatistics(_, _, _, _) => "phc2sys"
    case PpsStatistics(_, _, _, _) => "ppswatch"
    case SysStatistics(_, _) => ""
  }

  predicate RightThread(sources: seq<Source>, node: string, who: AgentProtocol.Owner, call: SendCall) {
    && call.node == node
    && match who
       case Reader(i) => i < |sources| && OriginOf(call) != "" && sources[i].name == OriginOf(call)
       case Metrics => OriginOf(call) == ""
  }

  lemma HandleOrigin(cfg: Settings, name: string, d: Delivery)
    requires Handle(cfg, name, d).Some?
    ensures var call := Handle(cfg, name, d).value;
            call.node == cfg.node && OriginOf(call) == name && name != ""
  {
  }

  /**
   On every schedule each kind of call comes from the reader of the program it is about, the
   system statistics come from the metrics thread, and all of them name this node.
   */
  lemma CallsHaveTheirSource(cfg: Settings, sources: seq<Source>, schedule: seq<AgentProtocol.Label<Delivery>>,
                             s: AgentProtocol.State<Delivery, SendCall>)
    requires var c := AgentConfig(cfg, sources);
             AgentProtocol.Exec(c, AgentProtocol.Init(c), schedule) == Some(s)
    ensures forall x | x in s.log :: RightThread(sources, cfg.node, x.owner, x.call)
  {
    var c := AgentConfig(cfg, sources);
    var ok := (who, call) => RightThread(sources, cfg.node, who, call);
    forall i: nat, d: Delivery | c.handle(i, d).Some? ensures ok(AgentProtocol.Reader(i), c.handle(i, d).value) {
      HandleOrigin(cfg, sources[i].name, d);
    }
    AgentProgress.LogSatisfies(c, schedule, s, ok);
    forall x | x in s.log ensures RightThread(sources, cfg.node, x.owner, x.call) {
      assert ok(x.owner, x.call);
    }
  }

  /** Once run() has started its threads, exactly the collectors of the three programs are read. */
  lemma KnownCollectorsAreRead(cfg: Settings, sources: seq<Source>, schedule: seq<AgentProtocol.Label<Delivery>>,
                               s: AgentProtocol.State<Delivery, SendCall>)
    requires var c := AgentConfig(cfg, sources);
             AgentProtocol.Exec(c, AgentProtocol.Init(c), schedule) == Some(s)
    requires !s.main.Spawn?
    ensures |s.readers| == |sources|
    ensures forall i | 0 <= i < |sources| ::
              s.readers[i].NotStarted? <==> sources[i].name !in {"ptp4l", "phc2sys", "ppswatch"}
  {
    AgentProtocol.ReachedInv(AgentConfig(cfg, sources), schedule, s);
  }
}
