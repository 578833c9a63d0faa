/** The parsers of src/collector.cpp and the handler cascades of src/agent.cpp that call them. */
module LogParsers {
  import opened Text
  import opened Scanf

  /** Ptp4lStats and Phc2SysStats carry the same four measurements. */
  datatype Stats = Stats(offset: int, freq: int, pathDelay: int, state: int)

  datatype PortEvent = PortEvent(portNumber: int, portName: string, fromState: string, toState: string, trigger: string)

  datatype ForeignMaster = ForeignMaster(portNumber: int, portName: string, identity: string, masterPort: int)

  // ----- the format strings -----

  /** " word" */
  function Spaced(word: string, f: Format): Format {
    Then(Space, Then(Lit(word), f))
  }

  /** " %*s" */
  function SkippedWord(f: Format): Format {
    Then(Space, Then(Word(None, None), f))
  }

  /** " rms %*ld max %ld freq %ld +/- %*ld delay %ld +/- %*ld" */
  function RmsFields(): Format {
    Keyed("rms", None, Keyed("max", Some(Offset), Keyed("freq", Some(Freq), Keyed("+/-", None,
      Keyed("delay", Some(PathDelay), Keyed("+/-", None, End))))))
  }

  /** " offset %ld s%d freq %ld" */
  function OffsetFields(f: Format): Format {
    Keyed("offset", Some(Offset), Then(Space, Then(Lit("s"), Then(Dec(Some(State)), Keyed("freq", Some(Freq), f)))))
  }

  function Ptp4lRms(): Format { Stamped(RmsFields()) }

  function Ptp4lOffset(): Format {
    Stamped(SkippedWord(OffsetFields(Spaced("path", Keyed("delay", Some(PathDelay), End)))))
  }

  function Phc2SysRms(): Format { Stamped(SkippedWord(RmsFields())) }

  function Phc2SysOffset(): Format {
    Stamped(SkippedWord(SkippedWord(OffsetFields(Keyed("delay", Some(PathDelay), End)))))
  }

  /** "[%lf] port %d (%127[^)]):" */
  function PortPrefix(f: Format): Format {
    Stamped(Keyed("port", Some(PortNumber),
      Then(Space, Then(Lit("("), Then(Until(127, ')', Some(PortName)), Then(Lit("):"), f))))))
  }

  /** " %63s to %63s on %127[^\n]" */
  function TransitionFields(): Format {
    Then(Space, Then(Word(Some(63), Some(FromState)), Spaced("to",
      Then(Space, Then(Word(Some(63), Some(ToState)), Spaced("on",
        Then(Space, Then(Until(127, '\n', Some(Trigger)), End))))))))
  }

  /** " new foreign master %63[^-]-%d" */
  function ForeignFields(): Format {
    Spaced("new", Spaced("foreign", Spaced("master",
      Then(Space, Then(Until(63, '-', Some(ClockIdentity)), Then(Lit("-"), Then(Dec(Some(MasterPort)), End)))))))
  }

  /** " %63s" */
  function IdentityWord(f: Format): Format {
    Then(Space, Then(Word(Some(63), Some(ClockIdentity)), f))
  }

  function BestFields(): Format {
    Spaced("selected", Spaced("best", Spaced("master", Spaced("clock", IdentityWord(End)))))
  }

  function LocalFields(): Format {
    Spaced("selected", Spaced("local", Spaced("clock",
      IdentityWord(Spaced("as", Spaced("best", Spaced("master", End)))))))
  }

  /** "timestamp: %ld, sequence: %ld, offset: %ld" */
  function PpsFields(): Format {
    Then(Lit("timestamp:"), Then(Space, Then(Dec(Some(Timestamp)), Then(Lit(","),
      Spaced("sequence:", Then(Space, Then(Dec(Some(Sequence)), Then(Lit(","),
        Keyed("offset:", Some(Offset), End)))))))))
  }

  // ----- the parsers -----

  function StatsOf(r: Result): Stats {
    Stats(NumOf(r, Offset), NumOf(r, Freq), NumOf(r, PathDelay), NumOf(r, State))
  }

  /**
   Two formats are tried in turn on one struct: what the first attempt stored is still
   there when the second one starts.
   */
  function ParseStats(msg: string, rms: Format, regular: Format): Option<Stats> {
    var first := Sscanf(msg, rms, map[]);
    if first.count == 4 then Some(StatsOf(first))
    else
      var second := Sscanf(msg, regular, first.store);
      if second.count == 5 then Some(StatsOf(second)) else None
  }

  function ParsePtp4lMetrics(msg: string): Option<Stats> {
    ParseStats(msg, Ptp4lRms(), Ptp4lOffset())
  }

  function ParsePhc2SysMetrics(msg: string): Option<Stats> {
    ParseStats(msg, Phc2SysRms(), Phc2SysOffset())
  }

  function PortEventOf(r: Result): PortEvent {
    PortEvent(NumOf(r, PortNumber), StrOf(r, PortName), StrOf(r, FromState), StrOf(r, ToState), StrOf(r, Trigger))
  }

  function ParsePortEvent(msg: string): Option<PortEvent> {
    if !Contains(msg, "port ") || !Contains(msg, " to ") then None
    else
      var r := Sscanf(msg, PortPrefix(TransitionFields()), map[]);
      if r.count == 6
      then Some(PortEventOf(r))
      else None
  }

  function ForeignOf(r: Result): ForeignMaster {
    ForeignMaster(NumOf(r, PortNumber), StrOf(r, PortName), StrOf(r, ClockIdentity), NumOf(r, MasterPort))
  }

  function ParseForeignMaster(msg: string): Option<ForeignMaster> {
    if !Contains(msg, "new foreign master") then None
    else
      var r := Sscanf(msg, PortPrefix(ForeignFields()), map[]);
      if r.count == 5
      then Some(ForeignOf(r))
      else None
  }

  function ParseBestMaster(msg: string): Option<string> {
    if !Contains(msg, "selected") then None
    else
      var best := Sscanf(msg, Stamped(BestFields()), map[]);
      if best.count == 2 then Some(StrOf(best, ClockIdentity))
      else
        var local := Sscanf(msg, Stamped(LocalFields()), best.store);
        if local.count == 2 then Some(StrOf(local, ClockIdentity)) else None
  }

  function ParsePps(msg: string): Option<int> {
    var r := Sscanf(msg, PpsFields(), map[]);
    if r.count == 3 then Some(NumOf(r, Offset)) else None
  }

  // ----- the cascade of the ptp4l handler -----

  datatype Ptp4lKind =
    | Metrics(stats: Stats)
    | PortChange(port: PortEvent)
    | NewForeignMaster(foreign: ForeignMaster)
    | BestMaster(identity: string)
    | Unhandled

  function ClassifyPtp4l(msg: string): Ptp4lKind {
    var metrics := ParsePtp4lMetrics(msg);
    if metrics.Some? then Metrics(metrics.value)
    else
      var port := ParsePortEvent(msg);
      if port.Some? then PortChange(port.value)
      else
        var foreign := ParseForeignMaster(msg);
        if foreign.Some? then NewForeignMaster(foreign.value)
        else
          var best := ParseBestMaster(msg);
          if best.Some? then BestMaster(best.value) else Unhandled
  }
}
