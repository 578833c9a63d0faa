/**
 The threads of Agent::run and Agent::stop as a labelled step system.

 One reader thread per collector that has a handler, the periodic metrics thread, the
 thread that executes run() and the one that executes stop() interleave freely. They
 share the running_ flag, the adapter mutex and the collectors' stop requests. A label
 names the thread that moves and what its environment answers, so a schedule is a
 sequence of labels and `Exec` is a function of it.
 */
module AgentProtocol {
  import opened Text

  /** Program counter of readerLoop, of the readEvent it calls and of the handler it calls. */
  datatype ReaderPc<E, C> =
    | NotStarted
    | CheckFlag
    | Reading            // about to ask the source for the next record
    | StopCheck          // journal only: no record yet, look at stop_requested_
    | Waiting            // journal only: sd_journal_wait
    | Handling(event: E)
    | WantLock(call: C)
    | InSend(call: C)    // lock held, send not yet made
    | Release            // send made, lock still held
    | Finished

  /** Program counter of sysMetricsLoop. */
  datatype MetricsPc<C> =
    | MNotStarted
    | MCheckFlag
    | MSleep
    | MRecheck
    | MCollect
    | MWantLock(call: C)
    | MInSend(call: C)
    | MRelease
    | MFinished

  datatype MainPc = Spawn(next: nat) | Join(next: nat) | JoinMetrics | Returned

  datatype StopPc = NotCalled | StopCollectors(next: nat) | StopDone

  datatype Owner = Reader(i: nat) | Metrics

  datatype Sent<C> = Sent(owner: Owner, call: C)

  datatype State<E, C> = State(
    running: bool,
    readers: seq<ReaderPc<E, C>>,
    metrics: MetricsPc<C>,
    main: MainPc,
    stop: StopPc,
    told: seq<bool>,
    lock: Option<Owner>,
    log: seq<Sent<C>>,
    consumed: seq<seq<E>>,
    sampled: seq<C>)

  /** A collector: whether a handler is registered under its name, and whether it is a journal. */
  datatype Collector = Collector(handled: bool, journal: bool)

  /**
   `handle(i, e)` is the call, if any, that the handler of collector `i` makes for event `e`;
   `measure(n)` is the call the metrics thread makes for the reading `n`.
   */
  datatype Config<!E, C> = Config(collectors: seq<Collector>, handle: (nat, E) -> Option<C>, measure: nat -> C)

  /** What the outside answers to a blocking or reading step. */
  datatype Answer<E> = Go | Record(event: E) | Nothing | Ended

  datatype Label<E> =
    | MainStep
    | StopStep
    | ReaderStep(i: nat, answer: Answer<E>)
    | MetricsStep
    | MetricsWake                    // sleep_for returns
    | MetricsSample(reading: nat)    // collect() returns this reading

  function Init<E, C>(c: Config<E, C>): State<E, C> {
    var n := |c.collectors|;
    State(true, seq(n, _ => NotStarted), MNotStarted, Spawn(0), NotCalled, seq(n, _ => false), None, [],
          seq(n, _ => []), [])
  }

  function Goto<E, C>(s: State<E, C>, i: nat, pc: ReaderPc<E, C>): State<E, C>
    requires i < |s.readers|
  {
    s.(readers := s.readers[i := pc])
  }

  function ReaderNext<E, C>(c: Config<E, C>, s: State<E, C>, i: nat, a: Answer<E>): Option<State<E, C>>
    requires i < |s.readers| == |s.told| == |s.consumed| == |c.collectors|
  {
    match s.readers[i]
    case CheckFlag =>
      if a.Go? then Some(Goto(s, i, if s.running then Reading else Finished)) else None
    case Reading =>
      (match a
       case Record(e) => Some(Goto(s, i, Handling(e)).(consumed := s.consumed[i := s.consumed[i] + [e]]))
       case Ended => Some(Goto(s, i, Finished))
       case Nothing => if c.collectors[i].journal then Some(Goto(s, i, StopCheck)) else None
       case Go => None)
    case StopCheck =>
      if a.Go? then Some(Goto(s, i, if s.told[i] then Finished else Waiting)) else None
    case Waiting =>
      if a.Go? then Some(Goto(s, i, Reading)) else if a.Ended? then Some(Goto(s, i, Finished)) else None
    case Handling(e) =>
      if a.Go? then
        var call := c.handle(i, e);
        Some(Goto(s, i, if call.Some? then WantLock(call.value) else CheckFlag))
      else None
    case WantLock(call) =>
      if a.Go? && s.lock.None? then Some(Goto(s, i, InSend(call)).(lock := Some(Reader(i)))) else None
    case InSend(call) =>
      if a.Go? then Some(Goto(s, i, Release).(log := s.log + [Sent(Reader(i), call)])) else None
    case Release =>
      if a.Go? then Some(Goto(s, i, CheckFlag).(lock := None)) else None
    case NotStarted => None
    case Finished => None
  }

  function MetricsNext<E, C>(s: State<E, C>): Option<State<E, C>> {
    match s.metrics
    case MCheckFlag => Some(s.(metrics := if s.running then MSleep else MFinished))
    case MRecheck => Some(s.(metrics := if s.running then MCollect else MFinished))
    case MWantLock(call) => if s.lock.None? then Some(s.(metrics := MInSend(call), lock := Some(Metrics))) else None
    case MInSend(call) => Some(s.(metrics := MRelease, log := s.log + [Sent(Metrics, call)]))
    case MRelease => Some(s.(metrics := MCheckFlag, lock := None))
    case MSleep => None
    case MCollect => None
    case MNotStarted => None
    case MFinished => None
  }

  /** run(): start the readers, start the metrics thread, join the readers, clear the flag, join. */
  function MainNext<E, C>(c: Config<E, C>, s: State<E, C>): Option<State<E, C>>
    requires |s.readers| == |c.collectors|
  {
    match s.main
    case Spawn(i) =>
      if i < |c.collectors| then
        Some((if c.collectors[i].handled then Goto(s, i, CheckFlag) else s).(main := Spawn(i + 1)))
      else Some(s.(metrics := MCheckFlag, main := Join(0)))
    case Join(i) =>
      if i < |c.collectors| then
        if c.collectors[i].handled && !s.readers[i].Finished? then None else Some(s.(main := Join(i + 1)))
      else Some(s.(running := false, main := JoinMetrics))
    case JoinMetrics => if s.metrics.MFinished? then Some(s.(main := Returned)) else None
    case Returned => None
  }

  /** stop(): clear the flag, then tell every collector. */
  function StopNext<E, C>(c: Config<E, C>, s: State<E, C>): Option<State<E, C>>
    requires |s.told| == |c.collectors|
  {
    match s.stop
    case NotCalled => Some(s.(running := false, stop := StopCollectors(0)))
    case StopCollectors(i) =>
      if i < |s.told| then Some(s.(told := s.told[i := true], stop := StopCollectors(i + 1)))
      else Some(s.(stop := StopDone))
    case StopDone => None
  }

  function Sampled<E, C>(s: State<E, C>, call: C): State<E, C> {
    s.(metrics := MWantLock(call), sampled := s.sampled + [call])
  }

  predicate Shaped<E, C>(c: Config<E, C>, s: State<E, C>) {
    |s.readers| == |s.told| == |s.consumed| == |c.collectors|
  }

  function Next<E, C>(c: Config<E, C>, s: State<E, C>, l: Label<E>): (r: Option<State<E, C>>)
    requires Shaped(c, s)
    ensures r.Some? ==> Shaped(c, r.value)
  {
    match l
    case MainStep => MainNext(c, s)
    case StopStep => StopNext(c, s)
    case ReaderStep(i, a) => if i < |s.readers| then ReaderNext(c, s, i, a) else None
    case MetricsStep => MetricsNext(s)
    case MetricsWake => if s.metrics.MSleep? then Some(s.(metrics := MRecheck)) else None
    case MetricsSample(n) => if s.metrics.MCollect? then Some(Sampled(s, c.measure(n))) else None
  }

  /** The state a schedule leads to, or None if some step of it is not enabled. */
  function Exec<E, C>(c: Config<E, C>, s: State<E, C>, ls: seq<Label<E>>): (r: Option<State<E, C>>)
    requires Shaped(c, s)
    ensures r.Some? ==> Shaped(c, r.value)
    decreases |ls|
  {
    if ls == [] then Some(s)
    else
      var next := Next(c, s, ls[0]);
      if next.None? then None else Exec(c, next.value, ls[1..])
  }

  // ----- the invariant -----

  predicate Critical<E, C>(pc: ReaderPc<E, C>) {
    pc.InSend? || pc.Release?
  }

  predicate MCritical<C>(pc: MetricsPc<C>) {
    pc.MInSend? || pc.MRelease?
  }

  /** The calls a thread has logged, in order. */
  function CallsBy<C>(log: seq<Sent<C>>, who: Owner): seq<C> {
    if log == [] then []
    else
      var earlier := CallsBy(log[..|log| - 1], who);
      if log[|log| - 1].owner == who then earlier + [log[|log| - 1].call] else earlier
  }

  /** The calls that handling these events one after the other makes. */
  function Expected<E, C>(c: Config<E, C>, i: nat, events: seq<E>): seq<C> {
    if events == [] then []
    else Expected(c, i, events[..|events| - 1]) + OneCall(c.handle(i, events[|events| - 1]))
  }

  function OneCall<C>(call: Option<C>): seq<C> {
    if call.Some? then [call.value] else []
  }

  /** The call, if any, of the event a reader has consumed and not yet logged. */
  function Pending<E, C>(c: Config<E, C>, i: nat, pc: ReaderPc<E, C>): seq<C> {
    match pc
    case Handling(e) => OneCall(c.handle(i, e))
    case WantLock(call) => [call]
    case InSend(call) => [call]
    case _ => []
  }

  function MPending<C>(pc: MetricsPc<C>): seq<C> {
    if pc.MWantLock? || pc.MInSend? then [pc.call] else []
  }

  predicate LockInv<E, C>(s: State<E, C>) {
    && (forall i | 0 <= i < |s.readers| :: Critical(s.readers[i]) <==> s.lock == Some(Reader(i)))
    && (MCritical(s.metrics) <==> s.lock == Some(Metrics))
    && (s.lock.Some? && s.lock.value.Reader? ==> s.lock.value.i < |s.readers|)
  }

  /** Reader `i` has logged exactly the calls of the events it consumed, but for the one in flight. */
  ghost predicate Faithful<E, C>(c: Config<E, C>, s: State<E, C>, i: nat)
    requires Shaped(c, s) && i < |s.readers|
  {
    Accounted(c, i, s.log, s.readers[i], s.consumed[i])
  }

  ghost predicate Accounted<E, C>(c: Config<E, C>, i: nat, log: seq<Sent<C>>, pc: ReaderPc<E, C>, events: seq<E>) {
    CallsBy(log, Reader(i)) + Pending(c, i, pc) == Expected(c, i, events)
  }

  /** The metrics thread has logged exactly the samples it took, but for the one in flight. */
  ghost predicate SamplesLogged<E, C>(s: State<E, C>) {
    SamplesAccounted(s.log, s.metrics, s.sampled)
  }

  predicate OwnerExists<E, C>(c: Config<E, C>, who: Owner) {
    who.Reader? ==> who.i < |c.collectors| && c.collectors[who.i].handled
  }

  /** Every logged call is by the metrics thread or by the reader of a collector with a handler. */
  predicate OwnersExist<E, C>(c: Config<E, C>, s: State<E, C>) {
    forall k | 0 <= k < |s.log| :: OwnerExists(c, s.log[k].owner)
  }

  ghost predicate LogInv<E, C>(c: Config<E, C>, s: State<E, C>)
    requires Shaped(c, s)
  {
    SamplesLogged(s) && OwnersExist(c, s) && forall i | 0 <= i < |s.readers| :: Faithful(c, s, i)
  }

  /** How far run() has come decides which threads exist and which have ended. */
  predicate MainInv<E, C>(c: Config<E, C>, s: State<E, C>)
    requires Shaped(c, s)
  {
    && (forall i | 0 <= i < |s.readers| ::
          s.readers[i].NotStarted? <==> !c.collectors[i].handled || (s.main.Spawn? && s.main.next <= i))
    && (s.metrics.MNotStarted? <==> s.main.Spawn?)
    && (s.main.Spawn? || s.main.Join? ==> s.main.next <= |s.readers|)
    && (s.main.Join? ==> forall i | 0 <= i < s.main.next :: c.collectors[i].handled ==> s.readers[i].Finished?)
    && (s.main.JoinMetrics? || s.main.Returned? ==>
          !s.running && forall i | 0 <= i < |s.readers| :: c.collectors[i].handled ==> s.readers[i].Finished?)
    && (s.main.Returned? ==> s.metrics.MFinished?)
  }

  predicate StopInv<E, C>(s: State<E, C>) {
    && (!s.stop.NotCalled? ==> !s.running)
    && (s.stop.StopCollectors? ==> s.stop.next <= |s.told| && forall i | 0 <= i < s.stop.next :: s.told[i])
    && (s.stop.StopDone? ==> forall i | 0 <= i < |s.told| :: s.told[i])
  }

  ghost predicate Inv<E, C>(c: Config<E, C>, s: State<E, C>) {
    Shaped(c, s) && LockInv(s) && LogInv(c, s) && MainInv(c, s) && StopInv(s)
  }

  lemma InitInv<E, C>(c: Config<E, C>)
    ensures Inv(c, Init(c))
  {
  }

  lemma CallsByAppend<C>(log: seq<Sent<C>>, x: Sent<C>, who: Owner)
    ensures CallsBy(log + [x], who) == if x.owner == who then CallsBy(log, who) + [x.call] else CallsBy(log, who)
  {
    assert (log + [x])[..|log|] == log;
  }

  lemma ExpectedAppend<E, C>(c: Config<E, C>, i: nat, events: seq<E>, e: E)
    ensures Expected(c, i, events + [e]) == Expected(c, i, events) + OneCall(c.handle(i, e))
  {
    assert (events + [e])[..|events|] == events;
  }

  /** A reader touches its own program counter, its own history, the lock and the log. */
  lemma ReaderEffect<E, C>(c: Config<E, C>, s: State<E, C>, i: nat, a: Answer<E>)
    requires Shaped(c, s) && i < |s.readers| && ReaderNext(c, s, i, a).Some?
    ensures var s' := ReaderNext(c, s, i, a).value;
            && s'.readers == s.readers[i := s'.readers[i]]
            && s' == s.(readers := s'.readers, lock := s'.lock, log := s'.log, consumed := s'.consumed)
            && (s'.log != s.log ==> s.readers[i].InSend? && s'.log == s.log + [Sent(Reader(i), s.readers[i].call)])
            && (forall j | 0 <= j < |s.readers| :: j != i ==> s'.consumed[j] == s.consumed[j])
            && !s.readers[i].NotStarted? && !s.readers[i].Finished? && !s'.readers[i].NotStarted?
  {
    var s' := ReaderNext(c, s, i, a).value;
    if s.readers[i].InSend? {
      assert |s'.log| == |s.log| + 1;
    }
  }

  /** The three things a reader can do to the lock. */
  lemma ReaderMovesLock<E, C>(c: Config<E, C>, s: State<E, C>, i: nat, a: Answer<E>)
    requires Shaped(c, s) && i < |s.readers| && ReaderNext(c, s, i, a).Some?
    ensures var s' := ReaderNext(c, s, i, a).value;
            || (s'.lock == s.lock && Critical(s'.readers[i]) == Critical(s.readers[i]))
            || (s.lock == None && s'.lock == Some(Reader(i)) && Critical(s'.readers[i]))
            || (Critical(s.readers[i]) && s'.lock == None && !Critical(s'.readers[i]))
  {
  }

  lemma ReaderLock<E, C>(c: Config<E, C>, s: State<E, C>, i: nat, a: Answer<E>)
    requires Shaped(c, s) && i < |s.readers| && LockInv(s) && ReaderNext(c, s, i, a).Some?
    ensures LockInv(ReaderNext(c, s, i, a).value)
  {
    ReaderEffect(c, s, i, a);
    ReaderMovesLock(c, s, i, a);
  }

  lemma StepLock<E, C>(c: Config<E, C>, s: State<E, C>, l: Label<E>)
    requires Shaped(c, s) && MainInv(c, s) && LockInv(s) && Next(c, s, l).Some?
    ensures LockInv(Next(c, s, l).value)
  {
    match l
    case ReaderStep(i, a) => ReaderLock(c, s, i, a);
    case MetricsStep => MetricsLock(s);
    case MainStep => MainLock(c, s);
    case _ =>
  }

  lemma MetricsLock<E, C>(s: State<E, C>)
    requires LockInv(s) && MetricsNext(s).Some?
    ensures LockInv(MetricsNext(s).value)
  {
  }

  lemma MainLock<E, C>(c: Config<E, C>, s: State<E, C>)
    requires Shaped(c, s) && MainInv(c, s) && LockInv(s) && MainNext(c, s).Some?
    ensures LockInv(MainNext(c, s).value)
  {
  }

  lemma StepStop<E, C>(c: Config<E, C>, s: State<E, C>, l: Label<E>)
    requires Shaped(c, s) && StopInv(s) && Next(c, s, l).Some?
    ensures StopInv(Next(c, s, l).value)
  {
    match l
    case ReaderStep(i, a) => ReaderEffect(c, s, i, a);
    case MetricsStep => MetricsKeepsStop(s);
    case _ =>
  }

  lemma MetricsKeepsStop<E, C>(s: State<E, C>)
    requires StopInv(s) && MetricsNext(s).Some?
    ensures StopInv(MetricsNext(s).value)
  {
  }

  lemma StepMain<E, C>(c: Config<E, C>, s: State<E, C>, l: Label<E>)
    requires Shaped(c, s) && MainInv(c, s) && Next(c, s, l).Some?
    ensures MainInv(c, Next(c, s, l).value)
  {
    match l
    case ReaderStep(i, a) => ReaderKeepsMain(c, s, i, a);
    case MainStep => MainKeepsMain(c, s);
    case MetricsStep => MetricsKeepsMain(c, s);
    case _ =>
  }

  lemma ReaderKeepsMain<E, C>(c: Config<E, C>, s: State<E, C>, i: nat, a: Answer<E>)
    requires Shaped(c, s) && MainInv(c, s) && i < |s.readers| && ReaderNext(c, s, i, a).Some?
    ensures MainInv(c, ReaderNext(c, s, i, a).value)
  {
    ReaderEffect(c, s, i, a);
  }

  lemma MetricsKeepsMain<E, C>(c: Config<E, C>, s: State<E, C>)
    requires Shaped(c, s) && MainInv(c, s) && MetricsNext(s).Some?
    ensures MainInv(c, MetricsNext(s).value)
  {
  }

  lemma MainKeepsMain<E, C>(c: Config<E, C>, s: State<E, C>)
    requires Shaped(c, s) && MainInv(c, s) && MainNext(c, s).Some?
    ensures MainInv(c, MainNext(c, s).value)
  {
  }

  /** The in-flight call changes only when an event arrives and when its call is logged. */
  lemma PendingKept<E, C>(c: Config<E, C>, s: State<E, C>, i: nat, a: Answer<E>)
    requires Shaped(c, s) && i < |s.readers| && ReaderNext(c, s, i, a).Some?
    requires !s.readers[i].InSend? && !(s.readers[i].Reading? && a.Record?)
    ensures var s' := ReaderNext(c, s, i, a).value;
            Pending(c, i, s'.readers[i]) == Pending(c, i, s.readers[i]) && s'.log == s.log && s'.consumed == s.consumed
  {
  }

  lemma SendAccounted<E, C>(c: Config<E, C>, i: nat, log: seq<Sent<C>>, call: C, events: seq<E>)
    requires Accounted(c, i, log, InSend(call), events)
    ensures Accounted(c, i, log + [Sent(Reader(i), call)], Release, events)
  {
    CallsByAppend(log, Sent(Reader(i), call), Reader(i));
    assert CallsBy(log + [Sent(Reader(i), call)], Reader(i)) + [] == CallsBy(log, Reader(i)) + [call];
  }

  lemma ReceiptAccounted<E, C>(c: Config<E, C>, i: nat, log: seq<Sent<C>>, events: seq<E>, e: E)
    requires Accounted(c, i, log, Reading, events)
    ensures Accounted(c, i, log, Handling(e), events + [e])
  {
    ExpectedAppend(c, i, events, e);
    assert CallsBy(log, Reader(i)) + [] == CallsBy(log, Reader(i));
  }

  lemma OwnFaithful<E, C>(c: Config<E, C>, s: State<E, C>, i: nat, a: Answer<E>)
    requires Shaped(c, s) && i < |s.readers| && Faithful(c, s, i) && ReaderNext(c, s, i, a).Some?
    ensures Faithful(c, ReaderNext(c, s, i, a).value, i)
  {
    if s.readers[i].InSend? {
      SendAccounted(c, i, s.log, s.readers[i].call, s.consumed[i]);
    } else if s.readers[i].Reading? && a.Record? {
      ReceiptAccounted(c, i, s.log, s.consumed[i], a.event);
    } else {
      PendingKept(c, s, i, a);
    }
  }

  lemma OtherFaithful<E, C>(c: Config<E, C>, s: State<E, C>, i: nat, a: Answer<E>, j: nat)
    requires Shaped(c, s) && i < |s.readers| && j < |s.readers| && j != i
    requires Faithful(c, s, j) && ReaderNext(c, s, i, a).Some?
    ensures Faithful(c, ReaderNext(c, s, i, a).value, j)
  {
    ReaderEffect(c, s, i, a);
    if s.readers[i].InSend? {
      CallsByAppend(s.log, Sent(Reader(i), s.readers[i].call), Reader(j));
    }
  }

  lemma MetricsEffect<E, C>(s: State<E, C>)
    requires MetricsNext(s).Some?
    ensures var s' := MetricsNext(s).value;
            && s'.readers == s.readers && s'.consumed == s.consumed
            && s'.log == if s.metrics.MInSend? then s.log + [Sent(Metrics, s.metrics.call)] else s.log
  {
  }

  lemma MetricsFaithful<E, C>(c: Config<E, C>, s: State<E, C>, j: nat)
    requires Shaped(c, s) && j < |s.readers| && Faithful(c, s, j) && MetricsNext(s).Some?
    ensures Faithful(c, MetricsNext(s).value, j)
  {
    MetricsEffect(s);
    if s.metrics.MInSend? { CallsByAppend(s.log, Sent(Metrics, s.metrics.call), Reader(j)); }
  }

  lemma MainFaithful<E, C>(c: Config<E, C>, s: State<E, C>, j: nat)
    requires Shaped(c, s) && MainInv(c, s) && j < |s.readers| && Faithful(c, s, j) && MainNext(c, s).Some?
    ensures Faithful(c, MainNext(c, s).value, j)
  {
    var s' := MainNext(c, s).value;
    assert Pending(c, j, s'.readers[j]) == Pending(c, j, s.readers[j]);
  }

  /** No step breaks the correspondence between events and log of any reader. */
  lemma StepFaithful<E, C>(c: Config<E, C>, s: State<E, C>, l: Label<E>, j: nat)
    requires Shaped(c, s) && MainInv(c, s) && j < |s.readers| && Faithful(c, s, j) && Next(c, s, l).Some?
    ensures Faithful(c, Next(c, s, l).value, j)
  {
    match l
    case ReaderStep(i, a) => if i == j { OwnFaithful(c, s, i, a); } else { OtherFaithful(c, s, i, a, j); }
    case MetricsStep => MetricsFaithful(c, s, j);
    case MainStep => MainFaithful(c, s, j);
    case StopStep => SameFaithful(c, s, StopNext(c, s).value, j);
    case MetricsWake => SameFaithful(c, s, Next(c, s, l).value, j);
    case MetricsSample(_) => SameFaithful(c, s, Next(c, s, l).value, j);
  }

  lemma SameFaithful<E, C>(c: Config<E, C>, s: State<E, C>, s': State<E, C>, j: nat)
    requires Shaped(c, s) && Shaped(c, s') && j < |s.readers| && Faithful(c, s, j)
    requires s'.log == s.log && s'.readers == s.readers && s'.consumed == s.consumed
    ensures Faithful(c, s', j)
  {
  }

  /** No step breaks the correspondence between samples and log of the metrics thread. */
  lemma StepSamples<E, C>(c: Config<E, C>, s: State<E, C>, l: Label<E>)
    requires Shaped(c, s) && MainInv(c, s) && SamplesLogged(s) && Next(c, s, l).Some?
    ensures SamplesLogged(Next(c, s, l).value)
  {
    match l
    case ReaderStep(i, a) => ReaderSamples(c, s, i, a);
    case MetricsStep => MetricsSamples(s);
    case MainStep => MainSamples(c, s);
    case StopStep => SameSamples(s, StopNext(c, s).value);
    case MetricsWake => SameSamples(s, Next(c, s, l).value);
    case MetricsSample(n) => SampleTaken(s, c.measure(n));
  }

  /** SamplesLogged on the parts of the state it speaks of. */
  ghost predicate SamplesAccounted<C>(log: seq<Sent<C>>, pc: MetricsPc<C>, sampled: seq<C>) {
    CallsBy(log, Metrics) + MPending(pc) == sampled
  }

  lemma ReaderSamples<E, C>(c: Config<E, C>, s: State<E, C>, i: nat, a: Answer<E>)
    requires Shaped(c, s) && i < |s.readers| && SamplesLogged(s) && ReaderNext(c, s, i, a).Some?
    ensures SamplesLogged(ReaderNext(c, s, i, a).value)
  {
    ReaderEffect(c, s, i, a);
    if s.readers[i].InSend? { CallsByAppend(s.log, Sent(Reader(i), s.readers[i].call), Metrics); }
  }

  lemma SendSampled<C>(log: seq<Sent<C>>, call: C, sampled: seq<C>)
    requires SamplesAccounted(log, MInSend(call), sampled)
    ensures SamplesAccounted(log + [Sent(Metrics, call)], MRelease, sampled)
  {
    CallsByAppend(log, Sent(Metrics, call), Metrics);
    assert CallsBy(log + [Sent(Metrics, call)], Metrics) + [] == sampled;
  }

  lemma MetricsSamples<E, C>(s: State<E, C>)
    requires SamplesLogged(s) && MetricsNext(s).Some?
    ensures SamplesLogged(MetricsNext(s).value)
  {
    if s.metrics.MInSend? {
      SendSampled(s.log, s.metrics.call, s.sampled);
    } else {
      assert MPending(MetricsNext(s).value.metrics) == MPending(s.metrics);
    }
  }

  lemma MainSamples<E, C>(c: Config<E, C>, s: State<E, C>)
    requires Shaped(c, s) && MainInv(c, s) && SamplesLogged(s) && MainNext(c, s).Some?
    ensures SamplesLogged(MainNext(c, s).value)
  {
    var s' := MainNext(c, s).value;
    assert MPending(s'.metrics) == MPending(s.metrics);
  }

  lemma SameSamples<E, C>(s: State<E, C>, s': State<E, C>)
    requires SamplesLogged(s) && s'.log == s.log && s'.sampled == s.sampled
    requires MPending(s'.metrics) == MPending(s.metrics)
    ensures SamplesLogged(s')
  {
  }

  lemma SampleTaken<E, C>(s: State<E, C>, call: C)
    requires SamplesLogged(s) && s.metrics.MCollect?
    ensures SamplesLogged(Sampled(s, call))
  {
    assert CallsBy(s.log, Metrics) + [] == CallsBy(s.log, Metrics);
  }

  lemma StepOwners<E, C>(c: Config<E, C>, s: State<E, C>, l: Label<E>)
    requires Shaped(c, s) && MainInv(c, s) && OwnersExist(c, s) && Next(c, s, l).Some?
    ensures OwnersExist(c, Next(c, s, l).value)
  {
    if l.ReaderStep? { ReaderEffect(c, s, l.i, l.answer); }
  }

  lemma NextInv<E, C>(c: Config<E, C>, s: State<E, C>, l: Label<E>)
    requires Inv(c, s) && Next(c, s, l).Some?
    ensures Inv(c, Next(c, s, l).value)
  {
    StepLock(c, s, l);
    StepStop(c, s, l);
    StepMain(c, s, l);
    StepSamples(c, s, l);
    StepOwners(c, s, l);
    forall j | 0 <= j < |s.readers| ensures Faithful(c, Next(c, s, l).value, j) {
      StepFaithful(c, s, l, j);
    }
  }

  lemma {:induction false} ExecInv<E, C>(c: Config<E, C>, s: State<E, C>, ls: seq<Label<E>>)
    requires Inv(c, s) && Exec(c, s, ls).Some?
    ensures Inv(c, Exec(c, s, ls).value)
    decreases |ls|
  {
    if ls != [] {
      NextInv(c, s, ls[0]);
      ExecInv(c, Next(c, s, ls[0]).value, ls[1..]);
    }
  }

  lemma ReachedInv<E, C>(c: Config<E, C>, ls: seq<Label<E>>, s: State<E, C>)
    requires Exec(c, Init(c), ls) == Some(s)
    ensures Inv(c, s)
  {
    InitInv(c);
    ExecInv(c, Init(c), ls);
  }
}
