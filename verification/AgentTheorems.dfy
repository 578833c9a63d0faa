/** What the run/stop protocol guarantees on every schedule. */
module AgentTheorems {
  import opened Text
  import opened AgentProtocol

  // ----- safety in every reachable state -----

  predicate InsideSend<E, C>(s: State<E, C>, who: Owner) {
    match who
    case Reader(i) => i < |s.readers| && Critical(s.readers[i])
    case Metrics => MCritical(s.metrics)
  }

  lemma OneInside<E, C>(s: State<E, C>, a: Owner, b: Owner)
    requires LockInv(s) && InsideSend(s, a) && InsideSend(s, b)
    ensures a == b
  {
    assert s.lock == Some(a) && s.lock == Some(b);
  }

  lemma PendingIsShort<E, C>(c: Config<E, C>, i: nat, pc: ReaderPc<E, C>)
    ensures |Pending(c, i, pc)| <= 1
  {
  }

  /**
   On every schedule at most one thread is inside an adapter send, and what a reader has
   sent is what its handler makes of the events it consumed, in order, but for at most
   the one call still in flight. Likewise the metrics thread and its samples. No other
   calls are in the log.
   */
  lemma SafeOnEverySchedule<E, C>(c: Config<E, C>, ls: seq<Label<E>>, s: State<E, C>)
    requires Exec(c, Init(c), ls) == Some(s)
    ensures forall a, b :: InsideSend(s, a) && InsideSend(s, b) ==> a == b
    ensures forall i | 0 <= i < |s.readers| ::
              && CallsBy(s.log, Reader(i)) + Pending(c, i, s.readers[i]) == Expected(c, i, s.consumed[i])
              && |Pending(c, i, s.readers[i])| <= 1
    ensures CallsBy(s.log, Metrics) + MPending(s.metrics) == s.sampled && |MPending(s.metrics)| <= 1
    ensures forall x | x in s.log ::
              x.owner == Metrics || (x.owner.i < |c.collectors| && c.collectors[x.owner.i].handled)
  {
    ReachedInv(c, ls, s);
    forall a, b | InsideSend(s, a) && InsideSend(s, b) ensures a == b {
      OneInside(s, a, b);
    }
    forall i | 0 <= i < |s.readers|
      ensures && CallsBy(s.log, Reader(i)) + Pending(c, i, s.readers[i]) == Expected(c, i, s.consumed[i])
              && |Pending(c, i, s.readers[i])| <= 1
    {
      assert Faithful(c, s, i);
      PendingIsShort(c, i, s.readers[i]);
    }
  }

  // ----- sums over the readers -----

  datatype Measure = Sends | Events | Steps

  function Weight<E, C>(m: Measure, pc: ReaderPc<E, C>): nat {
    match m
    case Sends =>
      if pc.Reading? || pc.StopCheck? || pc.Waiting? || pc.Handling? || pc.WantLock? || pc.InSend? then 1 else 0
    case Events => if pc.Reading? || pc.StopCheck? || pc.Waiting? then 1 else 0
    case Steps =>
      match pc
      case Finished => 0
      case CheckFlag => 1
      case StopCheck => 1
      case NotStarted => 2
      case Release => 2
      case InSend(_) => 3
      case WantLock(_) => 4
      case Handling(_) => 5
      case Reading => 6
      case Waiting => 7
  }

  function Sum<E, C>(m: Measure, readers: seq<ReaderPc<E, C>>): nat {
    if readers == [] then 0 else Sum(m, readers[..|readers| - 1]) + Weight(m, readers[|readers| - 1])
  }

  lemma {:induction false} SumUpdate<E, C>(m: Measure, readers: seq<ReaderPc<E, C>>, i: nat, pc: ReaderPc<E, C>)
    requires i < |readers|
    ensures Sum(m, readers[i := pc]) + Weight(m, readers[i]) == Sum(m, readers) + Weight(m, pc)
  {
    var n := |readers| - 1;
    if i == n {
      assert readers[i := pc][..n] == readers[..n];
    } else {
      assert readers[i := pc][..n] == readers[..n][i := pc];
      SumUpdate(m, readers[..n], i, pc);
    }
  }

  function Handled(collectors: seq<Collector>): nat {
    if collectors == [] then 0
    else Handled(collectors[..|collectors| - 1]) + if collectors[|collectors| - 1].handled then 1 else 0
  }

  lemma {:induction false} SumBound<E, C>(readers: seq<ReaderPc<E, C>>, collectors: seq<Collector>)
    requires |readers| == |collectors|
    requires forall i | 0 <= i < |readers| :: !collectors[i].handled ==> readers[i].NotStarted?
    ensures Sum(Sends, readers) <= Handled(collectors)
  {
    if readers != [] {
      SumBound(readers[..|readers| - 1], collectors[..|collectors| - 1]);
    }
  }

  // ----- how much work is left once the flag is down -----

  function MetricsSends<C>(pc: MetricsPc<C>): nat {
    if pc.MCollect? || pc.MWantLock? || pc.MInSend? then 1 else 0
  }

  function Budget<E, C>(s: State<E, C>): nat {
    Sum(Sends, s.readers) + MetricsSends(s.metrics)
  }

  lemma ReaderSpends<E, C>(c: Config<E, C>, s: State<E, C>, i: nat, a: Answer<E>)
    requires Shaped(c, s) && !s.running && i < |s.readers| && ReaderNext(c, s, i, a).Some?
    ensures var s' := ReaderNext(c, s, i, a).value;
            && |s'.log| + Weight(Sends, s'.readers[i]) <= |s.log| + Weight(Sends, s.readers[i])
            && |s'.consumed[i]| + Weight(Events, s'.readers[i]) <= |s.consumed[i]| + Weight(Events, s.readers[i])
  {
  }

  lemma StepSpends<E, C>(c: Config<E, C>, s: State<E, C>, l: Label<E>)
    requires Shaped(c, s) && MainInv(c, s) && !s.running && Next(c, s, l).Some?
    ensures var s' := Next(c, s, l).value;
            !s'.running && |s'.log| + Budget(s') <= |s.log| + Budget(s)
  {
    var s' := Next(c, s, l).value;
    match l
    case ReaderStep(i, a) =>
      ReaderEffect(c, s, i, a);
      ReaderSpends(c, s, i, a);
      SumUpdate(Sends, s.readers, i, s'.readers[i]);
    case MainStep =>
      if s.main.Spawn? && s.main.next < |c.collectors| && c.collectors[s.main.next].handled {
        SumUpdate(Sends, s.readers, s.main.next, CheckFlag);
      }
    case _ =>
  }

  lemma {:induction false} SpendsWithinBudget<E, C>(c: Config<E, C>, s: State<E, C>, ls: seq<Label<E>>)
    requires Inv(c, s) && !s.running && Exec(c, s, ls).Some?
    ensures var s' := Exec(c, s, ls).value;
            !s'.running && |s'.log| + Budget(s') <= |s.log| + Budget(s)
    decreases |ls|
  {
    if ls != [] {
      StepSpends(c, s, ls[0]);
      NextInv(c, s, ls[0]);
      SpendsWithinBudget(c, Next(c, s, ls[0]).value, ls[1..]);
    }
  }

  lemma StepEvents<E, C>(c: Config<E, C>, s: State<E, C>, l: Label<E>, i: nat)
    requires Shaped(c, s) && MainInv(c, s) && !s.running && Next(c, s, l).Some? && i < |s.readers|
    ensures var s' := Next(c, s, l).value;
            |s'.consumed[i]| + Weight(Events, s'.readers[i]) <= |s.consumed[i]| + Weight(Events, s.readers[i])
  {
    if l.ReaderStep? {
      ReaderEffect(c, s, l.i, l.answer);
      ReaderSpends(c, s, l.i, l.answer);
    }
  }

  lemma {:induction false} EventsWithinBudget<E, C>(c: Config<E, C>, s: State<E, C>, ls: seq<Label<E>>, i: nat)
    requires Inv(c, s) && !s.running && Exec(c, s, ls).Some? && i < |s.readers|
    ensures var s' := Exec(c, s, ls).value;
            |s'.consumed[i]| + Weight(Events, s'.readers[i]) <= |s.consumed[i]| + Weight(Events, s.readers[i])
    decreases |ls|
  {
    if ls != [] {
      StepEvents(c, s, ls[0], i);
      StepSpends(c, s, ls[0]);
      NextInv(c, s, ls[0]);
      EventsWithinBudget(c, Next(c, s, ls[0]).value, ls[1..], i);
    }
  }

  /** Calls a single thread can still make. */
  function OwnBudget<E, C>(s: State<E, C>, who: Owner): nat {
    match who
    case Reader(i) => if i < |s.readers| then Weight(Sends, s.readers[i]) else 0
    case Metrics => MetricsSends(s.metrics)
  }

  lemma ReaderOwnSpends<E, C>(c: Config<E, C>, s: State<E, C>, i: nat, a: Answer<E>, who: Owner)
    requires Shaped(c, s) && !s.running && i < |s.readers| && ReaderNext(c, s, i, a).Some?
    ensures var s' := ReaderNext(c, s, i, a).value;
            |CallsBy(s'.log, who)| + OwnBudget(s', who) <= |CallsBy(s.log, who)| + OwnBudget(s, who)
  {
    ReaderEffect(c, s, i, a);
    ReaderSpends(c, s, i, a);
    if s.readers[i].InSend? { CallsByAppend(s.log, Sent(Reader(i), s.readers[i].call), who); }
  }

  lemma StepOwnSpends<E, C>(c: Config<E, C>, s: State<E, C>, l: Label<E>, who: Owner)
    requires Shaped(c, s) && MainInv(c, s) && !s.running && Next(c, s, l).Some?
    ensures var s' := Next(c, s, l).value;
            |CallsBy(s'.log, who)| + OwnBudget(s', who) <= |CallsBy(s.log, who)| + OwnBudget(s, who)
  {
    match l
    case ReaderStep(i, a) => ReaderOwnSpends(c, s, i, a, who);
    case MetricsStep => MetricsOwnSpends(s, who);
    case MainStep => MainOwnSpends(c, s, who);
    case _ =>
  }

  lemma MetricsOwnSpends<E, C>(s: State<E, C>, who: Owner)
    requires !s.running && MetricsNext(s).Some?
    ensures var s' := MetricsNext(s).value;
            |CallsBy(s'.log, who)| + OwnBudget(s', who) <= |CallsBy(s.log, who)| + OwnBudget(s, who)
  {
    MetricsEffect(s);
    if s.metrics.MInSend? { CallsByAppend(s.log, Sent(Metrics, s.metrics.call), who); }
  }

  lemma MainOwnSpends<E, C>(c: Config<E, C>, s: State<E, C>, who: Owner)
    requires Shaped(c, s) && MainInv(c, s) && MainNext(c, s).Some?
    ensures MainNext(c, s).value.log == s.log && OwnBudget(MainNext(c, s).value, who) <= OwnBudget(s, who)
  {
  }

  lemma {:induction false} OwnWithinBudget<E, C>(c: Config<E, C>, s: State<E, C>, ls: seq<Label<E>>, who: Owner)
    requires Inv(c, s) && !s.running && Exec(c, s, ls).Some?
    ensures var s' := Exec(c, s, ls).value;
            |CallsBy(s'.log, who)| + OwnBudget(s', who) <= |CallsBy(s.log, who)| + OwnBudget(s, who)
    decreases |ls|
  {
    if ls != [] {
      StepOwnSpends(c, s, ls[0], who);
      StepSpends(c, s, ls[0]);
      NextInv(c, s, ls[0]);
      OwnWithinBudget(c, Next(c, s, ls[0]).value, ls[1..], who);
    }
  }

  lemma AfterFirst<E, C>(c: Config<E, C>, s: State<E, C>, l: Label<E>, rest: seq<Label<E>>)
    returns (mid: State<E, C>)
    requires Inv(c, s) && Exec(c, s, [l] + rest).Some?
    ensures Next(c, s, l) == Some(mid) && Inv(c, mid) && Exec(c, mid, rest) == Exec(c, s, [l] + rest)
  {
    assert ([l] + rest)[1..] == rest;
    NextInv(c, s, l);
    mid := Next(c, s, l).value;
  }

  lemma TotalBudget<E, C>(c: Config<E, C>, s: State<E, C>, ls: seq<Label<E>>)
    requires Inv(c, s) && !s.running && Exec(c, s, ls).Some?
    ensures |Exec(c, s, ls).value.log| <= |s.log| + Handled(c.collectors) + 1
  {
    SpendsWithinBudget(c, s, ls);
    SumBound(s.readers, c.collectors);
  }

  /** 1 if the reader has an event in hand that its handler has not finished with. */
  function InHand<E, C>(pc: ReaderPc<E, C>): nat {
    if pc.Handling? || pc.WantLock? || pc.InSend? || pc.Release? then 1 else 0
  }

  /**
   After stop() has cleared the flag, on every continuation: each reader works on at most one
   more event, be it the one in hand at that moment or one it takes later; no thread makes
   more than one more send call, and all of them together make
   at most one per reader thread plus one.
   */
  lemma BoundedWorkAfterStop<E, C>(c: Config<E, C>, before: seq<Label<E>>, s: State<E, C>,
                                   after: seq<Label<E>>, s': State<E, C>)
    requires Exec(c, Init(c), before) == Some(s) && s.stop.NotCalled?
    requires Exec(c, s, [StopStep] + after) == Some(s')
    ensures |s'.log| <= |s.log| + Handled(c.collectors) + 1
    ensures forall who :: |CallsBy(s'.log, who)| <= |CallsBy(s.log, who)| + 1
    ensures forall i | 0 <= i < |s.readers| :: |s'.consumed[i]| - |s.consumed[i]| + InHand(s.readers[i]) <= 1
  {
    ReachedInv(c, before, s);
    var stopped := AfterFirst(c, s, StopStep, after);
    WorkWhenDown(c, stopped, after);
  }

  /** The same bounds from any state with the flag down. */
  lemma WorkWhenDown<E, C>(c: Config<E, C>, s: State<E, C>, ls: seq<Label<E>>)
    requires Inv(c, s) && !s.running && Exec(c, s, ls).Some?
    ensures var s' := Exec(c, s, ls).value;
            && |s'.log| <= |s.log| + Handled(c.collectors) + 1
            && (forall who :: |CallsBy(s'.log, who)| <= |CallsBy(s.log, who)| + 1)
            && forall i | 0 <= i < |s.readers| :: |s'.consumed[i]| - |s.consumed[i]| + InHand(s.readers[i]) <= 1
  {
    var s' := Exec(c, s, ls).value;
    TotalBudget(c, s, ls);
    forall who ensures |CallsBy(s'.log, who)| <= |CallsBy(s.log, who)| + 1 {
      OwnWithinBudget(c, s, ls, who);
    }
    forall i | 0 <= i < |s.readers|
      ensures |s'.consumed[i]| - |s.consumed[i]| + InHand(s.readers[i]) <= 1
    {
      EventsWithinBudget(c, s, ls, i);
    }
  }

  // ----- termination -----

  /** Reader `i` has ended, or never was. */
  predicate Over<E, C>(c: Config<E, C>, s: State<E, C>, i: nat)
    requires Shaped(c, s) && i < |s.readers|
  {
    s.readers[i].Finished? || !c.collectors[i].handled
  }

  /** The flag is down, and every collector has been told to stop or its reader has ended. */
  predicate Stopping<E, C>(c: Config<E, C>, s: State<E, C>)
    requires Shaped(c, s)
  {
    !s.running && forall i | 0 <= i < |s.told| :: s.told[i] || Over(c, s, i)
  }

  function MetricsRank<C>(pc: MetricsPc<C>): nat {
    match pc
    case MFinished => 0
    case MCheckFlag => 1
    case MRecheck => 1
    case MNotStarted => 2
    case MSleep => 2
    case MRelease => 2
    case MInSend(_) => 3
    case MWantLock(_) => 4
    case MCollect => 5
  }

  function MainRank(n: nat, pc: MainPc): int {
    match pc
    case Spawn(i) => 2 * n + 3 - i
    case Join(i) => n + 2 - i
    case JoinMetrics => 1
    case Returned => 0
  }

  function StopRank(n: nat, pc: StopPc): int {
    match pc
    case NotCalled => n + 2
    case StopCollectors(i) => n + 1 - i
    case StopDone => 0
  }

  function Rank<E, C>(s: State<E, C>): int {
    var n := |s.readers|;
    Sum(Steps, s.readers) + MetricsRank(s.metrics) + MainRank(n, s.main) + StopRank(n, s.stop)
  }

  lemma ReaderDescends<E, C>(c: Config<E, C>, s: State<E, C>, i: nat, a: Answer<E>)
    requires Shaped(c, s) && !s.running && i < |s.readers| && s.told[i] && ReaderNext(c, s, i, a).Some?
    ensures Weight(Steps, ReaderNext(c, s, i, a).value.readers[i]) < Weight(Steps, s.readers[i])
  {
  }

  lemma MainDescends<E, C>(c: Config<E, C>, s: State<E, C>)
    requires Shaped(c, s) && MainInv(c, s) && MainNext(c, s).Some?
    ensures Rank(MainNext(c, s).value) < Rank(s)
  {
    if s.main.Spawn? && s.main.next < |c.collectors| && c.collectors[s.main.next].handled {
      SumUpdate(Steps, s.readers, s.main.next, CheckFlag);
    }
  }

  lemma StepDescends<E, C>(c: Config<E, C>, s: State<E, C>, l: Label<E>)
    requires Inv(c, s) && Stopping(c, s) && Next(c, s, l).Some?
    ensures Stopping(c, Next(c, s, l).value) && Rank(Next(c, s, l).value) < Rank(s)
  {
    match l
    case ReaderStep(i, a) => ReaderStepDescends(c, s, i, a);
    case MainStep => MainDescends(c, s);
    case StopStep => StopDescends(c, s);
    case MetricsStep => MetricsDescends(c, s);
    case MetricsWake => PcDescends(c, s, MRecheck);
    case MetricsSample(n) => SampleDescends(c, s, c.measure(n));
  }

  lemma PcDescends<E, C>(c: Config<E, C>, s: State<E, C>, pc: MetricsPc<C>)
    requires Shaped(c, s) && Stopping(c, s) && MetricsRank(pc) < MetricsRank(s.metrics)
    ensures var s' := s.(metrics := pc);
            Shaped(c, s') && Stopping(c, s') && Rank(s') < Rank(s)
  {
    assert forall j | 0 <= j < |s.readers| :: Over(c, s.(metrics := pc), j) == Over(c, s, j);
  }

  lemma SampleDescends<E, C>(c: Config<E, C>, s: State<E, C>, call: C)
    requires Shaped(c, s) && Stopping(c, s) && s.metrics.MCollect?
    ensures Shaped(c, Sampled(s, call)) && Stopping(c, Sampled(s, call)) && Rank(Sampled(s, call)) < Rank(s)
  {
    assert forall j | 0 <= j < |s.readers| :: Over(c, Sampled(s, call), j) == Over(c, s, j);
  }


  lemma ReaderStepDescends<E, C>(c: Config<E, C>, s: State<E, C>, i: nat, a: Answer<E>)
    requires Inv(c, s) && Stopping(c, s) && i < |s.readers| && ReaderNext(c, s, i, a).Some?
    ensures var s' := ReaderNext(c, s, i, a).value;
            Stopping(c, s') && Rank(s') < Rank(s)
  {
    var s' := ReaderNext(c, s, i, a).value;
    ReaderEffect(c, s, i, a);
    assert !Over(c, s, i);
    ReaderDescends(c, s, i, a);
    SumUpdate(Steps, s.readers, i, s'.readers[i]);
    assert forall j | 0 <= j < |s.readers| && j != i :: Over(c, s', j) == Over(c, s, j);
  }

  lemma StopDescends<E, C>(c: Config<E, C>, s: State<E, C>)
    requires Inv(c, s) && Stopping(c, s) && StopNext(c, s).Some?
    ensures Stopping(c, StopNext(c, s).value) && Rank(StopNext(c, s).value) < Rank(s)
  {
    assert forall j | 0 <= j < |s.readers| :: Over(c, StopNext(c, s).value, j) == Over(c, s, j);
  }

  lemma MetricsRankFalls<E, C>(s: State<E, C>)
    requires !s.running && MetricsNext(s).Some?
    ensures var s' := MetricsNext(s).value;
            && MetricsRank(s'.metrics) < MetricsRank(s.metrics)
            && s' == s.(metrics := s'.metrics, lock := s'.lock, log := s'.log)
  {
  }

  lemma MetricsDescends<E, C>(c: Config<E, C>, s: State<E, C>)
    requires Shaped(c, s) && Stopping(c, s) && MetricsNext(s).Some?
    ensures Shaped(c, MetricsNext(s).value) && Stopping(c, MetricsNext(s).value)
    ensures Rank(MetricsNext(s).value) < Rank(s)
  {
    MetricsRankFalls(s);
    assert forall j | 0 <= j < |s.readers| :: Over(c, MetricsNext(s).value, j) == Over(c, s, j);
  }

  lemma RankIsNatural<E, C>(c: Config<E, C>, s: State<E, C>)
    requires Inv(c, s)
    ensures Rank(s) >= 0
  {
  }

  /** Some thread can always move until run() has returned: there is no deadlock. */
  lemma SomeoneCanMove<E, C>(c: Config<E, C>, s: State<E, C>) returns (l: Label<E>)
    requires Inv(c, s) && !s.main.Returned?
    ensures Next(c, s, l).Some?
  {
    if MainNext(c, s).Some? {
      l := MainStep;
    } else if s.main.Join? {
      l := ReaderOrHolder(c, s, s.main.next);
    } else {
      l := MetricsOrHolder(c, s);
    }
  }

  lemma HolderCanMove<E, C>(c: Config<E, C>, s: State<E, C>) returns (l: Label<E>)
    requires Inv(c, s) && s.lock.Some?
    ensures Next(c, s, l).Some?
  {
    match s.lock.value
    case Reader(i) =>
      assert Critical(s.readers[i]);
      l := ReaderStep(i, Go);
    case Metrics => l := MetricsStep;
  }

  lemma ReaderOrHolder<E, C>(c: Config<E, C>, s: State<E, C>, i: nat) returns (l: Label<E>)
    requires Inv(c, s) && i < |s.readers| && !s.readers[i].NotStarted? && !s.readers[i].Finished?
    ensures Next(c, s, l).Some?
  {
    if s.readers[i].WantLock? && s.lock.Some? {
      l := HolderCanMove(c, s);
    } else {
      l := ReaderStep(i, if s.readers[i].Reading? then Ended else Go);
    }
  }

  lemma MetricsOrHolder<E, C>(c: Config<E, C>, s: State<E, C>) returns (l: Label<E>)
    requires Inv(c, s) && !s.metrics.MNotStarted? && !s.metrics.MFinished?
    ensures Next(c, s, l).Some?
  {
    if s.metrics.MWantLock? && s.lock.Some? {
      l := HolderCanMove(c, s);
    } else if s.metrics.MCollect? {
      l := MetricsSample(0);
    } else if s.metrics.MSleep? {
      l := MetricsWake;
    } else {
      l := MetricsStep;
    }
  }

  lemma {:induction false} ScheduleLength<E, C>(c: Config<E, C>, s: State<E, C>, ls: seq<Label<E>>)
    requires Inv(c, s) && Stopping(c, s) && Exec(c, s, ls).Some?
    ensures |ls| + Rank(Exec(c, s, ls).value) <= Rank(s)
    decreases |ls|
  {
    if ls != [] {
      StepDescends(c, s, ls[0]);
      NextInv(c, s, ls[0]);
      ScheduleLength(c, Next(c, s, ls[0]).value, ls[1..]);
    }
  }

  lemma {:induction false} StepsBound<E, C>(readers: seq<ReaderPc<E, C>>)
    ensures Sum(Steps, readers) <= 7 * |readers|
  {
    if readers != [] { StepsBound(readers[..|readers| - 1]); }
  }

  lemma RankBound<E, C>(c: Config<E, C>, s: State<E, C>)
    requires Inv(c, s)
    ensures Rank(s) <= 10 * |c.collectors| + 10
  {
    StepsBound(s.readers);
  }

  /**
   Once the flag is down and the collectors have been told, or have ended, every schedule is at most
   `Rank` steps long, a number linear in the number of collectors, and one that cannot be prolonged has run() returned.
   */
  lemma StoppedRunEnds<E(!new), C(!new)>(c: Config<E, C>, before: seq<Label<E>>, s: State<E, C>,
                                         after: seq<Label<E>>, s': State<E, C>)
    requires Exec(c, Init(c), before) == Some(s) && Stopping(c, s)
    requires Exec(c, s, after) == Some(s')
    ensures |after| <= Rank(s) <= 10 * |c.collectors| + 10
    ensures (forall l :: Next(c, s', l).None?) ==> s'.main.Returned?
  {
    ReachedInv(c, before, s);
    ExecInv(c, s, after);
    ScheduleLength(c, s, after);
    RankIsNatural(c, s');
    RankBound(c, s);
    if !s'.main.Returned? {
      var l := SomeoneCanMove(c, s');
    }
  }

  // ----- end of input -----

  /** Every reader run() started has reached the end of its input. */
  predicate InputEnded<E, C>(c: Config<E, C>, s: State<E, C>)
    requires Shaped(c, s)
  {
    forall i | 0 <= i < |s.readers| :: Over(c, s, i)
  }

  function MainSteps<E>(ls: seq<Label<E>>): nat {
    if ls == [] then 0 else MainSteps(ls[1..]) + if ls[0].MainStep? then 1 else 0
  }

  lemma EndedReaderRests<E, C>(c: Config<E, C>, s: State<E, C>, i: nat, a: Answer<E>)
    requires Inv(c, s) && InputEnded(c, s)
    ensures Next(c, s, ReaderStep(i, a)).None?
  {
    assert i < |s.readers| ==> Over(c, s, i);
  }

  lemma InputStaysEnded<E, C>(c: Config<E, C>, s: State<E, C>, l: Label<E>)
    requires Inv(c, s) && InputEnded(c, s) && Next(c, s, l).Some?
    ensures var s' := Next(c, s, l).value;
            && InputEnded(c, s')
            && MainRank(|c.collectors|, s'.main) == MainRank(|c.collectors|, s.main) - if l.MainStep? then 1 else 0
  {
    if l.ReaderStep? { EndedReaderRests(c, s, l.i, l.answer); }
    if s.main.Spawn? && s.main.next < |s.readers| { assert Over(c, s, s.main.next); }
    assert forall i | 0 <= i < |s.readers| :: Over(c, Next(c, s, l).value, i) == Over(c, s, i);
  }

  /** Nothing holds run() up before it clears the flag, and from then on the agent is stopping. */
  lemma EndedInputStops<E, C>(c: Config<E, C>, s: State<E, C>)
    requires Inv(c, s) && InputEnded(c, s)
    ensures if MainRank(|c.collectors|, s.main) > 1 then MainNext(c, s).Some? else Stopping(c, s)
  {
    if s.main.Join? && s.main.next < |s.readers| {
      assert Over(c, s, s.main.next);
    }
  }

  lemma {:induction false} EndedInputRuns<E, C>(c: Config<E, C>, s: State<E, C>, ls: seq<Label<E>>)
    requires Inv(c, s) && InputEnded(c, s) && Exec(c, s, ls).Some?
    ensures var s' := Exec(c, s, ls).value;
            && Inv(c, s') && InputEnded(c, s')
            && MainRank(|c.collectors|, s'.main) + MainSteps(ls) == MainRank(|c.collectors|, s.main)
    decreases |ls|
  {
    if ls != [] {
      InputStaysEnded(c, s, ls[0]);
      NextInv(c, s, ls[0]);
      EndedInputRuns(c, Next(c, s, ls[0]).value, ls[1..]);
    }
  }

  /**
   Without any stop(): when the inputs have ended, the thread in run() is never held up before
   it clears the flag, it gets there within 2n + 2 of its own steps however the other threads
   interleave, and from there on the agent is stopping, so that StoppedRunEnds applies.
   */
  lemma EndOfInputStops<E, C>(c: Config<E, C>, before: seq<Label<E>>, s: State<E, C>,
                              after: seq<Label<E>>, s': State<E, C>)
    requires Exec(c, Init(c), before) == Some(s) && InputEnded(c, s)
    requires Exec(c, s, after) == Some(s')
    ensures MainNext(c, s').Some? || Stopping(c, s')
    ensures MainSteps(after) >= 2 * |c.collectors| + 2 ==> Stopping(c, s')
  {
    ReachedInv(c, before, s);
    EndedInputRuns(c, s, after);
    EndedInputStops(c, s');
  }

  // ----- after run() has returned -----

  lemma ReturnedIsQuiet<E, C>(c: Config<E, C>, s: State<E, C>)
    requires Inv(c, s) && s.main.Returned?
    ensures s.lock.None? && s.metrics.MFinished?
    ensures forall i | 0 <= i < |s.readers| ::
              && (if c.collectors[i].handled then s.readers[i].Finished? else s.readers[i].NotStarted?)
              && CallsBy(s.log, Reader(i)) == Expected(c, i, s.consumed[i])
    ensures CallsBy(s.log, Metrics) == s.sampled
  {
    assert CallsBy(s.log, Metrics) + [] == CallsBy(s.log, Metrics);
    assert s.lock.Some? && s.lock.value.Reader? ==> s.lock == Some(Reader(s.lock.value.i));
    forall i | 0 <= i < |s.readers|
      ensures s.lock != Some(Reader(i)) && CallsBy(s.log, Reader(i)) == Expected(c, i, s.consumed[i])
    {
      assert !Critical(s.readers[i]);
      assert Faithful(c, s, i);
      assert CallsBy(s.log, Reader(i)) + [] == CallsBy(s.log, Reader(i));
    }
  }

  lemma {:induction false} LogIsFinal<E, C>(c: Config<E, C>, s: State<E, C>, ls: seq<Label<E>>)
    requires Inv(c, s) && s.main.Returned? && Exec(c, s, ls).Some?
    ensures Exec(c, s, ls).value.log == s.log && Exec(c, s, ls).value.main.Returned?
    decreases |ls|
  {
    if ls != [] {
      assert ls[0] == StopStep by {
        if ls[0].ReaderStep? && ls[0].i < |s.readers| { ReturnedIsQuiet(c, s); }
      }
      NextInv(c, s, ls[0]);
      LogIsFinal(c, Next(c, s, ls[0]).value, ls[1..]);
    }
  }

  /**
   When run() has returned, by end of input or by stop() and on whatever schedule, all its
   threads are done, the lock is free, each reader has sent exactly the calls of the events
   it consumed and the metrics thread its samples, and no continuation adds to the log.
   */
  lemma ReturnedForGood<E, C>(c: Config<E, C>, before: seq<Label<E>>, s: State<E, C>,
                              after: seq<Label<E>>, s': State<E, C>)
    requires Exec(c, Init(c), before) == Some(s) && s.main.Returned?
    requires Exec(c, s, after) == Some(s')
    ensures s.lock.None? && s.metrics.MFinished?
    ensures forall i | 0 <= i < |s.readers| ::
              && (if c.collectors[i].handled then s.readers[i].Finished? else s.readers[i].NotStarted?)
              && CallsBy(s.log, Reader(i)) == Expected(c, i, s.consumed[i])
    ensures CallsBy(s.log, Metrics) == s.sampled
    ensures s'.log == s.log
  {
    ReachedInv(c, before, s);
    ReturnedIsQuiet(c, s);
    LogIsFinal(c, s, after);
  }

  // ----- the expected calls, event by event -----

  function Flatten<C>(calls: seq<Option<C>>): seq<C> {
    if calls == [] then [] else Flatten(calls[..|calls| - 1]) + OneCall(calls[|calls| - 1])
  }

  lemma {:induction false} ExpectedIs<E, C>(c: Config<E, C>, i: nat, events: seq<E>, calls: seq<Option<C>>)
    requires |events| == |calls| && forall k | 0 <= k < |events| :: c.handle(i, events[k]) == calls[k]
    ensures Expected(c, i, events) == Flatten(calls)
  {
    if events != [] {
      ExpectedIs(c, i, events[..|events| - 1], calls[..|calls| - 1]);
    }
  }
}
