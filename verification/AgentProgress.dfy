/** What keeps the agent's threads going while nothing stops them. */
module AgentProgress {
  import opened Text
  import opened AgentProtocol
  import opened AgentTheorems

  // ----- why a thread ends -----

  /** Until stop() is called nobody is told to stop, and only run() past its joins lowers the flag. */
  predicate FlagInv<E, C>(s: State<E, C>) {
    s.stop.NotCalled? ==>
      && (forall i | 0 <= i < |s.told| :: !s.told[i])
      && (!s.running ==> s.main.JoinMetrics? || s.main.Returned?)
  }

  lemma FlagReader<E, C>(c: Config<E, C>, s: State<E, C>, i: nat, a: Answer<E>)
    requires Shaped(c, s) && FlagInv(s) && i < |s.readers| && ReaderNext(c, s, i, a).Some?
    ensures FlagInv(ReaderNext(c, s, i, a).value)
  {
    ReaderEffect(c, s, i, a);
  }

  lemma FlagMetrics<E, C>(s: State<E, C>)
    requires FlagInv(s) && MetricsNext(s).Some?
    ensures FlagInv(MetricsNext(s).value)
  {
  }

  lemma StepFlag<E, C>(c: Config<E, C>, s: State<E, C>, l: Label<E>)
    requires Shaped(c, s) && FlagInv(s) && Next(c, s, l).Some?
    ensures FlagInv(Next(c, s, l).value)
  {
    match l
    case ReaderStep(i, a) => FlagReader(c, s, i, a);
    case MetricsStep => FlagMetrics(s);
    case _ =>
  }

  /** The flag is never raised again. */
  lemma StepRunning<E, C>(c: Config<E, C>, s: State<E, C>, l: Label<E>)
    requires Shaped(c, s) && Next(c, s, l).Some? && Next(c, s, l).value.running
    ensures s.running
  {
    if l.ReaderStep? { ReaderEffect(c, s, l.i, l.answer); }
  }

  predicate Ended<E, C>(s: State<E, C>, i: nat) {
    i < |s.readers| && s.readers[i].Finished?
  }

  lemma OwnEnd<E, C>(c: Config<E, C>, s: State<E, C>, i: nat, a: Answer<E>)
    requires Inv(c, s) && FlagInv(s) && i < |s.readers| && ReaderNext(c, s, i, a).Some?
    ensures var s' := ReaderNext(c, s, i, a).value;
            && (a.Ended? ==> Ended(s', i))
            && (s.stop.NotCalled? && Ended(s', i) ==> a.Ended?)
  {
    if s.main.JoinMetrics? || s.main.Returned? { ReaderEffect(c, s, i, a); }
  }

  /** A reader ends on an Ended answer, and before stop() on nothing else. */
  lemma StepEnd<E, C>(c: Config<E, C>, s: State<E, C>, l: Label<E>, i: nat)
    requires Inv(c, s) && FlagInv(s) && i < |s.readers| && Next(c, s, l).Some?
    ensures var s' := Next(c, s, l).value;
            && (l == ReaderStep(i, Answer.Ended) || Ended(s, i) ==> Ended(s', i))
            && (s'.stop.NotCalled? && Ended(s', i) ==> l == ReaderStep(i, Answer.Ended) || Ended(s, i))
            && (s'.stop.NotCalled? ==> s.stop.NotCalled?)
  {
    match l
    case ReaderStep(j, a) =>
      ReaderEffect(c, s, j, a);
      if i == j { OwnEnd(c, s, i, a); }
    case _ =>
  }

  lemma {:induction false} EndHistory<E, C>(c: Config<E, C>, s: State<E, C>, ls: seq<Label<E>>, i: nat)
    requires Inv(c, s) && FlagInv(s) && i < |s.readers| && Exec(c, s, ls).Some?
    ensures var s' := Exec(c, s, ls).value;
            && FlagInv(s')
            && (ReaderStep(i, Answer.Ended) in ls || Ended(s, i) ==> Ended(s', i))
            && (s'.stop.NotCalled? && Ended(s', i) ==> ReaderStep(i, Answer.Ended) in ls || Ended(s, i))
            && (s'.stop.NotCalled? ==> s.stop.NotCalled?)
    decreases |ls|
  {
    if ls != [] {
      var mid := Next(c, s, ls[0]).value;
      StepEnd(c, s, ls[0], i);
      StepFlag(c, s, ls[0]);
      NextInv(c, s, ls[0]);
      EndHistory(c, mid, ls[1..], i);
      InCons(ls, ReaderStep(i, Answer.Ended));
    }
  }

  lemma InCons<T>(xs: seq<T>, x: T)
    requires xs != []
    ensures x in xs <==> x == xs[0] || x in xs[1..]
  {
    assert xs == [xs[0]] + xs[1..];
  }

  lemma StepMetricsEnd<E, C>(c: Config<E, C>, s: State<E, C>, l: Label<E>)
    requires Inv(c, s) && Next(c, s, l).Some? && (s.metrics.MFinished? ==> !s.running)
    ensures Next(c, s, l).value.metrics.MFinished? ==> !Next(c, s, l).value.running
  {
    match l
    case ReaderStep(i, a) => ReaderEffect(c, s, i, a);
    case _ =>
  }

  lemma {:induction false} MetricsEndHistory<E, C>(c: Config<E, C>, s: State<E, C>, ls: seq<Label<E>>)
    requires Inv(c, s) && FlagInv(s) && Exec(c, s, ls).Some? && (s.metrics.MFinished? ==> !s.running)
    ensures var s' := Exec(c, s, ls).value;
            FlagInv(s') && (s'.metrics.MFinished? ==> !s'.running)
    decreases |ls|
  {
    if ls != [] {
      StepMetricsEnd(c, s, ls[0]);
      StepFlag(c, s, ls[0]);
      NextInv(c, s, ls[0]);
      MetricsEndHistory(c, Next(c, s, ls[0]).value, ls[1..]);
    }
  }

  /**
   On every schedule: a reader whose source has answered "no more" has ended; as long as stop()
   has not been called no reader has ended for any other reason, and the flag is up until they
   all have; and the metrics thread has not ended while the flag is up.
   */
  lemma NobodyQuits<E, C>(c: Config<E, C>, ls: seq<Label<E>>, s: State<E, C>)
    requires Exec(c, Init(c), ls) == Some(s)
    ensures forall i | 0 <= i < |s.readers| :: ReaderStep(i, Answer.Ended) in ls ==> s.readers[i].Finished?
    ensures s.stop.NotCalled? ==>
              forall i | 0 <= i < |s.readers| :: s.readers[i].Finished? <==> ReaderStep(i, Answer.Ended) in ls
    ensures s.stop.NotCalled? && !s.running ==> InputEnded(c, s)
    ensures s.running ==> s.stop.NotCalled? && !s.metrics.MFinished?
  {
    InitInv(c);
    ReachedInv(c, ls, s);
    MetricsEndHistory(c, Init(c), ls);
    forall i | 0 <= i < |s.readers|
      ensures ReaderStep(i, Answer.Ended) in ls ==> s.readers[i].Finished?
      ensures s.stop.NotCalled? ==> (s.readers[i].Finished? <==> ReaderStep(i, Answer.Ended) in ls)
    {
      EndHistory(c, Init(c), ls, i);
    }
  }

  // ----- back to the next event -----

  /** Steps of its own that a reader is away from asking for the next event. */
  function ToReading<E, C>(pc: ReaderPc<E, C>): nat {
    match pc
    case Reading => 0
    case CheckFlag => 1
    case Waiting => 1
    case StopCheck => 2
    case Release => 2
    case InSend(_) => 3
    case WantLock(_) => 4
    case Handling(_) => 5
    case NotStarted => 0
    case Finished => 0
  }

  predicate Alive<E, C>(s: State<E, C>, i: nat) {
    i < |s.readers| && !s.readers[i].NotStarted? && !s.readers[i].Finished?
  }

  function OwnSteps<E>(ls: seq<Label<E>>, i: nat): nat {
    if ls == [] then 0 else OwnSteps(ls[1..], i) + if ls[0].ReaderStep? && ls[0].i == i then 1 else 0
  }

  /** A live reader waits for nothing but its source and the lock. */
  lemma OnlyTheLockBlocks<E, C>(c: Config<E, C>, s: State<E, C>, i: nat)
    requires Inv(c, s) && Alive(s, i)
    ensures ReaderNext(c, s, i, Go).Some? || s.readers[i].Reading? || (s.readers[i].WantLock? && s.lock.Some?)
    ensures s.readers[i].Reading? ==> forall e :: ReaderNext(c, s, i, Record(e)).Some?
  {
  }

  /** With the flag up each step of its own brings it nearer to the next event. */
  lemma OwnStepNearer<E, C>(c: Config<E, C>, s: State<E, C>, i: nat, a: Answer<E>)
    requires Shaped(c, s) && FlagInv(s) && s.running && s.stop.NotCalled?
    requires Alive(s, i) && !s.readers[i].Reading? && ReaderNext(c, s, i, a).Some? && !a.Ended?
    ensures var s' := ReaderNext(c, s, i, a).value;
            Alive(s', i) && ToReading(s'.readers[i]) < ToReading(s.readers[i])
  {
  }

  /** Nobody else moves a live reader. */
  lemma OthersLeaveIt<E, C>(c: Config<E, C>, s: State<E, C>, l: Label<E>, i: nat)
    requires Inv(c, s) && Alive(s, i) && Next(c, s, l).Some? && !(l.ReaderStep? && l.i == i)
    ensures Alive(Next(c, s, l).value, i) && Next(c, s, l).value.readers[i] == s.readers[i]
  {
    match l
    case ReaderStep(j, a) => ReaderEffect(c, s, j, a);
    case _ =>
  }

  lemma {:induction false} RunningBefore<E, C>(c: Config<E, C>, s: State<E, C>, ls: seq<Label<E>>)
    requires Shaped(c, s) && Exec(c, s, ls).Some? && Exec(c, s, ls).value.running
    ensures s.running
    decreases |ls|
  {
    if ls != [] {
      RunningBefore(c, Next(c, s, ls[0]).value, ls[1..]);
      StepRunning(c, s, ls[0]);
    }
  }

  lemma StepNearer<E, C>(c: Config<E, C>, s: State<E, C>, l: Label<E>, i: nat)
    requires Inv(c, s) && FlagInv(s) && s.running && Alive(s, i) && !s.readers[i].Reading?
    requires Next(c, s, l).Some? && l != ReaderStep(i, Answer.Ended)
    ensures var s' := Next(c, s, l).value;
            && Alive(s', i)
            && ToReading(s'.readers[i]) + (if l.ReaderStep? && l.i == i then 1 else 0) <= ToReading(s.readers[i])
  {
    if l.ReaderStep? && l.i == i {
      OwnStepNearer(c, s, i, l.answer);
    } else {
      OthersLeaveIt(c, s, l, i);
    }
  }

  lemma GoesOn<E, C>(c: Config<E, C>, s: State<E, C>, l: Label<E>, i: nat)
    requires Inv(c, s) && FlagInv(s) && s.running && Alive(s, i) && !s.readers[i].Reading?
    requires Next(c, s, l).Some? && l != ReaderStep(i, Answer.Ended)
    ensures var s' := Next(c, s, l).value;
            && Inv(c, s') && FlagInv(s') && Alive(s', i)
            && ToReading(s'.readers[i]) + OwnSteps([l], i) <= ToReading(s.readers[i])
  {
    StepNearer(c, s, l, i);
    NextInv(c, s, l);
    StepFlag(c, s, l);
    assert [l][1..] == [];
  }

  /**
   However the threads interleave, a live reader whose source does not end asks for its next
   event after at most five steps of its own while the flag stays up, and by then it has sent
   the calls of all events it has consumed.
   */
  lemma {:induction false} BackToReading<E, C>(c: Config<E, C>, s: State<E, C>, ls: seq<Label<E>>, i: nat)
    returns (k: nat, mid: State<E, C>)
    requires Inv(c, s) && FlagInv(s) && Alive(s, i)
    requires Exec(c, s, ls).Some? && Exec(c, s, ls).value.running && ReaderStep(i, Answer.Ended) !in ls
    requires OwnSteps(ls, i) >= ToReading(s.readers[i])
    ensures ToReading(s.readers[i]) <= 5
    ensures k <= |ls| && Exec(c, s, ls[..k]) == Some(mid) && Alive(mid, i) && mid.readers[i].Reading?
    ensures CallsBy(mid.log, Reader(i)) == Expected(c, i, mid.consumed[i])
    decreases |ls|
  {
    if s.readers[i].Reading? {
      k, mid := 0, s;
      assert ls[..0] == [];
      NothingPending(c, s, i);
    } else {
      var next := Next(c, s, ls[0]).value;
      RunningBefore(c, s, ls);
      InCons(ls, ReaderStep(i, Answer.Ended));
      assert [ls[0]][1..] == [];
      GoesOn(c, s, ls[0], i);
      k, mid := BackToReading(c, next, ls[1..], i);
      ExecPrefix(c, s, ls, k);
      k := k + 1;
    }
  }

  lemma NothingPending<E, C>(c: Config<E, C>, s: State<E, C>, i: nat)
    requires Inv(c, s) && Alive(s, i) && s.readers[i].Reading?
    ensures CallsBy(s.log, Reader(i)) == Expected(c, i, s.consumed[i])
  {
    assert Faithful(c, s, i);
    assert CallsBy(s.log, Reader(i)) + [] == CallsBy(s.log, Reader(i));
  }

  lemma ExecPrefix<E, C>(c: Config<E, C>, s: State<E, C>, ls: seq<Label<E>>, k: nat)
    requires Shaped(c, s) && k < |ls| && Next(c, s, ls[0]).Some?
    ensures Exec(c, s, ls[..k + 1]) == Exec(c, Next(c, s, ls[0]).value, ls[1..][..k])
  {
    assert ls[..k + 1][1..] == ls[1..][..k];
  }

  lemma ReachedFlag<E, C>(c: Config<E, C>, ls: seq<Label<E>>, s: State<E, C>)
    requires Exec(c, Init(c), ls) == Some(s)
    ensures FlagInv(s)
  {
    InitInv(c);
    MetricsEndHistory(c, Init(c), ls);
  }

  /** BackToReading from any state the agent can get into. */
  lemma KeepsReading<E, C>(c: Config<E, C>, before: seq<Label<E>>, s: State<E, C>,
                           after: seq<Label<E>>, s': State<E, C>, i: nat)
    returns (k: nat, mid: State<E, C>)
    requires Exec(c, Init(c), before) == Some(s) && Exec(c, s, after) == Some(s')
    requires Alive(s, i) && s'.running && ReaderStep(i, Answer.Ended) !in after && OwnSteps(after, i) >= 5
    ensures k <= |after| && Exec(c, s, after[..k]) == Some(mid) && mid.readers[i].Reading?
    ensures CallsBy(mid.log, Reader(i)) == Expected(c, i, mid.consumed[i])
  {
    ReachedInv(c, before, s);
    ReachedFlag(c, before, s);
    assert ToReading(s.readers[i]) <= 5;
    k, mid := BackToReading(c, s, after, i);
  }

  // ----- the metrics thread -----

  function Wakes<E>(ls: seq<Label<E>>): nat {
    if ls == [] then 0 else Wakes(ls[1..]) + if ls[0].MetricsWake? then 1 else 0
  }

  /** 1 if the thread has slept and not yet sampled. */
  function Awake<C>(pc: MetricsPc<C>): nat {
    if pc.MRecheck? || pc.MCollect? then 1 else 0
  }

  lemma StepWakes<E, C>(c: Config<E, C>, s: State<E, C>, l: Label<E>)
    requires Inv(c, s) && Next(c, s, l).Some?
    ensures var s' := Next(c, s, l).value;
            var slept := if l.MetricsWake? then 1 else 0;
            && |s'.sampled| + Awake(s'.metrics) <= |s.sampled| + Awake(s.metrics) + slept
            && (!s'.metrics.MFinished? ==>
                  !s.metrics.MFinished? && |s'.sampled| + Awake(s'.metrics) == |s.sampled| + Awake(s.metrics) + slept)
  {
    match l
    case ReaderStep(i, a) => ReaderEffect(c, s, i, a);
    case _ =>
  }

  lemma {:induction false} WakesHistory<E, C>(c: Config<E, C>, s: State<E, C>, ls: seq<Label<E>>)
    requires Inv(c, s) && Exec(c, s, ls).Some?
    ensures var s' := Exec(c, s, ls).value;
            && |s'.sampled| + Awake(s'.metrics) <= |s.sampled| + Awake(s.metrics) + Wakes(ls)
            && (!s'.metrics.MFinished? ==>
                  && !s.metrics.MFinished?
                  && |s'.sampled| + Awake(s'.metrics) == |s.sampled| + Awake(s.metrics) + Wakes(ls))
    decreases |ls|
  {
    if ls != [] {
      StepWakes(c, s, ls[0]);
      NextInv(c, s, ls[0]);
      WakesHistory(c, Next(c, s, ls[0]).value, ls[1..]);
    }
  }

  /** One sample per sleep: never more, and none is skipped while the thread lives. */
  lemma OneSamplePerSleep<E, C>(c: Config<E, C>, ls: seq<Label<E>>, s: State<E, C>)
    requires Exec(c, Init(c), ls) == Some(s)
    ensures |s.sampled| <= Wakes(ls)
    ensures !s.metrics.MFinished? ==> Wakes(ls) == |s.sampled| + Awake(s.metrics)
  {
    InitInv(c);
    WakesHistory(c, Init(c), ls);
  }

  /** Steps of its own that the metrics thread is away from its next sample. */
  function ToCollect<C>(pc: MetricsPc<C>): nat {
    match pc
    case MCollect => 0
    case MRecheck => 1
    case MSleep => 2
    case MCheckFlag => 3
    case MRelease => 4
    case MInSend(_) => 5
    case MWantLock(_) => 6
    case MNotStarted => 0
    case MFinished => 0
  }

  function MetricsSteps<E>(ls: seq<Label<E>>): nat {
    if ls == [] then 0 else MetricsSteps(ls[1..]) + if ls[0].MetricsStep? || ls[0].MetricsWake? then 1 else 0
  }

  lemma StepToCollect<E, C>(c: Config<E, C>, s: State<E, C>, l: Label<E>)
    requires Inv(c, s) && s.running && !s.main.Spawn? && !s.metrics.MFinished? && !s.metrics.MCollect?
    requires Next(c, s, l).Some?
    ensures var s' := Next(c, s, l).value;
            && !s'.main.Spawn? && !s'.metrics.MFinished?
            && ToCollect(s'.metrics) + (if l.MetricsStep? || l.MetricsWake? then 1 else 0) <= ToCollect(s.metrics)
  {
    match l
    case ReaderStep(i, a) => ReaderEffect(c, s, i, a);
    case _ =>
  }

  /** The same for the metrics thread: at most six steps of its own to its next sample. */
  lemma {:induction false} BackToSampling<E, C>(c: Config<E, C>, s: State<E, C>, ls: seq<Label<E>>)
    returns (k: nat, mid: State<E, C>)
    requires Inv(c, s) && !s.main.Spawn? && !s.metrics.MFinished?
    requires Exec(c, s, ls).Some? && Exec(c, s, ls).value.running
    requires MetricsSteps(ls) >= ToCollect(s.metrics)
    ensures ToCollect(s.metrics) <= 6
    ensures k <= |ls| && Exec(c, s, ls[..k]) == Some(mid) && mid.metrics.MCollect?
    decreases |ls|
  {
    if s.metrics.MCollect? {
      k, mid := 0, s;
      assert ls[..0] == [];
    } else {
      RunningBefore(c, s, ls);
      StepToCollect(c, s, ls[0]);
      NextInv(c, s, ls[0]);
      k, mid := BackToSampling(c, Next(c, s, ls[0]).value, ls[1..]);
      ExecPrefix(c, s, ls, k);
      k := k + 1;
    }
  }

  // ----- what every logged call satisfies -----

  /** `ok(who, call)` holds of every call the configuration can make. */
  ghost predicate Makes<E(!new), C(!new)>(c: Config<E, C>, ok: (Owner, C) -> bool) {
    && (forall i: nat, e: E :: c.handle(i, e).Some? ==> ok(Reader(i), c.handle(i, e).value))
    && (forall n: nat :: ok(Metrics, c.measure(n)))
  }

  predicate ReaderCallOk<E, C>(pc: ReaderPc<E, C>, i: nat, ok: (Owner, C) -> bool) {
    pc.WantLock? || pc.InSend? ==> ok(Reader(i), pc.call)
  }

  predicate CallsOk<E, C>(s: State<E, C>, ok: (Owner, C) -> bool) {
    && (forall k | 0 <= k < |s.log| :: ok(s.log[k].owner, s.log[k].call))
    && (forall i | 0 <= i < |s.readers| :: ReaderCallOk(s.readers[i], i, ok))
    && (s.metrics.MWantLock? || s.metrics.MInSend? ==> ok(Metrics, s.metrics.call))
  }

  lemma ReaderCallsOk<E(!new), C(!new)>(c: Config<E, C>, s: State<E, C>, i: nat, a: Answer<E>, ok: (Owner, C) -> bool)
    requires Shaped(c, s) && Makes(c, ok) && CallsOk(s, ok) && i < |s.readers| && ReaderNext(c, s, i, a).Some?
    ensures CallsOk(ReaderNext(c, s, i, a).value, ok)
  {
    ReaderEffect(c, s, i, a);
    assert ReaderCallOk(s.readers[i], i, ok);
    assert ReaderCallOk(ReaderNext(c, s, i, a).value.readers[i], i, ok);
  }

  lemma MetricsCallsOk<E, C>(s: State<E, C>, ok: (Owner, C) -> bool)
    requires CallsOk(s, ok) && MetricsNext(s).Some?
    ensures CallsOk(MetricsNext(s).value, ok)
  {
    MetricsEffect(s);
  }

  lemma MainCallsOk<E, C>(c: Config<E, C>, s: State<E, C>, ok: (Owner, C) -> bool)
    requires Shaped(c, s) && CallsOk(s, ok) && MainNext(c, s).Some?
    ensures CallsOk(MainNext(c, s).value, ok)
  {
  }

  lemma StepCallsOk<E(!new), C(!new)>(c: Config<E, C>, s: State<E, C>, l: Label<E>, ok: (Owner, C) -> bool)
    requires Shaped(c, s) && Makes(c, ok) && CallsOk(s, ok) && Next(c, s, l).Some?
    ensures CallsOk(Next(c, s, l).value, ok)
  {
    match l
    case ReaderStep(i, a) => ReaderCallsOk(c, s, i, a, ok);
    case MetricsStep => MetricsCallsOk(s, ok);
    case MainStep => MainCallsOk(c, s, ok);
    case _ =>
  }

  lemma {:induction false} ExecCallsOk<E(!new), C(!new)>(c: Config<E, C>, s: State<E, C>, ls: seq<Label<E>>,
                                                        ok: (Owner, C) -> bool)
    requires Shaped(c, s) && Makes(c, ok) && CallsOk(s, ok) && Exec(c, s, ls).Some?
    ensures CallsOk(Exec(c, s, ls).value, ok)
    decreases |ls|
  {
    if ls != [] {
      StepCallsOk(c, s, ls[0], ok);
      ExecCallsOk(c, Next(c, s, ls[0]).value, ls[1..], ok);
    }
  }

  /** What holds of every call a handler or the sampler makes holds of every call in the log. */
  lemma LogSatisfies<E(!new), C(!new)>(c: Config<E, C>, ls: seq<Label<E>>, s: State<E, C>, ok: (Owner, C) -> bool)
    requires Exec(c, Init(c), ls) == Some(s) && Makes(c, ok)
    ensures forall x | x in s.log :: ok(x.owner, x.call)
  {
    ExecCallsOk(c, Init(c), ls, ok);
  }
}
