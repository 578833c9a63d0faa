/** What the CPU usage figures mean over whole runs of samples. */
module CpuTheorems {
  import opened Text
  import opened ProcText
  import opened ProcLines
  import opened CpuCollector

  // ----- one interval -----

  /** Counters only grew, and by less than 2^64 in total. */
  predicate Follows(x: Times, y: Times) {
    x.AtMost(y) && y.Total() - x.Total() < U64
  }

  lemma WrapDelta(a: nat, b: nat)
    requires a <= b && b - a < U64
    ensures Wrap(Wrap(b) - Wrap(a)) == b - a
  {
    assert Wrap(b) - Wrap(a) == (b - a) - U64 * (b / U64 - a / U64);
    ModShift(b - a, b / U64 - a / U64);
  }

  lemma ModShift(d: nat, q: int)
    requires d < U64
    ensures (d - U64 * q) % U64 == d
  {
    assert (d - U64 * q) / U64 == -q;
  }

  /** The deltas computed modulo 2^64 are the true ones, whether or not a sum wrapped in between. */
  lemma DeltasAreTrue(x: Times, y: Times)
    requires Follows(x, y)
    ensures TotalDelta(SavedOf(x), y) == y.Total() - x.Total()
    ensures IdleDelta(SavedOf(x), y) == y.Idle() - x.Idle()
    ensures TotalDelta(SavedOf(x), y) - IdleDelta(SavedOf(x), y) == y.Busy() - x.Busy() >= 0
  {
    WrapDelta(x.Total(), y.Total());
    WrapDelta(x.Idle(), y.Idle());
  }

  /** The part of an interval that is not idle, as the code's two deltas account for it. */
  function BusyDelta(prev: Saved, t: Times): int {
    if prev.total > 0 then TotalDelta(prev, t) - IdleDelta(prev, t) else 0
  }

  lemma Percent(idle: nat, total: nat)
    requires idle <= total && total > 0
    ensures Share(idle, total) * total as real == 100.0 * (total - idle) as real && 0.0 <= Share(idle, total) <= 100.0
  {
    var q := idle as real / total as real;
    assert q * total as real == idle as real;
    assert 0.0 <= q <= 1.0;
    assert (100.0 * (1.0 - q)) * total as real == 100.0 * (total as real - q * total as real);
  }

  /** The figure reported for an interval is a percentage. */
  lemma UsageIsPercentage(x: Times, y: Times)
    requires Follows(x, y)
    ensures 0.0 <= Usage(SavedOf(x), y) <= 100.0
  {
    DeltasAreTrue(x, y);
    if y.Total() > x.Total() { Percent(y.Idle() - x.Idle(), y.Total() - x.Total()); }
  }

  /** It is the busy share of the interval, unless the earlier total wrapped to 0 or no time passed. */
  lemma UsageIsBusyShare(x: Times, y: Times)
    requires Follows(x, y) && Wrap(x.Total()) > 0 && y.Total() > x.Total()
    ensures Usage(SavedOf(x), y) == Share(y.Idle() - x.Idle(), y.Total() - x.Total())
  {
    DeltasAreTrue(x, y);
  }

  /** The reported number times the elapsed time is a hundred times the busy time. */
  predicate Accounts(usage: real, total: int, busy: int) {
    usage * total as real == 100.0 * busy as real
  }

  lemma ShareOf(usage: real, idle: nat, total: nat, busy: int)
    requires idle <= total && total > 0 && usage == Share(idle, total) && busy == total - idle
    ensures Accounts(usage, total, busy)
  {
    Percent(idle, total);
  }

  lemma ShareAccounts(x: Times, y: Times)
    requires Follows(x, y) && Wrap(x.Total()) != 0 && y.Total() > x.Total()
    ensures Accounts(Usage(SavedOf(x), y), y.Total() - x.Total(), y.Busy() - x.Busy())
  {
    var usage, idle, total := Usage(SavedOf(x), y), y.Idle() - x.Idle(), y.Total() - x.Total();
    assert usage == Share(idle, total) by { UsageIsBusyShare(x, y); }
    ShareOf(usage, idle, total, y.Busy() - x.Busy());
  }

  lemma NoTimeNoUsage(x: Times, y: Times)
    requires Follows(x, y) && y.Total() == x.Total()
    ensures y.Busy() == x.Busy() && Usage(SavedOf(x), y) == 0.0
  {
    DeltasAreTrue(x, y);
  }

  lemma NothingAccounts(usage: real)
    requires usage == 0.0
    ensures Accounts(usage, 0, 0)
  {
  }

  /** What is reported: nothing without an earlier sample or without elapsed time, otherwise the busy share. */
  lemma UsageExact(x: Times, y: Times)
    requires Follows(x, y)
    ensures Usage(NO_SAMPLE, y) == 0.0
    ensures Wrap(x.Total()) == 0 || y.Total() == x.Total() ==> Usage(SavedOf(x), y) == 0.0
    ensures Wrap(x.Total()) != 0 ==>
              Accounts(Usage(SavedOf(x), y), y.Total() - x.Total(), y.Busy() - x.Busy())
  {
    if y.Total() == x.Total() {
      NoTimeNoUsage(x, y);
      NothingAccounts(Usage(SavedOf(x), y));
    } else if Wrap(x.Total()) != 0 {
      ShareAccounts(x, y);
    }
  }

  // ----- runs of reads, good and malformed -----

  /** The good samples among the texts read, in order. */
  function Good(texts: seq<string>): seq<Times> {
    if texts == [] then []
    else
      var t := Sample(texts[|texts| - 1]);
      if t.Some? then Good(texts[..|texts| - 1]) + [t.value] else Good(texts[..|texts| - 1])
  }

  /** What the collector has saved after reading the texts. */
  function After(texts: seq<string>): Saved {
    if texts == [] then NO_SAMPLE else NextSaved(After(texts[..|texts| - 1]), texts[|texts| - 1])
  }

  /** The sum of the busy deltas of all reads so far. */
  function BusySum(texts: seq<string>): int {
    if texts == [] then 0
    else
      var t := Sample(texts[|texts| - 1]);
      BusySum(texts[..|texts| - 1]) + if t.Some? then BusyDelta(After(texts[..|texts| - 1]), t.value) else 0
  }

  predicate Monotone(ts: seq<Times>) {
    forall i | 0 < i < |ts| :: Follows(ts[i - 1], ts[i])
  }

  /** A malformed read leaves the saved counters alone, a good one replaces them. */
  lemma {:induction false} SavedIsLastGood(texts: seq<string>)
    ensures After(texts) == if Good(texts) == [] then NO_SAMPLE else SavedOf(Good(texts)[|Good(texts)| - 1])
  {
    if texts != [] { SavedIsLastGood(texts[..|texts| - 1]); }
  }

  lemma MonotonePrefix(ts: seq<Times>, t: Times)
    requires Monotone(ts + [t])
    ensures Monotone(ts) && (ts != [] ==> Follows(ts[|ts| - 1], t))
  {
    forall i | 0 < i < |ts| ensures Follows(ts[i - 1], ts[i]) {
      assert (ts + [t])[i - 1] == ts[i - 1] && (ts + [t])[i] == ts[i];
    }
    if ts != [] { assert (ts + [t])[|ts| - 1] == ts[|ts| - 1] && (ts + [t])[|ts|] == t; }
  }

  /** Every usage reported along a run with growing counters is a percentage. */
  lemma UsageInRange(texts: seq<string>, text: string)
    requires Monotone(Good(texts + [text]))
    ensures 0.0 <= StatsOf(After(texts), text).usage <= 100.0
  {
    assert (texts + [text])[..|texts|] == texts;
    SavedIsLastGood(texts);
    var t := Sample(text);
    if t.Some? {
      var good := Good(texts);
      MonotonePrefix(good, t.value);
      if good != [] { UsageIsPercentage(good[|good| - 1], t.value); }
    }
  }

  /** The sample leaves a saved total that is told from "no sample yet", or nothing was busy behind it. */
  predicate IntervalKept(x: Times, y: Times) {
    Wrap(x.Total()) != 0 || y.Busy() == x.Busy()
  }

  predicate AllKept(ts: seq<Times>) {
    forall i | 0 < i < |ts| :: IntervalKept(ts[i - 1], ts[i])
  }

  lemma AllKeptSnoc(ts: seq<Times>, t: Times)
    ensures AllKept(ts + [t]) <==> AllKept(ts) && (ts != [] ==> IntervalKept(ts[|ts| - 1], t))
  {
    var longer := ts + [t];
    assert longer[..|ts|] == ts;
    if ts != [] { assert longer[|ts| - 1] == ts[|ts| - 1] && longer[|ts|] == t; }
  }

  /** Busy time between the first and the last sample. */
  function BusyBetween(ts: seq<Times>): int {
    if ts == [] then 0 else ts[|ts| - 1].Busy() - ts[0].Busy()
  }

  /**
   The busy deltas of a run telescope, whatever malformed reads come in between: they never
   count time twice, and they lose none exactly if every interval is kept.
   */
  lemma {:induction false} BusyTelescopes(texts: seq<string>)
    requires Monotone(Good(texts))
    ensures BusySum(texts) <= BusyBetween(Good(texts))
    ensures BusySum(texts) == BusyBetween(Good(texts)) <==> AllKept(Good(texts))
  {
    if texts != [] {
      var before := texts[..|texts| - 1];
      var t := Sample(texts[|texts| - 1]);
      SavedIsLastGood(before);
      if t.Some? {
        MonotonePrefix(Good(before), t.value);
        AllKeptSnoc(Good(before), t.value);
        BusyTelescopes(before);
        OneMoreInterval(Good(before), t.value, After(before));
      } else {
        BusyTelescopes(before);
      }
    }
  }

  lemma OneMoreInterval(good: seq<Times>, t: Times, saved: Saved)
    requires Monotone(good + [t])
    requires saved == if good == [] then NO_SAMPLE else SavedOf(good[|good| - 1])
    ensures BusyBetween(good) + BusyDelta(saved, t) <= BusyBetween(good + [t])
    ensures BusyBetween(good) + BusyDelta(saved, t) == BusyBetween(good + [t])
       <==> (good == [] || IntervalKept(good[|good| - 1], t))
  {
    MonotonePrefix(good, t);
    if good != [] { DeltasAreTrue(good[|good| - 1], t); }
  }

  /** A total that is 0 modulo 2^64 reads as "no sample yet": the interval behind it is lost. */
  lemma ZeroTotalLosesInterval(x: Times, y: Times)
    requires Follows(x, y)
    ensures BusyDelta(SavedOf(x), y) == y.Busy() - x.Busy() <==> IntervalKept(x, y)
  {
    DeltasAreTrue(x, y);
  }

  /** The texts that a sequence of reads delivered; a failed or empty read delivers none. */
  function Texts(inputs: seq<Option<string>>): seq<string> {
    if inputs == [] then [] else Texts(inputs[..|inputs| - 1]) + TextOf(inputs[|inputs| - 1])
  }

  function TextOf(input: Option<string>): seq<string> {
    if Delivers(input) then [Cut(input.value, BUFFER - 1)] else []
  }

  lemma TextsStep(inputs: seq<Option<string>>, i: nat)
    requires i < |inputs|
    ensures Texts(inputs[..i + 1]) == Texts(inputs[..i]) + TextOf(inputs[i])
  {
    assert inputs[..i + 1][..i] == inputs[..i];
  }

  lemma {:induction false} GoodGrows(inputs: seq<Option<string>>, i: nat)
    requires i <= |inputs|
    ensures Good(Texts(inputs[..i])) <= Good(Texts(inputs))
    decreases |inputs| - i
  {
    assert inputs[..|inputs|] == inputs;
    if i < |inputs| {
      TextsStep(inputs, i);
      GoodGrows(inputs, i + 1);
      var shorter, longer := Texts(inputs[..i]), Texts(inputs[..i + 1]);
      if longer != shorter { assert longer[..|shorter|] == shorter; }
    }
  }

  lemma AfterStep(texts: seq<string>, text: string)
    ensures After(texts + [text]) == NextSaved(After(texts), text)
  {
    assert (texts + [text])[..|texts|] == texts;
  }

  lemma MonotoneStart(ts: seq<Times>, whole: seq<Times>)
    requires ts <= whole && Monotone(whole)
    ensures Monotone(ts)
  {
    forall i | 0 < i < |ts| ensures Follows(ts[i - 1], ts[i]) {
      assert ts[i - 1] == whole[i - 1] && ts[i] == whole[i];
    }
  }

  predicate Delivers(input: Option<string>) {
    input.Some? && input.value != ""
  }

  lemma MonotoneSoFar(inputs: seq<Option<string>>, i: nat)
    requires i <= |inputs| && Monotone(Good(Texts(inputs)))
    ensures Monotone(Good(Texts(inputs[..i])))
  {
    GoodGrows(inputs, i);
    MonotoneStart(Good(Texts(inputs[..i])), Good(Texts(inputs)));
  }

  ghost predicate Percentage(texts: seq<string>, text: string) {
    0.0 <= StatsOf(After(texts), text).usage <= 100.0
  }

  lemma OneText(texts: seq<string>, text: string, longer: seq<string>)
    requires longer == texts + [text] && Monotone(Good(longer))
    ensures Percentage(texts, text) && After(longer) == NextSaved(After(texts), text)
  {
    UsageInRange(texts, text);
    AfterStep(texts, text);
  }

  /** One read in the middle of a run. */
  lemma OneRead(inputs: seq<Option<string>>, i: nat)
    requires i < |inputs| && Monotone(Good(Texts(inputs)))
    ensures var texts := Texts(inputs[..i]);
            if Delivers(inputs[i]) then
              var text := Cut(inputs[i].value, BUFFER - 1);
              Percentage(texts, text) && After(Texts(inputs[..i + 1])) == NextSaved(After(texts), text)
            else After(Texts(inputs[..i + 1])) == After(texts)
  {
    TextsStep(inputs, i);
    MonotoneSoFar(inputs, i + 1);
    if Delivers(inputs[i]) {
      OneText(Texts(inputs[..i]), Cut(inputs[i].value, BUFFER - 1), Texts(inputs[..i + 1]));
    } else {
      assert Texts(inputs[..i]) + [] == Texts(inputs[..i]);
    }
  }

  /** What the i-th call must return: a percentage, computed against the last good sample before it. */
  ghost predicate Reported(isOpen: bool, inputs: seq<Option<string>>, i: nat, r: Option<CpuStats>)
    requires i < |inputs|
  {
    && (r.Some? <==> isOpen && Delivers(inputs[i]))
    && (r.Some? ==> Percentage(Texts(inputs[..i]), Cut(inputs[i].value, BUFFER - 1))
                    && r.value == StatsOf(After(Texts(inputs[..i])), Cut(inputs[i].value, BUFFER - 1)))
  }

  ghost predicate AllReported(isOpen: bool, inputs: seq<Option<string>>, rs: seq<Option<CpuStats>>) {
    |rs| <= |inputs| && forall i | 0 <= i < |rs| :: Reported(isOpen, inputs, i, rs[i])
  }

  lemma OneMore(isOpen: bool, inputs: seq<Option<string>>, rs: seq<Option<CpuStats>>, r: Option<CpuStats>)
    requires AllReported(isOpen, inputs, rs) && |rs| < |inputs| && Reported(isOpen, inputs, |rs|, r)
    ensures AllReported(isOpen, inputs, rs + [r])
  {
    forall i | 0 <= i < |rs + [r]| ensures Reported(isOpen, inputs, i, (rs + [r])[i]) {
      if i < |rs| { assert (rs + [r])[i] == rs[i]; }
    }
  }

  /** The i-th call of a collector that has seen the first i reads. */
  method WatchOne(c: Collector, inputs: seq<Option<string>>, i: nat) returns (r: Option<CpuStats>)
    requires i < |inputs| && Monotone(Good(Texts(inputs)))
    requires c.Valid() && (c.isOpen ==> c.State() == After(Texts(inputs[..i])))
    modifies c, c.buf
    ensures c.Valid() && (c.isOpen ==> c.State() == After(Texts(inputs[..i + 1])))
    ensures Reported(c.isOpen, inputs, i, r)
  {
    OneRead(inputs, i);
    r := c.Collect(inputs[i]);
  }

  /**
   A collector over its whole life: whichever reads fail, are empty or are malformed, every
   usage it reports is a percentage as long as the counters themselves only grow.
   */
  method Watch(isOpen: bool, inputs: seq<Option<string>>) returns (rs: seq<Option<CpuStats>>)
    requires Monotone(Good(Texts(inputs)))
    ensures |rs| == |inputs| && AllReported(isOpen, inputs, rs)
  {
    var c := new Collector(isOpen);
    rs := [];
    for i := 0 to |inputs|
      invariant c.Valid() && fresh(c) && fresh(c.buf) && c.isOpen == isOpen
      invariant isOpen ==> c.State() == After(Texts(inputs[..i]))
      invariant |rs| == i && AllReported(isOpen, inputs, rs)
    {
      var r := WatchOne(c, inputs, i);
      OneMore(isOpen, inputs, rs, r);
      rs := rs + [r];
    }
  }

  // ----- the cpu line -----

  function CpuLine(gaps: seq<nat>, t: Times, rest: string): string
    requires |gaps| == 8
  {
    "cpu " + CpuNumbers(gaps, t, rest)
  }

  function CpuNumbers(gaps: seq<nat>, t: Times, rest: string): string
    requires |gaps| == 8
  {
    PiecesText(Printed(gaps, [t.user, t.nice, t.system, t.idle, t.iowait, t.irq, t.softirq, t.steal]), rest)
  }

  /** The text behind the key, split into the eight numbers and the rest. */
  ghost predicate EightOnOneLine(s: string, t: Times, ps: seq<Piece>, line: string, rest: string) {
    && |ps| == 8 && PiecesOk(ps) && TimesOf(Some(ValuesOf(ps))) == Some(t)
    && s == PiecesText(ps, rest) == line + rest && Digits.Stops(rest) && '\n' !in line
  }

  lemma EightNumbers(next: Reader, s: string, t: Times) returns (ps: seq<Piece>, line: string, rest: string)
    requires IsParseNext(next) && TimesOf(Numbers(next, s, 8)) == Some(t)
    ensures EightOnOneLine(s, t, ps, line, rest)
  {
    ps, line, rest := ReadOnOneLine(next, s, 8);
  }

  lemma SampleAt(text: string) returns (p: nat)
    requires Sample(text).Some?
    ensures p <= |text| && LinePrefix(text, "cpu ") == Some(p)
    ensures Sample(text) == TimesOf(Numbers(NextNumber, text[p..], 8))
  {
    FirstHitExact(text, "cpu ", 0);
    p := LinePrefix(text, "cpu ").value;
  }

  /** The eight numbers stand on the key's own line, as maximal digit runs at least one space apart. */
  lemma CpuFieldsOnOneLine(text: string) returns (p: nat, ps: seq<Piece>, line: string, rest: string)
    requires Sample(text).Some?
    ensures LinePrefix(text, "cpu ") == Some(p) && p <= |text|
    ensures EightOnOneLine(text[p..], Sample(text).value, ps, line, rest)
  {
    p := SampleAt(text);
    ps, line, rest := EightNumbers(NextNumber, text[p..], Sample(text).value);
  }

  predicate InRange(t: Times) {
    && t.user < U64 && t.nice < U64 && t.system < U64 && t.idle < U64
    && t.iowait < U64 && t.irq < U64 && t.softirq < U64 && t.steal < U64
  }

  lemma CpuBody(next: Reader, gaps: seq<nat>, t: Times, rest: string)
    requires IsParseNext(next)
    requires |gaps| == 8 && (forall i | 0 < i < 8 :: gaps[i] > 0) && Digits.Stops(rest) && InRange(t)
    ensures TimesOf(Numbers(next, CpuNumbers(gaps, t, rest), 8)) == Some(t)
  {
    NumbersRoundTrip(next, gaps, [t.user, t.nice, t.system, t.idle, t.iowait, t.irq, t.softirq, t.steal], rest);
  }

  lemma CpuPrefix(before: string, body: string)
    requires (before == "" || before[|before| - 1] == '\n') && forall i: nat :: !Hit(before, "cpu ", i)
    ensures var text := before + ("cpu " + body);
            LinePrefix(text, "cpu ") == Some(|before| + 4) && |before| + 4 <= |text| && text[|before| + 4..] == body
  {
    var line := "cpu " + body;
    assert line[0..4] == "cpu ";
    assert Hit(line, "cpu ", 0);
    PrefixBehind(before, line, "cpu ");
  }

  lemma SampleFrom(text: string, p: nat)
    requires LinePrefix(text, "cpu ") == Some(p) && p <= |text|
    ensures Sample(text) == TimesOf(Numbers(NextNumber, text[p..], 8))
  {
  }

  /** A printed cpu line is read back exactly, behind any lines that do not start with the key. */
  lemma CpuLineRoundTrip(before: string, gaps: seq<nat>, t: Times, rest: string)
    requires (before == "" || before[|before| - 1] == '\n') && forall i: nat :: !Hit(before, "cpu ", i)
    requires |gaps| == 8 && (forall i | 0 < i < 8 :: gaps[i] > 0) && Digits.Stops(rest) && InRange(t)
    ensures Sample(before + CpuLine(gaps, t, rest)) == Some(t)
  {
    CpuBody(NextNumber, gaps, t, rest);
    CpuPrefix(before, CpuNumbers(gaps, t, rest));
    SampleFrom(before + CpuLine(gaps, t, rest), |before| + 4);
  }

  /** The first cpu line of the text shows these counters. */
  ghost predicate ShowsTimes(lines: seq<string>, t: Times) {
    InRange(t) && exists k, gaps, rest :: FirstWith(lines, "cpu ", k) && IsCpuLine(lines[k], gaps, t, rest)
  }

  predicate IsCpuLine(line: string, gaps: seq<nat>, t: Times, rest: string) {
    |gaps| == 8 && (forall i | 0 < i < 8 :: gaps[i] > 0) && Digits.Stops(rest) && line == CpuLine(gaps, t, rest)
  }

  lemma ShownTimes(lines: seq<string>, t: Times)
    requires OneLineEach(lines) && ShowsTimes(lines, t)
    ensures Sample(Unlines(lines)) == Some(t)
  {
    var k, gaps, rest :| FirstWith(lines, "cpu ", k) && IsCpuLine(lines[k], gaps, t, rest);
    var before, after := AroundFirst(lines, "cpu ", k);
    CpuLineTail(gaps, t, rest, "\n" + after);
    assert Digits.Stops(rest + ("\n" + after)) by {
      if rest == "" { assert rest + ("\n" + after) == "\n" + after; }
    }
    CpuLineRoundTrip(before, gaps, t, rest + ("\n" + after));
  }

  lemma CpuLineTail(gaps: seq<nat>, t: Times, rest: string, more: string)
    requires |gaps| == 8
    ensures CpuLine(gaps, t, rest) + more == CpuLine(gaps, t, rest + more)
  {
    var vs := [t.user, t.nice, t.system, t.idle, t.iowait, t.irq, t.softirq, t.steal];
    PiecesTextTail(Printed(gaps, vs), rest, more);
    assert ("cpu " + CpuNumbers(gaps, t, rest)) + more == "cpu " + (CpuNumbers(gaps, t, rest) + more);
  }

  /** A stat text: the eight counters, and each of the three totals behind its own key. */
  ghost predicate Statistics(lines: seq<string>, t: Times, contextSwitches: nat, interrupts: nat, softirqs: nat) {
    && |Unlines(lines)| < BUFFER && OneLineEach(lines) && ShowsTimes(lines, t)
    && Shows(lines, "ctxt ", contextSwitches) && Shows(lines, "intr ", interrupts) && Shows(lines, "softirq ", softirqs)
  }

  lemma StatIsRead(prev: Saved, lines: seq<string>, t: Times, contextSwitches: nat, interrupts: nat, softirqs: nat)
    requires Statistics(lines, t, contextSwitches, interrupts, softirqs)
    ensures var text := Cut(Unlines(lines), BUFFER - 1);
            && StatsOf(prev, text) == CpuStats(Usage(prev, t), contextSwitches, interrupts, softirqs)
            && NextSaved(prev, text) == SavedOf(t)
  {
    ShownTimes(lines, t);
    ShownField(lines, "ctxt ", contextSwitches);
    ShownField(lines, "intr ", interrupts);
    ShownField(lines, "softirq ", softirqs);
  }

  /** A stat text gives what it shows, whatever other lines stand between. */
  method CollectStat(c: Collector, lines: seq<string>, ghost t: Times,
                     ghost contextSwitches: nat, ghost interrupts: nat, ghost softirqs: nat)
    returns (r: Option<CpuStats>)
    requires c.Valid() && c.isOpen && Statistics(lines, t, contextSwitches, interrupts, softirqs)
    modifies c, c.buf
    ensures c.Valid() && c.State() == SavedOf(t)
    ensures r == Some(CpuStats(Usage(old(c.State()), t), contextSwitches, interrupts, softirqs))
  {
    StatIsRead(c.State(), lines, t, contextSwitches, interrupts, softirqs);
    ShownIsNotEmpty(lines, "ctxt ", contextSwitches);
    r := c.Collect(Some(Unlines(lines)));
  }

  lemma TwoSamples(a: string, b: string, x: Times, y: Times) returns (texts: seq<string>)
    requires Sample(a) == Some(x) && Sample(b) == Some(y)
    ensures texts == [a, b] && Good(texts) == [x, y] && BusySum(texts) == BusyDelta(SavedOf(x), y)
  {
    texts := [a, b];
    assert [a, b][..1] == [a] && [a][..0] == [];
    assert Good([a]) == [x] && After([a]) == SavedOf(x) && BusySum([a]) == 0;
  }

  lemma PrintedSample(t: Times) returns (text: string)
    requires InRange(t)
    ensures Sample(text) == Some(t)
  {
    var gaps := seq(8, _ => 1);
    CpuLineRoundTrip("", gaps, t, "\n");
    text := "" + CpuLine(gaps, t, "\n");
  }

  /**
   Every interval that is not kept is lost by an actual run: two printed samples between which
   time was busy, of which the run accounts for nothing.
   */
  lemma LostInterval(x: Times, y: Times) returns (texts: seq<string>)
    requires InRange(x) && InRange(y) && Follows(x, y) && !IntervalKept(x, y)
    ensures Good(texts) == [x, y] && BusySum(texts) == 0 < y.Busy() - x.Busy()
  {
    var a := PrintedSample(x);
    var b := PrintedSample(y);
    texts := TwoSamples(a, b, x, y);
  }
}
