/** CpuCollector of src/system_metrics.cpp: /proc/stat samples and the load between two of them. */
module CpuCollector {
  import opened Text
  import opened ProcText

  /** The eight counters of the `cpu` line. */
  datatype Times = Times(
    user: nat, nice: nat, system: nat, idle: nat, iowait: nat, irq: nat, softirq: nat, steal: nat)
  {
    /** The exact sums; the C++ code computes them modulo 2^64. */
    function Idle(): nat { idle + iowait }
    function Total(): nat { user + nice + system + idle + iowait + irq + softirq + steal }
    function Busy(): nat { user + nice + system + irq + softirq + steal }

    predicate AtMost(t: Times) {
      && user <= t.user && nice <= t.nice && system <= t.system && idle <= t.idle
      && iowait <= t.iowait && irq <= t.irq && softirq <= t.softirq && steal <= t.steal
    }
  }

  datatype CpuStats = CpuStats(usage: real, contextSwitches: nat, interrupts: nat, softirqs: nat)

  /** prevIdle_ and prevTotal_; total 0 stands for "no sample yet". */
  datatype Saved = Saved(idle: nat, total: nat)

  const NO_SAMPLE := Saved(0, 0)
  const BUFFER := 16384

  // ----- specification -----

  /** The counters of the first `cpu ` line, None if it is missing or malformed. */
  function Sample(text: string): Option<Times> {
    var p := LinePrefix(text, "cpu ");
    if p.None? then None
    else
      FirstHitExact(text, "cpu ", 0);
      TimesOf(Numbers(NextNumber, text[p.value..], 8))
  }

  function TimesOf(v: Option<seq<nat>>): Option<Times>
    requires v.Some? ==> |v.value| == 8
  {
    if v.None? then None
    else
      var n := v.value;
      Some(Times(n[0], n[1], n[2], n[3], n[4], n[5], n[6], n[7]))
  }

  function Wrap(n: int): nat { n % U64 }

  function SavedOf(t: Times): Saved {
    Saved(Wrap(t.Idle()), Wrap(t.Total()))
  }

  function TotalDelta(prev: Saved, t: Times): nat { Wrap(Wrap(t.Total()) - prev.total) }

  function IdleDelta(prev: Saved, t: Times): nat { Wrap(Wrap(t.Idle()) - prev.idle) }

  /** The busy percentage of an interval with these deltas, as an exact number. */
  function Share(idle: nat, total: nat): real
    requires total > 0
  {
    100.0 * (1.0 - idle as real / total as real)
  }

  /** usage_percent */
  function Usage(prev: Saved, t: Times): real {
    if prev.total > 0 && TotalDelta(prev, t) > 0 then Share(IdleDelta(prev, t), TotalDelta(prev, t)) else 0.0
  }

  function NextSaved(prev: Saved, text: string): Saved {
    var t := Sample(text);
    if t.Some? then SavedOf(t.value) else prev
  }

  function StatsOf(prev: Saved, text: string): CpuStats {
    var t := Sample(text);
    CpuStats(if t.Some? then Usage(prev, t.value) else 0.0,
             Field(text, "ctxt "), Field(text, "intr "), Field(text, "softirq "))
  }

  // ----- the class -----

  function Prepend(done: seq<nat>, others: Option<seq<nat>>): Option<seq<nat>> {
    if others.None? then None else Some(done + others.value)
  }

  /** How the n numbers still to be read complete those already read. */
  lemma Advance(next: Reader, all: Option<seq<nat>>, done: seq<nat>, rest: string, n: nat)
    requires n > 0 && all == Prepend(done, Numbers(next, rest, n))
    ensures match next(rest)
            case None => all == None
            case Some((v, rest')) => all == Prepend(done + [v], Numbers(next, rest', n - 1))
  {
    match next(rest)
    case None =>
    case Some((v, rest')) =>
      NumbersCons(next, rest, v, rest', n - 1);
      var others := Numbers(next, rest', n - 1);
      if others.Some? { assert done + ([v] + others.value) == (done + [v]) + others.value; }
  }

  /** One more of the eight parseNext calls. */
  method NextField(buf: array<char>, p: nat, end: nat,
                   ghost next: Reader, ghost all: Option<seq<nat>>, ghost done: seq<nat>, ghost n: nat)
    returns (ok: bool, p': nat, v: nat)
    requires p <= end <= buf.Length && n > 0 && IsParseNext(next)
    requires all == Prepend(done, Numbers(next, buf[p..end], n))
    ensures p <= p' <= end && v < U64
    ensures if ok then all == Prepend(done + [v], Numbers(next, buf[p'..end], n - 1)) else all == None
  {
    Advance(next, all, done, buf[p..end], n);
    ok, p', v := ParseNext(buf, p, end, 0);
  }

  /** Four of them in a row. */
  method FourFields(buf: array<char>, p: nat, end: nat,
                    ghost next: Reader, ghost all: Option<seq<nat>>, ghost done: seq<nat>, ghost n: nat)
    returns (ok: bool, p': nat, a: nat, b: nat, c: nat, d: nat)
    requires p <= end <= buf.Length && n >= 4 && IsParseNext(next)
    requires all == Prepend(done, Numbers(next, buf[p..end], n))
    ensures p <= p' <= end
    ensures if ok then all == Prepend(done + [a] + [b] + [c] + [d], Numbers(next, buf[p'..end], n - 4)) else all == None
  {
    b, c, d := 0, 0, 0;
    ok, p', a := NextField(buf, p, end, next, all, done, n);
    if !ok { return; }
    ok, p', b := NextField(buf, p', end, next, all, done + [a], n - 1);
    if !ok { return; }
    ok, p', c := NextField(buf, p', end, next, all, done + [a] + [b], n - 2);
    if !ok { return; }
    ok, p', d := NextField(buf, p', end, next, all, done + [a] + [b] + [c], n - 3);
  }

  method ParseTimes(buf: array<char>, start: nat, end: nat, ghost next: Reader) returns (t: Option<Times>)
    requires start <= end <= buf.Length && IsParseNext(next)
    ensures t == TimesOf(Numbers(next, buf[start..end], 8))
  {
    ghost var all := Numbers(next, buf[start..end], 8);
    assert all == Prepend([], all) by { if all.Some? { assert [] + all.value == all.value; } }
    var ok, p, user, nice, system, idle := FourFields(buf, start, end, next, all, [], 8);
    if !ok { return None; }
    ghost var done := [] + [user] + [nice] + [system] + [idle];
    var iowait, irq, softirq, steal;
    ok, p, iowait, irq, softirq, steal := FourFields(buf, p, end, next, all, done, 4);
    if !ok { return None; }
    return Some(Times(user, nice, system, idle, iowait, irq, softirq, steal));
  }

  class Collector {
    const isOpen: bool
    var prevIdle: nat
    var prevTotal: nat
    const buf: array<char>

    ghost predicate Valid() reads this {
      buf.Length == BUFFER && prevIdle < U64 && prevTotal < U64
    }

    ghost function State(): Saved reads this {
      Saved(prevIdle, prevTotal)
    }

    constructor (isOpen: bool)
      ensures Valid() && fresh(buf) && State() == NO_SAMPLE && this.isOpen == isOpen
    {
      this.isOpen := isOpen;
      prevIdle, prevTotal := 0, 0;
      buf := new char[BUFFER];
    }

    /** `content` is what the file holds at this moment; None if it cannot be read. */
    method Collect(content: Option<string>) returns (r: Option<CpuStats>)
      requires Valid()
      modifies this, buf
      ensures Valid()
      ensures r.Some? <==> isOpen && content.Some? && content.value != ""
      ensures r.Some? ==> r.value == StatsOf(old(State()), Cut(content.value, BUFFER - 1))
      ensures State() == if r.Some? then NextSaved(old(State()), Cut(content.value, BUFFER - 1)) else old(State())
    {
      if !isOpen || content.None? { return None; }
      var n := Pread(content.value, buf, BUFFER - 1);
      if n == 0 { return None; }
      ghost var text := buf[..n];
      assert text == Cut(content.value, BUFFER - 1);

      var usage := 0.0;
      var p := FindLinePrefix(buf, n, "cpu ");
      FirstHitExact(text, "cpu ", 0);
      if p.Some? {
        assert text[p.value..] == buf[p.value..n];
        var t := ParseTimes(buf, p.value, n, NextNumber);
        if t.Some? {
          usage := Account(t.value);
        }
      }
      var ctxt := ReadField(buf, n, "ctxt ");
      var intr := ReadField(buf, n, "intr ");
      var softirq := ReadField(buf, n, "softirq ");
      return Some(CpuStats(usage, ctxt, intr, softirq));
    }

    /** The usage since the last good sample; the new sample replaces the saved one. */
    method Account(t: Times) returns (usage: real)
      requires Valid()
      modifies this
      ensures Valid() && State() == SavedOf(t) && usage == Usage(old(State()), t)
    {
      usage := 0.0;
      var idleTime := Wrap(t.idle + t.iowait);
      var totalTime := Wrap(t.user + t.nice + t.system + t.idle + t.iowait + t.irq + t.softirq + t.steal);
      if prevTotal > 0 {
        var totalDelta := Wrap(totalTime - prevTotal);
        var idleDelta := Wrap(idleTime - prevIdle);
        if totalDelta > 0 {
          usage := Share(idleDelta, totalDelta);
        }
      }
      prevIdle := idleTime;
      prevTotal := totalTime;
    }
  }
}
