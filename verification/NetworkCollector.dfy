/** NetworkCollector of src/system_metrics.cpp and the descriptors it owns. */
module NetworkCollector {
  import opened Text
  import opened ProcText

  // ----- the operating system as far as the collector sees it -----

  class Os {
    var table: map<int, string>      // open descriptors and the paths behind them
    var files: map<string, string>   // what a read of a path would return now
    var openable: set<string>        // paths whose open would succeed now
    ghost var opens: nat
    ghost var closes: nat

    /** open(2): a descriptor that was not in use, or -1 on a path that cannot be opened now. */
    method Open(path: string) returns (fd: int)
      modifies this`table, this`opens
      ensures fd == -1 || (fd >= 0 && fd !in old(table))
      ensures fd == -1 <==> path !in openable
      ensures table == if fd == -1 then old(table) else old(table)[fd := path]
      ensures opens == old(opens) + if fd == -1 then 0 else 1
    {
      fd := -1;
      if path !in openable { return; }
      var free := 0;
      ghost var left := table.Keys;
      while free in table
        invariant free >= 0 && forall k | k in table && k >= free :: k in left
        decreases left
      {
        left := left - {free};
        free := free + 1;
      }
      fd := free;
      table := table[fd := path];
      opens := opens + 1;
    }

    /** close(2) of a descriptor that is open. */
    method Close(fd: int)
      requires fd in table
      modifies this`table, this`closes
      ensures table == old(table) - {fd} && closes == old(closes) + 1
    {
      table := table - {fd};
      closes := closes + 1;
    }

    /** pread at offset 0 of at most `cap` bytes; None on error. */
    function Read(fd: int, cap: nat): (r: Option<string>)
      reads this
    {
      if fd in table && table[fd] in files
      then Some(Cut(files[table[fd]], cap))
      else None
    }
  }

  // ----- the metrics -----

  datatype NetworkStats = NetworkStats(
    rxPackets: nat, txPackets: nat, rxDropped: nat, txDropped: nat, rxErrors: nat, txErrors: nat, collisions: nat)

  datatype Counter = RxPackets | TxPackets | RxDropped | TxDropped | RxErrors | TxErrors | Collisions

  const NAMES: seq<string> :=
    ["rx_packets", "tx_packets", "rx_dropped", "tx_dropped", "rx_errors", "tx_errors", "collisions"]

  const COUNTERS: seq<Counter> := [RxPackets, TxPackets, RxDropped, TxDropped, RxErrors, TxErrors, Collisions]

  function Get(s: NetworkStats, c: Counter): nat {
    match c
    case RxPackets => s.rxPackets
    case TxPackets => s.txPackets
    case RxDropped => s.rxDropped
    case TxDropped => s.txDropped
    case RxErrors => s.rxErrors
    case TxErrors => s.txErrors
    case Collisions => s.collisions
  }

  function Set(s: NetworkStats, c: Counter, v: nat): (r: NetworkStats)
    ensures Get(r, c) == v
    ensures forall d :: d != c ==> Get(r, d) == Get(s, d)
  {
    match c
    case RxPackets => s.(rxPackets := v)
    case TxPackets => s.(txPackets := v)
    case RxDropped => s.(rxDropped := v)
    case TxDropped => s.(txDropped := v)
    case RxErrors => s.(rxErrors := v)
    case TxErrors => s.(txErrors := v)
    case Collisions => s.(collisions := v)
  }

  /** The number a statistics file shows through a 31-byte read. */
  function NumberOf(content: string): Option<nat> {
    var r := FromChars(Cut(content, 31));
    if r.None? then None else Some(r.value.0)
  }

  datatype MetricEntry = MetricEntry(path: string, fd: int, counter: Counter)

  // ----- entries and descriptors, as values -----

  /** Held descriptors are open, each on the path of its entry, and no two entries share one. */
  ghost predicate Held(es: seq<MetricEntry>, table: map<int, string>) {
    && (forall i | 0 <= i < |es| :: es[i].fd != -1 ==> es[i].fd in table && table[es[i].fd] == es[i].path)
    && (forall i, j | 0 <= i < j < |es| :: es[i].fd != -1 ==> es[i].fd != es[j].fd)
  }

  /** The descriptors the entries hold. */
  ghost function Fds(es: seq<MetricEntry>): set<int> {
    set i | 0 <= i < |es| && es[i].fd != -1 :: es[i].fd
  }

  lemma FdsUpdate(es: seq<MetricEntry>, i: nat, e: MetricEntry)
    requires i < |es|
    requires forall j | 0 <= j < |es| && j != i :: es[j].fd != -1 ==> es[j].fd != es[i].fd
    ensures Fds(es[i := e]) == (Fds(es) - {es[i].fd}) + if e.fd == -1 then {} else {e.fd}
  {
    var es' := es[i := e];
    assert forall j | 0 <= j < |es| && j != i :: es'[j] == es[j];
    assert e.fd != -1 ==> es'[i].fd in Fds(es');
    forall x | x in Fds(es) - {es[i].fd} ensures x in Fds(es') {
      var j :| 0 <= j < |es| && es[j].fd != -1 && es[j].fd == x;
      assert es'[j].fd == x;
    }
  }

  lemma ReleaseFd(es: seq<MetricEntry>, i: nat, table: map<int, string>)
    requires i < |es| && Held(es, table) && es[i].fd != -1
    ensures var es' := es[i := es[i].(fd := -1)];
            var table' := table - {es[i].fd};
            && Held(es', table') && Fds(es') == Fds(es) - {es[i].fd} && |Fds(es')| == |Fds(es)| - 1
            && table' - Fds(es') == table - Fds(es)
  {
    FdsUpdate(es, i, es[i].(fd := -1));
    assert es[i].fd in Fds(es);
  }

  lemma AcquireHeld(es: seq<MetricEntry>, i: nat, e: MetricEntry, table: map<int, string>)
    requires i < |es| && Held(es, table) && e.fd != -1 && e.fd !in table
    ensures Held(es[i := e], table[e.fd := e.path])
  {
  }

  lemma ForeignKept(fds: set<int>, fd: int, path: string, table: map<int, string>)
    requires fd !in table && fds <= table.Keys
    ensures table[fd := path] - (fds + {fd}) == table - fds
  {
  }

  lemma AcquireFd(es: seq<MetricEntry>, i: nat, e: MetricEntry, table: map<int, string>)
    requires i < |es| && Held(es, table) && es[i].fd == -1 && e.fd != -1 && e.fd !in table
    ensures var es' := es[i := e];
            var table' := table[e.fd := e.path];
            && Held(es', table') && |Fds(es')| == |Fds(es)| + 1
            && table' - Fds(es') == table - Fds(es)
  {
    AcquireHeld(es, i, e, table);
    FdsOpen(es, table);
    assert Fds(es[i := e]) == Fds(es) + {e.fd} by { FdsUpdate(es, i, e); }
    ForeignKept(Fds(es), e.fd, e.path, table);
  }

  lemma FdsOpen(es: seq<MetricEntry>, table: map<int, string>)
    requires Held(es, table)
    ensures Fds(es) <= table.Keys && -1 !in Fds(es) && |Fds(es)| <= |es|
  {
    FdsCount(es);
  }

  lemma {:induction false} FdsCount(es: seq<MetricEntry>)
    ensures |Fds(es)| <= |es|
  {
    if es == [] {
      assert Fds(es) == {};
    } else {
      var n := |es| - 1;
      FdsCount(es[..n]);
      var last := if es[n].fd == -1 then {} else {es[n].fd};
      assert Fds(es) == Fds(es[..n]) + last by {
        forall x | x in Fds(es) ensures x in Fds(es[..n]) + last {
          var j :| 0 <= j < |es| && es[j].fd != -1 && es[j].fd == x;
          if j < n { assert es[..n][j].fd == x; }
        }
        forall x | x in Fds(es[..n]) ensures x in Fds(es) {
          var j :| 0 <= j < n && es[..n][j].fd != -1 && es[..n][j].fd == x;
          assert es[j].fd == x;
        }
        if es[n].fd != -1 { assert es[n].fd in Fds(es); }
      }
    }
  }

  lemma RefitEntry(es: seq<MetricEntry>, i: nat, e: MetricEntry, table: map<int, string>)
    requires i < |es| && Held(es, table) && es[i].fd == -1 && e.fd == -1
    ensures Held(es[i := e], table) && Fds(es[i := e]) == Fds(es)
  {
    FdsUpdate(es, i, e);
    assert -1 !in Fds(es);
  }

  // ----- the class -----

  class Collector {
    const os: Os
    const base: string
    var watched: string              // interface_, "" before the first setInterface
    const entries: array<MetricEntry>

    function StatPath(name: string): string
      reads this
    {
      base + "/" + watched + "/statistics" + "/" + name
    }

    ghost function Owned(): set<int>
      reads this, entries
    {
      Fds(entries[..])
    }

    /** The descriptors of everybody else. */
    ghost function Foreign(): map<int, string>
      reads this, os, entries
    {
      os.table - Owned()
    }

    ghost predicate Valid()
      reads this, os, entries
    {
      && entries.Length == 7
      && Held(entries[..], os.table)
      && (watched != "" ==>
            forall i | 0 <= i < 7 :: entries[i].path == StatPath(NAMES[i]) && entries[i].counter == COUNTERS[i])
    }

    constructor (os: Os, base: string)
      ensures Valid() && fresh(entries) && this.os == os && this.base == base
      ensures watched == "" && Owned() == {}
    {
      this.os := os;
      this.base := base;
      watched := "";
      entries := new MetricEntry[7](_ => MetricEntry("", -1, RxPackets));
    }

    method CloseEntry(i: nat)
      requires entries.Length == 7 && i < 7 && Held(entries[..], os.table) && entries[i].fd != -1
      modifies entries, os`table, os`closes
      ensures Held(entries[..], os.table) && Foreign() == old(Foreign())
      ensures os.closes + |Owned()| == old(os.closes + |Owned()|)
      ensures forall k | 0 <= k < 7 :: entries[k] == if k == i then old(entries[k]).(fd := -1) else old(entries[k])
    {
      ghost var es := entries[..];
      ReleaseFd(es, i, os.table);
      os.Close(entries[i].fd);
      entries[i] := entries[i].(fd := -1);
      assert entries[..] == es[i := es[i].(fd := -1)];
    }

    /** Closes every held descriptor, each exactly once, and nothing else. */
    method CloseFds()
      requires Valid()
      modifies entries, os`table, os`closes
      ensures Valid() && Owned() == {}
      ensures os.table == old(Foreign()) && os.closes == old(os.closes) + |old(Owned())|
      ensures forall i | 0 <= i < 7 :: entries[i] == old(entries[i]).(fd := -1)
    {
      for i := 0 to 7
        invariant Held(entries[..], os.table) && Foreign() == old(Foreign())
        invariant forall k | 0 <= k < 7 :: entries[k] == if k < i then old(entries[k]).(fd := -1) else old(entries[k])
        invariant os.closes + |Owned()| == old(os.closes) + |old(Owned())|
      {
        if entries[i].fd != -1 { CloseEntry(i); }
      }
      assert Owned() == {};
    }

    /** One entry of setInterface: an open that fails leaves -1. */
    method OpenEntry(i: nat, path: string)
      requires entries.Length == 7 && i < 7 && Held(entries[..], os.table) && entries[i].fd == -1
      modifies entries, os`table, os`opens
      ensures Held(entries[..], os.table) && Foreign() == old(Foreign())
      ensures os.opens - |Owned()| == old(os.opens - |Owned()|)
      ensures entries[i].path == path && entries[i].counter == COUNTERS[i]
      ensures entries[i].fd == -1 <==> path !in os.openable
      ensures forall k | 0 <= k < 7 && k != i :: entries[k] == old(entries[k])
    {
      ghost var es, table := entries[..], os.table;
      var fd := os.Open(path);
      var e := MetricEntry(path, fd, COUNTERS[i]);
      entries[i] := e;
      assert entries[..] == es[i := e];
      if fd == -1 { RefitEntry(es, i, e, table); } else { AcquireFd(es, i, e, table); }
    }

    /** Points all seven entries at the statistics of `iface`; exactly those that cannot be opened hold -1. */
    method SetInterface(iface: string)
      requires Valid()
      modifies this`watched, entries, os`table, os`opens, os`closes
      ensures Valid() && watched == iface && Foreign() == old(Foreign())
      ensures os.closes == old(os.closes) + |old(Owned())|
      ensures os.opens == old(os.opens) + |Owned()|
      ensures forall i | 0 <= i < 7 :: entries[i].path == StatPath(NAMES[i]) && entries[i].counter == COUNTERS[i]
      ensures forall i | 0 <= i < 7 :: entries[i].fd == -1 <==> StatPath(NAMES[i]) !in os.openable
    {
      CloseFds();
      watched := iface;
      var statsPath := base + "/" + iface + "/statistics";
      for i := 0 to 7
        invariant watched == iface && Held(entries[..], os.table) && Foreign() == old(Foreign())
        invariant os.closes == old(os.closes) + |old(Owned())| && os.opens == old(os.opens) + |Owned()|
        invariant forall k | i <= k < 7 :: entries[k].fd == -1
        invariant forall k | 0 <= k < i :: entries[k].path == StatPath(NAMES[k]) && entries[k].counter == COUNTERS[k]
        invariant forall k | 0 <= k < i :: entries[k].fd == -1 <==> StatPath(NAMES[k]) !in os.openable
      {
        OpenEntry(i, statsPath + "/" + NAMES[i]);
      }
    }

    /** What a read through entry `i` gives now. */
    function Reading(i: nat): Option<nat>
      requires i < entries.Length
      reads this, os, entries
    {
      var content := os.Read(entries[i].fd, 31);
      if entries[i].fd == -1 || content.None? then None
      else
        var r := FromChars(content.value);
        if r.None? then None else Some(r.value.0)
    }

    /** All seven counters, each in its own field, or nothing. */
    method Collect() returns (r: Option<NetworkStats>)
      requires Valid()
      ensures r.Some? <==> watched != "" && forall i | 0 <= i < 7 :: Reading(i).Some?
      ensures r.Some? ==> forall i | 0 <= i < 7 ::
                && StatPath(NAMES[i]) in os.files
                && NumberOf(os.files[StatPath(NAMES[i])]) == Some(Get(r.value, COUNTERS[i]))
    {
      if watched == "" { return None; }
      var metrics := NetworkStats(0, 0, 0, 0, 0, 0, 0);
      for i := 0 to 7
        invariant forall k | 0 <= k < i :: Reading(k) == Some(Get(metrics, COUNTERS[k]))
      {
        ghost var reading := Reading(i);
        if entries[i].fd == -1 { return None; }
        var content := os.Read(entries[i].fd, 31);
        if content.None? || content.value == "" { return None; }
        var v := FromChars(content.value);
        if v.None? { return None; }
        CountersDiffer(i);
        metrics := Set(metrics, entries[i].counter, v.value.0);
      }
      return Some(metrics);
    }

    /** ~NetworkCollector */
    method Destroy()
      requires Valid()
      modifies entries, os`table, os`closes
      ensures os.table == old(Foreign()) && os.closes == old(os.closes) + |old(Owned())|
    {
      CloseFds();
    }
  }

  lemma CountersDiffer(i: nat)
    requires i < 7
    ensures forall k | 0 <= k < i :: COUNTERS[k] != COUNTERS[i]
  {
  }

  // ----- whole sessions -----

  datatype Call =
    | SetInterfaceCall(iface: string)
    | CollectCall
    | FilesChange(files: map<string, string>, openable: set<string>)

  /**
   After any sequence of calls, with opens failing and files changing arbitrarily, the
   collector's open descriptors are those of its entries, pairwise distinct (Valid) and at
   most seven; as many more opens than closes were made as it now owns more descriptors;
   and everybody else's descriptors are as they were.
   */
  method Use(c: Collector, calls: seq<Call>)
    requires c.Valid()
    modifies c`watched, c.entries, c.os
    ensures c.Valid() && |c.Owned()| <= 7 && c.Owned() <= c.os.table.Keys
    ensures c.Foreign() == old(c.Foreign())
    ensures c.os.opens - c.os.closes - |c.Owned()| == old(c.os.opens - c.os.closes - |c.Owned()|)
  {
    for i := 0 to |calls|
      invariant c.Valid() && c.Foreign() == old(c.Foreign())
      invariant c.os.opens - c.os.closes - |c.Owned()| == old(c.os.opens - c.os.closes - |c.Owned()|)
    {
      match calls[i] {
        case SetInterfaceCall(iface) => c.SetInterface(iface);
        case CollectCall => var r := c.Collect();
        case FilesChange(files, openable) => c.os.files, c.os.openable := files, openable;
      }
    }
    FdsOpen(c.entries[..], c.os.table);
  }

  /**
   A collector from construction to destruction: none of its descriptors is left, every
   opened one has been closed exactly once, and nobody else's was touched.
   */
  method Session(os: Os, base: string, calls: seq<Call>)
    modifies os
    ensures os.table == old(os.table)
    ensures os.opens - old(os.opens) == os.closes - old(os.closes)
  {
    var c := new Collector(os, base);
    assert os.table - {} == os.table;
    Use(c, calls);
    c.Destroy();
  }

  // ----- from the files of an interface to its statistics -----

  /** The seven files of `dir` show the seven counters of `v`, each in its own file. */
  ghost predicate Shows(files: map<string, string>, dir: string, v: NetworkStats) {
    && ShowsIn(files, dir + "rx_packets", v.rxPackets) && ShowsIn(files, dir + "tx_packets", v.txPackets)
    && ShowsIn(files, dir + "rx_dropped", v.rxDropped) && ShowsIn(files, dir + "tx_dropped", v.txDropped)
    && ShowsIn(files, dir + "rx_errors", v.rxErrors) && ShowsIn(files, dir + "tx_errors", v.txErrors)
    && ShowsIn(files, dir + "collisions", v.collisions)
  }

  predicate ShowsIn(files: map<string, string>, path: string, v: nat) {
    v < U64 && path in files && files[path] == Decimal(v) + "\n"
  }

  predicate AllOpenable(openable: set<string>, dir: string) {
    && dir + "rx_packets" in openable && dir + "tx_packets" in openable
    && dir + "rx_dropped" in openable && dir + "tx_dropped" in openable
    && dir + "rx_errors" in openable && dir + "tx_errors" in openable
    && dir + "collisions" in openable
  }

  function StatsDir(base: string, iface: string): string {
    base + "/" + iface + "/statistics/"
  }

  lemma PathOf(base: string, iface: string, name: string)
    ensures base + "/" + iface + "/statistics" + "/" + name == StatsDir(base, iface) + name
  {
    assert "/statistics" + "/" == "/statistics/";
    assert base + "/" + iface + "/statistics" + "/" == StatsDir(base, iface);
  }

  lemma ShowsEach(files: map<string, string>, dir: string, v: NetworkStats)
    requires Shows(files, dir, v)
    ensures forall i | 0 <= i < 7 :: ShowsIn(files, dir + NAMES[i], Get(v, COUNTERS[i]))
  {
    assert |NAMES| == 7;
  }

  lemma SameStats(a: NetworkStats, b: NetworkStats)
    requires forall i | 0 <= i < 7 :: Get(a, COUNTERS[i]) == Get(b, COUNTERS[i])
    ensures a == b
  {
    assert COUNTERS[0] == RxPackets && COUNTERS[1] == TxPackets && COUNTERS[2] == RxDropped;
    assert COUNTERS[3] == TxDropped && COUNTERS[4] == RxErrors && COUNTERS[5] == TxErrors;
    assert COUNTERS[6] == Collisions;
  }

  lemma OpenableEach(openable: set<string>, dir: string)
    ensures AllOpenable(openable, dir) <==> forall i | 0 <= i < 7 :: dir + NAMES[i] in openable
  {
    assert |NAMES| == 7;
    if forall i | 0 <= i < 7 :: dir + NAMES[i] in openable {
      assert dir + NAMES[0] in openable && dir + NAMES[1] in openable && dir + NAMES[2] in openable;
      assert dir + NAMES[3] in openable && dir + NAMES[4] in openable && dir + NAMES[5] in openable;
      assert dir + NAMES[6] in openable;
    }
  }

  /**
   Pointing the collector at an interface and collecting: if all seven files can be opened and
   show printed counters, the result is those counters, each in its own field; if one of them
   cannot be opened there is no result.
   */
  method WatchInterface(c: Collector, iface: string, ghost v: NetworkStats) returns (r: Option<NetworkStats>)
    requires c.Valid() && iface != ""
    modifies c`watched, c.entries, c.os`table, c.os`opens, c.os`closes
    ensures c.Valid() && c.watched == iface
    ensures var dir := StatsDir(c.base, iface);
            && (!AllOpenable(c.os.openable, dir) ==> r == None)
            && (AllOpenable(c.os.openable, dir) && Shows(c.os.files, dir, v) ==> r == Some(v))
  {
    c.SetInterface(iface);
    r := c.Collect();
    ghost var dir := StatsDir(c.base, iface);
    StatPaths(c);
    if !AllOpenable(c.os.openable, dir) { RefusedReading(c, dir); }
    if AllOpenable(c.os.openable, dir) && Shows(c.os.files, dir, v) {
      ShownReadings(c, dir, v);
      SameStats(r.value, v);
    }
  }

  lemma StatPaths(c: Collector)
    ensures forall i | 0 <= i < 7 :: c.StatPath(NAMES[i]) == StatsDir(c.base, c.watched) + NAMES[i]
  {
    forall i | 0 <= i < 7 ensures c.StatPath(NAMES[i]) == StatsDir(c.base, c.watched) + NAMES[i] {
      PathOf(c.base, c.watched, NAMES[i]);
    }
  }

  lemma RefusedReading(c: Collector, dir: string)
    requires c.Valid() && !AllOpenable(c.os.openable, dir)
    requires forall i | 0 <= i < 7 :: c.entries[i].fd == -1 <==> dir + NAMES[i] !in c.os.openable
    ensures exists i | 0 <= i < 7 :: c.Reading(i).None?
  {
    OpenableEach(c.os.openable, dir);
    var i :| 0 <= i < 7 && dir + NAMES[i] !in c.os.openable;
    assert c.Reading(i).None?;
  }

  lemma ShownReadings(c: Collector, dir: string, v: NetworkStats)
    requires c.Valid() && AllOpenable(c.os.openable, dir) && Shows(c.os.files, dir, v)
    requires forall i | 0 <= i < 7 :: c.entries[i].path == dir + NAMES[i]
    requires forall i | 0 <= i < 7 :: c.entries[i].fd == -1 <==> dir + NAMES[i] !in c.os.openable
    ensures forall i | 0 <= i < 7 :: c.Reading(i) == Some(Get(v, COUNTERS[i]))
    ensures forall i | 0 <= i < 7 :: NumberOf(c.os.files[dir + NAMES[i]]) == Some(Get(v, COUNTERS[i]))
  {
    OpenableEach(c.os.openable, dir);
    ShowsEach(c.os.files, dir, v);
    forall i | 0 <= i < 7
      ensures c.Reading(i) == Some(Get(v, COUNTERS[i]))
      ensures NumberOf(c.os.files[dir + NAMES[i]]) == Some(Get(v, COUNTERS[i]))
    {
      PrintedCounter(Get(v, COUNTERS[i]));
    }
  }

  // ----- printed counters -----

  lemma Pow10Bounds()
    ensures Pow10(20) > U64 && Pow10(30) > U64
  {
    assert Pow10(5) == 100000;
    assert Pow10(10) == 100000 * Pow10(5);
    assert Pow10(15) == 100000 * Pow10(10);
    assert Pow10(20) == 100000 * Pow10(15);
    assert Pow10(25) == 100000 * Pow10(20);
    assert Pow10(30) == 100000 * Pow10(25);
  }

  /** A numeral longer than the read. */
  lemma LongCounter(v: nat)
    requires |Decimal(v)| > 30
    ensures v >= U64 && Value(Decimal(v)[..31]) >= U64
  {
    Pow10Bounds();
    DecimalLength(v, 20);
    if |Decimal(v)| == 31 {
      assert Decimal(v)[..31] == Decimal(v);
      DecimalValue(v);
    } else {
      DecimalPrefix(v, 31);
    }
  }

  lemma CutCounter(d: string)
    requires Digits.All(d) && |d| > 30 && Value(d[..31]) >= U64
    ensures NumberOf(d + "\n") == None
  {
    var shown := d[..31];
    assert (d + "\n")[..31] == shown && shown + "" == shown;
    SpanOf(Digits, shown, "");
  }

  lemma ShortCounter(v: nat)
    ensures v < U64 ==> |Decimal(v)| <= 20
  {
    Pow10Bounds();
    DecimalLength(v, 20);
  }

  /** Every counter below 2^64 fits the 31-byte read and is read back exactly; every larger one is refused. */
  lemma PrintedCounter(v: nat)
    ensures NumberOf(Decimal(v) + "\n") == if v < U64 then Some(v) else None
    ensures v < U64 ==> |Decimal(v) + "\n"| <= 31
  {
    ShortCounter(v);
    if |Decimal(v)| <= 30 {
      PrintedNumber(v, "\n");
    } else {
      LongCounter(v);
      CutCounter(Decimal(v));
    }
  }
}
