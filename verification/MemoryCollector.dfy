/** MemoryCollector of src/system_metrics.cpp: five fields of /proc/meminfo. */
module MemoryCollector {
  import opened Text
  import opened ProcText
  import opened ProcLines

  datatype MemoryStats = MemoryStats(available: nat, free: nat, swapTotal: nat, swapFree: nat, buffers: nat)

  const BUFFER := 4096

  function StatsOf(text: string): MemoryStats {
    MemoryStats(Field(text, "MemAvailable:"), Field(text, "MemFree:"), Field(text, "SwapTotal:"),
                Field(text, "SwapFree:"), Field(text, "Buffers:"))
  }

  class Collector {
    const isOpen: bool
    const buf: array<char>

    ghost predicate Valid() reads this {
      buf.Length == BUFFER
    }

    constructor (isOpen: bool)
      ensures Valid() && fresh(buf) && this.isOpen == isOpen
    {
      this.isOpen := isOpen;
      buf := new char[BUFFER];
    }

    /** `content` is what the file holds at this moment; None if it cannot be read. */
    method Collect(content: Option<string>) returns (r: Option<MemoryStats>)
      requires Valid()
      modifies buf
      ensures Valid()
      ensures r.Some? <==> isOpen && content.Some? && content.value != ""
      ensures r.Some? ==> r.value == StatsOf(Cut(content.value, BUFFER - 1))
    {
      if !isOpen || content.None? { return None; }
      var n := Pread(content.value, buf, BUFFER - 1);
      if n == 0 { return None; }
      assert buf[..n] == Cut(content.value, BUFFER - 1);
      var available := ReadField(buf, n, "MemAvailable:");
      var free := ReadField(buf, n, "MemFree:");
      var swapTotal := ReadField(buf, n, "SwapTotal:");
      var swapFree := ReadField(buf, n, "SwapFree:");
      var buffers := ReadField(buf, n, "Buffers:");
      return Some(MemoryStats(available, free, swapTotal, swapFree, buffers));
    }
  }

  // ----- the order of the lines does not matter -----

  const KEYS := ["MemAvailable:", "MemFree:", "SwapTotal:", "SwapFree:", "Buffers:"]

  lemma FieldPermuted(lines: seq<string>, other: seq<string>, key: string)
    requires multiset(lines) == multiset(other) && Unambiguous(lines, key) && KeyOk(key)
    requires OneLineEach(lines)
    ensures Field(Unlines(lines), key) == Field(Unlines(other), key)
  {
    forall i | 0 <= i < |other| ensures '\n' !in other[i] {
      assert other[i] in multiset(other);
      assert other[i] in lines;
    }
    FieldOfLines(lines, key);
    FieldOfLines(other, key);
    FieldInPermuted(lines, other, key);
  }

  lemma RemoveOne(lines: seq<string>, other: seq<string>, k: nat)
    requires lines != [] && k < |other| && other[k] == lines[0] && multiset(lines) == multiset(other)
    ensures multiset(lines[1..]) == multiset(other[..k] + other[k + 1..])
  {
    var x := multiset{lines[0]};
    assert lines == [lines[0]] + lines[1..];
    assert other == other[..k] + [other[k]] + other[k + 1..];
    assert multiset(lines[1..]) == multiset(lines) - x;
    assert multiset(other[..k] + other[k + 1..]) == multiset(other) - x;
  }

  lemma {:induction false} UnlinesLength(lines: seq<string>, other: seq<string>)
    requires multiset(lines) == multiset(other)
    ensures |Unlines(lines)| == |Unlines(other)|
  {
    if lines == [] {
      assert |other| == |multiset(other)| == 0;
    } else {
      assert lines[0] in multiset(other);
      var k :| 0 <= k < |other| && other[k] == lines[0];
      RemoveOne(lines, other, k);
      UnlinesLength(lines[1..], other[..k] + other[k + 1..]);
      UnlinesWithout(other, k);
    }
  }

  lemma {:induction false} UnlinesWithout(lines: seq<string>, k: nat)
    requires k < |lines|
    ensures |Unlines(lines)| == |Unlines(lines[..k] + lines[k + 1..])| + |lines[k]| + 1
  {
    if k == 0 {
      assert lines[..0] + lines[1..] == lines[1..];
    } else {
      var rest := lines[..k] + lines[k + 1..];
      assert rest[1..] == lines[1..][..k - 1] + lines[1..][k..];
      UnlinesWithout(lines[1..], k - 1);
    }
  }

  /** Permuting the lines of a meminfo text that fits the buffer changes nothing. */
  lemma PermutedMeminfo(lines: seq<string>, other: seq<string>)
    requires multiset(lines) == multiset(other) && |Unlines(lines)| < BUFFER
    requires OneLineEach(lines)
    requires forall key | key in KEYS :: Unambiguous(lines, key)
    ensures StatsOf(Cut(Unlines(lines), BUFFER - 1)) == StatsOf(Cut(Unlines(other), BUFFER - 1))
  {
    UnlinesLength(lines, other);
    forall key | key in KEYS ensures Field(Unlines(lines), key) == Field(Unlines(other), key) {
      KeysOk(key);
      FieldPermuted(lines, other, key);
    }
    assert KEYS[0] in KEYS && KEYS[1] in KEYS && KEYS[2] in KEYS && KEYS[3] in KEYS && KEYS[4] in KEYS;
  }

  lemma KeysOk(key: string)
    requires key in KEYS
    ensures KeyOk(key)
  {
  }

  // ----- printed meminfo texts -----

  /** Each of the five values stands behind its own key. */
  ghost predicate Meminfo(lines: seq<string>, v: MemoryStats) {
    && |Unlines(lines)| < BUFFER && OneLineEach(lines)
    && Shows(lines, "MemAvailable:", v.available) && Shows(lines, "MemFree:", v.free)
    && Shows(lines, "SwapTotal:", v.swapTotal) && Shows(lines, "SwapFree:", v.swapFree)
    && Shows(lines, "Buffers:", v.buffers)
  }

  lemma MeminfoIsRead(lines: seq<string>, v: MemoryStats)
    requires Meminfo(lines, v)
    ensures StatsOf(Cut(Unlines(lines), BUFFER - 1)) == v
  {
    ShownField(lines, "MemAvailable:", v.available);
    ShownField(lines, "MemFree:", v.free);
    ShownField(lines, "SwapTotal:", v.swapTotal);
    ShownField(lines, "SwapFree:", v.swapFree);
    ShownField(lines, "Buffers:", v.buffers);
  }

  /** A meminfo text gives the five values it shows, whatever other lines stand between them. */
  method CollectMeminfo(c: Collector, lines: seq<string>, ghost v: MemoryStats) returns (r: Option<MemoryStats>)
    requires c.Valid() && c.isOpen && Meminfo(lines, v)
    modifies c.buf
    ensures c.Valid() && r == Some(v)
  {
    MeminfoIsRead(lines, v);
    ShownIsNotEmpty(lines, "MemFree:", v.free);
    r := c.Collect(Some(Unlines(lines)));
  }
}
