/** Every field of a snapshot, said of the key/value entries of arbitrary texts. */
module TopologyFields {
  import opened Text
  import opened Topology
  import P = TopologyPorts
  import R = TopologyRoundTrip

  /** The last entry a data set can use for a field. */
  function LastWhere(es: seq<KeyValue>, use: KeyValue -> bool): Option<KeyValue> {
    if es == [] then None
    else if use(es[|es| - 1]) then Some(es[|es| - 1])
    else LastWhere(es[..|es| - 1], use)
  }

  /** Entry `k` is usable and no later one is. */
  predicate IsLast(es: seq<KeyValue>, use: KeyValue -> bool, k: int) {
    0 <= k < |es| && use(es[k]) && forall j | k < j < |es| :: !use(es[j])
  }

  lemma {:induction false} LastWhereExact(es: seq<KeyValue>, use: KeyValue -> bool)
    ensures match LastWhere(es, use)
            case Some(e) => exists k :: IsLast(es, use, k) && es[k] == e
            case None => forall k | 0 <= k < |es| :: !use(es[k])
  {
    if es != [] {
      var n := |es| - 1;
      if use(es[n]) {
        assert IsLast(es, use, n);
      } else {
        LastWhereExact(es[..n], use);
        if LastWhere(es[..n], use).Some? {
          var k :| IsLast(es[..n], use, k) && es[..n][k] == LastWhere(es[..n], use).value;
          assert IsLast(es, use, k) by { assert forall j | k < j < n :: es[..n][j] == es[j]; }
        }
      }
    }
  }

  // ----- which entries each field uses -----

  predicate Local(e: KeyValue) { e.key == "clockIdentity" }

  predicate Parent(e: KeyValue) { e.key == "parentPortIdentity" }

  /** A parent identity that carries a readable port number. */
  predicate NumberedParent(e: KeyValue) {
    e.key == "parentPortIdentity" && ParsePortNumber(FirstToken(e.value)).Some?
  }

  predicate Grandmaster(e: KeyValue) { e.key == "grandmasterIdentity" }

  function Steps(round: Rounding): KeyValue -> bool {
    (e: KeyValue) => e.key == "stepsRemoved" && ParseNanoseconds(round, e.value).Some?
  }

  function Delay(round: Rounding): KeyValue -> bool {
    (e: KeyValue) => e.key == "meanPathDelay" && ParseNanoseconds(round, e.value).Some?
  }

  /** The token of the entry, or "" without one. */
  function TokenOf(e: Option<KeyValue>): string {
    if e.Some? then FirstToken(e.value.value) else ""
  }

  function ParentNumber(e: Option<KeyValue>): int {
    if e.Some? then Or(ParsePortNumber(FirstToken(e.value.value)), 0) else 0
  }

  function Nanoseconds(round: Rounding, e: Option<KeyValue>): int {
    if e.Some? then Or(ParseNanoseconds(round, e.value.value), 0) else 0
  }

  // ----- the four folds -----

  lemma {:induction false} DefaultFields(round: Rounding, es: seq<KeyValue>)
    ensures Fold(DefaultSet, round, EMPTY, es)
         == EMPTY.(snapshot := EMPTY.snapshot.(local := TokenOf(LastWhere(es, Local))))
  {
    if es != [] { DefaultFields(round, es[..|es| - 1]); }
  }

  /** The snapshot with the fields that the parent data set's usable entries give. */
  function WithParent(s0: Snapshot, parent: Option<KeyValue>, numbered: Option<KeyValue>,
                      grandmaster: Option<KeyValue>): Snapshot
  {
    s0.(parent := ParseClockIdentity(TokenOf(parent)), parentPort := ParentNumber(numbered),
        grandmaster := TokenOf(grandmaster))
  }

  function WithCurrent(round: Rounding, s0: Snapshot, steps: Option<KeyValue>, delay: Option<KeyValue>): Snapshot {
    s0.(steps := ToInt32(Nanoseconds(round, steps)), delay := Nanoseconds(round, delay))
  }

  /** The later entry, if it can be used. */
  function Later(e: KeyValue, use: KeyValue -> bool, before: Option<KeyValue>): Option<KeyValue> {
    if use(e) then Some(e) else before
  }

  lemma LastOfSnoc(es: seq<KeyValue>, e: KeyValue, use: KeyValue -> bool)
    ensures LastWhere(es + [e], use) == Later(e, use, LastWhere(es, use))
  {
    assert (es + [e])[..|es|] == es;
  }

  lemma ParentStep(round: Rounding, s0: Snapshot, a: Option<KeyValue>, b: Option<KeyValue>, c: Option<KeyValue>,
                   e: KeyValue)
    ensures Apply(ParentSet, round, Progress(WithParent(s0, a, b, c), None), e)
         == Progress(WithParent(s0, Later(e, Parent, a), Later(e, NumberedParent, b), Later(e, Grandmaster, c)), None)
  {
  }

  lemma CurrentStep(round: Rounding, s0: Snapshot, a: Option<KeyValue>, b: Option<KeyValue>, e: KeyValue)
    ensures Apply(CurrentSet, round, Progress(WithCurrent(round, s0, a, b), None), e)
         == Progress(WithCurrent(round, s0, Later(e, Steps(round), a), Later(e, Delay(round), b)), None)
  {
  }

  lemma NoParent(s0: Snapshot)
    requires s0.parent == "" && s0.parentPort == 0 && s0.grandmaster == ""
    ensures WithParent(s0, None, None, None) == s0
  {
    assert ParseClockIdentity("") == "";
  }

  lemma {:induction false} ParentFields(round: Rounding, s0: Snapshot, es: seq<KeyValue>)
    requires WithParent(s0, None, None, None) == s0
    ensures Fold(ParentSet, round, Progress(s0, None), es)
         == Progress(WithParent(s0, LastWhere(es, Parent), LastWhere(es, NumberedParent),
                                LastWhere(es, Grandmaster)), None)
  {
    if es != [] {
      var before, e := es[..|es| - 1], es[|es| - 1];
      assert es == before + [e];
      ParentFields(round, s0, before);
      R.FoldOne(ParentSet, round, Progress(s0, None), before, e);
      LastOfSnoc(before, e, Parent);
      LastOfSnoc(before, e, NumberedParent);
      LastOfSnoc(before, e, Grandmaster);
      ParentStep(round, s0, LastWhere(before, Parent), LastWhere(before, NumberedParent),
        LastWhere(before, Grandmaster), e);
    }
  }

  lemma {:induction false} CurrentFields(round: Rounding, s0: Snapshot, es: seq<KeyValue>)
    requires s0.steps == 0 && s0.delay == 0
    ensures Fold(CurrentSet, round, Progress(s0, None), es)
         == Progress(WithCurrent(round, s0, LastWhere(es, Steps(round)), LastWhere(es, Delay(round))), None)
  {
    if es != [] {
      var before, e := es[..|es| - 1], es[|es| - 1];
      assert es == before + [e];
      CurrentFields(round, s0, before);
      R.FoldOne(CurrentSet, round, Progress(s0, None), before, e);
      LastOfSnoc(before, e, Steps(round));
      LastOfSnoc(before, e, Delay(round));
      CurrentStep(round, s0, LastWhere(before, Steps(round)), LastWhere(before, Delay(round)), e);
    }
  }

  lemma {:induction false} PortsOnly(round: Rounding, s0: Snapshot, es: seq<KeyValue>)
    ensures var s := Fold(PortSet, round, Progress(s0, None), es).snapshot;
            s == s0.(ports := s.ports)
  {
    if es != [] { PortsOnly(round, s0, es[..|es| - 1]); }
  }

  // ----- the whole parser -----

  /** The six fields that the first three data sets fill. */
  predicate FieldsOf(round: Rounding, ds: seq<KeyValue>, ps: seq<KeyValue>, cs: seq<KeyValue>, s: Snapshot) {
    && s.local == TokenOf(LastWhere(ds, Local))
    && s.parent == ParseClockIdentity(TokenOf(LastWhere(ps, Parent)))
    && s.parentPort == ParentNumber(LastWhere(ps, NumberedParent))
    && s.grandmaster == TokenOf(LastWhere(ps, Grandmaster))
    && s.steps == ToInt32(Nanoseconds(round, LastWhere(cs, Steps(round))))
    && s.delay == Nanoseconds(round, LastWhere(cs, Delay(round)))
  }

  /** Every field of a snapshot, said of the entries of the four texts. */
  ghost predicate SnapshotOf(round: Rounding, defaults: string, parent: string, current: string, ports: string,
                             s: Snapshot)
  {
    var es := Entries(Lines(ports));
    && FieldsOf(round, Entries(Lines(defaults)), Entries(Lines(parent)), Entries(Lines(current)), s)
    && |s.ports| == |P.Starts(es)| && (forall j | 0 <= j < |s.ports| :: s.ports[j] == P.PortOf(es, j))
    && s.child == FirstSlave(s.ports)
  }

  /** The text names the local clock: its last clockIdentity entry has a first token. */
  ghost predicate NamesClock(defaults: string) {
    var es := Entries(Lines(defaults));
    exists k :: IsLast(es, Local, k) && FirstToken(es[k].value) != ""
  }

  lemma LocalToken(defaults: string)
    ensures TokenOf(LastWhere(Entries(Lines(defaults)), Local)) != "" <==> NamesClock(defaults)
  {
    var es := Entries(Lines(defaults));
    LastWhereExact(es, Local);
    LastIsUnique(es, Local);
  }

  lemma LastIsUnique(es: seq<KeyValue>, use: KeyValue -> bool)
    ensures forall j, k | IsLast(es, use, j) && IsLast(es, use, k) :: j == k
  {
  }

  lemma FoldedFields(round: Rounding, defaults: string, parent: string, current: string, ports: string)
    ensures FieldsOf(round, Entries(Lines(defaults)), Entries(Lines(parent)), Entries(Lines(current)),
                     AllSets(round, defaults, parent, current, ports).snapshot)
  {
    var p1 := FoldText(DefaultSet, round, EMPTY, defaults);
    var p2 := FoldText(ParentSet, round, p1, parent);
    var p3 := FoldText(CurrentSet, round, p2, current);
    DefaultFields(round, Entries(Lines(defaults)));
    NoParent(p1.snapshot);
    ParentFields(round, p1.snapshot, Entries(Lines(parent)));
    CurrentFields(round, p2.snapshot, Entries(Lines(current)));
    PortsOnly(round, p3.snapshot, Entries(Lines(ports)));
  }

  /** For arbitrary texts: there is a snapshot exactly if the default text names the local clock. */
  lemma SnapshotExists(round: Rounding, defaults: string, parent: string, current: string, ports: string)
    ensures Snap(round, defaults, parent, current, ports).Some? <==> NamesClock(defaults)
  {
    FoldedFields(round, defaults, parent, current, ports);
    LocalToken(defaults);
  }

  /** For arbitrary texts: each field comes from the last entry that can be used for it. */
  lemma SnapshotFields(round: Rounding, defaults: string, parent: string, current: string, ports: string)
    requires Snap(round, defaults, parent, current, ports).Some?
    ensures SnapshotOf(round, defaults, parent, current, ports, Snap(round, defaults, parent, current, ports).value)
  {
    FoldedFields(round, defaults, parent, current, ports);
    P.SnapshotPorts(round, defaults, parent, current, ports);
  }

  /** A default text without entries of its own, such as an echoed command alone, gives no snapshot. */
  lemma NoiseGivesNothing(round: Rounding, rows: seq<R.Row>, parent: string, current: string, ports: string)
    requires R.RowsOk(DefaultSet, rows) && forall i | 0 <= i < |rows| :: rows[i].Noise?
    ensures Snap(round, R.Unlines(rows), parent, current, ports) == None
  {
    R.RowsFold(DefaultSet, round, EMPTY, rows);
    NoData(rows);
    DefaultFields(round, Entries(Lines(R.Unlines(rows))));
    FoldedFields(round, R.Unlines(rows), parent, current, ports);
  }

  lemma {:induction false} NoData(rows: seq<R.Row>)
    requires forall i | 0 <= i < |rows| :: rows[i].Noise?
    ensures R.Data(rows) == []
  {
    if rows != [] { NoData(rows[..|rows| - 1]); }
  }

  /** Of every value only the first token counts. */
  lemma OnlyTheFirstToken(d: DataSet, round: Rounding, p: Progress, key: string, value: string)
    ensures Apply(d, round, p, KeyValue(key, value)) == Apply(d, round, p, KeyValue(key, FirstToken(value)))
  {
    var u := Drop(Blank, value);
    SpanExact(NonBlank, u);
    P.TokenOf(FirstToken(value));
  }
}
