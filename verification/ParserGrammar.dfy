/** Exactly which messages each parser accepts, and with which fields, for all messages. */
module ParserGrammar {
  import opened Text
  import opened Scanf
  import opened ScanfGrammar
  import opened LogParsers
  import M = MetricsSuffix

  /** One sscanf into a fresh struct. */
  lemma FreshScan(msg: string, f: Format)
    ensures var r := Sscanf(msg, f, map[]);
            && (r.count == Assigns(f) <==> Spelled(f, CStr(msg)))
            && (r.count == Assigns(f) ==> Spells(f, CStr(msg), r))
            && forall own :: Spells(f, CStr(msg), own) ==> r == own
  {
    AcceptsWhatIsSpelled(f, CStr(msg));
  }

  // ----- how many variables the formats have -----

  lemma SpacedAssigns(word: string, f: Format)
    ensures Assigns(Spaced(word, f)) == Assigns(f)
    ensures forall t :: Assigned(Spaced(word, f), t) <==> Assigned(f, t)
  {
    assert Assigns(Then(Lit(word), f)) == Assigns(f);
    assert forall t :: Assigned(Then(Lit(word), f), t) <==> Assigned(f, t);
  }

  lemma KeyedAssigns(key: string, t: Target, f: Format)
    ensures Assigns(Keyed(key, Some(t), f)) == Assigns(f) + 1
  {
    assert Assigns(Then(Dec(Some(t)), f)) == Assigns(f) + 1;
    assert Assigns(Then(Space, Then(Dec(Some(t)), f))) == Assigns(f) + 1;
    assert Assigns(Then(Lit(key), Then(Space, Then(Dec(Some(t)), f)))) == Assigns(f) + 1;
  }

  lemma StampedAssigns(f: Format)
    ensures Assigns(Stamped(f)) == Assigns(f) + 1
    ensures forall t :: Assigned(f, t) ==> Assigned(Stamped(f), t)
  {
    var close := Then(Lit("]"), f);
    assert Assigns(close) == Assigns(f);
    assert forall t :: Assigned(f, t) ==> Assigned(close, t) && Assigned(Then(Float(Some(Timestamp)), close), t);
    assert Assigns(Then(Float(Some(Timestamp)), close)) == Assigns(f) + 1;
  }

  lemma WordAssigns(width: Option<nat>, t: Target, f: Format)
    ensures Assigns(Then(Space, Then(Word(width, Some(t)), f))) == Assigns(f) + 1
    ensures Assigned(Then(Space, Then(Word(width, Some(t)), f)), t)
  {
    assert Assigns(Then(Word(width, Some(t)), f)) == Assigns(f) + 1;
    assert Assigned(Then(Word(width, Some(t)), f), t);
  }

  lemma PortPrefixAssigns(f: Format)
    ensures Assigns(PortPrefix(f)) == Assigns(f) + 3
  {
    var f3 := Then(Until(127, ')', Some(PortName)), Then(Lit("):"), f));
    assert Assigns(f3) == Assigns(f) + 1 by { assert Assigns(Then(Lit("):"), f)) == Assigns(f); }
    SpacedAssigns("(", f3);
    KeyedAssigns("port", PortNumber, Spaced("(", f3));
    StampedAssigns(Keyed("port", Some(PortNumber), Spaced("(", f3)));
  }

  lemma TransitionAssigns()
    ensures Assigns(TransitionFields()) == 3
  {
    var f6 := Then(Space, Then(Until(127, '\n', Some(Trigger)), End));
    assert Assigns(f6) == 1 by { assert Assigns(Then(Until(127, '\n', Some(Trigger)), End)) == 1; }
    var f4 := Then(Space, Then(Word(Some(63), Some(ToState)), Spaced("on", f6)));
    SpacedAssigns("on", f6);
    WordAssigns(Some(63), ToState, Spaced("on", f6));
    SpacedAssigns("to", f4);
    WordAssigns(Some(63), FromState, Spaced("to", f4));
  }

  lemma ForeignAssigns()
    ensures Assigns(ForeignFields()) == 2
  {
    var f6 := Then(Dec(Some(MasterPort)), End);
    var f4 := Then(Until(63, '-', Some(ClockIdentity)), Then(Lit("-"), f6));
    assert Assigns(f6) == 1 && Assigns(Then(Lit("-"), f6)) == 1 && Assigns(f4) == 2;
    assert Assigns(Then(Space, f4)) == 2;
    SpacedAssigns("master", Then(Space, f4));
    SpacedAssigns("foreign", Spaced("master", Then(Space, f4)));
    SpacedAssigns("new", Spaced("foreign", Spaced("master", Then(Space, f4))));
  }

  lemma BestAssigns()
    ensures Assigns(Stamped(BestFields())) == 2
  {
    var f := IdentityWord(End);
    WordAssigns(Some(63), ClockIdentity, End);
    SpacedAssigns("clock", f);
    SpacedAssigns("master", Spaced("clock", f));
    SpacedAssigns("best", Spaced("master", Spaced("clock", f)));
    SpacedAssigns("selected", Spaced("best", Spaced("master", Spaced("clock", f))));
    StampedAssigns(BestFields());
  }

  lemma LocalAssigns()
    ensures Assigns(Stamped(LocalFields())) == 2 && Assigned(Stamped(LocalFields()), ClockIdentity)
  {
    var tail := Spaced("as", Spaced("best", Spaced("master", End)));
    var f := IdentityWord(tail);
    SpacedAssigns("master", End);
    SpacedAssigns("best", Spaced("master", End));
    SpacedAssigns("as", Spaced("best", Spaced("master", End)));
    WordAssigns(Some(63), ClockIdentity, tail);
    SpacedAssigns("clock", f);
    SpacedAssigns("local", Spaced("clock", f));
    SpacedAssigns("selected", Spaced("local", Spaced("clock", f)));
    StampedAssigns(LocalFields());
  }

  lemma PpsAssigns()
    ensures Assigns(PpsFields()) == 3
  {
    var f3 := Keyed("offset:", Some(Offset), End);
    var f2 := Keyed("sequence:", Some(Sequence), Then(Lit(","), f3));
    KeyedAssigns("offset:", Offset, End);
    assert Assigns(Then(Lit(","), f3)) == 1;
    KeyedAssigns("sequence:", Sequence, Then(Lit(","), f3));
    var f1 := Then(Dec(Some(Timestamp)), Then(Lit(","), f2));
    assert Assigns(Then(Lit(","), f2)) == 2 && Assigns(f1) == 3;
    assert Assigns(Then(Space, f1)) == 3;
  }

  // ----- the parsers -----

  /** ppswatch: one format. */
  lemma PpsExactly(msg: string)
    ensures ParsePps(msg).Some? <==> Spelled(PpsFields(), CStr(msg))
    ensures forall r :: Spells(PpsFields(), CStr(msg), r) ==> ParsePps(msg) == Some(NumOf(r, Offset))
  {
    PpsAssigns();
    FreshScan(msg, PpsFields());
  }

  /** A port transition: both substrings and the format. */
  ghost predicate IsTransition(msg: string) {
    Contains(msg, "port ") && Contains(msg, " to ") && Spelled(PortPrefix(TransitionFields()), CStr(msg))
  }

  lemma PortExactly(msg: string)
    ensures ParsePortEvent(msg).Some? <==> IsTransition(msg)
    ensures forall r :: IsTransition(msg) && Spells(PortPrefix(TransitionFields()), CStr(msg), r) ==>
              ParsePortEvent(msg) == Some(PortEvent(NumOf(r, PortNumber), StrOf(r, PortName),
                                                    StrOf(r, FromState), StrOf(r, ToState), StrOf(r, Trigger)))
  {
    TransitionAssigns();
    PortPrefixAssigns(TransitionFields());
    FreshScan(msg, PortPrefix(TransitionFields()));
  }

  ghost predicate IsForeign(msg: string) {
    Contains(msg, "new foreign master") && Spelled(PortPrefix(ForeignFields()), CStr(msg))
  }

  lemma ForeignExactly(msg: string)
    ensures ParseForeignMaster(msg).Some? <==> IsForeign(msg)
    ensures forall r :: IsForeign(msg) && Spells(PortPrefix(ForeignFields()), CStr(msg), r) ==>
              ParseForeignMaster(msg) == Some(ForeignMaster(NumOf(r, PortNumber), StrOf(r, PortName),
                                                            StrOf(r, ClockIdentity), NumOf(r, MasterPort)))
  {
    ForeignAssigns();
    PortPrefixAssigns(ForeignFields());
    FreshScan(msg, PortPrefix(ForeignFields()));
  }

  ghost predicate IsSelection(msg: string) {
    && Contains(msg, "selected")
    && (Spelled(Stamped(BestFields()), CStr(msg)) || Spelled(Stamped(LocalFields()), CStr(msg)))
  }

  /** The second attempt, in spite of what the first one left behind. */
  lemma SecondScan(msg: string, f: Format, t: Target, store: map<Target, Item>)
    requires Assigned(f, t)
    ensures var r := Sscanf(msg, f, store);
            var own := Sscanf(msg, f, map[]);
            && r.count == own.count
            && (r.count == Assigns(f) ==> StrOf(r, t) == StrOf(own, t))
  {
    RunIsRelative(f, CStr(msg), Result(0, store));
    if Accepts(f, CStr(msg)) { AcceptWritesAll(f, CStr(msg), t); }
  }

  lemma BestExactly(msg: string)
    ensures ParseBestMaster(msg).Some? <==> IsSelection(msg)
    ensures forall r :: IsSelection(msg) && Spells(Stamped(BestFields()), CStr(msg), r) ==>
              ParseBestMaster(msg) == Some(StrOf(r, ClockIdentity))
    ensures forall r :: IsSelection(msg) && !Spelled(Stamped(BestFields()), CStr(msg))
                        && Spells(Stamped(LocalFields()), CStr(msg), r) ==>
              ParseBestMaster(msg) == Some(StrOf(r, ClockIdentity))
  {
    BestAssigns();
    LocalAssigns();
    FreshScan(msg, Stamped(BestFields()));
    FreshScan(msg, Stamped(LocalFields()));
    SecondScan(msg, Stamped(LocalFields()), ClockIdentity, Sscanf(msg, Stamped(BestFields()), map[]).store);
  }

  /** The metrics parsers: the first format if it is spelled, else the second. */
  lemma StatsExactly(s: string, rms: Format, regular: Format)
    ensures M.ParseFresh(s, rms, regular).Some? <==> Spelled(rms, s) || Spelled(regular, s)
    ensures forall r :: Spells(rms, s, r) ==> M.ParseFresh(s, rms, regular) == Some(StatsOf(r))
    ensures forall r :: !Spelled(rms, s) && Spells(regular, s, r) ==> M.ParseFresh(s, rms, regular) == Some(StatsOf(r))
  {
    AcceptsWhatIsSpelled(rms, s);
    AcceptsWhatIsSpelled(regular, s);
  }

  ghost predicate IsMetrics(msg: string) {
    Spelled(Ptp4lRms(), CStr(msg)) || Spelled(Ptp4lOffset(), CStr(msg))
  }

  lemma Ptp4lStatsExactly(msg: string)
    ensures ParsePtp4lMetrics(msg).Some? <==> IsMetrics(msg)
    ensures forall r :: Spells(Ptp4lRms(), CStr(msg), r) ==> ParsePtp4lMetrics(msg) == Some(StatsOf(r))
    ensures forall r :: !Spelled(Ptp4lRms(), CStr(msg)) && Spells(Ptp4lOffset(), CStr(msg), r) ==>
              ParsePtp4lMetrics(msg) == Some(StatsOf(r))
  {
    M.Ptp4lStatsAreFresh(msg);
    StatsExactly(CStr(msg), Ptp4lRms(), Ptp4lOffset());
  }

  lemma Phc2SysStatsExactly(msg: string)
    ensures ParsePhc2SysMetrics(msg).Some? <==> Spelled(Phc2SysRms(), CStr(msg)) || Spelled(Phc2SysOffset(), CStr(msg))
    ensures forall r :: Spells(Phc2SysRms(), CStr(msg), r) ==> ParsePhc2SysMetrics(msg) == Some(StatsOf(r))
    ensures forall r :: !Spelled(Phc2SysRms(), CStr(msg)) && Spells(Phc2SysOffset(), CStr(msg), r) ==>
              ParsePhc2SysMetrics(msg) == Some(StatsOf(r))
  {
    M.Phc2SysStatsAreFresh(msg);
    StatsExactly(CStr(msg), Phc2SysRms(), Phc2SysOffset());
  }

  /** The kind of every message: that of the first parser in the cascade whose text it is, else none. */
  lemma ClassifiedExactly(msg: string)
    ensures var kind := ClassifyPtp4l(msg);
            && (kind.Metrics? <==> IsMetrics(msg))
            && (kind.PortChange? <==> !IsMetrics(msg) && IsTransition(msg))
            && (kind.NewForeignMaster? <==> !IsMetrics(msg) && !IsTransition(msg) && IsForeign(msg))
            && (kind.BestMaster? <==> !IsMetrics(msg) && !IsTransition(msg) && !IsForeign(msg) && IsSelection(msg))
            && (kind.Unhandled? <==> !IsMetrics(msg) && !IsTransition(msg) && !IsForeign(msg) && !IsSelection(msg))
  {
    Ptp4lStatsExactly(msg);
    PortExactly(msg);
    ForeignExactly(msg);
    BestExactly(msg);
  }
}
