/**
 The part of sscanf (section 7.21.6.2 of ISO C11) that the log parsers rely on.
 A format is a list of directives; a scan runs them in order, stores what the
 conversions read and stops at the first directive that fails.
 */
module Scanf {
  import opened Text

  /** The variables whose addresses the log parsers pass to sscanf. */
  datatype Target =
    | Timestamp | Offset | State | Freq | PathDelay
    | PortNumber | PortName | FromState | ToState | Trigger
    | ClockIdentity | MasterPort | Sequence

  /** `Seconds` stands for the value of %lf, which no caller looks at. */
  datatype Item = Num(n: int) | Str(s: string) | Seconds

  datatype Directive =
    | Space                                                      // white space in the format
    | Lit(text: string)                                          // ordinary characters
    | Dec(target: Option<Target>)                                // %d, %ld; None for %*ld
    | Float(target: Option<Target>)                              // %lf
    | Word(width: Option<nat>, target: Option<Target>)           // %s, %63s, %*s
    | Until(limit: nat, stop: char, target: Option<Target>)      // %63[^-]
  {
    function Goal(): Option<Target> {
      if Space? || Lit? then None else target
    }
  }

  datatype Format = End | Then(head: Directive, tail: Format)

  datatype Match = Fail | Match(value: Option<Item>, rest: string)

  predicate Sign(s: string) {
    s != "" && (s[0] == '+' || s[0] == '-')
  }

  function SkipSign(s: string): string {
    if Sign(s) then s[1..] else s
  }

  /** %d: white space, an optional sign, at least one digit. */
  function MatchDec(s: string): Match {
    var u := Drop(Blank, s);
    var v := SkipSign(u);
    var n := Span(Digits, v);
    if n == 0 then Fail
    else
      SpanExact(Digits, v);
      var m: int := Value(v[..n]);
      Match(Some(Num(if u[0] == '-' then -m else m)), v[n..])
  }

  /** The exponent part of %lf; a bare `e` is a prefix of a number, so it makes the item fail. */
  function MatchExponent(s: string): Match {
    if s != "" && (s[0] == 'e' || s[0] == 'E') then
      var v := SkipSign(s[1..]);
      if Span(Digits, v) == 0 then Fail else Match(Some(Seconds), Drop(Digits, v))
    else Match(Some(Seconds), s)
  }

  /** Digits with an optional point, at least one digit in all, and an optional exponent. */
  function MatchMantissa(u: string): Match {
    var v := Drop(Digits, u);
    if v != "" && v[0] == '.' then
      if Span(Digits, u) + Span(Digits, v[1..]) == 0 then Fail else MatchExponent(Drop(Digits, v[1..]))
    else if Span(Digits, u) == 0 then Fail
    else MatchExponent(v)
  }

  /** %lf on decimal numbers: white space, an optional sign, a mantissa. */
  function MatchFloat(s: string): Match {
    MatchMantissa(SkipSign(Drop(Blank, s)))
  }

  function MatchRun(k: CharClass, width: Option<nat>, s: string): Match {
    var n := Span(k, s);
    var m := if width.Some? && width.value < n then width.value else n;
    if m == 0 then Fail else Match(Some(Str(s[..m])), s[m..])
  }

  function MatchOne(d: Directive, s: string): Match {
    match d
    case Space => Match(None, Drop(Blank, s))
    case Lit(text) => if text <= s then Match(None, s[|text|..]) else Fail
    case Dec(_) => MatchDec(s)
    case Float(_) => MatchFloat(s)
    case Word(width, _) => MatchRun(NonBlank, width, Drop(Blank, s))
    case Until(limit, stop, _) => MatchRun(Except(stop), Some(limit), s)
  }

  /** What sscanf has assigned so far: the number of assignments and the variables. */
  datatype Result = Result(count: nat, store: map<Target, Item>)

  const START := Result(0, map[])

  function Put(t: Option<Target>, v: Option<Item>, r: Result): Result {
    if t.Some? && v.Some? then Result(r.count + 1, r.store[t.value := v.value]) else r
  }

  function Run(f: Format, s: string, r: Result): Result {
    match f
    case End => r
    case Then(d, tail) =>
      match MatchOne(d, s)
      case Fail => r
      case Match(v, rest) => Run(tail, rest, Put(d.Goal(), v, r))
  }

  /** The bytes of a std::string that c_str() shows to C code. */
  function CStr(s: string): string {
    s[..Span(Except('\0'), s)]
  }

  function Sscanf(msg: string, f: Format, store: map<Target, Item>): Result {
    Run(f, CStr(msg), Result(0, store))
  }

  /** Struct fields start at 0 and "", so an unassigned variable reads as that. */
  function NumOf(r: Result, t: Target): int {
    if t in r.store && r.store[t].Num? then r.store[t].n else 0
  }

  function StrOf(r: Result, t: Target): string {
    if t in r.store && r.store[t].Str? then r.store[t].s else ""
  }

  // ----- format fragments the log formats are made of -----

  /** "[%lf]" */
  function Stamped(f: Format): Format {
    Then(Lit("["), Then(Float(Some(Timestamp)), Then(Lit("]"), f)))
  }

  /** " key %ld" */
  function Keyed(key: string, t: Option<Target>, f: Format): Format {
    Then(Space, Then(Lit(key), Then(Space, Then(Dec(t), f))))
  }

  lemma RunStep(d: Directive, f: Format, s: string, v: Option<Item>, rest: string, r: Result)
    requires MatchOne(d, s) == Match(v, rest)
    ensures Run(Then(d, f), s, r) == Run(f, rest, Put(d.Goal(), v, r))
  {
  }

  // ----- one lemma per directive: it consumes exactly its own piece of a line -----

  lemma ScanLit(text: string, rest: string, f: Format, r: Result)
    ensures Run(Then(Lit(text), f), text + rest, r) == Run(f, rest, r)
  {
    assert (text + rest)[|text|..] == rest;
  }

  lemma ScanSpace(blanks: string, rest: string, f: Format, r: Result)
    requires Blank.All(blanks) && Blank.Stops(rest)
    ensures Run(Then(Space, f), blanks + rest, r) == Run(f, rest, r)
  {
    SpanOf(Blank, blanks, rest);
  }

  lemma DropBlanks(blanks: string, s: string)
    requires Blank.All(blanks) && Blank.Stops(s)
    ensures Drop(Blank, blanks + s) == s && Drop(Blank, s) == s
  {
    SpanOf(Blank, blanks, s);
    assert "" + s == s;
    SpanOf(Blank, "", s);
  }

  lemma MatchUnsigned(digits: string, rest: string)
    requires digits != "" && Digits.All(digits) && Digits.Stops(rest)
    ensures Span(Digits, digits + rest) == |digits| > 0
    ensures (digits + rest)[..|digits|] == digits && (digits + rest)[|digits|..] == rest
    ensures !Sign(digits + rest) && Blank.Stops(digits + rest)
  {
    SpanOf(Digits, digits, rest);
    assert (digits + rest)[0] == digits[0];
    assert Digits.Has(digits[0]);
  }

  lemma MatchDecBlanks(blanks: string, s: string)
    requires Blank.All(blanks) && Blank.Stops(s)
    ensures MatchDec(blanks + s) == MatchDec(s)
  {
    DropBlanks(blanks, s);
  }

  predicate IsSign(s: string) {
    s == "" || s == "+" || s == "-"
  }

  /** A run of digits, perhaps with a sign. */
  datatype Numeral = Numeral(sign: string, digits: string) {
    predicate Ok() {
      IsSign(sign) && digits != "" && Digits.All(digits)
    }

    function Value(): int
      requires Ok()
    {
      var m: int := Text.Value(digits);
      if sign == "-" then -m else m
    }
  }

  function SignOf(s: string): string {
    if Sign(s) then s[..1] else ""
  }

  lemma SignSplit(s: string)
    ensures s == SignOf(s) + SkipSign(s)
    ensures IsSign(SignOf(s))
    ensures SignOf(s) == "-" <==> s != "" && s[0] == '-'
  {
    if Sign(s) { assert s[..1] == [s[0]]; }
  }

  lemma DigitSplit(v: string)
    ensures var k := Span(Digits, v);
            v == v[..k] + v[k..] && Digits.All(v[..k]) && Digits.Stops(v[k..])
  {
    SpanExact(Digits, v);
    SplitAt(v, Span(Digits, v));
  }

  lemma SplitAt(s: string, k: nat)
    requires k <= |s|
    ensures s == s[..k] + s[k..]
  {
  }

  lemma MatchNumeral(sign: string, digits: string, rest: string)
    requires sign == "" || sign == "+" || sign == "-"
    requires digits != "" && Digits.All(digits) && Digits.Stops(rest)
    ensures Blank.Stops(sign + (digits + rest))
    ensures var m: int := Value(digits);
            MatchDec(sign + (digits + rest)) == Match(Some(Num(if sign == "-" then -m else m)), rest)
  {
    var v := digits + rest;
    var u := sign + v;
    MatchUnsigned(digits, rest);
    assert SkipSign(u) == v && Blank.Stops(u) by {
      if sign == "" { assert u == v; } else { assert u[0] == sign[0] && u[1..] == v; }
    }
    assert Drop(Blank, u) == u by { DropBlanks("", u); }
  }

  lemma MatchSigned(blanks: string, plus: bool, v: int, rest: string)
    requires Blank.All(blanks) && Digits.Stops(rest)
    ensures Blank.Stops(Signed(plus, v) + rest)
    ensures MatchDec(blanks + (Signed(plus, v) + rest)) == Match(Some(Num(v)), rest)
  {
    var sign, digits := SignText(plus, v), Decimal(Abs(v));
    assert (sign + digits) + rest == sign + (digits + rest);
    MatchNumeral(sign, digits, rest);
    MatchDecBlanks(blanks, sign + (digits + rest));
    DecimalValue(Abs(v));
  }

  lemma ScanDec(t: Option<Target>, blanks: string, plus: bool, v: int, rest: string, f: Format, r: Result)
    requires Blank.All(blanks) && Digits.Stops(rest)
    ensures Run(Then(Dec(t), f), blanks + (Signed(plus, v) + rest), r) == Run(f, rest, Put(t, Some(Num(v)), r))
  {
    MatchSigned(blanks, plus, v, rest);
    RunStep(Dec(t), f, blanks + (Signed(plus, v) + rest), Some(Num(v)), rest, r);
  }

  /** ScanDec without blanks in front. */
  lemma ScanNumeral(t: Option<Target>, plus: bool, v: int, rest: string, f: Format, r: Result)
    requires Digits.Stops(rest)
    ensures Run(Then(Dec(t), f), Signed(plus, v) + rest, r) == Run(f, rest, Put(t, Some(Num(v)), r))
  {
    assert "" + (Signed(plus, v) + rest) == Signed(plus, v) + rest;
    ScanDec(t, "", plus, v, rest, f, r);
  }

  lemma ScanWord(width: Option<nat>, t: Option<Target>, word: string, rest: string, f: Format, r: Result)
    requires word != "" && NonBlank.All(word) && NonBlank.Stops(rest)
    requires width.Some? ==> |word| <= width.value
    ensures Run(Then(Word(width, t), f), word + rest, r) == Run(f, rest, Put(t, Some(Str(word)), r))
  {
    assert "" + (word + rest) == word + rest;
    SpanOf(Blank, "", word + rest);
    SpanOf(NonBlank, word, rest);
  }

  lemma ScanUntil(limit: nat, stop: char, t: Option<Target>, item: string, rest: string, f: Format, r: Result)
    requires item != "" && Except(stop).All(item) && |item| <= limit
    requires Except(stop).Stops(rest)
    ensures Run(Then(Until(limit, stop, t), f), item + rest, r) == Run(f, rest, Put(t, Some(Str(item)), r))
  {
    SpanOf(Except(stop), item, rest);
  }

  /** "[12.345]" followed by anything. */
  function StampText(lead: nat, seconds: nat, fraction: string, rest: string): string {
    "[" + (Spaces(lead) + (Decimal(seconds) + ("." + (fraction + ("]" + rest)))))
  }

  lemma MatchFixedPoint(blanks: string, digits: string, fraction: string, rest: string)
    requires Blank.All(blanks) && digits != "" && Digits.All(digits) && Digits.All(fraction)
    requires Digits.Stops(rest) && rest != "" && rest[0] != 'e' && rest[0] != 'E'
    ensures MatchFloat(blanks + (digits + ("." + (fraction + rest)))) == Match(Some(Seconds), rest)
  {
    var after := "." + (fraction + rest);
    MatchUnsigned(digits, after);
    DropBlanks(blanks, digits + after);
    assert after[1..] == fraction + rest;
    SpanOf(Digits, fraction, rest);
  }

  lemma ScanStamp(lead: nat, seconds: nat, fraction: string, rest: string, f: Format, r: Result)
    requires Digits.All(fraction)
    ensures Run(Stamped(f), StampText(lead, seconds, fraction, rest), r)
         == Run(f, rest, Put(Some(Timestamp), Some(Seconds), r))
  {
    var closing := "]" + rest;
    var number := Spaces(lead) + (Decimal(seconds) + ("." + (fraction + closing)));
    var f2 := Then(Lit("]"), f);
    var f1 := Then(Float(Some(Timestamp)), f2);
    ScanLit("[", number, f1, r);
    MatchFixedPoint(Spaces(lead), Decimal(seconds), fraction, closing);
    ScanLit("]", rest, f, Put(Some(Timestamp), Some(Seconds), r));
  }

  /** A key and its number with any blanks around them, followed by anything. */
  datatype Field = Field(gap: nat, pad: nat, plus: bool, value: int)

  function FieldText(key: string, x: Field, rest: string): string {
    Spaces(x.gap) + (key + (Spaces(x.pad) + (Signed(x.plus, x.value) + rest)))
  }

  lemma ScanKeyed(key: string, t: Option<Target>, x: Field, rest: string, f: Format, r: Result)
    requires NonBlank.All(key) && key != "" && Digits.Stops(rest)
    ensures Run(Keyed(key, t, f), FieldText(key, x, rest), r) == Run(f, rest, Put(t, Some(Num(x.value)), r))
  {
    var num := Signed(x.plus, x.value) + rest;
    MatchSigned("", x.plus, x.value, rest);
    var padded := Spaces(x.pad) + num;
    var g := Then(Dec(t), f);
    ScanSpace(Spaces(x.gap), key + padded, Then(Lit(key), Then(Space, g)), r);
    ScanLit(key, padded, Then(Space, g), r);
    ScanSpace(Spaces(x.pad), num, g, r);
    ScanNumeral(t, x.plus, x.value, rest, f, r);
  }

  // ----- facts about every format and every input -----

  function Assigns(f: Format): nat {
    if f.End? then 0 else Assigns(f.tail) + if f.head.Goal().Some? then 1 else 0
  }

  predicate Assigned(f: Format, t: Target) {
    f.Then? && (f.head.Goal() == Some(t) || Assigned(f.tail, t))
  }

  /** sscanf returned the number of all conversions of the format. */
  predicate Accepts(f: Format, s: string) {
    Run(f, s, Result(0, map[])).count == Assigns(f)
  }

  lemma {:induction false} CountBound(f: Format, s: string, r: Result)
    ensures r.count <= Run(f, s, r).count <= r.count + Assigns(f)
  {
    if f.Then? && MatchOne(f.head, s).Match? {
      var m := MatchOne(f.head, s);
      CountBound(f.tail, m.rest, Put(f.head.Goal(), m.value, r));
    }
  }

  /** The old contents of the variables neither influence the scan nor survive where it assigns. */
  lemma {:induction false} RunIsRelative(f: Format, s: string, r: Result)
    ensures var own := Run(f, s, Result(0, map[]));
            Run(f, s, r) == Result(r.count + own.count, r.store + own.store)
  {
    if f.Then? && MatchOne(f.head, s).Match? {
      var m := MatchOne(f.head, s);
      RunIsRelative(f.tail, m.rest, Put(f.head.Goal(), m.value, r));
      RunIsRelative(f.tail, m.rest, Put(f.head.Goal(), m.value, Result(0, map[])));
    }
  }

  /** An accepting scan has written every variable of its format and no other. */
  lemma {:induction false} AcceptWritesAll(f: Format, s: string, t: Target)
    requires Accepts(f, s)
    ensures t in Run(f, s, Result(0, map[])).store <==> Assigned(f, t)
  {
    if f.Then? {
      CountBound(f, s, Result(0, map[]));
      if MatchOne(f.head, s).Match? {
        var m := MatchOne(f.head, s);
        RunIsRelative(f.tail, m.rest, Put(f.head.Goal(), m.value, Result(0, map[])));
        CountBound(f.tail, m.rest, Result(0, map[]));
        AcceptWritesAll(f.tail, m.rest, t);
      } else {
        NoTargets(f, t);
      }
    }
  }

  lemma {:induction false} NoTargets(f: Format, t: Target)
    requires Assigns(f) == 0
    ensures !Assigned(f, t)
  {
    if f.Then? { NoTargets(f.tail, t); }
  }

  lemma {:induction false} NoAssignment(f: Format, s: string, r: Result)
    requires Assigns(f) == 0
    ensures Run(f, s, r) == r
  {
    if f.Then? && MatchOne(f.head, s).Match? {
      NoAssignment(f.tail, MatchOne(f.head, s).rest, r);
    }
  }

  lemma {:induction false} EmptyInput(f: Format, r: Result)
    ensures Run(f, "", r) == r
  {
    if f.Then? && MatchOne(f.head, "").Match? {
      EmptyInput(f.tail, r);
    }
  }
}
