/** The hand-written line scanner of src/system_metrics.cpp. */
module ProcText {
  import opened Text

  const U64: nat := 0x1_0000_0000_0000_0000

  // ----- specification on texts -----

  predicate LineStart(s: string, i: nat) {
    i < |s| && (i == 0 || s[i - 1] == '\n')
  }

  /** A line of `s` starts at `i` and begins with `needle`. */
  predicate Hit(s: string, needle: string, i: nat) {
    LineStart(s, i) && i + |needle| <= |s| && s[i..i + |needle|] == needle
  }

  /** Position behind the first hit at or after `i`. */
  function FirstHit(s: string, needle: string, i: nat): (r: Option<nat>)
    decreases |s| - i
  {
    if i >= |s| then None
    else if Hit(s, needle, i) then Some(i + |needle|)
    else FirstHit(s, needle, i + 1)
  }

  function LinePrefix(s: string, needle: string): Option<nat> {
    FirstHit(s, needle, 0)
  }

  lemma {:induction false} FirstHitExact(s: string, needle: string, i: nat)
    ensures match FirstHit(s, needle, i)
            case Some(p) => p >= i + |needle| && Hit(s, needle, p - |needle|)
                            && forall j | i <= j < p - |needle| :: !Hit(s, needle, j)
            case None => forall j | i <= j :: !Hit(s, needle, j)
    decreases |s| - i
  {
    if i < |s| && !Hit(s, needle, i) { FirstHitExact(s, needle, i + 1); }
  }

  lemma {:induction false} SkipMisses(s: string, needle: string, i: nat, j: nat)
    requires i <= j <= |s| && forall k | i <= k < j :: !Hit(s, needle, k)
    ensures FirstHit(s, needle, i) == FirstHit(s, needle, j)
    decreases j - i
  {
    if i < j { SkipMisses(s, needle, i + 1, j); }
  }

  /** The result is the position behind the first line-start occurrence, and None if there is none. */
  lemma LinePrefixExact(s: string, needle: string, p: nat)
    ensures LinePrefix(s, needle) == Some(p) <==>
              p >= |needle| && Hit(s, needle, p - |needle|) && forall j | 0 <= j < p - |needle| :: !Hit(s, needle, j)
    ensures LinePrefix(s, needle) == None <==> forall j: nat :: !Hit(s, needle, j)
  {
    FirstHitExact(s, needle, 0);
  }

  /** Cutting a text short can lose the line but never moves it. */
  lemma TruncatedPrefix(s: string, needle: string, n: nat)
    requires n <= |s|
    ensures LinePrefix(s[..n], needle) == None || LinePrefix(s[..n], needle) == LinePrefix(s, needle)
  {
    var cut := LinePrefix(s[..n], needle);
    FirstHitExact(s[..n], needle, 0);
    if cut.Some? {
      var i := cut.value - |needle|;
      assert Hit(s, needle, i) by { assert s[..n][i..i + |needle|] == s[i..i + |needle|]; }
      forall j | 0 <= j < i ensures !Hit(s, needle, j) {
        HitInPrefix(s, needle, n, j, i);
      }
      LinePrefixExact(s, needle, cut.value);
    }
  }

  /** A hit of `s` that ends before a hit inside the cut is inside the cut as well. */
  lemma HitInPrefix(s: string, needle: string, n: nat, j: nat, i: nat)
    requires j < i && n <= |s| && i + |needle| <= n && !Hit(s[..n], needle, j)
    ensures !Hit(s, needle, j)
  {
    assert s[..n][j..j + |needle|] == s[j..j + |needle|];
  }

  /** std::from_chars for uint64_t on s: value and number of characters, None on any error. */
  function FromChars(s: string): Option<(nat, nat)> {
    var n := Span(Digits, s);
    SpanExact(Digits, s);
    if n == 0 || Value(s[..n]) >= U64 then None else Some((Value(s[..n]), n))
  }

  /** parseNext on the text behind p: skips spaces, reads one number. */
  function NextNumber(s: string): Option<(nat, string)> {
    var u := Drop(Only(' '), s);
    var r := FromChars(u);
    if r.None? then None else Some((r.value.0, u[r.value.1..]))
  }

  /** What a read at offset 0 shows of a file through a buffer with room for `cap` bytes. */
  function Cut(content: string, cap: nat): string {
    if |content| <= cap then content else content[..cap]
  }

  // ----- texts put together -----

  lemma StartShift(a: string, b: string, i: nat)
    requires a == "" || a[|a| - 1] == '\n'
    ensures LineStart(a + b, |a| + i) <==> LineStart(b, i)
  {
    if 0 < |a| + i && i < |b| {
      assert (a + b)[|a| + i - 1] == if i == 0 then a[|a| - 1] else b[i - 1];
    }
  }

  lemma SliceShift(a: string, b: string, i: nat, n: nat)
    requires i + n <= |b|
    ensures (a + b)[|a| + i..|a| + i + n] == b[i..i + n]
  {
  }

  lemma HitShift(a: string, b: string, needle: string, i: nat)
    requires a == "" || a[|a| - 1] == '\n'
    ensures Hit(a + b, needle, |a| + i) <==> Hit(b, needle, i)
  {
    StartShift(a, b, i);
    if i + |needle| <= |b| { SliceShift(a, b, i, |needle|); }
  }

  lemma {:induction false} FirstHitShift(a: string, b: string, needle: string, i: nat)
    requires a == "" || a[|a| - 1] == '\n'
    ensures FirstHit(a + b, needle, |a| + i)
         == var r := FirstHit(b, needle, i); if r.None? then None else Some(|a| + r.value)
    decreases |b| - i
  {
    HitShift(a, b, needle, i);
    if i < |b| { FirstHitShift(a, b, needle, i + 1); }
  }

  /** A hit that starts inside the newline-ended front also ends there. */
  lemma HitInFront(a: string, b: string, needle: string, i: nat)
    requires i < |a| && a[|a| - 1] == '\n' && '\n' !in needle
    ensures Hit(a + b, needle, i) ==> Hit(a, needle, i)
  {
    var n := i + |needle|;
    if |a| < n <= |a + b| {
      assert '\n' in (a + b)[i..n] by { assert (a + b)[i..n][|a| - 1 - i] == '\n'; }
    } else if n <= |a| {
      assert a[i..n] == (a + b)[i..n];
    }
  }

  /** Newline-ended text without a hit in front only shifts the position. */
  lemma PrefixBehind(a: string, b: string, needle: string)
    requires (a == "" || a[|a| - 1] == '\n') && '\n' !in needle
    requires forall i: nat :: !Hit(a, needle, i)
    ensures LinePrefix(a + b, needle)
         == var r := LinePrefix(b, needle); if r.None? then None else Some(|a| + r.value)
  {
    forall i | 0 <= i < |a| ensures !Hit(a + b, needle, i) {
      HitInFront(a, b, needle, i);
    }
    SkipMisses(a + b, needle, 0, |a|);
    FirstHitShift(a, b, needle, 0);
  }

  // ----- the loops -----

  /** memchr for a newline in buf[from..len]; len if there is none. */
  method FindNewline(buf: array<char>, from: nat, len: nat) returns (nl: nat)
    requires from <= len <= buf.Length
    ensures from <= nl <= len && (nl < len ==> buf[nl] == '\n')
    ensures forall k | from <= k < nl :: buf[k] != '\n'
  {
    nl := from;
    while nl < len && buf[nl] != '\n'
      invariant from <= nl <= len
      invariant forall k | from <= k < nl :: buf[k] != '\n'
    {
      nl := nl + 1;
    }
  }

  /** memcmp(buf + p, needle, needle.size()) == 0 */
  method Matches(buf: array<char>, p: nat, needle: string) returns (same: bool)
    requires p + |needle| <= buf.Length
    ensures same <==> buf[p..p + |needle|] == needle
  {
    for i := 0 to |needle|
      invariant buf[p..p + i] == needle[..i]
    {
      if buf[p + i] != needle[i] {
        assert buf[p..p + |needle|][i] == buf[p + i];
        return false;
      }
    }
    return true;
  }

  method FindLinePrefix(buf: array<char>, len: nat, needle: string) returns (r: Option<nat>)
    requires len <= buf.Length
    ensures r == LinePrefix(buf[..len], needle)
  {
    ghost var s := buf[..len];
    var p := 0;
    while p < len
      invariant p <= len && (p < len ==> LineStart(s, p))
      invariant LinePrefix(s, needle) == FirstHit(s, needle, p)
      decreases len - p
    {
      if len - p >= |needle| {
        var same := Matches(buf, p, needle);
        assert buf[p..p + |needle|] == s[p..p + |needle|];
        if same { return Some(p + |needle|); }
      }
      var nl := FindNewline(buf, p, len);
      forall k | p < k <= nl && k < len ensures !Hit(s, needle, k) {
        assert s[k - 1] == buf[k - 1];
      }
      if nl == len {
        SkipMisses(s, needle, p, len);
        break;
      }
      SkipMisses(s, needle, p, nl + 1);
      p := nl + 1;
    }
    return None;
  }

  lemma SplitBuffer(s: string, i: nat)
    requires i <= |s| && Only(' ').All(s[..i]) && Only(' ').Stops(s[i..])
    ensures Drop(Only(' '), s) == s[i..]
  {
    SpanOf(Only(' '), s[..i], s[i..]);
    assert s == s[..i] + s[i..];
  }

  /** The loop over leading spaces. */
  method SkipSpaces(buf: array<char>, p: nat, end: nat) returns (p': nat)
    requires p <= end <= buf.Length
    ensures p <= p' <= end && Drop(Only(' '), buf[p..end]) == buf[p'..end]
  {
    ghost var s := buf[p..end];
    p' := p;
    while p' < end && buf[p'] == ' '
      invariant p <= p' <= end
      invariant forall k | p <= k < p' :: buf[k] == ' '
    {
      p' := p' + 1;
    }
    assert s[p' - p..] == buf[p'..end];
    SplitBuffer(s, p' - p);
  }

  /** On failure the out-parameter keeps its value and only the spaces are behind. */
  method ParseNext(buf: array<char>, p: nat, end: nat, out: nat) returns (ok: bool, p': nat, out': nat)
    requires p <= end <= buf.Length && out < U64
    ensures p <= p' <= end && out' < U64
    ensures match NextNumber(buf[p..end])
            case Some((v, rest)) => ok && out' == v && buf[p'..end] == rest
            case None => !ok && out' == out && buf[p'..end] == Drop(Only(' '), buf[p..end])
  {
    p' := SkipSpaces(buf, p, end);
    var r := FromChars(buf[p'..end]);
    if r.None? { return false, p', out; }
    assert buf[p'..end][r.value.1..] == buf[p' + r.value.1..end];
    return true, p' + r.value.1, r.value.0;
  }

  // ----- printed numbers -----

  lemma PrintedNumber(v: nat, rest: string)
    requires Digits.Stops(rest)
    ensures FromChars(Decimal(v) + rest) == if v < U64 then Some((v, |Decimal(v)|)) else None
  {
    SpanOf(Digits, Decimal(v), rest);
    DecimalValue(v);
  }

  function NumberIn(s: string): nat {
    var r := NextNumber(s);
    if r.None? then 0 else r.value.0
  }

  /** The number behind the first line that starts with `key`, or 0 if there is none or it is unreadable. */
  function Field(text: string, key: string): nat {
    var p := LinePrefix(text, key);
    if p.None? then 0
    else
      FirstHitExact(text, key, 0);
      NumberIn(text[p.value..])
  }

  /** The readField pattern: an absent or unreadable number leaves the initial 0. */
  method ReadField(buf: array<char>, len: nat, key: string) returns (v: nat)
    requires len <= buf.Length
    ensures v == Field(buf[..len], key) < U64
  {
    v := 0;
    var p := FindLinePrefix(buf, len, key);
    FirstHitExact(buf[..len], key, 0);
    if p.Some? {
      assert buf[..len][p.value..] == buf[p.value..len];
      var ok, p', out := ParseNext(buf, p.value, len, v);
      v := out;
    }
  }

  /** pread at offset 0 into a buffer with room for `cap` bytes. */
  method Pread(content: string, buf: array<char>, cap: nat) returns (n: nat)
    requires cap <= buf.Length
    modifies buf
    ensures n <= buf.Length && buf[..n] == Cut(content, cap)
  {
    n := if |content| <= cap then |content| else cap;
    for i := 0 to n
      invariant buf[..i] == content[..i]
    {
      buf[i] := content[i];
    }
  }

  // ----- several numbers on one line -----

  /** Reads one number off the front of a text. */
  type Reader = string -> Option<(nat, string)>

  /** `next` is parseNext under another name. */
  ghost predicate IsParseNext(next: Reader) {
    forall s {:trigger NextNumber(s)} :: next(s) == NextNumber(s)
  }

  /** The first n numbers of `s`. */
  function Numbers(next: Reader, s: string, n: nat): (r: Option<seq<nat>>)
    ensures r.Some? ==> |r.value| == n
    decreases n, s
  {
    if n == 0 then Some([])
    else
      var first := next(s);
      if first.None? then None
      else
        var others := Numbers(next, first.value.1, n - 1);
        if others.None? then None else Some([first.value.0] + others.value)
  }

  lemma NumbersCons(next: Reader, s: string, v: nat, rest: string, n: nat)
    requires next(s) == Some((v, rest))
    ensures Numbers(next, s, n + 1)
         == if Numbers(next, rest, n).None? then None else Some([v] + Numbers(next, rest, n).value)
  {
  }

  /** A number as it stands in a text: the spaces in front of it and its digits. */
  datatype Piece = Piece(gap: nat, digits: string)

  function PiecesText(ps: seq<Piece>, rest: string): string {
    if ps == [] then rest else Spaces(ps[0].gap) + (ps[0].digits + PiecesText(ps[1..], rest))
  }

  predicate PieceOk(p: Piece) {
    p.digits != "" && Digits.All(p.digits) && Value(p.digits) < U64
  }

  /** Readable numbers, each after the first at least one space away from its predecessor. */
  predicate PiecesOk(ps: seq<Piece>) {
    ps != [] ==> PieceOk(ps[0]) && PiecesOk(ps[1..]) && (|ps| > 1 ==> ps[1].gap > 0)
  }

  function ValuesOf(ps: seq<Piece>): (vs: seq<nat>)
    requires PiecesOk(ps)
    ensures |vs| == |ps|
  {
    if ps == [] then [] else [Value(ps[0].digits)] + ValuesOf(ps[1..])
  }

  lemma ReadPiece(p: Piece, rest: string)
    requires PieceOk(p) && Digits.Stops(rest)
    ensures NextNumber(Spaces(p.gap) + (p.digits + rest)) == Some((Value(p.digits), rest))
  {
    var d := p.digits;
    assert (d + rest)[0] == d[0] && Digits.Has(d[0]);
    SpanOf(Only(' '), Spaces(p.gap), d + rest);
    SpanOf(Digits, d, rest);
  }

  lemma PiecesStop(ps: seq<Piece>, rest: string)
    requires Digits.Stops(rest) && (ps != [] ==> ps[0].gap > 0)
    ensures Digits.Stops(PiecesText(ps, rest))
  {
    if ps != [] { assert PiecesText(ps, rest)[0] == Spaces(ps[0].gap)[0]; }
  }

  /** Numbers laid out on a line are read one by one, each as its maximal digit run. */
  lemma {:induction false} PiecesAreRead(next: Reader, ps: seq<Piece>, rest: string)
    requires IsParseNext(next) && PiecesOk(ps) && Digits.Stops(rest)
    ensures Numbers(next, PiecesText(ps, rest), |ps|) == Some(ValuesOf(ps))
    decreases |ps|
  {
    if ps != [] {
      var p, others := ps[0], ps[1..];
      PiecesStop(others, rest);
      PiecesAreRead(next, others, rest);
      OnePiece(next, p, PiecesText(others, rest), |others|, ValuesOf(others));
      FirstPiece(ps, rest);
    }
  }

  lemma FirstPiece(ps: seq<Piece>, rest: string)
    requires PiecesOk(ps) && ps != []
    ensures PiecesText(ps, rest) == Spaces(ps[0].gap) + (ps[0].digits + PiecesText(ps[1..], rest))
    ensures ValuesOf(ps) == [Value(ps[0].digits)] + ValuesOf(ps[1..])
  {
  }

  lemma OnePiece(next: Reader, p: Piece, tail: string, n: nat, vs: seq<nat>)
    requires IsParseNext(next) && PieceOk(p) && Digits.Stops(tail) && Numbers(next, tail, n) == Some(vs)
    ensures Numbers(next, Spaces(p.gap) + (p.digits + tail), n + 1) == Some([Value(p.digits)] + vs)
  {
    ReadPiece(p, tail);
    NumbersCons(next, Spaces(p.gap) + (p.digits + tail), Value(p.digits), tail, n);
  }

  lemma {:induction false} PiecesTextTail(ps: seq<Piece>, rest: string, more: string)
    ensures PiecesText(ps, rest) + more == PiecesText(ps, rest + more)
    decreases |ps|
  {
    if ps != [] {
      var p, tail := ps[0], PiecesText(ps[1..], rest);
      PiecesTextTail(ps[1..], rest, more);
      assert (Spaces(p.gap) + (p.digits + tail)) + more == Spaces(p.gap) + (p.digits + (tail + more));
    }
  }

  lemma SplitPiece(s: string) returns (p: Piece, rest: string)
    requires NextNumber(s).Some?
    ensures PieceOk(p) && Digits.Stops(rest)
    ensures s == Spaces(p.gap) + (p.digits + rest) && NextNumber(s).value == (Value(p.digits), rest)
  {
    var k := Only(' ');
    var n := Span(k, s);
    SpanExact(k, s);
    var u := Drop(k, s);
    SpanExact(Digits, u);
    p := Piece(n, u[..Span(Digits, u)]);
    rest := Drop(Digits, u);
    assert u == p.digits + rest;
    assert s == s[..n] + u && s[..n] == Spaces(n);
  }

  /** What was read are maximal digit runs, separated by spaces and by nothing else. */
  lemma {:induction false} ReadArePieces(next: Reader, s: string, n: nat) returns (ps: seq<Piece>, rest: string)
    requires IsParseNext(next) && Numbers(next, s, n).Some? && n > 0
    ensures |ps| == n && PiecesOk(ps) && Digits.Stops(rest)
    ensures s == PiecesText(ps, rest) && Numbers(next, s, n) == Some(ValuesOf(ps))
    decreases n
  {
    var p, tail := ReadOne(next, s);
    if n == 1 {
      ps, rest := [p], tail;
      assert PiecesText([p], tail) == Spaces(p.gap) + (p.digits + tail);
    } else {
      var others;
      others, rest := ReadArePieces(next, tail, n - 1);
      GapFollows(others[0], PiecesText(others[1..], rest));
      ps := [p] + others;
      assert ps[1..] == others;
    }
  }

  lemma ReadOne(next: Reader, s: string) returns (p: Piece, rest: string)
    requires IsParseNext(next) && next(s).Some?
    ensures PieceOk(p) && Digits.Stops(rest)
    ensures s == Spaces(p.gap) + (p.digits + rest) && next(s).value == (Value(p.digits), rest)
  {
    assert next(s) == NextNumber(s);
    p, rest := SplitPiece(s);
  }

  /** A number cannot start right behind the maximal run before it. */
  lemma GapFollows(p: Piece, rest: string)
    requires PieceOk(p) && Digits.Stops(Spaces(p.gap) + (p.digits + rest))
    ensures p.gap > 0
  {
    assert Digits.Has(p.digits[0]);
    assert p.gap == 0 ==> Spaces(p.gap) + (p.digits + rest) == p.digits + rest;
  }

  /** The numbers stand on one line. */
  lemma {:induction false} PiecesOnOneLine(ps: seq<Piece>, rest: string)
    requires PiecesOk(ps)
    ensures |rest| <= |PiecesText(ps, rest)| && PiecesText(ps, rest)[|PiecesText(ps, rest)| - |rest|..] == rest
    ensures '\n' !in PiecesText(ps, rest)[..|PiecesText(ps, rest)| - |rest|]
    decreases |ps|
  {
    if ps != [] {
      var p, tail := ps[0], PiecesText(ps[1..], rest);
      var s := PiecesText(ps, rest);
      PiecesOnOneLine(ps[1..], rest);
      assert s[..|s| - |rest|] == Spaces(p.gap) + (p.digits + tail[..|tail| - |rest|]);
      NoNewlineIn(Only(' '), Spaces(p.gap));
      NoNewlineIn(Digits, p.digits);
    }
  }

  /** Numbers that were read stand on one line, as maximal digit runs at least one space apart. */
  lemma ReadOnOneLine(next: Reader, s: string, n: nat) returns (ps: seq<Piece>, line: string, rest: string)
    requires IsParseNext(next) && Numbers(next, s, n).Some? && n > 0
    ensures |ps| == n && PiecesOk(ps) && Numbers(next, s, n) == Some(ValuesOf(ps))
    ensures s == PiecesText(ps, rest) == line + rest && Digits.Stops(rest) && '\n' !in line
  {
    ps, rest := ReadArePieces(next, s, n);
    PiecesOnOneLine(ps, rest);
    line := s[..|s| - |rest|];
  }

  lemma NoNewlineIn(k: CharClass, s: string)
    requires k.All(s) && !k.Has('\n')
    ensures '\n' !in s
  {
    assert forall i | 0 <= i < |s| :: k.Has(s[i]);
  }

  /** The kernel's way to print numbers: canonical numerals with spaces in front. */
  function Printed(gaps: seq<nat>, vs: seq<nat>): (ps: seq<Piece>)
    requires |gaps| == |vs|
    ensures |ps| == |vs|
  {
    if vs == [] then [] else [Piece(gaps[0], Decimal(vs[0]))] + Printed(gaps[1..], vs[1..])
  }

  lemma {:induction false} PrintedPieces(gaps: seq<nat>, vs: seq<nat>)
    requires |gaps| == |vs|
    requires forall i | 0 <= i < |vs| :: vs[i] < U64
    requires forall i | 0 < i < |vs| :: gaps[i] > 0
    ensures PiecesOk(Printed(gaps, vs)) && ValuesOf(Printed(gaps, vs)) == vs
    decreases |vs|
  {
    if vs != [] {
      DecimalValue(vs[0]);
      PrintedPieces(gaps[1..], vs[1..]);
      assert Printed(gaps, vs)[1..] == Printed(gaps[1..], vs[1..]);
      assert |vs| > 1 ==> Printed(gaps[1..], vs[1..])[0] == Piece(gaps[1..][0], Decimal(vs[1..][0]));
      assert [vs[0]] + vs[1..] == vs;
    }
  }

  /** Printing and reading any numbers below 2^64 gives them back. */
  lemma NumbersRoundTrip(next: Reader, gaps: seq<nat>, vs: seq<nat>, rest: string)
    requires IsParseNext(next) && |gaps| == |vs| && Digits.Stops(rest)
    requires forall i | 0 <= i < |vs| :: vs[i] < U64
    requires forall i | 0 < i < |vs| :: gaps[i] > 0
    ensures Numbers(next, PiecesText(Printed(gaps, vs), rest), |vs|) == Some(vs)
  {
    PrintedPieces(gaps, vs);
    PiecesAreRead(next, Printed(gaps, vs), rest);
  }
}
