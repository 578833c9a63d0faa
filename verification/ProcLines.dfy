/** /proc texts as lines with a key and a number. */
module ProcLines {
  import opened Text
  import opened ProcText

  function Unlines(lines: seq<string>): string {
    if lines == [] then "" else lines[0] + ("\n" + Unlines(lines[1..]))
  }

  /** The number on the first line that starts with `key`. */
  function FieldIn(lines: seq<string>, key: string): nat {
    if lines == [] then 0
    else if key <= lines[0] then NumberIn(lines[0][|key|..])
    else FieldIn(lines[1..], key)
  }

  predicate OneLineEach(lines: seq<string>) {
    forall i | 0 <= i < |lines| :: '\n' !in lines[i]
  }

  predicate KeyOk(key: string) {
    key != "" && '\n' !in key
  }

  /** A newline ends the number as the end of the text would. */
  lemma NumberStopsAtNewline(s: string, rest: string)
    ensures NumberIn(s + ("\n" + rest)) == NumberIn(s)
  {
    var t := "\n" + rest;
    SpanPrefix(Only(' '), s, t);
    var u := Drop(Only(' '), s);
    SpanPrefix(Digits, u, t);
  }

  lemma PrefixOfLine(key: string, line: string, rest: string)
    requires KeyOk(key)
    ensures key <= line + ("\n" + rest) <==> key <= line
  {
    var text := line + ("\n" + rest);
    if |key| <= |line| {
      assert text[..|key|] == line[..|key|];
    } else {
      assert text[|line|] == '\n' && key[|line|] in key;
    }
  }

  /** Where the scan goes from the first line. */
  lemma FirstLine(line: string, rest: string, key: string)
    requires KeyOk(key) && '\n' !in line
    ensures LinePrefix(line + ("\n" + rest), key)
         == if key <= line then Some(|key|)
            else var r := LinePrefix(rest, key); if r.None? then None else Some(|line| + 1 + r.value)
  {
    var text := line + ("\n" + rest);
    PrefixOfLine(key, line, rest);
    if key <= line {
      assert text[0..|key|] == key;
    } else {
      NoHitIn(line, key);
      assert text == (line + "\n") + rest;
      PrefixBehind(line + "\n", rest, key);
    }
  }

  lemma NoHitIn(line: string, key: string)
    requires KeyOk(key) && '\n' !in line && !(key <= line)
    ensures forall i: nat :: !Hit(line + "\n", key, i)
  {
    var text := line + "\n";
    forall i: nat ensures !Hit(text, key, i) {
      if i == 0 {
        PrefixOfLine(key, line, "");
        assert text == line + ("\n" + "") && (|key| <= |text| ==> text[0..|key|] == text[..|key|]);
      } else if i <= |line| {
        assert text[i - 1] == line[i - 1];
      }
    }
  }

  /** Field, once the place of the number is known. */
  lemma FieldAt(text: string, key: string, s: string)
    requires match LinePrefix(text, key) case None => s == "" case Some(p) => p <= |text| && s == text[p..]
    ensures Field(text, key) == NumberIn(s)
  {
  }

  lemma FieldOfFirst(line: string, rest: string, key: string)
    requires KeyOk(key) && '\n' !in line
    ensures Field(line + ("\n" + rest), key) == if key <= line then NumberIn(line[|key|..]) else Field(rest, key)
  {
    var text := line + ("\n" + rest);
    FirstLine(line, rest, key);
    if key <= line {
      var s := line[|key|..] + ("\n" + rest);
      assert text[|key|..] == s;
      FieldAt(text, key, s);
      NumberStopsAtNewline(line[|key|..], rest);
    } else {
      FirstHitExact(rest, key, 0);
      var r := LinePrefix(rest, key);
      var s := if r.None? then "" else rest[r.value..];
      if r.Some? { assert text[|line| + 1 + r.value..] == s; }
      FieldAt(text, key, s);
      FieldAt(rest, key, s);
    }
  }

  /** A field is the number on the first line that starts with its key. */
  lemma {:induction false} FieldOfLines(lines: seq<string>, key: string)
    requires KeyOk(key) && OneLineEach(lines)
    ensures Field(Unlines(lines), key) == FieldIn(lines, key)
  {
    if lines != [] {
      FieldOfFirst(lines[0], Unlines(lines[1..]), key);
      FieldOfLines(lines[1..], key);
    }
  }

  // ----- the order of the lines -----

  /** No two different lines start with `key`. */
  predicate Unambiguous(lines: seq<string>, key: string) {
    forall x, y | x in lines && y in lines && key <= x && key <= y :: x == y
  }

  lemma {:induction false} FieldInUnique(lines: seq<string>, key: string, line: string)
    requires Unambiguous(lines, key) && line in lines && key <= line
    ensures FieldIn(lines, key) == NumberIn(line[|key|..])
  {
    assert forall x | x in lines[1..] :: x in lines;
    if !(key <= lines[0]) {
      assert line in lines[1..];
      FieldInUnique(lines[1..], key, line);
    } else {
      assert lines[0] in lines;
    }
  }

  lemma {:induction false} FieldInAbsent(lines: seq<string>, key: string)
    requires forall x | x in lines :: !(key <= x)
    ensures FieldIn(lines, key) == 0
  {
    if lines != [] {
      assert lines[0] in lines && forall x | x in lines[1..] :: x in lines;
      FieldInAbsent(lines[1..], key);
    }
  }

  lemma FieldInPermuted(lines: seq<string>, other: seq<string>, key: string)
    requires multiset(lines) == multiset(other) && Unambiguous(lines, key)
    ensures FieldIn(lines, key) == FieldIn(other, key)
  {
    assert forall x :: x in lines <==> x in multiset(lines);
    assert forall x :: x in other <==> x in multiset(other);
    if x :| x in lines && key <= x {
      FieldInUnique(lines, key, x);
      FieldInUnique(other, key, x);
    } else {
      FieldInAbsent(lines, key);
      FieldInAbsent(other, key);
    }
  }

  // ----- printed lines -----

  /** The line is the key, spaces, the number in decimal and anything that does not prolong it. */
  predicate LineShows(line: string, key: string, v: nat, gap: nat, tail: string) {
    line == key + (Spaces(gap) + (Decimal(v) + tail)) && Digits.Stops(tail)
  }

  /** Line `k` is the first with the key. */
  predicate FirstWith(lines: seq<string>, key: string, k: int) {
    0 <= k < |lines| && key <= lines[k] && forall j | 0 <= j < k :: !(key <= lines[j])
  }

  /** The first line with the key shows the number. */
  ghost predicate Shows(lines: seq<string>, key: string, v: nat) {
    v < U64 && exists k, gap, tail :: FirstWith(lines, key, k) && LineShows(lines[k], key, v, gap, tail)
  }

  lemma {:induction false} FieldInFirst(lines: seq<string>, key: string, k: int)
    requires FirstWith(lines, key, k)
    ensures FieldIn(lines, key) == NumberIn(lines[k][|key|..])
  {
    if k > 0 {
      assert !(key <= lines[0]);
      assert forall j | 0 <= j < k - 1 :: lines[1..][j] == lines[j + 1];
      FieldInFirst(lines[1..], key, k - 1);
    }
  }

  /** What is read behind the spaces is the printed number. */
  lemma NumberBehindSpaces(gap: nat, v: nat, tail: string)
    requires v < U64 && Digits.Stops(tail)
    ensures NumberIn(Spaces(gap) + (Decimal(v) + tail)) == v
  {
    DecimalValue(v);
    ReadPiece(Piece(gap, Decimal(v)), tail);
  }

  lemma ShownField(lines: seq<string>, key: string, v: nat)
    requires KeyOk(key) && OneLineEach(lines) && Shows(lines, key, v)
    ensures Field(Unlines(lines), key) == v
  {
    var k, gap, tail :| FirstWith(lines, key, k) && LineShows(lines[k], key, v, gap, tail);
    FieldOfLines(lines, key);
    FieldInFirst(lines, key, k);
    assert lines[k][|key|..] == Spaces(gap) + (Decimal(v) + tail);
    NumberBehindSpaces(gap, v, tail);
  }

  lemma ShownIsNotEmpty(lines: seq<string>, key: string, v: nat)
    requires Shows(lines, key, v)
    ensures Unlines(lines) != ""
  {
  }

  // ----- lines in front and behind -----

  lemma {:induction false} UnlinesConcat(a: seq<string>, b: seq<string>)
    ensures Unlines(a + b) == Unlines(a) + Unlines(b)
  {
    if a == [] {
      assert a + b == b;
    } else {
      assert (a + b)[1..] == a[1..] + b;
      UnlinesConcat(a[1..], b);
    }
  }

  lemma {:induction false} UnlinesEnded(lines: seq<string>)
    ensures Unlines(lines) == "" || Unlines(lines)[|Unlines(lines)| - 1] == '\n'
  {
    if lines != [] { UnlinesEnded(lines[1..]); }
  }

  lemma {:induction false} NoPrefixInLines(lines: seq<string>, key: string)
    requires KeyOk(key) && OneLineEach(lines) && forall i | 0 <= i < |lines| :: !(key <= lines[i])
    ensures LinePrefix(Unlines(lines), key) == None
  {
    if lines != [] {
      FirstLine(lines[0], Unlines(lines[1..]), key);
      NoPrefixInLines(lines[1..], key);
    }
  }

  /** The text around the first line with the key. */
  lemma AroundFirst(lines: seq<string>, key: string, k: int) returns (before: string, after: string)
    requires KeyOk(key) && OneLineEach(lines) && FirstWith(lines, key, k)
    ensures Unlines(lines) == before + (lines[k] + ("\n" + after))
    ensures (before == "" || before[|before| - 1] == '\n') && forall i: nat :: !Hit(before, key, i)
  {
    before, after := Unlines(lines[..k]), Unlines(lines[k + 1..]);
    assert lines == lines[..k] + lines[k..] && lines[k..][1..] == lines[k + 1..];
    UnlinesConcat(lines[..k], lines[k..]);
    UnlinesEnded(lines[..k]);
    NoPrefixInLines(lines[..k], key);
    LinePrefixExact(before, key, 0);
  }
}
