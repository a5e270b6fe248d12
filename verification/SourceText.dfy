/**
 Positions in a configuration file: the line index, and how the position of a part of a
 located value follows from that of the value.
 */
module SourceText {
  import opened Wire

  const NEWLINE: byte := 10
  const TAB: byte := 9
  const SPACE: byte := 32
  const QUOTE: byte := 34
  const COMMA: byte := 44

  // ----- the line index ----------------------------------------------------

  /** The index of every line start up to the end of `s`. */
  function LineStarts(s: Bytes): (r: seq<nat>)
    ensures r != []
  {
    if s == [] then [0]
    else LineStarts(s[..|s| - 1]) + if s[|s| - 1] == NEWLINE then [|s|] else []
  }

  method ComputeLineStarts(content: Bytes) returns (starts: seq<nat>)
    ensures starts == LineStarts(content)
  {
    starts := [0];
    for i := 0 to |content|
      invariant starts == LineStarts(content[..i])
    {
      assert content[..i + 1][..i] == content[..i];
      if content[i] == NEWLINE {
        starts := starts + [i + 1];
      }
    }
    assert content[..|content|] == content;
  }

  /** How many line feeds (0x0A) there are. */
  function Newlines(s: Bytes): nat {
    if s == [] then 0 else Newlines(s[..|s| - 1]) + if s[|s| - 1] == 0x0A then 1 else 0
  }

  /** How many leading starts are at most `offset`. */
  function PartitionPoint(starts: seq<nat>, offset: nat): (k: nat)
    ensures k <= |starts|
    ensures forall i :: 0 <= i < k ==> starts[i] <= offset
    ensures k < |starts| ==> starts[k] > offset
  {
    if starts == [] || starts[0] > offset then 0 else 1 + PartitionPoint(starts[1..], offset)
  }

  datatype Position = Position(line: nat, column: nat)

  /** The lookup in an index of line starts. */
  function LineColAt(starts: seq<nat>, offset: nat): Position
    requires starts != [] && starts[0] == 0
  {
    var lineIdx := PartitionPoint(starts, offset) - 1;
    Position(lineIdx + 1, offset - starts[lineIdx] + 1)
  }

  class SourceFile {
    const content: Bytes
    const lineStarts: seq<nat>

    constructor (content: Bytes)
      ensures this.content == content && Valid()
    {
      this.content := content;
      var starts := ComputeLineStarts(content);
      lineStarts := starts;
    }

    predicate Valid() {
      lineStarts == LineStarts(content)
    }

    /** The line is one more than the newlines before the offset; the column counts from the last of them. */
    function LineCol(offset: nat): (p: Position)
      requires Valid()
      ensures p.line == 1 + Newlines(Before(content, offset))
      ensures p.column == 1 + offset - LastStart(Before(content, offset))
    {
      FirstStart(content);
      LineColCounts(content, offset);
      LineColAt(lineStarts, offset)
    }
  }

  function LineColIn(s: Bytes, offset: nat): Position {
    FirstStart(s);
    LineColAt(LineStarts(s), offset)
  }

  lemma {:induction false} FirstStart(s: Bytes)
    ensures LineStarts(s)[0] == 0
  {
    if s != [] {
      FirstStart(s[..|s| - 1]);
    }
  }

  // ----- what the index says -----------------------------------------------

  /** The part of the file before `offset`, which may lie behind the end. */
  function Before(s: Bytes, offset: nat): (r: Bytes)
    ensures r <= s && |r| <= offset
  {
    if offset <= |s| then s[..offset] else s
  }

  /** One start for the file and one behind every newline, in order. */
  lemma {:induction false} StartsAreNewlines(s: Bytes)
    ensures |LineStarts(s)| == 1 + Newlines(s)
    ensures forall i :: 0 <= i < |LineStarts(s)| ==> LineStarts(s)[i] <= |s|
    ensures forall i :: 0 < i < |LineStarts(s)| ==> LineStarts(s)[i] > 0 && s[LineStarts(s)[i] - 1] == NEWLINE
    ensures forall i, j :: 0 <= i < j < |LineStarts(s)| ==> LineStarts(s)[i] < LineStarts(s)[j]
  {
    if s != [] {
      StartsAreNewlines(s[..|s| - 1]);
    }
  }

  /** The starts up to an offset are the starts of the part before it. */
  lemma {:induction false} StartsOfPart(s: Bytes, k: nat)
    requires k <= |s|
    ensures LineStarts(s[..k]) <= LineStarts(s)
    ensures forall i :: |LineStarts(s[..k])| <= i < |LineStarts(s)| ==> LineStarts(s)[i] > k
  {
    if k < |s| {
      var t := s[..|s| - 1];
      StartsOfPart(t, k);
      assert t[..k] == s[..k];
    } else {
      assert s[..k] == s;
    }
  }

  lemma {:induction false} PointUnique(starts: seq<nat>, offset: nat, k: nat)
    requires k <= |starts|
    requires forall i :: 0 <= i < k ==> starts[i] <= offset
    requires forall i :: k <= i < |starts| ==> starts[i] > offset
    ensures PartitionPoint(starts, offset) == k
  {
    if k > 0 {
      assert starts[0] <= offset;
      PointUnique(starts[1..], offset, k - 1);
    }
  }

  /** The index of the last line start of `s`. */
  function LastStart(s: Bytes): nat {
    LineStarts(s)[|LineStarts(s)| - 1]
  }

  /**
   The line is one more than the newlines before the offset, and the column counts from the
   last of them.
   */
  lemma LineColCounts(s: Bytes, offset: nat)
    ensures LineColIn(s, offset).line == 1 + Newlines(Before(s, offset))
    ensures LineColIn(s, offset).column == 1 + offset - LastStart(Before(s, offset))
  {
    var part := Before(s, offset);
    StartsAreNewlines(part);
    if offset <= |s| {
      StartsOfPart(s, offset);
    }
    PointUnique(LineStarts(s), offset, |LineStarts(part)|);
  }

  /** No newline lies between the last line start and the end. */
  lemma {:induction false} LastLineIsOne(s: Bytes)
    ensures LastStart(s) <= |s| && 0x0A !in s[LastStart(s)..]
    ensures LastStart(s) > 0 ==> s[LastStart(s) - 1] == 0x0A
  {
    if s != [] {
      var t := s[..|s| - 1];
      LastLineIsOne(t);
      var l := LastStart(t);
      if s[|s| - 1] != NEWLINE {
        assert s[l..] == t[l..] + [s[|s| - 1]];
      }
    }
  }

  /** Where a position lies in the file. */
  function OffsetOf(s: Bytes, p: Position): nat
    requires 0 < p.line <= |LineStarts(s)| && 0 < p.column
  {
    LineStarts(s)[p.line - 1] + p.column - 1
  }

  predicate IsPosition(s: Bytes, p: Position) {
    && 0 < p.line <= |LineStarts(s)| && 0 < p.column
    && (p.line < |LineStarts(s)| ==> OffsetOf(s, p) < LineStarts(s)[p.line])
  }

  /** Offsets and positions correspond one to one. */
  lemma LineColInverse(s: Bytes, offset: nat)
    ensures IsPosition(s, LineColIn(s, offset))
    ensures OffsetOf(s, LineColIn(s, offset)) == offset
  {
    FirstStart(s);
  }

  lemma OffsetInverse(s: Bytes, p: Position)
    requires IsPosition(s, p)
    ensures LineColIn(s, OffsetOf(s, p)) == p
  {
    StartsAreNewlines(s);
    PointUnique(LineStarts(s), OffsetOf(s, p), p.line);
  }

  // ----- spans inside an argument ------------------------------------------

  /** The arithmetic the tokenizer does: same line, column moved by the distance. */
  function Moved(p: Position, d: nat): Position {
    Position(p.line, p.column + d)
  }

  lemma {:induction false} NewlinesAppend(a: Bytes, b: Bytes)
    ensures Newlines(a + b) == Newlines(a) + Newlines(b)
    ensures NEWLINE !in b ==> Newlines(b) == 0 && LastStart(a + b) == LastStart(a)
    ensures NEWLINE in b ==> Newlines(b) > 0
  {
    if b == [] {
      assert a + b == a;
    } else {
      var b' := b[..|b| - 1];
      NewlinesAppend(a, b');
      assert (a + b)[..|a + b| - 1] == a + b';
      assert b == b' + [b[|b| - 1]];
    }
  }

  /** Moving along a line gives the file's own position exactly as long as no line ends on the way. */
  lemma MovedIsExact(s: Bytes, base: nat, d: nat)
    requires base + d <= |s|
    ensures LineColIn(s, base + d) == Moved(LineColIn(s, base), d) <==> NEWLINE !in s[base..base + d]
  {
    hide LineColIn, LineStarts, Newlines, LastStart;
    LineColCounts(s, base);
    LineColCounts(s, base + d);
    assert s[..base + d] == s[..base] + s[base..base + d];
    NewlinesAppend(s[..base], s[base..base + d]);
  }

  /** A value with where it came from (the path is left out). */
  datatype Located = Located(value: Bytes, start: nat, end: nat, position: Position) {
    /** The value is the source text of its span. */
    predicate In(s: Bytes) {
      start <= end <= |s| && value == s[start..end]
    }
  }

  /** A part of a located value. */
  function Part(l: Located, from: nat, to: nat): Located
    requires from <= to <= |l.value|
  {
    Located(l.value[from..to], l.start + from, l.start + to, Moved(l.position, from))
  }

  lemma SliceOfSlice(s: Bytes, a: nat, b: nat, from: nat, to: nat)
    requires a <= b <= |s| && from <= to <= b - a
    ensures s[a..b][from..to] == s[a + from..a + to]
  {
    assert forall k :: 0 <= k < to - from ==> s[a..b][from..to][k] == s[a + from..a + to][k];
  }

  /** Every part is the text of its span, and its position is the file's unless a line ends before it. */
  lemma PartIsLocated(s: Bytes, l: Located, from: nat, to: nat)
    requires l.In(s) && l.position == LineColIn(s, l.start) && from <= to <= |l.value|
    ensures Part(l, from, to).In(s)
    ensures Part(l, from, to).position == LineColIn(s, l.start + from) <==> NEWLINE !in l.value[..from]
  {
    hide LineColIn;
    MovedIsExact(s, l.start, from);
    SliceOfSlice(s, l.start, l.end, from, to);
    SliceOfSlice(s, l.start, l.end, 0, from);
  }
}
