/** Glob patterns of the configuration: the backtracking matcher and what it decides. */
module Glob {
  import opened Prelude
  import opened Wire

  const STAR: byte := 42
  const QUESTION: byte := 63
  const BANG: byte := 33

  function Lower(b: byte): byte {
    if 65 <= b <= 90 then b + 32 else b
  }

  /** The matcher, branch by branch; a star first tries to match nothing. */
  function GlobMatch(pat: Bytes, txt: Bytes): bool
    decreases |pat| + |txt|
  {
    if pat == [] then txt == []
    else if pat[0] == STAR then
      GlobMatch(pat[1..], txt) || (txt != [] && GlobMatch(pat, txt[1..]))
    else if txt == [] then false
    else if pat[0] == QUESTION || Lower(pat[0]) == Lower(txt[0]) then GlobMatch(pat[1..], txt[1..])
    else false
  }

  // ----- what it decides ---------------------------------------------------

  /** The same byte, or the capital and the small form (0x20 apart) of one of the 26 letters. */
  predicate SameLetter(a: byte, b: byte) {
    a == b || (0x41 <= a <= 0x5A && b == a + 0x20) || (0x41 <= b <= 0x5A && a == b + 0x20)
  }

  /** `*` is for any bytes, `?` for any one byte, every other byte for itself. */
  predicate SymbolMatches(p: byte, piece: Bytes) {
    p == 0x2A || (|piece| == 1 && (p == 0x3F || SameLetter(p, piece[0])))
  }

  /** The text in one piece for each symbol of the pattern. */
  predicate Splits(pat: Bytes, txt: Bytes, pieces: seq<Bytes>) {
    && |pieces| == |pat|
    && Flatten(pieces) == txt
    && forall i :: 0 <= i < |pat| ==> SymbolMatches(pat[i], pieces[i])
  }

  /** The matcher accepts exactly the texts that can be split. */
  lemma GlobMatchIsSplitting(pat: Bytes, txt: Bytes)
    ensures GlobMatch(pat, txt) <==> exists pieces :: Splits(pat, txt, pieces)
  {
    if GlobMatch(pat, txt) {
      var pieces := SplitOf(pat, txt);
    }
    forall pieces | Splits(pat, txt, pieces)
      ensures GlobMatch(pat, txt)
    {
      SplitMatches(pat, txt, pieces);
    }
  }

  lemma {:induction false} SplitOf(pat: Bytes, txt: Bytes) returns (pieces: seq<Bytes>)
    requires GlobMatch(pat, txt)
    ensures Splits(pat, txt, pieces)
    decreases |pat| + |txt|
  {
    if pat == [] {
      pieces := [];
    } else if pat[0] == STAR && !GlobMatch(pat[1..], txt) {
      var longer := SplitOf(pat, txt[1..]);
      pieces := [[txt[0]] + longer[0]] + longer[1..];
      assert longer == [longer[0]] + longer[1..];
      FlattenCons(longer[0], longer[1..]);
      FlattenCons([txt[0]] + longer[0], longer[1..]);
      assert txt == [txt[0]] + txt[1..];
    } else {
      var n := if pat[0] == STAR then 0 else 1;
      var rest := SplitOf(pat[1..], txt[n..]);
      pieces := [txt[..n]] + rest;
      FlattenCons(txt[..n], rest);
      assert txt == txt[..n] + txt[n..];
    }
  }

  lemma {:induction false} SplitMatches(pat: Bytes, txt: Bytes, pieces: seq<Bytes>)
    requires Splits(pat, txt, pieces)
    ensures GlobMatch(pat, txt)
    decreases |pat| + |txt|
  {
    if pat != [] {
      var first, rest := pieces[0], pieces[1..];
      assert pieces == [first] + rest;
      FlattenCons(first, rest);
      if pat[0] == STAR && first != [] {
        var shorter := [first[1..]] + rest;
        FlattenCons(first[1..], rest);
        assert Flatten(shorter) == txt[1..];
        SplitMatches(pat, txt[1..], shorter);
      } else {
        assert Flatten(rest) == txt[|first|..];
        SplitMatches(pat[1..], txt[|first|..], rest);
      }
    }
  }

  /** A concatenated pattern matches exactly the texts that fall into two matching parts. */
  lemma GlobMatchConcat(p: Bytes, q: Bytes, txt: Bytes)
    ensures GlobMatch(p + q, txt) <==>
            exists k :: 0 <= k <= |txt| && GlobMatch(p, txt[..k]) && GlobMatch(q, txt[k..])
  {
    if GlobMatch(p + q, txt) {
      var k := CutOf(p, q, txt);
    }
    forall k | 0 <= k <= |txt| && GlobMatch(p, txt[..k]) && GlobMatch(q, txt[k..])
      ensures GlobMatch(p + q, txt)
    {
      assert txt == txt[..k] + txt[k..];
      PartsMatch(p, q, txt[..k], txt[k..]);
    }
  }

  lemma {:induction false} CutOf(p: Bytes, q: Bytes, txt: Bytes) returns (k: nat)
    requires GlobMatch(p + q, txt)
    ensures k <= |txt| && GlobMatch(p, txt[..k]) && GlobMatch(q, txt[k..])
    decreases |p| + |txt|
  {
    if p == [] {
      assert p + q == q;
      k := 0;
    } else {
      assert (p + q)[1..] == p[1..] + q;
      if p[0] == STAR && GlobMatch(p[1..] + q, txt) {
        k := CutOf(p[1..], q, txt);
      } else {
        var p' := if p[0] == STAR then p else p[1..];
        k := CutOf(p', q, txt[1..]);
        k := k + 1;
        assert txt[1..][..k - 1] == txt[..k][1..] && txt[1..][k - 1..] == txt[k..];
      }
    }
  }

  lemma {:induction false} PartsMatch(p: Bytes, q: Bytes, a: Bytes, b: Bytes)
    requires GlobMatch(p, a) && GlobMatch(q, b)
    ensures GlobMatch(p + q, a + b)
    decreases |p| + |a|
  {
    if p == [] {
      assert p + q == q && a + b == b;
    } else {
      assert (p + q)[1..] == p[1..] + q;
      if p[0] == STAR && GlobMatch(p[1..], a) {
        PartsMatch(p[1..], q, a, b);
      } else {
        assert (a + b)[1..] == a[1..] + b;
        PartsMatch(if p[0] == STAR then p else p[1..], q, a[1..], b);
      }
    }
  }

  predicate SameText(s: Bytes, t: Bytes) {
    |s| == |t| && forall i :: 0 <= i < |s| ==> SameLetter(s[i], t[i])
  }

  /** Letter case never matters, in the pattern or in the text. */
  lemma {:induction false} GlobMatchIgnoresCase(p: Bytes, q: Bytes, s: Bytes, t: Bytes)
    requires SameText(p, q) && SameText(s, t)
    ensures GlobMatch(p, s) == GlobMatch(q, t)
    decreases |p| + |s|
  {
    if p != [] {
      assert SameLetter(p[0], q[0]);
      GlobMatchIgnoresCase(p[1..], q[1..], s, t);
      if s != [] {
        assert SameLetter(s[0], t[0]);
        GlobMatchIgnoresCase(p[1..], q[1..], s[1..], t[1..]);
        GlobMatchIgnoresCase(p, q, s[1..], t[1..]);
      }
    }
  }

  // ----- negation ----------------------------------------------------------

  datatype Pattern = Pattern(negated: bool, value: Bytes) {
    predicate Matches(text: Bytes) {
      if negated then !GlobMatch(value, text) else GlobMatch(value, text)
    }
  }

  function ParsePattern(token: Bytes): Pattern {
    if token != [] && token[0] == BANG then Pattern(true, token[1..]) else Pattern(false, token)
  }

  /** One leading exclamation mark turns the answer round; a second one is an ordinary byte. */
  lemma PatternMatches(token: Bytes, text: Bytes)
    ensures ParsePattern([0x21] + token).Matches(text) <==> !exists pieces :: Splits(token, text, pieces)
    ensures (token == [] || token[0] != 0x21) ==>
              (ParsePattern(token).Matches(text) <==> exists pieces :: Splits(token, text, pieces))
  {
    assert ([BANG] + token)[1..] == token;
    GlobMatchIsSplitting(token, text);
  }
}
