/** The loops that cut an argument string: Located::tokenize and Located::split_comma. */
module Tokenizer {
  import opened Prelude
  import opened Wire
  import opened SourceText

  /** The bytes from `start` up to `end`, and whether a quote opened them. */
  datatype Span = Span(start: nat, end: nat, quoted: bool)

  function IsBlank(b: byte): bool { b == SPACE || b == TAB }

  function NotBlank(b: byte): bool { !IsBlank(b) }

  function IsQuote(b: byte): bool { b == QUOTE }

  function EndsWord(b: byte): bool { IsBlank(b) || b == QUOTE }

  function IsComma(b: byte): bool { b == COMMA }

  /** The first index from `i` on whose byte has the property, or the length. */
  function FirstWhere(s: Bytes, i: nat, p: byte -> bool): (j: nat)
    requires i <= |s|
    ensures i <= j <= |s|
    ensures forall k :: i <= k < j ==> !p(s[k])
    ensures j < |s| ==> p(s[j])
    decreases |s| - i
  {
    if i == |s| || p(s[i]) then i else FirstWhere(s, i + 1, p)
  }

  // ----- the tokens --------------------------------------------------------

  /** The bytes that no word contains: tab, space and the double quote. */
  predicate Separates(b: byte) {
    b == 0x09 || b == 0x20 || b == 0x22
  }

  /** A quoted token runs from its quote to the next one or the end; any other is a whole word. */
  predicate IsToken(s: Bytes, t: Span) {
    && t.start <= t.end <= |s|
    && if t.quoted then
         && t.start > 0 && s[t.start - 1] == 0x22
         && (forall k :: t.start <= k < t.end ==> s[k] != 0x22)
         && (t.end < |s| ==> s[t.end] == 0x22)
       else
         && t.start < t.end
         && (forall k :: t.start <= k < t.end ==> !Separates(s[k]))
         && (t.end < |s| ==> Separates(s[t.end]))
  }

  /** The token that opens at `j`: up to the next quote behind a quote, else up to a blank or a quote. */
  function TokenAt(s: Bytes, j: nat): (t: Span)
    requires j < |s| && NotBlank(s[j])
    ensures IsToken(s, t)
    ensures t.start == (if t.quoted then j + 1 else j) && (t.quoted <==> s[j] == QUOTE)
  {
    if s[j] == QUOTE then Span(j + 1, FirstWhere(s, j + 1, IsQuote), true)
    else Span(j, FirstWhere(s, j, EndsWord), false)
  }

  /** Where the scan goes on: behind the closing quote, if there is one. */
  function After(s: Bytes, t: Span): nat {
    if t.quoted && t.end < |s| then t.end + 1 else t.end
  }

  function SpansFrom(s: Bytes, i: nat): (spans: seq<Span>)
    requires i <= |s|
    ensures forall k :: 0 <= k < |spans| ==> i <= spans[k].start <= spans[k].end <= |s|
    decreases |s| - i
  {
    var j := FirstWhere(s, i, NotBlank);
    if j == |s| then []
    else [TokenAt(s, j)] + SpansFrom(s, After(s, TokenAt(s, j)))
  }

  predicate Fit(spans: seq<Span>, l: Located) {
    forall k :: 0 <= k < |spans| ==> spans[k].start <= spans[k].end <= |l.value|
  }

  /** The spans as located parts. */
  function Parts(l: Located, spans: seq<Span>): (r: seq<Located>)
    requires Fit(spans, l)
  {
    seq(|spans|, k requires 0 <= k < |spans| => Part(l, spans[k].start, spans[k].end))
  }

  lemma PartsCons(l: Located, t: Span, spans: seq<Span>)
    requires t.start <= t.end <= |l.value| && Fit(spans, l)
    ensures Fit([t] + spans, l)
    ensures Parts(l, [t] + spans) == [Part(l, t.start, t.end)] + Parts(l, spans)
  {
    hide Part;
    assert ([t] + spans)[0] == t;
    assert forall k :: 0 <= k < |spans| ==> ([t] + spans)[k + 1] == spans[k];
  }

  /** The part of a round that makes a token, with `j` the first byte that is not blank. */
  method NextToken(l: Located, j: nat) returns (part: Located, i: nat)
    requires j < |l.value| && NotBlank(l.value[j])
    ensures var t := TokenAt(l.value, j); part == Part(l, t.start, t.end) && i == After(l.value, t)
  {
    var s, base := l.value, l.start;
    if s[j] == QUOTE {
      var contentStart := j + 1;
      var contentEnd := FirstWhere(s, contentStart, IsQuote);
      part := Located(s[contentStart..contentEnd], base + contentStart, base + contentEnd,
                      Position(l.position.line, l.position.column + contentStart));
      i := if contentEnd < |s| then contentEnd + 1 else contentEnd;
    } else {
      var start := j;
      i := SkipWord(s, start);
      part := Located(s[start..i], base + start, base + i,
                      Position(l.position.line, l.position.column + start));
    }
  }

  method Tokenize(l: Located) returns (result: seq<Located>)
    ensures result == Parts(l, SpansFrom(l.value, 0))
  {
    result := [];
    var s := l.value;
    var i := 0;
    while i < |s|
      invariant i <= |s|
      invariant result + Parts(l, SpansFrom(s, i)) == Parts(l, SpansFrom(s, 0))
      decreases |s| - i
    {
      hide FirstWhere, Parts, TokenAt;
      ghost var i0 := i;
      i := SkipBlanks(s, i);
      if i >= |s| {
        return;
      }
      ghost var t := TokenAt(s, i);
      var part;
      part, i := NextToken(l, i);
      PartsCons(l, t, SpansFrom(s, i));
      Regroup(result, [part], Parts(l, SpansFrom(s, i)));
      result := result + [part];
    }
  }

  method SkipBlanks(s: Bytes, from: nat) returns (i: nat)
    requires from <= |s|
    ensures i == FirstWhere(s, from, NotBlank)
  {
    i := from;
    while i < |s| && (s[i] == SPACE || s[i] == TAB)
      invariant from <= i <= |s|
      invariant FirstWhere(s, i, NotBlank) == FirstWhere(s, from, NotBlank)
    {
      i := i + 1;
    }
  }

  method SkipWord(s: Bytes, from: nat) returns (i: nat)
    requires from <= |s|
    ensures i == FirstWhere(s, from, EndsWord)
  {
    i := from;
    while i < |s| && !(s[i] == SPACE || s[i] == TAB || s[i] == QUOTE)
      invariant from <= i <= |s|
      invariant FirstWhere(s, i, EndsWord) == FirstWhere(s, from, EndsWord)
    {
      i := i + 1;
    }
  }

  // ----- what the tokens are -----------------------------------------------

  predicate Covered(spans: seq<Span>, b: nat) {
    exists k :: 0 <= k < |spans| && spans[k].start <= b < spans[k].end
  }

  predicate AllTokens(s: Bytes, i: nat, spans: seq<Span>) {
    forall t :: t in spans ==> i <= t.start && IsToken(s, t)
  }

  predicate InOrder(spans: seq<Span>) {
    forall j, k :: 0 <= j < k < |spans| ==> spans[j].end < spans[k].start
  }

  predicate BlankOutside(s: Bytes, i: nat, spans: seq<Span>) {
    forall b :: i <= b < |s| && !Covered(spans, b) ==> Separates(s[b])
  }

  /** Tokens are in order and apart, and what lies outside them is blank or a quote. */
  predicate IsTokenization(s: Bytes, i: nat, spans: seq<Span>) {
    AllTokens(s, i, spans) && InOrder(spans) && BlankOutside(s, i, spans)
  }

  lemma {:induction false} TokensPartition(s: Bytes, i: nat)
    requires i <= |s|
    ensures IsTokenization(s, i, SpansFrom(s, i))
    decreases |s| - i
  {
    var j := FirstWhere(s, i, NotBlank);
    if j < |s| {
      hide IsTokenization, TokenAt, FirstWhere;
      var t := TokenAt(s, j);
      var next := After(s, t);
      TokensPartition(s, next);
      NextIsApart(s, t);
      TokenFirst(s, i, j, t, next, SpansFrom(s, next));
    }
  }

  /** A word that ends in front of a quote is not the start of the next token. */
  lemma NextIsApart(s: Bytes, t: Span)
    requires IsToken(s, t)
    ensures var spans := SpansFrom(s, After(s, t)); spans != [] ==> t.end < spans[0].start
  {}

  lemma TokenFirst(s: Bytes, i: nat, j: nat, span: Span, next: nat, spans: seq<Span>)
    requires i <= j < |s| && IsToken(s, span)
    requires forall k :: i <= k < j ==> IsBlank(s[k])
    requires span.start == if span.quoted then j + 1 else j
    requires span.quoted ==> s[j] == QUOTE
    requires next == if span.quoted && span.end < |s| then span.end + 1 else span.end
    requires IsTokenization(s, next, spans)
    requires spans != [] ==> span.end < spans[0].start
    ensures IsTokenization(s, i, [span] + spans)
  {
    assert span.start <= span.end;
    assert forall t :: t in [span] + spans ==> t == span || t in spans;
    OrderFirst(s, span, spans, next);
    forall b | i <= b < |s| && !Covered([span] + spans, b)
      ensures Separates(s[b])
    {
      TokenCovers(s, i, j, span, next, spans, b);
    }
    hide IsToken, Covered, Separates, InOrder;
  }

  lemma OrderFirst(s: Bytes, span: Span, spans: seq<Span>, next: nat)
    requires AllTokens(s, next, spans) && InOrder(spans)
    requires spans != [] ==> span.end < spans[0].start
    ensures InOrder([span] + spans)
  {
    forall k | 0 <= k < |spans|
      ensures span.end < spans[k].start
    {
      assert spans[0] in spans;
    }
    hide IsToken, AllTokens;
  }

  lemma TokenCovers(s: Bytes, i: nat, j: nat, span: Span, next: nat, spans: seq<Span>, b: nat)
    requires i <= j < |s| && IsToken(s, span)
    requires forall k :: i <= k < j ==> IsBlank(s[k])
    requires span.start == if span.quoted then j + 1 else j
    requires span.quoted ==> s[j] == QUOTE
    requires next == if span.quoted && span.end < |s| then span.end + 1 else span.end
    requires forall c :: next <= c < |s| && !Covered(spans, c) ==> Separates(s[c])
    requires i <= b < |s| && !Covered([span] + spans, b)
    ensures Separates(s[b])
  {
    var all := [span] + spans;
    assert all[0] == span;
    assert b < span.start || span.end <= b;
    if next <= b {
      assert forall k :: 0 <= k < |spans| ==> all[k + 1] == spans[k];
      assert !Covered(spans, b);
    }
  }

  // ----- quoting -----------------------------------------------------------

  /** Every argument in double quotes, with a space between. */
  function Quoted(args: seq<Bytes>): Bytes {
    if args == [] then []
    else [0x22] + args[0] + [0x22] + if |args| == 1 then [] else [0x20] + Quoted(args[1..])
  }

  function Values(s: Bytes, spans: seq<Span>): (r: seq<Bytes>)
    requires forall k :: 0 <= k < |spans| ==> spans[k].start <= spans[k].end <= |s|
  {
    seq(|spans|, k requires 0 <= k < |spans| => s[spans[k].start..spans[k].end])
  }

  lemma ValuesCons(s: Bytes, t: Span, spans: seq<Span>)
    requires t.start <= t.end <= |s|
    requires forall k :: 0 <= k < |spans| ==> spans[k].start <= spans[k].end <= |s|
    ensures Values(s, [t] + spans) == [s[t.start..t.end]] + Values(s, spans)
  {
    assert ([t] + spans)[0] == t;
    assert forall k :: 0 <= k < |spans| ==> ([t] + spans)[k + 1] == spans[k];
  }

  predicate QuoteFree(args: seq<Bytes>) {
    forall k :: 0 <= k < |args| ==> QUOTE !in args[k]
  }

  /** Quoted arguments without quotes inside are taken apart again. */
  lemma {:induction false} QuotedRoundTrip(args: seq<Bytes>, s: Bytes, i: nat)
    requires QuoteFree(args)
    requires i <= |s| && s[i..] == Quoted(args)
    ensures Values(s, SpansFrom(s, i)) == args
    decreases |args|
  {
    hide SpansFrom, Values, FirstWhere;
    if args == [] {
      NothingQuoted(s, i);
    } else {
      hide Quoted;
      var t := Span(i + 1, i + 1 + |args[0]|, true);
      FirstQuoted(args, s, i);
      ValuesCons(s, t, SpansFrom(s, t.end + 1));
      if |args| == 1 {
        NothingQuoted(s, t.end + 1);
      } else {
        BlankSkipped(s, t.end + 1);
        QuotedRoundTrip(args[1..], s, t.end + 2);
      }
      assert args == [args[0]] + args[1..];
    }
  }

  lemma NothingQuoted(s: Bytes, i: nat)
    requires i <= |s| && s[i..] == []
    ensures Values(s, SpansFrom(s, i)) == []
  {
    assert FirstWhere(s, i, NotBlank) == i;
  }

  lemma FirstQuoted(args: seq<Bytes>, s: Bytes, i: nat)
    requires args != [] && QUOTE !in args[0]
    requires i <= |s| && s[i..] == Quoted(args)
    ensures var t := Span(i + 1, i + 1 + |args[0]|, true);
            && t.end < |s| && s[t.start..t.end] == args[0]
            && SpansFrom(s, i) == [t] + SpansFrom(s, t.end + 1)
            && if |args| == 1 then s[t.end + 1..] == []
               else t.end + 1 < |s| && s[t.end + 1] == SPACE && s[t.end + 2..] == Quoted(args[1..])
  {
    hide SpansFrom;
    var tail := if |args| == 1 then [] else [SPACE] + Quoted(args[1..]);
    assert s[i..] == [QUOTE] + args[0] + [QUOTE] + tail;
    hide Quoted;
    QuotedBytes(s, i, args[0], tail);
    var e := i + 1 + |args[0]|;
    SpansQuoted(s, i, e);
    if |args| > 1 {
      TailBytes(s, e + 1, SPACE, Quoted(args[1..]));
    }
  }

  lemma QuotedBytes(s: Bytes, i: nat, a: Bytes, tail: Bytes)
    requires i <= |s| && s[i..] == [QUOTE] + a + [QUOTE] + tail
    ensures var e := i + 1 + |a|;
            e < |s| && s[i] == s[e] == QUOTE && s[i + 1..e] == a && s[e + 1..] == tail
  {
    var q := s[i..];
    assert q[0] == QUOTE && q[1 + |a|] == QUOTE && s[i] == q[0] && s[i + 1 + |a|] == q[1 + |a|];
    assert q[1..1 + |a|] == a && q[1..1 + |a|] == s[i + 1..i + 1 + |a|];
    assert q[2 + |a|..] == tail && q[2 + |a|..] == s[i + 2 + |a|..];
  }

  lemma TailBytes(s: Bytes, i: nat, b: byte, tail: Bytes)
    requires i <= |s| && s[i..] == [b] + tail
    ensures i < |s| && s[i] == b && s[i + 1..] == tail
  {
    assert s[i] == s[i..][0] && s[i + 1..] == s[i..][1..];
  }

  lemma SpansQuoted(s: Bytes, i: nat, e: nat)
    requires i < e < |s| && s[i] == s[e] == QUOTE && QUOTE !in s[i + 1..e]
    ensures SpansFrom(s, i) == [Span(i + 1, e, true)] + SpansFrom(s, e + 1)
  {
    TokenQuoted(s, i, e);
    hide FirstWhere, TokenAt, IsBlank;
  }

  lemma TokenQuoted(s: Bytes, i: nat, e: nat)
    requires i < e < |s| && s[i] == s[e] == QUOTE && QUOTE !in s[i + 1..e]
    ensures FirstWhere(s, i, NotBlank) == i && TokenAt(s, i) == Span(i + 1, e, true)
  {
    assert forall k :: i + 1 <= k < e ==> s[k] == s[i + 1..e][k - i - 1];
    FirstIs(s, i + 1, e, IsQuote);
    FirstIs(s, i, i, NotBlank);
    hide FirstWhere;
  }

  lemma {:induction false} FirstIs(s: Bytes, i: nat, e: nat, p: byte -> bool)
    requires i <= e < |s| && p(s[e])
    requires forall k :: i <= k < e ==> !p(s[k])
    ensures FirstWhere(s, i, p) == e
    decreases e - i
  {
    if i < e {
      FirstIs(s, i + 1, e, p);
    }
  }

  lemma BlankSkipped(s: Bytes, i: nat)
    requires i < |s| && IsBlank(s[i])
    ensures SpansFrom(s, i) == SpansFrom(s, i + 1)
  {
    assert FirstWhere(s, i, NotBlank) == FirstWhere(s, i + 1, NotBlank);
  }

  // ----- comma-separated parts ---------------------------------------------

  /** What str::split makes of a string: the stretches between commas. */
  function Split(s: Bytes): (r: seq<Bytes>)
    ensures r != []
  {
    var k := FirstWhere(s, 0, IsComma);
    if k == |s| then [s] else [s[..k]] + Split(s[k + 1..])
  }

  function CommaSpans(s: Bytes, i: nat): (spans: seq<Span>)
    requires i <= |s|
    ensures spans != []
    ensures forall k :: 0 <= k < |spans| ==> i <= spans[k].start <= spans[k].end <= |s|
    decreases |s| - i
  {
    var e := FirstWhere(s, i, IsComma);
    [Span(i, e, false)] + if e == |s| then [] else CommaSpans(s, e + 1)
  }

  lemma {:induction false} SplitIsSpans(s: Bytes, i: nat)
    requires i <= |s|
    ensures Split(s[i..]) == Values(s, CommaSpans(s, i))
    decreases |s| - i
  {
    hide Split, CommaSpans, Values, FirstWhere;
    var e := FirstWhere(s, i, IsComma);
    SplitUnfolds(s, i);
    if e < |s| {
      SplitIsSpans(s, e + 1);
      ValuesCons(s, Span(i, e, false), CommaSpans(s, e + 1));
    }
  }

  lemma SplitUnfolds(s: Bytes, i: nat)
    requires i <= |s|
    ensures var e := FirstWhere(s, i, IsComma);
            if e < |s| then
              && Split(s[i..]) == [s[i..e]] + Split(s[e + 1..])
              && CommaSpans(s, i) == [Span(i, e, false)] + CommaSpans(s, e + 1)
            else Split(s[i..]) == Values(s, CommaSpans(s, i)) == [s[i..]]
  {
    var e := FirstWhere(s, i, IsComma);
    FirstShifts(s, i, i, IsComma);
    if e < |s| {
      assert s[i..][..e - i] == s[i..e];
      assert s[i..][e - i + 1..] == s[e + 1..];
    } else {
      assert s[i..e] == s[i..];
    }
  }

  lemma {:induction false} FirstShifts(s: Bytes, i: nat, k: nat, p: byte -> bool)
    requires i <= k <= |s|
    ensures FirstWhere(s[i..], k - i, p) == FirstWhere(s, k, p) - i
    decreases |s| - k
  {
    if k < |s| && !p(s[k]) {
      FirstShifts(s, i, k + 1, p);
    }
  }

  method SplitComma(l: Located) returns (result: seq<Located>)
    ensures result == Parts(l, CommaSpans(l.value, 0))
  {
    hide Split, CommaSpans, Parts;
    result := [];
    var base := l.start;
    var offset := 0;
    var parts := Split(l.value);
    ghost var spans := CommaSpans(l.value, 0);
    FirstPart(l);
    for i := 0 to |parts|
      invariant |parts| == |spans| && result == Parts(l, spans[..i])
      invariant offset == if i < |spans| then spans[i].start else |l.value| + 1
    {
      var part := parts[i];
      NextPart(l, i);
      result := result + [Located(part, base + offset, base + offset + |part|,
                                  Position(l.position.line, l.position.column + offset))];
      offset := offset + |part| + 1;
    }
    assert spans[..|parts|] == spans;
  }

  lemma FirstPart(l: Located)
    ensures |Split(l.value)| == |CommaSpans(l.value, 0)|
    ensures CommaSpans(l.value, 0)[0].start == 0
    ensures Parts(l, CommaSpans(l.value, 0)[..0]) == []
  {
    hide Split, CommaSpans;
    assert l.value[0..] == l.value;
    SplitIsSpans(l.value, 0);
    CommasBetween(l.value, 0);
  }

  lemma NextPart(l: Located, i: nat)
    requires i < |CommaSpans(l.value, 0)|
    ensures var spans, parts := CommaSpans(l.value, 0), Split(l.value);
            && |parts| == |spans| && parts[i] == l.value[spans[i].start..spans[i].end]
            && Parts(l, spans[..i + 1]) == Parts(l, spans[..i]) + [Part(l, spans[i].start, spans[i].end)]
            && spans[i].end + 1 == if i + 1 < |spans| then spans[i + 1].start else |l.value| + 1
  {
    hide Split, CommaSpans;
    assert l.value[0..] == l.value;
    SplitIsSpans(l.value, 0);
    CommasBetween(l.value, 0);
    assert i + 1 < |CommaSpans(l.value, 0)| ==>
        CommaBetween(l.value, CommaSpans(l.value, 0)[i], CommaSpans(l.value, 0)[i + 1]);
  }

  predicate CommaBetween(s: Bytes, a: Span, b: Span) {
    b.start == a.end + 1 && a.end < |s| && s[a.end] == 0x2C
  }

  /** Parts that fill the string from `i` on, with one comma between neighbours and none inside. */
  predicate IsCommaSplit(s: Bytes, i: nat, spans: seq<Span>) {
    && spans != [] && spans[0].start == i && spans[|spans| - 1].end == |s|
    && (forall k :: 0 <= k < |spans| ==>
          spans[k].start <= spans[k].end <= |s| && 0x2C !in s[spans[k].start..spans[k].end])
    && (forall k :: 0 <= k < |spans| - 1 ==> CommaBetween(s, spans[k], spans[k + 1]))
  }

  lemma {:induction false} CommasBetween(s: Bytes, i: nat)
    requires i <= |s|
    ensures IsCommaSplit(s, i, CommaSpans(s, i))
    decreases |s| - i
  {
    hide IsCommaSplit, FirstWhere;
    var e := FirstWhere(s, i, IsComma);
    UpToComma(s, i);
    if e < |s| {
      CommasBetween(s, e + 1);
      CommaFirst(s, i, e, CommaSpans(s, e + 1));
    } else {
      LastComma(s, i);
      assert [Span(i, e, false)] + [] == [Span(i, |s|, false)];
    }
  }

  lemma UpToComma(s: Bytes, i: nat)
    requires i <= |s|
    ensures var e := FirstWhere(s, i, IsComma);
            COMMA !in s[i..e] && (if e < |s| then s[e] == COMMA else s[i..e] == s[i..])
  {}

  lemma LastComma(s: Bytes, i: nat)
    requires i <= |s| && COMMA !in s[i..]
    ensures IsCommaSplit(s, i, [Span(i, |s|, false)])
  {
    assert s[i..|s|] == s[i..];
  }

  lemma CommaFirst(s: Bytes, i: nat, e: nat, spans: seq<Span>)
    requires i <= e < |s| && s[e] == COMMA && COMMA !in s[i..e]
    requires IsCommaSplit(s, e + 1, spans)
    ensures IsCommaSplit(s, i, [Span(i, e, false)] + spans)
  {
    var all := [Span(i, e, false)] + spans;
    assert forall k :: 0 <= k < |spans| ==> all[k + 1] == spans[k];
    forall k | 0 <= k < |all| - 1
      ensures CommaBetween(s, all[k], all[k + 1])
    {
      if k > 0 {
        assert CommaBetween(s, spans[k - 1], spans[k - 1 + 1]);
      }
    }
  }

  // ----- where tokens and parts are ----------------------------------------

  /** The arithmetic of both loops: right for every part that no newline precedes in the argument. */
  lemma PartsAreLocated(s: Bytes, l: Located, spans: seq<Span>, k: nat)
    requires l.In(s) && l.position == LineColIn(s, l.start)
    requires Fit(spans, l) && k < |spans|
    ensures Parts(l, spans)[k].In(s)
    ensures Parts(l, spans)[k].position == LineColIn(s, Parts(l, spans)[k].start) <==>
            NEWLINE !in l.value[..spans[k].start]
  {
    PartIsLocated(s, l, spans[k].start, spans[k].end);
  }

  /** The tokens and comma parts of a one-line argument are where SourceFile::location says. */
  lemma OneLineLocations(s: Bytes, l: Located, p: Located)
    requires l.In(s) && l.position == LineColIn(s, l.start) && NEWLINE !in l.value
    requires p in Parts(l, SpansFrom(l.value, 0)) || p in Parts(l, CommaSpans(l.value, 0))
    ensures p.In(s) && p.position == LineColIn(s, p.start)
  {
    hide SpansFrom, CommaSpans, LineColIn;
    var spans := if p in Parts(l, SpansFrom(l.value, 0)) then SpansFrom(l.value, 0) else CommaSpans(l.value, 0);
    var k :| 0 <= k < |spans| && Parts(l, spans)[k] == p;
    PartsAreLocated(s, l, spans, k);
  }
}
