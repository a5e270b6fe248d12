/**
 The language of forwarding rules: every way to spell an endpoint, and for every text whether
 it is a rule and which. The grammar commits to the first alternative that matches, and still
 accepts exactly the texts that can be spelled.
 */
module ForwardText {
  import opened Prelude
  import opened Decimals
  import opened ForwardSpec

  /** The forms of an endpoint. */
  datatype Spelling =
    | InBrackets(host: string, numeral: string) // [host]:port
    | Star(numeral: string)                     // *:port
    | Named(host: string, numeral: string)      // host:port
    | PortAlone(numeral: string)                // port
    | AtPath(path: string)                      // /path

  /** Digits, leading zeros allowed, for a number of 16 bits. */
  predicate Numeral(d: string) {
    d != "" && AllDigits(d) && ValueOf(d) <= 65535
  }

  function PortOf(d: string): Port
    requires Numeral(d)
  {
    ValueOf(d)
  }

  predicate WellFormed(x: Spelling) {
    match x
    case InBrackets(h, d) => h != "" && ']' !in h && Numeral(d)
    case Star(d) => Numeral(d)
    case Named(h, d) => Plain(h) && Numeral(d)
    case PortAlone(d) => Numeral(d)
    case AtPath(p) => PlainPath(p)
  }

  function TextOf(x: Spelling): string {
    match x
    case InBrackets(h, d) => "[" + h + "]" + (":" + d)
    case Star(d) => "*" + (":" + d)
    case Named(h, d) => h + (":" + d)
    case PortAlone(d) => d
    case AtPath(p) => p
  }

  /** A port alone stands for that port of the loopback host. */
  function MeaningOf(x: Spelling, loopback: string): Endpoint
    requires WellFormed(x)
  {
    match x
    case InBrackets(h, d) => Tcp(h, PortOf(d))
    case Star(d) => Tcp("", PortOf(d))
    case Named(h, d) => Tcp(h, PortOf(d))
    case PortAlone(d) => Tcp(loopback, PortOf(d))
    case AtPath(p) => Unix(p)
  }

  /** What can be listened on; the name "*" is the star. */
  predicate Bind(x: Spelling) {
    WellFormed(x) && !(x.Named? && x.host == "*")
  }

  /** What can be connected to. */
  predicate Target(x: Spelling) {
    WellFormed(x) && !x.Star? && !x.PortAlone?
  }

  // ----- what is spelled is read -------------------------------------------

  lemma NumeralAt(d: string, rest: string)
    requires Numeral(d) && (rest == "" || !IsDigit(rest[0]))
    ensures PortAt(d + rest) == Some(Parsed(PortOf(d), rest))
  {
    TakeIs(d, rest, DigitChar);
    assert (d + rest)[..|d|] == d && (d + rest)[|d|..] == rest;
  }

  lemma NumeralBehind(h: Option<Parsed<string>>, d: string, rest: string)
    requires Numeral(d) && (rest == "" || rest[0] == ':')
    requires h.Some? && h.value.rest == ":" + (d + rest)
    ensures ThenPort(h) == Some(Parsed(Tcp(h.value.value, PortOf(d)), rest))
  {
    assert h.value.rest[1..] == d + rest;
    NumeralAt(d, rest);
  }

  /** Which alternatives see a spelled endpoint, and as what. */
  ghost predicate Seen(x: Spelling, rest: string)
    requires WellFormed(x)
  {
    var s := TextOf(x) + rest;
    match x
    case AtPath(p) =>
      && PathAt(s) == Some(Parsed(Unix(p), rest))
      && BracketAt(s).None? && StarAt(s).None? && HostAt(s).None? && PortAt(s).None?
    case InBrackets(h, d) =>
      && ThenPort(BracketAt(s)) == Some(Parsed(Tcp(h, PortOf(d)), rest))
      && PathAt(s).None? && StarAt(s).None? && HostAt(s).None? && PortAt(s).None?
    case Star(d) =>
      && ThenPort(StarAt(s)) == Some(Parsed(Tcp("", PortOf(d)), rest))
      && ThenPort(HostAt(s)) == Some(Parsed(Tcp("*", PortOf(d)), rest))
      && PathAt(s).None? && BracketAt(s).None? && PortAt(s).None?
    case Named(h, d) =>
      && ThenPort(HostAt(s)) == Some(Parsed(Tcp(h, PortOf(d)), rest))
      && PathAt(s).None? && BracketAt(s).None? && (h != "*" ==> ThenPort(StarAt(s)).None?)
    case PortAlone(d) =>
      && HostAt(s) == Some(Parsed(d, rest)) && PortAt(s) == Some(Parsed(PortOf(d), rest))
      && PathAt(s).None? && BracketAt(s).None? && StarAt(s).None?
  }

  lemma SpelledSeen(x: Spelling, rest: string)
    requires WellFormed(x) && (rest == "" || rest[0] == ':')
    ensures Seen(x, rest)
  {
    hide PathAt, BracketAt, StarAt, HostAt, PortAt, ThenPort;
    match x {
      case AtPath(p) => PathSeen(p, rest);
      case InBrackets(h, d) => BracketSeen(h, d, rest);
      case Star(d) => StarSeen(d, rest);
      case Named(h, d) => NameSeen(h, d, rest);
      case PortAlone(d) => NumeralSeen(d, rest);
    }
  }

  lemma PathSeen(p: string, rest: string)
    requires PlainPath(p) && (rest == "" || rest[0] == ':')
    ensures var s := p + rest;
            && PathAt(s) == Some(Parsed(Unix(p), rest))
            && BracketAt(s).None? && StarAt(s).None? && HostAt(s).None? && PortAt(s).None?
  {
    PathReadBack(p, rest);
    assert (p + rest)[0] == '/';
  }

  lemma BracketSeen(h: string, d: string, rest: string)
    requires h != "" && ']' !in h && Numeral(d) && (rest == "" || rest[0] == ':')
    ensures var s := "[" + h + "]" + (":" + d) + rest;
            && ThenPort(BracketAt(s)) == Some(Parsed(Tcp(h, PortOf(d)), rest))
            && PathAt(s).None? && StarAt(s).None? && HostAt(s).None? && PortAt(s).None?
  {
    var s := "[" + h + "]" + (":" + d) + rest;
    assert s == "[" + h + "]" + (":" + (d + rest)) && s[0] == '[';
    BracketReadBack(h, ":" + (d + rest));
    NumeralBehind(BracketAt(s), d, rest);
  }

  lemma NumeralSeen(d: string, rest: string)
    requires Numeral(d) && (rest == "" || rest[0] == ':')
    ensures var s := d + rest;
            && HostAt(s) == Some(Parsed(d, rest)) && PortAt(s) == Some(Parsed(PortOf(d), rest))
            && PathAt(s).None? && BracketAt(s).None? && StarAt(s).None?
  {
    assert IsDigit((d + rest)[0]);
    HostReadBack(d, rest);
    NumeralAt(d, rest);
  }

  lemma StarSeen(d: string, rest: string)
    requires Numeral(d) && (rest == "" || rest[0] == ':')
    ensures var s := "*" + (":" + d) + rest;
            && ThenPort(StarAt(s)) == Some(Parsed(Tcp("", PortOf(d)), rest))
            && ThenPort(HostAt(s)) == Some(Parsed(Tcp("*", PortOf(d)), rest))
            && PathAt(s).None? && BracketAt(s).None? && PortAt(s).None?
  {
    var s, tail := "*" + (":" + d) + rest, ":" + (d + rest);
    assert s == "*" + tail && s[1..] == tail && s[0] == '*';
    NumeralBehind(StarAt(s), d, rest);
    HostReadBack("*", tail);
    NumeralBehind(HostAt(s), d, rest);
  }

  lemma NameSeen(h: string, d: string, rest: string)
    requires Plain(h) && Numeral(d) && (rest == "" || rest[0] == ':')
    ensures var s := h + (":" + d) + rest;
            && ThenPort(HostAt(s)) == Some(Parsed(Tcp(h, PortOf(d)), rest))
            && PathAt(s).None? && BracketAt(s).None? && (h != "*" ==> ThenPort(StarAt(s)).None?)
  {
    var s, tail := h + (":" + d) + rest, ":" + (d + rest);
    assert s == h + tail && s[0] == h[0];
    HostReadBack(h, tail);
    NumeralBehind(HostAt(s), d, rest);
    assert |h| > 1 ==> s[1] == h[1];
  }

  /** Digits alone cannot be connected to. */
  lemma NumeralIsNoTarget(d: string)
    requires Numeral(d)
    ensures ConnectAt(d).None?
  {
    assert d + "" == d && TextOf(PortAlone(d)) == d;
    SpelledSeen(PortAlone(d), "");
    hide PathAt, BracketAt, HostAt;
  }

  lemma TargetRead(x: Spelling, loopback: string)
    requires Target(x)
    ensures ConnectAt(TextOf(x)) == Some(Parsed(MeaningOf(x, loopback), ""))
  {
    assert TextOf(x) + "" == TextOf(x);
    SpelledSeen(x, "");
    hide PathAt, BracketAt, HostAt, ThenPort;
  }

  /** In front of a target a numeral is not taken for a host. */
  lemma NoHostPort(x: Spelling)
    requires Target(x)
    ensures var p := PortAt(TextOf(x));
            p.Some? && p.value.rest != "" && p.value.rest[0] == ':' ==> ConnectAt(p.value.rest[1..]).None?
  {
    var t := TextOf(x);
    if x.Named? {
      DigitsThenColon(x.host, ":" + x.numeral);
      assert (":" + x.numeral)[1..] == x.numeral;
      NumeralIsNoTarget(x.numeral);
    } else {
      assert t[0] == '/' || t[0] == '[';
    }
  }

  lemma RuleRead(b: Spelling, c: Spelling, loopback: string)
    requires Bind(b) && Target(c)
    ensures ConnectRule(TextOf(b) + (":" + TextOf(c)), loopback)
            == Some(Parsed(Forward(MeaningOf(b, loopback), Some(MeaningOf(c, loopback))), ""))
  {
    hide ConnectAt, PathAt, BracketAt, StarAt, HostAt, PortAt, TextOf;
    var t := TextOf(c);
    var rest := ":" + t;
    assert rest[1..] == t;
    SpelledSeen(b, rest);
    TargetRead(c, loopback);
    NoHostPort(c);
  }

  /** A text that is a bind address and nothing else. */
  lemma ListenRead(b: Spelling, loopback: string)
    requires Bind(b) && !b.AtPath?
    ensures ConnectRule(TextOf(b), loopback).None?
    ensures ListenRule(TextOf(b), loopback) == Some(Parsed(Forward(MeaningOf(b, loopback), None), ""))
  {
    hide ConnectAt, PathAt, BracketAt, StarAt, HostAt, PortAt, TextOf;
    assert TextOf(b) + "" == TextOf(b);
    SpelledSeen(b, "");
    if b.Named? { NoHostPort(b); }
  }

  // ----- what is read was spelled ------------------------------------------

  lemma NumeralTaken(s: string) returns (d: string)
    requires PortAt(s).Some?
    ensures Numeral(d) && s == d + PortAt(s).value.rest && PortAt(s).value.value == PortOf(d)
  {
    d := s[..TakeWhile(s, DigitChar)];
  }

  lemma BracketTaken(s: string)
    requires BracketAt(s).Some?
    ensures var h := BracketAt(s).value; h.value != "" && ']' !in h.value && s == "[" + h.value + "]" + h.rest
  {
    var n := TakeWhile(s[1..], NotBracket);
    var h := s[1..1 + n];
    forall i | 0 <= i < |h| ensures h[i] != ']' {
      assert h[i] == s[1..][i] && NotBracket(s[1..][i]);
    }
    assert s == s[..1] + s[1..1 + n] + s[1 + n..2 + n] + s[2 + n..];
  }

  lemma NameTaken(s: string)
    requires HostAt(s).Some?
    ensures Plain(HostAt(s).value.value) && s == HostAt(s).value.value + HostAt(s).value.rest
  {
    var n := TakeWhile(s, HostChar);
    assert s == s[..n] + s[n..];
  }

  lemma PathTaken(s: string)
    requires PathAt(s).Some?
    ensures PathAt(s).value.value.Unix? && PlainPath(PathAt(s).value.value.path)
    ensures s == PathAt(s).value.value.path + PathAt(s).value.rest
  {
    PathIsPlain(s);
    var n := 1 + TakeWhile(s[1..], NotColon);
    assert s == s[..n] + s[n..];
  }

  /** A host, a colon and a numeral, with the same rest. */
  lemma ThenPortTaken(h: Option<Parsed<string>>) returns (d: string)
    requires ThenPort(h).Some?
    ensures h.Some? && Numeral(d) && h.value.rest == (":" + d) + ThenPort(h).value.rest
    ensures ThenPort(h).value.value == Tcp(h.value.value, PortOf(d))
  {
    var t := h.value.rest[1..];
    d := NumeralTaken(t);
    assert h.value.rest == ":" + t;
  }

  lemma InBracketsTaken(s: string) returns (x: Spelling)
    requires ThenPort(BracketAt(s)).Some?
    ensures x.InBrackets? && WellFormed(x) && s == TextOf(x) + ThenPort(BracketAt(s)).value.rest
    ensures forall l :: MeaningOf(x, l) == ThenPort(BracketAt(s)).value.value
  {
    var d := ThenPortTaken(BracketAt(s));
    BracketTaken(s);
    x := InBrackets(BracketAt(s).value.value, d);
    hide BracketAt, ThenPort;
  }

  lemma NamedTaken(s: string) returns (x: Spelling)
    requires ThenPort(HostAt(s)).Some?
    ensures x.Named? && WellFormed(x) && s == TextOf(x) + ThenPort(HostAt(s)).value.rest
    ensures forall l :: MeaningOf(x, l) == ThenPort(HostAt(s)).value.value
  {
    var d := ThenPortTaken(HostAt(s));
    NameTaken(s);
    x := Named(HostAt(s).value.value, d);
    hide HostAt, ThenPort;
  }

  lemma StarTaken(s: string) returns (x: Spelling)
    requires ThenPort(StarAt(s)).Some?
    ensures x.Star? && WellFormed(x) && s == TextOf(x) + ThenPort(StarAt(s)).value.rest
    ensures forall l :: MeaningOf(x, l) == ThenPort(StarAt(s)).value.value
  {
    var d := ThenPortTaken(StarAt(s));
    assert s == "*" + s[1..];
    x := Star(d);
    hide ThenPort;
  }

  lemma TargetTaken(s: string, loopback: string) returns (x: Spelling)
    requires ConnectAt(s).Some?
    ensures Target(x) && s == TextOf(x) + ConnectAt(s).value.rest && MeaningOf(x, loopback) == ConnectAt(s).value.value
  {
    hide PathAt, BracketAt, HostAt, ThenPort, TextOf;
    if PathAt(s).Some? {
      PathTaken(s);
      x := AtPath(PathAt(s).value.value.path);
      assert TextOf(x) == x.path by { PathText(x.path); }
    } else if ThenPort(BracketAt(s)).Some? {
      x := InBracketsTaken(s);
    } else {
      x := NamedTaken(s);
    }
  }

  lemma PathText(path: string)
    ensures TextOf(AtPath(path)) == path
  {}

  /** The host "*" is never taken for a name in front of a port: the star comes first and takes as much. */
  lemma StarFirst(s: string)
    requires HostAt(s).Some? && HostAt(s).value.value == "*"
    ensures StarAt(s) == Some(Parsed("", HostAt(s).value.rest))
  {
    NameTaken(s);
  }

  lemma RuleTaken(s: string, loopback: string) returns (b: Spelling, c: Spelling)
    requires ConnectRule(s, loopback).Some?
    ensures Bind(b) && Target(c)
    ensures var r := ConnectRule(s, loopback).value;
            && s == TextOf(b) + (":" + TextOf(c)) + r.rest
            && r.value == Forward(MeaningOf(b, loopback), Some(MeaningOf(c, loopback)))
  {
    hide PathAt, BracketAt, StarAt, HostAt, PortAt, ThenPort, ConnectAt, TextOf;
    var rest;
    if WithConnect(PathAt(s)).Some? {
      PathTaken(s);
      b, rest := AtPath(PathAt(s).value.value.path), PathAt(s).value.rest;
      PathText(b.path);
    } else if WithConnect(ThenPort(BracketAt(s))).Some? {
      b := InBracketsTaken(s);
      rest := ThenPort(BracketAt(s)).value.rest;
    } else if WithConnect(ThenPort(StarAt(s))).Some? {
      b := StarTaken(s);
      rest := ThenPort(StarAt(s)).value.rest;
    } else if WithConnect(ThenPort(HostAt(s))).Some? {
      b := NamedTaken(s);
      rest := ThenPort(HostAt(s)).value.rest;
      NameIsNoStar(s);
      assert MeaningOf(b, loopback) == Tcp(b.host, PortOf(b.numeral));
    } else {
      var d := NumeralTaken(s);
      b, rest := PortAlone(d), PortAt(s).value.rest;
      NumeralText(d);
    }
    c := TargetTaken(rest[1..], loopback);
    assert rest == ":" + rest[1..];
    SpelledOut(s, TextOf(b), TextOf(c), ConnectRule(s, loopback).value.rest, rest);
  }

  lemma NumeralText(d: string)
    ensures TextOf(PortAlone(d)) == d
  {}

  lemma SpelledOut(s: string, b: string, c: string, left: string, rest: string)
    requires s == b + rest && rest == ":" + (c + left)
    ensures s == b + (":" + c) + left
  {}

  lemma NameIsNoStar(s: string)
    requires WithConnect(ThenPort(StarAt(s))).None? && WithConnect(ThenPort(HostAt(s))).Some?
    ensures ThenPort(HostAt(s)).value.value.host != "*"
  {
    if HostAt(s).value.value == "*" { StarFirst(s); }
    hide HostAt, StarAt, PortAt, ConnectAt;
  }

  lemma ListenTaken(s: string, loopback: string) returns (b: Spelling)
    requires ListenRule(s, loopback).Some?
    ensures Bind(b) && !b.AtPath?
    ensures var r := ListenRule(s, loopback).value;
            s == TextOf(b) + r.rest && r.value == Forward(MeaningOf(b, loopback), None)
  {
    hide BracketAt, StarAt, HostAt, PortAt, ThenPort, TextOf;
    if ThenPort(BracketAt(s)).Some? {
      b := InBracketsTaken(s);
    } else if ThenPort(StarAt(s)).Some? {
      b := StarTaken(s);
    } else if ThenPort(HostAt(s)).Some? {
      b := NamedTaken(s);
      ListenedIsNoStar(s);
      assert MeaningOf(b, loopback) == Tcp(b.host, PortOf(b.numeral));
    } else {
      var d := NumeralTaken(s);
      b := PortAlone(d);
      NumeralText(d);
    }
  }

  lemma ListenedIsNoStar(s: string)
    requires ThenPort(StarAt(s)).None? && ThenPort(HostAt(s)).Some?
    ensures ThenPort(HostAt(s)).value.value.host != "*"
  {
    if HostAt(s).value.value == "*" { StarFirst(s); }
    hide HostAt, StarAt, PortAt;
  }

  // ----- the language ------------------------------------------------------

  /** The text is a bind address, a colon and a target, and the rule connects them. */
  predicate Connects(s: string, f: Forward, b: Spelling, c: Spelling, loopback: string) {
    && Bind(b) && Target(c) && s == TextOf(b) + (":" + TextOf(c))
    && f == Forward(MeaningOf(b, loopback), Some(MeaningOf(c, loopback)))
  }

  /** The text is a bind address that is no path. */
  predicate Listens(s: string, f: Forward, b: Spelling, loopback: string) {
    Bind(b) && !b.AtPath? && s == TextOf(b) && f == Forward(MeaningOf(b, loopback), None)
  }

  lemma WholeConnects(s: string, f: Forward, loopback: string)
    ensures Whole(ConnectRule(s, loopback)) == Some(f) <==> exists b, c :: Connects(s, f, b, c, loopback)
    ensures (exists b, c :: Connects(s, f, b, c, loopback)) ==> ConnectRule(s, loopback).Some?
  {
    hide ConnectRule, MeaningOf, TextOf, Bind, Target;
    if Whole(ConnectRule(s, loopback)) == Some(f) {
      var b, c := RuleTaken(s, loopback);
      assert s + "" == s;
      assert Connects(s, f, b, c, loopback);
    }
    forall b, c | Connects(s, f, b, c, loopback) ensures ConnectRule(s, loopback) == Some(Parsed(f, "")) {
      RuleRead(b, c, loopback);
    }
  }

  /** What -L accepts, and as what. */
  lemma LocalRules(s: string, f: Forward)
    ensures ParseLocal(s) == Some(f) <==> exists b, c :: Connects(s, f, b, c, "127.0.0.1")
  {
    hide ConnectRule, Connects;
    WholeConnects(s, f, LOCAL_LOOPBACK);
  }

  /** What -R accepts: the same with its own loopback name, and bind addresses alone. */
  lemma RemoteRules(s: string, f: Forward)
    ensures ParseRemote(s) == Some(f) <==>
            (exists b, c :: Connects(s, f, b, c, "localhost")) || (exists b :: Listens(s, f, b, "localhost"))
  {
    hide ConnectRule, ListenRule, Connects, MeaningOf, TextOf, Bind;
    WholeConnects(s, f, REMOTE_LOOPBACK);
    if ParseRemote(s) == Some(f) && ConnectRule(s, REMOTE_LOOPBACK).None? {
      var b := ListenTaken(s, REMOTE_LOOPBACK);
      assert s + "" == s && TextOf(b) + "" == TextOf(b);
      assert Listens(s, f, b, "localhost");
    }
    forall b | Listens(s, f, b, "localhost") ensures ParseRemote(s) == Some(f) {
      ListenRead(b, REMOTE_LOOPBACK);
    }
  }
}
