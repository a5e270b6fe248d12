/**
 Forwarding rules on the command line: how endpoints are displayed, and the grammar with
 ordered choice that reads them. Once an alternative has matched, the grammar does not come
 back to a later one, even if input is left over.
 */
module ForwardSpec {
  import opened Prelude
  import opened Decimals

  const MAX_PORT: nat := 65535

  type Port = p: int | 0 <= p <= MAX_PORT

  datatype Endpoint = Tcp(host: string, port: Port) | Unix(path: string)

  /** A rule for -L or -R; a remote one may only listen. */
  datatype Forward = Forward(bind: Endpoint, connect: Option<Endpoint>)

  const LOCAL_LOOPBACK: string := "127.0.0.1"
  const REMOTE_LOOPBACK: string := "localhost"

  function Display(e: Endpoint): string {
    match e
    case Tcp(host, port) =>
      if host == "" then "*:" + Digits(port)
      else if ':' in host then "[" + host + "]:" + Digits(port)
      else host + ":" + Digits(port)
    case Unix(path) => path
  }

  // ----- the grammar -------------------------------------------------------

  /** What a rule matched, and the input behind it. */
  datatype Parsed<T> = Parsed(value: T, rest: string)

  function TakeWhile(s: string, p: char -> bool): (n: nat)
    ensures n <= |s|
    ensures forall i :: 0 <= i < n ==> p(s[i])
    ensures n < |s| ==> !p(s[n])
  {
    if s == "" || !p(s[0]) then 0 else 1 + TakeWhile(s[1..], p)
  }

  function NotColon(c: char): bool { c != ':' }

  function NotBracket(c: char): bool { c != ']' }

  function HostChar(c: char): bool { c != ':' && c != '/' && c != '[' && c != ']' }

  function DigitChar(c: char): bool { IsDigit(c) }

  function UnixPath(s: string): Option<Parsed<string>> {
    if s == "" || s[0] != '/' then None
    else var n := 1 + TakeWhile(s[1..], NotColon); Some(Parsed(s[..n], s[n..]))
  }

  function PortAt(s: string): Option<Parsed<Port>> {
    var n := TakeWhile(s, DigitChar);
    var v := ValueOf(s[..n]);
    if n == 0 || v > MAX_PORT then None else var port: Port := v; Some(Parsed(port, s[n..]))
  }

  function HostAt(s: string): Option<Parsed<string>> {
    var n := TakeWhile(s, HostChar);
    if n == 0 then None else Some(Parsed(s[..n], s[n..]))
  }

  function BracketAt(s: string): Option<Parsed<string>> {
    if s == "" || s[0] != '[' then None
    else
      var n := TakeWhile(s[1..], NotBracket);
      if n == 0 || n == |s| - 1 then None else Some(Parsed(s[1..1 + n], s[2 + n..]))
  }

  function StarAt(s: string): Option<Parsed<string>> {
    if s == "" || s[0] != '*' then None else Some(Parsed("", s[1..]))
  }

  /** A host, a colon and a port. */
  function ThenPort(h: Option<Parsed<string>>): Option<Parsed<Endpoint>> {
    if h.None? || h.value.rest == "" || h.value.rest[0] != ':' then None
    else
      match PortAt(h.value.rest[1..])
      case None => None
      case Some(p) => Some(Parsed(Tcp(h.value.value, p.value), p.rest))
  }

  function PathAt(s: string): Option<Parsed<Endpoint>> {
    match UnixPath(s)
    case None => None
    case Some(p) => Some(Parsed(Unix(p.value), p.rest))
  }

  /** A port alone, with the host that stands for it. */
  function PortOnly(s: string, loopback: string): Option<Parsed<Endpoint>> {
    match PortAt(s)
    case None => None
    case Some(p) => Some(Parsed(Tcp(loopback, p.value), p.rest))
  }

  /** The first alternative that matches. */
  function Else<T>(a: Option<T>, b: Option<T>): Option<T> {
    if a.Some? then a else b
  }

  function ConnectAt(s: string): Option<Parsed<Endpoint>> {
    Else(PathAt(s), Else(ThenPort(BracketAt(s)), ThenPort(HostAt(s))))
  }

  function WithConnect(bind: Option<Parsed<Endpoint>>): Option<Parsed<Forward>> {
    if bind.None? || bind.value.rest == "" || bind.value.rest[0] != ':' then None
    else
      match ConnectAt(bind.value.rest[1..])
      case None => None
      case Some(c) => Some(Parsed(Forward(bind.value.value, Some(c.value)), c.rest))
  }

  function ListenOnly(bind: Option<Parsed<Endpoint>>): Option<Parsed<Forward>> {
    match bind
    case None => None
    case Some(b) => Some(Parsed(Forward(b.value, None), b.rest))
  }

  function ConnectRule(s: string, loopback: string): Option<Parsed<Forward>> {
    Else(WithConnect(PathAt(s)),
    Else(WithConnect(ThenPort(BracketAt(s))),
    Else(WithConnect(ThenPort(StarAt(s))),
    Else(WithConnect(ThenPort(HostAt(s))),
         WithConnect(PortOnly(s, loopback))))))
  }

  function ListenRule(s: string, loopback: string): Option<Parsed<Forward>> {
    Else(ListenOnly(ThenPort(BracketAt(s))),
    Else(ListenOnly(ThenPort(StarAt(s))),
    Else(ListenOnly(ThenPort(HostAt(s))),
         ListenOnly(PortOnly(s, loopback)))))
  }

  /** A public rule has to use up the input. */
  function Whole<T>(r: Option<Parsed<T>>): Option<T> {
    if r.Some? && r.value.rest == "" then Some(r.value.value) else None
  }

  function ParseLocal(s: string): Option<Forward> {
    Whole(ConnectRule(s, LOCAL_LOOPBACK))
  }

  function ParseRemote(s: string): Option<Forward> {
    Whole(Else(ConnectRule(s, REMOTE_LOOPBACK), ListenRule(s, REMOTE_LOOPBACK)))
  }

  // ----- which endpoints can be written ------------------------------------

  /** Anything without a colon, a slash or a square bracket. */
  predicate Plain(host: string) {
    && host != ""
    && forall i :: 0 <= i < |host| ==> host[i] != ':' && host[i] != '/' && host[i] != '[' && host[i] != ']'
  }

  predicate Bracketed(host: string) {
    ':' in host && ']' !in host
  }

  /** Hosts that a listen rule can name. */
  predicate ListenHost(host: string) {
    host == "" || Bracketed(host) || (Plain(host) && host != "*")
  }

  predicate PlainPath(path: string) {
    path != "" && path[0] == '/' && ':' !in path
  }

  /** Endpoints that a connect part can name. */
  predicate Connectable(e: Endpoint) {
    match e
    case Tcp(host, _) => Plain(host) || Bracketed(host)
    case Unix(path) => PlainPath(path)
  }

  // ----- matching a known prefix -------------------------------------------

  lemma {:induction false} TakeIs(a: string, rest: string, p: char -> bool)
    requires forall i :: 0 <= i < |a| ==> p(a[i])
    requires rest == "" || !p(rest[0])
    ensures TakeWhile(a + rest, p) == |a|
  {
    if a == "" {
      assert a + rest == rest;
    } else {
      TakeIs(a[1..], rest, p);
      assert (a + rest)[1..] == a[1..] + rest;
    }
  }

  lemma PortReadBack(port: Port, rest: string)
    requires rest == "" || !IsDigit(rest[0])
    ensures PortAt(Digits(port) + rest) == Some(Parsed(port, rest))
  {
    var d := Digits(port);
    TakeIs(d, rest, DigitChar);
    assert (d + rest)[..|d|] == d && (d + rest)[|d|..] == rest;
    ValueOfDigits(port);
  }

  lemma HostReadBack(host: string, rest: string)
    requires Plain(host)
    requires rest == "" || !HostChar(rest[0])
    ensures HostAt(host + rest) == Some(Parsed(host, rest))
  {
    TakeIs(host, rest, HostChar);
    assert (host + rest)[..|host|] == host && (host + rest)[|host|..] == rest;
  }

  lemma BracketReadBack(host: string, rest: string)
    requires host != "" && ']' !in host
    ensures BracketAt("[" + host + "]" + rest) == Some(Parsed(host, rest))
  {
    var s := "[" + host + "]" + rest;
    assert s[1..] == host + ("]" + rest);
    TakeIs(host, "]" + rest, NotBracket);
    assert s[1..1 + |host|] == host && s[2 + |host|..] == rest;
  }

  lemma PathReadBack(path: string, rest: string)
    requires PlainPath(path)
    requires rest == "" || rest[0] == ':'
    ensures PathAt(path + rest) == Some(Parsed(Unix(path), rest))
  {
    assert (path + rest)[1..] == path[1..] + rest;
    TakeIs(path[1..], rest, NotColon);
    assert (path + rest)[..|path|] == path && (path + rest)[|path|..] == rest;
  }

  // ----- listen-only rules -------------------------------------------------

  /** Digits alone are a port, never a connect part. */
  lemma PortIsNoConnect(port: Port)
    ensures ConnectAt(Digits(port)).None?
  {
    var d := Digits(port);
    assert d + "" == d && Plain(d);
    HostReadBack(d, "");
  }

  /** A displayed endpoint in front of `rest` is matched as it was meant by one alternative. */
  lemma BindReadBack(e: Endpoint, rest: string)
    requires e.Tcp? && ListenHost(e.host)
    requires rest == "" || rest[0] == ':'
    ensures var s := Display(e) + rest;
            && PathAt(s).None?
            && (if Bracketed(e.host) then ThenPort(BracketAt(s)) == Some(Parsed(e, rest))
                else BracketAt(s).None? &&
                     if e.host == "" then ThenPort(StarAt(s)) == Some(Parsed(e, rest))
                     else ThenPort(StarAt(s)).None? && ThenPort(HostAt(s)) == Some(Parsed(e, rest)))
  {
    hide PathAt, BracketAt, StarAt, HostAt, Digits;
    if Bracketed(e.host) {
      BracketedReadBack(e.host, e.port, rest);
    } else if e.host == "" {
      StarReadBack(e.port, rest);
    } else {
      PlainReadBack(e.host, e.port, rest);
    }
  }

  lemma PortBehind(h: Option<Parsed<string>>, port: Port, rest: string)
    requires h.Some? && h.value.rest == ":" + (Digits(port) + rest)
    requires rest == "" || rest[0] == ':'
    ensures ThenPort(h) == Some(Parsed(Tcp(h.value.value, port), rest))
  {
    assert h.value.rest[1..] == Digits(port) + rest;
    PortReadBack(port, rest);
  }

  lemma BracketedReadBack(host: string, port: Port, rest: string)
    requires Bracketed(host) && (rest == "" || rest[0] == ':')
    ensures var s := Display(Tcp(host, port)) + rest;
            s[0] == '[' && PathAt(s).None? && ThenPort(BracketAt(s)) == Some(Parsed(Tcp(host, port), rest))
  {
    var s, tail := Display(Tcp(host, port)) + rest, ":" + (Digits(port) + rest);
    assert s == "[" + host + "]" + tail;
    BracketReadBack(host, tail);
    PortBehind(BracketAt(s), port, rest);
  }

  lemma StarReadBack(port: Port, rest: string)
    requires rest == "" || rest[0] == ':'
    ensures var s := Display(Tcp("", port)) + rest;
            PathAt(s).None? && BracketAt(s).None? && ThenPort(StarAt(s)) == Some(Parsed(Tcp("", port), rest))
  {
    var s, tail := Display(Tcp("", port)) + rest, ":" + (Digits(port) + rest);
    assert s == "*" + tail && s[1..] == tail;
    PortBehind(StarAt(s), port, rest);
  }

  lemma PlainReadBack(host: string, port: Port, rest: string)
    requires Plain(host) && (rest == "" || rest[0] == ':')
    ensures var s := Display(Tcp(host, port)) + rest;
            && PathAt(s).None? && BracketAt(s).None? && (host != "*" ==> ThenPort(StarAt(s)).None?)
            && ThenPort(HostAt(s)) == Some(Parsed(Tcp(host, port), rest))
  {
    var s, tail := Display(Tcp(host, port)) + rest, ":" + (Digits(port) + rest);
    assert !(':' in host);
    assert s == host + tail && s[0] == host[0] && HostChar(s[0]);
    HostReadBack(host, tail);
    PortBehind(HostAt(s), port, rest);
    assert |host| > 1 ==> s[1] == host[1] && HostChar(s[1]);
  }

  /** No connect part can be found in a displayed endpoint. */
  lemma ListenIsNoConnect(e: Endpoint, loopback: string)
    requires e.Tcp? && ListenHost(e.host)
    ensures ConnectRule(Display(e), loopback).None?
  {
    var s := Display(e);
    assert s + "" == s;
    BindReadBack(e, "");
    if e.host == "" {
      StarIsAHost(e.port);
    } else if Plain(e.host) {
      PortIsNoConnect(e.port);
      DigitsThenColon(e.host, ":" + Digits(e.port));
      assert s == e.host + (":" + Digits(e.port));
    }
  }

  lemma StarIsAHost(port: Port)
    ensures ThenPort(HostAt("*:" + Digits(port))) == Some(Parsed(Tcp("*", port), ""))
  {
    var s := "*" + (":" + Digits(port));
    assert s == "*:" + Digits(port) && (":" + Digits(port))[1..] == Digits(port) + "";
    HostReadBack("*", ":" + Digits(port));
    PortReadBack(port, "");
  }

  /** Leading digits reach a colon only if the whole host is digits. */
  lemma DigitsThenColon(host: string, rest: string)
    requires Plain(host) && rest != "" && rest[0] == ':'
    ensures var p := PortAt(host + rest);
            p.Some? && p.value.rest != "" && p.value.rest[0] == ':' ==> p.value.rest == rest
  {
    var s := host + rest;
    var n := TakeWhile(s, DigitChar);
    if n < |host| {
      assert s[n] == host[n] && HostChar(host[n]);
    } else {
      assert s[|host|] == ':' && !DigitChar(s[|host|]);
      assert s[n..] == rest;
    }
  }

  /** The hosts an alternative can find at the start of `s`. */
  predicate HostFrom(s: string, host: string, loopback: string) {
    || (BracketAt(s).Some? && host == BracketAt(s).value.value)
    || (StarAt(s).Some? && host == "")
    || (HostAt(s).Some? && host == HostAt(s).value.value)
    || (PortAt(s).Some? && host == loopback)
  }

  lemma BindIsFrom(s: string, loopback: string)
    ensures var r := ConnectRule(s, loopback);
            r.Some? && r.value.value.bind.Tcp? ==> HostFrom(s, r.value.value.bind.host, loopback)
    ensures var r := ListenRule(s, loopback); r.Some? ==>
              r.value.value.bind.Tcp? && HostFrom(s, r.value.value.bind.host, loopback)
  {
    hide ConnectAt, BracketAt, HostAt, UnixPath;
    assert ThenPort(BracketAt(s)).Some? ==> HostFrom(s, ThenPort(BracketAt(s)).value.value.host, loopback);
    assert ThenPort(StarAt(s)).Some? ==> HostFrom(s, ThenPort(StarAt(s)).value.value.host, loopback);
    assert ThenPort(HostAt(s)).Some? ==> HostFrom(s, ThenPort(HostAt(s)).value.value.host, loopback);
    assert PortOnly(s, loopback).Some? ==> HostFrom(s, PortOnly(s, loopback).value.value.host, loopback);
  }

  /** A displayed host is found again at the start of its display only if it can be listened on. */
  lemma FoundHost(host: string, port: Port, rest: string, loopback: string)
    requires host != "*" && (loopback == LOCAL_LOOPBACK || loopback == REMOTE_LOOPBACK)
    ensures HostFrom(Display(Tcp(host, port)) + rest, host, loopback) ==> ListenHost(host)
  {
    hide ValueOf, Digits;
    var s := Display(Tcp(host, port)) + rest;
    if host != "" && !(':' in host) {
      assert s == host + (":" + Digits(port) + rest) && s[..|host|] == host && s[|host|] == ':' && s[0] == host[0];
      ContentDiffers(s, host);
      assert ListenHost(loopback);
    } else if ':' in host {
      assert s[0] == '[';
      assert HostAt(s).None? && StarAt(s).None? && PortAt(s).None?;
    }
  }

  /** What stands in brackets is not what the text starts with up to a colon. */
  lemma ContentDiffers(s: string, host: string)
    requires host != "" && !(':' in host) && |host| < |s| && s[..|host|] == host && s[|host|] == ':'
    ensures BracketAt(s).Some? ==> BracketAt(s).value.value != host
  {}

  lemma ListenReadBack(e: Endpoint)
    requires e.Tcp? && ListenHost(e.host)
    ensures ParseRemote(Display(e)) == Some(Forward(e, None))
  {
    var s := Display(e);
    assert s + "" == s;
    ListenIsNoConnect(e, REMOTE_LOOPBACK);
    BindReadBack(e, "");
    hide ConnectRule, PathAt, BracketAt, StarAt, HostAt, PortOnly, Display;
    assert ListenRule(s, REMOTE_LOOPBACK) == Some(Parsed(Forward(e, None), ""));
  }

  /** A displayed TCP endpoint is read back as a listen-only rule exactly for these hosts. */
  lemma ListenRoundTrip(e: Endpoint)
    requires e.Tcp?
    ensures ParseRemote(Display(e)) == Some(Forward(e, None)) <==> ListenHost(e.host)
  {
    if ListenHost(e.host) {
      ListenReadBack(e);
    } else if e.host == "*" {
      StarListens(e.port);
    } else {
      BindIsFrom(Display(e), REMOTE_LOOPBACK);
      FoundHost(e.host, e.port, "", REMOTE_LOOPBACK);
      assert Display(e) + "" == Display(e);
    }
  }

  /** The host "*" is displayed like the empty one, and read back as that. */
  lemma StarListens(port: Port)
    ensures ParseRemote(Display(Tcp("*", port))) == Some(Forward(Tcp("", port), None))
  {
    assert Display(Tcp("*", port)) == Display(Tcp("", port));
    ListenReadBack(Tcp("", port));
  }

  // ----- connect parts -----------------------------------------------------

  /** A displayed endpoint is read back as a connect part exactly for these endpoints. */
  lemma ConnectReadBack(e: Endpoint)
    ensures ConnectAt(Display(e)) == Some(Parsed(e, "")) <==> Connectable(e)
  {
    var s := Display(e);
    assert s + "" == s;
    if Connectable(e) {
      match e
      case Unix(path) => PathReadBack(path, "");
      case Tcp(host, port) =>
        if Bracketed(host) {
          BracketedReadBack(host, port, "");
        } else {
          PlainReadBack(host, port, "");
        }
    } else if ConnectAt(s) == Some(Parsed(e, "")) {
      FoundConnect(e);
    }
  }

  lemma FoundConnect(e: Endpoint)
    requires ConnectAt(Display(e)) == Some(Parsed(e, ""))
    ensures Connectable(e)
  {
    hide Display;
    match e
    case Unix(path) => FoundPathTarget(path);
    case Tcp(host, port) => FoundHostTarget(host, port);
  }

  lemma FoundPathTarget(path: string)
    requires ConnectAt(Display(Unix(path))) == Some(Parsed(Unix(path), ""))
    ensures PlainPath(path)
  {
    PathIsPlain(path);
    hide BracketAt, HostAt;
  }

  lemma FoundHostTarget(host: string, port: Port)
    requires ConnectAt(Display(Tcp(host, port))) == Some(Parsed(Tcp(host, port), ""))
    ensures Plain(host) || Bracketed(host)
  {
    var s := Display(Tcp(host, port));
    assert HostFrom(s, host, "") by { hide Display, BracketAt, HostAt, PathAt, PortAt, StarAt; }
    if host == "*" {
      assert Plain(host);
    } else {
      assert s + "" == s;
      FoundHost(host, port, "", LOCAL_LOOPBACK);
    }
  }

  // ----- whole rules -------------------------------------------------------

  /** Bind addresses that a rule can name in front of a connect part. */
  predicate Bindable(e: Endpoint) {
    match e
    case Tcp(host, _) => ListenHost(host)
    case Unix(path) => PlainPath(path)
  }

  /** What the rule is when its connect part is `c`: that, or nothing that binds `bind`. */
  predicate RuleIs(r: Option<Parsed<Forward>>, bind: Endpoint, c: Option<Parsed<Endpoint>>) {
    if c.Some? then r == Some(Parsed(Forward(bind, Some(c.value.value)), c.value.rest))
    else (r.Some? ==> r.value.value.bind != bind) && (bind.Tcp? && bind.host == "" ==> r.None?)
  }

  /** Behind such a bind address the rule is what the connect part is. */
  lemma BindThenConnect(bind: Endpoint, t: string, loopback: string)
    requires Bindable(bind)
    requires loopback == LOCAL_LOOPBACK || loopback == REMOTE_LOOPBACK
    ensures RuleIs(ConnectRule(Display(bind) + ":" + t, loopback), bind, ConnectAt(t))
  {
    hide ConnectRule, ConnectAt, RuleIs;
    match bind
    case Unix(path) => PathThenConnect(path, t, loopback);
    case Tcp(host, port) => HostThenConnect(host, port, t, loopback);
  }

  lemma PathThenConnect(path: string, t: string, loopback: string)
    requires PlainPath(path)
    ensures RuleIs(ConnectRule(Display(Unix(path)) + ":" + t, loopback), Unix(path), ConnectAt(t))
  {
    hide ConnectAt, PathAt, BracketAt, StarAt, HostAt, PortAt;
    var rest := ":" + t;
    assert path + ":" + t == path + rest && rest[1..] == t;
    PathReadBack(path, rest);
  }

  lemma HostThenConnect(host: string, port: Port, t: string, loopback: string)
    requires ListenHost(host)
    requires loopback == LOCAL_LOOPBACK || loopback == REMOTE_LOOPBACK
    ensures RuleIs(ConnectRule(Display(Tcp(host, port)) + ":" + t, loopback), Tcp(host, port), ConnectAt(t))
  {
    hide ConnectAt, PathAt, BracketAt, StarAt, HostAt, PortAt, PortOnly, Display;
    var rest, s := ":" + t, Display(Tcp(host, port)) + ":" + t;
    assert s == Display(Tcp(host, port)) + rest && rest[1..] == t;
    BindReadBack(Tcp(host, port), rest);
    OthersMatchNothing(host, port, rest, loopback);
  }

  /** The alternatives behind the one that matched see nothing else. */
  lemma OthersMatchNothing(host: string, port: Port, rest: string, loopback: string)
    requires ListenHost(host) && rest != "" && rest[0] == ':'
    requires loopback == LOCAL_LOOPBACK || loopback == REMOTE_LOOPBACK
    ensures var s := Display(Tcp(host, port)) + rest;
            && (Bracketed(host) ==> ThenPort(StarAt(s)).None? && ThenPort(HostAt(s)).None?)
            && (host == "" ==> ThenPort(HostAt(s)) == Some(Parsed(Tcp("*", port), rest)))
            && (Plain(host) && host == loopback ==> WithConnect(PortOnly(s, loopback)).None?)
            && (!Plain(host) ==> PortOnly(s, loopback).None?)
            && var p := PortOnly(s, loopback); p.Some? ==> p.value.value == Tcp(loopback, p.value.value.port)
  {
    var s := Display(Tcp(host, port)) + rest;
    var tail := ":" + (Digits(port) + rest);
    if Bracketed(host) {
      assert s[0] == '[';
    } else if host == "" {
      assert s == "*" + tail;
      HostReadBack("*", tail);
      PortBehind(HostAt(s), port, rest);
    } else {
      assert s == host + tail && s[0] == host[0];
      if host == LOCAL_LOOPBACK {
        assert s[3] == host[3] == '.';
        DigitsThenColon(host, tail);
        LoopbackPort(tail);
      }
    }
  }

  lemma LoopbackPort(tail: string)
    ensures var p := PortAt(LOCAL_LOOPBACK + tail); p.Some? ==> p.value.rest != "" && p.value.rest[0] == '.'
  {
    var s := "127" + ("." + ("0.0.1" + tail));
    assert LOCAL_LOOPBACK + tail == s;
    TakeIs("127", "." + ("0.0.1" + tail), DigitChar);
  }

  /** What a rule binds can be bound. */
  lemma FoundBind(bind: Endpoint, t: string, loopback: string)
    requires loopback == LOCAL_LOOPBACK || loopback == REMOTE_LOOPBACK
    ensures var r := ConnectRule(Display(bind) + ":" + t, loopback);
            r.Some? && r.value.value.bind == bind ==> Bindable(bind)
  {
    hide ConnectRule, HostFrom, ListenHost, PlainPath;
    var s := Display(bind) + ":" + t;
    assert s == Display(bind) + (":" + t);
    match bind
    case Unix(path) => FoundPath(s, loopback);
    case Tcp(host, port) =>
      if host == "*" {
        StarBindsNoStar(port, t, loopback);
      } else {
        BindIsFrom(s, loopback);
        FoundHost(host, port, ":" + t, loopback);
      }
  }

  lemma FoundPath(s: string, loopback: string)
    ensures var r := ConnectRule(s, loopback);
            r.Some? && r.value.value.bind.Unix? ==> PlainPath(r.value.value.bind.path)
  {
    hide ConnectAt, BracketAt, StarAt, HostAt, PortAt, UnixPath;
    PathIsPlain(s);
  }

  lemma PathIsPlain(s: string)
    ensures UnixPath(s).Some? ==> PlainPath(UnixPath(s).value.value)
  {
    if s != "" && s[0] == '/' {
      var n := TakeWhile(s[1..], NotColon);
      var path := s[..1 + n];
      forall i | 0 <= i < |path| ensures path[i] != ':' {
        assert i > 0 ==> s[i] == s[1..][i - 1] && NotColon(s[1..][i - 1]);
      }
    }
  }

  lemma StarBindsNoStar(port: Port, t: string, loopback: string)
    requires loopback == LOCAL_LOOPBACK || loopback == REMOTE_LOOPBACK
    ensures var r := ConnectRule(Display(Tcp("*", port)) + ":" + t, loopback);
            r.Some? ==> r.value.value.bind != Tcp("*", port)
  {
    hide ConnectRule, ConnectAt;
    assert Display(Tcp("*", port)) == Display(Tcp("", port));
    HostThenConnect("", port, t, loopback);
  }

  /** A displayed bind address, a colon and a displayed connect part are read back as that rule. */
  lemma RuleRoundTrip(bind: Endpoint, connect: Endpoint)
    ensures var s := Display(bind) + ":" + Display(connect); var rule := Some(Forward(bind, Some(connect)));
            && (ParseLocal(s) == rule <==> Bindable(bind) && Connectable(connect))
            && (ParseRemote(s) == rule <==> Bindable(bind) && Connectable(connect))
  {
    RuleReadBack(bind, connect, LOCAL_LOOPBACK);
    RuleReadBack(bind, connect, REMOTE_LOOPBACK);
  }

  lemma RuleReadBack(bind: Endpoint, connect: Endpoint, loopback: string)
    requires loopback == LOCAL_LOOPBACK || loopback == REMOTE_LOOPBACK
    ensures var s := Display(bind) + ":" + Display(connect); var rule := Some(Forward(bind, Some(connect)));
            && (Whole(ConnectRule(s, loopback)) == rule <==> Bindable(bind) && Connectable(connect))
            && (Whole(Else(ConnectRule(s, loopback), ListenRule(s, loopback))) == rule
                <==> Bindable(bind) && Connectable(connect))
  {
    ConnectReadBack(connect);
    FoundBind(bind, Display(connect), loopback);
    if Bindable(bind) { BindThenConnect(bind, Display(connect), loopback); }
    hide ConnectRule, ConnectAt, Display, Bindable, Connectable;
  }

  // ----- a port and a connect part -----------------------------------------

  /** How the alternatives see a text that starts with a port and a colon. */
  lemma PortFirst(port: Port, t: string, loopback: string)
    ensures var s := Digits(port) + ":" + t;
            && PathAt(s).None? && BracketAt(s).None? && StarAt(s).None?
            && HostAt(s) == Some(Parsed(Digits(port), ":" + t))
            && PortOnly(s, loopback) == Some(Parsed(Tcp(loopback, port), ":" + t))
  {
    var d, s := Digits(port), Digits(port) + ":" + t;
    assert s == d + (":" + t) && IsDigit(s[0]) && s[0] == d[0];
    assert Plain(d);
    HostReadBack(d, ":" + t);
    PortReadBack(port, ":" + t);
  }

  /** The digits of a port are no host followed by a port, so the port alone is tried and found. */
  lemma HostPortFails(e: Endpoint)
    requires Connectable(e)
    ensures var t := Display(e); PortAt(t).Some? && PortAt(t).value.rest != "" && PortAt(t).value.rest[0] == ':' ==>
              ConnectAt(PortAt(t).value.rest[1..]).None?
  {
    var t := Display(e);
    if e.Tcp? && Plain(e.host) {
      var tail := ":" + Digits(e.port);
      assert !(':' in e.host) && t == e.host + tail && tail[1..] == Digits(e.port);
      DigitsThenColon(e.host, tail);
      PortIsNoConnect(e.port);
    }
  }

  /**
   Behind a port and a colon, a displayed endpoint is read back as the connect part, with the
   loopback host bound, exactly when it can be a connect part at all.
   */
  lemma ConnectRoundTrip(port: Port, e: Endpoint)
    ensures var s := Digits(port) + ":" + Display(e);
            && (ParseLocal(s) == Some(Forward(Tcp("127.0.0.1", port), Some(e))) <==> Connectable(e))
            && (ParseRemote(s) == Some(Forward(Tcp("localhost", port), Some(e))) <==> Connectable(e))
  {
    PortThenConnect(port, e, LOCAL_LOOPBACK);
    PortThenConnect(port, e, REMOTE_LOOPBACK);
  }

  lemma PortThenConnect(port: Port, e: Endpoint, loopback: string)
    requires loopback == LOCAL_LOOPBACK || loopback == REMOTE_LOOPBACK
    ensures var s := Digits(port) + ":" + Display(e);
            var expected := Forward(Tcp(loopback, port), Some(e));
            && (Whole(ConnectRule(s, loopback)) == Some(expected) <==> Connectable(e))
            && (Whole(Else(ConnectRule(s, loopback), ListenRule(s, loopback))) == Some(expected) <==> Connectable(e))
  {
    hide ConnectAt, PortAt, HostAt, PathAt, BracketAt, StarAt, PortOnly, Display, Connectable, Digits;
    var t := Display(e);
    var s := Digits(port) + ":" + t;
    PortFirst(port, t, loopback);
    ConnectReadBack(e);
    assert (":" + t)[1..] == t;
    LoopbackIsNoNumber(port, loopback);
    if Connectable(e) {
      HostPortFails(e);
    }
  }

  lemma LoopbackIsNoNumber(port: Port, loopback: string)
    requires loopback == LOCAL_LOOPBACK || loopback == REMOTE_LOOPBACK
    ensures Digits(port) != loopback
  {
    assert LOCAL_LOOPBACK[3] == '.' && REMOTE_LOOPBACK[0] == 'l';
  }
}
