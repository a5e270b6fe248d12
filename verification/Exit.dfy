/**
 How a process ended, the exit notices of section 6.10 of RFC 4254, and what the client
 concludes from them.
 */
module Exit {
  import opened Prelude
  import opened Wire
  import opened Decimals
  import opened Channel

  /** A wait status: an exit code, a terminating signal, or neither. */
  datatype ExitStatus = Exited(code: byte) | Signaled(signal: byte, coreDumped: bool) | Neither

  datatype ExitResult = Status(code: nat) | Signal(name: Bytes, coreDumped: bool)

  /** exit-status */
  function StatusType(): Bytes {
    [101, 120, 105, 116, 45, 115, 116, 97, 116, 117, 115]
  }

  /** exit-signal */
  function SignalType(): Bytes {
    [101, 120, 105, 116, 45, 115, 105, 103, 110, 97, 108]
  }

  predicate Spells(s: Bytes, text: string) {
    |s| == |text| && forall i :: 0 <= i < |s| ==> s[i] == text[i] as int
  }

  lemma StatusTypeText()
    ensures Spells(StatusType(), "exit-status")
  {}

  lemma SignalTypeText()
    ensures Spells(SignalType(), "exit-signal")
  {}

  lemma StatusTypeIsField()
    ensures IsField(StatusType())
  {
    hide ValidUtf8;
    AsciiIsValid(StatusType());
  }

  lemma SignalTypeIsField()
    ensures IsField(SignalType())
  {
    hide ValidUtf8;
    AsciiIsValid(SignalType());
  }

  lemma TypesDiffer()
    ensures StatusType() != SignalType()
  {
    assert StatusType()[6] != SignalType()[6];
  }

  // ----- signal names ------------------------------------------------------

  /** The names of Linux signal numbers, without SIG. */
  function SshName(signal: nat): (r: Option<string>)
    ensures r.Some? ==> |r.value| <= 4 && IsAscii(r.value)
  {
    match signal
    case 1 => Some("HUP")
    case 2 => Some("INT")
    case 3 => Some("QUIT")
    case 4 => Some("ILL")
    case 6 => Some("ABRT")
    case 8 => Some("FPE")
    case 9 => Some("KILL")
    case 10 => Some("USR1")
    case 11 => Some("SEGV")
    case 12 => Some("USR2")
    case 13 => Some("PIPE")
    case 14 => Some("ALRM")
    case 15 => Some("TERM")
    case 18 => Some("CONT")
    case 19 => Some("STOP")
    case 20 => Some("TSTP")
    case 21 => Some("TTIN")
    case 22 => Some("TTOU")
    case _ => None
  }

  /** The other direction, which the server uses for signals that a client sends. */
  function FromSshName(name: string): Option<nat> {
    if name == "ABRT" then Some(6) else if name == "ALRM" then Some(14) else if name == "FPE" then Some(8)
    else if name == "HUP" then Some(1) else if name == "ILL" then Some(4) else if name == "INT" then Some(2)
    else if name == "KILL" then Some(9) else if name == "PIPE" then Some(13) else if name == "QUIT" then Some(3)
    else if name == "SEGV" then Some(11) else if name == "TERM" then Some(15) else if name == "USR1" then Some(10)
    else if name == "USR2" then Some(12) else if name == "CONT" then Some(18) else if name == "STOP" then Some(19)
    else if name == "TSTP" then Some(20) else if name == "TTIN" then Some(21) else if name == "TTOU" then Some(22)
    else None
  }

  lemma NamesDiffer(j: nat, k: nat)
    requires SshName(j).Some? && SshName(j) == SshName(k)
    ensures j == k
  {
    var m, n := SshName(j).value, SshName(k).value;
    assert |m| == |n| >= 3 && m[0] == n[0] && m[1] == n[1] && m[2] == n[2] && m[|m| - 1] == n[|n| - 1];
  }

  lemma NameHasNumber(signal: nat)
    requires SshName(signal).Some?
    ensures FromSshName(SshName(signal).value).Some?
  {}

  lemma NumberOfName(name: string)
    requires FromSshName(name).Some?
    ensures SshName(FromSshName(name).value) == Some(name)
  {}

  /** The two tables are inverse to each other. */
  lemma SignalNamesMatch(signal: nat, name: string)
    ensures SshName(signal) == Some(name) <==> FromSshName(name) == Some(signal)
  {
    hide SshName, FromSshName;
    if SshName(signal) == Some(name) { NameHasNumber(signal); }
    if FromSshName(name).Some? {
      NumberOfName(name);
      if SshName(signal) == Some(name) { NamesDiffer(signal, FromSshName(name).value); }
    }
  }

  function SignalName(signal: byte): (r: string)
    ensures IsAscii(r) && |r| < 64
  {
    DigitsOfByte(signal);
    if SshName(signal).Some? then SshName(signal).value
    else "signal-" + Digits(signal) + "@dshell"
  }

  /** A signal without a name of its own is called by its number. */
  lemma SignalNameIs(signal: byte)
    ensures SshName(signal).Some? ==> FromSshName(SignalName(signal)) == Some(signal)
    ensures SshName(signal).None? ==> SignalName(signal) == "signal-" + Digits(signal) + "@dshell"
  {
    hide FromSshName, Digits;
    SignalNamesMatch(signal, SignalName(signal));
  }

  lemma DigitsOfByte(b: byte)
    ensures |Digits(b)| <= 3 && IsAscii(Digits(b))
  {
    assert |Digits(b / 100)| == 1;
    assert b >= 10 ==> |Digits(b / 10)| <= 2;
  }

  lemma NameIsField(signal: byte)
    ensures IsField(Ascii(SignalName(signal)))
  {
    hide SignalName;
    AsciiIsValid(Ascii(SignalName(signal)));
  }

  // ----- the notices -------------------------------------------------------

  /** The notice send_exit_notification writes. */
  function ExitFrame(status: ExitStatus): (f: Frame)
    ensures f.Notice? && Readable(f)
  {
    match status
    case Signaled(signal, core) =>
      SignalFrame(signal, core)
    case Exited(code) => StatusFrame(code)
    case Neither => StatusFrame(255)
  }

  function StatusFrame(code: nat): (f: Frame)
    requires code < 0x1_0000_0000
    ensures f.Notice? && Readable(f)
  {
    StatusTypeIsField();
    Notice(StatusType(), EncodeVarint(code))
  }

  function SignalFrame(signal: byte, core: bool): (f: Frame)
    ensures f.Notice? && Readable(f)
  {
    SignalTypeIsField();
    NameIsField(signal);
    Notice(SignalType(), SignalPayload(Ascii(SignalName(signal)), core))
  }

  function SignalPayload(name: Bytes, core: bool): Bytes
    requires |name| < MAX_VARINT
  {
    EncodeString(name) + (EncodeBool(core) + (EncodeString([]) + EncodeString([])))
  }

  /** The bytes of the notice, for every end of a process. */
  lemma ExitBytes(status: ExitStatus)
    ensures EncodeFrame(ExitFrame(status)) ==
            match status
            case Exited(code) => [0x40, 98, 11] + StatusType() + [0x00] + EncodeVarint(code)
            case Neither => [0x40, 98, 11] + StatusType() + [0x00] + EncodeVarint(255)
            case Signaled(signal, core) =>
              var name := Ascii(SignalName(signal));
              [0x40, 98, 11] + SignalType() + [0x00] + ([|name|] + name + [if core then 0x01 else 0x00] + [0] + [0])
  {
    assert |StatusType()| == |SignalType()| == 11;
    hide EncodeVarint, EncodeFrame, StatusType, SignalType, SignalPayload, SignalName, Ascii;
    var f := ExitFrame(status);
    FrameBytes(f);
    SmallVarint(11);
    if status.Signaled? {
      SignalBytes(Ascii(SignalName(status.signal)), status.coreDumped);
    }
    NoticeHeader(f.requestType, f.payload);
  }

  lemma NoticeHeader(t: Bytes, p: Bytes)
    ensures [0x40, 98] + [11] + t + [0x00] + p == [0x40, 98, 11] + t + [0x00] + p
  {}

  lemma SignalBytes(name: Bytes, core: bool)
    requires |name| < 0x40
    ensures SignalPayload(name, core) == [|name|] + name + [if core then 0x01 else 0x00] + [0] + [0]
  {
    SmallVarint(0);
    SmallVarint(|name|);
    hide EncodeVarint;
    assert EncodeString([]) == [0];
  }

  lemma SmallVarint(n: nat)
    requires n < 0x40
    ensures EncodeVarint(n) == [n]
  {
    assert BigEndian(0, 0) == [];
  }

  // ----- reading them back -------------------------------------------------

  /** The status is cut down to 32 bits. */
  function DecodeExitStatus(s: Bytes): Result<Decoded<ExitResult>, CodecError> {
    match DecodeVarint(s)
    case Err(e) => Err(e)
    case Ok(d) => Ok(Decoded(Status(d.value % 0x1_0000_0000), d.rest))
  }

  function DecodeExitSignal(s: Bytes): Result<Decoded<ExitResult>, CodecError> {
    match DecodeString(s)
    case Err(e) => Err(e)
    case Ok(name) =>
      match DecodeBool(name.rest)
      case Err(e) => Err(e)
      case Ok(core) =>
        match DecodeString(core.rest)
        case Err(e) => Err(e)
        case Ok(message) =>
          match DecodeString(message.rest)
          case Err(e) => Err(e)
          case Ok(tag) => Ok(Decoded(Signal(name.value, core.value), tag.rest))
  }

  /** The payload of a notice of this type, `None` for a type the client does not know. */
  function DecodeNotice(requestType: Bytes, s: Bytes): Option<Result<Decoded<ExitResult>, CodecError>> {
    if requestType == StatusType() then Some(DecodeExitStatus(s))
    else if requestType == SignalType() then Some(DecodeExitSignal(s))
    else None
  }

  /** Any number is cut down to its low 32 bits. */
  lemma StatusRead(v: nat, rest: Bytes)
    requires v < 0x4000_0000_0000_0000
    ensures DecodeNotice(StatusType(), EncodeVarint(v) + rest)
            == Some(Ok(Decoded(Status(v % 0x1_0000_0000), rest)))
  {
    VarintRoundTrip(v, rest);
    hide EncodeVarint, DecodeVarint, StatusType, SignalType;
  }

  /** The name and the flag count, not the message and its language. */
  lemma SignalRead(name: Bytes, core: bool, message: Bytes, tag: Bytes, rest: Bytes)
    requires IsField(name) && IsField(message) && IsField(tag)
    ensures DecodeNotice(SignalType(),
                         EncodeString(name) + (EncodeBool(core) + (EncodeString(message) + (EncodeString(tag) + rest))))
            == Some(Ok(Decoded(Signal(name, core), rest)))
  {
    TypesDiffer();
    assert |name| < MAX_VARINT && |message| < MAX_VARINT && |tag| < MAX_VARINT;
    hide EncodeString, DecodeString, EncodeBool, DecodeBool, IsField, StatusType, SignalType;
    var tagOn := EncodeString(tag) + rest;
    var messageOn := EncodeString(message) + tagOn;
    StringReadBack(name, EncodeBool(core) + messageOn);
    BoolRoundTrip(core, messageOn);
    StringReadBack(message, tagOn);
    StringReadBack(tag, rest);
  }

  /** No other notice is one. */
  lemma OtherNoticeUnread(requestType: Bytes, s: Bytes)
    ensures DecodeNotice(requestType, s).None? <==>
            requestType != StatusType() && requestType != SignalType()
  {
    hide StatusType, SignalType;
  }

  /** What the client should report: the code, 255 for want of one, or the signal's name. */
  function ExitResultOf(status: ExitStatus): ExitResult {
    match status
    case Exited(code) => Status(code)
    case Signaled(signal, core) => Signal(Ascii(SignalName(signal)), core)
    case Neither => Status(255)
  }

  /** An exit notice is read back as the status it was made from, up to its last byte. */
  lemma ExitRoundTrip(status: ExitStatus, rest: Bytes)
    ensures DecodeNotice(ExitFrame(status).requestType, ExitFrame(status).payload + rest)
            == Some(Ok(Decoded(ExitResultOf(status), rest)))
  {
    TypesDiffer();
    hide StatusType, SignalType, EncodeVarint, DecodeVarint, SignalPayload, DecodeExitSignal;
    hide SignalName, Ascii, IsField;
    match status
    case Exited(code) => VarintRoundTrip(code, rest);
    case Neither => VarintRoundTrip(255, rest);
    case Signaled(signal, core) =>
      NameIsField(signal);
      SignalRoundTrip(Ascii(SignalName(signal)), core, rest);
  }

  lemma SignalRoundTrip(name: Bytes, core: bool, rest: Bytes)
    requires IsField(name)
    ensures DecodeExitSignal(SignalPayload(name, core) + rest) == Ok(Decoded(Signal(name, core), rest))
  {
    assert IsField([]);
    hide EncodeString, DecodeString, EncodeBool, DecodeBool, IsField;
    var tag := EncodeString([]) + rest;
    var message := EncodeString([]) + tag;
    var dumped := EncodeBool(core) + message;
    assert SignalPayload(name, core) + rest == EncodeString(name) + dumped;
    StringReadBack(name, dumped);
    BoolRoundTrip(core, message);
    StringReadBack([], tag);
    StringReadBack([], rest);
  }

  /** A cut payload gives the same result with less behind it, or does not decode. */
  lemma NoticeCut(requestType: Bytes, s: Bytes, k: nat)
    requires k <= |s|
    ensures var cut, whole := DecodeNotice(requestType, s[..k]), DecodeNotice(requestType, s);
            && cut.Some? == whole.Some?
            && (cut.Some? && cut.value.Ok? ==>
                  && whole.value.Ok? && whole.value.value.value == cut.value.value.value
                  && cut.value.value.rest <= whole.value.value.rest
                  && |whole.value.value.rest| - |cut.value.value.rest| == |s| - k)
  {
    hide StatusType, SignalType, DecodeVarint, DecodeExitSignal;
    if requestType == StatusType() {
      VarintCut(s, k);
    } else if requestType == SignalType() {
      ExitSignalCut(s, k);
    }
  }

  lemma ExitSignalCut(s: Bytes, k: nat)
    requires k <= |s|
    ensures match DecodeExitSignal(s[..k])
            case Err(_) => true
            case Ok(d) =>
              && DecodeExitSignal(s).Ok? && DecodeExitSignal(s).value.value == d.value
              && d.rest <= DecodeExitSignal(s).value.rest
              && |DecodeExitSignal(s).value.rest| - |d.rest| == |s| - k
  {
    hide DecodeString, DecodeBool;
    if DecodeExitSignal(s[..k]).Ok? {
      StringCut(s, k);
      var n, n' := DecodeString(s).value.rest, DecodeString(s[..k]).value.rest;
      assert n' == n[..|n'|];
      BoolCut(n, |n'|);
      var c, c' := DecodeBool(n).value.rest, DecodeBool(n').value.rest;
      assert c' == c[..|c'|];
      StringCut(c, |c'|);
      var m, m' := DecodeString(c).value.rest, DecodeString(c').value.rest;
      assert m' == m[..|m'|];
      StringCut(m, |m'|);
    }
  }

  /** How long a notice payload is: what its decoder takes. */
  function NoticeSize(requestType: Bytes, s: Bytes): Option<nat> {
    match DecodeNotice(requestType, s)
    case Some(Ok(d)) => if |d.rest| <= |s| then Some(|s| - |d.rest|) else None
    case _ => None
  }

  /** Exit notices say where they end, so lists of frames with them are read back whole. */
  lemma ExitFrameDelimited(status: ExitStatus)
    ensures SelfDelimiting(ExitFrame(status), NoticeSize)
  {
    hide ExitFrame, ExitResultOf, DecodeNotice;
    var f := ExitFrame(status);
    forall rest: Bytes
      ensures NoticeSize(f.requestType, f.payload + rest) == Some(|f.payload|)
    {
      ExitRoundTrip(status, rest);
    }
  }
}
