/**
 Encoded terminal modes (section 8 of RFC 4254): the interpreter loop of a pty request and
 what it leaves in the terminal's settings. Flags are sets of Linux bit positions.
 */
module TermModes {
  import opened Prelude
  import opened Wire

  const END := 0
  const ISPEED := 128
  const OSPEED := 129
  const FIRST_UNDEFINED := 160
  const NCCS := 32

  datatype Termios = Termios(
    input: set<nat>,
    output: set<nat>,
    control: set<nat>,
    local: set<nat>,
    chars: seq<byte>,
    ispeed: nat,
    ospeed: nat)
  {
    predicate Valid() {
      |chars| == NCCS
    }
  }

  // ----- opcode maps -------------------------------------------------------

  const BAUDS: seq<nat> :=
    [0, 50, 75, 110, 134, 150, 200, 300, 600, 1200, 1800, 2400, 4800, 9600, 19200, 38400, 57600, 115200, 230400]

  function Speed(baud: nat): Option<nat> {
    if baud in BAUDS then Some(baud) else None
  }

  function CcIndex(opcode: nat): (r: Option<nat>)
    ensures r.Some? ==> 1 <= opcode <= 18 && r.value < NCCS
  {
    match opcode
    case 1 => Some(0)
    case 2 => Some(1)
    case 3 => Some(2)
    case 4 => Some(3)
    case 5 => Some(4)
    case 6 => Some(11)
    case 7 => Some(16)
    case 8 => Some(8)
    case 9 => Some(9)
    case 10 => Some(10)
    case 12 => Some(12)
    case 13 => Some(14)
    case 14 => Some(15)
    case 18 => Some(13)
    case _ => None
  }

  /** IGNPAR up to IUTF8 are consecutive, in the order of their opcodes. */
  function InputBit(opcode: nat): Option<nat> {
    if 30 <= opcode <= 42 then Some(opcode - 28) else None
  }

  /** ISIG, ICANON; then ECHO up to TOSTOP; IEXTEN, ECHOCTL, ECHOKE and PENDIN. XCASE (52) is not mapped. */
  function LocalBit(opcode: nat): Option<nat> {
    if opcode == 50 || opcode == 51 then Some(opcode - 50)
    else if 53 <= opcode <= 58 then Some(opcode - 50)
    else if opcode == 59 then Some(15)
    else if opcode == 60 then Some(9)
    else if opcode == 61 then Some(11)
    else if opcode == 62 then Some(14)
    else None
  }

  /** OPOST up to ONLRET. */
  function OutputBit(opcode: nat): Option<nat> {
    if 70 <= opcode <= 75 then Some(opcode - 70) else None
  }

  /** CS7, CS8, PARENB and PARODD; the two sizes share a bit. */
  function ControlBits(opcode: nat): set<nat> {
    if opcode == 90 then {5} else if opcode == 91 then {4, 5}
    else if opcode == 92 then {8} else if opcode == 93 then {9}
    else {}
  }

  // ----- entries -----------------------------------------------------------

  datatype Entry = Entry(opcode: byte, value: nat)

  predicate IsEntry(e: Entry) {
    0 < e.opcode < 160 && e.value < 0x1_0000_0000
  }

  /** The entries before the first END, undefined opcode or truncated entry. */
  function Entries(modes: Bytes): (es: seq<Entry>)
    ensures forall e :: e in es ==> IsEntry(e)
  {
    if Ends(modes) then [] else FirstValue(modes); [FirstEntry(modes)] + Entries(modes[5..])
  }

  /** Nothing more is read here. */
  predicate Ends(modes: Bytes) {
    modes == [] || modes[0] == 0 || modes[0] >= 160 || |modes| < 5
  }

  function FirstEntry(modes: Bytes): Entry
    requires |modes| >= 5
  {
    Entry(modes[0], FromBigEndian(modes[1..5]))
  }

  lemma FirstValue(modes: Bytes)
    requires |modes| >= 5
    ensures FirstEntry(modes).value < 0x1_0000_0000
  {
    FromBigEndianFits(modes[1..5]);
    FourBytes();
  }

  lemma FourBytes()
    ensures Pow256(4) == 0x1_0000_0000
  {
    assert Pow256(1) == 256 && Pow256(2) == 256 * Pow256(1) && Pow256(3) == 256 * Pow256(2);
  }

  function SetFlags(flags: set<nat>, bits: set<nat>, on: bool): set<nat> {
    if on then flags + bits else flags - bits
  }

  function SetBit(flags: set<nat>, bit: Option<nat>, on: bool): set<nat> {
    if bit.Some? then SetFlags(flags, {bit.value}, on) else flags
  }

  function CharValue(value: nat): byte {
    if value == 255 then 0 else value % 256
  }

  /** What one entry does. */
  function Update(t: Termios, e: Entry): (r: Termios)
    requires t.Valid()
    ensures r.Valid()
  {
    var on := e.value != 0;
    if e.opcode == ISPEED then
      if Speed(e.value).Some? then t.(ispeed := Speed(e.value).value) else t
    else if e.opcode == OSPEED then
      if Speed(e.value).Some? then t.(ospeed := Speed(e.value).value) else t
    else if 1 <= e.opcode <= 18 then
      var i := CcIndex(e.opcode);
      if i.Some? then t.(chars := t.chars[i.value := CharValue(e.value)]) else t
    else if 30 <= e.opcode <= 42 then t.(input := SetBit(t.input, InputBit(e.opcode), on))
    else if 50 <= e.opcode <= 62 then t.(local := SetBit(t.local, LocalBit(e.opcode), on))
    else if 70 <= e.opcode <= 75 then t.(output := SetBit(t.output, OutputBit(e.opcode), on))
    else if 90 <= e.opcode <= 93 then t.(control := SetFlags(t.control, ControlBits(e.opcode), on))
    else t
  }

  function UpdateAll(t: Termios, es: seq<Entry>): (r: Termios)
    requires t.Valid()
    ensures r.Valid()
  {
    if es == [] then t else Update(UpdateAll(t, es[..|es| - 1]), es[|es| - 1])
  }

  // ----- the loop ----------------------------------------------------------

  /** A terminal; its attribute calls may fail. */
  class Terminal {
    var attributes: Termios

    constructor (attributes: Termios)
      ensures this.attributes == attributes
    {
      this.attributes := attributes;
    }

    method GetAttributes() returns (r: Option<Termios>)
      ensures r.Some? ==> r.value == attributes
    {
      var failed: bool := *;
      r := if failed then None else Some(attributes);
    }

    method SetAttributes(t: Termios) returns (ok: bool)
      modifies this
      ensures attributes == if ok then t else old(attributes)
    {
      ok := *;
      if ok {
        attributes := t;
      }
    }
  }

  method ApplyTerminalModes(fd: Terminal, modes: Bytes) returns (ok: bool)
    requires fd.attributes.Valid()
    modifies fd
    ensures fd.attributes == if ok then UpdateAll(old(fd.attributes), Entries(modes)) else old(fd.attributes)
    ensures modes == [] ==> ok
  {
    if modes == [] {
      return true;
    }
    var start := fd.GetAttributes();
    if start.None? {
      return false;
    }
    var tio := Interpret(start.value, modes);
    ok := fd.SetAttributes(tio);
  }

  method Interpret(start: Termios, modes: Bytes) returns (tio: Termios)
    requires start.Valid()
    ensures tio == UpdateAll(start, Entries(modes))
  {
    hide Update, Entries;
    tio := start;
    var pos := 0;
    ghost var done: seq<Entry> := [];
    assert modes[0..] == modes;
    while pos < |modes|
      invariant pos <= |modes|
      invariant tio == UpdateAll(start, done)
      invariant Entries(modes) == done + Entries(modes[pos..])
    {
      EntriesUnfold(modes, pos);
      assert done + [] == done;
      var opcode := modes[pos];
      pos := pos + 1;
      if opcode == END {
        break;
      }
      if opcode >= FIRST_UNDEFINED {
        break;
      }
      if pos + 4 > |modes| {
        break;
      }
      var value := FromBigEndian(modes[pos..pos + 4]);
      pos := pos + 4;
      var e := Entry(opcode, value);
      assert (done + [e])[..|done|] == done;
      Regroup(done, [e], Entries(modes[pos..]));
      done := done + [e];
      tio := Update(tio, e);
    }
    EntriesUnfold(modes, |modes|);
    assert done + [] == done;
  }

  lemma EntriesUnfold(modes: Bytes, pos: nat)
    requires pos <= |modes|
    ensures if pos == |modes| || modes[pos] == END || modes[pos] >= FIRST_UNDEFINED || |modes| < pos + 5 then
              Entries(modes[pos..]) == []
            else
              var e := Entry(modes[pos], FromBigEndian(modes[pos + 1..pos + 5]));
              Entries(modes[pos..]) == [e] + Entries(modes[pos + 5..])
  {
    var m := modes[pos..];
    if |m| >= 5 {
      assert m[1..5] == modes[pos + 1..pos + 5] && m[5..] == modes[pos + 5..];
    }
  }

  // ----- what is read ------------------------------------------------------

  function EncodeEntry(e: Entry): Bytes {
    [e.opcode] + BigEndian(e.value, 4)
  }

  function EncodeEntries(es: seq<Entry>): Bytes {
    if es == [] then [] else EncodeEntry(es[0]) + EncodeEntries(es[1..])
  }

  /** Entries are read up to where the bytes end them; what follows has no effect. */
  lemma {:induction false} EntriesReadBack(es: seq<Entry>, tail: Bytes)
    requires forall e :: e in es ==> IsEntry(e)
    requires Ends(tail)
    ensures Entries(EncodeEntries(es) + tail) == es
  {
    if es == [] {
      assert EncodeEntries(es) + tail == tail;
    } else {
      var e, es' := es[0], es[1..];
      assert e in es && IsEntry(e);
      assert forall x :: x in es' ==> x in es;
      var rest := EncodeEntries(es') + tail;
      EntriesReadBack(es', tail);
      Regroup(EncodeEntry(e), EncodeEntries(es'), tail);
      EntryReadBack(e, rest);
      hide EncodeEntry, FirstEntry;
      assert EncodeEntries(es) + tail == EncodeEntry(e) + rest;
      assert es == [e] + es';
    }
  }

  lemma EntryReadBack(e: Entry, rest: Bytes)
    requires IsEntry(e)
    ensures var m := EncodeEntry(e) + rest; |m| >= 5 && !Ends(m) && FirstEntry(m) == e && m[5..] == rest
  {
    var m := EncodeEntry(e) + rest;
    assert m[0] == e.opcode && m[1..5] == BigEndian(e.value, 4) && m[5..] == rest;
    FourBytes();
    BigEndianInverse(e.value, 4);
  }

  /** Every byte string is some entries and then an end. */
  lemma {:induction false} ModesAreEntries(modes: Bytes) returns (tail: Bytes)
    ensures Ends(tail) && modes == EncodeEntries(Entries(modes)) + tail
  {
    if Ends(modes) {
      tail := modes;
    } else {
      tail := ModesAreEntries(modes[5..]);
      FromBigEndianFits(modes[1..5]);
      var es := Entries(modes);
      assert es[1..] == Entries(modes[5..]);
      assert modes == [modes[0]] + modes[1..5] + modes[5..];
    }
  }

  // ----- the last entry wins -----------------------------------------------

  /** A character or a flag. */
  datatype Target = Char(index: nat) | Input(bit: nat) | Output(bit: nat) | Local(bit: nat) | Control(bit: nat)

  /** The bits in which the C library keeps the two speeds are not flags. */
  predicate Exists(target: Target) {
    match target
    case Char(i) => i < NCCS
    case Input(b) => b != 31
    case Control(b) => !(b < 4 || b == 12 || 16 <= b <= 28)
    case _ => true
  }

  function Read(t: Termios, target: Target): nat
    requires t.Valid() && Exists(target)
  {
    match target
    case Char(i) => t.chars[i]
    case Input(b) => if b in t.input then 1 else 0
    case Output(b) => if b in t.output then 1 else 0
    case Local(b) => if b in t.local then 1 else 0
    case Control(b) => if b in t.control then 1 else 0
  }

  const CHARS: seq<(nat, nat)> :=
    [(1, 0), (2, 1), (3, 2), (4, 3), (5, 4), (6, 11), (7, 16), (8, 8), (9, 9), (10, 10), (12, 12), (13, 14),
     (14, 15), (18, 13)]

  const INPUTS: seq<(nat, nat)> :=
    [(30, 2), (31, 3), (32, 4), (33, 5), (34, 6), (35, 7), (36, 8), (37, 9), (38, 10), (39, 11), (40, 12),
     (41, 13), (42, 14)]

  const LOCALS: seq<(nat, nat)> :=
    [(50, 0), (51, 1), (53, 3), (54, 4), (55, 5), (56, 6), (57, 7), (58, 8), (59, 15), (60, 9), (61, 11), (62, 14)]

  const OUTPUTS: seq<(nat, nat)> := [(70, 0), (71, 1), (72, 2), (73, 3), (74, 4), (75, 5)]

  const CONTROLS: seq<(nat, nat)> := [(90, 5), (91, 4), (91, 5), (92, 8), (93, 9)]

  /** Which opcode is for what: the opcodes of RFC 4254 with Linux positions. */
  predicate Hits(e: Entry, target: Target) {
    match target
    case Char(i) => (e.opcode, i) in CHARS
    case Input(b) => (e.opcode, b) in INPUTS
    case Output(b) => (e.opcode, b) in OUTPUTS
    case Local(b) => (e.opcode, b) in LOCALS
    case Control(b) => (e.opcode, b) in CONTROLS
  }

  /** What it sets the target to: for a character 255 is none and only the low byte counts. */
  function Meaning(e: Entry, target: Target): nat {
    match target
    case Char(_) => if e.value == 255 then 0 else e.value % 256
    case _ => if e.value != 0 then 1 else 0
  }

  function LastHit(es: seq<Entry>, target: Target): Option<Entry> {
    if es == [] then None
    else if Hits(es[|es| - 1], target) then Some(es[|es| - 1])
    else LastHit(es[..|es| - 1], target)
  }

  /** Every character and flag ends as its last entry says, or stays as it was. */
  lemma {:induction false} LastEntryWins(t: Termios, es: seq<Entry>, target: Target)
    requires t.Valid() && Exists(target)
    ensures var last := LastHit(es, target);
            Read(UpdateAll(t, es), target) == if last.Some? then Meaning(last.value, target) else Read(t, target)
  {
    if es != [] {
      LastEntryWins(t, es[..|es| - 1], target);
      UpdateOne(UpdateAll(t, es[..|es| - 1]), es[|es| - 1], target);
    }
  }

  lemma UpdateOne(t: Termios, e: Entry, target: Target)
    requires t.Valid() && Exists(target)
    ensures Read(Update(t, e), target) == if Hits(e, target) then Meaning(e, target) else Read(t, target)
  {
    hide BAUDS;
  }

  /** The rates of termios from 0 to 230400 bits per second. */
  predicate IsRate(v: nat) {
    || v == 0 || v == 50 || v == 75 || v == 110 || v == 134 || v == 150 || v == 200 || v == 300 || v == 600
    || v == 1200 || v == 1800 || v == 2400 || v == 4800 || v == 9600 || v == 19200 || v == 38400
    || v == 57600 || v == 115200 || v == 230400
  }

  /** The last rate that an opcode names. */
  function LastRate(es: seq<Entry>, opcode: nat, start: nat): nat {
    if es == [] then start
    else if es[|es| - 1].opcode == opcode && IsRate(es[|es| - 1].value) then es[|es| - 1].value
    else LastRate(es[..|es| - 1], opcode, start)
  }

  /** TTY_OP_ISPEED is 128, TTY_OP_OSPEED 129; what is no rate changes nothing. */
  lemma {:induction false} LastRatesWin(t: Termios, es: seq<Entry>)
    requires t.Valid()
    ensures UpdateAll(t, es).ispeed == LastRate(es, 128, t.ispeed)
    ensures UpdateAll(t, es).ospeed == LastRate(es, 129, t.ospeed)
  {
    if es != [] {
      hide CcIndex, InputBit, OutputBit, LocalBit, ControlBits;
      LastRatesWin(t, es[..|es| - 1]);
      RateIsBaud(es[|es| - 1].value);
      hide BAUDS, IsRate;
    }
  }

  lemma RateIsBaud(v: nat)
    ensures IsRate(v) <==> v in BAUDS
  {}

  /** Except for the two character sizes, no two opcodes set the same thing. */
  lemma OpcodesAreIndependent(a: Entry, b: Entry, target: Target)
    requires Hits(a, target) && Hits(b, target)
    ensures a.opcode == b.opcode || {a.opcode, b.opcode} == {90, 91}
  {
    if target.Char? { OneCharEach(a.opcode, b.opcode, target.index); }
    if target.Input? { OneInputEach(a.opcode, b.opcode, target.bit); }
    if target.Local? { OneLocalEach(a.opcode, b.opcode, target.bit); }
    hide CHARS, INPUTS, LOCALS;
  }

  lemma OneCharEach(a: nat, b: nat, i: nat)
    ensures (a, i) in CHARS && (b, i) in CHARS ==> a == b
  {}

  lemma OneInputEach(a: nat, b: nat, i: nat)
    ensures (a, i) in INPUTS && (b, i) in INPUTS ==> a == b
  {}

  lemma OneLocalEach(a: nat, b: nat, i: nat)
    ensures (a, i) in LOCALS && (b, i) in LOCALS ==> a == b
  {}
}
