/** How commands are laid out in a packet: reading them inverts writing them. */
module CommandFormat {
  import opened Basics
  import opened Commands

  /** The two bytes of a command header that nothing looks at. */
  datatype Padding = Padding(first: Byte, second: Byte)

  /** The name and the length fit the header. */
  predicate Writable(c: Command) {
    c.name < 0x1_0000_0000 && 8 + |c.payload| < 0x1_0000
  }

  /** The length of the whole command, the padding, the name and the payload; numbers have their high byte first. */
  function Bytes(c: Command, padding: Padding): seq<Byte>
    requires Writable(c)
  {
    var n := 8 + |c.payload|;
    [n / 0x100, n % 0x100, padding.first, padding.second,
     c.name / 0x100_0000, c.name / 0x1_0000 % 0x100, c.name / 0x100 % 0x100, c.name % 0x100] + c.payload
  }

  function Written(commands: seq<Command>, paddings: seq<Padding>): seq<Byte>
    requires |paddings| == |commands| && forall i :: 0 <= i < |commands| ==> Writable(commands[i])
  {
    if commands == [] then [] else Bytes(commands[0], paddings[0]) + Written(commands[1..], paddings[1..])
  }

  /** Whatever the padding: what was written behind a packet's header is what is read from there. */
  lemma {:induction false} ReadingInverts(header: seq<Byte>, commands: seq<Command>, paddings: seq<Padding>)
    requires |paddings| == |commands| && forall i :: 0 <= i < |commands| ==> Writable(commands[i])
    ensures WellFormed(header + Written(commands, paddings), |header|)
    ensures Parsed(header + Written(commands, paddings), |header|) == commands
    decreases |commands|
  {
    hide WellFormed, Parsed, CmdLen, Name, Bytes, Written;
    if commands == [] {
      NothingWritten(header, paddings);
    } else {
      var first, rest := Bytes(commands[0], paddings[0]), Written(commands[1..], paddings[1..]);
      FirstWritten(commands, paddings);
      ReadingInverts(header + first, commands[1..], paddings[1..]);
      assert header + Written(commands, paddings) == (header + first) + rest;
      HeaderRead(header, commands[0], paddings[0], rest);
      CommandInFront((header + first) + rest, |header|);
    }
  }

  lemma NothingWritten(header: seq<Byte>, paddings: seq<Padding>)
    requires paddings == []
    ensures header + Written([], paddings) == header
    ensures WellFormed(header, |header|) && Parsed(header, |header|) == []
  {
  }

  lemma FirstWritten(commands: seq<Command>, paddings: seq<Padding>)
    requires |paddings| == |commands| > 0 && forall i :: 0 <= i < |commands| ==> Writable(commands[i])
    ensures Written(commands, paddings) == Bytes(commands[0], paddings[0]) + Written(commands[1..], paddings[1..])
  {
  }

  lemma Digits(n: nat)
    requires n < 0x1_0000_0000
    ensures n / 0x100_0000 * 0x100_0000 + n / 0x1_0000 % 0x100 * 0x1_0000 + n / 0x100 % 0x100 * 0x100 + n % 0x100 == n
    ensures n / 0x100 * 0x100 + n % 0x100 == n
  {
    var q := n / 0x100;
    var r := q / 0x100;
    assert n == q * 0x100 + n % 0x100;
    assert q == r * 0x100 + q % 0x100;
    assert r == r / 0x100 * 0x100 + r % 0x100;
    assert n / 0x1_0000 == r && n / 0x100_0000 == r / 0x100;
  }

  lemma Middle(a: seq<Byte>, b: seq<Byte>, c: seq<Byte>)
    ensures var s := a + b + c;
      |s| == |a| + |b| + |c| && (forall k :: 0 <= k < |b| ==> s[|a| + k] == b[k])
      && forall k :: 0 <= k <= |b| ==> s[|a| + k..|a| + |b|] == b[k..]
  {
  }

  /** The length, the name and the payload of a command that was written. */
  lemma HeaderRead(header: seq<Byte>, c: Command, padding: Padding, rest: seq<Byte>)
    requires Writable(c)
    ensures var s := header + Bytes(c, padding) + rest; var i := |header|;
      && i + 8 + |c.payload| <= |s| && CmdLen(s, i) == 8 + |c.payload| == |Bytes(c, padding)| && Name(s, i) == c.name
      && s[i + CMD_HEADER..i + CmdLen(s, i)] == c.payload
  {
    var b, s, i := Bytes(c, padding), header + Bytes(c, padding) + rest, |header|;
    Digits(c.name);
    Digits(|b|);
    BytesAre(c, padding);
    Middle(header, b, rest);
    hide Bytes;
    assert s[i] == b[0] && s[i + 1] == b[1];
    assert s[i + 4] == b[4] && s[i + 5] == b[5] && s[i + 6] == b[6] && s[i + 7] == b[7];
    assert s[i + 8..i + |b|] == b[8..];
  }

  lemma BytesAre(c: Command, padding: Padding)
    requires Writable(c)
    ensures var b := Bytes(c, padding); var n := 8 + |c.payload|;
      && |b| == n && b[8..] == c.payload && b[0] == n / 0x100 && b[1] == n % 0x100
      && b[4] == c.name / 0x100_0000 && b[5] == c.name / 0x1_0000 % 0x100 && b[6] == c.name / 0x100 % 0x100
      && b[7] == c.name % 0x100
  {
  }

  /** The name of a camera control command spells "CCdP", and no other name does. */
  lemma CameraControlName(s: seq<Byte>, i: nat)
    requires i + CMD_HEADER <= |s|
    ensures Name(s, i) == CAMERA_CONTROL <==> s[i + 4..i + 8] == [0x43, 0x43, 0x64, 0x50]
  {
    var name := s[i + 4..i + 8];
    assert name[0] == s[i + 4] && name[1] == s[i + 5] && name[2] == s[i + 6] && name[3] == s[i + 7];
  }

  /** A packet with a single camera control command, byte by byte: its translation is written if it is for the own
      camera, and nothing otherwise. */
  lemma OneCameraCommand(header: seq<Byte>, payload: seq<Byte>, padding: Padding, dest: Byte)
    requires Translatable(payload) && 8 + |payload| < 0x1_0000
    ensures var n := 8 + |payload|;
      var s := header + [n / 0x100, n % 0x100, padding.first, padding.second, 0x43, 0x43, 0x64, 0x50] + payload;
      && WellFormed(s, |header|) && Parsed(s, |header|) == [Command(0x43436450, payload)]
      && AllTranslatable(Parsed(s, |header|), dest)
      && Messages(Parsed(s, |header|), dest) == if payload[0] == dest then [Message(payload)] else []
  {
    var n, c := 8 + |payload|, Command(0x43436450, payload);
    var s := header + [n / 0x100, n % 0x100, padding.first, padding.second, 0x43, 0x43, 0x64, 0x50] + payload;
    CameraBytes(payload, padding);
    hide WellFormed, Parsed, Message, Translatable, Bytes;
    ReadingInverts(header, [c], [padding]);
    assert [c][1..] == [] && [padding][1..] == [];
    assert Written([c], [padding]) == Bytes(c, padding);
    assert s == header + Bytes(c, padding);
    OneMessage(c, dest);
  }

  lemma CameraBytes(payload: seq<Byte>, padding: Padding)
    requires 8 + |payload| < 0x1_0000
    ensures var n := 8 + |payload|;
      Bytes(Command(0x43436450, payload), padding)
        == [n / 0x100, n % 0x100, padding.first, padding.second, 0x43, 0x43, 0x64, 0x50] + payload
  {
  }

  lemma OneMessage(c: Command, dest: Byte)
    requires Translatable(c.payload) && c.name == 0x43436450
    ensures AllTranslatable([c], dest)
    ensures Messages([c], dest) == if c.payload[0] == dest then [Message(c.payload)] else []
  {
    hide Message;
    assert [c][..0] == [];
  }

  // ---------------------------------------------------------------- camera control

  /** Values of one type for a parameter of a camera: `width` is 1, 2 or 4 bytes. */
  datatype Setting = Setting(dest: Byte, category: Byte, parameter: Byte, kind: Byte, operation: Byte, width: nat,
                             values: seq<nat>)

  /** A number in `w` bytes, high byte first. */
  function High(v: nat, w: nat): (r: seq<Byte>)
    ensures |r| == w
  {
    if w == 0 then [] else High(v / 0x100, w - 1) + [v % 0x100]
  }

  /** A number in `w` bytes, low byte first. */
  function Low(v: nat, w: nat): (r: seq<Byte>)
    ensures |r| == w
  {
    if w == 0 then [] else [v % 0x100] + Low(v / 0x100, w - 1)
  }

  function AllHigh(values: seq<nat>, w: nat): seq<Byte> {
    if values == [] then [] else High(values[0], w) + AllHigh(values[1..], w)
  }

  function AllLow(values: seq<nat>, w: nat): seq<Byte> {
    if values == [] then [] else Low(values[0], w) + AllLow(values[1..], w)
  }

  predicate Sendable(c: Setting) {
    c.width in {1, 2, 4} && 0 < |c.values| * c.width < 0x100
  }

  /** The setting as the switcher sends it, in the layout of doc/atem_camera_control_protocol.md; eight bytes mean
      nothing. */
  function FromSwitcher(c: Setting, unused: seq<Byte>): seq<Byte>
    requires Sendable(c) && |unused| == 8
  {
    MulBound(|c.values|, c.width);
    var n := |c.values|;
    [c.dest, c.category, c.parameter, c.kind, c.operation, if c.width == 1 then n else 0,
     unused[0], if c.width == 2 then n else 0, unused[1], if c.width == 4 then n else 0,
     unused[2], unused[3], unused[4], unused[5], unused[6], unused[7]] + AllHigh(c.values, c.width)
  }

  lemma MulBound(n: nat, w: nat)
    requires w in {1, 2, 4} && n * w < 0x100
    ensures n < 0x100
  {
  }

  /** The setting as a camera wants it: destination, length, command and a reserved byte, then category, parameter, type
      and operation, the values, and zeros up to a multiple of four. */
  function ToCamera(c: Setting): seq<Byte>
    requires Sendable(c)
  {
    var n := |c.values| * c.width;
    [c.dest, (4 + n) % 0x100, 0, 0, c.category, c.parameter, c.kind, c.operation] + AllLow(c.values, c.width)
    + (match n % 4 case 0 => [] case 1 => [0, 0, 0] case 2 => [0, 0] case _ => [0])
  }

  lemma {:induction false} ReversedHigh(v: nat, w: nat)
    ensures Reversed(High(v, w)) == Low(v, w)
  {
    if w > 0 {
      ReversedTail(High(v, w));
      assert High(v, w)[..w - 1] == High(v / 0x100, w - 1);
      ReversedHigh(v / 0x100, w - 1);
    }
  }

  lemma {:induction false} SwappedHigh(values: seq<nat>, w: nat)
    requires w > 0
    ensures |AllHigh(values, w)| == |AllLow(values, w)| == |values| * w
    ensures Swapped(AllHigh(values, w), w) == AllLow(values, w)
    decreases |values|
  {
    if values != [] {
      var s, rest := AllHigh(values, w), AllHigh(values[1..], w);
      SwappedHigh(values[1..], w);
      MoreByOne(|values|, w);
      ReversedHigh(values[0], w);
      assert s[..w] == High(values[0], w) && s[w..] == rest;
    }
  }

  /** Translating a setting from the one layout gives it in the other. */
  lemma TranslationIsExact(c: Setting, unused: seq<Byte>)
    requires Sendable(c) && |unused| == 8
    ensures Translatable(FromSwitcher(c, unused)) && Message(FromSwitcher(c, unused)) == ToCamera(c)
  {
    var p, n := FromSwitcher(c, unused), |c.values| * c.width;
    SwappedHigh(c.values, c.width);
    MulBound(|c.values|, c.width);
    LayoutIs(c, unused);
    WholeData(p, c.width, |c.values|, AllHigh(c.values, c.width));
    hide FromSwitcher, Swapped, AllHigh, AllLow, Pad4, Len, Width, SingleType, Translatable, Message, Data;
    MessageIs(p, AllLow(c.values, c.width));
    Padding4(n);
    assert AllLow(c.values, c.width)[..n] == AllLow(c.values, c.width);
    MessageStarts(c);
    hide ToCamera;
  }

  lemma MessageStarts(c: Setting)
    requires Sendable(c)
    ensures var n := |c.values| * c.width; var start: seq<Byte> := [c.dest, (4 + n) % 0x100, 0, 0];
      ToCamera(c) == start + [c.category, c.parameter, c.kind, c.operation] + AllLow(c.values, c.width)
        + match n % 4 case 0 => [] case 1 => [0, 0, 0] case 2 => [0, 0] case _ => [0]
  {
    hide AllLow;
    var n := |c.values| * c.width;
    var start: seq<Byte> := [c.dest, (4 + n) % 0x100, 0, 0];
    assert [c.dest, (4 + n) % 0x100, 0, 0, c.category, c.parameter, c.kind, c.operation]
      == start + [c.category, c.parameter, c.kind, c.operation];
  }

  lemma WholeData(p: seq<Byte>, w: nat, count: nat, data: seq<Byte>)
    requires CC_DATA <= |p| && p[16..] == data && |data| == count * w
    requires w in {1, 2, 4} && SingleType(p, w, count) && 0 < count * w < 0x100
    ensures Translatable(p) && Len(p) == count * w && Width(p) == w && Data(p) == data
  {
    SizesOfSingleType(p, w, count);
    SingleTypeIsWhole(count, w);
    assert p[16..16 + count * w] == data;
  }

  lemma Padding4(n: nat)
    ensures Zeros(if Pad4(n) > n then Pad4(n) - n else 0)
      == match n % 4 case 0 => [] case 1 => [0, 0, 0] case 2 => [0, 0] case _ => [0]
  {
  }

  lemma LayoutIs(c: Setting, unused: seq<Byte>)
    requires Sendable(c) && |unused| == 8
    ensures var p := FromSwitcher(c, unused); var n := |c.values|;
      && |p| == 16 + |AllHigh(c.values, c.width)| && SingleType(p, c.width, n) && p[16..] == AllHigh(c.values, c.width)
      && p[0] == c.dest && p[1..5] == [c.category, c.parameter, c.kind, c.operation]
  {
    MulBound(|c.values|, c.width);
  }
}
