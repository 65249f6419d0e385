/** Iterating over the commands of a received packet while translating camera control commands in
    place. */
module Commands {
  import opened Basics

  const CMD_HEADER := 8
  const CC_DATA := 16
  /** The numbers of values are in front of this. */
  const CC_COUNTS := 10
  const CAMERA_CONTROL := 0x4343_6450   // "CCdP"

  datatype Command = Command(name: nat, payload: seq<Byte>)

  // ---------------------------------------------------------------- packets as lists of commands

  function CmdLen(s: seq<Byte>, i: nat): nat
    requires i + 1 < |s|
  {
    s[i] as int * 0x100 + s[i + 1] as int
  }

  function Name(s: seq<Byte>, i: nat): nat
    requires i + CMD_HEADER <= |s|
  {
    s[i + 4] as int * 0x100_0000 + s[i + 5] as int * 0x1_0000 + s[i + 6] as int * 0x100 + s[i + 7] as int
  }

  /** Commands fill the packet exactly from position `i` on. */
  predicate WellFormed(s: seq<Byte>, i: nat)
    decreases |s| - i
  {
    i == |s| || (i + CMD_HEADER <= |s| && CMD_HEADER <= CmdLen(s, i) && i + CmdLen(s, i) <= |s|
                 && WellFormed(s, i + CmdLen(s, i)))
  }

  function Parsed(s: seq<Byte>, i: nat): seq<Command>
    requires WellFormed(s, i)
    decreases |s| - i
  {
    if i == |s| then []
    else [Command(Name(s, i), s[i + CMD_HEADER..i + CmdLen(s, i)])] + Parsed(s, i + CmdLen(s, i))
  }

  // ---------------------------------------------------------------- camera control data

  /** The counts of 8, 16 and 32 bit values. */
  function Counts(p: seq<Byte>): (Byte, Byte, Byte)
    requires CC_COUNTS <= |p|
  {
    (p[5], p[7], p[9])
  }

  function Width(p: seq<Byte>): nat
    requires CC_COUNTS <= |p|
  {
    (if p[5] > 0 then 1 else 0) + (if p[7] > 0 then 2 else 0) + (if p[9] > 0 then 4 else 0)
  }

  /** The length of the data, in an 8-bit number. */
  function Len(p: seq<Byte>): nat
    requires CC_COUNTS <= |p|
  {
    (p[5] as int + p[7] as int * 2 + p[9] as int * 4) % 0x100
  }

  /** `n` rounded up to whole groups of `w` bytes. */
  function Ceil(n: int, w: nat): nat
    decreases n
  {
    if n <= 0 || w == 0 then 0 else w + Ceil(n - w, w)
  }

  /** The command holds all the data it announces, and the 8-bit loop index does not wrap around. */
  predicate Translatable(p: seq<Byte>) {
    && CC_DATA <= |p|
    && Ceil(Len(p), Width(p)) <= 0xff
    && CC_DATA + Ceil(Len(p), Width(p)) <= |p|
  }

  function Reversed(s: seq<Byte>): (r: seq<Byte>)
    ensures |r| == |s|
  {
    if s == [] then [] else Reversed(s[1..]) + [s[0]]
  }

  /** Every group of `w` bytes reversed; an incomplete last group is dropped. */
  function Swapped(s: seq<Byte>, w: nat): seq<Byte> {
    if w == 0 || |s| < w then [] else Reversed(s[..w]) + Swapped(s[w..], w)
  }

  function Pad4(n: nat): nat {
    (n + 3) / 4 * 4
  }

  function Zeros(n: nat): seq<Byte> {
    seq(n, _ => 0)
  }

  lemma PadBounds(n: nat)
    ensures n <= Pad4(n) <= n + 3
  {
  }

  lemma {:induction false} SwappedLength(s: seq<Byte>, w: nat, n: nat)
    requires |s| == Ceil(n, w)
    ensures |Swapped(s, w)| == |s|
    decreases n
  {
    if n > 0 && w > 0 {
      SwappedLength(s[w..], w, if n > w then n - w else 0);
    }
  }

  lemma {:induction false} CeilCovers(n: nat, w: nat)
    requires n > 0 ==> w > 0
    ensures n <= Ceil(n, w) && (n > 0 ==> Ceil(n, w) < n + w)
    decreases n
  {
    if n > w {
      CeilCovers(n - w, w);
    }
  }

  /** What an 8-bit variable holds of a number. */
  function Wrapped(n: nat): (r: nat)
    ensures r < 0x100 && (n < 0x100 ==> r == n)
  {
    n % 0x100
  }

  lemma CeilStep(n: int, w: nat)
    requires n > 0 ==> w > 0
    ensures Ceil(n, w) == if n > 0 then w + Ceil(n - w, w) else 0
  {
  }

  lemma WidthPositive(p: seq<Byte>)
    requires CC_COUNTS <= |p|
    ensures Len(p) > 0 ==> Width(p) > 0
  {
  }

  /** The bytes that are written over the serial interface for a camera control command. */
  function Message(p: seq<Byte>): seq<Byte>
    requires Translatable(p)
  {
    WidthPositive(p);
    CeilCovers(Len(p), Width(p));
    var data := p[CC_DATA..CC_DATA + Ceil(Len(p), Width(p))];
    SwappedLength(data, Width(p), Len(p));
    [p[0], (4 + Len(p)) % 0x100, 0, 0] + p[1..5] + Swapped(data, Width(p))[..Len(p)] + Zeros(Pad4(Len(p)) - Len(p))
  }

  // ---------------------------------------------------------------- the numbers in the data

  function BigEndian(s: seq<Byte>): nat {
    if s == [] then 0 else BigEndian(s[..|s| - 1]) * 0x100 + s[|s| - 1]
  }

  function LittleEndian(s: seq<Byte>): nat {
    if s == [] then 0 else s[0] + LittleEndian(s[1..]) * 0x100
  }

  /** The data read as numbers of `w` bytes each. */
  function Numbers(s: seq<Byte>, w: nat, big: bool): seq<nat> {
    if w == 0 || |s| < w then []
    else [if big then BigEndian(s[..w]) else LittleEndian(s[..w])] + Numbers(s[w..], w, big)
  }

  lemma {:induction false} ReversedTail(s: seq<Byte>)
    requires s != []
    ensures Reversed(s) == [s[|s| - 1]] + Reversed(s[..|s| - 1])
  {
    if |s| > 1 {
      ReversedTail(s[1..]);
      assert s[1..][..|s| - 2] == s[..|s| - 1][1..];
    }
  }

  lemma {:induction false} ReversedValue(s: seq<Byte>)
    ensures LittleEndian(Reversed(s)) == BigEndian(s)
    decreases |s|
  {
    if s != [] {
      ReversedTail(s);
      ReversedValue(s[..|s| - 1]);
    }
  }

  /** Translation keeps the numbers: what was big endian before is little endian after. */
  lemma {:induction false} SwappedNumbers(s: seq<Byte>, w: nat)
    ensures Numbers(Swapped(s, w), w, false) == Numbers(s, w, true)
    decreases |s|
  {
    if w > 0 && |s| >= w {
      var r := Swapped(s, w);
      assert r[..w] == Reversed(s[..w]) && r[w..] == Swapped(s[w..], w);
      ReversedValue(s[..w]);
      SwappedNumbers(s[w..], w);
    }
  }

  /** With values of a single type nothing is cut off or left over. */
  lemma {:induction false} SingleTypeIsWhole(count: nat, w: nat)
    ensures Ceil(count * w, w) == count * w
    decreases count
  {
    if count > 0 && w > 0 {
      SingleTypeIsWhole(count - 1, w);
      assert count * w - w == (count - 1) * w;
      assert count * w > 0;
    }
  }

  predicate SingleType(p: seq<Byte>, w: nat, count: nat)
    requires CC_DATA <= |p|
  {
    || (w == 1 && Counts(p) == (count, 0, 0))
    || (w == 2 && Counts(p) == (0, count, 0))
    || (w == 4 && Counts(p) == (0, 0, count))
  }

  /** The data of a command, rounded up to whole groups. */
  function Data(p: seq<Byte>): seq<Byte>
    requires Translatable(p)
  {
    p[CC_DATA..CC_DATA + Ceil(Len(p), Width(p))]
  }

  lemma MessageParts(p: seq<Byte>)
    requires Translatable(p)
    ensures Len(p) <= |Swapped(Data(p), Width(p))|
    ensures var m := Message(p); var n := Len(p);
      && |m| == 8 + Pad4(n) && m[0] == p[0] && m[1] == (4 + n) % 0x100 && m[2] == m[3] == 0 && m[4..8] == p[1..5]
      && m[8..8 + n] == Swapped(Data(p), Width(p))[..n]
      && forall k :: 8 + n <= k < |m| ==> m[k] == 0
  {
    WidthPositive(p);
    CeilCovers(Len(p), Width(p));
    SwappedLength(Data(p), Width(p), Len(p));
    PadBounds(Len(p));
    var n, swapped := Len(p), Swapped(Data(p), Width(p));
    hide Swapped, Ceil, Len, Width, Pad4;
    var head: seq<Byte> := [p[0], (4 + n) % 0x100, 0, 0];
    Concatenated(head, p[1..5], swapped[..n], Zeros(Pad4(n) - n));
  }

  lemma MessageIs(p: seq<Byte>, swapped: seq<Byte>)
    requires Translatable(p) && swapped == Swapped(Data(p), Width(p)) && Len(p) <= |swapped|
    ensures Message(p) == [p[0], (4 + Len(p)) % 0x100, 0, 0] + p[1..5] + swapped[..Len(p)]
      + Zeros(if Pad4(Len(p)) > Len(p) then Pad4(Len(p)) - Len(p) else 0)
  {
  }

  lemma Concatenated(a: seq<Byte>, b: seq<Byte>, c: seq<Byte>, d: seq<Byte>)
    ensures var m := a + b + c + d;
      && m[..|a|] == a && m[|a|..|a| + |b|] == b && m[|a| + |b|..|a| + |b| + |c|] == c && m[|a| + |b| + |c|..] == d
      && forall k :: |a| + |b| + |c| <= k < |m| ==> m[k] == d[k - |a| - |b| - |c|]
  {
  }

  /** A command with `count` values of `w` bytes is translated into a message with the same numbers in
      little endian order, behind unchanged category, parameter and type bytes, padded with zeros. */
  lemma MessageOfSingleType(p: seq<Byte>, w: nat, count: nat)
    requires CC_DATA <= |p| && SingleType(p, w, count) && count > 0 && count * w < 0x100 && CC_DATA + count * w <= |p|
    ensures Translatable(p)
    ensures var m := Message(p); var n := count * w;
      && |m| == 8 + Pad4(n) && m[0] == p[0] && m[1] == (4 + n) % 0x100 && m[2] == m[3] == 0 && m[4..8] == p[1..5]
      && Numbers(m[8..8 + n], w, false) == Numbers(p[CC_DATA..CC_DATA + n], w, true)
      && forall k :: 8 + n <= k < |m| ==> m[k] == 0
  {
    SizesOfSingleType(p, w, count);
    SingleTypeIsWhole(count, w);
    hide Message, Swapped, Numbers, Len, Width, Ceil, Pad4, SingleType;
    MessageParts(p);
    SwappedNumbers(Data(p), w);
    SwappedLength(Data(p), w, count * w);
    assert Swapped(Data(p), w)[..count * w] == Swapped(Data(p), w);
  }

  lemma SizesOfSingleType(p: seq<Byte>, w: nat, count: nat)
    requires CC_DATA <= |p| && SingleType(p, w, count)
    ensures Len(p) == (count * w) % 0x100 && (count > 0 ==> Width(p) == w)
    ensures count * w < 0x100 ==> Len(p) == count * w
  {
  }

  lemma NumbersStep(s: seq<Byte>, w: nat, big: bool)
    requires w > 0
    ensures Numbers(s, w, big) ==
      if |s| < w then []
      else [if big then BigEndian(s[..w]) else LittleEndian(s[..w])] + Numbers(s[w..], w, big)
  {
  }

  lemma {:induction false} NumbersAppend(a: seq<Byte>, b: seq<Byte>, w: nat, n: nat, big: bool)
    requires w > 0 && |a| == n * w
    ensures |Numbers(a, w, big)| == n && Numbers(a + b, w, big) == Numbers(a, w, big) + Numbers(b, w, big)
    decreases n
  {
    hide Numbers, BigEndian, LittleEndian;
    NumbersStep(a, w, big);
    if n == 0 {
      assert a + b == b;
    } else {
      MoreByOne(n, w);
      NumbersStep(a + b, w, big);
      assert (a + b)[..w] == a[..w] && (a + b)[w..] == a[w..] + b;
      NumbersAppend(a[w..], b, w, n - 1, big);
    }
  }

  lemma MoreByOne(n: nat, w: nat)
    requires n > 0
    ensures n * w == (n - 1) * w + w >= w
  {
  }

  /** How many values of `w` bytes are left of `count` when their length is kept in 8 bits. */
  function Left(count: nat, w: nat): (k: nat)
    requires w in {1, 2, 4}
    ensures k * w == (count * w) % 0x100 && k <= count && (k == count <==> count * w < 0x100)
  {
    (count * w) % 0x100 / w
  }

  /** The length is kept in 8 bits. From 256 bytes of data on it wraps around, and of the values only so many
      are sent: all of them exactly if there are fewer than 256 bytes. */
  lemma MessageIsWholeExactlyWhen(p: seq<Byte>, w: nat, count: nat)
    requires CC_DATA <= |p| && SingleType(p, w, count) && count > 0 && CC_DATA + count * w <= |p|
    ensures Translatable(p)
    ensures var m := Message(p); var n := (count * w) % 0x100;
      var all := Numbers(p[CC_DATA..CC_DATA + count * w], w, true);
      && 8 + n <= |m| && |all| == count
      && Numbers(m[8..8 + n], w, false) == all[..Left(count, w)]
      && (Numbers(m[8..8 + n], w, false) == all <==> count * w < 0x100)
  {
    var k, n, all := Left(count, w), (count * w) % 0x100, count * w;
    var data := p[CC_DATA..CC_DATA + all];
    MessageHolds(p, w, count);
    hide Message, Numbers, Translatable, SingleType, Left;
    CutData(p, data, n, all);
    FirstNumbers(data, w, k, count);
  }

  /** The numbers in the first bytes are the first numbers. */
  lemma FirstNumbers(data: seq<Byte>, w: nat, k: nat, count: nat)
    requires w > 0 && |data| == count * w && k <= count && k * w <= |data|
    ensures var all := Numbers(data, w, true);
      |all| == count && Numbers(data[..k * w], w, true) == all[..k]
  {
    hide Numbers;
    var n := k * w;
    NumbersAppend(data[..n], data[n..], w, k, true);
    NumbersAppend(data, [], w, count, true);
    assert data == data[..n] + data[n..];
  }

  /** The message holds as many bytes of data as the 8-bit length says. */
  lemma MessageHolds(p: seq<Byte>, w: nat, count: nat)
    requires CC_DATA <= |p| && SingleType(p, w, count) && count > 0 && CC_DATA + count * w <= |p|
    ensures Translatable(p)
    ensures var m := Message(p); var n := (count * w) % 0x100;
      8 + n <= |m| && Numbers(m[8..8 + n], w, false) == Numbers(p[CC_DATA..CC_DATA + n], w, true)
  {
    var k, n := Left(count, w), (count * w) % 0x100;
    SizesOfSingleType(p, w, count);
    SingleTypeIsWhole(k, w);
    hide Message, Swapped, Numbers, Len, Width, Ceil, Pad4, SingleType, Left;
    MessageParts(p);
    SwappedNumbers(Data(p), w);
    SwappedLength(Data(p), w, n);
    assert Swapped(Data(p), w)[..n] == Swapped(Data(p), w);
  }

  lemma CutData(p: seq<Byte>, data: seq<Byte>, n: nat, all: nat)
    requires CC_DATA + all <= |p| && data == p[CC_DATA..CC_DATA + all] && n <= all
    ensures data[..n] == p[CC_DATA..CC_DATA + n]
  {
  }

  // ---------------------------------------------------------------- what happens to the buffer

  /** `s` with `data` written at position `at`. */
  function Put(s: seq<Byte>, at: nat, data: seq<Byte>): (r: seq<Byte>)
    requires at + |data| <= |s|
    ensures |r| == |s|
  {
    s[..at] + data + s[at + |data|..]
  }

  /** A group of `w` bytes is reversed and moved 11 bytes towards the front. */
  function GroupMoved(s: seq<Byte>, to: nat, w: nat): (r: seq<Byte>)
    requires to + 11 + w <= |s|
    ensures |r| == |s|
  {
    Put(s, to, Reversed(s[to + 11..to + 11 + w]))
  }

  /** The 8-bit loop index after `k` groups. */
  function GroupIndex(k: nat, w: nat): (r: nat)
    ensures r < 0x100
  {
    if k == 0 then 0 else Wrapped(GroupIndex(k - 1, w) + w)
  }

  /** The first `k` groups are in a buffer of `n` bytes. */
  predicate GroupsIn(n: nat, at: nat, k: nat, w: nat) {
    forall j: nat :: j < k ==> at + CC_DATA + GroupIndex(j, w) + w <= n
  }

  /** The buffer once the first `k` groups have been moved. */
  function GroupsMoved(s: seq<Byte>, at: nat, k: nat, w: nat): (r: seq<Byte>)
    requires GroupsIn(|s|, at, k, w)
    ensures |r| == |s|
  {
    if k == 0 then s else GroupMoved(GroupsMoved(s, at, k - 1, w), at + 5 + GroupIndex(k - 1, w), w)
  }

  /** After so many groups at the latest the index is as large as any length can be. */
  function LastGroup(w: nat): nat {
    match w
    case 1 => 255
    case 2 => 127
    case 3 => 85
    case 4 => 63
    case 5 => 51
    case 6 => 85
    case _ => 73
  }

  lemma {:induction false} IndexIs(k: nat, w: nat)
    ensures GroupIndex(k, w) == k * w % 0x100
  {
    if k > 0 {
      IndexIs(k - 1, w);
      MoreByOne(k, w);
      WrappedSum((k - 1) * w, w);
    }
  }

  lemma WrappedSum(a: nat, b: nat)
    ensures Wrapped(Wrapped(a) + b) == Wrapped(a + b)
  {
  }

  lemma LastIndex(w: nat)
    requires 0 < w <= 7
    ensures GroupIndex(LastGroup(w), w) == if w == 2 || w == 6 then 254 else if w == 4 then 252 else 255
  {
    IndexIs(LastGroup(w), w);
  }

  /** The length of a number of values of this width. */
  predicate SizeOk(len: nat, w: nat) {
    len > 0 ==> 0 < w <= 7 && len <= GroupIndex(LastGroup(w), w)
  }

  /** How many groups are moved until the index is no longer less than the length. */
  function Groups(len: nat, w: nat): nat
    requires SizeOk(len, w)
  {
    if len == 0 then 0 else GroupsFrom(0, len, w)
  }

  function GroupsFrom(k: nat, len: nat, w: nat): (n: nat)
    requires k <= LastGroup(w) && len <= GroupIndex(LastGroup(w), w)
    ensures k <= n <= LastGroup(w) && len <= GroupIndex(n, w) && forall j: nat :: k <= j < n ==> GroupIndex(j, w) < len
    decreases LastGroup(w) - k
  {
    if len <= GroupIndex(k, w) then k else GroupsFrom(k + 1, len, w)
  }

  lemma GroupsStop(len: nat, w: nat)
    requires SizeOk(len, w)
    ensures len <= GroupIndex(Groups(len, w), w) && forall j: nat :: j < Groups(len, w) ==> GroupIndex(j, w) < len
  {
  }

  /** The sizes of every command are such. */
  lemma SizesOk(p: seq<Byte>)
    requires CC_COUNTS <= |p|
    ensures SizeOk(Len(p), Width(p)) && Width(p) <= 7
  {
    if Len(p) > 0 { LastIndex(Width(p)); }
  }

  /** All bytes that a translation of the command with its payload at `at` reads and writes are in the buffer. They
      need not be in the command. */
  predicate Reachable(s: seq<Byte>, at: nat) {
    && CMD_HEADER <= at && at + CC_COUNTS <= |s|
    && var p := s[at..];
       SizesOk(p);
       at + 5 + Pad4(Len(p)) <= |s| && GroupsIn(|s|, at, Groups(Len(p), Width(p)), Width(p))
  }

  lemma ReachableBounds(s: seq<Byte>, at: nat)
    requires Reachable(s, at)
    ensures CMD_HEADER <= at && at + CC_COUNTS <= |s| && at + 5 + Pad4(Len(s[at..])) <= |s|
  {
  }

  /** The buffer after a translation: header, data, padding. */
  function Translated(s: seq<Byte>, at: nat): (r: seq<Byte>)
    requires Reachable(s, at)
    ensures |r| == |s|
  {
    var len, w := Len(s[at..]), Width(s[at..]);
    SizesOk(s[at..]);
    PadBounds(len);
    var t := Put(s, at - 3, [s[at], (4 + len) % 0x100, 0, 0]);
    Put(GroupsMoved(t, at, Groups(len, w), w), at + 5 + len, Zeros(Pad4(len) - len))
  }

  lemma PutOverwrites(s: seq<Byte>, at: nat, data: seq<Byte>)
    requires at + |data| <= |s|
    ensures Overwritten(s, Put(s, at, data), at, data)
  {
  }

  lemma NextMoved(s: seq<Byte>, t: seq<Byte>, at: nat, index: nat, w: nat, data: seq<Byte>, swapped: seq<Byte>)
    requires index + w <= |data| == |swapped| && at + CC_DATA + |data| <= |s| == |t|
    requires data == s[at + CC_DATA..at + CC_DATA + |data|]
    requires swapped[index..index + w] == Reversed(data[index..index + w])
    requires Overwritten(s, t, at + 5, swapped[..index])
    ensures Overwritten(s, GroupMoved(t, at + 5 + index, w), at + 5, swapped[..index + w])
  {
    hide Overwritten, Reversed, Put;
    NextGroup(s, t, at, swapped[..index], |data|, w);
    var to := at + 5 + index;
    PutOverwrites(t, to, Reversed(t[to + 11..to + 11 + w]));
    OverwrittenMore(s, t, GroupMoved(t, to, w), swapped, at + 5, index, w);
  }

  lemma OneMoreGroup(s: seq<Byte>, at: nat, k: nat, w: nat)
    requires GroupsIn(|s|, at, k, w) && at + CC_DATA + GroupIndex(k, w) + w <= |s|
    ensures GroupsIn(|s|, at, k + 1, w)
    ensures GroupsMoved(s, at, k + 1, w) == GroupMoved(GroupsMoved(s, at, k, w), at + 5 + GroupIndex(k, w), w)
    ensures GroupIndex(k + 1, w) == Wrapped(GroupIndex(k, w) + w)
  {
    hide GroupMoved, Wrapped;
  }

  lemma NoGroupYet(s: seq<Byte>, at: nat, w: nat)
    ensures GroupsIn(|s|, at, 0, w) && GroupsMoved(s, at, 0, w) == s && GroupIndex(0, w) == 0
  {
  }

  /** As long as the index does not wrap around, every group of the data is swapped, one behind the other. */
  lemma {:induction false} GroupsSwapped(s: seq<Byte>, at: nat, len: nat, w: nat, k: nat, data: seq<Byte>,
                                         swapped: seq<Byte>)
    requires SizeOk(len, w) && Ceil(len, w) <= 0xff && at + CC_DATA + Ceil(len, w) <= |s| && k <= Groups(len, w)
    requires data == s[at + CC_DATA..at + CC_DATA + Ceil(len, w)] && swapped == Swapped(data, w)
    ensures GroupsIn(|s|, at, k, w) && |swapped| == |data|
    ensures var i := GroupIndex(k, w);
      && i <= |data| && i + Ceil(len - i, w) == |data| && swapped[i..] == Swapped(data[i..], w)
      && Overwritten(s, GroupsMoved(s, at, k, w), at + 5, swapped[..i])
  {
    hide Overwritten, Reversed, Swapped, Ceil, Wrapped, GroupMoved, LastGroup, GroupsMoved, GroupsIn, GroupIndex;
    hide Groups;
    SwappedLength(data, w, len);
    if k == 0 {
      NoGroupYet(s, at, w);
      assert data[0..] == data && swapped[0..] == swapped && swapped[..0] == [];
      NothingOverwritten(s, at + 5);
    } else {
      GroupsSwapped(s, at, len, w, k - 1, data, swapped);
      GroupsStop(len, w);
      var i := GroupIndex(k - 1, w);
      CeilStep(len - i, w);
      OneMoreGroup(s, at, k - 1, w);
      SwappedStep(data, swapped, i, w);
      NextMoved(s, GroupsMoved(s, at, k - 1, w), at, i, w, data, swapped);
    }
  }

  lemma AllSwapped(s: seq<Byte>, at: nat, len: nat, w: nat)
    requires SizeOk(len, w) && Ceil(len, w) <= 0xff && at + CC_DATA + Ceil(len, w) <= |s|
    ensures GroupsIn(|s|, at, Groups(len, w), w)
    ensures Overwritten(s, GroupsMoved(s, at, Groups(len, w), w), at + 5,
                        Swapped(s[at + CC_DATA..at + CC_DATA + Ceil(len, w)], w))
  {
    hide Overwritten, Reversed, Swapped, Ceil, GroupMoved, LastGroup, GroupIndex, GroupsMoved, GroupsIn, Groups;
    var data := s[at + CC_DATA..at + CC_DATA + Ceil(len, w)];
    var swapped, k := Swapped(data, w), Groups(len, w);
    GroupsSwapped(s, at, len, w, k, data, swapped);
    GroupsStop(len, w);
    CeilStep(len - GroupIndex(k, w), w);
    assert swapped[..|data|] == swapped;
  }

  // ---------------------------------------------------------------- in place

  class Packet {
    const buf: array<Byte>
    var readLen: nat
    var cmdIndexNext: nat
    /** Where the payload of the current command starts. */
    var payload: nat
    var payloadLen: nat

    predicate Available()
      reads this
    {
      cmdIndexNext < readLen
    }

    /** The bytes of the packet. */
    ghost function Bytes(): seq<Byte>
      requires readLen <= buf.Length
      reads this, buf
    {
      buf[..readLen]
    }

    /** The payload of the current command. */
    ghost function Payload(): seq<Byte>
      requires payload + payloadLen <= buf.Length
      reads this, buf
    {
      buf[..][payload..payload + payloadLen]
    }

    /** Moves on to the next command and returns its name. */
    method CmdNext() returns (name: nat)
      requires readLen <= buf.Length && WellFormed(Bytes(), cmdIndexNext) && Available()
      modifies this
      ensures readLen == old(readLen) && payload + payloadLen == cmdIndexNext <= readLen
      ensures payload == old(cmdIndexNext) + CMD_HEADER
      ensures WellFormed(Bytes(), cmdIndexNext)
      ensures Parsed(Bytes(), old(cmdIndexNext)) == [Command(name, Payload())] + Parsed(Bytes(), cmdIndexNext)
    {
      var i := cmdIndexNext;
      assert Bytes()[i] == buf[i] && Bytes()[i + 1] == buf[i + 1];
      var len := buf[i] as int * 0x100 + buf[i + 1] as int;
      cmdIndexNext := i + len;
      payloadLen := len - CMD_HEADER;
      payload := i + CMD_HEADER;
      name := buf[i + 4] as int * 0x100_0000 + buf[i + 5] as int * 0x1_0000 + buf[i + 6] as int * 0x100
        + buf[i + 7] as int;
      assert name == Name(Bytes(), i);
      SliceOfSlice(buf[..], 0, readLen, i + CMD_HEADER, i + len);
    }

    /** Reverses a group of `w` bytes while moving it 11 bytes towards the front. */
    method MoveGroup(to: nat, w: nat)
      requires w <= 7 && to + 11 + w <= buf.Length
      modifies buf
      ensures buf[..] == GroupMoved(old(buf[..]), to, w)
    {
      ghost var s := buf[..];
      ghost var group := s[to + 11..to + 11 + w];
      var offset := 0;
      while offset < w
        invariant offset <= w
        invariant forall k :: to <= k < to + offset ==> buf[k] == Reversed(group)[k - to]
        invariant SameOutside(s, buf[..], to, to + offset)
      {
        ReversedAt(group, offset);
        ghost var from := to + 11 + w - offset - 1;
        assert buf[..][from] == s[from] == group[w - offset - 1];
        buf[to + offset] := buf[to + 11 + w - offset - 1];
        offset := offset + 1;
      }
      assert buf[..][to..to + w] == Reversed(group);
    }

    /** Moves and reverses all groups of a command whose payload starts at `at`. The index is an 8-bit number, which
        may wrap around. */
    method MoveData(at: nat, len: nat, w: nat)
      requires w <= 7 && SizeOk(len, w) && GroupsIn(buf.Length, at, Groups(len, w), w)
      modifies buf
      ensures buf[..] == GroupsMoved(old(buf[..]), at, Groups(len, w), w)
    {
      hide Reversed, Wrapped, GroupMoved, LastGroup;
      ghost var s, k := buf[..], 0;
      var index: nat := 0;
      GroupsStop(len, w);
      while index < len
        invariant k <= Groups(len, w) && index == GroupIndex(k, w)
        invariant GroupsIn(buf.Length, at, Groups(len, w), w) && buf[..] == GroupsMoved(s, at, k, w)
        decreases Groups(len, w) - k
      {
        MoveGroup(at + 5 + index, w);
        index := Wrapped(index + w);
        k := k + 1;
      }
    }

    /** Writes the first half of the message header over the end of the command header. */
    method WriteHeader(at: nat, len: nat)
      requires 3 <= at < buf.Length
      modifies buf
      ensures buf[..] == Put(old(buf[..]), at - 3, [old(buf[..])[at], (4 + len) % 0x100, 0, 0])
    {
      buf[at - 3] := buf[at];
      buf[at - 2] := (4 + len) % 0x100;
      buf[at - 1] := 0;
      buf[at] := 0;
    }

    /** Clears `n` bytes. */
    method Clear(from: nat, n: nat)
      requires from + n <= buf.Length
      modifies buf
      ensures buf[..] == Put(old(buf[..]), from, Zeros(n))
    {
      var i := 0;
      while i < n
        invariant 0 <= i <= n
        invariant SameOutside(old(buf[..]), buf[..], from, from + i) && forall k :: from <= k < from + i ==> buf[k] == 0
      {
        buf[from + i] := 0;
        i := i + 1;
      }
    }

    /** Translates the camera control command whose payload is current. If the command holds the data that it announces
        and the index does not wrap around, the payload then is the message, and nothing outside the command has been
        written, although the message starts in front of the payload. */
    method CcTranslate()
      requires Reachable(buf[..], payload)
      modifies this, buf
      ensures buf[..] == Translated(old(buf[..]), old(payload))
      ensures payload == old(payload) - 3 && payloadLen == 8 + Pad4(Len(old(buf[..])[old(payload)..]))
      ensures payload + payloadLen <= buf.Length
      ensures readLen == old(readLen) && cmdIndexNext == old(cmdIndexNext)
      ensures old(payload + payloadLen <= buf.Length && Translatable(Payload())) ==>
        && Payload() == Message(old(Payload())) && payload + payloadLen <= old(payload + payloadLen)
        && SameOutside(old(buf[..]), buf[..], payload, old(payload + payloadLen))
    {
      hide Ceil, Message, SameOutside, Translatable, Len, Width, Pad4, Reachable, Translated;
      var at := payload;
      ReachableBounds(buf[..], at);
      if payload + payloadLen <= buf.Length && Translatable(Payload()) {
        TranslatedIsMessage(buf[..], at, payloadLen);
      }
      var len, w := Sizes(at);
      WriteTranslation(at, len, w);
      payloadLen := 8 + Pad4(len);
      payload := at - 3;
    }

    /** Reads the length of the data and the width of the values. */
    method Sizes(at: nat) returns (len: nat, w: nat)
      requires at + CC_COUNTS <= buf.Length
      ensures len == Len(buf[..][at..]) && w == Width(buf[..][at..])
    {
      ghost var p := buf[..][at..];
      assert buf[at + 5] == p[5] && buf[at + 7] == p[7] && buf[at + 9] == p[9];
      len := (buf[at + 5] as int + buf[at + 7] as int * 2 + buf[at + 9] as int * 4) % 0x100;
      w := (if buf[at + 5] > 0 then 1 else 0) + (if buf[at + 7] > 0 then 2 else 0) + (if buf[at + 9] > 0 then 4 else 0);
    }

    /** Writes header, data and padding of the message. */
    method WriteTranslation(at: nat, len: nat, w: nat)
      requires Reachable(buf[..], at) && len == Len(buf[..][at..]) && w == Width(buf[..][at..])
      modifies buf
      ensures buf[..] == Translated(old(buf[..]), at)
    {
      hide Message, Zeros, Len, Width, Pad4, GroupsMoved, Groups, GroupsIn, Put, LastGroup;
      SizesOk(buf[..][at..]);
      PadBounds(len);
      WriteHeader(at, len);
      MoveData(at, len, w);
      Clear(at + 5 + len, Pad4(len) - len);
    }

    /** Translates the current command. The commands behind it are as before. */
    method TranslateCurrent() returns (message: seq<Byte>)
      requires CMD_HEADER <= payload && payload + payloadLen == cmdIndexNext <= readLen <= buf.Length
      requires Translatable(Payload()) && WellFormed(Bytes(), cmdIndexNext)
      modifies this, buf
      ensures readLen == old(readLen) && cmdIndexNext == old(cmdIndexNext) && WellFormed(Bytes(), cmdIndexNext)
      ensures Parsed(Bytes(), cmdIndexNext) == old(Parsed(Bytes(), cmdIndexNext))
      ensures message == Message(old(Payload()))
    {
      hide Translatable, Message, WellFormed, Parsed, SameOutside, Reachable, Translated;
      ghost var bytes, all := Bytes(), buf[..];
      TranslatableReachable(all, payload, payloadLen);
      CcTranslate();
      OutsideSuffix(all, buf[..], payload, cmdIndexNext, readLen);
      SuffixSame(bytes, Bytes(), cmdIndexNext);
      message := buf[..][payload..payload + payloadLen];
    }

    /** Visits the next command, and translates it if it is for camera `dest`. */
    method ProcessNext(dest: Byte) returns (command: Command, message: seq<Byte>)
      requires readLen <= buf.Length && WellFormed(Bytes(), cmdIndexNext) && Available()
      requires var c := Parsed(Bytes(), cmdIndexNext)[0]; IsFor(c, dest) ==> Translatable(c.payload)
      modifies this, buf
      ensures readLen == old(readLen) && old(cmdIndexNext) < cmdIndexNext <= readLen
      ensures WellFormed(Bytes(), cmdIndexNext)
      ensures old(Parsed(Bytes(), cmdIndexNext)) == [command] + Parsed(Bytes(), cmdIndexNext)
      ensures IsFor(command, dest) ==> Translatable(command.payload)
      ensures message == if IsFor(command, dest) then Message(command.payload) else []
    {
      hide Translatable, Message, WellFormed, Parsed;
      message := [];
      ghost var all := Parsed(Bytes(), cmdIndexNext);
      var name := CmdNext();
      command := Command(name, buf[..][payload..payload + payloadLen]);
      assert command == all[0];
      if name == CAMERA_CONTROL && payloadLen > 0 && buf[payload] == dest {
        message := TranslateCurrent();
      }
    }

    /** Handles a received packet the way the firmware does: visits every command and translates the camera
        control commands for camera `dest`. The commands are seen as they were received. */
    method Process(dest: Byte) returns (seen: seq<Command>, written: seq<seq<Byte>>)
      requires HEADER <= readLen <= buf.Length && WellFormed(Bytes(), HEADER)
      requires AllTranslatable(Parsed(Bytes(), HEADER), dest)
      modifies this, buf
      ensures seen == old(Parsed(Bytes(), HEADER))
      ensures written == Messages(seen, dest)
    {
      hide Translatable, Message, WellFormed, Parsed;
      seen, written := [], [];
      cmdIndexNext := HEADER;
      ghost var commands := Parsed(Bytes(), HEADER);
      while cmdIndexNext < readLen
        invariant readLen == old(readLen) && HEADER <= cmdIndexNext <= readLen && WellFormed(Bytes(), cmdIndexNext)
        invariant seen + Parsed(Bytes(), cmdIndexNext) == commands
        invariant AllTranslatable(Parsed(Bytes(), cmdIndexNext), dest)
        invariant AllTranslatable(seen, dest) && written == Messages(seen, dest)
        decreases readLen - cmdIndexNext
      {
        SomethingAhead(Bytes(), cmdIndexNext);
        ghost var rest := Parsed(Bytes(), cmdIndexNext);
        var command, message := ProcessNext(dest);
        assert command == rest[0];
        assert seen + ([command] + Parsed(Bytes(), cmdIndexNext)) == (seen + [command]) + Parsed(Bytes(), cmdIndexNext);
        MessagesMore(seen, command, dest);
        RestTranslatable(command, Parsed(Bytes(), cmdIndexNext), dest);
        seen := seen + [command];
        if message != [] {
          written := written + [message];
        }
      }
      NothingAhead(Bytes());
    }
  }

  lemma SomethingAhead(s: seq<Byte>, i: nat)
    requires WellFormed(s, i) && i < |s|
    ensures Parsed(s, i) != []
  {
  }

  lemma NothingAhead(s: seq<Byte>)
    ensures WellFormed(s, |s|) && Parsed(s, |s|) == []
  {
  }

  lemma RestTranslatable(c: Command, rest: seq<Command>, dest: Byte)
    requires AllTranslatable([c] + rest, dest)
    ensures AllTranslatable(rest, dest)
  {
    assert ([c] + rest)[1..] == rest;
  }

  lemma MessagesMore(seen: seq<Command>, c: Command, dest: Byte)
    requires AllTranslatable(seen, dest) && (IsFor(c, dest) ==> Translatable(c.payload))
    ensures AllTranslatable(seen + [c], dest)
    ensures Messages(seen + [c], dest) == Messages(seen, dest) + if IsFor(c, dest) then [Message(c.payload)] else []
    ensures IsFor(c, dest) ==> Message(c.payload) != []
  {
    assert (seen + [c])[..|seen|] == seen;
  }

  /** The two differ at most at the positions from `lo` up to `hi`. */
  ghost predicate SameOutside(s: seq<Byte>, t: seq<Byte>, lo: nat, hi: nat) {
    |s| == |t| && forall k :: 0 <= k < |t| && !(lo <= k < hi) ==> t[k] == s[k]
  }

  lemma OutsideTwice(s: seq<Byte>, t: seq<Byte>, u: seq<Byte>, lo: nat, hi: nat, lo': nat, hi': nat, a: nat, b: nat)
    requires SameOutside(s, t, lo, hi) && SameOutside(t, u, lo', hi')
    requires a <= lo && hi <= b && a <= lo' && hi' <= b
    ensures SameOutside(s, u, a, b)
  {
  }

  lemma OutsideSuffix(s: seq<Byte>, t: seq<Byte>, lo: nat, hi: nat, n: nat)
    requires SameOutside(s, t, lo, hi) && hi <= n <= |s|
    ensures s[..n][hi..] == t[..n][hi..]
  {
  }

  lemma SwappedStep(data: seq<Byte>, swapped: seq<Byte>, index: nat, w: nat)
    requires 0 < w && index + w <= |data| == |swapped| && swapped[index..] == Swapped(data[index..], w)
    ensures swapped[index..index + w] == Reversed(data[index..index + w])
    ensures swapped[index + w..] == Swapped(data[index + w..], w)
  {
    assert data[index..][..w] == data[index..index + w] && data[index..][w..] == data[index + w..];
    assert swapped[index..index + w] == swapped[index..][..w] && swapped[index + w..] == swapped[index..][w..];
  }

  /** `t` is `s` with `data` written at position `at`. */
  ghost predicate Overwritten(s: seq<Byte>, t: seq<Byte>, at: nat, data: seq<Byte>) {
    && at + |data| <= |s| && SameOutside(s, t, at, at + |data|)
    && t[at..at + |data|] == data
  }

  lemma NothingOverwritten(s: seq<Byte>, at: nat)
    requires at <= |s|
    ensures Overwritten(s, s, at, [])
  {
  }

  /** The next group has not been overwritten yet. */
  lemma NextGroup(s: seq<Byte>, t: seq<Byte>, at: nat, done: seq<Byte>, n: nat, w: nat)
    requires Overwritten(s, t, at + 5, done) && |done| + w <= n && at + CC_DATA + n <= |s|
    ensures |s| == |t|
    ensures var from := at + 5 + |done| + 11;
      t[from..from + w] == s[at + CC_DATA..at + CC_DATA + n][|done|..|done| + w]
  {
    SliceOfSlice(s, at + CC_DATA, at + CC_DATA + n, |done|, |done| + w);
    SameSlice(s, t, at + 5, at + 5 + |done|, at + CC_DATA + |done|, at + CC_DATA + |done| + w);
  }

  lemma OverwrittenMore(s: seq<Byte>, t: seq<Byte>, u: seq<Byte>, data: seq<Byte>, at: nat, i: nat, w: nat)
    requires i + w <= |data| && at + |data| <= |s|
    requires Overwritten(s, t, at, data[..i]) && Overwritten(t, u, at + i, data[i..i + w])
    ensures Overwritten(s, u, at, data[..i + w])
  {
    Split(u, at, at + i, at + i + w);
    SameSlice(t, u, at + i, at + i + w, at, at + i);
    assert data[..i + w] == data[..i] + data[i..i + w];
  }

  lemma TranslatableLength(p: seq<Byte>)
    requires Translatable(p)
    ensures CC_DATA <= |p| && Ceil(Len(p), Width(p)) <= 0xff && CC_DATA + Ceil(Len(p), Width(p)) <= |p|
  {
  }

  lemma TranslationBounds(p: seq<Byte>)
    requires Translatable(p)
    ensures var n := Ceil(Len(p), Width(p));
      && Len(p) <= n <= 0xff && CC_DATA + n <= |p| && Len(p) <= Pad4(Len(p)) <= Len(p) + 3
      && |Data(p)| == n && |Swapped(Data(p), Width(p))| == n
  {
    hide Ceil, Swapped, Pad4, Translatable, Len, Width;
    TranslatableLength(p);
    WidthPositive(p);
    CeilCovers(Len(p), Width(p));
    PadBounds(Len(p));
    SwappedLength(Data(p), Width(p), Len(p));
  }

  /** No step of a translation writes outside the command. */
  lemma TranslatedOutside(s: seq<Byte>, t: seq<Byte>, u: seq<Byte>, v: seq<Byte>, at: nat, n: nat, len: nat, pad: nat,
                          end: nat)
    requires 3 <= at && len <= n && len <= pad && at + 5 + n <= end && at + 5 + pad <= end
    requires SameOutside(s, t, at - 3, at + 1) && SameOutside(t, u, at + 5, at + 5 + n)
    requires SameOutside(u, v, at + 5 + len, at + 5 + pad)
    ensures SameOutside(t, v, at + 5, end) && SameOutside(s, v, at - 3, end)
  {
    hide SameOutside;
    OutsideTwice(t, u, v, at + 5, at + 5 + n, at + 5 + len, at + 5 + pad, at + 5, end);
    OutsideTwice(s, t, v, at - 3, at + 1, at + 5, end, at - 3, end);
  }

  lemma SameSizes(s: seq<Byte>, at: nat, n: nat)
    requires at + n <= |s| && CC_COUNTS <= n
    ensures Len(s[at..]) == Len(s[at..at + n]) && Width(s[at..]) == Width(s[at..at + n])
  {
    var p, q := s[at..], s[at..at + n];
    assert p[5] == q[5] && p[7] == q[7] && p[9] == q[9];
  }

  lemma TranslatableReachable(s: seq<Byte>, at: nat, n: nat)
    requires CMD_HEADER <= at && at + n <= |s| && Translatable(s[at..at + n])
    ensures Reachable(s, at)
  {
    hide Ceil, Swapped, Pad4, Translatable, Len, Width, GroupsMoved, Groups, GroupsIn, LastGroup, Overwritten;
    var p := s[at..at + n];
    TranslatableLength(p);
    SameSizes(s, at, n);
    SizesOk(s[at..]);
    TranslationBounds(p);
    AllSwapped(s, at, Len(p), Width(p));
  }

  /** What a translation comes to if the command holds the data that it announces. */
  lemma TranslatedIsMessage(s: seq<Byte>, at: nat, n: nat)
    requires CMD_HEADER <= at && at + n <= |s| && Translatable(s[at..at + n])
    ensures Reachable(s, at)
    ensures var p := s[at..at + n]; var v := Translated(s, at);
      && Len(s[at..]) == Len(p) && at + 5 + Pad4(Len(p)) <= at + n && v[at - 3..at + 5 + Pad4(Len(p))] == Message(p)
      && SameOutside(s, v, at - 3, at + n)
  {
    hide Ceil, Swapped, Pad4, SameOutside, Translatable, Len, Width, Message, Overwritten, Put, GroupsMoved, Groups;
    hide GroupsIn, LastGroup;
    TranslatableReachable(s, at, n);
    var p := s[at..at + n];
    TranslatableLength(p);
    SameSizes(s, at, n);
    SizesOk(s[at..]);
    TranslationBounds(p);
    var len, w := Len(p), Width(p);
    var header: seq<Byte> := [s[at], (4 + len) % 0x100, 0, 0];
    var t := Put(s, at - 3, header);
    PutOverwrites(s, at - 3, header);
    AllSwapped(t, at, len, w);
    var u := GroupsMoved(t, at, Groups(len, w), w);
    PutOverwrites(u, at + 5 + len, Zeros(Pad4(len) - len));
    TranslatedBytes(s, t, u, Put(u, at + 5 + len, Zeros(Pad4(len) - len)), p, at);
  }

  /** The steps of a translation put together: header, data, padding. */
  lemma TranslatedBytes(s: seq<Byte>, t: seq<Byte>, u: seq<Byte>, v: seq<Byte>, p: seq<Byte>, at: nat)
    requires CMD_HEADER <= at && at + |p| <= |s| == |t| && p == s[at..at + |p|] && Translatable(p)
    requires Overwritten(s, t, at - 3, [s[at], (4 + Len(p)) % 0x100, 0, 0])
    requires Overwritten(t, u, at + 5, Swapped(t[at + CC_DATA..at + CC_DATA + Ceil(Len(p), Width(p))], Width(p)))
    requires Overwritten(u, v, at + 5 + Len(p), Zeros(Pad4(Len(p)) - Len(p)))
    ensures at + 5 + Pad4(Len(p)) <= |v| && v[at - 3..at + 5 + Pad4(Len(p))] == Message(p)
    ensures SameOutside(s, v, at - 3, at + |p|)
  {
    hide Ceil, Swapped, Pad4, SameOutside, Translatable, Len, Width, Message, Overwritten;
    TranslationBounds(p);
    var n, len, pad := Ceil(Len(p), Width(p)), Len(p), Pad4(Len(p));
    SliceOfSlice(s, at, at + |p|, CC_DATA, CC_DATA + n);
    Written(s, t, at - 3, [s[at], (4 + len) % 0x100, 0, 0]);
    SameSlice(s, t, at - 3, at + 1, at + CC_DATA, at + CC_DATA + n);
    var swapped := Swapped(Data(p), Width(p));
    Written(t, u, at + 5, swapped);
    Written(u, v, at + 5 + len, Zeros(pad - len));
    TranslatedOutside(s, t, u, v, at, n, len, pad, at + |p|);
    HeaderPart(s, t, v, p, at);
    DataPart(u, v, at, n, len, pad, swapped);
    Joined(v, at - 3, at + 1, at + 5, at + 5 + len, at + 5 + pad, [p[0], (4 + len) % 0x100, 0, 0], p[1..5],
           swapped[..len], Zeros(pad - len));
    MessageIs(p, swapped);
  }

  lemma DataPart(u: seq<Byte>, v: seq<Byte>, at: nat, n: nat, len: nat, pad: nat, swapped: seq<Byte>)
    requires len <= n && len <= pad && at + 5 + n <= |u| && u[at + 5..at + 5 + n] == swapped
    requires SameOutside(u, v, at + 5 + len, at + 5 + pad)
    ensures |v| == |u| && v[at + 5..at + 5 + len] == swapped[..len]
  {
    SliceOfSlice(u, at + 5, at + 5 + n, 0, len);
    SameSlice(u, v, at + 5 + len, at + 5 + pad, at + 5, at + 5 + len);
  }

  lemma Written(s: seq<Byte>, t: seq<Byte>, at: nat, data: seq<Byte>)
    requires Overwritten(s, t, at, data)
    ensures |s| == |t| && at + |data| <= |s| && SameOutside(s, t, at, at + |data|) && t[at..at + |data|] == data
  {
  }

  lemma HeaderPart(s: seq<Byte>, t: seq<Byte>, v: seq<Byte>, p: seq<Byte>, at: nat)
    requires 3 <= at && 5 <= |p| && at + |p| <= |s| == |t| == |v| && p == s[at..at + |p|]
    requires SameOutside(s, t, at - 3, at + 1) && SameOutside(t, v, at + 5, at + |p|)
    ensures v[at - 3..at + 1] == t[at - 3..at + 1]
    ensures v[at + 1..at + 5] == p[1..5] && p[0] == s[at]
  {
    SameSlice(t, v, at + 5, at + |p|, at - 3, at + 1);
    SameSlice(t, v, at + 5, at + |p|, at + 1, at + 5);
    SameSlice(s, t, at - 3, at + 1, at + 1, at + 5);
    SliceOfSlice(s, at, at + |p|, 1, 5);
  }

  lemma Joined(v: seq<Byte>, a: nat, b: nat, c: nat, d: nat, e: nat, s1: seq<Byte>, s2: seq<Byte>, s3: seq<Byte>,
               s4: seq<Byte>)
    requires a <= b <= c <= d <= e <= |v| && v[a..b] == s1 && v[b..c] == s2 && v[c..d] == s3 && v[d..e] == s4
    ensures v[a..e] == s1 + s2 + s3 + s4
  {
    Split(v, a, b, c);
    Split(v, a, c, d);
    Split(v, a, d, e);
  }

  lemma Split(v: seq<Byte>, a: nat, b: nat, c: nat)
    requires a <= b <= c <= |v|
    ensures v[a..c] == v[a..b] + v[b..c]
  {
  }

  lemma SliceOfSlice(s: seq<Byte>, a: nat, b: nat, c: nat, d: nat)
    requires a <= b <= |s| && c <= d <= b - a
    ensures s[a..b][c..d] == s[a + c..a + d]
  {
    var r := s[a..b];
    assert |r[c..d]| == |s[a + c..a + d]|;
    forall k: nat | k < d - c
      ensures r[c..d][k] == s[a + c..a + d][k]
    {
      assert r[c + k] == s[a + (c + k)];
    }
  }

  lemma SameSlice(s: seq<Byte>, t: seq<Byte>, lo: nat, hi: nat, a: nat, b: nat)
    requires SameOutside(s, t, lo, hi) && a <= b <= |s| && (b <= lo || hi <= a)
    ensures s[a..b] == t[a..b]
  {
  }

  predicate AllTranslatable(commands: seq<Command>, dest: Byte) {
    forall c :: c in commands && IsFor(c, dest) ==> Translatable(c.payload)
  }

  /** A camera control command for camera `dest`. */
  predicate IsFor(c: Command, dest: Byte) {
    c.name == CAMERA_CONTROL && |c.payload| > 0 && c.payload[0] == dest
  }

  /** The translations of the commands for camera `dest`, in order. */
  function Messages(commands: seq<Command>, dest: Byte): seq<seq<Byte>>
    requires AllTranslatable(commands, dest)
  {
    if commands == [] then []
    else
      var c := commands[|commands| - 1];
      Messages(commands[..|commands| - 1], dest) + if IsFor(c, dest) then [Message(c.payload)] else []
  }

  /** What is ahead in the packet only depends on the bytes that are ahead. */
  lemma {:induction false} SuffixSame(s: seq<Byte>, t: seq<Byte>, i: nat)
    requires i <= |s| == |t| && s[i..] == t[i..] && WellFormed(s, i)
    ensures WellFormed(t, i) && Parsed(t, i) == Parsed(s, i)
    decreases |s| - i
  {
    if i < |s| {
      hide WellFormed, Parsed, CmdLen, Name;
      FirstCommand(s, i);
      CommandSame(s, t, i);
      var j := i + CmdLen(s, i);
      AheadSame(s, t, i, j);
      SuffixSame(s, t, j);
      CommandInFront(t, i);
    }
  }

  lemma FirstCommand(s: seq<Byte>, i: nat)
    requires i < |s| && WellFormed(s, i)
    ensures i + CMD_HEADER <= i + CmdLen(s, i) <= |s| && WellFormed(s, i + CmdLen(s, i))
    ensures Parsed(s, i) == [Command(Name(s, i), s[i + CMD_HEADER..i + CmdLen(s, i)])] + Parsed(s, i + CmdLen(s, i))
  {
    hide CmdLen, Name;
  }

  lemma CommandInFront(s: seq<Byte>, i: nat)
    requires i + CMD_HEADER <= |s| && CMD_HEADER <= CmdLen(s, i) && i + CmdLen(s, i) <= |s|
    requires WellFormed(s, i + CmdLen(s, i))
    ensures WellFormed(s, i)
    ensures Parsed(s, i) == [Command(Name(s, i), s[i + CMD_HEADER..i + CmdLen(s, i)])] + Parsed(s, i + CmdLen(s, i))
  {
    hide CmdLen, Name;
  }

  lemma CommandSame(s: seq<Byte>, t: seq<Byte>, i: nat)
    requires i + CMD_HEADER <= |s| == |t| && s[i..] == t[i..]
    ensures CmdLen(t, i) == CmdLen(s, i) && Name(t, i) == Name(s, i)
  {
    assert forall k :: i <= k < |s| ==> s[k] == s[i..][k - i] && t[k] == t[i..][k - i];
  }

  lemma AheadSame(s: seq<Byte>, t: seq<Byte>, i: nat, j: nat)
    requires i + CMD_HEADER <= j <= |s| == |t| && s[i..] == t[i..]
    ensures s[i + CMD_HEADER..j] == t[i + CMD_HEADER..j] && s[j..] == t[j..]
  {
    forall k | i <= k < |s|
      ensures s[k] == t[k]
    {
      assert s[k] == s[i..][k - i] && t[k] == t[i..][k - i];
    }
  }

  lemma {:induction false} ReversedAt(s: seq<Byte>, k: nat)
    requires k < |s|
    ensures Reversed(s)[k] == s[|s| - 1 - k]
  {
    if k < |s| - 1 {
      ReversedAt(s[1..], k);
    }
  }
}
