/** Decoding a form value that arrives in segments. */
module FormValue {
  import opened Basics

  const AMPERSAND: Byte := 0x26
  const PLUS: Byte := 0x2b
  const PERCENT: Byte := 0x25
  const SPACE: Byte := 0x20

  // What the decoder remembers: outside of a %XX triple, inside but no digit yet, or else the first
  // digit, shifted to the left.
  const IDLE := 1
  const READY := 2

  /** The value of a hexadecimal digit, computed the way the server does for any character. */
  function HexToDec(c: Byte): nat {
    c % 0x10 + 9 * (c / 0x40)
  }

  /** Bitwise or. */
  function Or(a: nat, b: nat): nat {
    if a == 0 then b else if b == 0 then a
    else 2 * Or(a / 2, b / 2) + if a % 2 == 1 || b % 2 == 1 then 1 else 0
  }

  datatype Decoder = Decoder(hex: nat, out: seq<Byte>)

  /** One more character, which does not end the value. */
  function Next(d: Decoder, c: Byte): Decoder {
    if d.hex == IDLE then
      if c == PERCENT then d.(hex := READY)
      else d.(out := d.out + [if c == PLUS then SPACE else c])
    else if d.hex == READY then d.(hex := HexToDec(c) * 0x10)
    else Decoder(IDLE, d.out + [Or(d.hex % 0x100, HexToDec(c)) % 0x100])
  }

  /** Decodes up to the ampersand that ends the value or as far as the stream has arrived. */
  function Decode(d: Decoder, s: seq<Byte>): (Decoder, nat, bool)
    decreases |s|
  {
    if s == [] then (d, 0, false)
    else if d.hex == IDLE && s[0] == AMPERSAND then (d, 1, true)
    else
      var (e, n, ended) := Decode(Next(d, s[0]), s[1..]);
      (e, n + 1, ended)
  }

  /** Decoding in two goes is decoding at once, wherever the cut is, even inside a %XX triple. */
  lemma {:induction false} DecodeSplit(d: Decoder, a: seq<Byte>, b: seq<Byte>)
    ensures var (e, n, ended) := Decode(d, a);
      if ended then Decode(d, a + b) == (e, n, true)
      else n == |a| && Decode(d, a + b) == (Decode(e, b).0, |a| + Decode(e, b).1, Decode(e, b).2)
    decreases |a|
  {
    if a == [] {
      assert a + b == b;
    } else if !(d.hex == IDLE && a[0] == AMPERSAND) {
      assert (a + b)[1..] == a[1..] + b;
      DecodeSplit(Next(d, a[0]), a[1..], b);
    }
  }

  lemma {:induction false} DecodeGrows(d: Decoder, s: seq<Byte>)
    ensures d.out <= Decode(d, s).0.out && Decode(d, s).1 <= |s|
    decreases |s|
  {
    if s != [] && !(d.hex == IDLE && s[0] == AMPERSAND) {
      DecodeGrows(Next(d, s[0]), s[1..]);
    }
  }

  // ---------------------------------------------------------------- percent-encoding

  /** A hexadecimal digit of either case, as in section 2.1 of RFC 3986, and its value. */
  predicate IsDigit(c: Byte, v: nat) {
    (v < 10 && c == 0x30 + v) || (10 <= v < 16 && (c == 0x41 + v - 10 || c == 0x61 + v - 10))
  }

  /** `e` is a percent-encoding of `b`: bytes stand for themselves unless they have a meaning, a space may
      be written as a plus, and any byte as a triple. */
  predicate Encodes(e: seq<Byte>, b: seq<Byte>)
    decreases |b|
  {
    if b == [] then e == []
    else
      || (|e| >= 1 && e[0] == b[0] && b[0] !in {0x26, 0x2b, 0x25} && Encodes(e[1..], b[1..]))
      || (|e| >= 1 && e[0] == 0x2b && b[0] == 0x20 && Encodes(e[1..], b[1..]))
      || (|e| >= 3 && e[0] == 0x25 && IsDigit(e[1], b[0] / 0x10) && IsDigit(e[2], b[0] % 0x10)
          && Encodes(e[3..], b[1..]))
  }

  lemma DigitValue(c: Byte, v: nat)
    requires IsDigit(c, v)
    ensures HexToDec(c) == v < 16
  {
  }

  lemma OrOfNibbles(h: nat, l: nat)
    requires h < 16 && l < 16
    ensures Or(h * 16, l) == h * 16 + l
  {
    hide Or;
    OrHalves(h * 2, l / 8);
    OrHalves(h * 4, l / 4);
    OrHalves(h * 8, l / 2);
    OrHalves(h * 16, l);
  }

  /** One step of the bitwise or of an even number with another one. */
  lemma OrHalves(a: nat, b: nat)
    requires a % 2 == 0
    ensures Or(a / 2, b / 2) == a / 2 + b / 2 ==> Or(a, b) == a + b
    ensures Or(a / 2, 0) == a / 2
  {
  }

  /** Decoding inverts every percent-encoding, whatever follows it. */
  lemma {:induction false} DecodeInverts(e: seq<Byte>, b: seq<Byte>, out: seq<Byte>, rest: seq<Byte>)
    requires Encodes(e, b)
    ensures Decode(Decoder(IDLE, out), e + rest) ==
      var (f, n, ended) := Decode(Decoder(IDLE, out + b), rest); (f, |e| + n, ended)
    decreases |b|
  {
    if b == [] {
      assert e + rest == rest && out + b == out;
    } else {
      assert (out + [b[0]]) + b[1..] == out + b;
      assert (e + rest)[1..] == e[1..] + rest;
      if e[0] == PERCENT {
        DecodeTriple(e, b[0], out, rest);
        DecodeInverts(e[3..], b[1..], out + [b[0]], rest);
      } else {
        DecodeInverts(e[1..], b[1..], out + [b[0]], rest);
      }
    }
  }

  lemma DecodeTriple(e: seq<Byte>, v: Byte, out: seq<Byte>, rest: seq<Byte>)
    requires |e| >= 3 && e[0] == PERCENT && IsDigit(e[1], v / 0x10) && IsDigit(e[2], v % 0x10)
    ensures Decode(Decoder(IDLE, out), e + rest) ==
      var (f, n, ended) := Decode(Decoder(IDLE, out + [v]), e[3..] + rest); (f, 3 + n, ended)
  {
    hide Decode, Or;
    DigitValue(e[1], v / 0x10);
    DigitValue(e[2], v % 0x10);
    OrOfNibbles(v / 0x10, v % 0x10);
    var s := e + rest;
    assert s[1..] == [e[1], e[2]] + (e[3..] + rest) && s[1..][1..] == [e[2]] + (e[3..] + rest)
      && s[1..][1..][1..] == e[3..] + rest;
    DecodeStep(Decoder(IDLE, out), s);
    DecodeStep(Decoder(READY, out), s[1..]);
    DecodeStep(Decoder(v / 0x10 * 0x10, out), s[1..][1..]);
  }

  lemma DecodeStep(d: Decoder, s: seq<Byte>)
    requires s != [] && !(d.hex == IDLE && s[0] == AMPERSAND)
    ensures Decode(d, s) == var (e, n, ended) := Decode(Next(d, s[0]), s[1..]); (e, n + 1, ended)
  {
  }

  // ---------------------------------------------------------------- the field

  datatype Status = More | Ended | Completed | TooLong

  class Field {
    const addr: array<Byte>
    var offset: nat
    var hex: nat
    var remaining: int
    var index: nat

    ghost predicate Valid()
      reads this
    {
      offset <= addr.Length
    }

    /** What has been decoded so far. */
    ghost function Value(): Decoder
      requires Valid()
      reads this, addr
    {
      Decoder(hex, addr[..offset])
    }

    /** Starts a value of a body of which `length` bytes are left. */
    constructor (size: nat, length: int)
      ensures Valid() && addr.Length == size && fresh(addr) && Value() == Decoder(IDLE, []) && remaining == length
    {
      addr := new Byte[size];
      offset, hex, remaining, index := 0, IDLE, length, 0;
    }

    /** Decodes the value into the field as far as it has arrived in `segment`. */
    method ValueString(segment: seq<Byte>) returns (status: Status)
      requires Valid()
      modifies this, addr
      ensures Stored(Decode(old(Value()), segment), addr[..], status, old(remaining) - remaining)
      ensures status != TooLong ==> index == old(remaining) - remaining
      ensures index <= |segment|
      ensures status != TooLong ==>
        status == if Decode(old(Value()), segment).2 then Ended else if remaining <= 0 then Completed else More
      ensures status == More ==> Valid() && Value() == Decode(old(Value()), segment).0
      ensures status == Ended ==> hex == 0 && offset == 0
    {
      index := 0;
      ghost var start := Value();
      assert segment[0..] == segment;
      while index < |segment|
        invariant index <= |segment| && Valid() && remaining == old(remaining) - index
        invariant Decode(start, segment) ==
          var (e, n, ended) := Decode(Value(), segment[index..]); (e, index + n, ended)
      {
        ghost var d := Value();
        ghost var rest := segment[index..];
        var c := segment[index];
        assert rest[0] == c && rest[1..] == segment[index + 1..];
        index := index + 1;
        remaining := remaining - 1;
        if hex != IDLE {
          if hex == READY {
            hex := HexToDec(c) * 0x10;
            continue;
          } else {
            c := Or(hex % 0x100, HexToDec(c)) % 0x100;
            hex := IDLE;
          }
        } else if c == AMPERSAND {
          if offset < addr.Length { addr[offset] := 0; }
          hex := 0;
          offset := 0;
          return Ended;
        } else if c == PLUS {
          c := SPACE;
        } else if c == PERCENT {
          hex := READY;
          continue;
        }
        if offset >= addr.Length {
          DecodeGrows(Next(d, rest[0]), rest[1..]);
          return TooLong;
        }
        addr[offset] := c;
        offset := offset + 1;
        assert Value() == Next(d, rest[0]);
      }
      if offset < addr.Length { addr[offset] := 0; }
      status := if remaining <= 0 then Completed else More;
    }

    /** Decodes a value whose segments arrive one after the other: the rest of a segment that has been
        begun, which may be empty, and then others. The body ends with the last of them. What is stored
        and what happens next only depend on the bytes, not on how they are cut. */
    method ReadValue(segments: seq<seq<Byte>>) returns (status: Status, used: nat)
      requires Valid() && Value() == Decoder(IDLE, []) && remaining == |Flat(segments)|
      requires segments != [] && forall i :: 1 <= i < |segments| ==> segments[i] != []
      modifies this, addr
      ensures Stored(Decode(Decoder(IDLE, []), Flat(segments)), addr[..], status, |Flat(segments)| - remaining)
      ensures status != TooLong ==> status == if Decode(Decoder(IDLE, []), Flat(segments)).2 then Ended else Completed
      ensures status == Ended ==>
        && 0 < used <= |segments| && index <= |segments[used - 1]|
        && 0 <= |Flat(segments)| - remaining <= |Flat(segments)|
        && segments[used - 1][index..] + Flat(segments[used..]) == Flat(segments)[|Flat(segments)| - remaining..]
    {
      hide Decode;
      var all := Flat(segments);
      ghost var r := Decode(Decoder(IDLE, []), all);
      used := 0;
      status := More;
      assert segments[0..] == segments;
      while status == More
        invariant used <= |segments| && (status == More ==> used < |segments|)
        invariant status == More ==> Valid() && remaining == |Flat(segments[used..])| <= |all|
        invariant status == More ==> Later(Decode(Value(), Flat(segments[used..])), |all| - remaining) == r
        invariant status != More ==> Stored(r, addr[..], status, |all| - remaining)
        invariant status != More && status != TooLong ==> status == if r.2 then Ended else Completed
        invariant status == Ended ==>
          0 < used && index <= |segments[used - 1]|
            && remaining == |segments[used - 1][index..]| + |Flat(segments[used..])|
        decreases |segments| - used
      {
        ghost var d, rest, left := Value(), segments[used..], remaining;
        assert rest[0] == segments[used] && rest[1..] == segments[used + 1..];
        DecodeSplit(d, rest[0], []);
        status := ValueString(segments[used]);
        used := used + 1;
        Continued(d, rest[0], Flat(rest[1..]), addr[..], status, left - remaining, |all| - left);
      }
      if status == Ended {
        LeftOver(segments, used, index);
      }
    }
  }

  /** What is left of the segments once the one before `used` has been read up to `index`. */
  lemma LeftOver(segments: seq<seq<Byte>>, used: nat, index: nat)
    requires 0 < used <= |segments| && index <= |segments[used - 1]|
    ensures var all := Flat(segments); var rest := segments[used - 1][index..] + Flat(segments[used..]);
      |rest| <= |all| && rest == all[|all| - |rest|..]
  {
    FlatSplit(segments, used - 1);
    assert segments[used - 1..][1..] == segments[used..];
    assert Flat(segments[used - 1..]) == segments[used - 1] + Flat(segments[used..]);
  }

  /** The field holds what was decoded, terminated by a zero if there is room, or it was too small. */
  ghost predicate Stored(r: (Decoder, nat, bool), a: seq<Byte>, status: Status, consumed: int) {
    && (status == TooLong <==> |r.0.out| > |a|)
    && (status != TooLong ==>
          consumed == r.1 && a[..|r.0.out|] == r.0.out && (|r.0.out| < |a| ==> a[|r.0.out|] == 0))
  }

  /** The same result after `n` bytes more. */
  function Later(r: (Decoder, nat, bool), n: nat): (Decoder, nat, bool) {
    (r.0, n + r.1, r.2)
  }

  /** What one segment more means for the whole. */
  lemma Continued(d: Decoder, a: seq<Byte>, b: seq<Byte>, stored: seq<Byte>, status: Status, consumed: int, before: nat)
    requires Stored(Decode(d, a), stored, status, consumed)
    requires status == Completed ==> b == [] && !Decode(d, a).2
    requires status == Ended ==> Decode(d, a).2
    ensures var r := Later(Decode(d, a + b), before);
      && (status == More && !Decode(d, a).2 ==>
            Later(Decode(Decode(d, a).0, b), before + |a|) == r && Decode(d, a).1 == |a|)
      && (status != More ==> Stored(r, stored, status, before + consumed))
      && (status == Ended ==> r.2) && (status == Completed ==> !r.2)
  {
    DecodeSplit(d, a, b);
    DecodeGrows(Decode(d, a).0, b);
    assert Decode(Decode(d, a).0, []) == (Decode(d, a).0, 0, false);
  }

}
