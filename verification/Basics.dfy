/** Numbers and sequences that several modules talk about. */
module Basics {

  /** Packets are numbered modulo this. */
  const REMOTE_IDS := 0x8000

  // The lengths of a packet's header, of a packet of a handshake, and of the longest packet.
  const HEADER := 12
  const SYN_LEN := 20
  const MAX_LEN := 0x7ff

  type Word = x: int | 0 <= x < 0x1_0000

  type Byte = x: int | 0 <= x < 0x100

  function Min(a: nat, b: nat): nat {
    if a < b then a else b
  }

  /** All pieces put together. */
  function Flat<T>(pieces: seq<seq<T>>): seq<T> {
    if pieces == [] then [] else pieces[0] + Flat(pieces[1..])
  }

  lemma {:induction false} FlatAppend<T>(pieces: seq<seq<T>>, last: seq<T>)
    ensures Flat(pieces + [last]) == Flat(pieces) + last
    decreases |pieces|
  {
    if pieces == [] {
      assert ([] + [last])[1..] == [];
    } else {
      assert (pieces + [last])[1..] == pieces[1..] + [last];
      FlatAppend(pieces[1..], last);
    }
  }

  lemma {:induction false} FlatSplit<T>(pieces: seq<seq<T>>, n: nat)
    requires n <= |pieces|
    ensures Flat(pieces) == Flat(pieces[..n]) + Flat(pieces[n..])
    decreases |pieces|
  {
    if n == 0 {
      assert pieces[..0] == [] && pieces[0..] == pieces;
    } else {
      FlatSplit(pieces[1..], n - 1);
      assert pieces[..n][1..] == pieces[1..][..n - 1] && pieces[n..] == pieces[1..][n - 1..];
    }
  }
}
