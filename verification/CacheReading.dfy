/** What a new client reads from the dumped packets: the cached commands, all of them, in order. */
module CacheReading {
  import opened Basics
  import opened Commands
  import opened CacheChunks

  /** From the command at `i` on the two lists differ in the padding of command headers only. */
  predicate SamePadded(o: seq<Byte>, s: seq<Byte>, i: nat)
    requires WellFormed(o, i)
    decreases |o| - i
  {
    && |s| == |o|
    && (i == |o|
        || (s[i] == o[i] && s[i + 1] == o[i + 1] && s[i + 4..i + CmdLen(o, i)] == o[i + 4..i + CmdLen(o, i)]
            && SamePadded(o, s, i + CmdLen(o, i))))
  }

  lemma {:induction false} MarkingIsPadding(o: seq<Byte>, starts: seq<nat>, i: nat)
    requires Cut(o, starts, |o|) && WellFormed(o, i) && On(o, 0, i)
    ensures SamePadded(o, Marked(o, starts, |o|), i)
    decreases |o| - i
  {
    if i < |o| {
      hide Cut, Marked;
      OnNext(o, 0, i);
      forall x | i <= x < i + CmdLen(o, i) && x != i + 2 && x != i + 3
        ensures Marked(o, starts, |o|)[x] == o[x]
      {
        NotAHead(o, starts, i, x);
        MarkedElsewhere(o, starts, |o|, x);
      }
      MarkingIsPadding(o, starts, i + CmdLen(o, i));
    }
  }

  /** No chunk starts inside a command. */
  lemma NotAHead(o: seq<Byte>, starts: seq<nat>, i: nat, x: nat)
    requires Cut(o, starts, |o|) && On(o, 0, i) && i < |o| && i + 1 < |o| && i <= x < i + CmdLen(o, i)
    requires x != i + 2 && x != i + 3
    ensures forall k :: 0 <= k < |starts| ==> x != starts[k] + 2 && x != starts[k] + 3
  {
    hide Cut;
    forall k | 0 <= k < |starts|
      ensures x != starts[k] + 2 && x != starts[k] + 3
    {
      CutWellFormed(o, starts, |o|);
      ChunkOf(o, starts, |o|, k);
      if starts[k] < i {
        OnApart(o, 0, starts[k], i);
      } else if i < starts[k] {
        OnApart(o, 0, i, starts[k]);
      }
    }
  }

  /** Padding is not read. */
  lemma {:induction false} SameRead(o: seq<Byte>, s: seq<Byte>, i: nat)
    requires WellFormed(o, i) && SamePadded(o, s, i)
    ensures WellFormed(s, i) && Parsed(s, i) == Parsed(o, i)
    decreases |o| - i
  {
    hide WellFormed, Parsed, CmdLen, Name, SamePadded;
    PaddedStep(o, s, i);
    if i < |o| {
      FirstCommand(o, i);
      SameRead(o, s, i + CmdLen(o, i));
      CommandInFront(s, i);
    } else {
      NothingAhead(s);
      NothingAhead(o);
    }
  }

  lemma PaddedStep(o: seq<Byte>, s: seq<Byte>, i: nat)
    requires WellFormed(o, i) && SamePadded(o, s, i)
    ensures i <= |o| == |s|
    ensures i < |o| ==>
      && i + CMD_HEADER <= |o| && i + CMD_HEADER <= i + CmdLen(o, i) <= |o| && SamePadded(o, s, i + CmdLen(o, i))
      && CmdLen(s, i) == CmdLen(o, i) && Name(s, i) == Name(o, i)
      && s[i + CMD_HEADER..i + CmdLen(s, i)] == o[i + CMD_HEADER..i + CmdLen(o, i)]
  {
    if i < |o| {
      var a, b := o[i + 4..i + CmdLen(o, i)], s[i + 4..i + CmdLen(o, i)];
      assert a == b && o[i + 4] == a[0] && o[i + 5] == a[1] && o[i + 6] == a[2] && o[i + 7] == a[3];
      assert s[i + 4] == b[0] && s[i + 5] == b[1] && s[i + 6] == b[2] && s[i + 7] == b[3];
      assert o[i + 8..i + CmdLen(o, i)] == a[4..] && s[i + 8..i + CmdLen(o, i)] == b[4..];
    }
  }

  /** A piece of a list that starts and ends with a command is read like that part of the list. */
  lemma {:induction false} PieceRead(header: seq<Byte>, s: seq<Byte>, i: nat, j: nat)
    requires WellFormed(s, i) && On(s, i, j)
    ensures i <= j <= |s| && WellFormed(s, j) && WellFormed(header + s[i..j], |header|)
    ensures Parsed(s, i) == Parsed(header + s[i..j], |header|) + Parsed(s, j)
    decreases |s| - i
  {
    hide WellFormed, Parsed, CmdLen, Name, On;
    OnNext(s, i, j);
    if i == j {
      assert header + s[i..j] == header;
      NothingAhead(header);
    } else {
      OnStep(s, i, j);
      FirstCommand(s, i);
      var k := i + CmdLen(s, i);
      OnNext(s, k, j);
      PieceRead(header + s[i..k], s, k, j);
      JoinedPieces(header, s, i, k, j);
      PieceHeader(header, s, i, j);
      CommandInFront(header + s[i..j], |header|);
    }
  }

  lemma JoinedPieces(header: seq<Byte>, s: seq<Byte>, i: nat, k: nat, j: nat)
    requires i <= k <= j <= |s|
    ensures (header + s[i..k]) + s[k..j] == header + s[i..j] && |header + s[i..k]| == |header| + (k - i)
  {
  }

  lemma OnStep(s: seq<Byte>, i: nat, j: nat)
    requires WellFormed(s, i) && On(s, i, j) && i != j
    ensures i < |s| && On(s, i + CmdLen(s, i), j)
  {
  }

  lemma PieceHeader(header: seq<Byte>, s: seq<Byte>, i: nat, j: nat)
    requires i + CMD_HEADER <= j <= |s| && CMD_HEADER <= CmdLen(s, i) && i + CmdLen(s, i) <= j
    ensures var r := header + s[i..j]; var n := |header|;
      && CmdLen(r, n) == CmdLen(s, i) && Name(r, n) == Name(s, i) && n + CmdLen(r, n) <= |r|
      && r[n + CMD_HEADER..n + CmdLen(r, n)] == s[i + CMD_HEADER..i + CmdLen(s, i)]
  {
    var r, n, p, len := header + s[i..j], |header|, s[i..j], CmdLen(s, i);
    Behind(header, p, 0, 2);
    Behind(header, p, 4, 8);
    Behind(header, p, CMD_HEADER, len);
    SliceOfSlice(s, i, j, CMD_HEADER, len);
    assert r[n] == p[0] == s[i] && r[n + 1] == p[1] == s[i + 1];
    assert p[4] == s[i + 4] && p[5] == s[i + 5] && p[6] == s[i + 6] && p[7] == s[i + 7];
  }

  lemma Behind(header: seq<Byte>, p: seq<Byte>, a: nat, b: nat)
    requires a <= b <= |p|
    ensures var r := header + p; var n := |header|;
      r[n + a..n + b] == p[a..b] && forall x :: a <= x < b ==> r[n + x] == p[x]
  {
  }

  /** The commands that are read from the first `n` dumped packets, one after the other. */
  function ReadFrom(header: seq<Byte>, s: seq<Byte>, starts: seq<nat>, n: nat): seq<Command>
    requires n <= |starts|
  {
    if n == 0 then []
    else
      ReadFrom(header, s, starts, n - 1)
      + var packet := header + Chunk(s, starts, n - 1);
        if WellFormed(packet, |header|) then Parsed(packet, |header|) else []
  }


  /** Commands start at the same places in both lists. */
  lemma {:induction false} OnSame(o: seq<Byte>, s: seq<Byte>, i: nat, j: nat)
    requires WellFormed(o, i) && SamePadded(o, s, i) && On(o, i, j)
    ensures WellFormed(s, i) && On(s, i, j)
    decreases |o| - i
  {
    SameRead(o, s, i);
    if i != j { OnSame(o, s, i + CmdLen(o, i), j); }
  }

  lemma {:induction false} OnBetween(s: seq<Byte>, a: nat, i: nat, j: nat)
    requires WellFormed(s, a) && On(s, a, i) && On(s, a, j) && i <= j
    ensures WellFormed(s, i) && On(s, i, j)
    decreases |s| - a
  {
    if a != i {
      OnNext(s, a + CmdLen(s, a), i);
      OnBetween(s, a + CmdLen(s, a), i, j);
    }
  }

  /** The first `n` packets hold what is in front of the end of chunk `n`. */
  lemma {:induction false} ChunksRead(header: seq<Byte>, o: seq<Byte>, starts: seq<nat>, n: nat)
    requires Cut(o, starts, |o|) && n <= |starts|
    requires WellFormed(o, 0) && SamePadded(o, Marked(o, starts, |o|), 0)
    ensures var s := Marked(o, starts, |o|); var end := if n == 0 then 0 else End(starts, |s|, n - 1);
      && WellFormed(s, 0) && end <= |s| && WellFormed(s, end)
      && (forall k :: 0 <= k < n ==> WellFormed(header + Chunk(s, starts, k), |header|))
      && ReadFrom(header, s, starts, n) + Parsed(s, end) == Parsed(s, 0)
  {
    hide Cut, Marked, WellFormed, Parsed, On, SamePadded, ReadFrom;
    var s := Marked(o, starts, |o|);
    SameRead(o, s, 0);
    if n == 0 {
      NothingRead(header, s, starts);
    } else {
      var i, j := starts[n - 1], End(starts, |s|, n - 1);
      ChunksRead(header, o, starts, n - 1);
      ChunkOf(o, starts, |o|, n - 1);
      OnSame(o, s, 0, i);
      OnSame(o, s, 0, j);
      OnBetween(s, 0, i, j);
      PieceRead(header, s, i, j);
      OneMoreRead(header, s, starts, n);
      AppendMore(ReadFrom(header, s, starts, n - 1), Parsed(header + s[i..j], |header|), Parsed(s, j));
    }
  }

  lemma NothingRead(header: seq<Byte>, s: seq<Byte>, starts: seq<nat>)
    ensures ReadFrom(header, s, starts, 0) == []
  {
  }

  lemma OneMoreRead(header: seq<Byte>, s: seq<Byte>, starts: seq<nat>, n: nat)
    requires 0 < n <= |starts| && WellFormed(header + Chunk(s, starts, n - 1), |header|)
    ensures ReadFrom(header, s, starts, n)
      == ReadFrom(header, s, starts, n - 1) + Parsed(header + Chunk(s, starts, n - 1), |header|)
  {
  }

  lemma AppendMore(a: seq<Command>, b: seq<Command>, c: seq<Command>)
    ensures a + (b + c) == (a + b) + c
  {
  }

  /** Every dumped packet is a list of whole commands, and together they are the cached ones, in order: cutting
      loses nothing, and the lengths hidden in the padding disturb nothing. */
  lemma DumpIsRead(header: seq<Byte>, o: seq<Byte>, starts: seq<nat>)
    requires Cut(o, starts, |o|)
    ensures var s := Marked(o, starts, |o|);
      && WellFormed(o, 0) && (forall k :: 0 <= k < |starts| ==> WellFormed(header + Chunk(s, starts, k), |header|))
      && ReadFrom(header, s, starts, |starts|) == Parsed(o, 0)
  {
    hide Cut, Marked, WellFormed, Parsed, On, SamePadded;
    CutWellFormed(o, starts, |o|);
    CutNotNone(o, starts, |o|);
    FirstOn(o);
    MarkingIsPadding(o, starts, 0);
    SameRead(o, Marked(o, starts, |o|), 0);
    ChunksRead(header, o, starts, |starts|);
    NothingAhead(Marked(o, starts, |o|));
  }

  lemma FirstOn(o: seq<Byte>)
    requires WellFormed(o, 0)
    ensures On(o, 0, 0)
  {
  }
}
