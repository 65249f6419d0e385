/** Cutting the cached state into chunks that fit a packet. The length of a chunk is kept in the two
    padding bytes of its first command's header. */
module CacheChunks {
  import opened Basics
  import opened Commands
  import P = ProxyState

  /** What fits into a packet behind its header. */
  const LIMIT := 1422 - HEADER

  /** `j` is where a command starts or the list ends, counting from the command at `i`. */
  predicate On(o: seq<Byte>, i: nat, j: nat)
    requires WellFormed(o, i)
    decreases |o| - i
  {
    j == i || (i < |o| && On(o, i + CmdLen(o, i), j))
  }

  /** A list of commands none of which is too long for a packet. */
  predicate Fits(o: seq<Byte>, i: nat)
    requires WellFormed(o, i)
    decreases |o| - i
  {
    i == |o| || (CmdLen(o, i) <= LIMIT && Fits(o, i + CmdLen(o, i)))
  }

  predicate Cacheable(o: seq<Byte>) {
    o != [] && WellFormed(o, 0) && Fits(o, 0)
  }

  lemma {:induction false} OnNext(o: seq<Byte>, i: nat, j: nat)
    requires WellFormed(o, i) && On(o, i, j)
    ensures i <= j <= |o| && WellFormed(o, j)
    ensures j < |o| ==>
      j + CMD_HEADER <= |o| && CMD_HEADER <= CmdLen(o, j) && j + CmdLen(o, j) <= |o| && On(o, i, j + CmdLen(o, j))
    ensures j < |o| && Fits(o, i) ==> CmdLen(o, j) <= LIMIT
    decreases |o| - i
  {
    if j != i {
      OnNext(o, i + CmdLen(o, i), j);
    }
  }

  /** Two boundaries are at least a command apart. */
  lemma {:induction false} OnApart(o: seq<Byte>, i: nat, j: nat, k: nat)
    requires WellFormed(o, i) && On(o, i, j) && On(o, i, k) && j < k
    ensures j + CMD_HEADER <= |o| && CMD_HEADER <= CmdLen(o, j) && j + CmdLen(o, j) <= k
    decreases |o| - i
  {
    OnNext(o, i, j);
    OnNext(o, i, k);
    if j == i {
      if k != i { OnNext(o, i + CmdLen(o, i), k); }
    } else {
      if k != i { OnApart(o, i + CmdLen(o, i), j, k); }
    }
  }

  function Last(starts: seq<nat>): nat
    requires starts != []
  {
    starts[|starts| - 1]
  }

  function Front(starts: seq<nat>): seq<nat>
    requires starts != []
  {
    starts[..|starts| - 1]
  }

  /** The commands in front of `end` are cut into chunks that start at `starts`: each starts with a
      command and fits into a packet, and none could have taken the command behind it as well. */
  predicate Cut(o: seq<Byte>, starts: seq<nat>, end: nat)
    decreases |starts|
  {
    && WellFormed(o, 0) && On(o, 0, end) && starts != []
    && var c := Last(starts);
    && On(o, 0, c) && c <= end <= c + LIMIT
    && if |starts| == 1 then c == 0
       else
         && c < end && c + 1 < |o| && c + CmdLen(o, c) > Last(Front(starts)) + LIMIT
         && Last(Front(starts)) < c && Cut(o, Front(starts), c)
  }

  function ChunkLen(s: seq<Byte>, c: nat): nat
    requires c + 3 < |s|
  {
    s[c + 2] as int + s[c + 3] as int * 0x100
  }

  function SetLen(s: seq<Byte>, c: nat, n: nat): (r: seq<Byte>)
    requires n < 0x1_0000
    ensures |r| == |s|
  {
    if c + 3 < |s| then s[c + 2 := n % 0x100][c + 3 := n / 0x100] else s
  }

  /** The list with the length of every chunk written into its head. */
  function Marked(o: seq<Byte>, starts: seq<nat>, end: nat): (r: seq<Byte>)
    ensures |r| == |o|
    decreases |starts|
  {
    if starts == [] || !(0 <= end - Last(starts) < 0x1_0000) then o
    else SetLen(Marked(o, Front(starts), Last(starts)), Last(starts), end - Last(starts))
  }

  /** Where chunk `k` ends. */
  function End(starts: seq<nat>, end: nat, k: nat): nat
    requires k < |starts|
  {
    if k + 1 < |starts| then starts[k + 1] else end
  }

  /** What a cut says about one of its chunks. */
  lemma {:induction false} ChunkOf(o: seq<Byte>, starts: seq<nat>, end: nat, k: nat)
    requires Cut(o, starts, end) && k < |starts|
    ensures On(o, 0, starts[k]) && On(o, 0, End(starts, end, k)) && (k == 0 ==> starts[k] == 0)
    ensures starts[k] <= End(starts, end, k) <= starts[k] + 1410 && End(starts, end, k) <= end <= |o|
    ensures |starts| > 1 ==> starts[k] < End(starts, end, k)
    ensures k + 1 < |starts| ==> starts[k + 1] + 1 < |o| && starts[k + 1] + CmdLen(o, starts[k + 1]) - starts[k] > 1410
    decreases |starts|
  {
    OnNext(o, 0, end);
    if k < |starts| - 1 {
      ChunkOf(o, Front(starts), Last(starts), k);
    }
  }

  /** Two chunks in a row hold more than one packet's worth of commands. */
  lemma TwoChunks(o: seq<Byte>, starts: seq<nat>, end: nat, k: nat)
    requires Cut(o, starts, end) && k + 1 < |starts|
    ensures starts[k] + LIMIT < End(starts, end, k + 1) <= end <= |o|
  {
    hide Cut;
    ChunkOf(o, starts, end, k);
    ChunkOf(o, starts, end, k + 1);
    CutWellFormed(o, starts, end);
    OnApart(o, 0, starts[k + 1], End(starts, end, k + 1));
  }

  lemma CutWellFormed(o: seq<Byte>, starts: seq<nat>, end: nat)
    requires Cut(o, starts, end)
    ensures WellFormed(o, 0)
  {
  }

  lemma {:induction false} ChunksAdvance(o: seq<Byte>, starts: seq<nat>, end: nat, m: nat)
    requires Cut(o, starts, end) && 2 * m < |starts|
    ensures (LIMIT + 1) * m <= starts[2 * m]
  {
    hide Cut;
    if m > 0 {
      ChunksAdvance(o, starts, end, m - 1);
      TwoChunks(o, starts, end, 2 * m - 2);
    }
  }

  /** A short list has few chunks: remote ids of chunks fit into one byte as long as the list is shorter
      than 128 times 1411 bytes. */
  lemma FewChunks(o: seq<Byte>, starts: seq<nat>, end: nat)
    requires Cut(o, starts, end)
    ensures (LIMIT + 1) * (|starts| / 2) <= end <= |o|
    ensures |o| < 180608 ==> 1 <= |starts| < 0x100
  {
    hide Cut;
    var n := |starts|;
    CutNotNone(o, starts, end);
    if n % 2 == 1 {
      ChunksAdvance(o, starts, end, n / 2);
      ChunkOf(o, starts, end, n - 1);
    } else {
      ChunksAdvance(o, starts, end, n / 2 - 1);
      TwoChunks(o, starts, end, n - 2);
    }
  }

  lemma CutNotNone(o: seq<Byte>, starts: seq<nat>, end: nat)
    requires Cut(o, starts, end)
    ensures starts != []
  {
  }

  /** What the dump of a short list hands to the proxy is what the proxy needs: at least one and fewer than
      256 lists of commands, each of which makes a packet of at most 1422 bytes. */
  lemma DumpFits(o: seq<Byte>, starts: seq<nat>, s: seq<Byte>)
    requires Cut(o, starts, |s|) && |s| == |o| < 180608
    ensures 1 <= |starts| < 0x100
    ensures forall k :: 0 <= k < |starts| ==> P.Length(P.Commands(Chunk(s, starts, k))) <= 1422 < 2047 == MAX_LEN
  {
    hide Cut;
    FewChunks(o, starts, |s|);
    forall k | 0 <= k < |starts|
      ensures |Chunk(s, starts, k)| <= LIMIT
    {
      ChunkOf(o, starts, |s|, k);
    }
  }

  /** Marking leaves all bytes alone that are further than the header of a command behind the last chunk
      head: the command at `end` can still be read. */
  lemma {:induction false} MarkedBehind(o: seq<Byte>, starts: seq<nat>, end: nat, x: nat)
    requires Cut(o, starts, end) && Last(starts) + 4 <= x < |o|
    ensures Marked(o, starts, end)[x] == o[x]
    decreases |starts|
  {
    if |starts| > 1 {
      MarkedBehind(o, Front(starts), Last(starts), x);
    } else {
      assert Front(starts) == [];
    }
  }

  /** Nothing but the padding of chunk heads is changed. */
  lemma {:induction false} MarkedElsewhere(o: seq<Byte>, starts: seq<nat>, end: nat, x: nat)
    requires x < |o| && forall k :: 0 <= k < |starts| ==> x != starts[k] + 2 && x != starts[k] + 3
    ensures Marked(o, starts, end)[x] == o[x]
    decreases |starts|
  {
    if starts != [] && 0 <= end - Last(starts) < 0x1_0000 {
      MarkedElsewhere(o, Front(starts), Last(starts), x);
    }
  }

  /** Hopping: the head of every chunk holds its length. */
  lemma {:induction false} HeadOf(o: seq<Byte>, starts: seq<nat>, end: nat, k: nat)
    requires Cut(o, starts, end) && k < |starts| && end > 0
    ensures starts[k] + 3 < |o| && ChunkLen(Marked(o, starts, end), starts[k]) == End(starts, end, k) - starts[k]
    decreases |starts|
  {
    ChunkOf(o, starts, end, k);
    OnApart(o, 0, starts[k], End(starts, end, k));
    if k < |starts| - 1 {
      HeadOf(o, Front(starts), Last(starts), k);
      NotYet(o, starts, end, k);
    }
  }

  lemma {:induction false} NotYet(o: seq<Byte>, starts: seq<nat>, end: nat, k: nat)
    requires Cut(o, starts, end) && k < |starts| - 1
    ensures starts[k] + CMD_HEADER <= Last(starts)
    decreases |starts| - k
  {
    ChunkOf(o, starts, end, k);
    OnApart(o, 0, starts[k], starts[k + 1]);
    if k + 1 < |starts| - 1 {
      NotYet(o, starts, end, k + 1);
    }
  }

  /** The cut is unique: there is only one greedy way to do it. */
  lemma {:induction false} CutPrefix(o: seq<Byte>, a: seq<nat>, b: seq<nat>, n: nat)
    requires Cut(o, a, |o|) && Cut(o, b, |o|) && n <= |a| && n <= |b|
    ensures a[..n] == b[..n]
  {
    if n > 0 {
      CutPrefix(o, a, b, n - 1);
      ChunkOf(o, a, |o|, 0);
      ChunkOf(o, b, |o|, 0);
      if n > 1 {
        assert a[n - 2] == a[..n - 1][n - 2] == b[..n - 1][n - 2] == b[n - 2];
        NotBefore(o, a, b, n - 2);
        NotBefore(o, b, a, n - 2);
      }
      assert a[..n] == a[..n - 1] + [a[n - 1]] && b[..n] == b[..n - 1] + [b[n - 1]];
    }
  }

  /** A greedy chunk reaches at least as far as any other that starts where it does. */
  lemma NotBefore(o: seq<Byte>, a: seq<nat>, b: seq<nat>, k: nat)
    requires Cut(o, a, |o|) && Cut(o, b, |o|) && k + 1 < |a| && k < |b| && a[k] == b[k]
    ensures End(b, |o|, k) <= a[k + 1]
  {
    ChunkOf(o, a, |o|, k);
    ChunkOf(o, b, |o|, k);
    if a[k + 1] < End(b, |o|, k) {
      OnApart(o, 0, a[k + 1], End(b, |o|, k));
    }
  }

  lemma CutIsUnique(o: seq<Byte>, a: seq<nat>, b: seq<nat>)
    requires Cut(o, a, |o|) && Cut(o, b, |o|)
    ensures a == b
  {
    NotLonger(o, a, b);
    NotLonger(o, b, a);
    CutPrefix(o, a, b, |a|);
  }

  lemma NotLonger(o: seq<Byte>, a: seq<nat>, b: seq<nat>)
    requires Cut(o, a, |o|) && Cut(o, b, |o|)
    ensures |b| <= |a|
  {
    if |a| < |b| {
      CutPrefix(o, a, b, |a|);
      var k := |a| - 1;
      assert a[k] == a[..|a|][k] == b[..|a|][k] == b[k];
      NotBefore(o, b, a, k);
      ChunkOf(o, b, |o|, k + 1);
    }
  }

  // ---------------------------------------------------------------- marking and dumping

  class Cache {
    const data: array<Byte>
    var chunksCount: nat

    /** Sets the length of the chunk at `c`. */
    method WriteLen(c: nat, n: nat)
      requires c + 3 < data.Length && n < 0x1_0000
      modifies data
      ensures data[..] == SetLen(old(data[..]), c, n)
    {
      data[c + 2] := n % 0x100;
      data[c + 3] := n / 0x100;
    }

    function ReadLen(c: nat): nat
      requires c + 3 < data.Length
      reads data
    {
      data[c + 2] as int + data[c + 3] as int * 0x100
    }

    /** Marks the chunks of a list of commands. */
    method Mark() returns (ghost starts: seq<nat>)
      requires Cacheable(data[..])
      modifies this, data
      ensures Cut(old(data[..]), starts, data.Length) && data[..] == Marked(old(data[..]), starts, data.Length)
      ensures chunksCount == |starts|
    {
      hide Cacheable, Cut, Marked, SetLen;
      ghost var o := data[..];
      NothingCut(o);
      var remaining := data.Length;
      var cmd, chunk: nat := 0, 0;
      WriteLen(chunk, 0);
      chunksCount := 1;
      starts := [0];
      while ReadLen(chunk) < remaining
        invariant chunk + 3 < data.Length && chunk <= cmd <= data.Length && remaining == data.Length - chunk
        invariant starts != [] && chunk == Last(starts) && ChunkLen(data[..], chunk) == cmd - chunk
        invariant Cut(o, starts, cmd) && data[..] == Marked(o, starts, cmd) && chunksCount == |starts|
        decreases data.Length - cmd
      {
        MarkStep(o, data[..], starts, cmd);
        var cmdLen := (data[cmd] as int * 0x100 + data[cmd + 1] as int) % 0x800;
        assert cmdLen == CmdLen(data[..], cmd);
        if ReadLen(chunk) + cmdLen > LIMIT {
          remaining := remaining - ReadLen(chunk);
          chunk := cmd;
          LenSet(data[..], chunk, 0);
          WriteLen(chunk, 0);
          chunksCount := chunksCount + 1;
          starts := starts + [cmd];
        }
        LenSet(data[..], chunk, ReadLen(chunk) + cmdLen);
        WriteLen(chunk, ReadLen(chunk) + cmdLen);
        cmd := cmd + cmdLen;
      }
    }

    /** The payloads that a new session is sent, one for every chunk. */
    method Dump(ghost o: seq<Byte>, ghost starts: seq<nat>) returns (payloads: seq<seq<Byte>>)
      requires Cut(o, starts, data.Length) && data[..] == Marked(o, starts, data.Length)
      requires chunksCount == |starts| && data.Length > 0
      ensures |payloads| == |starts| && Flat(payloads) == data[..]
      ensures forall k :: 0 <= k < |starts| ==> payloads[k] == Chunk(data[..], starts, k)
    {
      hide Cut, Marked, DumpedTo;
      ghost var s := data[..];
      var chunk: nat := 0;
      CutNotEmpty(o, starts, |s|);
      ChunkReady(o, s, starts, 0);
      payloads := [data[..ReadLen(chunk)]];
      DumpedFirst(s, starts, payloads);
      var i := 1;
      while i < chunksCount
        invariant 1 <= i <= chunksCount && chunk == starts[i - 1] && chunk + 3 < |s|
        invariant ChunkLen(s, chunk) == End(starts, |s|, i - 1) - chunk
        invariant DumpedTo(s, starts, payloads, i)
      {
        ChunkReady(o, s, starts, i);
        chunk := chunk + ReadLen(chunk);
        DumpedNext(s, starts, payloads, i);
        payloads := payloads + [data[chunk..chunk + ReadLen(chunk)]];
        i := i + 1;
      }
      DumpedAll(s, starts, payloads);
    }
  }

  /** The first `n` chunks have been dumped. */
  ghost predicate DumpedTo(s: seq<Byte>, starts: seq<nat>, payloads: seq<seq<Byte>>, n: nat) {
    && 0 < n <= |starts| && |payloads| == n && End(starts, |s|, n - 1) <= |s|
    && Flat(payloads) == s[..End(starts, |s|, n - 1)]
    && forall k :: 0 <= k < n ==> payloads[k] == Chunk(s, starts, k)
  }

  lemma DumpedFirst(s: seq<Byte>, starts: seq<nat>, payloads: seq<seq<Byte>>)
    requires starts != [] && starts[0] == 0 && End(starts, |s|, 0) <= |s| && payloads == [s[..End(starts, |s|, 0)]]
    ensures DumpedTo(s, starts, payloads, 1)
  {
    assert payloads == [] + [payloads[0]];
    FlatAppend([], payloads[0]);
  }

  lemma DumpedNext(s: seq<Byte>, starts: seq<nat>, payloads: seq<seq<Byte>>, n: nat)
    requires n < |starts| && DumpedTo(s, starts, payloads, n) && starts[n] <= End(starts, |s|, n) <= |s|
    ensures DumpedTo(s, starts, payloads + [s[starts[n]..End(starts, |s|, n)]], n + 1)
  {
    var more := payloads + [s[starts[n]..End(starts, |s|, n)]];
    FlatAppend(payloads, s[starts[n]..End(starts, |s|, n)]);
    assert s[..starts[n]] + s[starts[n]..End(starts, |s|, n)] == s[..End(starts, |s|, n)];
  }

  lemma DumpedAll(s: seq<Byte>, starts: seq<nat>, payloads: seq<seq<Byte>>)
    requires DumpedTo(s, starts, payloads, |starts|)
    ensures |payloads| == |starts| && Flat(payloads) == s && forall k :: 0 <= k < |starts| ==>
      payloads[k] == Chunk(s, starts, k)
  {
    assert s[..|s|] == s;
  }

  /** The bytes of chunk `k`. */
  function Chunk(s: seq<Byte>, starts: seq<nat>, k: nat): seq<Byte>
    requires k < |starts|
  {
    if starts[k] <= End(starts, |s|, k) <= |s| then s[starts[k]..End(starts, |s|, k)] else []
  }

  lemma LenSet(s: seq<Byte>, c: nat, n: nat)
    requires c + 3 < |s| && n < 0x1_0000
    ensures ChunkLen(SetLen(s, c, n), c) == n && forall m: nat :: m < 0x1_0000 ==>
      SetLen(SetLen(s, c, n), c, m) == SetLen(s, c, m)
  {
  }

  lemma NothingCut(o: seq<Byte>)
    requires Cacheable(o)
    ensures CMD_HEADER <= |o| && Cut(o, [0], 0) && Marked(o, [0], 0) == SetLen(o, 0, 0)
    ensures ChunkLen(SetLen(o, 0, 0), 0) == 0
  {
    OnNext(o, 0, 0);
    assert Front([0]) == [];
  }

  /** The command at `end` goes into the last chunk or opens a new one. */
  lemma MarkStep(o: seq<Byte>, s: seq<Byte>, starts: seq<nat>, end: nat)
    requires Cacheable(o) && Cut(o, starts, end) && s == Marked(o, starts, end) && end < |o|
    ensures end + CMD_HEADER <= |s| && starts != []
    ensures CMD_HEADER <= CmdLen(s, end) <= LIMIT && end + CmdLen(s, end) <= |s|
    ensures var c := Last(starts); var end' := end + CmdLen(s, end);
      if end' - c > LIMIT then
        Cut(o, starts + [end], end') && Marked(o, starts + [end], end') == SetLen(s, end, end' - end)
      else
        Cut(o, starts, end') && Marked(o, starts, end') == SetLen(s, c, end' - c)
  {
    var c := Last(starts);
    OnNext(o, 0, end);
    CommandReadable(o, starts, end);
    var end' := end + CmdLen(o, end);
    if end' - c > LIMIT {
      assert Front(starts + [end]) == starts;
    } else if c + 3 < |o| {
      LenSet(Marked(o, Front(starts), c), c, end - c);
    }
  }

  lemma CutNotEmpty(o: seq<Byte>, starts: seq<nat>, end: nat)
    requires Cut(o, starts, end)
    ensures starts != []
  {
  }

  lemma CommandReadable(o: seq<Byte>, starts: seq<nat>, end: nat)
    requires Cacheable(o) && Cut(o, starts, end) && end + CMD_HEADER <= |o|
    ensures CmdLen(Marked(o, starts, end), end) == CmdLen(o, end)
  {
    if Last(starts) < end {
      OnApart(o, 0, Last(starts), end);
      MarkedBehind(o, starts, end, end);
      MarkedBehind(o, starts, end, end + 1);
    } else {
      assert Front(starts) == [];
    }
  }

  lemma ChunkReady(o: seq<Byte>, s: seq<Byte>, starts: seq<nat>, k: nat)
    requires Cut(o, starts, |s|) && s == Marked(o, starts, |s|) && k < |starts| && s != []
    ensures starts[k] + 3 < |s| && ChunkLen(s, starts[k]) == End(starts, |s|, k) - starts[k]
    ensures starts[0] == 0 && starts[k] < End(starts, |s|, k) <= |s|
  {
    ChunkOf(o, starts, |s|, k);
    HeadOf(o, starts, |s|, k);
    ChunkOf(o, starts, |s|, 0);
  }
}
