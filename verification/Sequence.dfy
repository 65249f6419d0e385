/** Which of the 15-bit packet ids is next, which is ahead and which is behind. */
module Sequence {
  import opened Basics

  datatype Verdict = Next | Ahead | Behind

  /** The client's classification of a received packet. */
  function ClientVerdict(last: Word, wire: Word): Verdict {
    var next := (last + 1) % REMOTE_IDS;
    var recved := wire % REMOTE_IDS;
    if recved == next then Next
    else if (recved - next) % REMOTE_IDS < (REMOTE_IDS - 1) / 2 then Ahead
    else Behind
  }

  function Int16(w: Word): int {
    if w < 0x8000 then w else w - 0x1_0000
  }

  /** The proxy's classification, which keeps the received id as a signed 16-bit number. */
  function ProxyVerdict(last: Word, wire: Word): Verdict {
    var next := (last + 1) % REMOTE_IDS;
    var recved := Int16(wire);
    if recved == next then Next
    else if (recved - next) % REMOTE_IDS < (REMOTE_IDS - 1) / 2 then Ahead
    else Behind
  }

  /** The two agree unless the packet carries the expected id with the unused top bit set: the client
      masks that bit and takes the packet, the proxy asks for the packet it has just been sent. */
  lemma VerdictsAgreeExactlyWhen(last: Word, wire: Word)
    ensures ClientVerdict(last, wire) == ProxyVerdict(last, wire) <==>
      !(wire >= REMOTE_IDS && wire - REMOTE_IDS == (last + 1) % REMOTE_IDS)
    ensures wire >= REMOTE_IDS && wire - REMOTE_IDS == (last + 1) % REMOTE_IDS ==>
      ClientVerdict(last, wire).Next? && ProxyVerdict(last, wire).Ahead?
  {
  }

  /** How far the packet numbered `n` is ahead of the one that is expected when `k` have been taken. */
  function Lead(k: nat, n: nat): int {
    n - (k + 1)
  }

  /** The packets are numbered from 1 without wrapping around. On the wire the `n`th one carries `n` modulo the
      id space. Within the given distances the verdict is the true order, and they are the largest such:
      one step further on either side it is the opposite. */
  lemma VerdictIsTrueOrder(k: nat, n: nat)
    requires n > 0 && -16386 <= Lead(k, n) <= 16383
    ensures var v := ClientVerdict(k % REMOTE_IDS, n % REMOTE_IDS);
      if Lead(k, n) == 16383 then v.Behind?
      else if Lead(k, n) == -16386 then v.Ahead?
      else if n == k + 1 then v.Next?
      else if n > k + 1 then v.Ahead?
      else v.Behind?
  {
    DistanceWraps(k, n);
  }

  /** Taking only the expected packet is right up to a lag of the whole id space in both directions. */
  lemma NextIsExact(k: nat, n: nat)
    requires n > 0 && -REMOTE_IDS < Lead(k, n) < REMOTE_IDS
    ensures ClientVerdict(k % REMOTE_IDS, n % REMOTE_IDS).Next? <==> n == k + 1
    ensures ProxyVerdict(k % REMOTE_IDS, n % REMOTE_IDS).Next? <==> n == k + 1
  {
    DistanceWraps(k, n);
  }

  lemma DistanceWraps(k: nat, n: nat)
    ensures (n % REMOTE_IDS - (k % REMOTE_IDS + 1) % REMOTE_IDS) % REMOTE_IDS == Lead(k, n) % REMOTE_IDS
    ensures (k % REMOTE_IDS + 1) % REMOTE_IDS == (k + 1) % REMOTE_IDS
  {
  }
}
