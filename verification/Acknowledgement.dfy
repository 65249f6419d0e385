/** How many packets an acknowledgement releases, and how many it should. */
module Acknowledgement {
  import opened Basics

  const AHEAD := 0x3fff

  /** The comparison made by the proxy: remote ids are subtracted without wrapping around. */
  predicate Passes(ack: nat, id: nat) {
    ack - id <= AHEAD
  }

  /** The comparison made by the client library on the same ids: the difference wraps around. */
  predicate PassesMasked(ack: nat, id: nat) {
    (ack - id) % REMOTE_IDS <= AHEAD
  }

  /** The oldest remote id of a chain of `n` consecutive ids that ends at `last`. */
  function FirstId(last: nat, n: nat): nat {
    (last + 1 - n) % REMOTE_IDS
  }

  /** How many packets, oldest first, are released before the comparison fails. */
  function Released(last: nat, n: nat, ack: nat): (m: nat)
    ensures m <= n
  {
    if n == 0 || !Passes(ack, FirstId(last, n)) then 0 else 1 + Released(last, n - 1, ack)
  }

  /** How many would be released by the comparison that wraps around. */
  function ReleasedMasked(last: nat, n: nat, ack: nat): (m: nat)
    ensures m <= n
  {
    if n == 0 || !PassesMasked(ack, FirstId(last, n)) then 0 else 1 + ReleasedMasked(last, n - 1, ack)
  }

  /** `Released` is the longest prefix whose ids all pass: the chain is left with the first `k` for
      which `FirstId(last, k)` fails. */
  lemma {:induction false} ReleasedIsLongestPrefix(last: nat, n: nat, ack: nat)
    ensures forall k: nat {:trigger FirstId(last, k)} :: n - Released(last, n, ack) < k <= n ==>
      Passes(ack, FirstId(last, k))
    ensures Released(last, n, ack) < n ==> !Passes(ack, FirstId(last, n - Released(last, n, ack)))
  {
    if n > 0 && Passes(ack, FirstId(last, n)) {
      ReleasedIsLongestPrefix(last, n - 1, ack);
    }
  }

  /** How far the acknowledged id lies ahead of the oldest packet, modulo the id space. */
  function Offset(last: nat, n: nat, ack: nat): nat {
    (ack - FirstId(last, n)) % REMOTE_IDS
  }

  lemma NextId(last: nat, n: nat)
    requires n > 0
    ensures FirstId(last, n - 1) == (FirstId(last, n) + 1) % REMOTE_IDS
  {
  }

  lemma OffsetShrinks(last: nat, n: nat, ack: nat)
    requires n > 0
    ensures Offset(last, n - 1, ack) == if Offset(last, n, ack) == 0 then REMOTE_IDS - 1 else Offset(last, n, ack) - 1
  {
  }

  /** With wrapping subtraction everything up to and including the acknowledged id is released, and
      an id from more than half the id space ahead, that is from the past, releases nothing. */
  lemma {:induction false} MaskedReleasesUpTo(last: nat, n: nat, ack: nat)
    ensures ReleasedMasked(last, n, ack) ==
      if Offset(last, n, ack) <= 0x3fff then Min(n, Offset(last, n, ack) + 1) else 0
  {
    if n > 0 && Offset(last, n, ack) <= 0x3fff {
      MaskedReleasesUpTo(last, n - 1, ack);
      OffsetShrinks(last, n, ack);
    }
  }

  /** Without wrapping, ids at or above the threshold pass, however far ahead of the acknowledged id
      they are, up to the point where the chain's ids wrap to zero. */
  lemma {:induction false} ReleasedWithoutWrap(last: nat, n: nat, ack: nat)
    requires ack < 2 * REMOTE_IDS
    ensures var f := FirstId(last, n);
      Released(last, n, ack) ==
        if f + 0x3fff < ack then 0
        else if ack <= 0x3fff then n
        else Min(n, REMOTE_IDS - f)
    decreases n
  {
    if n > 0 && Passes(ack, FirstId(last, n)) {
      ReleasedWithoutWrap(last, n - 1, ack);
      NextId(last, n);
    }
  }

  /** What a caller can check beforehand to know that the proxy releases what it should. */
  predicate ReleasesAsIntended(first: nat, n: nat, ack: nat) {
    var offset := (ack - first) % REMOTE_IDS;
    || n == 0
    || (if ack < REMOTE_IDS then
          if offset <= 0x3fff then n <= offset + 1 || ack == REMOTE_IDS - 1 else first + 0x3fff < ack
        else
          offset > 0x3fff || (first > ack - REMOTE_IDS && n <= REMOTE_IDS - first))
  }

  /** The proxy's comparison and the wrapping one agree exactly in these cases: for a genuine id
      (below 0x8000) only if nothing remains unacknowledged, if the id is the very last one, or if
      an outdated id happens to lie numerically far above the whole chain. */
  lemma AgreesExactlyWhen(last: nat, n: nat, ack: nat)
    requires ack < 2 * REMOTE_IDS
    ensures Released(last, n, ack) == ReleasedMasked(last, n, ack) <==> ReleasesAsIntended(FirstId(last, n), n, ack)
  {
    ReleasedWithoutWrap(last, n, ack);
    MaskedReleasesUpTo(last, n, ack);
  }

  /** Packets 5, 6 and 7 are outstanding and the client acknowledges 5: all three are released. */
  lemma AcknowledgingOneReleasesAll()
    ensures FirstId(7, 3) == 5
    ensures Released(7, 3, 5) == 3
    ensures ReleasedMasked(7, 3, 5) == 1
  {
  }
}
