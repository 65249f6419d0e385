/** Recognising one of several keys at the start of a stream that arrives in segments. */
module KeyCascade {
  import opened Basics

  type Text = seq<Byte>

  /** No key starts with another one, and none is empty. */
  predicate PrefixFree(keys: seq<Text>) {
    && (forall i :: 0 <= i < |keys| ==> keys[i] != [])
    && forall i, j :: 0 <= i < |keys| && 0 <= j < |keys| && i != j ==> !(keys[i] <= keys[j])
  }

  datatype Outcome = Picked(key: nat) | Undecided | NoKey

  /** What should come of a stream of which `stream` has arrived. */
  predicate Right(keys: seq<Text>, stream: Text, o: Outcome) {
    match o
    case Picked(j) => j < |keys| && keys[j] <= stream
    case Undecided => exists j :: 0 <= j < |keys| && stream < keys[j]
    case NoKey => forall j :: 0 <= j < |keys| ==> !(keys[j] <= stream) && !(stream <= keys[j])
  }

  /** Only one outcome is right: how the stream was cut into segments does not matter. */
  lemma RightIsUnique(keys: seq<Text>, stream: Text, a: Outcome, b: Outcome)
    requires PrefixFree(keys) && Right(keys, stream, a) && Right(keys, stream, b)
    ensures a == b
  {
  }

  /** Key `k` cannot be what the stream starts with. */
  predicate RuledOut(k: Text, seen: Text) {
    !(k <= seen) && !(seen <= k)
  }

  /** Everything that has been looked at: what has been consumed, and the character behind it if there
      is one. */
  function Seen(consumed: Text, segment: Text, index: nat): Text
    requires index <= |segment|
  {
    if index < |segment| then consumed + [segment[index]] else consumed
  }

  class Matcher {
    const keys: seq<Text>
    var segment: Text
    var index: nat
    /** How much of a key has been matched. */
    var offset: nat
    /** The key that was matched that far, unless it is the current one. */
    var cmp: int
    /** Which key to resume with. */
    var state: nat
    /** What has been consumed of the stream. */
    ghost var consumed: Text

    const NONE := -1

    ghost predicate Valid()
      reads this
    {
      PrefixFree(keys) && index <= |segment|
    }

    /** About to compare with key `k`, which is not ruled out by what has been consumed if `cmp` is NONE. */
    ghost predicate Before(k: nat)
      reads this
    {
      && Valid() && offset == |consumed|
      && if cmp == NONE then k < |keys| && consumed < keys[k]
         else 0 <= cmp < k <= |keys| && consumed < keys[cmp]
    }

    /** The keys in front of `k` are out of the question. */
    ghost predicate Excluded(k: nat)
      reads this
    {
      index <= |segment| && forall j :: 0 <= j < k && j < |keys| ==> RuledOut(keys[j], Seen(consumed, segment, index))
    }

    constructor (keys: seq<Text>)
      requires PrefixFree(keys) && keys != []
      ensures this.keys == keys && Before(0) && state == 0 && consumed == [] && index == |segment|
    {
      this.keys := keys;
      segment, index, offset, cmp, state, consumed := [], 0, 0, -1, 0, [];
    }

    /** Compares what was matched of another key with key `k`. */
    method CmpBack(k: nat) returns (same: bool)
      requires Before(k) && k < |keys|
      modifies `cmp
      ensures same <==> consumed < keys[k]
      ensures cmp == if same then NONE else old(cmp)
    {
      if cmp == NONE {
        return true;
      }
      var i := 0;
      while i < offset
        invariant 0 <= i <= offset && i <= |keys[k]| && keys[k][..i] == keys[cmp][..i]
      {
        if i == |keys[k]| || keys[k][i] != keys[cmp][i] {
          NotPrefix(consumed, keys[cmp], keys[k], i);
          return false;
        }
        i := i + 1;
      }
      assert consumed == keys[cmp][..offset] == keys[k][..offset];
      cmp := NONE;
      return true;
    }

    /** The stream from the start of the key on, as far as it has arrived. */
    ghost function Stream(): Text
      requires index <= |segment|
      reads this
    {
      consumed + segment[index..]
    }

    /** Compares the stream with key `k` as far as it has arrived. */
    method Cmp(k: nat) returns (found: bool)
      requires Before(k) && k < |keys| && Excluded(k)
      modifies `cmp, `index, `offset, `consumed
      ensures Valid() && Stream() == old(Stream())
      ensures found ==> consumed == keys[k] && cmp == NONE && offset == 0
      ensures !found && cmp == NONE ==> Before(k) && index == |segment| && Excluded(k)
      ensures !found && cmp != NONE ==> Before(k + 1) && Excluded(k + 1)
    {
      hide RuledOut, PrefixFree;
      var same := CmpBack(k);
      if !same {
        RuledOutBack(k);
        return false;
      }
      while index < |segment|
        invariant Valid() && offset == |consumed| && consumed < keys[k] && cmp == NONE && Excluded(k)
        invariant Stream() == old(Stream())
      {
        if segment[index] != keys[k][offset] {
          cmp := k;
          RuledOutByNext(k);
          return false;
        }
        Consuming(k);
        consumed := consumed + [segment[index]];
        index := index + 1;
        offset := offset + 1;
        if offset == |keys[k]| {
          offset := 0;
          return true;
        }
      }
      return false;
    }

    lemma RuledOutBack(k: nat)
      requires Before(k) && k < |keys| && Excluded(k) && !(consumed < keys[k]) && cmp != NONE
      ensures Excluded(k + 1)
    {
    }

    lemma RuledOutByNext(k: nat)
      requires Valid() && k < |keys| && Excluded(k) && consumed < keys[k] && offset == |consumed|
      requires index < |segment| && segment[index] != keys[k][offset]
      ensures Excluded(k + 1)
    {
    }

    lemma Consuming(k: nat)
      requires Valid() && k < |keys| && Excluded(k) && consumed < keys[k] && offset == |consumed|
      requires index < |segment| && segment[index] == keys[k][offset]
      ensures var c := consumed + [segment[index]];
        && c <= keys[k] && (|c| < |keys[k]| ==> c < keys[k]) && (|c| == |keys[k]| ==> c == keys[k])
        && c + segment[index + 1..] == consumed + segment[index..]
        && forall j :: 0 <= j < k ==> RuledOut(keys[j], Seen(c, segment, index + 1))
    {
    }

    /** Goes on with the segment that has just arrived: compares with one key after the other. */
    method Resume() returns (outcome: Outcome)
      requires Before(state) && Excluded(state)
      modifies `cmp, `index, `offset, `consumed, `state
      ensures Valid() && Stream() == old(Stream()) && Right(keys, Stream(), outcome)
      ensures outcome.Picked? ==> outcome.key < |keys| && consumed == keys[outcome.key]
      ensures outcome.Undecided? ==> Before(state) && Excluded(state) && index == |segment|
    {
      hide RuledOut, PrefixFree, Right;
      var k := state;
      while k < |keys|
        invariant Before(k) && Excluded(k) && k <= |keys| && Stream() == old(Stream())
      {
        var found := Cmp(k);
        if found {
          RightWhenFound(k);
          return Picked(k);
        }
        if cmp == NONE {
          state := k;
          RightWhenUndecided(k);
          return Undecided;
        }
        k := k + 1;
      }
      RightWhenExcluded();
      return NoKey;
    }

    lemma RightWhenFound(k: nat)
      requires Valid() && k < |keys| && consumed == keys[k]
      ensures Right(keys, Stream(), Picked(k))
    {
    }

    lemma RightWhenUndecided(k: nat)
      requires Valid() && k < |keys| && consumed < keys[k] && index == |segment|
      ensures Right(keys, Stream(), Undecided)
    {
    }

    lemma RightWhenExcluded()
      requires Valid() && Excluded(|keys|)
      ensures Right(keys, Stream(), NoKey)
    {
    }

    /** Handles the next segment of the stream. */
    method Feed(more: Text) returns (outcome: Outcome)
      requires Before(state) && Excluded(state) && index == |segment|
      modifies this
      ensures Valid() && Stream() == old(consumed) + more && Right(keys, Stream(), outcome)
      ensures outcome.Picked? ==> outcome.key < |keys| && consumed == keys[outcome.key]
      ensures outcome.Undecided? ==> Before(state) && Excluded(state) && index == |segment|
    {
      hide RuledOut, PrefixFree, Right;
      forall j | 0 <= j < state && j < |keys|
        ensures RuledOut(keys[j], Seen(consumed, more, 0))
      {
        RuledOutLater(keys[j], consumed, Seen(consumed, more, 0));
      }
      segment, index := more, 0;
      outcome := Resume();
    }

    /** Reads segments until the outcome is clear. However the stream is cut, a key is picked exactly if
        the stream starts with it, and exactly that key is consumed. */
    method ReadKey(segments: seq<Text>) returns (outcome: Outcome, used: nat)
      requires Before(0) && state == 0 && consumed == [] && index == |segment|
      modifies this
      ensures used <= |segments| && Right(keys, Flat(segments), outcome)
      ensures outcome.Undecided? ==> used == |segments|
      ensures outcome.Picked? ==>
        outcome.key < |keys| && index <= |segment| && consumed == keys[outcome.key]
          && consumed + segment[index..] == Flat(segments[..used])
    {
      hide RuledOut, PrefixFree, Right;
      used, outcome := 0, Undecided;
      NothingRead();
      assert segments[..0] == [];
      while used < |segments| && outcome.Undecided?
        invariant used <= |segments| && Valid() && Stream() == Flat(segments[..used]) && Right(keys, Stream(), outcome)
        invariant outcome.Picked? ==> outcome.key < |keys| && consumed == keys[outcome.key]
        invariant outcome.Undecided? ==> Before(state) && Excluded(state) && index == |segment|
      {
        assert segments[..used + 1] == segments[..used] + [segments[used]];
        FlatAppend(segments[..used], segments[used]);
        outcome := Feed(segments[used]);
        used := used + 1;
      }
      assert segments[..|segments|] == segments;
      FlatSplit(segments, used);
      if !outcome.Undecided? {
        RightLater(keys, Stream(), Flat(segments), outcome);
      }
    }

    lemma NothingRead()
      requires Before(0) && consumed == [] && index == |segment|
      ensures Stream() == [] && Right(keys, [], Undecided) && Excluded(0)
    {
    }
  }

  lemma RuledOutLater(k: Text, seen: Text, more: Text)
    requires RuledOut(k, seen) && seen <= more
    ensures RuledOut(k, more)
  {
  }

  lemma RightLater(keys: seq<Text>, stream: Text, more: Text, o: Outcome)
    requires Right(keys, stream, o) && !o.Undecided? && stream <= more
    ensures Right(keys, more, o)
  {
  }

  /** The bytes of a string literal. */
  function Ascii(s: string): (r: Text)
    ensures |r| == |s|
  {
    seq(|s|, i requires 0 <= i < |s| => s[i] as int % 0x100)
  }

  const METHODS := [Ascii("GET /"), Ascii("POST /")]

  const FORM_KEYS :=
    [Ascii("ssid="), Ascii("psk="), Ascii("name="), Ascii("dest="), Ascii("atem="), Ascii("dhcp="), Ascii("localip="),
     Ascii("netmask="), Ascii("gateway=")]

  /** The lists of keys that the server looks for. */
  lemma KeyListsArePrefixFree()
    ensures PrefixFree(METHODS) && PrefixFree(FORM_KEYS)
  {
    assert METHODS[0][0] != METHODS[1][0];
    forall i, j | 0 <= i < |FORM_KEYS| && 0 <= j < |FORM_KEYS| && i != j
      ensures !(FORM_KEYS[i] <= FORM_KEYS[j])
    {
      assert FORM_KEYS[i][0] != FORM_KEYS[j][0] || FORM_KEYS[i][1] != FORM_KEYS[j][1];
    }
  }

  lemma NotPrefix(consumed: Text, a: Text, b: Text, i: nat)
    requires consumed < a && i < |consumed| && i <= |b| && (i == |b| || b[i] != a[i])
    ensures !(consumed < b)
  {
  }
}
