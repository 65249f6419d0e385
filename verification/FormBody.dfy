/** Reading a whole form body whose fields are strings, however it is cut into segments. */
module FormBody {
  import opened Basics
  import opened KeyCascade
  import opened FormValue

  /** Which of the fields were stored, and how it ended: the body is over; there is no such field; or a value
      did not fit its field. */
  datatype End = Finished | Unknown | Overflow

  datatype Form = Form(values: seq<(nat, seq<Byte>)>, end: End)

  /** The key that a stream starts with; the number of keys if there is none. */
  function KeyOf(keys: seq<Text>, s: Text, j: nat): (k: nat)
    requires j <= |keys|
    ensures j <= k <= |keys| && (k < |keys| ==> keys[k] <= s)
    ensures forall i :: j <= i < k ==> !(keys[i] <= s)
    decreases |keys| - j
  {
    if j == |keys| || keys[j] <= s then j else KeyOf(keys, s, j + 1)
  }

  /** What a body means: fields one after the other, each a key and a value up to the next ampersand. */
  ghost function Parsed(keys: seq<Text>, sizes: seq<nat>, body: Text): Form
    requires PrefixFree(keys) && |sizes| == |keys|
    decreases |body|
  {
    var j := KeyOf(keys, body, 0);
    if body == [] then Form([], Finished)
    else if j == |keys| then Form([], Unknown)
    else
      var rest := body[|keys[j]|..];
      var (d, n, ended) := Decode(Decoder(IDLE, []), rest);
      DecodeGrows(Decoder(IDLE, []), rest);
      if |d.out| > sizes[j] then Form([], Overflow)
      else if !ended then Form([(j, d.out)], Finished)
      else Prepended((j, d.out), Parsed(keys, sizes, rest[n..]))
  }

  function Prepended(value: (nat, seq<Byte>), form: Form): Form {
    form.(values := [value] + form.values)
  }

  /** The memory of a field holds a value: terminated by a zero if there is room. */
  predicate Holds(memory: seq<Byte>, value: seq<Byte>) {
    |value| <= |memory| && memory[..|value|] == value && (|value| < |memory| ==> memory[|value|] == 0)
  }

  predicate AllHold(memories: seq<(nat, seq<Byte>)>, values: seq<(nat, seq<Byte>)>) {
    |memories| == |values| && forall i :: 0 <= i < |values| ==>
      memories[i].0 == values[i].0 && Holds(memories[i].1, values[i].1)
  }

  predicate AllButFirstNotEmpty(segments: seq<Text>) {
    segments != [] && forall i :: 1 <= i < |segments| ==> segments[i] != []
  }

  lemma PrefixTwice(a: Text, b: Text, c: Text)
    requires b < c
    ensures a <= b ==> a <= c && |a| < |c|
  {
  }

  lemma KeyPicked(keys: seq<Text>, stream: Text, o: Outcome)
    requires PrefixFree(keys) && Right(keys, stream, o)
    ensures KeyOf(keys, stream, 0) == if o.Picked? then o.key else |keys|
  {
    if o.Undecided? {
      var j :| 0 <= j < |keys| && stream < keys[j];
      forall k | 0 <= k < |keys|
        ensures !(keys[k] <= stream)
      {
        PrefixTwice(keys[k], stream, keys[j]);
      }
    }
  }

  /** Recognises the key that comes next, and returns the segments from behind it on. */
  method ReadOneKey(keys: seq<Text>, segments: seq<Text>) returns (key: nat, rest: seq<Text>)
    requires PrefixFree(keys) && keys != [] && AllButFirstNotEmpty(segments)
    ensures key == KeyOf(keys, Flat(segments), 0)
    ensures key < |keys| ==> AllButFirstNotEmpty(rest) && keys[key] + Flat(rest) == Flat(segments)
  {
    hide PrefixFree, Right;
    var m := new Matcher(keys);
    var outcome, used := m.ReadKey(segments);
    KeyPicked(keys, Flat(segments), outcome);
    key, rest := |keys|, [];
    if outcome.Picked? {
      key := outcome.key;
      KeyNotEmpty(keys, key);
      rest := [m.segment[m.index..]] + segments[used..];
      FlatSplit(segments, used);
      assert rest[1..] == segments[used..];
      assert keys[key] + (m.segment[m.index..] + Flat(segments[used..])) == Flat(segments[..used])
        + Flat(segments[used..]);
    }
  }

  /** Decodes the value that comes next into a field of the given size, and returns the segments from behind
      it on. */
  method ReadOneValue(size: nat, segments: seq<Text>) returns (status: Status, memory: seq<Byte>, rest: seq<Text>)
    requires AllButFirstNotEmpty(segments)
    ensures var (d, n, ended) := Decode(Decoder(IDLE, []), Flat(segments));
      && status == (if |d.out| > size then TooLong else if ended then Ended else Completed)
      && (status != TooLong ==> Holds(memory, d.out))
      && (status == Ended ==> AllButFirstNotEmpty(rest) && n <= |Flat(segments)| && Flat(rest) == Flat(segments)[n..])
  {
    hide Decode;
    var field := new Field(size, |Flat(segments)|);
    var used;
    status, used := field.ReadValue(segments);
    memory, rest := field.addr[..], [];
    if status == Ended {
      rest := [segments[used - 1][field.index..]] + segments[used..];
      assert rest[1..] == segments[used..];
    }
  }

  /** Reads a body. What is stored in which fields, and how it ends, only depends on the bytes. */
  method ReadForm(keys: seq<Text>, sizes: seq<nat>, segments: seq<Text>)
    returns (memories: seq<(nat, seq<Byte>)>, end: End)
    requires PrefixFree(keys) && keys != [] && |sizes| == |keys| && AllButFirstNotEmpty(segments)
    ensures var form := Parsed(keys, sizes, Flat(segments)); end == form.end && AllHold(memories, form.values)
  {
    hide Decode, PrefixFree, AllHold, Parsed, Behind, AllButFirstNotEmpty;
    ghost var all := Parsed(keys, sizes, Flat(segments));
    ghost var values: seq<(nat, seq<Byte>)> := [];
    var todo := segments;
    memories := [];
    NothingHeld(all);
    while true
      invariant AllButFirstNotEmpty(todo) && AllHold(memories, values)
      invariant all == Behind(values, Parsed(keys, sizes, Flat(todo)))
      decreases |Flat(todo)|
    {
      var body := Flat(todo);
      if body == [] {
        ParsedEnds(keys, sizes, body, values);
        return memories, Finished;
      }
      var key, rest := ReadOneKey(keys, todo);
      if key == |keys| {
        ParsedEnds(keys, sizes, body, values);
        return memories, Unknown;
      }
      ParsedGoesOn(keys, sizes, body, key, Flat(rest), values);
      ghost var value := Decode(Decoder(IDLE, []), Flat(rest)).0.out;
      var status, memory;
      status, memory, todo := ReadOneValue(sizes[key], rest);
      if status == TooLong {
        return memories, Overflow;
      }
      HeldToo(memories, values, key, memory, value);
      memories, values := memories + [(key, memory)], values + [(key, value)];
      if status == Completed {
        return memories, Finished;
      }
    }
  }

  lemma NothingHeld(form: Form)
    ensures AllHold([], []) && Behind([], form) == form
  {
  }

  lemma HeldToo(memories: seq<(nat, seq<Byte>)>, values: seq<(nat, seq<Byte>)>, key: nat, memory: seq<Byte>,
                value: seq<Byte>)
    requires AllHold(memories, values) && Holds(memory, value)
    ensures AllHold(memories + [(key, memory)], values + [(key, value)])
  {
    hide Holds;
  }

  lemma ParsedEnds(keys: seq<Text>, sizes: seq<nat>, body: Text, values: seq<(nat, seq<Byte>)>)
    requires PrefixFree(keys) && |sizes| == |keys| && (body == [] || KeyOf(keys, body, 0) == |keys|)
    ensures Behind(values, Parsed(keys, sizes, body)) == Form(values, if body == [] then Finished else Unknown)
  {
  }

  lemma ParsedGoesOn(keys: seq<Text>, sizes: seq<nat>, body: Text, j: nat, rest: Text, values: seq<(nat, seq<Byte>)>)
    requires PrefixFree(keys) && |sizes| == |keys| && j < |keys| && j == KeyOf(keys, body, 0) && body == keys[j] + rest
    ensures |rest| < |body|
    ensures var (d, n, ended) := Decode(Decoder(IDLE, []), rest);
      && n <= |rest|
      && Behind(values, Parsed(keys, sizes, body)) ==
           if |d.out| > sizes[j] then Form(values, Overflow)
           else if !ended then Form(values + [(j, d.out)], Finished)
           else Behind(values + [(j, d.out)], Parsed(keys, sizes, rest[n..]))
  {
    hide Parsed, Decode, PrefixFree, KeyOf, Behind;
    KeyNotEmpty(keys, j);
    DecodeGrows(Decoder(IDLE, []), rest);
    ParsedField(keys, sizes, body, j);
    assert body[|keys[j]|..] == rest;
    var (d, n, ended) := Decode(Decoder(IDLE, []), rest);
    BehindAll(values, (j, d.out), Parsed(keys, sizes, rest[n..]));
  }

  lemma ParsedField(keys: seq<Text>, sizes: seq<nat>, body: Text, j: nat)
    requires PrefixFree(keys) && |sizes| == |keys| && j < |keys| && j == KeyOf(keys, body, 0) && |keys[j]| <= |body|
    requires body != []
    ensures var rest := body[|keys[j]|..]; var (d, n, ended) := Decode(Decoder(IDLE, []), rest);
      Parsed(keys, sizes, body) ==
        if |d.out| > sizes[j] then Form([], Overflow)
        else if !ended then Form([(j, d.out)], Finished)
        else if n <= |rest| then Prepended((j, d.out), Parsed(keys, sizes, rest[n..]))
        else Form([], Unknown)
  {
    hide Decode, PrefixFree, KeyOf;
    DecodeGrows(Decoder(IDLE, []), body[|keys[j]|..]);
  }

  lemma BehindAll(values: seq<(nat, seq<Byte>)>, value: (nat, seq<Byte>), form: Form)
    ensures Behind(values, Form([], Overflow)) == Form(values, Overflow)
    ensures Behind(values, Form([value], Finished)) == Form(values + [value], Finished)
    ensures Behind(values, Prepended(value, form)) == Behind(values + [value], form)
  {
  }

  /** Values that have been read already, in front of the others. */
  ghost function Behind(values: seq<(nat, seq<Byte>)>, form: Form): Form {
    form.(values := values + form.values)
  }

  lemma KeyNotEmpty(keys: seq<Text>, k: nat)
    requires PrefixFree(keys) && k < |keys|
    ensures keys[k] != []
  {
  }

  // ---------------------------------------------------------------- what a browser sends

  /** The fields of a form, each with one of the encodings of its value, joined by ampersands. */
  function Written(keys: seq<Text>, fields: seq<(nat, seq<Byte>)>, encodings: seq<Text>): Text
    requires |encodings| == |fields| && forall i :: 0 <= i < |fields| ==> fields[i].0 < |keys|
    decreases |fields|, 0
  {
    if fields == [] then []
    else keys[fields[0].0] + (encodings[0] + More(keys, fields[1..], encodings[1..]))
  }

  function More(keys: seq<Text>, fields: seq<(nat, seq<Byte>)>, encodings: seq<Text>): Text
    requires |encodings| == |fields| && forall i :: 0 <= i < |fields| ==> fields[i].0 < |keys|
    decreases |fields|, 1
  {
    if fields == [] then [] else [0x26] + Written(keys, fields, encodings)
  }

  /** Reading inverts writing: whatever the values are and however they are encoded. */
  lemma {:induction false} ReadingInverts(keys: seq<Text>, sizes: seq<nat>, fields: seq<(nat, seq<Byte>)>,
                                          encodings: seq<Text>)
    requires PrefixFree(keys) && |sizes| == |keys| && |encodings| == |fields|
    requires forall i :: 0 <= i < |fields| ==> fields[i].0 < |keys| && |fields[i].1| <= sizes[fields[i].0]
    requires forall i :: 0 <= i < |fields| ==> Encodes(encodings[i], fields[i].1)
    ensures Parsed(keys, sizes, Written(keys, fields, encodings)) == Form(fields, Finished)
    decreases |fields|
  {
    if fields != [] {
      hide Parsed, Decode, Encodes, PrefixFree;
      var j, value := fields[0].0, fields[0].1;
      ReadingInverts(keys, sizes, fields[1..], encodings[1..]);
      OneField(keys, sizes, j, value, encodings[0], More(keys, fields[1..], encodings[1..]));
      assert [fields[0]] + fields[1..] == fields;
    } else {
      hide Decode, PrefixFree;
    }
  }

  /** One field in front of others, or of nothing. */
  lemma OneField(keys: seq<Text>, sizes: seq<nat>, j: nat, value: seq<Byte>, e: Text, more: Text)
    requires PrefixFree(keys) && |sizes| == |keys| && j < |keys| && |value| <= sizes[j] && Encodes(e, value)
    requires more != [] ==> more[0] == AMPERSAND
    ensures Parsed(keys, sizes, keys[j] + (e + more)) ==
      if more == [] then Form([(j, value)], Finished)
      else Prepended((j, value), Parsed(keys, sizes, more[1..]))
  {
    hide Parsed, Decode, Encodes, PrefixFree;
    KeyInFront(keys, j, e + more);
    DecodeInverts(e, value, [], more);
    assert [] + value == value;
    ParsedGoesOn(keys, sizes, keys[j] + (e + more), j, e + more, []);
    NothingHeld(Parsed(keys, sizes, keys[j] + (e + more)));
    if more == [] {
      FieldOver(value);
    } else {
      assert more == [AMPERSAND] + more[1..] && (e + more)[|e| + 1..] == more[1..];
      FieldEnds(value, more[1..]);
    }
  }

  lemma KeyInFront(keys: seq<Text>, j: nat, rest: Text)
    requires PrefixFree(keys) && j < |keys|
    ensures KeyOf(keys, keys[j] + rest, 0) == j
  {
    var k := KeyOf(keys, keys[j] + rest, 0);
    assert keys[j] <= keys[j] + rest;
    assert k <= j;
    SamePrefix(keys[k], keys[j], keys[j] + rest);
  }

  /** Of two prefixes of the same text one starts with the other. */
  lemma SamePrefix(a: Text, b: Text, s: Text)
    requires a <= s && b <= s
    ensures a <= b || b <= a
  {
  }

  lemma FieldEnds(out: seq<Byte>, rest: seq<Byte>)
    ensures Decode(Decoder(IDLE, out), [AMPERSAND] + rest) == (Decoder(IDLE, out), 1, true)
  {
  }

  lemma FieldOver(out: seq<Byte>)
    ensures Decode(Decoder(IDLE, out), []) == (Decoder(IDLE, out), 0, false)
  {
  }
}
