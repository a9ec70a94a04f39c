/** The field codec of `MessageSerializer`: fields are joined by terminating each
    one with a NUL byte, and split again at the NUL bytes. */
module Fields {
  import opened Bytes

  /** Every field followed by its terminator. */
  function Packed(fields: seq<Text>): Text {
    if fields == [] then [] else fields[0] + [NUL] + Packed(fields[1..])
  }

  /** The maximal NUL-free runs of `p`; a last run without terminator counts only
      when it is not empty. */
  function Split(p: Text): seq<Text> {
    SplitFrom([], p)
  }

  /** `Split` with the bytes of an unfinished field already in hand. */
  function SplitFrom(current: Text, p: Text): seq<Text>
    decreases |p|
  {
    if p == [] then if current == [] then [] else [current]
    else if p[0] == NUL then [current] + SplitFrom([], p[1..])
    else SplitFrom(current + [p[0]], p[1..])
  }

  ghost predicate AllNulFree(fields: seq<Text>) {
    forall f <- fields :: NulFree(f)
  }

  method Pack(fields: seq<Text>) returns (packed: Text)
    ensures packed == Packed(fields)
  {
    packed := [];
    for i := 0 to |fields|
      invariant packed + Packed(fields[i..]) == Packed(fields)
    {
      packed := packed + fields[i];
      packed := packed + [NUL];
    }
  }

  method Unpack(packed: Text) returns (fields: seq<Text>)
    ensures fields == Split(packed)
  {
    fields := [];
    var current: Text := [];
    for i := 0 to |packed|
      invariant fields + SplitFrom(current, packed[i..]) == Split(packed)
    {
      assert packed[i..][1..] == packed[i + 1..];
      if packed[i] == NUL {
        fields := fields + [current];
        current := [];
      } else {
        current := current + [packed[i]];
      }
    }
    if current != [] {
      fields := fields + [current];
    }
  }

  /** A NUL-free run ahead of a terminator becomes one field. */
  lemma {:induction false} SplitRun(current: Text, f: Text, p: Text)
    requires NulFree(f)
    ensures SplitFrom(current, f + [NUL] + p) == [current + f] + Split(p)
    decreases |f|
  {
    var whole := f + [NUL] + p;
    if f == [] {
      assert whole[1..] == p;
      assert current + f == current;
    } else {
      assert whole[1..] == f[1..] + [NUL] + p;
      SplitRun(current + [f[0]], f[1..], p);
      assert current + [f[0]] + f[1..] == current + f;
    }
  }

  /** What follows a packed block does not disturb its fields. */
  lemma {:induction false} SplitAfterPacked(fields: seq<Text>, p: Text)
    requires AllNulFree(fields)
    ensures Split(Packed(fields) + p) == fields + Split(p)
  {
    if fields == [] {
      assert Packed(fields) + p == p;
    } else {
      var head, tail := fields[0], fields[1..];
      var rest := Packed(tail) + p;
      SplitAfterPacked(tail, p);
      calc {
        Split(Packed(fields) + p);
        { assert Packed(fields) + p == head + [NUL] + rest; }
        Split(head + [NUL] + rest);
        { SplitRun([], head, rest); assert [] + head == head; }
        [head] + Split(rest);
        [head] + (tail + Split(p));
        { assert [head] + (tail + Split(p)) == [head] + tail + Split(p); }
        [head] + tail + Split(p);
        { assert [head] + tail == fields; }
        fields + Split(p);
      }
    }
  }

  lemma {:induction false} SplitFieldsNulFree(current: Text, p: Text)
    requires NulFree(current)
    ensures AllNulFree(SplitFrom(current, p))
    decreases |p|
  {
    if p != [] {
      if p[0] == NUL {
        SplitFieldsNulFree([], p[1..]);
      } else {
        SplitFieldsNulFree(current + [p[0]], p[1..]);
      }
    }
  }

  /** Exactly the lists of NUL-free fields survive the codec; empty fields do. */
  lemma SplitPacked(fields: seq<Text>)
    ensures Split(Packed(fields)) == fields <==> AllNulFree(fields)
  {
    if AllNulFree(fields) {
      SplitAfterPacked(fields, []);
      assert Packed(fields) + [] == Packed(fields);
      assert fields + Split([]) == fields;
    } else {
      SplitFieldsNulFree([], Packed(fields));
    }
  }

  /** `p`, ended by a terminator unless it is empty. */
  function Terminated(p: Text): Text {
    if p == [] || p[|p| - 1] == NUL then p else p + [NUL]
  }

  /** Packing what was split gives the payload back, with the terminator of the
      last field added when it was missing. */
  lemma PackedSplit(p: Text)
    ensures Packed(Split(p)) == Terminated(p)
  {
    PackedSplitFrom([], p);
    assert [] + p == p;
  }

  lemma {:induction false} PackedSplitFrom(current: Text, p: Text)
    requires NulFree(current)
    ensures Packed(SplitFrom(current, p)) == Terminated(current + p)
    decreases |p|
  {
    if p == [] {
      assert current + p == current;
      if current != [] {
        assert current[|current| - 1] in current;
        assert Packed([current]) == current + [NUL];
      }
    } else if p[0] == NUL {
      PackedSplitFrom([], p[1..]);
      assert [] + p[1..] == p[1..];
      PackedFirst(current, p);
    } else {
      PackedSplitFrom(current + [p[0]], p[1..]);
      assert current + [p[0]] + p[1..] == current + p;
    }
  }

  lemma PackedFirst(current: Text, p: Text)
    requires p != [] && p[0] == NUL
    requires Packed(SplitFrom([], p[1..])) == Terminated(p[1..])
    ensures Packed([current] + SplitFrom([], p[1..])) == Terminated(current + p)
  {
    var tail := p[1..];
    var rest := SplitFrom([], tail);
    assert ([current] + rest)[1..] == rest;
    TerminatedAppend(current + [NUL], tail);
    assert current + [NUL] + tail == current + p;
  }

  lemma TerminatedAppend(a: Text, b: Text)
    requires a != [] && a[|a| - 1] == NUL
    ensures Terminated(a + b) == a + Terminated(b)
  {
    if b == [] {
      assert a + b == a;
    } else {
      assert (a + b)[|a + b| - 1] == b[|b| - 1];
    }
  }

  const STATUS: Text := Ascii("STATUS")

  /** A presence notice packs an already packed list of names. The client reads the
      category, every name in order, and one empty field at the end. */
  lemma NestedStatusList(users: seq<Text>)
    requires AllNulFree(users)
    ensures Split(Packed([STATUS, Packed(users)])) == [STATUS] + users + [[]]
  {
    var names := [STATUS] + users;
    assert names[1..] == users;
    assert [STATUS, Packed(users)][1..] == [Packed(users)];
    assert [Packed(users)][1..] == [];
    assert Packed([Packed(users)]) == Packed(users) + [NUL];
    assert Packed([STATUS, Packed(users)]) == Packed(names) + [NUL];
    assert NulFree(STATUS) by { assert STATUS == [83, 84, 65, 84, 85, 83]; }
    SplitAfterPacked(names, [NUL]);
    var last: Text := [NUL];
    assert last[1..] == [];
    assert SplitFrom([], last[1..]) == [];
    assert Split(last) == [[]];
  }
}
