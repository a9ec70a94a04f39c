/** Bytes and byte strings. The program keeps every name, room and payload in a
    `std::string`, that is, in a sequence of bytes; so does the model. */
module Bytes {

  datatype Option<+T> = None | Some(value: T)

  newtype Byte = x: int | 0 <= x < 256

  type Text = seq<Byte>

  /** The terminator of packed fields. */
  const NUL: Byte := 0

  const SPACE: Byte := 32

  predicate NulFree(t: Text) {
    NUL !in t
  }

  /** The bytes of a literal of the source. */
  function Ascii(s: string): (t: Text)
    ensures |t| == |s|
  {
    seq(|s|, i requires 0 <= i < |s| => (s[i] as int % 256) as Byte)
  }

  /** One of the four bytes that `Trim` strips. */
  predicate Blank(b: Byte) {
    b in {SPACE, 9, 13, 10}
  }

  function TrimLeft(t: Text): (r: Text)
    ensures r == [] || !Blank(r[0])
  {
    if t != [] && Blank(t[0]) then TrimLeft(t[1..]) else t
  }

  function TrimRight(t: Text): (r: Text)
    ensures r <= t
    ensures r == [] || !Blank(r[|r| - 1])
  {
    if t != [] && Blank(t[|t| - 1]) then TrimRight(t[..|t| - 1]) else t
  }

  function Trim(t: Text): (r: Text)
    ensures r == [] || (!Blank(r[0]) && !Blank(r[|r| - 1]))
  {
    TrimRight(TrimLeft(t))
  }

  /** Space, tab, carriage return and line feed are taken off both ends, as long as there
      are any, and nothing else is. */
  lemma TrimTakesBlanks(t: Text) returns (i: nat, j: nat)
    ensures i <= j <= |t| && Trim(t) == t[i..j]
    ensures forall k | 0 <= k < i || j <= k < |t| :: t[k] == 32 || t[k] == 9 || t[k] == 13 || t[k] == 10
    ensures i < j ==> t[i] !in {32, 9, 13, 10} && t[j - 1] !in {32, 9, 13, 10}
  {
    i := TrimLeftTakes(t);
    var r := t[i..];
    var k := TrimRightTakes(r);
    j := i + k;
    assert r[..k] == t[i..j];
    forall x | j <= x < |t| ensures t[x] == 32 || t[x] == 9 || t[x] == 13 || t[x] == 10 {
      assert t[x] == r[x - i];
    }
  }

  lemma {:induction false} TrimLeftTakes(t: Text) returns (i: nat)
    ensures i <= |t| && TrimLeft(t) == t[i..]
    ensures forall k | 0 <= k < i :: Blank(t[k])
    decreases |t|
  {
    if t != [] && Blank(t[0]) {
      var more := TrimLeftTakes(t[1..]);
      i := 1 + more;
      assert t[1..][more..] == t[i..];
      forall k | 0 <= k < i ensures Blank(t[k]) {
        assert k > 0 ==> t[1..][k - 1] == t[k];
      }
    } else {
      i := 0;
    }
  }

  lemma {:induction false} TrimRightTakes(t: Text) returns (j: nat)
    ensures j <= |t| && TrimRight(t) == t[..j]
    ensures forall k | j <= k < |t| :: Blank(t[k])
    decreases |t|
  {
    if t != [] && Blank(t[|t| - 1]) {
      j := TrimRightTakes(t[..|t| - 1]);
      assert t[..|t| - 1][..j] == t[..j];
      forall k | j <= k < |t| ensures Blank(t[k]) {
        assert k < |t| - 1 ==> t[..|t| - 1][k] == t[k];
      }
    } else {
      j := |t|;
    }
  }
}
