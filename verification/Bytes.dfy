/** Bytes, optional values, and the concatenation of a list of pieces. */
module Bytes {

  type byte = x: int | 0 <= x < 256

  datatype Option<+T> = None | Some(value: T)

  lemma Regroup<T>(a: seq<T>, b: seq<T>, c: seq<T>)
    ensures (a + b) + c == a + (b + c)
  {
  }

  /** The pieces written one after the other. */
  function Join(pieces: seq<seq<byte>>): seq<byte> {
    if pieces == [] then [] else Join(pieces[..|pieces| - 1]) + pieces[|pieces| - 1]
  }

  lemma JoinAppend(pieces: seq<seq<byte>>, last: seq<byte>)
    ensures Join(pieces + [last]) == Join(pieces) + last
  {
    assert (pieces + [last])[..|pieces|] == pieces;
  }

  lemma {:induction false} JoinConcat(left: seq<seq<byte>>, right: seq<seq<byte>>)
    ensures Join(left + right) == Join(left) + Join(right)
    decreases |right|
  {
    if right == [] {
      assert left + right == left;
    } else {
      var most := right[..|right| - 1];
      assert left + right == (left + most) + [right[|right| - 1]];
      JoinAppend(left + most, right[|right| - 1]);
      JoinConcat(left, most);
    }
  }

  lemma JoinSplit(pieces: seq<seq<byte>>, k: nat)
    requires k <= |pieces|
    ensures Join(pieces) == Join(pieces[..k]) + Join(pieces[k..])
  {
    assert pieces == pieces[..k] + pieces[k..];
    JoinConcat(pieces[..k], pieces[k..]);
  }
}
