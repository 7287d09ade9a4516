/** Sequence numbers, either as the 32-bit counters the wire carries or as the
    unbounded counters they stand for. */
module SequenceNumbers {

  const MODULUS := 0x1_0000_0000
  const HALF := 0x8000_0000

  /** The arithmetic a protocol run uses. The protocol is written once and read
      in either arithmetic. */
  datatype Width = Unbounded | Wrapping

  function Reduce(w: Width, x: nat): nat {
    if w.Wrapping? then x % MODULUS else x
  }

  /** The difference `a - b`; on the wire it is the 32-bit difference read as signed. */
  function Distance(w: Width, a: nat, b: nat): int {
    if w.Unbounded? then a - b
    else
      var d := (a - b) % MODULUS;
      if d >= HALF then d - MODULUS else d
  }

  /** The wire comparison is exact precisely when the two counters are less than
      half the sequence space apart, however often each has wrapped. */
  lemma WireDistance(a: nat, b: nat)
    ensures Distance(Wrapping, Reduce(Wrapping, a), Reduce(Wrapping, b)) == a - b
       <==> -HALF <= a - b < HALF
  {
    assert (a % MODULUS - b % MODULUS) % MODULUS == (a - b) % MODULUS by {
      var i, j := a / MODULUS, b / MODULUS;
      assert a % MODULUS - b % MODULUS == (a - b) - MODULUS * (i - j);
      ModShift(a - b, i - j);
    }
  }

  lemma ModShift(x: int, k: int)
    ensures (x - MODULUS * k) % MODULUS == x % MODULUS
  {
    var q := x / MODULUS;
    assert x - MODULUS * k == MODULUS * (q - k) + x % MODULUS;
  }

  /** Two counters with the same 32-bit image and less than the whole space apart are equal. */
  lemma ReduceInjective(a: nat, b: nat)
    requires Reduce(Wrapping, a) == Reduce(Wrapping, b)
    requires -MODULUS < a - b < MODULUS
    ensures a == b
  {
  }
}
