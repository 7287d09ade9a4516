/** Fixed-width little-endian integers. */
module LittleEndian {
  import opened Bytes

  const U16: nat := 0x1_0000
  const U32: nat := 0x1_0000_0000
  const U64: nat := 0x1_0000_0000_0000_0000

  function Range(width: nat): nat
    ensures Range(width) > 0
  {
    if width == 0 then 1 else 256 * Range(width - 1)
  }

  function Store(value: nat, width: nat): (bytes: seq<byte>)
    ensures |bytes| == width
  {
    if width == 0 then [] else [value % 256] + Store(value / 256, width - 1)
  }

  function Load(bytes: seq<byte>): nat {
    if bytes == [] then 0 else bytes[0] + 256 * Load(bytes[1..])
  }

  /** Every value that fits survives the trip. */
  lemma {:induction false} LoadStore(value: nat, width: nat)
    requires value < Range(width)
    ensures Load(Store(value, width)) == value
  {
    if width > 0 {
      LoadStore(value / 256, width - 1);
      assert Store(value, width)[1..] == Store(value / 256, width - 1);
    }
  }

  /** Every byte string is the encoding of the value it loads to. */
  lemma {:induction false} StoreLoad(bytes: seq<byte>)
    ensures Load(bytes) < Range(|bytes|)
    ensures Store(Load(bytes), |bytes|) == bytes
  {
    if bytes != [] {
      StoreLoad(bytes[1..]);
      assert Load(bytes) / 256 == Load(bytes[1..]) && Load(bytes) % 256 == bytes[0];
      assert bytes == [bytes[0]] + bytes[1..];
    }
  }

  lemma Widths()
    ensures Range(1) == 0x100 && Range(2) == 0x1_0000 && Range(4) == 0x1_0000_0000
    ensures Range(8) == 0x1_0000_0000_0000_0000
  {
    assert Range(3) == 0x100_0000;
    assert Range(5) == 0x100_0000_0000;
    assert Range(6) == 0x1_0000_0000_0000;
    assert Range(7) == 0x100_0000_0000_0000;
  }

  function PowerOfTwo(n: nat): nat { if n == 0 then 1 else 2 * PowerOfTwo(n - 1) }

  lemma {:induction false} PowerOfRange(width: nat)
    ensures PowerOfTwo(8 * width) == Range(width)
  {
    if width > 0 {
      PowerOfRange(width - 1);
      var n := 8 * width - 8;
      assert PowerOfTwo(n + 1) == 2 * PowerOfTwo(n);
      assert PowerOfTwo(n + 2) == 4 * PowerOfTwo(n);
      assert PowerOfTwo(n + 3) == 8 * PowerOfTwo(n);
      assert PowerOfTwo(n + 4) == 16 * PowerOfTwo(n);
      assert PowerOfTwo(n + 5) == 32 * PowerOfTwo(n);
      assert PowerOfTwo(n + 6) == 64 * PowerOfTwo(n);
      assert PowerOfTwo(n + 7) == 128 * PowerOfTwo(n);
    }
  }

  lemma StoreInjective(a: nat, b: nat, width: nat)
    requires a < Range(width) && b < Range(width) && Store(a, width) == Store(b, width)
    ensures a == b
  {
    LoadStore(a, width);
    LoadStore(b, width);
  }

  /** The store loop: byte `i` is the value shifted right by `8 * i` bits. */
  method StoreInto(out: array<byte>, at: nat, value: nat, width: nat)
    requires at + width <= out.Length
    modifies out
    ensures out[at..at + width] == Store(value, width)
    ensures out[..at] == old(out[..at]) && out[at + width..] == old(out[at + width..])
  {
    var rest := value;
    var i := 0;
    ghost var whole := Store(value, width);
    while i < width
      invariant i <= width && Store(rest, width - i) == whole[i..]
      invariant forall j :: 0 <= j < i ==> out[at + j] == whole[j]
      invariant forall j :: 0 <= j < out.Length && !(at <= j < at + i) ==> out[j] == old(out[j])
    {
      assert whole[i] == rest % 256 && whole[i + 1..] == whole[i..][1..];
      out[at + i] := rest % 256;
      rest := rest / 256;
      i := i + 1;
    }
    hide Store;
    assert forall j :: at <= j < at + width ==> out[j] == whole[j - at];
  }

  /** The load loop, from the most significant byte down. */
  method LoadFrom(bytes: seq<byte>) returns (value: nat)
    ensures value == Load(bytes)
  {
    value := 0;
    var i := |bytes|;
    while i > 0
      invariant 0 <= i <= |bytes|
      invariant value == Load(bytes[i..])
    {
      i := i - 1;
      assert bytes[i..][1..] == bytes[i + 1..];
      value := bytes[i] + 256 * value;
    }
    assert bytes[0..] == bytes;
  }
}
