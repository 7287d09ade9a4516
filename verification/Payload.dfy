/** Building and reading frame payloads field by field. */
module Payload {

  import opened Bytes
  import opened LittleEndian

  /** A field taken off the front of the input, or a refusal. */
  datatype Read<+T> = Got(value: T, rest: seq<byte>) | Bad {
    predicate IsFailure() { Bad? }
    function PropagateFailure<U>(): Read<U>
      requires Bad?
    {
      Bad
    }
    function Extract(): (T, seq<byte>)
      requires Got?
    {
      (value, rest)
    }
  }

  /** `rest` is what is left of `s` after taking something off its front. */
  predicate Tail(rest: seq<byte>, s: seq<byte>) { |rest| <= |s| && s[|s| - |rest|..] == rest }

  lemma TailTransitive(a: seq<byte>, b: seq<byte>, c: seq<byte>)
    requires Tail(a, b) && Tail(b, c)
    ensures Tail(a, c)
  {
    var drop := |c| - |b|;
    assert c[drop..][|b| - |a|..] == c[|c| - |a|..];
  }

  // -- Integers and byte strings --------------------------------------------

  function TakeInt(width: nat, s: seq<byte>): (r: Read<nat>)
    ensures r.Got? <==> |s| >= width
    ensures r.Got? ==> Tail(r.rest, s) && |r.rest| == |s| - width
  {
    if |s| < width then Bad else Got(Load(s[..width]), s[width..])
  }

  lemma IntRoundTrip(value: nat, width: nat, rest: seq<byte>)
    requires value < Range(width)
    ensures TakeInt(width, Store(value, width) + rest) == Got(value, rest)
  {
    var s := Store(value, width) + rest;
    assert s[..width] == Store(value, width) && s[width..] == rest;
    LoadStore(value, width);
  }

  function PutBool(b: bool): seq<byte> { [if b then 1 else 0] }

  function TakeBool(s: seq<byte>): (r: Read<bool>)
    ensures r.Got? ==> Tail(r.rest, s)
  {
    if s == [] then Bad else Got(s[0] != 0, s[1..])
  }

  function TakeRaw(n: nat, s: seq<byte>): (r: Read<seq<byte>>)
    ensures r.Got? <==> |s| >= n
    ensures r.Got? ==> Tail(r.rest, s) && |r.value| == n && r.value + r.rest == s
  {
    if |s| < n then Bad else Got(s[..n], s[n..])
  }

  /** A length in 32 bits, then the bytes. */
  function PutBytes(b: seq<byte>): seq<byte> { Store(|b|, 4) + b }

  function TakeBytes(s: seq<byte>): (r: Read<seq<byte>>)
    ensures r.Got? ==> Tail(r.rest, s)
  {
    var (length, body) :- TakeInt(4, s);
    TakeRaw(length, body)
  }

  /** Refuses any other declared length than `n`. */
  function TakeFixed(n: nat, s: seq<byte>): (r: Read<seq<byte>>)
    ensures r.Got? ==> Tail(r.rest, s) && |r.value| == n
  {
    var (length, body) :- TakeInt(4, s);
    if length != n then Bad else TakeRaw(n, body)
  }

  lemma BytesRoundTrip(b: seq<byte>, rest: seq<byte>)
    requires |b| < U32
    ensures TakeBytes(PutBytes(b) + rest) == Got(b, rest)
    ensures TakeFixed(|b|, PutBytes(b) + rest) == Got(b, rest)
  {
    Widths();
    IntRoundTrip(|b|, 4, b + rest);
    assert PutBytes(b) + rest == Store(|b|, 4) + (b + rest);
  }

  // -- Addresses ------------------------------------------------------------

  datatype Endpoint = Unset | V4(port: nat, address: seq<byte>) | V6(port: nat, address: seq<byte>)

  predicate IsEndpoint(e: Endpoint) {
    match e
    case Unset => true
    case V4(port, address) => port < U16 && |address| == 4
    case V6(port, address) => port < U16 && |address| == 16
  }

  const MAPPED_PREFIX: seq<byte> := [0, 0, 0, 0, 0, 0, 0, 0, 0, 0, 255, 255]

  /** An IPv4 address in IPv6 clothing is unwrapped. */
  function Normal(e: Endpoint): (n: Endpoint)
    ensures IsEndpoint(e) ==> IsEndpoint(n)
  {
    if e.V6? && |e.address| == 16 && e.address[..12] == MAPPED_PREFIX then V4(e.port, e.address[12..]) else e
  }

  function PutEndpoint(e: Endpoint): (s: seq<byte>)
    ensures |s| >= 3
  {
    match e
    case Unset => [0] + Store(0, 2)
    case V4(port, address) => [4] + Store(port, 2) + address
    case V6(port, address) => [6] + Store(port, 2) + address
  }

  function TakeEndpoint(s: seq<byte>): (r: Read<Endpoint>)
    ensures r.Got? ==> Tail(r.rest, s)
  {
    var (family, s1) :- TakeInt(1, s);
    var (port, s2) :- TakeInt(2, s1);
    if family == 4 then
      var (address, s3) :- TakeRaw(4, s2);
      Got(V4(port, address), s3)
    else if family == 6 then
      var (address, s3) :- TakeRaw(16, s2);
      Got(Normal(V6(port, address)), s3)
    else if family == 0 then Got(Unset, s2)
    else Bad
  }

  lemma EndpointParts(family: byte, port: nat, address: seq<byte>, rest: seq<byte>)
    requires port < U16
    ensures var s := [family] + Store(port, 2) + address + rest;
            && TakeInt(1, s) == Got(family as nat, Store(port, 2) + address + rest)
            && TakeInt(2, Store(port, 2) + address + rest) == Got(port, address + rest)
            && TakeRaw(|address|, address + rest) == Got(address, rest)
  {
    var s := [family] + Store(port, 2) + address + rest;
    assert s[..1] == [family] && s[1..] == Store(port, 2) + address + rest;
    assert [family][1..] == [];
    assert Load([family]) == family as nat + 256 * Load([family][1..]);
    Widths();
    IntRoundTrip(port, 2, address + rest);
    assert Store(port, 2) + address + rest == Store(port, 2) + (address + rest);
    assert (address + rest)[..|address|] == address && (address + rest)[|address|..] == rest;
  }

  lemma EndpointFrom(s: seq<byte>, s1: seq<byte>, s2: seq<byte>, family: nat, port: nat, address: seq<byte>, rest: seq<byte>)
    requires TakeInt(1, s) == Got(family, s1) && TakeInt(2, s1) == Got(port, s2) && TakeRaw(|address|, s2) == Got(address, rest)
    ensures family == 4 && |address| == 4 ==> TakeEndpoint(s) == Got(V4(port, address), rest)
    ensures family == 6 && |address| == 16 ==> TakeEndpoint(s) == Got(Normal(V6(port, address)), rest)
    ensures family == 0 ==> TakeEndpoint(s) == Got(Unset, s2)
  {
    hide TakeInt, TakeRaw, Normal;
  }

  /** An endpoint comes back as its plain form. */
  lemma EndpointRoundTrip(e: Endpoint, rest: seq<byte>)
    requires IsEndpoint(e)
    ensures TakeEndpoint(PutEndpoint(e) + rest) == Got(Normal(e), rest)
  {
    hide Store, TakeInt, TakeRaw, TakeEndpoint;
    var family: byte := if e.Unset? then 0 else if e.V4? then 4 else 6;
    var port, address := if e.Unset? then 0 else e.port, if e.Unset? then [] else e.address;
    EndpointParts(family, port, address, rest);
    var head := [family] + Store(port, 2);
    EndpointFrom(head + address + rest, Store(port, 2) + address + rest, address + rest, family, port, address, rest);
    if e.Unset? {
      assert head + [] == head && [] + rest == rest;
    }
  }

  function PutAll(es: seq<Endpoint>): (s: seq<byte>)
    ensures |s| >= 3 * |es|
  {
    if es == [] then [] else PutEndpoint(es[0]) + PutAll(es[1..])
  }

  /** A count in 16 bits, then the endpoints. */
  function PutEndpoints(es: seq<Endpoint>): seq<byte> { Store(|es|, 2) + PutAll(es) }

  function TakeMany(count: nat, s: seq<byte>): (r: Read<seq<Endpoint>>)
    ensures r.Got? ==> Tail(r.rest, s) && |r.value| == count
  {
    if count == 0 then Got([], s)
    else
      var (first, s1) :- TakeEndpoint(s);
      var (others, s2) :- TakeMany(count - 1, s1);
      TailTransitive(s2, s1, s);
      Got([first] + others, s2)
  }

  /** A count that cannot fit in what is left is refused before anything is read. */
  function TakeEndpoints(s: seq<byte>): (r: Read<seq<Endpoint>>)
    ensures r.Got? ==> Tail(r.rest, s)
  {
    var (count, body) :- TakeInt(2, s);
    if count * 3 > |body| then Bad else TakeMany(count, body)
  }

  function NormalAll(es: seq<Endpoint>): seq<Endpoint> {
    if es == [] then [] else [Normal(es[0])] + NormalAll(es[1..])
  }

  lemma {:induction false} ManyRoundTrip(es: seq<Endpoint>, rest: seq<byte>)
    requires forall e <- es :: IsEndpoint(e)
    ensures TakeMany(|es|, PutAll(es) + rest) == Got(NormalAll(es), rest)
  {
    if es == [] {
      assert [] + rest == rest;
    } else {
      ManyRoundTrip(es[1..], rest);
      EndpointRoundTrip(es[0], PutAll(es[1..]) + rest);
      hide PutEndpoint, TakeEndpoint, Normal, IsEndpoint, Tail;
      Regroup(PutEndpoint(es[0]), PutAll(es[1..]), rest);
    }
  }

  lemma PutEndpointsIs(es: seq<Endpoint>)
    ensures PutEndpoints(es) == Store(|es|, 2) + PutAll(es)
  {
  }

  lemma CountedRoundTrip(es: seq<Endpoint>, body: seq<byte>, back: seq<Endpoint>, rest: seq<byte>)
    requires |es| < Range(2) && |body| >= 3 * |es| && TakeMany(|es|, body) == Got(back, rest)
    ensures TakeEndpoints(Store(|es|, 2) + body) == Got(back, rest)
  {
    hide Range, Store, Load, TakeInt, TakeMany, Tail;
    IntRoundTrip(|es|, 2, body);
  }

  /** An endpoint list comes back with every mapped address unwrapped. */
  lemma EndpointsRoundTrip(es: seq<Endpoint>, rest: seq<byte>)
    requires |es| < U16 && forall e <- es :: IsEndpoint(e)
    ensures TakeEndpoints(PutEndpoints(es) + rest) == Got(NormalAll(es), rest)
  {
    assert |es| < Range(2) by {
      Widths();
    }
    ManyRoundTrip(es, rest);
    hide *;
    Regroup(Store(|es|, 2), PutAll(es), rest);
    CountedRoundTrip(es, PutAll(es) + rest, NormalAll(es), rest);
    PutEndpointsIs(es);
  }

  // -- The two cursors ------------------------------------------------------

  class PayloadWriter {
    var buffer: seq<byte>

    constructor ()
      ensures buffer == []
    {
      buffer := [];
    }

    method PutInt(value: nat, width: nat)
      modifies this
      ensures buffer == old(buffer) + Store(value, width)
    {
      var bytes := new byte[width](_ => 0);
      StoreInto(bytes, 0, value, width);
      assert bytes[..] == bytes[0..0 + width];
      buffer := buffer + bytes[..];
    }

    method PutByteString(b: seq<byte>)
      modifies this
      ensures buffer == old(buffer) + PutBytes(b)
    {
      PutInt(|b|, 4);
      buffer := buffer + b;
    }

    method PutOneEndpoint(e: Endpoint)
      modifies this
      ensures buffer == old(buffer) + PutEndpoint(e)
    {
      match e {
        case Unset =>
          buffer := buffer + [0];
          PutInt(0, 2);
        case V4(port, address) =>
          buffer := buffer + [4];
          PutInt(port, 2);
          buffer := buffer + address;
        case V6(port, address) =>
          buffer := buffer + [6];
          PutInt(port, 2);
          buffer := buffer + address;
      }
    }

    method PutEndpointList(es: seq<Endpoint>)
      modifies this
      ensures buffer == old(buffer) + PutEndpoints(es)
    {
      hide Store, PutEndpoint;
      PutInt(|es|, 2);
      var i := 0;
      ghost var start := buffer;
      assert es[0..] == es;
      while i < |es|
        invariant i <= |es| && buffer + PutAll(es[i..]) == start + PutAll(es)
      {
        ghost var before := buffer;
        PutOneEndpoint(es[i]);
        assert es[i..][0] == es[i] && es[i..][1..] == es[i + 1..];
        assert before + (PutEndpoint(es[i]) + PutAll(es[i + 1..])) == buffer + PutAll(es[i + 1..]);
        i := i + 1;
      }
      assert es[i..] == [] && buffer + [] == buffer;
      assert old(buffer) + (Store(|es|, 2) + PutAll(es)) == start + PutAll(es);
    }
  }

  /** Every take either moves the offset to just after its field, or leaves it within the data. */
  class PayloadReader {
    const data: seq<byte>
    var offset: nat

    constructor (bytes: seq<byte>)
      ensures data == bytes && offset == 0
    {
      data, offset := bytes, 0;
    }

    method TryInt(width: nat) returns (r: Option<nat>)
      requires offset <= |data|
      modifies this`offset
      ensures offset <= |data|
      ensures var spec := TakeInt(width, data[old(offset)..]);
              if spec.Bad? then r == None else r == Some(spec.value) && data[offset..] == spec.rest
    {
      if |data| - offset < width {
        return None;
      }
      assert data[offset..][..width] == data[offset..offset + width];
      assert data[offset..][width..] == data[offset + width..];
      var value := LoadFrom(data[offset..offset + width]);
      offset := offset + width;
      r := Some(value);
    }

    method TryRaw(n: nat) returns (r: Option<seq<byte>>)
      requires offset <= |data|
      modifies this`offset
      ensures offset <= |data|
      ensures var spec := TakeRaw(n, data[old(offset)..]);
              if spec.Bad? then r == None else r == Some(spec.value) && data[offset..] == spec.rest
    {
      if |data| - offset < n {
        return None;
      }
      assert data[offset..][..n] == data[offset..offset + n];
      assert data[offset..][n..] == data[offset + n..];
      r := Some(data[offset..offset + n]);
      offset := offset + n;
    }

    method TryBytes() returns (r: Option<seq<byte>>)
      requires offset <= |data|
      modifies this`offset
      ensures offset <= |data|
      ensures var spec := TakeBytes(data[old(offset)..]);
              if spec.Bad? then r == None else r == Some(spec.value) && data[offset..] == spec.rest
    {
      hide TakeInt, TakeRaw;
      var length := TryInt(4);
      if length.None? {
        return None;
      }
      r := TryRaw(length.value);
    }

    method TryFixed(n: nat) returns (r: Option<seq<byte>>)
      requires offset <= |data|
      modifies this`offset
      ensures offset <= |data|
      ensures var spec := TakeFixed(n, data[old(offset)..]);
              if spec.Bad? then r == None else r == Some(spec.value) && data[offset..] == spec.rest
    {
      hide TakeInt, TakeRaw;
      var length := TryInt(4);
      if length.None? || length.value != n {
        return None;
      }
      r := TryRaw(n);
    }

    method TryBool() returns (r: Option<bool>)
      requires offset <= |data|
      modifies this`offset
      ensures offset <= |data|
      ensures var spec := TakeBool(data[old(offset)..]);
              if spec.Bad? then r == None else r == Some(spec.value) && data[offset..] == spec.rest
    {
      if offset == |data| {
        return None;
      }
      assert data[offset..][1..] == data[offset + 1..];
      r := Some(data[offset] != 0);
      offset := offset + 1;
    }

    method TryEndpoint() returns (r: Option<Endpoint>)
      requires offset <= |data|
      modifies this`offset
      ensures offset <= |data|
      ensures var spec := TakeEndpoint(data[old(offset)..]);
              if spec.Bad? then r == None else r == Some(spec.value) && data[offset..] == spec.rest
    {
      hide TakeInt, TakeRaw, Normal;
      var family := TryInt(1);
      if family.None? {
        return None;
      }
      var port := TryInt(2);
      if port.None? {
        return None;
      }
      if family.value == 4 {
        var address := TryRaw(4);
        return if address.None? then None else Some(V4(port.value, address.value));
      }
      if family.value == 6 {
        var address := TryRaw(16);
        return if address.None? then None else Some(Normal(V6(port.value, address.value)));
      }
      r := if family.value == 0 then Some(Unset) else None;
    }

    method TryEndpoints() returns (r: Option<seq<Endpoint>>)
      requires offset <= |data|
      modifies this`offset
      ensures offset <= |data|
      ensures var spec := TakeEndpoints(data[old(offset)..]);
              if spec.Bad? then r == None else r == Some(spec.value) && data[offset..] == spec.rest
    {
      hide TakeInt, TakeEndpoint, Tail;
      var count := TryInt(2);
      if count.None? || count.value * 3 > |data| - offset {
        return None;
      }
      var es := [];
      ghost var goal := TakeMany(count.value, data[offset..]);
      assert goal.Got? ==> [] + goal.value == goal.value;
      while |es| < count.value
        invariant |es| <= count.value && offset <= |data|
        invariant var rest := TakeMany(count.value - |es|, data[offset..]);
                  if rest.Bad? then goal.Bad? else goal == Got(es + rest.value, rest.rest)
        decreases count.value - |es|
      {
        ghost var at := offset;
        var e := TryEndpoint();
        if e.None? {
          return None;
        }
        ghost var rest := TakeMany(count.value - |es| - 1, data[offset..]);
        assert rest.Got? ==> es + ([e.value] + rest.value) == (es + [e.value]) + rest.value;
        es := es + [e.value];
      }
      assert es + [] == es;
      r := Some(es);
    }
  }
}
