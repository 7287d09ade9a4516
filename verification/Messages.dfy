/**
 * The messages with lists or optional fields. Each is written field after field
 * in front of whatever follows, and read back field by field with the checks the
 * reader makes on the way.
 */
module Messages {

  import opened Bytes
  import opened LittleEndian
  import opened Payload
  import opened Names

  const KEY_SIZE := 32
  const DIGEST_SIZE := 32
  const SIGNATURE_SIZE := 64
  const MAX_MANIFEST_ENTRIES := 200_000
  const MAX_CHUNK_SIZE := 2 * 1024 * 1024 - 24 - 16
  const SERVER_RELAY := 3

  lemma IntBack(value: nat, width: nat, rest: seq<byte>)
    requires width in {1, 2, 4, 8}
    requires value < if width == 1 then 256 else if width == 2 then U16 else if width == 4 then U32 else U64
    ensures TakeInt(width, Store(value, width) + rest) == Got(value, rest)
  {
    Widths();
    hide Range, Store, Load;
    IntRoundTrip(value, width, rest);
  }

  lemma IntInRange(width: nat, s: seq<byte>)
    requires width in {1, 2, 4, 8}
    ensures TakeInt(width, s).Got? ==>
              TakeInt(width, s).value < if width == 1 then 256 else if width == 2 then U16 else if width == 4 then U32 else U64
  {
    Widths();
    hide Range, Store, Load;
    if |s| >= width {
      StoreLoad(s[..width]);
    }
  }

  lemma BytesInRange(s: seq<byte>)
    ensures TakeBytes(s).Got? ==> |TakeBytes(s).value| < U32
  {
    IntInRange(4, s);
  }

  /** Unwrapping an address neither makes nor spoils an endpoint. */
  lemma NormalLegal(e: Endpoint)
    ensures IsEndpoint(Normal(e)) <==> IsEndpoint(e)
  {
  }

  lemma {:induction false} NormalAllAt(es: seq<Endpoint>)
    ensures |NormalAll(es)| == |es|
    ensures forall i :: 0 <= i < |es| ==> NormalAll(es)[i] == Normal(es[i])
  {
    if es != [] {
      hide Normal;
      NormalAllAt(es[1..]);
    }
  }

  lemma NormalAllLegal(es: seq<Endpoint>)
    requires forall e <- NormalAll(es) :: IsEndpoint(e)
    ensures |NormalAll(es)| == |es| && forall e <- es :: IsEndpoint(e)
  {
    hide Normal, IsEndpoint, NormalAll;
    NormalAllAt(es);
    forall i | 0 <= i < |es| ensures IsEndpoint(es[i]) {
      assert NormalAll(es)[i] in NormalAll(es);
      NormalLegal(es[i]);
    }
  }

  /** Whatever is read as an endpoint is one. */
  lemma EndpointLegal(s: seq<byte>)
    ensures TakeEndpoint(s).Got? ==> IsEndpoint(TakeEndpoint(s).value)
  {
    hide Load, Tail;
    var family := TakeInt(1, s);
    if family.Got? {
      IntInRange(2, family.rest);
    }
    hide TakeInt;
  }

  predicate AllEndpoints(es: seq<Endpoint>) { forall i :: 0 <= i < |es| ==> IsEndpoint(es[i]) }

  lemma AllEndpointsNext(e: Endpoint, es: seq<Endpoint>)
    requires IsEndpoint(e) && AllEndpoints(es)
    ensures AllEndpoints([e] + es)
  {
    hide IsEndpoint;
  }

  lemma TakeManyNext(count: nat, s: seq<byte>)
    requires TakeMany(count, s).Got?
    ensures if count == 0 then AllEndpoints(TakeMany(count, s).value)
            else
              var first := TakeEndpoint(s);
              && first.Got? && TakeMany(count - 1, first.rest).Got?
              && TakeMany(count, s).value == [first.value] + TakeMany(count - 1, first.rest).value
  {
    hide TakeEndpoint, Tail;
  }

  lemma {:induction false} ManyLegal(count: nat, s: seq<byte>)
    requires TakeMany(count, s).Got?
    ensures AllEndpoints(TakeMany(count, s).value)
  {
    hide TakeEndpoint, TakeMany, IsEndpoint, Tail, AllEndpoints;
    TakeManyNext(count, s);
    if count > 0 {
      EndpointLegal(s);
      var first := TakeEndpoint(s);
      ManyLegal(count - 1, first.rest);
      AllEndpointsNext(first.value, TakeMany(count - 1, first.rest).value);
    }
  }

  lemma EndpointsLegal(s: seq<byte>)
    ensures TakeEndpoints(s).Got? ==>
              |TakeEndpoints(s).value| < U16 && forall e <- TakeEndpoints(s).value :: IsEndpoint(e)
  {
    hide TakeMany, IsEndpoint, Load, Tail;
    IntInRange(2, s);
    hide TakeInt;
    var count := TakeInt(2, s);
    if count.Got? && TakeMany(count.value, count.rest).Got? {
      ManyLegal(count.value, count.rest);
    }
  }

  lemma BoolBack(b: bool, rest: seq<byte>)
    ensures TakeBool(PutBool(b) + rest) == Got(b, rest)
  {
    assert (PutBool(b) + rest)[1..] == rest;
  }

  lemma UsernameShort(u: seq<byte>)
    ensures ValidUsername(u) ==> 0 < |u| < U32
  {
  }

  lemma PathShort(path: seq<byte>)
    ensures SafePath(path) ==> 0 < |path| < U32
  {
  }

  // -- TransferOffer --------------------------------------------------------

  datatype Entry = Entry(path: seq<byte>, size: nat, mode: nat, digest: seq<byte>)

  datatype Offer = Offer(sender: seq<byte>, display: seq<byte>, encrypt: bool, algorithm: nat, digests: bool,
                         chunkSize: nat, total: nat, entries: seq<Entry>)

  function PutEntry(e: Entry, rest: seq<byte>): seq<byte> {
    PutBytes(e.path) + (Store(e.size, 8) + (Store(e.mode, 4) + (PutBytes(e.digest) + rest)))
  }

  function PutEntries(entries: seq<Entry>, rest: seq<byte>): seq<byte> {
    if entries == [] then rest else PutEntry(entries[0], PutEntries(entries[1..], rest))
  }

  function PutOffer(o: Offer, rest: seq<byte>): seq<byte> {
    PutBytes(o.sender) + (PutBytes(o.display) + (PutBool(o.encrypt) + (Store(o.algorithm, 1) + (PutBool(o.digests)
    + (Store(o.chunkSize, 4) + (Store(o.total, 8) + (Store(|o.entries|, 4) + PutEntries(o.entries, rest))))))))
  }

  /** Only permission bits survive. */
  function TakeEntry(s: seq<byte>): Read<Entry> {
    var (path, s1) :- TakeBytes(s);
    if !SafePath(path) then Bad
    else
      var (size, s2) :- TakeInt(8, s1);
      var (mode, s3) :- TakeInt(4, s2);
      var (digest, s4) :- TakeFixed(DIGEST_SIZE, s3);
      Got(Entry(path, size, mode % 0x200, digest), s4)
  }

  function TakeEntries(count: nat, s: seq<byte>): Read<seq<Entry>> {
    if count == 0 then Got([], s)
    else
      var (first, s1) :- TakeEntry(s);
      var (others, s2) :- TakeEntries(count - 1, s1);
      Got([first] + others, s2)
  }

  /** The sum the reader keeps, in 64 bits. */
  function Summed(entries: seq<Entry>): nat {
    if entries == [] then 0 else (Summed(entries[..|entries| - 1]) + entries[|entries| - 1].size) % U64
  }

  function TakeOfferTail(sender: seq<byte>, display: seq<byte>, encrypt: bool, algorithm: nat, digests: bool, s: seq<byte>): Read<Offer> {
    var (chunkSize, s1) :- TakeInt(4, s);
    if chunkSize == 0 || chunkSize > MAX_CHUNK_SIZE then Bad
    else
      var (total, s2) :- TakeInt(8, s1);
      var (count, s3) :- TakeInt(4, s2);
      if count > MAX_MANIFEST_ENTRIES then Bad
      else
        var (entries, s4) :- TakeEntries(count, s3);
        if Summed(entries) != total then Bad
        else Got(Offer(sender, display, encrypt, algorithm, digests, chunkSize, total, entries), s4)
  }

  function TakeOffer(s: seq<byte>): Read<Offer> {
    var (sender, s1) :- TakeBytes(s);
    if !ValidUsername(sender) then Bad
    else
      var (display, s2) :- TakeBytes(s1);
      var (encrypt, s3) :- TakeBool(s2);
      var (algorithm, s4) :- TakeInt(1, s3);
      if algorithm != 1 && algorithm != 2 then Bad
      else
        var (digests, s5) :- TakeBool(s4);
        TakeOfferTail(sender, display, encrypt, algorithm, digests, s5)
  }

  predicate LegalEntry(e: Entry) {
    SafePath(e.path) && e.size < U64 && e.mode < 0x200 && |e.digest| == DIGEST_SIZE
  }

  predicate LegalOffer(o: Offer) {
    && ValidUsername(o.sender) && |o.display| < U32
    && o.algorithm in {1, 2} && 0 < o.chunkSize <= MAX_CHUNK_SIZE && o.total < U64
    && |o.entries| <= MAX_MANIFEST_ENTRIES
    && (forall e <- o.entries :: LegalEntry(e))
    && Summed(o.entries) == o.total
  }

  lemma EntryRoundTrip(e: Entry, rest: seq<byte>)
    requires LegalEntry(e)
    ensures TakeEntry(PutEntry(e, rest)) == Got(e, rest)
  {
    hide SafePath, PutBytes, Store, Load, Range, TakeInt, TakeBytes, TakeFixed, Tail;
    PathShort(e.path);
    var s3 := PutBytes(e.digest) + rest;
    var s2 := Store(e.mode, 4) + s3;
    var s1 := Store(e.size, 8) + s2;
    BytesRoundTrip(e.path, s1);
    IntBack(e.size, 8, s2);
    IntBack(e.mode, 4, s3);
    BytesRoundTrip(e.digest, rest);
  }

  lemma {:induction false} EntriesRoundTrip(entries: seq<Entry>, rest: seq<byte>)
    requires forall e <- entries :: LegalEntry(e)
    ensures TakeEntries(|entries|, PutEntries(entries, rest)) == Got(entries, rest)
  {
    hide LegalEntry, PutEntry, TakeEntry;
    if entries != [] {
      EntryRoundTrip(entries[0], PutEntries(entries[1..], rest));
      EntriesRoundTrip(entries[1..], rest);
      assert [entries[0]] + entries[1..] == entries;
    }
  }

  lemma OfferTailRoundTrip(o: Offer, rest: seq<byte>)
    requires LegalOffer(o)
    ensures TakeOfferTail(o.sender, o.display, o.encrypt, o.algorithm, o.digests,
                          Store(o.chunkSize, 4) + (Store(o.total, 8) + (Store(|o.entries|, 4) + PutEntries(o.entries, rest)))) ==
            Got(o, rest)
  {
    hide Store, Load, Range, TakeInt, PutEntries, TakeEntries, LegalEntry, Summed, ValidUsername, Tail;
    var s3 := PutEntries(o.entries, rest);
    var s2 := Store(|o.entries|, 4) + s3;
    var s1 := Store(o.total, 8) + s2;
    IntBack(o.chunkSize, 4, s1);
    IntBack(o.total, 8, s2);
    IntBack(|o.entries|, 4, s3);
    EntriesRoundTrip(o.entries, rest);
  }

  lemma OfferRoundTrip(o: Offer, rest: seq<byte>)
    requires LegalOffer(o)
    ensures TakeOffer(PutOffer(o, rest)) == Got(o, rest)
  {
    hide Store, Load, Range, PutBytes, PutBool, TakeInt, TakeBytes, TakeBool, ValidUsername, Tail;
    hide PutEntries, TakeOfferTail, LegalEntry, Summed;
    assert |o.sender| < U32 by {
      UsernameShort(o.sender);
    }
    OfferTailRoundTrip(o, rest);
    var s5 := Store(o.chunkSize, 4) + (Store(o.total, 8) + (Store(|o.entries|, 4) + PutEntries(o.entries, rest)));
    var s4 := PutBool(o.digests) + s5;
    var s3 := Store(o.algorithm, 1) + s4;
    var s2 := PutBool(o.encrypt) + s3;
    var s1 := PutBytes(o.display) + s2;
    BytesRoundTrip(o.sender, s1);
    BytesRoundTrip(o.display, s2);
    BoolBack(o.encrypt, s3);
    IntBack(o.algorithm, 1, s4);
    BoolBack(o.digests, s5);
  }

  lemma EntryLegal(s: seq<byte>)
    ensures TakeEntry(s).Got? ==> LegalEntry(TakeEntry(s).value)
  {
    hide SafePath, TakeInt, TakeBytes, TakeFixed;
    if TakeEntry(s).Got? {
      var s1 := TakeBytes(s).rest;
      IntInRange(8, s1);
    }
  }

  lemma {:induction false} EntriesLegal(count: nat, s: seq<byte>)
    ensures TakeEntries(count, s).Got? ==>
              |TakeEntries(count, s).value| == count && forall e <- TakeEntries(count, s).value :: LegalEntry(e)
  {
    hide LegalEntry, TakeEntry;
    if count > 0 && TakeEntry(s).Got? {
      EntryLegal(s);
      EntriesLegal(count - 1, TakeEntry(s).rest);
    }
  }

  lemma OfferTailLegal(sender: seq<byte>, display: seq<byte>, encrypt: bool, algorithm: nat, digests: bool, s: seq<byte>)
    ensures var r := TakeOfferTail(sender, display, encrypt, algorithm, digests, s);
            r.Got? && ValidUsername(sender) && |display| < U32 && algorithm in {1, 2} ==> LegalOffer(r.value)
  {
    hide LegalEntry, TakeInt, TakeEntries, ValidUsername;
    var r := TakeOfferTail(sender, display, encrypt, algorithm, digests, s);
    if r.Got? {
      var s1 := TakeInt(4, s).rest;
      IntInRange(8, s1);
      var s2 := TakeInt(8, s1).rest;
      EntriesLegal(TakeInt(4, s2).value, TakeInt(4, s2).rest);
    }
  }

  /** Whatever an offer is read from, it is legal. */
  lemma ReadOfferLegal(s: seq<byte>)
    ensures TakeOffer(s).Got? ==> LegalOffer(TakeOffer(s).value)
  {
    hide LegalOffer, TakeInt, TakeBytes, TakeBool, TakeOfferTail, ValidUsername, Tail;
    if TakeOffer(s).Got? {
      var sender := TakeBytes(s);
      BytesInRange(sender.rest);
      var display := TakeBytes(sender.rest);
      var encrypt := TakeBool(display.rest);
      var algorithm := TakeInt(1, encrypt.rest);
      var digests := TakeBool(algorithm.rest);
      OfferTailLegal(sender.value, display.value, encrypt.value, algorithm.value, digests.value, digests.rest);
    }
  }

  /** An offer survives the trip exactly when it is legal. */
  lemma OfferRoundTripIff(o: Offer, rest: seq<byte>)
    ensures TakeOffer(PutOffer(o, rest)) == Got(o, rest) <==> LegalOffer(o)
  {
    hide TakeOffer, PutOffer, LegalOffer;
    if LegalOffer(o) {
      OfferRoundTrip(o, rest);
    }
    ReadOfferLegal(PutOffer(o, rest));
  }

  // -- Offers through the cursors -------------------------------------------

  method EncodeEntries(writer: PayloadWriter, entries: seq<Entry>)
    modifies writer
    ensures writer.buffer == old(writer.buffer) + PutEntries(entries, [])
  {
    hide PutBytes, Store;
    var i := 0;
    ghost var start := writer.buffer;
    assert entries[0..] == entries;
    while i < |entries|
      invariant i <= |entries| && writer.buffer + PutEntries(entries[i..], []) == start + PutEntries(entries, [])
    {
      var e := entries[i];
      ghost var rest := PutEntries(entries[i + 1..], []);
      assert entries[i..][0] == e && entries[i..][1..] == entries[i + 1..];
      EncodeEntry(writer, e, rest);
      i := i + 1;
    }
    assert entries[i..] == [] && writer.buffer + [] == writer.buffer;
  }

  method EncodeEntry(writer: PayloadWriter, e: Entry, ghost rest: seq<byte>)
    modifies writer
    ensures writer.buffer + rest == old(writer.buffer) + PutEntry(e, rest)
  {
    hide PutBytes, Store;
    ghost var w := writer.buffer;
    writer.PutByteString(e.path);
    writer.PutInt(e.size, 8);
    writer.PutInt(e.mode, 4);
    writer.PutByteString(e.digest);
    Spread(w, PutBytes(e.path), Store(e.size, 8), Store(e.mode, 4), PutBytes(e.digest), rest);
  }

  lemma Spread(w: seq<byte>, a: seq<byte>, b: seq<byte>, c: seq<byte>, d: seq<byte>, rest: seq<byte>)
    ensures w + a + b + c + d + rest == w + (a + (b + (c + (d + rest))))
  {
  }

  method EncodeOffer(o: Offer) returns (bytes: seq<byte>)
    ensures bytes == PutOffer(o, [])
  {
    hide PutBytes, Store, PutEntries, PutBool;
    var writer := new PayloadWriter();
    writer.PutByteString(o.sender);
    writer.PutByteString(o.display);
    writer.buffer := writer.buffer + PutBool(o.encrypt);
    writer.PutInt(o.algorithm, 1);
    writer.buffer := writer.buffer + PutBool(o.digests);
    ghost var head := writer.buffer;
    writer.PutInt(o.chunkSize, 4);
    writer.PutInt(o.total, 8);
    writer.PutInt(|o.entries|, 4);
    EncodeEntries(writer, o.entries);
    bytes := writer.buffer;
    ghost var tail := Store(o.chunkSize, 4) + (Store(o.total, 8) + (Store(|o.entries|, 4) + PutEntries(o.entries, [])));
    Spread(head, Store(o.chunkSize, 4), Store(o.total, 8), Store(|o.entries|, 4), PutEntries(o.entries, []), []);
    assert PutEntries(o.entries, []) + [] == PutEntries(o.entries, []) && bytes + [] == bytes;
    Spread(PutBytes(o.sender), PutBytes(o.display), PutBool(o.encrypt), Store(o.algorithm, 1), PutBool(o.digests), tail);
    assert [] + PutBytes(o.sender) == PutBytes(o.sender);
  }

  method DecodeEntry(reader: PayloadReader) returns (r: Option<Entry>)
    requires reader.offset <= |reader.data|
    modifies reader
    ensures reader.offset <= |reader.data|
    ensures var spec := TakeEntry(reader.data[old(reader.offset)..]);
            if spec.Bad? then r == None else r == Some(spec.value) && reader.data[reader.offset..] == spec.rest
  {
    hide SafePath, TakeInt, TakeBytes, TakeFixed, Tail;
    var path := reader.TryBytes();
    if path.None? {
      return None;
    }
    var safe := IsSafeRelativePath(path.value);
    if !safe {
      return None;
    }
    var size := reader.TryInt(8);
    if size.None? {
      return None;
    }
    var mode := reader.TryInt(4);
    if mode.None? {
      return None;
    }
    var digest := reader.TryFixed(DIGEST_SIZE);
    if digest.None? {
      return None;
    }
    r := Some(Entry(path.value, size.value, mode.value % 0x200, digest.value));
  }

  /** The loop that reads the entries and keeps their sum. */
  method DecodeEntries(reader: PayloadReader, count: nat) returns (r: Option<seq<Entry>>, summed: nat)
    requires reader.offset <= |reader.data|
    modifies reader
    ensures reader.offset <= |reader.data|
    ensures var spec := TakeEntries(count, reader.data[old(reader.offset)..]);
            if spec.Bad? then r == None
            else r == Some(spec.value) && summed == Summed(spec.value) && reader.data[reader.offset..] == spec.rest
  {
    hide TakeEntry;
    var entries := [];
    summed := 0;
    ghost var goal := TakeEntries(count, reader.data[reader.offset..]);
    assert goal.Got? ==> [] + goal.value == goal.value;
    while |entries| < count
      invariant |entries| <= count && reader.offset <= |reader.data| && summed == Summed(entries)
      invariant var rest := TakeEntries(count - |entries|, reader.data[reader.offset..]);
                if rest.Bad? then goal.Bad? else goal == Got(entries + rest.value, rest.rest)
      decreases count - |entries|
    {
      var e := DecodeEntry(reader);
      if e.None? {
        return None, 0;
      }
      ghost var rest := TakeEntries(count - |entries| - 1, reader.data[reader.offset..]);
      assert rest.Got? ==> entries + ([e.value] + rest.value) == (entries + [e.value]) + rest.value;
      assert (entries + [e.value])[..|entries|] == entries;
      entries := entries + [e.value];
      summed := (summed + e.value.size) % U64;
    }
    assert entries + [] == entries;
    r := Some(entries);
  }

  method DecodeOffer(bytes: seq<byte>) returns (r: Option<Offer>)
    ensures r == if TakeOffer(bytes).Bad? then None else Some(TakeOffer(bytes).value)
  {
    hide TakeInt, TakeBytes, TakeBool, TakeOfferTail, ValidUsername, Tail;
    var reader := new PayloadReader(bytes);
    assert bytes[0..] == bytes;
    var sender := reader.TryBytes();
    if sender.None? {
      return None;
    }
    var valid := IsValidUsername(sender.value);
    if !valid {
      return None;
    }
    var display := reader.TryBytes();
    if display.None? {
      return None;
    }
    var encrypt := reader.TryBool();
    if encrypt.None? {
      return None;
    }
    var algorithm := reader.TryInt(1);
    if algorithm.None? || (algorithm.value != 1 && algorithm.value != 2) {
      return None;
    }
    var digests := reader.TryBool();
    if digests.None? {
      return None;
    }
    r := DecodeOfferTail(reader, sender.value, display.value, encrypt.value, algorithm.value, digests.value);
  }

  method DecodeOfferTail(reader: PayloadReader, sender: seq<byte>, display: seq<byte>, encrypt: bool, algorithm: nat, digests: bool)
    returns (r: Option<Offer>)
    requires reader.offset <= |reader.data|
    modifies reader
    ensures reader.offset <= |reader.data|
    ensures var spec := TakeOfferTail(sender, display, encrypt, algorithm, digests, reader.data[old(reader.offset)..]);
            r == if spec.Bad? then None else Some(spec.value)
  {
    hide TakeInt, TakeEntries, Summed, Tail;
    var chunkSize := reader.TryInt(4);
    if chunkSize.None? || chunkSize.value == 0 || chunkSize.value > MAX_CHUNK_SIZE {
      return None;
    }
    var total := reader.TryInt(8);
    if total.None? {
      return None;
    }
    var count := reader.TryInt(4);
    if count.None? || count.value > MAX_MANIFEST_ENTRIES {
      return None;
    }
    var entries, summed := DecodeEntries(reader, count.value);
    if entries.None? || summed != total.value {
      return None;
    }
    r := Some(Offer(sender, display, encrypt, algorithm, digests, chunkSize.value, total.value, entries.value));
  }

  // -- GroupRoster ----------------------------------------------------------

  function PutNames(names: seq<seq<byte>>, rest: seq<byte>): seq<byte> {
    if names == [] then rest else PutBytes(names[0]) + PutNames(names[1..], rest)
  }

  function PutRoster(names: seq<seq<byte>>, rest: seq<byte>): seq<byte> { Store(|names|, 2) + PutNames(names, rest) }

  function TakeNames(count: nat, s: seq<byte>): Read<seq<seq<byte>>> {
    if count == 0 then Got([], s)
    else
      var (first, s1) :- TakeBytes(s);
      if !ValidUsername(first) then Bad
      else
        var (others, s2) :- TakeNames(count - 1, s1);
        Got([first] + others, s2)
  }

  function TakeRoster(s: seq<byte>): Read<seq<seq<byte>>> {
    var (count, s1) :- TakeInt(2, s);
    if count > MAX_GROUP_MEMBERS then Bad else TakeNames(count, s1)
  }

  predicate LegalRoster(names: seq<seq<byte>>) {
    |names| <= MAX_GROUP_MEMBERS && forall n <- names :: ValidUsername(n)
  }

  lemma {:induction false} NamesRoundTrip(names: seq<seq<byte>>, rest: seq<byte>)
    requires forall n <- names :: ValidUsername(n)
    ensures TakeNames(|names|, PutNames(names, rest)) == Got(names, rest)
  {
    hide ValidUsername, PutBytes, TakeBytes;
    if names != [] {
      UsernameShort(names[0]);
      BytesRoundTrip(names[0], PutNames(names[1..], rest));
      NamesRoundTrip(names[1..], rest);
      assert [names[0]] + names[1..] == names;
    }
  }

  lemma {:induction false} NamesLegal(count: nat, s: seq<byte>)
    ensures TakeNames(count, s).Got? ==>
              |TakeNames(count, s).value| == count && forall n <- TakeNames(count, s).value :: ValidUsername(n)
  {
    hide ValidUsername, TakeBytes;
    if count > 0 && TakeBytes(s).Got? {
      NamesLegal(count - 1, TakeBytes(s).rest);
    }
  }

  /** A roster survives the trip exactly when it is legal. */
  lemma RosterRoundTripIff(names: seq<seq<byte>>, rest: seq<byte>)
    ensures TakeRoster(PutRoster(names, rest)) == Got(names, rest) <==> LegalRoster(names)
  {
    hide Store, Load, Range, TakeInt, TakeNames, PutNames, ValidUsername, Tail;
    if LegalRoster(names) {
      IntBack(|names|, 2, PutNames(names, rest));
      NamesRoundTrip(names, rest);
    }
    var s := PutRoster(names, rest);
    if TakeRoster(s).Got? {
      NamesLegal(TakeInt(2, s).value, TakeInt(2, s).rest);
    }
  }

  // -- Introductions --------------------------------------------------------

  /** A personal introduction has no group. */
  function PutGroup(group: seq<byte>): seq<byte> { if group == [] then [] else PutBytes(group) }

  /** The group is read only if anything is left. */
  function TakeGroup(s: seq<byte>): Read<seq<byte>> {
    if s == [] then Got([], [])
    else
      var (group, rest) :- TakeBytes(s);
      if group != [] && !ValidUsername(group) then Bad else Got(group, rest)
  }

  predicate LegalGroup(group: seq<byte>) { group == [] || ValidUsername(group) }

  lemma GroupRoundTrip(group: seq<byte>)
    requires LegalGroup(group)
    ensures TakeGroup(PutGroup(group)) == Got(group, [])
  {
    if group != [] {
      hide PutBytes, TakeBytes, ValidUsername;
      UsernameShort(group);
      BytesRoundTrip(group, []);
      assert PutBytes(group) + [] == PutBytes(group);
      PutBytesNotEmpty(group);
    }
  }

  lemma PutBytesNotEmpty(b: seq<byte>)
    ensures |PutBytes(b)| >= 4
  {
  }

  datatype Introduction = Introduction(
    username: seq<byte>, identity: seq<byte>, session: seq<byte>, candidates: seq<Endpoint>,
    proof: seq<byte>, signature: seq<byte>, pairing: nat, hint: nat, group: seq<byte>)

  function PutIntroduction(m: Introduction): seq<byte> {
    PutBytes(m.username) + (PutBytes(m.identity) + (PutBytes(m.session) + (PutEndpoints(m.candidates)
    + (PutBytes(m.proof) + (PutBytes(m.signature) + (Store(m.pairing, 8) + (Store(m.hint, 1) + PutGroup(m.group))))))))
  }

  /** The fields after the addresses. */
  function TakeIntroductionTail(m: Introduction, s: seq<byte>): Read<Introduction> {
    var (proof, s1) :- TakeFixed(DIGEST_SIZE, s);
    var (signature, s2) :- TakeFixed(SIGNATURE_SIZE, s1);
    var (pairing, s3) :- TakeInt(8, s2);
    var (hint, s4) :- TakeInt(1, s3);
    if hint > SERVER_RELAY then Bad
    else
      var (group, s5) :- TakeGroup(s4);
      Got(m.(proof := proof, signature := signature, pairing := pairing, hint := hint, group := group), s5)
  }

  function TakeIntroduction(s: seq<byte>): Read<Introduction> {
    var (username, s1) :- TakeBytes(s);
    if !ValidUsername(username) then Bad
    else
      var (identity, s2) :- TakeFixed(KEY_SIZE, s1);
      var (session, s3) :- TakeFixed(KEY_SIZE, s2);
      var (candidates, s4) :- TakeEndpoints(s3);
      TakeIntroductionTail(Introduction(username, identity, session, candidates, [], [], 0, 0, []), s4)
  }

  predicate LegalIntroduction(m: Introduction) {
    && ValidUsername(m.username) && |m.identity| == KEY_SIZE && |m.session| == KEY_SIZE
    && |m.candidates| < U16 && (forall e <- m.candidates :: IsEndpoint(e))
    && |m.proof| == DIGEST_SIZE && |m.signature| == SIGNATURE_SIZE && m.pairing < U64 && m.hint <= SERVER_RELAY
    && LegalGroup(m.group)
  }

  lemma IntroductionTailRoundTrip(m: Introduction, start: Introduction)
    requires LegalIntroduction(m)
    ensures TakeIntroductionTail(start, PutBytes(m.proof) + (PutBytes(m.signature) + (Store(m.pairing, 8)
                                        + (Store(m.hint, 1) + PutGroup(m.group))))) ==
            Got(start.(proof := m.proof, signature := m.signature, pairing := m.pairing, hint := m.hint, group := m.group), [])
  {
    hide Store, Load, Range, PutBytes, TakeInt, TakeBytes, TakeFixed, TakeGroup, PutGroup, Tail, ValidUsername, IsEndpoint;
    var s4 := PutGroup(m.group);
    var s3 := Store(m.hint, 1) + s4;
    var s2 := Store(m.pairing, 8) + s3;
    var s1 := PutBytes(m.signature) + s2;
    BytesRoundTrip(m.proof, s1);
    BytesRoundTrip(m.signature, s2);
    IntBack(m.pairing, 8, s3);
    IntBack(m.hint, 1, s4);
    GroupRoundTrip(m.group);
  }

  /** A legal introduction comes back with its addresses in plain form, group or no group. */
  lemma IntroductionRoundTrip(m: Introduction)
    requires LegalIntroduction(m)
    ensures TakeIntroduction(PutIntroduction(m)) == Got(m.(candidates := NormalAll(m.candidates)), [])
  {
    hide Store, Load, Range, PutBytes, TakeInt, TakeBytes, TakeFixed, TakeEndpoints, PutEndpoints, TakeGroup, PutGroup, Tail,
      ValidUsername, IsEndpoint, NormalAll, TakeIntroductionTail;
    var s4 := PutBytes(m.proof) + (PutBytes(m.signature) + (Store(m.pairing, 8) + (Store(m.hint, 1) + PutGroup(m.group))));
    var s3 := PutEndpoints(m.candidates) + s4;
    var s2 := PutBytes(m.session) + s3;
    var s1 := PutBytes(m.identity) + s2;
    UsernameShort(m.username);
    BytesRoundTrip(m.username, s1);
    BytesRoundTrip(m.identity, s2);
    BytesRoundTrip(m.session, s3);
    EndpointsRoundTrip(m.candidates, s4);
    IntroductionTailRoundTrip(m, Introduction(m.username, m.identity, m.session, NormalAll(m.candidates), [], [], 0, 0, []));
  }

  lemma IntroductionTailLegal(start: Introduction, s: seq<byte>)
    ensures var r := TakeIntroductionTail(start, s);
            r.Got? ==>
              var m := r.value;
              && |m.proof| == DIGEST_SIZE && |m.signature| == SIGNATURE_SIZE && m.pairing < U64 && m.hint <= SERVER_RELAY
              && LegalGroup(m.group) && r == Got(start.(proof := m.proof, signature := m.signature, pairing := m.pairing,
                                                        hint := m.hint, group := m.group), r.rest)
  {
    hide Load, TakeFixed, TakeGroup, LegalGroup, Tail;
    var proof := TakeFixed(DIGEST_SIZE, s);
    var signature := if proof.Got? then TakeFixed(SIGNATURE_SIZE, proof.rest) else Bad;
    if signature.Got? {
      IntInRange(8, signature.rest);
      var pairing := TakeInt(8, signature.rest);
      hide TakeInt;
      if pairing.Got? && TakeInt(1, pairing.rest).Got? {
        GroupLegal(TakeInt(1, pairing.rest).rest);
      }
    }
  }

  /** An introduction comes back with its addresses in plain form exactly when it is legal. */
  lemma IntroductionRoundTripIff(m: Introduction)
    ensures TakeIntroduction(PutIntroduction(m)) == Got(m.(candidates := NormalAll(m.candidates)), []) <==> LegalIntroduction(m)
  {
    hide Store, Load, Range, PutBytes, TakeInt, TakeBytes, TakeFixed, TakeEndpoints, PutEndpoints, TakeGroup, PutGroup, Tail,
      ValidUsername, IsEndpoint, NormalAll, LegalGroup, PutIntroduction, TakeIntroductionTail;
    var s := PutIntroduction(m);
    if LegalIntroduction(m) {
      IntroductionRoundTrip(m);
    } else if TakeIntroduction(s) == Got(m.(candidates := NormalAll(m.candidates)), []) {
      var identity := TakeFixed(KEY_SIZE, TakeBytes(s).rest);
      var session := TakeFixed(KEY_SIZE, identity.rest);
      var candidates := TakeEndpoints(session.rest);
      EndpointsLegal(session.rest);
      var start := Introduction(TakeBytes(s).value, identity.value, session.value, candidates.value, [], [], 0, 0, []);
      IntroductionTailLegal(start, candidates.rest);
      NormalAllLegal(m.candidates);
    }
  }

  datatype Hello = Hello(role: nat, username: seq<byte>, identity: seq<byte>, session: seq<byte>,
                         tcpPort: nat, udpPort: nat, candidates: seq<Endpoint>)

  function PutHello(m: Hello, rest: seq<byte>): seq<byte> {
    Store(m.role, 1) + (PutBytes(m.username) + (PutBytes(m.identity) + (PutBytes(m.session)
    + (Store(m.tcpPort, 2) + (Store(m.udpPort, 2) + (PutEndpoints(m.candidates) + rest))))))
  }

  function TakeHello(s: seq<byte>): Read<Hello> {
    var (role, s1) :- TakeInt(1, s);
    if role != 1 && role != 2 then Bad
    else
      var (username, s2) :- TakeBytes(s1);
      if !ValidUsername(username) then Bad
      else
        var (identity, s3) :- TakeFixed(KEY_SIZE, s2);
        var (session, s4) :- TakeFixed(KEY_SIZE, s3);
        var (tcpPort, s5) :- TakeInt(2, s4);
        var (udpPort, s6) :- TakeInt(2, s5);
        var (candidates, s7) :- TakeEndpoints(s6);
        Got(Hello(role, username, identity, session, tcpPort, udpPort, candidates), s7)
  }

  predicate LegalHello(m: Hello) {
    && m.role in {1, 2} && ValidUsername(m.username) && |m.identity| == KEY_SIZE && |m.session| == KEY_SIZE
    && m.tcpPort < U16 && m.udpPort < U16
    && |m.candidates| < U16 && (forall e <- m.candidates :: IsEndpoint(e))
  }

  lemma HelloRoundTrip(m: Hello, rest: seq<byte>)
    requires LegalHello(m)
    ensures TakeHello(PutHello(m, rest)) == Got(m.(candidates := NormalAll(m.candidates)), rest)
  {
    hide Store, Load, Range, PutBytes, TakeInt, TakeBytes, TakeFixed, TakeEndpoints, PutEndpoints, Tail, ValidUsername,
      IsEndpoint, NormalAll;
    var s6 := PutEndpoints(m.candidates) + rest;
    var s5 := Store(m.udpPort, 2) + s6;
    var s4 := Store(m.tcpPort, 2) + s5;
    var s3 := PutBytes(m.session) + s4;
    var s2 := PutBytes(m.identity) + s3;
    var s1 := PutBytes(m.username) + s2;
    IntBack(m.role, 1, s1);
    UsernameShort(m.username);
    BytesRoundTrip(m.username, s2);
    BytesRoundTrip(m.identity, s3);
    BytesRoundTrip(m.session, s4);
    IntBack(m.tcpPort, 2, s5);
    IntBack(m.udpPort, 2, s6);
    EndpointsRoundTrip(m.candidates, rest);
  }

  /** A hello comes back with its addresses in plain form exactly when it is legal. */
  lemma HelloRoundTripIff(m: Hello, rest: seq<byte>)
    ensures TakeHello(PutHello(m, rest)) == Got(m.(candidates := NormalAll(m.candidates)), rest) <==> LegalHello(m)
  {
    hide Store, Load, Range, PutBytes, TakeInt, TakeBytes, TakeFixed, TakeEndpoints, PutEndpoints, Tail, ValidUsername,
      IsEndpoint, NormalAll, PutHello;
    var s := PutHello(m, rest);
    if LegalHello(m) {
      HelloRoundTrip(m, rest);
    } else if TakeHello(s) == Got(m.(candidates := NormalAll(m.candidates)), rest) {
      var username := TakeBytes(TakeInt(1, s).rest);
      var identity := TakeFixed(KEY_SIZE, username.rest);
      var session := TakeFixed(KEY_SIZE, identity.rest);
      var tcpPort := TakeInt(2, session.rest);
      var udpPort := TakeInt(2, tcpPort.rest);
      IntInRange(2, session.rest);
      IntInRange(2, tcpPort.rest);
      EndpointsLegal(udpPort.rest);
      NormalAllLegal(m.candidates);
    }
  }

  datatype Request = Request(target: seq<byte>, proof: seq<byte>, signature: seq<byte>, hint: nat, group: seq<byte>)

  function PutRequest(m: Request): seq<byte> {
    PutBytes(m.target) + (PutBytes(m.proof) + (PutBytes(m.signature) + (Store(m.hint, 1) + PutGroup(m.group))))
  }

  function TakeRequest(s: seq<byte>): Read<Request> {
    var (target, s1) :- TakeBytes(s);
    if !ValidUsername(target) then Bad
    else
      var (proof, s2) :- TakeFixed(DIGEST_SIZE, s1);
      var (signature, s3) :- TakeFixed(SIGNATURE_SIZE, s2);
      var (hint, s4) :- TakeInt(1, s3);
      if hint > SERVER_RELAY then Bad
      else
        var (group, s5) :- TakeGroup(s4);
        Got(Request(target, proof, signature, hint, group), s5)
  }

  predicate LegalRequest(m: Request) {
    && ValidUsername(m.target) && |m.proof| == DIGEST_SIZE && |m.signature| == SIGNATURE_SIZE
    && m.hint <= SERVER_RELAY && LegalGroup(m.group)
  }

  lemma RequestRoundTripIff(m: Request)
    ensures TakeRequest(PutRequest(m)) == Got(m, []) <==> LegalRequest(m)
  {
    hide Store, Load, Range, PutBytes, TakeInt, TakeBytes, TakeFixed, TakeGroup, PutGroup, Tail, ValidUsername;
    if LegalRequest(m) {
      var s4 := PutGroup(m.group);
      var s3 := Store(m.hint, 1) + s4;
      var s2 := PutBytes(m.signature) + s3;
      var s1 := PutBytes(m.proof) + s2;
      UsernameShort(m.target);
      BytesRoundTrip(m.target, s1);
      BytesRoundTrip(m.proof, s2);
      BytesRoundTrip(m.signature, s3);
      IntBack(m.hint, 1, s4);
      GroupRoundTrip(m.group);
    } else if TakeRequest(PutRequest(m)) == Got(m, []) {
      var target := TakeBytes(PutRequest(m));
      var proof := TakeFixed(DIGEST_SIZE, target.rest);
      var signature := TakeFixed(SIGNATURE_SIZE, proof.rest);
      GroupLegal(TakeInt(1, signature.rest).rest);
    }
  }

  lemma GroupLegal(s: seq<byte>)
    ensures TakeGroup(s).Got? ==> LegalGroup(TakeGroup(s).value)
  {
  }
}
