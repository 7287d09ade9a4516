/**
 * A transfer from files to files: numbered chunks, sealed or plain, are checked
 * by the receiver and written by any number of workers in any order.
 *
 * A write may be split anywhere, and the pieces of different chunks interleave
 * freely; a worker adds to its file's count only when its chunk is all there.
 */
module FileTransfer {

  import opened Bytes
  import opened LittleEndian
  import opened ChunkPlanning

  type Path = string
  type Disk = map<Path, seq<byte>>

  const CHUNK_HEADER_SIZE: nat := 24

  // -- Chunk headers --------------------------------------------------------

  datatype ChunkHeader = ChunkHeader(file: nat, length: nat, offset: nat, counter: nat)

  predicate Fits(h: ChunkHeader) { h.file < U32 && h.length < U32 && h.offset < U64 && h.counter < U64 }

  function EncodeHeader(h: ChunkHeader): (bytes: seq<byte>)
    ensures |bytes| == CHUNK_HEADER_SIZE
  {
    Store(h.file, 4) + Store(h.length, 4) + Store(h.offset, 8) + Store(h.counter, 8)
  }

  function DecodeHeader(bytes: seq<byte>): ChunkHeader
    requires |bytes| == CHUNK_HEADER_SIZE
  {
    ChunkHeader(Load(bytes[..4]), Load(bytes[4..8]), Load(bytes[8..16]), Load(bytes[16..]))
  }

  lemma FourFields(a: seq<byte>, b: seq<byte>, c: seq<byte>, d: seq<byte>)
    requires |a| == 4 && |b| == 4 && |c| == 8 && |d| == 8
    ensures var s := a + b + c + d; s[..4] == a && s[4..8] == b && s[8..16] == c && s[16..] == d
  {
  }

  lemma HeaderRoundTrip(h: ChunkHeader)
    requires Fits(h)
    ensures DecodeHeader(EncodeHeader(h)) == h
  {
    FourFields(Store(h.file, 4), Store(h.length, 4), Store(h.offset, 8), Store(h.counter, 8));
    hide Store, Load;
    Widths();
    LoadStore(h.file, 4);
    LoadStore(h.length, 4);
    LoadStore(h.offset, 8);
    LoadStore(h.counter, 8);
  }

  // -- Sealing --------------------------------------------------------------

  /** Arguments are the nonce, the header as associated data, and the text. */
  datatype Aead = Aead(seal: (seq<byte>, seq<byte>, seq<byte>) -> seq<byte>,
                       open: (seq<byte>, seq<byte>, seq<byte>) -> Option<seq<byte>>)

  /** Opening undoes sealing. */
  ghost predicate Ideal(a: Aead) {
    forall nonce, header, plain :: a.open(nonce, header, a.seal(nonce, header, plain)) == Some(plain)
  }

  datatype Protection = Plain | Sealed(aead: Aead, prefix: seq<byte>)

  ghost predicate Sound(p: Protection) { p.Sealed? ==> Ideal(p.aead) && |p.prefix| == 4 }

  function Nonce(prefix: seq<byte>, counter: nat): seq<byte> { prefix + Store(counter, 8) }

  /** No two chunks of a session share a nonce. */
  lemma NoncesDiffer(prefix: seq<byte>, a: nat, b: nat)
    requires a < U64 && b < U64 && Nonce(prefix, a) == Nonce(prefix, b)
    ensures a == b
  {
    assert Nonce(prefix, a)[|prefix|..] == Store(a, 8) && Nonce(prefix, b)[|prefix|..] == Store(b, 8);
    hide Store, Load;
    Widths();
    StoreInjective(a, b, 8);
  }

  function Body(p: Protection, h: ChunkHeader, data: seq<byte>): seq<byte> {
    match p
    case Plain => data
    case Sealed(aead, prefix) => aead.seal(Nonce(prefix, h.counter), EncodeHeader(h), data)
  }

  function Reveal(p: Protection, h: ChunkHeader, header: seq<byte>, body: seq<byte>): Option<seq<byte>> {
    match p
    case Plain => Some(body)
    case Sealed(aead, prefix) => aead.open(Nonce(prefix, h.counter), header, body)
  }

  // -- The receiver's checks ------------------------------------------------

  datatype Refusal = TooShort | NoSuchFile | TooLong | OutOfSequence | PastTheEnd | NotAuthentic | WrongLength

  /** The end of the chunk is computed in 64 bits. */
  function Validate(h: ChunkHeader, sizes: seq<nat>, expected: nat, chunkSize: nat): Option<Refusal> {
    if h.file >= |sizes| then Some(NoSuchFile)
    else if h.length > chunkSize then Some(TooLong)
    else if h.counter != expected then Some(OutOfSequence)
    else if (h.offset + h.length) % U64 > sizes[h.file] then Some(PastTheEnd)
    else None
  }

  datatype Admission = Admitted(header: ChunkHeader, data: seq<byte>) | Refused(why: Refusal)

  function Admit(p: Protection, sizes: seq<nat>, chunkSize: nat, expected: nat, frame: seq<byte>): Admission {
    if |frame| < CHUNK_HEADER_SIZE then Refused(TooShort)
    else
      var header := DecodeHeader(frame[..CHUNK_HEADER_SIZE]);
      var wrong := Validate(header, sizes, expected, chunkSize);
      if wrong.Some? then Refused(wrong.value)
      else
        var data := Reveal(p, header, frame[..CHUNK_HEADER_SIZE], frame[CHUNK_HEADER_SIZE..]);
        if data.None? then Refused(NotAuthentic)
        else if |data.value| != header.length then Refused(WrongLength)
        else Admitted(header, data.value)
  }

  // -- What the sender sends ------------------------------------------------

  /** Source contents, where each goes, and how. */
  datatype Transfer = Transfer(sources: seq<seq<byte>>, paths: seq<Path>, chunkSize: nat, protection: Protection)

  function Sizes(sources: seq<seq<byte>>): (sizes: seq<nat>)
    ensures |sizes| == |sources| && forall i :: 0 <= i < |sizes| ==> sizes[i] == |sources[i]|
  {
    seq(|sources|, i requires 0 <= i < |sources| => |sources[i]|)
  }

  function Chunks(t: Transfer): seq<ChunkPlan>
    requires t.chunkSize > 0
  {
    Plan(Sizes(t.sources), t.chunkSize)
  }

  /** What the manifest and the wire format can express. */
  ghost predicate Legal(t: Transfer) {
    && 0 < t.chunkSize < U32 && |t.paths| == |t.sources| < U32
    && (forall i :: 0 <= i < |t.sources| ==> |t.sources[i]| < U64)
    && |Chunks(t)| <= U64
    && Sound(t.protection)
  }

  predicate Inside(c: ChunkPlan, sources: seq<seq<byte>>) {
    c.file < |sources| && c.offset + c.length <= |sources[c.file]|
  }

  function Slice(sources: seq<seq<byte>>, c: ChunkPlan): seq<byte>
    requires Inside(c, sources)
  {
    sources[c.file][c.offset..c.offset + c.length]
  }

  function HeaderOf(c: ChunkPlan, counter: nat): ChunkHeader { ChunkHeader(c.file, c.length, c.offset, counter) }

  function FrameFor(t: Transfer, c: ChunkPlan, counter: nat): seq<byte>
    requires Inside(c, t.sources)
  {
    EncodeHeader(HeaderOf(c, counter)) + Body(t.protection, HeaderOf(c, counter), Slice(t.sources, c))
  }

  lemma PlannedInside(t: Transfer, k: nat)
    requires t.chunkSize > 0 && k < |Chunks(t)|
    ensures Inside(Chunks(t)[k], t.sources) && 0 < Chunks(t)[k].length <= t.chunkSize
  {
    PlanTiles(Sizes(t.sources), t.chunkSize);
    assert Within(Chunks(t)[k], Sizes(t.sources), t.chunkSize);
  }

  /** The receiver accepts every planned chunk and gets the sender's bytes out of it. */
  lemma PlannedAdmitted(t: Transfer, k: nat)
    requires Legal(t) && k < |Chunks(t)|
    ensures Inside(Chunks(t)[k], t.sources)
    ensures Admit(t.protection, Sizes(t.sources), t.chunkSize, k, FrameFor(t, Chunks(t)[k], k)) ==
            Admitted(HeaderOf(Chunks(t)[k], k), Slice(t.sources, Chunks(t)[k]))
  {
    PlannedInside(t, k);
    hide Chunks;
    var c := Chunks(t)[k];
    var h, data := HeaderOf(c, k), Slice(t.sources, c);
    var frame, body := FrameFor(t, c, k), Body(t.protection, h, data);
    assert frame[..CHUNK_HEADER_SIZE] == EncodeHeader(h) && frame[CHUNK_HEADER_SIZE..] == body;
    HeaderRoundTrip(h);
    hide EncodeHeader, DecodeHeader;
    assert Validate(h, Sizes(t.sources), k, t.chunkSize) == None;
    assert Reveal(t.protection, h, EncodeHeader(h), body) == Some(data);
  }
}
