/** The bytes that proofs, signatures and the transcript hash cover. */
module ProofInputs {

  import opened Bytes
  import opened LittleEndian
  import opened Payload

  function Ascii(text: string): seq<byte> {
    seq(|text|, i requires 0 <= i < |text| => (text[i] as int) % 256)
  }

  const SENDER_PROOF := "drop-zone/v1 sender proof"
  const RECEIVER_PROOF := "drop-zone/v1 receiver proof"
  const GROUP_SENDER_PROOF := "drop-zone/v1 group sender proof"
  const GROUP_RECEIVER_PROOF := "drop-zone/v1 group receiver proof"
  const TRANSCRIPT := "drop-zone/v1 transcript signature"

  /** An empty group is a personal introduction. */
  datatype Statement =
    | SenderProof(sender: seq<byte>, receiver: seq<byte>, senderSession: seq<byte>, senderIdentity: seq<byte>, group: seq<byte>)
    | ReceiverProof(sender: seq<byte>, receiver: seq<byte>, senderSession: seq<byte>, senderIdentity: seq<byte>,
                    receiverSession: seq<byte>, receiverIdentity: seq<byte>, group: seq<byte>)
    | Transcript(sender: seq<byte>, receiver: seq<byte>, senderSession: seq<byte>, senderIdentity: seq<byte>,
                 receiverSession: seq<byte>, receiverIdentity: seq<byte>, senderProof: seq<byte>, receiverProof: seq<byte>)

  function Heading(personal: string, grouped: string, group: seq<byte>): seq<seq<byte>> {
    if group == [] then [Ascii(personal)] else [Ascii(grouped), group]
  }

  function FieldsOf(s: Statement): seq<seq<byte>> {
    match s
    case SenderProof(sender, receiver, session, identity, group) =>
      Heading(SENDER_PROOF, GROUP_SENDER_PROOF, group) + [sender, receiver, session, identity]
    case ReceiverProof(sender, receiver, session, identity, ownSession, ownIdentity, group) =>
      Heading(RECEIVER_PROOF, GROUP_RECEIVER_PROOF, group) + [sender, receiver, session, identity, ownSession, ownIdentity]
    case Transcript(sender, receiver, session, identity, ownSession, ownIdentity, senderProof, receiverProof) =>
      [Ascii(TRANSCRIPT), sender, receiver, session, identity, ownSession, ownIdentity, senderProof, receiverProof]
  }

  /** Each field after its length. */
  function Encode(fields: seq<seq<byte>>): seq<byte> {
    if fields == [] then [] else PutBytes(fields[0]) + Encode(fields[1..])
  }

  ghost predicate Short(fields: seq<seq<byte>>) { forall f <- fields :: |f| < U32 }

  /** Lists of fields are recovered from their bytes, however the bytes could be split otherwise. */
  lemma {:induction false} EncodeInjective(a: seq<seq<byte>>, b: seq<seq<byte>>)
    requires Short(a) && Short(b) && Encode(a) == Encode(b)
    ensures a == b
  {
    if a != [] && b != [] {
      BytesRoundTrip(a[0], Encode(a[1..]));
      BytesRoundTrip(b[0], Encode(b[1..]));
      hide PutBytes, TakeBytes;
      EncodeInjective(a[1..], b[1..]);
      assert a == [a[0]] + a[1..] && b == [b[0]] + b[1..];
    }
  }

  lemma FieldCounts(s: Statement)
    ensures |FieldsOf(s)| == match s
                             case SenderProof(_, _, _, _, group) => if group == [] then 5 else 6
                             case ReceiverProof(_, _, _, _, _, _, group) => if group == [] then 7 else 8
                             case Transcript(_, _, _, _, _, _, _, _) => 9
  {
  }

  lemma FieldsTell(s: Statement, t: Statement)
    requires FieldsOf(s) == FieldsOf(t)
    ensures s == t
  {
    hide Ascii;
    FieldCounts(s);
    FieldCounts(t);
    var a, b := FieldsOf(s), FieldsOf(t);
    match s {
      case SenderProof(_, _, _, _, group) =>
        var k := if group == [] then 0 else 1;
        assert a[k + 1] == b[k + 1] && a[k + 2] == b[k + 2] && a[k + 3] == b[k + 3] && a[k + 4] == b[k + 4] && a[k] == b[k];
      case ReceiverProof(_, _, _, _, _, _, group) =>
        var k := if group == [] then 0 else 1;
        assert a[k + 1] == b[k + 1] && a[k + 2] == b[k + 2] && a[k + 3] == b[k + 3] && a[k + 4] == b[k + 4];
        assert a[k + 5] == b[k + 5] && a[k + 6] == b[k + 6] && a[k] == b[k];
      case Transcript(_, _, _, _, _, _, _, _) =>
        assert a[1] == b[1] && a[2] == b[2] && a[3] == b[3] && a[4] == b[4];
        assert a[5] == b[5] && a[6] == b[6] && a[7] == b[7] && a[8] == b[8];
    }
  }

  /**
   * Different statements cover different bytes: another name, key or group, a
   * sender's proof against a receiver's, a personal one against a group's.
   */
  lemma StatementsDiffer(s: Statement, t: Statement)
    requires Short(FieldsOf(s)) && Short(FieldsOf(t)) && s != t
    ensures Encode(FieldsOf(s)) != Encode(FieldsOf(t))
  {
    if Encode(FieldsOf(s)) == Encode(FieldsOf(t)) {
      EncodeInjective(FieldsOf(s), FieldsOf(t));
      FieldsTell(s, t);
    }
  }

  // -- Building them up -----------------------------------------------------

  lemma {:induction false} EncodeAppend(fields: seq<seq<byte>>, field: seq<byte>)
    ensures Encode(fields + [field]) == Encode(fields) + PutBytes(field)
  {
    if fields == [] {
      assert [field][1..] == [] && fields + [field] == [field];
      assert PutBytes(field) + [] == PutBytes(field) && [] + PutBytes(field) == PutBytes(field);
    } else {
      assert (fields + [field])[1..] == fields[1..] + [field];
      EncodeAppend(fields[1..], field);
      Regroup(PutBytes(fields[0]), Encode(fields[1..]), PutBytes(field));
    }
  }

  class InputBuilder {
    var out: seq<byte>
    ghost var fields: seq<seq<byte>>

    ghost predicate Valid()
      reads this
    {
      out == Encode(fields)
    }

    constructor ()
      ensures Valid() && fields == []
    {
      out, fields := [], [];
    }

    method AppendField(data: seq<byte>)
      requires Valid()
      modifies this
      ensures Valid() && fields == old(fields) + [data]
    {
      EncodeAppend(fields, data);
      out := out + Store(|data|, 4) + data;
      Regroup(Encode(fields), Store(|data|, 4), data);
      fields := fields + [data];
    }
  }

  method SenderProofInput(sender: seq<byte>, receiver: seq<byte>, session: seq<byte>, identity: seq<byte>, group: seq<byte>)
    returns (input: seq<byte>)
    ensures input == Encode(FieldsOf(SenderProof(sender, receiver, session, identity, group)))
  {
    hide Encode, Ascii;
    var b := new InputBuilder();
    if group == [] {
      b.AppendField(Ascii(SENDER_PROOF));
    } else {
      b.AppendField(Ascii(GROUP_SENDER_PROOF));
      b.AppendField(group);
    }
    b.AppendField(sender);
    b.AppendField(receiver);
    b.AppendField(session);
    b.AppendField(identity);
    input := b.out;
    assert b.fields == FieldsOf(SenderProof(sender, receiver, session, identity, group));
  }

  method ReceiverProofInput(sender: seq<byte>, receiver: seq<byte>, session: seq<byte>, identity: seq<byte>,
                            ownSession: seq<byte>, ownIdentity: seq<byte>, group: seq<byte>)
    returns (input: seq<byte>)
    ensures input == Encode(FieldsOf(ReceiverProof(sender, receiver, session, identity, ownSession, ownIdentity, group)))
  {
    hide Encode, Ascii;
    var b := new InputBuilder();
    if group == [] {
      b.AppendField(Ascii(RECEIVER_PROOF));
    } else {
      b.AppendField(Ascii(GROUP_RECEIVER_PROOF));
      b.AppendField(group);
    }
    b.AppendField(sender);
    b.AppendField(receiver);
    b.AppendField(session);
    b.AppendField(identity);
    b.AppendField(ownSession);
    b.AppendField(ownIdentity);
    input := b.out;
    assert b.fields == FieldsOf(ReceiverProof(sender, receiver, session, identity, ownSession, ownIdentity, group));
  }
}
