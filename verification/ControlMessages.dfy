/** The small messages between clients and server, and the reply to an address probe. */
module ControlMessages {

  import opened Bytes
  import opened LittleEndian
  import opened Payload
  import opened Names
  import opened Messages

  const MAX_OUTCOME := 6
  const REPLY_MAGIC: seq<byte> := [68, 90, 82, 50]
  const MAX_REPLY_SIZE := 32

  // -- ServerHello ----------------------------------------------------------

  datatype ServerHello = ServerHello(accepted: bool, message: seq<byte>, tcp: Endpoint, udp: Endpoint, idle: nat)

  function PutServerHello(m: ServerHello, rest: seq<byte>): seq<byte> {
    PutBool(m.accepted) + (PutBytes(m.message) + (PutEndpoint(m.tcp) + (PutEndpoint(m.udp) + (Store(m.idle, 4) + rest))))
  }

  function TakeServerHello(s: seq<byte>): Read<ServerHello> {
    var (accepted, s1) :- TakeBool(s);
    var (message, s2) :- TakeBytes(s1);
    var (tcp, s3) :- TakeEndpoint(s2);
    var (udp, s4) :- TakeEndpoint(s3);
    var (idle, s5) :- TakeInt(4, s4);
    Got(ServerHello(accepted, message, tcp, udp, idle), s5)
  }

  predicate LegalServerHello(m: ServerHello) {
    |m.message| < U32 && IsEndpoint(m.tcp) && IsEndpoint(m.udp) && m.idle < U32
  }

  /** A hello comes back with its addresses in plain form exactly when every field fits its width. */
  lemma ServerHelloRoundTripIff(m: ServerHello, rest: seq<byte>)
    ensures TakeServerHello(PutServerHello(m, rest)) == Got(m.(tcp := Normal(m.tcp), udp := Normal(m.udp)), rest)
            <==> LegalServerHello(m)
  {
    hide Store, Load, Range, PutBytes, TakeInt, TakeBytes, TakeBool, PutBool, TakeEndpoint, PutEndpoint, Tail, IsEndpoint, Normal;
    var s4 := Store(m.idle, 4) + rest;
    var s3 := PutEndpoint(m.udp) + s4;
    var s2 := PutEndpoint(m.tcp) + s3;
    var s1 := PutBytes(m.message) + s2;
    BoolBack(m.accepted, s1);
    NormalLegal(m.tcp);
    NormalLegal(m.udp);
    if LegalServerHello(m) {
      BytesRoundTrip(m.message, s2);
      EndpointRoundTrip(m.tcp, s3);
      EndpointRoundTrip(m.udp, s4);
      IntBack(m.idle, 4, rest);
    } else if TakeServerHello(PutServerHello(m, rest)).Got? {
      var message := TakeBytes(s1);
      var tcp := TakeEndpoint(message.rest);
      var udp := TakeEndpoint(tcp.rest);
      BytesInRange(s1);
      EndpointLegal(message.rest);
      EndpointLegal(tcp.rest);
      IntInRange(4, udp.rest);
    }
  }

  // -- Groups ---------------------------------------------------------------

  /** A GroupQuery and a GroupSendRequest are a name alone. */
  function PutName(name: seq<byte>, rest: seq<byte>): seq<byte> { PutBytes(name) + rest }

  function TakeName(s: seq<byte>): Read<seq<byte>> {
    var (name, rest) :- TakeBytes(s);
    if !ValidUsername(name) then Bad else Got(name, rest)
  }

  lemma NameRoundTripIff(name: seq<byte>, rest: seq<byte>)
    ensures TakeName(PutName(name, rest)) == Got(name, rest) <==> ValidUsername(name)
  {
    hide PutBytes, TakeBytes, ValidUsername, Tail;
    UsernameShort(name);
    if ValidUsername(name) {
      BytesRoundTrip(name, rest);
    }
  }

  datatype GroupStatus = GroupStatus(present: bool, members: nat)

  function PutGroupStatus(m: GroupStatus, rest: seq<byte>): seq<byte> { PutBool(m.present) + (Store(m.members, 4) + rest) }

  function TakeGroupStatus(s: seq<byte>): Read<GroupStatus> {
    var (present, s1) :- TakeBool(s);
    var (members, s2) :- TakeInt(4, s1);
    Got(GroupStatus(present, members), s2)
  }

  lemma GroupStatusRoundTripIff(m: GroupStatus, rest: seq<byte>)
    ensures TakeGroupStatus(PutGroupStatus(m, rest)) == Got(m, rest) <==> m.members < U32
  {
    hide Store, Load, Range, TakeInt, TakeBool, PutBool, Tail;
    BoolBack(m.present, Store(m.members, 4) + rest);
    IntInRange(4, Store(m.members, 4) + rest);
    if m.members < U32 {
      IntBack(m.members, 4, rest);
    }
  }

  datatype GroupJoin = GroupJoin(name: seq<byte>, verifier: seq<byte>)

  function PutGroupJoin(m: GroupJoin, rest: seq<byte>): seq<byte> { PutBytes(m.name) + (PutBytes(m.verifier) + rest) }

  function TakeGroupJoin(s: seq<byte>): Read<GroupJoin> {
    var (name, s1) :- TakeName(s);
    var (verifier, s2) :- TakeFixed(DIGEST_SIZE, s1);
    Got(GroupJoin(name, verifier), s2)
  }

  lemma GroupJoinRoundTripIff(m: GroupJoin, rest: seq<byte>)
    ensures TakeGroupJoin(PutGroupJoin(m, rest)) == Got(m, rest) <==> ValidUsername(m.name) && |m.verifier| == DIGEST_SIZE
  {
    hide PutBytes, TakeBytes, TakeFixed, ValidUsername, Tail;
    NameRoundTripIff(m.name, PutBytes(m.verifier) + rest);
    if |m.verifier| == DIGEST_SIZE {
      BytesRoundTrip(m.verifier, rest);
    }
  }

  datatype GroupResult = GroupResult(outcome: nat, message: seq<byte>, members: nat)

  function PutGroupResult(m: GroupResult, rest: seq<byte>): seq<byte> {
    Store(m.outcome, 1) + (PutBytes(m.message) + (Store(m.members, 4) + rest))
  }

  function TakeGroupResult(s: seq<byte>): Read<GroupResult> {
    var (outcome, s1) :- TakeInt(1, s);
    if outcome < 1 || outcome > MAX_OUTCOME then Bad
    else
      var (message, s2) :- TakeBytes(s1);
      var (members, s3) :- TakeInt(4, s2);
      Got(GroupResult(outcome, message, members), s3)
  }

  predicate LegalGroupResult(m: GroupResult) { 1 <= m.outcome <= MAX_OUTCOME && |m.message| < U32 && m.members < U32 }

  lemma GroupResultRoundTripIff(m: GroupResult, rest: seq<byte>)
    ensures TakeGroupResult(PutGroupResult(m, rest)) == Got(m, rest) <==> LegalGroupResult(m)
  {
    hide Store, Load, Range, PutBytes, TakeInt, TakeBytes, Tail;
    var s2 := Store(m.members, 4) + rest;
    var s1 := PutBytes(m.message) + s2;
    if LegalGroupResult(m) {
      IntBack(m.outcome, 1, s1);
      BytesRoundTrip(m.message, s2);
      IntBack(m.members, 4, rest);
    } else if TakeGroupResult(PutGroupResult(m, rest)).Got? {
      var after := TakeInt(1, PutGroupResult(m, rest)).rest;
      BytesInRange(after);
      IntInRange(4, TakeBytes(after).rest);
    }
  }

  // -- TransferDecision -----------------------------------------------------

  datatype Decision = Decision(accepted: bool, reason: seq<byte>, directory: seq<byte>)

  function PutDecision(m: Decision, rest: seq<byte>): seq<byte> {
    PutBool(m.accepted) + (PutBytes(m.reason) + (PutBytes(m.directory) + rest))
  }

  function TakeDecision(s: seq<byte>): Read<Decision> {
    var (accepted, s1) :- TakeBool(s);
    var (reason, s2) :- TakeBytes(s1);
    var (directory, s3) :- TakeBytes(s2);
    Got(Decision(accepted, reason, directory), s3)
  }

  lemma DecisionRoundTripIff(m: Decision, rest: seq<byte>)
    ensures TakeDecision(PutDecision(m, rest)) == Got(m, rest) <==> |m.reason| < U32 && |m.directory| < U32
  {
    hide PutBytes, TakeBytes, TakeBool, PutBool, Tail;
    var s2 := PutBytes(m.directory) + rest;
    var s1 := PutBytes(m.reason) + s2;
    BoolBack(m.accepted, s1);
    if |m.reason| < U32 && |m.directory| < U32 {
      BytesRoundTrip(m.reason, s2);
      BytesRoundTrip(m.directory, rest);
    } else if TakeDecision(PutDecision(m, rest)).Got? {
      BytesInRange(s1);
      BytesInRange(TakeBytes(s1).rest);
    }
  }

  // -- The reply to an address probe ----------------------------------------

  function PutReply(observed: Endpoint): seq<byte> { REPLY_MAGIC + PutEndpoint(observed) }

  /** A datagram without the magic, or with a malformed address, is no reply. */
  function TakeReply(s: seq<byte>): Option<Endpoint> {
    if |s| < |REPLY_MAGIC| || s[..|REPLY_MAGIC|] != REPLY_MAGIC then None
    else
      var e := TakeEndpoint(s[|REPLY_MAGIC|..]);
      if e.Bad? then None else Some(e.value)
  }

  /** A reply fits its buffer, and tells the address in plain form whatever follows it in the datagram. */
  lemma ReplyRoundTripIff(observed: Endpoint, trailing: seq<byte>)
    ensures TakeReply(PutReply(observed) + trailing) == Some(Normal(observed)) <==> IsEndpoint(observed)
    ensures IsEndpoint(observed) ==> |PutReply(observed)| <= MAX_REPLY_SIZE
  {
    assert IsEndpoint(observed) ==> |PutEndpoint(observed)| <= 19;
    hide Store, Load, Range, TakeInt, TakeEndpoint, PutEndpoint, Tail, IsEndpoint, Normal;
    var s := PutReply(observed) + trailing;
    var body := PutEndpoint(observed) + trailing;
    assert s == REPLY_MAGIC + body;
    assert s[..4] == REPLY_MAGIC && s[4..] == body;
    NormalLegal(observed);
    EndpointLegal(body);
    if IsEndpoint(observed) {
      EndpointRoundTrip(observed, trailing);
    }
  }
}
