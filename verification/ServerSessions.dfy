/**
 * The rendezvous conversation of every connection, one handler at a time.
 *
 * The server keeps a connection's place in the conversation, the name it claimed,
 * the pairing it carries, the group it joined and the peer it relays to. Each
 * handler is one atomic step. `parties`, `relays`, `asked`, `presented` and
 * `relayId` are history: they record what has happened and decide nothing.
 */
module ServerSessions {

  import opened Bytes
  import opened LittleEndian
  import opened Names
  import opened SessionTables

  datatype Phase = AwaitingHello | ReceiverIdle | ReceiverMatched | SenderIdle | SenderWaiting | Relaying

  datatype Conn = Conn(phase: Phase, greeted: bool, claimed: Name, pairing: nat, joined: Name,
                       relayPeer: Option<Id>, presented: seq<byte>, relayId: nat)

  const ARRIVED := Conn(AwaitingHello, false, [], 0, [], None, [], 0)

  /** The connections still open are the keys of `conns`. */
  datatype Server = Server(
    conns: map<Id, Conn>, next: Id, table: Table, allowRelay: bool,
    greetings: map<Id, Name>, closing: set<Id>,
    parties: map<nat, (Id, Id)>, relays: set<nat>, asked: set<(nat, Id)>)

  function Start(allowRelay: bool, salt: nat): Server {
    Server(map[], 0, Table(map[], map[], map[], 1, salt), allowRelay, map[], {}, map[], {}, {})
  }

  function Live(s: Server): set<Id> { s.conns.Keys }

  datatype Message =
    | ServerHello(accepted: bool)
    | Incoming(id: nat)
    | Matched(id: nat)
    | Reject
    | RelayOpen
    | RelayData(payload: seq<byte>)
    | RelayClose
    | GroupStatus(present: bool, count: nat)
    | GroupResult(outcome: Joined, count: nat)
    | GroupRoster(names: seq<Name>)

  datatype Send = Send(to: Id, message: Message)

  datatype Effect = Effect(server: Server, sends: seq<Send>)

  function Put(s: Server, c: Id, conn: Conn): Server { s.(conns := s.conns[c := conn]) }

  function RequestClose(s: Server, c: Id): Server { s.(closing := s.closing + {c}) }

  function RejectAndClose(s: Server, c: Id): Effect { Effect(RequestClose(s, c), [Send(c, Reject)]) }

  /** A payload that does not decode closes the connection without a reply. */
  function ProtocolError(s: Server, c: Id): Effect { Effect(RequestClose(s, c), []) }

  // -- Introductions --------------------------------------------------------

  function HandleHello(s: Server, c: Id, receiver: bool, name: Name): Effect
    requires c in s.conns
  {
    var conn := s.conns[c];
    var refreshing := conn.greeted && conn.phase == ReceiverIdle && receiver && name == conn.claimed;
    if !ValidUsername(name) then ProtocolError(s, c)
    else if conn.greeted && !refreshing then RejectAndClose(s, c)
    else
      var greeted := s.(greetings := s.greetings[c := name]);
      if refreshing then Effect(greeted, [Send(c, ServerHello(true))])
      else if !receiver then
        Effect(Put(greeted, c, conn.(greeted := true, phase := SenderIdle)), [Send(c, ServerHello(true))])
      else if ClaimOutcome(s.table, name, Live(s)) == Granted then
        Effect(Put(greeted, c, conn.(greeted := true, claimed := name, phase := ReceiverIdle))
               .(table := Claim(s.table, name, c, Live(s))),
               [Send(c, ServerHello(true))])
      else
        Effect(RequestClose(Put(greeted, c, conn.(greeted := true)), c), [Send(c, ServerHello(false))])
  }

  function Introduce(s: Server, c: Id, receiver: Id, now: nat, k: nat): Effect
    requires c in s.conns && receiver in s.conns && k < U64
  {
    var id := Mix(k, s.table.salt);
    var both := s.conns[c := s.conns[c].(pairing := id, phase := SenderWaiting)]
                       [receiver := s.conns[receiver].(pairing := id, phase := ReceiverMatched)];
    Effect(s.(conns := both, table := CreatePairing(s.table, c, receiver, now, k), parties := s.parties[id := (c, receiver)]),
           [Send(receiver, Incoming(id))])
  }

  function HandleSendRequest(s: Server, c: Id, target: Name, allowed: bool, now: nat): Effect
    requires c in s.conns
  {
    if s.conns[c].phase != SenderIdle || !allowed then RejectAndClose(s, c)
    else if !ValidUsername(target) then ProtocolError(s, c)
    else
      var receiver := Lookup(s.table, target, Live(s));
      if receiver.None? || s.conns[receiver.value].phase != ReceiverIdle then RejectAndClose(s, c)
      else
        var k := FirstFree(s.table.counter, s.table.salt, s.table.pairings.Keys);
        if k.None? then Effect(s, []) else Introduce(s, c, receiver.value, now, k.value)
  }

  function HandleAccept(s: Server, c: Id, decodes: bool): Effect
    requires c in s.conns
  {
    var conn := s.conns[c];
    if conn.phase != ReceiverMatched || conn.pairing !in s.table.pairings then RejectAndClose(s, c)
    else
      var sender := s.table.pairings[conn.pairing].sender;
      if sender !in s.conns then Effect(Put(s, c, conn.(phase := ReceiverIdle, pairing := 0)), [])
      else if !decodes then ProtocolError(s, c)
      else Effect(s, [Send(sender, Matched(conn.pairing))])
  }

  function HandleReject(s: Server, c: Id): Effect
    requires c in s.conns
  {
    var conn := s.conns[c];
    if conn.pairing == 0 then Effect(s, [])
    else
      var found := conn.pairing in s.table.pairings;
      var tells := found && s.table.pairings[conn.pairing].sender in s.conns && s.table.pairings[conn.pairing].sender != c;
      var told := if tells then RequestClose(s, s.table.pairings[conn.pairing].sender) else s;
      var idle := conn.(pairing := 0, phase := if conn.phase == ReceiverMatched then ReceiverIdle else conn.phase);
      Effect(Put(told, c, idle).(table := DestroyPairing(s.table, conn.pairing)),
             if tells then [Send(s.table.pairings[conn.pairing].sender, Reject)] else [])
  }

  // -- Groups ---------------------------------------------------------------

  function HandleGroupQuery(s: Server, c: Id, name: Name): Effect
    requires c in s.conns
  {
    if !s.conns[c].greeted then RejectAndClose(s, c)
    else if !ValidUsername(name) then ProtocolError(s, c)
    else
      var table := Prune(s.table, name, Live(s));
      Effect(s.(table := table), [Send(c, GroupStatus(name in table.groups, MemberCount(table, name)))])
  }

  /** Joining one group leaves the other first, even if the join then fails. */
  function HandleGroupJoin(s: Server, c: Id, name: Name, verifier: seq<byte>): Effect
    requires c in s.conns
  {
    var conn := s.conns[c];
    if conn.phase != ReceiverIdle then RejectAndClose(s, c)
    else if !ValidUsername(name) then ProtocolError(s, c)
    else
      var moves := conn.joined != [] && conn.joined != name;
      var left := if moves then Leave(s.table, conn.joined, c, Live(s)) else s.table;
      var stayed := if moves then conn.(joined := []) else conn;
      EnterGroup(s, c, stayed, Prune(left, name, Live(s)), name, verifier)
  }

  function EnterGroup(s: Server, c: Id, conn: Conn, table: Table, name: Name, verifier: seq<byte>): Effect {
    var outcome := JoinOutcome(table, name, verifier, c);
    var after := Enter(table, name, verifier, c);
    var entered := match outcome
      case Created => conn.(joined := name, presented := verifier)
      case Added => conn.(joined := name, presented := verifier)
      case AlreadyMember => conn.(joined := name)
      case _ => conn;
    Effect(Put(s, c, entered).(table := after), [Send(c, GroupResult(outcome, MemberCount(after, name)))])
  }

  /** Accepting right now, and not the one who asks. */
  function Accepting(conns: map<Id, Conn>, skip: Name): set<Id> {
    set m | m in conns && conns[m].phase == ReceiverIdle && !(skip != [] && conns[m].claimed == skip)
  }

  function NamesOf(conns: map<Id, Conn>, members: seq<Id>): seq<Name> {
    if members == [] then []
    else
      var last := members[|members| - 1];
      NamesOf(conns, members[..|members| - 1]) + if last in conns then [conns[last].claimed] else []
  }

  function Roster(conns: map<Id, Conn>, table: Table, name: Name, skip: Name): seq<Name> {
    if name in table.groups then NamesOf(conns, Keep(table.groups[name].members, Accepting(conns, skip))) else []
  }

  function HandleGroupSendRequest(s: Server, c: Id, name: Name, allowed: bool): Effect
    requires c in s.conns
  {
    if s.conns[c].phase != SenderIdle || !allowed then RejectAndClose(s, c)
    else if !ValidUsername(name) then ProtocolError(s, c)
    else
      var table := Prune(s.table, name, Live(s));
      var skip := if c in s.greetings then s.greetings[c] else [];
      Effect(s.(table := table), [Send(c, GroupRoster(Roster(s.conns, table, name, skip)))])
  }

  // -- Relaying -------------------------------------------------------------

  /** Both ends point at each other before either is seen to relay. */
  function Attach(conns: map<Id, Conn>, sender: Id, receiver: Id, id: nat): map<Id, Conn>
    requires sender in conns && receiver in conns
  {
    var one := conns[sender := conns[sender].(relayPeer := Some(receiver), phase := Relaying, relayId := id)];
    one[receiver := one[receiver].(relayPeer := Some(sender), phase := Relaying, relayId := id)]
  }

  function HandleRelayOpen(s: Server, c: Id): Effect
    requires c in s.conns
  {
    var id := s.conns[c].pairing;
    if !s.allowRelay || id == 0 || id !in s.table.pairings then RejectAndClose(s, c)
    else
      var p := s.table.pairings[id];
      if p.sender !in s.conns || p.receiver !in s.conns then RejectAndClose(s, c)
      else
        var fromSender := p.sender == c;
        var noted := s.(table := RequestRelay(s.table, id, fromSender), asked := s.asked + {(id, c)});
        if !RelayOpens(s.table, id, fromSender) then Effect(noted, [])
        else
          Effect(noted.(conns := Attach(s.conns, p.sender, p.receiver, id), relays := s.relays + {id}),
                 [Send(p.sender, RelayOpen), Send(p.receiver, RelayOpen)])
  }

  /** The peer to forward to, if it still exists. */
  function RelayPeer(s: Server, c: Id): Option<Id>
    requires c in s.conns
  {
    match s.conns[c].relayPeer case Some(d) => if d in s.conns then Some(d) else None case None => None
  }

  /** The branch that looks the peer up in the pairing. */
  predicate Recovers(s: Server, c: Id)
    requires c in s.conns
  {
    var id := s.conns[c].pairing;
    && RelayPeer(s, c).None? && id != 0 && id in s.table.pairings && s.table.pairings[id].active
    && s.table.pairings[id].sender in s.conns && s.table.pairings[id].receiver in s.conns
  }

  function HandleRelayData(s: Server, c: Id, payload: seq<byte>): Effect
    requires c in s.conns
  {
    if RelayPeer(s, c).Some? then Effect(s, [Send(RelayPeer(s, c).value, RelayData(payload))])
    else if Recovers(s, c) then
      var p := s.table.pairings[s.conns[c].pairing];
      Effect(s.(conns := Attach(s.conns, p.sender, p.receiver, s.conns[c].pairing)),
             [Send(if p.sender == c then p.receiver else p.sender, RelayData(payload))])
    else RejectAndClose(s, c)
  }

  function HandleRelayClose(s: Server, c: Id): Effect
    requires c in s.conns
  {
    var peer := RelayPeer(s, c);
    if peer.Some? then Effect(RequestClose(RequestClose(s, peer.value), c), [Send(peer.value, RelayClose)])
    else Effect(RequestClose(s, c), [])
  }

  // -- Connections come and go ----------------------------------------------

  /** A matched receiver goes back to idle; any other partner is told and closed. */
  function Bereave(s: Server, c: Id): Effect
    requires c in s.conns
  {
    var id := s.conns[c].pairing;
    if id == 0 || id !in s.table.pairings then Effect(s, [])
    else
      var p := s.table.pairings[id];
      var other := if p.sender == c then p.receiver else p.sender;
      if other !in s.conns || other == c then Effect(s, [])
      else if other == p.receiver && s.conns[other].phase == ReceiverMatched && !p.active then
        Effect(Put(s, other, s.conns[other].(phase := ReceiverIdle, pairing := 0)), [])
      else Effect(RequestClose(s, other), [Send(other, RelayClose)])
  }

  function Disconnect(s: Server, c: Id): Effect
    requires c in s.conns
  {
    var conn, live := s.conns[c], Live(s);
    var released := Release(s.table, conn.claimed, c, live);
    var left := if conn.joined == [] then released else Leave(released, conn.joined, c, live);
    var told := Bereave(s, c);
    var table := if conn.pairing == 0 then left else DestroyPairing(left, conn.pairing);
    Effect(told.server.(conns := told.server.conns - {c}, table := table, closing := told.server.closing - {c}), told.sends)
  }

  datatype Request =
    | Hello(receiver: bool, name: Name)
    | SendRequest(target: Name, allowed: bool)
    | Accept(decodes: bool)
    | Decline
    | GroupQuery(name: Name)
    | GroupJoin(name: Name, verifier: seq<byte>)
    | GroupSendRequest(name: Name, allowed: bool)
    | OpenRelay
    | Relay(payload: seq<byte>)
    | CloseRelay
    | KeepAlive
    | Bye
    | Unexpected

  function Handle(s: Server, c: Id, r: Request, now: nat): Effect
    requires c in s.conns
  {
    match r
    case Hello(receiver, name) => HandleHello(s, c, receiver, name)
    case SendRequest(target, allowed) => HandleSendRequest(s, c, target, allowed, now)
    case Accept(decodes) => HandleAccept(s, c, decodes)
    case Decline => HandleReject(s, c)
    case GroupQuery(name) => HandleGroupQuery(s, c, name)
    case GroupJoin(name, verifier) => HandleGroupJoin(s, c, name, verifier)
    case GroupSendRequest(name, allowed) => HandleGroupSendRequest(s, c, name, allowed)
    case OpenRelay => HandleRelayOpen(s, c)
    case Relay(payload) => HandleRelayData(s, c, payload)
    case CloseRelay => HandleRelayClose(s, c)
    case KeepAlive => Effect(s, [])
    case Bye => Effect(RequestClose(s, c), [])
    case Unexpected => RejectAndClose(s, c)
  }

  datatype Event = Arrives | Frame(from: Id, request: Request, now: nat) | Closes(who: Id) | Tick(now: nat, maxAge: nat)

  /** None for a connection that does not exist, or once the pairing counter has run out. */
  function After(s: Server, e: Event): Option<Effect> {
    match e
    case Arrives => Some(Effect(s.(conns := s.conns[s.next := ARRIVED], next := s.next + 1), []))
    case Frame(c, r, now) =>
      if c in s.conns && s.table.counter + 1 < U64 then Some(Handle(s, c, r, now)) else None
    case Closes(c) => if c in s.conns then Some(Disconnect(s, c)) else None
    case Tick(now, maxAge) => Some(Effect(s.(table := ExpirePairings(s.table, now, maxAge, Live(s))), []))
  }

  function Play(allowRelay: bool, salt: nat, events: seq<Event>): Option<Server> {
    if events == [] then Some(Start(allowRelay, salt))
    else
      var before := Play(allowRelay, salt, events[..|events| - 1]);
      if before.None? then None
      else
        var e := After(before.value, events[|events| - 1]);
        if e.None? then None else Some(e.value.server)
  }
}
