/** What every run of the session handlers keeps. */
module ServerGuarantees {

  import opened Bytes
  import opened LittleEndian
  import opened Names
  import opened SessionTables
  import opened ServerSessions
  import M = Messages

  // -- The invariant --------------------------------------------------------

  /** What the phase of a connection says about its other fields. */
  ghost predicate PhaseOk(conn: Conn) {
    && (!conn.greeted ==> conn == ARRIVED)
    && (conn.phase in {ReceiverIdle, ReceiverMatched} ==> conn.claimed != [])
    && (conn.phase in {SenderIdle, SenderWaiting, AwaitingHello} ==> conn.claimed == [])
    && (conn.claimed != [] ==> ValidUsername(conn.claimed))
    && (conn.joined != [] ==> conn.claimed != [])
    && (conn.phase in {ReceiverIdle, SenderIdle, AwaitingHello} ==> conn.pairing == 0)
    && (conn.relayPeer.Some? <==> conn.phase == Relaying)
  }

  ghost predicate PhasesOk(conns: map<Id, Conn>) { forall c <- conns :: PhaseOk(conns[c]) }

  /** The claim table and the connections agree. */
  ghost predicate ClaimsOk(conns: map<Id, Conn>, claims: map<Name, Id>) {
    && (forall n <- claims :: n != [] && claims[n] in conns && conns[claims[n]].claimed == n)
    && (forall c <- conns :: conns[c].claimed != [] ==> conns[c].claimed in claims && claims[conns[c].claimed] == c)
  }

  /** A pairing joins two different live connections that carry its id. */
  ghost predicate PairingOk(conns: map<Id, Conn>, id: nat, p: Pairing) {
    && p.sender in conns && p.receiver in conns && p.sender != p.receiver
    && conns[p.sender].pairing == id && conns[p.receiver].pairing == id
    && if p.active then
         && conns[p.sender].phase == Relaying && conns[p.receiver].phase == Relaying
         && conns[p.sender].relayPeer == Some(p.receiver) && conns[p.receiver].relayPeer == Some(p.sender)
       else
         conns[p.sender].phase == SenderWaiting && conns[p.receiver].phase == ReceiverMatched
  }

  ghost predicate PairingsOk(conns: map<Id, Conn>, pairings: map<nat, Pairing>, parties: map<nat, (Id, Id)>) {
    && (forall id <- pairings :: id != 0 && PairingOk(conns, id, pairings[id]))
    && (forall id <- pairings :: id in parties && parties[id] == (pairings[id].sender, pairings[id].receiver))
    && (forall c <- conns :: conns[c].pairing != 0 ==> conns[c].pairing in parties)
    && (forall c <- conns :: conns[c].pairing in pairings ==>
          c == pairings[conns[c].pairing].sender || c == pairings[conns[c].pairing].receiver)
  }

  /** Every id ever issued came from a counter value already passed. */
  ghost predicate IssuedBefore(id: nat, counter: nat, salt: nat) {
    exists k :: 0 <= k < counter && k < U64 && Mix(k, salt) == id
  }

  ghost predicate IdsOk(parties: map<nat, (Id, Id)>, counter: nat, salt: nat) {
    0 !in parties && forall id <- parties :: IssuedBefore(id, counter, salt)
  }

  /** Relay links are mutual, and go back to a relay that was opened. */
  ghost predicate LinksOk(conns: map<Id, Conn>, next: Id, parties: map<nat, (Id, Id)>, relays: set<nat>) {
    && (forall c <- conns :: c < next)
    && (forall c <- conns :: conns[c].relayPeer.Some? ==> LinkOk(conns, c, conns[c].relayPeer.value, next, parties, relays))
  }

  ghost predicate LinkOk(conns: map<Id, Conn>, c: Id, d: Id, next: Id, parties: map<nat, (Id, Id)>, relays: set<nat>)
    requires c in conns
  {
    && d != c && d < next
    && (d in conns ==> conns[d].relayPeer == Some(c))
    && conns[c].relayId in relays && conns[c].relayId in parties && parties[conns[c].relayId] in {(c, d), (d, c)}
  }

  /** A relay is open only where both parties have asked for it. */
  ghost predicate RelaysOk(pairings: map<nat, Pairing>, parties: map<nat, (Id, Id)>, relays: set<nat>, asked: set<(nat, Id)>) {
    && (forall id <- relays :: id in parties && (id, parties[id].0) in asked && (id, parties[id].1) in asked)
    && (forall id <- pairings :: pairings[id].active <==> id in relays)
    && (forall id <- pairings :: pairings[id].senderWants ==> (id, pairings[id].sender) in asked)
    && (forall id <- pairings :: pairings[id].receiverWants ==> (id, pairings[id].receiver) in asked)
  }

  /** Groups are small, without repeats, and made of connections that presented the creator's verifier. */
  ghost predicate GroupOk(conns: map<Id, Conn>, name: Name, g: Group) {
    && g.members != [] && |g.members| <= MAX_GROUP_MEMBERS && NoRepeats(g.members)
    && forall m <- g.members :: m in conns && conns[m].joined == name && conns[m].presented == g.verifier
  }

  ghost predicate GroupsOk(conns: map<Id, Conn>, groups: map<Name, Group>) {
    && (forall n <- groups :: n != [] && GroupOk(conns, n, groups[n]))
    && (forall c <- conns :: conns[c].joined != [] ==> conns[c].joined in groups && c in groups[conns[c].joined].members)
  }

  ghost predicate Inv(s: Server) {
    && PhasesOk(s.conns)
    && ClaimsOk(s.conns, s.table.claims)
    && PairingsOk(s.conns, s.table.pairings, s.parties)
    && IdsOk(s.parties, s.table.counter, s.table.salt)
    && LinksOk(s.conns, s.next, s.parties, s.relays)
    && RelaysOk(s.table.pairings, s.parties, s.relays, s.asked)
    && GroupsOk(s.conns, s.table.groups)
  }

  lemma StartInv(allowRelay: bool, salt: nat)
    ensures Inv(Start(allowRelay, salt))
  {
  }

  // -- Handlers that change little ------------------------------------------

  lemma PruneChangesNothing(s: Server, name: Name)
    requires Inv(s)
    ensures Prune(s.table, name, Live(s)) == s.table
  {
    hide PhasesOk, ClaimsOk, PairingsOk, IdsOk, LinksOk, RelaysOk;
    if name in s.table.groups {
      assert GroupOk(s.conns, name, s.table.groups[name]);
    }
    PruneLive(s.table, name, Live(s));
  }

  // -- One connection changes -----------------------------------------------

  lemma PhasesPut(conns: map<Id, Conn>, c: Id, conn: Conn)
    requires PhasesOk(conns) && PhaseOk(conn)
    ensures PhasesOk(conns[c := conn])
  {
    hide PhaseOk;
  }

  lemma ClaimsPut(conns: map<Id, Conn>, claims: map<Name, Id>, c: Id, conn: Conn)
    requires ClaimsOk(conns, claims) && c in conns && conn.claimed == conns[c].claimed
    ensures ClaimsOk(conns[c := conn], claims)
  {
  }

  /** The connection is in no pairing, or nothing a pairing cares about changes. */
  lemma PairingsPut(conns: map<Id, Conn>, pairings: map<nat, Pairing>, parties: map<nat, (Id, Id)>, c: Id, conn: Conn)
    requires PairingsOk(conns, pairings, parties) && c in conns
    requires (conns[c].pairing !in pairings && conn.pairing == 0)
          || (conn.pairing == conns[c].pairing && conn.phase == conns[c].phase && conn.relayPeer == conns[c].relayPeer)
    ensures PairingsOk(conns[c := conn], pairings, parties)
  {
    forall id <- pairings ensures PairingOk(conns[c := conn], id, pairings[id]) {
      assert PairingOk(conns, id, pairings[id]);
    }
  }

  lemma LinksPut(conns: map<Id, Conn>, next: Id, parties: map<nat, (Id, Id)>, relays: set<nat>, c: Id, conn: Conn)
    requires LinksOk(conns, next, parties, relays) && c in conns
    requires conn.relayPeer == conns[c].relayPeer && conn.relayId == conns[c].relayId
    ensures LinksOk(conns[c := conn], next, parties, relays)
  {
    var after := conns[c := conn];
    forall d <- after | after[d].relayPeer.Some? ensures LinkOk(after, d, after[d].relayPeer.value, next, parties, relays) {
      assert LinkOk(conns, d, conns[d].relayPeer.value, next, parties, relays);
    }
  }

  lemma GroupsPut(conns: map<Id, Conn>, groups: map<Name, Group>, c: Id, conn: Conn)
    requires GroupsOk(conns, groups) && c in conns && conn.joined == conns[c].joined && conn.presented == conns[c].presented
    ensures GroupsOk(conns[c := conn], groups)
  {
    forall n <- groups ensures GroupOk(conns[c := conn], n, groups[n]) {
      assert GroupOk(conns, n, groups[n]);
    }
  }

  // -- Hello ----------------------------------------------------------------

  lemma ClaimsGrant(conns: map<Id, Conn>, claims: map<Name, Id>, c: Id, conn: Conn, name: Name)
    requires ClaimsOk(conns, claims) && c in conns && conns[c].claimed == []
    requires name != [] && name !in claims && conn.claimed == name
    ensures ClaimsOk(conns[c := conn], claims[name := c])
  {
  }

  lemma HelloKeeps(s: Server, c: Id, receiver: bool, name: Name)
    requires Inv(s) && c in s.conns
    ensures Inv(HandleHello(s, c, receiver, name).server)
  {
    var conn, after := s.conns[c], HandleHello(s, c, receiver, name).server;
    assert 0 !in s.table.pairings by {
      hide PhasesOk, ClaimsOk, IdsOk, LinksOk, RelaysOk, GroupsOk, PairingOk;
    }
    M.UsernameShort(name);
    hide ValidUsername, PhasesOk, PairingsOk, IdsOk, LinksOk, RelaysOk, GroupsOk;
    PhaseAt(s, c);
    if !conn.greeted && ValidUsername(name) {
      var to := after.conns[c];
      assert PhaseOk(to);
      PhasesPut(s.conns, c, to);
      PairingsPut(s.conns, s.table.pairings, s.parties, c, to);
      LinksPut(s.conns, s.next, s.parties, s.relays, c, to);
      GroupsPut(s.conns, s.table.groups, c, to);
      if to.claimed == [] {
        ClaimsPut(s.conns, s.table.claims, c, to);
      } else {
        ClaimsGrant(s.conns, s.table.claims, c, to, name);
      }
    }
  }

  // -- Pairings come and go -------------------------------------------------

  /** Dropping pairings keeps what is said of the rest. */
  lemma FewerPairings(s: Server, pairings: map<nat, Pairing>)
    requires Inv(s) && forall id <- pairings :: id in s.table.pairings && pairings[id] == s.table.pairings[id]
    ensures PairingsOk(s.conns, pairings, s.parties)
    ensures RelaysOk(pairings, s.parties, s.relays, s.asked)
  {
    hide PhasesOk, ClaimsOk, IdsOk, LinksOk, GroupsOk, PairingOk;
  }

  lemma ExpiryKeeps(s: Server, now: nat, maxAge: nat)
    requires Inv(s)
    ensures Inv(s.(table := ExpirePairings(s.table, now, maxAge, Live(s))))
  {
    FewerPairings(s, ExpirePairings(s.table, now, maxAge, Live(s)).pairings);
    hide PhasesOk, ClaimsOk, PairingsOk, IdsOk, LinksOk, RelaysOk, GroupsOk;
  }

  /** A connection whose pairing is gone puts its id down. */
  lemma PutDown(s: Server, c: Id, conn: Conn, pairings: map<nat, Pairing>, closing: set<Id>)
    requires Inv(s) && c in s.conns && s.conns[c].pairing !in pairings && PhaseOk(conn)
    requires forall id <- pairings :: id in s.table.pairings && pairings[id] == s.table.pairings[id]
    requires conn == s.conns[c].(pairing := 0, phase := conn.phase)
    ensures Inv(s.(conns := s.conns[c := conn], table := s.table.(pairings := pairings), closing := closing))
  {
    FewerPairings(s, pairings);
    hide PhaseOk, PhasesOk, ClaimsOk, PairingsOk, IdsOk, LinksOk, RelaysOk, GroupsOk;
    PhasesPut(s.conns, c, conn);
    ClaimsPut(s.conns, s.table.claims, c, conn);
    PairingsPut(s.conns, pairings, s.parties, c, conn);
    LinksPut(s.conns, s.next, s.parties, s.relays, c, conn);
    GroupsPut(s.conns, s.table.groups, c, conn);
  }

  lemma RejectKeeps(s: Server, c: Id)
    requires Inv(s) && c in s.conns
    ensures Inv(HandleReject(s, c).server)
  {
    hide PhasesOk, ClaimsOk, PairingsOk, IdsOk, LinksOk, RelaysOk, GroupsOk, ValidUsername;
    var conn, after := s.conns[c], HandleReject(s, c).server;
    PhaseAt(s, c);
    if conn.pairing != 0 {
      assert PhaseOk(after.conns[c]);
      PutDown(s, c, after.conns[c], after.table.pairings, after.closing);
    }
  }

  /** A matched pairing always finds its sender alive. */
  lemma AcceptKeeps(s: Server, c: Id, decodes: bool)
    requires Inv(s) && c in s.conns
    ensures Inv(HandleAccept(s, c, decodes).server)
  {
    hide PhasesOk, ClaimsOk, IdsOk, LinksOk, RelaysOk, GroupsOk;
    var id := s.conns[c].pairing;
    if id in s.table.pairings {
      assert PairingOk(s.conns, id, s.table.pairings[id]);
    }
  }

  // -- Introductions --------------------------------------------------------

  /** The id of a new pairing has never been issued before. */
  lemma NewIdFresh(s: Server, k: nat)
    requires Inv(s) && s.table.counter <= k < U64
    ensures Mix(k, s.table.salt) !in s.parties
  {
    hide PhasesOk, ClaimsOk, PairingsOk, LinksOk, RelaysOk, GroupsOk, Mix;
    if Mix(k, s.table.salt) in s.parties {
      var j :| 0 <= j < s.table.counter && j < U64 && Mix(j, s.table.salt) == Mix(k, s.table.salt);
      MixInjective(j, k, s.table.salt);
    }
  }

  lemma IdsGrow(parties: map<nat, (Id, Id)>, counter: nat, salt: nat, k: nat, both: (Id, Id))
    requires IdsOk(parties, counter, salt) && counter <= k < U64 && Mix(k, salt) != 0
    ensures IdsOk(parties[Mix(k, salt) := both], k + 1, salt)
  {
    hide Mix;
    forall id <- parties ensures IssuedBefore(id, k + 1, salt) {
      var j :| 0 <= j < counter && j < U64 && Mix(j, salt) == id;
      assert j < k + 1 && Mix(j, salt) == id;
    }
  }

  lemma PairingsGrow(conns: map<Id, Conn>, pairings: map<nat, Pairing>, parties: map<nat, (Id, Id)>, after: map<Id, Conn>,
                     id: nat, p: Pairing)
    requires PairingsOk(conns, pairings, parties)
    requires id != 0 && id !in parties && p.sender in conns && p.receiver in conns && p.sender != p.receiver && !p.active
    requires conns[p.sender].pairing == 0 && conns[p.receiver].pairing == 0
    requires after == conns[p.sender := conns[p.sender].(pairing := id, phase := SenderWaiting)]
                           [p.receiver := conns[p.receiver].(pairing := id, phase := ReceiverMatched)]
    ensures PairingsOk(after, pairings[id := p], parties[id := (p.sender, p.receiver)])
  {
    assert id !in pairings && 0 !in pairings;
    forall i <- pairings ensures PairingOk(after, i, pairings[i]) {
      assert PairingOk(conns, i, pairings[i]);
    }
    assert PairingOk(after, id, p);
    hide PairingOk;
  }

  lemma LinksSurvive(conns: map<Id, Conn>, after: map<Id, Conn>, next: Id, parties: map<nat, (Id, Id)>, relays: set<nat>,
                     id: nat, both: (Id, Id))
    requires LinksOk(conns, next, parties, relays) && id !in parties && after.Keys == conns.Keys
    requires forall c <- conns :: after[c].relayPeer == conns[c].relayPeer && after[c].relayId == conns[c].relayId
    ensures LinksOk(after, next, parties[id := both], relays)
  {
    forall d <- after | after[d].relayPeer.Some?
      ensures LinkOk(after, d, after[d].relayPeer.value, next, parties[id := both], relays)
    {
      assert LinkOk(conns, d, conns[d].relayPeer.value, next, parties, relays);
    }
  }

  lemma RelaysGrow(pairings: map<nat, Pairing>, parties: map<nat, (Id, Id)>, relays: set<nat>, asked: set<(nat, Id)>,
                   id: nat, p: Pairing)
    requires RelaysOk(pairings, parties, relays, asked) && id !in parties
    requires !p.active && !p.senderWants && !p.receiverWants
    ensures RelaysOk(pairings[id := p], parties[id := (p.sender, p.receiver)], relays, asked)
  {
  }

  lemma PhaseAt(s: Server, c: Id)
    requires Inv(s) && c in s.conns
    ensures PhaseOk(s.conns[c])
  {
    hide PhaseOk, ClaimsOk, PairingsOk, IdsOk, LinksOk, RelaysOk, GroupsOk;
  }

  lemma PhaseIntroduced(conn: Conn, id: nat)
    requires PhaseOk(conn)
    ensures conn.phase == SenderIdle ==> conn.pairing == 0 && PhaseOk(conn.(pairing := id, phase := SenderWaiting))
    ensures conn.phase == ReceiverIdle ==> conn.pairing == 0 && PhaseOk(conn.(pairing := id, phase := ReceiverMatched))
  {
    hide ValidUsername;
  }

  lemma IntroduceRest(conns: map<Id, Conn>, claims: map<Name, Id>, groups: map<Name, Group>, id: nat, sender: Id, receiver: Id)
    requires PhasesOk(conns) && ClaimsOk(conns, claims) && GroupsOk(conns, groups) && sender in conns && receiver in conns
    requires conns[sender].phase == SenderIdle && conns[receiver].phase == ReceiverIdle
    ensures var after := conns[sender := conns[sender].(pairing := id, phase := SenderWaiting)]
                              [receiver := conns[receiver].(pairing := id, phase := ReceiverMatched)];
            PhasesOk(after) && ClaimsOk(after, claims) && GroupsOk(after, groups)
  {
    assert PhaseOk(conns[sender]) && PhaseOk(conns[receiver]);
    hide PhaseOk, PhasesOk, ClaimsOk, GroupsOk;
    PhaseIntroduced(conns[sender], id);
    PhaseIntroduced(conns[receiver], id);
    var s1, r1 := conns[sender].(pairing := id, phase := SenderWaiting), conns[receiver].(pairing := id, phase := ReceiverMatched);
    var one := conns[sender := s1];
    PhasesPut(conns, sender, s1);
    PhasesPut(one, receiver, r1);
    ClaimsPut(conns, claims, sender, s1);
    ClaimsPut(one, claims, receiver, r1);
    GroupsPut(conns, groups, sender, s1);
    GroupsPut(one, groups, receiver, r1);
  }

  lemma Introduced(s: Server, c: Id, receiver: Id, id: nat, p: Pairing, counter: nat, conns: map<Id, Conn>)
    requires Inv(s) && c in s.conns && receiver in s.conns
    requires s.conns[c].phase == SenderIdle && s.conns[receiver].phase == ReceiverIdle
    requires id != 0 && id !in s.parties && IdsOk(s.parties[id := (c, receiver)], counter, s.table.salt)
    requires p == Pairing(c, receiver, p.created, false, false, false)
    requires conns == s.conns[c := s.conns[c].(pairing := id, phase := SenderWaiting)]
                            [receiver := s.conns[receiver].(pairing := id, phase := ReceiverMatched)]
    ensures Inv(s.(conns := conns, parties := s.parties[id := (c, receiver)],
                   table := s.table.(counter := counter, pairings := s.table.pairings[id := p])))
  {
    hide PhaseOk, PhasesOk, ClaimsOk, PairingsOk, IdsOk, LinksOk, RelaysOk, GroupsOk;
    PhaseAt(s, c);
    PhaseAt(s, receiver);
    PhaseIntroduced(s.conns[c], id);
    PhaseIntroduced(s.conns[receiver], id);
    PairingsGrow(s.conns, s.table.pairings, s.parties, conns, id, p);
    RelaysGrow(s.table.pairings, s.parties, s.relays, s.asked, id, p);
    LinksSurvive(s.conns, conns, s.next, s.parties, s.relays, id, (c, receiver));
    IntroduceRest(s.conns, s.table.claims, s.table.groups, id, c, receiver);
  }

  lemma IntroduceKeeps(s: Server, c: Id, receiver: Id, now: nat, k: nat)
    requires Inv(s) && c in s.conns && receiver in s.conns
    requires s.conns[c].phase == SenderIdle && s.conns[receiver].phase == ReceiverIdle
    requires s.table.counter <= k < U64 && Mix(k, s.table.salt) != 0
    ensures Inv(Introduce(s, c, receiver, now, k).server)
  {
    hide Mix, PhasesOk, ClaimsOk, PairingsOk, IdsOk, LinksOk, RelaysOk, GroupsOk;
    NewIdFresh(s, k);
    IdsGrow(s.parties, s.table.counter, s.table.salt, k, (c, receiver));
    hide Inv;
    Introduced(s, c, receiver, Mix(k, s.table.salt), Pairing(c, receiver, now, false, false, false), k + 1,
               Introduce(s, c, receiver, now, k).server.conns);
  }

  lemma SendRequestKeeps(s: Server, c: Id, target: Name, allowed: bool, now: nat)
    requires Inv(s) && c in s.conns
    ensures Inv(HandleSendRequest(s, c, target, allowed, now).server)
  {
    hide Inv, ValidUsername, Introduce, Mix, FirstFree;
    assert Inv(RejectAndClose(s, c).server) && Inv(ProtocolError(s, c).server) by {
      ClosingKeeps(s, s.closing + {c});
    }
    var receiver := Lookup(s.table, target, Live(s));
    var k := FirstFree(s.table.counter, s.table.salt, s.table.pairings.Keys);
    if s.conns[c].phase == SenderIdle && receiver.Some? && s.conns[receiver.value].phase == ReceiverIdle && k.Some? {
      IntroduceKeeps(s, c, receiver.value, now, k.value);
    }
  }

  lemma ClosingKeeps(s: Server, closing: set<Id>)
    requires Inv(s)
    ensures Inv(s.(closing := closing))
  {
    hide PhasesOk, ClaimsOk, PairingsOk, IdsOk, LinksOk, RelaysOk, GroupsOk;
  }

  // -- Groups ---------------------------------------------------------------

  /** A group without some of its members. */
  ghost predicate Thinned(before: Group, after: Group, gone: set<Id>) {
    && after.verifier == before.verifier && after.members != [] && |after.members| <= |before.members|
    && (NoRepeats(before.members) ==> NoRepeats(after.members))
    && forall m :: m in after.members <==> m in before.members && m !in gone
  }

  ghost predicate Emptied(before: Group, gone: set<Id>) { forall m <- before.members :: m in gone }

  /** Leaving takes one connection out of one group, and an empty group out of the table. */
  ghost predicate LeftBehind(before: map<Name, Group>, after: map<Name, Group>, name: Name, c: Id) {
    && (forall n <- after :: n in before && Thinned(before[n], after[n], if n == name then {c} else {}))
    && (forall n <- before :: n !in after ==> n == name && Emptied(before[n], {c}))
  }

  lemma ThinnedByLeaving(g: Group, live: set<Id>, c: Id)
    requires forall m <- g.members :: m in live
    ensures var members := Keep(g.members, live - {c});
            if members == [] then Emptied(g, {c}) else Thinned(g, g.(members := members), {c})
  {
    KeepMembers(g.members, live - {c});
    hide Keep;
    var members := Keep(g.members, live - {c});
    if members == [] {
      forall m <- g.members ensures m in {c} {
        assert m !in members;
      }
    }
  }

  lemma LeaveLeaves(conns: map<Id, Conn>, table: Table, c: Id, name: Name)
    requires GroupsOk(conns, table.groups) && c in conns && name == conns[c].joined && name != []
    ensures LeftBehind(table.groups, Leave(table, name, c, conns.Keys).groups, name, c)
  {
    assert name in table.groups && GroupOk(conns, name, table.groups[name]);
    ThinnedByLeaving(table.groups[name], conns.Keys, c);
    forall n <- table.groups ensures Thinned(table.groups[n], table.groups[n], {}) {
      assert GroupOk(conns, n, table.groups[n]);
    }
    hide Keep, Thinned, Emptied, GroupOk, GroupsOk;
  }

  lemma LeaveKeeps(conns: map<Id, Conn>, table: Table, c: Id, conn: Conn)
    requires GroupsOk(conns, table.groups) && c in conns && conns[c].joined != [] && conn.joined == []
    ensures GroupsOk(conns[c := conn], Leave(table, conns[c].joined, c, conns.Keys).groups)
  {
    var groups := Leave(table, conns[c].joined, c, conns.Keys).groups;
    LeaveLeaves(conns, table, c, conns[c].joined);
    hide Leave, NoRepeats;
    forall n <- groups ensures GroupOk(conns[c := conn], n, groups[n]) {
      assert GroupOk(conns, n, table.groups[n]);
    }
  }

  lemma LeaveGoes(conns: map<Id, Conn>, table: Table, c: Id)
    requires GroupsOk(conns, table.groups) && c in conns && conns[c].joined != []
    ensures GroupsOk(conns - {c}, Leave(table, conns[c].joined, c, conns.Keys).groups)
  {
    var groups := Leave(table, conns[c].joined, c, conns.Keys).groups;
    LeaveLeaves(conns, table, c, conns[c].joined);
    hide Leave, NoRepeats;
    forall n <- groups ensures GroupOk(conns - {c}, n, groups[n]) {
      assert GroupOk(conns, n, table.groups[n]);
    }
  }

  lemma EnterKeeps(conns: map<Id, Conn>, table: Table, c: Id, conn: Conn, name: Name, verifier: seq<byte>)
    requires GroupsOk(conns, table.groups) && c in conns && name != [] && (conns[c].joined == [] || conns[c].joined == name)
    requires JoinOutcome(table, name, verifier, c) in {Created, Added}
    requires conn.joined == name && conn.presented == verifier
    ensures GroupsOk(conns[c := conn], Enter(table, name, verifier, c).groups)
  {
    var groups := Enter(table, name, verifier, c).groups;
    assert conns[c].joined == [];
    forall n <- groups ensures GroupOk(conns[c := conn], n, groups[n]) {
      if n in table.groups {
        assert GroupOk(conns, n, table.groups[n]);
      }
    }
  }

  lemma MemberJoined(conns: map<Id, Conn>, table: Table, c: Id, name: Name, verifier: seq<byte>)
    requires GroupsOk(conns, table.groups) && JoinOutcome(table, name, verifier, c) == AlreadyMember
    ensures c in conns && conns[c].joined == name
  {
    assert GroupOk(conns, name, table.groups[name]);
  }

  /** The rest of the server does not look at groups. */
  lemma RegroupedKeeps(s: Server, c: Id, conn: Conn, groups: map<Name, Group>)
    requires Inv(s) && c in s.conns && PhaseOk(conn) && GroupsOk(s.conns[c := conn], groups)
    requires conn == s.conns[c].(joined := conn.joined, presented := conn.presented)
    ensures Inv(s.(conns := s.conns[c := conn], table := s.table.(groups := groups)))
  {
    hide PhaseOk, PhasesOk, ClaimsOk, PairingsOk, IdsOk, LinksOk, RelaysOk, GroupsOk;
    PhasesPut(s.conns, c, conn);
    ClaimsPut(s.conns, s.table.claims, c, conn);
    PairingsPut(s.conns, s.table.pairings, s.parties, c, conn);
    LinksPut(s.conns, s.next, s.parties, s.relays, c, conn);
  }

  lemma EnterGroupKeeps(s: Server, c: Id, name: Name, verifier: seq<byte>)
    requires Inv(s) && c in s.conns && name != [] && (s.conns[c].joined == [] || s.conns[c].joined == name)
    requires s.conns[c].claimed != []
    ensures Inv(EnterGroup(s, c, s.conns[c], s.table, name, verifier).server)
  {
    hide PhasesOk, ClaimsOk, PairingsOk, IdsOk, LinksOk, RelaysOk, GroupsOk, ValidUsername;
    var after := EnterGroup(s, c, s.conns[c], s.table, name, verifier).server;
    PhaseAt(s, c);
    match JoinOutcome(s.table, name, verifier, c) {
      case Created => EnterKeeps(s.conns, s.table, c, after.conns[c], name, verifier);
      case Added => EnterKeeps(s.conns, s.table, c, after.conns[c], name, verifier);
      case AlreadyMember =>
        MemberJoined(s.conns, s.table, c, name, verifier);
        GroupsPut(s.conns, s.table.groups, c, after.conns[c]);
      case _ => GroupsPut(s.conns, s.table.groups, c, after.conns[c]);
    }
    RegroupedKeeps(s, c, after.conns[c], after.table.groups);
  }

  lemma MoveKeeps(s: Server, left: Server, c: Id, stayed: Conn, table: Table, name: Name, verifier: seq<byte>)
    requires left == Put(s, c, stayed).(table := table) && Inv(left) && c in s.conns
    requires name != [] && stayed.joined == [] && stayed.claimed != []
    ensures Inv(EnterGroup(s, c, stayed, Prune(table, name, Live(s)), name, verifier).server)
  {
    assert Live(left) == Live(s);
    hide Inv, Prune, EnterGroup;
    PruneChangesNothing(left, name);
    EnterGroupKeeps(left, c, name, verifier);
    EnterGroupSame(s, left, c, stayed, table, name, verifier);
  }

  lemma GroupJoinKeeps(s: Server, c: Id, name: Name, verifier: seq<byte>)
    requires Inv(s) && c in s.conns
    ensures Inv(HandleGroupJoin(s, c, name, verifier).server)
  {
    var conn := s.conns[c];
    M.UsernameShort(name);
    hide PhasesOk, ClaimsOk, PairingsOk, IdsOk, LinksOk, RelaysOk, GroupsOk, ValidUsername, Leave, Prune, EnterGroup;
    PhaseAt(s, c);
    if conn.phase == ReceiverIdle && ValidUsername(name) {
      if conn.joined != [] && conn.joined != name {
        var stayed, table := conn.(joined := []), Leave(s.table, conn.joined, c, Live(s));
        LeaveKeeps(s.conns, s.table, c, stayed);
        LeaveOnlyGroups(s.table, conn.joined, c, Live(s));
        RegroupedKeeps(s, c, stayed, table.groups);
        var left := Put(s, c, stayed).(table := table);
        hide Inv, PhaseOk;
        MoveKeeps(s, left, c, stayed, table, name, verifier);
      } else {
        PruneChangesNothing(s, name);
        EnterGroupKeeps(s, c, name, verifier);
      }
    }
  }

  lemma LeaveOnlyGroups(t: Table, name: Name, who: Id, live: set<Id>)
    ensures Leave(t, name, who, live) == t.(groups := Leave(t, name, who, live).groups)
  {
  }

  /** Entering after leaving is entering from the state that leaving left. */
  lemma EnterGroupSame(s: Server, left: Server, c: Id, conn: Conn, table: Table, name: Name, verifier: seq<byte>)
    requires left == Put(s, c, conn).(table := table)
    ensures EnterGroup(s, c, conn, table, name, verifier) == EnterGroup(left, c, conn, left.table, name, verifier)
  {
    var e := EnterGroup(s, c, conn, table, name, verifier).server.conns[c];
    assert s.conns[c := e] == s.conns[c := conn][c := e];
  }

  // -- Relays ---------------------------------------------------------------

  /** Noting that one side has asked. */
  lemma AskKeeps(s: Server, c: Id, id: nat, p: Pairing)
    requires Inv(s) && id in s.table.pairings && c in {s.table.pairings[id].sender, s.table.pairings[id].receiver}
    requires p == Wanting(s.table.pairings[id], s.table.pairings[id].sender == c)
    ensures PairingsOk(s.conns, s.table.pairings[id := p], s.parties)
    ensures RelaysOk(s.table.pairings[id := p], s.parties, s.relays, s.asked + {(id, c)})
  {
    hide PhasesOk, ClaimsOk, IdsOk, LinksOk, GroupsOk;
    var pairings := s.table.pairings[id := p];
    forall i <- pairings ensures PairingOk(s.conns, i, pairings[i]) {
      assert PairingOk(s.conns, i, s.table.pairings[i]);
    }
    hide PairingOk;
  }

  lemma AttachPairings(conns: map<Id, Conn>, pairings: map<nat, Pairing>, parties: map<nat, (Id, Id)>, id: nat, p: Pairing)
    requires PairingsOk(conns, pairings, parties) && id in pairings && !pairings[id].active
    requires p == pairings[id].(active := true, senderWants := p.senderWants, receiverWants := p.receiverWants)
    ensures PairingOk(conns, id, pairings[id])
    ensures PairingsOk(Attach(conns, p.sender, p.receiver, id), pairings[id := p], parties)
  {
    assert PairingOk(conns, id, pairings[id]);
    var after, later := Attach(conns, p.sender, p.receiver, id), pairings[id := p];
    forall i <- later ensures PairingOk(after, i, later[i]) {
      assert PairingOk(conns, i, pairings[i]);
    }
    hide PairingOk;
  }

  lemma AttachLinks(conns: map<Id, Conn>, next: Id, parties: map<nat, (Id, Id)>, relays: set<nat>, id: nat, sender: Id, receiver: Id)
    requires LinksOk(conns, next, parties, relays) && sender in conns && receiver in conns && sender != receiver
    requires conns[sender].relayPeer == None && conns[receiver].relayPeer == None
    requires id in parties && parties[id] == (sender, receiver)
    ensures LinksOk(Attach(conns, sender, receiver, id), next, parties, relays + {id})
  {
    var after := Attach(conns, sender, receiver, id);
    forall d <- after | after[d].relayPeer.Some?
      ensures LinkOk(after, d, after[d].relayPeer.value, next, parties, relays + {id})
    {
      if d != sender && d != receiver {
        assert LinkOk(conns, d, conns[d].relayPeer.value, next, parties, relays);
      }
    }
  }

  lemma AttachRest(conns: map<Id, Conn>, claims: map<Name, Id>, groups: map<Name, Group>, id: nat, sender: Id, receiver: Id)
    requires PhasesOk(conns) && ClaimsOk(conns, claims) && GroupsOk(conns, groups) && sender in conns && receiver in conns
    requires conns[sender].phase == SenderWaiting && conns[receiver].phase == ReceiverMatched
    ensures PhasesOk(Attach(conns, sender, receiver, id))
    ensures ClaimsOk(Attach(conns, sender, receiver, id), claims)
    ensures GroupsOk(Attach(conns, sender, receiver, id), groups)
  {
    assert PhaseOk(conns[sender]) && PhaseOk(conns[receiver]);
    hide PhasesOk, ClaimsOk, GroupsOk, ValidUsername;
    var s1 := conns[sender].(relayPeer := Some(receiver), phase := Relaying, relayId := id);
    var one := conns[sender := s1];
    var r1 := one[receiver].(relayPeer := Some(sender), phase := Relaying, relayId := id);
    PhasesPut(conns, sender, s1);
    PhasesPut(one, receiver, r1);
    ClaimsPut(conns, claims, sender, s1);
    ClaimsPut(one, claims, receiver, r1);
    GroupsPut(conns, groups, sender, s1);
    GroupsPut(one, groups, receiver, r1);
  }

  lemma OpenedRelays(pairings: map<nat, Pairing>, parties: map<nat, (Id, Id)>, relays: set<nat>, asked: set<(nat, Id)>, id: nat)
    requires RelaysOk(pairings, parties, relays, asked) && id in pairings && id in parties
    requires parties[id] == (pairings[id].sender, pairings[id].receiver) && Opens(pairings[id])
    ensures RelaysOk(pairings[id := pairings[id].(active := true)], parties, relays + {id}, asked)
  {
  }

  lemma PartyOf(s: Server, c: Id)
    requires Inv(s) && c in s.conns && s.conns[c].pairing in s.table.pairings
    ensures var id := s.conns[c].pairing;
            && id in s.parties && PairingOk(s.conns, id, s.table.pairings[id])
            && s.parties[id] == (s.table.pairings[id].sender, s.table.pairings[id].receiver)
            && c in {s.table.pairings[id].sender, s.table.pairings[id].receiver}
  {
    hide PhasesOk, ClaimsOk, IdsOk, LinksOk, RelaysOk, GroupsOk, PairingOk;
  }

  lemma NotRelayingYet(s: Server, id: nat)
    requires Inv(s) && id in s.table.pairings && !s.table.pairings[id].active
    ensures var p := s.table.pairings[id];
            && p.sender in s.conns && p.receiver in s.conns && p.sender != p.receiver
            && s.conns[p.sender].phase == SenderWaiting && s.conns[p.receiver].phase == ReceiverMatched
            && s.conns[p.sender].relayPeer == None && s.conns[p.receiver].relayPeer == None
  {
    assert PairingOk(s.conns, id, s.table.pairings[id]);
    hide PhasesOk, ClaimsOk, PairingsOk, IdsOk, LinksOk, RelaysOk, GroupsOk, ValidUsername;
    PhaseAt(s, s.table.pairings[id].sender);
    PhaseAt(s, s.table.pairings[id].receiver);
  }

  lemma OpenKeeps(s: Server, c: Id, id: nat, p: Pairing, asked: set<(nat, Id)>)
    requires Inv(s) && c in s.conns && id == s.conns[c].pairing && id in s.table.pairings && !s.table.pairings[id].active
    requires p == Wanting(s.table.pairings[id], s.table.pairings[id].sender == c) && Opens(p) && asked == s.asked + {(id, c)}
    ensures PairingOk(s.conns, id, s.table.pairings[id])
    ensures Inv(s.(conns := Attach(s.conns, p.sender, p.receiver, id), relays := s.relays + {id}, asked := asked,
                   table := s.table.(pairings := s.table.pairings[id := p.(active := true)])))
  {
    hide PhasesOk, ClaimsOk, PairingsOk, IdsOk, LinksOk, RelaysOk, GroupsOk, Attach;
    PartyOf(s, c);
    AskKeeps(s, c, id, p);
    NotRelayingYet(s, id);
    hide PhaseOk, PairingOk;
    AttachPairings(s.conns, s.table.pairings, s.parties, id, p.(active := true));
    AttachLinks(s.conns, s.next, s.parties, s.relays, id, p.sender, p.receiver);
    AttachRest(s.conns, s.table.claims, s.table.groups, id, p.sender, p.receiver);
    OpenedRelays(s.table.pairings[id := p], s.parties, s.relays, asked, id);
    assert s.table.pairings[id := p][id := p.(active := true)] == s.table.pairings[id := p.(active := true)];
  }

  lemma RelayOpenKeeps(s: Server, c: Id)
    requires Inv(s) && c in s.conns
    ensures Inv(HandleRelayOpen(s, c).server)
  {
    hide PhasesOk, ClaimsOk, PairingsOk, IdsOk, LinksOk, RelaysOk, GroupsOk, Attach;
    var id := s.conns[c].pairing;
    if s.allowRelay && id != 0 && id in s.table.pairings {
      PartyOf(s, c);
      var p := Wanting(s.table.pairings[id], s.table.pairings[id].sender == c);
      AskKeeps(s, c, id, p);
      if Opens(p) {
        OpenKeeps(s, c, id, p, s.asked + {(id, c)});
      }
    }
  }

  /** The pairing table never has to supply a relay peer. */
  lemma NoRecovery(s: Server, c: Id)
    requires Inv(s) && c in s.conns
    ensures !Recovers(s, c)
  {
    hide PhasesOk, ClaimsOk, PairingsOk, IdsOk, LinksOk, RelaysOk, GroupsOk;
    if s.conns[c].pairing in s.table.pairings {
      PartyOf(s, c);
    }
  }

  // -- Connections come and go ----------------------------------------------

  lemma ArrivalKeeps(s: Server)
    requires Inv(s)
    ensures Inv(s.(conns := s.conns[s.next := ARRIVED], next := s.next + 1))
  {
    assert s.next !in s.conns && 0 !in s.table.pairings by {
      hide PhasesOk, ClaimsOk, IdsOk, RelaysOk, GroupsOk, PairingOk, LinkOk;
    }
    var after := s.conns[s.next := ARRIVED];
    ArrivalPairings(s.conns, s.table.pairings, s.parties, s.next);
    ArrivalLinks(s.conns, s.next, s.parties, s.relays);
    ArrivalGroups(s.conns, s.table.groups, s.next);
    hide PairingsOk, IdsOk, LinksOk, RelaysOk, GroupsOk, PhasesOk, ValidUsername;
    PhasesPut(s.conns, s.next, ARRIVED);
  }

  lemma ArrivalPairings(conns: map<Id, Conn>, pairings: map<nat, Pairing>, parties: map<nat, (Id, Id)>, c: Id)
    requires PairingsOk(conns, pairings, parties) && c !in conns
    ensures PairingsOk(conns[c := ARRIVED], pairings, parties)
  {
    forall id <- pairings ensures PairingOk(conns[c := ARRIVED], id, pairings[id]) {
      assert PairingOk(conns, id, pairings[id]);
    }
  }

  lemma ArrivalLinks(conns: map<Id, Conn>, next: Id, parties: map<nat, (Id, Id)>, relays: set<nat>)
    requires LinksOk(conns, next, parties, relays)
    ensures LinksOk(conns[next := ARRIVED], next + 1, parties, relays)
  {
    var after := conns[next := ARRIVED];
    forall d <- after | after[d].relayPeer.Some? ensures LinkOk(after, d, after[d].relayPeer.value, next + 1, parties, relays) {
      assert LinkOk(conns, d, conns[d].relayPeer.value, next, parties, relays);
    }
  }

  lemma ArrivalGroups(conns: map<Id, Conn>, groups: map<Name, Group>, c: Id)
    requires GroupsOk(conns, groups) && c !in conns
    ensures GroupsOk(conns[c := ARRIVED], groups)
  {
    forall n <- groups ensures GroupOk(conns[c := ARRIVED], n, groups[n]) {
      assert GroupOk(conns, n, groups[n]);
    }
  }

  lemma ClaimsGo(conns: map<Id, Conn>, table: Table, c: Id)
    requires ClaimsOk(conns, table.claims) && c in conns
    ensures ClaimsOk(conns - {c}, Release(table, conns[c].claimed, c, conns.Keys).claims)
  {
  }

  lemma PairingsGo(conns: map<Id, Conn>, pairings: map<nat, Pairing>, parties: map<nat, (Id, Id)>, c: Id)
    requires PairingsOk(conns, pairings, parties) && c in conns && conns[c].pairing !in pairings
    ensures PairingsOk(conns - {c}, pairings, parties)
  {
    forall id <- pairings ensures PairingOk(conns - {c}, id, pairings[id]) {
      assert PairingOk(conns, id, pairings[id]);
    }
  }

  lemma LinksGo(conns: map<Id, Conn>, next: Id, parties: map<nat, (Id, Id)>, relays: set<nat>, c: Id)
    requires LinksOk(conns, next, parties, relays)
    ensures LinksOk(conns - {c}, next, parties, relays)
  {
    var after := conns - {c};
    forall d <- after | after[d].relayPeer.Some? ensures LinkOk(after, d, after[d].relayPeer.value, next, parties, relays) {
      assert LinkOk(conns, d, conns[d].relayPeer.value, next, parties, relays);
    }
  }

  lemma GroupsGo(conns: map<Id, Conn>, groups: map<Name, Group>, c: Id)
    requires GroupsOk(conns, groups) && c in conns && conns[c].joined == []
    ensures GroupsOk(conns - {c}, groups)
  {
    forall n <- groups ensures GroupOk(conns - {c}, n, groups[n]) {
      assert GroupOk(conns, n, groups[n]);
    }
  }

  /** A connection without a pairing leaves the table and the others as they should be. */
  lemma GoneKeeps(s: Server, c: Id, table: Table, closing: set<Id>)
    requires Inv(s) && c in s.conns && s.conns[c].pairing !in s.table.pairings
    requires table == s.table.(claims := Release(s.table, s.conns[c].claimed, c, Live(s)).claims,
                               groups := if s.conns[c].joined == [] then s.table.groups
                                         else Leave(s.table, s.conns[c].joined, c, Live(s)).groups)
    ensures Inv(s.(conns := s.conns - {c}, table := table, closing := closing))
  {
    hide ClaimsOk, PairingsOk, IdsOk, LinksOk, RelaysOk, GroupsOk, Release, Leave, PhaseOk;
    ClaimsGo(s.conns, s.table, c);
    PairingsGo(s.conns, s.table.pairings, s.parties, c);
    LinksGo(s.conns, s.next, s.parties, s.relays, c);
    if s.conns[c].joined == [] {
      GroupsGo(s.conns, s.table.groups, c);
    } else {
      LeaveGoes(s.conns, s.table, c);
    }
  }

  /** The partner of a connection that goes away. */
  lemma BereaveKeeps(s: Server, c: Id)
    requires Inv(s) && c in s.conns
    ensures var told := Bereave(s, c).server;
            && c in told.conns && told.conns.Keys == s.conns.Keys && told.conns[c] == s.conns[c] && told.table == s.table
            && s.conns[c].pairing !in s.table.pairings - {s.conns[c].pairing}
            && Inv(told.(table := s.table.(pairings := s.table.pairings - {s.conns[c].pairing})))
  {
    hide PhasesOk, ClaimsOk, PairingsOk, IdsOk, LinksOk, RelaysOk, GroupsOk, ValidUsername;
    var id, told := s.conns[c].pairing, Bereave(s, c).server;
    var pairings := s.table.pairings - {id};
    FewerPairings(s, pairings);
    if id in s.table.pairings {
      PartyOf(s, c);
      var p := s.table.pairings[id];
      var other := if p.sender == c then p.receiver else p.sender;
      PhaseAt(s, other);
      if told.conns != s.conns {
        PutDown(s, other, told.conns[other], pairings, told.closing);
      }
    }
  }

  lemma DisconnectShape(s: Server, c: Id)
    requires c in s.conns && 0 !in s.table.pairings
    ensures Disconnect(s, c).server.table ==
            s.table.(claims := Release(s.table, s.conns[c].claimed, c, Live(s)).claims,
                     groups := if s.conns[c].joined == [] then s.table.groups
                               else Leave(s.table, s.conns[c].joined, c, Live(s)).groups,
                     pairings := s.table.pairings - {s.conns[c].pairing})
  {
    assert s.conns[c].pairing == 0 ==> s.table.pairings - {0} == s.table.pairings;
  }

  lemma DisconnectKeeps(s: Server, c: Id)
    requires Inv(s) && c in s.conns
    ensures Inv(Disconnect(s, c).server)
  {
    assert 0 !in s.table.pairings by {
      hide PhasesOk, ClaimsOk, IdsOk, LinksOk, RelaysOk, GroupsOk, PairingOk;
    }
    DisconnectShape(s, c);
    BereaveKeeps(s, c);
    hide Inv, Bereave, Release, Leave;
    var after := Disconnect(s, c).server;
    var told := Bereave(s, c).server.(table := s.table.(pairings := s.table.pairings - {s.conns[c].pairing}));
    SameRelease(s.table, told.table, s.conns[c].claimed, s.conns[c].joined, c, Live(s));
    GoneKeeps(told, c, after.table, after.closing);
  }

  lemma SameRelease(a: Table, b: Table, claimed: Name, joined: Name, c: Id, live: set<Id>)
    requires a.claims == b.claims && a.groups == b.groups
    ensures Release(a, claimed, c, live).claims == Release(b, claimed, c, live).claims
    ensures Leave(a, joined, c, live).groups == Leave(b, joined, c, live).groups
  {
  }

  // -- Every run ------------------------------------------------------------

  lemma HandleKeeps(s: Server, c: Id, r: Request, now: nat)
    requires Inv(s) && c in s.conns
    ensures Inv(Handle(s, c, r, now).server)
  {
    hide Inv, HandleHello, HandleSendRequest, HandleAccept, HandleReject, HandleGroupJoin, HandleRelayOpen, Prune, Roster;
    match r
    case Hello(receiver, name) => HelloKeeps(s, c, receiver, name);
    case SendRequest(target, allowed) => SendRequestKeeps(s, c, target, allowed, now);
    case Accept(decodes) => AcceptKeeps(s, c, decodes);
    case Decline => RejectKeeps(s, c);
    case GroupQuery(name) =>
      PruneChangesNothing(s, name);
      ClosingKeeps(s, s.closing + {c});
    case GroupJoin(name, verifier) => GroupJoinKeeps(s, c, name, verifier);
    case GroupSendRequest(name, allowed) =>
      PruneChangesNothing(s, name);
      ClosingKeeps(s, s.closing + {c});
    case OpenRelay => RelayOpenKeeps(s, c);
    case Relay(payload) =>
      NoRecovery(s, c);
      ClosingKeeps(s, s.closing + {c});
    case CloseRelay =>
      ClosingKeeps(s, s.closing + {c});
      if RelayPeer(s, c).Some? {
        ClosingKeeps(s, s.closing + {RelayPeer(s, c).value} + {c});
      }
    case KeepAlive =>
    case Bye => ClosingKeeps(s, s.closing + {c});
    case Unexpected => ClosingKeeps(s, s.closing + {c});
  }

  lemma EventKeeps(s: Server, e: Event)
    requires Inv(s) && After(s, e).Some?
    ensures Inv(After(s, e).value.server)
  {
    hide Inv, Handle, Disconnect, ExpirePairings;
    match e
    case Arrives => ArrivalKeeps(s);
    case Frame(c, r, now) => HandleKeeps(s, c, r, now);
    case Closes(c) => DisconnectKeeps(s, c);
    case Tick(now, maxAge) => ExpiryKeeps(s, now, maxAge);
  }

  lemma {:induction false} PlayKeeps(allowRelay: bool, salt: nat, events: seq<Event>)
    requires Play(allowRelay, salt, events).Some?
    ensures Inv(Play(allowRelay, salt, events).value)
  {
    hide Inv, After, Start;
    if events == [] {
      StartInv(allowRelay, salt);
    } else {
      PlayKeeps(allowRelay, salt, events[..|events| - 1]);
      EventKeeps(Play(allowRelay, salt, events[..|events| - 1]).value, events[|events| - 1]);
    }
  }
}
