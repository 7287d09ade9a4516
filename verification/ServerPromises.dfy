/** What the invariant means for clients, over whole runs. */
module ServerPromises {

  import opened Bytes
  import opened Names
  import opened SessionTables
  import opened ServerSessions
  import opened ServerGuarantees
  import Payload
  import M = Messages

  // -- At any moment --------------------------------------------------------

  /** A pairing in the table joins two different live connections in matching phases, and no others. */
  lemma PairingsJoinTwo(allowRelay: bool, salt: nat, events: seq<Event>, id: nat)
    requires Play(allowRelay, salt, events).Some? && id in Play(allowRelay, salt, events).value.table.pairings
    ensures var s := Play(allowRelay, salt, events).value;
            var p := s.table.pairings[id];
            && id != 0 && p.sender != p.receiver && p.sender in s.conns && p.receiver in s.conns
            && ((s.conns[p.sender].phase == SenderWaiting && s.conns[p.receiver].phase == ReceiverMatched)
                || (s.conns[p.sender].phase == Relaying && s.conns[p.receiver].phase == Relaying))
            && forall c <- s.conns :: s.conns[c].pairing == id <==> c == p.sender || c == p.receiver
  {
    PlayKeeps(allowRelay, salt, events);
    hide Play;
    var s := Play(allowRelay, salt, events).value;
    assert PairingOk(s.conns, id, s.table.pairings[id]);
    hide PhasesOk, ClaimsOk, IdsOk, LinksOk, RelaysOk, GroupsOk, ValidUsername;
  }

  /** No connection is in two pairings. */
  lemma OnePairingEach(allowRelay: bool, salt: nat, events: seq<Event>, a: nat, b: nat, c: Id)
    requires Play(allowRelay, salt, events).Some?
    requires var pairings := Play(allowRelay, salt, events).value.table.pairings;
             && a in pairings && b in pairings
             && c in {pairings[a].sender, pairings[a].receiver} && c in {pairings[b].sender, pairings[b].receiver}
    ensures a == b
  {
    hide Play;
    PairingsJoinTwo(allowRelay, salt, events, a);
    PairingsJoinTwo(allowRelay, salt, events, b);
  }

  /** The claim table holds exactly the names of the live connections, each under one connection. */
  lemma ClaimsAgree(allowRelay: bool, salt: nat, events: seq<Event>)
    requires Play(allowRelay, salt, events).Some?
    ensures var s := Play(allowRelay, salt, events).value;
            && (forall n, c :: (n in s.table.claims && s.table.claims[n] == c) <==> (n != [] && c in s.conns && s.conns[c].claimed == n))
            && (forall c, d :: c in s.conns && d in s.conns && s.conns[c].claimed == s.conns[d].claimed != [] ==> c == d)
  {
    PlayKeeps(allowRelay, salt, events);
    hide Play, PhasesOk, PairingsOk, IdsOk, LinksOk, RelaysOk, GroupsOk;
  }

  /** Groups are never empty or overfull, and hold exactly those who joined with the creator's verifier. */
  lemma GroupsAgree(allowRelay: bool, salt: nat, events: seq<Event>, name: Name)
    requires Play(allowRelay, salt, events).Some? && name in Play(allowRelay, salt, events).value.table.groups
    ensures var s := Play(allowRelay, salt, events).value;
            var g := s.table.groups[name];
            && 0 < |g.members| <= MAX_GROUP_MEMBERS && NoRepeats(g.members)
            && (forall c :: c in g.members <==> c in s.conns && s.conns[c].joined == name)
            && (forall c <- g.members :: s.conns[c].presented == g.verifier)
  {
    PlayKeeps(allowRelay, salt, events);
    hide Play, PhasesOk, ClaimsOk, PairingsOk, IdsOk, LinksOk, RelaysOk;
    var s := Play(allowRelay, salt, events).value;
    assert name != [] && GroupOk(s.conns, name, s.table.groups[name]);
  }

  /** Relay links are mutual, and belong to a relay that both parties asked for. */
  lemma LinksMutual(allowRelay: bool, salt: nat, events: seq<Event>, c: Id, d: Id)
    requires Play(allowRelay, salt, events).Some?
    requires var s := Play(allowRelay, salt, events).value; c in s.conns && s.conns[c].relayPeer == Some(d)
    ensures var s := Play(allowRelay, salt, events).value;
            && c != d && s.conns[c].phase == Relaying
            && (d in s.conns ==> s.conns[d].relayPeer == Some(c) && s.conns[d].phase == Relaying)
            && RelayBetween(s, s.conns[c].relayId, c, d)
  {
    PlayKeeps(allowRelay, salt, events);
    hide Play;
    var s := Play(allowRelay, salt, events).value;
    LinkMeans(s, c, d);
  }

  /** Relay `id` was opened between `c` and `d`, after both had asked for it. */
  ghost predicate RelayBetween(s: Server, id: nat, c: Id, d: Id) {
    && id in s.relays && id in s.parties && s.parties[id] in {(c, d), (d, c)}
    && (id, c) in s.asked && (id, d) in s.asked
  }

  lemma LinkMeans(s: Server, c: Id, d: Id)
    requires Inv(s) && c in s.conns && s.conns[c].relayPeer == Some(d)
    ensures c != d && s.conns[c].phase == Relaying
    ensures d in s.conns ==> s.conns[d].relayPeer == Some(c) && s.conns[d].phase == Relaying
    ensures RelayBetween(s, s.conns[c].relayId, c, d)
  {
    assert LinkOk(s.conns, c, d, s.next, s.parties, s.relays);
    hide PhasesOk, ClaimsOk, PairingsOk, IdsOk, LinksOk, GroupsOk, ValidUsername;
    PhaseAt(s, c);
    if d in s.conns {
      PhaseAt(s, d);
    }
  }

  /** Looking the relay peer up in the pairing table is never needed. */
  lemma RecoveryUnreachable(allowRelay: bool, salt: nat, events: seq<Event>, c: Id)
    requires Play(allowRelay, salt, events).Some? && c in Play(allowRelay, salt, events).value.conns
    ensures !Recovers(Play(allowRelay, salt, events).value, c)
  {
    PlayKeeps(allowRelay, salt, events);
    hide Play, Inv;
    NoRecovery(Play(allowRelay, salt, events).value, c);
  }

  // -- What is sent ---------------------------------------------------------

  /** Relayed bytes go only to the other party of a relay both have asked for. */
  lemma RelayDataOnlyWhenOpen(allowRelay: bool, salt: nat, events: seq<Event>, c: Id, payload: seq<byte>, now: nat, send: Send)
    requires Play(allowRelay, salt, events).Some? && c in Play(allowRelay, salt, events).value.conns
    requires send in Handle(Play(allowRelay, salt, events).value, c, Relay(payload), now).sends && send.message.RelayData?
    ensures var s := Play(allowRelay, salt, events).value;
            && send.message == RelayData(payload) && send.to in s.conns && s.conns[send.to].relayPeer == Some(c)
            && RelayBetween(s, s.conns[c].relayId, c, send.to)
  {
    PlayKeeps(allowRelay, salt, events);
    hide Play;
    var s := Play(allowRelay, salt, events).value;
    NoRecovery(s, c);
    LinkMeans(s, c, send.to);
  }

  /** Of all events only a RelayData frame makes the server send one. */
  lemma RelayDataOnlyForwarded(s: Server, e: Event, send: Send)
    requires After(s, e).Some? && send in After(s, e).value.sends && send.message.RelayData?
    ensures e.Frame? && e.request.Relay?
  {
    hide ExpirePairings, Release, Leave;
    match e
    case Frame(c, r, now) =>
      if !r.Relay? {
        hide Handle;
        OthersForwardNothing(s, c, r, now, send);
      }
    case _ =>
  }

  lemma OthersForwardNothing(s: Server, c: Id, r: Request, now: nat, send: Send)
    requires c in s.conns && !r.Relay? && send in Handle(s, c, r, now).sends
    ensures !send.message.RelayData?
  {
    hide Mix, FirstFree, ValidUsername, Leave, Prune, Enter, JoinOutcome, Roster, MemberCount, Attach, RequestRelay;
  }

  /** A relay opens for a pairing that had not opened before, once both ends have asked. */
  lemma RelayOpensOnce(allowRelay: bool, salt: nat, events: seq<Event>, c: Id, r: Request, now: nat)
    requires Play(allowRelay, salt, events).Some? && c in Play(allowRelay, salt, events).value.conns
    ensures var s := Play(allowRelay, salt, events).value;
            var after := Handle(s, c, r, now);
            && (after.server.relays != s.relays ==>
                  exists id :: id !in s.relays && after.server.relays == s.relays + {id} && OpenedNow(s, after, id))
            && ((exists send <- after.sends :: send.message == RelayOpen) ==> after.server.relays != s.relays)
  {
    hide Play, Inv, Handle, HandleRelayOpen, OpenedNow;
    PlayKeeps(allowRelay, salt, events);
    var s := Play(allowRelay, salt, events).value;
    if r == OpenRelay {
      OpenOnce(s, c);
      OpenHandled(s, c, now);
    } else {
      OthersOpenNothing(s, c, r, now);
    }
  }

  lemma OpenHandled(s: Server, c: Id, now: nat)
    requires c in s.conns
    ensures Handle(s, c, OpenRelay, now) == HandleRelayOpen(s, c)
  {
    hide HandleRelayOpen;
  }

  ghost predicate OpenedNow(s: Server, after: Effect, id: nat) {
    && id in s.table.pairings
    && var p := s.table.pairings[id];
       && (id, p.sender) in after.server.asked && (id, p.receiver) in after.server.asked
       && after.sends == [Send(p.sender, RelayOpen), Send(p.receiver, RelayOpen)]
  }

  lemma OthersOpenNothing(s: Server, c: Id, r: Request, now: nat)
    requires c in s.conns && r != OpenRelay
    ensures Handle(s, c, r, now).server.relays == s.relays
    ensures forall send <- Handle(s, c, r, now).sends :: send.message != RelayOpen
  {
    hide Mix, FirstFree, ValidUsername, Leave, Prune, Enter, JoinOutcome, Roster, MemberCount, Attach, RequestRelay, Claim, CreatePairing;
  }

  lemma OpenOnce(s: Server, c: Id)
    requires Inv(s) && c in s.conns
    ensures var after := HandleRelayOpen(s, c);
            && (after.server.relays != s.relays ==>
                  exists id :: id !in s.relays && after.server.relays == s.relays + {id} && OpenedNow(s, after, id))
            && ((exists send <- after.sends :: send.message == RelayOpen) ==> after.server.relays != s.relays)
  {
    hide PhasesOk, ClaimsOk, PairingsOk, IdsOk, LinksOk, GroupsOk, Attach;
    var id, after := s.conns[c].pairing, HandleRelayOpen(s, c);
    if s.allowRelay && id != 0 && id in s.table.pairings {
      PartyOf(s, c);
      var p := s.table.pairings[id];
      if RelayOpens(s.table, id, p.sender == c) {
        assert id !in s.relays;
        assert after.sends[0].message == RelayOpen;
        assert OpenedNow(s, after, id);
      }
    }
  }

  /** Introductions reach the right parties: Incoming the receiver just matched, Matched the sender who asked. */
  lemma IntroductionsReachParties(allowRelay: bool, salt: nat, events: seq<Event>, c: Id, r: Request, now: nat, send: Send)
    requires Play(allowRelay, salt, events).Some? && c in Play(allowRelay, salt, events).value.conns
    requires send in Handle(Play(allowRelay, salt, events).value, c, r, now).sends
    ensures var s := Play(allowRelay, salt, events).value;
            var after := Handle(s, c, r, now).server;
            && (send.message.Incoming? ==>
                  var id := send.message.id;
                  && id !in s.parties && id in after.table.pairings
                  && after.table.pairings[id].sender == c && after.table.pairings[id].receiver == send.to
                  && c in after.conns && send.to in after.conns
                  && after.conns[c].pairing == id && after.conns[send.to].pairing == id)
            && (send.message.Matched? ==>
                  var id := send.message.id;
                  && id in s.table.pairings && s.table.pairings[id].receiver == c && s.table.pairings[id].sender == send.to
                  && send.to in s.conns && s.conns[send.to].pairing == id && s.conns[send.to].phase == SenderWaiting)
  {
    PlayKeeps(allowRelay, salt, events);
    hide Play;
    var s := Play(allowRelay, salt, events).value;
    if r.SendRequest? {
      IncomingReaches(s, c, r.target, r.allowed, now, send);
    } else if r.Accept? {
      MatchedReaches(s, c, r.decodes, send);
    } else {
      hide Inv;
      OthersIntroduceNobody(s, c, r, now, send);
    }
  }

  lemma OthersIntroduceNobody(s: Server, c: Id, r: Request, now: nat, send: Send)
    requires c in s.conns && !r.SendRequest? && !r.Accept? && send in Handle(s, c, r, now).sends
    ensures !send.message.Incoming? && !send.message.Matched?
  {
    hide ValidUsername, Leave, Prune, Enter, JoinOutcome, Roster, MemberCount, Attach, RequestRelay, Claim;
  }

  lemma IncomingReaches(s: Server, c: Id, target: Name, allowed: bool, now: nat, send: Send)
    requires Inv(s) && c in s.conns && send in HandleSendRequest(s, c, target, allowed, now).sends
    ensures var after := HandleSendRequest(s, c, target, allowed, now).server;
            && !send.message.Matched?
            && (send.message.Incoming? ==>
                  var id := send.message.id;
                  && id !in s.parties && id in after.table.pairings
                  && after.table.pairings[id].sender == c && after.table.pairings[id].receiver == send.to
                  && c in after.conns && send.to in after.conns
                  && after.conns[c].pairing == id && after.conns[send.to].pairing == id)
  {
    hide ValidUsername, Mix, FirstFree, PhasesOk, ClaimsOk, PairingsOk, IdsOk, LinksOk, RelaysOk, GroupsOk;
    var k := FirstFree(s.table.counter, s.table.salt, s.table.pairings.Keys);
    if k.Some? {
      NewIdFresh(s, k.value);
    }
  }

  lemma MatchedReaches(s: Server, c: Id, decodes: bool, send: Send)
    requires Inv(s) && c in s.conns && send in HandleAccept(s, c, decodes).sends
    ensures !send.message.Incoming?
    ensures send.message.Matched? ==>
              var id := send.message.id;
              && id in s.table.pairings && s.table.pairings[id].receiver == c && s.table.pairings[id].sender == send.to
              && send.to in s.conns && s.conns[send.to].pairing == id && s.conns[send.to].phase == SenderWaiting
  {
    hide PhasesOk, ClaimsOk, PairingsOk, IdsOk, LinksOk, RelaysOk, GroupsOk;
    if s.conns[c].pairing in s.table.pairings {
      PartyOf(s, c);
    }
  }

  /** The partner of a connection that goes away is free for the next sender, or told and closed. */
  lemma PartnerInformed(allowRelay: bool, salt: nat, events: seq<Event>, c: Id)
    requires Play(allowRelay, salt, events).Some? && c in Play(allowRelay, salt, events).value.conns
    requires var s := Play(allowRelay, salt, events).value; s.conns[c].pairing in s.table.pairings
    ensures var s := Play(allowRelay, salt, events).value;
            var p := s.table.pairings[s.conns[c].pairing];
            var other := if p.sender == c then p.receiver else p.sender;
            var after := Disconnect(s, c);
            && other in after.server.conns && s.conns[c].pairing !in after.server.table.pairings
            && if other == p.receiver && !p.active then
                 after.server.conns[other].phase == ReceiverIdle && after.server.conns[other].pairing == 0 && after.sends == []
               else
                 other in after.server.closing && after.sends == [Send(other, RelayClose)]
  {
    PlayKeeps(allowRelay, salt, events);
    hide Play;
    var s := Play(allowRelay, salt, events).value;
    hide PhasesOk, ClaimsOk, PairingsOk, IdsOk, LinksOk, RelaysOk, GroupsOk, Release, Leave;
    PartyOf(s, c);
  }

  lemma {:induction false} NamesValid(s: Server, members: seq<Id>)
    requires Inv(s) && forall m <- members :: m in s.conns && s.conns[m].phase == ReceiverIdle
    ensures |NamesOf(s.conns, members)| == |members| && forall n <- NamesOf(s.conns, members) :: ValidUsername(n)
  {
    if members != [] {
      NamesValid(s, members[..|members| - 1]);
      hide Inv, ValidUsername;
      PhaseAt(s, members[|members| - 1]);
    }
  }

  /** Every roster the server sends decodes at the client, and lists the members accepting now. */
  lemma RostersDecode(allowRelay: bool, salt: nat, events: seq<Event>, c: Id, name: Name, allowed: bool, now: nat, send: Send)
    requires Play(allowRelay, salt, events).Some? && c in Play(allowRelay, salt, events).value.conns
    requires send in Handle(Play(allowRelay, salt, events).value, c, GroupSendRequest(name, allowed), now).sends
    requires send.message.GroupRoster?
    ensures M.TakeRoster(M.PutRoster(send.message.names, [])) == Payload.Got(send.message.names, [])
    ensures var s := Play(allowRelay, salt, events).value;
            forall n :: n in send.message.names <==> AcceptsIn(s, n, name, if c in s.greetings then s.greetings[c] else [])
  {
    PlayKeeps(allowRelay, salt, events);
    M.UsernameShort(name);
    hide Play, ValidUsername, M.TakeRoster, M.PutRoster;
    var s := Play(allowRelay, salt, events).value;
    PruneChangesNothing(s, name);
    RosterLegal(s, name, if c in s.greetings then s.greetings[c] else []);
    RosterLists(s, name, if c in s.greetings then s.greetings[c] else []);
    M.RosterRoundTripIff(send.message.names, []);
  }

  /** Somebody in the group accepts under `n` right now and is not the one who asks. */
  ghost predicate AcceptsIn(s: Server, n: Name, group: Name, skip: Name) {
    exists m :: m in s.conns && s.conns[m].joined == group && s.conns[m].phase == ReceiverIdle && s.conns[m].claimed == n
                && !(skip != [] && n == skip)
  }

  lemma {:induction false} NamesListed(conns: map<Id, Conn>, members: seq<Id>, n: Name)
    ensures n in NamesOf(conns, members) <==> exists m :: m in members && m in conns && conns[m].claimed == n
  {
    if members != [] {
      var front, last := members[..|members| - 1], members[|members| - 1];
      NamesListed(conns, front, n);
      assert members == front + [last];
      if last in conns && conns[last].claimed == n {
        assert last in members;
      }
    }
  }

  lemma RosterLists(s: Server, name: Name, skip: Name)
    requires Inv(s) && name != []
    ensures forall n :: n in Roster(s.conns, s.table, name, skip) <==> AcceptsIn(s, n, name, skip)
  {
    hide ValidUsername, PhasesOk, ClaimsOk, PairingsOk, IdsOk, LinksOk, RelaysOk;
    forall n ensures n in Roster(s.conns, s.table, name, skip) <==> AcceptsIn(s, n, name, skip) {
      if name in s.table.groups {
        var members := s.table.groups[name].members;
        assert GroupOk(s.conns, name, s.table.groups[name]);
        var kept := Keep(members, Accepting(s.conns, skip));
        KeepMembers(members, Accepting(s.conns, skip));
        NamesListed(s.conns, kept, n);
        if AcceptsIn(s, n, name, skip) {
          var m :| m in s.conns && s.conns[m].joined == name && s.conns[m].phase == ReceiverIdle && s.conns[m].claimed == n
                   && !(skip != [] && n == skip);
          assert m in members && m in kept;
        }
      }
    }
  }

  lemma RosterLegal(s: Server, name: Name, skip: Name)
    requires Inv(s)
    ensures M.LegalRoster(Roster(s.conns, s.table, name, skip))
  {
    hide ValidUsername, PhasesOk, ClaimsOk, PairingsOk, IdsOk, LinksOk, RelaysOk;
    if name in s.table.groups {
      var members := s.table.groups[name].members;
      assert GroupOk(s.conns, name, s.table.groups[name]);
      KeepMembers(members, Accepting(s.conns, skip));
      NamesValid(s, Keep(members, Accepting(s.conns, skip)));
    }
  }

  // -- From one moment to a later one ---------------------------------------

  /** Ids keep their parties, links keep their peers, and nothing that has gone comes back. */
  ghost predicate Extends(s: Server, t: Server) {
    && s.next <= t.next && s.relays <= t.relays && s.table.salt == t.table.salt
    && (forall id <- s.parties :: id in t.parties && t.parties[id] == s.parties[id])
    && (forall id <- t.table.pairings :: id in s.parties ==> id in s.table.pairings)
    && (forall c <- t.conns :: c < s.next ==> c in s.conns)
    && (forall c <- s.conns :: c in t.conns && s.conns[c].relayPeer.Some? ==> t.conns[c].relayPeer == s.conns[c].relayPeer)
  }

  /** Nothing about pairings or links changes. */
  ghost predicate Quiet(s: Server, t: Server) {
    && s.next == t.next && s.relays == t.relays && s.parties == t.parties && s.table.salt == t.table.salt
    && t.table.pairings.Keys <= s.table.pairings.Keys && t.conns.Keys <= s.conns.Keys
    && forall c <- t.conns :: c in s.conns && t.conns[c].relayPeer == s.conns[c].relayPeer
  }

  lemma QuietExtends(s: Server, t: Server)
    requires Inv(s) && Quiet(s, t)
    ensures Extends(s, t)
  {
    hide PhasesOk, ClaimsOk, IdsOk, LinksOk, RelaysOk, GroupsOk, PairingsOk;
  }

  lemma HelloQuiet(s: Server, c: Id, receiver: bool, name: Name)
    requires c in s.conns
    ensures Quiet(s, HandleHello(s, c, receiver, name).server)
  {
    hide ValidUsername;
  }

  lemma AcceptQuiet(s: Server, c: Id, decodes: bool)
    requires c in s.conns
    ensures Quiet(s, HandleAccept(s, c, decodes).server)
  {
  }

  lemma RejectQuiet(s: Server, c: Id)
    requires c in s.conns
    ensures Quiet(s, HandleReject(s, c).server)
  {
  }

  lemma ClosingQuiet(s: Server, closing: set<Id>)
    ensures Quiet(s, s.(closing := closing))
  {
  }

  lemma QuietHandlers(s: Server, c: Id, r: Request, now: nat)
    requires Inv(s) && c in s.conns && !r.SendRequest? && r != OpenRelay
    ensures Quiet(s, Handle(s, c, r, now).server)
  {
    hide Inv, ValidUsername, Roster, MemberCount, Prune, Attach, Recovers, Quiet;
    hide HandleHello, HandleAccept, HandleReject, HandleGroupJoin;
    NoRecovery(s, c);
    ClosingQuiet(s, s.closing);
    ClosingQuiet(s, s.closing + {c});
    match r
    case Hello(receiver, name) => HelloQuiet(s, c, receiver, name);
    case Accept(decodes) => AcceptQuiet(s, c, decodes);
    case Decline => RejectQuiet(s, c);
    case GroupQuery(name) => PruneChangesNothing(s, name);
    case GroupJoin(name, verifier) => GroupJoinQuiet(s, c, name, verifier);
    case GroupSendRequest(name, allowed) => PruneChangesNothing(s, name);
    case CloseRelay =>
      if RelayPeer(s, c).Some? {
        ClosingQuiet(s, s.closing + {RelayPeer(s, c).value} + {c});
      }
    case _ =>
  }

  lemma GroupJoinQuiet(s: Server, c: Id, name: Name, verifier: seq<byte>)
    requires c in s.conns
    ensures Quiet(s, HandleGroupJoin(s, c, name, verifier).server)
  {
    hide ValidUsername, Leave, Prune, EnterGroup, Quiet;
    ClosingQuiet(s, s.closing + {c});
    var conn := s.conns[c];
    var left := Leave(s.table, conn.joined, c, Live(s));
    LeaveOnlyGroups(s.table, conn.joined, c, Live(s));
    PruneOnlyGroups(s.table, name, Live(s));
    PruneOnlyGroups(left, name, Live(s));
    EnterGroupQuiet(s, c, conn, Prune(s.table, name, Live(s)), name, verifier);
    EnterGroupQuiet(s, c, conn.(joined := []), Prune(left, name, Live(s)), name, verifier);
  }

  lemma EnterGroupQuiet(s: Server, c: Id, conn: Conn, table: Table, name: Name, verifier: seq<byte>)
    requires c in s.conns && conn.relayPeer == s.conns[c].relayPeer && table == s.table.(groups := table.groups)
    ensures Quiet(s, EnterGroup(s, c, conn, table, name, verifier).server)
  {
    hide ValidUsername;
  }

  lemma PruneOnlyGroups(t: Table, name: Name, live: set<Id>)
    ensures Prune(t, name, live) == t.(groups := Prune(t, name, live).groups)
  {
  }

  lemma DisconnectQuiet(s: Server, c: Id)
    requires Inv(s) && c in s.conns
    ensures Quiet(s, Disconnect(s, c).server)
  {
    hide Inv, Bereave, Release, Leave;
    BereaveQuiet(s, c);
    LeaveOnlyGroups(Release(s.table, s.conns[c].claimed, c, Live(s)), s.conns[c].joined, c, Live(s));
    ReleaseOnlyClaims(s.table, s.conns[c].claimed, c, Live(s));
  }

  lemma ReleaseOnlyClaims(t: Table, name: Name, who: Id, live: set<Id>)
    ensures Release(t, name, who, live) == t.(claims := Release(t, name, who, live).claims)
  {
  }

  lemma BereaveQuiet(s: Server, c: Id)
    requires c in s.conns
    ensures Quiet(s, Bereave(s, c).server) && Bereave(s, c).server.table == s.table
  {
  }

  lemma IntroduceExtends(s: Server, c: Id, target: Name, allowed: bool, now: nat)
    requires Inv(s) && c in s.conns
    ensures Extends(s, HandleSendRequest(s, c, target, allowed, now).server)
  {
    hide ValidUsername, Mix, FirstFree, PhasesOk, ClaimsOk, PairingsOk, IdsOk, LinksOk, RelaysOk, GroupsOk;
    var k := FirstFree(s.table.counter, s.table.salt, s.table.pairings.Keys);
    if k.Some? {
      NewIdFresh(s, k.value);
    }
  }

  lemma OpenExtends(s: Server, c: Id)
    requires Inv(s) && c in s.conns
    ensures Extends(s, HandleRelayOpen(s, c).server)
  {
    hide PhasesOk, ClaimsOk, PairingsOk, IdsOk, LinksOk, RelaysOk, GroupsOk;
    var id := s.conns[c].pairing;
    if id in s.table.pairings {
      PartyOf(s, c);
      if !s.table.pairings[id].active {
        NotRelayingYet(s, id);
      }
    }
  }

  lemma ArrivalExtends(s: Server)
    requires Inv(s)
    ensures Extends(s, After(s, Arrives).value.server)
  {
    hide PhasesOk, ClaimsOk, PairingsOk, IdsOk, RelaysOk, GroupsOk, LinkOk;
  }

  lemma EventExtends(s: Server, e: Event)
    requires Inv(s) && After(s, e).Some?
    ensures Extends(s, After(s, e).value.server)
  {
    hide Inv, Extends, Quiet, HandleSendRequest, HandleRelayOpen, Disconnect;
    match e
    case Arrives => ArrivalExtends(s);
    case Frame(c, r, now) =>
      if r.SendRequest? {
        IntroduceExtends(s, c, r.target, r.allowed, now);
      } else if r == OpenRelay {
        OpenExtends(s, c);
      } else {
        hide Handle;
        QuietHandlers(s, c, r, now);
        QuietExtends(s, Handle(s, c, r, now).server);
      }
    case Closes(c) =>
      DisconnectQuiet(s, c);
      QuietExtends(s, Disconnect(s, c).server);
    case Tick(now, maxAge) =>
      assert Quiet(s, After(s, e).value.server) by {
        TickQuiet(s, now, maxAge);
      }
      QuietExtends(s, After(s, e).value.server);
  }

  lemma TickQuiet(s: Server, now: nat, maxAge: nat)
    ensures Quiet(s, s.(table := ExpirePairings(s.table, now, maxAge, Live(s))))
  {
  }

  lemma ExtendsTransitive(s: Server, t: Server, u: Server)
    requires Extends(s, t) && Extends(t, u) && LinksOk(s.conns, s.next, s.parties, s.relays)
    ensures Extends(s, u)
  {
    hide LinkOk;
  }

  lemma {:induction false} RunsExtend(allowRelay: bool, salt: nat, events: seq<Event>, more: seq<Event>)
    requires Play(allowRelay, salt, events + more).Some?
    ensures Play(allowRelay, salt, events).Some?
    ensures Extends(Play(allowRelay, salt, events).value, Play(allowRelay, salt, events + more).value)
    decreases |more|
  {
    hide After, Extends, Start;
    if more == [] {
      assert events + more == events;
      ExtendsSelf(Play(allowRelay, salt, events).value);
    } else {
      var most := more[..|more| - 1];
      assert (events + more)[..|events + more| - 1] == events + most;
      RunsExtend(allowRelay, salt, events, most);
      PlayKeeps(allowRelay, salt, events);
      PlayKeeps(allowRelay, salt, events + most);
      var s, t := Play(allowRelay, salt, events).value, Play(allowRelay, salt, events + most).value;
      hide Play;
      EventExtends(t, more[|more| - 1]);
      ExtendsTransitive(s, t, After(t, more[|more| - 1]).value.server);
    }
  }

  lemma ExtendsSelf(s: Server)
    ensures Extends(s, s)
  {
  }

  /** Over a whole run an id never comes to stand for another pair, and never comes back once dropped. */
  lemma IdsNeverReissued(allowRelay: bool, salt: nat, events: seq<Event>, more: seq<Event>, id: nat)
    requires Play(allowRelay, salt, events + more).Some? && Play(allowRelay, salt, events).Some?
    requires id in Play(allowRelay, salt, events).value.parties
    requires id in Play(allowRelay, salt, events + more).value.table.pairings
    ensures var s, t := Play(allowRelay, salt, events).value, Play(allowRelay, salt, events + more).value;
            && id in s.table.pairings
            && (t.table.pairings[id].sender, t.table.pairings[id].receiver) == s.parties[id]
            && (s.table.pairings[id].sender, s.table.pairings[id].receiver) == s.parties[id]
  {
    RunsExtend(allowRelay, salt, events, more);
    PlayKeeps(allowRelay, salt, events);
    PlayKeeps(allowRelay, salt, events + more);
    hide Play, PhasesOk, ClaimsOk, IdsOk, LinksOk, RelaysOk, GroupsOk, PairingOk;
  }

  /** An id a connection still carries resolves to its own pairing or to none. */
  lemma StaleIdsResolveToNothing(allowRelay: bool, salt: nat, events: seq<Event>, c: Id)
    requires Play(allowRelay, salt, events).Some? && c in Play(allowRelay, salt, events).value.conns
    requires var s := Play(allowRelay, salt, events).value; s.conns[c].pairing in s.table.pairings
    ensures var s := Play(allowRelay, salt, events).value;
            c in {s.table.pairings[s.conns[c].pairing].sender, s.table.pairings[s.conns[c].pairing].receiver}
  {
    PlayKeeps(allowRelay, salt, events);
    hide Play, Inv;
    PartyOf(Play(allowRelay, salt, events).value, c);
  }

  /** A relay link, once made, is never rewired while the connection lives. */
  lemma LinksNeverRewired(allowRelay: bool, salt: nat, events: seq<Event>, more: seq<Event>, c: Id)
    requires Play(allowRelay, salt, events + more).Some? && Play(allowRelay, salt, events).Some?
    requires var s, t := Play(allowRelay, salt, events).value, Play(allowRelay, salt, events + more).value;
             c in s.conns && c in t.conns && s.conns[c].relayPeer.Some?
    ensures Play(allowRelay, salt, events + more).value.conns[c].relayPeer == Play(allowRelay, salt, events).value.conns[c].relayPeer
  {
    RunsExtend(allowRelay, salt, events, more);
    hide Play;
  }
}
