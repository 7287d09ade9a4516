/** The handlers as the server runs them: fields changed in place, frames queued. */
module RendezvousServer {

  import opened Bytes
  import opened Names
  import opened SessionTables
  import opened ServerSessions

  class Rendezvous {
    const table: SessionTable
    const allowRelay: bool
    var conns: map<Id, Conn>
    var next: Id
    var greetings: map<Id, Name>
    var closing: set<Id>
    /** Frames queued for clients, oldest first. */
    var outbox: seq<Send>
    ghost var parties: map<nat, (Id, Id)>
    ghost var relays: set<nat>
    ghost var asked: set<(nat, Id)>

    ghost function State(): Server
      reads this, table
    {
      Server(conns, next, table.State(), allowRelay, greetings, closing, parties, relays, asked)
    }

    /** The state and the queue are what `effect` says. */
    ghost predicate Did(effect: Effect, queued: seq<Send>)
      reads this, table
    {
      State() == effect.server && outbox == queued + effect.sends
    }

    constructor (relaying: bool, salt: nat)
      ensures fresh(table) && State() == Start(relaying, salt) && outbox == []
    {
      table := new SessionTable(salt);
      allowRelay := relaying;
      conns, next, greetings, closing, outbox := map[], 0, map[], {}, [];
      parties, relays, asked := map[], {}, {};
    }

    method Connect()
      modifies this`conns, this`next
      ensures Some(Effect(State(), [])) == After(old(State()), Arrives)
    {
      conns := conns[next := ARRIVED];
      next := next + 1;
    }

    method CloseAfterReject(c: Id)
      modifies this`closing, this`outbox
      ensures Did(RejectAndClose(old(State()), c), old(outbox))
    {
      outbox := outbox + [Send(c, Reject)];
      closing := closing + {c};
    }

    method OnHello(c: Id, receiver: bool, name: Name)
      requires c in conns
      modifies this, table
      ensures Did(HandleHello(old(State()), c, receiver, name), old(outbox))
    {
      var valid := IsValidUsername(name);
      hide ValidUsername;
      if !valid {
        closing := closing + {c};
        return;
      }
      var conn := conns[c];
      var refreshing := conn.greeted && conn.phase == ReceiverIdle && receiver && name == conn.claimed;
      if conn.greeted && !refreshing {
        CloseAfterReject(c);
        return;
      }
      greetings := greetings[c := name];
      if refreshing {
        outbox := outbox + [Send(c, ServerHello(true))];
        return;
      }
      if receiver {
        var result := table.TryClaim(name, c, conns.Keys);
        if result == Granted {
          conns := conns[c := conn.(greeted := true, claimed := name, phase := ReceiverIdle)];
          outbox := outbox + [Send(c, ServerHello(true))];
        } else {
          conns := conns[c := conn.(greeted := true)];
          outbox := outbox + [Send(c, ServerHello(false))];
          closing := closing + {c};
        }
      } else {
        conns := conns[c := conn.(greeted := true, phase := SenderIdle)];
        outbox := outbox + [Send(c, ServerHello(true))];
      }
    }

    /** The counter of pairing ids has not run out. */
    method OnSendRequest(c: Id, target: Name, allowed: bool, now: nat)
      requires c in conns && FirstFree(table.counter, table.salt, table.pairings.Keys).Some?
      modifies this, table
      ensures Did(HandleSendRequest(old(State()), c, target, allowed, now), old(outbox))
    {
      if conns[c].phase != SenderIdle || !allowed {
        CloseAfterReject(c);
        return;
      }
      var valid := IsValidUsername(target);
      hide ValidUsername, FirstFree, Mix;
      if !valid {
        closing := closing + {c};
        return;
      }
      if target !in table.claims || table.claims[target] !in conns {
        CloseAfterReject(c);
        return;
      }
      var receiver := table.claims[target];
      if conns[receiver].phase != ReceiverIdle {
        CloseAfterReject(c);
        return;
      }
      var id := table.NewPairing(c, receiver, now);
      conns := conns[c := conns[c].(pairing := id, phase := SenderWaiting)]
                    [receiver := conns[receiver].(pairing := id, phase := ReceiverMatched)];
      parties := parties[id := (c, receiver)];
      outbox := outbox + [Send(receiver, Incoming(id))];
    }

    method OnAccept(c: Id, decodes: bool)
      requires c in conns
      modifies this`conns, this`closing, this`outbox
      ensures Did(HandleAccept(old(State()), c, decodes), old(outbox))
    {
      var conn := conns[c];
      if conn.phase != ReceiverMatched || conn.pairing !in table.pairings {
        CloseAfterReject(c);
        return;
      }
      var sender := table.pairings[conn.pairing].sender;
      if sender !in conns {
        conns := conns[c := conn.(phase := ReceiverIdle, pairing := 0)];
      } else if !decodes {
        closing := closing + {c};
      } else {
        outbox := outbox + [Send(sender, Matched(conn.pairing))];
      }
    }

    method OnReject(c: Id)
      requires c in conns
      modifies this`conns, this`closing, this`outbox, table
      ensures Did(HandleReject(old(State()), c), old(outbox))
    {
      var conn := conns[c];
      if conn.pairing == 0 {
        return;
      }
      if conn.pairing in table.pairings {
        var sender := table.pairings[conn.pairing].sender;
        if sender in conns && sender != c {
          outbox := outbox + [Send(sender, Reject)];
          closing := closing + {sender};
        }
      }
      table.pairings := table.pairings - {conn.pairing};
      conns := conns[c := conn.(pairing := 0, phase := if conn.phase == ReceiverMatched then ReceiverIdle else conn.phase)];
    }

    method OnGroupQuery(c: Id, name: Name)
      requires c in conns
      modifies this`closing, this`outbox, table
      ensures Did(HandleGroupQuery(old(State()), c, name), old(outbox))
    {
      if !conns[c].greeted {
        CloseAfterReject(c);
        return;
      }
      var valid := IsValidUsername(name);
      hide ValidUsername, Keep;
      if !valid {
        closing := closing + {c};
        return;
      }
      var present := table.PruneGroup(name, conns.Keys);
      outbox := outbox + [Send(c, GroupStatus(present, if present then |table.groups[name].members| else 0))];
    }

    method OnGroupJoin(c: Id, name: Name, verifier: seq<byte>)
      requires c in conns
      modifies this`conns, this`closing, this`outbox, table
      ensures Did(HandleGroupJoin(old(State()), c, name, verifier), old(outbox))
    {
      var conn := conns[c];
      if conn.phase != ReceiverIdle {
        CloseAfterReject(c);
        return;
      }
      var valid := IsValidUsername(name);
      if !valid {
        closing := closing + {c};
        return;
      }
      hide ValidUsername, Leave, Prune, EnterGroup;
      if conn.joined != [] && conn.joined != name {
        table.LeaveGroup(conn.joined, c, conns.Keys);
        conn := conn.(joined := []);
      }
      JoinAndTell(c, conn, name, verifier, old(State()));
    }

    method JoinAndTell(c: Id, to: Conn, name: Name, verifier: seq<byte>, ghost before: Server)
      requires ValidUsername(name) && before == State().(table := before.table)
      modifies this`conns, this`outbox, table
      ensures Did(EnterGroup(before, c, to, Prune(old(table.State()), name, before.conns.Keys), name, verifier), old(outbox))
    {
      hide ValidUsername, Prune, Enter, JoinOutcome, MemberCount;
      var conn := to;
      var outcome := table.JoinGroup(name, verifier, c, conns.Keys);
      match outcome {
        case Created => conn := conn.(joined := name, presented := verifier);
        case Added => conn := conn.(joined := name, presented := verifier);
        case AlreadyMember => conn := conn.(joined := name);
        case _ =>
      }
      var count := CountMembers(name);
      conns := conns[c := conn];
      outbox := outbox + [Send(c, GroupResult(outcome, count))];
    }

    method CountMembers(name: Name) returns (count: nat)
      ensures count == MemberCount(table.State(), name)
    {
      count := if name in table.groups then |table.groups[name].members| else 0;
    }

    method OnGroupSendRequest(c: Id, name: Name, allowed: bool)
      requires c in conns
      modifies this`closing, this`outbox, table
      ensures Did(HandleGroupSendRequest(old(State()), c, name, allowed), old(outbox))
    {
      if conns[c].phase != SenderIdle || !allowed {
        CloseAfterReject(c);
        return;
      }
      var valid := IsValidUsername(name);
      hide ValidUsername, Keep, NamesOf, Prune;
      if !valid {
        closing := closing + {c};
        return;
      }
      var present := table.PruneGroup(name, conns.Keys);
      var names := [];
      if present {
        names := ListIdle(table.groups[name].members, if c in greetings then greetings[c] else []);
      }
      outbox := outbox + [Send(c, GroupRoster(names))];
    }

    /** The names of the members accepting right now, in the order they joined. */
    method ListIdle(members: seq<Id>, skip: Name) returns (names: seq<Name>)
      ensures names == NamesOf(conns, Keep(members, Accepting(conns, skip)))
    {
      names := [];
      var i := 0;
      ghost var accepting := Accepting(conns, skip);
      assert members[..0] == [];
      while i < |members|
        invariant i <= |members| && names == NamesOf(conns, Keep(members[..i], accepting))
      {
        var m := members[i];
        assert members[..i + 1][..i] == members[..i];
        ghost var kept := Keep(members[..i], accepting);
        if m in conns && conns[m].phase == ReceiverIdle && !(skip != [] && conns[m].claimed == skip) {
          assert (kept + [m])[..|kept|] == kept;
          names := names + [conns[m].claimed];
        } else {
          assert kept + [] == kept;
        }
        i := i + 1;
      }
      assert members[..i] == members;
    }

    method OnRelayOpen(c: Id)
      requires c in conns
      modifies this`conns, this`closing, this`outbox, this`relays, this`asked, table
      ensures Did(HandleRelayOpen(old(State()), c), old(outbox))
    {
      var id := conns[c].pairing;
      if !allowRelay || id == 0 || id !in table.pairings {
        CloseAfterReject(c);
        return;
      }
      var sender, receiver := table.pairings[id].sender, table.pairings[id].receiver;
      if sender !in conns || receiver !in conns {
        CloseAfterReject(c);
        return;
      }
      hide RequestRelay, Opens;
      var opens := table.AskForRelay(id, sender == c);
      asked := asked + {(id, c)};
      if !opens {
        return;
      }
      conns := conns[sender := conns[sender].(relayPeer := Some(receiver), phase := Relaying, relayId := id)];
      conns := conns[receiver := conns[receiver].(relayPeer := Some(sender), phase := Relaying, relayId := id)];
      relays := relays + {id};
      outbox := outbox + [Send(sender, RelayOpen), Send(receiver, RelayOpen)];
    }

    method OnRelayData(c: Id, payload: seq<byte>)
      requires c in conns
      modifies this`conns, this`closing, this`outbox
      ensures Did(HandleRelayData(old(State()), c, payload), old(outbox))
    {
      var conn := conns[c];
      var peer := if conn.relayPeer.Some? && conn.relayPeer.value in conns then conn.relayPeer else None;
      if peer.None? && conn.pairing != 0 && conn.pairing in table.pairings && table.pairings[conn.pairing].active {
        var sender, receiver := table.pairings[conn.pairing].sender, table.pairings[conn.pairing].receiver;
        if sender in conns && receiver in conns {
          conns := conns[sender := conns[sender].(relayPeer := Some(receiver), phase := Relaying, relayId := conn.pairing)];
          conns := conns[receiver := conns[receiver].(relayPeer := Some(sender), phase := Relaying, relayId := conn.pairing)];
          peer := Some(if sender == c then receiver else sender);
        }
      }
      if peer.None? {
        CloseAfterReject(c);
        return;
      }
      outbox := outbox + [Send(peer.value, RelayData(payload))];
    }

    method OnRelayClose(c: Id)
      requires c in conns
      modifies this`closing, this`outbox
      ensures Did(HandleRelayClose(old(State()), c), old(outbox))
    {
      var peer := conns[c].relayPeer;
      if peer.Some? && peer.value in conns {
        outbox := outbox + [Send(peer.value, RelayClose)];
        closing := closing + {peer.value};
      }
      closing := closing + {c};
    }

    method Close(c: Id)
      requires c in conns
      modifies this`conns, this`closing, this`outbox, table
      ensures Did(Disconnect(old(State()), c), old(outbox))
    {
      hide Release, Leave;
      var conn := conns[c];
      ghost var before, queued := State(), outbox;
      table.ReleaseName(conn.claimed, c, conns.Keys);
      if conn.joined != [] {
        table.LeaveGroup(conn.joined, c, conns.Keys);
      }
      Widow(c, before);
      if conn.pairing != 0 {
        table.pairings := table.pairings - {conn.pairing};
      }
      conns := conns - {c};
      closing := closing - {c};
    }

    /** Tells the other half of a pairing; the table is as it was but for names and groups. */
    method Widow(c: Id, ghost before: Server)
      requires c in conns && before == State().(table := before.table) && before.table.pairings == table.pairings
      modifies this`conns, this`closing, this`outbox
      ensures State() == Bereave(before, c).server.(table := table.State())
      ensures outbox == old(outbox) + Bereave(before, c).sends
    {
      var id := conns[c].pairing;
      if id == 0 || id !in table.pairings {
        return;
      }
      var sender, receiver := table.pairings[id].sender, table.pairings[id].receiver;
      var other := if sender == c then receiver else sender;
      if other !in conns || other == c {
        return;
      }
      if other == receiver && conns[other].phase == ReceiverMatched && !table.pairings[id].active {
        conns := conns[other := conns[other].(phase := ReceiverIdle, pairing := 0)];
      } else {
        outbox := outbox + [Send(other, RelayClose)];
        closing := closing + {other};
      }
    }
  }
}
