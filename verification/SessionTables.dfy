/**
 * The server's shared table: who accepts under which name, who has been
 * introduced to whom, and the groups.
 *
 * A table entry does not keep a connection alive. `live` says which connections
 * still exist wherever an operation looks through such an entry.
 */
module SessionTables {

  import opened Bytes
  import opened LittleEndian
  import opened Names

  /** Connections are numbered and never renumbered. */
  type Id = nat
  type Name = seq<byte>


  datatype Pairing = Pairing(sender: Id, receiver: Id, created: nat, senderWants: bool, receiverWants: bool, active: bool)

  datatype Group = Group(verifier: seq<byte>, members: seq<Id>)

  datatype Table = Table(claims: map<Name, Id>, pairings: map<nat, Pairing>, groups: map<Name, Group>, counter: nat, salt: nat)

  // -- Claims ---------------------------------------------------------------

  datatype Claimed = Granted | AlreadyClaimed | InvalidUsername

  function ClaimOutcome(t: Table, name: Name, live: set<Id>): Claimed {
    if !ValidUsername(name) then InvalidUsername
    else if name in t.claims && t.claims[name] in live then AlreadyClaimed
    else Granted
  }

  function Claim(t: Table, name: Name, who: Id, live: set<Id>): Table {
    if ClaimOutcome(t, name, live) == Granted then t.(claims := t.claims[name := who]) else t
  }

  /** Only the holder may release, or anyone once the holder is gone. */
  function Release(t: Table, name: Name, who: Id, live: set<Id>): Table {
    if name != [] && name in t.claims && (t.claims[name] !in live || t.claims[name] == who) then
      t.(claims := t.claims - {name})
    else t
  }

  function Lookup(t: Table, name: Name, live: set<Id>): Option<Id> {
    if name in t.claims && t.claims[name] in live then Some(t.claims[name]) else None
  }

  // -- Pairing ids ----------------------------------------------------------

  /** Exclusive or of the low `width` bits. */
  function Xor(a: nat, b: nat, width: nat): nat {
    if width == 0 then 0 else (if a % 2 == b % 2 then 0 else 1) + 2 * Xor(a / 2, b / 2, width - 1)
  }

  lemma {:induction false} XorUndoes(a: nat, b: nat, width: nat)
    requires a < PowerOfTwo(width)
    ensures Xor(Xor(a, b, width), b, width) == a
  {
    if width > 0 {
      XorUndoes(a / 2, b / 2, width - 1);
      var x := Xor(a, b, width);
      assert x / 2 == Xor(a / 2, b / 2, width - 1);
    }
  }

  /** The id a counter value gives. */
  function Mix(counter: nat, salt: nat): nat
    requires counter < U64
  {
    Xor(counter, salt, 64)
  }

  /** Different counter values give different ids, whatever the salt. */
  lemma MixInjective(a: nat, b: nat, salt: nat)
    requires a < U64 && b < U64 && Mix(a, salt) == Mix(b, salt)
    ensures a == b
  {
    PowerOfRange(8);
    Widths();
    hide Xor, PowerOfTwo, Range;
    XorUndoes(a, salt, 64);
    XorUndoes(b, salt, 64);
  }

  /** The first counter value from `counter` on whose id is neither zero nor in use. */
  function FirstFree(counter: nat, salt: nat, taken: set<nat>): (c: Option<nat>)
    ensures c.Some? ==> counter <= c.value < U64 && Mix(c.value, salt) != 0 && Mix(c.value, salt) !in taken
    decreases U64 - counter
  {
    if counter >= U64 then None
    else if Mix(counter, salt) != 0 && Mix(counter, salt) !in taken then Some(counter)
    else FirstFree(counter + 1, salt, taken)
  }

  /** With no future id in use, at most one value is passed over. */
  lemma FreeWithinTwo(counter: nat, salt: nat, taken: set<nat>)
    requires counter + 1 < U64
    requires forall c :: counter <= c < U64 ==> Mix(c, salt) !in taken
    ensures FirstFree(counter, salt, taken).Some? && FirstFree(counter, salt, taken).value <= counter + 1
  {
    if Mix(counter, salt) == 0 {
      if Mix(counter + 1, salt) == 0 {
        MixInjective(counter, counter + 1, salt);
      }
      hide Mix;
      assert FirstFree(counter, salt, taken) == FirstFree(counter + 1, salt, taken);
    }
  }

  // -- Pairings -------------------------------------------------------------

  function CreatePairing(t: Table, sender: Id, receiver: Id, now: nat, c: nat): Table
    requires c < U64
  {
    t.(counter := c + 1, pairings := t.pairings[Mix(c, t.salt) := Pairing(sender, receiver, now, false, false, false)])
  }

  function Wanting(p: Pairing, fromSender: bool): Pairing {
    if fromSender then p.(senderWants := true) else p.(receiverWants := true)
  }

  /** Both have asked and the relay is not open yet. */
  predicate Opens(p: Pairing) { p.senderWants && p.receiverWants && !p.active }

  function RequestRelay(t: Table, id: nat, fromSender: bool): Table {
    if id !in t.pairings then t
    else
      var p := Wanting(t.pairings[id], fromSender);
      t.(pairings := t.pairings[id := if Opens(p) then p.(active := true) else p])
  }

  predicate RelayOpens(t: Table, id: nat, fromSender: bool) {
    id in t.pairings && Opens(Wanting(t.pairings[id], fromSender))
  }

  function DestroyPairing(t: Table, id: nat): Table { t.(pairings := t.pairings - {id}) }

  /** Ages are 64-bit differences. */
  predicate Expired(p: Pairing, now: nat, maxAge: nat, live: set<Id>) {
    (p.sender !in live && p.receiver !in live) || (now - p.created) % U64 > maxAge
  }

  function ExpirePairings(t: Table, now: nat, maxAge: nat, live: set<Id>): Table {
    t.(pairings := map id | id in t.pairings && !Expired(t.pairings[id], now, maxAge, live) :: t.pairings[id])
  }

  // -- Groups ---------------------------------------------------------------

  /** The members that are in `keep`, in order. */
  function Keep(members: seq<Id>, keep: set<Id>): seq<Id> {
    if members == [] then []
    else
      var last := members[|members| - 1];
      Keep(members[..|members| - 1], keep) + if last in keep then [last] else []
  }

  function Prune(t: Table, name: Name, live: set<Id>): Table {
    if name !in t.groups then t
    else
      var members := Keep(t.groups[name].members, live);
      if members == [] then t.(groups := t.groups - {name})
      else t.(groups := t.groups[name := t.groups[name].(members := members)])
  }

  function MemberCount(t: Table, name: Name): nat { if name in t.groups then |t.groups[name].members| else 0 }

  datatype Joined = Created | Added | WrongPassword | InvalidName | Full | AlreadyMember

  /** On a pruned table. */
  function JoinOutcome(t: Table, name: Name, verifier: seq<byte>, who: Id): Joined {
    if !ValidUsername(name) then InvalidName
    else if name !in t.groups then Created
    else if who in t.groups[name].members then AlreadyMember
    else if t.groups[name].verifier != verifier then WrongPassword
    else if |t.groups[name].members| >= MAX_GROUP_MEMBERS then Full
    else Added
  }

  function Enter(t: Table, name: Name, verifier: seq<byte>, who: Id): Table {
    match JoinOutcome(t, name, verifier, who)
    case Created => t.(groups := t.groups[name := Group(verifier, [who])])
    case Added => t.(groups := t.groups[name := t.groups[name].(members := t.groups[name].members + [who])])
    case _ => t
  }

  function Leave(t: Table, name: Name, who: Id, live: set<Id>): Table {
    if name == [] || name !in t.groups then t
    else
      var members := Keep(t.groups[name].members, live - {who});
      if members == [] then t.(groups := t.groups - {name})
      else t.(groups := t.groups[name := t.groups[name].(members := members)])
  }

  // -- What keeping does ----------------------------------------------------

  ghost predicate NoRepeats(members: seq<Id>) { forall i, j :: 0 <= i < j < |members| ==> members[i] != members[j] }

  lemma {:induction false} KeepMembers(members: seq<Id>, keep: set<Id>)
    ensures forall m :: m in Keep(members, keep) <==> m in members && m in keep
    ensures |Keep(members, keep)| <= |members|
    ensures NoRepeats(members) ==> NoRepeats(Keep(members, keep))
  {
    if members != [] {
      var front, last := members[..|members| - 1], members[|members| - 1];
      KeepMembers(front, keep);
      assert members == front + [last];
      assert NoRepeats(members) ==> NoRepeats(front) && last !in front;
    }
  }

  lemma {:induction false} KeepAll(members: seq<Id>, keep: set<Id>)
    requires forall m <- members :: m in keep
    ensures Keep(members, keep) == members
  {
    if members != [] {
      KeepAll(members[..|members| - 1], keep);
    }
  }

  lemma PruneLive(t: Table, name: Name, live: set<Id>)
    requires name in t.groups ==> t.groups[name].members != [] && forall m <- t.groups[name].members :: m in live
    ensures Prune(t, name, live) == t
  {
    if name in t.groups {
      KeepAll(t.groups[name].members, live);
      assert t.groups[name := t.groups[name]] == t.groups;
    }
  }

  // -- The object -----------------------------------------------------------

  /** Erase in place whatever is not in `keep`. */
  method EraseOthers(members: seq<Id>, keep: set<Id>) returns (kept: seq<Id>)
    ensures kept == Keep(members, keep)
  {
    kept := members;
    var i, seen := 0, 0;
    assert members[..0] == [] && members[0..] == members;
    while i < |kept|
      invariant seen <= |members| && i <= |kept|
      invariant kept[..i] == Keep(members[..seen], keep) && kept[i..] == members[seen..]
      decreases |members| - seen
    {
      assert members[..seen + 1][..seen] == members[..seen] && kept[i] == members[seen];
      if kept[i] !in keep {
        kept := kept[..i] + kept[i + 1..];
      } else {
        assert kept[..i + 1] == kept[..i] + [kept[i]];
        i := i + 1;
      }
      seen := seen + 1;
    }
    assert members[..seen] == members && kept[..i] == kept;
  }

  class SessionTable {
    var claims: map<Name, Id>
    var pairings: map<nat, Pairing>
    var groups: map<Name, Group>
    var counter: nat
    const salt: nat

    ghost function State(): Table
      reads this
    {
      Table(claims, pairings, groups, counter, salt)
    }

    constructor (random: nat)
      ensures State() == Table(map[], map[], map[], 1, random)
    {
      claims, pairings, groups, counter, salt := map[], map[], map[], 1, random;
    }

    method TryClaim(name: Name, who: Id, live: set<Id>) returns (r: Claimed)
      modifies this`claims
      ensures r == ClaimOutcome(old(State()), name, live) && State() == Claim(old(State()), name, who, live)
    {
      var valid := IsValidUsername(name);
      if !valid {
        return InvalidUsername;
      }
      if name in claims {
        if claims[name] in live {
          return AlreadyClaimed;
        }
        claims := claims - {name};
      }
      claims := claims[name := who];
      assert claims == old(claims)[name := who];
      r := Granted;
    }

    method ReleaseName(name: Name, who: Id, live: set<Id>)
      modifies this`claims
      ensures State() == Release(old(State()), name, who, live)
    {
      if name == [] || name !in claims {
        return;
      }
      if claims[name] !in live || claims[name] == who {
        claims := claims - {name};
      }
    }

    /** Passes over ids that are zero or in use; the counter has not run out. */
    method NewPairing(sender: Id, receiver: Id, now: nat) returns (id: nat)
      requires FirstFree(counter, salt, pairings.Keys).Some?
      modifies this`pairings, this`counter
      ensures var c := FirstFree(old(counter), salt, old(pairings).Keys).value;
              id == Mix(c, salt) && State() == CreatePairing(old(State()), sender, receiver, now, c)
      ensures id != 0 && id !in old(pairings)
    {
      hide Mix;
      id := Mix(counter, salt);
      counter := counter + 1;
      while id == 0 || id in pairings
        invariant 0 < counter <= U64 && id == Mix(counter - 1, salt) && pairings == old(pairings)
        invariant FirstFree(counter - 1, salt, pairings.Keys) == FirstFree(old(counter), salt, old(pairings).Keys)
        decreases U64 - counter
      {
        id := Mix(counter, salt);
        counter := counter + 1;
      }
      pairings := pairings[id := Pairing(sender, receiver, now, false, false, false)];
    }

    method AskForRelay(id: nat, fromSender: bool) returns (open: bool)
      modifies this`pairings
      ensures open == RelayOpens(old(State()), id, fromSender) && State() == RequestRelay(old(State()), id, fromSender)
    {
      if id !in pairings {
        return false;
      }
      var p := pairings[id];
      if fromSender {
        p := p.(senderWants := true);
      } else {
        p := p.(receiverWants := true);
      }
      open := p.senderWants && p.receiverWants && !p.active;
      if open {
        p := p.(active := true);
      }
      pairings := pairings[id := p];
    }

    method Expire(now: nat, maxAge: nat, live: set<Id>) returns (removed: nat)
      modifies this`pairings
      ensures State() == ExpirePairings(old(State()), now, maxAge, live)
      ensures removed + |pairings| == |old(pairings)|
    {
      removed := 0;
      var left := pairings.Keys;
      while left != {}
        invariant left <= old(pairings).Keys && left <= pairings.Keys
        invariant removed + |pairings| == |old(pairings)|
        invariant forall id :: id in pairings <==>
                    id in old(pairings) && (id in left || !Expired(old(pairings)[id], now, maxAge, live))
        invariant forall id <- pairings :: pairings[id] == old(pairings)[id]
        decreases |left|
      {
        var id :| id in left;
        left := left - {id};
        var p := pairings[id];
        if (p.sender !in live && p.receiver !in live) || (now - p.created) % U64 > maxAge {
          ghost var before := pairings.Keys;
          pairings := pairings - {id};
          assert pairings.Keys == before - {id};
          removed := removed + 1;
        }
      }
    }

    /** Whether the group still has anyone in it. */
    method PruneGroup(name: Name, live: set<Id>) returns (exists_: bool)
      modifies this`groups
      ensures State() == Prune(old(State()), name, live) && exists_ == (name in groups)
    {
      if name !in groups {
        return false;
      }
      var members := EraseOthers(groups[name].members, live);
      if members == [] {
        groups := groups - {name};
        return false;
      }
      groups := groups[name := groups[name].(members := members)];
      exists_ := true;
    }

    method JoinGroup(name: Name, verifier: seq<byte>, who: Id, live: set<Id>) returns (r: Joined)
      modifies this`groups
      ensures if !ValidUsername(name) then r == InvalidName && State() == old(State())
              else
                var pruned := Prune(old(State()), name, live);
                r == JoinOutcome(pruned, name, verifier, who) && State() == Enter(pruned, name, verifier, who)
    {
      var valid := IsValidUsername(name);
      if !valid {
        return InvalidName;
      }
      hide ValidUsername;
      var present := PruneGroup(name, live);
      if !present {
        groups := groups[name := Group(verifier, [who])];
        return Created;
      }
      var members := groups[name].members;
      var i := 0;
      while i < |members|
        invariant i <= |members| && who !in members[..i]
      {
        if members[i] == who {
          return AlreadyMember;
        }
        i := i + 1;
      }
      if groups[name].verifier != verifier {
        return WrongPassword;
      }
      if |members| >= MAX_GROUP_MEMBERS {
        return Full;
      }
      groups := groups[name := groups[name].(members := members + [who])];
      r := Added;
    }

    method LeaveGroup(name: Name, who: Id, live: set<Id>)
      modifies this`groups
      ensures State() == Leave(old(State()), name, who, live)
    {
      if name == [] || name !in groups {
        return;
      }
      var members := EraseOthers(groups[name].members, live - {who});
      if members == [] {
        groups := groups - {name};
      } else {
        groups := groups[name := groups[name].(members := members)];
      }
    }
  }
}
