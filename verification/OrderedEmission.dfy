/**
 * The ring of slots between the sealing workers and the one writer: chunks are
 * published by index in any order and consumed as 0, 1, 2, ...
 */
module OrderedEmission {

  import opened Bytes

  type Chunk = seq<byte>

  datatype Emitter = Emitter(slots: seq<Option<Chunk>>, next: nat, total: Option<nat>, aborted: bool)

  function Empty(capacity: nat): Emitter {
    Emitter(seq(if capacity == 0 then 1 else capacity, _ => None), 0, None, false)
  }

  function SlotOf(e: Emitter, index: nat): Option<Chunk>
    requires |e.slots| > 0
  {
    e.slots[index % |e.slots|]
  }

  // -- One operation each, taken when its wait is over ----------------------

  predicate MayPublish(e: Emitter, index: nat) { e.aborted || index < e.next + |e.slots| }

  function Publish(e: Emitter, index: nat, chunk: Chunk): Emitter
    requires |e.slots| > 0
  {
    if e.aborted then e else e.(slots := e.slots[index % |e.slots| := Some(chunk)])
  }

  predicate AllTaken(e: Emitter) { e.total.Some? && e.next >= e.total.value }

  predicate MayConsume(e: Emitter)
    requires |e.slots| > 0
  {
    e.aborted || AllTaken(e) || SlotOf(e, e.next).Some?
  }

  datatype Consumed = Taken(chunk: Chunk) | NoMore | Failed

  function Yield(e: Emitter): Consumed
    requires |e.slots| > 0 && MayConsume(e)
  {
    if e.aborted then Failed else if AllTaken(e) then NoMore else Taken(SlotOf(e, e.next).value)
  }

  function Consume(e: Emitter): Emitter
    requires |e.slots| > 0
  {
    if e.aborted || AllTaken(e) then e else e.(slots := e.slots[e.next % |e.slots| := None], next := e.next + 1)
  }

  // -- Refinement of a stream indexed by chunk number -----------------------

  /**
   * `published` and `taken` are the history: what was published under each
   * index, and what the writer has had so far.
   */
  ghost predicate Refines(e: Emitter, published: map<nat, Chunk>, taken: seq<Chunk>) {
    && |e.slots| > 0
    && e.next == |taken|
    && (forall i :: 0 <= i < |taken| ==> i in published && published[i] == taken[i])
    && (forall i <- published :: i < e.next + |e.slots|)
    && (forall i :: e.next <= i < e.next + |e.slots| ==>
          SlotOf(e, i) == if i in published then Some(published[i]) else None)
  }

  lemma NoMultipleBetween(n: nat, d: int)
    requires 0 < n
    ensures !(0 < n * d < n)
  {
    if d > 0 {
      assert n * d == n * (d - 1) + n;
      assert n * (d - 1) >= 0;
    }
  }

  lemma DistinctSlots(n: nat, i: nat, j: nat)
    requires 0 < n && i < j < i + n
    ensures i % n != j % n
  {
    var d := j / n - i / n;
    NoMultipleBetween(n, d);
    assert n * d == n * (j / n) - n * (i / n);
    assert n * (i / n) == i - i % n && n * (j / n) == j - j % n;
  }

  lemma SameSlot(n: nat, i: nat)
    requires 0 < n
    ensures (i + n) % n == i % n
  {
    var d := (i + n) / n - i / n - 1;
    assert n * d == n * ((i + n) / n) - n * (i / n) - n;
    assert n * (i / n) == i - i % n && n * ((i + n) / n) == i + n - (i + n) % n;
    assert n * d == i % n - (i + n) % n;
    NoMultipleBetween(n, d);
    NoMultipleBetween(n, -d);
    assert n * (-d) == -(n * d);
  }

  lemma EmptyRefines(capacity: nat)
    ensures Refines(Empty(capacity), map[], [])
  {
  }

  /** A publisher that may go ahead with a new index finds its slot free. */
  lemma PublishRefines(e: Emitter, published: map<nat, Chunk>, taken: seq<Chunk>, index: nat, chunk: Chunk)
    requires Refines(e, published, taken) && !e.aborted && MayPublish(e, index) && index !in published
    ensures SlotOf(e, index) == None
    ensures Refines(Publish(e, index, chunk), published[index := chunk], taken)
  {
    assert index >= e.next;
    var n := |e.slots|;
    var after := Publish(e, index, chunk);
    forall i | e.next <= i < e.next + n
      ensures SlotOf(after, i) == if i in published[index := chunk] then Some(published[index := chunk][i]) else None
    {
      if i < index {
        DistinctSlots(n, i, index);
      } else if index < i {
        DistinctSlots(n, index, i);
      }
      assert SlotOf(e, i) == if i in published then Some(published[i]) else None;
    }
  }

  /** The slot the writer waits on is ready exactly when its chunk has been published. */
  lemma ReadyIffPublished(e: Emitter, published: map<nat, Chunk>, taken: seq<Chunk>, index: nat)
    requires Refines(e, published, taken) && e.next <= index < e.next + |e.slots|
    ensures SlotOf(e, index).Some? <==> index in published
  {
  }

  lemma ConsumeRefines(e: Emitter, published: map<nat, Chunk>, taken: seq<Chunk>)
    requires Refines(e, published, taken) && MayConsume(e) && Yield(e).Taken?
    ensures e.next in published && Yield(e).chunk == published[e.next]
    ensures Refines(Consume(e), published, taken + [published[e.next]])
  {
    var n, after := |e.slots|, Consume(e);
    assert SlotOf(e, e.next).Some?;
    forall i | after.next <= i < after.next + n
      ensures SlotOf(after, i) == if i in published then Some(published[i]) else None
    {
      if i == e.next + n {
        SameSlot(n, e.next);
      } else {
        DistinctSlots(n, e.next, i);
        assert SlotOf(e, i) == if i in published then Some(published[i]) else None;
      }
    }
  }

  // -- Every interleaving ---------------------------------------------------

  datatype Act = Publishes(index: nat, chunk: Chunk) | Consumes | SetsTotal(total: nat) | Aborts

  datatype Emission = Emission(emitter: Emitter, published: map<nat, Chunk>, taken: seq<Chunk>)

  /** None where the wait is not over, or the index was published before. */
  function After(s: Emission, a: Act): Option<Emission>
    requires |s.emitter.slots| > 0
  {
    match a
    case Publishes(index, chunk) =>
      if !MayPublish(s.emitter, index) || index in s.published then None
      else if s.emitter.aborted then Some(s)
      else Some(s.(emitter := Publish(s.emitter, index, chunk), published := s.published[index := chunk]))
    case Consumes =>
      if !MayConsume(s.emitter) then None
      else
        var taken := match Yield(s.emitter) case Taken(chunk) => s.taken + [chunk] case _ => s.taken;
        Some(s.(emitter := Consume(s.emitter), taken := taken))
    case SetsTotal(total) => Some(s.(emitter := s.emitter.(total := Some(total))))
    case Aborts => Some(s.(emitter := s.emitter.(aborted := true)))
  }

  /** Where a sequence of operations leads, None if one of them still waits. */
  function Play(capacity: nat, acts: seq<Act>): (r: Option<Emission>)
    ensures r.Some? ==> |r.value.emitter.slots| > 0
  {
    if acts == [] then Some(Emission(Empty(capacity), map[], []))
    else
      var before := Play(capacity, acts[..|acts| - 1]);
      if before.None? then None else After(before.value, acts[|acts| - 1])
  }

  lemma {:induction false} PlayRefines(capacity: nat, acts: seq<Act>)
    requires Play(capacity, acts).Some?
    ensures var s := Play(capacity, acts).value; Refines(s.emitter, s.published, s.taken)
  {
    if acts != [] {
      PlayRefines(capacity, acts[..|acts| - 1]);
      var s, a := Play(capacity, acts[..|acts| - 1]).value, acts[|acts| - 1];
      if a.Publishes? && !s.emitter.aborted {
        PublishRefines(s.emitter, s.published, s.taken, a.index, a.chunk);
      } else if a.Consumes? && Yield(s.emitter).Taken? {
        ConsumeRefines(s.emitter, s.published, s.taken);
      }
    }
  }

  /** The writer has had exactly chunks 0, 1, 2, ..., each as it was published. */
  lemma TakenInOrder(capacity: nat, acts: seq<Act>, i: nat)
    requires Play(capacity, acts).Some? && i < |Play(capacity, acts).value.taken|
    ensures var s := Play(capacity, acts).value; i in s.published && s.taken[i] == s.published[i]
  {
    PlayRefines(capacity, acts);
  }

  /** Ready slots are exactly the published indices not yet taken, and none is overwritten. */
  lemma ReadySlotsExact(capacity: nat, acts: seq<Act>, index: nat)
    requires Play(capacity, acts).Some?
    ensures var s := Play(capacity, acts).value;
            && (s.emitter.next <= index < s.emitter.next + |s.emitter.slots| ==>
                  (SlotOf(s.emitter, index).Some? <==> index in s.published))
            && (index in s.published ==> index < s.emitter.next + |s.emitter.slots|)
            && (!s.emitter.aborted && MayPublish(s.emitter, index) && index !in s.published ==>
                  SlotOf(s.emitter, index) == None)
  {
    PlayRefines(capacity, acts);
    var s := Play(capacity, acts).value;
    if !s.emitter.aborted && MayPublish(s.emitter, index) && index !in s.published {
      PublishRefines(s.emitter, s.published, s.taken, index, []);
    }
  }

  // -- The object -----------------------------------------------------------

  datatype Published = Stored | Refused | MustWait

  class OrderedEmitter {
    const slots: array<Option<Chunk>>
    var next: nat
    var total: nat
    var totalKnown: bool
    var error: bool

    ghost function State(): Emitter
      reads this, slots
    {
      Emitter(slots[..], next, if totalKnown then Some(total) else None, error)
    }

    constructor (capacity: nat)
      ensures fresh(slots) && slots.Length > 0
      ensures State() == Empty(capacity)
    {
      slots := new Option<Chunk>[if capacity == 0 then 1 else capacity](_ => None);
      next, total, totalKnown, error := 0, 0, false, false;
    }

    /** One attempt; the caller waits and tries again on MustWait. */
    method TryPublish(index: nat, chunk: Chunk) returns (r: Published)
      requires slots.Length > 0
      modifies slots
      ensures r == MustWait <==> !MayPublish(old(State()), index)
      ensures r == Refused <==> old(State()).aborted
      ensures State() == if r == MustWait then old(State()) else Publish(old(State()), index, chunk)
    {
      if !error && index >= next + slots.Length {
        return MustWait;
      }
      if error {
        return Refused;
      }
      slots[index % slots.Length] := Some(chunk);
      r := Stored;
    }

    /** None while the caller must wait. */
    method TryConsume() returns (r: Option<Consumed>)
      requires slots.Length > 0
      modifies this`next, slots
      ensures r.None? <==> !MayConsume(old(State()))
      ensures r.None? ==> State() == old(State())
      ensures r.Some? ==> MayConsume(old(State())) && r.value == Yield(old(State())) && State() == Consume(old(State()))
    {
      if error {
        return Some(Failed);
      }
      if totalKnown && next >= total {
        return Some(NoMore);
      }
      var slot := slots[next % slots.Length];
      if slot.None? {
        return None;
      }
      slots[next % slots.Length] := None;
      next := next + 1;
      r := Some(Taken(slot.value));
    }

    method SetTotal(n: nat)
      modifies this`total, this`totalKnown
      ensures State() == old(State()).(total := Some(n))
    {
      total, totalKnown := n, true;
    }

    method Abort()
      modifies this`error
      ensures State() == old(State()).(aborted := true)
    {
      error := true;
    }
  }
}
