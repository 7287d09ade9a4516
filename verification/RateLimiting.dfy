/** Token buckets by client address. Tokens are real numbers. */
module RateLimiting {

  import opened LittleEndian

  datatype Limits = Limits(connections: real, requests: real, burst: real, maxBuckets: nat)

  const DEFAULT_LIMITS := Limits(60.0, 20.0, 10.0, 65536)
  const IDLE_MS: nat := 10 * 60 * 1000

  ghost predicate Sane(l: Limits) { l.connections >= 0.0 && l.requests >= 0.0 && l.burst >= 0.0 }

  datatype Bucket = Bucket(connections: real, requests: real, last: nat)

  function Capped(tokens: real, burst: real): real { if tokens > burst then burst else tokens }

  /** Milliseconds between two readings, as the 64-bit subtraction gives them. */
  function Elapsed(from: nat, to: nat): nat { (to - from) % U64 }

  /** Tokens a rate gives between two moments. */
  function Gain(rate: real, from: nat, to: nat): real { rate * (Elapsed(from, to) as real / 60000.0) }

  /** A call at the time of the last refill adds nothing. */
  function Refilled(l: Limits, b: Bucket, now: nat): Bucket {
    if Elapsed(b.last, now) == 0 then b
    else
      Bucket(Capped(b.connections + Gain(l.connections, b.last, now), l.burst),
             Capped(b.requests + Gain(l.requests, b.last, now), l.burst), now)
  }

  function Tokens(b: Bucket, request: bool): real { if request then b.requests else b.connections }

  function Rate(l: Limits, request: bool): real { if request then l.requests else l.connections }

  function Charged(b: Bucket, request: bool): Bucket {
    if Tokens(b, request) < 1.0 then b
    else if request then b.(requests := b.requests - 1.0) else b.(connections := b.connections - 1.0)
  }

  type Buckets = map<nat, Bucket>

  /** An unknown key starts full, and a full table is dropped to make room for it. */
  function Found(l: Limits, buckets: Buckets, key: nat, now: nat): Buckets {
    if key in buckets then buckets
    else (if |buckets| >= l.maxBuckets then map[] else buckets)[key := Bucket(l.burst, l.burst, now)]
  }

  /** The clock has not run backwards since any bucket was refilled. */
  predicate UpTo(buckets: Buckets, now: nat) { now < U64 && forall k <- buckets :: buckets[k].last <= now }

  function Ready(l: Limits, buckets: Buckets, key: nat, now: nat): Bucket {
    Refilled(l, Found(l, buckets, key, now)[key], now)
  }

  function Consume(l: Limits, buckets: Buckets, key: nat, now: nat, request: bool): Buckets {
    Found(l, buckets, key, now)[key := Charged(Ready(l, buckets, key, now), request)]
  }

  predicate Allows(l: Limits, buckets: Buckets, key: nat, now: nat, request: bool) {
    Tokens(Ready(l, buckets, key, now), request) >= 1.0
  }

  predicate Idle(b: Bucket, now: nat, idle: nat) { Elapsed(b.last, now) > idle }

  function Evicted(buckets: Buckets, now: nat, idle: nat): Buckets {
    map k | k in buckets && !Idle(buckets[k], now, idle) :: buckets[k]
  }

  // -- Runs -----------------------------------------------------------------

  datatype Event = Call(key: nat, now: nat, request: bool) | Sweep(now: nat)

  function After(l: Limits, idle: nat, buckets: Buckets, e: Event): (after: Buckets)
    requires UpTo(buckets, e.now)
    ensures UpTo(after, e.now)
  {
    match e
    case Call(key, now, request) => Consume(l, buckets, key, now, request)
    case Sweep(now) => Evicted(buckets, now, idle)
  }

  /** The times of the events do not decrease from `start` on. */
  predicate InOrder(events: seq<Event>, start: nat) {
    events != [] ==>
      var most := events[..|events| - 1];
      InOrder(most, start) && End(most, start) <= events[|events| - 1].now < U64
  }

  function End(events: seq<Event>, start: nat): nat { if events == [] then start else events[|events| - 1].now }

  function Run(l: Limits, idle: nat, buckets: Buckets, events: seq<Event>, start: nat): (after: Buckets)
    requires UpTo(buckets, start) && InOrder(events, start)
    ensures UpTo(after, End(events, start))
  {
    if events == [] then buckets
    else After(l, idle, Run(l, idle, buckets, events[..|events| - 1], start), events[|events| - 1])
  }

  predicate Grants(l: Limits, buckets: Buckets, e: Event, key: nat, request: bool) {
    e.Call? && e.key == key && e.request == request && Allows(l, buckets, key, e.now, request)
  }

  /** How many calls of one kind are allowed for one key. */
  function Granted(l: Limits, idle: nat, buckets: Buckets, events: seq<Event>, start: nat, key: nat, request: bool): nat
    requires UpTo(buckets, start) && InOrder(events, start)
  {
    if events == [] then 0
    else
      var most := events[..|events| - 1];
      Granted(l, idle, buckets, most, start, key, request)
      + if Grants(l, Run(l, idle, buckets, most, start), events[|events| - 1], key, request) then 1 else 0
  }

  /** The event does not make the limiter drop a full table. */
  predicate Fits(l: Limits, buckets: Buckets, e: Event) { e.Call? && e.key !in buckets ==> |buckets| < l.maxBuckets }

  /** How often a run drops a full table. */
  function Clears(l: Limits, idle: nat, buckets: Buckets, events: seq<Event>, start: nat): nat
    requires UpTo(buckets, start) && InOrder(events, start)
  {
    if events == [] then 0
    else
      var most := events[..|events| - 1];
      Clears(l, idle, buckets, most, start)
      + if Fits(l, Run(l, idle, buckets, most, start), events[|events| - 1]) then 0 else 1
  }

  // -- Eviction -------------------------------------------------------------

  ghost predicate WithinBurst(l: Limits, b: Bucket) { 0.0 <= b.connections <= l.burst && 0.0 <= b.requests <= l.burst }

  ghost predicate AllWithin(l: Limits, buckets: Buckets) { forall k <- buckets :: WithinBurst(l, buckets[k]) }

  /** A bucket idle for longer than `idle` has had time to fill up from nothing. */
  ghost predicate IdleMeansFull(l: Limits, idle: nat) {
    idle + 1 < U64 ==> Gain(l.connections, 0, idle + 1) >= l.burst && Gain(l.requests, 0, idle + 1) >= l.burst
  }

  lemma GainMonotone(rate: real, a: nat, b: nat, c: nat, d: nat)
    requires rate >= 0.0 && Elapsed(a, b) <= Elapsed(c, d)
    ensures Gain(rate, a, b) <= Gain(rate, c, d)
  {
    var x, y := Elapsed(a, b) as real / 60000.0, Elapsed(c, d) as real / 60000.0;
    assert x <= y;
    assert rate * (y - x) >= 0.0;
  }

  lemma GainAdds(rate: real, a: nat, b: nat, c: nat)
    requires a <= b <= c < U64
    ensures Gain(rate, a, b) + Gain(rate, b, c) == Gain(rate, a, c)
  {
    var x, y := (b - a) as real / 60000.0, (c - b) as real / 60000.0;
    assert Elapsed(a, b) == b - a && Elapsed(b, c) == c - b && Elapsed(a, c) == c - a;
    assert (c - a) as real / 60000.0 == x + y;
    assert rate * (x + y) == rate * x + rate * y;
  }

  /** Evicting is the same as leaving the bucket to fill up, exactly when the idle time is long enough. */
  lemma EvictionHarmlessIff(l: Limits, idle: nat)
    requires Sane(l)
    ensures IdleMeansFull(l, idle) <==>
            forall b: Bucket, now: nat :: WithinBurst(l, b) && Idle(b, now, idle) ==>
              Refilled(l, b, now) == Bucket(l.burst, l.burst, now)
  {
    if IdleMeansFull(l, idle) {
      forall b: Bucket, now: nat | WithinBurst(l, b) && Idle(b, now, idle)
        ensures Refilled(l, b, now) == Bucket(l.burst, l.burst, now)
      {
        GainMonotone(l.connections, 0, idle + 1, b.last, now);
        GainMonotone(l.requests, 0, idle + 1, b.last, now);
      }
    } else {
      var empty := Bucket(0.0, 0.0, 0);
      assert WithinBurst(l, empty) && Idle(empty, idle + 1, idle);
      assert Refilled(l, empty, idle + 1) != Bucket(l.burst, l.burst, idle + 1);
    }
  }

  lemma DefaultsEvictHarmlessly()
    ensures Sane(DEFAULT_LIMITS) && IdleMeansFull(DEFAULT_LIMITS, IDLE_MS)
  {
    assert (IDLE_MS + 1) as real / 60000.0 >= 10.0;
  }

  /** A clock that goes back makes the elapsed time wrap, and the bucket comes out full. */
  lemma BackwardsClockRefills(l: Limits, b: Bucket, now: nat, idle: nat)
    requires Sane(l) && IdleMeansFull(l, idle) && WithinBurst(l, b)
    requires now < b.last < U64 && b.last - now < U64 - idle
    ensures Refilled(l, b, now) == Bucket(l.burst, l.burst, now)
  {
    assert Elapsed(b.last, now) == now - b.last + U64;
    EvictionHarmlessIff(l, idle);
  }

  // -- The rate bound -------------------------------------------------------

  /** What a key could draw on at `now`. */
  ghost function Level(l: Limits, buckets: Buckets, key: nat, request: bool, now: nat): real
    requires UpTo(buckets, now)
  {
    if key in buckets then Capped(Tokens(buckets[key], request) + Gain(Rate(l, request), buckets[key].last, now), l.burst)
    else l.burst
  }

  lemma RefilledWithin(l: Limits, b: Bucket, now: nat, request: bool)
    requires Sane(l) && WithinBurst(l, b)
    ensures WithinBurst(l, Refilled(l, b, now))
    ensures Tokens(Refilled(l, b, now), request) == Capped(Tokens(b, request) + Gain(Rate(l, request), b.last, now), l.burst)
  {
    GainMonotone(l.connections, 0, 0, b.last, now);
    GainMonotone(l.requests, 0, 0, b.last, now);
    assert Gain(l.connections, b.last, b.last) == 0.0 && Gain(l.requests, b.last, b.last) == 0.0;
  }

  lemma CallKeeps(l: Limits, buckets: Buckets, key: nat, now: nat, request: bool)
    requires Sane(l) && UpTo(buckets, now) && AllWithin(l, buckets)
    ensures AllWithin(l, Consume(l, buckets, key, now, request))
  {
    RefilledWithin(l, Found(l, buckets, key, now)[key], now, request);
    hide Refilled;
  }

  lemma LevelGrows(l: Limits, buckets: Buckets, key: nat, request: bool, from: nat, to: nat)
    requires Sane(l) && UpTo(buckets, from) && from <= to < U64
    ensures UpTo(buckets, to)
    ensures Level(l, buckets, key, request, to) <=
            Level(l, buckets, key, request, from) + Gain(Rate(l, request), from, to)
  {
    var rate := Rate(l, request);
    GainMonotone(rate, 0, 0, from, to);
    if key in buckets {
      GainAdds(rate, buckets[key].last, from, to);
    }
    hide Gain;
  }

  /** A call that is allowed takes one token from its key; dropping a full table gives any key a burst at most. */
  lemma CallSpends(l: Limits, buckets: Buckets, e: Event, key: nat, request: bool)
    requires Sane(l) && e.Call? && UpTo(buckets, e.now) && AllWithin(l, buckets)
    ensures Level(l, Consume(l, buckets, e.key, e.now, e.request), key, request, e.now)
            + (if Grants(l, buckets, e, key, request) then 1.0 else 0.0)
            <= Level(l, buckets, key, request, e.now) + if Fits(l, buckets, e) then 0.0 else l.burst
  {
    if key in buckets {
      RefilledWithin(l, buckets[key], e.now, request);
    }
    if e.key == key {
      var b := Found(l, buckets, key, e.now)[key];
      RefilledWithin(l, b, e.now, request);
      assert Gain(Rate(l, request), e.now, e.now) == 0.0;
      hide Refilled, Gain;
    }
  }

  lemma SweepSpares(l: Limits, idle: nat, buckets: Buckets, now: nat, key: nat, request: bool)
    requires Sane(l) && IdleMeansFull(l, idle) && UpTo(buckets, now) && AllWithin(l, buckets)
    ensures Level(l, Evicted(buckets, now, idle), key, request, now) == Level(l, buckets, key, request, now)
  {
    if key in buckets && Idle(buckets[key], now, idle) {
      GainMonotone(l.connections, 0, idle + 1, buckets[key].last, now);
      GainMonotone(l.requests, 0, idle + 1, buckets[key].last, now);
    }
  }

  /** What a number of clears may give a key. */
  ghost function Dropped(l: Limits, clears: nat): real { clears as real * l.burst }

  lemma DroppedNext(l: Limits, clears: nat)
    ensures Dropped(l, 0) == 0.0 && Dropped(l, clears + 1) == Dropped(l, clears) + l.burst
  {
  }

  lemma GainNothing(rate: real, now: nat)
    ensures Gain(rate, now, now) == 0.0
  {
  }

  lemma LevelWithin(l: Limits, buckets: Buckets, key: nat, request: bool, now: nat)
    requires Sane(l) && UpTo(buckets, now) && AllWithin(l, buckets)
    ensures 0.0 <= Level(l, buckets, key, request, now) <= l.burst
  {
    if key in buckets {
      RefilledWithin(l, buckets[key], now, request);
    }
  }

  /** One event: what it grants and leaves is covered by what there was and what a clear gives. */
  lemma EventSpends(l: Limits, idle: nat, buckets: Buckets, e: Event, key: nat, request: bool)
    requires Sane(l) && IdleMeansFull(l, idle) && UpTo(buckets, e.now) && AllWithin(l, buckets)
    ensures AllWithin(l, After(l, idle, buckets, e))
    ensures Level(l, After(l, idle, buckets, e), key, request, e.now)
            + (if Grants(l, buckets, e, key, request) then 1.0 else 0.0)
            <= Level(l, buckets, key, request, e.now) + if Fits(l, buckets, e) then 0.0 else l.burst
  {
    hide Gain, Level;
    if e.Call? {
      CallKeeps(l, buckets, e.key, e.now, e.request);
      CallSpends(l, buckets, e, key, request);
    } else {
      SweepSpares(l, idle, buckets, e.now, key, request);
    }
  }

  lemma {:induction false} RunBound(l: Limits, idle: nat, buckets: Buckets, events: seq<Event>, start: nat, key: nat, request: bool)
    requires Sane(l) && IdleMeansFull(l, idle) && UpTo(buckets, start) && AllWithin(l, buckets) && InOrder(events, start)
    ensures start <= End(events, start) && AllWithin(l, Run(l, idle, buckets, events, start))
    ensures Granted(l, idle, buckets, events, start, key, request) as real
            + Level(l, Run(l, idle, buckets, events, start), key, request, End(events, start))
            <= Level(l, buckets, key, request, start) + Gain(Rate(l, request), start, End(events, start))
               + Dropped(l, Clears(l, idle, buckets, events, start))
  {
    hide Gain, Level, Fits, Dropped, Grants, After, AllWithin, IdleMeansFull;
    if events == [] {
      GainNothing(Rate(l, request), start);
      DroppedNext(l, 0);
    } else {
      var most, e := events[..|events| - 1], events[|events| - 1];
      RunBound(l, idle, buckets, most, start, key, request);
      var before := Run(l, idle, buckets, most, start);
      LevelGrows(l, before, key, request, End(most, start), e.now);
      GainAdds(Rate(l, request), start, End(most, start), e.now);
      DroppedNext(l, Clears(l, idle, buckets, most, start));
      EventSpends(l, idle, before, e, key, request);
    }
  }

  /**
   * In any window of T minutes a key is allowed at most the burst, once more for
   * each time a full table was dropped, and T minutes' worth of its rate.
   */
  lemma RateBound(l: Limits, idle: nat, buckets: Buckets, events: seq<Event>, start: nat, key: nat, request: bool)
    requires Sane(l) && IdleMeansFull(l, idle) && UpTo(buckets, start) && AllWithin(l, buckets) && InOrder(events, start)
    ensures start <= End(events, start)
    ensures Granted(l, idle, buckets, events, start, key, request) as real
            <= (1 + Clears(l, idle, buckets, events, start)) as real * l.burst
               + Rate(l, request) * ((End(events, start) - start) as real / 60000.0)
  {
    hide Level, Granted, Clears, Run, InOrder, AllWithin, IdleMeansFull, Gain, Dropped;
    RunBound(l, idle, buckets, events, start, key, request);
    LevelWithin(l, buckets, key, request, start);
    LevelWithin(l, Run(l, idle, buckets, events, start), key, request, End(events, start));
    ForwardGain(Rate(l, request), start, End(events, start));
    BurstAndDropped(l, Clears(l, idle, buckets, events, start));
  }

  lemma BurstAndDropped(l: Limits, clears: nat)
    ensures l.burst + Dropped(l, clears) == (1 + clears) as real * l.burst
  {
  }

  lemma ForwardGain(rate: real, from: nat, to: nat)
    requires from <= to < U64
    ensures Gain(rate, from, to) == rate * ((to - from) as real / 60000.0)
  {
  }

  /** An unknown key is served from a full bucket, in a table of its own when the old one was full. */
  lemma UnknownKeyServed(l: Limits, buckets: Buckets, key: nat, now: nat)
    requires l.burst >= 1.0 && key !in buckets
    ensures Allows(l, buckets, key, now, true)
    ensures Consume(l, buckets, key, now, true) ==
            (if |buckets| >= l.maxBuckets then map[] else buckets)[key := Bucket(l.burst, l.burst - 1.0, now)]
  {
  }

  /** A call of an unknown key at the end of a run, where the table has one place. */
  lemma UnknownCall(l: Limits, idle: nat, most: seq<Event>, now: nat, key: nat, counted: nat)
    requires l.burst >= 1.0 && l.maxBuckets == 1 && now < U64 && InOrder(most, now) && End(most, now) == now
    requires key !in Run(l, idle, map[], most, now)
    ensures var e := Call(key, now, true);
            var before := Run(l, idle, map[], most, now);
            && InOrder(most + [e], now) && End(most + [e], now) == now
            && Run(l, idle, map[], most + [e], now) ==
               (if |before| >= 1 then map[] else before)[key := Bucket(l.burst, l.burst - 1.0, now)]
            && Granted(l, idle, map[], most + [e], now, counted, true) ==
               Granted(l, idle, map[], most, now, counted, true) + (if key == counted then 1 else 0)
            && Clears(l, idle, map[], most + [e], now) ==
               Clears(l, idle, map[], most, now) + if |before| >= 1 then 1 else 0
  {
    hide Consume, Allows, Gain;
    assert (most + [Call(key, now, true)])[..|most|] == most;
    UnknownKeyServed(l, Run(l, idle, map[], most, now), key, now);
  }

  lemma NoCall(l: Limits, idle: nat, now: nat, counted: nat)
    requires now < U64
    ensures InOrder([], now) && End([], now) == now && Run(l, idle, map[], [], now) == map[]
    ensures Granted(l, idle, map[], [], now, counted, true) == 0 && Clears(l, idle, map[], [], now) == 0
  {
  }

  /** Two keys in a table of one: each call clears the other's bucket, and a key gets its burst again at once. */
  lemma ClearsLiftTheBound(l: Limits, idle: nat, a: nat, b: nat, now: nat)
    requires 1.0 <= l.burst < 2.0 && l.maxBuckets == 1 && a != b && now < U64
    ensures var events := [Call(a, now, true), Call(b, now, true), Call(a, now, true)];
            && UpTo(map[], now) && InOrder(events, now) && End(events, now) == now
            && Clears(l, idle, map[], events, now) == 2
            && Granted(l, idle, map[], events, now, a, true) == 2
  {
    hide Run, Granted, Clears, InOrder, End;
    var first, second := Call(a, now, true), Call(b, now, true);
    NoCall(l, idle, now, a);
    UnknownCall(l, idle, [], now, a, a);
    assert [] + [first] == [first];
    UnknownCall(l, idle, [first], now, b, a);
    assert [first] + [second] == [first, second];
    UnknownCall(l, idle, [first, second], now, a, a);
    assert [first, second] + [first] == [first, second, first];
  }

  // -- Evicting or not makes no difference ----------------------------------

  /** `a` is `b` without some buckets that are full by now. */
  ghost predicate Thinned(l: Limits, a: Buckets, b: Buckets, now: nat)
    requires UpTo(b, now)
  {
    && (forall k <- a :: k in b && a[k] == b[k])
    && (forall k <- b :: k !in a ==> Level(l, b, k, true, now) == l.burst && Level(l, b, k, false, now) == l.burst)
  }

  lemma FullRefills(l: Limits, b: Buckets, key: nat, from: nat, now: nat)
    requires Sane(l) && UpTo(b, from) && from <= now < U64 && AllWithin(l, b) && key in b
    requires Level(l, b, key, true, from) == l.burst && Level(l, b, key, false, from) == l.burst
    ensures Refilled(l, b[key], now) == Bucket(l.burst, l.burst, now)
    ensures UpTo(b, now) && Level(l, b, key, true, now) == l.burst && Level(l, b, key, false, now) == l.burst
  {
    hide Gain;
    GainMonotone(l.connections, b[key].last, from, b[key].last, now);
    GainMonotone(l.requests, b[key].last, from, b[key].last, now);
    RefilledWithin(l, b[key], now, true);
    RefilledWithin(l, b[key], now, false);
  }

  /** Both tables hand the call the same bucket. */
  lemma SameReady(l: Limits, a: Buckets, b: Buckets, from: nat, key: nat, now: nat)
    requires Sane(l) && UpTo(a, from) && UpTo(b, from) && from <= now < U64 && AllWithin(l, b) && Thinned(l, a, b, from)
    ensures Ready(l, a, key, now) == Ready(l, b, key, now)
  {
    if key in b && key !in a {
      FullRefills(l, b, key, from, now);
    }
  }

  lemma StillFull(l: Limits, a: Buckets, b: Buckets, from: nat, now: nat)
    requires Sane(l) && UpTo(a, from) && UpTo(b, from) && from <= now < U64 && AllWithin(l, b) && Thinned(l, a, b, from)
    ensures UpTo(a, now) && UpTo(b, now) && Thinned(l, a, b, now)
  {
    forall k <- b | k !in a ensures Level(l, b, k, true, now) == l.burst && Level(l, b, k, false, now) == l.burst {
      FullRefills(l, b, k, from, now);
    }
  }

  /** A call leaves the tables related. */
  lemma CallKeepsThinned(l: Limits, a: Buckets, b: Buckets, key: nat, now: nat, request: bool)
    requires UpTo(a, now) && UpTo(b, now) && Thinned(l, a, b, now) && Ready(l, a, key, now) == Ready(l, b, key, now)
    requires key !in a ==> |a| < l.maxBuckets
    requires key !in b ==> |b| < l.maxBuckets
    ensures Thinned(l, Consume(l, a, key, now, request), Consume(l, b, key, now, request), now)
  {
    hide Gain;
    var after := Consume(l, b, key, now, request);
    forall k <- after | k !in a && k != key ensures Level(l, after, k, true, now) == l.burst && Level(l, after, k, false, now) == l.burst {
      assert Level(l, b, k, true, now) == l.burst && Level(l, b, k, false, now) == l.burst;
    }
    hide Level, Refilled, Charged;
  }

  lemma SweepThins(l: Limits, idle: nat, a: Buckets, b: Buckets, from: nat, now: nat)
    requires Sane(l) && IdleMeansFull(l, idle) && UpTo(a, from) && UpTo(b, from) && from <= now < U64
    requires AllWithin(l, b) && Thinned(l, a, b, from)
    ensures UpTo(b, now) && Thinned(l, Evicted(a, now, idle), b, now)
  {
    forall k <- b | k !in Evicted(a, now, idle) ensures Level(l, b, k, true, now) == l.burst && Level(l, b, k, false, now) == l.burst {
      if k in a {
        GainMonotone(l.connections, 0, idle + 1, b[k].last, now);
        GainMonotone(l.requests, 0, idle + 1, b[k].last, now);
      } else {
        FullRefills(l, b, k, from, now);
      }
    }
  }

  /** The same events with the sweeps left out. */
  function Kept(l: Limits, buckets: Buckets, events: seq<Event>, start: nat): (after: Buckets)
    requires UpTo(buckets, start) && InOrder(events, start)
    ensures UpTo(after, End(events, start))
  {
    if events == [] then buckets
    else
      var before, e := Kept(l, buckets, events[..|events| - 1], start), events[|events| - 1];
      if e.Call? then Consume(l, before, e.key, e.now, e.request) else before
  }

  predicate KeptFits(l: Limits, buckets: Buckets, events: seq<Event>, start: nat)
    requires UpTo(buckets, start) && InOrder(events, start)
  {
    events != [] ==>
      var most := events[..|events| - 1];
      KeptFits(l, buckets, most, start) && Fits(l, Kept(l, buckets, most, start), events[|events| - 1])
  }

  lemma {:induction false} SweepsOnlyThin(l: Limits, idle: nat, buckets: Buckets, events: seq<Event>, start: nat)
    requires Sane(l) && IdleMeansFull(l, idle) && UpTo(buckets, start) && AllWithin(l, buckets) && InOrder(events, start)
    requires Clears(l, idle, buckets, events, start) == 0 && KeptFits(l, buckets, events, start)
    ensures AllWithin(l, Kept(l, buckets, events, start))
    ensures Thinned(l, Run(l, idle, buckets, events, start), Kept(l, buckets, events, start), End(events, start))
  {
    if events != [] {
      var most, e := events[..|events| - 1], events[|events| - 1];
      SweepsOnlyThin(l, idle, buckets, most, start);
      var a, b, reached := Run(l, idle, buckets, most, start), Kept(l, buckets, most, start), End(most, start);
      hide Thinned, Level, AllWithin, IdleMeansFull;
      if e.Call? {
        SameReady(l, a, b, reached, e.key, e.now);
        StillFull(l, a, b, reached, e.now);
        CallKeepsThinned(l, a, b, e.key, e.now, e.request);
        CallKeeps(l, b, e.key, e.now, e.request);
      } else {
        SweepThins(l, idle, a, b, reached, e.now);
      }
    }
  }

  /** Whatever happened before, a call is decided as if nothing had ever been evicted. */
  lemma EvictionInvisible(l: Limits, idle: nat, buckets: Buckets, events: seq<Event>, start: nat, key: nat, now: nat, request: bool)
    requires Sane(l) && IdleMeansFull(l, idle) && UpTo(buckets, start) && AllWithin(l, buckets) && InOrder(events, start)
    requires Clears(l, idle, buckets, events, start) == 0 && KeptFits(l, buckets, events, start)
    requires End(events, start) <= now < U64
    ensures UpTo(Run(l, idle, buckets, events, start), now) && UpTo(Kept(l, buckets, events, start), now)
    ensures Allows(l, Run(l, idle, buckets, events, start), key, now, request) ==
            Allows(l, Kept(l, buckets, events, start), key, now, request)
  {
    SweepsOnlyThin(l, idle, buckets, events, start);
    SameReady(l, Run(l, idle, buckets, events, start), Kept(l, buckets, events, start), End(events, start), key, now);
  }

  // -- The object -----------------------------------------------------------

  class RateLimiter {
    const limits: Limits
    var buckets: Buckets

    constructor (l: Limits)
      ensures limits == l && buckets == map[]
    {
      limits, buckets := l, map[];
    }

    method Charge(key: nat, now: nat, request: bool) returns (allowed: bool)
      modifies this`buckets
      ensures allowed == Allows(limits, old(buckets), key, now, request)
      ensures buckets == Consume(limits, old(buckets), key, now, request)
    {
      if key !in buckets {
        if |buckets| >= limits.maxBuckets {
          buckets := map[];
        }
        buckets := buckets[key := Bucket(limits.burst, limits.burst, now)];
      }
      var b := Refill(buckets[key], now);
      hide Refilled;
      allowed := (if request then b.requests else b.connections) >= 1.0;
      if allowed {
        b := if request then b.(requests := b.requests - 1.0) else b.(connections := b.connections - 1.0);
      }
      buckets := buckets[key := b];
    }

    method Refill(bucket: Bucket, now: nat) returns (b: Bucket)
      ensures b == Refilled(limits, bucket, now)
    {
      b := bucket;
      var elapsed := ((now - b.last) % U64) as real / 60000.0;
      if elapsed > 0.0 {
        var connections := b.connections + limits.connections * elapsed;
        var requests := b.requests + limits.requests * elapsed;
        if connections > limits.burst {
          connections := limits.burst;
        }
        if requests > limits.burst {
          requests := limits.burst;
        }
        b := Bucket(connections, requests, now);
      }
    }

    method EvictIdle(now: nat, idle: nat) returns (removed: nat)
      modifies this`buckets
      ensures buckets == Evicted(old(buckets), now, idle) && removed + |buckets| == |old(buckets)|
    {
      removed := 0;
      var left := buckets.Keys;
      while left != {}
        invariant left <= old(buckets).Keys && left <= buckets.Keys
        invariant removed + |buckets| == |old(buckets)|
        invariant forall k :: k in buckets <==> k in old(buckets) && (k in left || !Idle(old(buckets)[k], now, idle))
        invariant forall k <- buckets :: buckets[k] == old(buckets)[k]
        decreases |left|
      {
        var k :| k in left;
        left := left - {k};
        if (now - buckets[k].last) % U64 > idle {
          ghost var before := buckets.Keys;
          buckets := buckets - {k};
          assert buckets.Keys == before - {k};
          removed := removed + 1;
        }
      }
    }
  }
}
