/** The pacing bound in clock time. */
module UdpPacing {
  import opened SequenceNumbers
  import opened Congestion
  import opened UdpSender
  import opened UdpSystem
  import opened UdpGuarantees

  const CLOCK_RANGE := 0x1_0000_0000_0000_0000

  /** The reading at the last refill, 0 before the first. */
  function Reading(x: Peer): nat { x.end.tx.pacer.lastUs }

  /** Between two states the pacer's clock readings fit 64 bits and do not go back. */
  predicate Steady(run: seq<System>, i: nat, j: nat)
    requires i <= j < |run|
  {
    && (forall k :: i <= k <= j ==> Reading(run[k].left) < CLOCK_RANGE)
    && (forall k :: i < k <= j ==> Reading(run[k - 1].left) <= Reading(run[k].left))
  }

  /** No round trip is taken to be shorter than this. */
  function Shortest(low: nat): nat { if low < ASSUMED_RTT_US then low else ASSUMED_RTT_US }

  /** The most the window authorises in a microsecond. */
  function TopRate(t: Tuning, low: nat): real
    requires low > 0
  {
    t.maxCwnd / Shortest(low) as real
  }

  lemma RateBounded(t: Tuning, c: Window, srtt: nat, low: nat)
    requires low > 0 && WindowOk(t, c) && (srtt == 0 || srtt >= low)
    ensures c.cwnd / (if srtt > 0 then srtt else ASSUMED_RTT_US) as real <= TopRate(t, low)
  {
    var d, s := (if srtt > 0 then srtt else ASSUMED_RTT_US) as real, Shortest(low) as real;
    assert 0.0 < s <= d;
    Quotients(c.cwnd, t.maxCwnd, d, s);
  }

  lemma Quotients(a: real, b: real, d: real, s: real)
    requires 0.0 < a <= b && 0.0 < s <= d
    ensures a / d <= b / s
  {
    var q := a / d;
    assert q * d == a && q > 0.0;
    assert q * s <= q * d by { assert q * (d - s) >= 0.0; }
    assert (b / s) * s == b;
    assert (b / s - q) * s >= 0.0;
  }

  lemma Scaled(n: nat, a: real, b: real)
    requires a <= b
    ensures n as real * a <= n as real * b
  {
    assert n as real * (b - a) >= 0.0;
  }

  /** What time passed between two states could have authorised. */
  function Authorised(t: Tuning, low: nat, from: int, to: int): real
    requires low > 0
  {
    (to - from) as real * TopRate(t, low)
  }

  lemma AuthorisedAdds(t: Tuning, low: nat, a: int, b: int, c: int)
    requires low > 0
    ensures Authorised(t, low, a, b) + Authorised(t, low, b, c) == Authorised(t, low, a, c)
    ensures a <= b ==> Authorised(t, low, a, b) >= 0.0
  {
    var x, y, rate := (b - a) as real, (c - b) as real, TopRate(t, low);
    assert (c - a) as real == x + y;
    assert rate >= 0.0 by { Quotients(t.maxCwnd, t.maxCwnd, Shortest(low) as real, Shortest(low) as real); }
    assert (x + y) * rate == x * rate + y * rate;
  }

  lemma FillAuthorised(t: Tuning, low: nat, tx: Sender, now: nat)
    requires low > 0 && WindowOk(t, tx.window) && (tx.rtt.srtt == 0 || tx.rtt.srtt >= low)
    requires tx.pacer.lastUs <= now < CLOCK_RANGE
    ensures Accrued(tx, now) <= Authorised(t, low, tx.pacer.lastUs, now)
  {
    AuthorisedAdds(t, low, tx.pacer.lastUs, now, now);
    if tx.pacer.lastUs != 0 {
      assert Elapsed(now, tx.pacer.lastUs) == now - tx.pacer.lastUs;
      RateBounded(t, tx.window, tx.rtt.srtt, low);
      var rate := tx.window.cwnd / (if tx.rtt.srtt > 0 then tx.rtt.srtt else ASSUMED_RTT_US) as real;
      Scaled(now - tx.pacer.lastUs, rate, TopRate(t, low));
    }
  }

  /** Only a fill earns credit or reads the pacer's clock, and samples are only added. */
  lemma ActEarns(t: Tuning, x: Peer, action: Action)
    ensures var m := EffectOf(Unbounded, t, x, action);
            m.Moved? ==>
              && x.samples <= m.peer.samples
              && (action.Fill? ==> m.peer.earned == x.earned + Accrued(x.end.tx, action.now) && Reading(m.peer) == action.now)
              && (!action.Fill? ==> m.peer.earned == x.earned && Reading(m.peer) == Reading(x))
  {
    if action.Fill? {
      SendingSpends(Refilled(t, x.end.tx, action.now), x.end.rx.receiveNext, action.now);
      hide SendWhileAllowed;
    } else if action.Receive? {
      ReceiptSpendsNothing(t, x.end, action.packet, action.at);
      hide ProcessPacket;
    }
  }

  lemma Plausible(t: Tuning, tx: Sender, samples: seq<nat>, low: nat, high: nat)
    requires Controlled(t, tx, samples) && Within(samples, low, high)
    ensures WindowOk(t, tx.window) && (tx.rtt.srtt == 0 || tx.rtt.srtt >= low)
  {
    if samples != [] {
      EstimateWithinSamples(t, Rtt(0, 0, t.initialRtoUs), samples, low, high);
    }
  }

  lemma ActAuthorised(t: Tuning, x: Peer, action: Action, low: nat, high: nat)
    requires low > 0 && Controlled(t, x.end.tx, x.samples) && EffectOf(Unbounded, t, x, action).Moved?
    requires var x' := EffectOf(Unbounded, t, x, action).peer;
             Within(x'.samples, low, high) && Reading(x) <= Reading(x') < CLOCK_RANGE
    ensures Within(x.samples, low, high)
    ensures var x' := EffectOf(Unbounded, t, x, action).peer;
            x'.earned - x.earned <= Authorised(t, low, Reading(x), Reading(x'))
  {
    hide EffectOf, Controlled, Authorised, Accrued;
    ActEarns(t, x, action);
    Plausible(t, x.end.tx, x.samples, low, high);
    if action.Fill? {
      FillAuthorised(t, low, x.end.tx, action.now);
    } else {
      AuthorisedAdds(t, low, Reading(x), Reading(x), Reading(x));
    }
  }

  lemma StepEarns(t: Tuning, run: seq<System>, k: nat, low: nat, high: nat)
    requires Usable(t) && IsRun(Unbounded, t, run) && 0 < k < |run| && low > 0
    requires Within(run[k].left.samples, low, high)
    requires Reading(run[k - 1].left) <= Reading(run[k].left) < CLOCK_RANGE
    ensures Within(run[k - 1].left.samples, low, high)
    ensures run[k].left.earned - run[k - 1].left.earned
         <= Authorised(t, low, Reading(run[k - 1].left), Reading(run[k].left))
  {
    hide EffectOf, Flow, Controlled, Authorised, Unused, Within;
    RunKeepsInv(t, run, k - 1);
    var s, s' := run[k - 1], run[k];
    assert StepAt(Unbounded, t, run, k - 1);
    if action :| Acts(Unbounded, t, s.left, s.right, action, s'.left, s'.right) {
      ActAuthorised(t, s.left, action, low, high);
    } else {
      AuthorisedAdds(t, low, Reading(s.left), Reading(s'.left), Reading(s'.left));
    }
  }

  lemma {:induction false} RunEarns(t: Tuning, run: seq<System>, i: nat, j: nat, low: nat, high: nat)
    requires Usable(t) && IsRun(Unbounded, t, run) && i <= j < |run| && low > 0
    requires Steady(run, i, j) && Within(run[j].left.samples, low, high)
    ensures run[j].left.earned - run[i].left.earned <= Authorised(t, low, Reading(run[i].left), Reading(run[j].left))
    decreases j
  {
    hide IsRun, Authorised;
    AuthorisedAdds(t, low, Reading(run[i].left), Reading(run[i].left), Reading(run[i].left));
    if i < j {
      StepEarns(t, run, j, low, high);
      RunEarns(t, run, i, j - 1, low, high);
      AuthorisedAdds(t, low, Reading(run[i].left), Reading(run[j - 1].left), Reading(run[j].left));
    }
  }

  /** Between any two moments of a run, first transmissions are at most one burst
      and the largest window once per shortest round trip of the time between. */
  lemma PacingRate(t: Tuning, run: seq<System>, i: nat, j: nat, low: nat, high: nat)
    requires Usable(t) && IsRun(Unbounded, t, run) && i <= j < |run| && low > 0
    requires Steady(run, i, j) && Within(run[j].left.samples, low, high)
    ensures (|run[j].left.log| - |run[i].left.log|) as real
         <= t.maxBurst + (Reading(run[j].left) - Reading(run[i].left)) as real * (t.maxCwnd / Shortest(low) as real)
  {
    PacingBound(t, run, i, j);
    RunEarns(t, run, i, j, low, high);
  }
}
