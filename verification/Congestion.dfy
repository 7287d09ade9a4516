/** Congestion window, round-trip estimator and pacer of the UDP transport.
    Doubles are modelled as reals, microsecond counters as natural numbers. */
module Congestion {

  type Positive = x: real | x > 0.0 witness 1.0

  datatype Tuning = Tuning(
    initialCwnd: Positive, minCwnd: Positive, maxCwnd: Positive, maxBurst: real,
    minRtoUs: nat, maxRtoUs: nat, initialRtoUs: nat,
    fastRetransmitThreshold: nat, maxTimeouts: nat)

  const DEFAULT_TUNING :=
    Tuning(32.0, 4.0, 2048.0, 48.0, 5_000, 2_000_000, 200_000, 3, 12)

  /** The orderings between constants that the code relies on. */
  predicate Coherent(t: Tuning) {
    && 1.0 <= t.minCwnd <= t.initialCwnd <= t.maxCwnd
    && 0.0 <= t.maxBurst
    && t.minRtoUs <= t.initialRtoUs <= t.maxRtoUs
  }

  function Max(a: real, b: real): real { if a >= b then a else b }
  function Min(a: real, b: real): real { if a <= b then a else b }

  /** Unsigned 64-bit subtraction of two clock readings. */
  function Elapsed(now: nat, past: nat): nat { (now - past) % 0x1_0000_0000_0000_0000 }

  // -- Window ---------------------------------------------------------------

  datatype Window = Window(cwnd: Positive, ssthresh: real, fraction: real)

  function InitialWindow(t: Tuning): Window { Window(t.initialCwnd, t.maxCwnd, 0.0) }

  /** One newly acknowledged packet. */
  function GrowOne(c: Window): Window {
    if c.cwnd < c.ssthresh then c.(cwnd := c.cwnd + 1.0)
    else
      var fraction := c.fraction + 1.0 / c.cwnd;
      if fraction >= 1.0 then c.(cwnd := c.cwnd + 1.0, fraction := fraction - 1.0)
      else c.(fraction := fraction)
  }

  function Grow(c: Window, acks: nat): Window {
    if acks == 0 then c else GrowOne(Grow(c, acks - 1))
  }

  function Acknowledged(t: Tuning, c: Window, acks: nat): Window {
    var grown := Grow(c, acks);
    if grown.cwnd > t.maxCwnd then grown.(cwnd := t.maxCwnd) else grown
  }

  /** Fast retransmit halves the window. */
  function Halved(t: Tuning, c: Window): Window {
    var half := Max(t.minCwnd, c.cwnd / 2.0);
    Window(half, half, 0.0)
  }

  /** A timeout collapses it. */
  function Collapsed(t: Tuning, c: Window): Window {
    Window(t.minCwnd, Max(t.minCwnd, c.cwnd / 2.0), 0.0)
  }

  predicate WindowOk(t: Tuning, c: Window) {
    && t.minCwnd <= c.cwnd <= t.maxCwnd
    && t.minCwnd <= c.ssthresh
    && 0.0 <= c.fraction < 1.0
  }

  lemma ReciprocalAntitone(x: Positive, y: Positive)
    requires x <= y
    ensures 0.0 < 1.0 / y <= 1.0 / x
  {
  }

  lemma QuotientStep(n: real, w: Positive)
    ensures (n + 1.0) / w == n / w + 1.0 / w
  {
  }

  lemma {:induction false} GrowKeeps(t: Tuning, c: Window, acks: nat)
    requires Coherent(t) && WindowOk(t, c)
    ensures var g := Grow(c, acks);
            c.cwnd <= g.cwnd && g.ssthresh == c.ssthresh && 0.0 <= g.fraction < 1.0
  {
    if acks > 0 {
      GrowKeeps(t, c, acks - 1);
      ReciprocalAntitone(1.0, Grow(c, acks - 1).cwnd);
    }
  }

  /** Every event keeps the window between its floor and its ceiling and the
      carry below one packet. */
  lemma WindowBounded(t: Tuning, c: Window, acks: nat)
    requires Coherent(t) && WindowOk(t, c)
    ensures WindowOk(t, InitialWindow(t))
    ensures WindowOk(t, Acknowledged(t, c, acks))
    ensures WindowOk(t, Halved(t, c))
    ensures WindowOk(t, Collapsed(t, c))
  {
    GrowKeeps(t, c, acks);
  }

  /** Additive increase: past the threshold, `acks` acknowledgements raise window
      plus carry by at most `acks / cwnd`. */
  lemma {:induction false} AvoidanceIsAdditive(t: Tuning, c: Window, acks: nat)
    requires Coherent(t) && WindowOk(t, c) && c.ssthresh <= c.cwnd
    ensures var g := Grow(c, acks);
            c.cwnd + c.fraction <= g.cwnd + g.fraction <= c.cwnd + c.fraction + acks as real / c.cwnd
  {
    if acks > 0 {
      var g := Grow(c, acks - 1);
      AvoidanceIsAdditive(t, c, acks - 1);
      GrowKeeps(t, c, acks - 1);
      GrowOneAvoiding(g, c.cwnd);
      QuotientStep((acks - 1) as real, c.cwnd);
    }
  }

  lemma GrowOneAvoiding(g: Window, w: Positive)
    requires g.ssthresh <= g.cwnd && w <= g.cwnd
    ensures g.cwnd + g.fraction <= GrowOne(g).cwnd + GrowOne(g).fraction <= g.cwnd + g.fraction + 1.0 / w
  {
    ReciprocalAntitone(w, g.cwnd);
  }

  /** So a windowful of acknowledgements raises it by at most one packet. */
  lemma OnePacketPerRoundTrip(t: Tuning, c: Window, acks: nat)
    requires Coherent(t) && WindowOk(t, c) && c.ssthresh <= c.cwnd
    requires acks as real <= c.cwnd
    ensures Grow(c, acks).cwnd + Grow(c, acks).fraction <= c.cwnd + c.fraction + 1.0
  {
    AvoidanceIsAdditive(t, c, acks);
    assert acks as real / c.cwnd <= 1.0;
  }

  /** Slow start: below the threshold every acknowledgement opens the window by
      a whole packet, so a windowful doubles it. */
  lemma {:induction false} SlowStartIsExponential(c: Window, acks: nat)
    requires c.cwnd + acks as real <= c.ssthresh
    ensures Grow(c, acks) == c.(cwnd := c.cwnd + acks as real)
  {
    if acks > 0 {
      SlowStartIsExponential(c, acks - 1);
    }
  }

  // -- Round-trip estimator (section 2 of RFC 6298) -------------------------

  /** `srtt == 0` stands for "no sample yet". */
  datatype Rtt = Rtt(srtt: nat, rttvar: nat, rto: nat)

  function ClampRto(t: Tuning, rto: nat): nat {
    if rto < t.minRtoUs then t.minRtoUs else if rto > t.maxRtoUs then t.maxRtoUs else rto
  }

  function Update(t: Tuning, r: Rtt, sample: nat): Rtt {
    if r.srtt == 0 then
      Rtt(sample, sample / 2, ClampRto(t, sample + 4 * (sample / 2)))
    else
      var difference := if sample > r.srtt then sample - r.srtt else r.srtt - sample;
      var rttvar := (3 * r.rttvar + difference) / 4;
      var srtt := (7 * r.srtt + sample) / 8;
      Rtt(srtt, rttvar, ClampRto(t, srtt + 4 * rttvar))
  }

  function Estimate(t: Tuning, r: Rtt, samples: seq<nat>): Rtt {
    if samples == [] then r
    else Update(t, Estimate(t, r, samples[..|samples| - 1]), samples[|samples| - 1])
  }

  function BackedOff(t: Tuning, r: Rtt): Rtt {
    r.(rto := if r.rto * 2 > t.maxRtoUs then t.maxRtoUs else r.rto * 2)
  }

  predicate RtoOk(t: Tuning, r: Rtt) { t.minRtoUs <= r.rto <= t.maxRtoUs }

  lemma EstimateNext(t: Tuning, r: Rtt, samples: seq<nat>, sample: nat)
    ensures Estimate(t, r, samples + [sample]) == Update(t, Estimate(t, r, samples), sample)
  {
    assert (samples + [sample])[..|samples|] == samples;
  }

  lemma {:induction false} EstimateAppend(t: Tuning, r: Rtt, first: seq<nat>, second: seq<nat>)
    ensures Estimate(t, r, first + second) == Estimate(t, Estimate(t, r, first), second)
    decreases |second|
  {
    if second == [] {
      assert first + second == first;
    } else {
      var most := second[..|second| - 1];
      assert (first + second)[..|first + second| - 1] == first + most;
      EstimateAppend(t, r, first, most);
    }
  }

  /** The timer stays inside its clamp whatever the samples. */
  lemma {:induction false} TimerClamped(t: Tuning, r: Rtt, samples: seq<nat>)
    requires Coherent(t) && RtoOk(t, r)
    ensures RtoOk(t, Estimate(t, r, samples)) && RtoOk(t, BackedOff(t, r))
  {
    if samples != [] {
      TimerClamped(t, r, samples[..|samples| - 1]);
    }
  }

  ghost predicate Within(samples: seq<nat>, low: nat, high: nat) {
    forall i :: 0 <= i < |samples| ==> low <= samples[i] <= high
  }

  /** The smoothed estimate never leaves the range of the samples it was fed,
      and the deviation never exceeds the largest of them. */
  lemma {:induction false} EstimateWithinSamples(t: Tuning, r: Rtt, samples: seq<nat>, low: nat, high: nat)
    requires r.srtt == 0 && r.rttvar == 0
    requires samples != [] && Within(samples, low, high)
    ensures low <= Estimate(t, r, samples).srtt <= high
    ensures Estimate(t, r, samples).rttvar <= high
  {
    var most := samples[..|samples| - 1];
    if most != [] {
      EstimateWithinSamples(t, r, most, low, high);
    }
  }

  // -- Pacer ----------------------------------------------------------------

  /** `lastUs == 0` stands for "never refilled". */
  datatype Pacer = Pacer(tokens: real, lastUs: nat)

  const ASSUMED_RTT_US := 1000

  /** Packets the window authorises between two clock readings. */
  function Earned(elapsed: nat, c: Window, srtt: nat): real {
    elapsed as real * (c.cwnd / (if srtt > 0 then srtt else ASSUMED_RTT_US) as real)
  }

  function Refill(t: Tuning, p: Pacer, now: nat, c: Window, srtt: nat): Pacer {
    if p.lastUs == 0 then Pacer(t.maxBurst, now)
    else Pacer(Min(t.maxBurst, p.tokens + Earned(Elapsed(now, p.lastUs), c, srtt)), now)
  }

  lemma EarnedNonNegative(elapsed: nat, c: Window, srtt: nat)
    ensures Earned(elapsed, c, srtt) >= 0.0
  {
    var rate := c.cwnd / (if srtt > 0 then srtt else ASSUMED_RTT_US) as real;
    assert rate > 0.0;
  }
}
