/**
 * What one call of the render loop does, sample by sample, as functions of
 * the state it starts from; the oscillator's render method is proved equal to
 * these, and the properties of rendering are proved here.
 */
module Interpolator {
  import opened ShiftRegister
  import opened Platform

  /**
   * The state the render loop advances: the persistent sequence position,
   * shift register, last fetched bit and ramp end points, and the per-call
   * interpolation counter (in increments) and current float sample `sig`.
   */
  datatype Ramp = Ramp(
    index: nat,
    resolution: bv8,
    fetched: bv8,
    start: real,
    end: real,
    ticks: nat,
    sig: real)

  /** Whether the next sample ends the current ramp and fetches a new target. */
  predicate Recomputes(h: Host, s: Ramp)
  {
    s.ticks > h.rampTicks
  }

  /**
   * One output sample. While the counter is within the ramp, the sample is
   * the cosine interpolation at the counter and the counter advances.
   * Otherwise the old end becomes the new start, the bit at `index` is
   * fetched and pushed into the register, `index` moves on by one, the new
   * end is computed from the register, and the counter restarts at one
   * increment; `sig` keeps its value.
   */
  function Step(h: Host, s: Ramp): Ramp
  {
    if !Recomputes(h, s) then
      s.(sig := h.cosint(s.start, s.end, s.ticks), ticks := s.ticks + 1)
    else
      var b := SeqBit(s.index);
      var r := Push(s.resolution, b);
      s.(start := s.end, fetched := b, index := s.index + 1, resolution := r,
         end := h.cycleTarget(r), ticks := 1)
  }

  /** The state after `n` samples. */
  function Run(h: Host, s: Ramp, n: nat): Ramp
  {
    if n == 0 then s else Step(h, Run(h, s, n - 1))
  }

  /** The fixed-point samples written by `n` iterations, in order. */
  function Samples(h: Host, s: Ramp, n: nat): (out: seq<Q31>)
    ensures |out| == n
  {
    if n == 0 then [] else Samples(h, s, n - 1) + [h.toQ31(Run(h, s, n).sig)]
  }

  /** The phase after `n` samples at increment `w0`. */
  function PhaseRun(h: Host, p: real, w0: real, n: nat): real
  {
    if n == 0 then p else h.advancePhase(PhaseRun(h, p, w0, n - 1), w0)
  }

  /** The number of ramp ends in `n` samples of one call, whose counter starts at 0. */
  function RecomputeCount(n: nat, rampTicks: nat): nat
  {
    if n == 0 then 0 else (n - 1) / (rampTicks + 1)
  }

  /** Sample j of a render is the float sample after j+1 steps, converted. */
  lemma {:induction false} SampleAt(h: Host, s: Ramp, n: nat, j: nat)
    requires j < n
    ensures Samples(h, s, n)[j] == h.toQ31(Run(h, s, j + 1).sig)
    decreases n
  {
    if j < n - 1 {
      SampleAt(h, s, n - 1, j);
    }
  }

  /**
   * What sample j of a call does. A sample inside the ramp emits the cosine
   * interpolation and leaves position, register and end points alone. A
   * sample past the ramp fetches exactly the bit at the current position,
   * advances the position by one, pushes the bit into the register, moves
   * the old end into start, and emits the same value as the sample before
   * it; it is never the first sample of a call.
   */
  lemma SampleEffect(h: Host, s: Ramp, n: nat, j: nat)
    requires s.ticks == 0
    requires j < n
    ensures var a, b := Run(h, s, j), Run(h, s, j + 1);
      !Recomputes(h, a) ==>
        b.index == a.index && b.resolution == a.resolution && b.fetched == a.fetched &&
        b.start == a.start && b.end == a.end &&
        Samples(h, s, n)[j] == h.toQ31(h.cosint(a.start, a.end, a.ticks))
    ensures var a, b := Run(h, s, j), Run(h, s, j + 1);
      Recomputes(h, a) ==>
        j > 0 &&
        b.index == a.index + 1 && b.fetched == SeqBit(a.index) &&
        b.resolution == Push(a.resolution, b.fetched) &&
        b.start == a.end && b.end == h.cycleTarget(b.resolution) &&
        Samples(h, s, n)[j] == Samples(h, s, n)[j - 1]
  {
    SampleAt(h, s, n, j);
    if j > 0 {
      SampleAt(h, s, n, j - 1);
    }
  }

  /** Arithmetic fact behind the counter: incrementing `a` either bumps its remainder or wraps it. */
  lemma DivModNext(a: nat, d: nat)
    requires d > 0
    ensures a % d < d - 1 ==> (a + 1) % d == a % d + 1 && (a + 1) / d == a / d
    ensures a % d == d - 1 ==> (a + 1) % d == 0 && (a + 1) / d == a / d + 1
  {
    var q, r := a / d, a % d;
    assert a == q * d + r;
    if r < d - 1 {
      DivModUnique(a + 1, d, q, r + 1);
    } else {
      assert a + 1 == (q + 1) * d;
      DivModUnique(a + 1, d, q + 1, 0);
    }
  }

  lemma DivModUnique(x: nat, d: nat, q: nat, r: nat)
    requires d > 0 && r < d && x == q * d + r
    ensures x / d == q && x % d == r
  {
    var q', r' := x / d, x % d;
    assert x == q' * d + r';
    if q' < q {
      MulGap(q', q, d);
    } else if q < q' {
      MulGap(q, q', d);
    }
  }

  lemma MulGap(a: nat, b: nat, d: nat)
    requires a < b
    ensures a * d + d <= b * d
  {
    var k: nat := b - a - 1;
    assert b * d == a * d + d + k * d;
  }

  /**
   * Within one call, whose counter starts at 0, the ramp ends at samples
   * L+1, 2(L+1), ... where L is `rampTicks`: after n samples the position has
   * advanced by exactly RecomputeCount(n, L) and the counter stands at
   * ((n-1) mod (L+1)) + 1, so it never exceeds L+1.
   */
  lemma {:induction false} RunCounter(h: Host, s: Ramp, n: nat)
    requires s.ticks == 0
    ensures Run(h, s, n).index == s.index + RecomputeCount(n, h.rampTicks)
    ensures n > 0 ==> Run(h, s, n).ticks == (n - 1) % (h.rampTicks + 1) + 1
    decreases n
  {
    if n > 1 {
      RunCounter(h, s, n - 1);
      DivModNext(n - 2, h.rampTicks + 1);
    }
  }

  /**
   * Bits are fetched consecutively and none is skipped: the position never
   * goes back, and a register holding the window of the bits before the
   * starting position holds the window of the bits before the final
   * position. When at least one ramp ended, the last fetched bit is the one
   * just before the final position and the end point is the target of the
   * final register.
   */
  lemma {:induction false} RunFetchesInOrder(h: Host, s: Ramp, n: nat)
    ensures Run(h, s, n).index >= s.index
    ensures s.resolution == Window(s.index) ==> Run(h, s, n).resolution == Window(Run(h, s, n).index)
    ensures var t := Run(h, s, n);
      t.index > s.index ==>
        t.fetched == SeqBit(t.index - 1) && t.end == h.cycleTarget(t.resolution)
    decreases n
  {
    if n > 0 {
      RunFetchesInOrder(h, s, n - 1);
    }
  }
}
