/**
 * The oscillator's state and its lifecycle entry points: initialisation,
 * rendering one block of samples, note on, note off and parameter change.
 * Every entry point updates the one state object in place.
 */
module Oscillator {
  import opened ShiftRegister
  import opened Platform
  import opened Interpolator

  /** No flag pending. */
  const NoFlags: bv8 := 0
  /** Set by note-on; makes the next render restart the phase at 0. */
  const ResetFlag: bv8 := 1

  /** The note number in the high byte of a 16-bit pitch. */
  function PitchNote(pitch: bv16): bv8
  {
    (pitch >> 8) as bv8
  }

  /** The fine pitch in the low byte of a 16-bit pitch. */
  function PitchFine(pitch: bv16): bv8
  {
    (pitch & 0xFF) as bv8
  }

  /** The two bytes of a pitch recombine to the pitch: no bit is lost or shared. */
  lemma PitchBytes(pitch: bv16)
    ensures (PitchNote(pitch) as bv16 << 8) | PitchFine(pitch) as bv16 == pitch
  {
  }

  /**
   * The oscillator state. The unused float fields of the original state
   * (drive, distortion, LFO) are not part of this model.
   */
  class Osc {
    const host: Host

    var w0: real
    var phase: real
    var flags: bv8
    var resolution: bv8
    var nextVal: bv8
    var positionIndex: nat
    var start: real
    var end: real

    /** The register holds the sequence bits fetched so far, the last one at bit 0. */
    predicate Valid()
      reads this
    {
      resolution == Window(positionIndex)
    }

    /** The state a render starts from: its counter and sample begin at 0. */
    function RampStart(): (s: Ramp)
      reads this
    {
      Ramp(positionIndex, resolution, nextVal, start, end, 0, 0.0)
    }

    /** The zero-initialised state the oscillator has before initialisation. */
    constructor (host: Host)
      ensures this.host == host
      ensures w0 == 0.0 && phase == 0.0 && flags == NoFlags
      ensures resolution == 0 && nextVal == 0 && positionIndex == 0
      ensures start == 0.0 && end == 0.0
      ensures Valid()
    {
      this.host := host;
      w0, phase, flags := 0.0, 0.0, NoFlags;
      resolution, nextVal, positionIndex := 0, 0, 0;
      start, end := 0.0, 0.0;
    }

    /**
     * Initialisation: clears the floats and flags, then fetches sequence bits
     * 0..7 into the register, leaving the position at 8 and the register at
     * 0x69 whatever it held before, and computes the first ramp end. The
     * ramp start is not touched.
     */
    method Init()
      modifies this
      ensures w0 == 0.0 && phase == 0.0 && flags == NoFlags
      ensures positionIndex == 8
      ensures resolution == 0x69
      ensures nextVal == SeqBit(7)
      ensures end == host.initTarget(resolution)
      ensures start == old(start)
      ensures Valid()
    {
      w0 := 0.0;
      phase := 0.0;
      flags := NoFlags;
      nextVal := 0;
      positionIndex := 0;
      ghost var r0 := resolution;
      while positionIndex <= 7
        invariant positionIndex <= 8
        invariant resolution == Pushed(r0, 0, positionIndex)
        invariant positionIndex > 0 ==> nextVal == SeqBit(positionIndex - 1)
        invariant w0 == 0.0 && phase == 0.0 && flags == NoFlags
        invariant start == old(start)
      {
        nextVal := SeqBit(positionIndex);
        resolution := Push(resolution, nextVal);
        positionIndex := positionIndex + 1;
      }
      ForgetsAfterEight(r0, 0);
      WindowOfFirstEight();
      end := host.initTarget(resolution);
    }

    /**
     * Render `frames` samples into `yn`. The pending flags are read and
     * cleared, the phase increment is computed from the pitch, and the phase
     * restarts at 0 if the reset flag was pending; then the sample loop runs
     * (see `RenderSamples`) and the final phase is stored. The position
     * advances by exactly the number of ramp ends in `frames` samples.
     */
    method Cycle(pitch: bv16, yn: array<Q31>, frames: nat)
      requires frames <= yn.Length
      modifies this, yn
      ensures flags == NoFlags
      ensures w0 == host.w0ForNote(PitchNote(pitch), PitchFine(pitch))
      ensures var t := Run(host, old(RampStart()), frames);
        positionIndex == t.index && resolution == t.resolution && nextVal == t.fetched &&
        start == t.start && end == t.end
      ensures positionIndex == old(positionIndex) + RecomputeCount(frames, host.rampTicks)
      ensures yn[..frames] == Samples(host, old(RampStart()), frames)
      ensures yn[frames..] == old(yn[frames..])
      ensures phase == PhaseRun(host, if old(flags) & ResetFlag != 0 then 0.0 else old(phase), w0, frames)
      ensures old(Valid()) ==> Valid()
    {
      var f := flags;
      flags := NoFlags;
      var w := host.w0ForNote(PitchNote(pitch), PitchFine(pitch));
      w0 := w;
      var ph := if f & ResetFlag != 0 then 0.0 else phase;
      ghost var s0 := RampStart();
      ph := RenderSamples(yn, frames, w, ph);
      phase := ph;
      RunCounter(host, s0, frames);
      RunFetchesInOrder(host, s0, frames);
    }

    /**
     * The sample loop of a render. Each sample advances the ramp (see
     * `Interpolator.Step`) and the phase and writes one fixed-point sample;
     * exactly `yn[0 .. frames-1]` are written. The counter and the sample
     * start at 0 in every call.
     */
    method RenderSamples(yn: array<Q31>, frames: nat, w: real, ph0: real) returns (ph: real)
      requires frames <= yn.Length
      modifies this`start, this`end, this`nextVal, this`positionIndex, this`resolution, yn
      ensures var t := Run(host, old(RampStart()), frames);
        positionIndex == t.index && resolution == t.resolution && nextVal == t.fetched &&
        start == t.start && end == t.end
      ensures yn[..frames] == Samples(host, old(RampStart()), frames)
      ensures yn[frames..] == old(yn[frames..])
      ensures ph == PhaseRun(host, ph0, w, frames)
    {
      ghost var s0 := RampStart();
      ph := ph0;
      var i: nat := 0;
      var ticks: nat := 0;
      var sig := 0.0;
      while i != frames
        invariant i <= frames
        invariant Ramp(positionIndex, resolution, nextVal, start, end, ticks, sig) == Run(host, s0, i)
        invariant forall k :: 0 <= k < i ==> yn[k] == host.toQ31(Run(host, s0, k + 1).sig)
        invariant forall k :: frames <= k < yn.Length ==> yn[k] == old(yn[k])
        invariant ph == PhaseRun(host, ph0, w, i)
      {
        ghost var pre := Ramp(positionIndex, resolution, nextVal, start, end, ticks, sig);
        if ticks <= host.rampTicks {
          sig := host.cosint(start, end, ticks);
          ticks := ticks + 1;
        } else {
          start := end;
          nextVal := SeqBit(positionIndex);
          positionIndex := positionIndex + 1;
          resolution := Push(resolution, nextVal);
          end := host.cycleTarget(resolution);
          ticks := 1;
        }
        assert Ramp(positionIndex, resolution, nextVal, start, end, ticks, sig) == Step(host, pre);
        yn[i] := host.toQ31(sig);
        i := i + 1;
        ph := host.advancePhase(ph, w);
      }
      forall k | 0 <= k < frames
        ensures yn[k] == Samples(host, s0, frames)[k]
      {
        SampleAt(host, s0, frames, k);
      }
    }

    /** Note on: only sets the reset flag, for the next render to consume. */
    method NoteOn()
      modifies this`flags
      ensures flags == old(flags) | ResetFlag
      ensures flags & ResetFlag != 0
    {
      flags := flags | ResetFlag;
    }

    /** Note off: the oscillator ignores it. */
    method NoteOff()
      ensures unchanged(this)
    {
    }

    /** Parameter change: the value is decoded and then ignored for every parameter id. */
    method Param(index: bv16, value: bv16)
      ensures unchanged(this)
    {
      var valf := host.paramToF32(value);
    }
  }
}
