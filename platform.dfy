/**
 * What the oscillator takes from its host platform and from floating-point
 * maths. None of these is modelled: each is a function the model receives
 * and applies, so every property proved holds whatever they compute.
 */
module Platform {

  /** A signed 32-bit integer: one Q31 fixed-point output sample. */
  type Q31 = x: int | -0x8000_0000 <= x < 0x8000_0000

  /**
   * The host primitives and float maths used by the oscillator.
   *
   * The interpolation counter is a float that starts at 0 in every render
   * call and grows by the same increment every sample inside a ramp; at a
   * ramp end it is set back to the increment, its value one increment after
   * 0. So between resets it runs through the same values, and the number of
   * increments after which it still satisfies `counter <= 1` is some fixed
   * number: `rampTicks`. The model counts increments (`ticks`) and compares
   * them with `rampTicks` instead of tracking the float.
   */
  datatype Host = Host(
    // osc_w0f_for_note(note, fine): phase increment per sample for a pitch
    w0ForNote: (bv8, bv8) -> real,
    // sin(2 pi r / 255) as computed by the initialisation (double-precision pi)
    initTarget: bv8 -> real,
    // sin(2 * 3.1415 * r / 255) as computed while rendering (single precision)
    cycleTarget: bv8 -> real,
    // cosintf(start, end, t) where t is the counter after `ticks` increments
    cosint: (real, real, nat) -> real,
    // f32_to_q31: float sample to fixed point
    toQ31: real -> Q31,
    // phase += w0; phase -= (uint32_t)phase
    advancePhase: (real, real) -> real,
    // param_val_to_f32: 16-bit parameter value to a float
    paramToF32: bv16 -> real,
    // the largest increment count at which the counter is still <= 1
    rampTicks: nat
  )
}
