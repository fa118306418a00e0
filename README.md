# Thue–Morse oscillator: a Dafny model of its integer logic

The oscillator is a user oscillator for the KORG minilogue xd. Each audio
block is rendered sample by sample. A cosine ramp glides from a `start`
level to an `end` level. When the ramp is complete, the next bit of the
Thue–Morse sequence is fetched and shifted into the 8-bit register
`resolution`. The register then sets the next `end` level. A phase
accumulator runs alongside and is restarted by note-on.

The model keeps everything that is integer or boolean:

- the recursive bit generator `thue_morse_seq_gen`;
- the shift register;
- the sequence position;
- the flag byte;
- the per-call interpolation counter;
- the number and placement of the samples written.

Every floating-point operation is a function that the model receives but
does not interpret: the sine target maps, `cosintf`, the Q31 conversion, the
phase update, the pitch-to-increment conversion and the parameter decoder.
These are the fields of `Platform.Host`. Every property below therefore holds
whatever those functions compute.

Modules:

- `ThueMorse` (`thue_morse.dfy`): the generator `Bit` and its properties. It
  also models C's truncating `/` and `%` to show what happens to a negative
  position.
- `ShiftRegister` (`shift_register.dfy`): `Push` (`r <<= 1; r |= bit` on a
  byte, as `bv8`). `Pushed`/`Window` give the register after a run of
  sequence bits.
- `Platform` (`platform.dfy`): the host primitives and the abstract ramp
  length.
- `Interpolator` (`interpolator.dfy`): one render call as functions. `Step`
  is one sample, `Run` is n samples, `Samples` is the output and `PhaseRun` is
  the phase. The lemmas about rendering are here.
- `Oscillator` (`oscillator.dfy`): the class `Osc` holds the state `s_state`.
  Its methods `Init`, `Cycle`, `NoteOn`, `NoteOff` and `Param` update it in
  place. `Cycle`'s per-sample loop is the method `RenderSamples`. It writes
  the output array and updates the fields in place, and it is proved equal
  to `Interpolator.Run`/`Samples`.

The interpolation counter is a float. It starts at 0 in every call and
grows by 0.01 per sample inside a ramp. At a ramp end it is set back to
0.01, which is its value one increment after 0, so `Step` sets `ticks` to 1.
Between resets the counter therefore takes the same sequence of values every
time. There is a fixed number of increments after which it still satisfies
`<= 1`. The model counts increments (`ticks`) and compares them with that
abstract number, `Host.rampTicks` (L). With float32 that number is near 100,
but the model makes no claim about its exact value. In one call, a ramp
ends at samples L+1, 2(L+1), and so on. For n > 0 samples the position
therefore advances by exactly (n-1) div (L+1), and for none by 0. For 250
samples and L = 100, that is 2.

Behaviours of the code that the model keeps:

- At a ramp end the sample is not recomputed: `sig` keeps its previous
  value, so that output sample repeats the one before it
  (`Interpolator.SampleEffect`).
- Initialisation computes the first target with `sin(2*M_PI*x)`, while
  rendering uses `sin(2.f*3.1415f*x)`. These are two different host maps,
  `initTarget` and `cycleTarget`.
- Initialisation does not reset `start`, so a re-initialisation keeps the
  old ramp start.
- Initialisation sets `drive` to 1, not 0. `drive` is unused and is not
  modelled.

## Model

| member | source | states |
|---|---|---|
| `ThueMorse.Bit` | platform/minilogue-xd/thue_morse/thue_morse.hpp:21-31 | the generator returns 0 or 1 at every non-negative position (recursion on pos/2 and (pos-1)/2, terminating because the position decreases) |
| `ThueMorse.BitAtZero` | platform/minilogue-xd/thue_morse/thue_morse.hpp:22-24 | bit 0 is 0 |
| `ThueMorse.BitEven` | platform/minilogue-xd/thue_morse/thue_morse.hpp:26-27 | bit 2k equals bit k |
| `ThueMorse.BitOdd` | platform/minilogue-xd/thue_morse/thue_morse.hpp:28-29 | bit 2k+1 equals 1 minus bit k |
| `ThueMorse.PairComplementary` | platform/minilogue-xd/thue_morse/thue_morse.hpp:26-30 | bits 2k and 2k+1 sum to 1 |
| `ThueMorse.BitIsParity` | platform/minilogue-xd/thue_morse/thue_morse.hpp:16-31 | every bit equals the parity of the number of 1-bits of its position (OEIS A010060) |
| `ThueMorse.FirstSixteen` | platform/minilogue-xd/thue_morse/thue_morse.hpp:21-31 | positions 0..15 give 0,1,1,0,1,0,0,1,1,0,0,1,0,1,1,0 |
| `ThueMorse.CallArgOnPositive` | platform/minilogue-xd/thue_morse/thue_morse.hpp:26-30 | for a positive position, C's truncating `%`/`/` give the recursive argument pos/2, which is smaller and non-negative |
| `ThueMorse.NegativeNeverReachesZero` | platform/minilogue-xd/thue_morse/thue_morse.hpp:21-30 | from a negative position, the recursion never reaches the base case 0 after any number of calls, and -1 recurses on itself |
| `ThueMorse.CDiv` | platform/minilogue-xd/thue_morse/thue_morse.hpp:26-29 | no contract; C's `/` on `int`, truncating toward zero (its partner is `CRem`) |
| `ThueMorse.CRem` | platform/minilogue-xd/thue_morse/thue_morse.hpp:26 | C's `%` on `int`: dividend = quotient * divisor + remainder, with the remainder strictly between -divisor and divisor and of the dividend's sign (never negative for a non-negative dividend, never positive for a negative one) |
| `ThueMorse.CallArg` | platform/minilogue-xd/thue_morse/thue_morse.hpp:26-30 | no contract; the argument of the one recursive call at a position, under C arithmetic (`CallArgOnPositive` gives its value on positive positions) |
| `ThueMorse.CallArgAfter` | platform/minilogue-xd/thue_morse/thue_morse.hpp:21-30 | no contract; the argument after n nested calls, stopping at the base case 0 |
| `ThueMorse.Depth` | platform/minilogue-xd/thue_morse/thue_morse.hpp:21-30 | no contract; the number of nested calls before position 0, by halving (tied to the C recursion by `DepthCounts`) |
| `ThueMorse.DepthCounts` | platform/minilogue-xd/thue_morse/thue_morse.hpp:21-30 | the C recursion from a non-negative position reaches the base case 0 after exactly `Depth(pos)` nested calls, and no sooner |
| `ThueMorse.DepthIsBitLength` | platform/minilogue-xd/thue_morse/thue_morse.hpp:21-30 | the nesting depth of the recursion at pos is the bit-length of pos |
| `ThueMorse.DepthBound` | platform/minilogue-xd/thue_morse/thue_morse.hpp:21-30 | a position below 2^k recurses at most k deep |
| `ShiftRegister.Push` | platform/minilogue-xd/thue_morse/thue_morse.cpp:77-78 | no contract; shift the `uint8_t` register left by one, then OR in the bit, as `bv8` (`PushArithmetic` and `PushMovesBits` give its meaning). The same statements appear at lines 125-126 |
| `ShiftRegister.SeqBit` | platform/minilogue-xd/thue_morse/thue_morse.cpp:122 | no contract; the generator's result stored in the byte `next_val` (`SeqBitValue` gives its value). The same store appears at line 75 |
| `ShiftRegister.Pushed` | platform/minilogue-xd/thue_morse/thue_morse.cpp:74-79 | no contract; the register after consecutive sequence bits are pushed onto a given byte |
| `ShiftRegister.Window` | platform/minilogue-xd/thue_morse/thue_morse.cpp:74-79 | no contract; the register after bits 0 .. n-1 are pushed onto 0 (`WindowBits` gives every bit of it) |
| `ShiftRegister.PushArithmetic` | platform/minilogue-xd/thue_morse/thue_morse.cpp:125-126 | as an unsigned byte, shift-then-OR gives (r*2) mod 256 + bit |
| `ShiftRegister.PushMovesBits` | platform/minilogue-xd/thue_morse/thue_morse.cpp:125-126 | after a push, bit 0 is the new bit and bit k is the old bit k-1, so the old bit 7 is dropped |
| `ShiftRegister.SeqBitValue` | platform/minilogue-xd/thue_morse/thue_morse.cpp:122 | storing the generator's int result in the byte `next_val` keeps its value |
| `ShiftRegister.WindowBits` | platform/minilogue-xd/thue_morse/thue_morse.cpp:74-79 | after n fetches from position 0, bit k of the register is the sequence bit at n-1-k, or 0 if fewer than k+1 bits were fetched |
| `ShiftRegister.PushedShiftsOld` | platform/minilogue-xd/thue_morse/thue_morse.cpp:74-79 | after pushes onto any byte, the old byte remains only shifted left by the number of pushes |
| `ShiftRegister.ForgetsAfterEight` | platform/minilogue-xd/thue_morse/thue_morse.cpp:74-79 | eight pushes give the same register whatever it held before |
| `ShiftRegister.WindowOfFirstEight` | platform/minilogue-xd/thue_morse/thue_morse.cpp:74-79 | bits 0..7 pushed in order form 0x69 |
| `Interpolator.Recomputes` | platform/minilogue-xd/thue_morse/thue_morse.cpp:115 | no contract; the sample takes the else branch: the counter, after `ticks` increments, is past 1, that is, ticks > rampTicks |
| `Interpolator.Step` | platform/minilogue-xd/thue_morse/thue_morse.cpp:115-131 | no contract; one loop iteration on the ramp state (`SampleEffect` states what it does in each branch) |
| `Interpolator.Run` | platform/minilogue-xd/thue_morse/thue_morse.cpp:114-131 | no contract; the ramp state after n iterations (`RunCounter` and `RunFetchesInOrder` characterise it) |
| `Interpolator.Samples` | platform/minilogue-xd/thue_morse/thue_morse.cpp:133 | a render of n samples writes exactly n samples (`SampleAt` gives each one) |
| `Interpolator.PhaseRun` | platform/minilogue-xd/thue_morse/thue_morse.cpp:135-136 | no contract; the phase after n per-sample advances at increment w0 |
| `Interpolator.RecomputeCount` | platform/minilogue-xd/thue_morse/thue_morse.cpp:115-130 | no contract; (n-1) div (L+1) for n > 0, else 0. `RunCounter` proves it is the number of ramp ends in n samples |
| `Interpolator.SampleAt` | platform/minilogue-xd/thue_morse/thue_morse.cpp:114-137 | output sample j is the Q31 conversion of `sig` after j+1 loop iterations |
| `Interpolator.SampleEffect` | platform/minilogue-xd/thue_morse/thue_morse.cpp:115-133 | a sample inside the ramp emits cosint(start, end, counter) and leaves position, register, fetched bit, start and end unchanged. A sample past the ramp is never the first of a call. It fetches exactly the bit at the current position, advances the position by 1, pushes that bit, moves end into start and sets end from the new register. Because `sig` is not reassigned, it emits the same value as the previous sample |
| `Interpolator.RunCounter` | platform/minilogue-xd/thue_morse/thue_morse.cpp:110-131 | the counter restarts at 0 in each call and at one increment after each ramp end. After n samples the position has advanced by exactly (n-1) div (L+1), and the counter is ((n-1) mod (L+1)) + 1, which never exceeds L+1 |
| `Interpolator.RunFetchesInOrder` | platform/minilogue-xd/thue_morse/thue_morse.cpp:118-128 | the position never decreases. If the register held the bits before the start position, it holds the bits before the final position, so no bit is skipped or fetched twice. After a ramp end, `next_val` is the bit just before the position and end is the target of the register |
| `Oscillator.PitchNote` | platform/minilogue-xd/thue_morse/thue_morse.cpp:92 | no contract; the note number, the high byte `pitch >> 8` |
| `Oscillator.PitchFine` | platform/minilogue-xd/thue_morse/thue_morse.cpp:92 | no contract; the fine pitch, the low byte `pitch & 0xFF` |
| `Oscillator.PitchBytes` | platform/minilogue-xd/thue_morse/thue_morse.cpp:92 | the note byte shifted back up, ORed with the fine byte, rebuilds the pitch, so the two arguments split it without loss |
| `Oscillator.Osc.Valid` | platform/minilogue-xd/thue_morse/thue_morse.cpp:74-79 | no contract; the register holds the sequence bits before the position. `Init` establishes it, `Cycle` preserves it, and `Osc.constructor` gives it to the zero state |
| `Oscillator.Osc.RampStart` | platform/minilogue-xd/thue_morse/thue_morse.cpp:110-113 | no contract; the state a render starts from, with the persistent fields, the counter at 0 and `sig` at 0 |
| `Oscillator.Osc.constructor` | platform/minilogue-xd/thue_morse/thue_morse.cpp:54 | the static state starts all zero, and the register invariant holds |
| `Oscillator.Osc.Init` | platform/minilogue-xd/thue_morse/thue_morse.cpp:61-83 | clears w0, phase and flags and leaves the position at 8. The register becomes 0x69 whatever it held before, `next_val` becomes bit 7 and end becomes the init target of the register. start is untouched |
| `Oscillator.Osc.Cycle` | platform/minilogue-xd/thue_morse/thue_morse.cpp:85-140 | clears the flags and sets w0 from the pitch's high and low bytes. The phase starts at 0 exactly when the reset flag was pending, otherwise at the stored phase, and is advanced once per sample. The position, register, `next_val`, start and end become those of `Run`. The position advances by exactly the number of ramp ends. `yn[0..frames)` holds `Samples`, the rest of `yn` is unchanged, and the register invariant is kept |
| `Oscillator.Osc.RenderSamples` | platform/minilogue-xd/thue_morse/thue_morse.cpp:110-137 | the per-sample loop leaves the persistent fields equal to `Run` of the state it started from and writes exactly `frames` samples equal to `Samples`. It advances the phase `frames` times |
| `Oscillator.Osc.NoteOn` | platform/minilogue-xd/thue_morse/thue_morse.cpp:142-145 | ORs the reset flag into the flags and changes no other field |
| `Oscillator.Osc.NoteOff` | platform/minilogue-xd/thue_morse/thue_morse.cpp:147-150 | leaves the state unchanged |
| `Oscillator.Osc.Param` | platform/minilogue-xd/thue_morse/thue_morse.cpp:152-168 | decodes the value and, for every parameter id, leaves the state unchanged |

## Left out

- Floating-point maths is not interpreted. This covers the sine target
  maps, `cosintf`, `f32_to_q31`, the phase wrap `phase -= (uint32_t)phase`,
  `osc_w0f_for_note` and `param_val_to_f32`. All are host functions applied
  as given, so float rounding, saturation and the cosine-ramp shape
  (endpoints and monotonicity) are not modelled.
- The exact number of samples per ramp under float32 accumulation of 0.01
  is the abstract `rampTicks`, not a proved constant.
- `position_index` is a C `int` and would overflow after about 2^31 ramp
  ends. The model uses an unbounded `nat`. `NegativeNeverReachesZero` shows
  that a wrapped, negative position would make the generator recurse
  forever.
- The unused state fields `drive`, `dist`, `lfo` and `lfoz` are not
  modelled. Neither are the unused locals of the render function
  (`position_index`, `current_it`, `next_val`, `resolution`).
- Of the host's parameter struct, only `pitch` is modelled. Note-on and
  note-off ignore theirs. `OSC_PARAM`'s switch over parameter ids is not
  modelled, because every case does nothing.
- `naive_lerp`, `degrees_to_radians`, the commented-out `osc_thue_morsef`
  and the triangle oscillator do not take part in this oscillator.
- The C function's pointer walk from `y` to `y_e` is modelled as an index
  into an array of 32-bit values.
