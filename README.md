# Polyphony engine of the tracker synthesizer, in Dafny

This project models the audio engine of `src/main.rs` and proves properties of
it. The engine has four parts:

- the sawtooth oscillator `Saw`. It has an integer counter that wraps at
  `p = (sample_rate / frequency) as i32`, and a ramp value that falls by
  `1 / (sample_rate / frequency)` per sample and is reset to 1.0 when the
  counter wraps;
- the synth `Voice`. It holds one `Saw`, an on/off `state` and a frequency;
- the polyphony manager `Poly`. It has a fixed collection of voices, a
  voice-allocation rule `new_note` (first free voice, else steal voice
  `voice_count - 1`) and a mixer `next_sample`, which sums every voice's
  sample gated by its state;
- the buffer filler `write_data`. It cuts the output buffer into frames of
  `channels` slots and writes one saw sample into every slot of a frame.

Files and modules:

- `oscillator.dfy`, module `Oscillator`: the `Saw` class and the value
  `SawState`. `Step` specifies one call of `next_sample` and `StateAfter`
  specifies `n` calls. The lemmas state the counter, ramp, wrap and period
  properties.
- `voice.dfy`, module `Voices`: the `Voice` class and its value `VoiceState`.
- `poly.dfy`, module `Polyphony`: the pure specification of `new_note`
  (`FirstFree`, `Assigned`, `AfterNewNote`, `AfterNotes`) and of
  `next_sample` (`NextSamples`, `Advanced`, `Mix`, `ActiveSum`), lemmas about them, and
  the `Poly` class. The class performs both operations in place and is proved
  against that specification.
- `output.dfy`, module `Render`: `WriteData` and the frame arithmetic.

Modelling choices:

- Frequencies, the sample rate and sample values are exact reals.
- `as i32` is modelled as truncation toward zero that saturates at the i32
  bounds (`TruncToI32`).
- A zero frequency makes `sample_rate / frequency` +infinity. It therefore
  gives `p = i32::MAX`, and the ramp falls by `1 / inf = 0` per sample.
  Over the reals the fall `1 / (sample_rate / frequency)` is
  `frequency / sample_rate` for every frequency (`Slope`).
- The sample rate must be positive. The reals have no infinity or NaN, which
  a zero sample rate would produce.
- Classes mirror the Rust structs and are updated in place. A `Poly` owns
  its voices and a `Voice` owns its saw, so `voices` is a `const seq<Voice>`
  (the vector is never resized or re-pointed) and `Voice.saw` is a `const`.
  `Poly.Valid()` states that:
  - `voice_count == |voices| >= 1`;
  - the voices and the saws are pairwise distinct objects;
  - every state is 0 or 1;
  - every counter fits in an i32.
- The source has no constructor functions. The one struct literal it contains
  is the static `Saw` in `main` (src/main.rs:120-124), so each constructor
  here simply takes every field as a parameter.

Behaviour of the code worth noting:

- No `Voice` and no `Poly` is ever constructed: neither `main` nor
  `src/controller.rs` builds one, so the running program never reaches
  `new_note` or `Poly::next_sample`. The only oscillator that sounds is the
  static `Saw`, driven by `write_data`. The `Voice`/`Poly` engine is modelled
  as written.

- `Poly::next_sample` steps the oscillator of every voice, silent ones
  included; a silent voice only contributes zero to the sum
  (`Poly.NextSample` steps every saw).
- The sawtooth repeats every `p + 1` samples (counter values `0 ..= p`).
  `Period440` shows this: 44100 Hz and 440 Hz give `p = 100`, so the saw
  repeats every 101 samples.
- `set_freq` and `set_frequency` store any frequency as given, with no
  clamping to a range.
- The steal path calls `note_off`, `set_freq` and `note_on`, and ends with
  the same voice state as the free path.
- `write_data` takes its samples from the one `Saw` it is given; no `Poly`
  is involved in filling the buffer.
- The static saw in `main` starts with counter 0 and ramp 0.0. Every sample
  of its first period, calls `1 ..= p`, is therefore below -0.5
  (`FirstPeriodBelowRange`). Call `p + 1` resets it, and from then on every
  sample lies in [-0.5, 0.5] (`StaticSawSettles`, `OutputInRange`).

## Model

| member | source | states |
|---|---|---|
| Oscillator.TruncToI32 | src/main.rs:20 | `x as i32` truncates toward zero: the result is in i32 range, within one step of `x` toward zero, and saturates at `i32::MAX` / `i32::MIN` |
| Oscillator.Period | src/main.rs:20 | the wrap point `(sample_rate / frequency) as i32`: in i32 range; `i32::MAX` for a zero frequency; for a positive frequency `0 <= p <= sample_rate / frequency < p + 1` (unless saturated); non-positive for a negative frequency |
| Oscillator.Slope | src/main.rs:30 | definition: the ramp decrement `1 / (sample_rate / frequency)`, written `frequency / sample_rate` |
| Oscillator.Step | src/main.rs:20-31 | definition: the state after one `next_sample`, the counter test of lines 20-24 followed by the ramp update of lines 27-31; `StepSpec`, `Saw.NextSample` and the `StateAfter` lemmas are stated against it |
| Oscillator.Output | src/main.rs:33 | definition: the returned sample, the new ramp value minus 0.5 |
| Oscillator.StateAfter | src/main.rs:19-34 | definition: the state after `n` successive calls of `next_sample`, `Step` applied `n` times; the wrap, period and range lemmas are stated against it |
| Oscillator.StepSpec | src/main.rs:19-31 | one `next_sample` keeps the frequency and an i32 counter in i32 range; from `0 <= count` the new counter is in `0 ..= max(0, p)`; a counter of 0 means the ramp was reset to 1.0; otherwise the counter rose by one and the ramp fell by `frequency / sample_rate` |
| Oscillator.StateAfterAdd | src/main.rs:19-31 | `m` calls followed by `n` calls equal `m + n` calls |
| Oscillator.StateAfterKeepsFrequency | src/main.rs:19-31 | sampling never changes the saw's frequency |
| Oscillator.CountStaysInPeriod | src/main.rs:20-24 | from any counter `>= 0` with `p >= 0`, after every call `0 <= count <= p` |
| Oscillator.Ramp | src/main.rs:20-31 | from counter 0, after `j <= p` calls the counter is `j` and the ramp has fallen by `j` slopes |
| Oscillator.Fallen | src/main.rs:30 | `j` successive decrements by `d` take `v` to `v - j * d` |
| Oscillator.WrapAfterPeriod | src/main.rs:20-28 | from counter 0, call `p + 1` wraps the counter to 0 and resets the ramp to 1.0 |
| Oscillator.Periodic | src/main.rs:19-33 | after a reset (counter 0, ramp 1.0) the saw state repeats exactly every `p + 1` calls |
| Oscillator.CountCycle | src/main.rs:20-24 | from counter 0, the counter after `n` calls is `n mod (p + 1)`, so it returns to 0 every `p + 1` calls |
| Oscillator.RampInRange | src/main.rs:27-33 | for a positive frequency, every sample in the first period after a reset lies in [-0.5, 0.5] |
| Oscillator.OutputInRange | src/main.rs:19-33 | after a reset, every sample of a positive-frequency saw lies in [-0.5, 0.5] |
| Oscillator.Period440 | src/main.rs:20 | 44100 Hz and 440 Hz give `p = 100`, hence a 101-sample period |
| Oscillator.FirstPeriodBelowRange | src/main.rs:120-124 | a saw that starts, like the static one, with counter 0 and ramp 0.0 gives samples in [-1.5, -0.5) on every call `1 ..= p` of its first period |
| Oscillator.StaticSawSettles | src/main.rs:120-124 | such a saw, with a positive frequency, gives samples in [-0.5, 0.5] on every call after call `p` |
| Oscillator.Saw.constructor | src/main.rs:120-124 | the struct literal: the state is exactly the given fields |
| Oscillator.Saw.SetFrequency | src/main.rs:15-17 | replaces the frequency; the counter and the ramp are unchanged |
| Oscillator.Saw.NextSample | src/main.rs:19-34 | the new state is `Step` of the old one, the counter stays an i32 (so `count += 1` never overflows), and the result is the new ramp minus 0.5 |
| Voices.Voice.constructor | src/main.rs:38-42 | the struct literal: the saw, state and frequency are the given ones |
| Voices.Voice.NoteOn | src/main.rs:45-47 | state becomes 1 whatever it was (so repeating it is idempotent); the frequency and the saw are unchanged |
| Voices.Voice.NoteOff | src/main.rs:48-50 | state becomes 0 whatever it was (so repeating it is idempotent); the frequency and the saw are unchanged |
| Voices.Voice.SetFreq | src/main.rs:51-54 | the voice's and its saw's frequency become `freq`; the state, the saw's counter and its ramp are unchanged |
| Polyphony.Assigned | src/main.rs:75-76 | definition: a voice after `set_freq(f)` and `note_on()`, frequency `f` on the voice and its saw and state 1; the steal path of lines 80-82 ends in the same voice |
| Polyphony.AfterNewNote | src/main.rs:72-84 | definition: the voices after `new_note(f)`, the first free voice assigned or else voice `voice_count - 1`; same number of voices; `Poly.NewNote` and the new-note lemmas are stated against it |
| Polyphony.AfterNotes | src/main.rs:72-84 | definition: the voices after a sequence of `new_note` calls, in order; same number of voices; `FillInOrder` and `StealLast` are stated against it |
| Polyphony.ActiveCount | src/main.rs:45-50 | definition: the number of voices whose state is 1, the ones `note_on` has switched on and `note_off` not off again |
| Polyphony.FirstFree | src/main.rs:73-74 | the index of the lowest voice with state 0: every earlier voice is non-zero, and the index is the number of voices exactly when no voice is free |
| Polyphony.NewNoteFillsFirstFree | src/main.rs:73-78 | with a free voice, `new_note(f)` sets the lowest-index free voice to frequency `f` (voice and saw) and state 1; every other voice is unchanged, later free ones included |
| Polyphony.NewNoteSteals | src/main.rs:80-83 | with no free voice, voice `voice_count - 1` gets frequency `f` and state 1 and keeps its counter and ramp; every other voice is unchanged |
| Polyphony.NewNoteSounds | src/main.rs:72-84 | `new_note(f)` keeps every state in {0, 1} and leaves at least one voice active with frequency `f` |
| Polyphony.ActiveCountUpdate | src/main.rs:72-84 | replacing one voice changes the active count by the difference of the two voices' activity |
| Polyphony.ActiveCountAll | src/main.rs:80-83 | when every voice is active, the active count is the number of voices |
| Polyphony.NewNoteActiveCount | src/main.rs:72-84 | the active count rises by exactly one when a voice was free; otherwise it was, and stays, the number of voices |
| Polyphony.FillInOrder | src/main.rs:73-78 | from a silent pool, the first `k <= N` notes go to voices `0 .. k-1` in order and the rest are untouched |
| Polyphony.StealLast | src/main.rs:72-84 | from a silent pool of `N = voice_count` voices, after `>= N` notes the voices `0 .. N-2` hold the first notes and voice `N-1` holds the latest note |
| Polyphony.NextSamples | src/main.rs:68 | definition: each voice's next saw sample, `Output` of `Step` of its saw, one per voice, in voice order; the result clause of `Poly.NextSample` is stated against it |
| Polyphony.Advanced | src/main.rs:67-68 | definition: every voice with its saw stepped once and its state and frequency as before; the state clause of `Poly.NextSample` is stated against it |
| Polyphony.Gated | src/main.rs:68 | definition: a voice's sample times its state, `sample * (state as f32)` |
| Polyphony.MixUpTo | src/main.rs:66-68 | definition: the running sum `out` after the first `n` voices, each gated sample added in voice order; `Poly.AddVoice` is stated against it |
| Polyphony.Mix | src/main.rs:65-71 | definition: the value `next_sample` returns, the running sum over all voices |
| Polyphony.ActiveSum | src/main.rs:65-71 | definition: the sum of the samples of the active voices among the first `n`, the reference `MixGated` compares `Mix` with |
| Polyphony.MixGated | src/main.rs:65-71 | with states in {0, 1}, the gated sum over the first `n` voices equals the sum of the samples of the active ones among them: inactive voices contribute zero |
| Polyphony.MixLinear | src/main.rs:65-71 | when every active voice's sample is `x`, the first `n` voices mix to `x` times the number of active voices among them |
| Polyphony.Poly.constructor | src/main.rs:57-62 | the struct literal, given distinct voices with binary states and `voice_count` equal to the number of voices and at least 1, is valid |
| Polyphony.Poly.NewNote | src/main.rs:72-84 | the loop over the voices with its early return leaves exactly `AfterNewNote(old voices, voice_count, f)` and keeps the pool valid |
| Polyphony.Poly.NextSample | src/main.rs:65-71 | the voices become `Advanced` of the old ones (every saw, active or not, stepped exactly once; states and frequencies unchanged), the pool stays valid, and the result is `Mix` of the old voices and their next samples |
| Polyphony.Poly.AddVoice | src/main.rs:67-69 | one pass of the loop: voice `k`'s saw is stepped, the first `k + 1` voices are now advanced, and the running sum becomes the mix of the first `k + 1` voices |
| Polyphony.Poly.Settle | src/main.rs:75-82 | after one voice alone has changed, the pool's voices are the old ones with that voice replaced, and the pool is still valid |
| Render.Frames | src/main.rs:165 | `chunks_mut(channels)` gives `ceil(len / channels)` frames: no frames for an empty buffer, otherwise `(n-1)*channels < len <= n*channels` |
| Render.FrameOf | src/main.rs:165-167 | a slot between `k*channels` and `(k+1)*channels` belongs to frame `k` |
| Render.NextFrame | src/main.rs:165-169 | a frame that starts at `k*channels` covers slots of frame index `k` only; it is either the last frame (then there are `k+1` frames) or the next frame starts at `(k+1)*channels` |
| Render.FillFrame | src/main.rs:167-169 | the inner loop over one frame: every slot of the frame receives `value` and every other slot of the buffer keeps its value |
| Render.WriteData | src/main.rs:161-171 | every slot `i` of the buffer receives the converted sample of call `i / channels + 1` of the saw, so each frame holds one value in all its slots, and the saw ends up advanced once per frame, `ceil(len / channels)` times |

## Left out

- `src/controller.rs` (the tuix knobs, keyboard events and the `crossbeam_channel` sender) is GUI and message transport. The `message::Message` type it sends is not part of this model.
- `main` and `run` (src/main.rs:87-159) are left out. They cover host and device selection, the JACK flag, stream configuration, `build_output_stream`, `play` and the `loop {}` busy-waits. All of this is audio-driver binding and thread spawning.
- The `static mut saw` shared into a spawned thread (src/main.rs:120-130) is unsafe cross-thread aliasing and is not modelled. Only its initial field values are used, by `FirstPeriodBelowRange` and `StaticSawSettles`.
- Floating point is not modelled: values are exact reals, so f32 rounding of `sample_rate / frequency`, of the ramp decrement and of the running sum is absent. NaN frequencies are absent too. So is the negative zero frequency, for which f32 gives `p = i32::MIN` where the reals give `i32::MAX`.
- Oscillator.Saw.NextSample: requires a positive sample rate, so zero and negative rates are excluded. With a zero rate the source computes `(0.0 / frequency) as i32 == 0` (and `NaN as i32 == 0` for a zero frequency), so line 20 resets every counter `>= 0` to 0 and line 28 sets the ramp to 1.0; only a counter `<= -2` reaches line 30, which subtracts `1.0 / 0.0`, an infinity (NaN for a zero frequency) that reals cannot hold. With a negative rate a zero frequency makes `sample_rate / frequency` negative infinity, which saturates to `i32::MIN`, not `i32::MAX`. `write_data` passes 44100.0 (src/main.rs:166). `Poly::next_sample` passes its field `self.sample_rate` (src/main.rs:68), which no code sets, because no `Poly` is ever built.
- Oscillator.Period: requires a positive sample rate, for the reasons given for `Saw.NextSample`.
- Oscillator.Slope: requires a positive sample rate, for the same reasons.
- Oscillator.Step: requires a positive sample rate, for the same reasons; so do `StepSpec`, `StateAfter` and every lemma about them.
- Oscillator.StateAfter: requires a positive sample rate, for the same reasons.
- Polyphony.Poly.NextSample: requires a positive `sample_rate`, for the same reasons; so do `NextSamples`, `Advanced` and `Poly.AddVoice`.
- Render.WriteData: requires a positive sample rate, for the same reasons; `write_data` itself always passes 44100.0.
- Render.WriteData: requires `channels > 0`. `chunks_mut(0)` panics at src/main.rs:165, and the model does not represent the panic; `Frames` and the frame lemmas carry the same requirement.
- `cpal::Sample::from::<f32>` is the function parameter `convert` of `WriteData`. The sample rate hard-coded as `44_100.0` in `write_data` is its parameter `sampleRate`.
- The field `Poly::freq` (src/main.rs:59) is never read or written by any method and is not modelled.
- The pool invariant `Poly.Valid` requires `voice_count == |voices| >= 1` as the pool's invariant. The source only breaks (out-of-bounds index or usize underflow) when no voice is free and `voice_count` is 0 or larger than the vector. `AfterNewNote` keeps `voice_count` general and only needs it to be a valid index plus one when no voice is free.
