/** The sawtooth oscillator `Saw` of src/main.rs: a frequency, an integer
    counter that wraps once per period, and a ramp value that falls by
    `1 / (sample_rate / frequency)` per sample and is reset to 1.0 when the
    counter wraps. Frequencies and sample values are exact reals. */
module Oscillator {

  const I32_MIN: int := -0x8000_0000
  const I32_MAX: int := 0x7fff_ffff

  predicate InI32(x: int) { I32_MIN <= x <= I32_MAX }

  /** Rust's `x as i32` for a finite float: truncation toward zero,
      saturating at the bounds of i32. */
  function TruncToI32(x: real): (r: int)
    ensures InI32(r)
    ensures 0.0 <= x < (I32_MAX + 1) as real ==> r as real <= x < r as real + 1.0
    ensures (I32_MAX + 1) as real <= x ==> r == I32_MAX
    ensures (I32_MIN - 1) as real < x <= 0.0 ==> r as real - 1.0 < x <= r as real
    ensures x <= (I32_MIN - 1) as real ==> r == I32_MIN
  {
    if x >= 0.0 then
      (if x.Floor > I32_MAX then I32_MAX else x.Floor)
    else
      var t := -((-x).Floor);
      if t < I32_MIN then I32_MIN else t
  }

  /** The counter's wrap point `(sample_rate / frequency) as i32`. A zero
      frequency makes the quotient +infinity, which saturates to i32::MAX. */
  function Period(sampleRate: real, frequency: real): (p: int)
    requires sampleRate > 0.0
    ensures InI32(p)
    ensures frequency == 0.0 ==> p == I32_MAX
    ensures frequency > 0.0 ==> 0 <= p && p as real <= sampleRate / frequency
    ensures frequency > 0.0 && sampleRate / frequency < (I32_MAX + 1) as real ==>
              sampleRate / frequency < p as real + 1.0
    ensures frequency < 0.0 ==> p <= 0
  {
    if frequency == 0.0 then I32_MAX else TruncToI32(sampleRate / frequency)
  }

  /** The observable state of one `Saw`. */
  datatype SawState = SawState(frequency: real, count: int, val: real)

  /** The amount the ramp falls per sample, `1 / (sample_rate / frequency)`,
      which over the reals is `frequency / sample_rate` for every frequency
      (a zero frequency gives 1 / infinity = 0 in the source as well). */
  function Slope(sampleRate: real, frequency: real): real
    requires sampleRate > 0.0
  {
    frequency / sampleRate
  }

  /** One call of `Saw::next_sample`: the new state. */
  function Step(s: SawState, sampleRate: real): SawState
    requires sampleRate > 0.0
  {
    var p := Period(sampleRate, s.frequency);
    var count := if s.count >= p then 0 else s.count + 1;
    var val := if count == 0 then 1.0 else s.val - Slope(sampleRate, s.frequency);
    SawState(s.frequency, count, val)
  }

  /** What one call does: the frequency is kept, an i32 counter stays an i32
      (`count += 1` cannot overflow), a counter from 0 on stays within
      `0 ..= max(0, p)`, a counter of 0 means the ramp was reset to 1.0, and
      otherwise the counter rose by one and the ramp fell by one slope. */
  lemma StepSpec(s: SawState, sampleRate: real)
    requires sampleRate > 0.0
    ensures Step(s, sampleRate).frequency == s.frequency
    ensures InI32(s.count) ==> InI32(Step(s, sampleRate).count)
    ensures 0 <= s.count ==> 0 <= Step(s, sampleRate).count <= Max(0, Period(sampleRate, s.frequency))
    ensures Step(s, sampleRate).count == 0 ==> Step(s, sampleRate).val == 1.0
    ensures Step(s, sampleRate).count != 0 ==>
              Step(s, sampleRate).count == s.count + 1
              && Step(s, sampleRate).val == s.val - Slope(sampleRate, s.frequency)
  {
  }

  function Max(a: int, b: int): int { if a < b then b else a }

  /** The sample `Saw::next_sample` returns once the state has been stepped. */
  function Output(s: SawState): real { s.val - 0.5 }

  /** The state after `n` successive calls of `Saw::next_sample`. */
  function StateAfter(s: SawState, sampleRate: real, n: nat): SawState
    requires sampleRate > 0.0
  {
    if n == 0 then s else Step(StateAfter(s, sampleRate, n - 1), sampleRate)
  }

  /** Running `m` calls and then `n` more is running `m + n` calls. */
  lemma {:induction false} StateAfterAdd(s: SawState, sampleRate: real, m: nat, n: nat)
    requires sampleRate > 0.0
    ensures StateAfter(StateAfter(s, sampleRate, m), sampleRate, n) == StateAfter(s, sampleRate, m + n)
  {
    if n > 0 {
      StateAfterAdd(s, sampleRate, m, n - 1);
    }
  }

  /** The frequency is never changed by sampling. */
  lemma {:induction false} StateAfterKeepsFrequency(s: SawState, sampleRate: real, n: nat)
    requires sampleRate > 0.0
    ensures StateAfter(s, sampleRate, n).frequency == s.frequency
  {
    if n > 0 {
      StateAfterKeepsFrequency(s, sampleRate, n - 1);
    }
  }

  /** Starting from any counter `0 <= count`, after at least one call the
      counter lies in `0 ..= p`. */
  lemma {:induction false} CountStaysInPeriod(s: SawState, sampleRate: real, n: nat)
    requires sampleRate > 0.0 && 0 <= s.count && 1 <= n
    requires 0 <= Period(sampleRate, s.frequency)
    ensures 0 <= StateAfter(s, sampleRate, n).count <= Period(sampleRate, s.frequency)
  {
    var prev := StateAfter(s, sampleRate, n - 1);
    StateAfterKeepsFrequency(s, sampleRate, n - 1);
    if n > 1 {
      CountStaysInPeriod(s, sampleRate, n - 1);
    }
    assert 0 <= prev.count;
  }

  /** From counter 0, the first `p` calls count up to `p` while the ramp falls
      by the slope on each call. */
  lemma {:induction false} Ramp(s: SawState, sampleRate: real, j: nat)
    requires sampleRate > 0.0 && s.count == 0
    requires j <= Period(sampleRate, s.frequency)
    ensures StateAfter(s, sampleRate, j) == SawState(s.frequency, j, Fallen(s.val, Slope(sampleRate, s.frequency), j))
  {
    if j > 0 {
      Ramp(s, sampleRate, j - 1);
    }
  }

  /** `v` after `j` decrements by `d`. */
  function Fallen(v: real, d: real, j: nat): (r: real)
    ensures r == v - (j as real) * d
  {
    if j == 0 then v else
      var r := Fallen(v, d, j - 1) - d;
      assert ((j - 1) as real) * d == (j as real) * d - d;
      r
  }

  /** From counter 0, call `p + 1` wraps the counter and resets the ramp to 1.0. */
  lemma WrapAfterPeriod(s: SawState, sampleRate: real)
    requires sampleRate > 0.0 && s.count == 0
    requires 0 <= Period(sampleRate, s.frequency)
    ensures StateAfter(s, sampleRate, Period(sampleRate, s.frequency) + 1)
         == SawState(s.frequency, 0, 1.0)
  {
    Ramp(s, sampleRate, Period(sampleRate, s.frequency));
  }

  /** After a reset (counter 0, ramp 1.0) the oscillator is periodic with
      period `p + 1` samples. */
  lemma Periodic(s: SawState, sampleRate: real, n: nat)
    requires sampleRate > 0.0 && s.count == 0 && s.val == 1.0
    requires 0 <= Period(sampleRate, s.frequency)
    ensures StateAfter(s, sampleRate, n + Period(sampleRate, s.frequency) + 1)
         == StateAfter(s, sampleRate, n)
  {
    var q := Period(sampleRate, s.frequency) + 1;
    WrapAfterPeriod(s, sampleRate);
    StateAfterAdd(s, sampleRate, q, n);
  }

  /** From counter 0, the counter after `n` calls is `n mod (p + 1)`: it
      returns to 0 exactly every `p + 1` calls. */
  lemma {:induction false} CountCycle(s: SawState, sampleRate: real, n: nat)
    requires sampleRate > 0.0 && s.count == 0
    requires 0 <= Period(sampleRate, s.frequency)
    ensures StateAfter(s, sampleRate, n).count == n % (Period(sampleRate, s.frequency) + 1)
    decreases n
  {
    var p := Period(sampleRate, s.frequency);
    if n <= p {
      Ramp(s, sampleRate, n);
      ModSmall(n, p + 1);
    } else {
      var r := SawState(s.frequency, 0, 1.0);
      WrapAfterPeriod(s, sampleRate);
      StateAfterAdd(s, sampleRate, p + 1, n - (p + 1));
      assert StateAfter(s, sampleRate, n) == StateAfter(r, sampleRate, n - (p + 1));
      CountCycle(r, sampleRate, n - (p + 1));
      ModShift(n, p + 1);
    }
  }

  lemma ModSmall(n: int, q: int)
    requires 0 <= n < q
    ensures n % q == n
  {
  }

  lemma ModShift(n: int, q: int)
    requires 0 < q <= n
    ensures n % q == (n - q) % q
  {
    var m, d := n % q, n / q;
    var m2, d2 := (n - q) % q, (n - q) / q;
    assert n == d * q + m && n - q == d2 * q + m2;
    var x := d - 1 - d2;
    assert x * q == m2 - m by {
      assert (d - 1) * q == d * q - q;
      assert x * q == (d - 1) * q - d2 * q;
    }
    if x >= 1 {
      assert x * q >= q by { MulAtLeast(x, q); }
    } else if x <= -1 {
      assert (-x) * q >= q by { MulAtLeast(-x, q); }
    }
    assert x == 0;
  }

  lemma MulAtLeast(x: int, q: int)
    requires x >= 1 && q > 0
    ensures x * q >= q
  {
  }

  /** The samples of the first period of a reset oscillator, with a positive
      frequency, fall within `[-0.5, 0.5]`: `p` slopes add up to at most 1. */
  lemma RampInRange(s: SawState, sampleRate: real, j: nat)
    requires sampleRate > 0.0 && s.frequency > 0.0
    requires s.count == 0 && s.val == 1.0
    requires j <= Period(sampleRate, s.frequency)
    ensures -0.5 <= Output(StateAfter(s, sampleRate, j)) <= 0.5
  {
    var d := Slope(sampleRate, s.frequency);
    Ramp(s, sampleRate, j);
    SlopesBelowOne(sampleRate, s.frequency, j);
    assert StateAfter(s, sampleRate, j).val == 1.0 - (j as real) * d;
  }

  /** `j <= p` slopes of a positive frequency add up to at most 1. */
  lemma SlopesBelowOne(sampleRate: real, frequency: real, j: nat)
    requires sampleRate > 0.0 && frequency > 0.0
    requires j <= Period(sampleRate, frequency)
    ensures 0.0 <= (j as real) * Slope(sampleRate, frequency) <= 1.0
  {
    var p := Period(sampleRate, frequency);
    var d := Slope(sampleRate, frequency);
    var q := sampleRate / frequency;
    assert q * d == 1.0;
    MulMonotone(0.0, j as real, d);
    MulMonotone(j as real, p as real, d);
    MulMonotone(p as real, q, d);
  }

  lemma MulMonotone(a: real, b: real, c: real)
    requires a <= b && 0.0 < c
    ensures a * c <= b * c
  {
    assert b * c - a * c == (b - a) * c;
  }

  /** A positive frequency keeps every sample of a reset oscillator inside
      `[-0.5, 0.5]`. */
  lemma {:induction false} OutputInRange(s: SawState, sampleRate: real, n: nat)
    requires sampleRate > 0.0 && s.frequency > 0.0
    requires s.count == 0 && s.val == 1.0
    ensures -0.5 <= Output(StateAfter(s, sampleRate, n)) <= 0.5
    decreases n
  {
    var p := Period(sampleRate, s.frequency);
    if n <= p {
      RampInRange(s, sampleRate, n);
    } else {
      Periodic(s, sampleRate, n - (p + 1));
      OutputInRange(s, sampleRate, n - (p + 1));
    }
  }

  /** At 44100 Hz a 440 Hz saw counts to 100, so it repeats every 101
      samples: the period is `p + 1`, not `p`. */
  lemma Period440()
    ensures Period(44100.0, 440.0) == 100
  {
  }

  /** A saw started, like the static one in src/main.rs, with counter 0 and
      ramp 0.0 spends its whole first period, calls `1 ..= p`, below -0.5
      (and no lower than -1.5). */
  lemma FirstPeriodBelowRange(s: SawState, sampleRate: real, j: nat)
    requires sampleRate > 0.0 && s.frequency > 0.0
    requires s.count == 0 && s.val == 0.0
    requires 1 <= j <= Period(sampleRate, s.frequency)
    ensures -1.5 <= Output(StateAfter(s, sampleRate, j)) < -0.5
  {
    var d := Slope(sampleRate, s.frequency);
    Ramp(s, sampleRate, j);
    SlopesBelowOne(sampleRate, s.frequency, j);
    SlopePositive(sampleRate, s.frequency);
    MulMonotone(1.0, j as real, d);
  }

  /** A positive frequency has a positive slope. */
  lemma SlopePositive(sampleRate: real, frequency: real)
    requires sampleRate > 0.0 && frequency > 0.0
    ensures Slope(sampleRate, frequency) > 0.0
  {
  }

  /** Such a saw wraps at call `p + 1`; from then on every sample lies in
      `[-0.5, 0.5]`. */
  lemma StaticSawSettles(s: SawState, sampleRate: real, n: nat)
    requires sampleRate > 0.0 && s.frequency > 0.0
    requires s.count == 0
    requires Period(sampleRate, s.frequency) < n
    ensures -0.5 <= Output(StateAfter(s, sampleRate, n)) <= 0.5
  {
    var p := Period(sampleRate, s.frequency);
    var r := StateAfter(s, sampleRate, p + 1);
    WrapAfterPeriod(s, sampleRate);
    StateAfterAdd(s, sampleRate, p + 1, n - (p + 1));
    OutputInRange(r, sampleRate, n - (p + 1));
  }

  /** The `Saw` of src/main.rs, updated in place. */
  class Saw {
    var frequency: real
    var count: int
    var val: real

    /** The struct literal `Saw { frequency, count, val }`. */
    constructor (frequency: real, count: int, val: real)
      requires InI32(count)
      ensures State() == SawState(frequency, count, val)
    {
      this.frequency := frequency;
      this.count := count;
      this.val := val;
    }

    ghost function State(): SawState
      reads this
    {
      SawState(frequency, count, val)
    }

    /** The counter is an i32. */
    ghost predicate Valid()
      reads this
    {
      InI32(count)
    }

    method SetFrequency(freq: real)
      modifies this
      ensures State() == old(State()).(frequency := freq)
    {
      frequency := freq;
    }

    method NextSample(sampleRate: real) returns (sample: real)
      requires sampleRate > 0.0 && Valid()
      modifies this
      ensures Valid()
      ensures State() == Step(old(State()), sampleRate)
      ensures sample == Output(State())
    {
      if count >= Period(sampleRate, frequency) {
        count := 0;
      } else {
        count := count + 1;
      }
      if count == 0 {
        val := 1.0;
      } else {
        val := val - Slope(sampleRate, frequency);
      }
      sample := val - 0.5;
    }
  }
}
