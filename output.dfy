/** `write_data` of src/main.rs: fills an interleaved output buffer frame by
    frame from one `Saw`, writing the same converted sample into every
    channel slot of a frame. The sample-format conversion
    `cpal::Sample::from::<f32>` is the parameter `convert`. */
module Render {
  import opened Oscillator

  /** The number of frames `chunks_mut(channels)` cuts `len` samples into:
      `len / channels` rounded up, the last frame possibly short. */
  function Frames(len: nat, channels: nat): (n: nat)
    requires channels > 0
    ensures len == 0 ==> n == 0
    ensures len > 0 ==> (n - 1) * channels < len <= n * channels
  {
    var n := (len + channels - 1) / channels;
    if len == 0 then
      assert n == 0 by { QuotientUnique(len + channels - 1, channels, 0); }
      n
    else
      assert (n - 1) * channels < len <= n * channels by {
        var r := (len + channels - 1) % channels;
        assert len + channels - 1 == n * channels + r;
        assert (n - 1) * channels == n * channels - channels;
      }
      n
  }

  /** The quotient is the one multiple of `c` below `a` within `c`. */
  lemma QuotientUnique(a: int, c: int, q: int)
    requires c > 0 && q * c <= a < q * c + c
    ensures a / c == q
  {
    var d, m := a / c, a % c;
    assert a == d * c + m && 0 <= m < c;
    var x := d - q;
    assert x * c == d * c - q * c;
    if x >= 1 {
      MulAtLeast(x, c);
    } else if x <= -1 {
      MulAtLeast(-x, c);
    }
  }

  /** The index of the frame of the slot `i`, and its frame's bounds. */
  lemma FrameOf(i: nat, k: nat, channels: nat)
    requires channels > 0 && k * channels <= i < k * channels + channels
    ensures i / channels == k
  {
    QuotientUnique(i, channels, k);
  }

  /** The frame that starts at slot `k * channels` ends at `end`; its slots
      all have frame index `k`, and either it is the last frame or the next
      one starts at `end`. */
  lemma NextFrame(len: nat, channels: nat, k: nat, start: nat, end: nat)
    requires channels > 0 && start == k * channels < len
    requires end == if start + channels <= len then start + channels else len
    ensures forall i :: start <= i < end ==> i / channels == k
    ensures end == len ==> Frames(len, channels) == k + 1
    ensures end < len ==> end == (k + 1) * channels
  {
    forall i | start <= i < end
      ensures i / channels == k
    {
      FrameOf(i, k, channels);
    }
    assert (k + 1) * channels == start + channels;
    if end == len {
      QuotientUnique(len + channels - 1, channels, k + 1);
    }
  }

  /** Fills `output` in place, one frame of `channels` slots per call of the
      saw, so the saw is advanced once per frame and frame `k` holds the
      `k`-th sample in every one of its slots. `chunks_mut(0)` panics, so
      `channels` must be positive. */
  method WriteData<T>(output: array<T>, channels: nat, saw: Saw, sampleRate: real, convert: real -> T)
    requires channels > 0 && sampleRate > 0.0 && saw.Valid()
    modifies output, saw
    ensures saw.Valid()
    ensures saw.State() == StateAfter(old(saw.State()), sampleRate, Frames(output.Length, channels))
    ensures forall i :: 0 <= i < output.Length ==>
              output[i] == convert(Output(StateAfter(old(saw.State()), sampleRate, i / channels + 1)))
  {
    ghost var s0 := saw.State();
    ghost var k: nat := 0;
    var start := 0;
    while start < output.Length
      invariant 0 <= start <= output.Length
      invariant start < output.Length ==> start == k * channels
      invariant start == output.Length ==> k == Frames(output.Length, channels)
      invariant saw.Valid() && saw.State() == StateAfter(s0, sampleRate, k)
      invariant forall i :: 0 <= i < start ==>
                  output[i] == convert(Output(StateAfter(s0, sampleRate, i / channels + 1)))
      decreases output.Length - start
    {
      var sample := saw.NextSample(sampleRate);
      var value := convert(sample);
      var end := if start + channels <= output.Length then start + channels else output.Length;
      FillFrame(output, start, end, value);
      NextFrame(output.Length, channels, k, start, end);
      assert value == convert(Output(StateAfter(s0, sampleRate, k + 1)));
      k := k + 1;
      start := end;
    }
  }

  /** The inner loop of `write_data`: every slot of one frame, the slots
      `start .. end`, receives `value`; every other slot keeps its value. */
  method FillFrame<T>(output: array<T>, start: nat, end: nat, value: T)
    requires start <= end <= output.Length
    modifies output
    ensures forall i :: start <= i < end ==> output[i] == value
    ensures forall i :: 0 <= i < output.Length && !(start <= i < end) ==> output[i] == old(output[i])
  {
    var j := start;
    while j < end
      invariant start <= j <= end
      invariant forall i :: start <= i < j ==> output[i] == value
      invariant forall i :: 0 <= i < output.Length && !(start <= i < j) ==> output[i] == old(output[i])
    {
      output[j] := value;
      j := j + 1;
    }
  }
}
