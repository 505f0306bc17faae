/** The polyphony manager `Poly` of src/main.rs: a fixed collection of voices,
    a voice-allocation rule (`new_note`) and a mixer (`next_sample`).
    The first half states both operations as functions on the voices'
    states; the class `Poly` below performs them in place. */
module Polyphony {
  import opened Oscillator
  import opened Voices

  /** Every voice's state is 0 or 1. */
  predicate Binary(vs: seq<VoiceState>) {
    forall i :: 0 <= i < |vs| ==> vs[i].state <= 1
  }

  /** The index of the first voice whose state is 0, or `|vs|` if there is none. */
  function FirstFree(vs: seq<VoiceState>): (k: nat)
    ensures k <= |vs|
    ensures k < |vs| ==> vs[k].state == 0
    ensures forall j :: 0 <= j < k ==> vs[j].state != 0
  {
    if |vs| == 0 then 0
    else if vs[0].state == 0 then 0
    else 1 + FirstFree(vs[1..])
  }

  /** A voice after `set_freq(f)` and `note_on()`: sounding at `f`, with its
      saw retuned to `f` and its counter and ramp as they were. */
  function Assigned(v: VoiceState, f: real): VoiceState {
    v.(state := 1, frequency := f, saw := v.saw.(frequency := f))
  }

  /** The voices after `new_note(f)`: the first free voice is assigned `f`;
      with none free, voice `voiceCount - 1` is stolen. `voiceCount` only
      matters, and only has to be a valid index plus one, when none is free. */
  function AfterNewNote(vs: seq<VoiceState>, voiceCount: nat, f: real): (r: seq<VoiceState>)
    requires FirstFree(vs) < |vs| || 1 <= voiceCount <= |vs|
    ensures |r| == |vs|
  {
    var k := FirstFree(vs);
    if k < |vs| then vs[k := Assigned(vs[k], f)]
    else vs[voiceCount - 1 := Assigned(vs[voiceCount - 1], f)]
  }

  /** The voices after `new_note` for each frequency of `fs`, in order. */
  function AfterNotes(vs: seq<VoiceState>, voiceCount: nat, fs: seq<real>): (r: seq<VoiceState>)
    requires 1 <= voiceCount <= |vs|
    ensures |r| == |vs|
  {
    if |fs| == 0 then vs
    else AfterNewNote(AfterNotes(vs, voiceCount, fs[..|fs| - 1]), voiceCount, fs[|fs| - 1])
  }

  /** The number of sounding voices (state 1). */
  function ActiveCount(vs: seq<VoiceState>): nat {
    if |vs| == 0 then 0
    else ActiveCount(vs[..|vs| - 1]) + (if vs[|vs| - 1].state == 1 then 1 else 0)
  }

  /** The next sample of every voice's saw, in voice order. */
  function NextSamples(vs: seq<VoiceState>, sampleRate: real): seq<real>
    requires sampleRate > 0.0
  {
    seq(|vs|, i requires 0 <= i < |vs| => Output(Step(vs[i].saw, sampleRate)))
  }

  /** Every voice with its saw advanced by one sample; states and
      frequencies are untouched. */
  function Advanced(vs: seq<VoiceState>, sampleRate: real): seq<VoiceState>
    requires sampleRate > 0.0
  {
    seq(|vs|, i requires 0 <= i < |vs| => vs[i].(saw := Step(vs[i].saw, sampleRate)))
  }

  /** A voice's sample times its state, `sample * (state as f32)`. */
  function Gated(sample: real, state: nat): real {
    sample * (state as real)
  }

  /** The sum `Poly::next_sample` forms from the voices' next samples: each
      sample times its voice's state, added in voice order. */
  function Mix(vs: seq<VoiceState>, samples: seq<real>): real
    requires |samples| == |vs|
  {
    MixUpTo(vs, samples, |vs|)
  }

  /** The running sum after the first `n` voices. */
  function MixUpTo(vs: seq<VoiceState>, samples: seq<real>, n: nat): real
    requires n <= |vs| == |samples|
  {
    if n == 0 then 0.0
    else MixUpTo(vs, samples, n - 1) + Gated(samples[n - 1], vs[n - 1].state)
  }

  /** The sum of the samples of the first `n` voices that sound. */
  function ActiveSum(vs: seq<VoiceState>, samples: seq<real>, n: nat): real
    requires n <= |vs| == |samples|
  {
    if n == 0 then 0.0
    else ActiveSum(vs, samples, n - 1) + (if vs[n - 1].state == 1 then samples[n - 1] else 0.0)
  }

  /** With a free voice, `new_note(f)` assigns `f` to the lowest-index free
      voice and changes no other voice, later free voices included. */
  lemma NewNoteFillsFirstFree(vs: seq<VoiceState>, voiceCount: nat, f: real, k: nat)
    requires k < |vs| && vs[k].state == 0
    requires forall j :: 0 <= j < k ==> vs[j].state != 0
    ensures FirstFree(vs) == k
    ensures AfterNewNote(vs, voiceCount, f)[k] == Assigned(vs[k], f)
    ensures forall j :: 0 <= j < |vs| && j != k ==> AfterNewNote(vs, voiceCount, f)[j] == vs[j]
  {
  }

  /** With no free voice, `new_note(f)` retunes voice `voiceCount - 1`, keeps
      it sounding, and changes no other voice. */
  lemma NewNoteSteals(vs: seq<VoiceState>, voiceCount: nat, f: real)
    requires forall j :: 0 <= j < |vs| ==> vs[j].state != 0
    requires 1 <= voiceCount <= |vs|
    ensures AfterNewNote(vs, voiceCount, f)[voiceCount - 1] == Assigned(vs[voiceCount - 1], f)
    ensures forall j :: 0 <= j < |vs| && j != voiceCount - 1 ==> AfterNewNote(vs, voiceCount, f)[j] == vs[j]
  {
    assert FirstFree(vs) == |vs|;
  }

  /** `new_note(f)` keeps every state in {0, 1} and leaves some voice sounding at `f`. */
  lemma NewNoteSounds(vs: seq<VoiceState>, voiceCount: nat, f: real)
    requires FirstFree(vs) < |vs| || 1 <= voiceCount <= |vs|
    requires Binary(vs)
    ensures Binary(AfterNewNote(vs, voiceCount, f))
    ensures exists i :: 0 <= i < |vs| && AfterNewNote(vs, voiceCount, f)[i].state == 1
                        && AfterNewNote(vs, voiceCount, f)[i].frequency == f
  {
    var r := AfterNewNote(vs, voiceCount, f);
    var k := if FirstFree(vs) < |vs| then FirstFree(vs) else voiceCount - 1;
    assert r[k].state == 1 && r[k].frequency == f;
  }

  /** Replacing one voice changes the active count by the difference of the
      two voices' activity. */
  lemma {:induction false} ActiveCountUpdate(vs: seq<VoiceState>, k: nat, w: VoiceState)
    requires k < |vs|
    ensures ActiveCount(vs[k := w]) + (if vs[k].state == 1 then 1 else 0)
         == ActiveCount(vs) + (if w.state == 1 then 1 else 0)
    decreases |vs|
  {
    var n := |vs| - 1;
    if k < n {
      assert vs[k := w][..n] == vs[..n][k := w];
      ActiveCountUpdate(vs[..n], k, w);
    } else {
      assert vs[k := w][..n] == vs[..n];
    }
  }

  /** When every voice sounds, the active count is the number of voices. */
  lemma {:induction false} ActiveCountAll(vs: seq<VoiceState>)
    requires forall j :: 0 <= j < |vs| ==> vs[j].state == 1
    ensures ActiveCount(vs) == |vs|
    decreases |vs|
  {
    if |vs| > 0 {
      ActiveCountAll(vs[..|vs| - 1]);
    }
  }

  /** `new_note` adds exactly one sounding voice when one was free; otherwise
      all voices were, and still are, sounding. */
  lemma NewNoteActiveCount(vs: seq<VoiceState>, voiceCount: nat, f: real)
    requires Binary(vs) && 1 <= voiceCount <= |vs|
    ensures FirstFree(vs) < |vs| ==> ActiveCount(AfterNewNote(vs, voiceCount, f)) == ActiveCount(vs) + 1
    ensures FirstFree(vs) == |vs| ==>
              ActiveCount(vs) == |vs| && ActiveCount(AfterNewNote(vs, voiceCount, f)) == |vs|
  {
    var k := FirstFree(vs);
    if k < |vs| {
      ActiveCountUpdate(vs, k, Assigned(vs[k], f));
    } else {
      ActiveCountAll(vs);
      NewNoteSounds(vs, voiceCount, f);
      ActiveCountAll(AfterNewNote(vs, voiceCount, f));
    }
  }

  /** From a silent pool, up to `|vs|` notes fill the voices in order. */
  lemma {:induction false} FillInOrder(vs: seq<VoiceState>, voiceCount: nat, fs: seq<real>)
    requires 1 <= voiceCount <= |vs| && |fs| <= |vs|
    requires forall j :: 0 <= j < |vs| ==> vs[j].state == 0
    ensures forall j :: 0 <= j < |fs| ==> AfterNotes(vs, voiceCount, fs)[j] == Assigned(vs[j], fs[j])
    ensures forall j :: |fs| <= j < |vs| ==> AfterNotes(vs, voiceCount, fs)[j] == vs[j]
    decreases |fs|
  {
    if |fs| > 0 {
      var n := |fs| - 1;
      var prev := AfterNotes(vs, voiceCount, fs[..n]);
      FillInOrder(vs, voiceCount, fs[..n]);
      NewNoteFillsFirstFree(prev, voiceCount, fs[n], n);
    }
  }

  /** From a silent pool of `voiceCount` voices, after `|fs| >= voiceCount`
      notes the first `voiceCount - 1` voices hold the first notes and the last
      voice holds the latest note: every note past the pool's size is stolen
      onto the last voice. */
  lemma {:induction false} StealLast(vs: seq<VoiceState>, voiceCount: nat, fs: seq<real>)
    requires 1 <= voiceCount == |vs| <= |fs|
    requires forall j :: 0 <= j < |vs| ==> vs[j].state == 0
    ensures forall j :: 0 <= j < |vs| - 1 ==> AfterNotes(vs, voiceCount, fs)[j] == Assigned(vs[j], fs[j])
    ensures AfterNotes(vs, voiceCount, fs)[|vs| - 1] == Assigned(vs[|vs| - 1], fs[|fs| - 1])
    decreases |fs|
  {
    var n := |fs| - 1;
    var prev := AfterNotes(vs, voiceCount, fs[..n]);
    if n < |vs| {
      FillInOrder(vs, voiceCount, fs[..n]);
      NewNoteFillsFirstFree(prev, voiceCount, fs[n], n);
    } else {
      StealLast(vs, voiceCount, fs[..n]);
      NewNoteSteals(prev, voiceCount, fs[n]);
    }
  }

  /** A sample times a state of 0 or 1 is the sample or nothing. */
  lemma Gate(x: real, state: nat)
    requires state <= 1
    ensures Gated(x, state) == if state == 1 then x else 0.0
  {
    if state == 1 {
      assert x * (state as real) == x * 1.0;
    } else {
      assert x * (state as real) == x * 0.0;
    }
  }

  /** With states in {0, 1}, the mix is the sum of the sounding voices'
      samples: silent voices contribute nothing. */
  lemma {:induction false} MixGated(vs: seq<VoiceState>, samples: seq<real>, n: nat)
    requires n <= |vs| == |samples| && Binary(vs)
    ensures MixUpTo(vs, samples, n) == ActiveSum(vs, samples, n)
  {
    if n > 0 {
      MixGated(vs, samples, n - 1);
      Gate(samples[n - 1], vs[n - 1].state);
    }
  }

  /** `K` sounding voices that all produce the same sample `x` mix to `K * x`. */
  lemma {:induction false} MixLinear(vs: seq<VoiceState>, samples: seq<real>, x: real, n: nat)
    requires n <= |vs| == |samples| && Binary(vs)
    requires forall j :: 0 <= j < |vs| && vs[j].state == 1 ==> samples[j] == x
    ensures MixUpTo(vs, samples, n) == (ActiveCount(vs[..n]) as real) * x
  {
    if n > 0 {
      MixLinear(vs, samples, x, n - 1);
      assert vs[..n][..n - 1] == vs[..n - 1];
      var c := ActiveCount(vs[..n - 1]);
      Gate(samples[n - 1], vs[n - 1].state);
      if vs[n - 1].state == 1 {
        assert (c as real) * x + x == ((c + 1) as real) * x;
      }
    }
  }

  /** The `Poly` of src/main.rs. Its voices are owned by it, each with its own
      saw, so no two share an object. */
  class Poly {
    const sampleRate: real
    const voices: seq<Voice>
    const voiceCount: nat

    ghost function Saws(): set<object> {
      set i | 0 <= i < |voices| :: voices[i].saw as object
    }

    ghost function Repr(): set<object> {
      (set i | 0 <= i < |voices| :: voices[i] as object) + Saws()
    }

    /** `voice_count` is the number of voices and at least 1, the voices and
        their saws are all distinct, every state is 0 or 1 and every counter
        is an i32. */
    ghost predicate Valid()
      reads Repr()
    {
      voiceCount == |voices| && 1 <= voiceCount &&
      (forall i, j :: 0 <= i < j < |voices| ==> voices[i] != voices[j] && voices[i].saw != voices[j].saw) &&
      (forall i :: 0 <= i < |voices| ==> voices[i].state <= 1 && voices[i].saw.Valid())
    }

    ghost function Views(): (r: seq<VoiceState>)
      reads Repr()
      ensures |r| == |voices|
      ensures forall i :: 0 <= i < |voices| ==> r[i] == voices[i].View()
    {
      seq(|voices|, i requires 0 <= i < |voices| reads Repr() => voices[i].View())
    }

    /** The struct literal `Poly { sample_rate, voices, voice_count, .. }`. */
    constructor (sampleRate: real, voices: seq<Voice>, voiceCount: nat)
      requires voiceCount == |voices| && 1 <= voiceCount
      requires forall i, j :: 0 <= i < j < |voices| ==> voices[i] != voices[j] && voices[i].saw != voices[j].saw
      requires forall i :: 0 <= i < |voices| ==> voices[i].state <= 1 && voices[i].saw.Valid()
      ensures Valid()
      ensures this.sampleRate == sampleRate && this.voices == voices && this.voiceCount == voiceCount
    {
      this.sampleRate := sampleRate;
      this.voices := voices;
      this.voiceCount := voiceCount;
    }

    /** Assigns a note to the first free voice, or steals the last voice. */
    method NewNote(frequency: real)
      requires Valid()
      modifies Repr()
      ensures Valid()
      ensures Views() == AfterNewNote(old(Views()), voiceCount, frequency)
    {
      ghost var vs := Views();
      var i := 0;
      while i < |voices|
        invariant 0 <= i <= |voices|
        invariant forall j :: 0 <= j < i ==> vs[j].state != 0
        invariant unchanged(Repr())
      {
        if voices[i].state == 0 {
          assert FirstFree(vs) == i;
          voices[i].SetFreq(frequency);
          voices[i].NoteOn();
          Settle(vs, i, Assigned(vs[i], frequency));
          return;
        }
        i := i + 1;
      }
      assert FirstFree(vs) == |vs|;
      voices[voiceCount - 1].NoteOff();
      voices[voiceCount - 1].SetFreq(frequency);
      voices[voiceCount - 1].NoteOn();
      Settle(vs, voiceCount - 1, Assigned(vs[voiceCount - 1], frequency));
    }

    /** Sums every voice's next saw sample, gated by its state. Every saw
        advances, sounding or not. */
    method NextSample() returns (out: real)
      requires Valid() && sampleRate > 0.0
      modifies Saws()
      ensures Valid()
      ensures Views() == Advanced(old(Views()), sampleRate)
      ensures out == Mix(old(Views()), NextSamples(old(Views()), sampleRate))
    {
      ghost var vs := Views();
      ghost var samples := NextSamples(vs, sampleRate);
      out := 0.0;
      var i := 0;
      while i < |voices|
        invariant 0 <= i <= |voices|
        invariant Valid() && AdvancedUpTo(vs, i)
        invariant out == MixUpTo(vs, samples, i)
      {
        out := AddVoice(vs, samples, i, out);
        i := i + 1;
      }
      AllAdvanced(vs);
    }

    /** The first `n` voices of `vs` have had their saws advanced, the others
        are as in `vs`. */
    ghost predicate AdvancedUpTo(vs: seq<VoiceState>, n: nat)
      requires |vs| == |voices| && sampleRate > 0.0
      reads Repr()
    {
      forall j :: 0 <= j < |voices| ==>
        voices[j].View() == if j < n then Advanced(vs, sampleRate)[j] else vs[j]
    }

    /** Once every voice has been advanced, the pool is `Advanced(vs)`. */
    lemma AllAdvanced(vs: seq<VoiceState>)
      requires |vs| == |voices| && sampleRate > 0.0
      requires AdvancedUpTo(vs, |voices|)
      ensures Views() == Advanced(vs, sampleRate)
    {
    }

    /** One pass of the loop of `Poly::next_sample`: advances voice `k`'s saw
        and adds its sample, times the voice's state, to `out`. */
    method AddVoice(ghost vs: seq<VoiceState>, ghost samples: seq<real>, k: nat, out: real) returns (sum: real)
      requires Valid() && sampleRate > 0.0 && k < |voices| == |vs|
      requires samples == NextSamples(vs, sampleRate)
      requires AdvancedUpTo(vs, k) && out == MixUpTo(vs, samples, k)
      modifies voices[k].saw
      ensures Valid() && AdvancedUpTo(vs, k + 1) && sum == MixUpTo(vs, samples, k + 1)
    {
      SawApart(k);
      var sample := voices[k].saw.NextSample(sampleRate);
      sum := out + Gated(sample, voices[k].state);
    }

    /** No saw of another voice is voice `k`'s saw. */
    lemma SawApart(k: nat)
      requires k < |voices|
      requires forall i, j :: 0 <= i < j < |voices| ==> voices[i].saw != voices[j].saw
      ensures forall j :: 0 <= j < |voices| && j != k ==> voices[j].saw != voices[k].saw
    {
    }

    /** After voice `k` alone was changed to `w`, the pool is `vs[k := w]`
        and still valid. */
    lemma Settle(vs: seq<VoiceState>, k: nat, w: VoiceState)
      requires k < |voices| == |vs| && 1 <= voiceCount == |voices|
      requires forall i, j :: 0 <= i < j < |voices| ==> voices[i] != voices[j] && voices[i].saw != voices[j].saw
      requires voices[k].View() == w && w.state <= 1 && InI32(w.saw.count)
      requires forall j :: 0 <= j < |voices| && j != k ==> voices[j].View() == vs[j]
      requires forall j :: 0 <= j < |voices| ==> vs[j].state <= 1 && InI32(vs[j].saw.count)
      ensures Valid() && Views() == vs[k := w]
    {
    }
  }
}
