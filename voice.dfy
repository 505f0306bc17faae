/** The synth `Voice` of src/main.rs: one owned `Saw`, an on/off state and
    the frequency last assigned to it. */
module Voices {
  import opened Oscillator

  /** The observable state of one voice, its saw included. */
  datatype VoiceState = VoiceState(saw: SawState, state: nat, frequency: real)

  class Voice {
    /** The voice's own oscillator; a voice never swaps it for another. */
    const saw: Saw
    var state: nat
    var frequency: real

    /** The struct literal `Voice { saw, state, frequency }`. */
    constructor (saw: Saw, state: nat, frequency: real)
      ensures this.saw == saw && this.state == state && this.frequency == frequency
    {
      this.saw := saw;
      this.state := state;
      this.frequency := frequency;
    }

    ghost function View(): VoiceState
      reads this, saw
    {
      VoiceState(saw.State(), state, frequency)
    }

    /** Switches the voice on whatever its state was; the frequency and the
        saw are left alone. */
    method NoteOn()
      modifies this
      ensures View() == old(View()).(state := 1)
    {
      state := 1;
    }

    /** Switches the voice off whatever its state was; the frequency and the
        saw are left alone. */
    method NoteOff()
      modifies this
      ensures View() == old(View()).(state := 0)
    {
      state := 0;
    }

    /** Sets the voice's frequency and mirrors it into its saw; the state, the
        saw's counter and its ramp value are left alone. */
    method SetFreq(freq: real)
      modifies this, saw
      ensures View() == old(View()).(frequency := freq, saw := old(saw.State()).(frequency := freq))
    {
      frequency := freq;
      saw.SetFrequency(freq);
    }
  }
}
