# auduino voice core in Dafny

A model of the granular synthesiser in `src/auduino.cpp`:

- **The three frequency mappers.** `mapPhaseInc`, `mapMidi` and `mapPentatonic` each turn a 10-bit analog reading into a 16-bit phase increment by looking it up in a constant table. The index arithmetic is modelled at the AVR's 16-bit `int` width, and the shift distance of `mapPhaseInc` is proved to stay below 16, the width of its operand.
- **The MIDI handlers of `voices[0]`.** Note on, note off, control change and pitch wheel each update the voice in place.
- **The per-sample render step run by the PWM timer interrupt.** It advances the two sync accumulators and fires a grain when its sync accumulator overflows. It then mixes the two grains, decays their envelopes, and lets the release envelope decay only while the gate is closed. A fixed-point gain stage turns the mix into an 8-bit PWM sample.

The model is split into four modules:

- `Fixed` (`fixed.dfy`) holds the fixed-width integer types, the powers of two, and the right shift and bitwise OR on naturals.
- `FrequencyMap` (`frequency_map.dfy`) holds the three tables and the mappers. They are written as functions, with lemmas about index bounds, endpoints and monotonicity.
- `Output` (`output.dfy`) is the gain stage of the interrupt. It is written as functions, with the overflow bounds and the gain formula proved.
- `Synth` (`voice.dfy`) holds three things:
  - the datatypes `Note`, `Env`, `Phase` and `Grain`;
  - `VoiceState`, whose member functions are the specification of each handler and of the render step, with lemmas about them;
  - the class `Voice`, whose methods update the voice in place. Each method is proved to move the voice from `old(State())` to the matching `VoiceState` function.

Phase, Grain and Env are declared in headers that are not part of this model. So are their increment, overflow test, modulation, reset, sample, tick and value operations. These operations are passed in as a `Primitives` record of functions, and every property holds for any choice of them. There are two exceptions, both listed under "## Left out". `Phase::setInc` is assumed to replace the increment and keep the rest of the accumulator (`Synth.SetInc`). `Env.value()` is taken to lie in 0..127.

## Model

| member | source | states |
|---|---|---|
| Fixed.ShrIsDivision | src/auduino.cpp:105 | a right shift by n is floor division by 2^n, with the quotient and remainder bounds |
| Fixed.BitOrDisjoint | src/auduino.cpp:241 | OR-ing a value below 2^n into a multiple of 2^n adds it |
| FrequencyMap.AntilogTableShape | src/auduino.cpp:97-102 | antilogTable has 64 strictly decreasing entries from 64830 down to 32768 |
| FrequencyMap.AntilogOrder | src/auduino.cpp:97-102 | any two antilogTable entries are ordered by their position and lie in 32768..64830 |
| FrequencyMap.MapPhaseInc | src/auduino.cpp:104-106 | for a 10-bit reading the increment lies in 1..64830 |
| FrequencyMap.MapPhaseIncShiftInRange | src/auduino.cpp:105 | for a 10-bit reading the index `input & 0x3f` lies inside antilogTable and the shift `input >> 6` is at most 15, below the 16-bit operand width; the shift is 15 exactly for readings 960..1023 |
| FrequencyMap.MapPhaseIncIsShift | src/auduino.cpp:104-106 | mapPhaseInc(input) is antilogTable[input % 64] divided by 2^(input / 64) |
| FrequencyMap.MapPhaseIncMonotone | src/auduino.cpp:97-106 | a larger reading never gives a larger increment |
| FrequencyMap.OctaveShiftOrder | src/auduino.cpp:105 | shifting an entry that is at least 32768 by more octaves never gives a larger value than a smaller shift does |
| FrequencyMap.MapPhaseIncEndpoints | src/auduino.cpp:104-106 | reading 0 gives 64830 and reading 1023 gives 1 |
| FrequencyMap.MidiLowStepsUp | src/auduino.cpp:142-145 | the first 64 entries of midiTable step strictly upwards from 17 to 652 |
| FrequencyMap.MidiHighStepsUp | src/auduino.cpp:145-149 | the last 64 entries of midiTable step strictly upwards from 691 to 26306 |
| FrequencyMap.MidiTableLength | src/auduino.cpp:123-140 | midiTable has 128 entries, one per MIDI note |
| FrequencyMap.MidiTableShape | src/auduino.cpp:123-149 | midiTable is strictly increasing from 17 to 26306 |
| FrequencyMap.MidiIndex | src/auduino.cpp:154 | the 16-bit index (1023 - input) >> 3 is inside the 128-entry table exactly when input <= 1023, and is then 127 - input / 8 |
| FrequencyMap.MapMidi | src/auduino.cpp:153-155 | for a 10-bit reading the increment is midiTable[127 - input / 8], between 17 and 26306 |
| FrequencyMap.MapMidiEndpoints | src/auduino.cpp:153-155 | reading 0 gives midiTable[127] and reading 1023 gives midiTable[0] |
| FrequencyMap.MapMidiMonotone | src/auduino.cpp:153-155 | a larger reading never gives a larger index or a larger increment |
| FrequencyMap.PentatonicTableShape | src/auduino.cpp:159-163 | pentatonicTable has 54 strictly increasing entries from 0 to 26306 |
| FrequencyMap.PentatonicIndex | src/auduino.cpp:166 | for a 10-bit reading the 16-bit product and the uint8_t index do not wrap, and the index is (1023 - input) * 53 / 1024, at most 52 |
| FrequencyMap.PentatonicIndexWraps | src/auduino.cpp:166 | past 1023 the 16-bit arithmetic wraps: reading 1024 gives index 63 |
| FrequencyMap.MapPentatonic | src/auduino.cpp:165-168 | the increment is pentatonicTable[(1023 - input) * 53 / 1024], one of the entries 0..52 and below the last entry, so pentatonicTable[53] is never returned |
| FrequencyMap.MapPentatonicEndpoints | src/auduino.cpp:165-168 | reading 1023 gives 0 and reading 0 gives entry 52, which is 22121 |
| FrequencyMap.MapPentatonicMonotone | src/auduino.cpp:165-168 | a larger reading never gives a larger index or a larger increment |
| Output.ScaledOutput | src/auduino.cpp:302 | the uint8_t cast of output >> 7, minus 128, is output / 128 - 128 for a mix below 0x8000 and output / 128 - 384 above it |
| Output.ProductBounds | src/auduino.cpp:305-307 | a signed 8-bit sample times a level stays between -128 and 127 times the level |
| Output.Amplified | src/auduino.cpp:305-315 | the doubled sample plus its product with the level is 2s(v+1), within -32768..32512, so it never overflows int16 |
| Output.GainStage | src/auduino.cpp:308-316 | the emitted byte is floor(s(2v+2)/256) + 128 |
| Output.PwmSample | src/auduino.cpp:302-316 | the PWM byte is the gain stage applied to the scaled mix, and at full level a mix below 0x8000 comes out as its top byte |
| Output.UnityGain | src/auduino.cpp:308-316 | at level 127 the stage is unity gain: s + 128 |
| Output.ZeroLevelGain | src/auduino.cpp:308-316 | at level 0 the output sits at the midpoint 128, or 127 for a negative sample |
| Output.GainAttenuates | src/auduino.cpp:308-316 | the output lies between the midpoint and s + 128: the stage never amplifies |
| Output.GainMonotoneInSample | src/auduino.cpp:308-316 | a larger sample never gives a smaller output |
| Output.GainMonotoneInLevel | src/auduino.cpp:308-316 | a higher level moves the output away from the midpoint, upwards for a positive sample and downwards for a negative one |
| Synth.BendValue | src/auduino.cpp:240-241 | for 7-bit data bytes the pitch-wheel value is msb * 128 + lsb, at most 16383 |
| Synth.BendValueDecodes | src/auduino.cpp:240-241 | the 14-bit value gives both data bytes back |
| Synth.VoiceState.NoteOn | src/auduino.cpp:197-217 | the note-on handler keeps both arrays at two entries and leaves the grains alone; a valid note stays valid |
| Synth.VoiceState.NoteOff | src/auduino.cpp:218-222 | the note-off handler changes at most the gate: note number, velocity, envelope, accumulators and grains are kept |
| Synth.VoiceState.ControlChange | src/auduino.cpp:223-238 | a control change touches only the grains |
| Synth.VoiceState.PitchBend | src/auduino.cpp:239-244 | a pitch-wheel message touches only the sync accumulators |
| Synth.VoiceState.Render | src/auduino.cpp:268-317 | the render step keeps the note and both arrays at two entries |
| Synth.VoiceState.RenderN | src/auduino.cpp:268-317 | repeated render steps keep both arrays at two entries |
| Synth.NoteOnSounds | src/auduino.cpp:203-213 | note-on with velocity > 0 sets the following, and nothing else changes: <br>- note, velocity and an open gate <br>- amp velocity << 8, decay 1 and divider 4 <br>- sync increments midiTable[number - 24] and midiTable[number - 17], two different pitches |
| Synth.OpenNoteTuningInTable | src/auduino.cpp:198-213 | the note invariant the handlers keep (`Voice.Valid`) makes the tuning lookups safe: for an open gate, number - 24 and number - 17 both lie inside midiTable |
| Synth.ZeroVelocityIsNoteOff | src/auduino.cpp:214-222 | a note-on with velocity 0 has exactly the effect of a note-off |
| Synth.NoteOffGate | src/auduino.cpp:218-222 | after a note-off the gate is closed iff the note matched or was already closed; a different note leaves the voice unchanged |
| Synth.NoteOnThenOff | src/auduino.cpp:197-222 | note-on then note-off of the same note closes the gate and keeps everything else the note-on set |
| Synth.OtherNoteOffKeepsNote | src/auduino.cpp:214-222 | a note-off for another note leaves a sounding note open, and its own note-off still releases it |
| Synth.ModWheelSetsDecays | src/auduino.cpp:228-232 | controller 1 sets the grain decays to value >> 3 and value >> 4 (64 gives 8 and 4); every other field of both grains, and the note, release envelope and accumulators, are kept |
| Synth.GrainPitchControllers | src/auduino.cpp:233-235 | controllers 16 and 17 set the increment of grain 0 or grain 1 to midiTable[value] and leave the other grain alone |
| Synth.OtherControllersIgnored | src/auduino.cpp:227-237 | any other controller leaves the voice unchanged |
| Synth.ControlChangeIdempotent | src/auduino.cpp:223-238 | repeating a control change changes nothing more, since its effect does not depend on the prior state |
| Synth.PitchBendModulatesBoth | src/auduino.cpp:239-244 | both sync accumulators are modulated by the same value msb * 128 + lsb, and nothing else changes |
| Synth.RenderFiresOnOverflow | src/auduino.cpp:270-293 | grain i is reset exactly when sync accumulator i overflows in this tick, and is then advanced and decayed |
| Synth.RenderGrainsIndependent | src/auduino.cpp:270-293 | the next state of grain i depends only on sync accumulator i and grain i |
| Synth.RenderNRelease | src/auduino.cpp:268-299 | over n ticks the note is unchanged and each accumulator advances once per tick; the release envelope ticks once per tick iff the gate is closed |
| Synth.RenderFullLevel | src/auduino.cpp:287-316 | with the release envelope at full level, the sample is the top byte of a mix below 0x8000 |
| Synth.Voice.constructor | src/auduino.cpp:43-48 | the static voice starts with a closed gate, note 0 and velocity 0, and with two accumulators and two grains |
| Synth.Voice.HandleNoteOn | src/auduino.cpp:197-217 | the in-place handler moves the voice to VoiceState.NoteOn of its old state |
| Synth.Voice.HandleNoteOff | src/auduino.cpp:218-222 | the in-place handler moves the voice to VoiceState.NoteOff of its old state |
| Synth.Voice.HandleControlChange | src/auduino.cpp:223-238 | the in-place handler moves the voice to VoiceState.ControlChange of its old state |
| Synth.Voice.HandlePitchWheelChange | src/auduino.cpp:239-244 | the in-place handler moves the voice to VoiceState.PitchBend of its old state |
| Synth.Voice.Render | src/auduino.cpp:268-317 | the interrupt body, updating the arrays in place, reaches VoiceState.Render's next state and returns its PWM sample |

## Left out

- Hardware and timer configuration is not modelled: `audioOn`, the register writes, `pinMode` and `SETUP_DEBUG` in `setup`, and the LED toggle in the interrupt. The `PWM_VALUE` register write is returned as the value of `Voice.Render`.
- `Midi.begin()` and the MIDI byte parsing in `midi.h` are not part of this model. The handlers take the decoded data bytes.
- `phase.h` and `grain.h` are not part of this model. The internals of Phase (increment, overflow test, modulation), Grain (reset, sample) and Env (tick, value) are abstract functions, so nothing is claimed about wrap-around, decay or modulation behaviour. In particular there is no pitch-bend round trip.
- `asm.h` is not part of this model. `mulsu` is modelled as plain multiplication of the signed sample by 2.
- `midiNoteToFreq`, `freqToInc` and `MIDI_TO_INC` use floating point and `pow`. midiTable is the constant listing of its 128 values, not that formula.
- Concurrency between the interrupt and the handlers is not modelled. That includes an interrupt landing in the middle of a multi-field update. Each handler and each render step runs as one atomic step.
- `loop()` is not modelled, because its body is entirely commented out. `voices[1]` is declared but never used, so only `voices[0]` is modelled.
- The pentatonic table's entries are not proved to coincide with midiTable's at the D, E, G, A and B notes.
- Synth.SetInc: `Phase::setInc` lives in `phase.h`, which is not part of this model. It is assumed to replace the increment and keep the rest of the accumulator. The preserved `internal` parts of the accumulators in `Synth.NoteOnSounds` rest on this assumption.
- Synth.VoiceState.NoteOn: requires a sounding note to have a number of at least 24 and 7-bit data bytes. The handler does not check the number, and below 24 it reads outside midiTable.
- Synth.VoiceState.ControlChange: requires a value of at most 127 for controllers 16 and 17, because the handler indexes midiTable with it unchecked.
- Synth.Voice.Render: `Env.value()` is taken to lie in 0..127, which is what the gain stage's overflow comment assumes.
