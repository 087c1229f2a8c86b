/**
 * The voice of the synthesiser: its note state machine, driven by the MIDI
 * handlers (note on, note off, control change, pitch wheel), and the
 * per-sample render step run by the PWM timer interrupt.
 *
 * Phase, Grain and Env are defined in headers that are not part of this
 * model. Each is represented by the fields this file reads or writes plus an
 * `internal` component standing for the rest of its state, and the
 * operations on them whose code is not visible are gathered in
 * `Primitives`, a record of functions: every property below holds whatever
 * those operations do.
 */
module Synth {
  import opened Fixed
  import opened FrequencyMap
  import opened Output

  /** Note::Gate: OPEN while a note sounds, CLOSED once it is released. */
  datatype Gate = Closed | Open

  /** struct Note: the gate and the number and velocity of the last sounding note. */
  datatype Note = Note(gate: Gate, number: uint8, velocity: uint8)

  /** An envelope: its amplitude, decay rate and decay divider, and the rest of its state. */
  datatype Env = Env(amp: int, decay: int, divider: int, internal: int)

  /** A phase accumulator: its increment and the rest of its state (the accumulator itself). */
  datatype Phase = Phase(inc: uint16, internal: int)

  /** A grain: an oscillator phase and its decay envelope. */
  datatype Grain = Grain(phase: Phase, env: Env)

  /** The operations of Phase, Grain and Env that this model leaves abstract. */
  datatype Primitives = Primitives(
    advance: Phase -> Phase,             // ++phase
    overflowed: Phase -> bool,           // phase.hasOverflowed()
    modulate: (Phase, uint16) -> Phase,  // phase.modulate(value)
    reset: Grain -> Grain,               // grain.reset()
    sample: Grain -> uint16,             // grain.getSample()
    tick: Env -> Env,                    // env.tick()
    level: Env -> Level)                 // env.value()

  /** Phase::setInc: replaces the increment. */
  function SetInc(p: Phase, inc: uint16): (q: Phase)
    ensures q.inc == inc && q.internal == p.internal
  {
    p.(inc := inc)
  }

  /**
   * What the handlers keep true of the note: data bytes are 7-bit, and an
   * open gate belongs to a sounding note (non-zero velocity) whose tuning
   * lookups were in the table.
   */
  predicate NoteValid(n: Note) {
    n.number <= 127 && n.velocity <= 127 &&
    (n.gate == Open ==> n.velocity > 0 && 24 <= n.number)
  }

  /**
   * What the noteOn handler needs of its message. The MIDI transport
   * delivers 7-bit data bytes; a sounding note indexes midiTable at
   * number - 24 and number - 17, which lie inside the table exactly when
   * the note is at least 24 (the handler does not check this).
   */
  predicate NoteOnAllowed(number: uint8, velocity: uint8) {
    velocity > 0 ==> 24 <= number <= 127 && velocity <= 127
  }

  /**
   * The pitch-wheel value `data[1] << 7 | data[0]`, computed in the 16-bit
   * `int` (the shift cannot overflow it: 255 << 7 is 32640).
   */
  function BendValue(lsb: uint8, msb: uint8): (value: uint16)
    ensures lsb <= 127 && msb <= 127 ==> value == msb * 128 + lsb <= 16383
  {
    assert Pow2(7) == 128;
    if lsb <= 127 then
      BitOrDisjoint(msb, lsb, 7);
      BitOr(msb * 128, lsb)
    else
      BitOr(msb * 128, lsb)
  }

  /** The value of a 14-bit pitch-wheel message determines both data bytes. */
  lemma BendValueDecodes(lsb: uint8, msb: uint8)
    requires lsb <= 127 && msb <= 127
    ensures BendValue(lsb, msb) % 128 == lsb && BendValue(lsb, msb) / 128 == msb
  {
  }

  /** `f` applied `n` times. */
  function Iterate<T>(f: T -> T, x: T, n: nat): T {
    if n == 0 then x else f(Iterate(f, x, n - 1))
  }

  /** A grain at the start of a tick: reset when its sync accumulator overflowed, as it was otherwise. */
  function Fire(p: Primitives, sync: Phase, g: Grain): Grain {
    if p.overflowed(sync) then p.reset(g) else g
  }

  /** ++grain.phase */
  function AdvanceGrain(p: Primitives, g: Grain): Grain {
    g.(phase := p.advance(g.phase))
  }

  /** grain.env.tick() */
  function TickGrain(p: Primitives, g: Grain): Grain {
    g.(env := p.tick(g.env))
  }

  /** The release envelope after a tick: it decays only while the gate is closed. */
  function Release(p: Primitives, gate: Gate, env: Env): Env {
    if gate == Closed then p.tick(env) else env
  }

  /** The outcome of one render step: the new voice state and the 8-bit PWM sample. */
  datatype Tick = Tick(next: VoiceState, sample: uint8)

  /** The state of `voices[0]`. */
  datatype VoiceState = VoiceState(note: Note, env: Env, sync: seq<Phase>, grains: seq<Grain>)
  {
    /** Two sync accumulators and two grains, as the C arrays have. */
    predicate Shaped() {
      |sync| == 2 && |grains| == 2
    }

    /** The noteOn handler. */
    function NoteOn(number: uint8, velocity: uint8): (t: VoiceState)
      requires Shaped() && NoteOnAllowed(number, velocity)
      ensures t.Shaped() && t.grains == grains
      ensures NoteValid(note) ==> NoteValid(t.note)
    {
      if velocity > 0 then
        VoiceState(
          Note(Open, number, velocity),
          env.(amp := velocity * 256, decay := 1, divider := 4),
          [SetInc(sync[0], MidiTable[number - 24]), SetInc(sync[1], MidiTable[number - 17])],
          grains)
      else if note.number == number then
        this.(note := note.(gate := Closed))
      else
        this
    }

    /** The noteOff handler. */
    function NoteOff(number: uint8): (t: VoiceState)
      requires Shaped()
      ensures t.Shaped()
      ensures t.env == env && t.sync == sync && t.grains == grains
      ensures t.note.number == note.number && t.note.velocity == note.velocity
      ensures NoteValid(note) ==> NoteValid(t.note)
    {
      if note.number == number then this.(note := note.(gate := Closed)) else this
    }

    /** The controlChange handler: mod wheel (1) and the two grain pitches (16, 17). */
    function ControlChange(controller: uint8, value: uint8): (t: VoiceState)
      requires Shaped()
      requires controller == 16 || controller == 17 ==> value <= 127
      ensures t.Shaped()
      ensures t.note == note && t.env == env && t.sync == sync
    {
      if controller == 1 then
        this.(grains := [
          grains[0].(env := grains[0].env.(decay := value / 8)),
          grains[1].(env := grains[1].env.(decay := value / 16))])
      else if controller == 16 then
        this.(grains := grains[0 := grains[0].(phase := SetInc(grains[0].phase, MidiTable[value]))])
      else if controller == 17 then
        this.(grains := grains[1 := grains[1].(phase := SetInc(grains[1].phase, MidiTable[value]))])
      else
        this
    }

    /** The pitchWheelChange handler: both sync accumulators are modulated by the same value. */
    function PitchBend(lsb: uint8, msb: uint8, p: Primitives): (t: VoiceState)
      requires Shaped()
      ensures t.Shaped()
      ensures t.note == note && t.env == env && t.grains == grains
    {
      var value := BendValue(lsb, msb);
      this.(sync := [p.modulate(sync[0], value), p.modulate(sync[1], value)])
    }

    /** The render step (the PWM interrupt). */
    function Render(p: Primitives): (t: Tick)
      requires Shaped()
      ensures t.next.Shaped() && t.next.note == note
    {
      var sync0, sync1 := p.advance(sync[0]), p.advance(sync[1]);
      var g0 := AdvanceGrain(p, Fire(p, sync0, grains[0]));
      var g1 := AdvanceGrain(p, Fire(p, sync1, grains[1]));
      var output := (p.sample(g0) + p.sample(g1)) % 0x1_0000;
      var released := Release(p, note.gate, env);
      Tick(VoiceState(note, released, [sync0, sync1], [TickGrain(p, g0), TickGrain(p, g1)]),
           PwmSample(output, p.level(released)))
    }

    /** n render steps in a row. */
    function RenderN(p: Primitives, n: nat): (t: VoiceState)
      requires Shaped()
      ensures t.Shaped()
    {
      if n == 0 then this else RenderN(p, n - 1).Render(p).next
    }
  }

  // ---------------------------------------------------------------------
  // Properties of the handlers

  /**
   * A sounding note-on opens the gate, records the note, re-arms the
   * release envelope at velocity << 8 with decay 1 and divider 4, and tunes
   * the two sync accumulators 24 and 17 semitones below the note: two
   * different pitches, the second the higher. Nothing else changes.
   */
  lemma NoteOnSounds(s: VoiceState, number: uint8, velocity: uint8)
    requires s.Shaped() && velocity > 0 && NoteOnAllowed(number, velocity)
    ensures var t := s.NoteOn(number, velocity);
      && t.note == Note(Open, number, velocity)
      && t.env == Env(velocity * 256, 1, 4, s.env.internal)
      && t.sync[0] == Phase(MidiTable[number - 24], s.sync[0].internal)
      && t.sync[1] == Phase(MidiTable[number - 17], s.sync[1].internal)
      && t.sync[0].inc < t.sync[1].inc
      && t.grains == s.grains
  {
    MidiTableShape();
  }

  /**
   * The invariant the handlers keep on the note is what makes its tuning
   * lookups safe: for an open gate both midiTable indices, number - 24 and
   * number - 17, lie inside the table.
   */
  lemma {:induction false} OpenNoteTuningInTable(n: Note)
    requires NoteValid(n) && n.gate == Open
    ensures 0 <= n.number - 24 < n.number - 17 < |MidiTable|
  {
    MidiTableLength();
  }

  /** A note-on with velocity 0 is a note-off (the running-status convention). */
  lemma ZeroVelocityIsNoteOff(s: VoiceState, number: uint8)
    requires s.Shaped()
    ensures s.NoteOn(number, 0) == s.NoteOff(number)
  {
  }

  /**
   * A note-off closes the gate exactly when it names the stored note;
   * otherwise the voice is left exactly as it was.
   */
  lemma NoteOffGate(s: VoiceState, number: uint8)
    requires s.Shaped()
    ensures s.NoteOff(number).note.gate == Closed <==> s.note.number == number || s.note.gate == Closed
    ensures s.note.number != number ==> s.NoteOff(number) == s
  {
  }

  /**
   * Note on then note off for the same note: the gate is closed, and the
   * note, velocity, release envelope and tuning of the note-on all stay.
   */
  lemma NoteOnThenOff(s: VoiceState, number: uint8, velocity: uint8)
    requires s.Shaped() && velocity > 0 && NoteOnAllowed(number, velocity)
    ensures var on := s.NoteOn(number, velocity);
      var off := on.NoteOff(number);
      && off.note == Note(Closed, number, velocity)
      && off.env == on.env && off.sync == on.sync && off.grains == on.grains
  {
  }

  /**
   * A note-off for another note leaves a sounding note sounding, and a
   * later note-off for the sounding note still releases it.
   */
  lemma OtherNoteOffKeepsNote(s: VoiceState, number: uint8, velocity: uint8, other: uint8)
    requires s.Shaped() && velocity > 0 && NoteOnAllowed(number, velocity) && other != number
    ensures var on := s.NoteOn(number, velocity);
      && on.NoteOff(other) == on
      && on.NoteOff(other).NoteOff(number).note.gate == Closed
  {
  }

  /**
   * The mod wheel sets the grain decays to value >> 3 and value >> 4 whatever
   * the voice was before (64 gives 8 and 4), and touches nothing else.
   */
  lemma ModWheelSetsDecays(s: VoiceState, value: uint8)
    requires s.Shaped()
    ensures var t := s.ControlChange(1, value);
      && t.grains[0] == s.grains[0].(env := s.grains[0].env.(decay := value / 8))
      && t.grains[1] == s.grains[1].(env := s.grains[1].env.(decay := value / 16))
      && (value == 64 ==> t.grains[0].env.decay == 8 && t.grains[1].env.decay == 4)
      && t.note == s.note && t.env == s.env && t.sync == s.sync
  {
  }

  /** Controllers 16 and 17 tune grain 0 and grain 1 to the chromatic increment of the value. */
  lemma GrainPitchControllers(s: VoiceState, value: uint8)
    requires s.Shaped() && value <= 127
    ensures var t := s.ControlChange(16, value);
      t.grains[0].phase.inc == MidiTable[value] && t.grains[0].env == s.grains[0].env && t.grains[1] == s.grains[1]
    ensures var t := s.ControlChange(17, value);
      t.grains[1].phase.inc == MidiTable[value] && t.grains[1].env == s.grains[1].env && t.grains[0] == s.grains[0]
  {
  }

  /** Any other controller is ignored. */
  lemma OtherControllersIgnored(s: VoiceState, controller: uint8, value: uint8)
    requires s.Shaped() && controller != 1 && controller != 16 && controller != 17
    ensures s.ControlChange(controller, value) == s
  {
  }

  /** Repeating a control change has no further effect. */
  lemma ControlChangeIdempotent(s: VoiceState, controller: uint8, value: uint8)
    requires s.Shaped() && (controller == 16 || controller == 17 ==> value <= 127)
    ensures s.ControlChange(controller, value).ControlChange(controller, value) == s.ControlChange(controller, value)
  {
  }

  /**
   * A pitch-wheel message modulates both sync accumulators by the same
   * 14-bit value, msb * 128 + lsb, and touches nothing else.
   */
  lemma PitchBendModulatesBoth(s: VoiceState, lsb: uint8, msb: uint8, p: Primitives)
    requires s.Shaped() && lsb <= 127 && msb <= 127
    ensures var t := s.PitchBend(lsb, msb, p);
      && t.sync[0] == p.modulate(s.sync[0], msb * 128 + lsb)
      && t.sync[1] == p.modulate(s.sync[1], msb * 128 + lsb)
      && t.note == s.note && t.env == s.env && t.grains == s.grains
  {
  }

  // ---------------------------------------------------------------------
  // Properties of the render step

  /**
   * Grain i is reset exactly when sync accumulator i overflows in this tick,
   * and its next state depends only on its own sync accumulator and its own
   * previous state: not on the gate, the release envelope or the other grain.
   */
  lemma RenderFiresOnOverflow(s: VoiceState, p: Primitives, i: nat)
    requires s.Shaped() && i < 2
    ensures var synced := p.advance(s.sync[i]);
      && s.Render(p).next.sync[i] == synced
      && (p.overflowed(synced) ==> s.Render(p).next.grains[i] == TickGrain(p, AdvanceGrain(p, p.reset(s.grains[i]))))
      && (!p.overflowed(synced) ==> s.Render(p).next.grains[i] == TickGrain(p, AdvanceGrain(p, s.grains[i])))
  {
  }

  /** Two voices that agree on sync accumulator i and grain i agree on grain i after a tick. */
  lemma RenderGrainsIndependent(s: VoiceState, t: VoiceState, p: Primitives, i: nat)
    requires s.Shaped() && t.Shaped() && i < 2
    requires s.sync[i] == t.sync[i] && s.grains[i] == t.grains[i]
    ensures s.Render(p).next.sync[i] == t.Render(p).next.sync[i]
    ensures s.Render(p).next.grains[i] == t.Render(p).next.grains[i]
  {
  }

  /**
   * Over n ticks the note never changes, each sync accumulator is advanced
   * once per tick, and the release envelope is ticked once per tick while
   * the gate is closed and held unchanged while it is open.
   */
  lemma {:induction false} RenderNRelease(s: VoiceState, p: Primitives, n: nat)
    requires s.Shaped()
    ensures s.RenderN(p, n).note == s.note
    ensures s.RenderN(p, n).env == if s.note.gate == Closed then Iterate(p.tick, s.env, n) else s.env
    ensures s.RenderN(p, n).sync == [Iterate(p.advance, s.sync[0], n), Iterate(p.advance, s.sync[1], n)]
  {
    if n > 0 {
      RenderNRelease(s, p, n - 1);
    }
  }

  /** With the release envelope at full level the emitted sample is the grain mix's top byte. */
  lemma RenderFullLevel(s: VoiceState, p: Primitives)
    requires s.Shaped()
    requires p.level(Release(p, s.note.gate, s.env)) == 127
    ensures var g0 := AdvanceGrain(p, Fire(p, p.advance(s.sync[0]), s.grains[0]));
      var g1 := AdvanceGrain(p, Fire(p, p.advance(s.sync[1]), s.grains[1]));
      var output := (p.sample(g0) + p.sample(g1)) % 0x1_0000;
      output < 0x8000 ==> s.Render(p).sample == output / 128
  {
  }

  // ---------------------------------------------------------------------
  // The voice object the handlers and the interrupt share

  /** `voices[0]`: the single voice the handlers and the render step update in place. */
  class Voice {
    var note: Note
    var env: Env
    const sync: array<Phase>
    const grains: array<Grain>

    ghost predicate Valid()
      reads this
    {
      sync.Length == 2 && grains.Length == 2 && NoteValid(note)
    }

    /** The voice as a value. */
    ghost function State(): (s: VoiceState)
      reads this, sync, grains
      requires Valid()
      ensures s.Shaped()
    {
      VoiceState(note, env, sync[..], grains[..])
    }

    /**
     * Static storage: the note is zeroed (gate CLOSED, note 0, velocity 0);
     * the envelope, phases and grains start as their unseen constructors leave them.
     */
    constructor (env0: Env, phase0: Phase, grain0: Grain)
      ensures Valid() && fresh(sync) && fresh(grains)
      ensures State() == VoiceState(Note(Closed, 0, 0), env0, [phase0, phase0], [grain0, grain0])
    {
      note := Note(Closed, 0, 0);
      env := env0;
      sync := new Phase[2](_ => phase0);
      grains := new Grain[2](_ => grain0);
    }

    /** Midi.handlers.noteOn */
    method HandleNoteOn(number: uint8, velocity: uint8)
      requires Valid() && NoteOnAllowed(number, velocity)
      modifies this, sync
      ensures Valid() && State() == old(State()).NoteOn(number, velocity)
    {
      ghost var target := old(State()).NoteOn(number, velocity);
      if velocity > 0 {
        note := note.(number := number);
        note := note.(velocity := velocity);
        note := note.(gate := Open);
        assert note == target.note;

        env := env.(amp := velocity * 256);  // velocity << 8
        env := env.(decay := 1);
        env := env.(divider := 4);
        assert env == target.env;

        MidiTableLength();
        sync[0] := SetInc(sync[0], MidiTable[note.number - 24]);
        sync[1] := SetInc(sync[1], MidiTable[note.number - 17]);
        assert sync[0] == target.sync[0] && sync[1] == target.sync[1];
        assert sync[..] == [sync[0], sync[1]];
        assert grains[..] == target.grains;
      } else if note.number == number {
        note := note.(gate := Closed);
      }
    }

    /** Midi.handlers.noteOff */
    method HandleNoteOff(number: uint8)
      requires Valid()
      modifies this
      ensures Valid() && State() == old(State()).NoteOff(number)
    {
      if note.number == number {
        note := note.(gate := Closed);
      }
    }

    /** Midi.handlers.controlChange */
    method HandleControlChange(controller: uint8, value: uint8)
      requires Valid() && (controller == 16 || controller == 17 ==> value <= 127)
      modifies grains
      ensures Valid() && State() == old(State()).ControlChange(controller, value)
    {
      if controller == 1 {
        // mod wheel
        grains[0] := grains[0].(env := grains[0].env.(decay := value / 8));   // value >> 3
        grains[1] := grains[1].(env := grains[1].env.(decay := value / 16));  // value >> 4
      } else if controller == 16 {
        MidiTableLength();
        grains[0] := grains[0].(phase := SetInc(grains[0].phase, MidiTable[value]));
      } else if controller == 17 {
        MidiTableLength();
        grains[1] := grains[1].(phase := SetInc(grains[1].phase, MidiTable[value]));
      }
    }

    /** Midi.handlers.pitchWheelChange */
    method HandlePitchWheelChange(lsb: uint8, msb: uint8, p: Primitives)
      requires Valid()
      modifies sync
      ensures Valid() && State() == old(State()).PitchBend(lsb, msb, p)
    {
      var value := BendValue(lsb, msb);
      sync[0] := p.modulate(sync[0], value);
      sync[1] := p.modulate(sync[1], value);
    }

    /** ISR(PWM_INTERRUPT): one sample; returns the value written to the PWM register. */
    method Render(p: Primitives) returns (pwm: uint8)
      requires Valid()
      modifies this, sync, grains
      ensures Valid()
      ensures State() == old(State()).Render(p).next
      ensures pwm == old(State()).Render(p).sample
    {
      ghost var before := State();
      sync[0] := p.advance(sync[0]);
      sync[1] := p.advance(sync[1]);

      if p.overflowed(sync[0]) {
        // time to start the next grain
        grains[0] := p.reset(grains[0]);
      }
      if p.overflowed(sync[1]) {
        grains[1] := p.reset(grains[1]);
      }
      assert grains[0] == Fire(p, sync[0], before.grains[0]);
      assert grains[1] == Fire(p, sync[1], before.grains[1]);

      grains[0] := grains[0].(phase := p.advance(grains[0].phase));
      grains[1] := grains[1].(phase := p.advance(grains[1].phase));
      ghost var g0, g1 := grains[0], grains[1];
      assert g0 == AdvanceGrain(p, Fire(p, p.advance(before.sync[0]), before.grains[0]));
      assert g1 == AdvanceGrain(p, Fire(p, p.advance(before.sync[1]), before.grains[1]));

      var output: uint16 := p.sample(grains[0]);
      output := (output + p.sample(grains[1])) % 0x1_0000;

      grains[0] := grains[0].(env := p.tick(grains[0].env));
      grains[1] := grains[1].(env := p.tick(grains[1].env));

      if note.gate == Closed {
        env := p.tick(env);
      }
      assert env == Release(p, before.note.gate, before.env);
      assert sync[..] == [p.advance(before.sync[0]), p.advance(before.sync[1])];
      assert grains[..] == [TickGrain(p, g0), TickGrain(p, g1)];

      pwm := PwmSample(output, p.level(env));
    }
  }
}
