/**
 * The three frequency mappers of the synthesiser: each turns a 10-bit analog
 * reading (0..1023) into a 16-bit phase increment through a constant table.
 *
 * - `MapPhaseInc`: smooth logarithmic mapping, an antilog table of one octave
 *   plus a right shift per octave;
 * - `MapMidi`: stepped chromatic mapping, eight readings per MIDI note;
 * - `MapPentatonic`: stepped mapping onto a D-E-G-A-B scale.
 *
 * The tables are written in rows (the solver reasons about short literal
 * sequences far better than long ones); each table is the concatenation of
 * its rows.
 */
module FrequencyMap {
  import opened Fixed

  // ---------------------------------------------------------------------
  // Ordered sequences

  /** Every element is below its successor. */
  ghost predicate StepsUp(s: seq<int>) {
    forall i :: 0 <= i < |s| - 1 ==> s[i] < s[i + 1]
  }

  /** Every element is above its successor. */
  ghost predicate StepsDown(s: seq<int>) {
    forall i :: 0 <= i < |s| - 1 ==> s[i] > s[i + 1]
  }

  /** Strictly increasing: earlier elements are smaller. */
  ghost predicate Increasing(s: seq<int>) {
    forall i, j :: 0 <= i < j < |s| ==> s[i] < s[j]
  }

  /** Strictly decreasing: earlier elements are larger. */
  ghost predicate Decreasing(s: seq<int>) {
    forall i, j :: 0 <= i < j < |s| ==> s[i] > s[j]
  }

  lemma {:induction false} StepsUpPair(s: seq<int>, i: nat, j: nat)
    requires StepsUp(s) && i < j < |s|
    ensures s[i] < s[j]
    decreases j - i
  {
    if i + 1 < j {
      StepsUpPair(s, i, j - 1);
    }
  }

  lemma {:induction false} StepsDownPair(s: seq<int>, i: nat, j: nat)
    requires StepsDown(s) && i < j < |s|
    ensures s[i] > s[j]
    decreases j - i
  {
    if i + 1 < j {
      StepsDownPair(s, i, j - 1);
    }
  }

  /** Two increasing runs joined at an increasing seam form an increasing run. */
  lemma StepsUpAppend(a: seq<int>, b: seq<int>)
    requires StepsUp(a) && StepsUp(b) && a != [] && b != [] && a[|a| - 1] < b[0]
    ensures StepsUp(a + b)
  {
    forall i | 0 <= i < |a + b| - 1
      ensures (a + b)[i] < (a + b)[i + 1]
    {
      if i + 1 < |a| {
        assert (a + b)[i] == a[i] && (a + b)[i + 1] == a[i + 1];
      } else if i + 1 == |a| {
        assert (a + b)[i] == a[|a| - 1] && (a + b)[i + 1] == b[0];
      } else {
        assert (a + b)[i] == b[i - |a|] && (a + b)[i + 1] == b[i - |a| + 1];
      }
    }
  }

  /** Two decreasing runs joined at a decreasing seam form a decreasing run. */
  lemma StepsDownAppend(a: seq<int>, b: seq<int>)
    requires StepsDown(a) && StepsDown(b) && a != [] && b != [] && a[|a| - 1] > b[0]
    ensures StepsDown(a + b)
  {
    forall i | 0 <= i < |a + b| - 1
      ensures (a + b)[i] > (a + b)[i + 1]
    {
      if i + 1 < |a| {
        assert (a + b)[i] == a[i] && (a + b)[i + 1] == a[i + 1];
      } else if i + 1 == |a| {
        assert (a + b)[i] == a[|a| - 1] && (a + b)[i + 1] == b[0];
      } else {
        assert (a + b)[i] == b[i - |a|] && (a + b)[i + 1] == b[i - |a| + 1];
      }
    }
  }

  // ---------------------------------------------------------------------
  // Smooth logarithmic mapping

  const AntilogRow0: seq<uint16> :=
    [64830, 64132, 63441, 62757, 62081, 61413, 60751, 60097, 59449, 58809, 58176, 57549, 56929, 56316, 55709, 55109]
  const AntilogRow1: seq<uint16> :=
    [54515, 53928, 53347, 52773, 52204, 51642, 51085, 50535, 49991, 49452, 48920, 48393, 47871, 47356, 46846, 46341]
  const AntilogRow2: seq<uint16> :=
    [45842, 45348, 44859, 44376, 43898, 43425, 42958, 42495, 42037, 41584, 41136, 40693, 40255, 39821, 39392, 38968]
  const AntilogRow3: seq<uint16> :=
    [38548, 38133, 37722, 37316, 36914, 36516, 36123, 35734, 35349, 34968, 34591, 34219, 33850, 33486, 33125, 32768]

  /** antilogTable: one octave of antilog values, from 64830 down to 2^15. */
  const AntilogTable: seq<uint16> := AntilogRow0 + AntilogRow1 + AntilogRow2 + AntilogRow3

  /** The antilog table has 64 strictly decreasing entries spanning 32768..64830. */
  lemma AntilogTableShape()
    ensures |AntilogTable| == 64 && Decreasing(AntilogTable)
    ensures AntilogTable[0] == 64830 && AntilogTable[63] == 32768
  {
    StepsDownAppend(AntilogRow0, AntilogRow1);
    StepsDownAppend(AntilogRow0 + AntilogRow1, AntilogRow2);
    StepsDownAppend(AntilogRow0 + AntilogRow1 + AntilogRow2, AntilogRow3);
    forall i, j | 0 <= i < j < |AntilogTable|
      ensures AntilogTable[i] > AntilogTable[j]
    {
      StepsDownPair(AntilogTable, i, j);
    }
  }

  /** Entries further along the antilog table are smaller. */
  lemma AntilogOrder(i: nat, j: nat)
    requires i <= j < 64
    ensures 32768 <= AntilogTable[j] <= AntilogTable[i] <= 64830
  {
    AntilogTableShape();
  }

  /**
   * mapPhaseInc: the low six bits of the reading (`input & 0x3f`) pick an
   * antilog entry, the high bits (`input >> 6`) say how many octaves to shift
   * it down. A 10-bit reading keeps that shift below 16, the width of the
   * target's `unsigned int`; a wider shift is undefined in C.
   */
  function MapPhaseInc(input: uint16): (r: uint16)
    requires input <= 1023
    ensures 1 <= r <= 64830
  {
    var entry, shift := AntilogTable[input % 64], input / 64;
    // entry >= 2^15 >= 2^shift, so at least 1 is left
    AntilogOrder(0, input % 64);
    AntilogOrder(input % 64, 63);
    Pow2Monotone(shift, 15);
    Pow2Fifteen();
    ShrPositive(entry, shift);
    Shr(entry, shift)
  }

  /**
   * For a 10-bit reading the table index lies in 0..63 and the shift
   * distance in 0..15, below the 16-bit width of the shifted operand.
   */
  lemma MapPhaseIncShiftInRange(input: uint16)
    requires input <= 1023
    ensures 0 <= input % 64 < |AntilogTable| && input / 64 <= 15
    ensures input / 64 == 15 <==> input >= 960
  {
    AntilogTableShape();
  }

  /** The increment is the antilog entry divided by 2 to the power of the octave, rounded down. */
  lemma MapPhaseIncIsShift(input: uint16)
    requires input <= 1023
    ensures MapPhaseInc(input) == AntilogTable[input % 64] / Pow2(input / 64)
  {
    ShrIsDivision(AntilogTable[input % 64], input / 64);
  }

  /** A larger reading never gives a larger increment: the mapping is monotone, falling. */
  lemma MapPhaseIncMonotone(i: uint16, j: uint16)
    requires i <= j <= 1023
    ensures MapPhaseInc(j) <= MapPhaseInc(i)
  {
    AntilogOrder(i % 64, 63);
    AntilogOrder(0, j % 64);
    if i / 64 == j / 64 {
      AntilogOrder(i % 64, j % 64);
    }
    OctaveShiftOrder(AntilogTable[i % 64], AntilogTable[j % 64], i / 64, j / 64);
  }

  /**
   * Two entries of one octave (2^15..2^16), shifted down by octave numbers
   * qi <= qj: the later octave never gives more, and within one octave the
   * smaller entry gives no more.
   */
  lemma OctaveShiftOrder(ei: nat, ej: nat, qi: nat, qj: nat)
    requires 32768 <= ei && ej < 65536 && qi <= qj
    requires qi == qj ==> ej <= ei
    ensures Shr(ej, qj) <= Shr(ei, qi)
  {
    if qi == qj {
      ShrMonotone(ej, ei, qi);
    } else {
      // one octave further down already falls below every entry of octave qi
      ShrAntitone(ej, qi + 1, qj);
      assert Shr(ej, qi + 1) == Shr(ej / 2, qi);
      ShrMonotone(ej / 2, ei, qi);
    }
  }

  /** The mapping spans 64830 (reading 0) down to 1 (reading 1023). */
  lemma MapPhaseIncEndpoints()
    ensures MapPhaseInc(0) == 64830
    ensures MapPhaseInc(1023) == 1
  {
    AntilogTableShape();
    Pow2Fifteen();
    ShrIsDivision(32768, 15);
  }

  // ---------------------------------------------------------------------
  // Stepped chromatic mapping

  const MidiRow0: seq<uint16> :=
    [17, 18, 19, 20, 22, 23, 24, 26, 27, 29, 31, 32, 34, 36, 38, 41]
  const MidiRow1: seq<uint16> :=
    [43, 46, 48, 51, 54, 58, 61, 65, 69, 73, 77, 82, 86, 92, 97, 103]
  const MidiRow2: seq<uint16> :=
    [109, 115, 122, 129, 137, 145, 154, 163, 173, 183, 194, 206, 218, 231, 244, 259]
  const MidiRow3: seq<uint16> :=
    [274, 291, 308, 326, 346, 366, 388, 411, 435, 461, 489, 518, 549, 581, 616, 652]
  const MidiRow4: seq<uint16> :=
    [691, 732, 776, 822, 871, 923, 978, 1036, 1097, 1163, 1232, 1305, 1383, 1465, 1552, 1644]
  const MidiRow5: seq<uint16> :=
    [1742, 1845, 1955, 2071, 2195, 2325, 2463, 2610, 2765, 2930, 3104, 3288, 3484, 3691, 3910, 4143]
  const MidiRow6: seq<uint16> :=
    [4389, 4650, 4927, 5220, 5530, 5859, 6207, 6577, 6968, 7382, 7821, 8286, 8779, 9301, 9854, 10440]
  const MidiRow7: seq<uint16> :=
    [11060, 11718, 12415, 13153, 13935, 14764, 15642, 16572, 17557, 18601, 19708, 20879, 22121, 23436, 24830, 26306]

  /**
   * midiTable: the phase increment of each MIDI note 0..127 at a 31250 Hz
   * sample rate and a 16-bit accumulator, rounded (the values listed beside
   * the table in the source).
   */
  const MidiTable: seq<uint16> := MidiLow + MidiHigh

  /** Notes 0..63 and 64..127. */
  const MidiLow: seq<uint16> := MidiRow0 + MidiRow1 + MidiRow2 + MidiRow3
  const MidiHigh: seq<uint16> := MidiRow4 + MidiRow5 + MidiRow6 + MidiRow7

  lemma MidiLowStepsUp()
    ensures |MidiLow| == 64 && StepsUp(MidiLow) && MidiLow[0] == 17 && MidiLow[63] == 652
  {
    StepsUpAppend(MidiRow0, MidiRow1);
    StepsUpAppend(MidiRow0 + MidiRow1, MidiRow2);
    StepsUpAppend(MidiRow0 + MidiRow1 + MidiRow2, MidiRow3);
  }

  lemma MidiHighStepsUp()
    ensures |MidiHigh| == 64 && StepsUp(MidiHigh) && MidiHigh[0] == 691 && MidiHigh[63] == 26306
  {
    StepsUpAppend(MidiRow4, MidiRow5);
    StepsUpAppend(MidiRow4 + MidiRow5, MidiRow6);
    StepsUpAppend(MidiRow4 + MidiRow5 + MidiRow6, MidiRow7);
  }

  lemma MidiTableLength()
    ensures |MidiTable| == 128
  {
  }

  /** One strictly increasing entry per MIDI note, from 17 (note 0) to 26306 (note 127). */
  lemma MidiTableShape()
    ensures |MidiTable| == 128 && Increasing(MidiTable)
    ensures MidiTable[0] == 17 && MidiTable[127] == 26306
  {
    MidiLowStepsUp();
    MidiHighStepsUp();
    StepsUpAppend(MidiLow, MidiHigh);
    forall i, j | 0 <= i < j < |MidiTable|
      ensures MidiTable[i] < MidiTable[j]
    {
      StepsUpPair(MidiTable, i, j);
    }
  }

  /**
   * The table index of mapMidi, `(1023 - input) >> 3`, with the subtraction
   * done in 16-bit unsigned arithmetic. It is in bounds exactly for 10-bit
   * readings, where readings 8k..8k+7 select note 127 - k.
   */
  function MidiIndex(input: uint16): (i: nat)
    ensures i < 128 <==> input <= 1023
    ensures input <= 1023 ==> i == 127 - input / 8
  {
    var diff := (1023 - input) % 0x1_0000;
    assert diff == if input <= 1023 then 1023 - input else 0x1_0000 + 1023 - input;
    assert input == 8 * (input / 8) + input % 8;
    diff / 8
  }

  /** mapMidi: the chromatic mapping, highest note at reading 0. */
  function MapMidi(input: uint16): (r: uint16)
    requires input <= 1023
    ensures 17 <= r <= 26306
    ensures r == MidiTable[127 - input / 8]
  {
    MidiTableShape();
    MidiTable[MidiIndex(input)]
  }

  /** Reading 0 gives note 127, reading 1023 gives note 0. */
  lemma MapMidiEndpoints()
    ensures MapMidi(0) == MidiTable[127] == 26306
    ensures MapMidi(1023) == MidiTable[0] == 17
  {
    MidiTableShape();
  }

  /** A larger reading never selects a higher note. */
  lemma MapMidiMonotone(i: uint16, j: uint16)
    requires i <= j <= 1023
    ensures MidiIndex(j) <= MidiIndex(i)
    ensures MapMidi(j) <= MapMidi(i)
  {
    MidiTableShape();
    if MidiIndex(j) < MidiIndex(i) {
      assert MidiTable[MidiIndex(j)] < MidiTable[MidiIndex(i)];
    }
  }

  // ---------------------------------------------------------------------
  // Stepped pentatonic mapping

  const PentatonicRow0: seq<uint16> :=
    [0, 19, 22, 26, 29, 32, 38, 43, 51, 58, 65, 77, 86, 103, 115, 129, 154, 173, 206, 231, 259, 308, 346]
  const PentatonicRow1: seq<uint16> :=
    [411, 461, 518, 616, 691, 822, 923, 1036, 1232, 1383, 1644, 1845, 2071, 2463, 2765, 3288]
  const PentatonicRow2: seq<uint16> :=
    [3691, 4143, 4927, 5530, 6577, 7382, 8286, 9854, 11060, 13153, 14764, 16572, 19708, 22121, 26306]

  /** pentatonicTable: 0 (silence) followed by the increments of a D-E-G-A-B scale. */
  const PentatonicTable: seq<uint16> := PentatonicRow0 + PentatonicRow1 + PentatonicRow2

  /** 54 strictly increasing entries, from 0 to 26306. */
  lemma PentatonicTableShape()
    ensures |PentatonicTable| == 54 && Increasing(PentatonicTable)
    ensures PentatonicTable[0] == 0 && PentatonicTable[53] == 26306
  {
    StepsUpAppend(PentatonicRow0, PentatonicRow1);
    StepsUpAppend(PentatonicRow0 + PentatonicRow1, PentatonicRow2);
    forall i, j | 0 <= i < j < |PentatonicTable|
      ensures PentatonicTable[i] < PentatonicTable[j]
    {
      StepsUpPair(PentatonicTable, i, j);
    }
  }

  /**
   * The table index of mapPentatonic, `(uint8_t)((1023 - input) * 53 >> 10)`:
   * the subtraction and the product wrap at 16 bits, the shift divides by
   * 1024 and the assignment truncates to 8 bits. For a 10-bit reading
   * nothing wraps and the index is at most 52.
   */
  function PentatonicIndex(input: uint16): (i: uint8)
    ensures input <= 1023 ==> i == (1023 - input) * 53 / 1024 <= 52
  {
    var diff := (1023 - input) % 0x1_0000;
    var product := (diff * 53) % 0x1_0000;
    assert input <= 1023 ==> diff == 1023 - input;
    assert input <= 1023 ==> product == diff * 53;
    assert input <= 1023 ==> product / 1024 <= 52;
    (product / 1024) % 0x100
  }

  /** Past 1023 the 16-bit wrap makes the index leave the table. */
  lemma PentatonicIndexWraps()
    ensures PentatonicIndex(1024) == 63
  {
  }

  /**
   * mapPentatonic: the pentatonic mapping. Its index never reaches 53, so the
   * last table entry is never returned.
   */
  function MapPentatonic(input: uint16): (r: uint16)
    requires input <= 1023
    ensures r == PentatonicTable[(1023 - input) * 53 / 1024]
    ensures r < PentatonicTable[53]
    ensures exists k :: 0 <= k <= 52 && r == PentatonicTable[k]
  {
    PentatonicTableShape();
    var i := PentatonicIndex(input);
    assert PentatonicTable[i] < PentatonicTable[53];
    PentatonicTable[i]
  }

  /** Reading 1023 gives silence (increment 0), reading 0 the highest reachable step. */
  lemma MapPentatonicEndpoints()
    ensures MapPentatonic(1023) == 0
    ensures MapPentatonic(0) == PentatonicTable[52] == 22121
  {
    PentatonicTableShape();
  }

  /** A larger reading never selects a higher step. */
  lemma MapPentatonicMonotone(i: uint16, j: uint16)
    requires i <= j <= 1023
    ensures PentatonicIndex(j) <= PentatonicIndex(i)
    ensures MapPentatonic(j) <= MapPentatonic(i)
  {
    PentatonicTableShape();
    var di, dj := 1023 - i, 1023 - j;
    assert dj * 53 <= di * 53;
    if PentatonicIndex(j) < PentatonicIndex(i) {
      assert PentatonicTable[PentatonicIndex(j)] < PentatonicTable[PentatonicIndex(i)];
    }
  }
}
