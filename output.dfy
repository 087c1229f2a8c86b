/**
 * The last stage of the per-sample render step: the 16-bit grain mix is
 * re-centred to a signed byte, scaled by the release envelope's level and
 * biased back to the unsigned 8-bit PWM duty cycle.
 *
 * The signed arithmetic runs in the target's 16-bit `int`; `>>` of a
 * negative value is an arithmetic shift, i.e. division rounding toward
 * negative infinity, which is what Dafny's `/` does for a positive divisor.
 */
module Output {
  import opened Fixed

  /** The release envelope's level as `Env::value()` reports it: 0..127. */
  type Level = v: int | 0 <= v <= 127

  /**
   * `static_cast<uint8_t>(output >> 7) - 128`: the top bits of the grain mix,
   * truncated to a byte and re-centred on zero. Below 0x8000 this is the
   * mix's top eight of fifteen bits; from 0x8000 on the truncation drops
   * the ninth bit and the value wraps round.
   */
  function ScaledOutput(output: uint16): (s: int8)
    ensures output < 0x8000 ==> s == output / 128 - 128
    ensures output >= 0x8000 ==> s == output / 128 - 384
  {
    (output / 128) % 0x100 - 128
  }

  /** Bounds of the product of a signed byte and a level. */
  lemma ProductBounds(s: int8, v: Level)
    ensures -128 * v <= s * v <= 127 * v
  {
    if s >= 0 {
      assert s * v <= 127 * v by { MulLe(s, 127, v); }
    } else {
      assert -(s as int) * v <= 128 * v by { MulLe(-(s as int), 128, v); }
    }
  }

  /**
   * `scaled_output_x2 = mulsu(scaled_output, 2); scaled_output_x2 += scaled_output_x2 * value`:
   * twice the sample times (level + 1). Each intermediate value fits the
   * 16-bit `int`: the extremes are -32768 (sample -128, level 127) and
   * 32512 (sample 127, level 127).
   */
  function Amplified(s: int8, v: Level): (x: int16)
    ensures x == 2 * s * (v + 1)
    ensures -32768 <= x <= 32512
  {
    ProductBounds(s, v);
    var x2: int16 := 2 * s;
    assert x2 * v == 2 * (s * v);
    var product: int16 := x2 * v;
    assert 2 * s * (v + 1) == x2 + product;
    x2 + product
  }

  /**
   * `static_cast<uint8_t>(scaled_output_x2 >> 8) + 128`, stored in the 8-bit
   * duty-cycle register: the sample scaled by (2 * level + 2) / 256, rounded
   * down, and biased back to 0..255.
   */
  function GainStage(s: int8, v: Level): (r: uint8)
    ensures r == s * (2 * v + 2) / 256 + 128
  {
    var x := Amplified(s, v);
    Distribute(s, v);
    var shifted := x / 256;
    assert -128 <= shifted <= 127;
    assert shifted < 0 ==> shifted % 0x100 == shifted + 0x100;
    assert shifted >= 0 ==> shifted % 0x100 == shifted;
    (shifted % 0x100 + 128) % 0x100
  }

  lemma Distribute(s: int, v: int)
    ensures 2 * s * (v + 1) == s * (2 * v + 2)
  {
  }

  /** The sample the render step emits for a grain mix and a release level. */
  function PwmSample(output: uint16, v: Level): (r: uint8)
    ensures r == GainStage(ScaledOutput(output), v)
    ensures output < 0x8000 && v == 127 ==> r == output / 128
  {
    UnityGain(ScaledOutput(output));
    GainStage(ScaledOutput(output), v)
  }

  /** At full level (127) the stage passes the sample through unchanged. */
  lemma UnityGain(s: int8)
    ensures GainStage(s, 127) == s + 128
  {
    assert s * 256 / 256 == s;
  }

  /** At level 0 only the sign of the sample survives: 127 below centre, 128 from centre up. */
  lemma ZeroLevelGain(s: int8)
    ensures GainStage(s, 0) == if s < 0 then 127 else 128
  {
  }

  /** The stage attenuates: the result lies between the centre and the unscaled sample. */
  lemma GainAttenuates(s: int8, v: Level)
    ensures s >= 0 ==> 128 <= GainStage(s, v) <= s + 128
    ensures s < 0 ==> s + 128 <= GainStage(s, v) <= 127
  {
    var g := 2 * v + 2;
    if s >= 0 {
      MulLe(s, s, g);
      MulLe(g, 256, s);
      assert 0 <= s * g <= s * 256;
    } else {
      MulLe(g, 256, -(s as int));
      assert s * 256 <= s * g < 0;
    }
  }

  /** A larger sample never gives a smaller output, at any level. */
  lemma GainMonotoneInSample(s: int8, t: int8, v: Level)
    requires s <= t
    ensures GainStage(s, v) <= GainStage(t, v)
  {
    var g := 2 * v + 2;
    MulLe(0, t - s, g);
    assert t * g - s * g == (t - s) * g;
  }

  /** A higher level moves the output further from the centre, never closer. */
  lemma GainMonotoneInLevel(s: int8, v: Level, w: Level)
    requires v <= w
    ensures s >= 0 ==> GainStage(s, v) <= GainStage(s, w)
    ensures s < 0 ==> GainStage(s, w) <= GainStage(s, v)
  {
    var a, b := s * (2 * v + 2), s * (2 * w + 2);
    if s >= 0 {
      MulLe(2 * v + 2, 2 * w + 2, s);
      assert a <= b;
    } else {
      MulLe(2 * v + 2, 2 * w + 2, -(s as int));
      assert b <= a;
    }
  }
}
