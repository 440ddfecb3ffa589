/**
 * Conversion of a physical value into the 16-bit word a register holds:
 * divide by the register's scale, truncate toward zero, add 2^16 to a
 * negative result, then clamp into [0, 65535].
 */
module Encoding {

  const WordModulus := 65536  // 1 << 16
  const MaxWord := 65535

  /** Python's `int()` on a float: truncation toward zero. */
  function Trunc(x: real): (n: int)
    ensures 0.0 <= x ==> n as real <= x < n as real + 1.0
    ensures x < 0.0 ==> n as real - 1.0 < x <= n as real
  {
    if x >= 0.0 then x.Floor else -((-x).Floor)
  }

  /**
   * Shift a negative raw value by 2^16, then clamp into [0, 65535]. The clamp
   * comes after the shift, so it is not a signed clamp: raw values above 65535
   * saturate at 65535 and raw values below -65536 become 0.
   */
  function ToWord(raw: int): (w: int)
    ensures 0 <= w <= MaxWord
    ensures 0 <= raw <= MaxWord ==> w == raw
    ensures -WordModulus <= raw < 0 ==> w == raw + WordModulus
    ensures MaxWord < raw ==> w == MaxWord
    ensures raw < -WordModulus ==> w == 0
  {
    var shifted := if raw < 0 then WordModulus + raw else raw;
    if shifted < 0 then 0 else if shifted > MaxWord then MaxWord else shifted
  }

  /**
   * The word written for `value` in a register whose scale is `scale`: the
   * whole part of `value / scale` when that fits an unsigned word, its two's
   * complement when it is a negative whole part down to -65535, and a
   * saturated word otherwise.
   */
  function EncodeRegister(value: real, scale: real): (w: int)
    requires scale != 0.0
    ensures 0 <= w <= MaxWord
    ensures 0.0 <= value / scale < 65536.0 ==> w as real <= value / scale < w as real + 1.0
    ensures -65536.0 < value / scale <= -1.0 ==>
              (w - WordModulus) as real - 1.0 < value / scale <= (w - WordModulus) as real
    ensures -1.0 < value / scale < 0.0 ==> w == 0
    ensures 65536.0 <= value / scale ==> w == MaxWord
    ensures value / scale <= -65536.0 ==> w == 0
  {
    var scaled := Trunc(value / scale);
    ToWord(scaled)
  }

  /** The steps of one register write, in order: scale and truncate, shift a negative, clamp. */
  method ScaleToWord(value: real, scale: real) returns (scaledValue: int)
    requires scale != 0.0
    ensures scaledValue == EncodeRegister(value, scale)
  {
    scaledValue := Trunc(value / scale);
    if scaledValue < 0 {
      scaledValue := WordModulus + scaledValue;
    }
    scaledValue := if scaledValue < 0 then 0 else if scaledValue > MaxWord then MaxWord else scaledValue;
  }

  /** How a client reads a word back as a signed 16-bit quantity. */
  function Signed16(w: int): (v: int)
    requires 0 <= w <= MaxWord
    ensures -32768 <= v <= 32767
    ensures v == w || v == w - WordModulus
  {
    if w >= 32768 then w - WordModulus else w
  }

  /** Every raw value in the signed 16-bit range survives encoding and signed decoding. */
  lemma SignedRoundTrip(raw: int)
    requires -32768 <= raw <= 32767
    ensures Signed16(ToWord(raw)) == raw
  {
    if raw < 0 {
      assert ToWord(raw) == raw + WordModulus;
    }
  }

  /** Truncation loses less than one unit: |x - Trunc(x)| < 1. */
  lemma TruncWithinOne(x: real)
    ensures -1.0 < x - Trunc(x) as real < 1.0
  {
  }

  /**
   * Decoding a word as signed and multiplying by the scale gives back the
   * physical value within one unit of the register's resolution, whenever the
   * truncated raw value lies in the signed 16-bit range.
   */
  lemma DecodeWithinResolution(value: real, scale: real)
    requires scale > 0.0
    requires -32768 <= Trunc(value / scale) <= 32767
    ensures -scale < value - Signed16(EncodeRegister(value, scale)) as real * scale < scale
  {
    var t := Trunc(value / scale);
    SignedRoundTrip(t);
    TruncWithinOne(value / scale);
    ResolutionBound(value, scale, t as real);
  }

  lemma ResolutionBound(value: real, scale: real, t: real)
    requires scale > 0.0
    requires -1.0 < value / scale - t < 1.0
    ensures -scale < value - t * scale < scale
  {
    var d := value / scale - t;
    ErrorScales(d, scale);
    assert -scale < d * scale;
    Distribute(value, t, scale);
    assert d * scale == value - t * scale;
  }

  lemma ErrorScales(d: real, scale: real)
    requires -1.0 < d < 1.0 && scale > 0.0
    ensures -scale < d * scale < scale
  {
  }

  lemma Distribute(value: real, t: real, scale: real)
    requires scale > 0.0
    ensures (value / scale - t) * scale == value - t * scale
  {
    assert (value / scale) * scale == value;
  }

  /** 230.0 V at scale 0.1 is stored as 2300 (0x08FC). */
  lemma EncodeVoltageExample()
    ensures EncodeRegister(230.0, 0.1) == 2300
  {
    assert 230.0 / 0.1 == 2300.0;
  }

  /** -5.000 A at scale 0.001 has raw value -5000 and is stored as 60536 (0xEC78). */
  lemma EncodeNegativeCurrentExample()
    ensures EncodeRegister(-5.0, 0.001) == 60536
    ensures Signed16(60536) == -5000
  {
    assert -5.0 / 0.001 == -5000.0;
    assert Trunc(-5000.0) == -5000;
  }
}
