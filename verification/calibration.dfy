/** The linear calibration of a layer: a stored value `v` stands for the
    physical value `v * gain + offset`. A gain within a millionth of one and
    an offset within a millionth of zero count as no calibration at all. */
module Calibration {
  import opened Numeric

  /** How close gain and offset must be to 1 and 0 to be ignored. */
  const Tolerance: real := 0.000001

  /** Whether values must be converted on the way in and out. */
  predicate Calibrated(gain: real, offset: real)
  {
    Abs(gain - 1.0) > Tolerance || Abs(offset) > Tolerance
  }

  function ToPhysical(v: real, gain: real, offset: real): real
  {
    v * gain + offset
  }

  /** The stored value of physical value `v`: the inverse of ToPhysical. */
  function ToStored(v: real, gain: real, offset: real): (r: real)
    requires gain != 0.0
    ensures ToPhysical(r, gain, offset) == v
  {
    (v - offset) / gain
  }

  /** Converting to stored values and back is the identity, and so is the
      other order. */
  lemma StoredOfPhysical(v: real, gain: real, offset: real)
    requires gain != 0.0
    ensures ToStored(ToPhysical(v, gain, offset), gain, offset) == v
  {
  }

  /** The identity calibration is not a calibration, and a gain of zero is. */
  lemma IdentityUncalibrated()
    ensures !Calibrated(1.0, 0.0)
    ensures forall o: real :: Calibrated(0.0, o)
  {
  }

  /** Scaling an error of at most a half scales its bound. */
  lemma ScaledError(g: real, d: real, e: real)
    requires Abs(d) <= 0.5 && e == g * d
    ensures Abs(e) <= Abs(g) / 2.0
  {
    if g >= 0.0 {
      if d >= 0.0 { assert g * d <= g * 0.5; } else { assert g * (-d) <= g * 0.5; }
    } else {
      if d >= 0.0 { assert (-g) * d <= (-g) * 0.5; } else { assert (-g) * (-d) <= (-g) * 0.5; }
    }
  }

  /** Integers less than one apart are equal. */
  lemma CloseIntegers(a: int, b: int)
    requires Abs(a as real - b as real) < 1.0
    ensures a == b
  {
  }

  /** The physical value of a rounded stored value differs from the value
      it came from by the gain times the rounding error. */
  lemma RoundingScaled(v: real, gain: real, offset: real, s: real)
    requires gain != 0.0
    ensures ToPhysical(s, gain, offset) - v == gain * (s - ToStored(v, gain, offset))
  {
    var x := ToStored(v, gain, offset);
    assert x * gain + offset == v;
    assert gain * (s - x) == s * gain - x * gain;
  }

  /** Two errors add up: the second within a half of the first result. */
  lemma TwoErrors(v: int, y: real, back: int, g: real)
    requires Abs(y - v as real) <= Abs(g) / 2.0
    requires Abs(back as real - y) <= 0.5
    ensures Abs(back as real - v as real) <= Abs(g) / 2.0 + 0.5
    ensures Abs(g) < 1.0 ==> back == v
  {
    if Abs(g) < 1.0 {
      CloseIntegers(back, v);
    }
  }

  /** An integer that is written through a calibration and read back is
      rounded twice: the result is off by at most half the gain plus a half,
      and is exact when the gain is below one in magnitude. */
  lemma RoundedRoundTrip(v: int, gain: real, offset: real)
    requires gain != 0.0
    ensures var back := Round(ToPhysical(Round(ToStored(v as real, gain, offset)) as real, gain, offset));
            Abs(back as real - v as real) <= Abs(gain) / 2.0 + 0.5
    ensures Abs(gain) < 1.0 ==> Round(ToPhysical(Round(ToStored(v as real, gain, offset)) as real, gain, offset)) == v
  {
    var x := ToStored(v as real, gain, offset);
    var s := Round(x);
    var y := ToPhysical(s as real, gain, offset);
    RoundingScaled(v as real, gain, offset, s as real);
    ScaledError(gain, s as real - x, y - v as real);
    TwoErrors(v, y, Round(y), gain);
  }
}
