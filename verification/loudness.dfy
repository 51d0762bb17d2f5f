/** The global loudness value set by the amplitude tap handler of
    AudioAnalyzer (DiscoGlobe/ViewController.swift:327-329): the square of
    the tap's amplitude reading, clamped to [0, 5]. */
module Loudness {

  /** Upper clamp of the global amplitude. */
  const MaxGlobalAmp: real := 5.0

  function Min(a: real, b: real): real {
    if a <= b then a else b
  }

  function Max(a: real, b: real): real {
    if a >= b then a else b
  }

  /** max(min(res^2, 5), 0): the squared reading when it is at most 5,
      otherwise 5; never negative. */
  function GlobalAmp(res: real): (g: real)
    ensures 0.0 <= g <= MaxGlobalAmp
    ensures res * res <= MaxGlobalAmp ==> g == res * res
    ensures res * res >= MaxGlobalAmp ==> g == MaxGlobalAmp
  {
    Max(Min(res * res, MaxGlobalAmp), 0.0)
  }

  /** Silence gives 0, and the sign of the reading does not matter. */
  lemma GlobalAmpSilenceAndSign(res: real)
    ensures GlobalAmp(0.0) == 0.0
    ensures GlobalAmp(-res) == GlobalAmp(res)
  {
    assert (-res) * (-res) == res * res;
  }

  /** Squaring is monotone on magnitudes. */
  lemma SquareMonotone(x: real, y: real)
    requires 0.0 <= x <= y
    ensures x * x <= y * y
  {
    assert x * x <= x * y;
    assert x * y <= y * y;
  }

  /** The magnitude of a reading. */
  function Abs(x: real): real {
    if x < 0.0 then -x else x
  }

  /** The global amplitude never decreases as the reading grows in magnitude. */
  lemma GlobalAmpMonotone(x: real, y: real)
    requires Abs(x) <= Abs(y)
    ensures GlobalAmp(x) <= GlobalAmp(y)
  {
    SquareMonotone(Abs(x), Abs(y));
    assert Abs(x) * Abs(x) == x * x by {
      if x < 0.0 {
        assert Abs(x) * Abs(x) == (-x) * (-x);
      }
    }
    assert Abs(y) * Abs(y) == y * y by {
      if y < 0.0 {
        assert Abs(y) * Abs(y) == (-y) * (-y);
      }
    }
  }
}
