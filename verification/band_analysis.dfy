/** The per-frame band analysis done by the FFT tap handler of AudioAnalyzer
    (DiscoGlobe/ViewController.swift:302-323): the interleaved FFT buffer is
    walked in (real, imag) pairs, each pair's decibel value is added into its
    band, the bands are divided by SampleCount and then min/max-normalised. */
module BandAnalysis {
  import opened Constants
  import opened Runtime

  /** The magnitude-to-decibel step of one FFT bin: dB(re, im) stands for
      20 * log10(2 * sqrt(re * re + im * im) / FftSize). It is a parameter,
      so every property below holds whatever it computes. */
  type DecibelFn = (real, real) -> real

  /** The analyzer's band array, which always has FrequencySplit elements. */
  type Bands = s: seq<real> | |s| == FrequencySplit witness seq(FrequencySplit, _ => 0.0)

  /** Added to the max-min spread so the normalising division is never by zero. */
  const Epsilon: real := 0.001

  /** Number of (real, imag) pairs that land in one band. */
  const PairsPerBand: nat := SampleCount / 2

  /** Number of iterations of the stride loop: one per pair. */
  const PairCount: nat := FftSize / 2

  /** The band credited with the pair whose real part sits at element `index`. */
  function BandOf(index: nat): nat {
    index / SampleCount
  }

  /** Element indices of the pairs credited to band b, in loop order. */
  function BandPairStarts(b: nat): seq<nat> {
    seq(PairsPerBand, j requires 0 <= j < PairsPerBand => SampleCount * b + 2 * j)
  }

  /** Every even index of the loop reads two in-bounds elements and lands in
      a valid band; each band receives exactly PairsPerBand = 16 distinct
      pairs, namely BandPairStarts(b). */
  lemma PairIndexing(b: nat)
    requires b < FrequencySplit
    ensures PairsPerBand == 16 && |BandPairStarts(b)| == PairsPerBand
    ensures forall j, k :: 0 <= j < k < PairsPerBand ==> BandPairStarts(b)[j] < BandPairStarts(b)[k]
    ensures forall index: nat :: index < FftSize && index % 2 == 0 ==>
              index + 1 < FftSize && BandOf(index) < FrequencySplit
    ensures forall index: nat :: index < FftSize && index % 2 == 0 ==>
              (BandOf(index) == b <==> index in BandPairStarts(b))
  {
    assert SampleCount == 32 && PairsPerBand == 16;
    forall index: nat | index < FftSize && index % 2 == 0
      ensures index + 1 < FftSize && BandOf(index) < FrequencySplit
      ensures BandOf(index) == b <==> index in BandPairStarts(b)
    {
      BandOfRange(index);
      if BandOf(index) == b {
        var j := (index - 32 * b) / 2;
        assert 2 * j == index - 32 * b;
        assert BandPairStarts(b)[j] == index;
      }
      if index in BandPairStarts(b) {
        var j :| 0 <= j < 16 && BandPairStarts(b)[j] == index;
        BandOfUnique(index, b);
      }
    }
  }

  /** An index lies in band q exactly when it lies between the multiples q and q + 1 of SampleCount. */
  lemma BandOfUnique(index: nat, q: nat)
    requires SampleCount * q <= index < SampleCount * q + SampleCount
    ensures BandOf(index) == q
  {
    assert SampleCount == 32;
  }

  /** The band of an element index is where the index lies between multiples of SampleCount. */
  lemma BandOfRange(index: nat)
    ensures SampleCount * BandOf(index) <= index < SampleCount * BandOf(index) + SampleCount
    ensures index < FftSize ==> BandOf(index) < FrequencySplit
  {
    assert SampleCount == 32;
  }

  /** The decibel value of the pair whose real part sits at element `index`. */
  function PairDb(fft: seq<real>, dB: DecibelFn, index: nat): real
    requires index + 1 < |fft|
  {
    dB(fft[index], fft[index + 1])
  }

  /** Reference definition, band by band: the sum of the decibel values of
      the first m pairs of band b. */
  function BandPartialSum(fft: seq<real>, dB: DecibelFn, b: nat, m: nat): real
    requires |fft| >= FftSize && b < FrequencySplit && m <= PairsPerBand
  {
    if m == 0 then 0.0
    else BandPartialSum(fft, dB, b, m - 1) + PairDb(fft, dB, SampleCount * b + 2 * (m - 1))
  }

  /** The sum of the decibel values of all pairs of band b. */
  function BandSum(fft: seq<real>, dB: DecibelFn, b: nat): real
    requires |fft| >= FftSize && b < FrequencySplit
  {
    BandPartialSum(fft, dB, b, PairsPerBand)
  }

  /** How many of the first k loop iterations credit band b. */
  function Credited(b: nat, k: nat): nat {
    if k <= PairsPerBand * b then 0
    else if k >= PairsPerBand * (b + 1) then PairsPerBand
    else k - PairsPerBand * b
  }

  /** Iteration k (0-based, element index 2k) credits band k / 16 and no
      other, and it is that band's next pair in BandPairStarts order. */
  lemma CreditStep(k: nat)
    requires k < PairCount
    ensures BandOf(2 * k) < FrequencySplit
    ensures forall b: nat :: b < FrequencySplit && b != BandOf(2 * k) ==> Credited(b, k + 1) == Credited(b, k)
    ensures Credited(BandOf(2 * k), k + 1) == Credited(BandOf(2 * k), k) + 1
    ensures SampleCount * BandOf(2 * k) + 2 * Credited(BandOf(2 * k), k) == 2 * k
  {
    assert SampleCount == 32 && PairsPerBand == 16 && PairCount == 256;
    var c := BandOf(2 * k);
    BandOfRange(2 * k);
    assert 16 * c <= k < 16 * c + 16;
    forall b: nat | b < FrequencySplit && b != c
      ensures Credited(b, k + 1) == Credited(b, k)
    {
      if b < c {
        assert 16 * (b + 1) <= 16 * c;
      } else {
        assert 16 * (c + 1) <= 16 * b;
      }
    }
  }

  /** The band array after the first k iterations of the stride loop
      (element indices 0, 2, ..., 2k - 2), starting from `amps`; the array
      is never zeroed first. */
  function Accumulate(amps: Bands, fft: seq<real>, dB: DecibelFn, k: nat): Bands
    requires |fft| >= FftSize && k <= PairCount
  {
    if k == 0 then amps
    else Credit(Accumulate(amps, fft, dB, k - 1), fft, dB, 2 * (k - 1))
  }

  /** After k iterations each band holds its starting value plus the
      decibel values of the pairs credited to it so far, in BandPairStarts
      order. */
  lemma {:induction false} AccumulateCredits(amps: Bands, fft: seq<real>, dB: DecibelFn, k: nat)
    requires |fft| >= FftSize && k <= PairCount
    ensures forall b: nat :: b < FrequencySplit ==>
              Accumulate(amps, fft, dB, k)[b] == amps[b] + BandPartialSum(fft, dB, b, Credited(b, k))
  {
    if k > 0 {
      var prev := Accumulate(amps, fft, dB, k - 1);
      AccumulateCredits(amps, fft, dB, k - 1);
      AccumulateStep(amps, prev, fft, dB, k - 1);
      assert Accumulate(amps, fft, dB, k) == Credit(prev, fft, dB, 2 * (k - 1));
    }
  }

  /** One loop iteration (line 310): the pair at `index` is added to the
      band it belongs to, and no other band changes. */
  function Credit(acc: Bands, fft: seq<real>, dB: DecibelFn, index: nat): (r: Bands)
    requires |fft| >= FftSize && index + 1 < FftSize
    ensures BandOf(index) < FrequencySplit
    ensures r[BandOf(index)] == acc[BandOf(index)] + PairDb(fft, dB, index)
    ensures forall b :: 0 <= b < FrequencySplit && b != BandOf(index) ==> r[b] == acc[b]
  {
    BandOfRange(index);
    acc[BandOf(index) := acc[BandOf(index)] + PairDb(fft, dB, index)]
  }

  /** Crediting pair k moves every band from Credited(b, k) to Credited(b, k + 1) pairs. */
  lemma AccumulateStep(amps: Bands, prev: Bands, fft: seq<real>, dB: DecibelFn, k: nat)
    requires |fft| >= FftSize && k < PairCount
    requires forall b: nat :: b < FrequencySplit ==>
               prev[b] == amps[b] + BandPartialSum(fft, dB, b, Credited(b, k))
    ensures forall b: nat :: b < FrequencySplit ==>
              Credit(prev, fft, dB, 2 * k)[b] == amps[b] + BandPartialSum(fft, dB, b, Credited(b, k + 1))
  {
    CreditStep(k);
    var c := BandOf(2 * k);
    var next := Credit(prev, fft, dB, 2 * k);
    forall b: nat | b < FrequencySplit
      ensures next[b] == amps[b] + BandPartialSum(fft, dB, b, Credited(b, k + 1))
    {
      if b == c {
        assert BandPartialSum(fft, dB, b, Credited(b, k + 1))
            == BandPartialSum(fft, dB, b, Credited(b, k)) + PairDb(fft, dB, 2 * k);
      }
    }
  }

  /** Each band divided by SampleCount (line 313). */
  function Average(acc: Bands): (r: Bands)
    ensures forall b :: 0 <= b < FrequencySplit ==> r[b] * SampleCount as real == acc[b]
  {
    seq(FrequencySplit, b requires 0 <= b < FrequencySplit => acc[b] / SampleCount as real)
  }

  /** The largest element (Array.max()). */
  function SeqMax(s: seq<real>): (m: real)
    requires |s| > 0
    ensures m in s
    ensures forall i :: 0 <= i < |s| ==> s[i] <= m
  {
    if |s| == 1 then s[0]
    else
      var rest := SeqMax(s[1..]);
      if s[0] >= rest then s[0] else rest
  }

  /** The smallest element (Array.min()). */
  function SeqMin(s: seq<real>): (m: real)
    requires |s| > 0
    ensures m in s
    ensures forall i :: 0 <= i < |s| ==> m <= s[i]
  {
    if |s| == 1 then s[0]
    else
      var rest := SeqMin(s[1..]);
      if s[0] <= rest then s[0] else rest
  }

  /** One band's normalisation with its lower clamp (lines 318-321). */
  function Rescale(v: real, lo: real, hi: real): (r: real)
    requires lo <= hi
    ensures 0.0 <= r
    ensures v >= lo ==> r * ((hi - lo) + Epsilon) == v - lo
  {
    var x := (v - lo) / ((hi - lo) + Epsilon);
    if x < 0.0 then 0.0 else x
  }

  /** Within the frame's range the clamp never fires and the value is below 1. */
  lemma RescaleBounds(v: real, lo: real, hi: real)
    requires lo <= v <= hi
    ensures Rescale(v, lo, hi) == (v - lo) / ((hi - lo) + Epsilon)
    ensures 0.0 <= Rescale(v, lo, hi) < 1.0
  {
    var d := (hi - lo) + Epsilon;
    var x := (v - lo) / d;
    assert x * d == v - lo;
  }

  /** Rescaling keeps the order of values inside the frame's range, strictly. */
  lemma RescaleMonotone(v: real, w: real, lo: real, hi: real)
    requires lo <= v <= hi && lo <= w <= hi
    ensures v <= w ==> Rescale(v, lo, hi) <= Rescale(w, lo, hi)
    ensures v < w ==> Rescale(v, lo, hi) < Rescale(w, lo, hi)
  {
    RescaleBounds(v, lo, hi);
    RescaleBounds(w, lo, hi);
    var d := (hi - lo) + Epsilon;
    assert (w - lo) / d - (v - lo) / d == (w - v) / d;
  }

  /** Min/max normalisation of one frame (lines 315-322): every band is
      rescaled against the frame's own minimum and maximum. */
  function Normalise(avg: Bands): (r: Bands)
    ensures forall b :: 0 <= b < FrequencySplit ==> 0.0 <= r[b] < 1.0
  {
    var hi := SeqMax(avg);
    var lo := SeqMin(avg);
    var r: Bands := seq(FrequencySplit, b requires 0 <= b < FrequencySplit => Rescale(avg[b], lo, hi));
    assert forall b :: 0 <= b < FrequencySplit ==> 0.0 <= r[b] < 1.0 by {
      forall b | 0 <= b < FrequencySplit {
        RescaleBounds(avg[b], lo, hi);
      }
    }
    r
  }

  /** Normalisation keeps the order of the bands, strictly. */
  lemma NormaliseKeepsOrder(avg: Bands, b: nat, c: nat)
    requires b < FrequencySplit && c < FrequencySplit
    ensures avg[b] <= avg[c] ==> Normalise(avg)[b] <= Normalise(avg)[c]
    ensures avg[b] < avg[c] ==> Normalise(avg)[b] < Normalise(avg)[c]
  {
    var hi := SeqMax(avg);
    var lo := SeqMin(avg);
    assert Normalise(avg)[b] == Rescale(avg[b], lo, hi);
    assert Normalise(avg)[c] == Rescale(avg[c], lo, hi);
    RescaleMonotone(avg[b], avg[c], lo, hi);
  }

  /** A band at the frame's minimum normalises to 0. */
  lemma NormaliseMinimumIsZero(avg: Bands, b: nat)
    requires b < FrequencySplit
    requires forall c :: 0 <= c < FrequencySplit ==> avg[b] <= avg[c]
    ensures Normalise(avg)[b] == 0.0
  {
    var hi := SeqMax(avg);
    var lo := SeqMin(avg);
    assert lo == avg[b];
    assert Normalise(avg)[b] == Rescale(avg[b], lo, hi);
  }

  /** The whole frame normalises to 0 exactly when all bands are equal;
      the epsilon keeps the division defined in that case. */
  lemma NormaliseFlat(avg: Bands)
    ensures (forall b :: 0 <= b < FrequencySplit ==> avg[b] == avg[0]) <==>
            (forall b :: 0 <= b < FrequencySplit ==> Normalise(avg)[b] == 0.0)
  {
    var r := Normalise(avg);
    if forall b :: 0 <= b < FrequencySplit ==> avg[b] == avg[0] {
      forall b: nat | b < FrequencySplit
        ensures r[b] == 0.0
      {
        NormaliseMinimumIsZero(avg, b);
      }
    }
    if forall b :: 0 <= b < FrequencySplit ==> r[b] == 0.0 {
      forall b: nat | b < FrequencySplit
        ensures avg[b] == avg[0]
      {
        NormaliseKeepsOrder(avg, b, 0);
        NormaliseKeepsOrder(avg, 0, b);
      }
    }
  }

  /** One run of the FFT tap handler on buffer `fft`, starting from the band
      array `amps` the previous frame left behind. A buffer shorter than
      FftSize traps at its first missing element. */
  function FrameStep(amps: Bands, fft: seq<real>, dB: DecibelFn): (r: Result<Bands>)
    ensures r.IndexOutOfRange? <==> |fft| < FftSize
    ensures r.IndexOutOfRange? ==> r.index == |fft|
    ensures r.Ok? ==> forall b :: 0 <= b < FrequencySplit ==> 0.0 <= r.value[b] < 1.0
  {
    if |fft| < FftSize then IndexOutOfRange(|fft|)
    else Ok(Normalise(Average(Accumulate(amps, fft, dB, PairCount))))
  }

  /** The value of band b just before normalisation: its previous value plus
      its own pairs' decibel values, divided by SampleCount. Since a band has
      only SampleCount / 2 pairs, this is half the mean of its pairs' values
      plus one SampleCount-th of the previous value. */
  function PreNormalised(amps: Bands, fft: seq<real>, dB: DecibelFn): (r: Bands)
    requires |fft| >= FftSize
    ensures forall b :: 0 <= b < FrequencySplit ==>
              r[b] == amps[b] / SampleCount as real + (BandSum(fft, dB, b) / PairsPerBand as real) / 2.0
  {
    assert SampleCount == 32 && PairsPerBand == 16;
    seq(FrequencySplit, b requires 0 <= b < FrequencySplit => (amps[b] + BandSum(fft, dB, b)) / SampleCount as real)
  }

  /** The interleaved loop over the buffer computes, for every band, exactly
      the band-by-band reference sum. */
  lemma FrameStepClosedForm(amps: Bands, fft: seq<real>, dB: DecibelFn)
    requires |fft| >= FftSize
    ensures FrameStep(amps, fft, dB) == Ok(Normalise(PreNormalised(amps, fft, dB)))
  {
    var acc := Accumulate(amps, fft, dB, PairCount);
    AccumulateCredits(amps, fft, dB, PairCount);
    forall b: nat | b < FrequencySplit
      ensures Average(acc)[b] == PreNormalised(amps, fft, dB)[b]
    {
      assert Credited(b, PairCount) == PairsPerBand;
    }
    assert Average(acc) == PreNormalised(amps, fft, dB);
  }

  /** A decibel function that rates every bin c. */
  function ConstDb(c: real): DecibelFn {
    (re: real, im: real) => c
  }

  /** Every (real, imag) pair the stride loop reads has decibel value c. */
  predicate UniformPairs(fft: seq<real>, dB: DecibelFn, c: real)
    requires |fft| >= FftSize
  {
    forall index: nat :: index + 1 < FftSize && index % 2 == 0 ==> PairDb(fft, dB, index) == c
  }

  /** A decibel function that rates every bin c rates every pair c. */
  lemma ConstDbIsUniform(fft: seq<real>, c: real)
    requires |fft| >= FftSize
    ensures UniformPairs(fft, ConstDb(c), c)
  {
  }

  /** When every pair rates c, the first m pairs of a band sum to m * c. */
  lemma {:induction false} UniformBandPartialSum(fft: seq<real>, dB: DecibelFn, c: real, b: nat, m: nat)
    requires |fft| >= FftSize && b < FrequencySplit && m <= PairsPerBand
    requires UniformPairs(fft, dB, c)
    ensures BandPartialSum(fft, dB, b, m) == m as real * c
  {
    if m > 0 {
      UniformBandPartialSum(fft, dB, c, b, m - 1);
      assert SampleCount == 32 && PairsPerBand == 16;
      var index: nat := SampleCount * b + 2 * (m - 1);
      assert index + 1 < FftSize && index % 2 == 0;
      assert PairDb(fft, dB, index) == c;
      assert (m - 1) as real * c + c == m as real * c;
    }
  }

  /** The band array the analyzer starts with (line 278). */
  function ZeroBands(): Bands {
    seq(FrequencySplit, _ => 0.0)
  }

  /** When every pair rates c, each band's pre-normalisation value is its
      previous value / SampleCount plus c / 2. */
  lemma UniformPreNormalised(amps: Bands, fft: seq<real>, dB: DecibelFn, c: real)
    requires |fft| >= FftSize && UniformPairs(fft, dB, c)
    ensures forall b :: 0 <= b < FrequencySplit ==>
              PreNormalised(amps, fft, dB)[b] == amps[b] / SampleCount as real + c / 2.0
  {
    forall b: nat | b < FrequencySplit
      ensures BandSum(fft, dB, b) == PairsPerBand as real * c
    {
      UniformBandPartialSum(fft, dB, c, b, PairsPerBand);
    }
  }

  /** If every pair of the buffer has the same decibel value, the frame
      yields all zeros exactly when the previous bands are all equal: the
      degenerate case of the normalisation, and evidence that the previous
      frame carries over. */
  lemma UniformFrameIsZero(amps: Bands, fft: seq<real>, dB: DecibelFn, c: real)
    requires |fft| >= FftSize && UniformPairs(fft, dB, c)
    ensures FrameStep(amps, fft, dB) == Ok(ZeroBands()) <==>
            (forall b :: 0 <= b < FrequencySplit ==> amps[b] == amps[0])
  {
    FrameStepClosedForm(amps, fft, dB);
    UniformFrameNormalisesToZero(amps, fft, dB, c);
  }

  /** The normalisation step of UniformFrameIsZero. */
  lemma UniformFrameNormalisesToZero(amps: Bands, fft: seq<real>, dB: DecibelFn, c: real)
    requires |fft| >= FftSize && UniformPairs(fft, dB, c)
    ensures Normalise(PreNormalised(amps, fft, dB)) == ZeroBands() <==>
            (forall b :: 0 <= b < FrequencySplit ==> amps[b] == amps[0])
  {
    var p := PreNormalised(amps, fft, dB);
    UniformPreNormalised(amps, fft, dB, c);
    ShiftedFlat(amps, p, c);
    NormaliseFlat(p);
    IsZeroBands(Normalise(p));
  }

  /** Bands shifted by a common offset after division by SampleCount are
      all equal exactly when the original bands are. */
  lemma ShiftedFlat(amps: Bands, p: Bands, c: real)
    requires forall b :: 0 <= b < FrequencySplit ==> p[b] == amps[b] / SampleCount as real + c / 2.0
    ensures (forall b :: 0 <= b < FrequencySplit ==> p[b] == p[0]) <==>
            (forall b :: 0 <= b < FrequencySplit ==> amps[b] == amps[0])
  {
    if forall b :: 0 <= b < FrequencySplit ==> p[b] == p[0] {
      forall b | 0 <= b < FrequencySplit
        ensures amps[b] == amps[0]
      {
        assert amps[b] / SampleCount as real == amps[0] / SampleCount as real;
      }
    }
  }

  /** A band array is ZeroBands() exactly when every band is 0. */
  lemma IsZeroBands(r: Bands)
    ensures r == ZeroBands() <==> forall b :: 0 <= b < FrequencySplit ==> r[b] == 0.0
  {
    if forall b :: 0 <= b < FrequencySplit ==> r[b] == 0.0 {
      assert r == ZeroBands();
    }
  }

  /** With every bin rating 0, a state whose band 0 is 0.5 gives band 0 a
      higher pre-normalisation value than band 1. */
  lemma BumpedPreNormalised(fft: seq<real>)
    requires |fft| >= FftSize
    ensures PreNormalised(ZeroBands()[0 := 0.5], fft, ConstDb(0.0))[1] < PreNormalised(ZeroBands()[0 := 0.5], fft, ConstDb(0.0))[0]
  {
    var bumped: Bands := ZeroBands()[0 := 0.5];
    var p := PreNormalised(bumped, fft, ConstDb(0.0));
    ConstDbIsUniform(fft, 0.0);
    UniformPreNormalised(bumped, fft, ConstDb(0.0), 0.0);
    assert bumped[0] == 0.5 && bumped[1] == 0.0;
    assert p[0] == 0.5 / SampleCount as real + 0.0 / 2.0;
    assert p[1] == 0.0 / SampleCount as real + 0.0 / 2.0;
  }

  /** The band array is not recomputed from scratch each frame: with every
      bin rating 0, the all-zero state yields all zeros, but a previous state
      whose band 0 is 0.5 yields a positive band 0 for the same buffer. */
  lemma PreviousFrameLeaks(fft: seq<real>)
    requires |fft| >= FftSize
    ensures FrameStep(ZeroBands(), fft, ConstDb(0.0)) == Ok(ZeroBands())
    ensures FrameStep(ZeroBands()[0 := 0.5], fft, ConstDb(0.0)).Ok?
    ensures FrameStep(ZeroBands()[0 := 0.5], fft, ConstDb(0.0)).value[0] > 0.0
  {
    ConstDbIsUniform(fft, 0.0);
    UniformFrameIsZero(ZeroBands(), fft, ConstDb(0.0), 0.0);
    BumpedFramePositive(fft);
  }

  /** The second half of PreviousFrameLeaks: band 0 ends above band 1. */
  lemma BumpedFramePositive(fft: seq<real>)
    requires |fft| >= FftSize
    ensures FrameStep(ZeroBands()[0 := 0.5], fft, ConstDb(0.0)).Ok?
    ensures FrameStep(ZeroBands()[0 := 0.5], fft, ConstDb(0.0)).value[0] > 0.0
  {
    var bumped: Bands := ZeroBands()[0 := 0.5];
    FrameStepClosedForm(bumped, fft, ConstDb(0.0));
    var p := PreNormalised(bumped, fft, ConstDb(0.0));
    BumpedPreNormalised(fft);
    NormaliseKeepsOrder(p, 1, 0);
  }
}
