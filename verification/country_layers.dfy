/** The country filters of StyleProvider.customLayers
    (DiscoGlobe/ViewController.swift:218-241): the postal-code list is cut
    into FrequencySplit equal slices, slice i feeding layer "countries-i". */
module CountryLayers {
  import opened Constants
  import opened Partition

  /** Number of codes per layer: codes.count / FrequencySplit (line 222). */
  function SliceSize(n: nat): (r: nat)
    ensures r * FrequencySplit <= n < r * FrequencySplit + FrequencySplit
  {
    n / FrequencySplit
  }

  /** Every slice boundary lies within the list; the last one is
      SliceSize(n) * FrequencySplit, which leaves n % FrequencySplit codes over. */
  lemma SliceBounds(n: nat, i: nat)
    requires i <= FrequencySplit
    ensures Offset(SliceSize(n), i) <= Offset(SliceSize(n), FrequencySplit) <= n
    ensures n - Offset(SliceSize(n), FrequencySplit) == n % FrequencySplit
  {
    OffsetIsProduct(SliceSize(n), FrequencySplit);
    if i < FrequencySplit {
      OffsetMonotone(SliceSize(n), i, FrequencySplit);
    }
  }

  /** Slice i: codes[groupSize * i ..< groupSize * (i + 1)] (line 223). */
  function Slice(codes: seq<string>, i: nat): (r: seq<string>)
    requires i < FrequencySplit
    ensures |r| == SliceSize(|codes|)
  {
    var gs := SliceSize(|codes|);
    SliceBounds(|codes|, i + 1);
    codes[Offset(gs, i) .. Offset(gs, i + 1)]
  }

  /** The filters of all FrequencySplit country layers, in layer order. */
  function CodeSlices(codes: seq<string>): (r: seq<seq<string>>)
    ensures |r| == FrequencySplit
    ensures forall i :: 0 <= i < FrequencySplit ==> |r[i]| == |codes| / FrequencySplit
  {
    seq(FrequencySplit, i requires 0 <= i < FrequencySplit => Slice(codes, i))
  }

  /** Concatenation of a list of lists. */
  function Concat(ss: seq<seq<string>>): seq<string> {
    if ss == [] then [] else ss[0] + Concat(ss[1..])
  }

  /** Laid end to end from slice k on, the slices give back the codes from
      position groupSize * k up to groupSize * FrequencySplit. */
  lemma {:induction false} ConcatSuffix(codes: seq<string>, k: nat)
    requires k <= FrequencySplit
    ensures Offset(SliceSize(|codes|), k) <= Offset(SliceSize(|codes|), FrequencySplit) <= |codes|
    ensures Concat(CodeSlices(codes)[k..]) ==
            codes[Offset(SliceSize(|codes|), k) .. Offset(SliceSize(|codes|), FrequencySplit)]
    decreases FrequencySplit - k
  {
    SliceBounds(|codes|, k);
    var gs := SliceSize(|codes|);
    var r := CodeSlices(codes);
    if k < FrequencySplit {
      ConcatSuffix(codes, k + 1);
      assert r[k..] == [r[k]] + r[k + 1..];
      assert r[k] == codes[Offset(gs, k) .. Offset(gs, k + 1)];
      assert codes[Offset(gs, k) .. Offset(gs, FrequencySplit)] ==
             codes[Offset(gs, k) .. Offset(gs, k + 1)] + codes[Offset(gs, k + 1) .. Offset(gs, FrequencySplit)];
    } else {
      assert r[k..] == [];
    }
  }

  /** The slices partition the first groupSize * FrequencySplit codes, in
      order; the remaining |codes| % FrequencySplit codes go to no layer. */
  lemma SlicesPartitionPrefix(codes: seq<string>)
    ensures SliceSize(|codes|) * FrequencySplit <= |codes|
    ensures Concat(CodeSlices(codes)) == codes[..SliceSize(|codes|) * FrequencySplit]
    ensures |codes| - SliceSize(|codes|) * FrequencySplit == |codes| % FrequencySplit
  {
    ConcatSuffix(codes, 0);
    SliceBounds(|codes|, 0);
    OffsetIsProduct(SliceSize(|codes|), FrequencySplit);
    assert CodeSlices(codes)[0..] == CodeSlices(codes);
  }

  /** Element a of slice i is the code at position groupSize * i + a. */
  lemma SlicePosition(codes: seq<string>, i: nat, a: nat)
    requires i < FrequencySplit && a < SliceSize(|codes|)
    ensures Offset(SliceSize(|codes|), i) + a < |codes|
    ensures CodeSlices(codes)[i][a] == codes[Offset(SliceSize(|codes|), i) + a]
  {
    var gs := SliceSize(|codes|);
    SliceBounds(|codes|, i + 1);
    assert Offset(gs, i + 1) == Offset(gs, i) + gs;
    assert CodeSlices(codes)[i] == codes[Offset(gs, i) .. Offset(gs, i + 1)];
  }

  /** In a list without repeats, different positions hold different codes. */
  lemma DistinctAt(codes: seq<string>, p: nat, q: nat)
    requires forall p, q :: 0 <= p < q < |codes| ==> codes[p] != codes[q]
    requires p < |codes| && q < |codes| && p != q
    ensures codes[p] != codes[q]
  {
    if q < p {
      assert codes[q] != codes[p];
    }
  }

  /** No position is in two slices: slice i covers positions
      groupSize * i ..< groupSize * (i + 1). So, when the codes are
      distinct, no code filters two layers. */
  lemma SlicesDisjoint(codes: seq<string>, i: nat, j: nat)
    requires forall p, q :: 0 <= p < q < |codes| ==> codes[p] != codes[q]
    requires i < FrequencySplit && j < FrequencySplit && i != j
    ensures forall x :: x in CodeSlices(codes)[i] ==> x !in CodeSlices(codes)[j]
  {
    var gs := SliceSize(|codes|);
    var r := CodeSlices(codes);
    forall a, b | 0 <= a < gs && 0 <= b < gs
      ensures r[i][a] != r[j][b]
    {
      SlicePosition(codes, i, a);
      SlicePosition(codes, j, b);
      GroupsDisjoint(gs, i, a, j, b);
      DistinctAt(codes, Offset(gs, i) + a, Offset(gs, j) + b);
    }
  }

  /** When the codes are distinct, a code past the last slice filters no layer. */
  lemma LeftoverCodesUnused(codes: seq<string>, i: nat)
    requires forall p, q :: 0 <= p < q < |codes| ==> codes[p] != codes[q]
    requires i < FrequencySplit
    ensures forall p :: SliceSize(|codes|) * FrequencySplit <= p < |codes| ==> codes[p] !in CodeSlices(codes)[i]
  {
    var gs := SliceSize(|codes|);
    var r := CodeSlices(codes);
    SliceBounds(|codes|, i + 1);
    OffsetIsProduct(gs, FrequencySplit);
    forall p, a | gs * FrequencySplit <= p < |codes| && 0 <= a < gs
      ensures r[i][a] != codes[p]
    {
      SlicePosition(codes, i, a);
      DistinctAt(codes, Offset(gs, i) + a, p);
    }
  }

  /** For the app's list of 169 postal codes: each layer filters on 10 codes,
      layer i on codes 10 * i ..< 10 * i + 10, and the last 9 ("UZ" ... "ZW")
      are never used. */
  lemma CountryCodeLayers()
    ensures |CountryCodes| == 169 && SliceSize(|CountryCodes|) == 10
    ensures forall i :: 0 <= i < FrequencySplit ==> CodeSlices(CountryCodes)[i] == CountryCodes[10 * i .. 10 * i + 10]
    ensures CountryCodes[160..] == ["UZ", "VE", "VN", "VU", "WS", "YE", "ZA", "ZM", "ZW"]
  {
    forall i | 0 <= i < FrequencySplit
      ensures CodeSlices(CountryCodes)[i] == CountryCodes[10 * i .. 10 * i + 10]
    {
      OffsetIsProduct(10, i);
      OffsetIsProduct(10, i + 1);
    }
  }
}
