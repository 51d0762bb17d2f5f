# DiscoGlobe core, modelled in Dafny

DiscoGlobe is an iOS app that renders a Mapbox globe as a disco ball. It
drives the ball from the microphone. An AudioKit FFT tap splits each FFT
buffer into 16 frequency bands, and an amplitude tap yields one global
loudness value. The map style is built from the same constants:
- 16 groups of 10-degree tiles for the ball's surface;
- 16 country layers, each filtering on a slice of a postal-code list.

This project models the index and arithmetic rules of that core, all in
`DiscoGlobe/ViewController.swift`:

- `Constants` (constants.dfy): FrequencySplit = 16, FftSize = 512,
  SampleCount = 32, and the 169 postal codes.
- `BandAnalysis` (band_analysis.dfy): one run of the FFT tap handler.
  - The interleaved (real, imag) buffer is walked pair by pair.
  - Each pair's decibel value is added into band `index / SampleCount`.
  - Every band is divided by SampleCount, then min/max-normalised with a
    0.001 epsilon and a lower clamp at 0.
- `Loudness` (loudness.dfy): the amplitude tap handler,
  `globalAmp = max(min(res², 5), 0)`.
- `AudioAnalyzer` (audio_analyzer.dfy): the analyzer's state, meaning the
  band array and globalAmp, and how a sequence of tap deliveries changes it.
- `DiscoGrid` (disco_grid.dfy): the 36 x 18 tile grid of
  `discoGridSources`, its shuffle and its split into 16 groups. Each group
  reads the closed range `offset + 0 ... offset + groupSize`.
- `CountryLayers` (country_layers.dfy): the split of the postal-code list
  into 16 half-open slices in `customLayers`.
- `Partition` (partition.dfy): the offset `groupSize * k` shared by both
  splits. It is defined by repeated addition and proved equal to the product.
- `Runtime` (runtime.dfy): a Swift out-of-range array access. It is a
  result value, `IndexOutOfRange(index)`, carrying the first index that
  traps.

Modelling choices:

- Every array read of the source is bounds-checked in Swift, so each
  operation that reads an array returns a `Result`. An operation traps
  exactly when the source would.
  - The FFT handler traps iff the buffer is shorter than 512.
  - The tile grouping traps iff the tile count is a multiple of 16.
  - The country slicing never traps.
- The magnitude-to-decibel step `20 * log10(2 * sqrt(re² + im²) / 512)` is
  the parameter `dB` of type `DecibelFn`. Every property holds for every
  such function.
- Floating-point numbers are modelled as `real`.

Behaviour of the handler code that a reader might not expect, all proved:

- **Carried state.** The handler never zeroes `amps` before its `+=`
  (line 310), so each band starts from the previous frame's normalised
  value. `BandAnalysis.PreviousFrameLeaks` shows the previous state
  changing the result for the same buffer.
- **Flat input.** A buffer whose pairs all have the same decibel value
  yields an all-zero band array exactly when the previous bands are all
  equal (`BandAnalysis.UniformFrameIsZero`).
- **Half the mean.** Each band receives only SampleCount / 2 = 16 pairs,
  but the sum is divided by SampleCount = 32 (line 313). So the value
  before normalisation is half the mean of the pair values, plus one
  SampleCount-th of the carried value (`BandAnalysis.PreNormalised`).
- **Upper bound.** The code clamps only from below (lines 319-321). Over
  exact reals every normalised band is still strictly below 1, because
  `v - min <= max - min < max - min + 0.001`.
- **Tiles.** The source shuffles and groups four-corner lists (lines
  162-166). The model shuffles and groups `Tile` values instead; the
  corner list and the tile determine each other (`DiscoGrid.CornersInjective`).

## Model

| member | source | states |
|---|---|---|
| BandAnalysis.BandOf | DiscoGlobe/ViewController.swift:310 | The band index / SampleCount of a pair; PairIndexing shows it is below FrequencySplit for every index the loop reads and that band b gets exactly BandPairStarts(b). |
| BandAnalysis.PairDb | DiscoGlobe/ViewController.swift:306-309 | The decibel value of the pair at elements index and index + 1; PairIndexing shows both reads are in bounds for every index the loop reads. |
| BandAnalysis.PairIndexing | DiscoGlobe/ViewController.swift:305-310 | Every even index below FftSize reads two in-bounds elements and lands in a band below FrequencySplit. Band b receives exactly the 16 distinct pairs BandPairStarts(b), in increasing order. |
| BandAnalysis.AccumulateCredits | DiscoGlobe/ViewController.swift:305-310 | After k iterations of the stride loop, each band holds its starting value plus the decibel values of the pairs credited to it so far. |
| BandAnalysis.Credit | DiscoGlobe/ViewController.swift:310 | One iteration adds the pair's decibel value to band index / SampleCount, which is a valid band, and leaves every other band unchanged. |
| BandAnalysis.Accumulate | DiscoGlobe/ViewController.swift:305-311 | The stride loop as a fold of Credit over the pairs; its meaning is given by AccumulateCredits and FrameStepClosedForm. |
| BandAnalysis.Average | DiscoGlobe/ViewController.swift:312-314 | Each averaged band times SampleCount gives back the accumulated band. |
| BandAnalysis.SeqMax | DiscoGlobe/ViewController.swift:315 | The maximum is an element of the array and bounds every element from above. |
| BandAnalysis.SeqMin | DiscoGlobe/ViewController.swift:316 | The minimum is an element of the array and bounds every element from below. |
| BandAnalysis.Rescale | DiscoGlobe/ViewController.swift:318-321 | The result is never negative, and for a value at or above the minimum it times (max - min + 0.001) gives back value - min. |
| BandAnalysis.RescaleBounds | DiscoGlobe/ViewController.swift:318-321 | For a value between the frame's min and max, the lower clamp never fires and the result lies in [0, 1). |
| BandAnalysis.RescaleMonotone | DiscoGlobe/ViewController.swift:318-321 | Rescaling keeps both the weak and the strict order of values in the frame's range. |
| BandAnalysis.Normalise | DiscoGlobe/ViewController.swift:315-322 | Every normalised band lies in [0, 1). |
| BandAnalysis.NormaliseKeepsOrder | DiscoGlobe/ViewController.swift:315-322 | A band that was at most, or strictly below, another band before normalisation stays so after. |
| BandAnalysis.NormaliseMinimumIsZero | DiscoGlobe/ViewController.swift:315-321 | A band at the frame's minimum normalises to 0. |
| BandAnalysis.NormaliseFlat | DiscoGlobe/ViewController.swift:315-322 | The frame normalises to all zeros iff all 16 bands are equal. The epsilon keeps the division defined in that case. |
| BandAnalysis.FrameStep | DiscoGlobe/ViewController.swift:302-323 | The handler traps iff the buffer is shorter than FftSize, at the first missing element. Otherwise every band of the new array lies in [0, 1). |
| BandAnalysis.FrameStepClosedForm | DiscoGlobe/ViewController.swift:305-314 | The interleaved loop equals the band-by-band reference. Each band becomes normalise((previous value + sum of its own 16 pair values) / SampleCount). |
| BandAnalysis.PreNormalised | DiscoGlobe/ViewController.swift:310-313 | Each band before normalisation is its previous value / SampleCount plus half the mean of its 16 pair values. |
| BandAnalysis.UniformFrameIsZero | DiscoGlobe/ViewController.swift:305-322 | For any decibel function under which every pair of the buffer has the same value, the frame yields all zeros iff the previous bands are all equal. |
| BandAnalysis.ZeroBands | DiscoGlobe/ViewController.swift:278 | The initial band array, 16 zeros; AudioAnalyzer.Init states it and UniformFrameIsZero shows it is a fixed point for a flat buffer. |
| BandAnalysis.PreviousFrameLeaks | DiscoGlobe/ViewController.swift:310 | The band array is not reset between frames. For one buffer, the all-zero state gives all zeros, but a state whose band 0 is 0.5 gives a positive band 0. |
| Loudness.GlobalAmp | DiscoGlobe/ViewController.swift:328 | globalAmp lies in [0, 5]. It is res² when res² <= 5, and 5 when res² >= 5. |
| Loudness.GlobalAmpSilenceAndSign | DiscoGlobe/ViewController.swift:328 | A zero reading gives 0, and a reading and its negation give the same globalAmp. |
| Loudness.GlobalAmpMonotone | DiscoGlobe/ViewController.swift:328 | globalAmp never decreases as the magnitude of the reading grows. |
| AudioAnalyzer.Init | DiscoGlobe/ViewController.swift:278-279 | The analyzer starts valid, with all 16 bands at 0 and globalAmp at 0. |
| AudioAnalyzer.Handle | DiscoGlobe/ViewController.swift:302-329 | Only an FFT buffer shorter than FftSize traps. An FFT frame sets the bands to normalise((previous value + own pair values) / SampleCount) and leaves globalAmp unchanged. An amplitude reading leaves the bands unchanged and sets globalAmp to GlobalAmp(res). Validity (bands in [0, 1), globalAmp in [0, 5]) is preserved. |
| AudioAnalyzer.Run | DiscoGlobe/ViewController.swift:302-329 | The handlers applied to a sequence of deliveries in order, stopping at the first trap; its meaning is given by RunPreservesValid and RunTrapsIffShortFrame. |
| AudioAnalyzer.RunTrapsIffShortFrame | DiscoGlobe/ViewController.swift:305-307 | A sequence of deliveries traps iff one of its FFT buffers is shorter than FftSize. |
| AudioAnalyzer.RunPreservesValid | DiscoGlobe/ViewController.swift:276-332 | Any sequence of tap deliveries from a valid state that does not trap ends in a valid state. |
| AudioAnalyzer.RunWithFullBuffersSucceeds | DiscoGlobe/ViewController.swift:305-307 | A sequence of deliveries whose FFT buffers all have FftSize elements never traps. |
| DiscoGrid.Stride | DiscoGlobe/ViewController.swift:160-161 | stride(from:to:by:) with a positive step yields start + step * i for i = 0, 1, ... It is empty when start >= stop, and otherwise holds exactly ceil((stop - start) / step) values. |
| DiscoGrid.StrideLengths | DiscoGlobe/ViewController.swift:160-161 | The longitude loop visits 36 values -180 + 10i and the latitude loop visits 18 values -90 + 10i. |
| DiscoGrid.Rows | DiscoGlobe/ViewController.swift:160-168 | The nested loops, longitude outer and latitude inner; its layout is given by RowsLayout. |
| DiscoGrid.Grid | DiscoGlobe/ViewController.swift:158-168 | The unshuffled grid; its size and tiles are given by GridLayout. |
| DiscoGrid.Corners | DiscoGlobe/ViewController.swift:162-165 | The four-corner list of a tile; CornersInjective shows a tile and its list determine each other. |
| DiscoGrid.RowsLayout | DiscoGlobe/ViewController.swift:160-168 | The nested loops emit tile i at longitude lons[i / 18] and latitude lats[i % 18]. |
| DiscoGrid.GridLayout | DiscoGlobe/ViewController.swift:158-168 | The unshuffled grid has 648 tiles, tile i being (-180 + 10(i / 18), -90 + 10(i % 18)). |
| DiscoGrid.GridTilesAreSquares | DiscoGlobe/ViewController.swift:160-165 | Every grid tile is a 10-degree-aligned square inside [-180, 180) x [-90, 90). |
| DiscoGrid.GridHasEverySquare | DiscoGlobe/ViewController.swift:160-165 | Every 10-degree-aligned square of the globe is a grid tile. |
| DiscoGrid.GridDistinct | DiscoGlobe/ViewController.swift:158-168 | No tile appears twice in the grid. |
| DiscoGrid.CornersInjective | DiscoGlobe/ViewController.swift:162-165 | Two tiles have the same corner list iff they are the same tile. |
| DiscoGrid.GridRectanglesDistinct | DiscoGlobe/ViewController.swift:158-168 | The 648 corner lists the loops build are pairwise distinct. |
| DiscoGrid.ShuffledGridDistinct | DiscoGlobe/ViewController.swift:169 | Any reordering of the grid has 648 tiles and no repeats. |
| DiscoGrid.GroupSize | DiscoGlobe/ViewController.swift:172 | The group size is the largest s with 16s <= count. |
| DiscoGrid.ReadIndex | DiscoGlobe/ViewController.swift:175-178 | The position offset + index read by a group; GroupBounds and GroupMembers bound it and tie it to the group contents. |
| DiscoGrid.GroupBounds | DiscoGlobe/ViewController.swift:172-178 | Every read offset + index lies at or below FrequencySplit * groupSize <= count. That bound equals count exactly when count is a multiple of 16. |
| DiscoGrid.DiscoGroups | DiscoGlobe/ViewController.swift:172-178 | Grouping traps iff the tile count is a multiple of 16, at index count. Otherwise it yields 16 groups of groupSize + 1 tiles. |
| DiscoGrid.GroupTiles | DiscoGlobe/ViewController.swift:175-178 | Group g holds groupSize + 1 tiles, read from the closed range offset + 0 ... offset + groupSize. |
| DiscoGrid.GroupMembers | DiscoGlobe/ViewController.swift:175-178 | Element i of group g is the tile at position groupSize * g + i, which is in bounds. |
| DiscoGrid.TrapIsFirstOutOfBoundsRead | DiscoGlobe/ViewController.swift:174-178 | For a positive multiple of 16, the last read of the last group is at position count, and every earlier read is in bounds. |
| DiscoGrid.GroupsOverlap | DiscoGlobe/ViewController.swift:174-178 | The last tile of group g is the first tile of group g + 1. |
| DiscoGrid.DiscoGridUsage | DiscoGlobe/ViewController.swift:172-178 | For any 648-tile grid: groupSize is 40, no read traps, and group g holds positions 40g ... 40g + 40. Exactly positions 0 ... 640 are read. |
| DiscoGrid.UnusedTiles | DiscoGlobe/ViewController.swift:172-178 | In a 648-tile grid without repeats, the tiles at positions 641 ... 647 are in no group. |
| DiscoGrid.ShuffledGridUnusedTiles | DiscoGlobe/ViewController.swift:169-178 | Whatever order the shuffle picks, its last 7 tiles are in no group. |
| Partition.OffsetIsProduct | DiscoGlobe/ViewController.swift:175 | The group offset computed by repeated addition equals groupSize * group. |
| Partition.Offset | DiscoGlobe/ViewController.swift:175 | The offset groupSize * group by repeated addition; OffsetIsProduct proves it equals the product. |
| Partition.OffsetMonotone | DiscoGlobe/ViewController.swift:223 | Group i ends no later than any later group j starts. |
| Partition.GroupsDisjoint | DiscoGlobe/ViewController.swift:223 | Positions inside two different groups of width groupSize never coincide. |
| CountryLayers.SliceSize | DiscoGlobe/ViewController.swift:222 | The slice size is the largest s with 16s <= count. |
| CountryLayers.SliceBounds | DiscoGlobe/ViewController.swift:222-223 | Every slice boundary lies within the list. The codes left after the last slice number count % 16. |
| CountryLayers.Slice | DiscoGlobe/ViewController.swift:223 | Each slice has count / 16 codes. |
| CountryLayers.CodeSlices | DiscoGlobe/ViewController.swift:221-223 | There are 16 layers, each filtering on count / 16 codes. |
| CountryLayers.SlicesPartitionPrefix | DiscoGlobe/ViewController.swift:221-223 | Laid end to end, the slices give back exactly the first 16 * (count / 16) codes, in order. count % 16 codes remain. |
| CountryLayers.SlicePosition | DiscoGlobe/ViewController.swift:223 | Element a of slice i is the code at position groupSize * i + a. |
| CountryLayers.SlicesDisjoint | DiscoGlobe/ViewController.swift:221-223 | When the codes have no repeats, no code filters two layers. |
| CountryLayers.LeftoverCodesUnused | DiscoGlobe/ViewController.swift:221-223 | When the codes have no repeats, a code after the last slice filters no layer. |
| CountryLayers.CountryCodeLayers | DiscoGlobe/ViewController.swift:22-38 | The app's list has 169 codes. Each layer filters on 10 codes, layer i on codes 10i ..< 10i + 10. The last 9 ("UZ" ... "ZW") are never used. |

## Left out

- View controller lifecycle, timers, camera rotation, colour switching and the 10 ms `updateAudioFeatures` polling (lines 41-124): UIKit and Mapbox calls with no index logic.
- AudioKit engine, mixers and tap construction, and `engine.start()` (lines 281-301, 325, 331): foreign library wiring.
- The FFT itself, and `sqrt`/`log10` in the decibel step: the step is the parameter `dB`, so nothing is assumed about it.
- IEEE floating point: rounding, Float-to-Double conversion, and the `-inf`/NaN that `log10(0)` yields. Values are exact reals.
- Concurrency between the two tap handlers and the polling timer: the source does not synchronise them. The model applies deliveries one at a time.
- `shuffled()` randomness: a shuffled grid is any permutation of the grid (`DiscoGrid.IsShuffledGrid`).
- `UIColor.random`, `toRgbaString`, the JSON text built by string interpolation, and `JSONEncoder`. A tile whose encoding fails would be skipped (line 179); encoding is not modelled, so no tile is skipped.
- `createStyle`, `countriesSource` bundle loading, and the tile and ray layers of `customLayers` (lines 128-153, 207-216, 242-271): file I/O and fixed text.
- CountryLayers.SlicesDisjoint: takes the absence of repeated codes as a hypothesis. The 169-entry list itself is not checked for repeats. Position-level disjointness (`Partition.GroupsDisjoint`) needs no hypothesis.
