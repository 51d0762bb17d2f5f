/** The disco-ball tiles of StyleProvider.discoGridSources
    (DiscoGlobe/ViewController.swift:155-205): a 36 x 18 grid of 10-degree
    squares, shuffled, and handed out to FrequencySplit groups, group g
    taking the tiles at offset + 0 ... offset + groupSize (a closed range). */
module DiscoGrid {
  import opened Constants
  import opened Runtime
  import opened Partition

  /** A 10 x 10 degree square given by its south-west corner. */
  datatype Tile = Tile(lon: int, lat: int)

  /** Width and height of a tile, in degrees; also the stride of both loops. */
  const TileDegrees: int := 10

  /** The corner list the tile is encoded as, in the order of lines 162-165. */
  function Corners(t: Tile): seq<seq<int>> {
    [[t.lon, t.lat], [t.lon + TileDegrees, t.lat],
     [t.lon + TileDegrees, t.lat + TileDegrees], [t.lon, t.lat + TileDegrees]]
  }

  /** Swift's stride(from:to:by:) for a positive step: start, start + step,
      ..., every value strictly below `stop`, as many as
      ceil((stop - start) / step). */
  function Stride(start: int, stop: int, step: int): (r: seq<int>)
    requires step > 0
    ensures forall i :: 0 <= i < |r| ==> r[i] == start + step * i
    ensures start >= stop ==> |r| == 0
    ensures start < stop ==> (|r| - 1) * step < stop - start <= |r| * step
    decreases stop - start
  {
    if start >= stop then []
    else
      var rest := Stride(start + step, stop, step);
      StrideCons(start, stop, step, rest);
      [start] + rest
  }

  /** Putting `start` in front of the stride from start + step keeps both
      properties of Stride. */
  lemma StrideCons(start: int, stop: int, step: int, rest: seq<int>)
    requires step > 0 && start < stop
    requires forall i :: 0 <= i < |rest| ==> rest[i] == start + step + step * i
    requires start + step >= stop ==> |rest| == 0
    requires start + step < stop ==> (|rest| - 1) * step < stop - start - step <= |rest| * step
    ensures forall i :: 0 <= i < |rest| + 1 ==> ([start] + rest)[i] == start + step * i
    ensures |rest| * step < stop - start <= (|rest| + 1) * step
  {
    forall i | 0 <= i < |rest| + 1
      ensures ([start] + rest)[i] == start + step * i
    {
      if i > 0 {
        assert ([start] + rest)[i] == rest[i - 1];
        assert step * (i - 1) + step == step * i;
      }
    }
    assert (|rest| - 1) * step + step == |rest| * step;
    assert |rest| * step + step == (|rest| + 1) * step;
  }

  /** The latitudes of the inner loop: -90, -80, ..., 80. */
  function Latitudes(): seq<int> {
    Stride(-90, 90, TileDegrees)
  }

  /** The longitudes of the outer loop: -180, -170, ..., 170. */
  function Longitudes(): seq<int> {
    Stride(-180, 180, TileDegrees)
  }

  /** The tiles of one longitude, one per latitude in `lats`. */
  function Column(lon: int, lats: seq<int>): seq<Tile> {
    seq(|lats|, i requires 0 <= i < |lats| => Tile(lon, lats[i]))
  }

  /** The nested loops of lines 160-168: for each longitude, its column. */
  function Rows(lons: seq<int>, lats: seq<int>): seq<Tile> {
    if lons == [] then [] else Column(lons[0], lats) + Rows(lons[1..], lats)
  }

  /** The grid before shuffling. */
  function Grid(): seq<Tile> {
    Rows(Longitudes(), Latitudes())
  }

  /** Number of tiles in the grid: 36 longitudes times 18 latitudes. */
  const GridTiles: nat := 648

  /** Both strides have the expected length and values. */
  lemma StrideLengths()
    ensures |Latitudes()| == 18 && |Longitudes()| == 36
    ensures forall i :: 0 <= i < 18 ==> Latitudes()[i] == -90 + 10 * i
    ensures forall i :: 0 <= i < 36 ==> Longitudes()[i] == -180 + 10 * i
  {
  }

  /** Rows of 18 latitudes: tile i is at longitude i / 18 and latitude i % 18. */
  lemma {:induction false} RowsLayout(lons: seq<int>, lats: seq<int>)
    requires |lats| == 18
    ensures |Rows(lons, lats)| == 18 * |lons|
    ensures forall i :: 0 <= i < 18 * |lons| ==> Rows(lons, lats)[i] == Tile(lons[i / 18], lats[i % 18])
  {
    if lons != [] {
      RowsLayout(lons[1..], lats);
      var rest := Rows(lons[1..], lats);
      forall i | 0 <= i < 18 * |lons|
        ensures Rows(lons, lats)[i] == Tile(lons[i / 18], lats[i % 18])
      {
        if i >= 18 {
          assert Rows(lons, lats)[i] == rest[i - 18];
          assert (i - 18) / 18 == i / 18 - 1 && (i - 18) % 18 == i % 18;
        }
      }
    }
  }

  /** Tile i of the unshuffled grid: longitude column i / 18, latitude row i % 18. */
  function TileAt(i: int): Tile {
    Tile(-180 + 10 * (i / 18), -90 + 10 * (i % 18))
  }

  /** The unshuffled grid has 648 tiles, tile i being TileAt(i). */
  lemma GridLayout()
    ensures |Grid()| == GridTiles
    ensures forall i :: 0 <= i < GridTiles ==> Grid()[i] == TileAt(i)
  {
    StrideLengths();
    RowsLayout(Longitudes(), Latitudes());
  }

  /** A 10-degree-aligned square on the globe. */
  predicate IsGlobeSquare(t: Tile) {
    -180 <= t.lon < 180 && -90 <= t.lat < 90 && (t.lon + 180) % 10 == 0 && (t.lat + 90) % 10 == 0
  }

  /** TileAt maps the 648 grid positions onto aligned squares. */
  lemma TileAtIsSquare(i: int)
    requires 0 <= i < GridTiles
    ensures IsGlobeSquare(TileAt(i))
  {
    var q := i / 18;
    var m := i % 18;
    assert 0 <= q < 36 && 0 <= m < 18;
    assert (10 * q) % 10 == 0 && (10 * m) % 10 == 0;
  }

  /** Every aligned square is TileAt of some grid position. */
  lemma SquarePosition(t: Tile) returns (i: int)
    requires IsGlobeSquare(t)
    ensures 0 <= i < GridTiles && TileAt(i) == t
  {
    var q := (t.lon + 180) / 10;
    var m := (t.lat + 90) / 10;
    assert 0 <= q < 36 && 0 <= m < 18;
    i := 18 * q + m;
    assert i / 18 == q && i % 18 == m;
  }

  /** Every grid tile is an aligned square on the globe. */
  lemma GridTilesAreSquares()
    ensures forall t :: t in Grid() ==> IsGlobeSquare(t)
  {
    GridLayout();
    forall t | t in Grid()
      ensures IsGlobeSquare(t)
    {
      var i :| 0 <= i < GridTiles && Grid()[i] == t;
      TileAtIsSquare(i);
    }
  }

  /** Every aligned square on the globe is a grid tile. */
  lemma GridHasEverySquare(t: Tile)
    requires IsGlobeSquare(t)
    ensures t in Grid()
  {
    GridLayout();
    var i := SquarePosition(t);
    assert Grid()[i] == t;
  }

  /** No tile appears twice in the grid. */
  lemma GridDistinct()
    ensures forall i, j :: 0 <= i < j < |Grid()| ==> Grid()[i] != Grid()[j]
  {
    GridLayout();
    forall i, j | 0 <= i < j < GridTiles
      ensures Grid()[i] != Grid()[j]
    {
      assert Grid()[i] == TileAt(i) && Grid()[j] == TileAt(j);
      if i / 18 == j / 18 {
        assert i % 18 != j % 18;
      }
    }
  }

  /** A tile and its corner list determine each other, so the model may
      shuffle and group tiles where the source shuffles corner lists. */
  lemma CornersInjective(s: Tile, t: Tile)
    ensures Corners(s) == Corners(t) <==> s == t
  {
    if Corners(s) == Corners(t) {
      assert Corners(s)[0] == Corners(t)[0];
      assert Corners(s)[0][0] == s.lon && Corners(s)[0][1] == s.lat;
    }
  }

  /** The 648 corner lists the loops build (lines 162-166) are pairwise distinct. */
  lemma GridRectanglesDistinct()
    ensures forall i, j :: 0 <= i < j < |Grid()| ==> Corners(Grid()[i]) != Corners(Grid()[j])
  {
    GridDistinct();
    forall i, j | 0 <= i < j < |Grid()|
      ensures Corners(Grid()[i]) != Corners(Grid()[j])
    {
      CornersInjective(Grid()[i], Grid()[j]);
    }
  }

  /** A shuffled grid: the same tiles in any order (the shuffled() call of line 169). */
  ghost predicate IsShuffledGrid(grid: seq<Tile>) {
    multiset(grid) == multiset(Grid())
  }

  /** Size of each tile group: grid.count / FrequencySplit (line 172). */
  function GroupSize(n: nat): (r: nat)
    ensures r * FrequencySplit <= n < r * FrequencySplit + FrequencySplit
  {
    n / FrequencySplit
  }

  /** The position read by iteration `index` of group `group` in a grid
      of n tiles: offset + index, with offset = groupSize * group (lines 175-178). */
  function ReadIndex(n: nat, group: nat, index: nat): nat {
    Offset(GroupSize(n), group) + index
  }

  /** Whether some group reads position k of a grid of n tiles. */
  ghost predicate IsRead(n: nat, k: int) {
    exists g: nat, i: nat :: g < FrequencySplit && i <= GroupSize(n) && ReadIndex(n, g, i) == k
  }

  /** Every read lies in 0 ... FrequencySplit * groupSize, which is at most
      n, and equals n exactly when n is a multiple of FrequencySplit. */
  lemma GroupBounds(n: nat, g: nat, i: nat)
    requires g < FrequencySplit && i <= GroupSize(n)
    ensures Offset(GroupSize(n), FrequencySplit) == FrequencySplit * GroupSize(n) <= n
    ensures FrequencySplit * GroupSize(n) == n <==> n % FrequencySplit == 0
    ensures ReadIndex(n, g, i) <= FrequencySplit * GroupSize(n)
    ensures GroupSize(n) > 0 && (g + 1 < FrequencySplit || i < GroupSize(n)) ==>
              ReadIndex(n, g, i) < FrequencySplit * GroupSize(n)
  {
    var gs := GroupSize(n);
    OffsetIsProduct(gs, FrequencySplit);
    OffsetMonotone(gs, g, FrequencySplit);
    if g + 1 < FrequencySplit {
      OffsetMonotone(gs, g + 1, FrequencySplit);
    }
  }

  /** The tiles of every group, or a trap: group g reads grid[offset + index]
      for index in 0 ... groupSize. */
  function DiscoGroups(grid: seq<Tile>): (r: Result<seq<seq<Tile>>>)
    ensures r.IndexOutOfRange? <==> |grid| % FrequencySplit == 0
    ensures r.IndexOutOfRange? ==> r.index == |grid|
    ensures r.Ok? ==> |r.value| == FrequencySplit
    ensures r.Ok? ==> forall g :: 0 <= g < FrequencySplit ==> |r.value[g]| == GroupSize(|grid|) + 1
  {
    var n := |grid|;
    var gs := GroupSize(n);
    GroupBounds(n, 0, 0);
    if FrequencySplit * gs == n then IndexOutOfRange(n)
    else Ok(seq(FrequencySplit, g requires 0 <= g < FrequencySplit => GroupTiles(grid, g)))
  }

  /** The groupSize + 1 tiles group g reads, when no read traps. */
  function GroupTiles(grid: seq<Tile>, g: nat): (r: seq<Tile>)
    requires |grid| % FrequencySplit != 0 && g < FrequencySplit
    ensures |r| == GroupSize(|grid|) + 1
  {
    var n := |grid|;
    GroupBounds(n, g, GroupSize(n));
    grid[ReadIndex(n, g, 0) .. ReadIndex(n, g, GroupSize(n)) + 1]
  }

  /** Where a group's tiles come from: element i of group g is grid[offset + i]. */
  lemma GroupMembers(grid: seq<Tile>, g: nat, i: nat)
    requires DiscoGroups(grid).Ok? && g < FrequencySplit && i <= GroupSize(|grid|)
    ensures ReadIndex(|grid|, g, i) < |grid|
    ensures DiscoGroups(grid).value[g][i] == grid[ReadIndex(|grid|, g, i)]
  {
    GroupBounds(|grid|, g, i);
    GroupBounds(|grid|, g, GroupSize(|grid|));
  }

  /** When the grid size n is a positive multiple of FrequencySplit, the
      last read of the last group is at position n, and every read before
      it in loop order is in bounds. (For n = 0 the very first read, at
      position 0, is already out of bounds.) */
  lemma TrapIsFirstOutOfBoundsRead(n: nat, g: nat, i: nat)
    requires n % FrequencySplit == 0
    requires g < FrequencySplit && i <= GroupSize(n)
    ensures ReadIndex(n, FrequencySplit - 1, GroupSize(n)) == n
    ensures n > 0 && (g, i) != (FrequencySplit - 1, GroupSize(n)) ==> ReadIndex(n, g, i) < n
  {
    GroupBounds(n, g, i);
    GroupBounds(n, FrequencySplit - 1, GroupSize(n));
  }

  /** Adjacent groups share a tile: group g's last tile is group g + 1's first. */
  lemma GroupsOverlap(grid: seq<Tile>, g: nat)
    requires DiscoGroups(grid).Ok? && g + 1 < FrequencySplit
    ensures DiscoGroups(grid).value[g][GroupSize(|grid|)] == DiscoGroups(grid).value[g + 1][0]
  {
    GroupMembers(grid, g, GroupSize(|grid|));
    GroupMembers(grid, g + 1, 0);
  }

  /** For the 648-tile grid, in any order: groupSize is 40, no read traps,
      group g holds positions 40 * g ... 40 * g + 40, and exactly positions
      0 ... 640 are read, so the 7 tiles at 641 ... 647 are never used. */
  lemma DiscoGridUsage(grid: seq<Tile>)
    requires |grid| == GridTiles
    ensures GroupSize(|grid|) == 40
    ensures DiscoGroups(grid).Ok?
    ensures forall g: nat, i: nat :: g < FrequencySplit && i <= 40 ==>
              ReadIndex(GridTiles, g, i) == 40 * g + i &&
              DiscoGroups(grid).value[g][i] == grid[ReadIndex(GridTiles, g, i)]
    ensures forall k :: 0 <= k < GridTiles ==> (IsRead(GridTiles, k) <==> k <= 640)
  {
    forall g: nat, i: nat | g < FrequencySplit && i <= 40
      ensures ReadIndex(GridTiles, g, i) == 40 * g + i
      ensures DiscoGroups(grid).value[g][i] == grid[ReadIndex(GridTiles, g, i)]
    {
      OffsetIsProduct(40, g);
      GroupMembers(grid, g, i);
    }
    forall k | 0 <= k <= 640
      ensures IsRead(GridTiles, k)
    {
      var g: nat := if k == 640 then 15 else k / 40;
      OffsetIsProduct(40, g);
      assert ReadIndex(GridTiles, g, k - 40 * g) == k;
    }
    forall k | 640 < k < GridTiles
      ensures !IsRead(GridTiles, k)
    {
      forall g: nat, i: nat | g < FrequencySplit && i <= 40
        ensures ReadIndex(GridTiles, g, i) != k
      {
        GroupBounds(GridTiles, g, i);
      }
    }
  }

  /** In a sequence without repeats every element occurs once. */
  lemma {:induction false} DistinctMultiplicity(s: seq<Tile>, x: Tile)
    requires forall i, j :: 0 <= i < j < |s| ==> s[i] != s[j]
    ensures multiset(s)[x] <= 1
  {
    if s != [] {
      assert s == [s[0]] + s[1..];
      DistinctMultiplicity(s[1..], x);
      if x == s[0] {
        assert x !in s[1..];
      }
    }
  }

  /** An element found at two positions occurs at least twice. */
  lemma RepeatMultiplicity(s: seq<Tile>, i: int, j: int)
    requires 0 <= i < j < |s| && s[i] == s[j]
    ensures multiset(s)[s[i]] >= 2
  {
    assert s == s[..j] + s[j..];
    assert s[i] in s[..j] && s[j] in s[j..];
  }

  /** A shuffled grid has 648 tiles and, like the grid, no repeats. */
  lemma ShuffledGridDistinct(grid: seq<Tile>)
    requires IsShuffledGrid(grid)
    ensures |grid| == GridTiles
    ensures forall i, j :: 0 <= i < j < |grid| ==> grid[i] != grid[j]
  {
    GridLayout();
    assert |grid| == |multiset(grid)| == |multiset(Grid())| == GridTiles;
    GridDistinct();
    forall i, j | 0 <= i < j < |grid|
      ensures grid[i] != grid[j]
    {
      if grid[i] == grid[j] {
        RepeatMultiplicity(grid, i, j);
        DistinctMultiplicity(Grid(), grid[i]);
        assert false;
      }
    }
  }

  /** In a 648-tile grid without repeats, the tiles at positions 641 ... 647
      are in no group. */
  lemma UnusedTiles(grid: seq<Tile>)
    requires |grid| == GridTiles
    requires forall i, j :: 0 <= i < j < |grid| ==> grid[i] != grid[j]
    ensures DiscoGroups(grid).Ok?
    ensures forall k, g, i :: 640 < k < GridTiles && 0 <= g < FrequencySplit && 0 <= i <= 40 ==>
              DiscoGroups(grid).value[g][i] != grid[k]
  {
    DiscoGridUsage(grid);
    forall k, g, i | 640 < k < GridTiles && 0 <= g < FrequencySplit && 0 <= i <= 40
      ensures DiscoGroups(grid).value[g][i] != grid[k]
    {
      assert DiscoGroups(grid).value[g][i] == grid[ReadIndex(GridTiles, g, i)];
      assert ReadIndex(GridTiles, g, i) <= 640;
    }
  }

  /** Whatever order the shuffle picks, the tiles at positions 641 ... 647
      of the shuffled grid are in no group. */
  lemma ShuffledGridUnusedTiles(grid: seq<Tile>)
    requires IsShuffledGrid(grid)
    ensures |grid| == GridTiles
    ensures DiscoGroups(grid).Ok?
    ensures forall k, g, i :: 640 < k < GridTiles && 0 <= g < FrequencySplit && 0 <= i <= 40 ==>
              DiscoGroups(grid).value[g][i] != grid[k]
  {
    ShuffledGridDistinct(grid);
    UnusedTiles(grid);
  }
}
