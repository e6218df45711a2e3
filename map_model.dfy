// The maze description: grid line coordinates, the per-intersection wall
// codes of both axes, the dot-slot layout and the exception lists used when
// the dot tables are generated, and the one map the game ships with.
module MapModel {

  /** Centre reading of the joystick's analog axes. */
  const JOY_CENTRE: int := 512
  /** A request on an axis needs `Abs(value - JOY_CENTRE) > JOY_DEADZONE`. */
  const JOY_DEADZONE: int := 500
  /** Distance of the virtual tunnel wall beyond the outermost grid line. */
  const TUNNEL: int := 26

  /**
   * Everything the game reads about one maze. Wall codes (`xMovement`,
   * `yMovement`) are per intersection: 0 no intersection, 1 wall on the
   * right/lower side, 2 wall on the left/upper side, 3 free passage.
   * `noDotsX`/`noDotsY` start with a count followed by that many inclusive
   * index ranges; `specialXDots`/`specialYDots` start with a count followed by
   * that many slot indices. The lcd image and the map name are not modelled.
   */
  datatype MapData = MapData(
    numOfRows: nat,
    numOfCollums: nat,
    rows: seq<int>,
    collums: seq<int>,
    numOfXDots: nat,
    numOfYDots: nat,
    numOfXDotsPerRow: nat,
    numOfYDotsPerCollum: nat,
    locationOfXDots: seq<int>,
    locationOfYDots: seq<int>,
    locationOfCollumXDots: seq<int>,
    locationOfRowYDots: seq<int>,
    specialXDots: seq<int>,
    specialYDots: seq<int>,
    noDotsX: seq<int>,
    noDotsY: seq<int>,
    xMovement: seq<int>,
    yMovement: seq<int>,
    xPacManStart: int,
    yPacManStart: int,
    pacManStartingRowPrev: int,
    pacManStartingCollumPrev: int,
    pacManStartingRowNext: int,
    pacManStartingCollumNext: int,
    ghostOneStartingRowPrev: int,
    ghostOneStartingCollumPrev: int,
    ghostOneStartingRowNext: int,
    ghostOneStartingCollumNext: int,
    xGhostStart: int,
    yGhostStart: int)

  /**
   * One axis of the dot layout, as the generation pass sees it. `locs` are the
   * coordinates of the dot slots along one line (one "row" of the dot table),
   * `lines` the coordinates of the crossing lines, `pos[c]` the slot at which
   * crossing line `c` lies, `movement` the wall codes in the order the pass
   * meets them (`groups` lines of `|lines|` intersections each), and `atLine`
   * the value stored at an intersection slot.
   */
  datatype Axis = Axis(locs: seq<int>, lines: seq<int>, pos: seq<int>, movement: seq<int>, groups: nat, atLine: int)

  /** The row axis: dots along each row, crossed by the columns; intersections hold 1. */
  function XAxis(m: MapData): Axis
  {
    Axis(m.locationOfXDots, m.collums, m.locationOfCollumXDots, m.xMovement, m.numOfRows, 1)
  }

  /** The column axis: dots along each column, crossed by the rows; intersections hold 0. */
  function YAxis(m: MapData): Axis
  {
    Axis(m.locationOfYDots, m.rows, m.locationOfRowYDots, m.yMovement, m.numOfCollums, 0)
  }

  function NumDots(ax: Axis): nat
  {
    ax.groups * |ax.locs|
  }

  predicate Increasing(s: seq<int>)
  {
    forall k :: 0 <= k < |s| - 1 ==> s[k] < s[k + 1]
  }

  lemma {:induction false} IncreasingAt(s: seq<int>, j: int, k: int)
    requires Increasing(s) && 0 <= j < k < |s|
    ensures s[j] < s[k]
    decreases k - j
  {
    if j + 1 < k { IncreasingAt(s, j + 1, k); }
  }

  predicate ValidAxis(ax: Axis)
  {
    var lines :=
      && |ax.locs| > 0 && |ax.lines| > 0 && |ax.pos| == |ax.lines|
      && (ax.atLine == 0 || ax.atLine == 1)
      && Increasing(ax.locs) && Increasing(ax.pos) && ax.pos[0] == 0
      && (forall c :: 0 <= c < |ax.pos| ==> 0 <= ax.pos[c] < |ax.locs| && ax.locs[ax.pos[c]] == ax.lines[c]);
    var codes := |ax.movement| == ax.groups * |ax.lines| && WallCodes(ax.movement);
    lines && codes
  }

  /** Every wall code is one of 0 (no intersection), 1, 2 or 3. */
  predicate WallCodes(t: seq<int>)
  {
    forall k :: 0 <= k < |t| ==> 0 <= t[k] <= 3
  }

  lemma WallCodesAppend(a: seq<int>, b: seq<int>)
    requires WallCodes(a) && WallCodes(b)
    ensures WallCodes(a + b)
  {
    forall k | 0 <= k < |a + b| ensures 0 <= (a + b)[k] <= 3 {
      if k >= |a| { assert (a + b)[k] == b[k - |a|]; }
    }
  }

  /** First index of the `r`-th no-dot range. */
  function RangeStart(nd: seq<int>, r: int): int
    requires 0 <= r && 2 * r + 1 < |nd|
  {
    nd[2 * r + 1]
  }

  /** Last (inclusive) index of the `r`-th no-dot range. */
  function RangeEnd(nd: seq<int>, r: int): int
    requires 0 <= r && 2 * r + 2 < |nd|
  {
    nd[2 * r + 2]
  }

  /** A count-prefixed range list whose non-empty ranges lie inside a table of `size` slots. */
  predicate ValidNoDots(nd: seq<int>, size: nat)
  {
    && |nd| >= 1 && 0 <= nd[0] && 2 * nd[0] + 1 <= |nd|
    && forall r :: 0 <= r < nd[0] && RangeStart(nd, r) <= RangeEnd(nd, r) ==>
         0 <= RangeStart(nd, r) && RangeEnd(nd, r) < size
  }

  /** A count-prefixed index list whose indices lie inside a table of `size` slots. */
  predicate ValidSpecials(sp: seq<int>, size: nat)
  {
    && |sp| >= 1 && 0 <= sp[0] < |sp|
    && forall k :: 1 <= k <= sp[0] ==> 0 <= sp[k] < size
  }

  predicate ValidRowIndex(m: MapData, r: int) { 0 <= r < m.numOfRows }
  predicate ValidCollumIndex(m: MapData, c: int) { 0 <= c < m.numOfCollums }

  /**
   * What the game relies on without checking. The wall-bound scans index
   * `xMovement` with the row count as stride and the tunnel code hard-codes
   * column anchors 7 and 2, so the map must be square with at least 8 columns.
   */
  predicate ValidMap(m: MapData)
  {
    var grid :=
      && m.numOfRows == |m.rows| && m.numOfCollums == |m.collums|
      && m.numOfRows == m.numOfCollums && m.numOfCollums >= 8
      && Increasing(m.rows) && Increasing(m.collums);
    var axes :=
      && m.numOfXDotsPerRow == |m.locationOfXDots| && m.numOfYDotsPerCollum == |m.locationOfYDots|
      && ValidAxis(XAxis(m)) && ValidAxis(YAxis(m))
      && m.numOfXDots == NumDots(XAxis(m)) && m.numOfYDots == NumDots(YAxis(m));
    var lists :=
      && ValidNoDots(m.noDotsX, m.numOfXDots) && ValidNoDots(m.noDotsY, m.numOfYDots)
      && ValidSpecials(m.specialXDots, m.numOfXDots) && ValidSpecials(m.specialYDots, m.numOfYDots);
    var starts :=
      && ValidRowIndex(m, m.pacManStartingRowPrev) && ValidRowIndex(m, m.pacManStartingRowNext)
      && ValidCollumIndex(m, m.pacManStartingCollumPrev) && ValidCollumIndex(m, m.pacManStartingCollumNext)
      && ValidRowIndex(m, m.ghostOneStartingRowPrev) && ValidRowIndex(m, m.ghostOneStartingRowNext)
      && ValidCollumIndex(m, m.ghostOneStartingCollumPrev) && ValidCollumIndex(m, m.ghostOneStartingCollumNext);
    grid && axes && lists && starts
  }

  // Map one. The two wall-code tables are written one grid row (ten cells) per literal.

  const MapOneXRow0: seq<int> := [2, 3, 3, 3, 1, 2, 3, 3, 3, 1]
  const MapOneXRow1: seq<int> := [2, 3, 3, 3, 3, 3, 3, 3, 3, 1]
  const MapOneXRow2: seq<int> := [2, 3, 1, 2, 1, 2, 1, 2, 3, 1]
  const MapOneXRow3: seq<int> := [0, 0, 0, 2, 3, 3, 1, 0, 0, 0]
  const MapOneXRow4: seq<int> := [3, 3, 3, 1, 0, 0, 2, 3, 3, 3]
  const MapOneXRow5: seq<int> := [0, 0, 0, 2, 3, 3, 1, 0, 0, 0]
  const MapOneXRow6: seq<int> := [2, 3, 3, 3, 1, 2, 3, 3, 3, 1]
  const MapOneXRow7: seq<int> := [2, 1, 2, 3, 3, 3, 3, 1, 2, 1]
  const MapOneXRow8: seq<int> := [2, 3, 1, 2, 1, 2, 1, 2, 3, 1]
  const MapOneXRow9: seq<int> := [2, 3, 3, 3, 3, 3, 3, 3, 3, 1]
  const MapOneXMovement: seq<int> :=
      MapOneXRow0
      + MapOneXRow1
      + MapOneXRow2
      + MapOneXRow3
      + MapOneXRow4
      + MapOneXRow5
      + MapOneXRow6
      + MapOneXRow7
      + MapOneXRow8
      + MapOneXRow9

  const MapOneYRow0: seq<int> := [2, 3, 1, 0, 0, 0, 2, 1, 2, 1]
  const MapOneYRow1: seq<int> := [0, 0, 0, 0, 0, 0, 0, 2, 1, 0]
  const MapOneYRow2: seq<int> := [2, 3, 3, 3, 3, 3, 3, 3, 1, 0]
  const MapOneYRow3: seq<int> := [0, 2, 1, 2, 3, 3, 1, 2, 1, 0]
  const MapOneYRow4: seq<int> := [2, 1, 2, 1, 0, 0, 2, 1, 2, 1]
  const MapOneYRow5: seq<int> := [2, 1, 2, 1, 0, 0, 2, 1, 2, 1]
  const MapOneYRow6: seq<int> := [0, 2, 1, 2, 3, 3, 1, 2, 1, 0]
  const MapOneYRow7: seq<int> := [2, 3, 3, 3, 3, 3, 3, 3, 1, 0]
  const MapOneYRow8: seq<int> := [0, 0, 0, 0, 0, 0, 0, 2, 1, 0]
  const MapOneYRow9: seq<int> := [2, 3, 1, 0, 0, 0, 2, 1, 2, 1]
  const MapOneYMovement: seq<int> :=
      MapOneYRow0
      + MapOneYRow1
      + MapOneYRow2
      + MapOneYRow3
      + MapOneYRow4
      + MapOneYRow5
      + MapOneYRow6
      + MapOneYRow7
      + MapOneYRow8
      + MapOneYRow9

  const MapOne: MapData := MapData(
    10, 10,
    [31, 67, 95, 123, 149, 177, 205, 233, 259, 287],
    [13, 31, 59, 85, 113, 141, 169, 195, 223, 241],
    260, 290, 26, 29,
    [13, 23, 31, 41, 49, 59, 67, 77, 85, 95, 103, 113, 123, 131, 141, 151, 159, 169, 177, 187, 195, 205, 213, 223, 231, 241],
    [31, 41, 49, 59, 67, 77, 85, 95, 105, 113, 123, 131, 141, 149, 159, 167, 177, 187, 195, 205, 215, 223, 233, 241, 251, 259, 269, 277, 287],
    [0, 2, 5, 8, 11, 14, 17, 20, 23, 25],
    [0, 4, 7, 10, 13, 16, 19, 22, 25, 28],
    [2, 182, 207],
    [2, 2, 263],
    [8, 78, 82, 86, 95, 99, 108, 110, 123, 125, 134, 136, 149, 151, 155, 194, 195],
    [8, 98, 99, 101, 102, 104, 105, 124, 125, 153, 154, 185, 186, 188, 189, 191, 192],
    MapOneXMovement,
    MapOneYMovement,
    127, 233, 7, 4, 7, 5, 3, 4, 3, 5, 127, 123)

  lemma MapOneXLines()
    ensures forall c :: 0 <= c < |MapOne.locationOfCollumXDots| ==>
      0 <= MapOne.locationOfCollumXDots[c] < |MapOne.locationOfXDots| &&
      MapOne.locationOfXDots[MapOne.locationOfCollumXDots[c]] == MapOne.collums[c]
  {
  }

  lemma MapOneYLines()
    ensures forall c :: 0 <= c < |MapOne.locationOfRowYDots| ==>
      0 <= MapOne.locationOfRowYDots[c] < |MapOne.locationOfYDots| &&
      MapOne.locationOfYDots[MapOne.locationOfRowYDots[c]] == MapOne.rows[c]
  {
  }

  lemma MapOneXCodes()
    ensures WallCodes(MapOneXMovement)
  {
    var t := MapOneXRow0;
    assert WallCodes(t);
    assert WallCodes(MapOneXRow1);
    WallCodesAppend(t, MapOneXRow1);
    t := t + MapOneXRow1;
    assert WallCodes(MapOneXRow2);
    WallCodesAppend(t, MapOneXRow2);
    t := t + MapOneXRow2;
    assert WallCodes(MapOneXRow3);
    WallCodesAppend(t, MapOneXRow3);
    t := t + MapOneXRow3;
    assert WallCodes(MapOneXRow4);
    WallCodesAppend(t, MapOneXRow4);
    t := t + MapOneXRow4;
    assert WallCodes(MapOneXRow5);
    WallCodesAppend(t, MapOneXRow5);
    t := t + MapOneXRow5;
    assert WallCodes(MapOneXRow6);
    WallCodesAppend(t, MapOneXRow6);
    t := t + MapOneXRow6;
    assert WallCodes(MapOneXRow7);
    WallCodesAppend(t, MapOneXRow7);
    t := t + MapOneXRow7;
    assert WallCodes(MapOneXRow8);
    WallCodesAppend(t, MapOneXRow8);
    t := t + MapOneXRow8;
    assert WallCodes(MapOneXRow9);
    WallCodesAppend(t, MapOneXRow9);
    t := t + MapOneXRow9;
  }

  lemma MapOneYCodes()
    ensures WallCodes(MapOneYMovement)
  {
    var t := MapOneYRow0;
    assert WallCodes(t);
    assert WallCodes(MapOneYRow1);
    WallCodesAppend(t, MapOneYRow1);
    t := t + MapOneYRow1;
    assert WallCodes(MapOneYRow2);
    WallCodesAppend(t, MapOneYRow2);
    t := t + MapOneYRow2;
    assert WallCodes(MapOneYRow3);
    WallCodesAppend(t, MapOneYRow3);
    t := t + MapOneYRow3;
    assert WallCodes(MapOneYRow4);
    WallCodesAppend(t, MapOneYRow4);
    t := t + MapOneYRow4;
    assert WallCodes(MapOneYRow5);
    WallCodesAppend(t, MapOneYRow5);
    t := t + MapOneYRow5;
    assert WallCodes(MapOneYRow6);
    WallCodesAppend(t, MapOneYRow6);
    t := t + MapOneYRow6;
    assert WallCodes(MapOneYRow7);
    WallCodesAppend(t, MapOneYRow7);
    t := t + MapOneYRow7;
    assert WallCodes(MapOneYRow8);
    WallCodesAppend(t, MapOneYRow8);
    t := t + MapOneYRow8;
    assert WallCodes(MapOneYRow9);
    WallCodesAppend(t, MapOneYRow9);
    t := t + MapOneYRow9;
  }

  lemma MapOneGrid()
    ensures Increasing(MapOne.rows) && Increasing(MapOne.collums)
  {
  }

  lemma MapOneXIncreasing()
    ensures Increasing(MapOne.locationOfXDots) && Increasing(MapOne.locationOfCollumXDots)
  {
  }

  lemma MapOneXAxis()
    ensures ValidAxis(XAxis(MapOne))
  {
    MapOneXLines();
    MapOneXCodes();
    MapOneXIncreasing();
  }

  lemma MapOneYIncreasing()
    ensures Increasing(MapOne.locationOfYDots) && Increasing(MapOne.locationOfRowYDots)
  {
  }

  lemma MapOneYAxis()
    ensures ValidAxis(YAxis(MapOne))
  {
    MapOneYLines();
    MapOneYCodes();
    MapOneYIncreasing();
  }

  lemma MapOneNoDotsX()
    ensures ValidNoDots(MapOne.noDotsX, MapOne.numOfXDots)
  {
  }

  lemma MapOneNoDotsY()
    ensures ValidNoDots(MapOne.noDotsY, MapOne.numOfYDots)
  {
  }

  lemma MapOneSpecialX()
    ensures ValidSpecials(MapOne.specialXDots, MapOne.numOfXDots)
  {
  }

  lemma MapOneSpecialY()
    ensures ValidSpecials(MapOne.specialYDots, MapOne.numOfYDots)
  {
  }

  /** Map one meets every assumption the game code makes about a map. */
  lemma MapOneValid()
    ensures ValidMap(MapOne)
  {
    MapOneXAxis();
    MapOneYAxis();
    MapOneNoDotsX();
    MapOneNoDotsY();
    MapOneSpecialX();
    MapOneSpecialY();
    MapOneGrid();
  }
}
