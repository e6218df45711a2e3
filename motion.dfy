// The sprite and its per-frame motion rules, as functions on a snapshot of
// the sprite's fields: wall-bound resolution (`createConstraintsX/Y`,
// `updateConstraintsX/Y`), the moves (`moveX`, `moveY`, `scanPacMan`), the
// axis locks and anchors (`updateOther`, `updatePrevNextX/Y`) and the spawn
// templates of `createPacMan`/`createGhosts`. The `Actors` module runs these
// rules in place on a sprite object.
module Motion {
  import opened Util
  import opened MapModel

  /**
   * The fields of a sprite. `joyX/joyY` is the position after this frame's
   * move, `cursorX/cursorY` the position last drawn. `modeX` is set while the
   * sprite stands on a row (it may move along X), `modeY` while it stands on a
   * column. `prevRow/nextRow` and `prevCollum/nextCollum` are the grid lines
   * around the sprite. `color` is the colour index (1-5) into the palette.
   */
  datatype SpriteState = SpriteState(
    joyX: int, joyY: int, cursorX: int, cursorY: int, delta: int,
    modeX: bool, modeY: bool, moveX: bool, moveY: bool,
    lowerXConstraint: int, lowerYConstraint: int, upperXConstraint: int, upperYConstraint: int,
    prevRow: int, prevCollum: int, nextRow: int, nextCollum: int, color: int)

  /** The four anchors name grid lines of the map. */
  predicate AnchorsIn(m: MapData, s: SpriteState)
  {
    && 0 <= s.prevRow < m.numOfRows && 0 <= s.nextRow < m.numOfRows
    && 0 <= s.prevCollum < m.numOfCollums && 0 <= s.nextCollum < m.numOfCollums
  }

  /** Virtual wall left of the leftmost column, where the left tunnel ends. */
  function LeftTunnel(m: MapData): int
    requires |m.collums| > 0
  {
    m.collums[0] - TUNNEL
  }

  /** Virtual wall right of the rightmost column, where the right tunnel ends. */
  function RightTunnel(m: MapData): int
    requires |m.collums| > 0
  {
    m.collums[|m.collums| - 1] + TUNNEL
  }

  function TopTunnel(m: MapData): int
    requires |m.rows| > 0
  {
    m.rows[0] - TUNNEL
  }

  function BottomTunnel(m: MapData): int
    requires |m.rows| > 0
  {
    m.rows[|m.rows| - 1] + TUNNEL
  }

  // ---------------------------------------------------------------- scans

  /** What a wall scan found: a wall cell, the free end cell of a tunnel row, or nothing. */
  datatype Hit = NoHit | Wall(at: int) | Tunnel

  /**
   * The ascending wall scan over cells `i .. hi - 1`: the first cell holding
   * `wall`; with `tunnel`, a free (code 3) last cell ends the scan as a tunnel.
   */
  function ScanUp(t: seq<int>, i: int, hi: int, wall: int, tunnel: bool): (h: Hit)
    requires 0 <= i && hi <= |t|
    ensures h.Wall? ==> i <= h.at < hi && t[h.at] == wall && forall k :: i <= k < h.at ==> t[k] != wall
    ensures h.Tunnel? ==> tunnel && i < hi && t[hi - 1] == 3 && forall k :: i <= k < hi ==> t[k] != wall
    ensures h.NoHit? ==> (forall k :: i <= k < hi ==> t[k] != wall) && !(tunnel && i < hi && t[hi - 1] == 3)
    decreases hi - i
  {
    if i >= hi then NoHit
    else if t[i] == wall then Wall(i)
    else if tunnel && t[i] == 3 && i == hi - 1 then Tunnel
    else ScanUp(t, i + 1, hi, wall, tunnel)
  }

  /**
   * The descending wall scan over cells `i` down to `lo`: the first cell
   * holding `wall`; with `tunnel`, a free (code 3) cell `lo` ends the scan as a tunnel.
   */
  function ScanDown(t: seq<int>, i: int, lo: int, wall: int, tunnel: bool): (h: Hit)
    requires 0 <= lo && i < |t|
    ensures h.Wall? ==> lo <= h.at <= i && t[h.at] == wall && forall k :: h.at < k <= i ==> t[k] != wall
    ensures h.Tunnel? ==> tunnel && lo <= i && t[lo] == 3 && forall k :: lo <= k <= i ==> t[k] != wall
    ensures h.NoHit? ==> (forall k :: lo <= k <= i ==> t[k] != wall) && !(tunnel && lo <= i && t[lo] == 3)
    decreases i - lo + 1
  {
    if i < lo then NoHit
    else if t[i] == wall then Wall(i)
    else if tunnel && t[i] == 3 && i == lo then Tunnel
    else ScanDown(t, i - 1, lo, wall, tunnel)
  }

  /** The coordinate a scan result gives a bound: the wall's grid line, the tunnel wall, or the old bound. */
  function Bound(h: Hit, coords: seq<int>, base: int, tunnelAt: int, current: int): int
    requires h.Wall? ==> 0 <= h.at - base < |coords|
  {
    match h
    case Wall(at) => coords[at - base]
    case Tunnel => tunnelAt
    case NoHit => current
  }

  /** Cell `k` of the strided line `start, start + stride, ...` (0, "no intersection", off the table). */
  function Cell(t: seq<int>, start: int, stride: int, k: int): int
  {
    if 0 <= start + k * stride < |t| then t[start + k * stride] else 0
  }

  /**
   * The forward strided scan of `updatePrevNext*`: the first step `k' >= k`
   * below `count` whose cell is an intersection (nonzero code).
   */
  function StrideForward(t: seq<int>, start: int, stride: int, k: int, count: int): (r: Option<int>)
    requires 0 <= start < stride && 0 <= k && count * stride <= |t|
    ensures r.Some? ==> k <= r.value < count && Cell(t, start, stride, r.value) != 0
                        && forall q :: k <= q < r.value ==> Cell(t, start, stride, q) == 0
    ensures r.None? ==> forall q :: k <= q < count ==> Cell(t, start, stride, q) == 0
    decreases count - k
  {
    if k >= count then None
    else
      CellInTable(k, start, stride, count);
      if t[start + k * stride] != 0 then Some(k)
      else StrideForward(t, start, stride, k + 1, count)
  }

  /** A strided cell index at or above `lo >= 0` comes from a step `k >= 0`. */
  lemma StepNonNegative(start: int, stride: int, k: int, lo: int)
    requires 0 <= start < stride && 0 <= lo <= start + k * stride
    ensures k >= 0
  {
    if k < 0 { MulAtLeast(-k, stride); }
  }

  /**
   * The backward strided scan of `updatePrevNext*`: steps `k' <= k` while the
   * cell index `start + k' * stride` stays at or above `lo`; the first one
   * whose cell is an intersection.
   */
  function StrideBack(t: seq<int>, start: int, stride: int, k: int, lo: int, count: int): (r: Option<int>)
    requires 0 <= start < stride && k < count && count * stride <= |t| && 0 <= lo
    ensures r.Some? ==> 0 <= r.value <= k && start + r.value * stride >= lo && Cell(t, start, stride, r.value) != 0
                        && forall q :: r.value < q <= k ==> Cell(t, start, stride, q) == 0
    ensures r.None? ==> forall q :: 0 <= q <= k && start + q * stride >= lo ==> Cell(t, start, stride, q) == 0
    decreases k + 1
  {
    if start + k * stride < lo then
      NoCellsBelow(t, start, stride, k, lo);
      None
    else
      StepNonNegative(start, stride, k, lo);
      CellInTable(k, start, stride, count);
      if t[start + k * stride] != 0 then Some(k)
      else StrideBack(t, start, stride, k - 1, lo, count)
  }

  /** Below the bound `lo` at step `k`, every earlier step is below it too. */
  lemma NoCellsBelow(t: seq<int>, start: int, stride: int, k: int, lo: int)
    requires 0 <= start < stride && start + k * stride < lo
    ensures forall q :: q <= k ==> start + q * stride < lo
  {
    forall q | q <= k
      ensures start + q * stride < lo
    {
      if q < k { MulAtLeast(k - q, stride); assert k * stride - q * stride == (k - q) * stride; }
    }
  }

  // ---------------------------------------------------------------- table geometry

  /** The wall code at row `r`, column `c`, addressed as the constraint scans do (stride `numOfRows`). */
  function XCode(m: MapData, r: int, c: int): int
    requires ValidMap(m) && 0 <= r < m.numOfRows && 0 <= c < m.numOfCollums
  {
    RowBase(m, r);
    m.xMovement[r * m.numOfRows + c]
  }

  /** The wall code at column `c`, row `r`, addressed as the constraint scans do (stride `numOfCollums`). */
  function YCode(m: MapData, c: int, r: int): int
    requires ValidMap(m) && 0 <= c < m.numOfCollums && 0 <= r < m.numOfRows
  {
    CollumBase(m, c);
    m.yMovement[c * m.numOfCollums + r]
  }

  lemma RowBase(m: MapData, r: int)
    requires ValidMap(m) && 0 <= r < m.numOfRows
    ensures 0 <= r * m.numOfRows && r * m.numOfRows + m.numOfCollums <= |m.xMovement|
  {
    CellInTable(r, 0, m.numOfCollums, m.numOfRows);
  }

  lemma CollumBase(m: MapData, c: int)
    requires ValidMap(m) && 0 <= c < m.numOfCollums
    ensures 0 <= c * m.numOfCollums && c * m.numOfCollums + m.numOfRows <= |m.yMovement|
  {
    CellInTable(c, 0, m.numOfRows, m.numOfCollums);
  }

  lemma TableSizes(m: MapData)
    requires ValidMap(m)
    ensures m.numOfRows * m.numOfCollums <= |m.xMovement|
    ensures m.numOfCollums * m.numOfRows <= |m.yMovement|
  {
  }

  // ---------------------------------------------------------------- wall bounds

  /**
   * `createConstraintsX`: on a row, the upper bound becomes the first column
   * from `nextCollum` rightwards with code 1 and the lower bound the first
   * column from `prevCollum` leftwards with code 2 (each unchanged when there
   * is none); off a row, both collapse to the column `nextCollum`.
   */
  function CreateConstraintsX(m: MapData, s: SpriteState): (r: SpriteState)
    requires ValidMap(m) && AnchorsIn(m, s)
    ensures r.(lowerXConstraint := s.lowerXConstraint, upperXConstraint := s.upperXConstraint) == s
  {
    if s.modeX then
      var base := s.nextRow * m.numOfRows;
      RowBase(m, s.nextRow);
      var up := ScanUp(m.xMovement, s.nextCollum + base, m.numOfCollums + base, 1, false);
      var low := ScanDown(m.xMovement, s.prevCollum + base, base, 2, false);
      s.(upperXConstraint := Bound(up, m.collums, base, 0, s.upperXConstraint),
         lowerXConstraint := Bound(low, m.collums, base, 0, s.lowerXConstraint))
    else
      s.(lowerXConstraint := m.collums[s.nextCollum], upperXConstraint := m.collums[s.nextCollum])
  }

  /** `createConstraintsY`: the column-axis mirror of `CreateConstraintsX`, over `yMovement` and `rows`. */
  function CreateConstraintsY(m: MapData, s: SpriteState): (r: SpriteState)
    requires ValidMap(m) && AnchorsIn(m, s)
    ensures r.(lowerYConstraint := s.lowerYConstraint, upperYConstraint := s.upperYConstraint) == s
  {
    if s.modeY then
      var base := s.nextCollum * m.numOfCollums;
      CollumBase(m, s.nextCollum);
      var up := ScanUp(m.yMovement, s.nextRow + base, m.numOfRows + base, 1, false);
      var low := ScanDown(m.yMovement, s.prevRow + base, base, 2, false);
      s.(upperYConstraint := Bound(up, m.rows, base, 0, s.upperYConstraint),
         lowerYConstraint := Bound(low, m.rows, base, 0, s.lowerYConstraint))
    else
      s.(lowerYConstraint := m.rows[s.nextRow], upperYConstraint := m.rows[s.nextRow])
  }

  /**
   * `updateConstraintsX`: the row scans of `CreateConstraintsX`, whatever the
   * lock, where a free last (first) column opens onto the tunnel wall
   * `RightTunnel` (`LeftTunnel`).
   */
  function UpdateConstraintsX(m: MapData, s: SpriteState): (r: SpriteState)
    requires ValidMap(m) && AnchorsIn(m, s)
    ensures r.(lowerXConstraint := s.lowerXConstraint, upperXConstraint := s.upperXConstraint) == s
  {
    var base := s.nextRow * m.numOfRows;
    RowBase(m, s.nextRow);
    var up := ScanUp(m.xMovement, s.nextCollum + base, m.numOfCollums + base, 1, true);
    var low := ScanDown(m.xMovement, s.prevCollum + base, base, 2, true);
    s.(upperXConstraint := Bound(up, m.collums, base, RightTunnel(m), s.upperXConstraint),
       lowerXConstraint := Bound(low, m.collums, base, LeftTunnel(m), s.lowerXConstraint))
  }

  /** `updateConstraintsY`: the column-axis mirror of `UpdateConstraintsX`. */
  function UpdateConstraintsY(m: MapData, s: SpriteState): (r: SpriteState)
    requires ValidMap(m) && AnchorsIn(m, s)
    ensures r.(lowerYConstraint := s.lowerYConstraint, upperYConstraint := s.upperYConstraint) == s
  {
    var base := s.nextCollum * m.numOfCollums;
    CollumBase(m, s.nextCollum);
    var up := ScanUp(m.yMovement, s.nextRow + base, m.numOfRows + base, 1, true);
    var low := ScanDown(m.yMovement, s.prevRow + base, base, 2, true);
    s.(upperYConstraint := Bound(up, m.rows, base, BottomTunnel(m), s.upperYConstraint),
       lowerYConstraint := Bound(low, m.rows, base, TopTunnel(m), s.lowerYConstraint))
  }

  // ---------------------------------------------------------------- moves

  /** The joystick (or ghost request) value asks for motion on its axis. */
  predicate Requested(v: int)
  {
    Abs(v - JOY_CENTRE) > JOY_DEADZONE
  }

  /** The step a request sets: +2 above the centre, -2 otherwise. */
  function RequestDelta(v: int): int
  {
    if v - JOY_CENTRE > 0 then 2 else -2
  }

  /** The step part of `moveX`, before the tunnel check. */
  function StepX(s: SpriteState, horiz: int): (r: SpriteState)
    ensures r.(joyX := s.joyX, delta := s.delta, moveX := s.moveX, moveY := s.moveY) == s
    ensures (Requested(horiz) && s.modeX) || s.moveX ==>
              r.joyX == Constrain(s.joyX + r.delta, s.lowerXConstraint, s.upperXConstraint)
  {
    if (Requested(horiz) && s.modeX) || s.moveX then
      var s0 := if Requested(horiz) then s.(delta := RequestDelta(horiz), moveX := true, moveY := false) else s;
      s0.(joyX := Constrain(s0.joyX + s0.delta, s0.lowerXConstraint, s0.upperXConstraint))
    else s
  }

  /**
   * `moveX`: the step, then the tunnel wrap. Reaching `LeftTunnel` moves the
   * sprite to `RightTunnel` with both column anchors 7; reaching `RightTunnel`
   * moves it to `LeftTunnel` with both anchors 2; the X bounds are then recomputed.
   */
  function MoveX(m: MapData, s: SpriteState, horiz: int): (r: SpriteState)
    requires ValidMap(m) && AnchorsIn(m, s)
    ensures AnchorsIn(m, r)
  {
    Wrap(m, StepX(s, horiz))
  }

  /** The tunnel test at the end of `moveX`. */
  function Wrap(m: MapData, s1: SpriteState): (r: SpriteState)
    requires ValidMap(m) && AnchorsIn(m, s1)
    ensures AnchorsIn(m, r)
    ensures r.delta == s1.delta && r.moveX == s1.moveX && r.moveY == s1.moveY
  {
    if s1.joyX == LeftTunnel(m) then
      UpdateConstraintsX(m, s1.(joyX := RightTunnel(m), prevCollum := 7, nextCollum := 7))
    else if s1.joyX == RightTunnel(m) then
      UpdateConstraintsX(m, s1.(joyX := LeftTunnel(m), prevCollum := 2, nextCollum := 2))
    else s1
  }

  /** `moveY`: the column-axis step. There is no vertical tunnel. */
  function MoveY(s: SpriteState, vert: int): (r: SpriteState)
    ensures r.(joyY := s.joyY, delta := s.delta, moveX := s.moveX, moveY := s.moveY) == s
    ensures (Requested(vert) && s.modeY) || s.moveY ==>
              r.joyY == Constrain(s.joyY + r.delta, s.lowerYConstraint, s.upperYConstraint)
  {
    if (Requested(vert) && s.modeY) || s.moveY then
      var s0 := if Requested(vert) then s.(delta := RequestDelta(vert), moveY := true, moveX := false) else s;
      s0.(joyY := Constrain(s0.joyY + s0.delta, s0.lowerYConstraint, s0.upperYConstraint))
    else s
  }

  /**
   * `scanPacMan`: a sprite moving vertically tries the horizontal request
   * first and falls back to the vertical one if it did not start moving
   * horizontally; otherwise the other way round.
   */
  function ScanPacMan(m: MapData, s: SpriteState, horiz: int, vert: int): (r: SpriteState)
    requires ValidMap(m) && AnchorsIn(m, s)
    ensures AnchorsIn(m, r)
  {
    if s.moveY then
      var a := MoveX(m, s, horiz);
      if !a.moveX then MoveY(a, vert) else a
    else
      var a := MoveY(s, vert);
      if !a.moveY then MoveX(m, a, horiz) else a
  }

  // ---------------------------------------------------------------- anchors and locks

  /**
   * `updatePrevNextX`: on a row, the row anchors close onto the current row in
   * the direction of travel; off a row, moving down `nextRow` becomes the first
   * intersection row below `prevRow` in column `prevCollum`, moving up
   * `prevRow` becomes the first one above it (column `nextCollum`).
   */
  function UpdatePrevNextX(m: MapData, s: SpriteState): (r: SpriteState)
    requires ValidMap(m) && AnchorsIn(m, s)
    ensures AnchorsIn(m, r)
    ensures r.(prevRow := s.prevRow, nextRow := s.nextRow) == s
  {
    TableSizes(m);
    if s.modeX then
      if s.delta > 0 then s.(prevRow := s.nextRow) else s.(nextRow := s.prevRow)
    else if s.delta > 0 then
      match StrideForward(m.xMovement, s.prevCollum, m.numOfCollums, s.prevRow + 1, m.numOfRows)
      case Some(row) => s.(nextRow := row)
      case None => s
    else
      match StrideBack(m.xMovement, s.nextCollum, m.numOfCollums, s.prevRow - 1, s.prevCollum, m.numOfRows)
      case Some(row) => s.(prevRow := row)
      case None => s
  }

  /** `updatePrevNextY`: the column-axis mirror of `UpdatePrevNextX`, over `yMovement`. */
  function UpdatePrevNextY(m: MapData, s: SpriteState): (r: SpriteState)
    requires ValidMap(m) && AnchorsIn(m, s)
    ensures AnchorsIn(m, r)
    ensures r.(prevCollum := s.prevCollum, nextCollum := s.nextCollum) == s
  {
    TableSizes(m);
    if s.modeY then
      if s.delta > 0 then s.(prevCollum := s.nextCollum) else s.(nextCollum := s.prevCollum)
    else if s.delta > 0 then
      match StrideForward(m.yMovement, s.prevRow, m.numOfRows, s.prevCollum + 1, m.numOfCollums)
      case Some(col) => s.(nextCollum := col)
      case None => s
    else
      match StrideBack(m.yMovement, s.nextRow, m.numOfRows, s.prevCollum - 1, s.prevRow, m.numOfCollums)
      case Some(col) => s.(prevCollum := col)
      case None => s
  }

  /** The lock-on half of `updateOther` for the column axis. */
  function LockY(m: MapData, s: SpriteState): (r: SpriteState)
    requires ValidMap(m) && AnchorsIn(m, s)
    ensures AnchorsIn(m, r)
  {
    if !s.modeY && (m.collums[s.prevCollum] == s.cursorX || m.collums[s.nextCollum] == s.cursorX) then
      UpdateConstraintsY(m, UpdatePrevNextY(m, s.(modeY := true)))
    else s
  }

  /** The lock-on half of `updateOther` for the row axis. */
  function LockX(m: MapData, s: SpriteState): (r: SpriteState)
    requires ValidMap(m) && AnchorsIn(m, s)
    ensures AnchorsIn(m, r)
  {
    if !s.modeX && (m.rows[s.prevRow] == s.cursorY || m.rows[s.nextRow] == s.cursorY) then
      UpdateConstraintsX(m, UpdatePrevNextX(m, s.(modeX := true)))
    else s
  }

  /**
   * The column release of `updateOther`: moving along X while the drawn
   * position is off either anchor column drops the column lock and moves the
   * column anchors. The test uses `||` over the two anchors, as written.
   */
  function ReleaseY(m: MapData, s: SpriteState): (r: SpriteState)
    requires ValidMap(m) && AnchorsIn(m, s)
    ensures AnchorsIn(m, r)
  {
    if s.moveX && (s.cursorX != m.collums[s.prevCollum] || s.cursorX != m.collums[s.nextCollum])
    then UpdatePrevNextY(m, s.(modeY := false)) else s
  }

  /** The row release of `updateOther`, the mirror of `ReleaseY`. */
  function ReleaseX(m: MapData, s: SpriteState): (r: SpriteState)
    requires ValidMap(m) && AnchorsIn(m, s)
    ensures AnchorsIn(m, r)
  {
    if s.moveY && (s.cursorY != m.rows[s.prevRow] || s.cursorY != m.rows[s.nextRow])
    then UpdatePrevNextX(m, s.(modeX := false)) else s
  }

  /**
   * `updateOther`: lock onto a column, then onto a row, when the drawn
   * position reaches one of the anchors; then, only if both locks are now
   * on (tested once), the column release followed by the row release.
   */
  function UpdateOther(m: MapData, s: SpriteState): (r: SpriteState)
    requires ValidMap(m) && AnchorsIn(m, s)
    ensures AnchorsIn(m, r)
  {
    var s2 := LockX(m, LockY(m, s));
    if s2.modeY && s2.modeX then ReleaseX(m, ReleaseY(m, s2)) else s2
  }

  /** The state part of `updateCursor`: the drawn position catches up with the moved one. */
  function UpdateCursor(s: SpriteState): (r: SpriteState)
    ensures r.cursorX == r.joyX == s.joyX && r.cursorY == r.joyY == s.joyY
    ensures r.(cursorX := s.cursorX, cursorY := s.cursorY) == s
    ensures forall m :: AnchorsIn(m, s) ==> AnchorsIn(m, r)
  {
    s.(cursorX := s.joyX, cursorY := s.joyY)
  }

  // ---------------------------------------------------------------- spawning

  /**
   * The sprite template of `createPacMan`/`createGhosts`: at the start point,
   * moving left (-2) along a row, all bounds 0, then the X and Y bounds created.
   */
  function Spawn(m: MapData, x: int, y: int, prevRow: int, prevCollum: int, nextRow: int, nextCollum: int, color: int): (r: SpriteState)
    requires ValidMap(m)
    requires 0 <= prevRow < m.numOfRows && 0 <= nextRow < m.numOfRows
    requires 0 <= prevCollum < m.numOfCollums && 0 <= nextCollum < m.numOfCollums
    ensures AnchorsIn(m, r)
  {
    CreateConstraintsY(m, CreateConstraintsX(m, Template(x, y, prevRow, prevCollum, nextRow, nextCollum, color)))
  }

  /** The sprite template before its bounds are created. */
  function Template(x: int, y: int, prevRow: int, prevCollum: int, nextRow: int, nextCollum: int, color: int): SpriteState
  {
    SpriteState(x, y, x, y, -2, true, false, true, false, 0, 0, 0, 0,
                 prevRow, prevCollum, nextRow, nextCollum, color)
  }

  /** `createPacMan`: the template at the map's Pac-Man start, in the menu's colour. */
  function SpawnPacMan(m: MapData, color: int): (r: SpriteState)
    requires ValidMap(m)
    ensures AnchorsIn(m, r)
  {
    Spawn(m, m.xPacManStart, m.yPacManStart, m.pacManStartingRowPrev, m.pacManStartingCollumPrev,
          m.pacManStartingRowNext, m.pacManStartingCollumNext, color)
  }

  /** The palette index `createGhosts` gives ghost `j`. */
  function GhostColor(j: nat): int
  {
    ((j + 1) % 5) + ((j + 1) / 5)
  }

  /** `createGhosts`, for ghost `j`: the template at the ghost start. */
  function SpawnGhost(m: MapData, j: nat): (r: SpriteState)
    requires ValidMap(m)
    ensures AnchorsIn(m, r)
  {
    Spawn(m, m.xGhostStart, m.yGhostStart, m.ghostOneStartingRowPrev, m.ghostOneStartingCollumPrev,
          m.ghostOneStartingRowNext, m.ghostOneStartingCollumNext, GhostColor(j))
  }
}
