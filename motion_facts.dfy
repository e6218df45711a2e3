// What the motion rules guarantee: which wall a bound stops at, that moves
// stay inside the bounds and step at most 2, that a sprite always stands on
// a row or a column and moves along at most one axis, and where map one's
// sprites may move when they spawn.
module MotionFacts {
  import opened Util
  import opened MapModel
  import opened Motion

  // ---------------------------------------------------------------- scans

  /** The ascending scan stops at the first wall cell. */
  lemma ScanUpFindsFirst(t: seq<int>, i: int, hi: int, wall: int, tunnel: bool, c: int)
    requires 0 <= i <= c < hi <= |t| && t[c] == wall
    requires forall k :: i <= k < c ==> t[k] != wall
    ensures ScanUp(t, i, hi, wall, tunnel) == Wall(c)
  {
  }

  /** The descending scan stops at the first wall cell. */
  lemma ScanDownFindsFirst(t: seq<int>, i: int, lo: int, wall: int, tunnel: bool, c: int)
    requires 0 <= lo <= c <= i < |t| && t[c] == wall
    requires forall k :: c < k <= i ==> t[k] != wall
    ensures ScanDown(t, i, lo, wall, tunnel) == Wall(c)
  {
  }

  /** On row `r`, the ascending scan from column `from` stops at the first wall column `c`. */
  lemma RowScanUp(m: MapData, r: int, from: int, c: int, wall: int, tunnel: bool)
    requires ValidMap(m) && 0 <= r < m.numOfRows && 0 <= from <= c < m.numOfCollums
    requires XCode(m, r, c) == wall && forall c' :: from <= c' < c ==> XCode(m, r, c') != wall
    ensures 0 <= r * m.numOfRows && r * m.numOfRows + m.numOfCollums <= |m.xMovement|
    ensures ScanUp(m.xMovement, from + r * m.numOfRows, m.numOfCollums + r * m.numOfRows, wall, tunnel)
            == Wall(c + r * m.numOfRows)
  {
    var base := r * m.numOfRows;
    RowBase(m, r);
    forall k | from + base <= k < c + base ensures m.xMovement[k] != wall {
      assert XCode(m, r, k - base) != wall;
    }
    ScanUpFindsFirst(m.xMovement, from + base, m.numOfCollums + base, wall, tunnel, c + base);
  }

  /** On row `r`, the descending scan from column `upto` stops at the first wall column `c`. */
  lemma RowScanDown(m: MapData, r: int, upto: int, c: int, wall: int, tunnel: bool)
    requires ValidMap(m) && 0 <= r < m.numOfRows && 0 <= c <= upto < m.numOfCollums
    requires XCode(m, r, c) == wall && forall c' :: c < c' <= upto ==> XCode(m, r, c') != wall
    ensures 0 <= r * m.numOfRows && r * m.numOfRows + m.numOfCollums <= |m.xMovement|
    ensures ScanDown(m.xMovement, upto + r * m.numOfRows, r * m.numOfRows, wall, tunnel) == Wall(c + r * m.numOfRows)
  {
    var base := r * m.numOfRows;
    RowBase(m, r);
    forall k | c + base < k <= upto + base ensures m.xMovement[k] != wall {
      assert XCode(m, r, k - base) != wall;
    }
    ScanDownFindsFirst(m.xMovement, upto + base, base, wall, tunnel, c + base);
  }

  /** In column `c`, the ascending scan from row `from` stops at the first wall row `r`. */
  lemma CollumScanUp(m: MapData, c: int, from: int, r: int, wall: int, tunnel: bool)
    requires ValidMap(m) && 0 <= c < m.numOfCollums && 0 <= from <= r < m.numOfRows
    requires YCode(m, c, r) == wall && forall r' :: from <= r' < r ==> YCode(m, c, r') != wall
    ensures 0 <= c * m.numOfCollums && c * m.numOfCollums + m.numOfRows <= |m.yMovement|
    ensures ScanUp(m.yMovement, from + c * m.numOfCollums, m.numOfRows + c * m.numOfCollums, wall, tunnel)
            == Wall(r + c * m.numOfCollums)
  {
    var base := c * m.numOfCollums;
    CollumBase(m, c);
    forall k | from + base <= k < r + base ensures m.yMovement[k] != wall {
      assert YCode(m, c, k - base) != wall;
    }
    ScanUpFindsFirst(m.yMovement, from + base, m.numOfRows + base, wall, tunnel, r + base);
  }

  /** In column `c`, the descending scan from row `upto` stops at the first wall row `r`. */
  lemma CollumScanDown(m: MapData, c: int, upto: int, r: int, wall: int, tunnel: bool)
    requires ValidMap(m) && 0 <= c < m.numOfCollums && 0 <= r <= upto < m.numOfRows
    requires YCode(m, c, r) == wall && forall r' :: r < r' <= upto ==> YCode(m, c, r') != wall
    ensures 0 <= c * m.numOfCollums && c * m.numOfCollums + m.numOfRows <= |m.yMovement|
    ensures ScanDown(m.yMovement, upto + c * m.numOfCollums, c * m.numOfCollums, wall, tunnel) == Wall(r + c * m.numOfCollums)
  {
    var base := c * m.numOfCollums;
    CollumBase(m, c);
    forall k | r + base < k <= upto + base ensures m.yMovement[k] != wall {
      assert YCode(m, c, k - base) != wall;
    }
    ScanDownFindsFirst(m.yMovement, upto + base, base, wall, tunnel, r + base);
  }

  // ---------------------------------------------------------------- X bounds

  /**
   * On a row, the upper X bound is the first column from `nextCollum`
   * rightwards whose wall code is 1; both the create and the update scan agree.
   */
  lemma UpperXIsFirstWall(m: MapData, s: SpriteState, c: int)
    requires ValidMap(m) && AnchorsIn(m, s) && s.nextCollum <= c < m.numOfCollums
    requires XCode(m, s.nextRow, c) == 1
    requires forall c' :: s.nextCollum <= c' < c ==> XCode(m, s.nextRow, c') != 1
    ensures s.modeX ==> CreateConstraintsX(m, s).upperXConstraint == m.collums[c]
    ensures UpdateConstraintsX(m, s).upperXConstraint == m.collums[c]
  {
    UpperXIsFirstWallCreate(m, s, c);
    UpperXIsFirstWallUpdate(m, s, c);
  }

  lemma UpperXIsFirstWallCreate(m: MapData, s: SpriteState, c: int)
    requires ValidMap(m) && AnchorsIn(m, s) && s.nextCollum <= c < m.numOfCollums
    requires XCode(m, s.nextRow, c) == 1
    requires forall c' :: s.nextCollum <= c' < c ==> XCode(m, s.nextRow, c') != 1
    ensures s.modeX ==> CreateConstraintsX(m, s).upperXConstraint == m.collums[c]
  {
    RowScanUp(m, s.nextRow, s.nextCollum, c, 1, false);
  }

  lemma UpperXIsFirstWallUpdate(m: MapData, s: SpriteState, c: int)
    requires ValidMap(m) && AnchorsIn(m, s) && s.nextCollum <= c < m.numOfCollums
    requires XCode(m, s.nextRow, c) == 1
    requires forall c' :: s.nextCollum <= c' < c ==> XCode(m, s.nextRow, c') != 1
    ensures UpdateConstraintsX(m, s).upperXConstraint == m.collums[c]
  {
    RowScanUp(m, s.nextRow, s.nextCollum, c, 1, true);
  }

  /**
   * On a row with no code-1 wall from `nextCollum` rightwards, creating the
   * bounds leaves the upper bound as it was; updating them places it on the
   * right tunnel wall when the last column is free (code 3) and leaves it
   * otherwise.
   */
  lemma UpperXWithoutWall(m: MapData, s: SpriteState)
    requires ValidMap(m) && AnchorsIn(m, s)
    requires forall c' :: s.nextCollum <= c' < m.numOfCollums ==> XCode(m, s.nextRow, c') != 1
    ensures s.modeX ==> CreateConstraintsX(m, s).upperXConstraint == s.upperXConstraint
    ensures UpdateConstraintsX(m, s).upperXConstraint
            == if XCode(m, s.nextRow, m.numOfCollums - 1) == 3 then RightTunnel(m) else s.upperXConstraint
  {
    var base := s.nextRow * m.numOfRows;
    RowBase(m, s.nextRow);
    forall k | s.nextCollum + base <= k < m.numOfCollums + base
      ensures m.xMovement[k] != 1
    {
      assert XCode(m, s.nextRow, k - base) != 1;
    }
    assert XCode(m, s.nextRow, m.numOfCollums - 1) == m.xMovement[m.numOfCollums + base - 1];
  }

  /**
   * On a row, the lower X bound is the first column from `prevCollum`
   * leftwards whose wall code is 2; both the create and the update scan agree.
   */
  lemma LowerXIsFirstWall(m: MapData, s: SpriteState, c: int)
    requires ValidMap(m) && AnchorsIn(m, s) && 0 <= c <= s.prevCollum
    requires XCode(m, s.nextRow, c) == 2
    requires forall c' :: c < c' <= s.prevCollum ==> XCode(m, s.nextRow, c') != 2
    ensures s.modeX ==> CreateConstraintsX(m, s).lowerXConstraint == m.collums[c]
    ensures UpdateConstraintsX(m, s).lowerXConstraint == m.collums[c]
  {
    LowerXIsFirstWallCreate(m, s, c);
    LowerXIsFirstWallUpdate(m, s, c);
  }

  lemma LowerXIsFirstWallCreate(m: MapData, s: SpriteState, c: int)
    requires ValidMap(m) && AnchorsIn(m, s) && 0 <= c <= s.prevCollum
    requires XCode(m, s.nextRow, c) == 2
    requires forall c' :: c < c' <= s.prevCollum ==> XCode(m, s.nextRow, c') != 2
    ensures s.modeX ==> CreateConstraintsX(m, s).lowerXConstraint == m.collums[c]
  {
    RowScanDown(m, s.nextRow, s.prevCollum, c, 2, false);
  }

  lemma LowerXIsFirstWallUpdate(m: MapData, s: SpriteState, c: int)
    requires ValidMap(m) && AnchorsIn(m, s) && 0 <= c <= s.prevCollum
    requires XCode(m, s.nextRow, c) == 2
    requires forall c' :: c < c' <= s.prevCollum ==> XCode(m, s.nextRow, c') != 2
    ensures UpdateConstraintsX(m, s).lowerXConstraint == m.collums[c]
  {
    RowScanDown(m, s.nextRow, s.prevCollum, c, 2, true);
  }

  /**
   * On a row with no code-2 wall from `prevCollum` leftwards, creating the
   * bounds leaves the lower bound as it was; updating them places it on the
   * left tunnel wall when the first column is free (code 3).
   */
  lemma LowerXWithoutWall(m: MapData, s: SpriteState)
    requires ValidMap(m) && AnchorsIn(m, s)
    requires forall c' :: 0 <= c' <= s.prevCollum ==> XCode(m, s.nextRow, c') != 2
    ensures s.modeX ==> CreateConstraintsX(m, s).lowerXConstraint == s.lowerXConstraint
    ensures UpdateConstraintsX(m, s).lowerXConstraint
            == if XCode(m, s.nextRow, 0) == 3 then LeftTunnel(m) else s.lowerXConstraint
  {
    var base := s.nextRow * m.numOfRows;
    RowBase(m, s.nextRow);
    forall k | base <= k <= s.prevCollum + base
      ensures m.xMovement[k] != 2
    {
      assert XCode(m, s.nextRow, k - base) != 2;
    }
    assert XCode(m, s.nextRow, 0) == m.xMovement[base];
  }

  /** Off a row, the X bounds collapse onto the column `nextCollum`. */
  lemma UnlockedXCollapses(m: MapData, s: SpriteState)
    requires ValidMap(m) && AnchorsIn(m, s) && !s.modeX
    ensures CreateConstraintsX(m, s).lowerXConstraint == CreateConstraintsX(m, s).upperXConstraint == m.collums[s.nextCollum]
  {
  }

  /** Off a column, the Y bounds collapse onto the row `nextRow`. */
  lemma UnlockedYCollapses(m: MapData, s: SpriteState)
    requires ValidMap(m) && AnchorsIn(m, s) && !s.modeY
    ensures CreateConstraintsY(m, s).lowerYConstraint == CreateConstraintsY(m, s).upperYConstraint == m.rows[s.nextRow]
  {
  }

  // ---------------------------------------------------------------- Y bounds

  /** On a column, the upper Y bound is the first row from `nextRow` downwards whose wall code is 1. */
  lemma UpperYIsFirstWall(m: MapData, s: SpriteState, r: int)
    requires ValidMap(m) && AnchorsIn(m, s) && s.nextRow <= r < m.numOfRows
    requires YCode(m, s.nextCollum, r) == 1
    requires forall r' :: s.nextRow <= r' < r ==> YCode(m, s.nextCollum, r') != 1
    ensures s.modeY ==> CreateConstraintsY(m, s).upperYConstraint == m.rows[r]
    ensures UpdateConstraintsY(m, s).upperYConstraint == m.rows[r]
  {
    UpperYIsFirstWallCreate(m, s, r);
    UpperYIsFirstWallUpdate(m, s, r);
  }

  lemma UpperYIsFirstWallCreate(m: MapData, s: SpriteState, r: int)
    requires ValidMap(m) && AnchorsIn(m, s) && s.nextRow <= r < m.numOfRows
    requires YCode(m, s.nextCollum, r) == 1
    requires forall r' :: s.nextRow <= r' < r ==> YCode(m, s.nextCollum, r') != 1
    ensures s.modeY ==> CreateConstraintsY(m, s).upperYConstraint == m.rows[r]
  {
    CollumScanUp(m, s.nextCollum, s.nextRow, r, 1, false);
  }

  lemma UpperYIsFirstWallUpdate(m: MapData, s: SpriteState, r: int)
    requires ValidMap(m) && AnchorsIn(m, s) && s.nextRow <= r < m.numOfRows
    requires YCode(m, s.nextCollum, r) == 1
    requires forall r' :: s.nextRow <= r' < r ==> YCode(m, s.nextCollum, r') != 1
    ensures UpdateConstraintsY(m, s).upperYConstraint == m.rows[r]
  {
    CollumScanUp(m, s.nextCollum, s.nextRow, r, 1, true);
  }

  /** On a column, the lower Y bound is the first row from `prevRow` upwards whose wall code is 2. */
  lemma LowerYIsFirstWall(m: MapData, s: SpriteState, r: int)
    requires ValidMap(m) && AnchorsIn(m, s) && 0 <= r <= s.prevRow
    requires YCode(m, s.nextCollum, r) == 2
    requires forall r' :: r < r' <= s.prevRow ==> YCode(m, s.nextCollum, r') != 2
    ensures s.modeY ==> CreateConstraintsY(m, s).lowerYConstraint == m.rows[r]
    ensures UpdateConstraintsY(m, s).lowerYConstraint == m.rows[r]
  {
    LowerYIsFirstWallCreate(m, s, r);
    LowerYIsFirstWallUpdate(m, s, r);
  }

  lemma LowerYIsFirstWallCreate(m: MapData, s: SpriteState, r: int)
    requires ValidMap(m) && AnchorsIn(m, s) && 0 <= r <= s.prevRow
    requires YCode(m, s.nextCollum, r) == 2
    requires forall r' :: r < r' <= s.prevRow ==> YCode(m, s.nextCollum, r') != 2
    ensures s.modeY ==> CreateConstraintsY(m, s).lowerYConstraint == m.rows[r]
  {
    CollumScanDown(m, s.nextCollum, s.prevRow, r, 2, false);
  }

  lemma LowerYIsFirstWallUpdate(m: MapData, s: SpriteState, r: int)
    requires ValidMap(m) && AnchorsIn(m, s) && 0 <= r <= s.prevRow
    requires YCode(m, s.nextCollum, r) == 2
    requires forall r' :: r < r' <= s.prevRow ==> YCode(m, s.nextCollum, r') != 2
    ensures UpdateConstraintsY(m, s).lowerYConstraint == m.rows[r]
  {
    CollumScanDown(m, s.nextCollum, s.prevRow, r, 2, true);
  }

  /**
   * On a column without walls towards the map edge, updating the Y bounds
   * opens them onto the tunnel walls when the edge rows are free (code 3).
   */
  lemma YWithoutWall(m: MapData, s: SpriteState)
    requires ValidMap(m) && AnchorsIn(m, s)
    requires forall r' :: s.nextRow <= r' < m.numOfRows ==> YCode(m, s.nextCollum, r') != 1
    requires forall r' :: 0 <= r' <= s.prevRow ==> YCode(m, s.nextCollum, r') != 2
    ensures UpdateConstraintsY(m, s).upperYConstraint
            == if YCode(m, s.nextCollum, m.numOfRows - 1) == 3 then BottomTunnel(m) else s.upperYConstraint
    ensures UpdateConstraintsY(m, s).lowerYConstraint
            == if YCode(m, s.nextCollum, 0) == 3 then TopTunnel(m) else s.lowerYConstraint
  {
    var base := s.nextCollum * m.numOfCollums;
    CollumBase(m, s.nextCollum);
    forall k | s.nextRow + base <= k < m.numOfRows + base
      ensures m.yMovement[k] != 1
    {
      assert YCode(m, s.nextCollum, k - base) != 1;
    }
    forall k | base <= k <= s.prevRow + base
      ensures m.yMovement[k] != 2
    {
      assert YCode(m, s.nextCollum, k - base) != 2;
    }
    assert YCode(m, s.nextCollum, m.numOfRows - 1) == m.yMovement[m.numOfRows + base - 1];
    assert YCode(m, s.nextCollum, 0) == m.yMovement[base];
  }

  // ---------------------------------------------------------------- moves

  /**
   * `moveX` leaves everything but the tunnel check alone unless a request
   * arrives while locked on a row, or the sprite already moves along X.
   */
  lemma StepXIdle(s: SpriteState, horiz: int)
    requires !(Requested(horiz) && s.modeX) && !s.moveX
    ensures StepX(s, horiz) == s
  {
  }

  /**
   * An accepted request sets the step to ±2 by the request's sign, sets the X
   * move flag and clears the Y one; a reversal along X is always accepted
   * because the sprite already moves along X.
   */
  lemma StepXRequest(m: MapData, s: SpriteState, horiz: int)
    requires ValidMap(m) && AnchorsIn(m, s)
    requires Requested(horiz) && (s.modeX || s.moveX)
    ensures var r := MoveX(m, s, horiz);
      r.delta == RequestDelta(horiz) && r.moveX && !r.moveY
      && (horiz > JOY_CENTRE <==> r.delta == 2) && (horiz < JOY_CENTRE <==> r.delta == -2)
  {
  }

  /**
   * A step moves X by at most 2 and keeps a sprite that stood within its X
   * bounds within them; only the tunnel wrap can move it further.
   */
  lemma StepXBounded(s: SpriteState, horiz: int)
    requires s.lowerXConstraint <= s.joyX <= s.upperXConstraint
    requires s.delta == 2 || s.delta == -2
    ensures var r := StepX(s, horiz);
      r.lowerXConstraint <= r.joyX <= r.upperXConstraint && -2 <= r.joyX - s.joyX <= 2
  {
  }

  /**
   * `moveY` leaves the sprite alone unless a request arrives while locked on a
   * column, or the sprite already moves along Y.
   */
  lemma MoveYIdle(s: SpriteState, vert: int)
    requires !(Requested(vert) && s.modeY) && !s.moveY
    ensures MoveY(s, vert) == s
  {
  }

  /**
   * An accepted Y request sets the step to ±2 by the request's sign, sets the
   * Y move flag, clears the X one and takes one step within the Y bounds; a
   * reversal along Y is always accepted.
   */
  lemma MoveYRequest(s: SpriteState, vert: int)
    requires Requested(vert) && (s.modeY || s.moveY)
    ensures var r := MoveY(s, vert);
      r.delta == RequestDelta(vert) && r.moveY && !r.moveX
      && r.joyY == Constrain(s.joyY + RequestDelta(vert), s.lowerYConstraint, s.upperYConstraint)
      && (vert > JOY_CENTRE <==> r.delta == 2) && (vert < JOY_CENTRE <==> r.delta == -2)
      && r.joyX == s.joyX && r.modeX == s.modeX && r.modeY == s.modeY
  {
  }

  /** Without a request, a sprite already moving along Y keeps its step and flags and takes one step. */
  lemma MoveYContinue(s: SpriteState, vert: int)
    requires !Requested(vert) && s.moveY
    ensures var r := MoveY(s, vert);
      r == s.(joyY := Constrain(s.joyY + s.delta, s.lowerYConstraint, s.upperYConstraint))
  {
  }

  /** The Y step moves Y by at most 2 and keeps a sprite within its Y bounds. */
  lemma MoveYBounded(s: SpriteState, vert: int)
    requires s.lowerYConstraint <= s.joyY <= s.upperYConstraint
    requires s.delta == 2 || s.delta == -2
    ensures var r := MoveY(s, vert);
      r.lowerYConstraint <= r.joyY <= r.upperYConstraint && -2 <= r.joyY - s.joyY <= 2
      && r.joyX == s.joyX && r.modeX == s.modeX && r.modeY == s.modeY
  {
  }

  /**
   * The tunnel wrap: a step onto the left tunnel wall lands on the right one
   * with both column anchors 7, a step onto the right one lands on the left
   * one with both anchors 2, and the X bounds are recomputed there.
   */
  lemma TunnelWrap(m: MapData, s: SpriteState, horiz: int)
    requires ValidMap(m) && AnchorsIn(m, s)
    ensures var s1 := StepX(s, horiz); var r := MoveX(m, s, horiz);
      && (s1.joyX == LeftTunnel(m) ==>
            r == UpdateConstraintsX(m, s1.(joyX := RightTunnel(m), prevCollum := 7, nextCollum := 7))
            && r.joyX == RightTunnel(m) && r.prevCollum == r.nextCollum == 7)
      && (s1.joyX == RightTunnel(m) ==>
            r == UpdateConstraintsX(m, s1.(joyX := LeftTunnel(m), prevCollum := 2, nextCollum := 2))
            && r.joyX == LeftTunnel(m) && r.prevCollum == r.nextCollum == 2)
      && (s1.joyX != LeftTunnel(m) && s1.joyX != RightTunnel(m) ==> r == s1)
  {
    assert LeftTunnel(m) < RightTunnel(m) by {
      IncreasingAt(m.collums, 0, |m.collums| - 1);
    }
  }

  // ---------------------------------------------------------------- the axis invariant

  /** A sprite stands on a row or a column, and moves along at most one axis. */
  predicate OnTrack(s: SpriteState)
  {
    (s.modeX || s.modeY) && !(s.moveX && s.moveY)
  }

  lemma MoveXOnTrack(m: MapData, s: SpriteState, horiz: int)
    requires ValidMap(m) && AnchorsIn(m, s) && OnTrack(s)
    ensures OnTrack(MoveX(m, s, horiz))
  {
  }

  lemma ScanPacManOnTrack(m: MapData, s: SpriteState, horiz: int, vert: int)
    requires ValidMap(m) && AnchorsIn(m, s) && OnTrack(s)
    ensures OnTrack(ScanPacMan(m, s, horiz, vert))
  {
    MoveXOnTrack(m, s, horiz);
    MoveXOnTrack(m, MoveY(s, vert), horiz);
  }

  /**
   * `updateOther` keeps a sprite on track: it releases at most one lock,
   * because a sprite moves along at most one axis.
   */
  lemma UpdateOtherOnTrack(m: MapData, s: SpriteState)
    requires ValidMap(m) && AnchorsIn(m, s) && OnTrack(s)
    ensures OnTrack(UpdateOther(m, s))
  {
    var s1 := LockY(m, s);
    var s2 := LockX(m, s1);
    assert s1.moveX == s.moveX && s1.moveY == s.moveY && (s1.modeX || s1.modeY);
    assert s2.moveX == s.moveX && s2.moveY == s.moveY && (s2.modeX || s2.modeY);
  }

  lemma SpawnOnTrack(m: MapData, j: nat, color: int)
    requires ValidMap(m)
    ensures OnTrack(SpawnPacMan(m, color)) && OnTrack(SpawnGhost(m, j))
  {
  }

  // ---------------------------------------------------------------- anchors

  /**
   * Moving down in a column, `updatePrevNextX` sets `nextRow` to the first
   * row below `prevRow` whose intersection with column `prevCollum` exists.
   */
  lemma NextRowIsFirstBelow(m: MapData, s: SpriteState, r: int)
    requires ValidMap(m) && AnchorsIn(m, s) && !s.modeX && s.delta > 0
    requires s.prevRow < r < m.numOfRows && XCode(m, r, s.prevCollum) != 0
    requires forall r' :: s.prevRow < r' < r ==> XCode(m, r', s.prevCollum) == 0
    ensures UpdatePrevNextX(m, s).nextRow == r
  {
    TableSizes(m);
    var f := StrideForward(m.xMovement, s.prevCollum, m.numOfCollums, s.prevRow + 1, m.numOfRows);
    XCodeIsCell(m, r, s.prevCollum);
    if f.Some? { XCodeIsCell(m, f.value, s.prevCollum); }
  }

  /** Moving right in a row, `updatePrevNextY` sets `nextCollum` to the first column right of `prevCollum` with an intersection on row `prevRow`. */
  lemma NextCollumIsFirstRight(m: MapData, s: SpriteState, c: int)
    requires ValidMap(m) && AnchorsIn(m, s) && !s.modeY && s.delta > 0
    requires s.prevCollum < c < m.numOfCollums && YCode(m, c, s.prevRow) != 0
    requires forall c' :: s.prevCollum < c' < c ==> YCode(m, c', s.prevRow) == 0
    ensures UpdatePrevNextY(m, s).nextCollum == c
  {
    TableSizes(m);
    var f := StrideForward(m.yMovement, s.prevRow, m.numOfRows, s.prevCollum + 1, m.numOfCollums);
    YCodeIsCell(m, c, s.prevRow);
    if f.Some? { YCodeIsCell(m, f.value, s.prevRow); }
  }

  /**
   * Moving up in a column (both column anchors equal), `updatePrevNextX` sets
   * `prevRow` to the first row above `prevRow` whose intersection with that
   * column exists.
   */
  lemma PrevRowIsFirstAbove(m: MapData, s: SpriteState, r: int)
    requires ValidMap(m) && AnchorsIn(m, s) && !s.modeX && s.delta <= 0 && s.prevCollum == s.nextCollum
    requires 0 <= r < s.prevRow && XCode(m, r, s.nextCollum) != 0
    requires forall r' :: r < r' < s.prevRow ==> XCode(m, r', s.nextCollum) == 0
    ensures UpdatePrevNextX(m, s).prevRow == r
  {
    TableSizes(m);
    var b := StrideBack(m.xMovement, s.nextCollum, m.numOfCollums, s.prevRow - 1, s.prevCollum, m.numOfRows);
    XCodeIsCell(m, r, s.nextCollum);
    if r > 0 { MulAtLeast(r, m.numOfCollums); }
    if b.Some? { XCodeIsCell(m, b.value, s.nextCollum); }
  }

  /**
   * Moving left in a row (both row anchors equal), `updatePrevNextY` sets
   * `prevCollum` to the first column left of `prevCollum` with an intersection
   * on that row.
   */
  lemma PrevCollumIsFirstLeft(m: MapData, s: SpriteState, c: int)
    requires ValidMap(m) && AnchorsIn(m, s) && !s.modeY && s.delta <= 0 && s.prevRow == s.nextRow
    requires 0 <= c < s.prevCollum && YCode(m, c, s.nextRow) != 0
    requires forall c' :: c < c' < s.prevCollum ==> YCode(m, c', s.nextRow) == 0
    ensures UpdatePrevNextY(m, s).prevCollum == c
  {
    TableSizes(m);
    var b := StrideBack(m.yMovement, s.nextRow, m.numOfRows, s.prevCollum - 1, s.prevRow, m.numOfCollums);
    YCodeIsCell(m, c, s.nextRow);
    if c > 0 { MulAtLeast(c, m.numOfRows); }
    if b.Some? { YCodeIsCell(m, b.value, s.nextRow); }
  }

  lemma XCodeIsCell(m: MapData, r: int, c: int)
    requires ValidMap(m) && 0 <= r < m.numOfRows && 0 <= c < m.numOfCollums
    ensures XCode(m, r, c) == Cell(m.xMovement, c, m.numOfCollums, r)
  {
    RowBase(m, r);
  }

  lemma YCodeIsCell(m: MapData, c: int, r: int)
    requires ValidMap(m) && 0 <= c < m.numOfCollums && 0 <= r < m.numOfRows
    ensures YCode(m, c, r) == Cell(m.yMovement, r, m.numOfRows, c)
  {
    CollumBase(m, c);
  }

  // ---------------------------------------------------------------- spawning

  /**
   * A spawned sprite stands still on its start point, moving left along a row:
   * its Y bounds collapse onto its row, so it can only move along that row
   * until it reaches a column.
   */
  lemma SpawnPinnedToRow(m: MapData, color: int)
    requires ValidMap(m)
    ensures var p := SpawnPacMan(m, color);
      && p.joyX == p.cursorX == m.xPacManStart && p.joyY == p.cursorY == m.yPacManStart
      && p.delta == -2 && p.modeX && !p.modeY && p.moveX && !p.moveY
      && p.lowerYConstraint == p.upperYConstraint == m.rows[m.pacManStartingRowNext]
  {
  }

  /** Ghost `j` gets palette entry `j + 1` for the four ghosts the menu allows. */
  lemma GhostColors(j: nat)
    requires j < 4
    ensures GhostColor(j) == j + 1
  {
  }

  /** Row 7 of map one, where Pac-Man starts, as the constraint scans address it. */
  lemma MapOneRowSeven()
    ensures ValidMap(MapOne)
    ensures forall c :: 0 <= c < 10 ==> XCode(MapOne, 7, c) == [2, 1, 2, 3, 3, 3, 3, 1, 2, 1][c]
  {
    MapOneValid();
    assert MapOne.xMovement[70..80] == [2, 1, 2, 3, 3, 3, 3, 1, 2, 1];
  }

  /** Row 3 of map one, through the ghost house, as the constraint scans address it. */
  lemma MapOneRowThree()
    ensures ValidMap(MapOne)
    ensures forall c :: 0 <= c < 10 ==> XCode(MapOne, 3, c) == [0, 0, 0, 2, 3, 3, 1, 0, 0, 0][c]
  {
    MapOneValid();
    assert MapOne.xMovement[30..40] == [0, 0, 0, 2, 3, 3, 1, 0, 0, 0];
  }

  /** On map one Pac-Man spawns on row 233 and may roam x in [59, 195]. */
  lemma MapOnePacManSpawn(color: int)
    ensures ValidMap(MapOne)
    ensures var p := SpawnPacMan(MapOne, color);
      p.lowerXConstraint == 59 && p.upperXConstraint == 195
      && p.lowerYConstraint == p.upperYConstraint == 233 == p.joyY
  {
    MapOneRowSeven();
    var m := MapOne;
    var t := SpriteState(127, 233, 127, 233, -2, true, false, true, false, 0, 0, 0, 0, 7, 4, 7, 5, color);
    UpperXIsFirstWallCreate(m, t, 7);
    LowerXIsFirstWallCreate(m, t, 2);
  }

  /** On map one a ghost spawns on row 123, inside the ghost house, with x in [85, 169]. */
  lemma MapOneGhostSpawn(j: nat)
    ensures ValidMap(MapOne)
    ensures var g := SpawnGhost(MapOne, j);
      g.lowerXConstraint == 85 && g.upperXConstraint == 169
      && g.lowerYConstraint == g.upperYConstraint == 123 == g.joyY
  {
    MapOneRowThree();
    var m := MapOne;
    var t := SpriteState(127, 123, 127, 123, -2, true, false, true, false, 0, 0, 0, 0, 3, 4, 3, 5, GhostColor(j));
    UpperXIsFirstWallCreate(m, t, 6);
    LowerXIsFirstWallCreate(m, t, 3);
  }
}
