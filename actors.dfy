// The sprite as the game holds it: an object whose fields the motion
// routines update in place, each routine proved to leave the object in the
// state the matching function of `Motion` describes.
module Actors {
  import opened Util
  import opened MapModel
  import opened Motion

  class Sprite {
    var joyX: int
    var joyY: int
    var cursorX: int
    var cursorY: int
    var delta: int
    var modeX: bool
    var modeY: bool
    var moveX: bool
    var moveY: bool
    var lowerXConstraint: int
    var lowerYConstraint: int
    var upperXConstraint: int
    var upperYConstraint: int
    var prevRow: int
    var prevCollum: int
    var nextRow: int
    var nextCollum: int
    var color: int

    /** The sprite's fields as a value. */
    function State(): SpriteState
      reads this
    {
      SpriteState(joyX, joyY, cursorX, cursorY, delta, modeX, modeY, moveX, moveY,
                  lowerXConstraint, lowerYConstraint, upperXConstraint, upperYConstraint,
                  prevRow, prevCollum, nextRow, nextCollum, color)
    }

    constructor (s: SpriteState)
      ensures State() == s
    {
      joyX, joyY, cursorX, cursorY, delta, modeX, modeY, moveX, moveY, lowerXConstraint, lowerYConstraint, upperXConstraint, upperYConstraint, prevRow, prevCollum, nextRow, nextCollum, color
        := s.joyX, s.joyY, s.cursorX, s.cursorY, s.delta, s.modeX, s.modeY, s.moveX, s.moveY, s.lowerXConstraint, s.lowerYConstraint, s.upperXConstraint, s.upperYConstraint, s.prevRow, s.prevCollum, s.nextRow, s.nextCollum, s.color;
    }

    /** The upper-bound loop shared by `createConstraintsX/Y` and `updateConstraintsX/Y`. */
    static method ScanUpLoop(t: seq<int>, lo: int, hi: int, wall: int, tunnel: bool) returns (h: Hit)
      requires 0 <= lo && hi <= |t|
      ensures h == ScanUp(t, lo, hi, wall, tunnel)
    {
      var i := lo;
      while i < hi
        invariant lo <= i
        invariant ScanUp(t, lo, hi, wall, tunnel) == ScanUp(t, i, hi, wall, tunnel)
        decreases hi - i
      {
        if t[i] == wall {
          return Wall(i);
        } else if tunnel && t[i] == 3 && i == hi - 1 {
          return Tunnel;
        }
        i := i + 1;
      }
      return NoHit;
    }

    /** The lower-bound loop shared by `createConstraintsX/Y` and `updateConstraintsX/Y`. */
    static method ScanDownLoop(t: seq<int>, start: int, lo: int, wall: int, tunnel: bool) returns (h: Hit)
      requires 0 <= lo && start < |t|
      ensures h == ScanDown(t, start, lo, wall, tunnel)
    {
      var i := start;
      while i >= lo
        invariant i <= start
        invariant ScanDown(t, start, lo, wall, tunnel) == ScanDown(t, i, lo, wall, tunnel)
        decreases i - lo + 1
      {
        if t[i] == wall {
          return Wall(i);
        } else if tunnel && t[i] == 3 && i == lo {
          return Tunnel;
        }
        i := i - 1;
      }
      return NoHit;
    }

    /** `createConstraintsX`. */
    method CreateConstraintsX(m: MapData)
      requires ValidMap(m) && AnchorsIn(m, State())
      modifies this
      ensures State() == Motion.CreateConstraintsX(m, old(State()))
    {
      if modeX {
        var base := nextRow * m.numOfRows;
        RowBase(m, nextRow);
        var up := ScanUpLoop(m.xMovement, nextCollum + base, m.numOfCollums + base, 1, false);
        upperXConstraint := Bound(up, m.collums, base, 0, upperXConstraint);
        var low := ScanDownLoop(m.xMovement, prevCollum + base, base, 2, false);
        lowerXConstraint := Bound(low, m.collums, base, 0, lowerXConstraint);
      } else {
        lowerXConstraint := m.collums[nextCollum];
        upperXConstraint := m.collums[nextCollum];
      }
    }

    /** `createConstraintsY`. */
    method CreateConstraintsY(m: MapData)
      requires ValidMap(m) && AnchorsIn(m, State())
      modifies this
      ensures State() == Motion.CreateConstraintsY(m, old(State()))
    {
      if modeY {
        var base := nextCollum * m.numOfCollums;
        CollumBase(m, nextCollum);
        var up := ScanUpLoop(m.yMovement, nextRow + base, m.numOfRows + base, 1, false);
        upperYConstraint := Bound(up, m.rows, base, 0, upperYConstraint);
        var low := ScanDownLoop(m.yMovement, prevRow + base, base, 2, false);
        lowerYConstraint := Bound(low, m.rows, base, 0, lowerYConstraint);
      } else {
        lowerYConstraint := m.rows[nextRow];
        upperYConstraint := m.rows[nextRow];
      }
    }

    /** `updateConstraintsX`. */
    method UpdateConstraintsX(m: MapData)
      requires ValidMap(m) && AnchorsIn(m, State())
      modifies this
      ensures State() == Motion.UpdateConstraintsX(m, old(State()))
    {
      var base := nextRow * m.numOfRows;
      RowBase(m, nextRow);
      var up := ScanUpLoop(m.xMovement, nextCollum + base, m.numOfCollums + base, 1, true);
      var low := ScanDownLoop(m.xMovement, prevCollum + base, base, 2, true);
      upperXConstraint, lowerXConstraint :=
        Bound(up, m.collums, base, RightTunnel(m), upperXConstraint), Bound(low, m.collums, base, LeftTunnel(m), lowerXConstraint);
    }

    /** `updateConstraintsY`. */
    method UpdateConstraintsY(m: MapData)
      requires ValidMap(m) && AnchorsIn(m, State())
      modifies this
      ensures State() == Motion.UpdateConstraintsY(m, old(State()))
    {
      var base := nextCollum * m.numOfCollums;
      CollumBase(m, nextCollum);
      var up := ScanUpLoop(m.yMovement, nextRow + base, m.numOfRows + base, 1, true);
      var low := ScanDownLoop(m.yMovement, prevRow + base, base, 2, true);
      upperYConstraint, lowerYConstraint :=
        Bound(up, m.rows, base, BottomTunnel(m), upperYConstraint), Bound(low, m.rows, base, TopTunnel(m), lowerYConstraint);
    }

    /** The forward strided loop of `updatePrevNext*`; returns the loop index it stopped at, divided by the stride. */
    static method StrideForwardLoop(t: seq<int>, start: int, stride: int, k0: int, count: int) returns (r: Option<int>)
      requires 0 <= start < stride && 0 <= k0 && count * stride <= |t|
      ensures r == StrideForward(t, start, stride, k0, count)
    {
      var i := start + k0 * stride;
      ghost var k := k0;
      while i < start + count * stride
        invariant k0 <= k && i == start + k * stride
        invariant StrideForward(t, start, stride, k0, count) == StrideForward(t, start, stride, k, count)
        decreases count - k
      {
        StrideAt(start, stride, k, count);
        if t[i] != 0 {
          return Some(i / stride);
        }
        i := i + stride;
        k := k + 1;
      }
      StrideAt(start, stride, k, count);
      return None;
    }

    /** The backward strided loop of `updatePrevNext*`. */
    static method StrideBackLoop(t: seq<int>, start: int, stride: int, k0: int, lo: int, count: int) returns (r: Option<int>)
      requires 0 <= start < stride && k0 < count && count * stride <= |t| && 0 <= lo
      ensures r == StrideBack(t, start, stride, k0, lo, count)
    {
      var i := start + k0 * stride;
      ghost var k := k0;
      while i >= lo
        invariant k <= k0 && i == start + k * stride
        invariant StrideBack(t, start, stride, k0, lo, count) == StrideBack(t, start, stride, k, lo, count)
        decreases i
      {
        StepNonNegative(start, stride, k, lo);
        StrideAt(start, stride, k, count);
        if t[i] != 0 {
          return Some(i / stride);
        }
        i := i - stride;
        k := k - 1;
      }
      return None;
    }

    /** `updatePrevNextX`. */
    method UpdatePrevNextX(m: MapData)
      requires ValidMap(m) && AnchorsIn(m, State())
      modifies this
      ensures State() == Motion.UpdatePrevNextX(m, old(State()))
    {
      TableSizes(m);
      if modeX {
        if delta > 0 { prevRow := nextRow; } else { nextRow := prevRow; }
      } else if delta > 0 {
        var found := StrideForwardLoop(m.xMovement, prevCollum, m.numOfCollums, prevRow + 1, m.numOfRows);
        if found.Some? { nextRow := found.value; }
      } else {
        var found := StrideBackLoop(m.xMovement, nextCollum, m.numOfCollums, prevRow - 1, prevCollum, m.numOfRows);
        if found.Some? { prevRow := found.value; }
      }
    }

    /** `updatePrevNextY`. */
    method UpdatePrevNextY(m: MapData)
      requires ValidMap(m) && AnchorsIn(m, State())
      modifies this
      ensures State() == Motion.UpdatePrevNextY(m, old(State()))
    {
      TableSizes(m);
      if modeY {
        if delta > 0 { prevCollum := nextCollum; } else { nextCollum := prevCollum; }
      } else if delta > 0 {
        var found := StrideForwardLoop(m.yMovement, prevRow, m.numOfRows, prevCollum + 1, m.numOfCollums);
        if found.Some? { nextCollum := found.value; }
      } else {
        var found := StrideBackLoop(m.yMovement, nextRow, m.numOfRows, prevCollum - 1, prevRow, m.numOfCollums);
        if found.Some? { prevCollum := found.value; }
      }
    }

    /** The joystick step of `moveX`, before the tunnel test. */
    method StepX(horiz: int)
      modifies this
      ensures State() == Motion.StepX(old(State()), horiz)
    {
      if (Abs(horiz - JOY_CENTRE) > JOY_DEADZONE && modeX) || moveX {
        if Abs(horiz - JOY_CENTRE) > JOY_DEADZONE {
          if horiz - JOY_CENTRE > 0 { delta := 2; } else { delta := -2; }
          moveX := true;
          moveY := false;
        }
        joyX := Constrain(joyX + delta, lowerXConstraint, upperXConstraint);
      }
    }

    /** The tunnel test of `moveX`. */
    method Wrap(m: MapData)
      requires ValidMap(m) && AnchorsIn(m, State())
      modifies this
      ensures State() == Motion.Wrap(m, old(State()))
    {
      if joyX == m.collums[0] - TUNNEL {
        joyX, prevCollum, nextCollum := m.collums[m.numOfCollums - 1] + TUNNEL, 7, 7;
        UpdateConstraintsX(m);
      } else if joyX == m.collums[m.numOfCollums - 1] + TUNNEL {
        joyX, prevCollum, nextCollum := m.collums[0] - TUNNEL, 2, 2;
        UpdateConstraintsX(m);
      }
    }

    /** `moveX`: the step, then the tunnel wrap. */
    method MoveX(m: MapData, horiz: int)
      requires ValidMap(m) && AnchorsIn(m, State())
      modifies this
      ensures State() == Motion.MoveX(m, old(State()), horiz)
    {
      StepX(horiz);
      Wrap(m);
    }

    /** `moveY`. */
    method MoveY(vert: int)
      modifies this
      ensures State() == Motion.MoveY(old(State()), vert)
    {
      if (Abs(vert - JOY_CENTRE) > JOY_DEADZONE && modeY) || moveY {
        if Abs(vert - JOY_CENTRE) > JOY_DEADZONE {
          if vert - JOY_CENTRE > 0 { delta := 2; } else { delta := -2; }
          moveY := true;
          moveX := false;
        }
        joyY := Constrain(joyY + delta, lowerYConstraint, upperYConstraint);
      }
    }

    /** `scanPacMan`, with the two joystick axes passed in. */
    method ScanPacMan(m: MapData, horiz: int, vert: int)
      requires ValidMap(m) && AnchorsIn(m, State())
      modifies this
      ensures State() == Motion.ScanPacMan(m, old(State()), horiz, vert)
    {
      if moveY {
        MoveX(m, horiz);
        if !moveX { MoveY(vert); }
      } else {
        MoveY(vert);
        if !moveY { MoveX(m, horiz); }
      }
    }

    /** The state part of `updateCursor`. */
    method UpdateCursor()
      modifies this
      ensures State() == Motion.UpdateCursor(old(State()))
    {
      if joyX != cursorX || joyY != cursorY {
        cursorX := joyX;
        cursorY := joyY;
      }
    }

    /** The column lock-on of `updateOther`. */
    method LockY(m: MapData)
      requires ValidMap(m) && AnchorsIn(m, State())
      modifies this
      ensures State() == Motion.LockY(m, old(State()))
    {
      if !modeY {
        if m.collums[prevCollum] == cursorX || m.collums[nextCollum] == cursorX {
          modeY := true;
          UpdatePrevNextY(m);
          UpdateConstraintsY(m);
        }
      }
    }

    /** The row lock-on of `updateOther`. */
    method LockX(m: MapData)
      requires ValidMap(m) && AnchorsIn(m, State())
      modifies this
      ensures State() == Motion.LockX(m, old(State()))
    {
      if !modeX {
        if m.rows[prevRow] == cursorY || m.rows[nextRow] == cursorY {
          modeX := true;
          UpdatePrevNextX(m);
          UpdateConstraintsX(m);
        }
      }
    }

    /** The column release of `updateOther`. */
    method ReleaseY(m: MapData)
      requires ValidMap(m) && AnchorsIn(m, State())
      modifies this
      ensures State() == Motion.ReleaseY(m, old(State()))
    {
      if moveX && (cursorX != m.collums[prevCollum] || cursorX != m.collums[nextCollum]) {
        modeY := false;
        UpdatePrevNextY(m);
      }
    }

    /** The row release of `updateOther`. */
    method ReleaseX(m: MapData)
      requires ValidMap(m) && AnchorsIn(m, State())
      modifies this
      ensures State() == Motion.ReleaseX(m, old(State()))
    {
      if moveY && (cursorY != m.rows[prevRow] || cursorY != m.rows[nextRow]) {
        modeX := false;
        UpdatePrevNextX(m);
      }
    }

    /** `updateOther`. */
    method UpdateOther(m: MapData)
      requires ValidMap(m) && AnchorsIn(m, State())
      modifies this
      ensures State() == Motion.UpdateOther(m, old(State()))
    {
      LockY(m);
      LockX(m);
      if modeY && modeX {
        ReleaseY(m);
        ReleaseX(m);
      }
    }

    /** `updateSprite` for one sprite: the cursor copy, then `updateOther`. */
    method UpdateSprite(m: MapData)
      requires ValidMap(m) && AnchorsIn(m, State())
      modifies this
      ensures State() == Motion.UpdateOther(m, Motion.UpdateCursor(old(State())))
    {
      UpdateCursor();
      UpdateOther(m);
    }

    /** Part of the template assignment of `createPacMan`/`createGhosts`: the position: drawn where it stands. */
    method PlacePosition(x: int, y: int)
      modifies this
      ensures State() == old(State()).(joyX := x, joyY := y, cursorX := x, cursorY := y)
    {
      joyX, joyY, cursorX, cursorY := x, y, x, y;
    }

    /** Part of the template assignment of `createPacMan`/`createGhosts`: the direction: moving left along a row. */
    method PlaceDirection()
      modifies this
      ensures State() == old(State()).(delta := -2, modeX := true, modeY := false, moveX := true, moveY := false)
    {
      delta, modeX, modeY, moveX, moveY := -2, true, false, true, false;
    }

    /** Part of the template assignment of `createPacMan`/`createGhosts`: the bounds: all 0. */
    method PlaceBounds()
      modifies this
      ensures State() == old(State()).(lowerXConstraint := 0, lowerYConstraint := 0, upperXConstraint := 0, upperYConstraint := 0)
    {
      lowerXConstraint, lowerYConstraint, upperXConstraint, upperYConstraint := 0, 0, 0, 0;
    }

    /** Part of the template assignment of `createPacMan`/`createGhosts`: the anchors and colour. */
    method PlaceAnchors(pr: int, pc: int, nr: int, nc: int, c: int)
      modifies this
      ensures State() == old(State()).(prevRow := pr, prevCollum := pc, nextRow := nr, nextCollum := nc, color := c)
    {
      prevRow, prevCollum, nextRow, nextCollum, color := pr, pc, nr, nc, c;
    }

    /** The template assignment and bound creation of `createPacMan`/`createGhosts`. */
    method Spawn(m: MapData, x: int, y: int, pr: int, pc: int, nr: int, nc: int, c: int)
      requires ValidMap(m)
      requires 0 <= pr < m.numOfRows && 0 <= nr < m.numOfRows
      requires 0 <= pc < m.numOfCollums && 0 <= nc < m.numOfCollums
      modifies this
      ensures State() == Motion.Spawn(m, x, y, pr, pc, nr, nc, c)
    {
      PlacePosition(x, y);
      PlaceDirection();
      PlaceBounds();
      PlaceAnchors(pr, pc, nr, nc, c);
      CreateConstraintsX(m);
      CreateConstraintsY(m);
    }
  }

  /** Arithmetic of the strided cell index `start + k * stride` the `updatePrevNext*` loops walk. */
  lemma StrideAt(start: int, stride: int, k: int, count: int)
    requires 0 <= start < stride && 0 <= k
    ensures start + (k + 1) * stride == start + k * stride + stride
    ensures start + (k - 1) * stride == start + k * stride - stride
    ensures start + k * stride < start + count * stride <==> k < count
    ensures k < count ==> 0 <= start + k * stride < count * stride && (start + k * stride) / stride == k
  {
    StepBelow(start, stride, k, count);
    if k < count {
      CellInTable(k, start, stride, count);
      DivModUnique(start + k * stride, stride, k, start);
    }
  }

  /** A strided index is below `start + count * stride` exactly when its step is below `count`. */
  lemma StepBelow(start: int, stride: int, k: int, count: int)
    requires stride > 0
    ensures start + k * stride < start + count * stride <==> k < count
  {
    if k < count { MulAtLeast(count - k, stride); assert count * stride - k * stride == (count - k) * stride; }
    else if k > count { MulAtLeast(k - count, stride); assert k * stride - count * stride == (k - count) * stride; }
  }
}
