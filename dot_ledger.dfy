// Eating dots: which dot slot a sprite stands on (`readDotsX`, `readDotsY`,
// `readDotsXY`), what reading it returns and leaves behind, and the dot
// value an actor collects in one `scanScore` pass. The tables are values
// here; the `Game` module runs the reads in place on the game's arrays.
module DotLedger {
  import opened Util
  import opened MapModel
  import opened Motion

  /** First index `k` in `[i, hi]` with `t[k] == x`, the search loop of the read functions. */
  function FirstMatch(t: seq<int>, i: nat, hi: int, x: int): (r: Option<nat>)
    requires hi < |t|
    ensures r.Some? ==> i <= r.value <= hi && t[r.value] == x
    ensures r.Some? ==> forall k :: i <= k < r.value ==> t[k] != x
    ensures r.None? ==> forall k :: i <= k <= hi ==> t[k] != x
    decreases |t| - i
  {
    if i > hi then None
    else if t[i] == x then Some(i)
    else FirstMatch(t, i + 1, hi, x)
  }

  /**
   * The `xDots` slot `readDotsX` reads: the dot position between the
   * sprite's column anchors at its `joyX`, in the row of `prevRow`.
   */
  function SlotX(m: MapData, s: SpriteState): (r: Option<nat>)
    requires ValidMap(m) && AnchorsIn(m, s)
    ensures r.Some? ==> r.value < m.numOfXDots
  {
    var ax := XAxis(m);
    match FirstMatch(ax.locs, ax.pos[s.prevCollum], ax.pos[s.nextCollum], s.joyX)
    case None => None
    case Some(i) =>
      CellInTable(s.prevRow, i, m.numOfXDotsPerRow, m.numOfRows);
      Some(i + s.prevRow * m.numOfXDotsPerRow)
  }

  /** The `yDots` slot `readDotsY` reads: the mirror of `SlotX` along a column. */
  function SlotY(m: MapData, s: SpriteState): (r: Option<nat>)
    requires ValidMap(m) && AnchorsIn(m, s)
    ensures r.Some? ==> r.value < m.numOfYDots
  {
    var ax := YAxis(m);
    match FirstMatch(ax.locs, ax.pos[s.prevRow], ax.pos[s.nextRow], s.joyY)
    case None => None
    case Some(i) =>
      CellInTable(s.prevCollum, i, m.numOfYDotsPerCollum, m.numOfCollums);
      Some(i + s.prevCollum * m.numOfYDotsPerCollum)
  }

  /**
   * `readDotsXY` finds the row whose coordinate is `joyY` and the row dot
   * position whose coordinate is `joyX`; the source reads its indices
   * uninitialised when either is missing, so both must exist.
   */
  predicate OnDotCrossing(m: MapData, s: SpriteState)
  {
    s.joyY in m.rows && s.joyX in m.locationOfXDots
  }

  /**
   * The loops of `readDotsXY`: the first row at `joyY` and the first row dot
   * position at `joyX`.
   */
  function CrossingIndices(m: MapData, s: SpriteState): (r: (nat, nat))
    requires ValidMap(m) && OnDotCrossing(m, s)
    ensures r.0 < m.numOfRows && m.rows[r.0] == s.joyY
    ensures r.1 < m.numOfXDotsPerRow && m.locationOfXDots[r.1] == s.joyX
  {
    var one := FirstMatch(m.rows, 0, m.numOfRows - 1, s.joyY);
    var two := FirstMatch(m.locationOfXDots, 0, m.numOfXDotsPerRow - 1, s.joyX);
    assert one.Some? by { var k :| 0 <= k < |m.rows| && m.rows[k] == s.joyY; }
    assert two.Some? by { var k :| 0 <= k < |m.locationOfXDots| && m.locationOfXDots[k] == s.joyX; }
    (one.value, two.value)
  }

  /** The `xDots` slot `readDotsXY` reads: the intersection's slot in the row table. */
  function SlotXY(m: MapData, s: SpriteState): (r: nat)
    requires ValidMap(m) && OnDotCrossing(m, s)
    ensures r < m.numOfXDots
  {
    var (one, two) := CrossingIndices(m, s);
    CellInTable(one, two, m.numOfXDotsPerRow, m.numOfRows);
    two + one * m.numOfXDotsPerRow
  }

  /** What a read returns and the table it leaves. */
  datatype Read = Read(value: int, dots: seq<int>)

  /**
   * Reading a slot returns the value stored there and sets it to 0; with no
   * slot (the sprite is between dot positions) it returns 0.
   */
  function Consume(dots: seq<int>, slot: Option<nat>): (r: Read)
    ensures |r.dots| == |dots|
  {
    match slot
    case Some(k) => if k < |dots| then Read(dots[k], dots[k := 0]) else Read(0, dots)
    case None => Read(0, dots)
  }

  /** The sum of all dot values in a table. */
  function Sum(dots: seq<int>): int
  {
    if |dots| == 0 then 0 else Sum(dots[..|dots| - 1]) + dots[|dots| - 1]
  }

  /** Changing one slot changes the sum by the difference. */
  lemma {:induction false} SumUpdate(dots: seq<int>, k: nat, v: int)
    requires k < |dots|
    ensures Sum(dots[k := v]) == Sum(dots) - dots[k] + v
  {
    var n := |dots| - 1;
    var d := dots[k := v];
    assert d[..n] == if k < n then dots[..n][k := v] else dots[..n];
    if k < n {
      SumUpdate(dots[..n], k, v);
    }
  }

  /** A table of non-negative dots sums to a non-negative value. */
  lemma {:induction false} SumNonNegative(dots: seq<int>)
    requires forall k :: 0 <= k < |dots| ==> dots[k] >= 0
    ensures Sum(dots) >= 0
  {
    if |dots| > 0 {
      SumNonNegative(dots[..|dots| - 1]);
    }
  }

  /**
   * A read takes exactly the value it returns out of the table, changes no
   * other slot, and reading the same slot again returns 0.
   */
  lemma ConsumeFacts(dots: seq<int>, slot: Option<nat>)
    ensures var r := Consume(dots, slot);
      && Sum(r.dots) + r.value == Sum(dots)
      && (forall k :: 0 <= k < |dots| && slot != Some(k) ==> r.dots[k] == dots[k])
      && (slot.Some? && slot.value < |dots| ==> r.value == dots[slot.value] && r.dots[slot.value] == 0)
      && Consume(r.dots, slot).value == 0
  {
    if slot.Some? && slot.value < |dots| {
      SumUpdate(dots, slot.value, 0);
    }
  }

  /** Both dot tables. */
  datatype Tables = Tables(x: seq<int>, y: seq<int>)

  /** The total dot value left in both tables. */
  function Remaining(t: Tables): int
  {
    Sum(t.x) + Sum(t.y)
  }

  /**
   * What a sprite eats in `scanScore`: on a row only (`modeX`, not `modeY`)
   * the row table at `SlotX`, on a column only the column table at `SlotY`,
   * at an intersection the row table at `SlotXY`.
   */
  function Eat(m: MapData, t: Tables, s: SpriteState): (r: (int, Tables))
    requires ValidMap(m) && AnchorsIn(m, s)
    requires s.modeX && s.modeY ==> OnDotCrossing(m, s)
    ensures |r.1.x| == |t.x| && |r.1.y| == |t.y|
  {
    if s.modeX && !s.modeY then
      var rd := Consume(t.x, SlotX(m, s)); (rd.value, t.(x := rd.dots))
    else if s.modeY && !s.modeX then
      var rd := Consume(t.y, SlotY(m, s)); (rd.value, t.(y := rd.dots))
    else if s.modeX && s.modeY then
      var rd := Consume(t.x, Some(SlotXY(m, s))); (rd.value, t.(x := rd.dots))
    else (0, t)
  }

  /** The sprite stands where `Eat` is defined. */
  predicate CanEatOne(m: MapData, s: SpriteState)
  {
    AnchorsIn(m, s) && (s.modeX && s.modeY ==> OnDotCrossing(m, s))
  }

  /** Every sprite of `ss` stands where `Eat` is defined. */
  predicate CanEat(m: MapData, ss: seq<SpriteState>)
  {
    forall j :: 0 <= j < |ss| ==> CanEatOne(m, ss[j])
  }

  /** The sprites of `ss` eat in turn; the result is their total and the tables left. */
  function EatAll(m: MapData, t: Tables, ss: seq<SpriteState>): (r: (int, Tables))
    requires ValidMap(m) && CanEat(m, ss)
    ensures |r.1.x| == |t.x| && |r.1.y| == |t.y|
  {
    if |ss| == 0 then (0, t)
    else
      var before := EatAll(m, t, ss[..|ss| - 1]);
      var last := Eat(m, before.1, ss[|ss| - 1]);
      (before.0 + last.0, last.1)
  }

  /** Eating through one more sprite of `ss` is one more `Eat` after the prefix. */
  lemma EatAllStep(m: MapData, t: Tables, ss: seq<SpriteState>, l: nat)
    requires ValidMap(m) && CanEat(m, ss) && l < |ss|
    ensures CanEat(m, ss[..l]) && CanEat(m, ss[..l + 1])
    ensures var before := EatAll(m, t, ss[..l]);
      var last := Eat(m, before.1, ss[l]);
      EatAll(m, t, ss[..l + 1]) == (before.0 + last.0, last.1)
  {
    assert ss[..l + 1][..l] == ss[..l];
  }

  /** Eating moves value out of the tables and into the score, never creating any. */
  lemma EatConserves(m: MapData, t: Tables, s: SpriteState)
    requires ValidMap(m) && AnchorsIn(m, s)
    requires s.modeX && s.modeY ==> OnDotCrossing(m, s)
    ensures Remaining(Eat(m, t, s).1) + Eat(m, t, s).0 == Remaining(t)
  {
    if s.modeX && !s.modeY {
      ConsumeFacts(t.x, SlotX(m, s));
    } else if s.modeY && !s.modeX {
      ConsumeFacts(t.y, SlotY(m, s));
    } else if s.modeX && s.modeY {
      ConsumeFacts(t.x, Some(SlotXY(m, s)));
    }
  }

  /** What all sprites eat together equals what leaves the tables. */
  lemma {:induction false} EatAllConserves(m: MapData, t: Tables, ss: seq<SpriteState>)
    requires ValidMap(m) && CanEat(m, ss)
    ensures Remaining(EatAll(m, t, ss).1) + EatAll(m, t, ss).0 == Remaining(t)
  {
    if |ss| > 0 {
      var init := ss[..|ss| - 1];
      EatAllConserves(m, t, init);
      EatConserves(m, EatAll(m, t, init).1, ss[|ss| - 1]);
    }
  }

  /** What one `scanScore` pass adds to each score and the tables it leaves. */
  datatype Scoring = Scoring(pacManGain: int, ghostGain: int, left: Tables)

  /**
   * `scanScore`: Pac-Man eats first, then the ghosts in order; each dot value
   * read is worth ten points to whoever read it.
   */
  function ScoreFrame(m: MapData, t: Tables, pac: SpriteState, gs: seq<SpriteState>): (r: Scoring)
    requires ValidMap(m) && CanEatOne(m, pac) && CanEat(m, gs)
    ensures |r.left.x| == |t.x| && |r.left.y| == |t.y|
  {
    var p := Eat(m, t, pac);
    var g := EatAll(m, p.1, gs);
    Scoring(10 * p.0, 10 * g.0, g.1)
  }

  /**
   * Points are only ever moved out of the tables: the two gains together are
   * ten times the dot value that left the tables.
   */
  lemma ScoreFrameConserves(m: MapData, t: Tables, pac: SpriteState, gs: seq<SpriteState>)
    requires ValidMap(m) && CanEatOne(m, pac) && CanEat(m, gs)
    ensures var r := ScoreFrame(m, t, pac, gs);
      r.pacManGain + r.ghostGain + 10 * Remaining(r.left) == 10 * Remaining(t)
  {
    var p := Eat(m, t, pac);
    EatConserves(m, t, pac);
    EatAllConserves(m, p.1, gs);
  }

  /** Every slot of both tables is non-negative. */
  predicate NonNegativeTables(t: Tables)
  {
    (forall k :: 0 <= k < |t.x| ==> t.x[k] >= 0) && (forall k :: 0 <= k < |t.y| ==> t.y[k] >= 0)
  }

  /** Over non-negative tables a sprite gains a non-negative value and the tables stay non-negative. */
  lemma EatNonNegative(m: MapData, t: Tables, s: SpriteState)
    requires ValidMap(m) && CanEatOne(m, s) && NonNegativeTables(t)
    ensures Eat(m, t, s).0 >= 0 && NonNegativeTables(Eat(m, t, s).1)
  {
  }

  /** Over non-negative tables neither score ever decreases. */
  lemma {:induction false} EatAllNonNegative(m: MapData, t: Tables, ss: seq<SpriteState>)
    requires ValidMap(m) && CanEat(m, ss) && NonNegativeTables(t)
    ensures EatAll(m, t, ss).0 >= 0 && NonNegativeTables(EatAll(m, t, ss).1)
  {
    if |ss| > 0 {
      var init := ss[..|ss| - 1];
      EatAllNonNegative(m, t, init);
      EatNonNegative(m, EatAll(m, t, init).1, ss[|ss| - 1]);
    }
  }

  /** Over non-negative tables `scanScore` never lowers a score. */
  lemma ScoreFrameNonNegative(m: MapData, t: Tables, pac: SpriteState, gs: seq<SpriteState>)
    requires ValidMap(m) && CanEatOne(m, pac) && CanEat(m, gs) && NonNegativeTables(t)
    ensures var r := ScoreFrame(m, t, pac, gs);
      r.pacManGain >= 0 && r.ghostGain >= 0 && NonNegativeTables(r.left)
  {
    EatNonNegative(m, t, pac);
    EatAllNonNegative(m, Eat(m, t, pac).1, gs);
  }
}
