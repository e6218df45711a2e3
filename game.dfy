// The running game: the map's dot tables, Pac-Man, the four ghost slots, the
// ghosts' stored moves, the scores, the lives and the screen mode, all updated
// in place by the routines the main loop calls each frame and on each reset.
module Game {
  import opened Util
  import opened MapModel
  import opened Motion
  import opened DotTables
  import opened Actors
  import opened GhostPolicy
  import opened DotLedger

  // The `mode` values the main loop switches on.
  const RESET_GAME := 1
  const RESET_LEVEL := 5
  const RESET_DEATH := 6

  /** Score at which the first extra life is granted. */
  const FIRST_ONE_UP := 3000
  /** Distance between successive extra-life scores. */
  const ONE_UP_STEP := 5000
  /** What `resetScore` grows by on each new level. */
  const LEVEL_POINTS := 2560
  /** The stored move every ghost slot starts with: left, encoded. */
  const START_MOVE := -2000

  /** `menu.lives` is an 8-bit unsigned counter: decrement with wrap-around. */
  function LivesDown(lives: int): (r: int)
    requires 0 <= lives < 256
    ensures 0 <= r < 256
    ensures lives > 0 ==> r == lives - 1
    ensures lives == 0 ==> r == 255
  {
    (lives + 255) % 256
  }

  /** Increment with wrap-around. */
  function LivesUp(lives: int): (r: int)
    requires 0 <= lives < 256
    ensures 0 <= r < 256
    ensures lives < 255 ==> r == lives + 1
    ensures lives == 255 ==> r == 0
  {
    (lives + 1) % 256
  }

  /** A ghost catches Pac-Man when their drawn positions are within 2 on both axes. */
  predicate Catches(pac: SpriteState, g: SpriteState)
    ensures Catches(pac, g) <==> -2 <= g.cursorX - pac.cursorX <= 2 && -2 <= g.cursorY - pac.cursorY <= 2
  {
    Abs(pac.cursorX - g.cursorX) <= 2 && Abs(pac.cursorY - g.cursorY) <= 2
  }

  /** The catch test is symmetric. */
  lemma CatchesSquare(pac: SpriteState, g: SpriteState)
    ensures Catches(pac, g) == Catches(g, pac)
  {
  }

  /** Some ghost of `gs` catches Pac-Man. */
  predicate Caught(pac: SpriteState, gs: seq<SpriteState>)
  {
    exists j :: 0 <= j < |gs| && Catches(pac, gs[j])
  }

  /** Lives and mode after `updateGame`. */
  datatype Outcome = Outcome(lives: int, mode: int)

  /**
   * `updateGame` once the total is known: a total equal to `resetScore` ends
   * the level; a catch then costs one life and restarts the round, or the
   * whole game when no life is left.
   */
  function UpdateOutcome(total: int, resetScore: int, lives: int, mode: int, caught: bool): (r: Outcome)
    requires 0 <= lives < 256
    ensures 0 <= r.lives < 256
    ensures !caught ==> r.lives == lives && r.mode == (if total == resetScore then RESET_LEVEL else mode)
    ensures caught ==> r.lives == LivesDown(lives)
    ensures caught ==> (r.mode == RESET_GAME <==> r.lives == 0) && r.mode in {RESET_GAME, RESET_DEATH}
    ensures 0 < lives ==> r.lives >= lives - 1
  {
    var m := if total == resetScore then RESET_LEVEL else mode;
    if caught then
      var l := LivesDown(lives);
      Outcome(l, if l == 0 then RESET_GAME else RESET_DEATH)
    else Outcome(lives, m)
  }

  /** Lives and the next extra-life score after `updateLives`. */
  datatype OneUp = OneUp(lives: int, oneUpScore: int)

  /**
   * `updateLives`: reaching `oneUpScore` exactly grants a life and moves the
   * threshold 5000 further.
   */
  function UpdateOneUp(score: int, oneUpScore: int, lives: int): (r: OneUp)
    requires 0 <= lives < 256
    ensures 0 <= r.lives < 256
    ensures score == oneUpScore ==> r.lives == LivesUp(lives) && r.oneUpScore == oneUpScore + ONE_UP_STEP
    ensures score != oneUpScore ==> r == OneUp(lives, oneUpScore)
    ensures r.oneUpScore != score || score != oneUpScore
  {
    if score == oneUpScore then OneUp(LivesUp(lives), oneUpScore + ONE_UP_STEP) else OneUp(lives, oneUpScore)
  }

  /** A score grants at most one life: a second call at the same score changes nothing. */
  lemma OneUpOnce(score: int, oneUpScore: int, lives: int)
    requires 0 <= lives < 256
    ensures var r := UpdateOneUp(score, oneUpScore, lives);
      UpdateOneUp(score, r.oneUpScore, r.lives) == r
  {
  }

  /** A sprite as a zero-initialised global holds it. */
  const Cleared := SpriteState(0, 0, 0, 0, 0, false, false, false, false, 0, 0, 0, 0, 0, 0, 0, 0, 0)

  /** The states of a sequence of sprites. */
  function States(gs: seq<Sprite>): (r: seq<SpriteState>)
    reads gs
    ensures |r| == |gs| && forall j :: 0 <= j < |gs| ==> r[j] == gs[j].State()
  {
    if |gs| == 0 then [] else States(gs[..|gs| - 1]) + [gs[|gs| - 1].State()]
  }

  class Game {
    const Map: MapData
    const xDots: array<int>
    const yDots: array<int>
    const pacMan: Sprite
    const ghosts: seq<Sprite>
    const move: array<int>
    // Settings chosen in the custom menu before a game starts.
    const numOfGhosts: nat
    const difficulty: int
    const pacManColor: int
    var lives: int
    var score: int
    var ghostScore: int
    var totalScore: int
    var oneUpScore: int
    var resetScore: int
    var mode: int

    /** The fixed layout: sizes that match the map, and no two handles aliasing. */
    predicate Shape()
    {
      && ValidMap(Map)
      && xDots.Length == Map.numOfXDots && yDots.Length == Map.numOfYDots
      && move.Length == 8 && |ghosts| == 4
      && 1 <= numOfGhosts <= 4 && 1 <= difficulty <= 4
      && xDots != yDots && move != xDots && move != yDots
      && pacMan !in ghosts
      && (forall i, j :: 0 <= i < j < |ghosts| ==> ghosts[i] != ghosts[j])
    }

    /** Pac-Man and every ghost in play have their anchors inside the map. */
    predicate Placed()
      reads pacMan, ghosts
    {
      && Shape()
      && AnchorsIn(Map, pacMan.State())
      && forall j :: 0 <= j < numOfGhosts ==> AnchorsIn(Map, ghosts[j].State())
    }

    /** The ghosts in play. */
    function InPlay(): (r: seq<Sprite>)
      requires Shape()
      ensures |r| == numOfGhosts && forall j :: 0 <= j < numOfGhosts ==> r[j] == ghosts[j]
    {
      ghosts[..numOfGhosts]
    }

    /** Both dot tables as values. */
    function Dots(): Tables
      reads xDots, yDots
    {
      Tables(xDots[..], yDots[..])
    }

    /** Every stored ghost move is "left". */
    predicate MovesReset()
      reads move
    {
      forall k :: 0 <= k < move.Length ==> move[k] == START_MOVE
    }

    /**
     * The globals as the program starts: zeroed sprites and dot tables (they
     * are created when a level starts), every ghost moving left, mode 1.
     */
    constructor (m: MapData, ghostCount: nat, level: int, startLives: int, color: int)
      requires ValidMap(m)
      requires 1 <= ghostCount <= 4 && 1 <= level <= 4 && 0 <= startLives < 256
      ensures Placed() && MovesReset()
      ensures Map == m && numOfGhosts == ghostCount && difficulty == level && pacManColor == color
      ensures lives == startLives && mode == RESET_GAME
      ensures score == 0 && ghostScore == 0 && totalScore == 0 && resetScore == 0 && oneUpScore == FIRST_ONE_UP
    {
      Map := m;
      xDots := new int[m.numOfXDots];
      yDots := new int[m.numOfYDots];
      move := new int[8];
      var p, gs := NewSprites(m);
      pacMan, ghosts := p, gs;
      numOfGhosts := ghostCount;
      difficulty := level;
      pacManColor := color;
      lives := startLives;
      score, ghostScore, totalScore, oneUpScore, resetScore := 0, 0, 0, FIRST_ONE_UP, 0;
      mode := RESET_GAME;
      new;
      ResetMoves();
    }

    /** Pac-Man and the four ghosts, created zeroed, so anchored on row and column 0. */
    static method NewSprites(m: MapData) returns (p: Sprite, gs: seq<Sprite>)
      requires ValidMap(m)
      ensures fresh(p) && |gs| == 4 && p !in gs
      ensures forall i, j :: 0 <= i < j < |gs| ==> gs[i] != gs[j]
      ensures AnchorsIn(m, p.State()) && p.State() == Cleared
      ensures forall j :: 0 <= j < |gs| ==> fresh(gs[j]) && gs[j].State() == Cleared && AnchorsIn(m, gs[j].State())
    {
      p := new Sprite(Cleared);
      var g0 := new Sprite(Cleared);
      var g1 := new Sprite(Cleared);
      var g2 := new Sprite(Cleared);
      var g3 := new Sprite(Cleared);
      gs := [g0, g1, g2, g3];
    }

    // ------------------------------------------------------------ dot tables

    /** `generateDots`: both tables filled with their generated values. */
    method GenerateDots()
      requires Shape()
      modifies xDots, yDots
      ensures forall k :: 0 <= k < xDots.Length ==> xDots[k] == GeneratedDot(XAxis(Map), Map.noDotsX, Map.specialXDots, k)
      ensures forall k :: 0 <= k < yDots.Length ==> yDots[k] == GeneratedDot(YAxis(Map), Map.noDotsY, Map.specialYDots, k)
    {
      GenerateTable(XAxis(Map), Map.noDotsX, Map.specialXDots, xDots);
      GenerateTable(YAxis(Map), Map.noDotsY, Map.specialYDots, yDots);
    }

    /** `readDotsX`: the dot under a sprite on a row is read and cleared. */
    method ReadDotsX(s: Sprite) returns (value: int)
      requires Shape() && AnchorsIn(Map, s.State())
      modifies xDots
      ensures Read(value, xDots[..]) == Consume(old(xDots[..]), SlotX(Map, s.State()))
    {
      var locs := Map.locationOfXDots;
      var prevIndex := Map.locationOfCollumXDots[s.prevCollum];
      var nextIndex := Map.locationOfCollumXDots[s.nextCollum];
      var found := FirstMatch(locs, prevIndex, nextIndex, s.joyX);
      value := 0;
      var i := prevIndex;
      while i <= nextIndex
        invariant prevIndex <= i && (i == prevIndex || i <= nextIndex + 1)
        invariant found == FirstMatch(locs, i, nextIndex, s.joyX)
        invariant xDots[..] == old(xDots[..])
      {
        if s.joyX == locs[i] {
          CellInTable(s.prevRow, i, Map.numOfXDotsPerRow, Map.numOfRows);
          var slot := i + s.prevRow * Map.numOfXDotsPerRow;
          value := xDots[slot];
          if value != 0 {
            xDots[slot] := 0;
          }
          return;
        }
        i := i + 1;
      }
    }

    /** `readDotsY`: the dot under a sprite in a column is read and cleared. */
    method ReadDotsY(s: Sprite) returns (value: int)
      requires Shape() && AnchorsIn(Map, s.State())
      modifies yDots
      ensures Read(value, yDots[..]) == Consume(old(yDots[..]), SlotY(Map, s.State()))
    {
      var locs := Map.locationOfYDots;
      var prevIndex := Map.locationOfRowYDots[s.prevRow];
      var nextIndex := Map.locationOfRowYDots[s.nextRow];
      var found := FirstMatch(locs, prevIndex, nextIndex, s.joyY);
      value := 0;
      var i := prevIndex;
      while i <= nextIndex
        invariant prevIndex <= i && (i == prevIndex || i <= nextIndex + 1)
        invariant found == FirstMatch(locs, i, nextIndex, s.joyY)
        invariant yDots[..] == old(yDots[..])
      {
        if s.joyY == locs[i] {
          CellInTable(s.prevCollum, i, Map.numOfYDotsPerCollum, Map.numOfCollums);
          var slot := i + s.prevCollum * Map.numOfYDotsPerCollum;
          value := yDots[slot];
          if value != 0 {
            yDots[slot] := 0;
          }
          return;
        }
        i := i + 1;
      }
    }

    /** `readDotsXY`: the dot at the intersection a sprite stands on is read and cleared. */
    method ReadDotsXY(s: Sprite) returns (value: int)
      requires Shape() && OnDotCrossing(Map, s.State())
      modifies xDots
      ensures Read(value, xDots[..]) == Consume(old(xDots[..]), Some(SlotXY(Map, s.State())))
    {
      var indices := CrossingIndices(Map, s.State());
      var indexOne := 0;
      var i := 0;
      while i < Map.numOfRows
        invariant 0 <= i <= Map.numOfRows
        invariant FirstMatch(Map.rows, 0, Map.numOfRows - 1, s.joyY) == FirstMatch(Map.rows, i, Map.numOfRows - 1, s.joyY)
      {
        if s.joyY == Map.rows[i] {
          indexOne := i;
          break;
        }
        i := i + 1;
      }
      var indexTwo := 0;
      i := 0;
      while i < Map.numOfXDotsPerRow
        invariant 0 <= i <= Map.numOfXDotsPerRow
        invariant FirstMatch(Map.locationOfXDots, 0, Map.numOfXDotsPerRow - 1, s.joyX)
                  == FirstMatch(Map.locationOfXDots, i, Map.numOfXDotsPerRow - 1, s.joyX)
      {
        if s.joyX == Map.locationOfXDots[i] {
          indexTwo := i;
          break;
        }
        i := i + 1;
      }
      assert (indexOne, indexTwo) == indices;
      CellInTable(indexOne, indexTwo, Map.numOfXDotsPerRow, Map.numOfRows);
      var slot := indexTwo + indexOne * Map.numOfXDotsPerRow;
      value := xDots[slot];
      if value != 0 {
        xDots[slot] := 0;
      }
    }

    /** One sprite's share of `scanScore`: the read its axis locks select. */
    method EatDots(s: Sprite) returns (value: int)
      requires Shape() && CanEatOne(Map, s.State())
      modifies xDots, yDots
      ensures (value, Dots()) == Eat(Map, old(Dots()), s.State())
    {
      value := 0;
      if s.modeX && !s.modeY {
        value := ReadDotsX(s);
      }
      if s.modeY && !s.modeX {
        value := ReadDotsY(s);
      }
      if s.modeX && s.modeY {
        value := ReadDotsXY(s);
      }
    }

    /**
     * The ghost loop of `scanScore`: each ghost in play reads in turn; `gs`
     * names the ghosts' states.
     */
    method GhostsEat(ghost gs: seq<SpriteState>) returns (gain: int)
      requires Shape() && |gs| == numOfGhosts && CanEat(Map, gs)
      requires forall j :: 0 <= j < numOfGhosts ==> ghosts[j].State() == gs[j]
      modifies xDots, yDots
      ensures (gain, Dots()) == EatAll(Map, old(Dots()), gs)
    {
      ghost var t := Dots();
      gain := 0;
      var l := 0;
      while l < numOfGhosts
        invariant 0 <= l <= numOfGhosts && CanEat(Map, gs[..l])
        invariant (gain, Dots()) == EatAll(Map, t, gs[..l])
      {
        EatAllStep(Map, t, gs, l);
        var v := EatDots(ghosts[l]);
        gain := gain + v;
        l := l + 1;
      }
      assert gs[..numOfGhosts] == gs;
    }

    /**
     * `scanScore`: Pac-Man's read adds to `score`, each ghost's in turn to
     * `ghostScore`, ten points per dot value.
     */
    method ScanScore()
      requires Placed() && CanEatOne(Map, pacMan.State()) && CanEat(Map, States(InPlay()))
      modifies this`score, this`ghostScore, xDots, yDots
      ensures var r := ScoreFrame(Map, old(Dots()), old(pacMan.State()), old(States(InPlay())));
        score == old(score) + r.pacManGain && ghostScore == old(ghostScore) + r.ghostGain && Dots() == r.left
      ensures score + ghostScore + 10 * Remaining(Dots()) == old(score + ghostScore + 10 * Remaining(Dots()))
    {
      ghost var t := Dots();
      ghost var pac := pacMan.State();
      ghost var gs := States(InPlay());
      var v := EatDots(pacMan);
      score := score + 10 * v;
      var gain := GhostsEat(gs);
      ghostScore := ghostScore + 10 * gain;
      ScoreFrameConserves(Map, t, pac, gs);
    }

    // ------------------------------------------------------------ movement

    /** `scanPacMan` with the joystick's two axis readings. */
    method ScanPacMan(horiz: int, vert: int)
      requires Placed()
      modifies pacMan
      ensures Placed()
      ensures pacMan.State() == Motion.ScanPacMan(Map, old(pacMan.State()), horiz, vert)
    {
      pacMan.ScanPacMan(Map, horiz, vert);
    }

    /** One pass of the `scanGhosts` loop, for ghost `j` with draw `rnd`. */
    method ScanOneGhost(j: nat, rnd: int)
      requires Shape() && j < numOfGhosts && AnchorsIn(Map, ghosts[j].State())
      requires AtIntersection(ghosts[j].State()) ==> Total(EvaluateDirections(ghosts[j].State(), NoWeights)) > 0
      modifies move, ghosts[j]
      ensures (move[j], ghosts[j].State())
              == ScanGhost(Map, old(ghosts[j].State()), old(move[j]), pacMan.State(), difficulty, rnd)
      ensures forall i :: 0 <= i < move.Length && i != j ==> move[i] == old(move[i])
    {
      var g := ghosts[j];
      var code;
      if (g.moveX && g.modeY) || (g.moveY && g.modeX) {
        code := RandGhost(g.State(), pacMan.State(), difficulty, rnd);
      } else {
        code := CDiv(move[j], 2000);
      }
      move[j] := code * 2000;
      if Abs(code) == 1 {
        g.MoveX(Map, move[j]);
      } else {
        g.MoveY(move[j]);
      }
    }

    /**
     * `scanGhosts`: every ghost in play draws a new direction at an
     * intersection, otherwise keeps its stored one, and moves; `rnds[j]` is
     * ghost `j`'s draw.
     */
    method ScanGhosts(rnds: seq<int>)
      requires Placed() && numOfGhosts <= |rnds|
      requires forall j :: 0 <= j < numOfGhosts ==>
                 AtIntersection(ghosts[j].State()) ==> Total(EvaluateDirections(ghosts[j].State(), NoWeights)) > 0
      modifies move, ghosts
      ensures Placed()
      ensures forall j :: 0 <= j < numOfGhosts ==>
                (move[j], ghosts[j].State())
                == ScanGhost(Map, old(ghosts[j].State()), old(move[j]), pacMan.State(), difficulty, rnds[j])
      ensures forall j :: numOfGhosts <= j < 4 ==> ghosts[j].State() == old(ghosts[j].State())
      ensures forall j :: numOfGhosts <= j < 8 ==> move[j] == old(move[j])
    {
      var j := 0;
      while j < numOfGhosts
        invariant 0 <= j <= numOfGhosts
        invariant forall i :: 0 <= i < j ==>
                    (move[i], ghosts[i].State())
                    == ScanGhost(Map, old(ghosts[i].State()), old(move[i]), pacMan.State(), difficulty, rnds[i])
        invariant forall i :: j <= i < 4 ==> ghosts[i].State() == old(ghosts[i].State())
        invariant forall i :: j <= i < 8 ==> move[i] == old(move[i])
      {
        ScanOneGhost(j, rnds[j]);
        j := j + 1;
      }
    }

    /** `updateSprite(&PacMan)`: the cursor catches up, then the axis locks update. */
    method UpdatePacManSprite()
      requires Placed()
      modifies pacMan
      ensures Placed()
      ensures pacMan.State() == UpdateOther(Map, UpdateCursor(old(pacMan.State())))
    {
      pacMan.UpdateSprite(Map);
    }

    /** `updateSprite` for ghost `k`. */
    method UpdateGhostSprite(k: nat)
      requires Shape() && k < numOfGhosts && AnchorsIn(Map, ghosts[k].State())
      modifies ghosts[k]
      ensures ghosts[k].State() == UpdateOther(Map, UpdateCursor(old(ghosts[k].State())))
      ensures AnchorsIn(Map, ghosts[k].State())
      ensures forall i :: 0 <= i < |ghosts| && i != k ==> ghosts[i].State() == old(ghosts[i].State())
    {
      ghosts[k].UpdateSprite(Map);
    }

    /** `updateSprite` on the ghost array: every ghost in play, in order. */
    method UpdateGhostSprites()
      requires Placed()
      modifies ghosts
      ensures Placed()
      ensures forall j :: 0 <= j < numOfGhosts ==> ghosts[j].State() == UpdateOther(Map, UpdateCursor(old(ghosts[j].State())))
      ensures forall j :: numOfGhosts <= j < 4 ==> ghosts[j].State() == old(ghosts[j].State())
    {
      var k := 0;
      while k < numOfGhosts
        invariant 0 <= k <= numOfGhosts
        invariant forall i :: 0 <= i < k ==> AnchorsIn(Map, ghosts[i].State())
        invariant forall i :: 0 <= i < k ==>
                    ghosts[i].State() == UpdateOther(Map, UpdateCursor(old(ghosts[i].State())))
        invariant forall i :: k <= i < 4 ==> ghosts[i].State() == old(ghosts[i].State())
      {
        UpdateGhostSprite(k);
        k := k + 1;
      }
    }

    // ------------------------------------------------------------ bookkeeping

    /** The ghost loop of `updateGame`: does a ghost in play catch Pac-Man? */
    method FindCatch() returns (caught: bool)
      requires Shape()
      ensures caught == Caught(pacMan.State(), States(InPlay()))
    {
      var m := 0;
      while m < numOfGhosts
        invariant 0 <= m <= numOfGhosts
        invariant forall i :: 0 <= i < m ==> !Catches(pacMan.State(), ghosts[i].State())
      {
        if Abs(pacMan.cursorX - ghosts[m].cursorX) <= 2 && Abs(pacMan.cursorY - ghosts[m].cursorY) <= 2 {
          assert Catches(pacMan.State(), States(InPlay())[m]);
          return true;
        }
        m := m + 1;
      }
      return false;
    }

    /**
     * `updateGame`: the total is recomputed, the level ends at `resetScore`,
     * and the first ghost in play that catches Pac-Man costs one life.
     */
    method UpdateGame()
      requires Shape() && 0 <= lives < 256
      modifies this`totalScore, this`lives, this`mode
      ensures totalScore == score + ghostScore
      ensures Outcome(lives, mode)
              == UpdateOutcome(totalScore, resetScore, old(lives), old(mode), Caught(pacMan.State(), States(InPlay())))
    {
      totalScore := score + ghostScore;
      if totalScore == resetScore {
        mode := RESET_LEVEL;
      }
      var caught := FindCatch();
      if caught {
        lives := LivesDown(lives);
        mode := RESET_DEATH;
        if lives == 0 {
          mode := RESET_GAME;
        }
      }
    }

    /** `updateLives`: an extra life exactly at `oneUpScore`. */
    method UpdateLives()
      requires 0 <= lives < 256
      modifies this`lives, this`oneUpScore
      ensures OneUp(lives, oneUpScore) == UpdateOneUp(score, old(oneUpScore), old(lives))
    {
      if score == oneUpScore {
        lives := LivesUp(lives);
        oneUpScore := oneUpScore + ONE_UP_STEP;
      }
    }

    // ------------------------------------------------------------ resets

    /** The score part of `reset` in mode 1: every score back to its start. */
    method ResetScores()
      modifies this`score, this`ghostScore, this`totalScore, this`oneUpScore, this`resetScore
      ensures score == 0 && ghostScore == 0 && totalScore == 0 && oneUpScore == FIRST_ONE_UP && resetScore == 0
    {
      score := 0;
      ghostScore := 0;
      totalScore := 0;
      oneUpScore := FIRST_ONE_UP;
      resetScore := 0;
    }

    /** `createPacMan`: Pac-Man back at the map's start. */
    method CreatePacMan()
      requires Shape()
      modifies pacMan
      ensures pacMan.State() == SpawnPacMan(Map, pacManColor)
    {
      pacMan.Spawn(Map, Map.xPacManStart, Map.yPacManStart, Map.pacManStartingRowPrev, Map.pacManStartingCollumPrev,
                   Map.pacManStartingRowNext, Map.pacManStartingCollumNext, pacManColor);
    }

    /** The body of the `createGhosts` loop for ghost `j`. */
    method CreateGhost(j: nat)
      requires Shape() && j < numOfGhosts
      modifies ghosts[j]
      ensures ghosts[j].State() == SpawnGhost(Map, j)
      ensures forall i :: 0 <= i < |ghosts| && i != j ==> ghosts[i].State() == old(ghosts[i].State())
    {
      ghosts[j].Spawn(Map, Map.xGhostStart, Map.yGhostStart, Map.ghostOneStartingRowPrev, Map.ghostOneStartingCollumPrev,
                      Map.ghostOneStartingRowNext, Map.ghostOneStartingCollumNext, GhostColor(j));
    }

    /** `createGhosts`: every ghost in play back at the ghost start, in its own colour. */
    method CreateGhosts()
      requires Shape()
      modifies ghosts
      ensures forall j :: 0 <= j < numOfGhosts ==> ghosts[j].State() == SpawnGhost(Map, j)
      ensures forall j :: numOfGhosts <= j < 4 ==> ghosts[j].State() == old(ghosts[j].State())
    {
      var j := 0;
      while j < numOfGhosts
        invariant 0 <= j <= numOfGhosts
        invariant forall i :: 0 <= i < j ==> ghosts[i].State() == SpawnGhost(Map, i)
        invariant forall i :: j <= i < 4 ==> ghosts[i].State() == old(ghosts[i].State())
      {
        CreateGhost(j);
        j := j + 1;
      }
    }

    /** Every stored ghost move back to "left". */
    method ResetMoves()
      requires Shape()
      modifies move
      ensures MovesReset()
    {
      var i := 0;
      while i < move.Length
        invariant 0 <= i <= move.Length && forall k :: 0 <= k < i ==> move[k] == START_MOVE
      {
        move[i] := START_MOVE;
        i := i + 1;
      }
    }

    /** Both sprite kinds created and the moves reset, as both resets do. */
    method Respawn()
      requires Shape()
      modifies pacMan, ghosts, move
      ensures Placed()
      ensures pacMan.State() == SpawnPacMan(Map, pacManColor)
      ensures forall j :: 0 <= j < numOfGhosts ==> ghosts[j].State() == SpawnGhost(Map, j)
      ensures forall j :: numOfGhosts <= j < 4 ==> ghosts[j].State() == old(ghosts[j].State())
      ensures MovesReset()
    {
      CreatePacMan();
      CreateGhosts();
      ResetMoves();
    }

    /**
     * `reset` in mode 5: fresh dots and sprites, the level ends 2560 points
     * later, and play starts (mode 7).
     */
    method StartLevel()
      requires Shape()
      modifies this`resetScore, this`mode, xDots, yDots, pacMan, ghosts, move
      ensures Placed()
      ensures forall k :: 0 <= k < xDots.Length ==> xDots[k] == GeneratedDot(XAxis(Map), Map.noDotsX, Map.specialXDots, k)
      ensures forall k :: 0 <= k < yDots.Length ==> yDots[k] == GeneratedDot(YAxis(Map), Map.noDotsY, Map.specialYDots, k)
      ensures pacMan.State() == SpawnPacMan(Map, pacManColor)
      ensures forall j :: 0 <= j < numOfGhosts ==> ghosts[j].State() == SpawnGhost(Map, j)
      ensures forall j :: numOfGhosts <= j < 4 ==> ghosts[j].State() == old(ghosts[j].State())
      ensures MovesReset()
      ensures resetScore == old(resetScore) + LEVEL_POINTS && mode == old(mode) + 2
    {
      GenerateDots();
      Respawn();
      resetScore := resetScore + LEVEL_POINTS;
      mode := mode + 2;
    }

    /** `reset` in mode 6, after a death: fresh sprites, the dots kept, play resumes (mode 7). */
    method RestartRound()
      requires Shape()
      modifies this`mode, pacMan, ghosts, move
      ensures Placed()
      ensures pacMan.State() == SpawnPacMan(Map, pacManColor)
      ensures forall j :: 0 <= j < numOfGhosts ==> ghosts[j].State() == SpawnGhost(Map, j)
      ensures forall j :: numOfGhosts <= j < 4 ==> ghosts[j].State() == old(ghosts[j].State())
      ensures MovesReset()
      ensures mode == old(mode) + 1
    {
      Respawn();
      mode := mode + 1;
    }
  }
}
