// How a ghost picks its next direction at an intersection: the directions it
// may take (`evaluateDirections`), the even base weights summing to 12
// (`randGhost`), the difficulty-dependent pull towards Pac-Man
// (`changeProbabilities`), the weighted draw over a slot array
// (`randomGenerator`), and the move codes `scanGhosts` keeps between frames.
module GhostPolicy {
  import opened Util
  import opened MapModel
  import opened Motion

  /**
   * The four direction weights of `randGhost`. `up` moves towards larger
   * `joyY` (code 2), `down` towards smaller `joyY` (code -2), `right` towards
   * larger `joyX` (code 1), `left` towards smaller `joyX` (code -1).
   */
  datatype Weights = Weights(up: int, down: int, left: int, right: int)

  function Total(w: Weights): int
  {
    w.up + w.down + w.left + w.right
  }

  predicate NonNegative(w: Weights)
  {
    w.up >= 0 && w.down >= 0 && w.left >= 0 && w.right >= 0
  }

  /** The weights `randGhost` starts from. */
  const NoWeights: Weights := Weights(0, 0, 0, 0)

  // ---------------------------------------------------------------- allowed directions

  /**
   * `evaluateDirections`: sets to 1 each direction the sprite may take and
   * leaves the other weights as they were.
   */
  function EvaluateDirections(s: SpriteState, w: Weights): (r: Weights)
    ensures NonNegative(w) ==> NonNegative(r)
  {
    Weights(
      up := if s.modeY && s.upperYConstraint != s.joyY && !(s.moveY && s.delta < 0) then 1 else w.up,
      down := if s.modeY && s.lowerYConstraint != s.joyY && !(s.moveY && s.delta > 0) then 1 else w.down,
      left := if s.modeX && s.lowerXConstraint != s.joyX && !(s.moveX && s.delta > 0) then 1 else w.left,
      right := if s.modeX && s.upperXConstraint != s.joyX && !(s.moveX && s.delta < 0) then 1 else w.right)
  }

  /**
   * Starting from no weights, a ghost never gets the direction opposite to
   * its current move, nor one whose bound it already stands on, nor one
   * along an axis it is not locked on.
   */
  lemma NeverBackwardsNorIntoWall(s: SpriteState)
    ensures var e := EvaluateDirections(s, NoWeights);
      && (s.moveX && s.delta > 0 ==> e.left == 0) && (s.moveX && s.delta < 0 ==> e.right == 0)
      && (s.moveY && s.delta > 0 ==> e.down == 0) && (s.moveY && s.delta < 0 ==> e.up == 0)
      && (s.joyX == s.lowerXConstraint ==> e.left == 0) && (s.joyX == s.upperXConstraint ==> e.right == 0)
      && (s.joyY == s.lowerYConstraint ==> e.down == 0) && (s.joyY == s.upperYConstraint ==> e.up == 0)
      && (!s.modeX ==> e.left == e.right == 0) && (!s.modeY ==> e.up == e.down == 0)
  {
  }

  /** Conversely, every other direction along a locked axis gets weight 1. */
  lemma OpenDirectionsAllowed(s: SpriteState)
    ensures var e := EvaluateDirections(s, NoWeights);
      && (s.modeX && s.joyX != s.lowerXConstraint && !(s.moveX && s.delta > 0) ==> e.left == 1)
      && (s.modeX && s.joyX != s.upperXConstraint && !(s.moveX && s.delta < 0) ==> e.right == 1)
      && (s.modeY && s.joyY != s.lowerYConstraint && !(s.moveY && s.delta > 0) ==> e.down == 1)
      && (s.modeY && s.joyY != s.upperYConstraint && !(s.moveY && s.delta < 0) ==> e.up == 1)
      && e.left in {0, 1} && e.right in {0, 1} && e.up in {0, 1} && e.down in {0, 1}
  {
  }

  // ---------------------------------------------------------------- base weights

  /** `probValue = 12 / sum` for the 1 to 4 allowed directions: it always divides 12 exactly. */
  function ProbValue(sum: int): (p: int)
    requires 0 < sum <= 4
    ensures p * sum == 12 && 3 <= p <= 12
  {
    if sum == 1 then 12 / 1
    else if sum == 2 then 12 / 2
    else if sum == 3 then 12 / 3
    else 12 / 4
  }

  function Scale(w: Weights, p: int): Weights
  {
    Weights(w.up * p, w.down * p, w.left * p, w.right * p)
  }

  /** The scaled base weights are 0 or `12 / k` and sum to exactly 12. */
  lemma BaseWeights(s: SpriteState)
    requires Total(EvaluateDirections(s, NoWeights)) > 0
    ensures var e := EvaluateDirections(s, NoWeights);
      var p := ProbValue(Total(e));
      var b := Scale(e, p);
      && Total(b) == 12 && NonNegative(b)
      && b.up in {0, p} && b.down in {0, p} && b.left in {0, p} && b.right in {0, p}
      && (b.up == 0 <==> e.up == 0) && (b.down == 0 <==> e.down == 0)
      && (b.left == 0 <==> e.left == 0) && (b.right == 0 <==> e.right == 0)
  {
    var e := EvaluateDirections(s, NoWeights);
    OpenDirectionsAllowed(s);
    var p := ProbValue(Total(e));
    assert Total(Scale(e, p)) == Total(e) * p;
  }

  // ---------------------------------------------------------------- distance bias

  /** One row of the difficulty table of `changeProbabilities`. */
  datatype ChangeRule = ChangeRule(startingChange: int, changeIncrement: int, numOfAllowedChanges: nat)

  /** The difficulty table: (100, 40, 1), (120, 40, 2), (180, 30, 4), (200, 20, 5). */
  function Rule(difficulty: int): (r: ChangeRule)
    requires 1 <= difficulty <= 4
    ensures r.changeIncrement > 0 && r.numOfAllowedChanges > 0
  {
    if difficulty == 1 then ChangeRule(100, 40, 1)
    else if difficulty == 2 then ChangeRule(120, 40, 2)
    else if difficulty == 3 then ChangeRule(180, 30, 4)
    else ChangeRule(200, 20, 5)
  }

  /**
   * The number of increments one counting loop of `changeProbabilities`
   * makes: thresholds `i, i - incr, ...` while `left` of them remain,
   * stopping at the first one the distance exceeds.
   */
  function Changes(dist: int, i: int, incr: int, left: nat): (n: nat)
    ensures n <= left
    ensures n == 0 <==> left == 0 || dist > i
    decreases left
  {
    if left > 0 && dist <= i then 1 + Changes(dist, i - incr, incr, left - 1) else 0
  }

  /** The increments at distance `dist` under `rule`. */
  function ChangesOf(rule: ChangeRule, dist: int): nat
  {
    Changes(dist, rule.startingChange, rule.changeIncrement, rule.numOfAllowedChanges)
  }

  function Min(a: int, b: int): int
  {
    if a <= b then a else b
  }

  /** Stepping the threshold down by `incr` lowers the count of thresholds at or above `dist` by one. */
  lemma ThresholdsBelow(x: int, incr: int)
    requires incr > 0 && x >= incr
    ensures (x - incr) / incr + 1 == x / incr
  {
    DivModUnique(x - incr, incr, x / incr - 1, x % incr);
  }

  /**
   * Closed form of the count: none when the distance exceeds the first
   * threshold, otherwise one per threshold `i - k * incr` still at or above
   * the distance, capped at `left`.
   */
  lemma {:induction false} ChangesClosedForm(dist: int, i: int, incr: int, left: nat)
    requires incr > 0
    ensures Changes(dist, i, incr, left) == if dist > i then 0 else Min(left, (i - dist) / incr + 1)
    decreases left
  {
    if left > 0 && dist <= i {
      ChangesClosedForm(dist, i - incr, incr, left - 1);
      if dist > i - incr {
        DivModUnique(i - dist, incr, 0, i - dist);
      } else {
        ThresholdsBelow(i - dist, incr);
      }
    }
  }

  /** At difficulty 1, a ghost 90 above and 10 beside Pac-Man gets one increment on each axis. */
  lemma ChangesExample()
    ensures ChangesOf(Rule(1), 90) == 1 && ChangesOf(Rule(1), 10) == 1
    ensures ChangesOf(Rule(1), 101) == 0 && ChangesOf(Rule(4), 10) == 5 && ChangesOf(Rule(3), 100) == 3
  {
    ChangesClosedForm(90, 100, 40, 1);
    ChangesClosedForm(10, 100, 40, 1);
    ChangesClosedForm(101, 100, 40, 1);
    ChangesClosedForm(10, 200, 20, 5);
    ChangesClosedForm(100, 180, 30, 4);
  }

  /**
   * The vertical weight update of `changeProbabilities`, given the `ny`
   * increments: the direction towards Pac-Man gains them if it is allowed,
   * and the opposite one loses as many, down to 0.
   */
  function ChangeY(w: Weights, g: SpriteState, pac: SpriteState, ny: int): (r: Weights)
    ensures r.left == w.left && r.right == w.right
    ensures (w.up == 0 ==> r.up == 0) && (w.down == 0 ==> r.down == 0)
  {
    if g.joyY - pac.joyY > 0 then
      (if w.down != 0 then w.(down := w.down + ny, up := Constrain(w.up - ny, 0, w.up)) else w)
    else
      (if w.up != 0 then w.(up := w.up + ny, down := Constrain(w.down - ny, 0, w.down)) else w)
  }

  /** The horizontal weight update of `changeProbabilities`, given the `nx` increments. */
  function ChangeX(w: Weights, g: SpriteState, pac: SpriteState, nx: int): (r: Weights)
    ensures r.up == w.up && r.down == w.down
    ensures (w.left == 0 ==> r.left == 0) && (w.right == 0 ==> r.right == 0)
  {
    if g.joyX - pac.joyX > 0 then
      (if w.left != 0 then w.(left := w.left + nx, right := Constrain(w.right - nx, 0, w.right)) else w)
    else
      (if w.right != 0 then w.(right := w.right + nx, left := Constrain(w.left - nx, 0, w.left)) else w)
  }

  /** Both weight updates, vertical first. */
  function ApplyChanges(w: Weights, g: SpriteState, pac: SpriteState, ny: int, nx: int): (r: Weights)
    ensures (w.up == 0 ==> r.up == 0) && (w.down == 0 ==> r.down == 0)
    ensures (w.left == 0 ==> r.left == 0) && (w.right == 0 ==> r.right == 0)
  {
    ChangeX(ChangeY(w, g, pac, ny), g, pac, nx)
  }

  /** The vertical update leaves left and right alone and moves up and down by at most `ny`. */
  lemma ChangeYFacts(w: Weights, g: SpriteState, pac: SpriteState, ny: nat)
    requires NonNegative(w)
    ensures var r := ChangeY(w, g, pac, ny);
      && NonNegative(r) && Total(r) >= Total(w) && r.left == w.left && r.right == w.right
      && (w.up == 0 ==> r.up == 0) && (w.down == 0 ==> r.down == 0)
      && w.up - ny <= r.up <= w.up + ny && w.down - ny <= r.down <= w.down + ny
      && (g.joyY - pac.joyY > 0 ==> r.up <= w.up && r.down >= w.down)
      && (g.joyY - pac.joyY <= 0 ==> r.down <= w.down && r.up >= w.up)
  {
  }

  /** The horizontal update leaves up and down alone and moves left and right by at most `nx`. */
  lemma ChangeXFacts(w: Weights, g: SpriteState, pac: SpriteState, nx: nat)
    requires NonNegative(w)
    ensures var r := ChangeX(w, g, pac, nx);
      && NonNegative(r) && Total(r) >= Total(w) && r.up == w.up && r.down == w.down
      && (w.left == 0 ==> r.left == 0) && (w.right == 0 ==> r.right == 0)
      && w.left - nx <= r.left <= w.left + nx && w.right - nx <= r.right <= w.right + nx
      && (g.joyX - pac.joyX > 0 ==> r.right <= w.right && r.left >= w.left)
      && (g.joyX - pac.joyX <= 0 ==> r.left <= w.left && r.right >= w.right)
  {
  }

  /**
   * The bias never enables a direction (a zero weight stays zero), never
   * drives a weight below 0 nor lowers the total, and moves each weight by at
   * most its axis's increments; the direction away from Pac-Man never gains.
   */
  lemma ApplyChangesFacts(w: Weights, g: SpriteState, pac: SpriteState, ny: nat, nx: nat)
    requires NonNegative(w)
    ensures var r := ApplyChanges(w, g, pac, ny, nx);
      && NonNegative(r) && Total(r) >= Total(w)
      && (w.up == 0 ==> r.up == 0) && (w.down == 0 ==> r.down == 0)
      && (w.left == 0 ==> r.left == 0) && (w.right == 0 ==> r.right == 0)
      && w.up - ny <= r.up <= w.up + ny && w.down - ny <= r.down <= w.down + ny
      && w.left - nx <= r.left <= w.left + nx && w.right - nx <= r.right <= w.right + nx
      && (g.joyY - pac.joyY > 0 ==> r.up <= w.up && r.down >= w.down)
      && (g.joyY - pac.joyY <= 0 ==> r.down <= w.down && r.up >= w.up)
      && (g.joyX - pac.joyX > 0 ==> r.right <= w.right && r.left >= w.left)
      && (g.joyX - pac.joyX <= 0 ==> r.left <= w.left && r.right >= w.right)
  {
    ChangeYFacts(w, g, pac, ny);
    ChangeXFacts(ChangeY(w, g, pac, ny), g, pac, nx);
  }

  /** The factor `k` for which `k * incr > 0`, stated without products in the caller. */
  lemma PositiveSteps(k: int, incr: int)
    requires incr > 0 && k >= 0
    ensures k * incr > 0 <==> k > 0
  {
    if k > 0 { MulAtLeast(k, incr); }
  }

  /** One counting loop of `changeProbabilities`. The counter starts at 0. */
  method CountChanges(dist: int, rule: ChangeRule) returns (count: nat)
    requires rule.changeIncrement > 0
    ensures count == ChangesOf(rule, dist)
  {
    var stop := rule.startingChange - rule.changeIncrement * rule.numOfAllowedChanges;
    var i := rule.startingChange;
    ghost var left: nat := rule.numOfAllowedChanges;
    count := 0;
    while i > stop
      invariant i - stop == left * rule.changeIncrement
      invariant count + Changes(dist, i, rule.changeIncrement, left) == ChangesOf(rule, dist)
      decreases left
    {
      PositiveSteps(left, rule.changeIncrement);
      if dist > i {
        break;
      }
      count := count + 1;
      i := i - rule.changeIncrement;
      left := left - 1;
    }
    PositiveSteps(left, rule.changeIncrement);
  }

  /**
   * `changeProbabilities`: the increments for the vertical and the horizontal
   * distance under the difficulty's rule, then the weight updates.
   */
  method ChangeProbabilities(w: Weights, g: SpriteState, pac: SpriteState, difficulty: int) returns (r: Weights)
    requires 1 <= difficulty <= 4
    ensures r == ApplyChanges(w, g, pac, YChanges(g, pac, difficulty), XChanges(g, pac, difficulty))
  {
    var rule := Rule(difficulty);
    var numOfYChanges := CountChanges(Abs(pac.joyY - g.joyY), rule);
    var numOfXChanges := CountChanges(Abs(pac.joyX - g.joyX), rule);
    assert numOfYChanges == YChanges(g, pac, difficulty) && numOfXChanges == XChanges(g, pac, difficulty);
    r := w;
    if g.joyY - pac.joyY > 0 {
      if r.down != 0 {
        r := r.(down := r.down + numOfYChanges);
        r := r.(up := Constrain(r.up - numOfYChanges, 0, r.up));
      }
    } else {
      if r.up != 0 {
        r := r.(up := r.up + numOfYChanges);
        r := r.(down := Constrain(r.down - numOfYChanges, 0, r.down));
      }
    }
    if g.joyX - pac.joyX > 0 {
      if r.left != 0 {
        r := r.(left := r.left + numOfXChanges);
        r := r.(right := Constrain(r.right - numOfXChanges, 0, r.right));
      }
    } else {
      if r.right != 0 {
        r := r.(right := r.right + numOfXChanges);
        r := r.(left := Constrain(r.left - numOfXChanges, 0, r.left));
      }
    }
  }

  // ---------------------------------------------------------------- the draw

  /**
   * The direction code in slot `k` of `randomGenerator`'s array: `up` slots
   * of 2, then `right` slots of 1, `down` slots of -2 and `left` slots of -1.
   */
  function SlotCode(w: Weights, k: int): (r: int)
    ensures r in {2, 1, -2, -1}
  {
    if k < w.up then 2
    else if k < w.up + w.right then 1
    else if k < w.up + w.right + w.down then -2
    else -1
  }

  /** Every slot holds a direction code, and only directions with a positive weight own slots. */
  lemma SlotCodeWeighted(w: Weights, k: int)
    requires NonNegative(w) && 0 <= k < Total(w)
    ensures SlotCode(w, k) in {2, 1, -2, -1}
    ensures SlotCode(w, k) == 2 ==> w.up > 0
    ensures SlotCode(w, k) == 1 ==> w.right > 0
    ensures SlotCode(w, k) == -2 ==> w.down > 0
    ensures SlotCode(w, k) == -1 ==> w.left > 0
  {
  }

  /** Conversely, every direction with a positive weight owns a slot. */
  lemma WeightedDirectionsReachable(w: Weights)
    requires NonNegative(w)
    ensures w.up > 0 ==> 0 < Total(w) && SlotCode(w, 0) == 2
    ensures w.right > 0 ==> w.up < Total(w) && SlotCode(w, w.up) == 1
    ensures w.down > 0 ==> w.up + w.right < Total(w) && SlotCode(w, w.up + w.right) == -2
    ensures w.left > 0 ==> w.up + w.right + w.down < Total(w) && SlotCode(w, w.up + w.right + w.down) == -1
  {
  }

  /**
   * `randomGenerator`: lays the weights out as slots and returns the slot
   * the random draw picks; `random(0, randomIndex)` is the injected `rnd`
   * reduced modulo the slot count.
   */
  method RandomGenerator(upNumber: int, downNumber: int, leftNumber: int, rightNumber: int,
                         randomIndex: int, rnd: int) returns (code: int)
    requires upNumber >= 0 && downNumber >= 0 && leftNumber >= 0 && rightNumber >= 0
    requires randomIndex == upNumber + downNumber + leftNumber + rightNumber > 0
    ensures code == SlotCode(Weights(upNumber, downNumber, leftNumber, rightNumber), rnd % randomIndex)
  {
    ghost var w := Weights(upNumber, downNumber, leftNumber, rightNumber);
    var randomArray := new int[randomIndex];
    var i := 0;
    while i < upNumber
      invariant 0 <= i <= upNumber
      invariant forall k :: 0 <= k < i ==> randomArray[k] == SlotCode(w, k)
    {
      assert SlotCode(w, i) == 2;
      randomArray[i] := 2;
      i := i + 1;
    }
    i := 0;
    while i < rightNumber
      invariant 0 <= i <= rightNumber
      invariant forall k :: 0 <= k < upNumber + i ==> randomArray[k] == SlotCode(w, k)
    {
      assert SlotCode(w, i + upNumber) == 1;
      randomArray[i + upNumber] := 1;
      i := i + 1;
    }
    i := 0;
    while i < downNumber
      invariant 0 <= i <= downNumber
      invariant forall k :: 0 <= k < upNumber + rightNumber + i ==> randomArray[k] == SlotCode(w, k)
    {
      assert SlotCode(w, i + upNumber + rightNumber) == -2;
      randomArray[i + upNumber + rightNumber] := -2;
      i := i + 1;
    }
    i := 0;
    while i < leftNumber
      invariant 0 <= i <= leftNumber
      invariant forall k :: 0 <= k < upNumber + rightNumber + downNumber + i ==> randomArray[k] == SlotCode(w, k)
    {
      assert SlotCode(w, i + upNumber + rightNumber + downNumber) == -1;
      randomArray[i + upNumber + rightNumber + downNumber] := -1;
      i := i + 1;
    }
    code := randomArray[rnd % randomIndex];
  }

  // ---------------------------------------------------------------- randGhost

  /** The increments `changeProbabilities` counts for the vertical distance. */
  function YChanges(g: SpriteState, pac: SpriteState, difficulty: int): nat
    requires 1 <= difficulty <= 4
  {
    ChangesOf(Rule(difficulty), Abs(pac.joyY - g.joyY))
  }

  /** The increments `changeProbabilities` counts for the horizontal distance. */
  function XChanges(g: SpriteState, pac: SpriteState, difficulty: int): nat
    requires 1 <= difficulty <= 4
  {
    ChangesOf(Rule(difficulty), Abs(pac.joyX - g.joyX))
  }

  /** The base weights of `randGhost`: `12 / sum` for each allowed direction. */
  function BaseWeightsOf(g: SpriteState): Weights
    requires Total(EvaluateDirections(g, NoWeights)) > 0
  {
    var e := EvaluateDirections(g, NoWeights);
    OpenDirectionsAllowed(g);
    Scale(e, ProbValue(Total(e)))
  }

  /** The weights `randGhost` draws from. */
  function FinalWeights(g: SpriteState, pac: SpriteState, difficulty: int): (r: Weights)
    requires 1 <= difficulty <= 4
    requires Total(EvaluateDirections(g, NoWeights)) > 0
    ensures NonNegative(r) && Total(r) >= 12
  {
    BaseWeights(g);
    ApplyChangesFacts(BaseWeightsOf(g), g, pac, YChanges(g, pac, difficulty), XChanges(g, pac, difficulty));
    ApplyChanges(BaseWeightsOf(g), g, pac, YChanges(g, pac, difficulty), XChanges(g, pac, difficulty))
  }

  /** The code `randGhost` returns for the draw `rnd`. */
  function GhostChoice(g: SpriteState, pac: SpriteState, difficulty: int, rnd: int): (r: int)
    requires 1 <= difficulty <= 4
    requires Total(EvaluateDirections(g, NoWeights)) > 0
    ensures r in {2, 1, -2, -1}
  {
    var w := FinalWeights(g, pac, difficulty);
    if Total(w) > 0 then SlotCode(w, rnd % Total(w)) else 0
  }

  /**
   * The weights drawn from: non-negative, at least 12 in total, positive only
   * for directions `evaluateDirections` allowed, and never below the base
   * weight for an allowed direction towards Pac-Man.
   */
  lemma FinalWeightsFacts(g: SpriteState, pac: SpriteState, difficulty: int)
    requires 1 <= difficulty <= 4
    requires Total(EvaluateDirections(g, NoWeights)) > 0
    ensures var e := EvaluateDirections(g, NoWeights);
      var w := FinalWeights(g, pac, difficulty);
      && NonNegative(w) && Total(w) >= 12
      && (w.up > 0 ==> e.up == 1) && (w.down > 0 ==> e.down == 1)
      && (w.left > 0 ==> e.left == 1) && (w.right > 0 ==> e.right == 1)
      && (e.down == 1 && g.joyY - pac.joyY > 0 ==> w.down > 0)
      && (e.up == 1 && g.joyY - pac.joyY <= 0 ==> w.up > 0)
      && (e.left == 1 && g.joyX - pac.joyX > 0 ==> w.left > 0)
      && (e.right == 1 && g.joyX - pac.joyX <= 0 ==> w.right > 0)
  {
    BaseWeights(g);
    ApplyChangesFacts(BaseWeightsOf(g), g, pac, YChanges(g, pac, difficulty), XChanges(g, pac, difficulty));
  }

  /**
   * Whatever the draw, `randGhost` returns a direction code whose direction
   * `evaluateDirections` allowed: never a reversal, never into a bound.
   */
  lemma GhostChoiceAllowed(g: SpriteState, pac: SpriteState, difficulty: int, rnd: int)
    requires 1 <= difficulty <= 4
    requires Total(EvaluateDirections(g, NoWeights)) > 0
    ensures var code := GhostChoice(g, pac, difficulty, rnd);
      var e := EvaluateDirections(g, NoWeights);
      && code in {2, 1, -2, -1}
      && (code == 2 ==> e.up == 1) && (code == -2 ==> e.down == 1)
      && (code == 1 ==> e.right == 1) && (code == -1 ==> e.left == 1)
  {
    FinalWeightsFacts(g, pac, difficulty);
    var w := FinalWeights(g, pac, difficulty);
    SlotCodeWeighted(w, rnd % Total(w));
  }

  /** A draw below the slot count picks that very slot. */
  lemma ChoiceAt(g: SpriteState, pac: SpriteState, difficulty: int, k: int)
    requires 1 <= difficulty <= 4
    requires Total(EvaluateDirections(g, NoWeights)) > 0
    requires 0 <= k < Total(FinalWeights(g, pac, difficulty))
    ensures GhostChoice(g, pac, difficulty, k) == SlotCode(FinalWeights(g, pac, difficulty), k)
  {
    DivModUnique(k, Total(FinalWeights(g, pac, difficulty)), 0, k);
  }

  /**
   * An allowed direction towards Pac-Man (on either axis) can always be
   * drawn. A direction away from Pac-Man may lose its whole weight to the
   * bias and then cannot.
   */
  lemma TowardsPacManDrawn(g: SpriteState, pac: SpriteState, difficulty: int)
    requires 1 <= difficulty <= 4
    requires Total(EvaluateDirections(g, NoWeights)) > 0
    ensures var e := EvaluateDirections(g, NoWeights);
      && (e.up == 1 && g.joyY - pac.joyY <= 0 ==> exists rnd :: GhostChoice(g, pac, difficulty, rnd) == 2)
      && (e.down == 1 && g.joyY - pac.joyY > 0 ==> exists rnd :: GhostChoice(g, pac, difficulty, rnd) == -2)
      && (e.right == 1 && g.joyX - pac.joyX <= 0 ==> exists rnd :: GhostChoice(g, pac, difficulty, rnd) == 1)
      && (e.left == 1 && g.joyX - pac.joyX > 0 ==> exists rnd :: GhostChoice(g, pac, difficulty, rnd) == -1)
  {
    var e := EvaluateDirections(g, NoWeights);
    FinalWeightsFacts(g, pac, difficulty);
    var w := FinalWeights(g, pac, difficulty);
    WeightedDirectionsReachable(w);
    if e.up == 1 && g.joyY - pac.joyY <= 0 {
      ChoiceAt(g, pac, difficulty, 0);
    }
    if e.right == 1 && g.joyX - pac.joyX <= 0 {
      ChoiceAt(g, pac, difficulty, w.up);
    }
    if e.down == 1 && g.joyY - pac.joyY > 0 {
      ChoiceAt(g, pac, difficulty, w.up + w.right);
    }
    if e.left == 1 && g.joyX - pac.joyX > 0 {
      ChoiceAt(g, pac, difficulty, w.up + w.right + w.down);
    }
  }

  /**
   * `randGhost`: the allowed directions, the base weights `12 / sum`, the
   * distance bias, then the draw. The source divides by zero when no
   * direction is allowed, so at least one must be.
   */
  method RandGhost(g: SpriteState, pac: SpriteState, difficulty: int, rnd: int) returns (code: int)
    requires 1 <= difficulty <= 4
    requires Total(EvaluateDirections(g, NoWeights)) > 0
    ensures code == GhostChoice(g, pac, difficulty, rnd)
  {
    var e := EvaluateDirections(g, NoWeights);
    var sum := e.up + e.down + e.left + e.right;
    assert sum == Total(e);
    OpenDirectionsAllowed(g);
    var probValue := ProbValue(sum);
    var w := Scale(e, probValue);
    assert w == BaseWeightsOf(g);
    w := ChangeProbabilities(w, g, pac, difficulty);
    FinalWeightsFacts(g, pac, difficulty);
    sum := w.up + w.down + w.left + w.right;
    code := RandomGenerator(w.up, w.down, w.left, w.right, sum, rnd);
    assert code == SlotCode(FinalWeights(g, pac, difficulty), rnd % Total(FinalWeights(g, pac, difficulty)));
  }

  // ---------------------------------------------------------------- stored moves

  /** A ghost sits at an intersection when it moves along one axis while locked on the other. */
  predicate AtIntersection(s: SpriteState)
  {
    (s.moveX && s.modeY) || (s.moveY && s.modeX)
  }

  /** `scanGhosts` stores a direction code times 2000 and passes it to `moveX`/`moveY` as the request. */
  function EncodeMove(code: int): (r: int)
    ensures StoredMove(r) <==> code in {2, 1, -2, -1}
  {
    code * 2000
  }

  /** Between intersections the stored request is divided back (C division) into the code. */
  function DecodeMove(stored: int): (r: int)
    ensures StoredMove(stored) ==> r in {2, 1, -2, -1} && EncodeMove(r) == stored
  {
    CDiv(stored, 2000)
  }

  /**
   * Encoding then decoding recovers the code; the encoded request lies beyond
   * the joystick dead zone and its step has the code's sign.
   */
  lemma MoveCodeRoundTrip(code: int)
    requires code in {2, 1, -2, -1}
    ensures DecodeMove(EncodeMove(code)) == code
    ensures Requested(EncodeMove(code)) && RequestDelta(EncodeMove(code)) == (if code > 0 then 2 else -2)
  {
  }

  /** The stored requests `scanGhosts` can produce: the start value -2000 is one of them. */
  predicate StoredMove(stored: int)
  {
    stored in {2000, -2000, 4000, -4000}
  }

  /**
   * One ghost of `scanGhosts`: at an intersection a fresh code is drawn,
   * otherwise the stored one is decoded; a code of magnitude 1 drives
   * `moveX`, any other `moveY`, with the code times 2000 as the request.
   */
  function ScanGhost(m: MapData, s: SpriteState, stored: int, pac: SpriteState, difficulty: int, rnd: int): (r: (int, SpriteState))
    requires ValidMap(m) && AnchorsIn(m, s) && 1 <= difficulty <= 4
    requires AtIntersection(s) ==> Total(EvaluateDirections(s, NoWeights)) > 0
    ensures AnchorsIn(m, r.1)
  {
    var code := if AtIntersection(s) then GhostChoice(s, pac, difficulty, rnd) else DecodeMove(stored);
    var request := EncodeMove(code);
    if Abs(code) == 1 then (request, MoveX(m, s, request)) else (request, MoveY(s, request))
  }

  /** The stored request stays one of the four encoded codes. */
  lemma ScanGhostStored(m: MapData, s: SpriteState, stored: int, pac: SpriteState, difficulty: int, rnd: int)
    requires ValidMap(m) && AnchorsIn(m, s) && 1 <= difficulty <= 4
    requires AtIntersection(s) ==> Total(EvaluateDirections(s, NoWeights)) > 0
    requires StoredMove(stored)
    ensures StoredMove(ScanGhost(m, s, stored, pac, difficulty, rnd).0)
  {
    if AtIntersection(s) { GhostChoiceAllowed(s, pac, difficulty, rnd); }
  }

  /**
   * At an intersection the drawn direction is taken at once: the move along
   * its axis is accepted, the step has its sign, and the other axis stops.
   */
  lemma ScanGhostTurns(m: MapData, s: SpriteState, stored: int, pac: SpriteState, difficulty: int, rnd: int)
    requires ValidMap(m) && AnchorsIn(m, s) && 1 <= difficulty <= 4
    requires AtIntersection(s) && Total(EvaluateDirections(s, NoWeights)) > 0
    ensures var code := GhostChoice(s, pac, difficulty, rnd);
      var r := ScanGhost(m, s, stored, pac, difficulty, rnd).1;
      && r.delta == (if code > 0 then 2 else -2)
      && (Abs(code) == 1 ==> r.moveX && !r.moveY)
      && (Abs(code) == 2 ==> r.moveY && !r.moveX)
  {
    var code := GhostChoice(s, pac, difficulty, rnd);
    GhostChoiceAllowed(s, pac, difficulty, rnd);
    MoveCodeRoundTrip(code);
  }
}
