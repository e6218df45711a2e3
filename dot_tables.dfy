// Generation of the two dot tables (`generateDots`, `generateNoDots`,
// `generateSpecialDots`): a default pass driven by the wall codes, then
// count-prefixed no-dot ranges forced to 0, then special slots forced to 5.
module DotTables {
  import opened Util
  import opened MapModel

  /** Number of slot positions of crossing lines lying strictly before slot `j`, searching from `c`. */
  function Below(pos: seq<int>, j: int, c: nat): (r: nat)
    requires c <= |pos|
    ensures c <= r <= |pos|
    ensures forall k :: c <= k < r ==> pos[k] < j
    ensures r < |pos| ==> pos[r] >= j
    decreases |pos| - c
  {
    if c == |pos| || pos[c] >= j then c else Below(pos, j, c + 1)
  }

  /** How many crossing lines lie before slot `j` of a line. */
  function CountBelow(pos: seq<int>, j: int): nat
  {
    Below(pos, j, 0)
  }

  /** With increasing positions, the count is pinned down by where the positions pass `j`. */
  lemma CountBelowIs(pos: seq<int>, j: int, r: nat)
    requires Increasing(pos) && r <= |pos|
    requires forall k :: 0 <= k < r ==> pos[k] < j
    requires r < |pos| ==> pos[r] >= j
    ensures CountBelow(pos, j) == r
  {
  }

  /** Slot `j` holds a crossing line exactly when the count below it points at it. */
  lemma LineSlot(ax: Axis, j: int)
    requires ValidAxis(ax)
    ensures var cb := CountBelow(ax.pos, j);
      (j in ax.pos) <==> (cb < |ax.pos| && ax.pos[cb] == j)
  {
    var cb := CountBelow(ax.pos, j);
    if j in ax.pos {
      var k :| 0 <= k < |ax.pos| && ax.pos[k] == j;
      if k > cb { IncreasingAt(ax.pos, cb, k); }
    }
  }

  lemma CountBelowStep(ax: Axis, j: int)
    requires ValidAxis(ax)
    ensures var cb := CountBelow(ax.pos, j);
      CountBelow(ax.pos, j + 1) == cb + (if cb < |ax.pos| && ax.pos[cb] == j then 1 else 0)
  {
    var pos := ax.pos;
    var cb := CountBelow(pos, j);
    if cb < |pos| && pos[cb] == j {
      if cb + 1 < |pos| { IncreasingAt(pos, cb, cb + 1); }
      CountBelowIs(pos, j + 1, cb + 1);
    } else {
      CountBelowIs(pos, j + 1, cb);
    }
  }

  lemma CountBelowEnds(ax: Axis)
    requires ValidAxis(ax)
    ensures CountBelow(ax.pos, 0) == 0
    ensures CountBelow(ax.pos, |ax.locs|) == |ax.pos|
  {
    CountBelowIs(ax.pos, 0, 0);
    CountBelowIs(ax.pos, |ax.locs|, |ax.pos|);
  }

  /** The running state of the default pass: the table so far, the intersection counter and the run value. */
  datatype PassState = PassState(dots: seq<int>, index: nat, dotValue: int)

  /** The `switch` on a wall code: codes 0 and 1 start an empty run, codes 2 and 3 a run of dots. */
  function RunValue(code: int, current: int): int
  {
    if code == 0 || code == 1 then 0 else if code == 2 || code == 3 then 1 else current
  }

  /** Whether the pass, at slot `i` with intersection counter `index`, sees a crossing line. */
  predicate AtCrossing(ax: Axis, i: nat, index: nat)
    requires |ax.locs| > 0 && |ax.lines| > 0
  {
    ax.locs[i % |ax.locs|] == ax.lines[index % |ax.lines|]
  }

  /** Two positions of an increasing sequence holding the same value are the same position. */
  lemma IncreasingInjective(s: seq<int>, a: int, b: int)
    requires Increasing(s) && 0 <= a < |s| && 0 <= b < |s| && s[a] == s[b]
    ensures a == b
  {
    if a < b { IncreasingAt(s, a, b); }
    else if b < a { IncreasingAt(s, b, a); }
  }

  /** Where a counter `q * n + cb` with `cb <= n` points inside a line's codes. */
  lemma CounterArith(index: int, q: int, n: int, cb: int, groups: int)
    requires n > 0 && 0 <= q < groups && 0 <= cb <= n && index == q * n + cb
    ensures cb < n ==> index % n == cb && index < groups * n
    ensures cb == n ==> index % n == 0
  {
    if cb < n {
      DivModUnique(index, n, q, cb);
      CellInTable(q, cb, n, groups);
    } else {
      assert index == (q + 1) * n + 0;
      DivModUnique(index, n, q + 1, 0);
    }
  }

  /** The arithmetic of `CrossingIff`: where the counter points inside a line's codes. */
  lemma CounterSlot(i: nat, p: nat, n: nat, groups: nat, cb: nat, index: int)
    requires p > 0 && n > 0 && i < groups * p && cb <= n && index == (i / p) * n + cb
    ensures cb < n ==> index % n == cb && index < groups * n
    ensures cb == n ==> index % n == 0
  {
    RowOfIndex(i, p, groups);
    CounterArith(index, i / p, n, cb, groups);
  }

  /** The sequence half of `CrossingIff`: slot `j` meets line `k` exactly when a crossing line sits at `j`. */
  lemma CrossingAt(ax: Axis, j: int, cb: nat, k: int)
    requires ValidAxis(ax) && 0 <= j < |ax.locs| && cb == CountBelow(ax.pos, j)
    requires cb < |ax.lines| ==> k == cb
    requires cb >= |ax.lines| ==> k == 0
    ensures ax.locs[j] == ax.lines[k] <==> j in ax.pos
  {
    LineSlot(ax, j);
    if cb < |ax.lines| {
      if ax.locs[j] == ax.lines[cb] { IncreasingInjective(ax.locs, j, ax.pos[cb]); }
    } else {
      if ax.locs[j] == ax.lines[0] { IncreasingInjective(ax.locs, j, 0); }
    }
  }

  /** At slot `i`, the counter selects slot `i`'s crossing line exactly when one sits there. */
  lemma CrossingIff(ax: Axis, i: nat, index: nat)
    requires ValidAxis(ax) && i < NumDots(ax)
    requires index == (i / |ax.locs|) * |ax.lines| + CountBelow(ax.pos, i % |ax.locs|)
    ensures AtCrossing(ax, i, index) <==> (i % |ax.locs|) in ax.pos
    ensures AtCrossing(ax, i, index) ==> index < |ax.movement|
  {
    var p, n := |ax.locs|, |ax.lines|;
    var j := i % p;
    var cb := CountBelow(ax.pos, j);
    CounterSlot(i, p, n, ax.groups, cb, index);
    CrossingAt(ax, j, cb, index % n);
    if cb == n { LineSlot(ax, j); }
  }

  /** The counter after slot `i` has the same closed form at `i + 1`. */
  lemma NextCounter(ax: Axis, i: nat, index: nat)
    requires ValidAxis(ax) && i < NumDots(ax)
    requires index == (i / |ax.locs|) * |ax.lines| + CountBelow(ax.pos, i % |ax.locs|)
    ensures (if (i % |ax.locs|) in ax.pos then index + 1 else index)
            == ((i + 1) / |ax.locs|) * |ax.lines| + CountBelow(ax.pos, (i + 1) % |ax.locs|)
  {
    var p, n := |ax.locs|, |ax.lines|;
    var j := i % p;
    LineSlot(ax, j);
    CountBelowStep(ax, j);
    DivModSucc(i, p);
    CountBelowEnds(ax);
    if j == p - 1 {
      assert (i / p + 1) * n == (i / p) * n + n;
    }
  }

  /** One step of the pass, in closed form: the counter is `row * lines + crossings so far`. */
  lemma PassStep(ax: Axis, i: nat, index: nat)
    requires ValidAxis(ax) && i < NumDots(ax)
    requires index == (i / |ax.locs|) * |ax.lines| + CountBelow(ax.pos, i % |ax.locs|)
    ensures AtCrossing(ax, i, index) <==> (i % |ax.locs|) in ax.pos
    ensures AtCrossing(ax, i, index) ==> index < |ax.movement|
    ensures (if AtCrossing(ax, i, index) then index + 1 else index)
            == ((i + 1) / |ax.locs|) * |ax.lines| + CountBelow(ax.pos, (i + 1) % |ax.locs|)
  {
    CrossingIff(ax, i, index);
    NextCounter(ax, i, index);
  }

  /** The counter value the pass holds before slot `n`: `row * lines + crossings so far on the row`. */
  function Counter(ax: Axis, n: nat): nat
    requires |ax.locs| > 0
  {
    (n / |ax.locs|) * |ax.lines| + CountBelow(ax.pos, n % |ax.locs|)
  }

  /** The run value the pass holds when the counter is `index`. */
  function RunAt(ax: Axis, index: nat): int
    requires index <= |ax.movement|
  {
    if index == 0 then 0 else RunValue(ax.movement[index - 1], 0)
  }

  /** What the pass's state satisfies before slot `n`. */
  predicate PassInv(ax: Axis, n: nat, s: PassState)
    requires ValidAxis(ax)
  {
    |s.dots| == n && s.index <= |ax.movement| && s.index == Counter(ax, n) && s.dotValue == RunAt(ax, s.index)
  }

  /** Wall code `k` of the axis; -1, which leaves the run value alone, past the end (never read, see `StepKeeps`). */
  function CodeAt(ax: Axis, k: nat): int
  {
    if k < |ax.movement| then ax.movement[k] else -1
  }

  /** One slot of the default pass of `generateDots`. */
  function Step(ax: Axis, i: nat, s: PassState): (t: PassState)
    requires |ax.locs| > 0 && |ax.lines| > 0
    ensures |t.dots| == |s.dots| + 1 && t.dots[..|s.dots|] == s.dots
  {
    if AtCrossing(ax, i, s.index) then
      PassState(s.dots + [ax.atLine], s.index + 1, RunValue(CodeAt(ax, s.index), s.dotValue))
    else
      PassState(s.dots + [s.dotValue], s.index, s.dotValue)
  }

  /** The state of the default pass of `generateDots` after its first `n` slots. */
  function Pass(ax: Axis, n: nat): (s: PassState)
    requires |ax.locs| > 0 && |ax.lines| > 0
    ensures |s.dots| == n
  {
    if n == 0 then PassState([], 0, 0) else Step(ax, n - 1, Pass(ax, n - 1))
  }

  /** A step keeps the closed form, and a crossing it meets has its wall code inside the table. */
  lemma StepKeeps(ax: Axis, i: nat, s: PassState)
    requires ValidAxis(ax) && i < NumDots(ax) && PassInv(ax, i, s)
    ensures AtCrossing(ax, i, s.index) ==> s.index < |ax.movement|
    ensures PassInv(ax, i + 1, Step(ax, i, s))
  {
    PassStep(ax, i, s.index);
  }

  /** The pass keeps its counter in closed form, which is what keeps every wall-code read inside the table. */
  lemma {:induction false} PassInvariant(ax: Axis, n: nat)
    requires ValidAxis(ax) && n <= NumDots(ax)
    ensures PassInv(ax, n, Pass(ax, n))
  {
    if n == 0 {
      CountBelowEnds(ax);
    } else {
      PassInvariant(ax, n - 1);
      StepKeeps(ax, n - 1, Pass(ax, n - 1));
    }
  }

  /** The wall code the pass reads at a crossing is inside the table. */
  lemma CrossingInTable(ax: Axis, i: nat)
    requires ValidAxis(ax) && i < NumDots(ax)
    ensures AtCrossing(ax, i, Pass(ax, i).index) ==> Pass(ax, i).index < |ax.movement|
  {
    PassInvariant(ax, i);
    StepKeeps(ax, i, Pass(ax, i));
  }

  lemma {:induction false} PassPrefix(ax: Axis, n: nat, i: nat)
    requires ValidAxis(ax) && i < n <= NumDots(ax)
    ensures Pass(ax, n).dots[i] == Pass(ax, i + 1).dots[i]
    decreases n
  {
    if i < n - 1 { PassPrefix(ax, n - 1, i); }
  }

  /** A slot off every crossing line has a crossing line before it: line slot 0 holds one. */
  lemma CountBelowPositive(ax: Axis, j: int)
    requires ValidAxis(ax) && j >= 0 && j !in ax.pos
    ensures CountBelow(ax.pos, j) > 0
  {
    assert ax.pos[0] < j;
  }

  /** A slot off every crossing line comes after the first crossing of its line. */
  lemma CounterPositive(ax: Axis, i: nat)
    requires ValidAxis(ax) && i < NumDots(ax) && (i % |ax.locs|) !in ax.pos
    ensures Counter(ax, i) > 0
  {
    var j, q := i % |ax.locs|, i / |ax.locs|;
    CountBelowPositive(ax, j);
    assert q >= 0;
    if q > 0 { MulAtLeast(q, |ax.lines|); }
    assert Counter(ax, i) == q * |ax.lines| + CountBelow(ax.pos, j);
  }

  /**
   * The default table slot by slot: a slot on a crossing line holds `atLine`;
   * any other slot holds 1 exactly when the last intersection before it on its
   * line (code number `Counter - 1`) has wall code 2 or 3.
   */
  lemma DefaultDot(ax: Axis, i: nat)
    requires ValidAxis(ax) && i < NumDots(ax)
    ensures (i % |ax.locs|) in ax.pos ==> Pass(ax, NumDots(ax)).dots[i] == ax.atLine
    ensures (i % |ax.locs|) !in ax.pos ==>
              0 < Counter(ax, i) <= |ax.movement|
              && Pass(ax, NumDots(ax)).dots[i] == RunValue(ax.movement[Counter(ax, i) - 1], 0)
  {
    var s := Pass(ax, i);
    PassPrefix(ax, NumDots(ax), i);
    PassInvariant(ax, i);
    PassStep(ax, i, s.index);
    if (i % |ax.locs|) !in ax.pos {
      CounterPositive(ax, i);
    }
  }

  /** Every slot of the default table is 0 or 1. */
  lemma DefaultDotIsBinary(ax: Axis, i: nat)
    requires ValidAxis(ax) && i < NumDots(ax)
    ensures Pass(ax, NumDots(ax)).dots[i] in {0, 1}
  {
    DefaultDot(ax, i);
  }

  /** `k` lies in one of the first `r` no-dot ranges. */
  predicate InRanges(nd: seq<int>, r: nat, k: int)
    requires 2 * r + 1 <= |nd|
  {
    r > 0 && (InRanges(nd, r - 1, k) || RangeStart(nd, r - 1) <= k <= RangeEnd(nd, r - 1))
  }

  /** `k` lies in one of the ranges a count-prefixed no-dot list names. */
  predicate InNoDotRange(nd: seq<int>, k: int)
    requires |nd| >= 1 && 0 <= nd[0] && 2 * nd[0] + 1 <= |nd|
  {
    InRanges(nd, nd[0], k)
  }

  /** `k` is one of the indices a count-prefixed special-dot list names. */
  predicate IsSpecial(sp: seq<int>, k: int)
    requires |sp| >= 1 && 0 <= sp[0] < |sp|
  {
    k in sp[1..sp[0] + 1]
  }

  /** The value of slot `k` once `generateDots` has run. */
  function GeneratedDot(ax: Axis, nd: seq<int>, sp: seq<int>, k: nat): (r: int)
    requires ValidAxis(ax) && k < NumDots(ax)
    requires ValidNoDots(nd, NumDots(ax)) && ValidSpecials(sp, NumDots(ax))
    ensures r in {0, 1, 5}
  {
    if IsSpecial(sp, k) then 5
    else if InNoDotRange(nd, k) then 0
    else
      DefaultDotIsBinary(ax, k);
      Pass(ax, NumDots(ax)).dots[k]
  }

  /**
   * What a generated table holds: specials are 5 (they are applied last), other
   * slots in a no-dot range are 0, other crossing slots hold `atLine`, the rest
   * follow the wall code of the intersection before them; every slot is 0, 1 or 5.
   */
  lemma GeneratedDotFacts(ax: Axis, nd: seq<int>, sp: seq<int>, k: nat)
    requires ValidAxis(ax) && k < NumDots(ax)
    requires ValidNoDots(nd, NumDots(ax)) && ValidSpecials(sp, NumDots(ax))
    ensures GeneratedDot(ax, nd, sp, k) in {0, 1, 5}
    ensures IsSpecial(sp, k) ==> GeneratedDot(ax, nd, sp, k) == 5
    ensures !IsSpecial(sp, k) && InNoDotRange(nd, k) ==> GeneratedDot(ax, nd, sp, k) == 0
    ensures !IsSpecial(sp, k) && (k % |ax.locs|) in ax.pos ==>
              GeneratedDot(ax, nd, sp, k) == (if InNoDotRange(nd, k) then 0 else ax.atLine)
    ensures !IsSpecial(sp, k) && !InNoDotRange(nd, k) && (k % |ax.locs|) !in ax.pos ==>
              0 < Counter(ax, k) <= |ax.movement| && GeneratedDot(ax, nd, sp, k)
              == RunValue(ax.movement[Counter(ax, k) - 1], 0)
  {
    DefaultDot(ax, k);
  }

  /** The default pass of `generateDots` over one table, in place. */
  method FillDefault(ax: Axis, a: array<int>)
    requires ValidAxis(ax) && a.Length == NumDots(ax)
    modifies a
    ensures a[..] == Pass(ax, a.Length).dots
  {
    var index: nat := 0;
    var dotValue := 0;
    var i := 0;
    ghost var s := Pass(ax, 0);
    while i < a.Length
      invariant 0 <= i <= a.Length && s == Pass(ax, i)
      invariant a[..i] == s.dots && index == s.index && dotValue == s.dotValue
    {
      CrossingInTable(ax, i);
      if ax.locs[i % |ax.locs|] == ax.lines[index % |ax.lines|] {
        a[i] := ax.atLine;
        dotValue := RunValue(ax.movement[index], dotValue);
        index := index + 1;
      } else {
        a[i] := dotValue;
      }
      s := Step(ax, i, s);
      assert a[..i + 1] == s.dots;
      i := i + 1;
    }
    assert a[..] == a[..a.Length];
  }

  /** `generateNoDots` on one table: every index of every listed range becomes 0. */
  method ClearNoDotRanges(nd: seq<int>, a: array<int>)
    requires ValidNoDots(nd, a.Length)
    modifies a
    ensures forall k :: 0 <= k < a.Length ==> a[k] == if InNoDotRange(nd, k) then 0 else old(a[k])
  {
    var r := 0;
    while r < nd[0]
      invariant 0 <= r <= nd[0]
      invariant forall k :: 0 <= k < a.Length ==> a[k] == if InRanges(nd, r, k) then 0 else old(a[k])
    {
      var j := RangeStart(nd, r);
      while j <= RangeEnd(nd, r)
        invariant RangeStart(nd, r) <= j
        invariant RangeStart(nd, r) <= RangeEnd(nd, r) ==> j <= RangeEnd(nd, r) + 1
        invariant RangeStart(nd, r) > RangeEnd(nd, r) ==> j == RangeStart(nd, r)
        invariant forall k :: 0 <= k < a.Length ==>
          a[k] == if InRanges(nd, r, k) || RangeStart(nd, r) <= k < j then 0 else old(a[k])
      {
        a[j] := 0;
        j := j + 1;
      }
      assert forall k :: 0 <= k < a.Length ==>
        (InRanges(nd, r + 1, k) <==> InRanges(nd, r, k) || RangeStart(nd, r) <= k < j);
      r := r + 1;
    }
  }

  /** `generateSpecialDots` on one table: every listed index becomes 5. */
  method PlaceSpecialDots(sp: seq<int>, a: array<int>)
    requires ValidSpecials(sp, a.Length)
    modifies a
    ensures forall k :: 0 <= k < a.Length ==> a[k] == if IsSpecial(sp, k) then 5 else old(a[k])
  {
    var i := 1;
    while i <= sp[0]
      invariant 1 <= i <= sp[0] + 1
      invariant forall k :: 0 <= k < a.Length ==> a[k] == if k in sp[1..i] then 5 else old(a[k])
    {
      a[sp[i]] := 5;
      assert sp[1..i + 1] == sp[1..i] + [sp[i]];
      i := i + 1;
    }
  }

  /**
   * `generateDots` on one table: the default pass, then the no-dot ranges,
   * then the special dots, leaving every slot at its `GeneratedDot` value.
   */
  method GenerateTable(ax: Axis, nd: seq<int>, sp: seq<int>, a: array<int>)
    requires ValidAxis(ax) && a.Length == NumDots(ax)
    requires ValidNoDots(nd, a.Length) && ValidSpecials(sp, a.Length)
    modifies a
    ensures forall k :: 0 <= k < a.Length ==> a[k] == GeneratedDot(ax, nd, sp, k)
  {
    FillDefault(ax, a);
    ghost var filled := a[..];
    ClearNoDotRanges(nd, a);
    ghost var cleared := a[..];
    PlaceSpecialDots(sp, a);
    forall k | 0 <= k < a.Length
      ensures a[k] == GeneratedDot(ax, nd, sp, k)
    {
      assert cleared[k] == if InNoDotRange(nd, k) then 0 else filled[k];
    }
  }
}
