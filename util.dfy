// Small helpers shared by the game model: the Arduino `constrain` and `abs`
// macros, C's truncating integer division, and the div/mod facts the table
// index arithmetic needs.
module Util {

  datatype Option<+T> = None | Some(value: T)

  /** Arduino's `constrain(amt, low, high)` macro: clamps `amt` into [low, high]. */
  function Constrain(amt: int, low: int, high: int): (r: int)
    ensures low <= high ==> low <= r <= high
    ensures low <= high ==> (r == amt || (r == low && amt < low) || (r == high && amt > high))
  {
    if amt < low then low else if amt > high then high else amt
  }

  /** Arduino's `abs` macro. */
  function Abs(x: int): (r: int)
    ensures r >= 0 && (r == x || r == -x)
  {
    if x > 0 then x else -x
  }

  /** C's `/` on `int`: the quotient is truncated toward zero. */
  function CDiv(a: int, b: int): (r: int)
    requires b > 0
    ensures (a >= 0 ==> r >= 0) && (a <= 0 ==> r <= 0)
    ensures Abs(r) * b <= Abs(a) < (Abs(r) + 1) * b
  {
    if a >= 0 then
      FloorDivBounds(a, b);
      a / b
    else
      FloorDivBounds(-a, b);
      -((-a) / b)
  }

  /** For a non-negative dividend the quotient is the number of whole divisors it holds. */
  lemma FloorDivBounds(n: int, b: int)
    requires n >= 0 && b > 0
    ensures n / b >= 0 && (n / b) * b <= n < (n / b + 1) * b
  {
    var q, rem := n / b, n % b;
    assert n == q * b + rem && 0 <= rem < b;
    assert (q + 1) * b == q * b + b;
  }

  lemma MulAtLeast(k: int, n: int)
    requires k >= 1 && n > 0
    ensures k * n >= n
  {
  }

  lemma MulSmall(k: int, n: int)
    requires n > 0 && -n < k * n < n
    ensures k == 0
  {
    if k >= 1 { MulAtLeast(k, n); }
    else if k <= -1 { MulAtLeast(-k, n); }
  }

  /** Quotient and remainder are determined by `a == q * n + r` with `0 <= r < n`. */
  lemma DivModUnique(a: int, n: int, q: int, r: int)
    requires n > 0 && a == q * n + r && 0 <= r < n
    ensures a / n == q && a % n == r
  {
    var q', r' := a / n, a % n;
    assert (q - q') * n == r' - r;
    MulSmall(q - q', n);
  }

  /** How `i / p` and `i % p` move when `i` advances by one. */
  lemma DivModSucc(i: nat, p: nat)
    requires p > 0
    ensures i % p < p - 1 ==> (i + 1) % p == i % p + 1 && (i + 1) / p == i / p
    ensures i % p == p - 1 ==> (i + 1) % p == 0 && (i + 1) / p == i / p + 1
  {
    var q, r := i / p, i % p;
    if r < p - 1 { DivModUnique(i + 1, p, q, r + 1); }
    else { DivModUnique(i + 1, p, q + 1, 0); }
  }

  /** A row-major cell `r * n + c` with `r < rows` and `c < n` lies in a table of `rows * n` cells. */
  lemma CellInTable(r: int, c: int, n: int, rows: int)
    requires 0 <= r < rows && 0 <= c < n
    ensures 0 <= r * n + c < rows * n
    ensures r * n + n <= rows * n
  {
    assert r * n + n == (r + 1) * n;
    assert (r + 1) * n <= rows * n by {
      if r + 1 < rows { MulAtLeast(rows - (r + 1), n); assert rows * n - (r + 1) * n == (rows - (r + 1)) * n; }
    }
  }

  /** An index below `rows * p` lies in row `i / p < rows`. */
  lemma RowOfIndex(i: nat, p: nat, rows: nat)
    requires p > 0 && i < rows * p
    ensures i / p < rows && i % p < p
  {
  }
}
