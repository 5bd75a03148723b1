/** Value-level model of the Wave2D height-field simulator.

    Heights, speed and damping are modelled as mathematical reals; the
    arithmetic is exact.  A grid is a sequence of rows.  The datatype
    `Wave` is the complete observable state of one simulator object, and
    each operation of the simulator is a function from state to state.
 */
module WaveModel {

  /** Exclusive upper bound accepted by the damping setter. */
  const MAX_DAMPING: real := 0.2
  /** Fraction of the half-size used as the absorbing border. */
  const SPONGE_FRACTION: real := 0.125
  /** Base damping substituted by the constructor for an out-of-range value. */
  const DEFAULT_DAMPING: real := 0.5

  type Grid = seq<seq<real>>

  predicate IsSquare(g: Grid, n: nat)
  {
    |g| == n && forall i :: 0 <= i < n ==> |g[i]| == n
  }

  /** A freshly allocated n-by-n grid. */
  function Zeros(n: nat): (g: Grid)
    ensures IsSquare(g, n)
    ensures forall i, j :: 0 <= i < n && 0 <= j < n ==> g[i][j] == 0.0
  {
    seq(n, _ => seq(n, _ => 0.0))
  }

  function Min(a: nat, b: nat): nat
  {
    if a <= b then a else b
  }

  function Max(a: int, b: int): int
  {
    if a >= b then a else b
  }

  /** std::clamp: lo below the range, hi above it, the value otherwise. */
  function Clamp(x: real, lo: real, hi: real): (r: real)
    requires lo <= hi
    ensures lo <= r <= hi
    ensures x < lo ==> r == lo
    ensures hi < x ==> r == hi
    ensures lo <= x <= hi ==> r == x
  {
    if x < lo then lo else if hi < x then hi else x
  }

  /** Cells with a coordinate on the first or last row or column. */
  predicate OnRing(n: nat, i: nat, j: nat)
  {
    i == 0 || j == 0 || i == n - 1 || j == n - 1
  }

  /** Chebyshev distance from cell (i, j) to the nearest edge of an n-by-n grid. */
  function EdgeDistance(n: nat, i: nat, j: nat): (d: nat)
    requires i < n && j < n
    ensures d <= i && d <= j && d <= n - 1 - i && d <= n - 1 - j
    ensures d == i || d == j || d == n - 1 - i || d == n - 1 - j
    ensures d == 0 <==> OnRing(n, i, j)
  {
    Min(Min(i, j), Min(n - 1 - i, n - 1 - j))
  }

  /** The product size * 0.5 * SPONGE_FRACTION truncated to an integer is size / 16. */
  lemma SixteenthFloor(size: nat)
    ensures (size as real * 0.5 * SPONGE_FRACTION).Floor == size / 16
  {
    var q, r := size / 16, size % 16;
    assert size == 16 * q + r;
    var x := size as real * 0.5 * SPONGE_FRACTION;
    assert x == q as real + r as real / 16.0;
    assert q as real <= x < q as real + 1.0;
  }

  /** Width of the absorbing border: the truncated product, but at least one cell. */
  function SpongeThickness(size: nat): (t: int)
    ensures t >= 1
    ensures t == if size / 16 >= 1 then size / 16 else 1
  {
    SixteenthFloor(size);
    Max((size as real * 0.5 * SPONGE_FRACTION).Floor, 1)
  }

  /** Sponge profile: 1 on the ring, falling linearly to 0 at the inner edge of the sponge. */
  function SpongeProfile(d: nat, t: int): (s: real)
    requires t >= 1
    ensures 0.0 <= s <= 1.0
  {
    Clamp(1.0 - d as real / t as real, 0.0, 1.0)
  }

  /** Damping coefficient of a cell at edge distance d. */
  function MaskValue(base: real, t: int, d: nat): real
    requires t >= 1
  {
    var s := SpongeProfile(d, t);
    base + (1.0 - base) * s * s
  }

  /** The damping mask of an n-by-n grid for a base damping and a sponge thickness. */
  function MaskGrid(n: nat, base: real, t: int): (g: Grid)
    requires t >= 1
    ensures IsSquare(g, n)
  {
    seq(n, i requires 0 <= i < n =>
      seq(n, j requires 0 <= j < n => MaskValue(base, t, EdgeDistance(n, i, j))))
  }

  /** Multiplying by a non-negative factor keeps an inequality. */
  lemma ScaleLe(a: real, x: real, y: real)
    requires a >= 0.0 && x <= y
    ensures a * x <= a * y
  {
    assert a * y - a * x == a * (y - x);
  }

  /** Multiplying by a positive factor keeps a strict inequality. */
  lemma ScaleLt(a: real, x: real, y: real)
    requires a > 0.0 && x < y
    ensures a * x < a * y
  {
    assert a * y - a * x == a * (y - x);
  }

  lemma ProductPos(a: real, b: real)
    requires a > 0.0 && b > 0.0
    ensures a * b > 0.0
  {
    ScaleLt(a, 0.0, b);
  }

  lemma SquareLe(a: real, b: real)
    requires 0.0 <= a <= b
    ensures a * a <= b * b
  {
    ScaleLe(a, a, b);
    ScaleLe(b, a, b);
    assert a * b == b * a;
  }

  lemma {:induction false} MaskValueBounds(base: real, t: int, d: nat)
    requires 0.0 <= base <= 1.0 && t >= 1
    ensures base <= MaskValue(base, t, d) <= 1.0
  {
    var s := SpongeProfile(d, t);
    ScaleLe(s, s, 1.0);
    ScaleLe(s, 0.0, s);
    ScaleLe(1.0 - base, s * s, 1.0);
    ScaleLe(1.0 - base, 0.0, s * s);
    assert (1.0 - base) * s * s == (1.0 - base) * (s * s);
    assert MaskValue(base, t, d) == base + (1.0 - base) * (s * s);
  }

  /** Outside the sponge the mask is exactly the base damping, and only there (for a base below 1). */
  lemma {:induction false} MaskValueIsBaseIffInterior(base: real, t: int, d: nat)
    requires 0.0 <= base < 1.0 && t >= 1
    ensures MaskValue(base, t, d) == base <==> d >= t
  {
    var q := d as real / t as real;
    if d >= t {
      assert q >= 1.0 by {
        assert q * t as real == d as real;
      }
      assert SpongeProfile(d, t) == 0.0;
    } else {
      assert q < 1.0 by {
        assert q * t as real == d as real;
      }
      var s := SpongeProfile(d, t);
      assert s > 0.0;
      var a := (1.0 - base) * s;
      ProductPos(1.0 - base, s);
      var k := a * s;
      ProductPos(a, s);
      assert MaskValue(base, t, d) == base + k;
    }
  }

  lemma MaskValueOnRing(base: real, t: int)
    requires t >= 1
    ensures MaskValue(base, t, 0) == 1.0
  {
  }

  lemma ClampMonotone(x: real, y: real, lo: real, hi: real)
    requires lo <= hi && x <= y
    ensures Clamp(x, lo, hi) <= Clamp(y, lo, hi)
  {
  }

  /** The sponge profile does not increase with the distance to the edge. */
  lemma ProfileMonotone(d1: nat, d2: nat, t: int)
    requires t >= 1 && d1 <= d2
    ensures SpongeProfile(d2, t) <= SpongeProfile(d1, t)
  {
    var q1, q2 := d1 as real / t as real, d2 as real / t as real;
    assert q1 <= q2 by {
      assert q2 - q1 == (d2 - d1) as real / t as real;
    }
    ClampMonotone(1.0 - q2, 1.0 - q1, 0.0, 1.0);
  }

  /** The mask does not decrease as a cell gets closer to the edge. */
  lemma {:induction false} MaskValueMonotone(base: real, t: int, d1: nat, d2: nat)
    requires base <= 1.0 && t >= 1 && d1 <= d2
    ensures MaskValue(base, t, d2) <= MaskValue(base, t, d1)
  {
    var s1, s2 := SpongeProfile(d1, t), SpongeProfile(d2, t);
    ProfileMonotone(d1, d2, t);
    SquareLe(s2, s1);
    ScaleLe(1.0 - base, s2 * s2, s1 * s1);
    assert (1.0 - base) * s1 * s1 == (1.0 - base) * (s1 * s1);
    assert (1.0 - base) * s2 * s2 == (1.0 - base) * (s2 * s2);
  }

  /** The complete state of a simulator object. */
  datatype Wave = Wave(
    size: nat,
    speed: real,
    baseDamping: real,
    spongeThickness: int,
    prev: Grid,
    cur: Grid,
    next: Grid,
    mask: Grid)

  /** State invariant: derived thickness, base damping in (0, 1), four n-by-n grids, mask up to date. */
  predicate Valid(w: Wave)
  {
    w.spongeThickness == SpongeThickness(w.size) &&
    0.0 < w.baseDamping < 1.0 &&
    IsSquare(w.prev, w.size) && IsSquare(w.cur, w.size) && IsSquare(w.next, w.size) &&
    w.mask == MaskGrid(w.size, w.baseDamping, w.spongeThickness)
  }

  /** Construction: base damping kept only inside (0, 1), zeroed height grids, derived mask. */
  function Init(size: nat, speed: real, baseDamping: real): (w: Wave)
    ensures Valid(w)
    ensures w.size == size && w.speed == speed
    ensures 0.0 < baseDamping < 1.0 ==> w.baseDamping == baseDamping
    ensures !(0.0 < baseDamping < 1.0) ==> w.baseDamping == DEFAULT_DAMPING
    ensures w.prev == Zeros(size) && w.cur == Zeros(size) && w.next == Zeros(size)
  {
    var base := if 0.0 < baseDamping && baseDamping < 1.0 then baseDamping else DEFAULT_DAMPING;
    var t := SpongeThickness(size);
    Wave(size, speed, base, t, Zeros(size), Zeros(size), Zeros(size), MaskGrid(size, base, t))
  }

  /** Squared Courant number of one step. */
  function Alpha(speed: real, delta: real): real
  {
    (speed * delta) * (speed * delta)
  }

  /** New height of one cell: clamped on the ring, damped leapfrog stencil inside. */
  function StepCell(prev: Grid, cur: Grid, mask: Grid, alpha: real, n: nat, i: nat, j: nat): real
    requires IsSquare(prev, n) && IsSquare(cur, n) && IsSquare(mask, n)
    requires i < n && j < n
  {
    if OnRing(n, i, j) then 0.0
    else
      (2.0 * cur[i][j] - prev[i][j]
        + alpha * (cur[i + 1][j] + cur[i - 1][j] + cur[i][j + 1] + cur[i][j - 1] - 4.0 * cur[i][j]))
      * (1.0 - mask[i][j])
  }

  /** The grid written by one step. */
  function Step(prev: Grid, cur: Grid, mask: Grid, alpha: real, n: nat): (g: Grid)
    requires IsSquare(prev, n) && IsSquare(cur, n) && IsSquare(mask, n)
    ensures IsSquare(g, n)
  {
    seq(n, i requires 0 <= i < n =>
      seq(n, j requires 0 <= j < n => StepCell(prev, cur, mask, alpha, n, i, j)))
  }

  /** One time step: skipped when alpha >= 1, otherwise the stencil followed by the buffer rotation. */
  function Update(w: Wave, delta: real): (w': Wave)
    requires Valid(w)
    ensures Valid(w')
  {
    var alpha := Alpha(w.speed, delta);
    if alpha >= 1.0 then w
    else w.(prev := w.cur, cur := Step(w.prev, w.cur, w.mask, alpha, w.size), next := w.prev)
  }

  /** The band both disturbance coordinates are drawn from. */
  predicate InDisturbBand(w: Wave, x: int)
  {
    w.spongeThickness <= x <= w.size - w.spongeThickness - 1
  }

  /** Adds v to one cell of the current grid. */
  function Disturb(w: Wave, x: nat, y: nat, v: real): (w': Wave)
    requires Valid(w)
    requires InDisturbBand(w, x) && InDisturbBand(w, y)
    ensures Valid(w')
  {
    w.(cur := w.cur[x := w.cur[x][y := w.cur[x][y] + v]])
  }

  /** Zeroes the previous and current grids. */
  function Reset(w: Wave): (w': Wave)
    requires Valid(w)
    ensures Valid(w')
  {
    w.(prev := Zeros(w.size), cur := Zeros(w.size))
  }

  /** Takes a damping strictly inside (0, MAX_DAMPING) and rebuilds the mask; ignores anything else. */
  function SetDamping(w: Wave, v: real): (w': Wave)
    requires Valid(w)
    ensures Valid(w')
  {
    if v <= 0.0 || v >= MAX_DAMPING then w
    else w.(baseDamping := v, mask := MaskGrid(w.size, v, w.spongeThickness))
  }

  /** Takes a positive speed; ignores anything else. */
  function SetSpeed(w: Wave, v: real): (w': Wave)
    requires Valid(w)
    ensures Valid(w')
  {
    if v <= 0.0 then w else w.(speed := v)
  }
}
