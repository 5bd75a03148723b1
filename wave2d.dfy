/** The Wave2D simulator object: four size-by-size grids held in arrays that
    the step writes in place and then rotates.  Every method is specified by
    the state function of WaveModel that it implements, through Model(), and
    by which arrays the grid fields name afterwards.
 */
module WaveSim {
  import opened WaveModel

  /** The contents of a two-dimensional array, row by row. */
  ghost function Snapshot(a: array2<real>): (g: Grid)
    reads a
    ensures |g| == a.Length0
    ensures forall i :: 0 <= i < a.Length0 ==> |g[i]| == a.Length1
    ensures forall i, j :: 0 <= i < a.Length0 && 0 <= j < a.Length1 ==> g[i][j] == a[i, j]
  {
    seq(a.Length0, i requires 0 <= i < a.Length0 reads a =>
      seq(a.Length1, j requires 0 <= j < a.Length1 reads a => a[i, j]))
  }

  /** An array and a grid with the same shape and the same cells have the same contents. */
  lemma SnapshotIs(a: array2<real>, g: Grid)
    requires |g| == a.Length0
    requires forall i :: 0 <= i < a.Length0 ==> |g[i]| == a.Length1
    requires forall i, j :: 0 <= i < a.Length0 && 0 <= j < a.Length1 ==> g[i][j] == a[i, j]
    ensures Snapshot(a) == g
  {
    var s := Snapshot(a);
    forall i | 0 <= i < a.Length0
      ensures s[i] == g[i]
    {
      assert |s[i]| == |g[i]|;
      assert forall j :: 0 <= j < a.Length1 ==> s[i][j] == g[i][j];
    }
  }

  /** The loop nest of one step: writes every cell of `next` from the other three grids. */
  method StepInto(prev: array2<real>, cur: array2<real>, mask: array2<real>, next: array2<real>,
                  size: nat, alpha: real)
    requires prev.Length0 == size && prev.Length1 == size
    requires cur.Length0 == size && cur.Length1 == size
    requires mask.Length0 == size && mask.Length1 == size
    requires next.Length0 == size && next.Length1 == size
    requires next != prev && next != cur && next != mask
    modifies next
    ensures Snapshot(next) == Step(Snapshot(prev), Snapshot(cur), Snapshot(mask), alpha, size)
  {
    ghost var p, c, m := Snapshot(prev), Snapshot(cur), Snapshot(mask);
    for i := 0 to size
      invariant forall r, s :: 0 <= r < i && 0 <= s < size ==>
        next[r, s] == StepCell(p, c, m, alpha, size, r, s)
    {
      for j := 0 to size
        invariant forall r, s :: 0 <= r < i && 0 <= s < size ==>
          next[r, s] == StepCell(p, c, m, alpha, size, r, s)
        invariant forall s :: 0 <= s < j ==>
          next[i, s] == StepCell(p, c, m, alpha, size, i, s)
      {
        if i == 0 || j == 0 || i == size - 1 || j == size - 1 {
          next[i, j] := 0.0;
          continue;
        }

        next[i, j] := 2.0 * cur[i, j] - prev[i, j] +
                      alpha * (cur[i + 1, j] + cur[i - 1, j] +
                               cur[i, j + 1] + cur[i, j - 1] -
                               4.0 * cur[i, j]);
        next[i, j] := next[i, j] * (1.0 - mask[i, j]);
      }
    }
    SnapshotIs(next, Step(p, c, m, alpha, size));
  }

  /** The loop body of the mask computation yields the cell's MaskValue. */
  lemma MaskCellIs(base: real, t: int, n: nat, i: nat, j: nat, s: real)
    requires t >= 1 && i < n && j < n
    requires s == Clamp(1.0 - Min(Min(i, j), Min(n - i - 1, n - j - 1)) as real / t as real, 0.0, 1.0)
    ensures base + (1.0 - base) * s * s == MaskValue(base, t, EdgeDistance(n, i, j))
  {
  }

  /** The loop nest of the mask computation: writes every cell of `mask`. */
  method FillMask(mask: array2<real>, size: nat, base: real, t: int)
    requires t >= 1
    requires mask.Length0 == size && mask.Length1 == size
    modifies mask
    ensures Snapshot(mask) == MaskGrid(size, base, t)
  {
    ghost var g := MaskGrid(size, base, t);
    for i := 0 to size
      invariant forall r, c :: 0 <= r < i && 0 <= c < size ==> mask[r, c] == g[r][c]
    {
      for j := 0 to size
        invariant forall r, c :: 0 <= r < i && 0 <= c < size ==> mask[r, c] == g[r][c]
        invariant forall c :: 0 <= c < j ==> mask[i, c] == g[i][c]
      {
        var distance := Min(Min(i, j), Min(size - i - 1, size - j - 1));
        var s := 1.0 - distance as real / t as real;
        s := Clamp(s, 0.0, 1.0);
        MaskCellIs(base, t, size, i, j, s);
        assert g[i][j] == MaskValue(base, t, EdgeDistance(size, i, j));
        mask[i, j] := base + (1.0 - base) * s * s;
      }
    }
    SnapshotIs(mask, g);
  }

  class Wave2D {
    const size: nat
    var speed: real
    var baseDamping: real
    const spongeThickness: int

    /** Previous, current and next heights, and the per-cell damping. */
    var hp: array2<real>
    var hc: array2<real>
    var hn: array2<real>
    var dampingMask: array2<real>

    /** The four grids are size-by-size and are four distinct arrays. */
    ghost predicate Shaped()
      reads this
    {
      hp.Length0 == size && hp.Length1 == size &&
      hc.Length0 == size && hc.Length1 == size &&
      hn.Length0 == size && hn.Length1 == size &&
      dampingMask.Length0 == size && dampingMask.Length1 == size &&
      hp != hc && hp != hn && hc != hn &&
      dampingMask != hp && dampingMask != hc && dampingMask != hn
    }

    ghost function Model(): Wave
      reads this, hp, hc, hn, dampingMask
    {
      Wave(size, speed, baseDamping, spongeThickness,
           Snapshot(hp), Snapshot(hc), Snapshot(hn), Snapshot(dampingMask))
    }

    ghost predicate Valid()
      reads this, hp, hc, hn, dampingMask
    {
      Shaped() && WaveModel.Valid(Model())
    }

    constructor (size: nat, speed: real, baseDamping: real)
      ensures Valid()
      ensures Model() == Init(size, speed, baseDamping)
      ensures fresh(hp) && fresh(hc) && fresh(hn) && fresh(dampingMask)
    {
      this.size := size;
      this.speed := speed;
      this.baseDamping :=
        if 0.0 < baseDamping && baseDamping < 1.0 then baseDamping else DEFAULT_DAMPING;
      spongeThickness := SpongeThickness(size);
      hp := new real[size, size]((i, j) => 0.0);
      hc := new real[size, size]((i, j) => 0.0);
      hn := new real[size, size]((i, j) => 0.0);
      dampingMask := new real[0, 0];
      new;
      CalculateDampingMask();
      SnapshotIs(hp, Zeros(size));
      SnapshotIs(hc, Zeros(size));
      SnapshotIs(hn, Zeros(size));
    }

    /** Rebuilds the mask from the edge distance of every cell. */
    method CalculateDampingMask()
      requires spongeThickness == SpongeThickness(size)
      modifies this`dampingMask
      ensures fresh(dampingMask)
      ensures dampingMask.Length0 == size && dampingMask.Length1 == size
      ensures Snapshot(dampingMask) == MaskGrid(size, baseDamping, spongeThickness)
    {
      var mask := new real[size, size];
      FillMask(mask, size, baseDamping, spongeThickness);
      dampingMask := mask;
    }

    /** One time step of length delta. */
    method UpdateWave(delta: real)
      requires Valid()
      modifies this`hp, this`hc, this`hn, hn
      ensures Valid()
      ensures Model() == Update(old(Model()), delta)
      ensures Alpha(speed, delta) >= 1.0 ==> hp == old(hp) && hc == old(hc) && hn == old(hn)
      ensures Alpha(speed, delta) < 1.0 ==> hp == old(hc) && hc == old(hn) && hn == old(hp)
    {
      var alpha := speed * delta;
      alpha := alpha * alpha;
      assert alpha == Alpha(speed, delta);

      if alpha >= 1.0 {
        return;
      }

      StepInto(hp, hc, dampingMask, hn, size, alpha);

      hp, hc := hc, hp;
      hc, hn := hn, hc;
    }

    /** Adds v to cell (x, y) of the current grid; x, y and v are the draws of the C++ code's distributions. */
    method AddRandomDisturbance(minV: real, maxV: real, x: nat, y: nat, v: real)
      requires Valid()
      requires size >= 3
      requires spongeThickness <= x <= size - spongeThickness - 1
      requires spongeThickness <= y <= size - spongeThickness - 1
      requires minV <= v <= maxV
      modifies hc
      ensures Valid()
      ensures Model() == Disturb(old(Model()), x, y, v)
    {
      hc[x, y] := hc[x, y] + v;
      ghost var w := old(Model());
      SnapshotIs(hc, w.cur[x := w.cur[x][y := w.cur[x][y] + v]]);
    }

    /** Zero-filled previous and current grids; the next grid and the mask stay. */
    method Reset()
      requires Valid()
      modifies this`hp, this`hc
      ensures Valid()
      ensures Model() == WaveModel.Reset(old(Model()))
      ensures fresh(hp) && fresh(hc) && hn == old(hn) && dampingMask == old(dampingMask)
    {
      hp := new real[size, size]((i, j) => 0.0);
      hc := new real[size, size]((i, j) => 0.0);
      SnapshotIs(hp, Zeros(size));
      SnapshotIs(hc, Zeros(size));
    }

    /** The current grid itself, not a copy. */
    method GetSurface() returns (surface: array2<real>)
      requires Valid()
      ensures surface == hc
      ensures Snapshot(surface) == Model().cur
      ensures surface.Length0 == size && surface.Length1 == size
    {
      surface := hc;
    }

    method SetDamping(val: real)
      requires Valid()
      modifies this`baseDamping, this`dampingMask
      ensures Valid()
      ensures Model() == WaveModel.SetDamping(old(Model()), val)
      ensures val <= 0.0 || val >= MAX_DAMPING ==> dampingMask == old(dampingMask)
      ensures 0.0 < val < MAX_DAMPING ==> fresh(dampingMask)
    {
      if val <= 0.0 || val >= MAX_DAMPING {
        return;
      }
      baseDamping := val;
      CalculateDampingMask();
    }

    method GetDamping() returns (d: real)
      requires Valid()
      ensures d == Model().baseDamping
      ensures 0.0 < d < 1.0
    {
      d := baseDamping;
    }

    method SetSpeed(val: real)
      requires Valid()
      modifies this`speed
      ensures Valid()
      ensures Model() == WaveModel.SetSpeed(old(Model()), val)
    {
      if val <= 0.0 {
        return;
      }
      speed := val;
    }

    method GetSpeed() returns (s: real)
      ensures s == speed
    {
      s := speed;
    }
  }
}
