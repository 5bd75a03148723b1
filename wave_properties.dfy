/** Properties of the Wave2D state machine: the damping mask profile, the
    stability guard, the clamped ring, the stencil, the buffer rotation,
    the disturbance band, reset and the setters.
 */
module WaveProperties {
  import opened WaveModel

  // ---------------------------------------------------------------------
  // Sponge thickness and the disturbance band

  /** The band [t, size - t - 1] that disturbances are drawn from is non-empty exactly when size >= 3. */
  lemma {:induction false} DisturbBandNonEmptyIff(size: nat)
    ensures SpongeThickness(size) <= size - SpongeThickness(size) - 1 <==> size >= 3
  {
    var t := SpongeThickness(size);
    if size >= 16 {
      assert t == size / 16;
      assert 16 * t <= size;
    } else {
      assert t == 1;
    }
  }

  /** A disturbance never lands in the sponge: its cell sees exactly the base damping and is off the ring. */
  lemma DisturbBandIsInterior(w: Wave, x: nat, y: nat)
    requires Valid(w)
    requires InDisturbBand(w, x) && InDisturbBand(w, y)
    ensures x < w.size && y < w.size
    ensures EdgeDistance(w.size, x, y) >= w.spongeThickness
    ensures !OnRing(w.size, x, y)
    ensures w.mask[x][y] == w.baseDamping
  {
    MaskValueIsBaseIffInterior(w.baseDamping, w.spongeThickness, EdgeDistance(w.size, x, y));
  }

  // ---------------------------------------------------------------------
  // The damping mask

  lemma MaskWithinBaseAndOne(w: Wave)
    requires Valid(w)
    ensures forall i, j :: 0 <= i < w.size && 0 <= j < w.size ==>
      w.baseDamping <= w.mask[i][j] <= 1.0
  {
    forall i, j | 0 <= i < w.size && 0 <= j < w.size
      ensures w.baseDamping <= w.mask[i][j] <= 1.0
    {
      MaskValueBounds(w.baseDamping, w.spongeThickness, EdgeDistance(w.size, i, j));
    }
  }

  /** Outside the sponge the mask is the base damping, and inside the sponge it is larger. */
  lemma MaskIsBaseIffOutsideSponge(w: Wave)
    requires Valid(w)
    ensures forall i, j :: 0 <= i < w.size && 0 <= j < w.size ==>
      (w.mask[i][j] == w.baseDamping <==> EdgeDistance(w.size, i, j) >= w.spongeThickness)
  {
    forall i, j | 0 <= i < w.size && 0 <= j < w.size
      ensures w.mask[i][j] == w.baseDamping <==> EdgeDistance(w.size, i, j) >= w.spongeThickness
    {
      MaskValueIsBaseIffInterior(w.baseDamping, w.spongeThickness, EdgeDistance(w.size, i, j));
    }
  }

  lemma MaskIsOneOnRing(w: Wave)
    requires Valid(w)
    ensures forall i, j :: 0 <= i < w.size && 0 <= j < w.size && OnRing(w.size, i, j) ==>
      w.mask[i][j] == 1.0
  {
    forall i, j | 0 <= i < w.size && 0 <= j < w.size && OnRing(w.size, i, j)
      ensures w.mask[i][j] == 1.0
    {
      MaskValueOnRing(w.baseDamping, w.spongeThickness);
    }
  }

  /** A cell nearer the edge is damped at least as much. */
  lemma MaskMonotoneTowardsEdge(w: Wave, i1: nat, j1: nat, i2: nat, j2: nat)
    requires Valid(w)
    requires i1 < w.size && j1 < w.size && i2 < w.size && j2 < w.size
    requires EdgeDistance(w.size, i1, j1) <= EdgeDistance(w.size, i2, j2)
    ensures w.mask[i2][j2] <= w.mask[i1][j1]
  {
    MaskValueMonotone(w.baseDamping, w.spongeThickness,
                      EdgeDistance(w.size, i1, j1), EdgeDistance(w.size, i2, j2));
  }

  // ---------------------------------------------------------------------
  // Construction

  /** Construction keeps any base damping below 1, while the setter refuses MAX_DAMPING itself. */
  lemma ConstructorAndSetterBounds(size: nat, speed: real, w: Wave)
    requires Valid(w)
    ensures Init(size, speed, MAX_DAMPING).baseDamping == MAX_DAMPING
    ensures Init(size, speed, 0.9).baseDamping == 0.9
    ensures Init(size, speed, 1.0).baseDamping == DEFAULT_DAMPING
    ensures Init(size, speed, 0.0).baseDamping == DEFAULT_DAMPING
    ensures SetDamping(w, MAX_DAMPING) == w
  {
  }

  /** The 5-by-5 scenario: thickness 1, coordinates 1 to 3 are legal, and a unit disturbance at (2, 2) changes only that cell. */
  lemma {:induction false} FiveByFiveScenario(x: nat)
    ensures Init(5, 1.0, 0.1).spongeThickness == 1
    ensures InDisturbBand(Init(5, 1.0, 0.1), x) <==> 1 <= x <= 3
    ensures forall i, j :: 0 <= i < 5 && 0 <= j < 5 ==>
      Disturb(Init(5, 1.0, 0.1), 2, 2, 1.0).cur[i][j] == if i == 2 && j == 2 then 1.0 else 0.0
  {
    var w := Init(5, 1.0, 0.1);
    assert w.spongeThickness == 1;
    var w' := Disturb(w, 2, 2, 1.0);
    forall i, j | 0 <= i < 5 && 0 <= j < 5
      ensures w'.cur[i][j] == if i == 2 && j == 2 then 1.0 else 0.0
    {
      assert w.cur[i][j] == 0.0;
    }
  }

  // ---------------------------------------------------------------------
  // The step

  /** With alpha >= 1 the step changes nothing at all. */
  lemma UpdateGuard(w: Wave, delta: real)
    requires Valid(w)
    requires Alpha(w.speed, delta) >= 1.0
    ensures Update(w, delta) == w
  {
  }

  /** A step rotates the buffers and leaves parameters and mask alone. */
  lemma UpdateRotates(w: Wave, delta: real)
    requires Valid(w)
    requires Alpha(w.speed, delta) < 1.0
    ensures Update(w, delta).prev == w.cur
    ensures Update(w, delta).next == w.prev
    ensures Update(w, delta).size == w.size && Update(w, delta).speed == w.speed
    ensures Update(w, delta).baseDamping == w.baseDamping
    ensures Update(w, delta).spongeThickness == w.spongeThickness
    ensures Update(w, delta).mask == w.mask
  {
  }

  /** After a step the outer ring of the current grid is exactly zero. */
  lemma UpdateClampsRing(w: Wave, delta: real)
    requires Valid(w)
    requires Alpha(w.speed, delta) < 1.0
    ensures forall i, j :: 0 <= i < w.size && 0 <= j < w.size && OnRing(w.size, i, j) ==>
      Update(w, delta).cur[i][j] == 0.0
  {
  }

  /** After a step each interior cell is the leapfrog stencil of the old grids, scaled by (1 - mask). */
  lemma UpdateInteriorCell(w: Wave, delta: real, i: nat, j: nat)
    requires Valid(w)
    requires Alpha(w.speed, delta) < 1.0
    requires 0 < i < w.size - 1 && 0 < j < w.size - 1
    ensures Update(w, delta).cur[i][j] ==
      (2.0 * w.cur[i][j] - w.prev[i][j]
        + Alpha(w.speed, delta) * (w.cur[i + 1][j] + w.cur[i - 1][j] + w.cur[i][j + 1] + w.cur[i][j - 1]
                                   - 4.0 * w.cur[i][j]))
      * (1.0 - w.mask[i][j])
  {
    var alpha := Alpha(w.speed, delta);
    var g := Step(w.prev, w.cur, w.mask, alpha, w.size);
    assert Update(w, delta).cur == g;
    assert !OnRing(w.size, i, j);
    assert g[i][j] == StepCell(w.prev, w.cur, w.mask, alpha, w.size, i, j);
  }

  /** Previous grid all zero; current grid zero except height v at (x, y). */
  predicate SingleImpulse(w: Wave, x: nat, y: nat, v: real)
    requires Valid(w)
  {
    (forall i, j :: 0 <= i < w.size && 0 <= j < w.size ==> w.prev[i][j] == 0.0) &&
    (forall i, j :: 0 <= i < w.size && 0 <= j < w.size ==>
      w.cur[i][j] == if i == x && j == y then v else 0.0)
  }

  /** One step from a single impulse: the centre becomes (2 - 4 alpha) v before damping. */
  lemma {:induction false} ImpulseCentre(w: Wave, delta: real, x: nat, y: nat, v: real)
    requires Valid(w) && SingleImpulse(w, x, y, v)
    requires Alpha(w.speed, delta) < 1.0
    requires 0 < x < w.size - 1 && 0 < y < w.size - 1
    ensures Update(w, delta).cur[x][y] == (2.0 - 4.0 * Alpha(w.speed, delta)) * v * (1.0 - w.mask[x][y])
  {
    var alpha := Alpha(w.speed, delta);
    UpdateInteriorCell(w, delta, x, y);
    assert w.cur[x][y] == v && w.prev[x][y] == 0.0;
    assert w.cur[x + 1][y] == 0.0 && w.cur[x - 1][y] == 0.0;
    assert w.cur[x][y + 1] == 0.0 && w.cur[x][y - 1] == 0.0;
    assert 2.0 * v - 0.0 + alpha * (0.0 + 0.0 + 0.0 + 0.0 - 4.0 * v) == (2.0 - 4.0 * alpha) * v;
  }

  /** One step from a single impulse: a direct neighbour gets alpha v before damping. */
  lemma {:induction false} ImpulseNeighbour(w: Wave, delta: real, x: nat, y: nat, v: real, i: nat, j: nat)
    requires Valid(w) && SingleImpulse(w, x, y, v)
    requires Alpha(w.speed, delta) < 1.0
    requires 0 < i < w.size - 1 && 0 < j < w.size - 1
    requires Touches(x, y, i, j) && (i != x || j != y)
    ensures Update(w, delta).cur[i][j] == Alpha(w.speed, delta) * v * (1.0 - w.mask[i][j])
  {
    var alpha := Alpha(w.speed, delta);
    UpdateInteriorCell(w, delta, i, j);
    assert w.cur[i][j] == 0.0 && w.prev[i][j] == 0.0;
    var sum := w.cur[i + 1][j] + w.cur[i - 1][j] + w.cur[i][j + 1] + w.cur[i][j - 1];
    assert sum == v;
    assert 2.0 * 0.0 - 0.0 + alpha * (sum - 4.0 * 0.0) == alpha * v;
  }

  /** One step from a single impulse: every cell that is neither the centre nor a direct neighbour stays zero. */
  lemma {:induction false} ImpulseElsewhere(w: Wave, delta: real, x: nat, y: nat, v: real, i: nat, j: nat)
    requires Valid(w) && SingleImpulse(w, x, y, v)
    requires i < w.size && j < w.size && !Touches(x, y, i, j)
    ensures Update(w, delta).cur[i][j] == 0.0
  {
    var alpha := Alpha(w.speed, delta);
    if alpha < 1.0 && !OnRing(w.size, i, j) {
      UpdateInteriorCell(w, delta, i, j);
      assert w.cur[i][j] == 0.0 && w.prev[i][j] == 0.0;
      assert w.cur[i + 1][j] == 0.0 && w.cur[i - 1][j] == 0.0;
      assert w.cur[i][j + 1] == 0.0 && w.cur[i][j - 1] == 0.0;
    } else if alpha >= 1.0 {
      assert w.cur[i][j] == 0.0;
    }
  }

  /** Cell (i, j) is (x, y) or one of its four direct neighbours. */
  predicate Touches(x: int, y: int, i: int, j: int)
  {
    (i == x && j == y) || (i == x + 1 && j == y) || (i == x - 1 && j == y) ||
    (i == x && j == y + 1) || (i == x && j == y - 1)
  }

  // ---------------------------------------------------------------------
  // Disturbance, reset, setters

  /** A disturbance changes exactly one cell of the current grid, by v. */
  lemma DisturbChangesOneCell(w: Wave, x: nat, y: nat, v: real)
    requires Valid(w)
    requires InDisturbBand(w, x) && InDisturbBand(w, y)
    ensures Disturb(w, x, y, v).cur[x][y] == w.cur[x][y] + v
    ensures forall i, j :: 0 <= i < w.size && 0 <= j < w.size && (i != x || j != y) ==>
      Disturb(w, x, y, v).cur[i][j] == w.cur[i][j]
    ensures Disturb(w, x, y, v).(cur := w.cur) == w
  {
  }

  /** Reset zeroes previous and current heights and nothing else. */
  lemma ResetZeroes(w: Wave)
    requires Valid(w)
    ensures forall i, j :: 0 <= i < w.size && 0 <= j < w.size ==>
      Reset(w).prev[i][j] == 0.0 && Reset(w).cur[i][j] == 0.0
    ensures Reset(w).(prev := w.prev, cur := w.cur) == w
  {
  }

  lemma ResetIdempotent(w: Wave)
    requires Valid(w)
    ensures Reset(Reset(w)) == Reset(w)
  {
  }

  /** The damping setter ignores values outside (0, MAX_DAMPING). */
  lemma SetDampingRejects(w: Wave, v: real)
    requires Valid(w)
    requires v <= 0.0 || v >= MAX_DAMPING
    ensures SetDamping(w, v) == w
  {
  }

  /** An accepted damping is stored and the mask is rebuilt from it; the heights are untouched. */
  lemma SetDampingAccepts(w: Wave, v: real)
    requires Valid(w)
    requires 0.0 < v < MAX_DAMPING
    ensures SetDamping(w, v).baseDamping == v
    ensures SetDamping(w, v).mask == MaskGrid(w.size, v, w.spongeThickness)
    ensures SetDamping(w, v).(baseDamping := w.baseDamping, mask := w.mask) == w
  {
  }

  lemma SetSpeedRejects(w: Wave, v: real)
    requires Valid(w)
    requires v <= 0.0
    ensures SetSpeed(w, v) == w
  {
  }

  lemma SetSpeedAccepts(w: Wave, v: real)
    requires Valid(w)
    requires v > 0.0
    ensures SetSpeed(w, v).speed == v
    ensures SetSpeed(w, v).(speed := w.speed) == w
  {
  }

  // ---------------------------------------------------------------------
  // The ring stays at rest

  /** Every ring cell of the previous and current grids is zero. */
  predicate RingAtRest(w: Wave)
    requires Valid(w)
  {
    forall i, j :: 0 <= i < w.size && 0 <= j < w.size && OnRing(w.size, i, j) ==>
      w.prev[i][j] == 0.0 && w.cur[i][j] == 0.0
  }

  lemma InitRingAtRest(size: nat, speed: real, baseDamping: real)
    ensures RingAtRest(Init(size, speed, baseDamping))
  {
  }

  lemma UpdateKeepsRingAtRest(w: Wave, delta: real)
    requires Valid(w) && RingAtRest(w)
    ensures RingAtRest(Update(w, delta))
  {
  }

  lemma {:induction false} DisturbKeepsRingAtRest(w: Wave, x: nat, y: nat, v: real)
    requires Valid(w) && RingAtRest(w)
    requires InDisturbBand(w, x) && InDisturbBand(w, y)
    ensures RingAtRest(Disturb(w, x, y, v))
  {
    DisturbBandIsInterior(w, x, y);
  }

  lemma ResetKeepsRingAtRest(w: Wave)
    requires Valid(w)
    ensures RingAtRest(Reset(w))
  {
  }

  lemma SettersKeepRingAtRest(w: Wave, damping: real, speed: real)
    requires Valid(w) && RingAtRest(w)
    ensures RingAtRest(SetDamping(w, damping))
    ensures RingAtRest(SetSpeed(w, speed))
  {
  }
}
