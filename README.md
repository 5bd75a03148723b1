# Wave2D height-field simulator, modelled in Dafny

This project models the `Wave2D` class of the ascii-water renderer. It is a
damped 2D scalar-wave integrator over a square grid of heights. The object
holds:

- its size, propagation speed, base damping and sponge-layer thickness;
- three height grids (previous, current, next), advanced by an explicit
  leapfrog stencil;
- a damping mask that absorbs waves in a border band ("sponge") before they
  reach the clamped outer ring.

The model has three parts:

- `WaveModel` (wave_model.dfy) is the state of one simulator as a value. It
  holds the constants `MAX_DAMPING` = 0.2, `SPONGE_FRACTION` = 0.125 and the
  default damping 0.5. It computes the sponge thickness, the edge distance
  and the mask. Each operation is a function from state to state: `Init`,
  `Update`, `Disturb`, `Reset`, `SetDamping` and `SetSpeed`.
- `WaveSim` (wave2d.dfy) holds the class `Wave2D`. Its four grid fields are
  `array2<real>`. Its methods follow the C++ member functions: nested
  loops that write the mask and the next grid in place, and field swaps that
  rotate the buffers. Each mutating method states three things:
  - `Model() == F(old(Model()))` for the matching `WaveModel` function;
  - that `Valid()` is kept, meaning all four grids are size-by-size and are
    four distinct arrays;
  - which array each grid field names afterwards. This is how the step's
    rotation without aliasing is stated.
- `WaveProperties` (wave_properties.dfy) proves what the code promises about
  the functional model. This covers the mask profile, the stability guard,
  the zero ring, the stencil formula, the rotation, the disturbance band,
  reset and the setters.

Heights, speed and damping are exact `real`s.

The constructor keeps any base damping strictly inside (0, 1); only the
setter is bounded by `MAX_DAMPING`. For a 5-by-5 grid the sponge thickness is
1 and both disturbance coordinates range over [1, 3], nine cells
(`FiveByFiveScenario`).

## Model

| member | source | states |
|---|---|---|
| WaveModel.SixteenthFloor | src/wave3d.cpp:14-15 | truncating size * 0.5 * SPONGE_FRACTION gives exactly size / 16 |
| WaveModel.SpongeThickness | src/wave3d.cpp:14-15 | the thickness is at least 1 and equals size / 16 whenever that is at least 1, otherwise 1 |
| WaveModel.Zeros | src/wave3d.cpp:17-19 | a fresh grid is size-by-size with every cell 0 |
| WaveModel.Clamp | src/wave3d.cpp:31 | std::clamp: the result lies in [lo, hi] and is the value itself when that is already in range |
| WaveModel.EdgeDistance | src/wave3d.cpp:29 | the distance is the least of i, j, size-1-i, size-1-j, and it is 0 exactly on the outer ring |
| WaveModel.SpongeProfile | src/wave3d.cpp:30-31 | the sponge factor s lies in [0, 1] |
| WaveModel.MaskGrid | src/wave3d.cpp:24-35 | the mask is a size-by-size grid |
| WaveModel.MaskValueBounds | src/wave3d.cpp:32 | every mask value lies in [base, 1] |
| WaveModel.MaskValueIsBaseIffInterior | src/wave3d.cpp:30-32 | a mask value equals the base damping if and only if the distance is at least the sponge thickness |
| WaveModel.MaskValueOnRing | src/wave3d.cpp:30-32 | at distance 0 the mask value is 1 |
| WaveModel.MaskValueMonotone | src/wave3d.cpp:30-32 | the mask value does not decrease as the distance to the edge decreases |
| WaveModel.Init | src/wave3d.cpp:6-22 | base damping kept only inside (0, 1), otherwise 0.5; size and speed stored; the three height grids are all zero; the result satisfies the state invariant |
| WaveModel.Step | src/wave3d.cpp:43-56 | the grid written by one step is size-by-size |
| WaveModel.Update | src/wave3d.cpp:37-60 | a step keeps the state invariant |
| WaveModel.Disturb | src/wave3d.cpp:62-74 | a disturbance keeps the state invariant |
| WaveModel.Reset | src/wave3d.cpp:76-79 | reset keeps the state invariant |
| WaveModel.SetDamping | src/wave3d.cpp:85-89 | the damping setter keeps the state invariant, with the mask rebuilt for the new damping |
| WaveModel.SetSpeed | src/wave3d.cpp:95-98 | the speed setter keeps the state invariant |
| WaveSim.FillMask | src/wave3d.cpp:27-34 | the nested loops leave every cell of the mask array equal to MaskGrid(size, base, thickness) |
| WaveSim.StepInto | src/wave3d.cpp:43-56 | the nested loops leave the written grid equal to Step of the previous, current and mask grids |
| WaveSim.Wave2D.constructor | src/wave3d.cpp:6-22 | the new object is valid, its state is Init(size, speed, baseDamping), and its four grids are fresh distinct arrays |
| WaveSim.Wave2D.CalculateDampingMask | src/wave3d.cpp:24-35 | the mask field names a fresh size-by-size array whose contents are MaskGrid(size, base, thickness) |
| WaveSim.Wave2D.UpdateWave | src/wave3d.cpp:37-60 | the new state is Update(old state, delta); with alpha >= 1 the grid fields are unchanged; with alpha < 1 the previous field names the old current array, current names the old next array and next names the old previous array |
| WaveSim.Wave2D.AddRandomDisturbance | src/wave3d.cpp:62-74 | with x, y drawn from [thickness, size-thickness-1] and v from [minV, maxV], the new state is Disturb(old state, x, y, v) |
| WaveSim.Wave2D.Reset | src/wave3d.cpp:76-79 | the new state is Reset(old state); previous and current are fresh arrays; the next grid and the mask are the same arrays |
| WaveSim.Wave2D.GetSurface | src/wave3d.cpp:81-83 | returns the current grid array itself, whose contents are the model's current grid, and changes nothing |
| WaveSim.Wave2D.SetDamping | src/wave3d.cpp:85-89 | the new state is SetDamping(old state, val); a rejected value keeps the same mask array; an accepted one installs a fresh one |
| WaveSim.Wave2D.GetDamping | src/wave3d.cpp:91-93 | returns the stored base damping, which lies in (0, 1), and changes nothing |
| WaveSim.Wave2D.SetSpeed | src/wave3d.cpp:95-98 | the new state is SetSpeed(old state, val) |
| WaveSim.Wave2D.GetSpeed | src/wave3d.cpp:100-102 | returns the stored speed and changes nothing |
| WaveProperties.DisturbBandNonEmptyIff | src/wave3d.cpp:67-68 | the coordinate range [thickness, size-thickness-1] is non-empty if and only if size >= 3 |
| WaveProperties.DisturbBandIsInterior | src/wave3d.cpp:67-73 | a disturbed cell is inside the grid and off the ring, at distance at least the thickness, where the mask is exactly the base damping |
| WaveProperties.MaskWithinBaseAndOne | src/wave3d.cpp:27-34 | every cell of the mask lies in [base, 1] |
| WaveProperties.MaskIsBaseIffOutsideSponge | src/wave3d.cpp:27-34 | a mask cell equals the base damping if and only if its edge distance is at least the thickness |
| WaveProperties.MaskIsOneOnRing | src/wave3d.cpp:27-34 | every outer-ring cell of the mask is 1 |
| WaveProperties.MaskMonotoneTowardsEdge | src/wave3d.cpp:27-34 | of two cells, the one nearer the edge has a mask value at least as large |
| WaveProperties.ConstructorAndSetterBounds | include/wave2d.hpp:31 | the constructor accepts 0.2 and 0.9 but replaces 0 and 1 by 0.5, while the setter rejects MAX_DAMPING = 0.2 |
| WaveProperties.FiveByFiveScenario | src/wave3d.cpp:62-74 | for size 5 the thickness is 1, the legal coordinates are exactly 1 to 3, and a unit disturbance at (2, 2) of a new field changes only that cell, to 1 |
| WaveProperties.UpdateGuard | src/wave3d.cpp:38-41 | with (speed*delta)^2 >= 1 the step leaves the whole state unchanged |
| WaveProperties.UpdateRotates | src/wave3d.cpp:58-59 | after a step the previous grid is the old current grid and the next buffer holds the old previous grid; size, speed, damping, thickness and mask are unchanged |
| WaveProperties.UpdateClampsRing | src/wave3d.cpp:45-47 | after a step every outer-ring cell of the current grid is exactly 0 |
| WaveProperties.UpdateInteriorCell | src/wave3d.cpp:50-54 | after a step each interior cell is (2 hc - hp + alpha (four neighbours - 4 hc)) (1 - mask), taken from the old grids |
| WaveProperties.ImpulseCentre | src/wave3d.cpp:50-54 | one step from a lone interior impulse v gives (2 - 4 alpha) v (1 - mask) at its cell |
| WaveProperties.ImpulseNeighbour | src/wave3d.cpp:50-54 | one step from a lone impulse v gives alpha v (1 - mask) at each interior direct neighbour |
| WaveProperties.ImpulseElsewhere | src/wave3d.cpp:43-56 | one step from a lone impulse leaves every other cell at 0 |
| WaveProperties.DisturbChangesOneCell | src/wave3d.cpp:73 | a disturbance adds v to cell (x, y) of the current grid and changes no other cell and no other part of the state |
| WaveProperties.ResetZeroes | src/wave3d.cpp:76-79 | after reset the previous and current grids are all zero and the rest of the state is unchanged |
| WaveProperties.ResetIdempotent | src/wave3d.cpp:76-79 | resetting twice is the same as resetting once |
| WaveProperties.SetDampingRejects | src/wave3d.cpp:86 | a damping value outside (0, MAX_DAMPING) changes nothing |
| WaveProperties.SetDampingAccepts | src/wave3d.cpp:87-88 | an accepted damping is stored and the mask becomes MaskGrid for it; nothing else changes |
| WaveProperties.SetSpeedRejects | src/wave3d.cpp:96 | a speed that is not positive changes nothing |
| WaveProperties.SetSpeedAccepts | src/wave3d.cpp:97 | a positive speed is stored and nothing else changes |
| WaveProperties.InitRingAtRest | src/wave3d.cpp:17-19 | a new field has a zero outer ring in the previous and current grids |
| WaveProperties.UpdateKeepsRingAtRest | src/wave3d.cpp:37-60 | a step keeps the previous and current rings at zero |
| WaveProperties.DisturbKeepsRingAtRest | src/wave3d.cpp:62-74 | a disturbance keeps the rings at zero |
| WaveProperties.ResetKeepsRingAtRest | src/wave3d.cpp:76-79 | reset leaves the rings at zero |
| WaveProperties.SettersKeepRingAtRest | src/wave3d.cpp:85-98 | the setters keep the rings at zero |

The object layout in include/wave2d.hpp:34-43 is the field list of
`WaveSim.Wave2D` and of the datatype `WaveModel.Wave`. The two constants in
include/wave2d.hpp:31-32 are `WaveModel.MAX_DAMPING` and
`WaveModel.SPONGE_FRACTION`. The `const` getters declared in
include/wave2d.hpp:20-28 are methods without a `modifies` clause. Size and
sponge thickness are `const` fields of the class because only the
constructor writes them.

## Left out

- src/main.cpp is not part of this model: the window, the event loop, the keyboard bindings, the font and HUD, the isometric projection, the vertex colouring and the wall-clock fixed-timestep accumulator are presentation and I/O.
- Randomness: `std::random_device`, `mt19937` and the two uniform distributions are replaced by the parameters x, y and v of `AddRandomDisturbance`, constrained by the ranges of those distributions. The value range is taken as the closed interval [minV, maxV], which contains the half-open [minV, maxV) of `std::uniform_real_distribution`; the model also admits v == maxV, which that distribution never draws.
- AddRandomDisturbance: requires size >= 3. For smaller sizes the C++ code builds an empty or inverted integer range (size 2 gives [1, 0]) or, for sizes 0 and 1, a range whose upper end underflows in `size_t`; its behaviour is then undefined.
- IEEE-754 double arithmetic: heights, speed and damping are exact reals. The model makes no claim about rounding. For example, it does not claim that the computed mask on the ring is bit-exactly 1.
- SpongeThickness: does not model the overflow of `static_cast<int>` for sizes of 2^35 and more, where size / 16 no longer fits in an `int`.
- Dynamic behaviour over many steps (energy decay, absorption quality, convergence) is not stated. Only the per-step formula and the stability guard are.
- Memory management: the C++ code rebuilds the mask vector and the reset grids by assignment. The model allocates fresh arrays in the same places and says nothing about the release of the old ones.
- WaveSim.StepInto: the loop nest of `update_wave` is a separate method called by `UpdateWave` between the guard and the swaps. The cells written and the order of writing are those of the C++ code.
- WaveSim.Wave2D.GetSurface: the C++ member returns a reference to the member `_hc`, which later follows `std::swap` and `reset`'s assignment and so always shows the current grid. The model returns the array object, which is a view of the current grid only until the next mutating call: after a step it is the new previous grid, and after `Reset` it is a stale array.
- WaveSim.Wave2D.GetDamping, WaveSim.Wave2D.GetSpeed: the C++ getters return `const double&`, so a caller that keeps the reference sees later `set_damping` and `set_speed` calls. The model returns the value at the time of the call.
