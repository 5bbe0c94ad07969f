# Lunar lander: flight dynamics and terrain generation

A Dafny model of the two algorithmic parts of `lunar_lander.py`.

- **Flight** (`flight.dfy`). This is the `Lander` object: the pilot's thrust and spin commands, the refuel and
  level-heading keys of the game loop, and the per-frame `update_telemetry` integrator. That integrator does
  five things: thrust lookup, heading wrap, thrust and gravity on the speeds, edge bounces, and the position
  step and fuel burn.
  - Every operation is a pure function on a `Telemetry` value.
  - The class `Lander` holds the same fields and updates them in place. Each of its methods is proved to leave
    exactly the state the function describes, and to keep the invariant `Inv`.
  - The spin commands' contracts state their dependence on fuel.
  - Lemmas state what the frame update guarantees and what sequences of commands do:
    - throttle cycling;
    - the heading range;
    - what happens on an empty tank;
    - the bounce behaviour;
    - coasting over many frames.
- **Landscape** (`terrain.dfy`). This is the `Terrain` object: the one-shot random polyline generator
  `_gen_terrain` and the caching accessor `get_terrain`.
  - `random.randint` is a `Random` object over an injected stream of raw draws. It counts how many draws were
    consumed.
  - The generator loop is specified by the recursive function `Passes`. The method `GenTerrain` keeps the
    source's loop, and it is proved to produce `Generate`'s points with the same number of draws.
  - Lemmas cover:
    - the x extent and step sizes of the polyline;
    - the vertical band the points lie in;
    - which passes hold the height level;
    - how many holds there are;
    - where the first hold occurs.

Reals are exact. The model has no floating-point rounding.

## Model

| member | source | states |
|---|---|---|
| Flight.ThrottleUp | lunar_lander.py:275-280 | only the thrust level and its burn change; the level steps up modulo 5 (4 wraps to 0); `Inv` is kept |
| Flight.ThrottleDown | lunar_lander.py:282-287 | only the thrust level and its burn change; the level steps down and is clamped at 0 with zero burn; `Inv` is kept |
| Flight.Steer | lunar_lander.py:289-302 | only the turn rate and spin burn change; with an empty tank nothing changes; with fuel both are set to the commanded values; `Inv` is kept for admissible rates |
| Flight.SteerLeft | lunar_lander.py:289-292 | with fuel, spin_left sets the turn rate to 5 and the spin burn to 0.001 and changes nothing else; with an empty tank it is a no-op; `Inv` is kept |
| Flight.SteerRight | lunar_lander.py:294-297 | with fuel, spin_right sets the turn rate to -5 and the spin burn to 0.001 and changes nothing else; with an empty tank it is a no-op; `Inv` is kept |
| Flight.SteerStraight | lunar_lander.py:299-302 | with fuel, spin_stop sets the turn rate and the spin burn to 0 and changes nothing else; with an empty tank it is a no-op; `Inv` is kept |
| Flight.Refuelled | lunar_lander.py:413-414 | the refuel key changes only the fuel, which grows by exactly 10 with no cap at a full tank; `Inv` is kept |
| Flight.Levelled | lunar_lander.py:415-416 | the level key changes only the heading, which becomes 0; `Inv` is kept |
| Flight.ThrottleUpCycles | lunar_lander.py:275-280 | five thrust_up presses return to the starting state |
| Flight.ThrottleDownUndoesUp | lunar_lander.py:275-287 | below the top level, thrust_down exactly undoes thrust_up |
| Flight.ThrottleDownAtZero | lunar_lander.py:282-287 | thrust_down at level 0 changes nothing |
| Flight.EngineThrust | lunar_lander.py:110-116 | the frame's thrust lies between 0 and the top table entry, and is 0 exactly when the tank is empty or the level is 0 |
| Flight.ThrustGrowsWithLevel | lunar_lander.py:110-116 | with fuel, a higher level gives strictly more thrust |
| Flight.WrapHeading | lunar_lander.py:220-224 | the heading is corrected by at most one full turn; any sum in [-360, 720] lands in [0, 360]; a sum already in [0, 360] is unchanged |
| Flight.BurnFuel | lunar_lander.py:268-271 | the tank never goes negative, is the plain difference unless that is negative, and never grows under non-negative burns |
| Flight.Bounce | lunar_lander.py:243-259 | past an edge the speed component across it is no longer outward (a ship already moving back in is left alone); no speed component and not the turn rate grows in size; inside all edges nothing changes |
| Flight.Kick | lunar_lander.py:210-241 | thrust is the table entry (zero on an empty tank); only thrust, heading and the two speeds change |
| Flight.Settle | lunar_lander.py:243-271 | the ship moves by the bounced speeds; the tank stays non-negative; `Inv` is kept and fuel never increases |
| Flight.Tick | lunar_lander.py:202-271 | one frame keeps the throttle and burn rates, moves the ship by its new speeds, keeps `Inv` and never adds fuel |
| Flight.TickFuel | lunar_lander.py:268-271 | after a frame the tank holds the old fuel minus both burns, floored at 0 |
| Flight.HeadingStaysInRange | lunar_lander.py:220-224 | from a heading in [0, 360] and a turn rate of at most a full turn, the new heading is in [0, 360] |
| Flight.HeadingReaches360 | lunar_lander.py:220-224 | a heading of 355 turning by 5 becomes exactly 360, which the strict test keeps |
| Flight.EmptyTankIgnoresThrottle | lunar_lander.py:210-213 | with an empty tank a frame at any thrust level equals a frame at level 0 |
| Flight.EmptyTankFalls | lunar_lander.py:210-241 | with an empty tank, wherever the ship is, thrust is 0 and before any bounce the x speed is unchanged and the y speed grows by gravity alone; with no bounce that is the frame's result |
| Flight.ThrustKickBounded | lunar_lander.py:228-238 | with direction multipliers in [-1, 1], at any position, the thrust kick changes each speed component by at most the thrust (beyond gravity) before any bounce; for a ship inside the edges that bounds the whole frame's change |
| Flight.BottomBounce | lunar_lander.py:237-266 | at any thrust level, a ship below the bottom edge (and within the side edges) whose speed after thrust and gravity is still downward bounces up at 70% of that speed, its x speed is damped to 70%, its turn rate is halved, and it moves by the bounced speed |
| Flight.CornerBounce | lunar_lander.py:237-259 | at any thrust level, past the bottom and right edges and moving outwards on both axes after thrust and gravity, two rules fire: each speed is reversed and damped to 0.49 of its value and the turn rate is quartered |
| Flight.Perform | lunar_lander.py:399-430 | every key command and every frame keeps `Inv` |
| Flight.Replay | lunar_lander.py:380-430 | any session of commands and frames keeps `Inv` |
| Flight.CoastStep | lunar_lander.py:202-271 | an engine-off, spin-off frame inside the edges keeps fuel, x speed and turn rate, and adds gravity to y speed |
| Flight.Coasting | lunar_lander.py:380-430 | n such frames in a row keep fuel, x speed and turn rate, and add n times gravity to y speed |
| Flight.Lander.constructor | lunar_lander.py:173-190 | a new lander starts at (250, 150), at rest, engine off, heading 0, full tank, satisfying `Inv` |
| Flight.Lander.ThrustUp | lunar_lander.py:275-280 | in-place thrust_up leaves the state `ThrottleUp` gives and keeps `Valid` |
| Flight.Lander.ThrustDown | lunar_lander.py:282-287 | in-place thrust_down leaves the state `ThrottleDown` gives and keeps `Valid` |
| Flight.Lander.SpinLeft | lunar_lander.py:289-292 | in-place spin_left leaves the state `SteerLeft` gives and keeps `Valid` |
| Flight.Lander.SpinRight | lunar_lander.py:294-297 | in-place spin_right leaves the state `SteerRight` gives and keeps `Valid` |
| Flight.Lander.SpinStop | lunar_lander.py:299-302 | in-place spin_stop leaves the state `SteerStraight` gives and keeps `Valid` |
| Flight.Lander.Refuel | lunar_lander.py:413-414 | the refuel key adds 10 to the tank and changes nothing else, as `Refuelled`, and keeps `Valid` |
| Flight.Lander.LevelHeading | lunar_lander.py:415-416 | the level key sets the heading to 0 and changes nothing else, as `Levelled`, and keeps `Valid` |
| Flight.Lander.BounceOffEdges | lunar_lander.py:243-259 | the four sequential edge rules change only the speeds and turn rate, as `Bounce`, and keep `Valid` |
| Flight.Lander.Accelerate | lunar_lander.py:209-241 | the first half of update_telemetry leaves the state `Kick` gives and keeps `Valid` |
| Flight.Lander.UpdateTelemetry | lunar_lander.py:202-271 | the in-place frame update leaves the state `Tick` gives and keeps `Valid` |
| Landscape.Pick | lunar_lander.py:71 | a raw draw is mapped into randint's closed range, and in-range draws pass through unchanged |
| Landscape.Draw | lunar_lander.py:80-81 | the k-th draw of the stream lies in the requested closed range |
| Landscape.Random.constructor | lunar_lander.py:71 | a new generator reads the given stream from its first draw |
| Landscape.Random.RandInt | lunar_lander.py:80-81 | randint returns the next draw of the stream and consumes exactly one |
| Landscape.Nudge | lunar_lander.py:75-78 | the y correction moves by +100, -100 or 0: below the bottom edge by -100, at least 100 above it by +100, within 100 above it not at all; never leaves a point below the edge that started at most 100 below it |
| Landscape.Pass | lunar_lander.py:80-87 | one pass consumes two draws and steps x by 40 to 100; crossing the awaited threshold holds y at lasty and pops the next threshold, or `sys.maxsize` when none is left; otherwise y moves by at most 100 from the corrected y and the queue is untouched |
| Landscape.PassDraws | lunar_lander.py:80-87 | the same pass, given its two draws: x advances by the step, y by the rise unless the pass holds |
| Landscape.Passes | lunar_lander.py:74-92 | the loop appends at least two points, one more than passes; the first is the corrected start and the last lies at xdim; two draws are used per pass |
| Landscape.FirstHead | lunar_lander.py:66-73 | before the loop, two draws give the two thresholds in [10, xdim], sorted, the smaller awaited first; x starts at 0 and y at 0.85 of ydim |
| Landscape.Generate | lunar_lander.py:62-94 | the generator uses two draws for the thresholds and two per pass |
| Landscape.PassesSpan | lunar_lander.py:74-92 | x runs from the start to xdim, inner steps are 40 to 100, the clamped last step is under 100, and all x lie within the world |
| Landscape.PassesOnScreen | lunar_lander.py:74-92 | every point appended before the last is at or above the bottom edge; the last, uncorrected, is at most 100 below it; starting no more than 200 above it, inner points stay within 100 of the edge and the last within 200 |
| Landscape.PassesFlatHold | lunar_lander.py:82-83 | a hold that is not on the last pass makes the next point level with the current one; a hold on the last pass keeps the uncorrected y, level only up to the correction |
| Landscape.NoHoldOutOfReach | lunar_lander.py:82-87 | no pass holds while the awaited threshold is beyond xdim plus one step |
| Landscape.PassesHoldCount | lunar_lander.py:71-92 | at most one hold per threshold, and either every threshold made a hold or the last pass held |
| Landscape.PassesFirstHold | lunar_lander.py:82-87 | up to the first hold, a pass holds exactly when its step ends past the awaited threshold |
| Landscape.TerrainSpansWorld | lunar_lander.py:62-94 | the terrain runs from x = 0 to x = xdim in steps of 40 to 100, the last step shorter |
| Landscape.TerrainOnScreen | lunar_lander.py:66-94 | on a screen of any height, all points but the last are at or above the bottom edge and the last at most 100 below it |
| Landscape.TerrainNearBottom | lunar_lander.py:66-94 | on a screen up to 4000/3 high, all points but the last lie in the bottom 100 rows and the last within 200 above the bottom edge |
| Landscape.TerrainHoldCount | lunar_lander.py:71-92 | there are one or two holds, and exactly two unless the last pass held |
| Landscape.TerrainFirstHold | lunar_lander.py:71-87 | the first hold is at the first step past the smaller of the two thresholds |
| Landscape.EdgeThresholdsHoldOnce | lunar_lander.py:62-94 | with both thresholds at the right edge of a 100-wide world, the terrain has a single hold, on its last pass |
| Landscape.TraceStep | lunar_lander.py:74-92 | one pass of the accumulating loop appends the corrected point, plus the clamped end point on the last pass |
| Landscape.TraceExtends | lunar_lander.py:74-92 | the loop only appends: the list built so far is kept as a prefix, the corrected head point follows it, the list ends at xdim, and at least one pass's draws are used |
| Landscape.TraceIsPasses | lunar_lander.py:74-92 | accumulating the loop's points onto a prefix gives the prefix followed by `Passes`' points, with the same draw count |
| Landscape.GenerateIsTrace | lunar_lander.py:62-94 | the accumulating loop from the first head yields exactly `Generate`'s points and draw count |
| Landscape.Terrain.constructor | lunar_lander.py:43-53 | a new terrain stores its kind, size and landing-zone count, and has no terrain yet |
| Landscape.Terrain.GetTerrain | lunar_lander.py:55-60 | a cached terrain is returned as is, with no draws; otherwise it is generated from the stream, cached and returned |
| Landscape.Terrain.GenTerrain | lunar_lander.py:62-94 | the in-place loop stores exactly `Generate`'s points and consumes exactly its draws |

## Left out

- Rendering, fonts, the background, the clock, and the event queue are not modelled. This covers the ship
  surface and its jets (`_get_ship_surface`, `get_position`, the rotate call at line 273) and `main`'s pygame
  I/O. The key bindings of `main` appear only as the `Command` values of `Perform`.
- The quit and escape keys, and the pause toggle with its paused loop, are not modelled. They stop or
  suspend the program and change no flight state.
- The absolute speed (`math.sqrt` at line 262) is not modelled. It is only displayed.
- The thrust direction multipliers are not computed. Lines 228-234 use `math.radians`, `cos` and `sin`,
  rounded to three decimals. The model takes them as the parameters `xMul` and `yMul` of `Tick` and
  `UpdateTelemetry`.
- Floating point is not modelled. All quantities are exact reals, so repeated `+= 0.05` burns are exact
  multiples of 0.05, and that is what `Inv` states.
- `check_collision` and `check_land` are not modelled. They have empty bodies.
- `random.randint` is an injected stream, folded into range by `Pick`. A stream of in-range values gives
  exactly randint's results, and draws are consumed in the source's order. The generator's seed and its
  distribution are not modelled.
- `sys.maxsize` is taken to be its 64-bit value, 2^63 - 1.
- `lastx = 100` at line 69 is not modelled. It is never read.
- Terrain's `landing_zones` is stored but never read. Two thresholds are always drawn, whatever its value.
- Landscape.Terrain.GenTerrain: requires `xdim >= 10`. Below that, `randint(10, xdim)` raises, and the
  model does not represent that exception.
- Landscape.Terrain.GetTerrain: requires `xdim >= 10` when nothing is cached yet, for the same reason.
- Landscape.TerrainHoldCount: the `_gen_terrain` docstring (line 64) promises at least two level
  surfaces. The code does not guarantee that. The model proves one or two holds, and
  `EdgeThresholdsHoldOnce` exhibits a terrain with a single hold.
- Landscape.TerrainNearBottom: the lower bounds are stated only for screens up to 4000/3 high. On a taller
  screen the start at 85% of the height lies more than 200 above the bottom edge, and the first points can
  be higher than the bottom 100 rows. The upper bounds of `TerrainOnScreen` hold on every screen.
- Landscape.PassesFlatHold: a hold on the final pass does not give a level segment. The last point keeps
  the uncorrected y.
- Flight.WrapHeading: the heading is kept in [0, 360], not [0, 360). The test at line 221 is strict, so
  360 itself stays, as `HeadingReaches360` shows. The wrap is also one correction, not a modulo.
- Flight.Lander.UpdateTelemetry: written as two helper methods plus the position and fuel steps.
  `Accelerate` covers lines 210-241 and `BounceOffEdges` covers lines 243-259. The statements and their
  order are the source's.
