# KAtapult turn-and-shot engine in Dafny

This project models and verifies the core of a two-player artillery game. Two tanks stand at the left and right edges of a 595 × 375 field, and three buildings stand at random columns across it. Each tank stands on the tallest building that passes its edge test, or on the ground when none does. The players take turns entering an angle and a force. The active tank fires, and the projectile's samples are walked in order until one hits a tank or a building or leaves the field. A tank hit ends the match. The active player changes after every shot.

Modules, one per source file of the core:

- `Buildings` (`buildings.dfy`, objects/building.py) is pure. It defines the `Building` record, its constructor with a default width of 30, and the footprint test `IsHit`.
- `Tanks` (`tanks.dfy`, tank.py) is pure. It defines the `Tank` record, its constructor, `Direction`, and `Shoot`, the sample sequence of one shot.
- `TankGame` (`game.dfy`, game.py) has two parts.
  - Pure specification functions:
    - `Resolve`: which entity a pixel hits, tanks first.
    - `Simulate`: what one shot does with its samples.
    - `Match`: what the turn loop does over a sequence of commands.
    - `EdgeHeight`: a tank's height.
  - The class `TwoPlayerTankGame`. Its fields are the game's state: `buildings`, `tanks`, `tankKeys` (the dict's key order), `explosions`, `gameOver` and `activePlayer`. Its methods do the work step by step and are proved against the specification functions:
    - `CreateBuildings`
    - `PlaceTanks`
    - `CheckHit` (game.py's `_check_hit`)
    - `FireShot`: the `for` loop over one shot's samples.
    - `PlayTurn`: one iteration of the `while` loop.
    - `PlayTurns`: the `while` loop itself.
    - `SetUpField`: the first two statements of `start_game`.
    - `StartGame`

How the model maps the code:

- **Samples keep the trajectory's unrounded values as `real` pairs.** Two tests use the truncated integer pixel, as `int()` gives it: the dash filter and the hit test. The out-of-field test uses the unrounded value. This matches game.py:86 and game.py:103.
- **The tanks' hit test is a parameter.** tank.py has none, and objects/tank.py only has a stub. The game receives the test when it is constructed and keeps it in the constant field `tankIsHit`.
- **`math.cos` and `math.sin` are a parameter too.** `trig` maps an angle in degrees to its cosine and sine. `Shoot` then computes the closed-form trajectory of tank.py:21-22 in exact real arithmetic.

What the code does not have, the model does not add:

- **No building health, demolition or explosion shielding.** `_check_hit` never looks at explosions, and the `explosions` list is never changed.
- **No distance-based tank hit test.** The tanks' hit test is the `tankIsHit` parameter; the code has no test of its own.
- **The direction has no effect on a shot.** Nothing reads `direction` (tank.py:30-35): `shoot` (tank.py:18-24) moves toward +x for a positive cosine whichever tank fires, so the tank at column 590 fires away from the field just as the left one fires into it. `Tanks.ShotIgnoresDirection` states this.
- **The right border is inclusive.** Only `x > width` is out of the field, not `x >= width`.

Several details of the code as written would raise an exception; the model takes the evidently intended behaviour instead:

- game.py:11 imports `BLAST_RADIUS` from tank.py, which does not define it, so the import fails.
- game.py:9 imports the root building.py. Its `draw` takes no screen, yet game.py:147 passes one, so `draw_playground` fails before the first turn with no output device.
- The root `Building` and `Tank` have no `is_hit`, so game.py:112 and game.py:117 fail during the first shot. The model uses the objects/building.py test for buildings and the `tankIsHit` parameter for tanks.
- The trailing commas at tank.py:21-22 make each coordinate a 1-tuple, which `int()` rejects at game.py:86, also during the first shot. The model uses the intended scalar coordinates.
- With an AxiDraw, game.py:166 reads `tank.y_position`, which `Tank` does not have.

## Model

| member | source | states |
|---|---|---|
| `Buildings.New` | objects/building.py:2-7 | the constructor keeps position, height and width, the width defaults to 30, and the hit list starts empty |
| `Buildings.IsHit` | objects/building.py:9-13 | a sample is inside exactly when twice its horizontal distance from the centre is at most the width (floor-halved width, both edges inclusive) and it is strictly below the roof |
| `Buildings.ColumnsAreFootprint` | objects/building.py:10 | below the roof, a sample is inside exactly when its column is one of the footprint's columns |
| `Buildings.EdgesInclusive` | objects/building.py:10 | both edge columns are inside and the columns just beyond them are not |
| `Buildings.DefaultFootprint` | objects/building.py:2-10 | a default-width building covers exactly the 31 columns from 15 left to 15 right of its centre |
| `Buildings.OddWidthSameFootprint` | objects/building.py:10 | widths 2k and 2k+1 give the same footprint |
| `Buildings.NoLowerBound` | objects/building.py:10 | there is no floor: a sample inside stays inside at every lower y, including negative ones |
| `Tanks.New` | tank.py:12-16 | the constructor keeps position and height, and the tank starts not hit |
| `Tanks.Direction` | tank.py:30-35 | the direction is always 1 or -1, and it is 1 exactly when the tank stands left of column 10 |
| `Tanks.Shoot` | tank.py:18-24 | a shot yields exactly 1000 samples, and the first is the tank's own position |
| `Tanks.ShotStepsEvenly` | tank.py:18-24 | along a shot's samples the horizontal position advances by the same amount at every step |
| `Tanks.ShotIgnoresDirection` | tank.py:18-35 | with positive velocity and cosine every step of a shot moves toward +x, whatever the tank's direction |
| `Tanks.ShotIsConcave` | tank.py:18-24 | along a shot's samples the height is a downward parabola in the step index: every second difference is -9.81 |
| `Tanks.HeightIsConcave` | tank.py:22 | the closed-form height has second difference -9.81 over unit steps at any time |
| `TankGame.ScanTanks` | game.py:111-114 | the loop over the tanks in dict order reports a hit exactly when some tank's hit test holds |
| `TankGame.ScanBuildings` | game.py:116-120 | the loop over the buildings reports a hit exactly when some building's footprint contains the pixel |
| `TankGame.Trunc` | game.py:86 | `int()` truncates toward zero: the result is within 1 of the float, on the side of zero |
| `TankGame.DashEndsModulo20` | game.py:87-92 | a sample is a dash point exactly when its index is congruent to 0 or 9 modulo 20 and its pixel is strictly inside the field |
| `TankGame.FirstStop` | game.py:83-106 | the shot's stopping index is the first sample that hits something or is out of the field, or the sample count when there is none |
| `TankGame.DashIndicesExact` | game.py:87-93 | sample i is recorded exactly when its index passes the dash filter and its pixel is strictly inside the field, and only samples already walked are recorded |
| `TankGame.DashIndicesIncrease` | game.py:82-93 | the recorded samples keep the walk's order: their indices increase strictly |
| `TankGame.DashPathFollowsIndices` | game.py:87-93 | the recorded path is, in sample order, the pixel of each recorded sample with y flipped to `height - y` |
| `TankGame.DashPathInside` | game.py:90-93 | every recorded point lies strictly inside the field |
| `TankGame.SimulateEnds` | game.py:83-106 | a shot runs through every sample exactly when none stops it; otherwise it ends at the first sample that hits or leaves the field, recording up to and including that sample, and it ends as a hit whenever that sample hits, even outside the field; a shot that ends the match ends as a hit |
| `TankGame.LastSampleRecorded` | game.py:87-101 | the sample that stops the shot is the last recorded point whenever it passes the dash filter |
| `TankGame.MatchTurns` | game.py:80-108 | the turn loop plays at most one turn per command and stops early only when the match is over; players alternate starting from the first one, every shot flips the player, the game-ending shot included, and the player stays 1 or -1 |
| `TankGame.MatchEndsAtFirstTankHit` | game.py:80-108 | the match is over exactly when its last turn hit a tank, and no earlier turn did |
| `TankGame.NearHeights` | game.py:57-61 | the heights listed for an edge are exactly those of the buildings passing that edge's test |
| `TankGame.MaxOrZero` | game.py:62 | the result is 0 for no heights, otherwise the largest of them |
| `TankGame.EdgeHeightIsTallest` | game.py:56-71 | a tank's height is that of the tallest building passing its edge test (`x_position - width < 5` on the left, `x_position + width > width_of_field - 5` on the right), or 0 when none passes |
| `TankGame.PlacedTankDirections` | game.py:63-71 | the tank placed at column 5 gets direction +1 and the one at column 590 gets direction -1 |
| `TankGame.InsertKey` | game.py:63-71 | assigning a dict key keeps the existing key order as a prefix, adds at most one entry and only that key, makes the key present, and leaves an existing key where it was |
| `TankGame.TwoPlayerTankGame.constructor` | game.py:42-46 | a new game has a 595 × 375 field, no buildings, tanks or explosions, no winner, and player 1 to move |
| `TankGame.TwoPlayerTankGame.CreateBuildings` | game.py:48-52 | appends exactly n buildings, keeps the existing ones, and puts each new one at a column in [0, 595] with a height in [10, 375] and width 30 |
| `TankGame.TwoPlayerTankGame.PlaceTanks` | game.py:56-71 | afterwards the dict holds tank 1 at column 5 and tank -1 at column 590, each at its edge height, its keys are still only 1 and -1, and the key order is that of assigning key 1, then key -1 |
| `TankGame.TwoPlayerTankGame.CheckHit` | game.py:110-120 | a tank hit returns true and sets the match-over flag; otherwise the result is whether some building is hit and the flag is unchanged; nothing else changes |
| `TankGame.TwoPlayerTankGame.FireShot` | game.py:83-106 | the recorded path and the way the shot ends are those of `Simulate`; the match-over flag is set exactly when the shot's stopping sample hits a tank |
| `TankGame.TwoPlayerTankGame.PlayTurn` | game.py:81-108 | the active tank fires the command's shot and the player is negated afterwards; the match-over flag is set exactly when that shot hits a tank |
| `TankGame.TwoPlayerTankGame.PlayTurns` | game.py:80-108 | the number of turns, the match-over flag and the next player are those of `Match` on the commands, with each turn's tank hit taken from `Simulate` |
| `TankGame.TwoPlayerTankGame.SetUpField` | game.py:73-75 | appends three laid-out buildings and then places the tanks as `PlaceTanks` does |
| `TankGame.TwoPlayerTankGame.StartGame` | game.py:73-108 | lays out three buildings, places the tanks, then plays the turn loop as `PlayTurns` does |

## Left out

- Drawing is left out: `draw_canvas`, `draw_playground`, `draw_rectangle`, `draw_circle`, `draw_path`, `Tank.draw`, the `cv2.circle` marker at game.py:95, the `screen` array and the output devices.
- The exceptions drawing raises inside the turn loop are not modelled. game.py:104 calls `draw_path` on every shot that leaves the field, and game.py:98 calls it on a hit with an AxiDraw. `draw_path` reads `self.output.goto` and `path_[0]` (game.py:205-207), so it fails when there is no output device, as main.py:14 sets up, and when no dash point was recorded. Such a shot ends `start_game` with an exception before the player flip at game.py:108. In the model every shot that ends `Out` or `Hit` flips the player, and the loop goes on.
- The `print` calls at game.py:100 and game.py:105 are left out; the model returns how the shot ended instead (`Hit`, `Out` or `Exhausted`).
- Console input (`_get_command`, game.py:122-127) is replaced by a finite sequence of commands. The turn loop also stops when the commands run out; the program would instead block waiting for input.
- `math.cos` and `math.sin` are the `trig` parameter, and floats are exact reals. IEEE rounding in the trajectory is not modelled.
- The random draws in `create_buildings` are modelled as nondeterministic choices within the `randint` ranges.
- Tank hit detection has no implementation in the source, so it is the `tankIsHit` parameter.
- objects/tank.py and objects/explosion.py are not part of this model: every method other than the constructor is a stub, and game.py never consults explosions. The model keeps the `explosions` list and never changes it.
- main.py, the root building.py and the output package are not part of this model: they are wiring, a constructor-only record and drawing back ends.
- The abstract base class `TankGame` is merged into `TwoPlayerTankGame`, its only subclass.
- `Tanks.Shoot`: the contract states only the sample count and the first sample. The later samples follow the closed-form formula of tank.py:21-22, which its body computes; `Tanks.ShotStepsEvenly` and `Tanks.ShotIsConcave` state its shape. The trailing commas' 1-tuples are not modelled.
