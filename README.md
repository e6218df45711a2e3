# Pac-Man game logic in Dafny

This project models the game logic of an Arduino Pac-Man game. Pac-Man and up to four
ghosts move on a grid of rows and columns. The game eats dots from two dot tables and
scores them. Ghosts choose directions by a weighted random draw that leans towards
Pac-Man. A small state machine runs levels, deaths and extra lives.

The model follows the single source file `FinalProject.cpp`:

- `util.dfy` (module `Util`) holds the Arduino helpers the game relies on:
  `constrain`, `abs` and C's truncating division.
- `map_model.dfy` (`MapModel`) holds the `mapData` record, its well-formedness
  predicate `ValidMap`, and the one map the game ships with (`MapOne`, built from the
  tables at lines 100-121). Lemmas prove that this map satisfies `ValidMap`.
- `dot_tables.dfy` (`DotTables`) covers `generateDots`, `generateNoDots` and
  `generateSpecialDots`. Each is a specification function and an in-place array method
  proved against it.
- `motion.dfy` (`Motion`) holds the sprite record and one pure function per motion
  routine: the wall scans of `createConstraints*`/`updateConstraints*`, `moveX`, `moveY`,
  `scanPacMan`, `updatePrevNext*`, `updateCursor`, `updateOther` and the spawn templates.
- `motion_facts.dfy` (`MotionFacts`) proves what those routines mean. A bound is the
  first wall on the sprite's line. A step stays inside its bounds. The tunnel wraps
  across the map. A sprite stays on a row or a column.
- `actors.dfy` (`Actors`) is the sprite as a mutable object (`class Sprite`). Its
  methods perform the source's loops and field updates step by step. Each is proved
  equal to the matching `Motion` function on the old state.
- `ghost_policy.dfy` (`GhostPolicy`) covers `evaluateDirections`, `changeProbabilities`,
  `randomGenerator`, `randGhost` and the per-ghost step of `scanGhosts`.
- `dot_ledger.dfy` (`DotLedger`) covers `readDotsX`, `readDotsY` and `readDotsXY` as
  functions on the dot tables, and the accounting of one `scanScore` frame. Eaten dots
  are exactly the dots that leave the tables.
- `game.dfy` (`Game`) is the game's global state as one object (`class Game`). It holds
  the dot arrays, the sprites, the `move` array, the scores, the lives and the mode. Its
  methods are `scanScore`, `scanPacMan`, `scanGhosts`, `updateSprite`, `updateGame`,
  `updateLives` and the level and death resets of `reset`.

## Model

| member | source | states |
|---|---|---|
| Util.Constrain | FinalProject.cpp:912 | The result lies in [low, high], and equals the input unless the input is outside that range |
| Util.Abs | FinalProject.cpp:1520 | The result is non-negative and equals x or -x |
| MapModel.IncreasingAt | FinalProject.cpp:100-101 | In a strictly increasing coordinate table, an earlier entry is smaller than every later one |
| MapModel.WallCodesAppend | FinalProject.cpp:112-113 | Two tables of wall codes 0..3 joined together are still a table of wall codes |
| MapModel.MapOneXLines | FinalProject.cpp:104-106 | For every column, the slot that map one assigns to it holds that column's x coordinate |
| MapModel.MapOneYLines | FinalProject.cpp:105-107 | For every row, the slot that map one assigns to it holds that row's y coordinate |
| MapModel.MapOneXCodes | FinalProject.cpp:112 | Every entry of map one's x wall-code table is in 0..3 |
| MapModel.MapOneYCodes | FinalProject.cpp:113 | Every entry of map one's y wall-code table is in 0..3 |
| MapModel.MapOneGrid | FinalProject.cpp:100-101 | Map one's row and column coordinates are strictly increasing |
| MapModel.MapOneXIncreasing | FinalProject.cpp:104-106 | Map one's x slot coordinates and column slot indices are strictly increasing |
| MapModel.MapOneXAxis | FinalProject.cpp:102-106 | Map one's x dot layout is a valid axis for the generation pass |
| MapModel.MapOneYIncreasing | FinalProject.cpp:105-107 | Map one's y slot coordinates and row slot indices are strictly increasing |
| MapModel.MapOneYAxis | FinalProject.cpp:103-107 | Map one's y dot layout is a valid axis for the generation pass |
| MapModel.MapOneNoDotsX | FinalProject.cpp:110 | Map one's empty x ranges are well-formed and lie inside the x table |
| MapModel.MapOneNoDotsY | FinalProject.cpp:111 | Map one's empty y ranges are well-formed and lie inside the y table |
| MapModel.MapOneSpecialX | FinalProject.cpp:108 | Map one's big-dot x slots lie inside the x table |
| MapModel.MapOneSpecialY | FinalProject.cpp:109 | Map one's big-dot y slots lie inside the y table |
| MapModel.MapOneValid | FinalProject.cpp:100-121 | Map one satisfies every well-formedness condition the game's index arithmetic relies on |
| DotTables.Below | FinalProject.cpp:755 | Returns the first position at or after c whose crossing slot is not below j |
| DotTables.CountBelowIs | FinalProject.cpp:755-767 | The number of crossing lines before slot j is the unique r that splits the increasing crossing table at j |
| DotTables.CrossingIff | FinalProject.cpp:755 | At any slot, the generation pass's comparison succeeds exactly when a crossing line lies at that slot, and the wall-code index is then in range |
| DotTables.NextCounter | FinalProject.cpp:766 | The pass's running crossing index keeps the closed form (group times lines, plus crossings seen so far) from one slot to the next |
| DotTables.StepKeeps | FinalProject.cpp:753-772 | One iteration of the default pass keeps the pass invariant |
| DotTables.PassInvariant | FinalProject.cpp:753-772 | After n iterations the pass's index and current run value equal their closed forms |
| DotTables.Step | FinalProject.cpp:753-772 | One iteration of the default pass appends exactly one dot and keeps the dots before it |
| DotTables.Pass | FinalProject.cpp:749-796 | n iterations of the default pass produce n dots |
| DotTables.PassPrefix | FinalProject.cpp:753-772 | Later iterations never change a slot the pass has already written |
| DotTables.CrossingInTable | FinalProject.cpp:758 | The wall code read at a crossing is always inside the wall-code table |
| DotTables.DefaultDot | FinalProject.cpp:755-771 | A slot on a crossing line gets the axis's crossing value; any other slot gets the run value of the wall code of the last crossing before it |
| DotTables.DefaultDotIsBinary | FinalProject.cpp:756-770 | Every slot of the default pass holds 0 or 1 |
| DotTables.GeneratedDotFacts | FinalProject.cpp:749-825 | A generated slot holds 0, 1 or 5: big-dot slots hold 5, other slots inside an empty range hold 0, other crossing slots hold the crossing value, and the rest follow the wall code of the crossing before them |
| DotTables.GeneratedDot | FinalProject.cpp:749-825 | A generated slot holds 0, 1 or 5 |
| DotTables.FillDefault | FinalProject.cpp:753-793 | The loop fills the array with exactly the default pass's values |
| DotTables.ClearNoDotRanges | FinalProject.cpp:799-814 | Clears exactly the slots inside an empty range, and no other slot changes |
| DotTables.PlaceSpecialDots | FinalProject.cpp:817-825 | Writes 5 at exactly the big-dot slots, and no other slot changes |
| DotTables.GenerateTable | FinalProject.cpp:749-796 | Every slot of the generated table equals its specification value |
| Motion.ScanUp | FinalProject.cpp:1361-1374 | Finds the first wall code at or after i, or else a tunnel when the line's last code is 3 and tunnels count, or else no hit; each answer states which codes it passed over |
| Motion.ScanDown | FinalProject.cpp:1376-1389 | Finds the last wall code at or before i, or else a tunnel when the line's first code is 3 and tunnels count, or else no hit; each answer states which codes it passed over |
| Motion.StrideForward | FinalProject.cpp:1644-1650 | Finds the first non-zero cell at or after k in a strided column of the table, or reports that every such cell is 0 |
| Motion.StrideBack | FinalProject.cpp:1655-1660 | Finds the last non-zero cell at or before k, and not below lo, in a strided column, or reports that every such cell is 0 |
| Motion.NoCellsBelow | FinalProject.cpp:1655 | Once a strided index lies below the loop bound, so does every earlier one |
| Motion.RowBase | FinalProject.cpp:443 | A row's block of x wall codes lies inside the x table |
| Motion.CollumBase | FinalProject.cpp:480 | A column's block of y wall codes lies inside the y table |
| Motion.TableSizes | FinalProject.cpp:112-113 | Both wall-code tables hold at least rows times columns codes |
| Motion.CreateConstraintsX | FinalProject.cpp:436-470 | Recomputes only the two x bounds; every other field is unchanged |
| Motion.CreateConstraintsY | FinalProject.cpp:473-507 | Recomputes only the two y bounds; every other field is unchanged |
| Motion.UpdateConstraintsX | FinalProject.cpp:1359-1390 | Recomputes only the two x bounds; every other field is unchanged |
| Motion.UpdateConstraintsY | FinalProject.cpp:1393-1424 | Recomputes only the two y bounds; every other field is unchanged |
| Motion.MoveX | FinalProject.cpp:897-928 | The sprite's grid anchors stay inside the map |
| Motion.Wrap | FinalProject.cpp:915-927 | The tunnel wrap keeps the anchors inside the map and leaves the direction and move flags alone |
| Motion.ScanPacMan | FinalProject.cpp:1297-1316 | Pac-Man's grid anchors stay inside the map |
| Motion.UpdatePrevNextX | FinalProject.cpp:1627-1663 | Changes only the row anchors, and keeps them inside the map; the first-crossing searches in both directions are NextRowIsFirstBelow and PrevRowIsFirstAbove |
| Motion.UpdatePrevNextY | FinalProject.cpp:1666-1703 | Changes only the column anchors, and keeps them inside the map; the first-crossing searches in both directions are NextCollumIsFirstRight and PrevCollumIsFirstLeft |
| Motion.LockY | FinalProject.cpp:1593-1600 | Entering a column keeps the anchors inside the map |
| Motion.LockX | FinalProject.cpp:1602-1609 | Entering a row keeps the anchors inside the map |
| Motion.ReleaseY | FinalProject.cpp:1614-1617 | Leaving a crossing along x keeps the anchors inside the map |
| Motion.ReleaseX | FinalProject.cpp:1619-1622 | Leaving a crossing along y keeps the anchors inside the map |
| Motion.UpdateOther | FinalProject.cpp:1590-1624 | The mode update keeps the anchors inside the map |
| Motion.UpdateCursor | FinalProject.cpp:1427-1450 | The drawn cursor catches up with the position, and no other field changes |
| Motion.Spawn | FinalProject.cpp:531-541 | A sprite built from the start template has its anchors inside the map |
| Motion.SpawnPacMan | FinalProject.cpp:531-541 | Pac-Man's spawn has its anchors inside the map |
| Motion.SpawnGhost | FinalProject.cpp:510-522 | A ghost's spawn has its anchors inside the map |
| MotionFacts.ScanUpFindsFirst | FinalProject.cpp:443-450 | When slot c holds the wall code and no earlier slot from i does, the upward scan stops at c |
| MotionFacts.ScanDownFindsFirst | FinalProject.cpp:455-462 | When slot c holds the wall code and no later slot up to i does, the downward scan stops at c |
| MotionFacts.RowScanUp | FinalProject.cpp:443-450 | On a row, the upward scan stops at the first column from the start that has wall code 1 |
| MotionFacts.RowScanDown | FinalProject.cpp:455-462 | On a row, the downward scan stops at the nearest column at or left of the start that has wall code 2 |
| MotionFacts.CollumScanUp | FinalProject.cpp:480-487 | On a column, the upward scan stops at the first row from the start that has wall code 1 |
| MotionFacts.CollumScanDown | FinalProject.cpp:492-499 | On a column, the downward scan stops at the nearest row at or above the start that has wall code 2 |
| MotionFacts.UpperXIsFirstWall | FinalProject.cpp:1361-1367 | The upper x bound, created on a row or updated, is the first column from nextCollum rightwards that has wall code 1 |
| MotionFacts.UpperXIsFirstWallCreate | FinalProject.cpp:443-450 | On a row, createConstraintsX sets the upper x bound to the first column from nextCollum rightwards that has wall code 1 |
| MotionFacts.UpperXIsFirstWallUpdate | FinalProject.cpp:1361-1367 | updateConstraintsX sets the upper x bound to the first column from nextCollum rightwards that has wall code 1 |
| MotionFacts.UpperXWithoutWall | FinalProject.cpp:1361-1374 | With no wall code 1 to the right, creation leaves the upper x bound as it was; the update opens it onto the right tunnel when the last column has code 3, and otherwise leaves it as it was |
| MotionFacts.LowerXIsFirstWall | FinalProject.cpp:1376-1382 | The lower x bound, created on a row or updated, is the nearest column at or left of prevCollum that has wall code 2 |
| MotionFacts.LowerXIsFirstWallCreate | FinalProject.cpp:455-462 | On a row, createConstraintsX sets the lower x bound to the nearest column at or left of prevCollum that has wall code 2 |
| MotionFacts.LowerXIsFirstWallUpdate | FinalProject.cpp:1376-1382 | updateConstraintsX sets the lower x bound to the nearest column at or left of prevCollum that has wall code 2 |
| MotionFacts.LowerXWithoutWall | FinalProject.cpp:1376-1389 | With no wall code 2 to the left, creation leaves the lower x bound as it was; the update opens it onto the left tunnel when the first column has code 3, and otherwise leaves it as it was |
| MotionFacts.UnlockedXCollapses | FinalProject.cpp:465-469 | Off a row, creation pins both x bounds to the coordinate of column nextCollum |
| MotionFacts.UnlockedYCollapses | FinalProject.cpp:501-506 | Off a column, creation pins both y bounds to the coordinate of row nextRow |
| MotionFacts.UpperYIsFirstWall | FinalProject.cpp:1395-1401 | The upper y bound, created on a column or updated, is the first row from nextRow downwards that has wall code 1 |
| MotionFacts.UpperYIsFirstWallCreate | FinalProject.cpp:480-487 | On a column, createConstraintsY sets the upper y bound to the first row from nextRow downwards that has wall code 1 |
| MotionFacts.UpperYIsFirstWallUpdate | FinalProject.cpp:1395-1401 | updateConstraintsY sets the upper y bound to the first row from nextRow downwards that has wall code 1 |
| MotionFacts.LowerYIsFirstWall | FinalProject.cpp:1410-1416 | The lower y bound, created on a column or updated, is the nearest row at or above prevRow that has wall code 2 |
| MotionFacts.LowerYIsFirstWallCreate | FinalProject.cpp:492-499 | On a column, createConstraintsY sets the lower y bound to the nearest row at or above prevRow that has wall code 2 |
| MotionFacts.LowerYIsFirstWallUpdate | FinalProject.cpp:1410-1416 | updateConstraintsY sets the lower y bound to the nearest row at or above prevRow that has wall code 2 |
| MotionFacts.YWithoutWall | FinalProject.cpp:1393-1424 | With no wall in either scanned direction, the update opens each y bound onto its tunnel when the edge row has code 3, and otherwise leaves it as it was |
| MotionFacts.StepXIdle | FinalProject.cpp:899 | Without an accepted x request and without x motion, the x step changes nothing |
| Motion.StepX | FinalProject.cpp:899-913 | Changes at most x, the step and the two move flags; when a request is accepted or the sprite already moves in x, the new x is the old x plus the step, clamped to the x bounds |
| Motion.MoveY | FinalProject.cpp:931-948 | Changes at most y, the step and the two move flags; when a request is accepted or the sprite already moves in y, the new y is the old y plus the step, clamped to the y bounds |
| MotionFacts.StepXRequest | FinalProject.cpp:899-910 | An accepted request sets the step to +2 or -2 by the request's side of the centre, and switches motion to x |
| MotionFacts.StepXBounded | FinalProject.cpp:912 | A step moves x by at most 2 and keeps it within the x bounds |
| MotionFacts.MoveYBounded | FinalProject.cpp:931-948 | A step moves y by at most 2, keeps it within the y bounds, and leaves x and the modes alone |
| MotionFacts.MoveYIdle | FinalProject.cpp:931-933 | Without an accepted y request and without y motion, moveY changes nothing |
| MotionFacts.MoveYRequest | FinalProject.cpp:931-946 | An accepted y request (on a column, or while moving in y) sets the step to +2 below the centre and -2 above it, switches motion to y, and moves y by that step clamped to the y bounds |
| MotionFacts.MoveYContinue | FinalProject.cpp:931-946 | Without a request, a sprite moving in y keeps its step and flags and moves y by the step clamped to the y bounds |
| MotionFacts.TunnelWrap | FinalProject.cpp:915-927 | Reaching the left tunnel lands on the right one with both column anchors 7; reaching the right one lands on the left with anchors 2; the x bounds are then recomputed; otherwise nothing changes |
| MotionFacts.MoveXOnTrack | FinalProject.cpp:897-928 | A sprite on a row or a column, moving along one axis, stays so after an x move |
| MotionFacts.ScanPacManOnTrack | FinalProject.cpp:1297-1316 | Pac-Man's input step keeps him on a row or a column, moving along one axis |
| MotionFacts.UpdateOtherOnTrack | FinalProject.cpp:1590-1624 | The mode update keeps a sprite on a row or a column, moving along at most one axis |
| MotionFacts.SpawnOnTrack | FinalProject.cpp:510-541 | Spawned sprites start on track |
| MotionFacts.NextRowIsFirstBelow | FinalProject.cpp:1642-1650 | Moving down in a column, nextRow becomes the first row below prevRow that crosses column prevCollum |
| MotionFacts.NextCollumIsFirstRight | FinalProject.cpp:1681-1689 | Moving right in a row, nextCollum becomes the first column right of prevCollum that crosses row prevRow |
| MotionFacts.PrevRowIsFirstAbove | FinalProject.cpp:1653-1660 | Moving up in a column, prevRow becomes the first row above prevRow that crosses the column |
| MotionFacts.PrevCollumIsFirstLeft | FinalProject.cpp:1692-1700 | Moving left in a row, prevCollum becomes the first column left of prevCollum that crosses the row |
| MotionFacts.XCodeIsCell | FinalProject.cpp:1646 | The x wall code of a crossing is the strided cell that the anchor search reads |
| MotionFacts.YCodeIsCell | FinalProject.cpp:1685 | The y wall code of a crossing is the strided cell that the anchor search reads |
| MotionFacts.SpawnPinnedToRow | FinalProject.cpp:531-541 | Pac-Man spawns at the map's start point, moving left along its row, with the y bounds collapsed onto that row |
| MotionFacts.GhostColors | FinalProject.cpp:516 | Ghost j gets palette entry j + 1 |
| MotionFacts.MapOneRowSeven | FinalProject.cpp:112 | Lists map one's wall codes on row 7 as the scans address them |
| MotionFacts.MapOneRowThree | FinalProject.cpp:112 | Lists map one's wall codes on row 3 as the scans address them |
| MotionFacts.MapOnePacManSpawn | FinalProject.cpp:531-541 | On map one Pac-Man spawns on row 233 with x bounds [59, 195] |
| MotionFacts.MapOneGhostSpawn | FinalProject.cpp:510-522 | On map one a ghost spawns on row 123 with x bounds [85, 169] |
| Actors.Sprite.constructor | FinalProject.cpp:26-45 | A new sprite holds the given field values |
| Actors.Sprite.ScanUpLoop | FinalProject.cpp:1361-1374 | The loop's result equals the upward scan |
| Actors.Sprite.ScanDownLoop | FinalProject.cpp:1376-1389 | The loop's result equals the downward scan |
| Actors.Sprite.StrideForwardLoop | FinalProject.cpp:1644-1650 | The loop's result equals the forward strided search |
| Actors.Sprite.StrideBackLoop | FinalProject.cpp:1655-1660 | The loop's result equals the backward strided search |
| Actors.Sprite.CreateConstraintsX | FinalProject.cpp:436-470 | The new state equals the specification of createConstraintsX on the old state |
| Actors.Sprite.CreateConstraintsY | FinalProject.cpp:473-507 | The new state equals the specification of createConstraintsY on the old state, whose bounds are the first walls above and below on a column (UpperYIsFirstWall and its lower mirror) and collapse onto row nextRow off a column (UnlockedYCollapses) |
| Actors.Sprite.UpdateConstraintsX | FinalProject.cpp:1359-1390 | The new state equals the specification of updateConstraintsX on the old state |
| Actors.Sprite.UpdateConstraintsY | FinalProject.cpp:1393-1424 | The new state equals the specification of updateConstraintsY on the old state |
| Actors.Sprite.UpdatePrevNextX | FinalProject.cpp:1627-1663 | The new state equals the specification of updatePrevNextX on the old state |
| Actors.Sprite.UpdatePrevNextY | FinalProject.cpp:1666-1703 | The new state equals the specification of updatePrevNextY on the old state |
| Actors.Sprite.StepX | FinalProject.cpp:899-913 | The new state equals the x step on the old state |
| Actors.Sprite.Wrap | FinalProject.cpp:915-927 | The new state equals the tunnel wrap on the old state |
| Actors.Sprite.MoveX | FinalProject.cpp:897-928 | The new state equals the specification of moveX on the old state |
| Actors.Sprite.MoveY | FinalProject.cpp:931-948 | The new state equals the specification of moveY on the old state: idle without an accepted request or y motion (MoveYIdle), request handling as in MoveYRequest, one more step otherwise (MoveYContinue) |
| Actors.Sprite.ScanPacMan | FinalProject.cpp:1297-1316 | The new state equals the specification of scanPacMan on the old state |
| Actors.Sprite.UpdateCursor | FinalProject.cpp:1427-1450 | The new state equals the cursor copy on the old state |
| Actors.Sprite.LockY | FinalProject.cpp:1593-1600 | The new state equals the column-entry step on the old state |
| Actors.Sprite.LockX | FinalProject.cpp:1602-1609 | The new state equals the row-entry step on the old state |
| Actors.Sprite.ReleaseY | FinalProject.cpp:1614-1617 | The new state equals the x exit from a crossing on the old state |
| Actors.Sprite.ReleaseX | FinalProject.cpp:1619-1622 | The new state equals the y exit from a crossing on the old state |
| Actors.Sprite.UpdateOther | FinalProject.cpp:1590-1624 | The new state equals the specification of updateOther on the old state |
| Actors.Sprite.UpdateSprite | FinalProject.cpp:1719-1733 | The new state is the cursor copy followed by the mode update |
| Actors.Sprite.Spawn | FinalProject.cpp:510-541 | The new state is the start template with its x and y bounds created |
| Actors.StrideAt | FinalProject.cpp:1644-1650 | Strided indices step by the stride, and stay inside the table exactly while k < count |
| GhostPolicy.EvaluateDirections | FinalProject.cpp:702-737 | Marking open directions keeps the weights non-negative |
| GhostPolicy.NeverBackwardsNorIntoWall | FinalProject.cpp:702-737 | A direction gets weight 0 when it reverses the current motion, when the sprite stands on the bound in that direction, or when the sprite is off that axis |
| GhostPolicy.OpenDirectionsAllowed | FinalProject.cpp:702-737 | Every direction on an axis the sprite occupies, not blocked by the bound it stands on and not a reversal, gets weight 1; all weights are 0 or 1 |
| GhostPolicy.ProbValue | FinalProject.cpp:994 | The scale factor times the number of open directions is 12 |
| GhostPolicy.BaseWeights | FinalProject.cpp:990-998 | The scaled weights sum to exactly 12, each is 0 or the scale factor, and each is 0 exactly when its direction is closed |
| GhostPolicy.Rule | FinalProject.cpp:364-385 | Each difficulty has a positive increment and at least one allowed change |
| GhostPolicy.Changes | FinalProject.cpp:387-399 | The count never exceeds the allowed changes, and is 0 exactly when none are allowed or the distance exceeds the first threshold |
| GhostPolicy.ThresholdsBelow | FinalProject.cpp:387 | Counting thresholds one increment lower adds exactly one step |
| GhostPolicy.ChangesClosedForm | FinalProject.cpp:387-399 | The count is 0 beyond the first threshold, and otherwise the smaller of the allowed changes and the thresholds the distance lies within |
| GhostPolicy.ChangesExample | FinalProject.cpp:364-399 | Worked counts: difficulty 1 at distance 90, 10 and 101 gives 1, 1 and 0; difficulty 4 at 10 gives 5; difficulty 3 at 100 gives 3 |
| GhostPolicy.ChangeYFacts | FinalProject.cpp:402-416 | The y bias keeps x weights, never opens a closed direction, moves each y weight by at most the change count, and shifts weight towards Pac-Man's side in y |
| GhostPolicy.ChangeXFacts | FinalProject.cpp:418-432 | The x bias keeps y weights, never opens a closed direction, moves each x weight by at most the change count, and shifts weight towards Pac-Man's side in x |
| GhostPolicy.ChangeY | FinalProject.cpp:402-416 | The y bias leaves the x weights alone and never opens a closed y direction |
| GhostPolicy.ChangeX | FinalProject.cpp:418-432 | The x bias leaves the y weights alone and never opens a closed x direction |
| GhostPolicy.ApplyChanges | FinalProject.cpp:402-432 | The bias never opens a closed direction |
| GhostPolicy.ApplyChangesFacts | FinalProject.cpp:402-432 | The whole bias keeps weights non-negative, never lowers the total, never opens a closed direction, and never lowers a weight towards Pac-Man |
| GhostPolicy.CountChanges | FinalProject.cpp:387-399 | The counting loop's result equals the specified count |
| GhostPolicy.ChangeProbabilities | FinalProject.cpp:357-433 | The result equals the difficulty's bias applied to the weights |
| GhostPolicy.SlotCodeWeighted | FinalProject.cpp:952-977 | Any slot of the weighted array holds a direction code whose weight is positive |
| GhostPolicy.SlotCode | FinalProject.cpp:952-977 | Every slot of the weighted array holds one of the four direction codes |
| GhostPolicy.WeightedDirectionsReachable | FinalProject.cpp:952-977 | Every direction with positive weight owns a slot of the array |
| GhostPolicy.RandomGenerator | FinalProject.cpp:952-977 | The loops fill the array by weight; the draw returns the code at slot rnd mod sum |
| GhostPolicy.FinalWeightsFacts | FinalProject.cpp:980-1002 | The final weights are non-negative with total at least 12; only open directions get weight; an open direction towards Pac-Man keeps positive weight |
| GhostPolicy.GhostChoiceAllowed | FinalProject.cpp:980-1006 | The chosen direction is always one that evaluateDirections opened |
| GhostPolicy.FinalWeights | FinalProject.cpp:980-1002 | The weights randGhost draws from are non-negative and total at least 12 |
| GhostPolicy.GhostChoice | FinalProject.cpp:980-1006 | randGhost returns one of the four direction codes |
| GhostPolicy.ChoiceAt | FinalProject.cpp:1005 | The choice for draw k below the total is the code at slot k |
| GhostPolicy.TowardsPacManDrawn | FinalProject.cpp:980-1006 | Every open direction towards Pac-Man is chosen for some draw |
| GhostPolicy.RandGhost | FinalProject.cpp:980-1006 | The method's result equals the specified ghost choice |
| GhostPolicy.MoveCodeRoundTrip | FinalProject.cpp:1251-1265 | Storing a direction code times 2000 and dividing back yields the code; the stored value is a full joystick request with the code's sign |
| GhostPolicy.EncodeMove | FinalProject.cpp:1257-1266 | A code times 2000 is a stored request exactly when the code is one of the four direction codes |
| GhostPolicy.DecodeMove | FinalProject.cpp:1253-1256 | A stored request divides back to a direction code whose encoding is that request |
| Util.CDiv | FinalProject.cpp:1253-1256 | C division by a positive divisor truncates toward zero: the quotient has the dividend's sign and its magnitude is the number of whole divisors in the dividend's magnitude |
| GhostPolicy.ScanGhost | FinalProject.cpp:1250-1266 | One ghost's scan step keeps its anchors inside the map |
| GhostPolicy.ScanGhostStored | FinalProject.cpp:1250-1266 | The stored move stays one of plus or minus 2000 and 4000 |
| GhostPolicy.ScanGhostTurns | FinalProject.cpp:1250-1266 | At a crossing the ghost takes the drawn direction at once: the step has the code's sign, and it moves along x for codes of size 1 and along y for size 2 |
| DotLedger.FirstMatch | FinalProject.cpp:1017-1027 | Returns the first index in [i, hi] holding x, or none when no index there does |
| DotLedger.SlotX | FinalProject.cpp:1012-1024 | A row dot slot that is found lies inside the x table |
| DotLedger.SlotY | FinalProject.cpp:1064-1076 | A column dot slot that is found lies inside the y table |
| DotLedger.CrossingIndices | FinalProject.cpp:1038-1050 | The row index and slot index found match the sprite's position |
| DotLedger.SlotXY | FinalProject.cpp:1052 | The crossing slot lies inside the x table |
| DotLedger.Consume | FinalProject.cpp:1021-1025 | Reading a slot keeps the table's length |
| DotLedger.SumUpdate | FinalProject.cpp:1024 | Overwriting one slot changes the table's total by the new value minus the old one |
| DotLedger.SumNonNegative | FinalProject.cpp:749-825 | A table of non-negative dots has a non-negative total |
| DotLedger.ConsumeFacts | FinalProject.cpp:1021-1025 | A read takes out exactly the value it returns, clears that slot, changes no other slot, and a second read of the same slot returns 0 |
| DotLedger.Eat | FinalProject.cpp:1321-1331 | Eating keeps the sizes of both tables |
| DotLedger.EatAll | FinalProject.cpp:1333-1346 | The ghosts' eating keeps the sizes of both tables |
| DotLedger.EatAllStep | FinalProject.cpp:1333-1346 | One more ghost in the loop adds its eaten value to the running total |
| DotLedger.EatConserves | FinalProject.cpp:1321-1331 | Pac-Man's gain plus the dots left equals the dots before |
| DotLedger.EatAllConserves | FinalProject.cpp:1333-1346 | The ghosts' gain plus the dots left equals the dots before |
| DotLedger.ScoreFrame | FinalProject.cpp:1319-1347 | One scoring frame keeps the sizes of both tables |
| DotLedger.ScoreFrameConserves | FinalProject.cpp:1319-1347 | Both scores' gains plus ten times the dots left equal ten times the dots before |
| DotLedger.EatNonNegative | FinalProject.cpp:1321-1331 | On non-negative tables Pac-Man never loses points and the tables stay non-negative |
| DotLedger.EatAllNonNegative | FinalProject.cpp:1333-1346 | On non-negative tables the ghosts never lose points and the tables stay non-negative |
| DotLedger.ScoreFrameNonNegative | FinalProject.cpp:1319-1347 | On non-negative tables neither score decreases in a frame |
| Game.LivesDown | FinalProject.cpp:1522 | The 8-bit life counter drops by one, and wraps from 0 to 255 |
| Game.LivesUp | FinalProject.cpp:1544 | The 8-bit life counter rises by one, and wraps from 255 to 0 |
| Game.CatchesSquare | FinalProject.cpp:1520 | Catching is symmetric in Pac-Man and the ghost |
| Game.Catches | FinalProject.cpp:1520 | A ghost catches Pac-Man exactly when both cursor differences lie in -2..2 |
| Game.UpdateOutcome | FinalProject.cpp:1510-1537 | Without a catch, lives are kept and the level resets when the total score hits the reset score. A catch costs one life and leads to the death reset, or to the game reset exactly when no lives are left |
| Game.UpdateOneUp | FinalProject.cpp:1540-1548 | Reaching the extra-life score gives one life and moves the next threshold 5000 higher; otherwise nothing changes |
| Game.OneUpOnce | FinalProject.cpp:1540-1548 | A second check at the same score changes nothing, so one score grants at most one life |
| Game.States | FinalProject.cpp:133 | Snapshots each ghost's state in order |
| Game.Game.InPlay | FinalProject.cpp:1248 | The ghosts in play are the first numOfGhosts ghosts |
| Game.Game.constructor | FinalProject.cpp:150-170 | Scores start at 0 with the first extra life at 3000, mode 1 (game reset), all stored moves -2000; the zeroed sprites are anchored inside the map |
| Game.Game.GenerateDots | FinalProject.cpp:749-796 | Both dot arrays hold exactly their generated values |
| Game.Game.ReadDotsX | FinalProject.cpp:1010-1030 | The value read and the new x table equal consuming the row slot that the sprite's x position names |
| Game.Game.ReadDotsY | FinalProject.cpp:1062-1082 | The value read and the new y table equal consuming the column slot that the sprite's y position names |
| Game.Game.ReadDotsXY | FinalProject.cpp:1033-1058 | The value read and the new x table equal consuming the crossing slot |
| Game.Game.EatDots | FinalProject.cpp:1321-1331 | The value and tables equal one sprite's eating by its mode |
| Game.Game.GhostsEat | FinalProject.cpp:1333-1346 | The ghosts' gain and tables equal the ghosts eating in order |
| Game.Game.ScanScore | FinalProject.cpp:1319-1347 | Both scores grow by the frame's gains, and scores plus ten times the dots left are conserved |
| Game.Game.ScanPacMan | FinalProject.cpp:1297-1316 | Pac-Man's new state is the input step on his old state; the game stays well placed |
| Game.Game.ScanOneGhost | FinalProject.cpp:1250-1266 | The ghost's stored move and new state are one scan step; no other stored move changes |
| Game.Game.ScanGhosts | FinalProject.cpp:1246-1268 | Every ghost in play takes its scan step; the ghosts and moves out of play are unchanged |
| Game.Game.UpdatePacManSprite | FinalProject.cpp:1729-1732 | Pac-Man's new state is the cursor copy followed by the mode update |
| Game.Game.UpdateGhostSprite | FinalProject.cpp:1723-1726 | One ghost's new state is the cursor copy followed by the mode update; the other ghosts are unchanged |
| Game.Game.UpdateGhostSprites | FinalProject.cpp:1719-1727 | Every ghost in play is updated; the others are unchanged |
| Game.Game.FindCatch | FinalProject.cpp:1518-1536 | Reports a catch exactly when some ghost in play is within 2 on both axes |
| Game.Game.UpdateGame | FinalProject.cpp:1510-1537 | The total score is the sum of both scores; lives and mode follow the outcome rule |
| Game.Game.UpdateLives | FinalProject.cpp:1540-1548 | Lives and the extra-life threshold follow the extra-life rule |
| Game.Game.ResetScores | FinalProject.cpp:1107-1111 | All scores are 0 and the first extra life is at 3000 |
| Game.Game.CreatePacMan | FinalProject.cpp:531-541 | Pac-Man holds his spawn state |
| Game.Game.CreateGhost | FinalProject.cpp:512-521 | Ghost j holds its spawn state; the other ghosts are unchanged |
| Game.Game.CreateGhosts | FinalProject.cpp:510-522 | Every ghost in play holds its spawn state; the others are unchanged |
| Game.Game.ResetMoves | FinalProject.cpp:1135-1142 | All eight stored moves are -2000 |
| Game.Game.Respawn | FinalProject.cpp:1148-1162 | Pac-Man and the ghosts in play hold their spawn states, and all stored moves are -2000; ghosts out of play are untouched |
| Game.Game.StartLevel | FinalProject.cpp:1124-1146 | The dots are regenerated, the sprites respawn, the moves reset, the reset score grows by 2560 and the mode advances by 2; ghosts out of play are untouched |
| Game.Game.RestartRound | FinalProject.cpp:1147-1181 | The sprites respawn, the moves reset and the mode advances by 1; ghosts out of play are untouched |

## Left out

- Drawing: every `tft` call, `draw*`, `load*`, `updateDrawn*`, the score and lives display, `lcd_image` and bitmap loading are not modelled.
- `setup`, `main`, `frameDelay`, `delay` and all timing are not modelled. The main loop's dispatch on `mode` is left out. The game object exposes each step as a method instead.
- The joystick and button reads (`analogRead`, `digitalRead`) become the `horiz`/`vert` parameters.
- `random` and `randomSeed` are not modelled. The draw `random(0, n)` becomes `rnd % n` for an injected number `rnd`, one per ghost in `ScanGhosts`.
- The menus (`scanMain`, `scanCustom`, `updateMenuStruct`, the main and custom cursors) are not modelled. The menu's settings (ghost count, difficulty, starting lives, colour) become constructor parameters. Of the menu resets, only the score resets of mode 1 are kept (`ResetScores`).
- `getConstraints` is never called, so it is not modelled.
- Of `updateCursor`, only the cursor copy is kept. The mouth counter `movement` is a drawing detail, and `prevScore`/`updateScore` only redraw the score.
- Only one map exists, and `maps[menu.map - 1]` always picks it. The model takes the map as a value (`MapOne` is the shipped one), so `createMap` is the dot generation on that value.
- ValidMap requires a square map (`numOfRows == numOfCollums`). The source addresses the x wall codes of row r at `r * numOfRows`, which is only right for a square grid. Map one is square.
- The 16-bit sprite fields and the 8-bit anchors are unbounded integers. Only the 8-bit life counter's wrap-around is written out (`LivesDown`, `LivesUp`).
- Sprite colours are indices, not RGB values. A ghost's `color` is the index into `colorArray` that `createGhosts` computes (`GhostColor`), and Pac-Man's is the menu's colour choice as given to the constructor. The source stores the looked-up `colorArray` entry (FinalProject.cpp:516, 535). The colour only affects drawing.
- The scores `score`, `ghostScore`, `totalScore`, `oneUpScore` and `resetScore` (FinalProject.cpp:150-157) are 16-bit signed `int`s on the board and unbounded integers in the model. `resetScore += 2560` (FinalProject.cpp:1133) passes 32767 when the 13th level starts, and `oneUpScore += 5000` (FinalProject.cpp:1546) passes it after the sixth extra life. Signed overflow is undefined in C++, so the model does not assign those points a value.
- MotionFacts.PrevRowIsFirstAbove: stated for equal column anchors, as they are inside a column. `UpdatePrevNextX` follows the loop as written whatever the anchors.
- MotionFacts.PrevCollumIsFirstLeft: stated for equal row anchors, as they are inside a row. `UpdatePrevNextY` follows the loop as written whatever the anchors.
- GhostPolicy.CountChanges: `numOfXChanges`/`numOfYChanges` are uninitialised locals in the source. The model starts them at 0, which is what the code evidently intends.
- GhostPolicy.RandGhost: requires at least one open direction. The source divides `12 / sum` and would divide by zero otherwise. The callers call it only at a crossing, where a ghost always has an open direction on a well-formed map. That fact is not proved here; it is a precondition of `ScanOneGhost` and `ScanGhosts` instead.
- Game.Game.ReadDotsXY: requires that the sprite stands exactly on a row line and on a row dot slot. The source leaves `indexOne`/`indexTwo` uninitialised when no match is found. `ScanScore` carries the same condition for every sprite at a crossing.
- Game.Game.ScanScore: the extra-life and level checks that follow it in the main loop are separate methods (`UpdateLives`, `UpdateGame`).
- For difficulty 1, a ghost 10 apart from Pac-Man in x and 90 apart in y gets one change on each axis. The code counts every threshold the distance does not exceed, starting at 100, so both distances count once (`ChangesExample`).
