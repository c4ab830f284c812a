# Blockmania player controller in Dafny

This project models the first-person player of the Blockmania voxel engine (class
`Player` of `com.github.begla.blockmania.world`), the part that:

- turns the view (yaw wrapped into [0, 360), pitch clamped to [-89, 89]);
- cycles the selected block type, with Java's byte narrowing;
- gathers the 27 cells around a point, nearest first;
- picks the block the player aims at: the nearest ray hit over a 7x7x7 cube;
- places and removes blocks;
- recomputes the swimming and head-under-water flags;
- integrates one tick of motion:
  - friction, the speed cap and the movement intent;
  - gravity in air and in water, with terminal velocities;
  - vertical collision with snapping, ground contact and the jump;
  - horizontal collision with sliding;
  - the demo-flight path.

The model is imperative where the source is:

- `Blockmania.Player` is a class with the source's fields. Each method names the fields it may
  change in a field-granular `modifies` frame, and its postconditions state every one of them.
- The world is a class `Voxels.World` holding a map from cells to block types. Placing and
  removing write into it.
- Each method is proved against a specification function:
  - `Collision.VerticalResolve`, `Collision.Slide`, `Collision.Swimming`,
    `Neighbourhood.AdjacentBlockPositions` and `Selection.Candidates`;
  - `Motion.AccelerationStep` and `Motion.Fall`;
  - `View.WrapYaw`, `View.ClampPitch` and `Selector.CycleSelection`.
- Lemmas then prove what the source promises about those functions.

The collaborators the player calls but which are not part of this model are parameters of
the model (the `Voxels.Geometry` datatype):

- the AABB tests and closest points, and the face normal;
- `RayBlockIntersection.executeIntersection`;
- the distance key that `BlockPosition` and `Intersection` are ordered by;
- `World.maxHeightAt`.

The block-type table and the configuration settings are also parameters.

Numbers:

- Floats are reals.
- Java's `(int)` cast is truncation toward zero (`Numerics.Trunc`), not floor.
- The byte arithmetic of `cycleBlockTypes` is written out (`Numerics.ToByte`).
- Java's `%` on doubles is the truncated remainder (`View.Rem360`).

`Collections.sort` is modelled as an insertion sort by key (`Sorting.SortByKey`). It is
proved sorted and a permutation of its input.

The modules follow the parts of the class: `View` for the view angles, `Selector` for the
block-type selector, `Neighbourhood` for the 27 surrounding cells, `Selection` for the aimed-at
block, `Motion` for the arithmetic of a tick, `Collision` for the collision and swim tests, and
`Blockmania` for the class itself.

Where the design documentation and the code disagree, the model follows the code:

- The base cell of the neighbourhood truncates `origin + 0.5` toward zero; the documentation
  says floor. The two differ for negative coordinates.
- Friction and the speed cap apply in god mode too; the documentation says god mode bypasses
  them. Only gravity is switched off.
- The comment on `setParent` (Player.java:709) says that it also resets the player. The code
  (Player.java:714) only sets the world, and so does `Blockmania.Player.SetParent`.

## Model

| member | source | states |
|---|---|---|
| Numerics.ToByte | src/com/github/begla/blockmania/world/Player.java:723-728 | Java's narrowing to `byte`: keeps values in [-128, 128) and otherwise differs from its input by a multiple of 256 |
| Numerics.Trunc | src/com/github/begla/blockmania/world/Player.java:254 | the `(int)` cast of a double: never negative for a non-negative argument and never positive for a non-positive one |
| Numerics.TruncBrackets | src/com/github/begla/blockmania/world/Player.java:254 | the `(int)` cast lands on the whole number next to its argument on the side of zero, for both signs |
| Numerics.TruncShift | src/com/github/begla/blockmania/world/Player.java:254-262 | adding a whole offset before or after the `(int)` cast gives the same cell as long as the shift does not cross zero |
| Sorting.SortByKeySpec | src/com/github/begla/blockmania/world/Player.java:479 | the sort of a list by a real key is ordered by that key and is a permutation of the list (same multiset, same length) |
| Sorting.InsertByKeySorted | src/com/github/begla/blockmania/world/Player.java:479 | inserting into a sorted list keeps it sorted |
| Sorting.InsertByKeyPermutes | src/com/github/begla/blockmania/world/Player.java:479 | inserting adds exactly the one element to the multiset |
| Sorting.DistinctPermutation | src/com/github/begla/blockmania/world/Player.java:479 | a permutation of a list without repeats has no repeats either |
| View.Rem360 | src/com/github/begla/blockmania/world/Player.java:160 | Java's double `%` by 360: the result has the sign of the dividend, lies within one turn of zero, and differs from the dividend by whole turns |
| View.WrapYaw | src/com/github/begla/blockmania/world/Player.java:159-165 | the yaw a turn leaves always lies in [0, 360) |
| View.WrapYawSpec | src/com/github/begla/blockmania/world/Player.java:159-165 | the wrapped yaw differs from the requested one by whole turns, and a yaw already in [0, 360) is left alone |
| View.RemOfTurn | src/com/github/begla/blockmania/world/Player.java:160 | an angle in [0, 360) is its own remainder |
| View.WrapYawIsCanonical | src/com/github/begla/blockmania/world/Player.java:159-165 | the wrapped yaw is the only angle in [0, 360) that differs from the request by whole turns |
| View.WrapYawCompose | src/com/github/begla/blockmania/world/Player.java:159-165 | turning by `a` and then by `d` leaves the same yaw as turning once by `a + d` |
| View.ClampPitch | src/com/github/begla/blockmania/world/Player.java:172-181 | the pitch is always in [-89, 89], is the request when that is in range, and is the nearer bound otherwise |
| View.ClampPitchIsNearest | src/com/github/begla/blockmania/world/Player.java:172-181 | no allowed pitch is nearer to the requested one than the clamped pitch |
| Selector.CycleSelection | src/com/github/begla/blockmania/world/Player.java:722-730 | with 1 to 128 block types the selection always ends as a valid type index |
| Selector.CycleSelectionSteps | src/com/github/begla/blockmania/world/Player.java:722-730 | with at most 127 types, one step up or down is the cyclic successor or predecessor, wrapping at both ends |
| Selector.CycleSelectionByteOverflow | src/com/github/begla/blockmania/world/Player.java:723-726 | with 128 types, stepping up from 127 overflows the byte to -128 and the selection lands back on 127 instead of wrapping to 0 |
| Neighbourhood.AdjacentBlockPositions | src/com/github/begla/blockmania/world/Player.java:459-481 | the gathered list always has 27 entries |
| Neighbourhood.UnsortedDistinct | src/com/github/begla/blockmania/world/Player.java:466-473 | the triple loop never appends the same cell twice |
| Neighbourhood.UnsortedComplete | src/com/github/begla/blockmania/world/Player.java:466-473 | every cell of the 3x3x3 cube around the base cell is appended |
| Neighbourhood.AdjacentBlockPositionsSpec | src/com/github/begla/blockmania/world/Player.java:459-481 | the list holds each of the 27 cells around the truncated base exactly once, each tagged with the origin, ordered nearest first |
| Neighbourhood.GatherAdjacentBlockPositions | src/com/github/begla/blockmania/world/Player.java:459-481 | the loop and sort return that list: 27 distinct cells of the cube, all of them, sorted by distance |
| Selection.LookupMatchesRayCell | src/com/github/begla/blockmania/world/Player.java:254-262 | on either side of zero, as long as no coordinate crosses zero when the offset is added, the cell whose type is looked up is the cell the ray is cast at |
| Selection.LookupDiffersFromRayCell | src/com/github/begla/blockmania/world/Player.java:254-262 | near zero the two differ: at x = -0.5 with offset +1 the type of cell 0 decides whether the ray is cast at cell 1 |
| Selection.HitsAt | src/com/github/begla/blockmania/world/Player.java:254-266 | a cell whose block lets the selection ray through yields no hit |
| Selection.Candidates | src/com/github/begla/blockmania/world/Player.java:250-269 | the scan of the 7x7x7 cube collects no hit exactly when no cell of it yields one |
| Selection.CubeEmptyIff | src/com/github/begla/blockmania/world/Player.java:250-269 | the scan collects no hit exactly when no cell of the cube yields one |
| Selection.Nearest | src/com/github/begla/blockmania/world/Player.java:274-279 | there is a selection exactly when the hit list is not empty |
| Selection.NearestIsClosest | src/com/github/begla/blockmania/world/Player.java:274-279 | the result is absent exactly when there are no hits; otherwise it is one of the hits and no hit is nearer |
| Selection.SelectionSpec | src/com/github/begla/blockmania/world/Player.java:249-280 | calcSelectedBlock returns null exactly when no scanned cell yields a hit, and otherwise a collected hit of minimal distance |
| Motion.Friction | src/com/github/begla/blockmania/world/Player.java:569-579 | a component at rest stays at rest (the source only slows components whose magnitude is positive); `Motion.FrictionVec` applies it to each of the three components |
| Motion.FrictionShrinks | src/com/github/begla/blockmania/world/Player.java:569-579 | the slowdown scales a component by 1 - friction; with friction in [0, 1] it moves toward zero without changing sign |
| Motion.ClampSpeed | src/com/github/begla/blockmania/world/Player.java:584-591 | an acceleration whose largest component is within the walking speed is not capped |
| Motion.ClampSpeedCaps | src/com/github/begla/blockmania/world/Player.java:584-591 | after the cap no component exceeds the walking speed; a vector within the cap is unchanged; a capped vector keeps its direction and its largest component becomes exactly the walking speed |
| Motion.AccelerationStep | src/com/github/begla/blockmania/world/Player.java:566-599 | the new acceleration is the movement intent plus a slowed acceleration whose components are all within the walking speed |
| Motion.Fall | src/com/github/begla/blockmania/world/Player.java:601-617 | gravity never ends below the terminal velocity of the current medium |
| Motion.FallSpec | src/com/github/begla/blockmania/world/Player.java:601-617 | gravity never ends below the terminal velocity of the current medium; with non-negative constants it rises only when it starts below that terminal velocity, and then only up to it (entering water while falling fast); above the terminal velocity it falls by exactly the medium's constant unless that would pass the terminal velocity |
| Motion.DemoFlightY | src/com/github/begla/blockmania/world/Player.java:553-561 | the demo-flight height always lies in [40, 128] |
| Motion.DemoFlightYSpec | src/com/github/begla/blockmania/world/Player.java:553-561 | the demo-flight height stays in [40, 128], and inside that band it is the drift toward 16 above the terrain ahead |
| Collision.EyePosition | src/com/github/begla/blockmania/world/Player.java:767-772 | the eye is half a block above the player's centre, at the same x and z |
| Collision.FirstBlocking | src/com/github/begla/blockmania/world/Player.java:435-450 | the first blocking neighbour found is one of the neighbours from the starting index on |
| Collision.FirstBlockingSpec | src/com/github/begla/blockmania/world/Player.java:435-450 | the scan stops at the first cell that is solid and overlaps the player, and finds none only when no cell does |
| Collision.SnappedY | src/com/github/begla/blockmania/world/Player.java:442-447 | a snap moving down puts the player's bottom face 0.00001 above the block's top face; moving up, its top face 0.00001 below the block's bottom face |
| Collision.VerticalResolve | src/com/github/begla/blockmania/world/Player.java:432-453 | the vertical test never moves the player sideways, and without a hit it does not move the player at all |
| Collision.VerticalResolveSpec | src/com/github/begla/blockmania/world/Player.java:432-453 | a vertical hit happens exactly when some neighbour blocks the player; a miss leaves the position alone; a hit changes only the height, snapped against the first blocking neighbour |
| Collision.SlideStep | src/com/github/begla/blockmania/world/Player.java:502-528 | one slide puts the player back at the height of the origin |
| Collision.Slide | src/com/github/begla/blockmania/world/Player.java:489-538 | without a hit the player stays where it was put; after a hit it is at the height of the origin |
| Collision.SlideSpec | src/com/github/begla/blockmania/world/Player.java:489-538 | the horizontal test reports a hit exactly when some neighbour blocks the player's starting position; without one the player stays put, with one it ends at the height of the origin |
| Collision.SwimmingStep | src/com/github/begla/blockmania/world/Player.java:667-673 | each scanned cell sets the swimming flag exactly when it is water overlapping the player |
| Collision.HeadUnderWaterStep | src/com/github/begla/blockmania/world/Player.java:675-683 | each scanned cell sets the head flag exactly when it is water containing the point ahead of the eye |
| Voxels.World.SetBlock | src/com/github/begla/blockmania/world/Player.java:315 | setting a block changes the type of that one cell and of no other |
| Blockmania.Player.constructor | src/com/github/begla/blockmania/world/Player.java:48-69 | a new player: no jump pending, block type 1, walking speed, yaw 135, pitch 0, no movement, acceleration or gravity, no world, not on the ground, not swimming |
| Blockmania.Player.ResetPlayer | src/com/github/begla/blockmania/world/Player.java:693-697 | acceleration, movement intent and vertical velocity are zero and nothing else changes |
| Blockmania.Player.SetParent | src/com/github/begla/blockmania/world/Player.java:713-715 | the player is attached to the given world and nothing else changes |
| Blockmania.Player.Yaw | src/com/github/begla/blockmania/world/Player.java:159-165 | the new yaw is the old one turned by the difference and wrapped into [0, 360) |
| Blockmania.Player.Pitch | src/com/github/begla/blockmania/world/Player.java:172-181 | the new pitch is the old one less the difference, clamped to [-89, 89] |
| Blockmania.Player.Jump | src/com/github/begla/blockmania/world/Player.java:238-242 | a jump becomes pending only while the player touches the ground, and a pending jump stays pending |
| Blockmania.Player.CycleBlockTypes | src/com/github/begla/blockmania/world/Player.java:722-730 | the selection moves cyclically and stays a valid type index for 1 to 128 types |
| Blockmania.Player.ProcessMovement | src/com/github/begla/blockmania/world/Player.java:406-424 | the intent is added to the movement, and the speed is the running speed exactly when shift is held on the ground |
| Blockmania.Player.CalcSelectedBlock | src/com/github/begla/blockmania/world/Player.java:249-280 | returns the selection whose meaning `Selection.SelectionSpec` proves: absent exactly when nothing is hit, else the nearest hit |
| Blockmania.Player.CollectHits | src/com/github/begla/blockmania/world/Player.java:250-269 | the three nested loops collect exactly the candidates of the cube, in scan order |
| Blockmania.Player.ScanPlane | src/com/github/begla/blockmania/world/Player.java:252-268 | the middle loop collects the hits of one plane of the cube |
| Blockmania.Player.ScanRow | src/com/github/begla/blockmania/world/Player.java:253-267 | the inner loop skips cells whose block lets the ray through and collects the ray hits of the others |
| Blockmania.Player.PlaceBlock | src/com/github/begla/blockmania/world/Player.java:298-318 | when there is a selection, its block accepts attachments and the adjacent cell is clear of the player, exactly that one cell is set to the type; otherwise the world is unchanged |
| Blockmania.Player.RemoveBlock | src/com/github/begla/blockmania/world/Player.java:341-349 | with a selection exactly the selected cell becomes air; without one the world is unchanged |
| Blockmania.Player.VerticalHitTest | src/com/github/begla/blockmania/world/Player.java:432-453 | the loop's outcome and the new position are those of the first-match vertical resolution |
| Blockmania.Player.HorizontalHitTest | src/com/github/begla/blockmania/world/Player.java:489-538 | the loop's outcome and the new position are those of the slide over all 27 neighbours |
| Blockmania.Player.UpdateSwimStatus | src/com/github/begla/blockmania/world/Player.java:662-688 | both flags are recomputed from scratch: swimming exactly when some neighbour is water overlapping the player, head under water exactly when some neighbour is water containing the point ahead of the eye |
| Blockmania.Player.UpdatePlayerPosition | src/com/github/begla/blockmania/world/Player.java:543-660 | the new position, acceleration, gravity, jump and ground contact are those `Integrated` relates to the old ones: in demo flight only the position moves, along the demo path; otherwise the acceleration is slowed, capped and pushed, god mode moves freely with gravity zeroed, and outside god mode the tick falls, lands, jumps and slides as `Walked` states, never below terminal velocity in the air |
| Blockmania.Player.Walk | src/com/github/begla/blockmania/world/Player.java:566-660 | the non-demo tick: the same acceleration, god-mode and `Walked` outcomes |
| Blockmania.Player.Move | src/com/github/begla/blockmania/world/Player.java:619-657 | height first, then x and z; god mode moves freely; otherwise the moves are those of `Moved` |
| Blockmania.Player.FlyDemo | src/com/github/begla/blockmania/world/Player.java:550-564 | demo flight moves forward by the walking speed and to the clamped drift height over the terrain 8 blocks ahead |
| Blockmania.Player.MoveVertically | src/com/github/begla/blockmania/world/Player.java:619-638 | the height moves by acceleration plus gravity, then is resolved against the blocks, deciding ground contact and consuming a pending jump |
| Blockmania.Player.MoveHorizontally | src/com/github/begla/blockmania/world/Player.java:640-657 | x and z move by the acceleration and, outside god mode, slide along blocking faces from the landed position |
| Blockmania.Player.Accelerate | src/com/github/begla/blockmania/world/Player.java:566-599 | the acceleration becomes the slowed, capped acceleration plus the movement intent |
| Blockmania.Player.SlowDown | src/com/github/begla/blockmania/world/Player.java:569-579 | every component loses the friction fraction of itself |
| Blockmania.Player.CapSpeed | src/com/github/begla/blockmania/world/Player.java:584-591 | the acceleration is capped at the walking speed as `Motion.ClampSpeedCaps` describes |
| Blockmania.Player.ApplyGravity | src/com/github/begla/blockmania/world/Player.java:601-617 | outside god mode gravity falls toward the terminal velocity of the current medium; in god mode it is untouched |
| Blockmania.Player.ResolveVertical | src/com/github/begla/blockmania/world/Player.java:622-638 | a vertical hit stops the fall, turns a pending jump into the jump intensity and sets ground contact; a miss clears ground contact; god mode only zeroes gravity |
| Blockmania.Player.Update | src/com/github/begla/blockmania/world/Player.java:136-152 | every field an update changes is stated: the yaw turned and wrapped into [0, 360), the pitch clamped to [-89, 89], the swim flags at the starting position, the run speed, the motion of the tick as `Integrated` relates it to the starting state and the intent, the intent cleared and the new view direction taken |
| Blockmania.Player.Tick | src/com/github/begla/blockmania/world/Player.java:143-145 | the swim flags are recomputed at the starting position, the intent is added and the speed set, and the motion is the one `Integrated` relates to the starting state |

## Left out

- Rendering is not modelled: `render`, `applyPlayerModelViewMatrix`, `applyNormalizedModelViewMatrix`, the bobbing noise and the view frustum.
- Input polling is not modelled. `processKeyboardInput` and `processMouseInput` only dispatch to members that are modelled.
- `walkForward`, `walkBackwards`, `strafeLeft` and `strafeRight` are trigonometry of yaw and pitch. They appear only as the `intent` vector handed to `ProcessMovement`.
- Blockmania.Player.ProcessMovement: the keyboard is a parameter. The intent vector and the shift flag stand for the keys held.
- Blockmania.Player.Update: the new viewing direction is a parameter. The source computes it from yaw and pitch with sine and cosine.
- Blockmania.Player.Update: the mouse deltas are parameters.
- The AABB geometry, ray intersection, distance key and terrain height are functions in `Voxels.Geometry`. `AABB`, `RayBlockIntersection`, `BlockPosition.compareTo` and `World` are not part of this model. A null hit list is the empty list.
- `World.getBlockAtPosition` (Player.java:436, 495, 668) and `World.getBlock` (Player.java:254, 302) are both the map lookup `Voxels.BlockAt` of the cell. `World` is not part of this model.
- `World.setBlock` is a map update. Its lighting and update flags are not modelled.
- Floating point is modelled as reals. Float rounding is not modelled, including a remainder that rounds up to exactly 360, and the mix of `float` and `double`.
- Numerics.Trunc: does not model Java's saturation of `(int)` at the `int` range for huge coordinates.
- Sorting.SortByKeySpec: does not state stability. `Collections.sort` is stable; the model sorts stably but proves only order and permutation.
- Selector.CycleSelection: the range property is stated for 1 to 128 block types only. With more types a Java byte cannot hold every index.
- Blockmania.Player.UpdatePlayerPosition: requires a positive walking speed, because the speed cap divides by it. `Tick` and `Update` require positive configured walking speed and running factor for the same reason.
- The methods that read the world (`CalcSelectedBlock`, `VerticalHitTest`, `HorizontalHitTest`, `UpdateSwimStatus`, `UpdatePlayerPosition`, `Tick` and `Update`) require the player to have a world. The source dereferences `parent` there and throws a `NullPointerException` without one (Player.java:668); that path is not modelled.
- Blockmania.Player.UpdateSwimStatus: computes the point ahead of the eye once, not once per neighbour. The position and view direction do not change inside the loop.
- `updatePlayerPosition` and `calcSelectedBlock` are split into helper methods, one per section or loop. The helpers are `Walk`, `Move`, `FlyDemo`, `Accelerate`, `SlowDown`, `CapSpeed`, `ApplyGravity`, `MoveVertically`, `ResolveVertical`, `MoveHorizontally`, `CollectHits`, `ScanPlane` and `ScanRow`. Their composition performs the same steps in the same order. The inner loop's hits are appended row by row.
- `VectorPool` is not modelled: vectors are values and no pooled vector is shared.
- `plantTree`, `selectedBlockInformation`, `toString`, `getAABB`, `getViewFrustum` and the getters are not modelled.
- The player's position starts at the origin. `RenderableObject` is not part of this model.
- The configuration is constant for the player's lifetime. The source reads it on every use.
