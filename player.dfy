/**
  * The player of the voxel world: its view angles, selected block type, motion state and
  * flags, the per-tick integration and collision resolution, target selection, and the
  * place/remove actions (class Player of package com.github.begla.blockmania.world).
  */
module Blockmania {
  import opened Numerics
  import opened Voxels
  import opened Sorting
  import opened View
  import opened Selector
  import opened Neighbourhood
  import opened Selection
  import opened Motion
  import opened Collision

  /** placeBlock writes: there is a selection, its block accepts attachments, and the adjacent cell's AABB is clear of the player. */
  predicate PlacementAllowed(sel: Option<Intersection>, world: map<Cell, Byte>, table: BlockTable, geo: Geometry, pos: Vec3) {
    && sel.Some?
    && table.kind(BlockAt(world, sel.value.blockPosition)).playerCanAttachBlocks
    && !geo.overlaps(sel.value.adjacentBlockPosition, pos)
  }

  /** Position, vertical velocity, pending jump and ground contact: what a tick moves besides the acceleration. */
  datatype MotionState = MotionState(position: Vec3, gravity: real, jump: bool, touchingGround: bool)

  /**
    * The moves of a tick outside god mode, from `before` to `after`, with acceleration `acc` and
    * the fallen gravity in `before`: the height move, resolved against the blocks, landed the
    * player at `landed`, set ground contact, and on a hit stopped the fall and started a pending
    * jump; the horizontal move then slid the player from `landed`.
    */
  ghost predicate Moved(world: map<Cell, Byte>, table: BlockTable, geo: Geometry, cfg: Config, acc: Vec3,
                        before: MotionState, landed: Vec3, after: MotionState)
  {
    var start := before.position;
    var vertical := VerticalResolve(AdjacentBlockPositions(start, geo.distance), world, table, geo, start,
                                    start.(y := start.y + acc.y + before.gravity));
    && after.touchingGround == vertical.0 && landed == vertical.1
    && (vertical.0 ==> !after.jump && after.gravity == (if before.jump then cfg.jumpIntensity else 0.0))
    && (!vertical.0 ==> after.jump == before.jump && after.gravity == before.gravity)
    && after.position == Slide(AdjacentBlockPositions(landed, geo.distance), 27, world, table, geo, landed,
                               landed.(x := landed.x + acc.x, z := landed.z + acc.z)).position
  }

  /**
    * A tick outside god mode, from `before` to `after`, with acceleration `acc` already applied:
    * gravity fell to `fallen`, then the player moved as `Moved` says. No fall ends below the
    * medium's terminal velocity.
    */
  ghost predicate Walked(world: map<Cell, Byte>, table: BlockTable, geo: Geometry, cfg: Config, swimming: bool, acc: Vec3,
                         before: MotionState, fallen: real, landed: Vec3, after: MotionState)
  {
    && fallen == Fall(before.gravity, swimming, cfg)
    && Moved(world, table, geo, cfg, acc, before.(gravity := fallen), landed, after)
    && (!after.touchingGround ==> after.gravity >= -(if swimming then cfg.maxGravitySwimming else cfg.maxGravity))
  }

  /**
    * One updatePlayerPosition, from `before` (acceleration `accBefore`) to `after` (acceleration
    * `accAfter`), with movement intent `movement` and speed cap `wSpeed`. Demo flight moves the
    * player along the demo path and changes nothing else. Otherwise the acceleration is slowed,
    * capped and pushed by the intent; god mode moves freely by it and the old gravity and then
    * zeroes gravity; outside god mode the player falls, lands and slides as `Walked` says.
    */
  ghost predicate Integrated(world: map<Cell, Byte>, table: BlockTable, geo: Geometry, cfg: Config, swimming: bool,
                             movement: Vec3, wSpeed: real, accBefore: Vec3, before: MotionState,
                             accAfter: Vec3, fallen: real, landed: Vec3, after: MotionState)
    requires wSpeed > 0.0
  {
    var p := before.position;
    if cfg.demoFlight && cfg.godMode then
      && accAfter == accBefore
      && after == before.(position := Vec3(p.x,
                                           DemoFlightY(p.y, geo.maxHeightAt(world, Trunc(p.x), Trunc(p.z + cfg.walkingSpeed) + 8)),
                                           p.z + cfg.walkingSpeed))
    else
      && accAfter == AccelerationStep(accBefore, movement, cfg.friction, wSpeed)
      && (cfg.godMode ==>
            after == MotionState(Vec3(p.x + accAfter.x, p.y + accAfter.y + before.gravity, p.z + accAfter.z),
                                 0.0, before.jump, before.touchingGround))
      && (!cfg.godMode ==> Walked(world, table, geo, cfg, swimming, accAfter, before, fallen, landed, after))
  }

  class Player {
    var jump: bool
    var selectedBlockType: Byte
    var wSpeed: real
    var yaw: real
    var pitch: real
    var movement: Vec3
    var acc: Vec3
    var gravity: real
    var parent: World?
    var viewingDirection: Vec3
    var touchingGround: bool
    var swimming: bool
    var headUnderWater: bool
    var position: Vec3
    const blocks: BlockTable
    const cfg: Config
    const geo: Geometry

    constructor (blocks: BlockTable, cfg: Config, geo: Geometry)
      ensures this.blocks == blocks && this.cfg == cfg && this.geo == geo
      ensures !jump && selectedBlockType == 1 && wSpeed == cfg.walkingSpeed
      ensures yaw == 135.0 && pitch == 0.0
      ensures movement == Zero && acc == Zero && gravity == 0.0
      ensures parent == null && viewingDirection == Zero && position == Zero
      ensures !touchingGround && !swimming && !headUnderWater
    {
      this.blocks, this.cfg, this.geo := blocks, cfg, geo;
      jump, selectedBlockType, wSpeed := false, 1, cfg.walkingSpeed;
      yaw, pitch := 135.0, 0.0;
      movement, acc, gravity := Zero, Zero, 0.0;
      parent, viewingDirection, position := null, Zero, Zero;
      touchingGround, swimming, headUnderWater := false, false, false;
      new;
      ResetPlayer();
    }

    /** resetPlayer: no acceleration, no pending movement, no vertical velocity. */
    method ResetPlayer()
      modifies this`acc, this`movement, this`gravity
      ensures acc == Zero && movement == Zero && gravity == 0.0
    {
      acc := Zero;
      movement := Zero;
      gravity := 0.0;
    }

    method SetParent(w: World?)
      modifies this`parent
      ensures parent == w
    {
      parent := w;
    }

    method Yaw(diff: real)
      modifies this`yaw
      ensures yaw == WrapYaw(old(yaw) + diff)
      ensures 0.0 <= yaw < 360.0
    {
      var nYaw := Rem360(yaw + diff);
      if nYaw < 0.0 {
        nYaw := nYaw + 360.0;
      }
      yaw := nYaw;
    }

    method Pitch(diff: real)
      modifies this`pitch
      ensures pitch == ClampPitch(old(pitch) - diff)
      ensures -89.0 <= pitch <= 89.0
    {
      var nPitch := pitch - diff;
      if nPitch > 89.0 {
        nPitch := 89.0;
      } else if nPitch < -89.0 {
        nPitch := -89.0;
      }
      pitch := nPitch;
    }

    /** A jump is only requested while standing on the ground. */
    method Jump()
      modifies this`jump
      ensures jump == (old(jump) || touchingGround)
    {
      if touchingGround {
        jump := true;
      }
    }

    method CycleBlockTypes(upDown: int)
      modifies this`selectedBlockType
      ensures selectedBlockType == CycleSelection(old(selectedBlockType), upDown, blocks.count)
      ensures 1 <= blocks.count <= 128 ==> 0 <= selectedBlockType < blocks.count
    {
      selectedBlockType := ToByte(selectedBlockType + upDown);
      if selectedBlockType >= blocks.count {
        selectedBlockType := 0;
      } else if selectedBlockType < 0 {
        selectedBlockType := ToByte(blocks.count - 1);
      }
    }

    /** processMovement without the keyboard: the intent the walk and strafe keys add, and the run modifier. */
    method ProcessMovement(intent: Vec3, shiftDown: bool)
      modifies this`movement, this`wSpeed
      ensures movement == Add(old(movement), intent)
      ensures wSpeed == if shiftDown && touchingGround then cfg.walkingSpeed * cfg.runningFactor else cfg.walkingSpeed
    {
      movement := Add(movement, intent);
      if shiftDown && touchingGround {
        wSpeed := cfg.walkingSpeed * cfg.runningFactor;
      } else {
        wSpeed := cfg.walkingSpeed;
      }
    }

    /** What calcSelectedBlock reads. */
    function CurrentScan(): Scan
      reads this, parent
      requires parent != null
    {
      Scan(blocks, geo, parent.blocks, position, EyePosition(position), viewingDirection)
    }

    /** The block the player aims at now: what calcSelectedBlock returns. */
    ghost function SelectedHit(): Option<Intersection>
      reads this, parent
      requires parent != null
    {
      Nearest(Candidates(CurrentScan()))
    }

    /**
      * calcSelectedBlock: scan the 7x7x7 cube, skip cells whose block lets the selection ray
      * through, collect the ray hits of the others, and return the nearest.
      */
    method CalcSelectedBlock() returns (r: Option<Intersection>)
      requires parent != null
      ensures r == SelectedHit()
    {
      var inters := CollectHits();
      if |inters| > 0 {
        SortByKeySpec(inters, IntersectionDistance);
        var sorted := SortByKey(inters, IntersectionDistance);
        r := Some(sorted[0]);
      } else {
        r := None;
      }
    }

    /** The loops of calcSelectedBlock: the hits of the whole cube, x outermost, then y, then z. */
    method CollectHits() returns (inters: seq<Intersection>)
      requires parent != null
      ensures inters == Candidates(CurrentScan())
    {
      var s := CurrentScan();
      inters := [];
      for x := -3 to 4
        invariant inters == CubeHits(s, x + 3)
      {
        var plane := ScanPlane(x);
        inters := inters + plane;
      }
    }

    /** The middle loop of calcSelectedBlock: the hits of the plane x, y counting up from -3. */
    method ScanPlane(x: int) returns (hits: seq<Intersection>)
      requires parent != null
      ensures hits == PlaneHits(CurrentScan(), x, 7)
    {
      var s := CurrentScan();
      hits := [];
      for y := -3 to 4
        invariant hits == PlaneHits(s, x, y + 3)
      {
        var row := ScanRow(x, y);
        hits := hits + row;
      }
    }

    /** The innermost loop of calcSelectedBlock: the hits of the row (x, y), z counting up from -3. */
    method ScanRow(x: int, y: int) returns (hits: seq<Intersection>)
      requires parent != null
      ensures hits == RowHits(CurrentScan(), x, y, 7)
    {
      var s := CurrentScan();
      hits := [];
      for z := -3 to 4
        invariant hits == RowHits(s, x, y, z + 3)
      {
        ghost var h := HitsAt(s, x, y, z);
        var blockType := parent.GetBlock(LookupCell(position, x, y, z));
        if !blocks.kind(blockType).letSelectionRayThrough {
          var iss := geo.intersect(parent.blocks, RayCell(position, x, y, z), s.eye, viewingDirection);
          assert iss == h;
          hits := hits + iss;
        } else {
          assert h == [];
          assert hits + h == hits;
        }
      }
    }

    /**
      * placeBlock: with a world, a selection, a selected block that accepts attachments and an
      * adjacent cell clear of the player, write `t` into that adjacent cell; otherwise do nothing.
      */
    method PlaceBlock(t: Byte)
      modifies parent
      ensures parent == old(parent)
      ensures parent != null && PlacementAllowed(old(SelectedHit()), old(parent.blocks), blocks, geo, position) ==>
        parent.blocks == old(parent.blocks)[old(SelectedHit()).value.adjacentBlockPosition := t]
      ensures parent != null && !PlacementAllowed(old(SelectedHit()), old(parent.blocks), blocks, geo, position) ==>
        parent.blocks == old(parent.blocks)
    {
      if parent != null {
        var sel := CalcSelectedBlock();
        if sel.Some? {
          var centerBlock := blocks.kind(parent.GetBlock(sel.value.blockPosition));
          if !centerBlock.playerCanAttachBlocks {
            return;
          }
          var blockPos := sel.value.adjacentBlockPosition;
          // Keep players from placing blocks inside their own bounding boxes.
          if geo.overlaps(blockPos, position) {
            return;
          }
          parent.SetBlock(blockPos, t);
        }
      }
    }

    /** removeBlock: with a world and a selection, write air into the selected cell; otherwise do nothing. */
    method RemoveBlock()
      modifies parent
      ensures parent == old(parent)
      ensures parent != null && old(SelectedHit()).Some? ==>
        parent.blocks == old(parent.blocks)[old(SelectedHit()).value.blockPosition := 0]
      ensures parent != null && old(SelectedHit()).None? ==> parent.blocks == old(parent.blocks)
    {
      if parent != null {
        var sel := CalcSelectedBlock();
        if sel.Some? {
          parent.SetBlock(sel.value.blockPosition, 0);
        }
      }
    }

    /**
      * verticalHitTest: the first neighbour of `origin`, nearest first, that blocks the player
      * snaps the player's height to its face; no other cell is looked at after it.
      */
    method VerticalHitTest(origin: Vec3) returns (hit: bool)
      requires parent != null
      modifies this`position
      ensures (hit, position) == VerticalResolve(AdjacentBlockPositions(origin, geo.distance), parent.blocks, blocks, geo, origin, old(position))
    {
      var blockPositions := GatherAdjacentBlockPositions(origin, geo.distance);
      for i := 0 to |blockPositions|
        invariant position == old(position)
        invariant FirstBlocking(blockPositions, parent.blocks, blocks, geo, position, 0)
               == FirstBlocking(blockPositions, parent.blocks, blocks, geo, position, i)
      {
        var blockType1 := parent.GetBlock(blockPositions[i].cell);
        if blocks.kind(blockType1).penetrable || !geo.overlaps(blockPositions[i].cell, position) {
          continue;
        }
        var direction := origin.y - position.y;
        if direction >= 0.0 {
          position := position.(y := blockPositions[i].cell.y as real + SnapMargin + PlayerHalfHeight);
        } else {
          position := position.(y := blockPositions[i].cell.y as real - SnapMargin - PlayerHalfHeight);
        }
        return true;
      }
      return false;
    }

    /**
      * horizontalHitTest: every neighbour of `origin` that blocks the player where it stands
      * at that moment slides the player along the struck face, starting again from `origin`.
      */
    method HorizontalHitTest(origin: Vec3) returns (hit: bool)
      requires parent != null
      modifies this`position
      ensures SlideResult(hit, position)
           == Slide(AdjacentBlockPositions(origin, geo.distance), 27, parent.blocks, blocks, geo, origin, old(position))
    {
      var result := false;
      var blockPositions := GatherAdjacentBlockPositions(origin, geo.distance);
      for i := 0 to |blockPositions|
        invariant Slide(blockPositions, i, parent.blocks, blocks, geo, origin, old(position)) == SlideResult(result, position)
      {
        var blockType := parent.GetBlock(blockPositions[i].cell);
        if !blocks.kind(blockType).penetrable {
          if geo.overlaps(blockPositions[i].cell, position) {
            result := true;
            position := SlideStep(geo, blockPositions[i].cell, origin, position);
          }
        }
      }
      hit := result;
    }

    /** updateSwimStatus: both flags recomputed from scratch over the neighbourhood of the player. */
    method UpdateSwimStatus()
      requires parent != null
      modifies this`swimming, this`headUnderWater
      ensures var cells := AdjacentBlockPositions(position, geo.distance);
        && swimming == Swimming(cells, parent.blocks, blocks, geo, position)
        && headUnderWater == HeadUnderWater(cells, parent.blocks, blocks, geo, HeadPoint(position, viewingDirection))
    {
      var world, pos := parent.blocks, position;
      var blockPositions := GatherAdjacentBlockPositions(pos, geo.distance);
      var swim, head := false, false;
      var eyePos := HeadPoint(pos, viewingDirection);
      for i := 0 to |blockPositions|
        invariant swim == Swimming(blockPositions[..i], world, blocks, geo, pos)
        invariant head == HeadUnderWater(blockPositions[..i], world, blocks, geo, eyePos)
      {
        SwimmingStep(blockPositions, i, world, blocks, geo, pos);
        HeadUnderWaterStep(blockPositions, i, world, blocks, geo, eyePos);
        var blockType := parent.GetBlock(blockPositions[i].cell);
        if blocks.kind(blockType).water && geo.overlaps(blockPositions[i].cell, pos) {
          swim := true;
        }
        if blocks.kind(blockType).water && geo.contains(blockPositions[i].cell, eyePos) {
          head := true;
        }
      }
      assert blockPositions[..|blockPositions|] == blockPositions;
      headUnderWater := head;
      swimming := swim;
    }

    /** The part of the player updatePlayerPosition changes besides the acceleration. */
    function MotionSnapshot(): MotionState
      reads this
    {
      MotionState(position, gravity, jump, touchingGround)
    }

    /**
      * updatePlayerPosition. Demo flight (demo flight and god mode both set) moves forward over
      * the terrain and touches nothing else. Otherwise: friction, the speed cap and the movement
      * intent give the acceleration; gravity falls toward its terminal velocity (not in god mode);
      * the height moves and is resolved against the blocks, which decides ground contact and
      * consumes a pending jump; then x and z move and slide along blocking faces.
      */
    method UpdatePlayerPosition() returns (ghost fallen: real, ghost landed: Vec3)
      requires parent != null && wSpeed > 0.0
      modifies this`position, this`acc, this`gravity, this`jump, this`touchingGround
      ensures Integrated(parent.blocks, blocks, geo, cfg, swimming, movement, wSpeed,
                         old(acc), old(MotionSnapshot()), acc, fallen, landed, MotionSnapshot())
    {
      if cfg.demoFlight && cfg.godMode {
        FlyDemo();
        fallen, landed := gravity, position;
        return;
      }
      fallen, landed := Walk();
    }

    /** updatePlayerPosition outside demo flight. */
    method Walk() returns (ghost fallen: real, ghost landed: Vec3)
      requires parent != null && wSpeed > 0.0
      modifies this`position, this`acc, this`gravity, this`jump, this`touchingGround
      ensures acc == AccelerationStep(old(acc), movement, cfg.friction, wSpeed)
      ensures cfg.godMode ==>
        && gravity == 0.0 && jump == old(jump) && touchingGround == old(touchingGround)
        && position == Vec3(old(position).x + acc.x, old(position).y + acc.y + old(gravity), old(position).z + acc.z)
      ensures !cfg.godMode ==> Walked(parent.blocks, blocks, geo, cfg, swimming, acc, old(MotionSnapshot()), fallen, landed, MotionSnapshot())
    {
      FallSpec(gravity, swimming, cfg);
      Accelerate();
      ApplyGravity();
      fallen := gravity;
      landed := Move();
    }

    /** The movement sections of updatePlayerPosition: the height first, then x and z. */
    method Move() returns (ghost landed: Vec3)
      requires parent != null
      modifies this`position, this`gravity, this`jump, this`touchingGround
      ensures cfg.godMode ==>
        && gravity == 0.0 && jump == old(jump) && touchingGround == old(touchingGround)
        && position == Vec3(old(position).x + acc.x, old(position).y + acc.y + old(gravity), old(position).z + acc.z)
      ensures !cfg.godMode ==> Moved(parent.blocks, blocks, geo, cfg, acc, old(MotionSnapshot()), landed, MotionSnapshot())
    {
      MoveVertically();
      landed := position;
      // Horizontal collisions are checked after the vertical ones.
      MoveHorizontally();
    }

    /** Demo flight: forward along z, drifting toward 16 above the terrain 8 blocks ahead. */
    method FlyDemo()
      requires parent != null
      modifies this`position
      ensures position == Vec3(old(position).x,
                               DemoFlightY(old(position).y, geo.maxHeightAt(parent.blocks, Trunc(old(position).x), Trunc(old(position).z + cfg.walkingSpeed) + 8)),
                               old(position).z + cfg.walkingSpeed)
    {
      position := position.(z := position.z + cfg.walkingSpeed);
      var maxHeight := geo.maxHeightAt(parent.blocks, Trunc(position.x), Trunc(position.z) + 8) + 16;
      var y := position.y + (maxHeight as real - position.y) / 128.0;
      if y > 128.0 {
        y := 128.0;
      }
      if y < 40.0 {
        y := 40.0;
      }
      position := position.(y := y);
    }

    /** Move the height by the acceleration and the gravity, then resolve it against the blocks. */
    method MoveVertically()
      requires parent != null
      modifies this`position, this`gravity, this`jump, this`touchingGround
      ensures cfg.godMode ==>
        && position == old(position).(y := old(position).y + acc.y + old(gravity))
        && gravity == 0.0 && jump == old(jump) && touchingGround == old(touchingGround)
      ensures !cfg.godMode ==>
        var moved := old(position).(y := old(position).y + acc.y + old(gravity));
        var vertical := VerticalResolve(AdjacentBlockPositions(old(position), geo.distance), parent.blocks, blocks, geo, old(position), moved);
        && touchingGround == vertical.0 && position == vertical.1
        && (vertical.0 ==> !jump && gravity == (if old(jump) then cfg.jumpIntensity else 0.0))
        && (!vertical.0 ==> jump == old(jump) && gravity == old(gravity))
    {
      var oldPosition := position;
      position := position.(y := position.y + acc.y);
      position := position.(y := position.y + gravity);
      ResolveVertical(oldPosition);
    }

    /** Move x and z by the acceleration, then slide along whatever blocks the player. */
    method MoveHorizontally()
      requires parent != null
      modifies this`position
      ensures cfg.godMode ==> position == old(position).(x := old(position).x + acc.x, z := old(position).z + acc.z)
      ensures !cfg.godMode ==>
        position == Slide(AdjacentBlockPositions(old(position), geo.distance), 27, parent.blocks, blocks, geo, old(position),
                          old(position).(x := old(position).x + acc.x, z := old(position).z + acc.z)).position
    {
      var oldPosition := position;
      position := position.(x := position.x + acc.x);
      position := position.(z := position.z + acc.z);
      if !cfg.godMode {
        var _ := HorizontalHitTest(oldPosition);
      }
    }

    /** The slow-down and speed-cap section of updatePlayerPosition, followed by the movement intent. */
    method Accelerate()
      requires wSpeed > 0.0
      modifies this`acc
      ensures acc == AccelerationStep(old(acc), movement, cfg.friction, wSpeed)
    {
      SlowDown();
      CapSpeed();
      acc := Add(acc, movement);
    }

    /** Every nonzero component of the acceleration loses the friction fraction of itself. */
    method SlowDown()
      modifies this`acc
      ensures acc == FrictionVec(old(acc), cfg.friction)
    {
      if Abs(acc.y) > 0.0 {
        acc := acc.(y := acc.y + -1.0 * acc.y * cfg.friction);
      }
      if Abs(acc.x) > 0.0 {
        acc := acc.(x := acc.x + -1.0 * acc.x * cfg.friction);
      }
      if Abs(acc.z) > 0.0 {
        acc := acc.(z := acc.z + -1.0 * acc.z * cfg.friction);
      }
    }

    /** Any component beyond the walking speed scales the whole acceleration down to it. */
    method CapSpeed()
      requires wSpeed > 0.0
      modifies this`acc
      ensures acc == ClampSpeed(old(acc), wSpeed)
    {
      if Abs(acc.x) > wSpeed || Abs(acc.z) > wSpeed || Abs(acc.y) > wSpeed {
        var max := Max(Max(Abs(acc.x), Abs(acc.z)), Abs(acc.y));
        var div := max / wSpeed;
        RatioPositive(max, wSpeed);
        acc := DivideAll(acc, div);
      }
    }

    /** The gravity section: outside god mode, fall toward the terminal velocity of the current medium. */
    method ApplyGravity()
      modifies this`gravity
      ensures gravity == if cfg.godMode then old(gravity) else Fall(old(gravity), swimming, cfg)
    {
      // Normal gravity.
      if gravity > -cfg.maxGravity && !cfg.godMode && !swimming {
        gravity := gravity - cfg.gravity;
      }
      if gravity < -cfg.maxGravity && !cfg.godMode && !swimming {
        gravity := -cfg.maxGravity;
      }
      // Gravity under water.
      if gravity > -cfg.maxGravitySwimming && !cfg.godMode && swimming {
        gravity := gravity - cfg.gravitySwimming;
      }
      if gravity < -cfg.maxGravitySwimming && !cfg.godMode && swimming {
        gravity := -cfg.maxGravitySwimming;
      }
    }

    /**
      * The vertical collision section: outside god mode a vertical hit stops the fall, starts a
      * pending jump and sets ground contact, and a miss clears ground contact; god mode only
      * stops the fall.
      */
    method ResolveVertical(origin: Vec3)
      requires parent != null
      modifies this`position, this`gravity, this`jump, this`touchingGround
      ensures cfg.godMode ==>
        position == old(position) && gravity == 0.0 && jump == old(jump) && touchingGround == old(touchingGround)
      ensures !cfg.godMode ==>
        var vertical := VerticalResolve(AdjacentBlockPositions(origin, geo.distance), parent.blocks, blocks, geo, origin, old(position));
        && touchingGround == vertical.0 && position == vertical.1
        && (vertical.0 ==> !jump && gravity == (if old(jump) then cfg.jumpIntensity else 0.0))
        && (!vertical.0 ==> jump == old(jump) && gravity == old(gravity))
    {
      if !cfg.godMode {
        var hit := VerticalHitTest(origin);
        if hit {
          gravity := 0.0;
          // Jumping is only possible while standing on the ground.
          if jump {
            jump := false;
            gravity := cfg.jumpIntensity;
          }
          touchingGround := true;
        } else {
          touchingGround := false;
        }
      } else {
        gravity := 0.0;
      }
    }

    /**
      * update without the mouse and keyboard: turn by the mouse deltas, run one tick with the
      * movement intent, then take the new viewing direction and clear the intent.
      */
    method Update(dx: real, dy: real, intent: Vec3, shiftDown: bool, direction: Vec3) returns (ghost fallen: real, ghost landed: Vec3)
      requires parent != null
      requires cfg.walkingSpeed > 0.0 && cfg.runningFactor > 0.0
      modifies this`yaw, this`pitch, this`viewingDirection
      modifies this`swimming, this`headUnderWater, this`movement, this`wSpeed
      modifies this`position, this`acc, this`gravity, this`jump, this`touchingGround
      ensures yaw == WrapYaw(old(yaw) + dx * cfg.mouseSens) && 0.0 <= yaw < 360.0
      ensures pitch == ClampPitch(old(pitch) - dy * cfg.mouseSens) && -89.0 <= pitch <= 89.0
      ensures var cells := AdjacentBlockPositions(old(position), geo.distance);
        && swimming == Swimming(cells, parent.blocks, blocks, geo, old(position))
        && headUnderWater == HeadUnderWater(cells, parent.blocks, blocks, geo, HeadPoint(old(position), old(viewingDirection)))
      ensures wSpeed == if shiftDown && old(touchingGround) then cfg.walkingSpeed * cfg.runningFactor else cfg.walkingSpeed
      ensures wSpeed > 0.0
      ensures Integrated(parent.blocks, blocks, geo, cfg, swimming, Add(old(movement), intent), wSpeed,
                         old(acc), old(MotionSnapshot()), acc, fallen, landed, MotionSnapshot())
      ensures movement == Zero && viewingDirection == direction
    {
      Yaw(dx * cfg.mouseSens);
      Pitch(dy * cfg.mouseSens);
      fallen, landed := Tick(intent, shiftDown);
      viewingDirection := direction;
      movement := Zero;
    }

    /**
      * The part of update between turning and taking the new direction: the swim flags at the
      * starting position, the movement intent and run speed, then one updatePlayerPosition.
      */
    method Tick(intent: Vec3, shiftDown: bool) returns (ghost fallen: real, ghost landed: Vec3)
      requires parent != null
      requires cfg.walkingSpeed > 0.0 && cfg.runningFactor > 0.0
      modifies this`swimming, this`headUnderWater, this`movement, this`wSpeed
      modifies this`position, this`acc, this`gravity, this`jump, this`touchingGround
      ensures var cells := AdjacentBlockPositions(old(position), geo.distance);
        && swimming == Swimming(cells, parent.blocks, blocks, geo, old(position))
        && headUnderWater == HeadUnderWater(cells, parent.blocks, blocks, geo, HeadPoint(old(position), viewingDirection))
      ensures movement == Add(old(movement), intent)
      ensures wSpeed == if shiftDown && old(touchingGround) then cfg.walkingSpeed * cfg.runningFactor else cfg.walkingSpeed
      ensures wSpeed > 0.0
      ensures Integrated(parent.blocks, blocks, geo, cfg, swimming, movement, wSpeed,
                         old(acc), old(MotionSnapshot()), acc, fallen, landed, MotionSnapshot())
    {
      UpdateSwimStatus();
      ProcessMovement(intent, shiftDown);
      ProductPositive(cfg.walkingSpeed, cfg.runningFactor);
      fallen, landed := UpdatePlayerPosition();
    }
  }
}
