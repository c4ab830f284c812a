/**
  * The collision and submersion scans of Player: verticalHitTest, horizontalHitTest and
  * updateSwimStatus, each over the neighbourhood list, stated as functions of that list.
  */
module Collision {
  import opened Numerics
  import opened Voxels

  /** Half the player's height: the y extent of the AABB generateAABBForPosition builds. */
  const PlayerHalfHeight: real := 0.7

  /** Distance kept between a snapped player and the block centre, beyond the player's half height. */
  const SnapMargin: real := 0.50001

  /** The eye: the player's centre raised by the half height less 0.2 (calcEyePosition). */
  function EyePosition(p: Vec3): (e: Vec3)
    ensures e.x == p.x && e.z == p.z && e.y == p.y + 0.5
  {
    Vec3(p.x, p.y + PlayerHalfHeight - 0.2, p.z)
  }

  /** The point a tenth of the view direction ahead of the eye, tested for being under water. */
  function HeadPoint(p: Vec3, dir: Vec3): Vec3 {
    var e := EyePosition(p);
    Vec3(e.x + dir.x * 0.1, e.y + dir.y * 0.1, e.z + dir.z * 0.1)
  }

  /** A neighbour stops the player at `pos`: its type is not penetrable and its AABB overlaps the player's. */
  predicate Blocking(world: map<Cell, Byte>, table: BlockTable, geo: Geometry, b: BlockPosition, pos: Vec3) {
    !table.kind(BlockAt(world, b.cell)).penetrable && geo.overlaps(b.cell, pos)
  }

  /** The index of the first blocking cell at or after `from`, if any. */
  function FirstBlocking(cells: seq<BlockPosition>, world: map<Cell, Byte>, table: BlockTable, geo: Geometry, pos: Vec3, from: nat): (r: Option<nat>)
    decreases |cells| - from
    ensures r.Some? ==> from <= r.value < |cells|
  {
    if from >= |cells| then None
    else if Blocking(world, table, geo, cells[from], pos) then Some(from)
    else FirstBlocking(cells, world, table, geo, pos, from + 1)
  }

  /** The scan finds the first blocking cell at or after `from`, and finds none only when there is none. */
  lemma {:induction false} FirstBlockingSpec(cells: seq<BlockPosition>, world: map<Cell, Byte>, table: BlockTable, geo: Geometry, pos: Vec3, from: nat)
    decreases |cells| - from
    ensures var r := FirstBlocking(cells, world, table, geo, pos, from);
      && (r.Some? ==>
            Blocking(world, table, geo, cells[r.value], pos) &&
            forall k :: from <= k < r.value ==> !Blocking(world, table, geo, cells[k], pos))
      && (r.None? ==> forall k :: from <= k < |cells| ==> !Blocking(world, table, geo, cells[k], pos))
  {
    if from < |cells| && !Blocking(world, table, geo, cells[from], pos) {
      FirstBlockingSpec(cells, world, table, geo, pos, from + 1);
    }
  }

  /**
    * The height a vertical hit on a block at `cellY` puts the player at. Moving down (or not at all)
    * the player's bottom face ends just above the block's top face; moving up, the player's top
    * face ends just below the block's bottom face; the gap is 0.00001 either way.
    */
  function SnappedY(cellY: int, direction: real): (y: real)
    ensures direction >= 0.0 ==> y - PlayerHalfHeight == cellY as real + 0.5 + 0.00001
    ensures direction < 0.0 ==> y + PlayerHalfHeight == cellY as real - 0.5 - 0.00001
  {
    if direction >= 0.0 then cellY as real + SnapMargin + PlayerHalfHeight
    else cellY as real - SnapMargin - PlayerHalfHeight
  }

  /**
    * verticalHitTest on the list `cells` gathered around `origin`, with the player at `pos`:
    * whether it hit, and where the player ends.
    */
  function VerticalResolve(cells: seq<BlockPosition>, world: map<Cell, Byte>, table: BlockTable, geo: Geometry, origin: Vec3, pos: Vec3): (r: (bool, Vec3))
    ensures !r.0 ==> r.1 == pos
    ensures r.1.x == pos.x && r.1.z == pos.z
  {
    match FirstBlocking(cells, world, table, geo, pos, 0)
    case None => (false, pos)
    case Some(i) => (true, pos.(y := SnappedY(cells[i].cell.y, origin.y - pos.y)))
  }

  /**
    * A vertical hit happens exactly when some cell blocks the player; without one the player
    * stays put, with one only the height changes, snapped against the first blocking cell.
    */
  lemma VerticalResolveSpec(cells: seq<BlockPosition>, world: map<Cell, Byte>, table: BlockTable, geo: Geometry, origin: Vec3, pos: Vec3)
    ensures var r := VerticalResolve(cells, world, table, geo, origin, pos);
      && (r.0 <==> exists k :: 0 <= k < |cells| && Blocking(world, table, geo, cells[k], pos))
      && (!r.0 ==> r.1 == pos)
      && (r.0 ==>
            exists i ::
              && 0 <= i < |cells| && Blocking(world, table, geo, cells[i], pos)
              && (forall k :: 0 <= k < i ==> !Blocking(world, table, geo, cells[k], pos))
              && r.1 == pos.(y := SnappedY(cells[i].cell.y, origin.y - pos.y)))
  {
    FirstBlockingSpec(cells, world, table, geo, pos, 0);
  }

  /** The position one horizontal hit on `cell` gives, sliding from `origin` toward `pos` along the struck face. */
  function SlideStep(geo: Geometry, cell: Cell, origin: Vec3, pos: Vec3): (r: Vec3)
    ensures r.y == origin.y
  {
    var direction := Vec3(pos.x - origin.x, 0.0, pos.z - origin.z);
    var blockPoi := geo.closestOnBlock(cell, origin);
    var playerPoi := geo.closestOnPlayer(origin, blockPoi);
    var planeNormal := geo.faceNormal(cell, blockPoi, origin);
    var slideVector := Vec3(planeNormal.z, 0.0, -planeNormal.x);
    var pushBack := Vec3(blockPoi.x - playerPoi.x, blockPoi.y - playerPoi.y, blockPoi.z - playerPoi.z);
    var length := slideVector.x * direction.x + slideVector.y * direction.y + slideVector.z * direction.z;
    Vec3(origin.x + pushBack.x * 0.2 + length * slideVector.x,
         origin.y,
         origin.z + pushBack.z * 0.2 + length * slideVector.z)
  }

  datatype SlideResult = SlideResult(hit: bool, position: Vec3)

  /**
    * horizontalHitTest over the first n cells: every blocking cell, tested against the
    * position the earlier ones left, moves the player again.
    */
  function Slide(cells: seq<BlockPosition>, n: nat, world: map<Cell, Byte>, table: BlockTable, geo: Geometry, origin: Vec3, pos: Vec3): (r: SlideResult)
    requires n <= |cells|
    ensures !r.hit ==> r.position == pos
    ensures r.hit ==> r.position.y == origin.y
  {
    if n == 0 then SlideResult(false, pos)
    else
      var prev := Slide(cells, n - 1, world, table, geo, origin, pos);
      if Blocking(world, table, geo, cells[n - 1], prev.position) then
        SlideResult(true, SlideStep(geo, cells[n - 1].cell, origin, prev.position))
      else prev
  }

  /**
    * The slide leaves the player where it was when nothing blocks, and otherwise at the
    * height of `origin`; it reports a hit exactly when some cell blocks the player's
    * starting position (the first such cell is tested before anything has moved).
    */
  lemma {:induction false} SlideSpec(cells: seq<BlockPosition>, n: nat, world: map<Cell, Byte>, table: BlockTable, geo: Geometry, origin: Vec3, pos: Vec3)
    requires n <= |cells|
    ensures var r := Slide(cells, n, world, table, geo, origin, pos);
      && (!r.hit ==> r.position == pos)
      && (r.hit ==> r.position.y == origin.y)
      && (r.hit <==> exists k :: 0 <= k < n && Blocking(world, table, geo, cells[k], pos))
  {
    if n > 0 {
      SlideSpec(cells, n - 1, world, table, geo, origin, pos);
      var prev := Slide(cells, n - 1, world, table, geo, origin, pos);
      var r := Slide(cells, n, world, table, geo, origin, pos);
      if r.hit && !prev.hit {
        assert Blocking(world, table, geo, cells[n - 1], pos);
      }
      if !r.hit {
        assert r == prev;
        assert !Blocking(world, table, geo, cells[n - 1], pos);
      }
    }
  }

  /** Some neighbour of the list is a water block whose AABB overlaps the player at `pos`. */
  predicate Swimming(cells: seq<BlockPosition>, world: map<Cell, Byte>, table: BlockTable, geo: Geometry, pos: Vec3) {
    exists i :: 0 <= i < |cells| && table.kind(BlockAt(world, cells[i].cell)).water && geo.overlaps(cells[i].cell, pos)
  }

  /** Some neighbour of the list is a water block whose AABB contains the point `head`. */
  predicate HeadUnderWater(cells: seq<BlockPosition>, world: map<Cell, Byte>, table: BlockTable, geo: Geometry, head: Vec3) {
    exists i :: 0 <= i < |cells| && table.kind(BlockAt(world, cells[i].cell)).water && geo.contains(cells[i].cell, head)
  }

  /** One more cell of the scan: the flag is the old one or that cell's own test. */
  lemma SwimmingStep(cells: seq<BlockPosition>, i: nat, world: map<Cell, Byte>, table: BlockTable, geo: Geometry, pos: Vec3)
    requires i < |cells|
    ensures Swimming(cells[..i + 1], world, table, geo, pos)
        <==> Swimming(cells[..i], world, table, geo, pos) || (table.kind(BlockAt(world, cells[i].cell)).water && geo.overlaps(cells[i].cell, pos))
  {
    assert cells[..i + 1] == cells[..i] + [cells[i]];
  }

  lemma HeadUnderWaterStep(cells: seq<BlockPosition>, i: nat, world: map<Cell, Byte>, table: BlockTable, geo: Geometry, head: Vec3)
    requires i < |cells|
    ensures HeadUnderWater(cells[..i + 1], world, table, geo, head)
        <==> HeadUnderWater(cells[..i], world, table, geo, head) || (table.kind(BlockAt(world, cells[i].cell)).water && geo.contains(cells[i].cell, head))
  {
    assert cells[..i + 1] == cells[..i] + [cells[i]];
  }
}
