/**
  * The values the player works with and the collaborators it consults: the world grid
  * (a class, since placing and removing blocks writes to it), the block-type table,
  * the configuration, and the geometry of the AABB and RayBlockIntersection classes,
  * which are not part of this model and appear here only as functions.
  */
module Voxels {
  import opened Numerics

  datatype Option<+T> = None | Some(value: T)

  /** A Vector3f, with real coordinates. */
  datatype Vec3 = Vec3(x: real, y: real, z: real)

  const Zero: Vec3 := Vec3(0.0, 0.0, 0.0)

  /** An integer voxel coordinate. */
  datatype Cell = Cell(x: int, y: int, z: int)

  /** A voxel coordinate tagged with the point it is ranked against (BlockPosition). */
  datatype BlockPosition = BlockPosition(cell: Cell, origin: Vec3)

  /**
    * A ray/voxel hit (RayBlockIntersection.Intersection): the struck cell, the cell just
    * outside the struck face (calcAdjacentBlockPos), and the key it is ordered by.
    */
  datatype Intersection = Intersection(blockPosition: Cell, adjacentBlockPosition: Cell, distance: real)

  function IntersectionDistance(i: Intersection): real {
    i.distance
  }

  /** The capabilities of one block type (Block.getBlockForType). */
  datatype BlockKind = BlockKind(
    penetrable: bool,
    water: bool,
    letSelectionRayThrough: bool,
    playerCanAttachBlocks: bool)

  /** The static block-type table: the kind of each type and Block.getBlockCount(). */
  datatype BlockTable = BlockTable(kind: Byte -> BlockKind, count: int)

  /** The settings read through Configuration. */
  datatype Config = Config(
    walkingSpeed: real,
    runningFactor: real,
    friction: real,
    gravity: real,
    maxGravity: real,
    gravitySwimming: real,
    maxGravitySwimming: real,
    jumpIntensity: real,
    mouseSens: real,
    godMode: bool,
    demoFlight: bool)

  /**
    * The geometry the player delegates to classes outside this model.
    * - distance: the key BlockPosition.compareTo orders by (distance of the cell to its origin);
    * - overlaps(c, p): the unit AABB of cell c overlaps the player's AABB centred at p;
    * - contains(c, p): the unit AABB of cell c contains the point p;
    * - intersect(w, c, eye, dir): RayBlockIntersection.executeIntersection, the hits of the ray
    *   from eye along dir on cell c (an empty list standing for null);
    * - closestOnBlock(c, p): AABB.closestPointOnAABBToPoint on the AABB of cell c;
    * - closestOnPlayer(centre, p): the same on the player's AABB centred at centre;
    * - faceNormal(c, poi, origin): AABB.normalForPlaneClosestToOrigin restricted to x and z;
    * - maxHeightAt(w, x, z): World.maxHeightAt.
    */
  datatype Geometry = Geometry(
    distance: BlockPosition -> real,
    overlaps: (Cell, Vec3) -> bool,
    contains: (Cell, Vec3) -> bool,
    intersect: (map<Cell, Byte>, Cell, Vec3, Vec3) -> seq<Intersection>,
    closestOnBlock: (Cell, Vec3) -> Vec3,
    closestOnPlayer: (Vec3, Vec3) -> Vec3,
    faceNormal: (Cell, Vec3, Vec3) -> Vec3,
    maxHeightAt: (map<Cell, Byte>, int, int) -> int)

  /** The block type at a cell; cells never written read as air (type 0). */
  function BlockAt(world: map<Cell, Byte>, c: Cell): Byte {
    if c in world then world[c] else 0
  }

  /** The voxel grid the player lives in. */
  class World {
    var blocks: map<Cell, Byte>

    constructor (blocks: map<Cell, Byte>)
      ensures this.blocks == blocks
    {
      this.blocks := blocks;
    }

    function GetBlock(c: Cell): Byte
      reads this
    {
      BlockAt(blocks, c)
    }

    /** World.setBlock: writes one cell and nothing else. */
    method SetBlock(c: Cell, t: Byte)
      modifies this
      ensures blocks == old(blocks)[c := t]
      ensures GetBlock(c) == t
      ensures forall d :: d != c ==> GetBlock(d) == old(GetBlock(d))
    {
      blocks := blocks[c := t];
    }
  }
}
