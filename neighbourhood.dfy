/** Player.gatherAdjacentBlockPositions: the 27 cells around a point, nearest first. */
module Neighbourhood {
  import opened Numerics
  import opened Voxels
  import opened Sorting

  /** The centre of the enumeration: each coordinate of origin + 0.5, truncated toward zero. */
  function BaseCell(origin: Vec3): Cell {
    Cell(Trunc(origin.x + 0.5), Trunc(origin.y + 0.5), Trunc(origin.z + 0.5))
  }

  /** `c` lies in the 3x3x3 cube around `base`. */
  predicate InNeighbourhood(c: Cell, base: Cell) {
    -1 <= c.x - base.x <= 1 && -1 <= c.y - base.y <= 1 && -1 <= c.z - base.z <= 1
  }

  /** The i-th position the triple loop appends: x outermost, then z, then y. */
  function NeighbourAt(origin: Vec3, i: int): BlockPosition
    requires 0 <= i < 27
  {
    var b := BaseCell(origin);
    BlockPosition(Cell(b.x + i / 9 - 1, b.y + i % 3 - 1, b.z + i / 3 % 3 - 1), origin)
  }

  /** The list as the loop leaves it, before sorting. */
  function Unsorted(origin: Vec3): seq<BlockPosition> {
    seq(27, i requires 0 <= i < 27 => NeighbourAt(origin, i))
  }

  /** What gatherAdjacentBlockPositions returns. */
  function AdjacentBlockPositions(origin: Vec3, distance: BlockPosition -> real): (r: seq<BlockPosition>)
    ensures |r| == 27
  {
    SortByKey(Unsorted(origin), distance)
  }

  /** The loop counters (x + 1, z + 1, y + 1) are the digits of the index in base 3. */
  lemma LoopIndex(a: int, b: int, c: int)
    requires 0 <= a < 3 && 0 <= b < 3 && 0 <= c < 3
    ensures (9 * a + 3 * b + c) / 9 == a
    ensures (9 * a + 3 * b + c) / 3 % 3 == b
    ensures (9 * a + 3 * b + c) % 3 == c
  {
    assert (9 * a + 3 * b + c) / 3 == 3 * a + b;
  }

  lemma IndexDigits(i: int)
    requires 0 <= i < 27
    ensures i == 9 * (i / 9) + 3 * (i / 3 % 3) + i % 3
    ensures 0 <= i / 9 < 3
  {
    var a, r := i / 9, i % 9;
    assert i == 9 * a + r;
    LoopIndex(a, r / 3, r % 3);
  }

  lemma UnsortedDistinct(origin: Vec3)
    ensures Distinct(Unsorted(origin))
  {
    var s := Unsorted(origin);
    forall i, j | 0 <= i < j < |s|
      ensures s[i] != s[j]
    {
      IndexDigits(i);
      IndexDigits(j);
    }
  }

  /** Every cell of the cube is in the unsorted list, at the index the loop counters give it. */
  lemma UnsortedComplete(origin: Vec3, c: Cell)
    requires InNeighbourhood(c, BaseCell(origin))
    ensures BlockPosition(c, origin) in Unsorted(origin)
  {
    var b := BaseCell(origin);
    var dx, dy, dz := c.x - b.x + 1, c.y - b.y + 1, c.z - b.z + 1;
    LoopIndex(dx, dz, dy);
    assert Unsorted(origin)[9 * dx + 3 * dz + dy] == BlockPosition(c, origin);
  }

  /**
    * The enumerated list holds each of the 27 cells around the truncated base exactly once,
    * every one tagged with the origin, and is ordered nearest first.
    */
  lemma {:induction false} AdjacentBlockPositionsSpec(origin: Vec3, distance: BlockPosition -> real)
    ensures var r := AdjacentBlockPositions(origin, distance);
      && |r| == 27
      && SortedBy(r, distance)
      && Distinct(r)
      && (forall i :: 0 <= i < |r| ==> r[i].origin == origin && InNeighbourhood(r[i].cell, BaseCell(origin)))
      && (forall c :: InNeighbourhood(c, BaseCell(origin)) ==> BlockPosition(c, origin) in r)
  {
    var u := Unsorted(origin);
    var r := AdjacentBlockPositions(origin, distance);
    UnsortedDistinct(origin);
    SortByKeySpec(u, distance);
    DistinctPermutation(u, r);
    forall i | 0 <= i < |r|
      ensures r[i].origin == origin && InNeighbourhood(r[i].cell, BaseCell(origin))
    {
      assert r[i] in multiset(u);
      var k :| 0 <= k < 27 && u[k] == r[i];
      IndexDigits(k);
    }
    forall c | InNeighbourhood(c, BaseCell(origin))
      ensures BlockPosition(c, origin) in r
    {
      UnsortedComplete(origin, c);
      assert BlockPosition(c, origin) in multiset(u);
    }
  }

  /** gatherAdjacentBlockPositions: the triple loop that appends the 27 positions, then the sort. */
  method GatherAdjacentBlockPositions(origin: Vec3, distance: BlockPosition -> real) returns (r: seq<BlockPosition>)
    ensures r == AdjacentBlockPositions(origin, distance)
    ensures |r| == 27 && SortedBy(r, distance) && Distinct(r)
    ensures forall i :: 0 <= i < |r| ==> r[i].origin == origin && InNeighbourhood(r[i].cell, BaseCell(origin))
    ensures forall c :: InNeighbourhood(c, BaseCell(origin)) ==> BlockPosition(c, origin) in r
  {
    var blockPositions: seq<BlockPosition> := [];
    for x := -1 to 2
      invariant blockPositions == Unsorted(origin)[..9 * (x + 1)]
    {
      for z := -1 to 2
        invariant blockPositions == Unsorted(origin)[..9 * (x + 1) + 3 * (z + 1)]
      {
        for y := -1 to 2
          invariant blockPositions == Unsorted(origin)[..9 * (x + 1) + 3 * (z + 1) + (y + 1)]
        {
          var blockPosX := Trunc(origin.x + 0.5) + x;
          var blockPosY := Trunc(origin.y + 0.5) + y;
          var blockPosZ := Trunc(origin.z + 0.5) + z;
          LoopIndex(x + 1, z + 1, y + 1);
          ghost var n := 9 * (x + 1) + 3 * (z + 1) + (y + 1);
          assert Unsorted(origin)[..n + 1] == Unsorted(origin)[..n] + [Unsorted(origin)[n]];
          blockPositions := blockPositions + [BlockPosition(Cell(blockPosX, blockPosY, blockPosZ), origin)];
        }
      }
    }
    assert blockPositions == Unsorted(origin);
    r := SortByKey(blockPositions, distance);
    AdjacentBlockPositionsSpec(origin, distance);
  }
}
