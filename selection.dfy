/** Player.calcSelectedBlock: the nearest ray hit over the 7x7x7 cube around the player. */
module Selection {
  import opened Numerics
  import opened Voxels
  import opened Sorting

  /** The cell whose type is looked up at offset (dx, dy, dz): the offset is added before truncating. */
  function LookupCell(pos: Vec3, dx: int, dy: int, dz: int): Cell {
    Cell(Trunc(pos.x + dx as real), Trunc(pos.y + dy as real), Trunc(pos.z + dz as real))
  }

  /** The cell the ray is tested against at offset (dx, dy, dz): the offset is added after truncating. */
  function RayCell(pos: Vec3, dx: int, dy: int, dz: int): Cell {
    Cell(Trunc(pos.x) + dx, Trunc(pos.y) + dy, Trunc(pos.z) + dz)
  }

  /** Where no coordinate crosses zero the two cells agree. */
  lemma LookupMatchesRayCell(pos: Vec3, dx: int, dy: int, dz: int)
    requires (pos.x >= 0.0 && pos.x + dx as real >= 0.0) || (pos.x <= 0.0 && pos.x + dx as real <= 0.0)
    requires (pos.y >= 0.0 && pos.y + dy as real >= 0.0) || (pos.y <= 0.0 && pos.y + dy as real <= 0.0)
    requires (pos.z >= 0.0 && pos.z + dz as real >= 0.0) || (pos.z <= 0.0 && pos.z + dz as real <= 0.0)
    ensures LookupCell(pos, dx, dy, dz) == RayCell(pos, dx, dy, dz)
  {
    TruncShift(pos.x, dx);
    TruncShift(pos.y, dy);
    TruncShift(pos.z, dz);
  }

  /** At x = -0.5 and offset +1 the type of cell 0 decides whether the ray is cast at cell 1. */
  lemma LookupDiffersFromRayCell()
    ensures LookupCell(Vec3(-0.5, 0.0, 0.0), 1, 0, 0) == Cell(0, 0, 0)
    ensures RayCell(Vec3(-0.5, 0.0, 0.0), 1, 0, 0) == Cell(1, 0, 0)
  {
    assert Trunc(0.5) == 0;
    assert Trunc(-0.5) == 0;
  }

  /** What one scan reads: the block table, the geometry, the world, the player's position, eye and view direction. */
  datatype Scan = Scan(table: BlockTable, geo: Geometry, world: map<Cell, Byte>, pos: Vec3, eye: Vec3, dir: Vec3)

  /**
    * The hits contributed by the cell at offset (dx, dy, dz): none if the looked-up block
    * lets the selection ray through, else those of the ray cell.
    */
  function HitsAt(s: Scan, dx: int, dy: int, dz: int): (r: seq<Intersection>)
    ensures s.table.kind(BlockAt(s.world, LookupCell(s.pos, dx, dy, dz))).letSelectionRayThrough ==> r == []
  {
    if s.table.kind(BlockAt(s.world, LookupCell(s.pos, dx, dy, dz))).letSelectionRayThrough then []
    else s.geo.intersect(s.world, RayCell(s.pos, dx, dy, dz), s.eye, s.dir)
  }

  /** The hits of the first n cells of the row (dx, dy), z counting up from -3. */
  function RowHits(s: Scan, dx: int, dy: int, n: nat): seq<Intersection>
    requires n <= 7
  {
    if n == 0 then [] else RowHits(s, dx, dy, n - 1) + HitsAt(s, dx, dy, n - 4)
  }

  /** The hits of the first n rows of the plane dx, y counting up from -3. */
  function PlaneHits(s: Scan, dx: int, n: nat): seq<Intersection>
    requires n <= 7
  {
    if n == 0 then [] else PlaneHits(s, dx, n - 1) + RowHits(s, dx, n - 4, 7)
  }

  /** The hits of the first n planes of the cube, x counting up from -3. */
  function CubeHits(s: Scan, n: nat): seq<Intersection>
    requires n <= 7
  {
    if n == 0 then [] else CubeHits(s, n - 1) + PlaneHits(s, n - 4, 7)
  }

  /** All hits the scan accumulates, in scan order (x outermost, then y, then z). */
  function Candidates(s: Scan): (r: seq<Intersection>)
    ensures r == [] <==> forall dx, dy, dz :: -3 <= dx <= 3 && -3 <= dy <= 3 && -3 <= dz <= 3 ==> HitsAt(s, dx, dy, dz) == []
  {
    CubeEmptyIff(s, 7);
    CubeHits(s, 7)
  }

  lemma {:induction false} RowEmptyIff(s: Scan, dx: int, dy: int, n: nat)
    requires n <= 7
    ensures RowHits(s, dx, dy, n) == [] <==> forall dz :: -3 <= dz < n - 3 ==> HitsAt(s, dx, dy, dz) == []
  {
    if n > 0 {
      RowEmptyIff(s, dx, dy, n - 1);
      var prefix, last := RowHits(s, dx, dy, n - 1), HitsAt(s, dx, dy, n - 4);
      assert |prefix + last| == |prefix| + |last|;
    }
  }

  lemma {:induction false} PlaneEmptyIff(s: Scan, dx: int, n: nat)
    requires n <= 7
    ensures PlaneHits(s, dx, n) == [] <==>
      forall dy, dz :: -3 <= dy < n - 3 && -3 <= dz <= 3 ==> HitsAt(s, dx, dy, dz) == []
  {
    if n > 0 {
      PlaneEmptyIff(s, dx, n - 1);
      RowEmptyIff(s, dx, n - 4, 7);
      var prefix, last := PlaneHits(s, dx, n - 1), RowHits(s, dx, n - 4, 7);
      assert |prefix + last| == |prefix| + |last|;
    }
  }

  /** The scan collects nothing exactly when no cell it looks at yields a hit. */
  lemma {:induction false} CubeEmptyIff(s: Scan, n: nat)
    requires n <= 7
    ensures CubeHits(s, n) == [] <==>
      forall dx, dy, dz :: -3 <= dx < n - 3 && -3 <= dy <= 3 && -3 <= dz <= 3 ==> HitsAt(s, dx, dy, dz) == []
  {
    if n > 0 {
      CubeEmptyIff(s, n - 1);
      PlaneEmptyIff(s, n - 4, 7);
      var prefix, last := CubeHits(s, n - 1), PlaneHits(s, n - 4, 7);
      assert |prefix + last| == |prefix| + |last|;
    }
  }

  /** Sort the hits by distance and take the first, or nothing if there are none. */
  function Nearest(cands: seq<Intersection>): (r: Option<Intersection>)
    ensures r.None? <==> cands == []
  {
    var sorted := SortByKey(cands, IntersectionDistance);
    if |sorted| > 0 then Some(sorted[0]) else None
  }

  /** The selected hit is one of the candidates, and none is nearer. */
  lemma NearestIsClosest(cands: seq<Intersection>)
    ensures Nearest(cands).None? <==> cands == []
    ensures Nearest(cands).Some? ==>
      Nearest(cands).value in cands &&
      forall c :: c in cands ==> Nearest(cands).value.distance <= c.distance
  {
    var sorted := SortByKey(cands, IntersectionDistance);
    SortByKeySpec(cands, IntersectionDistance);
    if |sorted| > 0 {
      assert sorted[0] in multiset(cands);
      forall c | c in cands
        ensures sorted[0].distance <= c.distance
      {
        assert c in multiset(sorted);
        var k :| 0 <= k < |sorted| && sorted[k] == c;
        if k > 0 {
          assert IntersectionDistance(sorted[0]) <= IntersectionDistance(sorted[k]);
        }
      }
    }
  }

  /**
    * calcSelectedBlock returns nothing exactly when no scanned cell yields a hit, and otherwise
    * one of the collected hits with no collected hit nearer.
    */
  lemma SelectionSpec(s: Scan)
    ensures Nearest(Candidates(s)).None? <==>
      forall dx, dy, dz :: -3 <= dx <= 3 && -3 <= dy <= 3 && -3 <= dz <= 3 ==> HitsAt(s, dx, dy, dz) == []
    ensures Nearest(Candidates(s)).Some? ==>
      Nearest(Candidates(s)).value in Candidates(s) &&
      forall c :: c in Candidates(s) ==> Nearest(Candidates(s)).value.distance <= c.distance
  {
    NearestIsClosest(Candidates(s));
    CubeEmptyIff(s, 7);
  }
}
