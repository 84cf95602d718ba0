/**
 * The cloud layer (meshes/cloud_mesh.py).
 *
 * A flat grid of WIDTH x DEPTH cells, one per world column, is marked 1 where a noise value
 * reaches a threshold. The mesh builder then covers the marked cells with rectangles chosen
 * greedily in row-major order: from the first unvisited cloud cell it extends a run along x,
 * extends every column of the run along z, keeps the shortest column, marks the rectangle as
 * visited and emits it as two triangles (18 entries) at the cloud height.
 */
module Clouds {
  import opened Settings

  const WIDTH: int := WORLD_WIDTH * CHUNK_SIZE
  const DEPTH: int := WORLD_DEPTH * CHUNK_SIZE
  /** The size of the cloud array: one cell per world column (cloud_mesh.py:36). */
  const CELLS: int := WORLD_AREA * CHUNK_SIZE * CHUNK_SIZE
  /** The size of the preallocated mesh buffer: six vertices of three attributes per cell. */
  const MESH_CAPACITY: int := WORLD_AREA * CHUNK_AREA * 6 * 3

  const NOISE_SCALE: real := 0.13
  const CLOUD_THRESHOLD: real := 0.2

  lemma Sizes()
    ensures 0 < WIDTH && 0 < DEPTH && CELLS == WIDTH * DEPTH && MESH_CAPACITY == 18 * CELLS
  {
  }

  // ---------------------------------------------------------------------------
  // Cells
  // ---------------------------------------------------------------------------

  predicate InGrid(a: int, b: int)
  {
    0 <= a < WIDTH && 0 <= b < DEPTH
  }

  /** The array index of column a, row b: x fastest. The column and the row are recovered by
      remainder and quotient, so distinct cells have distinct indices. */
  function Cell(a: int, b: int): (i: int)
    requires InGrid(a, b)
    ensures 0 <= i < CELLS
    ensures i % WIDTH == a && i / WIDTH == b
  {
    Sizes();
    assert WIDTH * b <= WIDTH * (DEPTH - 1);
    a + WIDTH * b
  }

  /** Every index of the cloud array is the cell of its remainder and quotient. */
  lemma IndexIsCell(i: int)
    requires 0 <= i < CELLS
    ensures InGrid(i % WIDTH, i / WIDTH) && Cell(i % WIDTH, i / WIDTH) == i
  {
    Sizes();
  }

  /** The set of cloud cells. */
  function CloudCells(cloud: seq<int>): set<int>
  {
    set i | 0 <= i < |cloud| && cloud[i] != 0
  }

  // ---------------------------------------------------------------------------
  // Generation
  // ---------------------------------------------------------------------------

  /** Whether generate_clouds marks column a, row b. */
  predicate Cloudy(noise: (real, real) -> real, a: int, b: int)
  {
    noise(NOISE_SCALE * a as real, NOISE_SCALE * b as real) >= CLOUD_THRESHOLD
  }

  /** generate_clouds: marks every cell whose noise value reaches the threshold with 1 and
      leaves every other cell as it was. The noise function is a parameter. */
  method GenerateClouds(cloud: array<int>, noise: (real, real) -> real)
    requires cloud.Length == CELLS
    modifies cloud
    ensures forall a, b :: InGrid(a, b) ==>
              cloud[Cell(a, b)] == if Cloudy(noise, a, b) then 1 else old(cloud[Cell(a, b)])
  {
    for x := 0 to WIDTH
      invariant forall a, b :: InGrid(a, b) ==>
                  cloud[Cell(a, b)] == if a < x && Cloudy(noise, a, b) then 1 else old(cloud[Cell(a, b)])
    {
      for z := 0 to DEPTH
        invariant forall a, b :: InGrid(a, b) ==>
                    cloud[Cell(a, b)] ==
                      if (a < x || (a == x && b < z)) && Cloudy(noise, a, b) then 1
                      else old(cloud[Cell(a, b)])
      {
        if noise(NOISE_SCALE * x as real, NOISE_SCALE * z as real) < CLOUD_THRESHOLD {
          continue;
        }
        cloud[x + WIDTH * z] := 1;
      }
    }
  }

  /** The cell of every index holds its generated value. */
  lemma GeneratedCell(cloud: seq<int>, before: seq<int>, noise: (real, real) -> real, i: int)
    requires |cloud| == |before| == CELLS && 0 <= i < CELLS
    requires forall a, b :: InGrid(a, b) ==>
               cloud[Cell(a, b)] == if Cloudy(noise, a, b) then 1 else before[Cell(a, b)]
    ensures cloud[i] == if Cloudy(noise, i % WIDTH, i / WIDTH) then 1 else before[i]
  {
    IndexIsCell(i);
  }

  // ---------------------------------------------------------------------------
  // Rectangles
  // ---------------------------------------------------------------------------

  /** A rectangle of cells: columns x .. x + xCount - 1, rows z .. z + zCount - 1. */
  datatype Quad = Quad(x: int, z: int, xCount: int, zCount: int)

  predicate InQuad(q: Quad, a: int, b: int)
  {
    q.x <= a < q.x + q.xCount && q.z <= b < q.z + q.zCount
  }

  predicate QuadInGrid(q: Quad)
  {
    1 <= q.xCount && 1 <= q.zCount && 0 <= q.x && q.x + q.xCount <= WIDTH
    && 0 <= q.z && q.z + q.zCount <= DEPTH
  }

  ghost predicate QuadIsCloud(cloud: seq<int>, q: Quad)
    requires |cloud| == CELLS && QuadInGrid(q)
  {
    forall a, b :: InQuad(q, a, b) ==> cloud[Cell(a, b)] != 0
  }

  ghost predicate Disjoint(p: Quad, q: Quad)
  {
    forall a, b :: InQuad(p, a, b) ==> !InQuad(q, a, b)
  }

  /** Whether some rectangle of the list holds the cell. */
  function Covered(quads: seq<Quad>, a: int, b: int): bool
  {
    |quads| > 0 && (Covered(quads[..|quads| - 1], a, b) || InQuad(quads[|quads| - 1], a, b))
  }

  /** Covered is membership in some rectangle of the list. */
  lemma {:induction false} CoveredIff(quads: seq<Quad>, a: int, b: int)
    ensures Covered(quads, a, b) <==> exists k :: 0 <= k < |quads| && InQuad(quads[k], a, b)
  {
    if |quads| > 0 {
      var init := quads[..|quads| - 1];
      CoveredIff(init, a, b);
      if exists k :: 0 <= k < |quads| && InQuad(quads[k], a, b) {
        var k :| 0 <= k < |quads| && InQuad(quads[k], a, b);
        if k < |init| {
          assert init[k] == quads[k];
        }
      }
      if Covered(init, a, b) {
        var k :| 0 <= k < |init| && InQuad(init[k], a, b);
        assert quads[k] == init[k];
      }
    }
  }

  /** The rectangles tile exactly the cloud cells: each lies in the grid and holds only cloud
      cells, no two share a cell, and every cloud cell lies in one of them. */
  ghost predicate CloudTiles(cloud: seq<int>, quads: seq<Quad>)
    requires |cloud| == CELLS
  {
    (forall k :: 0 <= k < |quads| ==> QuadInGrid(quads[k]) && QuadIsCloud(cloud, quads[k]))
    && (forall j, k :: 0 <= j < k < |quads| ==> Disjoint(quads[j], quads[k]))
    && (forall a, b :: InGrid(a, b) ==> (cloud[Cell(a, b)] != 0 <==> Covered(quads, a, b)))
  }

  // ---------------------------------------------------------------------------
  // Mesh data of a rectangle
  // ---------------------------------------------------------------------------

  /** The six vertices v0, v1, v2, v0, v3, v1 of a rectangle at height y. */
  function QuadVertices(q: Quad, y: int): (vs: seq<IVec3>)
    ensures |vs| == 6
  {
    var v0 := IVec3(q.x, y, q.z);
    var v1 := IVec3(q.x + q.xCount, y, q.z + q.zCount);
    var v2 := IVec3(q.x + q.xCount, y, q.z);
    var v3 := IVec3(q.x, y, q.z + q.zCount);
    [v0, v1, v2, v0, v3, v1]
  }

  /** The attributes of a list of vertices, three per vertex. */
  function Coords(vs: seq<IVec3>): (r: seq<int>)
    ensures |r| == 3 * |vs|
  {
    if |vs| == 0 then [] else
      var v := vs[|vs| - 1];
      Coords(vs[..|vs| - 1]) + [v.x, v.y, v.z]
  }

  function QuadData(q: Quad, y: int): (r: seq<int>)
    ensures |r| == 18
  {
    Coords(QuadVertices(q, y))
  }

  /** The layout of one rectangle's entries: the corners of the rectangle, each at height y. */
  lemma QuadDataLayout(q: Quad, y: int)
    ensures QuadData(q, y) ==
              [q.x, y, q.z,  q.x + q.xCount, y, q.z + q.zCount,  q.x + q.xCount, y, q.z,
               q.x, y, q.z,  q.x, y, q.z + q.zCount,  q.x + q.xCount, y, q.z + q.zCount]
    ensures forall k :: 0 <= k < 6 ==> QuadData(q, y)[3 * k + 1] == y
  {
    var vs := QuadVertices(q, y);
    var c := [vs[0].x, vs[0].y, vs[0].z, vs[1].x, vs[1].y, vs[1].z, vs[2].x, vs[2].y, vs[2].z,
              vs[3].x, vs[3].y, vs[3].z, vs[4].x, vs[4].y, vs[4].z, vs[5].x, vs[5].y, vs[5].z];
    assert vs[..1][..0] == [];
    assert Coords(vs[..1]) == c[..3];
    assert vs[..2][..1] == vs[..1];
    assert Coords(vs[..2]) == c[..6];
    assert vs[..3][..2] == vs[..2];
    assert Coords(vs[..3]) == c[..9];
    assert vs[..4][..3] == vs[..3];
    assert Coords(vs[..4]) == c[..12];
    assert vs[..5][..4] == vs[..4];
    assert Coords(vs[..5]) == c[..15];
    assert vs[..5] == vs[..|vs| - 1];
    assert Coords(vs) == c;
  }

  /** Twice the signed area of the triangle (p, q, r) in the horizontal plane. */
  function Area2(p: IVec3, q: IVec3, r: IVec3): int
  {
    (q.x - p.x) * (r.z - p.z) - (q.z - p.z) * (r.x - p.x)
  }

  /** The two triangles (v0, v1, v2) and (v0, v3, v1) have the same winding and together
      cover the rectangle's area. */
  lemma QuadTrianglesAgree(q: Quad, y: int)
    requires 1 <= q.xCount && 1 <= q.zCount
    ensures var vs := QuadVertices(q, y);
            Area2(vs[0], vs[1], vs[2]) == Area2(vs[3], vs[4], vs[5]) == -(q.xCount * q.zCount)
            && Area2(vs[0], vs[1], vs[2]) < 0
  {
    var vs := QuadVertices(q, y);
    assert Area2(vs[0], vs[1], vs[2]) == q.xCount * 0 - q.zCount * q.xCount;
    assert Area2(vs[3], vs[4], vs[5]) == 0 * q.zCount - q.zCount * q.xCount;
  }

  /** The entries of a list of rectangles, in order. */
  function QuadsData(quads: seq<Quad>, y: int): (r: seq<int>)
    ensures |r| == 18 * |quads|
  {
    if |quads| == 0 then [] else QuadsData(quads[..|quads| - 1], y) + QuadData(quads[|quads| - 1], y)
  }

  // ---------------------------------------------------------------------------
  // Set cardinality
  // ---------------------------------------------------------------------------

  /** A set of indices below n has at most n elements. */
  lemma {:induction false} RangeBound(s: set<int>, n: nat)
    requires forall i :: i in s ==> 0 <= i < n
    ensures |s| <= n
  {
    if n > 0 {
      var rest := s - {n - 1};
      RangeBound(rest, n - 1);
      if n - 1 in s {
        assert s == rest + {n - 1};
      } else {
        assert s == rest;
      }
    } else {
      assert forall i :: i !in s;
      assert s == {};
    }
  }

  /** A subset of a set of indices below n is no larger than the set. */
  lemma {:induction false} SubsetCard(a: set<int>, b: set<int>, n: nat)
    requires a <= b && forall i :: i in b ==> 0 <= i < n
    ensures |a| <= |b|
  {
    if n > 0 {
      var a', b' := a - {n - 1}, b - {n - 1};
      SubsetCard(a', b', n - 1);
      if n - 1 in a {
        assert a == a' + {n - 1} && b == b' + {n - 1};
      } else if n - 1 in b {
        assert a == a' && b == b' + {n - 1};
      } else {
        assert a == a' && b == b';
      }
    } else {
      assert forall i :: i !in b;
      assert a == {} && b == {};
    }
  }

  // ---------------------------------------------------------------------------
  // The greedy scan, step by step
  // ---------------------------------------------------------------------------

  /** The invariant of the scan: visited cells are cloud cells and are exactly the cells of the
      rectangles emitted so far; those rectangles lie in the grid, hold only cloud cells and
      share no cell; each added at least one new visited cell. */
  ghost predicate Tiling(cloud: seq<int>, visited: set<int>, quads: seq<Quad>)
    requires |cloud| == CELLS
  {
    (forall i :: i in visited ==> 0 <= i < CELLS && cloud[i] != 0)
    && (forall a, b :: InGrid(a, b) ==> (Cell(a, b) in visited <==> Covered(quads, a, b)))
    && (forall k :: 0 <= k < |quads| ==> QuadInGrid(quads[k]) && QuadIsCloud(cloud, quads[k]))
    && (forall j, k :: 0 <= j < k < |quads| ==> Disjoint(quads[j], quads[k]))
    && |quads| <= |visited|
  }

  /** Every cell of the rectangle is a cloud cell not yet visited. */
  ghost predicate Fresh(cloud: seq<int>, visited: set<int>, q: Quad)
    requires |cloud| == CELLS && QuadInGrid(q)
  {
    forall a, b :: InQuad(q, a, b) ==> cloud[Cell(a, b)] != 0 && Cell(a, b) !in visited
  }

  /** marked is visited plus exactly the cells of the rectangle. */
  ghost predicate Marked(visited: set<int>, marked: set<int>, q: Quad)
  {
    (forall a, b :: InGrid(a, b) ==> (Cell(a, b) in marked <==> Cell(a, b) in visited || InQuad(q, a, b)))
    && (forall i :: i in marked ==> i in visited || (0 <= i < CELLS && InQuad(q, i % WIDTH, i / WIDTH)))
    && |marked| >= |visited| + 1
  }

  /** The cell stops a run of the scan: it lies outside the grid, is not a cloud cell, or is
      already visited (the while conditions of cloud_mesh.py:101 and :110). */
  ghost predicate Blocked(cloud: seq<int>, visited: set<int>, a: int, b: int)
    requires |cloud| == CELLS
  {
    !InGrid(a, b) || cloud[Cell(a, b)] == 0 || Cell(a, b) in visited
  }

  /** The greedy choice at the rectangle's corner (cloud_mesh.py:98-118): its cells are fresh,
      the x run stops at the first blocked cell of its row, and zCount is the smallest column
      extension, so some column of the run is blocked at row z + zCount. */
  ghost predicate Greedy(cloud: seq<int>, visited: set<int>, q: Quad)
    requires |cloud| == CELLS && QuadInGrid(q)
  {
    Fresh(cloud, visited, q)
    && Blocked(cloud, visited, q.x + q.xCount, q.z)
    && exists a :: q.x <= a < q.x + q.xCount && BlockedBelow(cloud, visited, q, a)
  }

  /** Column a is blocked in the row just below the rectangle. */
  ghost predicate BlockedBelow(cloud: seq<int>, visited: set<int>, q: Quad, a: int)
    requires |cloud| == CELLS
  {
    Blocked(cloud, visited, a, q.z + q.zCount)
  }

  /** Every cloud cell before (x, z) in the scan's row-major order is visited. */
  ghost predicate ScannedBefore(cloud: seq<int>, visited: set<int>, x: int, z: int)
    requires |cloud| == CELLS
  {
    forall a, b :: InGrid(a, b) && (b < z || (b == z && a < x)) && cloud[Cell(a, b)] != 0 ==>
      Cell(a, b) in visited
  }

  /** The cells of a list of rectangles, as the visited set holds them. */
  ghost function CellsOf(quads: seq<Quad>): set<int>
  {
    set i | 0 <= i < CELLS && Covered(quads, i % WIDTH, i / WIDTH)
  }

  /** The rectangles are the ones the scan emits, in its order: each starts at the first cloud
      cell that the earlier ones leave uncovered and is the greedy rectangle there. */
  ghost predicate GreedyScan(cloud: seq<int>, quads: seq<Quad>)
    requires |cloud| == CELLS
  {
    forall k :: 0 <= k < |quads| ==> ScanStep(cloud, CellsOf(quads[..k]), quads[k])
  }

  /** q is the rectangle the scan places once visited holds the earlier rectangles' cells. */
  ghost predicate ScanStep(cloud: seq<int>, visited: set<int>, q: Quad)
    requires |cloud| == CELLS
  {
    QuadInGrid(q) && Greedy(cloud, visited, q) && ScannedBefore(cloud, visited, q.x, q.z)
  }

  /** An unvisited cloud cell or a visited one: either way the scan moves past it. */
  lemma ScannedNext(cloud: seq<int>, visited: set<int>, marked: set<int>, x: int, z: int)
    requires |cloud| == CELLS && InGrid(x, z) && ScannedBefore(cloud, visited, x, z) && visited <= marked
    requires cloud[Cell(x, z)] == 0 || Cell(x, z) in marked
    ensures ScannedBefore(cloud, marked, x + 1, z)
  {
  }

  /** The end of row z is the start of row z + 1. */
  lemma ScannedRowEnd(cloud: seq<int>, visited: set<int>, z: int)
    requires |cloud| == CELLS && ScannedBefore(cloud, visited, WIDTH, z)
    ensures ScannedBefore(cloud, visited, 0, z + 1)
  {
  }

  /** The scan's visited set is the set of cells of the rectangles emitted so far. */
  lemma VisitedIsCells(cloud: seq<int>, visited: set<int>, quads: seq<Quad>)
    requires |cloud| == CELLS && Tiling(cloud, visited, quads)
    ensures visited == CellsOf(quads)
  {
    forall i | 0 <= i < CELLS
      ensures i in visited <==> i in CellsOf(quads)
    {
      IndexIsCell(i);
    }
  }

  /** A fresh cell of a rectangle does not stop a run. */
  lemma FreshNotBlocked(cloud: seq<int>, visited: set<int>, q: Quad, a: int, b: int)
    requires |cloud| == CELLS && QuadInGrid(q) && Fresh(cloud, visited, q)
    ensures InQuad(q, a, b) ==> !Blocked(cloud, visited, a, b)
  {
  }

  /** The greedy rectangle at a corner is unique: the run and the smallest extension leave no
      choice. */
  lemma GreedyUnique(cloud: seq<int>, visited: set<int>, p: Quad, q: Quad)
    requires |cloud| == CELLS && QuadInGrid(p) && QuadInGrid(q) && p.x == q.x && p.z == q.z
    requires Greedy(cloud, visited, p) && Greedy(cloud, visited, q)
    ensures p == q
  {
    FreshNotBlocked(cloud, visited, q, p.x + p.xCount, p.z);
    FreshNotBlocked(cloud, visited, p, q.x + q.xCount, q.z);
    assert p.xCount == q.xCount;
    var a :| p.x <= a < p.x + p.xCount && BlockedBelow(cloud, visited, p, a);
    var b :| q.x <= b < q.x + q.xCount && BlockedBelow(cloud, visited, q, b);
    FreshNotBlocked(cloud, visited, q, a, p.z + p.zCount);
    FreshNotBlocked(cloud, visited, p, b, q.z + q.zCount);
  }

  /** Two unvisited cloud cells that both come first in the scan order are the same cell. */
  lemma FirstUnvisitedUnique(cloud: seq<int>, visited: set<int>, x1: int, z1: int, x2: int, z2: int)
    requires |cloud| == CELLS && InGrid(x1, z1) && InGrid(x2, z2)
    requires cloud[Cell(x1, z1)] != 0 && Cell(x1, z1) !in visited && ScannedBefore(cloud, visited, x1, z1)
    requires cloud[Cell(x2, z2)] != 0 && Cell(x2, z2) !in visited && ScannedBefore(cloud, visited, x2, z2)
    ensures x1 == x2 && z1 == z2
  {
  }

  /** Rectangle k of a greedy scan is the scan's step after the earlier ones. */
  lemma ScanAt(cloud: seq<int>, quads: seq<Quad>, k: int)
    requires |cloud| == CELLS && GreedyScan(cloud, quads) && 0 <= k < |quads|
    ensures ScanStep(cloud, CellsOf(quads[..k]), quads[k])
  {
  }

  /** Agreeing prefixes that agree on the next element agree one further. */
  lemma PrefixExtend(p: seq<Quad>, q: seq<Quad>, n: int)
    requires 0 < n <= |p| && n <= |q| && p[..n - 1] == q[..n - 1] && p[n - 1] == q[n - 1]
    ensures p[..n] == q[..n]
  {
    assert p[..n] == p[..n - 1] + [p[n - 1]];
    assert q[..n] == q[..n - 1] + [q[n - 1]];
  }

  /** Two scans that agree before rectangle k agree on it as well. */
  lemma PrefixStep(cloud: seq<int>, p: seq<Quad>, q: seq<Quad>, k: int, vp: set<int>, vq: set<int>)
    requires |cloud| == CELLS && 0 <= k < |p| && k < |q| && p[..k] == q[..k]
    requires vp == CellsOf(p[..k]) && vq == CellsOf(q[..k])
    requires ScanStep(cloud, vp, p[k]) && ScanStep(cloud, vq, q[k])
    ensures p[..k + 1] == q[..k + 1]
  {
    ScanStepUnique(cloud, vp, p[k], q[k]);
    PrefixExtend(p, q, k + 1);
  }

  /** The scan places one rectangle for a given visited set. */
  lemma ScanStepUnique(cloud: seq<int>, visited: set<int>, p: Quad, q: Quad)
    requires |cloud| == CELLS && ScanStep(cloud, visited, p) && ScanStep(cloud, visited, q)
    ensures p == q
  {
    assert InQuad(p, p.x, p.z) && InQuad(q, q.x, q.z);
    FirstUnvisitedUnique(cloud, visited, p.x, p.z, q.x, q.z);
    GreedyUnique(cloud, visited, p, q);
  }

  /** The scan's first n rectangles are determined by the cloud grid. */
  lemma {:induction false} GreedyScanPrefix(cloud: seq<int>, p: seq<Quad>, q: seq<Quad>, n: int)
    requires |cloud| == CELLS && GreedyScan(cloud, p) && GreedyScan(cloud, q)
    requires 0 <= n <= |p| && n <= |q|
    ensures p[..n] == q[..n]
  {
    if n > 0 {
      GreedyScanPrefix(cloud, p, q, n - 1);
      ScanAt(cloud, p, n - 1);
      ScanAt(cloud, q, n - 1);
      PrefixStep(cloud, p, q, n - 1, CellsOf(p[..n - 1]), CellsOf(q[..n - 1]));
    }
  }

  /** A scan that tiles the cloud cells is complete: no rectangle follows a tiling prefix. */
  lemma ScanStopsAtTiling(cloud: seq<int>, p: seq<Quad>, q: seq<Quad>)
    requires |cloud| == CELLS && CloudTiles(cloud, p) && GreedyScan(cloud, q)
    requires |p| <= |q| && q[..|p|] == p
    ensures |q| == |p|
  {
    if |p| < |q| {
      var r := q[|p|];
      assert InQuad(r, r.x, r.z);
      assert Cell(r.x, r.z) !in CellsOf(p);
      IndexIsCell(Cell(r.x, r.z));
      assert false;
    }
  }

  /** The mesh is determined by the cloud grid: two lists of rectangles that each tile the cloud
      cells in the scan's greedy order are the same list. */
  lemma GreedyScanDetermined(cloud: seq<int>, p: seq<Quad>, q: seq<Quad>)
    requires |cloud| == CELLS
    requires CloudTiles(cloud, p) && GreedyScan(cloud, p)
    requires CloudTiles(cloud, q) && GreedyScan(cloud, q)
    ensures p == q
  {
    if |p| <= |q| {
      GreedyScanPrefix(cloud, p, q, |p|);
      assert p[..|p|] == p;
      ScanStopsAtTiling(cloud, p, q);
      assert q[..|q|] == q;
    } else {
      GreedyScanPrefix(cloud, p, q, |q|);
      assert q[..|q|] == q;
      ScanStopsAtTiling(cloud, q, p);
    }
  }

  /** Adding the greedy rectangle at the first unvisited cloud cell extends the scan. */
  lemma AddQuadKeepsScan(cloud: seq<int>, visited: set<int>, quads: seq<Quad>, q: Quad)
    requires |cloud| == CELLS && Tiling(cloud, visited, quads) && GreedyScan(cloud, quads)
    requires QuadInGrid(q) && Greedy(cloud, visited, q) && ScannedBefore(cloud, visited, q.x, q.z)
    ensures GreedyScan(cloud, quads + [q])
  {
    var quads2 := quads + [q];
    VisitedIsCells(cloud, visited, quads);
    forall k | 0 <= k < |quads2|
      ensures ScanStep(cloud, CellsOf(quads2[..k]), quads2[k])
    {
      assert quads2[..k] == quads[..k] || k == |quads|;
      if k == |quads| {
        assert quads2[..k] == quads;
      }
    }
  }

  lemma CoveredByMember(quads: seq<Quad>, k: int, a: int, b: int)
    requires 0 <= k < |quads| && InQuad(quads[k], a, b)
    ensures Covered(quads, a, b)
  {
    CoveredIff(quads, a, b);
  }

  /** Adding a fresh rectangle and marking its cells keeps the scan's invariant. */
  lemma AddQuadKeepsTiling(cloud: seq<int>, visited: set<int>, quads: seq<Quad>, q: Quad, marked: set<int>)
    requires |cloud| == CELLS && Tiling(cloud, visited, quads)
    requires QuadInGrid(q) && Fresh(cloud, visited, q) && Marked(visited, marked, q)
    ensures Tiling(cloud, marked, quads + [q])
  {
    var quads2 := quads + [q];
    assert quads2[..|quads|] == quads;
    forall i | i in marked
      ensures 0 <= i < CELLS && cloud[i] != 0
    {
      if i !in visited {
        IndexIsCell(i);
      }
    }
    forall a, b | InGrid(a, b)
      ensures Cell(a, b) in marked <==> Covered(quads2, a, b)
    {
    }
    forall j, k | 0 <= j < k < |quads2|
      ensures Disjoint(quads2[j], quads2[k])
    {
      if k == |quads| {
        forall a, b | InQuad(quads2[j], a, b)
          ensures !InQuad(q, a, b)
        {
          CoveredByMember(quads, j, a, b);
        }
      }
    }
  }

  /** x extension (cloud_mesh.py:99-103): the longest run of unvisited cloud cells in row z
      starting at column x. */
  method ExtendRun(cloud: array<int>, visited: set<int>, x: int, z: int) returns (xCount: int)
    requires cloud.Length == CELLS && InGrid(x, z)
    requires cloud[Cell(x, z)] != 0 && Cell(x, z) !in visited
    ensures 1 <= xCount && x + xCount <= WIDTH
    ensures forall a :: x <= a < x + xCount ==> cloud[Cell(a, z)] != 0 && Cell(a, z) !in visited
    ensures x + xCount == WIDTH || cloud[Cell(x + xCount, z)] == 0 || Cell(x + xCount, z) in visited
  {
    xCount := 1;
    var idx := (x + xCount) + WIDTH * z;
    while x + xCount < WIDTH && cloud[idx] != 0 && idx !in visited
      invariant 1 <= xCount && x + xCount <= WIDTH
      invariant x + xCount < WIDTH ==> idx == Cell(x + xCount, z)
      invariant forall a :: x <= a < x + xCount ==> cloud[Cell(a, z)] != 0 && Cell(a, z) !in visited
      decreases WIDTH - xCount
    {
      xCount := xCount + 1;
      idx := (x + xCount) + WIDTH * z;
    }
  }

  /** z extension of one column (cloud_mesh.py:108-114): the longest run of unvisited cloud
      cells in column a below row z. */
  method ExtendColumn(cloud: array<int>, visited: set<int>, a: int, z: int) returns (zCount: int)
    requires cloud.Length == CELLS && InGrid(a, z)
    ensures 1 <= zCount && z + zCount <= DEPTH
    ensures forall b :: z < b < z + zCount ==> cloud[Cell(a, b)] != 0 && Cell(a, b) !in visited
    ensures z + zCount == DEPTH || cloud[Cell(a, z + zCount)] == 0 || Cell(a, z + zCount) in visited
  {
    zCount := 1;
    var idx := a + WIDTH * (z + zCount);
    while z + zCount < DEPTH && cloud[idx] != 0 && idx !in visited
      invariant 1 <= zCount && z + zCount <= DEPTH
      invariant z + zCount < DEPTH ==> idx == Cell(a, z + zCount)
      invariant forall b :: z < b < z + zCount ==> cloud[Cell(a, b)] != 0 && Cell(a, b) !in visited
      decreases DEPTH - zCount
    {
      zCount := zCount + 1;
      idx := a + WIDTH * (z + zCount);
    }
  }

  /** Rows z + 1 .. z + n - 1 of column a hold unvisited cloud cells. */
  ghost predicate ColumnFresh(cloud: seq<int>, visited: set<int>, a: int, z: int, n: int)
    requires |cloud| == CELLS && 0 <= a < WIDTH && 0 <= z && z + n <= DEPTH
  {
    forall b :: z < b < z + n ==> cloud[Cell(a, b)] != 0 && Cell(a, b) !in visited
  }

  /** The z extension of every column of the run (cloud_mesh.py:106-115). */
  method ColumnExtents(cloud: array<int>, visited: set<int>, x: int, z: int, xCount: int)
    returns (zCounts: seq<int>)
    requires cloud.Length == CELLS && InGrid(x, z) && 1 <= xCount && x + xCount <= WIDTH
    ensures |zCounts| == xCount
    ensures forall k :: 0 <= k < xCount ==> 1 <= zCounts[k] && z + zCounts[k] <= DEPTH
    ensures forall k :: 0 <= k < xCount ==> ColumnFresh(cloud[..], visited, x + k, z, zCounts[k])
    ensures forall k :: 0 <= k < xCount ==> Blocked(cloud[..], visited, x + k, z + zCounts[k])
  {
    zCounts := [];
    for ix := 0 to xCount
      invariant |zCounts| == ix
      invariant forall k :: 0 <= k < ix ==> 1 <= zCounts[k] && z + zCounts[k] <= DEPTH
      invariant forall k :: 0 <= k < ix ==> ColumnFresh(cloud[..], visited, x + k, z, zCounts[k])
      invariant forall k :: 0 <= k < ix ==> Blocked(cloud[..], visited, x + k, z + zCounts[k])
    {
      var zCount := ExtendColumn(cloud, visited, x + ix, z);
      zCounts := zCounts + [zCount];
    }
  }

  /** Python's min over a non-empty list: an element no greater than any other. */
  function MinOf(s: seq<int>): (m: int)
    requires |s| > 0
    ensures m in s && forall e :: e in s ==> m <= e
  {
    if |s| == 1 then s[0] else
      assert s == [s[0]] + s[1..];
      Min(s[0], MinOf(s[1..]))
  }

  /** Marking a rectangle as visited (cloud_mesh.py:121-123). */
  method MarkVisited(visited: set<int>, x: int, z: int, xCount: int, zCount: int) returns (marked: set<int>)
    requires QuadInGrid(Quad(x, z, xCount, zCount)) && Cell(x, z) !in visited
    ensures Marked(visited, marked, Quad(x, z, xCount, zCount))
  {
    marked := visited;
    for ix := 0 to xCount
      invariant forall a, b :: InGrid(a, b) ==>
                  (Cell(a, b) in marked <==> Cell(a, b) in visited || (x <= a < x + ix && z <= b < z + zCount))
      invariant forall i :: i in marked ==>
                  i in visited || (0 <= i < CELLS && x <= i % WIDTH < x + ix && z <= i / WIDTH < z + zCount)
      invariant |marked| >= |visited| && (ix > 0 ==> |marked| >= |visited| + 1)
    {
      for iz := 0 to zCount
        invariant forall a, b :: InGrid(a, b) ==>
                    (Cell(a, b) in marked <==>
                       Cell(a, b) in visited || (x <= a < x + ix && z <= b < z + zCount)
                       || (a == x + ix && z <= b < z + iz))
        invariant forall i :: i in marked ==>
                    i in visited || (0 <= i < CELLS && x <= i % WIDTH < x + ix && z <= i / WIDTH < z + zCount)
                    || (0 <= i < CELLS && i % WIDTH == x + ix && z <= i / WIDTH < z + iz)
        invariant |marked| >= |visited| && (ix > 0 || iz > 0 ==> |marked| >= |visited| + 1)
      {
        marked := marked + {(x + ix) + WIDTH * (z + iz)};
        assert (x + ix) + WIDTH * (z + iz) == Cell(x + ix, z + iz);
      }
    }
  }

  /** Writes the three attributes of one vertex (cloud_mesh.py:133-135). */
  method EmitVertex(mesh: array<int>, index: int, v: IVec3) returns (next: int)
    requires 0 <= index && index + 3 <= mesh.Length
    modifies mesh
    ensures next == index + 3
    ensures mesh[index..next] == [v.x, v.y, v.z]
    ensures forall i :: 0 <= i < mesh.Length && !(index <= i < next) ==> mesh[i] == old(mesh[i])
  {
    var attrs := [v.x, v.y, v.z];
    next := index;
    for k := 0 to 3
      invariant next == index + k
      invariant forall j :: index <= j < next ==> mesh[j] == attrs[j - index]
      invariant forall i :: 0 <= i < mesh.Length && !(index <= i < next) ==> mesh[i] == old(mesh[i])
    {
      mesh[next] := attrs[k];
      next := next + 1;
    }
    assert mesh[index..next] == attrs;
  }

  /** Writes the 18 entries of one rectangle at height y (cloud_mesh.py:126-135). */
  method EmitQuad(mesh: array<int>, index: int, q: Quad, y: int) returns (next: int)
    requires 0 <= index && index + 18 <= mesh.Length
    modifies mesh
    ensures next == index + 18
    ensures mesh[index..next] == QuadData(q, y)
    ensures forall i :: 0 <= i < mesh.Length && !(index <= i < next) ==> mesh[i] == old(mesh[i])
  {
    var vertices := QuadVertices(q, y);
    next := index;
    for t := 0 to 6
      invariant next == index + 3 * t
      invariant mesh[index..next] == Coords(vertices[..t])
      invariant forall i :: 0 <= i < mesh.Length && !(index <= i < next) ==> mesh[i] == old(mesh[i])
    {
      ghost var before := mesh[index..next];
      next := EmitVertex(mesh, next, vertices[t]);
      assert mesh[index..next - 3] == before;
      assert mesh[index..next] == mesh[index..next - 3] + mesh[next - 3..next];
      assert vertices[..t + 1][..t] == vertices[..t];
    }
    assert vertices[..6] == vertices;
  }

  /** The rectangle the scan takes from the unvisited cloud cell (x, z) (cloud_mesh.py:98-118):
      the run, the column extents and their minimum, which is the greedy rectangle there. */
  method FindQuad(cloud: array<int>, visited: set<int>, x: int, z: int) returns (q: Quad)
    requires cloud.Length == CELLS && InGrid(x, z) && cloud[Cell(x, z)] != 0 && Cell(x, z) !in visited
    ensures q.x == x && q.z == z && QuadInGrid(q) && Greedy(cloud[..], visited, q)
  {
    var xCount := ExtendRun(cloud, visited, x, z);
    var zCounts := ColumnExtents(cloud, visited, x, z, xCount);
    var zCount := if |zCounts| > 0 then MinOf(zCounts) else 1;
    q := Quad(x, z, xCount, zCount);
    assert zCount in zCounts;
    var k :| 0 <= k < |zCounts| && zCounts[k] == zCount;
    assert BlockedBelow(cloud[..], visited, q, x + k);
    assert Blocked(cloud[..], visited, x + xCount, z);
    forall a, b | InQuad(q, a, b)
      ensures cloud[Cell(a, b)] != 0 && Cell(a, b) !in visited
    {
      if b > z {
        assert zCounts[a - x] in zCounts;
        assert ColumnFresh(cloud[..], visited, a, z, zCounts[a - x]);
      }
    }
  }

  /** One rectangle of the scan, placed and emitted: marks its cells and writes its entries. */
  method PlaceQuad(cloud: array<int>, mesh: array<int>, visited: set<int>, ghost quads: seq<Quad>,
                   index: int, x: int, z: int, y: int)
    returns (marked: set<int>, ghost quads2: seq<Quad>, next: int)
    requires cloud.Length == CELLS && mesh.Length == MESH_CAPACITY && cloud != mesh
    requires Tiling(cloud[..], visited, quads)
    requires index == 18 * |quads| <= mesh.Length && mesh[..index] == QuadsData(quads, y)
    requires InGrid(x, z) && cloud[Cell(x, z)] != 0 && Cell(x, z) !in visited
    requires GreedyScan(cloud[..], quads) && ScannedBefore(cloud[..], visited, x, z)
    modifies mesh
    ensures Tiling(cloud[..], marked, quads2) && GreedyScan(cloud[..], quads2)
    ensures ScannedBefore(cloud[..], marked, x + 1, z)
    ensures |quads2| == |quads| + 1 && quads2[..|quads|] == quads
    ensures quads2[|quads|].x == x && quads2[|quads|].z == z
    ensures visited <= marked && Cell(x, z) in marked
    ensures next == 18 * |quads2| <= mesh.Length && mesh[..next] == QuadsData(quads2, y)
  {
    ghost var grid := cloud[..];
    var q := FindQuad(cloud, visited, x, z);
    marked := MarkVisited(visited, x, z, q.xCount, q.zCount);
    quads2 := quads + [q];
    PlacedState(grid, visited, quads, q, marked);
    QuadsDataAppend(quads, q, y);
    next := EmitQuad(mesh, index, q, y);
    assert cloud[..] == grid;
    assert mesh[..index] == QuadsData(quads, y);
    assert mesh[..next] == mesh[..index] + mesh[index..next];
  }

  /** The state after one merger step: the invariants hold for the marked set and the longer
      list, the scan moves past the corner, and the list still fits the buffer. */
  lemma PlacedState(cloud: seq<int>, visited: set<int>, quads: seq<Quad>, q: Quad, marked: set<int>)
    requires |cloud| == CELLS && Tiling(cloud, visited, quads) && GreedyScan(cloud, quads)
    requires QuadInGrid(q) && Greedy(cloud, visited, q) && ScannedBefore(cloud, visited, q.x, q.z)
    requires Marked(visited, marked, q)
    ensures Tiling(cloud, marked, quads + [q]) && GreedyScan(cloud, quads + [q])
    ensures ScannedBefore(cloud, marked, q.x + 1, q.z)
    ensures visited <= marked && Cell(q.x, q.z) in marked
    ensures (quads + [q])[..|quads|] == quads && 18 * (|quads| + 1) <= MESH_CAPACITY
  {
    AddQuadKeepsTiling(cloud, visited, quads, q, marked);
    AddQuadKeepsScan(cloud, visited, quads, q);
    assert (quads + [q])[..|quads|] == quads;
    forall i | i in visited
      ensures i in marked
    {
      IndexIsCell(i);
    }
    assert InQuad(q, q.x, q.z);
    ScannedNext(cloud, visited, marked, q.x, q.z);
    Sizes();
    RangeBound(marked, CELLS);
  }

  /** The data of a list with one more rectangle is the old data followed by its 18 entries. */
  lemma QuadsDataAppend(quads: seq<Quad>, q: Quad, y: int)
    ensures QuadsData(quads + [q], y) == QuadsData(quads, y) + QuadData(q, y)
  {
    assert (quads + [q])[..|quads|] == quads;
  }

  // ---------------------------------------------------------------------------
  // The mesh
  // ---------------------------------------------------------------------------

  /** The x loop of the scan for row z (cloud_mesh.py:91-135): places a rectangle at every
      unvisited cloud cell of the row. */
  method ScanRow(cloud: array<int>, mesh: array<int>, visited: set<int>, ghost quads: seq<Quad>,
                 index: int, z: int, y: int)
    returns (visited2: set<int>, ghost quads2: seq<Quad>, next: int)
    requires cloud.Length == CELLS && mesh.Length == MESH_CAPACITY && cloud != mesh && 0 <= z < DEPTH
    requires Tiling(cloud[..], visited, quads) && GreedyScan(cloud[..], quads)
    requires index == 18 * |quads| <= mesh.Length && mesh[..index] == QuadsData(quads, y)
    requires ScannedBefore(cloud[..], visited, 0, z)
    modifies mesh
    ensures Tiling(cloud[..], visited2, quads2) && GreedyScan(cloud[..], quads2)
    ensures next == 18 * |quads2| <= mesh.Length && mesh[..next] == QuadsData(quads2, y)
    ensures ScannedBefore(cloud[..], visited2, 0, z + 1)
  {
    visited2, quads2, next := visited, quads, index;
    for x := 0 to WIDTH
      invariant Tiling(cloud[..], visited2, quads2) && GreedyScan(cloud[..], quads2)
      invariant next == 18 * |quads2| <= mesh.Length && mesh[..next] == QuadsData(quads2, y)
      invariant ScannedBefore(cloud[..], visited2, x, z)
    {
      var idx := x + WIDTH * z;
      if cloud[idx] == 0 || idx in visited2 {
        ScannedNext(cloud[..], visited2, visited2, x, z);
        continue;
      }
      visited2, quads2, next := PlaceQuad(cloud, mesh, visited2, quads2, next, x, z, y);
    }
    ScannedRowEnd(cloud[..], visited2, z);
  }

  /** The scan of build_mesh (cloud_mesh.py:81-135): fills a fresh buffer of MESH_CAPACITY
      entries with the greedy rectangles of a tiling of the cloud cells, at most one per cloud
      cell, and returns it with the number of entries written. */
  method FillCloudMesh(cloud: array<int>, y: int) returns (mesh: array<int>, index: int, ghost quads: seq<Quad>)
    requires cloud.Length == CELLS
    ensures fresh(mesh) && mesh.Length == MESH_CAPACITY
    ensures CloudTiles(cloud[..], quads) && |quads| <= |CloudCells(cloud[..])|
    ensures GreedyScan(cloud[..], quads)
    ensures index == 18 * |quads| <= mesh.Length && mesh[..index] == QuadsData(quads, y)
  {
    mesh := new int[MESH_CAPACITY];
    index := 0;
    var visited: set<int> := {};
    quads := [];
    for z := 0 to DEPTH
      invariant Tiling(cloud[..], visited, quads) && GreedyScan(cloud[..], quads)
      invariant index == 18 * |quads| <= mesh.Length && mesh[..index] == QuadsData(quads, y)
      invariant ScannedBefore(cloud[..], visited, 0, z)
    {
      visited, quads, index := ScanRow(cloud, mesh, visited, quads, index, z, y);
    }
    assert forall a, b :: InGrid(a, b) && cloud[Cell(a, b)] != 0 ==> Cell(a, b) in visited;
    assert visited <= CloudCells(cloud[..]);
    SubsetCard(visited, CloudCells(cloud[..]), CELLS);
  }

  /** build_mesh as written: the slice up to index + 1, one entry past the data. */
  method BuildCloudMesh(cloud: array<int>, y: int) returns (mesh: seq<int>, ghost quads: seq<Quad>)
    requires cloud.Length == CELLS
    ensures CloudTiles(cloud[..], quads) && |quads| <= |CloudCells(cloud[..])|
    ensures GreedyScan(cloud[..], quads)
    ensures 18 * |quads| <= MESH_CAPACITY
    ensures |mesh| == Min(18 * |quads| + 1, MESH_CAPACITY)
    ensures mesh[..18 * |quads|] == QuadsData(quads, y)
  {
    var buf, index;
    buf, index, quads := FillCloudMesh(cloud, y);
    mesh := buf[..Min(index + 1, buf.Length)];
  }

  /** build_mesh trimmed to exactly the entries written. */
  method BuildCloudMeshTrimmed(cloud: array<int>, y: int) returns (mesh: seq<int>, ghost quads: seq<Quad>)
    requires cloud.Length == CELLS
    ensures CloudTiles(cloud[..], quads) && |quads| <= |CloudCells(cloud[..])|
    ensures GreedyScan(cloud[..], quads)
    ensures mesh == QuadsData(quads, y)
  {
    var buf, index;
    buf, index, quads := FillCloudMesh(cloud, y);
    mesh := buf[..index];
  }

  /** Under a clear sky the as-written slice holds one entry although nothing was written. */
  method ClearSkyMeshAsWritten(y: int) returns (mesh: seq<int>)
    ensures |mesh| == 1
  {
    var cloud := new int[CELLS](_ => 0);
    ghost var quads;
    mesh, quads := BuildCloudMesh(cloud, y);
    Sizes();
  }

  /** The grid generate_clouds leaves in a zeroed array: 1 where the noise reaches the
      threshold, 0 elsewhere. */
  ghost function CloudGrid(noise: (real, real) -> real): (g: seq<int>)
    ensures |g| == CELLS
  {
    seq(CELLS, i => if Cloudy(noise, i % WIDTH, i / WIDTH) then 1 else 0)
  }

  /** get_vertex_data (cloud_mesh.py:28-42): a zeroed grid, marked by the noise, meshed. The
      rectangles tile exactly the columns whose noise value reaches the threshold, and they are
      the greedy scan's rectangles of that grid. */
  method GetVertexData(noise: (real, real) -> real, y: int) returns (mesh: seq<int>, ghost quads: seq<Quad>)
    ensures forall k :: 0 <= k < |quads| ==> QuadInGrid(quads[k])
    ensures forall j, k :: 0 <= j < k < |quads| ==> Disjoint(quads[j], quads[k])
    ensures forall a, b :: InGrid(a, b) ==> (Covered(quads, a, b) <==> Cloudy(noise, a, b))
    ensures CloudTiles(CloudGrid(noise), quads) && GreedyScan(CloudGrid(noise), quads)
    ensures mesh == QuadsData(quads, y)
  {
    var cloud := new int[CELLS](_ => 0);
    ghost var zeros := cloud[..];
    GenerateClouds(cloud, noise);
    forall i | 0 <= i < CELLS
      ensures cloud[i] == CloudGrid(noise)[i]
    {
      GeneratedCell(cloud[..], zeros, noise, i);
    }
    assert cloud[..] == CloudGrid(noise);
    mesh, quads := BuildCloudMeshTrimmed(cloud, y);
  }
}
