/**
 * The utilities of the Week 1 Doxygen demo (test.cpp): the recursive fibonacci on 32-bit ints,
 * the cuboid's triangle index list, and the cuboid's corner list.
 */
module DoxygenDemo {
  import opened GlEnums

  // ---------------------------------------------------------------------------
  // fibonacci

  /** C++ int: 32-bit two's complement. */
  type int32 = x: int | -0x8000_0000 <= x < 0x8000_0000

  /** Consecutive Fibonacci numbers (F(n), F(n + 1)), built bottom-up from (0, 1). */
  function FibPair(n: nat): (nat, nat)
  {
    if n == 0 then (0, 1)
    else
      var p := FibPair(n - 1);
      (p.1, p.0 + p.1)
  }

  /** The standard Fibonacci number F(n). */
  function Fib(n: nat): nat
  {
    FibPair(n).0
  }

  /** F satisfies the Fibonacci recurrence. */
  lemma FibRecurrence(n: nat)
    requires n >= 2
    ensures Fib(n) == Fib(n - 1) + Fib(n - 2)
  {
  }

  /** F never decreases. */
  lemma {:induction false} FibMonotone(m: nat, n: nat)
    requires m <= n
    ensures Fib(m) <= Fib(n)
  {
    if m < n {
      FibMonotone(m, n - 1);
      if n >= 2 {
        FibRecurrence(n);
      }
    }
  }

  /** Five steps of the pair at once, as a fixed linear map. */
  lemma FibPairJump(n: nat)
    ensures FibPair(n + 5) == (3 * FibPair(n).0 + 5 * FibPair(n).1, 5 * FibPair(n).0 + 8 * FibPair(n).1)
  {
    var p1 := FibPair(n + 1);
    var p2 := FibPair(n + 2);
    var p3 := FibPair(n + 3);
    var p4 := FibPair(n + 4);
    assert p1 == (FibPair(n).1, FibPair(n).0 + FibPair(n).1);
    assert p2 == (p1.1, p1.0 + p1.1);
    assert p3 == (p2.1, p2.0 + p2.1);
    assert p4 == (p3.1, p3.0 + p3.1);
  }

  /**
   * Nine jumps of five from (F(1), F(2)) reach (F(46), F(47)). The start index n is a parameter
   * because FibPair unfolded at the literal indices 46 and 47 is far too costly to verify; the
   * only index meeting the requirement is n = 1, which FibStart supplies. The same holds for
   * FibIntLimit and FibIntBoundary below.
   */
  lemma FibChain(n: nat)
    requires FibPair(n) == (1, 1)
    ensures FibPair(n + 45) == (1836311903, 2971215073)
  {
    FibPairJump(n);
    assert FibPair(n + 5) == (8, 13);
    FibPairJump(n + 5);
    assert FibPair(n + 10) == (89, 144);
    FibPairJump(n + 10);
    assert FibPair(n + 15) == (987, 1597);
    FibPairJump(n + 15);
    assert FibPair(n + 20) == (10946, 17711);
    FibPairJump(n + 20);
    assert FibPair(n + 25) == (121393, 196418);
    FibPairJump(n + 25);
    assert FibPair(n + 30) == (1346269, 2178309);
    FibPairJump(n + 30);
    assert FibPair(n + 35) == (14930352, 24157817);
    FibPairJump(n + 35);
    assert FibPair(n + 40) == (165580141, 267914296);
    FibPairJump(n + 40);
    assert FibPair(n + 45) == (1836311903, 2971215073);
  }

  /**
   * Where (F(k), F(k + 1)) = (1, 1), that is k = 1: F(k + 45) = F(46) = 1836311903 is the last
   * Fibonacci number below 2^31, and F(k + 46) = F(47) = 2971215073 the first above it.
   */
  lemma FibIntLimit(k: nat)
    requires FibPair(k) == (1, 1)
    ensures Fib(k + 45) == 1836311903 && Fib(k + 46) == 2971215073
  {
    FibChain(k);
  }

  /**
   * Below index k + 45 every Fibonacci number fits in an int; from k + 46 on none does. Callers
   * pass k = 1 from FibStart, so the bound is at F(46).
   */
  lemma {:induction false} FibIntBoundary(n: nat, k: nat)
    requires FibPair(k) == (1, 1)
    ensures n <= k + 45 ==> Fib(n) < 0x8000_0000
    ensures n > k + 45 ==> Fib(n) >= 0x8000_0000
  {
    FibIntLimit(k);
    if n <= k + 45 {
      FibMonotone(n, k + 45);
    } else {
      FibMonotone(k + 46, n);
    }
  }

  /**
   * The index the chain starts from: (F(1), F(2)) = (1, 1). Returned as a variable rather than
   * written as the literal 1, so that callers reason about FibPair(k + 45) without unfolding it.
   */
  lemma FibStart() returns (k: nat)
    ensures k == 1 && FibPair(k) == (1, 1)
  {
    k := 1;
  }

  /** Every Fibonacci number up to F(46) fits in an int. */
  lemma FibFitsIntUpTo46(n: nat)
    requires n <= 46
    ensures Fib(n) < 0x8000_0000
  {
    var k := FibStart();
    FibIntBoundary(n, k);
  }

  /** No Fibonacci number from F(47) on fits in an int. */
  lemma FibOverflowsIntFrom47(n: nat)
    requires n > 46
    ensures Fib(n) >= 0x8000_0000
  {
    var k := FibStart();
    FibIntBoundary(n, k);
  }

  /** F(n) fits in an int exactly when n <= 46. */
  lemma {:induction false} FibFitsInt(n: nat)
    ensures Fib(n) < 0x8000_0000 <==> n <= 46
  {
    if n <= 46 {
      FibFitsIntUpTo46(n);
    } else {
      FibOverflowsIntFrom47(n);
    }
  }

  /**
   * fibonacci: returns x itself for every x <= 1, negative ones included, and the standard
   * F(x) for x >= 0. Larger arguments than 46 overflow int in the source, so they are excluded.
   */
  function Fibonacci(x: int32): (r: int32)
    requires x <= 46
    ensures x <= 1 ==> r == x
    ensures x >= 0 ==> r == Fib(x) && 0 <= r
    decreases x
  {
    if x <= 1 then x
    else
      FibRecurrence(x);
      FibFitsInt(x);
      Fibonacci(x - 1) + Fibonacci(x - 2)
  }

  // ---------------------------------------------------------------------------
  // makeCuboidVerts

  /** A point with real coordinates; the source's floats are taken without rounding. */
  datatype Vec3 = Vec3(x: real, y: real, z: real)

  /** makeCuboidVerts: the eight corners, the bottom four (y < 0) then the top four. */
  function CuboidVerts(sizeX: real, sizeY: real, sizeZ: real): (verts: seq<Vec3>)
    ensures |verts| == 8
  {
    [Vec3(-0.5 * sizeX, -0.5 * sizeY, -0.5 * sizeZ),
     Vec3(-0.5 * sizeX, -0.5 * sizeY, 0.5 * sizeZ),
     Vec3(0.5 * sizeX, -0.5 * sizeY, 0.5 * sizeZ),
     Vec3(0.5 * sizeX, -0.5 * sizeY, -0.5 * sizeZ),
     Vec3(-0.5 * sizeX, 0.5 * sizeY, -0.5 * sizeZ),
     Vec3(-0.5 * sizeX, 0.5 * sizeY, 0.5 * sizeZ),
     Vec3(0.5 * sizeX, 0.5 * sizeY, 0.5 * sizeZ),
     Vec3(0.5 * sizeX, 0.5 * sizeY, -0.5 * sizeZ)]
  }

  /** With no side of length 0 the eight corners are distinct and centred on the origin. */
  lemma CuboidVertsDistinct(sizeX: real, sizeY: real, sizeZ: real)
    requires sizeX != 0.0 && sizeY != 0.0 && sizeZ != 0.0
    ensures forall i, j :: 0 <= i < j < 8 ==> CuboidVerts(sizeX, sizeY, sizeZ)[i] != CuboidVerts(sizeX, sizeY, sizeZ)[j]
    ensures forall i :: 0 <= i < 8 ==>
              CuboidVerts(sizeX, sizeY, sizeZ)[i].x * CuboidVerts(sizeX, sizeY, sizeZ)[i].x == 0.25 * sizeX * sizeX
  {
  }

  // ---------------------------------------------------------------------------
  // makeCuboidIndices

  /** makeCuboidIndices: twelve triangles, two per face of the cuboid. */
  function CuboidIndices(): seq<GLuint>
  {
    [0, 1, 2,
     0, 2, 3,

     4, 5, 6,
     4, 6, 7,

     0, 4, 7,
     0, 7, 3,

     2, 6, 5,
     2, 5, 1,

     3, 7, 6,
     3, 6, 2,

     1, 5, 4,
     1, 4, 0]
  }

  /** The cube element list the transformations exercise hard-codes. */
  const TransformationsCubeElems: seq<GLuint> :=
    [0, 1, 2, 0, 2, 3, 4, 5, 6, 4, 6, 7, 0, 4, 7, 0, 7, 3,
     2, 6, 5, 2, 5, 1, 3, 7, 6, 3, 6, 2, 1, 5, 4, 1, 4, 0]

  /** The three corner indices of triangle t. */
  function Triangle(t: nat): (GLuint, GLuint, GLuint)
    requires t < 12
  {
    (CuboidIndices()[3 * t], CuboidIndices()[3 * t + 1], CuboidIndices()[3 * t + 2])
  }

  /** The list holds 36 indices, all naming one of the 8 corners. */
  lemma CuboidIndicesInRange()
    ensures |CuboidIndices()| == 36
    ensures forall k :: 0 <= k < 36 ==> CuboidIndices()[k] < 8
  {
  }

  /** Each triangle names three distinct corners. */
  lemma CuboidTrianglesNondegenerate()
    ensures forall t :: 0 <= t < 12 ==>
              Triangle(t).0 != Triangle(t).1 && Triangle(t).1 != Triangle(t).2 && Triangle(t).0 != Triangle(t).2
  {
    forall t | 0 <= t < 12
      ensures Triangle(t).0 != Triangle(t).1 && Triangle(t).1 != Triangle(t).2 && Triangle(t).0 != Triangle(t).2
    {
      TriangleCorners(t);
    }
  }

  /** Every one of the 8 corners is used by some triangle. */
  lemma CuboidIndicesCoverCorners()
    ensures forall v: GLuint :: v < 8 ==> v in CuboidIndices()
  {
    assert CuboidIndices()[0] == 0 && CuboidIndices()[1] == 1 && CuboidIndices()[2] == 2;
    assert CuboidIndices()[5] == 3 && CuboidIndices()[6] == 4 && CuboidIndices()[7] == 5;
    assert CuboidIndices()[8] == 6 && CuboidIndices()[11] == 7;
  }

  /** The demo's list and the transformations exercise's list are the same. */
  lemma CuboidIndicesMatchTransformations()
    ensures CuboidIndices() == TransformationsCubeElems
  {
  }

  /**
   * The six faces of the cuboid as sets of corner indices: bottom, top, back (z < 0), front,
   * right (x > 0) and left.
   */
  const Faces: seq<set<GLuint>> :=
    [{0, 1, 2, 3}, {4, 5, 6, 7}, {0, 3, 4, 7}, {1, 2, 5, 6}, {2, 3, 6, 7}, {0, 1, 4, 5}]

  /** The corners of each face share one coordinate, whatever the cuboid's sizes. */
  lemma FacesAreFlat(sizeX: real, sizeY: real, sizeZ: real)
    ensures forall i :: i in Faces[0] || i in Faces[1] ==>
              CuboidVerts(sizeX, sizeY, sizeZ)[i].y == (if i in Faces[0] then -0.5 else 0.5) * sizeY
    ensures forall i :: i in Faces[2] || i in Faces[3] ==>
              CuboidVerts(sizeX, sizeY, sizeZ)[i].z == (if i in Faces[2] then -0.5 else 0.5) * sizeZ
    ensures forall i :: i in Faces[4] || i in Faces[5] ==>
              CuboidVerts(sizeX, sizeY, sizeZ)[i].x == (if i in Faces[4] then 0.5 else -0.5) * sizeX
  {
  }

  /** The same list read three at a time. */
  const CubeTriangles: seq<(GLuint, GLuint, GLuint)> :=
    [(0, 1, 2), (0, 2, 3), (4, 5, 6), (4, 6, 7), (0, 4, 7), (0, 7, 3),
     (2, 6, 5), (2, 5, 1), (3, 7, 6), (3, 6, 2), (1, 5, 4), (1, 4, 0)]

  /** The bottom face's triangles. */
  lemma TriangleCornersBottom(t: nat)
    requires t < 2
    ensures Triangle(t) == CubeTriangles[t]
  {
  }

  /** The top face's triangles. */
  lemma TriangleCornersTop(t: nat)
    requires 2 <= t < 4
    ensures Triangle(t) == CubeTriangles[t]
  {
  }

  /** The back and front faces' triangles. */
  lemma TriangleCornersBackFront(t: nat)
    requires 4 <= t < 8
    ensures Triangle(t) == CubeTriangles[t]
  {
  }

  /** The right and left faces' triangles. */
  lemma TriangleCornersRightLeft(t: nat)
    requires 8 <= t < 12
    ensures Triangle(t) == CubeTriangles[t]
  {
  }

  /** Triangle t of the flat list is the t-th triple. */
  lemma TriangleCorners(t: nat)
    requires t < 12
    ensures Triangle(t) == CubeTriangles[t]
  {
    if t < 2 {
      TriangleCornersBottom(t);
    } else if t < 4 {
      TriangleCornersTop(t);
    } else if t < 8 {
      TriangleCornersBackFront(t);
    } else {
      TriangleCornersRightLeft(t);
    }
  }

  /** Triangles 2f and 2f + 1 both lie in face f, so every face is covered by two triangles. */
  lemma CuboidTrianglesOnFaces()
    ensures forall t :: 0 <= t < 12 ==>
              Triangle(t).0 in Faces[t / 2] && Triangle(t).1 in Faces[t / 2] && Triangle(t).2 in Faces[t / 2]
  {
    forall t | 0 <= t < 12
      ensures Triangle(t).0 in Faces[t / 2] && Triangle(t).1 in Faces[t / 2] && Triangle(t).2 in Faces[t / 2]
    {
      TriangleCorners(t);
    }
  }
}
