/**
 * The mesh builders of the particle demo: a planar grid built by counting
 * loops, and recursive triangle subdivision seeding either a rectangle
 * (two triangles) or a tetrahedron (four triangles, with midpoints pushed
 * back onto the sphere). Every builder appends to arrays its caller
 * supplies and never touches what they already hold.
 */
module SimpleModeling {
  import opened Geometry
  import opened Grid

  /** A growable JavaScript array that builders `push` numbers onto. */
  class Buffer<T> {
    var elems: seq<T>

    constructor ()
      ensures elems == []
    {
      elems := [];
    }

    /** `Array.prototype.push` of one value. */
    method Push(x: T)
      modifies this
      ensures elems == old(elems) + [x]
    {
      elems := elems + [x];
    }
  }

  // ---------------------------------------------------------------------
  // pushVertex and the flat layout of vertex lists

  /** The coordinate blocks of a vertex list, one block of three per vertex. */
  function CoordBlocks(vs: seq<Vec4>): (r: seq<seq<real>>)
    ensures |r| == |vs| && Uniform(r, 3)
  {
    seq(|vs|, k requires 0 <= k < |vs| => Coords(vs[k]))
  }

  /** The numbers a builder pushes for a list of vertices: x, y, z of each, in order. */
  function Flatten(vs: seq<Vec4>): seq<real>
  {
    Concat(CoordBlocks(vs))
  }

  lemma {:induction false} FlattenLength(vs: seq<Vec4>)
    ensures |Flatten(vs)| == 3 * |vs|
  {
    ConcatLength(CoordBlocks(vs), 3);
  }

  lemma {:induction false} FlattenAppend(us: seq<Vec4>, vs: seq<Vec4>)
    ensures Flatten(us + vs) == Flatten(us) + Flatten(vs)
  {
    assert CoordBlocks(us + vs) == CoordBlocks(us) + CoordBlocks(vs);
    ConcatAppend(CoordBlocks(us), CoordBlocks(vs));
  }

  /** Four appends in a row add the flattening of the four vertex lists, joined. */
  lemma {:induction false} FlattenAppend4(e0: seq<real>, e1: seq<real>, e2: seq<real>, e3: seq<real>, e4: seq<real>,
                                          s1: seq<Vec4>, s2: seq<Vec4>, s3: seq<Vec4>, s4: seq<Vec4>)
    requires e1 == e0 + Flatten(s1) && e2 == e1 + Flatten(s2) && e3 == e2 + Flatten(s3) && e4 == e3 + Flatten(s4)
    ensures e4 == e0 + Flatten(s1 + s2 + s3 + s4)
  {
    FlattenAppend(s1, s2);
    FlattenAppend(s1 + s2, s3);
    FlattenAppend(s1 + s2 + s3, s4);
  }

  lemma FlattenTriangle(a: Vec4, b: Vec4, c: Vec4)
    ensures Flatten([a, b, c]) == Coords(a) + Coords(b) + Coords(c)
  {
    assert CoordBlocks([a, b, c]) == [] + [Coords(a)] + [Coords(b)] + [Coords(c)];
    ConcatSnoc([], Coords(a));
    ConcatSnoc([] + [Coords(a)], Coords(b));
    ConcatSnoc([] + [Coords(a)] + [Coords(b)], Coords(c));
  }

  /** pushVertex(v, vArray): appends v[0], v[1], v[2] and nothing else. */
  method PushVertex(v: Vec4, vArray: Buffer<real>)
    modifies vArray
    ensures vArray.elems == old(vArray.elems) + Coords(v)
  {
    var i := 0;
    while i < 3
      invariant 0 <= i <= 3
      invariant vArray.elems == old(vArray.elems) + Coords(v)[..i]
    {
      vArray.Push(Coords(v)[i]);
      assert Coords(v)[..i + 1] == Coords(v)[..i] + [Coords(v)[i]];
      i := i + 1;
    }
    assert Coords(v)[..3] == Coords(v);
  }

  // ---------------------------------------------------------------------
  // Recursive subdivision

  /** 4^n for positive n, and 1 otherwise: the triangles a depth budget of n yields. */
  function Pow4(n: int): (r: nat)
    ensures r >= 1
    decreases n
  {
    if n > 0 then 4 * Pow4(n - 1) else 1
  }

  /**
   * The corners emitted by splitting triangle (a, b, c) down to depth budget
   * n, three per final triangle; `mid` gives the new point of an edge.
   */
  function SubdividedVertices(a: Vec4, b: Vec4, c: Vec4, n: int, mid: (Vec4, Vec4) -> Vec4): seq<Vec4>
    decreases n
  {
    if n > 0 then
      var ab, ac, bc := mid(a, b), mid(a, c), mid(b, c);
      SubdividedVertices(a, ab, ac, n - 1, mid) + SubdividedVertices(ab, b, bc, n - 1, mid)
      + SubdividedVertices(bc, c, ac, n - 1, mid) + SubdividedVertices(ab, bc, ac, n - 1, mid)
    else
      [a, b, c]
  }

  /** The midpoint of divideTriangle: vec4.lerp(ab, a, b, 0.5). */
  function PlanarMid(p: Vec4, q: Vec4): Vec4
  {
    Lerp(p, q, 0.5)
  }

  /** The midpoint of sphDivideTriangle: the lerp midpoint, then vec4.normalize. */
  function SphereMid(normalize: Vec4 -> Vec4): (Vec4, Vec4) -> Vec4
  {
    (p: Vec4, q: Vec4) => normalize(Lerp(p, q, 0.5))
  }

  /** A depth budget of n yields 4^n triangles, whatever the midpoint rule. */
  lemma {:induction false} SubdividedCount(a: Vec4, b: Vec4, c: Vec4, n: int, mid: (Vec4, Vec4) -> Vec4)
    ensures |SubdividedVertices(a, b, c, n, mid)| == 3 * Pow4(n)
    ensures |Flatten(SubdividedVertices(a, b, c, n, mid))| == 9 * Pow4(n)
    decreases n
  {
    if n > 0 {
      var ab, ac, bc := mid(a, b), mid(a, c), mid(b, c);
      SubdividedCount(a, ab, ac, n - 1, mid);
      SubdividedCount(ab, b, bc, n - 1, mid);
      SubdividedCount(bc, c, ac, n - 1, mid);
      SubdividedCount(ab, bc, ac, n - 1, mid);
    }
    FlattenLength(SubdividedVertices(a, b, c, n, mid));
  }

  /** Any property of points that the seed corners have and the midpoint rule keeps holds of every emitted corner. */
  lemma {:induction false} SubdivisionKeeps(a: Vec4, b: Vec4, c: Vec4, n: int, mid: (Vec4, Vec4) -> Vec4, P: Vec4 -> bool)
    requires P(a) && P(b) && P(c)
    requires forall p, q :: P(p) && P(q) ==> P(mid(p, q))
    ensures forall v :: v in SubdividedVertices(a, b, c, n, mid) ==> P(v)
    decreases n
  {
    if n > 0 {
      var ab, ac, bc := mid(a, b), mid(a, c), mid(b, c);
      SubdivisionKeeps(a, ab, ac, n - 1, mid, P);
      SubdivisionKeeps(ab, b, bc, n - 1, mid, P);
      SubdivisionKeeps(bc, c, ac, n - 1, mid, P);
      SubdivisionKeeps(ab, bc, ac, n - 1, mid, P);
    }
  }

  /** The four recursive calls of one split, appending in turn, append the corners of the split triangle. */
  lemma SplitAppends(a: Vec4, b: Vec4, c: Vec4, n: int, mid: (Vec4, Vec4) -> Vec4,
                     e0: seq<real>, e1: seq<real>, e2: seq<real>, e3: seq<real>, e4: seq<real>)
    requires n > 0
    requires e1 == e0 + Flatten(SubdividedVertices(a, mid(a, b), mid(a, c), n - 1, mid))
    requires e2 == e1 + Flatten(SubdividedVertices(mid(a, b), b, mid(b, c), n - 1, mid))
    requires e3 == e2 + Flatten(SubdividedVertices(mid(b, c), c, mid(a, c), n - 1, mid))
    requires e4 == e3 + Flatten(SubdividedVertices(mid(a, b), mid(b, c), mid(a, c), n - 1, mid))
    ensures e4 == e0 + Flatten(SubdividedVertices(a, b, c, n, mid))
  {
    var ab, ac, bc := mid(a, b), mid(a, c), mid(b, c);
    FlattenAppend4(e0, e1, e2, e3, e4, SubdividedVertices(a, ab, ac, n - 1, mid), SubdividedVertices(ab, b, bc, n - 1, mid),
                   SubdividedVertices(bc, c, ac, n - 1, mid), SubdividedVertices(ab, bc, ac, n - 1, mid));
  }

  /**
   * divideTriangle(a, b, c, numSubDivs, vertexArray): appends the corners of
   * the subdivided triangle and returns how many triangles it emitted.
   */
  method DivideTriangle(a: Vec4, b: Vec4, c: Vec4, numSubDivs: int, vertexArray: Buffer<real>) returns (numT: int)
    modifies vertexArray
    ensures vertexArray.elems == old(vertexArray.elems) + Flatten(SubdividedVertices(a, b, c, numSubDivs, PlanarMid))
    ensures numT == Pow4(numSubDivs)
    ensures numSubDivs <= 0 ==> numT == 1 && vertexArray.elems == old(vertexArray.elems) + Coords(a) + Coords(b) + Coords(c)
    decreases numSubDivs
  {
    if numSubDivs > 0 {
      numT := 0;
      var ab := Lerp(a, b, 0.5);
      var ac := Lerp(a, c, 0.5);
      var bc := Lerp(b, c, 0.5);
      ghost var e0 := vertexArray.elems;
      var t := DivideTriangle(a, ab, ac, numSubDivs - 1, vertexArray);
      numT := numT + t;
      ghost var e1 := vertexArray.elems;
      t := DivideTriangle(ab, b, bc, numSubDivs - 1, vertexArray);
      numT := numT + t;
      ghost var e2 := vertexArray.elems;
      t := DivideTriangle(bc, c, ac, numSubDivs - 1, vertexArray);
      numT := numT + t;
      ghost var e3 := vertexArray.elems;
      t := DivideTriangle(ab, bc, ac, numSubDivs - 1, vertexArray);
      numT := numT + t;
      SplitAppends(a, b, c, numSubDivs, PlanarMid, e0, e1, e2, e3, vertexArray.elems);
    } else {
      ghost var e0 := vertexArray.elems;
      PushVertex(a, vertexArray);
      PushVertex(b, vertexArray);
      PushVertex(c, vertexArray);
      assert vertexArray.elems == e0 + (Coords(a) + Coords(b) + Coords(c));
      FlattenTriangle(a, b, c);
      numT := 1;
    }
  }

  /** The corners planeFromSubdivision emits: the rectangle split along the diagonal from (maxX, minY) to (minX, maxY). */
  function PlaneVertices(n: int, minX: real, maxX: real, minY: real, maxY: real): seq<Vec4>
  {
    var va := Vec4(minX, minY, 0.0, 0.0);
    var vb := Vec4(maxX, minY, 0.0, 0.0);
    var vc := Vec4(maxX, maxY, 0.0, 0.0);
    var vd := Vec4(minX, maxY, 0.0, 0.0);
    SubdividedVertices(va, vb, vd, n, PlanarMid) + SubdividedVertices(vb, vc, vd, n, PlanarMid)
  }

  /** planeFromSubdivision(n, minX, maxX, minY, maxY, vertexArray). */
  method PlaneFromSubdivision(n: int, minX: real, maxX: real, minY: real, maxY: real, vertexArray: Buffer<real>)
    returns (numT: int)
    modifies vertexArray
    ensures vertexArray.elems == old(vertexArray.elems) + Flatten(PlaneVertices(n, minX, maxX, minY, maxY))
    ensures numT == 2 * Pow4(n)
  {
    numT := 0;
    var va := Vec4(minX, minY, 0.0, 0.0);
    var vb := Vec4(maxX, minY, 0.0, 0.0);
    var vc := Vec4(maxX, maxY, 0.0, 0.0);
    var vd := Vec4(minX, maxY, 0.0, 0.0);
    ghost var e0 := vertexArray.elems;
    var t := DivideTriangle(va, vb, vd, n, vertexArray);
    numT := numT + t;
    ghost var e1 := vertexArray.elems;
    t := DivideTriangle(vb, vc, vd, n, vertexArray);
    numT := numT + t;
    TwoAppends(e0, e1, vertexArray.elems, SubdividedVertices(va, vb, vd, n, PlanarMid), SubdividedVertices(vb, vc, vd, n, PlanarMid));
  }

  /** Appending the numbers of two vertex lists one after the other appends the numbers of their concatenation. */
  lemma TwoAppends(e0: seq<real>, e1: seq<real>, e2: seq<real>, s1: seq<Vec4>, s2: seq<Vec4>)
    requires e1 == e0 + Flatten(s1) && e2 == e1 + Flatten(s2)
    ensures e2 == e0 + Flatten(s1 + s2)
  {
    FlattenAppend(s1, s2);
  }

  /** planeFromSubdivision emits 2 * 4^n triangles: 6 * 4^n corners, 18 * 4^n numbers. */
  lemma PlaneFromSubdivisionCount(n: int, minX: real, maxX: real, minY: real, maxY: real)
    ensures |PlaneVertices(n, minX, maxX, minY, maxY)| == 3 * (2 * Pow4(n))
    ensures |Flatten(PlaneVertices(n, minX, maxX, minY, maxY))| == 18 * Pow4(n)
  {
    var va := Vec4(minX, minY, 0.0, 0.0);
    var vb := Vec4(maxX, minY, 0.0, 0.0);
    var vc := Vec4(maxX, maxY, 0.0, 0.0);
    var vd := Vec4(minX, maxY, 0.0, 0.0);
    SubdividedCount(va, vb, vd, n, PlanarMid);
    SubdividedCount(vb, vc, vd, n, PlanarMid);
    FlattenLength(PlaneVertices(n, minX, maxX, minY, maxY));
  }

  /** The point lies in the rectangle, in the plane z = 0, with w = 0. */
  ghost predicate InRectangle(v: Vec4, minX: real, maxX: real, minY: real, maxY: real)
  {
    minX <= v.x <= maxX && minY <= v.y <= maxY && v.z == 0.0 && v.w == 0.0
  }

  /** Every corner planeFromSubdivision emits lies in the rectangle it was given, on the plane z = 0. */
  lemma PlaneFromSubdivisionInRectangle(n: int, minX: real, maxX: real, minY: real, maxY: real)
    requires minX <= maxX && minY <= maxY
    ensures forall v :: v in PlaneVertices(n, minX, maxX, minY, maxY) ==> InRectangle(v, minX, maxX, minY, maxY)
  {
    var va := Vec4(minX, minY, 0.0, 0.0);
    var vb := Vec4(maxX, minY, 0.0, 0.0);
    var vc := Vec4(maxX, maxY, 0.0, 0.0);
    var vd := Vec4(minX, maxY, 0.0, 0.0);
    var P := (v: Vec4) => InRectangle(v, minX, maxX, minY, maxY);
    assert forall p, q :: P(p) && P(q) ==> P(PlanarMid(p, q));
    SubdivisionKeeps(va, vb, vd, n, PlanarMid, P);
    SubdivisionKeeps(vb, vc, vd, n, PlanarMid, P);
  }

  /**
   * sphDivideTriangle(a, b, c, numSubDivs, vertexArray, normalArray): the same
   * corners go to both arrays, so every normal equals its position.
   */
  method SphDivideTriangle(a: Vec4, b: Vec4, c: Vec4, numSubDivs: int, vertexArray: Buffer<real>, normalArray: Buffer<real>,
                           normalize: Vec4 -> Vec4)
    returns (numT: int)
    requires vertexArray != normalArray
    modifies vertexArray, normalArray
    ensures vertexArray.elems == old(vertexArray.elems) + Flatten(SubdividedVertices(a, b, c, numSubDivs, SphereMid(normalize)))
    ensures normalArray.elems == old(normalArray.elems) + Flatten(SubdividedVertices(a, b, c, numSubDivs, SphereMid(normalize)))
    ensures numT == Pow4(numSubDivs)
    decreases numSubDivs
  {
    if numSubDivs > 0 {
      numT := 0;
      var ab := Lerp(a, b, 0.5);
      ab := normalize(ab);
      var ac := Lerp(a, c, 0.5);
      ac := normalize(ac);
      var bc := Lerp(b, c, 0.5);
      bc := normalize(bc);
      ghost var e0, f0 := vertexArray.elems, normalArray.elems;
      var t := SphDivideTriangle(a, ab, ac, numSubDivs - 1, vertexArray, normalArray, normalize);
      numT := numT + t;
      ghost var e1, f1 := vertexArray.elems, normalArray.elems;
      t := SphDivideTriangle(ab, b, bc, numSubDivs - 1, vertexArray, normalArray, normalize);
      numT := numT + t;
      ghost var e2, f2 := vertexArray.elems, normalArray.elems;
      t := SphDivideTriangle(bc, c, ac, numSubDivs - 1, vertexArray, normalArray, normalize);
      numT := numT + t;
      ghost var e3, f3 := vertexArray.elems, normalArray.elems;
      t := SphDivideTriangle(ab, bc, ac, numSubDivs - 1, vertexArray, normalArray, normalize);
      numT := numT + t;
      assert ab == SphereMid(normalize)(a, b) && ac == SphereMid(normalize)(a, c) && bc == SphereMid(normalize)(b, c);
      SplitAppends(a, b, c, numSubDivs, SphereMid(normalize), e0, e1, e2, e3, vertexArray.elems);
      SplitAppends(a, b, c, numSubDivs, SphereMid(normalize), f0, f1, f2, f3, normalArray.elems);
    } else {
      PushVertex(a, vertexArray);
      PushVertex(b, vertexArray);
      PushVertex(c, vertexArray);
      PushVertex(a, normalArray);
      PushVertex(b, normalArray);
      PushVertex(c, normalArray);
      FlattenTriangle(a, b, c);
      numT := 1;
    }
  }

  /** The seed tetrahedron of sphereFromSubdivision, corners a, b, c, d. */
  function SeedCorners(): seq<Vec4>
  {
    [Vec4(0.0, 0.0, -1.0, 0.0), Vec4(0.0, 0.942809, 0.333333, 0.0),
     Vec4(-0.816497, -0.471405, 0.333333, 0.0), Vec4(0.816497, -0.471405, 0.333333, 0.0)]
  }

  /** The corners sphereFromSubdivision emits: faces (a,b,c), (d,c,b), (a,d,b), (a,c,d), in that order. */
  function SphereVertices(n: int, normalize: Vec4 -> Vec4): seq<Vec4>
  {
    var t := SeedCorners();
    var mid := SphereMid(normalize);
    SubdividedVertices(t[0], t[1], t[2], n, mid) + SubdividedVertices(t[3], t[2], t[1], n, mid)
    + SubdividedVertices(t[0], t[3], t[1], n, mid) + SubdividedVertices(t[0], t[2], t[3], n, mid)
  }

  /** sphereFromSubdivision(numSubDivs, vertexArray, normalArray). */
  method SphereFromSubdivision(numSubDivs: int, vertexArray: Buffer<real>, normalArray: Buffer<real>, normalize: Vec4 -> Vec4)
    returns (numT: int)
    requires vertexArray != normalArray
    modifies vertexArray, normalArray
    ensures vertexArray.elems == old(vertexArray.elems) + Flatten(SphereVertices(numSubDivs, normalize))
    ensures normalArray.elems == old(normalArray.elems) + Flatten(SphereVertices(numSubDivs, normalize))
    ensures numT == 4 * Pow4(numSubDivs)
  {
    numT := 0;
    var a := Vec4(0.0, 0.0, -1.0, 0.0);
    var b := Vec4(0.0, 0.942809, 0.333333, 0.0);
    var c := Vec4(-0.816497, -0.471405, 0.333333, 0.0);
    var d := Vec4(0.816497, -0.471405, 0.333333, 0.0);
    ghost var e0, f0 := vertexArray.elems, normalArray.elems;
    var t := SphDivideTriangle(a, b, c, numSubDivs, vertexArray, normalArray, normalize);
    numT := numT + t;
    ghost var e1, f1 := vertexArray.elems, normalArray.elems;
    t := SphDivideTriangle(d, c, b, numSubDivs, vertexArray, normalArray, normalize);
    numT := numT + t;
    ghost var e2, f2 := vertexArray.elems, normalArray.elems;
    t := SphDivideTriangle(a, d, b, numSubDivs, vertexArray, normalArray, normalize);
    numT := numT + t;
    ghost var e3, f3 := vertexArray.elems, normalArray.elems;
    t := SphDivideTriangle(a, c, d, numSubDivs, vertexArray, normalArray, normalize);
    numT := numT + t;
    ghost var mid := SphereMid(normalize);
    ghost var s1, s2 := SubdividedVertices(a, b, c, numSubDivs, mid), SubdividedVertices(d, c, b, numSubDivs, mid);
    ghost var s3, s4 := SubdividedVertices(a, d, b, numSubDivs, mid), SubdividedVertices(a, c, d, numSubDivs, mid);
    FlattenAppend4(e0, e1, e2, e3, vertexArray.elems, s1, s2, s3, s4);
    FlattenAppend4(f0, f1, f2, f3, normalArray.elems, s1, s2, s3, s4);
  }

  /** sphereFromSubdivision emits 4 * 4^n triangles: 36 * 4^n numbers per array. */
  lemma SphereFromSubdivisionCount(n: int, normalize: Vec4 -> Vec4)
    ensures |SphereVertices(n, normalize)| == 3 * (4 * Pow4(n))
    ensures |Flatten(SphereVertices(n, normalize))| == 36 * Pow4(n)
  {
    var t := SeedCorners();
    var mid := SphereMid(normalize);
    SubdividedCount(t[0], t[1], t[2], n, mid);
    SubdividedCount(t[3], t[2], t[1], n, mid);
    SubdividedCount(t[0], t[3], t[1], n, mid);
    SubdividedCount(t[0], t[2], t[3], n, mid);
    FlattenLength(SphereVertices(n, normalize));
  }

  /**
   * Every corner sphereFromSubdivision emits is a seed corner or a value
   * `normalize` returned: so when `normalize` lands on the unit sphere (or
   * has any other property P), every emitted point except the seeds does.
   */
  lemma SphereVerticesNormalized(n: int, normalize: Vec4 -> Vec4, P: Vec4 -> bool)
    requires forall u :: P(normalize(u))
    ensures forall v :: v in SphereVertices(n, normalize) ==> v in SeedCorners() || P(v)
  {
    var t := SeedCorners();
    var mid := SphereMid(normalize);
    var Q := (v: Vec4) => v in t || P(v);
    assert forall p, q :: Q(p) && Q(q) ==> Q(mid(p, q)) by {
      forall p, q ensures P(mid(p, q)) {
        assert mid(p, q) == normalize(Lerp(p, q, 0.5));
      }
    }
    SubdivisionKeeps(t[0], t[1], t[2], n, mid, Q);
    SubdivisionKeeps(t[3], t[2], t[1], n, mid, Q);
    SubdivisionKeeps(t[0], t[3], t[1], n, mid, Q);
    SubdivisionKeeps(t[0], t[2], t[3], n, mid, Q);
  }

  // ---------------------------------------------------------------------
  // planeFromIteration

  /** The coordinates planeFromIteration pushes for grid vertex (i, j): column j runs along x from minX, row i down y from maxY. */
  function IterationCorner(minX: real, maxY: real, deltaX: real, deltaY: real): (nat, nat) -> seq<real>
  {
    (i: nat, j: nat) => [minX + deltaX * j as real, maxY - deltaY * i as real, 0.0]
  }

  /** The six indices planeFromIteration pushes for cell (i, j) when a grid row holds `w` vertices: two triangles. */
  function IterationCell(w: nat): (nat, nat) -> seq<int>
  {
    (i: nat, j: nat) =>
      var vid := i * w + j;
      [vid, vid + w, vid + 1, vid + 1, vid + w, (vid + 1) + w]
  }

  /** The coordinates of a w by w grid of vertices with the given spacings, row by row. */
  function GridVertices(w: nat, minX: real, maxY: real, deltaX: real, deltaY: real): seq<real>
    requires w > 0
  {
    Concat(RowMajor(w, w, IterationCorner(minX, maxY, deltaX, deltaY)))
  }

  /** The vertex coordinates planeFromIteration appends: none when n < 0, else (n + 1)^2 vertices spaced 1/n of the rectangle apart. */
  function IterationVertices(n: int, minX: real, maxX: real, minY: real, maxY: real): seq<real>
    requires n != 0
  {
    if n < 0 then []
    else GridVertices(n + 1, minX, maxY, (maxX - minX) / n as real, (maxY - minY) / n as real)
  }

  /** The face indices planeFromIteration appends: n^2 cells of six indices, row by row. */
  function IterationFaces(n: int): seq<int>
  {
    if n <= 0 then [] else Concat(RowMajor(n, n, IterationCell(n + 1)))
  }

  /**
   * planeFromIteration(n, minX, maxX, minY, maxY, vertexArray, faceArray).
   * n = 0 divides by zero in the source and is excluded.
   */
  method PlaneFromIteration(n: int, minX: real, maxX: real, minY: real, maxY: real,
                            vertexArray: Buffer<real>, faceArray: Buffer<int>)
    requires n != 0
    modifies vertexArray, faceArray
    ensures vertexArray.elems == old(vertexArray.elems) + IterationVertices(n, minX, maxX, minY, maxY)
    ensures faceArray.elems == old(faceArray.elems) + IterationFaces(n)
  {
    var deltaX := (maxX - minX) / n as real;
    var deltaY := (maxY - minY) / n as real;
    if n < 0 {
      // both counting loops run zero times
      return;
    }
    PushGridVertices(n + 1, minX, maxY, deltaX, deltaY, vertexArray);
    PushGridCells(n, n + 1, faceArray);
  }

  /** The first loop nest of planeFromIteration: w rows of w vertices. */
  method PushGridVertices(w: nat, minX: real, maxY: real, deltaX: real, deltaY: real, vertexArray: Buffer<real>)
    requires w > 0
    modifies vertexArray
    ensures vertexArray.elems == old(vertexArray.elems) + GridVertices(w, minX, maxY, deltaX, deltaY)
  {
    ghost var base := vertexArray.elems;
    ghost var corner := IterationCorner(minX, maxY, deltaX, deltaY);
    ghost var k := 0;
    var i := 0;
    while i < w
      invariant 0 <= i <= w && k == i * w
      invariant vertexArray.elems == base + Concat(Prefix(k, w, corner))
    {
      var j := 0;
      while j < w
        invariant 0 <= j <= w && k == i * w + j
        invariant vertexArray.elems == base + Concat(Prefix(k, w, corner))
      {
        ghost var before := vertexArray.elems;
        vertexArray.Push(minX + deltaX * j as real);
        vertexArray.Push(maxY - deltaY * i as real);
        vertexArray.Push(0.0);
        CornerStep(w, minX, maxY, deltaX, deltaY, base, before, k, i, j);
        k := k + 1;
        j := j + 1;
      }
      assert i * w + w == (i + 1) * w;
      i := i + 1;
    }
  }

  /** The second loop nest of planeFromIteration: m rows of m cells over rows of w vertices. */
  method PushGridCells(m: nat, w: nat, faceArray: Buffer<int>)
    requires m > 0
    modifies faceArray
    ensures faceArray.elems == old(faceArray.elems) + Concat(RowMajor(m, m, IterationCell(w)))
  {
    ghost var base := faceArray.elems;
    ghost var cell := IterationCell(w);
    ghost var k := 0;
    var i := 0;
    while i < m
      invariant 0 <= i <= m && k == i * m
      invariant faceArray.elems == base + Concat(Prefix(k, m, cell))
    {
      var j := 0;
      while j < m
        invariant 0 <= j <= m && k == i * m + j
        invariant faceArray.elems == base + Concat(Prefix(k, m, cell))
      {
        PushCell(m, w, faceArray, i, j, base, k);
        k := k + 1;
        j := j + 1;
      }
      assert i * m + m == (i + 1) * m;
      i := i + 1;
    }
  }

  /** One pass of the inner loop: the two triangles of cell (i, j), vertex number vid = i w + j at their corner. */
  method PushCell(m: nat, w: nat, faceArray: Buffer<int>, i: nat, j: nat, ghost base: seq<int>, ghost k: nat)
    requires m > 0 && j < m && k == i * m + j
    requires faceArray.elems == base + Concat(Prefix(k, m, IterationCell(w)))
    modifies faceArray
    ensures faceArray.elems == base + Concat(Prefix(k + 1, m, IterationCell(w)))
  {
    var vid := i * w + j;
    ghost var before := faceArray.elems;
    faceArray.Push(vid);
    faceArray.Push(vid + w);
    faceArray.Push(vid + 1);

    faceArray.Push(vid + 1);
    faceArray.Push(vid + w);
    faceArray.Push((vid + 1) + w);
    CellStep(m, w, base, before, k, vid, i, j);
  }

  lemma CornerValue(minX: real, maxY: real, deltaX: real, deltaY: real, i: nat, j: nat)
    ensures IterationCorner(minX, maxY, deltaX, deltaY)(i, j) == [minX + deltaX * j as real, maxY - deltaY * i as real, 0.0]
  {
    var c := IterationCorner(minX, maxY, deltaX, deltaY)(i, j);
    assert |c| == 3 && c[0] == minX + deltaX * j as real && c[1] == maxY - deltaY * i as real && c[2] == 0.0;
  }

  lemma CellValue(w: nat, vid: int, i: nat, j: nat)
    requires vid == i * w + j
    ensures IterationCell(w)(i, j) == [vid, vid + w, vid + 1, vid + 1, vid + w, (vid + 1) + w]
  {
    var c := IterationCell(w)(i, j);
    assert |c| == 6 && c[0] == vid && c[1] == vid + w && c[2] == vid + 1;
    assert c[3] == vid + 1 && c[4] == vid + w && c[5] == (vid + 1) + w;
  }

  /** Pushing the three coordinates of vertex (i, j) extends the walk over the grid by one vertex. */
  lemma CornerStep(w: nat, minX: real, maxY: real, deltaX: real, deltaY: real, base: seq<real>, before: seq<real>, k: nat, i: nat, j: nat)
    requires w > 0 && j < w && k == i * w + j
    requires before == base + Concat(Prefix(k, w, IterationCorner(minX, maxY, deltaX, deltaY)))
    ensures before + [minX + deltaX * j as real] + [maxY - deltaY * i as real] + [0.0]
            == base + Concat(Prefix(k + 1, w, IterationCorner(minX, maxY, deltaX, deltaY)))
  {
    var corner := IterationCorner(minX, maxY, deltaX, deltaY);
    ConcatPrefixStep(k, w, corner, i, j);
    CornerValue(minX, maxY, deltaX, deltaY, i, j);
    assert (base + Concat(Prefix(k, w, corner))) + corner(i, j)
        == base + (Concat(Prefix(k, w, corner)) + corner(i, j));
  }

  /** Pushing the six indices of cell (i, j) extends the walk over the cells by one cell. */
  lemma CellStep(m: nat, w: nat, base: seq<int>, before: seq<int>, k: nat, vid: int, i: nat, j: nat)
    requires m > 0 && j < m && k == i * m + j && vid == i * w + j
    requires before == base + Concat(Prefix(k, m, IterationCell(w)))
    ensures before + [vid] + [vid + w] + [vid + 1] + [vid + 1] + [vid + w] + [(vid + 1) + w]
            == base + Concat(Prefix(k + 1, m, IterationCell(w)))
  {
    var cell := IterationCell(w);
    ConcatPrefixStep(k, m, cell, i, j);
    CellValue(w, vid, i, j);
    assert (base + Concat(Prefix(k, m, cell))) + cell(i, j)
        == base + (Concat(Prefix(k, m, cell)) + cell(i, j));
  }

  /** planeFromIteration appends 3(n + 1)^2 vertex coordinates and 6n^2 face indices. */
  lemma IterationCounts(n: int, minX: real, maxX: real, minY: real, maxY: real)
    requires n > 0
    ensures |IterationVertices(n, minX, maxX, minY, maxY)| == 3 * ((n + 1) * (n + 1))
    ensures |IterationFaces(n)| == 6 * (n * n)
  {
    var corner := IterationCorner(minX, maxY, (maxX - minX) / n as real, (maxY - minY) / n as real);
    RowMajorUniform(n + 1, n + 1, corner, 3);
    ConcatLength(RowMajor(n + 1, n + 1, corner), 3);
    RowMajorUniform(n, n, IterationCell(n + 1), 6);
    ConcatLength(RowMajor(n, n, IterationCell(n + 1)), 6);
  }

  /** Grid vertex (i, j) sits at offset 3(i w + j) and holds (minX + deltaX j, maxY - deltaY i, 0). */
  lemma GridVertexAt(w: nat, minX: real, maxY: real, deltaX: real, deltaY: real, i: nat, j: nat)
    requires w > 0 && i < w && j < w
    ensures 3 * (i * w + j) + 2 < |GridVertices(w, minX, maxY, deltaX, deltaY)|
    ensures GridVertices(w, minX, maxY, deltaX, deltaY)[3 * (i * w + j)] == minX + deltaX * j as real
    ensures GridVertices(w, minX, maxY, deltaX, deltaY)[3 * (i * w + j) + 1] == maxY - deltaY * i as real
    ensures GridVertices(w, minX, maxY, deltaX, deltaY)[3 * (i * w + j) + 2] == 0.0
  {
    var corner := IterationCorner(minX, maxY, deltaX, deltaY);
    CornerSize(minX, maxY, deltaX, deltaY);
    ConcatRowMajorAt(w, w, corner, 3, i, j, 0);
    ConcatRowMajorAt(w, w, corner, 3, i, j, 1);
    ConcatRowMajorAt(w, w, corner, 3, i, j, 2);
  }

  lemma CornerSize(minX: real, maxY: real, deltaX: real, deltaY: real)
    ensures forall i: nat, j: nat :: |IterationCorner(minX, maxY, deltaX, deltaY)(i, j)| == 3
  {
  }

  /** Every vertex of the grid has z = 0: the plane lies in z = 0. */
  lemma GridFlat(w: nat, minX: real, maxY: real, deltaX: real, deltaY: real, v: nat)
    requires w > 0 && v < w * w
    ensures 3 * v + 2 < |GridVertices(w, minX, maxY, deltaX, deltaY)|
    ensures GridVertices(w, minX, maxY, deltaX, deltaY)[3 * v + 2] == 0.0
  {
    CellOf(v, w, w);
    var i, j := v / w, v % w;
    assert i * w + j == v;
    GridVertexAt(w, minX, maxY, deltaX, deltaY, i, j);
  }

  /**
   * Cell (i, j) is the (i n + j)-th cell planeFromIteration visits: its
   * triangles (vid, vid + w, vid + 1) and (vid + 1, vid + w, vid + 1 + w),
   * with vid = i w + j and w = n + 1, are block i n + j of the face indices.
   */
  lemma IterationFaceAt(n: int, i: nat, j: nat)
    requires i < n && j < n
    ensures 6 * (i * n + j) + 6 <= |IterationFaces(n)|
    ensures var vid, w := i * (n + 1) + j, n + 1;
            Block(IterationFaces(n), 6, i * n + j) == [vid, vid + w, vid + 1, vid + 1, vid + w, (vid + 1) + w]
  {
    var w := n + 1;
    var cell := IterationCell(w);
    ConcatRowMajorBlock(n, n, cell, 6, i, j);
    CellValue(w, i * w + j, i, j);
  }

  /** The indices of cell (i, j) of an m by m cell grid all name one of the w^2 vertices when w = m + 1. */
  lemma CellInRange(m: nat, w: nat, i: nat, j: nat)
    requires w == m + 1 && i < m && j < m
    ensures forall x :: x in IterationCell(w)(i, j) ==> 0 <= x < w * w
  {
    var vid := i * w + j;
    CellValue(w, vid, i, j);
    MulMonotone(i, m - 1, w);
    assert (m - 1) * w + m + w == w * w - 1;
  }

  /** Every face index of an m by m cell grid with rows of w = m + 1 vertices names one of the w^2 vertices. */
  lemma CellsInRange(m: nat, w: nat)
    requires m > 0 && w == m + 1
    ensures forall x :: x in Concat(RowMajor(m, m, IterationCell(w))) ==> 0 <= x < w * w
  {
    forall i: nat, j: nat, x | i < m && j < m && x in IterationCell(w)(i, j)
      ensures 0 <= x < w * w
    {
      CellInRange(m, w, i, j);
    }
    ConcatRowMajorAll(m, m, IterationCell(w), x => 0 <= x < w * w);
  }

  /** Every face index planeFromIteration appends names one of its (n + 1)^2 vertices. */
  lemma IterationFacesInRange(n: int)
    requires n > 0
    ensures forall x :: x in IterationFaces(n) ==> 0 <= x < (n + 1) * (n + 1)
  {
    CellsInRange(n, n + 1);
  }
}
