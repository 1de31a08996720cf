/**
 * The terrain of the flight demo: a (div + 1) x (div + 1) grid of vertices
 * over a rectangle, stored row by row in flat buffers, triangulated into
 * 2 div^2 triangles, raised and lowered by "fault formation", and shaded
 * with per-vertex normals accumulated from the faces around each vertex.
 *
 * The specification functions below describe what each operation of the
 * `Terrain` class leaves in its buffers; the class's methods are proved to
 * meet them, and the lemmas state what the demo relies on.
 */
module TerrainGrid {
  import opened Geometry
  import opened Grid

  // ---------------------------------------------------------------------
  // Flat vertex buffers

  /** The flat offset of grid vertex (i, j): row i, column j, three numbers per vertex. */
  function Offset(div: nat, i: nat, j: nat): nat
  {
    3 * (i * (div + 1) + j)
  }

  /** The three numbers stored at offsets k, k + 1, k + 2. */
  function VertexAt(buf: seq<real>, k: nat): Vec3
    requires k + 2 < |buf|
  {
    Vec3(buf[k], buf[k + 1], buf[k + 2])
  }

  /** `buf` with the three numbers at offset k overwritten by v. */
  function WithVertex(buf: seq<real>, k: nat, v: Vec3): (r: seq<real>)
    requires k + 2 < |buf|
    ensures |r| == |buf|
    ensures VertexAt(r, k) == v
    ensures forall t {:trigger r[t]} :: 0 <= t < |buf| && (t < k || k + 3 <= t) ==> r[t] == buf[t]
  {
    buf[k := v.x][k + 1 := v.y][k + 2 := v.z]
  }

  /** `buf` with v added to the three numbers at offset k. */
  function AddAt(buf: seq<real>, k: nat, v: Vec3): (r: seq<real>)
    requires k + 2 < |buf|
    ensures |r| == |buf|
  {
    seq(|buf|, t requires 0 <= t < |buf| => if t == k then buf[t] + v.x else if t == k + 1 then buf[t] + v.y else if t == k + 2 then buf[t] + v.z else buf[t])
  }

  /** addNormalAtIndex's effect: v is added to the three numbers at offset k, and every other number is kept. */
  lemma AddAtEffect(buf: seq<real>, k: nat, v: Vec3)
    requires k + 2 < |buf|
    ensures VertexAt(AddAt(buf, k, v), k) == Vec3(buf[k] + v.x, buf[k + 1] + v.y, buf[k + 2] + v.z)
    ensures forall t :: 0 <= t < |buf| && (t < k || k + 3 <= t) ==> AddAt(buf, k, v)[t] == buf[t]
  {
  }

  /** Distinct grid vertices occupy disjoint triples of the flat buffer. */
  lemma {:induction false} OffsetsApart(div: nat, i: nat, j: nat, i': nat, j': nat)
    requires j <= div && j' <= div && (i != i' || j != j')
    ensures Offset(div, i, j) + 3 <= Offset(div, i', j') || Offset(div, i', j') + 3 <= Offset(div, i, j)
  {
    DivModCell(i, j, div + 1);
    DivModCell(i', j', div + 1);
  }

  /**
   * setVertex(v, i, j) then getVertex(p, i, j) gives back v, and every other
   * grid vertex reads as before.
   */
  lemma SetThenGet(buf: seq<real>, div: nat, v: Vec3, i: nat, j: nat, i': nat, j': nat)
    requires j <= div && j' <= div
    requires Offset(div, i, j) + 2 < |buf| && Offset(div, i', j') + 2 < |buf|
    ensures VertexAt(WithVertex(buf, Offset(div, i, j), v), Offset(div, i, j)) == v
    ensures i != i' || j != j' ==>
              VertexAt(WithVertex(buf, Offset(div, i, j), v), Offset(div, i', j')) == VertexAt(buf, Offset(div, i', j'))
  {
    if i != i' || j != j' {
      OffsetsApart(div, i, j, i', j');
    }
  }

  // ---------------------------------------------------------------------
  // Running z bounds

  /** setVertex's update of minZ. */
  function Lower(m: real, z: real): (r: real)
    ensures r <= m && r <= z && (r == m || r == z)
  {
    if z < m then z else m
  }

  /** setVertex's update of maxZ. */
  function Higher(m: real, z: real): (r: real)
    ensures r >= m && r >= z && (r == m || r == z)
  {
    if z > m then z else m
  }

  /** minZ after setVertex has visited grid vertices 0 .. k - 1 (numbered row by row), starting from m. */
  function LowZ(m: real, vb: seq<real>, k: nat): (r: real)
    requires 3 * k <= |vb|
    ensures r <= m
  {
    if k == 0 then m else Lower(LowZ(m, vb, k - 1), vb[3 * (k - 1) + 2])
  }

  /** maxZ after setVertex has visited grid vertices 0 .. k - 1, starting from m. */
  function HighZ(m: real, vb: seq<real>, k: nat): (r: real)
    requires 3 * k <= |vb|
    ensures r >= m
  {
    if k == 0 then m else Higher(HighZ(m, vb, k - 1), vb[3 * (k - 1) + 2])
  }

  /** The running bounds depend only on the z values of the vertices visited. */
  lemma {:induction false} BoundsFrame(lo: real, hi: real, vb: seq<real>, vb': seq<real>, k: nat)
    requires 3 * k <= |vb| && 3 * k <= |vb'|
    requires forall c :: 0 <= c < k ==> vb[3 * c + 2] == vb'[3 * c + 2]
    ensures LowZ(lo, vb, k) == LowZ(lo, vb', k) && HighZ(hi, vb, k) == HighZ(hi, vb', k)
  {
    if k > 0 {
      BoundsFrame(lo, hi, vb, vb', k - 1);
    }
  }

  /** minZ ends at or below every z visited, and maxZ at or above. */
  lemma {:induction false} BoundsCover(lo: real, hi: real, vb: seq<real>, k: nat)
    requires 3 * k <= |vb|
    ensures forall c :: 0 <= c < k ==> LowZ(lo, vb, k) <= vb[3 * c + 2] <= HighZ(hi, vb, k)
  {
    if k > 0 {
      BoundsCover(lo, hi, vb, k - 1);
    }
  }

  /** Every z coordinate of grid vertices 0 .. k - 1 lies in [lo, hi]. */
  ghost predicate ZWithin(vb: seq<real>, k: nat, lo: real, hi: real)
  {
    3 * k <= |vb| && forall c :: 0 <= c < k ==> lo <= vb[3 * c + 2] <= hi
  }

  // ---------------------------------------------------------------------
  // Fault formation (randomHeights)

  /**
   * The random numbers one iteration of randomHeights draws: the three
   * Math.random() results for the point and the height, and the cosine and
   * sine of the angle 2 pi r drawn from the fourth.
   */
  datatype FaultDraw = FaultDraw(rx: real, ry: real, cosTheta: real, sinTheta: real, rh: real)

  /** Math.random() returns a number in [0, 1). */
  predicate ValidDraw(d: FaultDraw)
  {
    0.0 <= d.rx < 1.0 && 0.0 <= d.ry < 1.0 && 0.0 <= d.rh < 1.0
  }

  /** One fault line: a grid point, a direction, and the height to add on one side and subtract on the other. */
  datatype Fault = Fault(randX: int, randY: int, cosTheta: real, sinTheta: real, randH: real)

  /** Scaling a draw in [0, 1) by n >= 1 and rounding down gives an integer in [0, n). */
  lemma FloorBelow(r: real, n: nat)
    requires 0.0 <= r < 1.0 && n >= 1
    ensures 0 <= (r * n as real).Floor < n
  {
    assert (1.0 - r) * n as real > 0.0;
  }

  /** Scaling a draw in [0, 1) by h > 0 gives a number in [0, h). */
  lemma ScaleBelow(r: real, h: real)
    requires 0.0 <= r < 1.0 && h > 0.0
    ensures 0.0 <= r * h < h
  {
    assert (1.0 - r) * h > 0.0;
  }

  /** randX = floor(r * div), randY likewise, randH = r * h + h / 2. */
  function FaultOf(d: FaultDraw, div: nat, h: real): Fault
  {
    Fault((d.rx * div as real).Floor, (d.ry * div as real).Floor, d.cosTheta, d.sinTheta, d.rh * h + h / 2.0)
  }

  /** A fault line's point lies on the grid's cells, and its height lies in [h / 2, 3h / 2). */
  lemma FaultInRange(d: FaultDraw, div: nat, h: real)
    requires ValidDraw(d)
    ensures div >= 1 ==> 0 <= FaultOf(d, div, h).randX < div && 0 <= FaultOf(d, div, h).randY < div
    ensures h > 0.0 ==> h / 2.0 <= FaultOf(d, div, h).randH < h + h / 2.0
  {
    if div >= 1 {
      FloorBelow(d.rx, div);
      FloorBelow(d.ry, div);
    }
    if h > 0.0 {
      ScaleBelow(d.rh, h);
      var s := d.rh * h;
      assert FaultOf(d, div, h).randH == s + h / 2.0;
    }
  }

  /** The new z of the vertex in row x, column y: up by randH on the positive side of the fault line, down otherwise. */
  function Shifted(z: real, f: Fault, x: int, y: int): real
  {
    if (x - f.randX) as real * f.cosTheta + (y - f.randY) as real * f.sinTheta > 0.0 then z + f.randH else z - f.randH
  }

  /** The row of vertex number c in a grid with w vertices per row: c / w, by repeated subtraction. */
  function GridRow(c: nat, w: nat): nat
    requires w > 0
  {
    if c < w then 0 else 1 + GridRow(c - w, w)
  }

  /** The column of vertex number c in a grid with w vertices per row: c % w, by repeated subtraction. */
  function GridCol(c: nat, w: nat): nat
    requires w > 0
  {
    if c < w then c else GridCol(c - w, w)
  }

  /** Vertex x w + y, for y < w, sits in row x and column y. */
  lemma {:induction false} GridRowCol(x: nat, y: nat, w: nat)
    requires y < w
    ensures GridRow(x * w + y, w) == x && GridCol(x * w + y, w) == y
  {
    if x > 0 {
      assert x * w + y - w == (x - 1) * w + y;
      GridRowCol(x - 1, y, w);
    }
  }

  /** The buffer after one fault line has moved grid vertices 0 .. k - 1 (vertex c in row GridRow(c, w), column GridCol(c, w)). */
  function Displaced(vb: seq<real>, w: nat, f: Fault, k: nat): (r: seq<real>)
    requires w > 0
    ensures |r| == |vb|
  {
    seq(|vb|, t requires 0 <= t < |vb| => if t % 3 == 2 && t / 3 < k then Shifted(vb[t], f, GridRow(t / 3, w), GridCol(t / 3, w)) else vb[t])
  }

  /** Moving vertex k = x w + y to its shifted height extends the displacement to k + 1 vertices. */
  lemma {:induction false} DisplaceStep(vb0: seq<real>, vb: seq<real>, w: nat, f: Fault, k: nat, x: nat, y: nat, p: Vec3)
    requires w > 0 && y < w && k == x * w + y && 3 * k + 2 < |vb0|
    requires vb == Displaced(vb0, w, f, k)
    requires p == Vec3(vb[3 * k], vb[3 * k + 1], Shifted(vb[3 * k + 2], f, x, y))
    ensures WithVertex(vb, 3 * k, p) == Displaced(vb0, w, f, k + 1)
    ensures forall c :: 0 <= c < k ==> WithVertex(vb, 3 * k, p)[3 * c + 2] == vb[3 * c + 2]
  {
    GridRowCol(x, y, w);
    var r := WithVertex(vb, 3 * k, p);
    var d := Displaced(vb0, w, f, k + 1);
    forall t | 0 <= t < |vb0|
      ensures r[t] == d[t]
    {
      if t < 3 * k {
        assert t / 3 < k;
      } else if t < 3 * k + 3 {
        assert t / 3 == k;
      } else {
        assert t / 3 > k;
      }
    }
  }

  /** The grid heights and the running bounds, as randomHeights updates them. */
  datatype Heights = Heights(vb: seq<real>, minZ: real, maxZ: real)

  /** Vertex c below k has its z shifted and its x and y kept; vertices from k on are untouched. */
  lemma DisplacedAt(vb: seq<real>, w: nat, f: Fault, k: nat, c: nat)
    requires w > 0 && 3 * c + 2 < |vb|
    ensures Displaced(vb, w, f, k)[3 * c] == vb[3 * c] && Displaced(vb, w, f, k)[3 * c + 1] == vb[3 * c + 1]
    ensures Displaced(vb, w, f, k)[3 * c + 2] == if c < k then Shifted(vb[3 * c + 2], f, GridRow(c, w), GridCol(c, w)) else vb[3 * c + 2]
  {
    assert (3 * c + 2) / 3 == c && (3 * c) % 3 == 0 && (3 * c + 1) % 3 == 1 && (3 * c + 2) % 3 == 2;
  }

  /** One iteration of randomHeights over a w x w grid: every vertex moves, and the bounds follow each setVertex. */
  function FaultPass(s: Heights, w: nat, f: Fault): (r: Heights)
    requires w > 0 && 3 * (w * w) <= |s.vb|
    ensures |r.vb| == |s.vb|
  {
    Closed(s, w, f, w * w)
  }

  /** The heights once grid vertices 0 .. k - 1 have moved, and the running bounds over their new z values. */
  function Closed(s: Heights, w: nat, f: Fault, k: nat): (r: Heights)
    requires w > 0 && 3 * k <= |s.vb|
    ensures |r.vb| == |s.vb|
  {
    var d := Displaced(s.vb, w, f, k);
    Heights(d, LowZ(s.minZ, d, k), HighZ(s.maxZ, d, k))
  }

  /** setVertex on the heights: overwrite the vertex at offset k and widen the bounds to its z. */
  function SetAt(s: Heights, k: nat, v: Vec3): (r: Heights)
    requires k + 2 < |s.vb|
    ensures |r.vb| == |s.vb|
  {
    Heights(WithVertex(s.vb, k, v), Lower(s.minZ, v.z), Higher(s.maxZ, v.z))
  }

  /** getVertex, shift by the fault line, setVertex: what one pass does to vertex (x, y). */
  function ShiftVertex(s: Heights, div: nat, f: Fault, x: nat, y: nat): (r: Heights)
    requires Offset(div, x, y) + 2 < |s.vb|
    ensures |r.vb| == |s.vb|
  {
    var v := VertexAt(s.vb, Offset(div, x, y));
    SetAt(s, Offset(div, x, y), Vec3(v.x, v.y, Shifted(v.z, f, x, y)))
  }

  /**
   * The inner loops of one pass over a grid of div + 1 rows and columns,
   * after rows 0 .. x - 1 and the first y vertices of row x, row by row.
   */
  function Walk(s: Heights, div: nat, f: Fault, x: nat, y: nat): (r: Heights)
    requires y <= div + 1 && 3 * (x * (div + 1) + y) <= |s.vb|
    ensures |r.vb| == |s.vb|
    decreases x, y
  {
    if y == 0 then
      if x == 0 then s
      else
        assert (x - 1) * (div + 1) + (div + 1) == x * (div + 1);
        Walk(s, div, f, x - 1, div + 1)
    else
      ShiftVertex(Walk(s, div, f, x, y - 1), div, f, x, y - 1)
  }

  /** Without shifting anything the heights stay as they are. */
  lemma ClosedNone(s: Heights, w: nat, f: Fault)
    requires w > 0
    ensures Closed(s, w, f, 0) == s
  {
    assert Displaced(s.vb, w, f, 0) == s.vb;
  }

  /** Moving vertex (x, y - 1), number x (div + 1) + y - 1, extends the closed form by one vertex. */
  lemma ClosedStep(s: Heights, div: nat, f: Fault, x: nat, y: nat)
    requires 0 < y <= div + 1 && 3 * (x * (div + 1) + y) <= |s.vb|
    ensures ShiftVertex(Closed(s, div + 1, f, x * (div + 1) + (y - 1)), div, f, x, y - 1) == Closed(s, div + 1, f, x * (div + 1) + y)
  {
    var k := x * (div + 1) + (y - 1);
    var cur := Closed(s, div + 1, f, k);
    var v := VertexAt(cur.vb, Offset(div, x, y - 1));
    HeightStep(s.vb, s.minZ, s.maxZ, div + 1, f, k, x, y - 1, cur.vb, cur.minZ, cur.maxZ, Offset(div, x, y - 1),
               Vec3(v.x, v.y, Shifted(v.z, f, x, y - 1)));
    assert k + 1 == x * (div + 1) + y;
  }

  /** The end of row x - 1 is the start of row x. */
  lemma ClosedRow(s: Heights, div: nat, f: Fault, x: nat)
    requires 0 < x && 3 * (x * (div + 1)) <= |s.vb|
    ensures 3 * ((x - 1) * (div + 1) + (div + 1)) <= |s.vb|
    ensures Closed(s, div + 1, f, (x - 1) * (div + 1) + (div + 1)) == Closed(s, div + 1, f, x * (div + 1) + 0)
  {
    assert (x - 1) * (div + 1) + (div + 1) == x * (div + 1) + 0;
  }

  /** The walk from no vertex visited: the closed form for zero vertices. */
  lemma WalkClosedStart(s: Heights, div: nat, f: Fault, x: nat, y: nat)
    requires x == 0 && y == 0
    ensures Walk(s, div, f, x, y) == Closed(s, div + 1, f, x * (div + 1) + y)
  {
    ClosedNone(s, div + 1, f);
  }

  /** Starting row x continues from the end of row x - 1. */
  lemma {:induction false} WalkClosedRow(s: Heights, div: nat, f: Fault, x: nat, y: nat)
    requires 0 < x && y == 0 && 3 * (x * (div + 1) + y) <= |s.vb|
    ensures Walk(s, div, f, x, y) == Closed(s, div + 1, f, x * (div + 1) + y)
    decreases x, y, 0
  {
    ClosedRow(s, div, f, x);
    WalkClosed(s, div, f, x - 1, div + 1);
  }

  /** Visiting vertex (x, y - 1) keeps the walk and the closed form in step. */
  lemma {:induction false} WalkClosedNext(s: Heights, div: nat, f: Fault, x: nat, y: nat)
    requires 0 < y <= div + 1 && 3 * (x * (div + 1) + y) <= |s.vb|
    ensures Walk(s, div, f, x, y) == Closed(s, div + 1, f, x * (div + 1) + y)
    decreases x, y, 0
  {
    WalkClosed(s, div, f, x, y - 1);
    ClosedStep(s, div, f, x, y);
  }

  /**
   * The walk agrees with the closed form: after k = x (div + 1) + y vertices
   * exactly those k have their z shifted, and the bounds are the running
   * minimum and maximum of their new z values.
   */
  lemma {:induction false} WalkClosed(s: Heights, div: nat, f: Fault, x: nat, y: nat)
    requires y <= div + 1 && 3 * (x * (div + 1) + y) <= |s.vb|
    ensures Walk(s, div, f, x, y) == Closed(s, div + 1, f, x * (div + 1) + y)
    decreases x, y, 1
  {
    if y == 0 {
      if x == 0 {
        WalkClosedStart(s, div, f, x, y);
      } else {
        WalkClosedRow(s, div, f, x, y);
      }
    } else {
      WalkClosedNext(s, div, f, x, y);
    }
  }

  /** Walking all (div + 1)^2 vertices performs one fault pass. */
  lemma WalkPass(s: Heights, div: nat, f: Fault)
    requires 3 * ((div + 1) * (div + 1)) <= |s.vb|
    ensures Walk(s, div, f, div + 1, 0) == FaultPass(s, div + 1, f)
  {
    WalkClosed(s, div, f, div + 1, 0);
  }

  /** randomHeights with the given draws, one fault line per draw, on a grid of div + 1 rows and columns. */
  function Faulted(s: Heights, div: nat, h: real, draws: seq<FaultDraw>): (r: Heights)
    requires 3 * ((div + 1) * (div + 1)) <= |s.vb|
    ensures |r.vb| == |s.vb|
    decreases |draws|
  {
    if draws == [] then s
    else FaultPass(Faulted(s, div, h, draws[..|draws| - 1]), div + 1, FaultOf(draws[|draws| - 1], div, h))
  }

  /**
   * One pass leaves the vertex in row x, column y with its x and y, and moves
   * its z by the fault line: up by randH when the dot product with the fault
   * direction is positive, down by randH otherwise (the two cases of Shifted).
   */
  lemma FaultPassVertex(s: Heights, w: nat, f: Fault, x: nat, y: nat)
    requires w > 0 && 3 * (w * w) <= |s.vb| && x < w && y < w
    ensures Offset(w - 1, x, y) + 2 < |s.vb|
    ensures var v := VertexAt(s.vb, Offset(w - 1, x, y));
            VertexAt(FaultPass(s, w, f).vb, Offset(w - 1, x, y)) == Vec3(v.x, v.y, Shifted(v.z, f, x, y))
  {
    var k := x * w + y;
    CellIndexBelow(x, y, w, w);
    GridRowCol(x, y, w);
    assert Offset(w - 1, x, y) == 3 * k;
    DisplacedAt(s.vb, w, f, w * w, k);
  }

  /** randomHeights changes z coordinates only: every x and y number stays, and so does the length. */
  lemma {:induction false} FaultedOnlyZ(s: Heights, div: nat, h: real, draws: seq<FaultDraw>)
    requires 3 * ((div + 1) * (div + 1)) <= |s.vb|
    ensures |Faulted(s, div, h, draws).vb| == |s.vb|
    ensures forall t :: 0 <= t < |s.vb| && t % 3 != 2 ==> Faulted(s, div, h, draws).vb[t] == s.vb[t]
    decreases |draws|
  {
    if draws != [] {
      FaultedOnlyZ(s, div, h, draws[..|draws| - 1]);
    }
  }

  /** After one pass every grid z lies between the new bounds, which only widen. */
  lemma FaultPassBounded(s: Heights, w: nat, f: Fault)
    requires w > 0 && 3 * (w * w) <= |s.vb|
    ensures ZWithin(FaultPass(s, w, f).vb, w * w, FaultPass(s, w, f).minZ, FaultPass(s, w, f).maxZ)
    ensures FaultPass(s, w, f).minZ <= s.minZ && FaultPass(s, w, f).maxZ >= s.maxZ
  {
    BoundsCover(s.minZ, s.maxZ, Displaced(s.vb, w, f, w * w), w * w);
  }

  /**
   * Fault formation keeps the grid inside its z bounds: when every z lies in
   * [minZ, maxZ] before randomHeights, it does after, and minZ never
   * increases nor maxZ decreases.
   */
  lemma {:induction false} FaultedBounded(s: Heights, div: nat, h: real, draws: seq<FaultDraw>)
    requires ZWithin(s.vb, (div + 1) * (div + 1), s.minZ, s.maxZ)
    ensures ZWithin(Faulted(s, div, h, draws).vb, (div + 1) * (div + 1), Faulted(s, div, h, draws).minZ, Faulted(s, div, h, draws).maxZ)
    ensures Faulted(s, div, h, draws).minZ <= s.minZ && Faulted(s, div, h, draws).maxZ >= s.maxZ
    decreases |draws|
  {
    if draws != [] {
      var prev := Faulted(s, div, h, draws[..|draws| - 1]);
      FaultedBounded(s, div, h, draws[..|draws| - 1]);
      FaultPassBounded(prev, div + 1, FaultOf(draws[|draws| - 1], div, h));
    }
  }

  // ---------------------------------------------------------------------
  // The grid and its triangulation (generateTriangles)

  /** What generateTriangles pushes for grid vertex (i, j): x grows with the column, y with the row, z = 0. */
  function TerrainCorner(minX: real, minY: real, deltaX: real, deltaY: real): (nat, nat) -> seq<real>
  {
    (i: nat, j: nat) => [minX + deltaX * j as real, minY + deltaY * i as real, 0.0]
  }

  /** The normal generateTriangles pushes for every vertex: straight up. */
  function UpNormal(): (nat, nat) -> seq<real>
  {
    (i: nat, j: nat) => [0.0, 0.0, 1.0]
  }

  /** The six indices generateTriangles pushes for cell (i, j) when a grid row holds w vertices. */
  function TerrainCell(w: nat): (nat, nat) -> seq<int>
  {
    (i: nat, j: nat) =>
      var vid := i * w + j;
      [vid, vid + 1, vid + w, vid + 1, vid + 1 + w, vid + w]
  }

  /** The coordinates of a w x w grid with the given spacings, row by row. */
  function GridCoords(w: nat, minX: real, minY: real, deltaX: real, deltaY: real): (r: seq<real>)
    requires w > 0
    ensures |r| == 3 * (w * w)
  {
    RowMajorUniform(w, w, TerrainCorner(minX, minY, deltaX, deltaY), 3);
    ConcatLength(RowMajor(w, w, TerrainCorner(minX, minY, deltaX, deltaY)), 3);
    Concat(RowMajor(w, w, TerrainCorner(minX, minY, deltaX, deltaY)))
  }

  /** The initial normals of a w x w grid: (0, 0, 1) per vertex. */
  function GridNormals(w: nat): (r: seq<real>)
    requires w > 0
    ensures |r| == 3 * (w * w)
  {
    RowMajorUniform(w, w, UpNormal(), 3);
    ConcatLength(RowMajor(w, w, UpNormal()), 3);
    Concat(RowMajor(w, w, UpNormal()))
  }

  /** The triangulation of a grid of div x div cells: two triangles per cell, row by row. */
  function GridFaces(div: nat): (r: seq<int>)
    requires div > 0
    ensures |r| == 6 * (div * div)
  {
    RowMajorUniform(div, div, TerrainCell(div + 1), 6);
    ConcatLength(RowMajor(div, div, TerrainCell(div + 1)), 6);
    Concat(RowMajor(div, div, TerrainCell(div + 1)))
  }

  lemma CornerSize(minX: real, minY: real, deltaX: real, deltaY: real)
    ensures forall i: nat, j: nat :: |TerrainCorner(minX, minY, deltaX, deltaY)(i, j)| == 3
  {
  }

  lemma CornerValue(minX: real, minY: real, deltaX: real, deltaY: real, i: nat, j: nat)
    ensures TerrainCorner(minX, minY, deltaX, deltaY)(i, j) == [minX + deltaX * j as real, minY + deltaY * i as real, 0.0]
  {
    var c := TerrainCorner(minX, minY, deltaX, deltaY)(i, j);
    assert |c| == 3 && c[0] == minX + deltaX * j as real && c[1] == minY + deltaY * i as real && c[2] == 0.0;
  }

  lemma UpValue(i: nat, j: nat)
    ensures UpNormal()(i, j) == [0.0, 0.0, 1.0]
  {
    var c := UpNormal()(i, j);
    assert |c| == 3 && c[0] == 0.0 && c[1] == 0.0 && c[2] == 1.0;
  }

  lemma CellValue(w: nat, vid: int, i: nat, j: nat)
    requires vid == i * w + j
    ensures TerrainCell(w)(i, j) == [vid, vid + 1, vid + w, vid + 1, vid + 1 + w, vid + w]
  {
    var c := TerrainCell(w)(i, j);
    assert |c| == 6 && c[0] == vid && c[1] == vid + 1 && c[2] == vid + w;
    assert c[3] == vid + 1 && c[4] == vid + 1 + w && c[5] == vid + w;
  }

  /** The pushes for vertex (i, j), the k-th, extend both the coordinates and the normals by one vertex. */
  lemma VertexPushed(w: nat, minX: real, minY: real, deltaX: real, deltaY: real,
                     v0: seq<real>, vb: seq<real>, n0: seq<real>, nb: seq<real>, k: nat, i: nat, j: nat)
    requires w > 0 && j < w && k == i * w + j
    requires vb == v0 + Concat(Prefix(k, w, TerrainCorner(minX, minY, deltaX, deltaY)))
    requires nb == n0 + Concat(Prefix(k, w, UpNormal()))
    ensures vb + [minX + deltaX * j as real] + [minY + deltaY * i as real] + [0.0]
            == v0 + Concat(Prefix(k + 1, w, TerrainCorner(minX, minY, deltaX, deltaY)))
    ensures nb + [0.0] + [0.0] + [1.0] == n0 + Concat(Prefix(k + 1, w, UpNormal()))
  {
    AppendCell(v0, vb, k, w, TerrainCorner(minX, minY, deltaX, deltaY), i, j);
    CornerValue(minX, minY, deltaX, deltaY, i, j);
    AppendCell(n0, nb, k, w, UpNormal(), i, j);
    UpValue(i, j);
  }

  /** The six pushes for cell (i, j), the k-th, extend the faces by one cell. */
  lemma CellPushed(m: nat, w: nat, f0: seq<int>, fb: seq<int>, k: nat, vid: int, i: nat, j: nat)
    requires j < m && k == i * m + j && vid == i * w + j
    requires fb == f0 + Concat(Prefix(k, m, TerrainCell(w)))
    requires w == m + 1
    ensures fb + [vid] + [vid + 1] + [vid + m + 1] + [vid + 1] + [vid + 1 + m + 1] + [vid + m + 1]
            == f0 + Concat(Prefix(k + 1, m, TerrainCell(w)))
  {
    AppendCell(f0, fb, k, m, TerrainCell(w), i, j);
    CellValue(w, vid, i, j);
    assert vid + m + 1 == vid + w && vid + 1 + m + 1 == vid + 1 + w;
  }

  /** Grid vertex (i, j) sits at Offset(w - 1, i, j) with value (minX + deltaX j, minY + deltaY i, 0). */
  lemma GridVertexAt(w: nat, minX: real, minY: real, deltaX: real, deltaY: real, i: nat, j: nat)
    requires w > 0 && i < w && j < w
    ensures Offset(w - 1, i, j) + 2 < |GridCoords(w, minX, minY, deltaX, deltaY)|
    ensures VertexAt(GridCoords(w, minX, minY, deltaX, deltaY), Offset(w - 1, i, j))
            == Vec3(minX + deltaX * j as real, minY + deltaY * i as real, 0.0)
  {
    var corner := TerrainCorner(minX, minY, deltaX, deltaY);
    assert Offset(w - 1, i, j) == 3 * (i * w + j);
    CornerSize(minX, minY, deltaX, deltaY);
    ConcatRowMajorAt(w, w, corner, 3, i, j, 0);
    ConcatRowMajorAt(w, w, corner, 3, i, j, 1);
    ConcatRowMajorAt(w, w, corner, 3, i, j, 2);
    CornerValue(minX, minY, deltaX, deltaY, i, j);
  }

  /** The normal generateTriangles pushes for grid vertex (i, j) is (0, 0, 1). */
  lemma GridNormalAt(w: nat, i: nat, j: nat)
    requires w > 0 && i < w && j < w
    ensures Offset(w - 1, i, j) + 2 < |GridNormals(w)|
    ensures VertexAt(GridNormals(w), Offset(w - 1, i, j)) == Vec3(0.0, 0.0, 1.0)
  {
    assert Offset(w - 1, i, j) == 3 * (i * w + j);
    ConcatRowMajorAt(w, w, UpNormal(), 3, i, j, 0);
    ConcatRowMajorAt(w, w, UpNormal(), 3, i, j, 1);
    ConcatRowMajorAt(w, w, UpNormal(), 3, i, j, 2);
    UpValue(i, j);
  }

  /** The fresh grid is flat: every z is 0, so it lies within minZ = maxZ = 0. */
  lemma GridFlat(w: nat, minX: real, minY: real, deltaX: real, deltaY: real)
    requires w > 0
    ensures ZWithin(GridCoords(w, minX, minY, deltaX, deltaY), w * w, 0.0, 0.0)
  {
    var corner := TerrainCorner(minX, minY, deltaX, deltaY);
    forall i: nat, j: nat
      ensures |corner(i, j)| == 3 && corner(i, j)[2] == 0.0
    {
      CornerValue(minX, minY, deltaX, deltaY, i, j);
    }
    RowMajorUniform(w, w, corner, 3);
    ConcatLength(RowMajor(w, w, corner), 3);
    forall c | 0 <= c < w * w
      ensures GridCoords(w, minX, minY, deltaX, deltaY)[3 * c + 2] == 0.0
    {
      ConcatRowMajorComponent(w, w, corner, 3, 2, 0.0, c);
    }
  }

  /** The indices of cell (i, j) of a div x div cell grid all name one of the (div + 1)^2 vertices. */
  lemma CellInRange(m: nat, w: nat, i: nat, j: nat)
    requires w == m + 1 && i < m && j < m
    ensures forall x :: x in TerrainCell(w)(i, j) ==> 0 <= x < w * w
  {
    var vid := i * w + j;
    CellValue(w, vid, i, j);
    MulMonotone(i, m - 1, w);
    assert (m - 1) * w + m + w == w * w - 1;
  }

  /** Every index generateTriangles pushes names one of the (div + 1)^2 vertices. */
  lemma GridFacesInRange(div: nat)
    requires div > 0
    ensures forall x :: x in GridFaces(div) ==> 0 <= x < (div + 1) * (div + 1)
  {
    var w := div + 1;
    forall i: nat, j: nat, x | i < div && j < div && x in TerrainCell(w)(i, j)
      ensures 0 <= x < w * w
    {
      CellInRange(div, w, i, j);
    }
    ConcatRowMajorAll(div, div, TerrainCell(w), x => 0 <= x < w * w);
  }

  /** Every index of the triangulation names a vertex of the (div + 1)^2 grid, with its three numbers in the buffers. */
  lemma GridFacesIndexed(div: nat)
    requires div > 0
    ensures FacesIndexed(GridFaces(div), 3 * ((div + 1) * (div + 1)))
    ensures forall x :: x in GridFaces(div) ==> 0 <= x && x as real < ((div + 1) * (div + 1)) as real
  {
    var fb := GridFaces(div);
    GridFacesInRange(div);
    forall t | 0 <= t < |fb|
      ensures 0 <= fb[t] && 3 * fb[t] + 2 < 3 * ((div + 1) * (div + 1))
    {
      assert fb[t] in fb;
    }
  }

  /**
   * Cell (i, j) is the (i div + j)-th cell generateTriangles visits: its two
   * triangles (vid, vid + 1, vid + w) and (vid + 1, vid + 1 + w, vid + w),
   * with vid = i w + j and w = div + 1, are the six indices of block
   * i div + j of the face list.
   */
  lemma GridFaceAt(div: nat, i: nat, j: nat)
    requires i < div && j < div
    ensures 6 * (i * div + j) + 6 <= |GridFaces(div)|
    ensures var vid, w := i * (div + 1) + j, div + 1;
            Block(GridFaces(div), 6, i * div + j) == [vid, vid + 1, vid + w, vid + 1, vid + 1 + w, vid + w]
  {
    var w := div + 1;
    var cell := TerrainCell(w);
    ConcatRowMajorBlock(div, div, cell, 6, i, j);
    CellValue(w, i * w + j, i, j);
  }

  /** The six face indices of cell (i, j), one by one. */
  lemma CellIndices(div: nat, i: nat, j: nat, k: nat, vid: nat)
    requires i < div && j < div && k == i * div + j && vid == i * (div + 1) + j
    ensures 6 * k + 5 < |GridFaces(div)|
    ensures var fb, w := GridFaces(div), div + 1;
            fb[6 * k] == vid && fb[6 * k + 1] == vid + 1 && fb[6 * k + 2] == vid + w &&
            fb[6 * k + 3] == vid + 1 && fb[6 * k + 4] == vid + 1 + w && fb[6 * k + 5] == vid + w
  {
    GridFaceAt(div, i, j);
    var fb := GridFaces(div);
    var blk := Block(fb, 6, k);
    assert blk[0] == fb[6 * k] && blk[1] == fb[6 * k + 1] && blk[2] == fb[6 * k + 2];
    assert blk[3] == fb[6 * k + 3] && blk[4] == fb[6 * k + 4] && blk[5] == fb[6 * k + 5];
  }

  /** Grid vertex (i, j), the p-th, has coordinates (x, y, 0). */
  lemma CornerAt(w: nat, minX: real, minY: real, deltaX: real, deltaY: real, i: nat, j: nat, p: nat, x: real, y: real)
    requires i < w && j < w && p == i * w + j
    requires x == minX + deltaX * j as real && y == minY + deltaY * i as real
    ensures 3 * p + 2 < |GridCoords(w, minX, minY, deltaX, deltaY)|
    ensures VertexAt(GridCoords(w, minX, minY, deltaX, deltaY), 3 * p) == Vec3(x, y, 0.0)
  {
    assert Offset(w - 1, i, j) == 3 * p;
    GridVertexAt(w, minX, minY, deltaX, deltaY, i, j);
  }

  /** One more step of `delta` along a row or a column. */
  lemma StepAhead(delta: real, n: nat)
    ensures delta * (n + 1) as real == delta * n as real + delta
  {
  }

  /** The four corners of cell (i, j) on the flat grid: columns j and j + 1 of rows i and i + 1. */
  lemma CellCorners(w: nat, minX: real, minY: real, deltaX: real, deltaY: real, i: nat, j: nat, vid: nat)
    requires i + 1 < w && j + 1 < w && vid == i * w + j
    ensures 3 * (vid + 1 + w) + 2 < |GridCoords(w, minX, minY, deltaX, deltaY)|
    ensures var vb := GridCoords(w, minX, minY, deltaX, deltaY);
            var x0, x1 := minX + deltaX * j as real, minX + deltaX * (j + 1) as real;
            var y0, y1 := minY + deltaY * i as real, minY + deltaY * (i + 1) as real;
            VertexAt(vb, 3 * vid) == Vec3(x0, y0, 0.0) &&
            VertexAt(vb, 3 * (vid + 1)) == Vec3(x1, y0, 0.0) &&
            VertexAt(vb, 3 * (vid + w)) == Vec3(x0, y1, 0.0) &&
            VertexAt(vb, 3 * (vid + 1 + w)) == Vec3(x1, y1, 0.0)
  {
    var x0, x1 := minX + deltaX * j as real, minX + deltaX * (j + 1) as real;
    var y0, y1 := minY + deltaY * i as real, minY + deltaY * (i + 1) as real;
    assert vid + w == (i + 1) * w + j by {
      MulSucc(i, w);
    }
    CornerAt(w, minX, minY, deltaX, deltaY, i, j, vid, x0, y0);
    CornerAt(w, minX, minY, deltaX, deltaY, i, j + 1, vid + 1, x1, y0);
    CornerAt(w, minX, minY, deltaX, deltaY, i + 1, j, vid + w, x0, y1);
    CornerAt(w, minX, minY, deltaX, deltaY, i + 1, j + 1, vid + 1 + w, x1, y1);
  }

  // ---------------------------------------------------------------------
  // The wireframe (generateLines)

  /** The three edges of triangle f of the face list, as pairs of indices. */
  function EdgeBlock(fb: seq<int>, f: nat): seq<int>
    requires 3 * f + 2 < |fb|
  {
    [fb[3 * f], fb[3 * f + 1], fb[3 * f + 1], fb[3 * f + 2], fb[3 * f + 2], fb[3 * f]]
  }

  /** The edges of the first k triangles of the face list. */
  function EdgeList(fb: seq<int>, k: nat): seq<int>
    requires 3 * k <= |fb|
  {
    Concat(seq(k, f requires 0 <= f < k => EdgeBlock(fb, f)))
  }

  /** The wireframe edge list of a face list: three index pairs per triangle. */
  function Edges(fb: seq<int>): seq<int>
    requires |fb| % 3 == 0
  {
    EdgeList(fb, |fb| / 3)
  }

  /** Pushing the edges of triangle f extends the edge list by one triangle. */
  lemma {:induction false} EdgeStep(fb: seq<int>, e0: seq<int>, eb: seq<int>, f: nat)
    requires 3 * f + 2 < |fb| && eb == e0 + EdgeList(fb, f)
    ensures eb + [fb[3 * f]] + [fb[3 * f + 1]] + [fb[3 * f + 1]] + [fb[3 * f + 2]] + [fb[3 * f + 2]] + [fb[3 * f]]
            == e0 + EdgeList(fb, f + 1)
  {
    var blocks := seq(f + 1, t requires 0 <= t < f + 1 => EdgeBlock(fb, t));
    assert blocks[..f] == seq(f, t requires 0 <= t < f => EdgeBlock(fb, t));
    assert Concat(blocks) == Concat(blocks[..f]) + blocks[f];
    assert (e0 + Concat(blocks[..f])) + EdgeBlock(fb, f) == e0 + (Concat(blocks[..f]) + EdgeBlock(fb, f));
  }

  /**
   * The edge list has twice as many entries as the face list, and entries
   * 6f .. 6f + 5 are (t0, t1, t1, t2, t2, t0) for triangle f = (t0, t1, t2).
   */
  lemma EdgesShape(fb: seq<int>, f: nat)
    requires |fb| % 3 == 0 && 3 * f < |fb|
    ensures |Edges(fb)| == 2 * |fb|
    ensures 6 * f + 6 <= |Edges(fb)|
    ensures Edges(fb)[6 * f .. 6 * f + 6] == [fb[3 * f], fb[3 * f + 1], fb[3 * f + 1], fb[3 * f + 2], fb[3 * f + 2], fb[3 * f]]
  {
    var blocks := seq(|fb| / 3, t requires 0 <= t < |fb| / 3 => EdgeBlock(fb, t));
    assert Uniform(blocks, 6);
    ConcatLength(blocks, 6);
    ConcatBlock(blocks, 6, f);
  }

  /** Every edge endpoint is a vertex index of the face list. */
  lemma EdgesFromFaces(fb: seq<int>)
    requires |fb| % 3 == 0
    ensures forall x :: x in Edges(fb) ==> x in fb
  {
    var blocks := seq(|fb| / 3, t requires 0 <= t < |fb| / 3 => EdgeBlock(fb, t));
    forall x | x in Edges(fb)
      ensures x in fb
    {
      ConcatMember(blocks, x);
    }
  }

  // ---------------------------------------------------------------------
  // Normals (generateNormals, normalizeNormals)

  /** A buffer of whole triples holds exactly length / 3 of them. */
  lemma WholeTriples(n: nat)
    requires n % 3 == 0
    ensures 3 * (n / 3) == n
  {
  }

  /** Every index of the face list names a vertex with three numbers inside a buffer of length n. */
  ghost predicate FacesIndexed(fb: seq<int>, n: nat)
  {
    forall t :: 0 <= t < |fb| ==> 0 <= fb[t] && 3 * fb[t] + 2 < n
  }

  /** normalize((v2 - v1) x (v3 - v1)) for the triangle with vertex indices p1, p2, p3. */
  function FaceNormal(vb: seq<real>, p1: nat, p2: nat, p3: nat, normalize: Vec3 -> Vec3): Vec3
    requires 3 * p1 + 2 < |vb| && 3 * p2 + 2 < |vb| && 3 * p3 + 2 < |vb|
  {
    var v1 := VertexAt(vb, 3 * p1);
    normalize(Cross(Sub(VertexAt(vb, 3 * p2), v1), Sub(VertexAt(vb, 3 * p3), v1)))
  }

  /** The normal of every triangle of the face list, in order. */
  function FaceNormals(vb: seq<real>, fb: seq<int>, normalize: Vec3 -> Vec3): (r: seq<Vec3>)
    requires FacesIndexed(fb, |vb|)
    ensures |r| == |fb| / 3
  {
    seq(|fb| / 3, f requires 0 <= f < |fb| / 3 => FaceNormal(vb, fb[3 * f], fb[3 * f + 1], fb[3 * f + 2], normalize))
  }

  /** addNormalAtIndex of normal n at the three vertices of triangle f. */
  function AddFace(nb: seq<real>, fb: seq<int>, f: nat, n: Vec3): (r: seq<real>)
    requires 3 * f + 2 < |fb| && FacesIndexed(fb, |nb|)
    ensures |r| == |nb|
  {
    AddAt(AddAt(AddAt(nb, 3 * fb[3 * f], n), 3 * fb[3 * f + 1], n), 3 * fb[3 * f + 2], n)
  }

  /** The normal buffer after the first f triangles have each added their normal to their three vertices. */
  function Accumulated(fb: seq<int>, nb: seq<real>, normals: seq<Vec3>, f: nat): (r: seq<real>)
    requires 3 * f <= |fb| && f <= |normals| && FacesIndexed(fb, |nb|)
    ensures |r| == |nb|
  {
    if f == 0 then nb else AddFace(Accumulated(fb, nb, normals, f - 1), fb, f - 1, normals[f - 1])
  }

  /** The normal of triangle f, from the coordinates of its three vertices. */
  lemma FaceNormalAt(vb: seq<real>, fb: seq<int>, normalize: Vec3 -> Vec3, f: nat, p1: nat, p2: nat, p3: nat, v1: Vec3, v2: Vec3, v3: Vec3)
    requires FacesIndexed(fb, |vb|) && 3 * f + 2 < |fb|
    requires p1 == fb[3 * f] && p2 == fb[3 * f + 1] && p3 == fb[3 * f + 2]
    requires 3 * p1 + 2 < |vb| && 3 * p2 + 2 < |vb| && 3 * p3 + 2 < |vb|
    requires v1 == VertexAt(vb, 3 * p1) && v2 == VertexAt(vb, 3 * p2) && v3 == VertexAt(vb, 3 * p3)
    ensures f < |FaceNormals(vb, fb, normalize)|
    ensures FaceNormals(vb, fb, normalize)[f] == normalize(Cross(Sub(v2, v1), Sub(v3, v1)))
  {
  }

  /** (v2 - v1) x (v3 - v1) for triangle f: the vector generateNormals normalizes for it. */
  ghost function TriangleCross(vb: seq<real>, fb: seq<int>, f: nat): Vec3
    requires FacesIndexed(fb, |vb|) && 3 * f + 2 < |fb|
  {
    var v1 := VertexAt(vb, 3 * fb[3 * f]);
    Cross(Sub(VertexAt(vb, 3 * fb[3 * f + 1]), v1), Sub(VertexAt(vb, 3 * fb[3 * f + 2]), v1))
  }

  /**
   * A cell whose indices are (vid, vid + 1, vid + w) and (vid + 1, vid + 1 + w,
   * vid + w) as at position 6k of the face list, with its corners at
   * columns j, j + 1 and rows i, i + 1 of a grid spaced deltaX and deltaY
   * apart in the plane z = 0: both of its triangles have cross product
   * (0, 0, deltaX deltaY).
   */
  lemma FlatCellCross(vb: seq<real>, fb: seq<int>, k: nat, vid: nat, w: nat,
                      minX: real, minY: real, deltaX: real, deltaY: real, i: nat, j: nat)
    requires FacesIndexed(fb, |vb|) && 6 * k + 5 < |fb|
    requires fb[6 * k] == vid && fb[6 * k + 1] == vid + 1 && fb[6 * k + 2] == vid + w
    requires fb[6 * k + 3] == vid + 1 && fb[6 * k + 4] == vid + 1 + w && fb[6 * k + 5] == vid + w
    requires 3 * (vid + 1 + w) + 2 < |vb|
    requires var x0, x1 := minX + deltaX * j as real, minX + deltaX * (j + 1) as real;
             var y0, y1 := minY + deltaY * i as real, minY + deltaY * (i + 1) as real;
             VertexAt(vb, 3 * vid) == Vec3(x0, y0, 0.0) &&
             VertexAt(vb, 3 * (vid + 1)) == Vec3(x1, y0, 0.0) &&
             VertexAt(vb, 3 * (vid + w)) == Vec3(x0, y1, 0.0) &&
             VertexAt(vb, 3 * (vid + 1 + w)) == Vec3(x1, y1, 0.0)
    ensures TriangleCross(vb, fb, 2 * k) == Vec3(0.0, 0.0, deltaX * deltaY)
    ensures TriangleCross(vb, fb, 2 * k + 1) == Vec3(0.0, 0.0, deltaX * deltaY)
  {
    StepAhead(deltaX, j);
    StepAhead(deltaY, i);
    assert 3 * (2 * k) == 6 * k && 3 * (2 * k + 1) == 6 * k + 3;
  }

  /** The normal generateNormals computes for triangle f is `normalize` of its cross product. */
  lemma TriangleNormal(vb: seq<real>, fb: seq<int>, normalize: Vec3 -> Vec3, f: nat)
    requires FacesIndexed(fb, |vb|) && 3 * f + 2 < |fb|
    ensures f < |FaceNormals(vb, fb, normalize)|
    ensures FaceNormals(vb, fb, normalize)[f] == normalize(TriangleCross(vb, fb, f))
  {
  }

  /**
   * On the flat grid both triangles of cell (i, j) wind counter-clockwise
   * seen from +z: (v2 - v1) x (v3 - v1) is (0, 0, deltaX deltaY).
   */
  lemma GridWindingUp(div: nat, minX: real, minY: real, deltaX: real, deltaY: real, i: nat, j: nat, k: nat)
    requires i < div && j < div && k == i * div + j
    ensures var vb, fb := GridCoords(div + 1, minX, minY, deltaX, deltaY), GridFaces(div);
            FacesIndexed(fb, |vb|) && 6 * k + 5 < |fb| &&
            TriangleCross(vb, fb, 2 * k) == Vec3(0.0, 0.0, deltaX * deltaY) &&
            TriangleCross(vb, fb, 2 * k + 1) == Vec3(0.0, 0.0, deltaX * deltaY)
  {
    var w := div + 1;
    var vid := i * w + j;
    CellIndices(div, i, j, k, vid);
    CellCorners(w, minX, minY, deltaX, deltaY, i, j, vid);
    GridFacesIndexed(div);
    FlatCellCross(GridCoords(w, minX, minY, deltaX, deltaY), GridFaces(div), k, vid, w, minX, minY, deltaX, deltaY, i, j);
  }

  /** Triangle f of the flat grid, whichever cell it belongs to, has cross product (0, 0, deltaX deltaY). */
  lemma GridTriangleUp(div: nat, minX: real, minY: real, deltaX: real, deltaY: real, f: nat)
    requires f < 2 * (div * div)
    ensures var vb, fb := GridCoords(div + 1, minX, minY, deltaX, deltaY), GridFaces(div);
            FacesIndexed(fb, |vb|) && 3 * f + 2 < |fb| &&
            TriangleCross(vb, fb, f) == Vec3(0.0, 0.0, deltaX * deltaY)
  {
    var k := f / 2;
    FaceCell(div, f);
    GridWindingUp(div, minX, minY, deltaX, deltaY, k / div, k % div, k);
    if f == 2 * k {
    } else {
      assert f == 2 * k + 1;
    }
  }

  /** Face f of the grid's 2 div^2 triangles lies in cell k = f / 2, at row k / div and column k % div. */
  lemma FaceCell(div: nat, f: nat)
    requires f < 2 * (div * div)
    ensures div > 0 && f / 2 < div * div && (f == 2 * (f / 2) || f == 2 * (f / 2) + 1)
    ensures f / 2 / div < div && f / 2 % div < div && (f / 2 / div) * div + f / 2 % div == f / 2
  {
    CellOf(f / 2, div, div);
  }

  /** A positive extent split into div >= 1 steps gives a positive step. */
  lemma PositiveSpacing(lo: real, hi: real, div: nat)
    requires div >= 1 && lo < hi
    ensures Spacing(lo, hi, div) > 0.0
  {
  }

  /** Two positive reals have a positive product. */
  lemma PositiveProduct(a: real, b: real)
    requires a > 0.0 && b > 0.0
    ensures a * b > 0.0
  {
  }

  /**
   * For a rectangle with minX < maxX and minY < maxY, every triangle
   * generateTriangles makes faces up (+z) on the flat grid: its cross
   * product points straight up with positive length, so the normals that
   * generateNormals accumulates agree in sign with the initial (0, 0, 1).
   */
  lemma GridFacesUp(div: nat, minX: real, maxX: real, minY: real, maxY: real)
    requires div >= 1 && minX < maxX && minY < maxY
    ensures var vb, fb := GridCoords(div + 1, minX, minY, Spacing(minX, maxX, div), Spacing(minY, maxY, div)), GridFaces(div);
            FacesIndexed(fb, |vb|) && |fb| == 3 * (2 * (div * div)) &&
            forall f :: 0 <= f < 2 * (div * div) ==>
              TriangleCross(vb, fb, f).x == 0.0 && TriangleCross(vb, fb, f).y == 0.0 && TriangleCross(vb, fb, f).z > 0.0
  {
    var dX, dY := Spacing(minX, maxX, div), Spacing(minY, maxY, div);
    var vb, fb := GridCoords(div + 1, minX, minY, dX, dY), GridFaces(div);
    PositiveSpacing(minX, maxX, div);
    PositiveSpacing(minY, maxY, div);
    PositiveProduct(dX, dY);
    GridFacesIndexed(div);
    forall f | 0 <= f < 2 * (div * div)
      ensures TriangleCross(vb, fb, f) == Vec3(0.0, 0.0, dX * dY)
    {
      GridTriangleUp(div, minX, minY, dX, dY, f);
    }
  }

  /** The three addNormalAtIndex calls for triangle f take the buffer from f accumulated triangles to next == f + 1. */
  lemma FaceStep(fb: seq<int>, nb: seq<real>, normals: seq<Vec3>, f: nat, next: nat, n: Vec3,
                 acc: seq<real>, a1: seq<real>, a2: seq<real>, a3: seq<real>, p1: nat, p2: nat, p3: nat)
    requires 3 * f + 2 < |fb| && f < |normals| && FacesIndexed(fb, |nb|) && n == normals[f] && next == f + 1
    requires p1 == fb[3 * f] && p2 == fb[3 * f + 1] && p3 == fb[3 * f + 2]
    requires acc == Accumulated(fb, nb, normals, f)
    requires 3 * p1 + 2 < |acc| && a1 == AddAt(acc, 3 * p1, n)
    requires 3 * p2 + 2 < |a1| && a2 == AddAt(a1, 3 * p2, n)
    requires 3 * p3 + 2 < |a2| && a3 == AddAt(a2, 3 * p3, n)
    ensures a3 == Accumulated(fb, nb, normals, next)
  {
  }

  /** Adding one face's normal leaves the triple of every vertex the face does not name alone. */
  lemma AddFaceUntouched(nb: seq<real>, fb: seq<int>, f: nat, n: Vec3, c: nat)
    requires 3 * f + 2 < |fb| && FacesIndexed(fb, |nb|) && 3 * c + 2 < |nb|
    requires fb[3 * f] != c && fb[3 * f + 1] != c && fb[3 * f + 2] != c
    ensures VertexAt(AddFace(nb, fb, f, n), 3 * c) == VertexAt(nb, 3 * c)
  {
  }

  /** A vertex that no triangle among the first f names keeps its normal. */
  lemma {:induction false} AccumulatedUntouched(fb: seq<int>, nb: seq<real>, normals: seq<Vec3>, f: nat, c: nat)
    requires 3 * f <= |fb| && f <= |normals| && FacesIndexed(fb, |nb|)
    requires 3 * c + 2 < |nb| && forall t :: 0 <= t < 3 * f ==> fb[t] != c
    ensures VertexAt(Accumulated(fb, nb, normals, f), 3 * c) == VertexAt(nb, 3 * c)
  {
    if f > 0 {
      AccumulatedUntouched(fb, nb, normals, f - 1, c);
      AddFaceUntouched(Accumulated(fb, nb, normals, f - 1), fb, f - 1, normals[f - 1], c);
    }
  }

  /** How many of the three corners of triangle g are vertex c. */
  function CornerCount(fb: seq<int>, g: nat, c: int): (r: nat)
    requires 3 * g + 2 < |fb|
    ensures r <= 3
    ensures r == 0 <==> fb[3 * g] != c && fb[3 * g + 1] != c && fb[3 * g + 2] != c
  {
    (if fb[3 * g] == c then 1 else 0) + (if fb[3 * g + 1] == c then 1 else 0) + (if fb[3 * g + 2] == c then 1 else 0)
  }

  /** What the first f triangles add to vertex c: the sum over g < f of normals[g], once per corner of triangle g that is c. */
  function Contribution(fb: seq<int>, normals: seq<Vec3>, f: nat, c: int): Vec3
    requires 3 * f <= |fb| && f <= |normals|
  {
    if f == 0 then Vec3(0.0, 0.0, 0.0)
    else Plus(Contribution(fb, normals, f - 1, c), Scale(CornerCount(fb, f - 1, c) as real, normals[f - 1]))
  }

  /** addNormalAtIndex at vertex p, seen from the triple of vertex c: v is added there exactly when p is c. */
  lemma AddAtVertex(buf: seq<real>, p: nat, c: nat, v: Vec3)
    requires 3 * p + 2 < |buf| && 3 * c + 2 < |buf|
    ensures VertexAt(AddAt(buf, 3 * p, v), 3 * c) == if p == c then Plus(VertexAt(buf, 3 * c), v) else VertexAt(buf, 3 * c)
  {
    AddAtEffect(buf, 3 * p, v);
    if p != c {
      assert 3 * p + 3 <= 3 * c || 3 * c + 3 <= 3 * p;
    }
  }

  /** One triangle's three addNormalAtIndex calls add its normal to vertex c once per corner that is c. */
  lemma AddFaceAt(nb: seq<real>, fb: seq<int>, f: nat, n: Vec3, c: nat)
    requires 3 * f + 2 < |fb| && FacesIndexed(fb, |nb|) && 3 * c + 2 < |nb|
    ensures VertexAt(AddFace(nb, fb, f, n), 3 * c) == Plus(VertexAt(nb, 3 * c), Scale(CornerCount(fb, f, c) as real, n))
  {
    var p1, p2, p3 := fb[3 * f], fb[3 * f + 1], fb[3 * f + 2];
    var a1 := AddAt(nb, 3 * p1, n);
    var a2 := AddAt(a1, 3 * p2, n);
    var a3 := AddAt(a2, 3 * p3, n);
    assert a3 == AddFace(nb, fb, f, n);
    AddAtVertex(nb, p1, c, n);
    AddAtVertex(a1, p2, c, n);
    AddAtVertex(a2, p3, c, n);
    Tally(VertexAt(nb, 3 * c), VertexAt(a1, 3 * c), VertexAt(a2, 3 * c), VertexAt(a3, 3 * c), n, p1 == c, p2 == c, p3 == c);
  }

  /** Adding n at each of three steps whose guard holds adds n times the number of guards that hold. */
  lemma Tally(v0: Vec3, v1: Vec3, v2: Vec3, v3: Vec3, n: Vec3, b1: bool, b2: bool, b3: bool)
    requires v1 == (if b1 then Plus(v0, n) else v0)
    requires v2 == (if b2 then Plus(v1, n) else v1)
    requires v3 == (if b3 then Plus(v2, n) else v2)
    ensures v3 == Plus(v0, Scale(((if b1 then 1 else 0) + (if b2 then 1 else 0) + (if b3 then 1 else 0)) as real, n))
  {
  }

  /**
   * The normal of vertex c after the first f triangles: its initial value
   * plus the normal of every triangle that names it, counted once per
   * corner that is c.
   */
  lemma {:induction false} AccumulatedAt(fb: seq<int>, nb: seq<real>, normals: seq<Vec3>, f: nat, c: nat)
    requires 3 * f <= |fb| && f <= |normals| && FacesIndexed(fb, |nb|) && 3 * c + 2 < |nb|
    ensures VertexAt(Accumulated(fb, nb, normals, f), 3 * c) == Plus(VertexAt(nb, 3 * c), Contribution(fb, normals, f, c))
  {
    if f > 0 {
      var prev := Accumulated(fb, nb, normals, f - 1);
      var add := Scale(CornerCount(fb, f - 1, c) as real, normals[f - 1]);
      AccumulatedAt(fb, nb, normals, f - 1, c);
      AddFaceAt(prev, fb, f - 1, normals[f - 1], c);
      assert VertexAt(Accumulated(fb, nb, normals, f), 3 * c) == Plus(VertexAt(prev, 3 * c), add);
      PlusAssoc(VertexAt(nb, 3 * c), Contribution(fb, normals, f - 1, c), add);
    }
  }

  /** A sum of upward vectors, each counted a whole number of times, points up or is zero. */
  lemma {:induction false} ContributionUp(fb: seq<int>, normals: seq<Vec3>, f: nat, c: int)
    requires 3 * f <= |fb| && f <= |normals|
    requires forall g :: 0 <= g < f ==> normals[g].x == 0.0 && normals[g].y == 0.0 && normals[g].z > 0.0
    ensures var s := Contribution(fb, normals, f, c); s.x == 0.0 && s.y == 0.0 && s.z >= 0.0
  {
    if f > 0 {
      ContributionUp(fb, normals, f - 1, c);
      var k := CornerCount(fb, f - 1, c) as real;
      assert k * normals[f - 1].z >= 0.0;
    }
  }

  /**
   * On the fresh flat grid, with any normalizer that keeps a vector along
   * +z along +z, generateNormals leaves every vertex normal along +z with
   * z at least 1: the initial (0, 0, 1) plus upward face normals.
   */
  lemma GridNormalsUp(div: nat, minX: real, maxX: real, minY: real, maxY: real, normalize: Vec3 -> Vec3)
    requires div >= 1 && minX < maxX && minY < maxY
    requires forall u: Vec3 :: u.x == 0.0 && u.y == 0.0 && u.z > 0.0 ==>
               normalize(u).x == 0.0 && normalize(u).y == 0.0 && normalize(u).z > 0.0
    ensures var vb, nb, fb := GridCoords(div + 1, minX, minY, Spacing(minX, maxX, div), Spacing(minY, maxY, div)), GridNormals(div + 1), GridFaces(div);
            FacesIndexed(fb, |vb|) && FacesIndexed(fb, |nb|) &&
            var acc := Accumulated(fb, nb, FaceNormals(vb, fb, normalize), |fb| / 3);
            forall c :: 0 <= c < (div + 1) * (div + 1) ==>
              3 * c + 2 < |acc| && VertexAt(acc, 3 * c).x == 0.0 && VertexAt(acc, 3 * c).y == 0.0 && VertexAt(acc, 3 * c).z >= 1.0
  {
    var w := div + 1;
    var vb, nb, fb := GridCoords(w, minX, minY, Spacing(minX, maxX, div), Spacing(minY, maxY, div)), GridNormals(w), GridFaces(div);
    GridFacesUp(div, minX, maxX, minY, maxY);
    GridFacesIndexed(div);
    var normals := FaceNormals(vb, fb, normalize);
    var f := |fb| / 3;
    forall g | 0 <= g < f
      ensures normals[g].x == 0.0 && normals[g].y == 0.0 && normals[g].z > 0.0
    {
      TriangleNormal(vb, fb, normalize, g);
    }
    forall c | 0 <= c < w * w
      ensures VertexAt(Accumulated(fb, nb, normals, f), 3 * c).x == 0.0
      ensures VertexAt(Accumulated(fb, nb, normals, f), 3 * c).y == 0.0
      ensures VertexAt(Accumulated(fb, nb, normals, f), 3 * c).z >= 1.0
    {
      CellOf(c, w, w);
      CellOffset(w, c);
      GridNormalAt(w, c / w, c % w);
      AccumulatedUp(fb, nb, normals, f, c);
    }
  }

  /** Vertex c of a w-wide grid sits at row c / w, column c % w. */
  lemma CellOffset(w: nat, c: nat)
    requires w > 0
    ensures Offset(w - 1, c / w, c % w) == 3 * c
  {
  }

  /** A vertex that starts at (0, 0, 1) and receives only upward face normals ends along +z with z at least 1. */
  lemma AccumulatedUp(fb: seq<int>, nb: seq<real>, normals: seq<Vec3>, f: nat, c: nat)
    requires 3 * f <= |fb| && f <= |normals| && FacesIndexed(fb, |nb|) && 3 * c + 2 < |nb|
    requires VertexAt(nb, 3 * c) == Vec3(0.0, 0.0, 1.0)
    requires forall g :: 0 <= g < f ==> normals[g].x == 0.0 && normals[g].y == 0.0 && normals[g].z > 0.0
    ensures var a := VertexAt(Accumulated(fb, nb, normals, f), 3 * c); a.x == 0.0 && a.y == 0.0 && a.z >= 1.0
  {
    AccumulatedAt(fb, nb, normals, f, c);
    ContributionUp(fb, normals, f, c);
  }

  /** The normal buffer with its first f triples replaced by their normalized vectors: normalizeNormals after f passes. */
  function NormalizedUpTo(nb: seq<real>, f: nat, normalize: Vec3 -> Vec3): (r: seq<real>)
    requires 3 * f <= |nb|
    ensures |r| == |nb|
  {
    if f == 0 then nb
    else WithVertex(NormalizedUpTo(nb, f - 1, normalize), 3 * (f - 1), normalize(VertexAt(nb, 3 * (f - 1))))
  }

  /** normalizeNormals: every triple of the normal buffer replaced by its normalized vector. */
  function NormalizedAll(nb: seq<real>, normalize: Vec3 -> Vec3): (r: seq<real>)
    requires |nb| % 3 == 0
    ensures |r| == |nb|
  {
    WholeTriples(|nb|);
    NormalizedUpTo(nb, |nb| / 3, normalize)
  }

  /** The passes so far have not touched the numbers from triple f on. */
  lemma {:induction false} NormalizedUpToRest(nb: seq<real>, f: nat, normalize: Vec3 -> Vec3, t: nat)
    requires 3 * f <= t < |nb|
    ensures NormalizedUpTo(nb, f, normalize)[t] == nb[t]
  {
    if f > 0 {
      NormalizedUpToRest(nb, f - 1, normalize, t);
    }
  }

  /** After f passes, triple g < f holds the normalized triple g of the original buffer. */
  lemma {:induction false} NormalizedUpToAt(nb: seq<real>, f: nat, normalize: Vec3 -> Vec3, g: nat)
    requires 3 * f <= |nb| && g < f
    ensures VertexAt(NormalizedUpTo(nb, f, normalize), 3 * g) == normalize(VertexAt(nb, 3 * g))
  {
    if g < f - 1 {
      NormalizedUpToAt(nb, f - 1, normalize, g);
    }
  }

  /** Triple f of the normalized buffer is the normalized triple f. */
  lemma NormalizedAt(nb: seq<real>, normalize: Vec3 -> Vec3, f: nat)
    requires |nb| % 3 == 0 && 3 * f < |nb|
    ensures 3 * f + 2 < |NormalizedAll(nb, normalize)|
    ensures VertexAt(NormalizedAll(nb, normalize), 3 * f) == normalize(VertexAt(nb, 3 * f))
  {
    WholeTriples(|nb|);
    NormalizedUpToAt(nb, |nb| / 3, normalize, f);
  }

  /** One more draw adds one more fault pass, with the fault line that draw determines. */
  lemma FaultedStep(s: Heights, div: nat, h: real, draws: seq<FaultDraw>, i: nat)
    requires 3 * ((div + 1) * (div + 1)) <= |s.vb| && i < |draws|
    ensures Faulted(s, div, h, draws[..i + 1])
         == FaultPass(Faulted(s, div, h, draws[..i]), div + 1, FaultOf(draws[i], div, h))
  {
    assert draws[..i + 1][..i] == draws[..i];
  }

  /** A step of randomHeights' inner loop: one setVertex at offset off = 3k extends the displacement and the running bounds to one more vertex. */
  lemma HeightStep(vb0: seq<real>, m0: real, M0: real, w: nat, f: Fault, k: nat, x: nat, y: nat,
                   vb: seq<real>, lo: real, hi: real, off: nat, p: Vec3)
    requires w > 0 && y < w && k == x * w + y && 3 * k + 2 < |vb0| && off == 3 * k
    requires vb == Displaced(vb0, w, f, k) && lo == LowZ(m0, vb, k) && hi == HighZ(M0, vb, k)
    requires p == Vec3(VertexAt(vb, off).x, VertexAt(vb, off).y, Shifted(VertexAt(vb, off).z, f, x, y))
    ensures WithVertex(vb, off, p) == Displaced(vb0, w, f, k + 1)
    ensures Lower(lo, p.z) == LowZ(m0, WithVertex(vb, off, p), k + 1)
    ensures Higher(hi, p.z) == HighZ(M0, WithVertex(vb, off, p), k + 1)
  {
    DisplaceStep(vb0, vb, w, f, k, x, y, p);
    BoundsFrame(m0, M0, vb, WithVertex(vb, off, p), k);
  }

  // ---------------------------------------------------------------------
  // What the constructor builds

  /** The buffers and bounds of a terrain. */
  datatype Built = Built(vb: seq<real>, nb: seq<real>, fb: seq<int>, eb: seq<int>, minZ: real, maxZ: real)

  /** Six indices per cell make a whole number of triangles, 2 per cell. */
  lemma SixPerCell(cells: nat)
    ensures (6 * cells) % 3 == 0 && (6 * cells) / 3 == 2 * cells
  {
  }

  /** Three numbers per vertex make a whole number of triples. */
  lemma ThreePerVertex(n: nat)
    ensures (3 * n) % 3 == 0 && (3 * n) / 3 == n && (3 * n) as real / 3.0 == n as real
  {
  }

  /** The spacing generateTriangles uses between neighbouring vertices along an axis: (max - min) / div. */
  function Spacing(lo: real, hi: real, div: nat): (r: real)
    requires div >= 1
    ensures r * div as real == hi - lo
  {
    (hi - lo) / div as real
  }

  /**
   * The flat grid generateTriangles builds with spacings deltaX and deltaY,
   * after randomHeights' fault lines of the given height.
   */
  function FaultedGrid(div: nat, minX: real, minY: real, deltaX: real, deltaY: real, height: real, draws: seq<FaultDraw>): (r: Heights)
    requires div >= 1
    ensures |r.vb| == 3 * ((div + 1) * (div + 1))
  {
    Faulted(Heights(GridCoords(div + 1, minX, minY, deltaX, deltaY), 0.0, 0.0), div, height, draws)
  }

  /**
   * The terrain the constructor builds from its arguments: the flat grid
   * with up normals and its triangulation (generateTriangles), the
   * wireframe (generateLines), 100 fault lines of height (maxX - minY) / 150
   * (randomHeights), then face normals accumulated per vertex
   * (generateNormals) and normalized (normalizeNormals).
   */
  function Build(div: nat, minX: real, maxX: real, minY: real, maxY: real,
                 draws: seq<FaultDraw>, normalize: Vec3 -> Vec3): (r: Built)
    requires div >= 1
    ensures |r.vb| == 3 * ((div + 1) * (div + 1)) && |r.nb| == |r.vb|
  {
    var w := div + 1;
    var fb := GridFaces(div);
    var h := FaultedGrid(div, minX, minY, Spacing(minX, maxX, div), Spacing(minY, maxY, div), (maxX - minY) / 150.0, draws);
    GridFacesIndexed(div);
    SixPerCell(div * div);
    ThreePerVertex(w * w);
    var nb := NormalizedAll(Accumulated(fb, GridNormals(w), FaceNormals(h.vb, fb, normalize), |fb| / 3), normalize);
    Built(h.vb, nb, fb, Edges(fb), h.minZ, h.maxZ)
  }

  /** Build, phase by phase: the faulted grid, its triangulation and wireframe, the accumulated then normalized normals. */
  lemma BuildSteps(div: nat, minX: real, maxX: real, minY: real, maxY: real, draws: seq<FaultDraw>, normalize: Vec3 -> Vec3)
    requires div >= 1
    requires |GridFaces(div)| % 3 == 0 && |GridNormals(div + 1)| % 3 == 0
    requires FacesIndexed(GridFaces(div), 3 * ((div + 1) * (div + 1)))
    ensures var fb := GridFaces(div);
            var h := FaultedGrid(div, minX, minY, Spacing(minX, maxX, div), Spacing(minY, maxY, div), (maxX - minY) / 150.0, draws);
            Build(div, minX, maxX, minY, maxY, draws, normalize)
            == Built(h.vb, NormalizedAll(Accumulated(fb, GridNormals(div + 1), FaceNormals(h.vb, fb, normalize), |fb| / 3), normalize),
                     fb, Edges(fb), h.minZ, h.maxZ)
  {
  }

  /**
   * Every normal the constructor leaves in nBuffer comes out of `normalize`:
   * whatever `normalize` guarantees of its results (unit length, say), every
   * vertex normal of the built terrain has.
   */
  lemma BuildNormalsNormalized(div: nat, minX: real, maxX: real, minY: real, maxY: real, draws: seq<FaultDraw>,
                               normalize: Vec3 -> Vec3, P: Vec3 -> bool)
    requires div >= 1
    requires forall u :: P(normalize(u))
    ensures var r := Build(div, minX, maxX, minY, maxY, draws, normalize);
            forall c :: 0 <= c < (div + 1) * (div + 1) ==> 3 * c + 2 < |r.nb| && P(VertexAt(r.nb, 3 * c))
  {
    var w := div + 1;
    var fb := GridFaces(div);
    var h := FaultedGrid(div, minX, minY, Spacing(minX, maxX, div), Spacing(minY, maxY, div), (maxX - minY) / 150.0, draws);
    GridFacesIndexed(div);
    SixPerCell(div * div);
    ThreePerVertex(w * w);
    BuildSteps(div, minX, maxX, minY, maxY, draws, normalize);
    var acc := Accumulated(fb, GridNormals(w), FaceNormals(h.vb, fb, normalize), |fb| / 3);
    forall c | 0 <= c < w * w
      ensures 3 * c + 2 < |NormalizedAll(acc, normalize)| && P(VertexAt(NormalizedAll(acc, normalize), 3 * c))
    {
      NormalizedAt(acc, normalize, c);
    }
  }

  /**
   * The built terrain has (div + 1)^2 vertices and normals, 2 div^2
   * triangles whose indices all name a vertex, and a wireframe of three
   * index pairs per triangle.
   */
  lemma BuildShape(div: nat, minX: real, maxX: real, minY: real, maxY: real, draws: seq<FaultDraw>, normalize: Vec3 -> Vec3)
    requires div >= 1
    ensures var r := Build(div, minX, maxX, minY, maxY, draws, normalize);
            |r.vb| == 3 * ((div + 1) * (div + 1)) && |r.nb| == |r.vb| &&
            |r.fb| == 3 * (2 * (div * div)) && |r.eb| == 2 * |r.fb| &&
            (forall x :: x in r.fb ==> 0 <= x < (div + 1) * (div + 1)) &&
            (forall x :: x in r.eb ==> x in r.fb)
  {
    var r := Build(div, minX, maxX, minY, maxY, draws, normalize);
    GridFacesInRange(div);
    SixPerCell(div * div);
    EdgesFromFaces(r.fb);
    EdgesShape(r.fb, 0);
  }

  /** Fault formation on the flat grid keeps every height within the running bounds, which contain 0. */
  lemma FaultedGridBounded(div: nat, minX: real, minY: real, deltaX: real, deltaY: real, height: real, draws: seq<FaultDraw>)
    requires div >= 1
    ensures var h := FaultedGrid(div, minX, minY, deltaX, deltaY, height, draws);
            ZWithin(h.vb, (div + 1) * (div + 1), h.minZ, h.maxZ) && h.minZ <= 0.0 <= h.maxZ
  {
    GridFlat(div + 1, minX, minY, deltaX, deltaY);
    FaultedBounded(Heights(GridCoords(div + 1, minX, minY, deltaX, deltaY), 0.0, 0.0), div, height, draws);
  }

  /** Fault formation moves heights only: vertex (i, j) keeps x = minX + deltaX j and y = minY + deltaY i. */
  lemma FaultedGridPlan(div: nat, minX: real, minY: real, deltaX: real, deltaY: real, height: real, draws: seq<FaultDraw>,
                        i: nat, j: nat)
    requires div >= 1 && i <= div && j <= div
    ensures var h := FaultedGrid(div, minX, minY, deltaX, deltaY, height, draws);
            Offset(div, i, j) + 2 < |h.vb| &&
            h.vb[Offset(div, i, j)] == minX + deltaX * j as real &&
            h.vb[Offset(div, i, j) + 1] == minY + deltaY * i as real
  {
    var coords := GridCoords(div + 1, minX, minY, deltaX, deltaY);
    var k := Offset(div, i, j);
    assert coords[k] == minX + deltaX * j as real && coords[k + 1] == minY + deltaY * i as real by {
      assert div + 1 - 1 == div;
      GridVertexAt(div + 1, minX, minY, deltaX, deltaY, i, j);
    }
    FaultedOnlyZ(Heights(coords, 0.0, 0.0), div, height, draws);
    ThreeBlock(i * (div + 1) + j);
  }

  // ---------------------------------------------------------------------
  // The Terrain class

  class Terrain {
    /** Number of cells along each axis: the grid has div + 1 rows and columns of vertices. */
    const div: nat
    /** The extent of the grid; the source never writes these after construction. */
    const minX: real
    const maxX: real
    const minY: real
    const maxY: real
    /** Running bounds of the z coordinates written by setVertex. */
    var minZ: real
    var maxZ: real
    /** Vertex coordinates, three per vertex, row by row. */
    var vBuffer: seq<real>
    /** Per-vertex normals, three numbers per vertex. */
    var nBuffer: seq<real>
    /** Triangles, three vertex indices each. */
    var fBuffer: seq<int>
    /** Wireframe edges, two vertex indices each. */
    var eBuffer: seq<int>
    /** vBuffer.length / 3 and fBuffer.length / 3, as JavaScript divides. */
    var numVertices: real
    var numFaces: real

    /**
     * The constructor: stores the grid's extent, then generateTriangles,
     * generateLines, randomHeights(100, (maxX - minY) / 150), generateNormals
     * and normalizeNormals, in that order. `draws` are the random numbers of
     * the 100 fault lines.
     */
    constructor(div: nat, minX: real, maxX: real, minY: real, maxY: real,
                draws: seq<FaultDraw>, normalize: Vec3 -> Vec3)
      requires div >= 1
      requires |draws| == 100 && forall d <- draws :: ValidDraw(d)
      ensures this.div == div && this.minX == minX && this.maxX == maxX && this.minY == minY && this.maxY == maxY
      ensures Built(vBuffer, nBuffer, fBuffer, eBuffer, minZ, maxZ) == Build(div, minX, maxX, minY, maxY, draws, normalize)
      ensures numVertices == ((div + 1) * (div + 1)) as real && numFaces == (2 * (div * div)) as real
    {
      this.div := div;
      this.minX := minX;
      this.minY := minY;
      this.minZ := 0.0;
      this.maxX := maxX;
      this.maxY := maxY;
      this.maxZ := 0.0;
      vBuffer := [];
      fBuffer := [];
      nBuffer := [];
      eBuffer := [];
      numVertices := 0.0;
      numFaces := 0.0;
      new;
      GenerateTriangles();
      assert Heights(vBuffer, minZ, maxZ)
             == Heights(GridCoords(div + 1, minX, minY, Spacing(minX, maxX, div), Spacing(minY, maxY, div)), 0.0, 0.0)
             && nBuffer == GridNormals(div + 1) && fBuffer == GridFaces(div) by {
        assert [] + GridCoords(div + 1, minX, minY, Spacing(minX, maxX, div), Spacing(minY, maxY, div))
               == GridCoords(div + 1, minX, minY, Spacing(minX, maxX, div), Spacing(minY, maxY, div));
        assert [] + GridNormals(div + 1) == GridNormals(div + 1) && [] + GridFaces(div) == GridFaces(div);
      }
      assert numVertices == ((div + 1) * (div + 1)) as real && numFaces == (2 * (div * div)) as real
             && |fBuffer| % 3 == 0 && |nBuffer| % 3 == 0 by {
        ThreePerVertex((div + 1) * (div + 1));
        SixPerCell(div * div);
      }
      GenerateLines();
      assert eBuffer == Edges(fBuffer) by {
        assert [] + Edges(fBuffer) == Edges(fBuffer);
      }
      GridFacesIndexed(div);
      ghost var fb, eb, counts := fBuffer, eBuffer, (numVertices, numFaces);
      ShapeSurface(draws, normalize);
      assert fBuffer == fb && eBuffer == eb && (numVertices, numFaces) == counts;
      BuildSteps(div, minX, maxX, minY, maxY, draws, normalize);
    }

    /**
     * The rest of the constructor, on the flat grid: randomHeights(100,
     * (maxX - minY) / 150), generateNormals and normalizeNormals.
     */
    method ShapeSurface(draws: seq<FaultDraw>, normalize: Vec3 -> Vec3)
      requires div >= 1
      requires |draws| == 100 && forall d <- draws :: ValidDraw(d)
      requires Heights(vBuffer, minZ, maxZ)
               == Heights(GridCoords(div + 1, minX, minY, Spacing(minX, maxX, div), Spacing(minY, maxY, div)), 0.0, 0.0)
      requires nBuffer == GridNormals(div + 1) && |nBuffer| % 3 == 0
      requires |fBuffer| % 3 == 0 && FacesIndexed(fBuffer, 3 * ((div + 1) * (div + 1)))
      modifies this`vBuffer, this`minZ, this`maxZ, this`nBuffer
      ensures Heights(vBuffer, minZ, maxZ)
              == FaultedGrid(div, minX, minY, Spacing(minX, maxX, div), Spacing(minY, maxY, div), (maxX - minY) / 150.0, draws)
      ensures nBuffer == NormalizedAll(Accumulated(fBuffer, GridNormals(div + 1), FaceNormals(vBuffer, fBuffer, normalize), |fBuffer| / 3),
                                       normalize)
    {
      var delta := (maxX - minY) / 150.0;
      RandomHeights(100, delta, draws);
      ghost var hs := Heights(vBuffer, minZ, maxZ);
      assert hs == FaultedGrid(div, minX, minY, Spacing(minX, maxX, div), Spacing(minY, maxY, div), (maxX - minY) / 150.0, draws);
      GenerateNormals(normalize);
      ghost var acc := nBuffer;
      assert acc == Accumulated(fBuffer, GridNormals(div + 1), FaceNormals(vBuffer, fBuffer, normalize), |fBuffer| / 3);
      assert Heights(vBuffer, minZ, maxZ) == hs;
      NormalizeNormals(normalize);
      assert Heights(vBuffer, minZ, maxZ) == hs;
    }

    /** setVertex(v, i, j): overwrite vertex (i, j) and widen [minZ, maxZ] to include its z. */
    method SetVertex(v: Vec3, i: nat, j: nat)
      requires Offset(div, i, j) + 2 < |vBuffer|
      modifies this`vBuffer, this`minZ, this`maxZ
      ensures Heights(vBuffer, minZ, maxZ) == SetAt(Heights(old(vBuffer), old(minZ), old(maxZ)), Offset(div, i, j), v)
      ensures VertexAt(vBuffer, Offset(div, i, j)) == v
      ensures minZ <= v.z <= maxZ && minZ <= old(minZ) && maxZ >= old(maxZ)
    {
      var vid := 3 * (i * (div + 1) + j);
      vBuffer := vBuffer[vid + 0 := v.x];
      vBuffer := vBuffer[vid + 1 := v.y];
      vBuffer := vBuffer[vid + 2 := v.z];
      if v.z < minZ {
        minZ := v.z;
      }
      if v.z > maxZ {
        maxZ := v.z;
      }
    }

    /** getVertex(v, i, j): the coordinates of vertex (i, j). */
    method GetVertex(i: nat, j: nat) returns (v: Vec3)
      requires Offset(div, i, j) + 2 < |vBuffer|
      ensures v == VertexAt(vBuffer, Offset(div, i, j))
    {
      var vid := 3 * (i * (div + 1) + j);
      v := Vec3(vBuffer[vid], vBuffer[vid + 1], vBuffer[vid + 2]);
    }

    /** getVertexAtIndex(v, i): the coordinates of the vertex numbered i. */
    method GetVertexAtIndex(i: nat) returns (v: Vec3)
      requires 3 * i + 2 < |vBuffer|
      ensures v == VertexAt(vBuffer, 3 * i)
    {
      var index := 3 * i;
      v := Vec3(vBuffer[index], vBuffer[index + 1], vBuffer[index + 2]);
    }

    /** addNormalAtIndex(v, i): add v to the normal of the vertex numbered i. */
    method AddNormalAtIndex(v: Vec3, i: nat)
      requires 3 * i + 2 < |nBuffer|
      modifies this`nBuffer
      ensures nBuffer == AddAt(old(nBuffer), 3 * i, v)
    {
      var index := 3 * i;
      nBuffer := nBuffer[index := nBuffer[index] + v.x];
      nBuffer := nBuffer[index + 1 := nBuffer[index + 1] + v.y];
      nBuffer := nBuffer[index + 2 := nBuffer[index + 2] + v.z];
    }

    /** generateTriangles: append the grid's vertices, up normals and triangles, and record the counts. */
    method GenerateTriangles()
      requires div >= 1
      modifies this`vBuffer, this`nBuffer, this`fBuffer, this`numVertices, this`numFaces
      ensures vBuffer == old(vBuffer) + GridCoords(div + 1, minX, minY, Spacing(minX, maxX, div), Spacing(minY, maxY, div))
      ensures nBuffer == old(nBuffer) + GridNormals(div + 1)
      ensures fBuffer == old(fBuffer) + GridFaces(div)
      ensures numVertices == |vBuffer| as real / 3.0 && numFaces == |fBuffer| as real / 3.0
    {
      var deltaX := Spacing(minX, maxX, div);
      var deltaY := Spacing(minY, maxY, div);
      PushGridVertices(deltaX, deltaY);
      PushGridFaces();
      numVertices := |vBuffer| as real / 3.0;
      numFaces := |fBuffer| as real / 3.0;
    }

    /** The first loop nest of generateTriangles: (div + 1)^2 vertices with their normals. */
    method PushGridVertices(deltaX: real, deltaY: real)
      modifies this`vBuffer, this`nBuffer
      ensures vBuffer == old(vBuffer) + GridCoords(div + 1, minX, minY, deltaX, deltaY)
      ensures nBuffer == old(nBuffer) + GridNormals(div + 1)
    {
      ghost var v0, n0 := vBuffer, nBuffer;
      ghost var k: nat := 0;
      var i := 0;
      while i <= div
        invariant 0 <= i <= div + 1 && k == i * (div + 1)
        invariant vBuffer == v0 + Concat(Prefix(k, div + 1, TerrainCorner(minX, minY, deltaX, deltaY)))
        invariant nBuffer == n0 + Concat(Prefix(k, div + 1, UpNormal()))
      {
        PushGridRow(i, deltaX, deltaY, v0, n0, k);
        k := k + (div + 1);
        i := i + 1;
      }
    }

    /** One pass of the outer loop of generateTriangles' first loop nest: the vertices of row i, which start at vertex k. */
    method PushGridRow(i: nat, deltaX: real, deltaY: real, ghost v0: seq<real>, ghost n0: seq<real>, ghost k0: nat)
      requires k0 == i * (div + 1)
      requires vBuffer == v0 + Concat(Prefix(k0, div + 1, TerrainCorner(minX, minY, deltaX, deltaY)))
      requires nBuffer == n0 + Concat(Prefix(k0, div + 1, UpNormal()))
      modifies this`vBuffer, this`nBuffer
      ensures k0 + (div + 1) == (i + 1) * (div + 1)
      ensures vBuffer == v0 + Concat(Prefix(k0 + (div + 1), div + 1, TerrainCorner(minX, minY, deltaX, deltaY)))
      ensures nBuffer == n0 + Concat(Prefix(k0 + (div + 1), div + 1, UpNormal()))
    {
      var d, x0, y0 := div, minX, minY;
      ghost var corner := TerrainCorner(x0, y0, deltaX, deltaY);
      ghost var k := k0;
      var j := 0;
      while j <= d
        invariant 0 <= j <= d + 1 && k == k0 + j
        invariant vBuffer == v0 + Concat(Prefix(k, d + 1, corner))
        invariant nBuffer == n0 + Concat(Prefix(k, d + 1, UpNormal()))
      {
        ghost var vb, nb := vBuffer, nBuffer;
        vBuffer := vBuffer + [x0 + deltaX * j as real];
        vBuffer := vBuffer + [y0 + deltaY * i as real];
        vBuffer := vBuffer + [0.0];

        nBuffer := nBuffer + [0.0];
        nBuffer := nBuffer + [0.0];
        nBuffer := nBuffer + [1.0];
        VertexPushed(d + 1, x0, y0, deltaX, deltaY, v0, vb, n0, nb, k, i, j);
        k := k + 1;
        j := j + 1;
      }
      MulSucc(i, d + 1);
    }

    /** The second loop nest of generateTriangles: two triangles per cell. */
    method PushGridFaces()
      requires div >= 1
      modifies this`fBuffer
      ensures fBuffer == old(fBuffer) + GridFaces(div)
    {
      var d := div;
      ghost var f0 := fBuffer;
      ghost var k := 0;
      var i := 0;
      while i < d
        invariant 0 <= i <= d && k == i * d
        invariant fBuffer == f0 + Concat(Prefix(k, d, TerrainCell(d + 1)))
      {
        var j := 0;
        while j < d
          invariant 0 <= j <= d && k == i * d + j
          invariant fBuffer == f0 + Concat(Prefix(k, d, TerrainCell(d + 1)))
        {
          var vid := i * (d + 1) + j;
          ghost var fb := fBuffer;
          fBuffer := fBuffer + [vid];
          fBuffer := fBuffer + [vid + 1];
          fBuffer := fBuffer + [vid + d + 1];

          fBuffer := fBuffer + [vid + 1];
          fBuffer := fBuffer + [vid + 1 + d + 1];
          fBuffer := fBuffer + [vid + d + 1];
          CellPushed(d, d + 1, f0, fb, k, vid, i, j);
          k := k + 1;
          j := j + 1;
        }
        assert i * d + d == (i + 1) * d;
        i := i + 1;
      }
    }

    /**
     * generateLines: append the three edges of every triangle. The source
     * loops while f < fBuffer.length / 3 in real division; with a whole
     * number of triangles that is |fBuffer| / 3 iterations.
     */
    method GenerateLines()
      requires |fBuffer| % 3 == 0
      modifies this`eBuffer
      ensures eBuffer == old(eBuffer) + Edges(fBuffer)
    {
      ghost var e0 := eBuffer;
      var numTris := |fBuffer| / 3;
      var f := 0;
      while f < numTris
        invariant 0 <= f <= numTris
        invariant eBuffer == e0 + EdgeList(fBuffer, f)
      {
        var fid := f * 3;
        ghost var eb := eBuffer;
        eBuffer := eBuffer + [fBuffer[fid]];
        eBuffer := eBuffer + [fBuffer[fid + 1]];

        eBuffer := eBuffer + [fBuffer[fid + 1]];
        eBuffer := eBuffer + [fBuffer[fid + 2]];

        eBuffer := eBuffer + [fBuffer[fid + 2]];
        eBuffer := eBuffer + [fBuffer[fid]];
        EdgeStep(fBuffer, e0, eb, f);
        f := f + 1;
      }
    }

    /**
     * generateNormals: add the normal of every triangle to each of its three
     * vertices; `normalize` is vec3.normalize.
     */
    method GenerateNormals(normalize: Vec3 -> Vec3)
      requires |fBuffer| % 3 == 0
      requires FacesIndexed(fBuffer, |vBuffer|) && FacesIndexed(fBuffer, |nBuffer|)
      modifies this`nBuffer
      ensures |nBuffer| == |old(nBuffer)|
      ensures nBuffer == Accumulated(fBuffer, old(nBuffer), FaceNormals(vBuffer, fBuffer, normalize), |fBuffer| / 3)
    {
      ghost var n0 := nBuffer;
      ghost var normals := FaceNormals(vBuffer, fBuffer, normalize);
      var numTris := |fBuffer| / 3;
      WholeTriples(|fBuffer|);
      var f: nat := 0;
      while f < numTris
        invariant 0 <= f <= numTris && 3 * numTris == |fBuffer|
        invariant NormalsAdded(n0, normals, normalize, f)
      {
        f := AddFaceNormal(f, normalize, n0, normals);
      }
    }

    /** The normal buffer after f passes of generateNormals' loop over the normals of the current mesh. */
    ghost predicate NormalsAdded(n0: seq<real>, normals: seq<Vec3>, normalize: Vec3 -> Vec3, f: nat)
      reads this
    {
      3 * f <= |fBuffer| && |nBuffer| == |n0|
      && FacesIndexed(fBuffer, |vBuffer|) && FacesIndexed(fBuffer, |n0|)
      && normals == FaceNormals(vBuffer, fBuffer, normalize)
      && nBuffer == Accumulated(fBuffer, n0, normals, f)
    }

    /** One pass of generateNormals' loop: the normal of triangle f added to its three vertices; returns f + 1, the loop's next counter. */
    method AddFaceNormal(f: nat, normalize: Vec3 -> Vec3, ghost n0: seq<real>, ghost normals: seq<Vec3>) returns (next: nat)
      requires 3 * f + 2 < |fBuffer| && NormalsAdded(n0, normals, normalize, f)
      modifies this`nBuffer
      ensures next == f + 1 && NormalsAdded(n0, normals, normalize, next)
    {
      ghost var vb0, fb0 := vBuffer, fBuffer;
      var fid := 3 * f;
      var p1 := fBuffer[fid];
      var p2 := fBuffer[fid + 1];
      var p3 := fBuffer[fid + 2];

      var v1 := GetVertexAtIndex(p1);
      var v2 := GetVertexAtIndex(p2);
      var v3 := GetVertexAtIndex(p3);

      FaceNormalAt(vb0, fb0, normalize, f, p1, p2, p3, v1, v2, v3);

      v2 := Sub(v2, v1);
      v3 := Sub(v3, v1);

      var normal := normalize(Cross(v2, v3));

      ghost var acc := nBuffer;
      AddNormalAtIndex(normal, p1);
      ghost var a1 := nBuffer;
      AddNormalAtIndex(normal, p2);
      ghost var a2 := nBuffer;
      AddNormalAtIndex(normal, p3);
      next := f + 1;
      FaceStep(fb0, n0, normals, f, next, normal, acc, a1, a2, nBuffer, p1, p2, p3);
    }

    /** normalizeNormals: normalize every normal in place; `normalize` is vec3.normalize. */
    method NormalizeNormals(normalize: Vec3 -> Vec3)
      requires |nBuffer| % 3 == 0
      modifies this`nBuffer
      ensures nBuffer == NormalizedAll(old(nBuffer), normalize)
    {
      ghost var n0 := nBuffer;
      var numTris := |nBuffer| / 3;
      WholeTriples(|nBuffer|);
      var f := 0;
      while f < numTris
        invariant 0 <= f <= numTris
        invariant nBuffer == NormalizedUpTo(n0, f, normalize)
      {
        var fid := f * 3;
        NormalizedUpToRest(n0, f, normalize, fid);
        NormalizedUpToRest(n0, f, normalize, fid + 1);
        NormalizedUpToRest(n0, f, normalize, fid + 2);
        var v := normalize(Vec3(nBuffer[fid], nBuffer[fid + 1], nBuffer[fid + 2]));
        nBuffer := nBuffer[fid := v.x];
        nBuffer := nBuffer[fid + 1 := v.y];
        nBuffer := nBuffer[fid + 2 := v.z];
        f := f + 1;
      }
    }

    /**
     * randomHeights(N, h): N fault lines. For each, every grid vertex moves
     * up by randH on the positive side of the line and down otherwise,
     * through getVertex and setVertex. `draws` holds the random numbers.
     */
    method RandomHeights(N: int, h: real, draws: seq<FaultDraw>)
      requires |draws| == (if N > 0 then N else 0) && forall d <- draws :: ValidDraw(d)
      requires 3 * ((div + 1) * (div + 1)) <= |vBuffer|
      modifies this`vBuffer, this`minZ, this`maxZ
      ensures |vBuffer| == |old(vBuffer)|
      ensures Heights(vBuffer, minZ, maxZ) == Faulted(Heights(old(vBuffer), old(minZ), old(maxZ)), div, h, draws)
    {
      ghost var s0 := Heights(vBuffer, minZ, maxZ);
      var i := 0;
      while i < N
        invariant 0 <= i <= |draws| && |vBuffer| == |s0.vb|
        invariant Heights(vBuffer, minZ, maxZ) == Faulted(s0, div, h, draws[..i])
      {
        // randX, randY, randH and the direction of this fault line
        var fault := FaultOf(draws[i], div, h);
        ghost var prev := Heights(vBuffer, minZ, maxZ);
        FaultedStep(s0, div, h, draws, i);
        ApplyFault(fault);
        assert Heights(vBuffer, minZ, maxZ) == FaultPass(prev, div + 1, fault);
        i := i + 1;
      }
      assert draws[..i] == draws;
    }

    /** One pass of randomHeights' loop: the fault line f moves every grid vertex. */
    method ApplyFault(f: Fault)
      requires 3 * ((div + 1) * (div + 1)) <= |vBuffer|
      modifies this`vBuffer, this`minZ, this`maxZ
      ensures Heights(vBuffer, minZ, maxZ) == FaultPass(Heights(old(vBuffer), old(minZ), old(maxZ)), div + 1, f)
    {
      ghost var s0 := Heights(vBuffer, minZ, maxZ);
      var x := 0;
      while x <= div
        invariant 0 <= x <= div + 1 && 3 * (x * (div + 1)) <= |s0.vb|
        invariant Heights(vBuffer, minZ, maxZ) == Walk(s0, div, f, x, 0)
      {
        ApplyFaultRow(f, x, s0);
        MulMonotone(x + 1, div + 1, div + 1);
        assert x * (div + 1) + (div + 1) == (x + 1) * (div + 1);
        x := x + 1;
      }
      WalkPass(s0, div, f);
    }

    /** The inner loop of one randomHeights pass: the vertices of row x. */
    method ApplyFaultRow(f: Fault, x: nat, ghost s0: Heights)
      requires x <= div && 3 * ((div + 1) * (div + 1)) <= |s0.vb|
      requires Heights(vBuffer, minZ, maxZ) == Walk(s0, div, f, x, 0)
      modifies this`vBuffer, this`minZ, this`maxZ
      ensures 3 * (x * (div + 1) + (div + 1)) <= |s0.vb|
      ensures Heights(vBuffer, minZ, maxZ) == Walk(s0, div, f, x, div + 1)
    {
      var d := div;
      MulMonotone(x + 1, d + 1, d + 1);
      assert (x + 1) * (d + 1) == x * (d + 1) + (d + 1);
      var y := 0;
      while y <= d
        invariant d == div && 0 <= y <= d + 1
        invariant Heights(vBuffer, minZ, maxZ) == Walk(s0, d, f, x, y)
      {
        MoveVertex(f, x, y, s0);
        y := y + 1;
      }
    }

    /** One pass of that inner loop: vertex (x, y) moves up or down according to its side of the fault line. */
    method MoveVertex(f: Fault, x: nat, y: nat, ghost s0: Heights)
      requires y <= div && 3 * (x * (div + 1) + y + 1) <= |s0.vb|
      requires Heights(vBuffer, minZ, maxZ) == Walk(s0, div, f, x, y)
      modifies this`vBuffer, this`minZ, this`maxZ
      ensures Heights(vBuffer, minZ, maxZ) == Walk(s0, div, f, x, y + 1)
    {
      ghost var prev := Heights(vBuffer, minZ, maxZ);
      assert Walk(s0, div, f, x, y + 1) == ShiftVertex(prev, div, f, x, y);
      var dotProduct := (x - f.randX) as real * f.cosTheta + (y - f.randY) as real * f.sinTheta;
      var point := GetVertex(x, y);
      ghost var v := point;
      if dotProduct > 0.0 {
        point := point.(z := point.z + f.randH);
      } else {
        point := point.(z := point.z - f.randH);
      }
      assert point == Vec3(v.x, v.y, Shifted(v.z, f, x, y));
      SetVertex(point, x, y);
    }
  }
}
