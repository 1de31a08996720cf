/**
 * The environment-mapping demo's CPU-side logic: the indexed face set of
 * a cube built face by face, the two matrix stacks that save and restore
 * the model-view and model matrices around a draw, and the rotation angle
 * that the A and D keys step by ten degrees.
 */
module ImageRendering {
  import opened Geometry
  import opened Grid

  datatype Option<T> = None | Some(value: T)

  datatype Result<T> = Success(value: T) | Failure(error: string)

  // ---------------------------------------------------------------------
  // getCube

  /** The four arrays getCube returns; indices are the Uint16Array entries. */
  datatype Mesh = Mesh(coords: seq<real>, normals: seq<real>, texCoords: seq<real>, indices: seq<nat>)

  /**
   * `side || 1`: a missing side (undefined) and a side of 0 are falsy, so
   * both fall back to 1; any other number is kept.
   */
  function SideOrOne(side: Option<real>): (r: real)
    ensures r != 0.0
    ensures side.Some? && side.value != 0.0 ==> r == side.value
    ensures side.None? || side.value == 0.0 ==> r == 1.0
  {
    match side
    case Some(x) => if x != 0.0 then x else 1.0
    case None => 1.0
  }

  /** The half side s = (side || 1) / 2 every coordinate of the cube is plus or minus of. */
  function HalfSide(side: Option<real>): (s: real)
    ensures s != 0.0 && 2.0 * s == SideOrOne(side)
  {
    SideOrOne(side) / 2.0
  }

  /** `x` written `n` times, one copy after another. */
  function Repeat<T>(x: seq<T>, n: nat): (r: seq<T>)
    ensures |r| == n * |x|
  {
    if n == 0 then [] else Repeat(x, n - 1) + x
  }

  /** The texture coordinates every face pushes: its four corners of the unit square. */
  function TexQuad(): seq<real>
  {
    [0.0, 0.0, 1.0, 0.0, 1.0, 1.0, 0.0, 1.0]
  }

  /** The two triangles of a face whose first vertex is `start`: (0, 1, 2) and (0, 2, 3) of its quad. */
  function FaceIndices(start: nat): seq<nat>
  {
    [start, start + 1, start + 2, start, start + 2, start + 3]
  }

  /**
   * What one call of the nested `face(xyz, nrm)` adds to the four arrays:
   * the twelve coordinates, the normal once per vertex, the unit-square
   * texture coordinates and two triangles over the four new vertices.
   */
  function FaceAdded(m: Mesh, xyz: seq<real>, nrm: seq<real>): (r: Mesh)
    requires |xyz| == 12 && |nrm| == 3
    ensures |r.coords| == |m.coords| + 12 && |r.normals| == |m.normals| + 12
    ensures |r.texCoords| == |m.texCoords| + 8 && |r.indices| == |m.indices| + 6
  {
    Mesh(m.coords + xyz, m.normals + Repeat(nrm, 4), m.texCoords + TexQuad(), m.indices + FaceIndices(|m.coords| / 3))
  }

  /** One call of `face`: the twelve coordinates of a quad and its normal. */
  datatype Quad = Quad(xyz: seq<real>, nrm: seq<real>)

  predicate QuadOk(q: Quad)
  {
    |q.xyz| == 12 && |q.nrm| == 3
  }

  predicate QuadsOk(qs: seq<Quad>)
  {
    forall k :: 0 <= k < |qs| ==> QuadOk(qs[k])
  }

  /** The arrays after `face` has been called on each quad of `qs` in turn, starting from empty arrays. */
  function Built(qs: seq<Quad>): (m: Mesh)
    requires QuadsOk(qs)
    ensures |m.coords| == 12 * |qs| && |m.normals| == 12 * |qs|
    ensures |m.texCoords| == 8 * |qs| && |m.indices| == 6 * |qs|
  {
    if qs == [] then Mesh([], [], [], [])
    else
      var q := qs[|qs| - 1];
      assert QuadOk(q) && QuadsOk(qs[..|qs| - 1]);
      FaceAdded(Built(qs[..|qs| - 1]), q.xyz, q.nrm)
  }

  /** The six quads getCube passes to `face`, in order: +z, -z, +y, -y, +x, -x. */
  function CubeQuads(s: real): (r: seq<Quad>)
    ensures |r| == 6 && QuadsOk(r)
  {
    [ Quad([-s, -s, s, s, -s, s, s, s, s, -s, s, s], [0.0, 0.0, 1.0]),
      Quad([-s, -s, -s, -s, s, -s, s, s, -s, s, -s, -s], [0.0, 0.0, -1.0]),
      Quad([-s, s, -s, -s, s, s, s, s, s, s, s, -s], [0.0, 1.0, 0.0]),
      Quad([-s, -s, -s, s, -s, -s, s, -s, s, -s, -s, s], [0.0, -1.0, 0.0]),
      Quad([s, -s, -s, s, s, -s, s, s, s, s, -s, s], [1.0, 0.0, 0.0]),
      Quad([-s, -s, -s, -s, -s, s, -s, s, s, -s, s, -s], [-1.0, 0.0, 0.0]) ]
  }

  /** The cube of half side s. */
  function Cube(s: real): Mesh
  {
    Built(CubeQuads(s))
  }

  /** The cube is `face` applied to each of the six quads in turn. */
  lemma CubeInOrder(s: real)
    ensures var q := CubeQuads(s);
            Cube(s) == FaceAdded(FaceAdded(FaceAdded(FaceAdded(FaceAdded(FaceAdded(Mesh([], [], [], []),
                         q[0].xyz, q[0].nrm), q[1].xyz, q[1].nrm), q[2].xyz, q[2].nrm),
                         q[3].xyz, q[3].nrm), q[4].xyz, q[4].nrm), q[5].xyz, q[5].nrm)
  {
    var q := CubeQuads(s);
    assert Built(q[..0]) == Mesh([], [], [], []);
    BuiltStep(q, 0);
    BuiltStep(q, 1);
    BuiltStep(q, 2);
    BuiltStep(q, 3);
    BuiltStep(q, 4);
    BuiltStep(q, 5);
    assert q[..6] == q;
  }

  /**
   * The nested `face(xyz, nrm)`, on the arrays getCube has built so far.
   * `start` is coords.length / 3, the number of vertices so far; getCube's
   * coordinates always come in whole vertices, so the division is exact.
   */
  method Face(m: Mesh, xyz: seq<real>, nrm: seq<real>) returns (r: Mesh)
    requires |xyz| == 12 && |nrm| == 3
    ensures r == FaceAdded(m, xyz, nrm)
  {
    var start := |m.coords| / 3;
    var coords := m.coords;
    var i := 0;
    while i < 12
      invariant 0 <= i <= 12
      invariant coords == m.coords + xyz[..i]
    {
      coords := coords + [xyz[i]];
      assert xyz[..i + 1] == xyz[..i] + [xyz[i]];
      i := i + 1;
    }
    assert xyz[..12] == xyz;
    var normals := m.normals;
    i := 0;
    while i < 4
      invariant 0 <= i <= 4
      invariant normals == m.normals + Repeat(nrm, i)
    {
      normals := normals + [nrm[0], nrm[1], nrm[2]];
      assert [nrm[0], nrm[1], nrm[2]] == nrm;
      i := i + 1;
    }
    var texCoords := m.texCoords + [0.0, 0.0, 1.0, 0.0, 1.0, 1.0, 0.0, 1.0];
    var indices := m.indices + [start, start + 1, start + 2, start, start + 2, start + 3];
    r := Mesh(coords, normals, texCoords, indices);
  }

  /** One more quad is one more call of `face`. */
  lemma BuiltStep(qs: seq<Quad>, k: nat)
    requires k < |qs| && QuadsOk(qs)
    ensures Built(qs[..k + 1]) == FaceAdded(Built(qs[..k]), qs[k].xyz, qs[k].nrm)
  {
    assert qs[..k + 1][..k] == qs[..k];
  }

  /** getCube(side): the six faces, in the source's order. */
  method GetCube(side: Option<real>) returns (m: Mesh)
    ensures m == Cube(HalfSide(side))
  {
    var s := HalfSide(side);
    var quads := CubeQuads(s);
    m := Mesh([], [], [], []);
    m := Face(m, quads[0].xyz, quads[0].nrm);
    m := Face(m, quads[1].xyz, quads[1].nrm);
    m := Face(m, quads[2].xyz, quads[2].nrm);
    m := Face(m, quads[3].xyz, quads[3].nrm);
    m := Face(m, quads[4].xyz, quads[4].nrm);
    m := Face(m, quads[5].xyz, quads[5].nrm);
    CubeInOrder(s);
  }

  /** 72 coordinates, 72 normal components, 48 texture coordinates and 36 indices. */
  lemma CubeCounts(s: real)
    ensures |Cube(s).coords| == 72 && |Cube(s).normals| == 72
    ensures |Cube(s).texCoords| == 48 && |Cube(s).indices| == 36
  {
  }

  /** A block before the end of `a` is not affected by appending to `a`. */
  lemma BlockPrefix<T>(a: seq<T>, b: seq<T>, w: nat, k: nat)
    requires w * k + w <= |a|
    ensures Block(a + b, w, k) == Block(a, w, k)
  {
    assert forall t :: 0 <= t < w ==> Block(a + b, w, k)[t] == (a + b)[w * k + t];
  }

  /** The block that starts at the end of `a` is what was appended. */
  lemma BlockLast<T>(a: seq<T>, b: seq<T>, w: nat, k: nat)
    requires |a| == w * k && |b| == w
    ensures Block(a + b, w, k) == b
  {
    assert (a + b)[|a|..] == b;
  }

  /** Quad k's two triangles are (4k, 4k+1, 4k+2) and (4k, 4k+2, 4k+3). */
  lemma {:induction false} BuiltIndexBlocks(qs: seq<Quad>)
    requires QuadsOk(qs)
    ensures forall k :: 0 <= k < |qs| ==> Block(Built(qs).indices, 6, k) == FaceIndices(4 * k)
  {
    if qs != [] {
      var n := |qs| - 1;
      BuiltIndexBlocks(qs[..n]);
      var before := Built(qs[..n]).indices;
      assert Built(qs).indices == before + FaceIndices(4 * n);
      forall k | 0 <= k < |qs|
        ensures Block(Built(qs).indices, 6, k) == FaceIndices(4 * k)
      {
        if k < n {
          BlockPrefix(before, FaceIndices(4 * n), 6, k);
        } else {
          BlockLast(before, FaceIndices(4 * n), 6, k);
        }
      }
    }
  }

  /** Every index names one of the vertices pushed so far, four per quad. */
  lemma {:induction false} BuiltIndicesBelow(qs: seq<Quad>)
    requires QuadsOk(qs)
    ensures forall i :: 0 <= i < |Built(qs).indices| ==> Built(qs).indices[i] < 4 * |qs|
  {
    if qs != [] {
      var n := |qs| - 1;
      BuiltIndicesBelow(qs[..n]);
      var before := Built(qs[..n]).indices;
      var after := Built(qs).indices;
      assert after == before + FaceIndices(4 * n);
      assert forall i :: 0 <= i < |before| ==> after[i] == before[i];
    }
  }

  /** Quad k's twelve coordinates sit at offset 12k, and its normal is pushed once for each of its 4 vertices. */
  lemma {:induction false} BuiltBlocks(qs: seq<Quad>)
    requires QuadsOk(qs)
    ensures forall k :: 0 <= k < |qs| ==> Block(Built(qs).coords, 12, k) == qs[k].xyz
    ensures forall k :: 0 <= k < |qs| ==> Block(Built(qs).normals, 12, k) == Repeat(qs[k].nrm, 4)
  {
    if qs != [] {
      var n := |qs| - 1;
      var init := qs[..n];
      BuiltBlocks(init);
      var before := Built(init);
      var q := qs[n];
      assert Built(qs).coords == before.coords + q.xyz;
      assert Built(qs).normals == before.normals + Repeat(q.nrm, 4);
      forall k | 0 <= k < |qs|
        ensures Block(Built(qs).coords, 12, k) == qs[k].xyz
        ensures Block(Built(qs).normals, 12, k) == Repeat(qs[k].nrm, 4)
      {
        if k < n {
          assert init[k] == qs[k];
          BlockPrefix(before.coords, q.xyz, 12, k);
          BlockPrefix(before.normals, Repeat(q.nrm, 4), 12, k);
        } else {
          BlockLast(before.coords, q.xyz, 12, k);
          BlockLast(before.normals, Repeat(q.nrm, 4), 12, k);
        }
      }
    }
  }

  /** Every face pushes the same unit-square texture coordinates. */
  lemma {:induction false} BuiltTexCoords(qs: seq<Quad>)
    requires QuadsOk(qs)
    ensures Built(qs).texCoords == Repeat(TexQuad(), |qs|)
  {
    if qs != [] {
      BuiltTexCoords(qs[..|qs| - 1]);
    }
  }

  /** Every value of `xyz` is s or -s. */
  predicate PlusMinus(xyz: seq<real>, s: real)
  {
    forall t :: 0 <= t < |xyz| ==> xyz[t] == s || xyz[t] == -s
  }

  /** When every quad's coordinates are s or -s, so is every value of the array. */
  lemma {:induction false} BuiltPlusMinus(qs: seq<Quad>, s: real)
    requires QuadsOk(qs) && forall k :: 0 <= k < |qs| ==> PlusMinus(qs[k].xyz, s)
    ensures PlusMinus(Built(qs).coords, s)
  {
    if qs != [] {
      var n := |qs| - 1;
      BuiltPlusMinus(qs[..n], s);
      assert Built(qs).coords == Built(qs[..n]).coords + qs[n].xyz;
      assert PlusMinus(qs[n].xyz, s);
    }
  }

  /** The cube's index list, face by face, and every index below its 24 vertices. */
  lemma CubeIndices(s: real)
    ensures forall k :: 0 <= k < 6 ==> Block(Cube(s).indices, 6, k) == FaceIndices(4 * k)
    ensures forall i :: 0 <= i < |Cube(s).indices| ==> Cube(s).indices[i] < 24
  {
    BuiltIndexBlocks(CubeQuads(s));
    BuiltIndicesBelow(CubeQuads(s));
  }

  /** The cube's coordinates are the six quads in order, and every one of them is s or -s. */
  lemma CubeCoords(s: real)
    ensures forall k :: 0 <= k < 6 ==> Block(Cube(s).coords, 12, k) == CubeQuads(s)[k].xyz
    ensures PlusMinus(Cube(s).coords, s)
  {
    BuiltBlocks(CubeQuads(s));
    QuadsPlusMinus(s);
    BuiltPlusMinus(CubeQuads(s), s);
  }

  /** Each of the six quads has only s and -s as coordinates. */
  lemma QuadsPlusMinus(s: real)
    ensures forall k :: 0 <= k < 6 ==> PlusMinus(CubeQuads(s)[k].xyz, s)
  {
    var qs := CubeQuads(s);
    assert PlusMinus(qs[0].xyz, s) && PlusMinus(qs[1].xyz, s) && PlusMinus(qs[2].xyz, s);
    assert PlusMinus(qs[3].xyz, s) && PlusMinus(qs[4].xyz, s) && PlusMinus(qs[5].xyz, s);
  }

  /** Length one, along a coordinate axis. */
  predicate UnitAxis(v: seq<real>)
  {
    |v| == 3 && v[0] * v[0] + v[1] * v[1] + v[2] * v[2] == 1.0 &&
    v[0] * v[1] == 0.0 && v[1] * v[2] == 0.0 && v[0] * v[2] == 0.0
  }

  /**
   * Each face's normal is pushed for its 4 vertices; every normal is a unit
   * axis vector and faces 0/1, 2/3 and 4/5 have opposite ones, on the z, y
   * and x axes.
   */
  lemma CubeNormals(s: real)
    ensures forall k :: 0 <= k < 6 ==> Block(Cube(s).normals, 12, k) == Repeat(CubeQuads(s)[k].nrm, 4)
    ensures forall k :: 0 <= k < 6 ==> UnitAxis(CubeQuads(s)[k].nrm)
    ensures forall p :: 0 <= p < 3 ==> CubeQuads(s)[2 * p].nrm[2 - p] == 1.0 && CubeQuads(s)[2 * p + 1].nrm[2 - p] == -1.0
  {
    BuiltBlocks(CubeQuads(s));
  }

  /** Vertex j of a quad. */
  function Corner(xyz: seq<real>, j: nat): Vec3
    requires |xyz| == 12 && j < 4
  {
    Vec3(xyz[3 * j], xyz[3 * j + 1], xyz[3 * j + 2])
  }

  function Dot(a: Vec3, nrm: seq<real>): real
    requires |nrm| == 3
  {
    a.x * nrm[0] + a.y * nrm[1] + a.z * nrm[2]
  }

  function Scale(t: real, nrm: seq<real>): Vec3
    requires |nrm| == 3
  {
    Vec3(t * nrm[0], t * nrm[1], t * nrm[2])
  }

  /**
   * The quad lies in the plane at distance s along its normal, and both of
   * its triangles (0, 1, 2) and (0, 2, 3) wind counter-clockwise seen from
   * outside: the cross product of their edges is 4 s^2 times the normal.
   */
  predicate Outward(q: Quad, s: real)
    requires QuadOk(q)
  {
    Dot(Corner(q.xyz, 0), q.nrm) == s && Dot(Corner(q.xyz, 1), q.nrm) == s &&
    Dot(Corner(q.xyz, 2), q.nrm) == s && Dot(Corner(q.xyz, 3), q.nrm) == s &&
    Cross(Sub(Corner(q.xyz, 1), Corner(q.xyz, 0)), Sub(Corner(q.xyz, 2), Corner(q.xyz, 0))) == Scale(4.0 * s * s, q.nrm) &&
    Cross(Sub(Corner(q.xyz, 2), Corner(q.xyz, 0)), Sub(Corner(q.xyz, 3), Corner(q.xyz, 0))) == Scale(4.0 * s * s, q.nrm)
  }

  lemma OutwardPlusZ(s: real)
    ensures Outward(CubeQuads(s)[0], s)
  {
  }

  lemma OutwardMinusZ(s: real)
    ensures Outward(CubeQuads(s)[1], s)
  {
  }

  lemma OutwardPlusY(s: real)
    ensures Outward(CubeQuads(s)[2], s)
  {
  }

  lemma OutwardMinusY(s: real)
    ensures Outward(CubeQuads(s)[3], s)
  {
  }

  lemma OutwardPlusX(s: real)
    ensures Outward(CubeQuads(s)[4], s)
  {
  }

  lemma OutwardMinusX(s: real)
    ensures Outward(CubeQuads(s)[5], s)
  {
  }

  /** Every face of the cube faces outward. */
  lemma CubeOutward(s: real)
    ensures forall k :: 0 <= k < 6 ==> Outward(CubeQuads(s)[k], s)
  {
    OutwardPlusZ(s);
    OutwardMinusZ(s);
    OutwardPlusY(s);
    OutwardMinusY(s);
    OutwardPlusX(s);
    OutwardMinusX(s);
  }

  // ---------------------------------------------------------------------
  // The matrix stacks

  /** A current matrix and the copies saved below it, with the most recent last. */
  datatype Stacked<M> = Stacked(current: M, stack: seq<M>)

  /** mvPushMatrix / mPushMatrix: save a copy (mat4.clone) of the current matrix. */
  function Pushed<M>(s: Stacked<M>): (r: Stacked<M>)
    ensures r.current == s.current && |r.stack| == |s.stack| + 1
    ensures r.stack[..|s.stack|] == s.stack && r.stack[|s.stack|] == s.current
  {
    Stacked(s.current, s.stack + [s.current])
  }

  /** mvPopMatrix / mPopMatrix: throw on an empty stack, otherwise restore the last copy. */
  function Popped<M>(s: Stacked<M>): (r: Result<Stacked<M>>)
    ensures r.Failure? <==> |s.stack| == 0
    ensures r.Failure? ==> r.error == "Invalid popMatrix!"
    ensures r.Success? ==> r.value.current == s.stack[|s.stack| - 1] && r.value.stack + [r.value.current] == s.stack
  {
    if |s.stack| == 0 then Failure("Invalid popMatrix!")
    else Success(Stacked(s.stack[|s.stack| - 1], s.stack[..|s.stack| - 1]))
  }

  /** Any write of the current matrix (mat4.rotateY, mat4.multiply): the stack is untouched. */
  function SetCurrent<M>(s: Stacked<M>, m: M): (r: Stacked<M>)
    ensures r.current == m && r.stack == s.stack
  {
    Stacked(m, s.stack)
  }

  /** What a draw routine can do to one stack. */
  datatype Op<M> = Push | Pop | Set(m: M)

  /** One operation. */
  function Step<M>(s: Stacked<M>, op: Op<M>): Result<Stacked<M>>
  {
    match op
    case Push => Success(Pushed(s))
    case Pop => Popped(s)
    case Set(m) => Success(SetCurrent(s, m))
  }

  /** Operations in order, stopping at the first throw. */
  function Run<M>(s: Stacked<M>, ops: seq<Op<M>>): Result<Stacked<M>>
    decreases |ops|
  {
    if ops == [] then Success(s)
    else
      match Step(s, ops[0])
      case Failure(e) => Failure(e)
      case Success(t) => Run(t, ops[1..])
  }

  /** Pushes minus pops. */
  function Net<M>(ops: seq<Op<M>>): int
    decreases |ops|
  {
    if ops == [] then 0 else Net(ops[1..]) + (match ops[0] case Push => 1 case Pop => -1 case Set(_) => 0)
  }

  /** Starting `d` copies above some base, no pop ever reaches below it. */
  predicate StaysAbove<M>(ops: seq<Op<M>>, d: int)
    decreases |ops|
  {
    ops == [] ||
    match ops[0]
    case Push => StaysAbove(ops[1..], d + 1)
    case Pop => d >= 1 && StaysAbove(ops[1..], d - 1)
    case Set(_) => StaysAbove(ops[1..], d)
  }

  lemma {:induction false} RunAppend<M>(s: Stacked<M>, a: seq<Op<M>>, b: seq<Op<M>>)
    ensures Run(s, a + b) == (match Run(s, a) case Failure(e) => Failure(e) case Success(t) => Run(t, b))
    decreases |a|
  {
    if a != [] {
      assert (a + b)[0] == a[0] && (a + b)[1..] == a[1..] + b;
      match Step(s, a[0])
      case Failure(e) =>
      case Success(t) => RunAppend(t, a[1..], b);
    } else {
      assert a + b == b;
    }
  }

  /**
   * Operations that never pop below the bottom `base` copies cannot throw,
   * leave those copies as they were, and change the depth by their net count.
   */
  lemma {:induction false} RunKeepsBase<M>(s: Stacked<M>, ops: seq<Op<M>>, base: nat)
    requires base <= |s.stack| && StaysAbove(ops, |s.stack| - base)
    ensures Run(s, ops).Success?
    ensures |Run(s, ops).value.stack| == |s.stack| + Net(ops) >= base
    ensures Run(s, ops).value.stack[..base] == s.stack[..base]
    decreases |ops|
  {
    if ops != [] {
      var t := Step(s, ops[0]).value;
      assert t.stack[..base] == s.stack[..base] by {
        match ops[0]
        case Push => assert s.stack[..base] == (s.stack + [s.current])[..base];
        case Pop => assert s.stack[..base] == s.stack[..|s.stack| - 1][..base];
        case Set(_) =>
      }
      RunKeepsBase(t, ops[1..], base);
    }
  }

  /**
   * A push, then any operations that never pop below the saved copy and push
   * as often as they pop, then a pop: the current matrix and the stack are
   * back to what they were before the push.
   */
  lemma PushThenPop<M>(s: Stacked<M>, ops: seq<Op<M>>)
    requires StaysAbove(ops, 0) && Net(ops) == 0
    ensures Run(s, [Push] + ops + [Pop]) == Success(s)
  {
    RunAppend(s, [Push], ops);
    RunAppend(s, [Push] + ops, [Pop]);
    var p := Pushed(s);
    assert Run(s, [Push]) == Success(p);
    RunKeepsBase(p, ops, |p.stack|);
    var t := Run(p, ops).value;
    assert t.stack == p.stack;
    assert Run(t, [Pop]) == Popped(t);
  }

  /**
   * Last in, first out: with a saved under b, the first pop restores b and
   * the second restores a.
   */
  lemma Lifo<M>(a: M, b: M, st: seq<M>)
    ensures Run(Stacked(a, st), [Push, Set(b), Push, Pop]) == Success(Stacked(b, st + [a]))
    ensures Run(Stacked(a, st), [Push, Set(b), Push, Pop, Pop]) == Success(Stacked(a, st))
  {
    var s0, s2 := Stacked(a, st), Stacked(b, st + [a]);
    assert Popped(Pushed(s2)) == Success(s2) by { assert (st + [a] + [b])[..|st| + 1] == st + [a]; }
    assert Popped(s2) == Success(s0) by { assert (st + [a])[..|st|] == st; }
    var ops := [Push, Set(b), Push, Pop, Pop];
    assert Run(s0, ops) == Run(Pushed(s0), ops[1..]);
    assert Run(Pushed(s0), ops[1..]) == Run(s2, ops[2..]) by { assert ops[1..][1..] == ops[2..]; }
    assert Run(s2, ops[2..]) == Run(Pushed(s2), ops[3..]) by { assert ops[2..][1..] == ops[3..]; }
    assert Run(Pushed(s2), ops[3..]) == Run(s2, ops[4..]) by { assert ops[3..][1..] == ops[4..]; }
    assert Run(s2, ops[4..]) == Run(s0, []) by { assert ops[4..][1..] == []; }
    var ops4 := ops[..4];
    assert Run(s0, ops4) == Run(Pushed(s0), ops4[1..]);
    assert Run(Pushed(s0), ops4[1..]) == Run(s2, ops4[2..]) by { assert ops4[1..][1..] == ops4[2..]; }
    assert Run(s2, ops4[2..]) == Run(Pushed(s2), ops4[3..]) by { assert ops4[2..][1..] == ops4[3..]; }
    assert Run(Pushed(s2), ops4[3..]) == Run(s2, []) by { assert ops4[3..][1..] == []; }
    assert ops4 == [Push, Set(b), Push, Pop];
  }

  /** The outcome of a pop as the caller sees it. */
  datatype Outcome = Done | Thrown(message: string)

  /** One of the two global pairs: mvMatrix with mvMatrixStack, or mMatrix with mMatrixStack. */
  class MatrixStack<M> {
    var current: M
    var stack: seq<M>

    function State(): Stacked<M>
      reads this
    {
      Stacked(current, stack)
    }

    /** The page's start: a fresh matrix and an empty stack. */
    constructor(m: M)
      ensures State() == Stacked(m, [])
    {
      current := m;
      stack := [];
    }

    method Push()
      modifies this
      ensures State() == Pushed(old(State()))
    {
      var copy := current;
      stack := stack + [copy];
    }

    /** On an empty stack the throw leaves both fields as they were. */
    method Pop() returns (o: Outcome)
      modifies this
      ensures Popped(old(State())).Failure? ==> o == Thrown(Popped(old(State())).error) && State() == old(State())
      ensures Popped(old(State())).Success? ==> o == Done && State() == Popped(old(State())).value
    {
      if |stack| == 0 {
        return Thrown("Invalid popMatrix!");
      }
      current := stack[|stack| - 1];
      stack := stack[..|stack| - 1];
      o := Done;
    }

    method Set(m: M)
      modifies this
      ensures State() == SetCurrent(old(State()), m)
    {
      current := m;
    }
  }

  /**
   * The matrix work of drawing the mesh: save both matrices, rotate the
   * model matrix, rotate and then view-transform the model-view matrix, draw
   * with them, and restore both. `rotate` stands for mat4.rotateY by eulerY
   * and `view` for the multiplication by the view matrix. Returns the two
   * matrices the draw calls see. This is the branch `draw` takes once the
   * mesh has loaded; before that it touches neither stack.
   */
  method DrawFrame<M>(mv: MatrixStack<M>, mm: MatrixStack<M>, rotate: M -> M, view: M -> M) returns (drawnMv: M, drawnM: M)
    requires mv != mm
    modifies mv, mm
    ensures drawnMv == view(rotate(old(mv.current))) && drawnM == rotate(old(mm.current))
    ensures mv.State() == old(mv.State()) && mm.State() == old(mm.State())
  {
    mv.Push();
    mm.Push();
    mm.Set(rotate(mm.current));
    mv.Set(rotate(mv.current));
    mv.Set(view(mv.current));
    drawnMv, drawnM := mv.current, mm.current;
    var o1 := mv.Pop();
    var o2 := mm.Pop();
    assert o1 == Done && o2 == Done;
  }

  // ---------------------------------------------------------------------
  // The eulerY key update

  /** JavaScript's `%` on a positive divisor: the remainder takes the sign of the dividend. */
  function Rem(a: int, b: int): (r: int)
    requires b > 0
    ensures -b < r < b
    ensures a >= 0 ==> r == a % b
  {
    if a >= 0 then a % b else -((-a) % b)
  }

  /** An entry of currentlyPressedKeys that is true; a key never seen reads as undefined. */
  predicate Held(pressed: map<string, bool>, key: string)
  {
    key in pressed && pressed[key]
  }

  /** The rotation step of handleKeyDown: A wins over D, and neither leaves the angle alone. */
  function Turned(e: int, pressed: map<string, bool>): (r: int)
  {
    if Held(pressed, "a") then Rem(e - 10 + 360, 360)
    else if Held(pressed, "d") then Rem(e + 10 + 360, 360)
    else e
  }

  /** The angles the page can reach: whole degrees in [0, 360) in steps of ten. */
  predicate AngleOk(e: int)
  {
    0 <= e < 360 && e % 10 == 0
  }

  /** A keypress keeps the angle in range and on the ten-degree grid, and moves it by 10 at most. */
  lemma TurnedKeepsAngle(e: int, pressed: map<string, bool>)
    requires AngleOk(e)
    ensures AngleOk(Turned(e, pressed))
    ensures Held(pressed, "a") ==> Turned(e, pressed) == (if e == 0 then 350 else e - 10)
    ensures !Held(pressed, "a") && Held(pressed, "d") ==> Turned(e, pressed) == (if e == 350 then 0 else e + 10)
    ensures !Held(pressed, "a") && !Held(pressed, "d") ==> Turned(e, pressed) == e
  {
  }

  /** A step left and a step right cancel. */
  lemma LeftRightCancel(e: int)
    requires AngleOk(e)
    ensures Rem(Rem(e - 10 + 360, 360) + 10 + 360, 360) == e
    ensures Rem(Rem(e + 10 + 360, 360) - 10 + 360, 360) == e
  {
  }

  /** The page's eulerY together with currentlyPressedKeys. */
  class KeyControl {
    var eulerY: int
    var pressed: map<string, bool>

    ghost predicate Valid()
      reads this
    {
      AngleOk(eulerY)
    }

    constructor()
      ensures Valid() && eulerY == 0 && pressed == map[]
    {
      eulerY := 0;
      pressed := map[];
    }

    /** handleKeyDown: mark the key pressed, then step eulerY by the A and D entries. */
    method HandleKeyDown(key: string)
      requires Valid()
      modifies this
      ensures Valid()
      ensures pressed == old(pressed)[key := true]
      ensures eulerY == Turned(old(eulerY), pressed)
    {
      pressed := pressed[key := true];
      if "a" in pressed && pressed["a"] {
        eulerY := (eulerY - 10 + 360) % 360;
      } else if "d" in pressed && pressed["d"] {
        eulerY := (eulerY + 10 + 360) % 360;
      }
      TurnedKeepsAngle(old(eulerY), pressed);
    }

    /** handleKeyUp: mark the key released; the angle does not change. */
    method HandleKeyUp(key: string)
      modifies this
      ensures pressed == old(pressed)[key := false] && eulerY == old(eulerY)
    {
      pressed := pressed[key := false];
    }
  }
}
