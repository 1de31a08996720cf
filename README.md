# WebGL interactive-graphics coursework: a verified model of its CPU-side geometry

The repository is a set of browser demos written in JavaScript on top of
WebGL and glMatrix. What runs on the CPU before anything reaches the GPU is
modelled here:

- **Simple modeling** (`simple_modeling.dfy`, module `SimpleModeling`). This
  covers the mesh builders of the physics demo. `planeFromIteration` lays out
  an (n+1) x (n+1) grid of vertices and two triangles per cell.
  `divideTriangle` and `planeFromSubdivision` split triangles recursively at
  their edge midpoints. `sphDivideTriangle` and `sphereFromSubdivision`
  split the four faces of a tetrahedron and project each midpoint onto the
  sphere. `pushVertex` appends x, y and z of a point to a flat array.
- **Terrain** (`terrain.dfy`, module `TerrainGrid`). This is the class
  `Terrain`:
  - a flat (div+1) x (div+1) grid of vertices with up normals;
  - its triangle and wireframe index lists;
  - heights made by 100 random fault lines, each raising one side and
    lowering the other, while `setVertex` keeps running z bounds;
  - per-vertex normals, summed over the triangles around each vertex and
    then normalized. Each vertex gets a triangle's normal once per corner
    of the triangle that is that vertex. On the fresh flat grid every
    triangle faces +z, so every summed normal points straight up.
- **Particle** (`particle.dfy`, module `Particles`). A sphere between walls
  at -1 and 1 on each axis is advanced by explicit Euler steps, with drag on
  the velocity and gravity (0, -9.8, 0). Its collision clamps the centre to
  [-1 - radius, 1 - radius] on each axis and reflects the velocity there,
  one axis at a time. A particle released at rest at the centre falls:
  after one frame of dt it is 9.8·dt² lower, unless that reaches the lower
  clamping plane.
- **Image rendering** (`image_rendering.dfy`, module `ImageRendering`). This
  is the environment-mapping demo:
  - `getCube` and its nested `face`, the indexed face set of a cube;
  - the model-view and model matrix stacks (push a copy, pop or throw) and
    how a draw uses them;
  - the `eulerY` angle that the A and D keys step by ten degrees.

`geometry.dfy` (module `Geometry`) holds the vector values shared by these
files. `grid.dfy` (module `Grid`) holds the row-major flattening and the
index arithmetic shared by the two grid builders.

Each JavaScript function that appends to arrays in loops is a Dafny
`method` with the same loops, working on fields of type `seq`. Each one is
proved equal to a specification function: for example `GridCoords`,
`Accumulated` and `Faulted` are defined without loops. The properties are
then lemmas about those functions. The JavaScript classes `Terrain` and
`Particle`, the global matrix stacks and the key state are Dafny classes
whose methods modify their fields.

Numbers are modelled as exact reals, and array indices as naturals.
Operations the code calls but that are not part of it are parameters of
the model: glMatrix's `normalize`, `rotateY` and `multiply`, `Math.random`,
`Math.cos` and `Math.sin`, and `**`. Where a property depends on one of
them, the lemma says what it assumes.

Three details of the code that the model keeps as written:

- `resolve_collision` clamps at `boxBoundMin - radius` and
  `boxBoundMax - radius` (Particle.js:62-63). So the lower plane lies one
  radius below the wall and the upper plane one radius inside it.
- The `Terrain` constructor's fault height is `(maxX - minY) / 150`
  (Terrain.js:43), mixing the x and y extents.
- `generateTriangles` lays out rows by `minY + deltaY * i` (Terrain.js:182),
  while `planeFromIteration` uses `maxY - deltaY * i` (simpleModeling.js:20).
  Each model keeps its own file's layout.

## Model

| member | source | states |
|---|---|---|
| SimpleModeling.Buffer.Push | Physics/simpleModeling.js:48 | `Array.push` appends exactly the one element to the array's contents |
| SimpleModeling.PushVertex | Physics/simpleModeling.js:44-50 | the array grows by x, y, z of the point, in that order, and nothing before it changes |
| SimpleModeling.Pow4 | Physics/simpleModeling.js:62-90 | the triangle count of a depth budget is at least 1 (4^n for n > 0, 1 otherwise) |
| SimpleModeling.SubdividedCount | Physics/simpleModeling.js:62-90 | a depth budget of n yields 3·4^n corners, so 9·4^n numbers, whatever the midpoint rule |
| SimpleModeling.SubdivisionKeeps | Physics/simpleModeling.js:62-90 | any property true of the three corners and kept by the midpoint rule holds for every corner emitted |
| SimpleModeling.SplitAppends | Physics/simpleModeling.js:74-78 | the four recursive calls in a row append exactly the corners of the four sub-triangles, in order |
| SimpleModeling.DivideTriangle | Physics/simpleModeling.js:62-90 | appends the flattened lerp-midpoint subdivision and returns 4^n; at budget <= 0 it appends a, b, c and returns 1 |
| SimpleModeling.PlaneFromSubdivision | Physics/simpleModeling.js:102-114 | appends the subdivisions of the rectangle's two triangles (va, vb, vd) and (vb, vc, vd) and returns 2·4^n |
| SimpleModeling.PlaneFromSubdivisionCount | Physics/simpleModeling.js:102-114 | the plane has 6·4^n corners and 18·4^n numbers |
| SimpleModeling.PlaneFromSubdivisionInRectangle | Physics/simpleModeling.js:102-114 | for a non-empty rectangle, every emitted corner lies in it with z = 0 |
| SimpleModeling.SphDivideTriangle | Physics/simpleModeling.js:128-158 | appends the same normalized-midpoint subdivision to both the vertex and the normal array and returns 4^n |
| SimpleModeling.SphereFromSubdivision | Physics/simpleModeling.js:168-181 | both arrays grow by the subdivisions of the four tetrahedron faces in the source's order; returns 4·4^n |
| SimpleModeling.SphereFromSubdivisionCount | Physics/simpleModeling.js:168-181 | the sphere has 12·4^n corners, 36·4^n numbers per array |
| SimpleModeling.SphereVerticesNormalized | Physics/simpleModeling.js:128-181 | every emitted corner is a seed corner or an output of `normalize`, so it has any property every output of `normalize` has, such as unit length |
| SimpleModeling.PlaneFromIteration | Physics/simpleModeling.js:12-36 | appends the (n+1)^2 grid vertices and the row-major cell triangles |
| SimpleModeling.PushGridVertices | Physics/simpleModeling.js:16-22 | the nested loops append the grid vertices row by row |
| SimpleModeling.PushGridCells | Physics/simpleModeling.js:24-35 | the nested loops append the two triangles of every cell row by row |
| SimpleModeling.IterationCounts | Physics/simpleModeling.js:12-36 | 3(n+1)^2 coordinates and 6n^2 indices |
| SimpleModeling.GridVertexAt | Physics/simpleModeling.js:16-22 | vertex (i, j) sits at offset 3(i·w + j) and holds (minX + deltaX·j, maxY − deltaY·i, 0) |
| SimpleModeling.IterationFaceAt | Physics/simpleModeling.js:24-35 | block i·n + j of the face indices is cell (i, j): the triangles (vid, vid+w, vid+1) and (vid+1, vid+w, vid+1+w), with vid = i·w + j and w = n + 1 |
| SimpleModeling.GridFlat | Physics/simpleModeling.js:21 | every vertex of the plane has z = 0 |
| SimpleModeling.IterationFacesInRange | Physics/simpleModeling.js:24-35 | every face index names one of the (n+1)^2 vertices |
| TerrainGrid.WithVertex | Terrain/Terrain.js:68-70 | writing a vertex at offset k sets those three numbers to it and keeps every other number and the length |
| TerrainGrid.AddAtEffect | Terrain/Terrain.js:295-298 | adding at offset k adds the vector to those three numbers and keeps every other number |
| TerrainGrid.OffsetsApart | Terrain/Terrain.js:66-92 | two different grid vertices occupy disjoint triples of the buffer |
| TerrainGrid.SetThenGet | Terrain/Terrain.js:66-92 | getVertex after setVertex returns the vertex written, and any other vertex is unchanged |
| TerrainGrid.Lower | Terrain/Terrain.js:72-74 | the new minZ is the smaller of the old bound and the new z |
| TerrainGrid.Higher | Terrain/Terrain.js:76-78 | the new maxZ is the larger of the old bound and the new z |
| TerrainGrid.LowZ | Terrain/Terrain.js:72-74 | the running minimum over the first k vertices never exceeds its start |
| TerrainGrid.HighZ | Terrain/Terrain.js:76-78 | the running maximum over the first k vertices is never below its start |
| TerrainGrid.BoundsFrame | Terrain/Terrain.js:72-78 | the running bounds depend only on the z coordinates |
| TerrainGrid.BoundsCover | Terrain/Terrain.js:72-78 | every z visited lies between the running minimum and maximum |
| TerrainGrid.FaultInRange | Terrain/Terrain.js:329-332 | for div >= 1, randX and randY lie in [0, div); for h > 0, randH lies in [h/2, 3h/2) |
| TerrainGrid.DisplacedAt | Terrain/Terrain.js:338-353 | after visiting k vertices, vertex c keeps x and y, and its z is shifted if c < k and unchanged otherwise |
| TerrainGrid.ClosedStep | Terrain/Terrain.js:339-351 | moving vertex (x, y) extends the closed form of the pass by one vertex |
| TerrainGrid.WalkClosed | Terrain/Terrain.js:338-353 | the vertex-by-vertex walk of the nested loops equals the closed form at every point of the loops |
| TerrainGrid.WalkPass | Terrain/Terrain.js:338-353 | the whole walk is one fault pass |
| TerrainGrid.FaultPassVertex | Terrain/Terrain.js:340-351 | one pass keeps a vertex's x and y; its z goes up by randH if the dot product is positive and down otherwise |
| TerrainGrid.FaultedOnlyZ | Terrain/Terrain.js:327-355 | randomHeights changes only z coordinates, whatever the draws |
| TerrainGrid.FaultPassBounded | Terrain/Terrain.js:338-353 | after one pass every z lies within the new minZ and maxZ, and the bounds only widen |
| TerrainGrid.FaultedBounded | Terrain/Terrain.js:327-355 | "all heights lie in [minZ, maxZ]" is preserved by any number of fault passes, and the bounds only widen |
| TerrainGrid.GridCoords | Terrain/Terrain.js:179-189 | the grid has 3(div+1)^2 coordinates |
| TerrainGrid.GridNormals | Terrain/Terrain.js:185-187 | there is one normal triple per vertex |
| TerrainGrid.GridFaces | Terrain/Terrain.js:191-202 | there are 6·div^2 indices, two triangles per cell |
| TerrainGrid.GridVertexAt | Terrain/Terrain.js:179-183 | vertex (i, j) sits at offset 3(i·(div+1) + j) and holds (minX + deltaX·j, minY + deltaY·i, 0) |
| TerrainGrid.GridNormalAt | Terrain/Terrain.js:185-187 | the normal of vertex (i, j) is (0, 0, 1) |
| TerrainGrid.GridFlat | Terrain/Terrain.js:183 | every z of the fresh grid is 0 |
| TerrainGrid.GridFacesInRange | Terrain/Terrain.js:191-202 | every face index names one of the (div+1)^2 vertices |
| TerrainGrid.GridFacesIndexed | Terrain/Terrain.js:191-205 | every index addresses a whole vertex of the buffer and is below numVertices |
| TerrainGrid.GridFaceAt | Terrain/Terrain.js:191-202 | block i·div + j of the face list is cell (i, j): the triangles (vid, vid+1, vid+w) and (vid+1, vid+1+w, vid+w), with vid = i·w + j and w = div + 1 |
| TerrainGrid.GridWindingUp | Terrain/Terrain.js:175-206 | on the flat grid both triangles of cell (i, j) have (v2 − v1) × (v3 − v1) = (0, 0, deltaX·deltaY): they wind counter-clockwise seen from +z |
| TerrainGrid.GridTriangleUp | Terrain/Terrain.js:191-202 | the same holds for triangle f of the face list, whichever cell it belongs to |
| TerrainGrid.GridFacesUp | Terrain/Terrain.js:249-271 | for minX < maxX and minY < maxY every triangle of the flat grid has a cross product along +z with positive length, agreeing with the initial normal (0, 0, 1) |
| TerrainGrid.TriangleNormal | Terrain/Terrain.js:252-271 | the face normal generateNormals computes for triangle f is `normalize` of that triangle's cross product |
| TerrainGrid.EdgesShape | Terrain/Terrain.js:229-243 | there are two edge entries per face entry; triangle f gives edges (p1,p2), (p2,p3), (p3,p1) at offset 6f |
| TerrainGrid.EdgesFromFaces | Terrain/Terrain.js:229-243 | every edge endpoint is a face index |
| TerrainGrid.FaceNormals | Terrain/Terrain.js:250-271 | there is one face normal per triangle |
| TerrainGrid.AddFace | Terrain/Terrain.js:273-275 | adding a face's normal to its corners keeps the buffer's length |
| TerrainGrid.Accumulated | Terrain/Terrain.js:249-277 | accumulating the first f faces keeps the buffer's length |
| TerrainGrid.AddFaceUntouched | Terrain/Terrain.js:273-275 | a vertex that is not a corner of the face keeps its normal |
| TerrainGrid.AccumulatedUntouched | Terrain/Terrain.js:249-277 | a vertex that is in no triangle keeps its initial normal |
| TerrainGrid.AddAtVertex | Terrain/Terrain.js:294-298 | seen from vertex c's triple, addNormalAtIndex at vertex p adds v when p is c and changes nothing otherwise |
| TerrainGrid.CornerCount | Terrain/Terrain.js:273-275 | the number of corners of triangle g that are vertex c is at most 3, and it is 0 exactly when the triangle does not name c |
| TerrainGrid.AddFaceAt | Terrain/Terrain.js:273-275 | the three addNormalAtIndex calls for one triangle add its normal to vertex c once per corner that is c |
| TerrainGrid.AccumulatedAt | Terrain/Terrain.js:249-277 | after the first f triangles, vertex c's normal is its initial value plus the sum over g < f of normals[g] times the number of corners of triangle g that are c |
| TerrainGrid.ContributionUp | Terrain/Terrain.js:249-277 | if every face normal points along +z, what the triangles add to any vertex has x = y = 0 and z ≥ 0 |
| TerrainGrid.AccumulatedUp | Terrain/Terrain.js:249-277 | a vertex that starts at (0, 0, 1) and receives only upward face normals ends with x = y = 0 and z ≥ 1 |
| TerrainGrid.GridNormalsUp | Terrain/Terrain.js:249-277 | on the fresh flat grid over a rectangle with minX < maxX and minY < maxY, for any normalizer that keeps a vector along +z along +z, generateNormals leaves every vertex normal with x = y = 0 and z ≥ 1 |
| TerrainGrid.NormalizedUpTo | Terrain/Terrain.js:304-319 | normalizing the first f triples keeps the length |
| TerrainGrid.NormalizedAll | Terrain/Terrain.js:304-319 | normalizing all triples keeps the length |
| TerrainGrid.NormalizedUpToRest | Terrain/Terrain.js:306-318 | the triples not yet visited are unchanged |
| TerrainGrid.NormalizedUpToAt | Terrain/Terrain.js:313-317 | each visited triple is the normalized old triple |
| TerrainGrid.NormalizedAt | Terrain/Terrain.js:304-319 | every triple of the result is `normalize` of the old triple |
| TerrainGrid.Spacing | Terrain/Terrain.js:176-177 | div copies of the spacing span the extent: r·div = hi − lo |
| TerrainGrid.FaultedGrid | Terrain/Terrain.js:327-355 | the faulted flat grid keeps 3(div+1)^2 coordinates |
| TerrainGrid.Build | Terrain/Terrain.js:16-51 | the terrain the constructor builds has 3(div+1)^2 coordinates and as many normal components |
| TerrainGrid.BuildShape | Terrain/Terrain.js:16-51 | (div+1)^2 vertices and normals, 2div^2 triangles whose indices all name a vertex, and edges drawn from the face indices |
| TerrainGrid.BuildNormalsNormalized | Terrain/Terrain.js:304-319 | every vertex normal of the built terrain is an output of `normalize`, so it has any property all outputs of `normalize` have, such as unit length |
| TerrainGrid.FaultedGridBounded | Terrain/Terrain.js:327-355 | every height of the faulted grid lies within [minZ, maxZ], and minZ <= 0 <= maxZ |
| TerrainGrid.FaultedGridPlan | Terrain/Terrain.js:327-355 | fault formation keeps each vertex's x = minX + deltaX·j and y = minY + deltaY·i |
| TerrainGrid.Terrain.constructor | Terrain/Terrain.js:16-51 | stores the extent; the buffers and bounds are Build of the arguments; numVertices = (div+1)^2 and numFaces = 2div^2 |
| TerrainGrid.Terrain.ShapeSurface | Terrain/Terrain.js:43-50 | from the flat grid: the heights become the faulted grid, and the normals are accumulated over the new vertices and then normalized |
| TerrainGrid.Terrain.SetVertex | Terrain/Terrain.js:66-79 | writes the vertex at 3(i(div+1)+j) and nothing else; the bounds widen to include its z |
| TerrainGrid.Terrain.GetVertex | Terrain/Terrain.js:87-92 | returns the three numbers at 3(i(div+1)+j) |
| TerrainGrid.Terrain.GetVertexAtIndex | Terrain/Terrain.js:284-287 | returns the three numbers at 3i |
| TerrainGrid.Terrain.AddNormalAtIndex | Terrain/Terrain.js:294-299 | adds the vector to normal i and changes nothing else |
| TerrainGrid.Terrain.GenerateTriangles | Terrain/Terrain.js:175-206 | appends the grid vertices, the up normals and the cell triangles; the counts are length / 3 |
| TerrainGrid.Terrain.PushGridVertices | Terrain/Terrain.js:179-189 | the nested loops append every vertex and its up normal, row by row |
| TerrainGrid.Terrain.PushGridRow | Terrain/Terrain.js:180-188 | the inner loop appends one row of vertices and normals |
| TerrainGrid.Terrain.PushGridFaces | Terrain/Terrain.js:191-202 | the nested loops append every cell's two triangles, row by row |
| TerrainGrid.Terrain.GenerateLines | Terrain/Terrain.js:229-243 | appends the three edges of every triangle |
| TerrainGrid.Terrain.GenerateNormals | Terrain/Terrain.js:249-277 | the normal buffer becomes the old one with every triangle's face normal added at its three corners, in face order; by AccumulatedAt, each vertex's normal is its old value plus every face normal of a triangle that names it, once per such corner |
| TerrainGrid.Terrain.AddFaceNormal | Terrain/Terrain.js:252-275 | one turn of the loop adds triangle f's face normal to its three corners |
| TerrainGrid.Terrain.NormalizeNormals | Terrain/Terrain.js:304-319 | every triple of the normal buffer is replaced by its normalized value |
| TerrainGrid.Terrain.RandomHeights | Terrain/Terrain.js:327-355 | the heights and bounds become N fault passes of the drawn faults; nothing is drawn for N <= 0 |
| TerrainGrid.Terrain.ApplyFault | Terrain/Terrain.js:338-353 | the nested loops perform one fault pass |
| TerrainGrid.Terrain.ApplyFaultRow | Terrain/Terrain.js:339-352 | the inner loop moves the div+1 vertices of row x |
| TerrainGrid.Terrain.MoveVertex | Terrain/Terrain.js:340-351 | moves vertex (x, y) one step of the walk |
| Particles.DrawnPosition | Physics/Particle.js:25-27 | a drawn coordinate of the starting position lies in [-1, 1) |
| Particles.DrawnVelocity | Physics/Particle.js:28-30 | a drawn velocity component lies in [-3, 3) |
| Particles.DrawnRadius | Physics/Particle.js:32 | the radius lies in [0.02, 0.17) |
| Particles.DrawnMass | Physics/Particle.js:33 | the mass lies in [0.5, 1.5) |
| Particles.Euler | Physics/Particle.js:40-55 | an Euler step keeps three components |
| Particles.EulerPositionSteps | Physics/Particle.js:51-55 | two position steps at constant velocity equal one step of the summed time |
| Particles.EulerDragSteps | Physics/Particle.js:40-44 | without acceleration, a velocity step for dt1 then one for dt2 equal one step for dt1 + dt2, for any decay that obeys the exponent law of (1 − drag)^dt at dt1 and dt2 |
| Particles.ResolveAxis | Physics/Particle.js:64-73 | one axis ends with the same or the negated velocity, and for min <= max its position lies in [min, max] |
| Particles.ResolveInside | Physics/Particle.js:65-72 | strictly between the walls nothing changes |
| Particles.FrameFromRest | Physics/Particle.js:40-74 | one frame (update_velocity, update_position, resolve_collision) from rest at the centre: velocity (0, −9.8·dt, 0) for any drag factor, position (0, −9.8·dt², 0), x and z untouched by the walls, and y either fallen by 9.8·dt² or clamped to −1 − radius with velocity 9.8·dt |
| Particles.ResolveHit | Physics/Particle.js:65-72 | for min < max, a particle at or past a wall ends on that wall with its velocity negated |
| Particles.ResolveDegenerate | Physics/Particle.js:65-72 | with both walls at m, a particle at or below them is clamped by both tests and keeps its velocity |
| Particles.ResolveClampStable | Physics/Particle.js:65-72 | resolving again does not move a resolved position |
| Particles.Particle.constructor | Physics/Particle.js:11-34 | the default fields, then position, velocity, color, radius and mass from the draws in the source's order |
| Particles.Particle.UpdateVelocity | Physics/Particle.js:40-44 | velocity becomes one Euler step with decay and the acceleration |
| Particles.Particle.UpdatePosition | Physics/Particle.js:51-55 | position becomes one Euler step with the velocity |
| Particles.Particle.ResolveCollision | Physics/Particle.js:61-74 | every axis is resolved independently against boxBoundMin − radius and boxBoundMax − radius, and every coordinate ends between them |
| ImageRendering.SideOrOne | ImageRendering/mp3.js:624 | the falsy fallback of `side`: a missing side or a side of 0 gives 1, and any other side is kept |
| ImageRendering.HalfSide | ImageRendering/mp3.js:624 | s is nonzero and half of the side after the fallback to 1 |
| ImageRendering.FaceAdded | ImageRendering/mp3.js:629-640 | one face adds 12 coordinates, 12 normal components, 8 texture coordinates and 6 indices |
| ImageRendering.Built | ImageRendering/mp3.js:629-646 | k faces made from empty arrays give 12k, 12k, 8k and 6k entries |
| ImageRendering.CubeQuads | ImageRendering/mp3.js:641-646 | there are six well-formed faces |
| ImageRendering.CubeInOrder | ImageRendering/mp3.js:641-646 | the cube is `face` applied to the six quads in the source's order |
| ImageRendering.Face | ImageRendering/mp3.js:629-640 | the nested function's loops append the quad, its normal four times, the unit-square texture coordinates and the two triangles from `start` |
| ImageRendering.GetCube | ImageRendering/mp3.js:623-653 | the returned arrays are the six faces of the cube whose half side is HalfSide(side) |
| ImageRendering.CubeCounts | ImageRendering/mp3.js:623-653 | 72 coordinates, 72 normal components, 48 texture coordinates, 36 indices |
| ImageRendering.BuiltIndexBlocks | ImageRendering/mp3.js:629-640 | face k's indices are (4k, 4k+1, 4k+2, 4k, 4k+2, 4k+3) |
| ImageRendering.BuiltIndicesBelow | ImageRendering/mp3.js:629-640 | every index names one of the 4k vertices pushed |
| ImageRendering.BuiltBlocks | ImageRendering/mp3.js:632-637 | face k's coordinates sit at offset 12k, and its normal is repeated for its 4 vertices |
| ImageRendering.BuiltTexCoords | ImageRendering/mp3.js:638 | every face has the same unit-square texture coordinates |
| ImageRendering.BuiltPlusMinus | ImageRendering/mp3.js:632-634 | if every quad's values are ±s, so is every coordinate |
| ImageRendering.CubeIndices | ImageRendering/mp3.js:629-646 | the cube's indices face by face, all below 24 |
| ImageRendering.CubeCoords | ImageRendering/mp3.js:623-653 | the cube's coordinates are the six quads in order, each value ±s |
| ImageRendering.QuadsPlusMinus | ImageRendering/mp3.js:641-646 | every literal coordinate of the six quads is ±s |
| ImageRendering.CubeNormals | ImageRendering/mp3.js:629-646 | each face's normal is repeated 4 times and is a unit axis vector; the pairs of faces have opposite normals on z, y and x |
| ImageRendering.OutwardPlusZ | ImageRendering/mp3.js:641 | the +z face lies in the plane z = s, and both its triangles wind counter-clockwise around its normal |
| ImageRendering.OutwardMinusZ | ImageRendering/mp3.js:642 | the same for the −z face |
| ImageRendering.OutwardPlusY | ImageRendering/mp3.js:643 | the same for the +y face |
| ImageRendering.OutwardMinusY | ImageRendering/mp3.js:644 | the same for the −y face |
| ImageRendering.OutwardPlusX | ImageRendering/mp3.js:645 | the same for the +x face |
| ImageRendering.OutwardMinusX | ImageRendering/mp3.js:646 | the same for the −x face |
| ImageRendering.CubeOutward | ImageRendering/mp3.js:641-646 | every face of the cube faces outward |
| ImageRendering.Pushed | ImageRendering/mp3.js:142-166 | a push keeps the current matrix and puts a copy of it on top of the unchanged stack |
| ImageRendering.Popped | ImageRendering/mp3.js:152-178 | a pop throws "Invalid popMatrix!" exactly when the stack is empty; otherwise the top copy becomes current and is removed |
| ImageRendering.SetCurrent | ImageRendering/mp3.js:444-446 | rewriting the current matrix leaves the stack alone |
| ImageRendering.RunAppend | ImageRendering/mp3.js:442-456 | running two sequences of operations is running their concatenation, stopping at the first throw |
| ImageRendering.RunKeepsBase | ImageRendering/mp3.js:142-178 | operations that never pop below a base cannot throw, leave the base copies as they were, and change the depth by pushes minus pops |
| ImageRendering.PushThenPop | ImageRendering/mp3.js:441-457 | push, balanced work, pop restores both the matrix and the stack |
| ImageRendering.Lifo | ImageRendering/mp3.js:142-157 | last in, first out: two pops restore the two saved matrices in reverse order |
| ImageRendering.MatrixStack.constructor | ImageRendering/mp3.js:20-38 | a fresh matrix and an empty stack |
| ImageRendering.MatrixStack.Push | ImageRendering/mp3.js:142-166 | the state becomes Pushed of the old state |
| ImageRendering.MatrixStack.Pop | ImageRendering/mp3.js:152-178 | on an empty stack it throws and changes nothing; otherwise the state becomes Popped of the old state |
| ImageRendering.MatrixStack.Set | ImageRendering/mp3.js:444-446 | only the current matrix changes |
| ImageRendering.DrawFrame | ImageRendering/mp3.js:441-457 | the draw sees view(rotate(mv)) and rotate(m), and both stacks and both matrices are restored afterwards |
| ImageRendering.Rem | ImageRendering/mp3.js:468-474 | JavaScript `%`: the remainder is strictly between −b and b, and equals the Euclidean one for a non-negative dividend |
| ImageRendering.TurnedKeepsAngle | ImageRendering/mp3.js:465-474 | A steps the angle down by 10 (0 wraps to 350) and wins over D; D steps it up (350 wraps to 0); the angle stays a multiple of 10 in [0, 360) |
| ImageRendering.LeftRightCancel | ImageRendering/mp3.js:468-474 | a step left and a step right cancel, in either order |
| ImageRendering.KeyControl.constructor | ImageRendering/mp3.js:463 | eulerY = 0 and no key is recorded |
| ImageRendering.KeyControl.HandleKeyDown | ImageRendering/mp3.js:465-474 | records the key as pressed, then turns by the A and D entries; the angle stays valid |
| ImageRendering.KeyControl.HandleKeyUp | ImageRendering/mp3.js:495-498 | records the key as released; the angle does not change |

## Left out

- WebGL and DOM work is not modelled. This includes buffer loading, the shader functions, the uniform setters and the draw calls inside `draw`, `getSkybox` and `setTexture`, and the `getExtension` check at the end of the `Terrain` constructor (Terrain/Terrain.js:54-57). None of these computes geometry.
- ImageRendering.DrawFrame: models the branch of `draw` taken when `myMesh.loaded()` holds (ImageRendering/mp3.js:441). When the mesh is not yet loaded that branch is skipped, and neither stack nor matrix is touched; the model has no member for that case because nothing happens in it.
- SimpleModeling.PushVertex: `pushVertex` counts with an undeclared `i` (Physics/simpleModeling.js:46), so each call also leaves the page-global `i` at 3. The model has no global `i`. No caller observes it: the demo functions that use an `i` of their own declare it with `var` (Physics/mp4.js:150, 370 and 426, ImageRendering/mp3.js:631).
- Console output and `printBuffers` are not modelled, because they have no effect on the state.
- The asynchronous OBJ mesh loading, the animation loops and the particle demo's `addSpheres`/`removeSpheres` are not modelled. They are event plumbing around the modelled operations.
- The arrow-key camera rotation in `handleKeyDown` (ImageRendering/mp3.js:476-492) is not modelled. It works on the eye point through glMatrix trigonometry, which is outside the model. The quaternion camera controls are left out for the same reason.
- Floating point is not modelled. Float32 buffers, rounding and NaN are replaced by exact real arithmetic, and Uint16/Uint32 index arrays by naturals.
- `vec4.normalize`, `vec3.normalize`, `mat4.rotateY`, `mat4.multiply`, `Math.random`, `Math.cos`, `Math.sin` and `(1 - drag) ** dt` are parameters of the model, not definitions. The cross product is the one function of this kind written out (`Geometry.Cross`).
- Matrices are an opaque type parameter. Only how the stacks move them is modelled.
- `planeFromIteration` with n = 0 and a `Terrain` with div = 0 are excluded by `requires`. Both divide by zero, so in JavaScript they produce infinite or NaN coordinates.
- SideOrOne: only a missing side and 0 are treated as falsy. NaN, the other falsy value `side` could take, is not a real number of the model.
- Particles.EulerDragSteps: the exponent law of `(1 - drag) ** dt` is a premise about the `decay` parameter at dt1 and dt2, because real exponentiation is not defined in the model.
- Particles.Particle.UpdateVelocity: the drag factor comes in as the parameter `decay`. The source reads the page's global `drag` (Physics/mp4.js:65) rather than the particle's own field.
- ImageRendering.Face: the model stores the vertex count `start` as the exact quotient `|coords| / 3`. getCube only ever calls `face` with whole vertices, so this is the case that occurs.
- TerrainGrid.Terrain.constructor: the 100 fault lines' random numbers are the `draws` argument, and their cosine and sine are part of each draw, not computed from the angle.

