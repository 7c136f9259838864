# AR face doodle: the painting state machine

This project models the painting core of `src/three.js` in the AR face-doodle app.
A face mesh is deformed every frame by the tracked landmarks. The user paints strokes
on flat paint planes, and each plane is anchored to one triangle of that mesh.

- **State.** The `Painting.Painter` class holds:
  - the stack of planes;
  - the plane being drawn on (`currPlane`);
  - the brush parameters `debug`, `color`, `thickness` and `smooth`;
  - the set of plane objects in the scene;
  - the base mesh.
- **Base mesh.** The `Painting.Mesh` class holds the vertex list, the triangles, one
  normal per triangle, and its material flags.
- **Planes.** Each `Painting.Plane` holds:
  - its anchor face, as an index into the mesh's triangles;
  - its raw stroke points, in canvas pixels;
  - the position of its mesh and of its debug helper;
  - its canvas, as the log of the 2D-context commands issued on it.

The operations are `update`, `alignPlane`, `draw`, `end`, `undo`, `clear`, `setDebug`,
`isOverFace` and `createDrawingPlane`, plus the pure arithmetic they use. That
arithmetic is in module `Geometry`: pointer to NDC, UV to pixel, centroid, the anchor
offset and the midpoint. The stroke construction is in module `Canvas`.

Nothing here models the engine. It reaches the model as inputs:

- **Raycasts.** A raycast is an `Option<Hit>` argument, holding the UV, the face index
  and the world point.
- **Face normals.** The normals the engine recomputes (`computeFaceNormals`) are a
  `seq<Vec3>` argument with one entry per face.
- **Path simplifier.** `simplify-js` is a function value, fixed when the `Painter` is
  built.

Face normals are state of the mesh, and `alignPlane` scales the anchor face's normal
by -10 in place. The model keeps that. Planes anchored on the same face therefore share
one normal, as they share one `Face3` object in three.js.

- In one realignment loop, the k-th plane on a face (counting from 0) sees that
  face's normal scaled by `(-10)^k`.
- It ends up `(-10)^(k+1)` computed normals away from the face's centroid.
- For example, the first plane sits ten normals behind the face and the second a
  hundred in front.

`Painting.RealignedCounts`, `Painting.Painter.RealignedFactors` and
`Painting.ShareOffset` state this.

Some of the code's behaviour is kept exactly:

- The `-640` x offset of the landmarks is a literal.
- The dot branch issues `arc`/`fill` without `beginPath`.
- The stroke colour is captured once, when a plane is created.
- The thickness is re-read on every redraw.
- A debug helper's position is copied only while debugging.

When simplification leaves fewer than two points from the third raw point on, the
curve branch of `draw` reads a missing point and throws.

- The model reports this as `ok == false` from `Draw`.
- The point stays appended.
- The commands issued before the failing read stay in the canvas log.

## Model

| member | source | states |
|---|---|---|
| Geometry.Centroid | src/three.js:59-65 | the centroid is the point whose offsets to the three corners sum to zero |
| Geometry.CentroidTranslates | src/three.js:59-65 | translating all three corners by d translates the centroid by d |
| Geometry.AnchorPosition | src/three.js:66-69 | the plane sits at the centroid plus -10 times the face normal |
| Geometry.AnchorTracksTranslation | src/three.js:57-69 | with the normal fixed, shifting the three anchor vertices by d shifts the plane by d |
| Geometry.MeshLocal | src/three.js:84-85 | a landmark [x, y, z] becomes (x - 640, -y, -z), and `LandmarkOf` inverts it |
| Geometry.PointerToNdc | src/three.js:144-145 | NDC of a pointer: `NdcToPointer` inverts it; a coordinate lies in [0, size] exactly when its NDC lies in [-1, 1]; the centre maps to (0, 0) |
| Geometry.UvToPixel | src/three.js:151-153 | UV to canvas pixel (u·1024, (1-v)·1024): `PixelToUv` inverts it; u, v lie in [0, 1] exactly when the pixel lies in [0, 1024]; v = 1 exactly when the pixel row is 0 |
| Geometry.Midpoint | src/three.js:183-186 | the control midpoint is equally far from both points along each axis |
| Canvas.Curve | src/three.js:180-189 | the segment commands: one fewer than the points, and the last has control pts[n-2] and ends at pts[n-1] |
| Canvas.CurveAt | src/three.js:182-189 | segment i < n-2 has control pts[i] and ends at the midpoint of pts[i] and pts[i+1]; segment n-2 ends at pts[n-1] |
| Canvas.Redraw | src/three.js:161-191 | a redraw starts with a full clear, and it throws exactly when there are at least three raw points and fewer than two simplified ones |
| Canvas.RedrawDot | src/three.js:173-176 | with fewer than three raw points: a disc of radius thickness/2 at the newest point, filled with no new path and no stroke |
| Canvas.RedrawCurve | src/three.js:177-191 | from three raw points on: clear, beginPath, lineWidth = thickness, moveTo(pts[0]), exactly n-1 quadratic segments (each given), then stroke |
| Canvas.RedrawThrows | src/three.js:178-189 | with fewer than two simplified points the curve branch throws after clear, beginPath and lineWidth, plus `moveTo(pts[0])` when one simplified point survives |
| Painting.Mesh.constructor | src/three.js:126-133 | the loaded mesh is transparent with opacity 0 unless debugging, and opaque with opacity 1 when debugging |
| Painting.Mesh.WriteLandmarks | src/three.js:83-86 | vertex i becomes MeshLocal(landmark i) for every landmark; later vertices are unchanged; the length is kept |
| Painting.Plane.constructor | src/three.js:269-276 | a new plane has no points and a canvas set to the colour, round caps and joins, and the thickness of that moment |
| Painting.Plane.Repaint | src/three.js:161-191 | the canvas log grows by exactly `Redraw`'s commands; ok is false exactly when the source throws |
| Painting.Plane.EmitCurve | src/three.js:180-189 | the segment loop and its closing segment append exactly `Curve(pts)` |
| Painting.RescaledIsFactor | src/three.js:68 | k in-place rescalings by -10 multiply a normal by (-10)^k |
| Painting.ShareOffset | src/three.js:66-69 | the plane aligned after k others on its face sits (-10)^(k+1) computed normals from the centroid |
| Painting.RealignedCounts | src/three.js:68-96 | after k alignments, face j's normal is the computed one rescaled once per earlier plane anchored on j |
| Painting.IsOverFace | src/three.js:253-263 | isOverFace is true exactly when the raycast against the base mesh hits; `Painter.Draw` ensures that with no current plane a draw pushes a plane exactly when `IsOverFace` holds for the same raycast (lines 201-209) |
| Painting.UndoReversesStart | src/three.js:206-224 | undo after a plane was started gives back the previous stack and scene |
| Painting.DebugToggle | src/three.js:236-251 | turning debugging on adds exactly the debug helpers to the scene, and turning it off removes exactly them |
| Painting.Painter.constructor | src/three.js:17-22 | the initial state: no planes, no current plane, empty scene, debug off, colour #ffffff, thickness 20, smooth 1.5 |
| Painting.Painter.AlignPlane | src/three.js:57-74 | the anchor face's normal becomes -10 times itself; the plane moves to the centroid offset by the old normal times -10; its debug helper follows only while debugging |
| Painting.Painter.AlignNext | src/three.js:94-96 | one turn of the realignment loop extends the aligned prefix by one plane |
| Painting.Painter.AlignPlanes | src/three.js:94-96 | after the loop, normals and plane positions are those of aligning every plane in stack order, with shared normals |
| Painting.Painter.Update | src/three.js:76-100 | landmark vertices are written, the others are kept, the normals are recomputed, and every plane is realigned |
| Painting.Painter.RealignedFactors | src/three.js:57-96 | closed form after realignment: normal j is (-10)^count(j) times the computed one, and plane m is anchored with (-10)^(planes before m on its face) |
| Painting.Painter.CreateDrawingPlane | src/three.js:265-320 | a fresh plane on the hit face with an empty stroke and a fresh canvas, aligned; while debugging its helper is placed and added to the scene |
| Painting.Painter.Draw | src/three.js:142-212 | current plane, hit: exactly one pixel appended and the canvas redrawn; current plane, miss: no change; no current plane, hit: one fresh plane pushed and made current; no current plane, miss: only the normals are recomputed; the invariant is kept |
| Painting.Painter.End | src/three.js:214-216 | only nulls the current plane |
| Painting.Painter.Undo | src/three.js:218-225 | nulls the current plane; on a non-empty stack it pops exactly the last plane and removes its mesh and helper from the scene; on an empty one nothing else changes |
| Painting.Painter.Clear | src/three.js:227-234 | nulls the current plane, empties the stack and removes every plane's objects, leaving the scene empty |
| Painting.Painter.SetDebug | src/three.js:236-251 | sets debug and the material; every plane's mesh stays in the scene, and its helper is in the scene exactly when value; an unchanged value leaves the scene alone |
| Painting.Painter.ShowDebugHelpers | src/three.js:241-243 | the loop adds exactly every plane's debug helper |
| Painting.Painter.HideDebugHelpers | src/three.js:247-249 | the loop removes exactly every plane's debug helper |

Every public operation (`Update`, `Draw`, `End`, `Undo`, `Clear`, `SetDebug`) preserves
`Painter.Valid()`. The helpers they call (`CreateDrawingPlane`, `AlignPlane`, `AlignNext`,
`AlignPlanes`, `ShowDebugHelpers`, `HideDebugHelpers`) do not promise it on their own.
`CreateDrawingPlane`, for one, adds the new helper to the scene before `Draw` pushes the plane.
The invariant says:

- the current plane, when there is one, is the top of the stack;
- no plane is on the stack twice;
- every plane is anchored on a face of the mesh;
- the material matches `debug`;
- the scene holds exactly every plane's mesh, plus every helper while debugging.

`Clear` leaves `planes == []` and an empty scene whatever the state before it, so a
second `Clear` changes nothing. `SetDebug` changes neither `planes` nor `currPlane`
(its `modifies` clause), and a repeated call leaves the scene as it was.

## Left out

- Raycasting (`setFromCamera` and `intersectObject`) is engine code, so every hit is an input.
- Painting.IsOverFace: reduces to whether the raycast hit, because the raycast is an input; the pointer-to-NDC step is `Geometry.PointerToNdc`.
- Painting.Painter.Draw: takes the pointer's raycast result rather than the pointer, and requires a base-mesh hit's face index to be a face of the mesh (the engine only reports real faces).
- Geometry.PointerToNdc: requires a positive canvas width and height; with zero the source divides by zero.
- Orientation (`lookAt` and the rotation copy) is trigonometric engine maths; only positions are modelled.
- `computeFaceNormals`, `computeVertexNormals`, `computeBoundingSphere` and the `needsUpdate` flags are engine work. The recomputed face normals are an input of `Update` and `Draw`.
- `simplify-js` is not part of this model. It is a function value fixed at construction, and nothing is assumed about its output.
- Pixel rasterisation by the canvas (`arc`, `quadraticCurveTo`, `stroke`, `clearRect`) is not modelled: only the issued commands are.
- `init`, `addVideoSprite`, `renderer.render` and the video texture are WebGL setup and promises. Of `addFBXMesh`, only the material setup (lines 126-133) is modelled, by `Painting.Mesh.constructor`; the OBJ loading and the promise are left out. The `Painter` is built from an already loaded mesh.
- Painting.Painter.Update: the mesh always exists, so `update`'s `if (baseMesh)` guard is always true: `init` awaits the mesh before the update loop starts.
- Painting.Painter.Update: requires no more landmarks than vertices; with more, the source throws on a missing vertex.
- The `position` and `uv` arguments of `createDrawingPlane` are never used by it and are not modelled.
- `src/main.js` is not part of this model: camera acquisition, the animation loop and DOM listeners are I/O. It only decides the call order: `draw` on move after a press, `end` on release.
- `src/facemesh.js` (the landmark model) and `src/colorpicker.js` (UI) are not part of this model.
- JavaScript numbers are IEEE doubles; the model uses exact `real`s. The round trips of `Geometry.PointerToNdc` and `Geometry.UvToPixel`, the exact shift of `Geometry.AnchorTracksTranslation` and `Geometry.CentroidTranslates`, and the other equalities between computed positions hold of the model only; in the source they hold up to rounding.
- The pointer position is used as given, not mirrored. The code passes it to the NDC conversion unchanged, and the model follows the code.
