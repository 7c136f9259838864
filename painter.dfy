/** The painting state machine: a base face mesh deformed by landmarks, a stack of
    paint planes anchored to its faces, the plane being drawn on, the brush parameters
    and the set of plane objects in the scene.  Raycasts, face-normal computation and
    path simplification are inputs: a hit or miss, the normals the engine computed, and
    a simplifier function fixed at construction. */
module Painting {
  import opened Geometry
  import opened Canvas

  datatype Option<T> = None | Some(value: T)

  /** The first intersection of a raycast: UV at the hit, index of the hit face in the
      target's geometry, and the world point. */
  datatype Hit = Hit(uv: Point2, faceIndex: nat, point: Vec3)

  /** A paint plane's object that can be part of the scene: its textured mesh or its
      debug helper (axes and wireframe grid). */
  datatype SceneObj = MeshOf(plane: Plane) | DebugOf(plane: Plane)

  /** A triangle of the base mesh, by the indices of its three vertices. */
  datatype Triangle = Triangle(a: nat, b: nat, c: nat)

  /** The base face mesh: its geometry's vertex list, its triangles, one normal per
      triangle, and its material.  A face's normal is state of the mesh: the engine
      rewrites it after every deformation and `alignPlane` rescales it in place, so
      planes anchored on the same face share it. */
  class Mesh {
    var vertices: seq<Vec3>
    const faces: seq<Triangle>
    var normals: seq<Vec3>
    var transparent: bool
    var opacity: real

    /** One normal per face, and every face indexes existing vertices. */
    ghost predicate Valid()
      reads this
    {
      |normals| == |faces| && Indexed()
    }

    /** Every face indexes existing vertices. */
    ghost predicate Indexed()
      reads this`vertices
    {
      forall i :: 0 <= i < |faces| ==> faces[i].a < |vertices| && faces[i].b < |vertices| && faces[i].c < |vertices|
    }

    /** The loaded mesh with its material: invisible unless debugging. */
    constructor (vertices: seq<Vec3>, faces: seq<Triangle>, normals: seq<Vec3>, debug: bool)
      requires |normals| == |faces|
      requires forall i :: 0 <= i < |faces| ==> faces[i].a < |vertices| && faces[i].b < |vertices| && faces[i].c < |vertices|
      ensures Valid() && this.vertices == vertices && this.faces == faces && this.normals == normals
      ensures transparent == !debug && opacity == (if debug then 1.0 else 0.0)
    {
      this.vertices, this.faces, this.normals := vertices, faces, normals;
      transparent, opacity := !debug, if debug then 1.0 else 0.0;
    }

    /** The landmark loop of a frame: vertex `i` takes landmark `i` in mesh-local
        coordinates; vertices past the last landmark keep their position. */
    method WriteLandmarks(landmarks: seq<Vec3>)
      requires |landmarks| <= |vertices|
      modifies this`vertices
      ensures |vertices| == old(|vertices|)
      ensures forall i :: 0 <= i < |landmarks| ==> vertices[i] == MeshLocal(landmarks[i])
      ensures forall i :: |landmarks| <= i < |vertices| ==> vertices[i] == old(vertices[i])
    {
      var i := 0;
      while i < |landmarks|
        invariant 0 <= i <= |landmarks| && |vertices| == old(|vertices|)
        invariant forall n :: 0 <= n < i ==> vertices[n] == MeshLocal(landmarks[n])
        invariant forall n :: i <= n < |vertices| ==> vertices[n] == old(vertices[n])
      {
        var l := landmarks[i];
        vertices := vertices[i := Vec3(l.x - LandmarkXOffset, -l.y, -l.z)];
        i := i + 1;
      }
    }
  }

  /** One paint plane: the index of its anchor face in the base mesh, the raw stroke
      points in canvas pixels, the position of its mesh and of its debug helper, and the
      log of its canvas context. */
  class Plane {
    const face: nat
    var points: seq<Point2>
    var position: Vec3
    var debugPosition: Vec3
    var canvas: seq<Cmd>

    constructor (face: nat, color: string, thickness: real)
      ensures this.face == face && points == [] && position == Origin && debugPosition == Origin
      ensures canvas == InitialCanvas(color, thickness)
    {
      this.face := face;
      points, position, debugPosition := [], Origin, Origin;
      canvas := InitialCanvas(color, thickness);
    }

    /** Re-rasterises the whole stroke after a point was appended: `pts` is the
        simplified stroke; `ok` is false where the source throws on a missing point. */
    method Repaint(pts: seq<Point2>, thickness: real) returns (ok: bool)
      requires |points| > 0
      modifies this`canvas
      ensures canvas == old(canvas) + Redraw(points, pts, thickness).cmds
      ensures ok == !Redraw(points, pts, thickness).threw
    {
      var clear := [ClearRect(PlaneWidth, PlaneHeight)];
      canvas := canvas + clear;
      if |points| < 3 {
        canvas := canvas + [Arc(points[|points| - 1], thickness / 2.0), Fill, ClosePath];
        return true;
      }
      canvas := canvas + [BeginPath, SetLineWidth(thickness)];
      if |pts| == 0 {
        return false;
      }
      canvas := canvas + [MoveTo(pts[0])];
      if |pts| == 1 {
        return false;
      }
      EmitCurve(pts);
      canvas := canvas + [Stroke];
      ok := true;
    }

    /** The segment loop of the curve branch and its closing segment. */
    method EmitCurve(pts: seq<Point2>)
      requires |pts| >= 2
      modifies this`canvas
      ensures canvas == old(canvas) + Curve(pts)
    {
      var i := 0;
      while i < |pts| - 2
        invariant 0 <= i <= |pts| - 2
        invariant canvas + Curve(pts[i..]) == old(canvas) + Curve(pts)
      {
        CurveStep(pts, i);
        canvas := canvas + [QuadraticCurveTo(pts[i], Midpoint(pts[i], pts[i + 1]))];
        i := i + 1;
      }
      assert pts[i..] == [pts[i], pts[i + 1]];
      canvas := canvas + [QuadraticCurveTo(pts[i], pts[i + 1])];
    }
  }

  /** No plane occurs twice on the stack. */
  ghost predicate Distinct(ps: seq<Plane>) {
    forall i, j :: 0 <= i < j < |ps| ==> ps[i] != ps[j]
  }

  ghost function MeshObjects(ps: seq<Plane>): set<SceneObj> {
    set p | p in ps :: MeshOf(p)
  }

  ghost function DebugObjects(ps: seq<Plane>): set<SceneObj> {
    set p | p in ps :: DebugOf(p)
  }

  /** The plane objects the scene holds for stack `ps`: every mesh, and every debug
      helper while debugging. */
  ghost function SceneOf(ps: seq<Plane>, debug: bool): set<SceneObj> {
    MeshObjects(ps) + if debug then DebugObjects(ps) else {}
  }

  lemma ObjectsSnoc(ps: seq<Plane>, p: Plane)
    ensures MeshObjects(ps + [p]) == MeshObjects(ps) + {MeshOf(p)}
    ensures DebugObjects(ps + [p]) == DebugObjects(ps) + {DebugOf(p)}
  {
    assert forall q :: q in ps + [p] <==> q in ps || q == p;
  }

  /** A plane's mesh is never one of the debug helpers. */
  lemma ObjectsDisjoint(ps: seq<Plane>, qs: seq<Plane>)
    ensures MeshObjects(ps) !! DebugObjects(qs)
  {
  }

  lemma ObjectsPop(ps: seq<Plane>)
    requires |ps| > 0 && Distinct(ps)
    ensures var last := ps[|ps| - 1];
      MeshObjects(ps[..|ps| - 1]) == MeshObjects(ps) - {MeshOf(last)} &&
      DebugObjects(ps[..|ps| - 1]) == DebugObjects(ps) - {DebugOf(last)}
  {
    assert ps == ps[..|ps| - 1] + [ps[|ps| - 1]];
    ObjectsSnoc(ps[..|ps| - 1], ps[|ps| - 1]);
  }

  /** Undo reverses the start of a plane: taking the last plane's mesh and helper out
      of the scene a draw left after pushing fresh plane `p` gives back the old scene.
      Composed with the `ensures` of `Painter.Draw` (no current plane, a hit) and of
      `Painter.Undo` (a non-empty stack), this gives back the stack and the scene from
      before the draw. */
  lemma UndoReversesStart(ps: seq<Plane>, p: Plane, debug: bool)
    requires p !in ps
    ensures (SceneOf(ps, debug) + {MeshOf(p)} + (if debug then {DebugOf(p)} else {})) - {MeshOf(p), DebugOf(p)}
      == SceneOf(ps, debug)
    ensures (ps + [p])[..|ps|] == ps
  {
    assert MeshOf(p) !in MeshObjects(ps) && DebugOf(p) !in DebugObjects(ps);
  }

  /** Switching debugging on adds exactly the debug helpers, switching it off removes
      exactly them. */
  lemma DebugToggle(ps: seq<Plane>)
    ensures SceneOf(ps, false) + DebugObjects(ps) == SceneOf(ps, true)
    ensures SceneOf(ps, true) - DebugObjects(ps) == SceneOf(ps, false)
  {
    ObjectsDisjoint(ps, ps);
  }

  /** How many of the first `k` planes of `ps` are anchored on face `f`. */
  ghost function Count(ps: seq<Plane>, k: nat, f: nat): nat
    requires k <= |ps|
  {
    if k == 0 then 0
    else Count(ps, k - 1, f) + if ps[k - 1].face == f then 1 else 0
  }

  /** `(-10)^k`. */
  function Factor(k: nat): real {
    if k == 0 then 1.0 else NormalOffset * Factor(k - 1)
  }

  /** A face normal `n` after `k` alignments, each scaling it by -10 in place. */
  function Rescaled(n: Vec3, k: nat): Vec3 {
    if k == 0 then n else Scale(Rescaled(n, k - 1), NormalOffset)
  }

  /** After `k` alignments a normal is `(-10)^k` times its computed value. */
  lemma {:induction false} RescaledIsFactor(n: Vec3, k: nat)
    ensures Rescaled(n, k) == Scale(n, Factor(k))
  {
    if k > 0 {
      RescaledIsFactor(n, k - 1);
      ScaleScale(n, Factor(k - 1), NormalOffset);
    }
  }

  /** The `(k + 1)`-th plane aligned on a face in one frame sits `(-10)^(k + 1)` computed
      normals away from the face's centroid: the first ten normals behind it, the second
      a hundred in front — the cost of rescaling the shared normal in place. */
  lemma ShareOffset(a: Vec3, b: Vec3, c: Vec3, n: Vec3, k: nat)
    ensures Sub(AnchorPosition(a, b, c, Rescaled(n, k)), Centroid(a, b, c)) == Scale(n, Factor(k + 1))
  {
    RescaledIsFactor(n, k);
    ScaleScale(n, Factor(k), NormalOffset);
  }

  /** The face normals `ns` after the first `k` planes of `ps` were aligned, one
      in-place rescaling of the anchor face's normal per plane. */
  function Realigned(ns: seq<Vec3>, ps: seq<Plane>, k: nat): (r: seq<Vec3>)
    requires k <= |ps| && forall i :: 0 <= i < |ps| ==> ps[i].face < |ns|
    ensures |r| == |ns|
  {
    if k == 0 then ns
    else
      var prev := Realigned(ns, ps, k - 1);
      prev[ps[k - 1].face := Scale(prev[ps[k - 1].face], NormalOffset)]
  }

  /** Planes sharing a face share its normal: after `k` alignments, face `j`'s normal
      has been rescaled once for each of those planes anchored on `j`. */
  lemma {:induction false} RealignedCounts(ns: seq<Vec3>, ps: seq<Plane>, k: nat, j: nat)
    requires k <= |ps| && forall i :: 0 <= i < |ps| ==> ps[i].face < |ns|
    requires j < |ns|
    ensures Realigned(ns, ps, k)[j] == Rescaled(ns[j], Count(ps, k, j))
  {
    if k > 0 {
      RealignedCounts(ns, ps, k - 1, j);
    }
  }

  /** Where `alignPlane` puts a plane anchored on `f` whose face normal reads `n`. */
  function FaceAnchor(vs: seq<Vec3>, f: Triangle, n: Vec3): Vec3
    requires f.a < |vs| && f.b < |vs| && f.c < |vs|
  {
    AnchorPosition(vs[f.a], vs[f.b], vs[f.c], n)
  }

  /** A raycast against the base mesh reports only whether it hit. */
  function IsOverFace(hit: Option<Hit>): (over: bool)
    ensures over <==> hit.Some?
  {
    hit.Some?
  }

  /** The painting module's state: the stack of paint planes, the plane a stroke is
      being drawn on (always the top of the stack), the brush parameters, the plane
      objects in the scene, the loaded base mesh and the path simplifier. */
  class Painter {
    var planes: seq<Plane>
    var currPlane: Plane?
    var debug: bool
    var color: string
    var thickness: real
    var smooth: real
    var scene: set<SceneObj>
    const baseMesh: Mesh
    const simplify: (seq<Point2>, real) -> seq<Point2>

    /** The painter's invariant: its own state is consistent and the base mesh is
        well-formed. */
    ghost predicate Valid()
      reads this, baseMesh
    {
      Consistent() && baseMesh.Valid()
    }

    /** The plane being drawn on, if any, is the last one pushed; no plane is pushed
        twice; every plane is anchored on a face of the base mesh; the base mesh's
        material shows it exactly while debugging; the scene holds every plane's mesh
        and, while debugging, every plane's debug helper. */
    ghost predicate Consistent()
      reads this, baseMesh`transparent, baseMesh`opacity
    {
      (currPlane != null ==> |planes| > 0 && currPlane == planes[|planes| - 1]) &&
      Anchored() &&
      baseMesh.transparent == !debug && baseMesh.opacity == (if debug then 1.0 else 0.0) &&
      scene == SceneOf(planes, debug)
    }

    /** No plane is pushed twice, and every plane is anchored on a face of the base mesh. */
    ghost predicate Anchored()
      reads this
    {
      Distinct(planes) &&
      forall i :: 0 <= i < |planes| ==> planes[i].face < |baseMesh.faces|
    }

    /** The module once the base mesh has loaded, with the default parameters. */
    constructor (baseMesh: Mesh, simplify: (seq<Point2>, real) -> seq<Point2>)
      requires baseMesh.Valid() && baseMesh.transparent && baseMesh.opacity == 0.0
      ensures Valid() && this.baseMesh == baseMesh && this.simplify == simplify
      ensures planes == [] && currPlane == null && scene == {}
      ensures !debug && color == "#ffffff" && thickness == 20.0 && smooth == 1.5
    {
      this.baseMesh, this.simplify := baseMesh, simplify;
      planes, currPlane, scene := [], null, {};
      debug, color, thickness, smooth := false, "#ffffff", 20.0, 1.5;
    }

    /** `alignPlane`: the anchor face's normal is scaled by -10 in place, and the plane
        is placed at the face's centroid plus that scaled normal; its debug helper
        follows only while debugging. */
    method AlignPlane(plane: Plane)
      requires baseMesh.Valid() && plane.face < |baseMesh.faces|
      modifies plane`position, plane`debugPosition, baseMesh`normals
      ensures baseMesh.normals ==
        old(baseMesh.normals)[plane.face := Scale(old(baseMesh.normals[plane.face]), NormalOffset)]
      ensures plane.position ==
        FaceAnchor(baseMesh.vertices, baseMesh.faces[plane.face], old(baseMesh.normals[plane.face]))
      ensures plane.debugPosition == if debug then plane.position else old(plane.debugPosition)
    {
      var t := baseMesh.faces[plane.face];
      var vs := baseMesh.vertices;
      var centroid := Centroid(vs[t.a], vs[t.b], vs[t.c]);
      baseMesh.normals := baseMesh.normals[plane.face := Scale(baseMesh.normals[plane.face], NormalOffset)];
      plane.position := Add(centroid, baseMesh.normals[plane.face]);
      if debug {
        plane.debugPosition := plane.position;
      }
    }

    /** The realignment loop of `update`: planes are aligned bottom to top, so the
        `m`-th plane sees its face normal already rescaled once for every earlier plane
        on the same face; debug helpers follow their planes only while debugging. */
    method AlignPlanes()
      requires Anchored() && baseMesh.Valid()
      modifies baseMesh`normals, planes`position, planes`debugPosition
      ensures baseMesh.Valid()
      ensures AlignedUpTo(|planes|, old(baseMesh.normals), old(DebugPositions(planes)))
    {
      ghost var ns, ds := baseMesh.normals, DebugPositions(planes);
      for k := 0 to |planes|
        invariant AlignedUpTo(k, ns, ds)
      {
        AlignNext(k, planes[k], ns, ds);
      }
    }

    /** Where the debug helpers of the planes `ps` are. */
    ghost function DebugPositions(ps: seq<Plane>): (r: seq<Vec3>)
      reads ps
      ensures |r| == |ps| && forall m :: 0 <= m < |ps| ==> r[m] == ps[m].debugPosition
    {
      if ps == [] then [] else DebugPositions(ps[..|ps| - 1]) + [ps[|ps| - 1].debugPosition]
    }

    /** The state after the first `k` iterations of the realignment loop that started
        from face normals `ns` and debug-helper positions `ds`: the normals are `ns`
        realigned by those `k` planes, each of them sits at its face's anchor for the
        normal it saw, and its debug helper followed it exactly while debugging. */
    ghost predicate AlignedUpTo(k: nat, ns: seq<Vec3>, ds: seq<Vec3>)
      requires Anchored() && baseMesh.Indexed() && k <= |planes| && |ns| == |baseMesh.faces| && |ds| == |planes|
      reads this, baseMesh, planes
    {
      baseMesh.normals == Realigned(ns, planes, k) &&
      (forall m {:trigger planes[m].position} :: 0 <= m < k ==>
        planes[m].position == FaceAnchor(baseMesh.vertices, baseMesh.faces[planes[m].face], Realigned(ns, planes, m)[planes[m].face])) &&
      (forall m {:trigger planes[m].debugPosition} :: 0 <= m < |planes| ==>
        planes[m].debugPosition == if debug && m < k then planes[m].position else ds[m])
    }

    /** One iteration of the realignment loop: aligning plane `k`. */
    method AlignNext(k: nat, p: Plane, ghost ns: seq<Vec3>, ghost ds: seq<Vec3>)
      requires Anchored() && baseMesh.Indexed() && k < |planes| && p == planes[k] && |ns| == |baseMesh.faces| && |ds| == |planes|
      requires AlignedUpTo(k, ns, ds)
      modifies baseMesh`normals, p`position, p`debugPosition
      ensures AlignedUpTo(k + 1, ns, ds)
    {
      assert forall m :: 0 <= m < |planes| && m != k ==> planes[m] != p;
      AlignPlane(p);
    }

    /** `update`: the landmarks move the base mesh's vertices into place, the face
        normals are recomputed (given as `normals`), and every plane is realigned, its
        face normal rescaled by -10 once per plane anchored on that face. */
    method Update(landmarks: seq<Vec3>, normals: seq<Vec3>)
      requires Valid() && |landmarks| <= |baseMesh.vertices| && |normals| == |baseMesh.faces|
      modifies baseMesh`vertices, baseMesh`normals, planes`position, planes`debugPosition
      ensures Valid()
      ensures |baseMesh.vertices| == old(|baseMesh.vertices|)
      ensures forall i :: 0 <= i < |landmarks| ==> baseMesh.vertices[i] == MeshLocal(landmarks[i])
      ensures forall i :: |landmarks| <= i < |baseMesh.vertices| ==> baseMesh.vertices[i] == old(baseMesh.vertices[i])
      ensures AlignedUpTo(|planes|, normals, old(DebugPositions(planes)))
    {
      baseMesh.WriteLandmarks(landmarks);
      baseMesh.normals := normals;
      AlignPlanes();
    }

    /** The realigned state in closed form: after aligning every plane, face `j`'s
        normal and each plane's position are given by `(-10)^count` of the planes so far
        on that face. */
    lemma RealignedFactors(ns: seq<Vec3>, ds: seq<Vec3>)
      requires Anchored() && baseMesh.Indexed() && |ns| == |baseMesh.faces| && |ds| == |planes|
      requires AlignedUpTo(|planes|, ns, ds)
      ensures forall j :: 0 <= j < |baseMesh.faces| ==>
        baseMesh.normals[j] == Scale(ns[j], Factor(Count(planes, |planes|, j)))
      ensures forall m :: 0 <= m < |planes| ==>
        planes[m].position == FaceAnchor(baseMesh.vertices, baseMesh.faces[planes[m].face],
          Scale(ns[planes[m].face], Factor(Count(planes, m, planes[m].face))))
    {
      forall j | 0 <= j < |baseMesh.faces|
        ensures baseMesh.normals[j] == Scale(ns[j], Factor(Count(planes, |planes|, j)))
      {
        RealignedCounts(ns, planes, |planes|, j);
        RescaledIsFactor(ns[j], Count(planes, |planes|, j));
      }
      forall m | 0 <= m < |planes|
        ensures planes[m].position == FaceAnchor(baseMesh.vertices, baseMesh.faces[planes[m].face],
          Scale(ns[planes[m].face], Factor(Count(planes, m, planes[m].face))))
      {
        RealignedCounts(ns, planes, m, planes[m].face);
        RescaledIsFactor(ns[planes[m].face], Count(planes, m, planes[m].face));
      }
    }

    /** `createDrawingPlane`: a fresh plane on face `fi` with a blank canvas in the
        current colour and thickness, aligned on that face; while debugging its helper
        is placed with it and shown. */
    method CreateDrawingPlane(fi: nat) returns (plane: Plane)
      requires baseMesh.Valid() && fi < |baseMesh.faces|
      modifies this`scene, baseMesh`normals
      ensures fresh(plane) && plane.face == fi && plane.points == []
      ensures plane.canvas == InitialCanvas(color, thickness)
      ensures baseMesh.normals == old(baseMesh.normals)[fi := Scale(old(baseMesh.normals[fi]), NormalOffset)]
      ensures plane.position == FaceAnchor(baseMesh.vertices, baseMesh.faces[fi], old(baseMesh.normals[fi]))
      ensures plane.debugPosition == if debug then plane.position else Origin
      ensures scene == old(scene) + if debug then {DebugOf(plane)} else {}
    {
      plane := new Plane(fi, color, thickness);
      AlignPlane(plane);
      if debug {
        plane.debugPosition := plane.position;
        scene := scene + {DebugOf(plane)};
      }
    }

    /** `draw`, given the pointer's raycast `hit` (against the current plane when
        there is one, against the base mesh otherwise) and the face normals the engine
        recomputes in the second case.  On the current plane a hit appends its pixel to
        the stroke and repaints the canvas, and `ok` is false exactly where the source
        throws; with no current plane the normals are recomputed and a hit starts a new
        plane on the hit face, which becomes the current one. */
    method Draw(hit: Option<Hit>, normals: seq<Vec3>) returns (ok: bool)
      requires Valid()
      requires currPlane == null ==>
        |normals| == |baseMesh.faces| && (hit.Some? ==> hit.value.faceIndex < |baseMesh.faces|)
      modifies this`planes, this`currPlane, this`scene, baseMesh`normals, currPlane
      ensures Valid()
      ensures old(currPlane) != null ==>
        planes == old(planes) && currPlane == old(currPlane) && scene == old(scene) &&
        baseMesh.normals == old(baseMesh.normals) &&
        currPlane.position == old(currPlane.position) && currPlane.debugPosition == old(currPlane.debugPosition)
      ensures old(currPlane) != null && hit.None? ==>
        ok && currPlane.points == old(currPlane.points) && currPlane.canvas == old(currPlane.canvas)
      ensures old(currPlane) != null && hit.Some? ==>
        var pts := simplify(currPlane.points, smooth);
        currPlane.points == old(currPlane.points) + [UvToPixel(hit.value.uv)] &&
        currPlane.canvas == old(currPlane.canvas) + Redraw(currPlane.points, pts, thickness).cmds &&
        ok == !Redraw(currPlane.points, pts, thickness).threw
      ensures old(currPlane) == null ==> ok
      ensures old(currPlane) == null ==> (|planes| == |old(planes)| + 1 <==> IsOverFace(hit))
      ensures old(currPlane) == null && hit.None? ==>
        planes == old(planes) && currPlane == null && scene == old(scene) && baseMesh.normals == normals
      ensures old(currPlane) == null && hit.Some? ==>
        var fi := hit.value.faceIndex;
        |planes| == |old(planes)| + 1 && planes[..|old(planes)|] == old(planes) &&
        currPlane == planes[|planes| - 1] && fresh(currPlane) &&
        currPlane.face == fi && currPlane.points == [] && currPlane.canvas == InitialCanvas(color, thickness) &&
        baseMesh.normals == normals[fi := Scale(normals[fi], NormalOffset)] &&
        currPlane.position == FaceAnchor(baseMesh.vertices, baseMesh.faces[fi], normals[fi]) &&
        currPlane.debugPosition == (if debug then currPlane.position else Origin) &&
        scene == old(scene) + {MeshOf(currPlane)} + (if debug then {DebugOf(currPlane)} else {})
    {
      if currPlane != null {
        ok := true;
        if hit.Some? {
          var plane := currPlane;
          plane.points := plane.points + [UvToPixel(hit.value.uv)];
          var pts := simplify(plane.points, smooth);
          ok := plane.Repaint(pts, thickness);
        }
      } else {
        baseMesh.normals := normals;
        ok := true;
        if hit.Some? {
          var plane := CreateDrawingPlane(hit.value.faceIndex);
          ObjectsSnoc(planes, plane);
          planes := planes + [plane];
          scene := scene + {MeshOf(plane)};
          currPlane := plane;
        }
      }
    }

    /** `end`: the stroke is over; the next draw starts a new plane. */
    method End()
      requires Valid()
      modifies this`currPlane
      ensures Valid() && currPlane == null
    {
      currPlane := null;
    }

    /** `undo`: ends the stroke and takes the last plane, if any, off the stack and out
        of the scene, mesh and debug helper both. */
    method Undo()
      requires Valid()
      modifies this`currPlane, this`planes, this`scene
      ensures Valid() && currPlane == null
      ensures old(planes) == [] ==> planes == [] && scene == old(scene)
      ensures old(planes) != [] ==>
        var last := old(planes)[|old(planes)| - 1];
        planes == old(planes)[..|old(planes)| - 1] && scene == old(scene) - {MeshOf(last), DebugOf(last)}
    {
      End();
      if |planes| > 0 {
        var plane := planes[|planes| - 1];
        ObjectsPop(planes);
        planes := planes[..|planes| - 1];
        scene := scene - {MeshOf(plane), DebugOf(plane)};
      }
    }

    /** `clear`: ends the stroke, takes every plane's mesh and debug helper out of the
        scene and empties the stack. */
    method Clear()
      requires Valid()
      modifies this`currPlane, this`planes, this`scene
      ensures Valid() && currPlane == null && planes == []
      ensures scene == old(scene) - SceneOf(old(planes), true)
      ensures scene == {}
    {
      End();
      for k := 0 to |planes|
        modifies this`scene
        invariant scene == old(scene) - SceneOf(planes[..k], true)
      {
        ObjectsSnoc(planes[..k], planes[k]);
        assert planes[..k + 1] == planes[..k] + [planes[k]];
        scene := scene - {MeshOf(planes[k]), DebugOf(planes[k])};
      }
      assert planes[..|planes|] == planes;
      planes := [];
    }

    /** `setDebug`: the base mesh's material is shown exactly while debugging, and the
        debug helper of every plane is added to or removed from the scene; helpers are
        not moved. */
    method SetDebug(value: bool)
      requires Valid()
      modifies this`debug, this`scene, baseMesh`transparent, baseMesh`opacity
      ensures Valid() && debug == value
      ensures baseMesh.transparent == !value && baseMesh.opacity == (if value then 1.0 else 0.0)
      ensures value ==> scene == old(scene) + DebugObjects(planes)
      ensures !value ==> scene == old(scene) - DebugObjects(planes)
      ensures old(debug) == value ==> scene == old(scene)
      ensures forall i :: 0 <= i < |planes| ==> MeshOf(planes[i]) in scene && (DebugOf(planes[i]) in scene <==> value)
    {
      debug := value;
      if debug {
        baseMesh.transparent, baseMesh.opacity := false, 1.0;
        ShowDebugHelpers();
      } else {
        baseMesh.transparent, baseMesh.opacity := true, 0.0;
        HideDebugHelpers();
      }
      ObjectsDisjoint(planes, planes);
    }

    /** The loop of `setDebug` that adds every plane's debug helper to the scene. */
    method ShowDebugHelpers()
      modifies this`scene
      ensures scene == old(scene) + DebugObjects(planes)
    {
      for k := 0 to |planes|
        invariant scene == old(scene) + DebugObjects(planes[..k])
      {
        ObjectsSnoc(planes[..k], planes[k]);
        assert planes[..k + 1] == planes[..k] + [planes[k]];
        scene := scene + {DebugOf(planes[k])};
      }
      assert planes[..|planes|] == planes;
    }

    /** The loop of `setDebug` that removes every plane's debug helper from the scene. */
    method HideDebugHelpers()
      modifies this`scene
      ensures scene == old(scene) - DebugObjects(planes)
    {
      for k := 0 to |planes|
        invariant scene == old(scene) - DebugObjects(planes[..k])
      {
        ObjectsSnoc(planes[..k], planes[k]);
        assert planes[..k + 1] == planes[..k] + [planes[k]];
        scene := scene - {DebugOf(planes[k])};
      }
      assert planes[..|planes|] == planes;
    }
  }
}
