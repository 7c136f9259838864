/** Exact real arithmetic used by the painting core: vectors, the anchor-triangle
    centroid and offset, pointer-to-NDC conversion, UV-to-pixel conversion and the
    midpoint used by the smooth-polyline construction. */
module Geometry {

  /** A three.js `Vector3`, as a value. */
  datatype Vec3 = Vec3(x: real, y: real, z: real)

  /** A 2D point `{ x, y }` (pointer, NDC, UV or canvas pixel). */
  datatype Point2 = Point2(x: real, y: real)

  const Origin: Vec3 := Vec3(0.0, 0.0, 0.0)

  /** Size in pixels of every paint plane's canvas (`planeWidth`, `planeHeight`). */
  const PlaneWidth: real := 1024.0
  const PlaneHeight: real := 1024.0

  /** Offset factor applied to an anchor face's normal by `alignPlane`. */
  const NormalOffset: real := -10.0

  /** The literal x offset `update` subtracts from every landmark. */
  const LandmarkXOffset: real := 640.0

  function Add(u: Vec3, v: Vec3): Vec3 {
    Vec3(u.x + v.x, u.y + v.y, u.z + v.z)
  }

  function Sub(u: Vec3, v: Vec3): Vec3 {
    Vec3(u.x - v.x, u.y - v.y, u.z - v.z)
  }

  function Scale(v: Vec3, s: real): Vec3 {
    Vec3(v.x * s, v.y * s, v.z * s)
  }

  lemma ScaleScale(v: Vec3, s: real, t: real)
    ensures Scale(Scale(v, s), t) == Scale(v, s * t)
  {
  }

  /** Centroid of a triangle: the point whose offsets to the three corners sum to zero. */
  function Centroid(a: Vec3, b: Vec3, c: Vec3): (r: Vec3)
    ensures Add(Add(Sub(a, r), Sub(b, r)), Sub(c, r)) == Origin
  {
    Vec3((a.x + b.x + c.x) / 3.0, (a.y + b.y + c.y) / 3.0, (a.z + b.z + c.z) / 3.0)
  }

  /** Translating all three corners by `d` translates the centroid by `d`. */
  lemma CentroidTranslates(a: Vec3, b: Vec3, c: Vec3, d: Vec3)
    ensures Centroid(Add(a, d), Add(b, d), Add(c, d)) == Add(Centroid(a, b, c), d)
  {
  }

  /** Position `alignPlane` gives a plane whose anchor face has corners `a`, `b`, `c`
      and normal `n`: the centroid pushed ten normals backwards. */
  function AnchorPosition(a: Vec3, b: Vec3, c: Vec3, n: Vec3): (r: Vec3)
    ensures Sub(r, Centroid(a, b, c)) == Scale(n, NormalOffset)
  {
    Add(Centroid(a, b, c), Scale(n, NormalOffset))
  }

  /** Re-alignment tracks deformation: with the normal held fixed, moving the three
      anchor vertices by `d` moves the plane by `d`. */
  lemma AnchorTracksTranslation(a: Vec3, b: Vec3, c: Vec3, n: Vec3, d: Vec3)
    ensures AnchorPosition(Add(a, d), Add(b, d), Add(c, d), n) == Add(AnchorPosition(a, b, c, n), d)
  {
    CentroidTranslates(a, b, c, d);
  }

  /** Landmark `[x, y, z]` moved into the mesh's local frame by `update`:
      x shifted left by the literal 640, y and z negated. */
  function MeshLocal(landmark: Vec3): (r: Vec3)
    ensures LandmarkOf(r) == landmark
  {
    Vec3(landmark.x - LandmarkXOffset, -landmark.y, -landmark.z)
  }

  /** Inverse of `MeshLocal`. */
  function LandmarkOf(v: Vec3): Vec3 {
    Vec3(v.x + LandmarkXOffset, -v.y, -v.z)
  }

  /** Pointer position in client pixels to normalised device coordinates. */
  function PointerToNdc(pt: Point2, width: real, height: real): (r: Point2)
    requires width > 0.0 && height > 0.0
    ensures NdcToPointer(r, width, height) == pt
    ensures 0.0 <= pt.x <= width <==> -1.0 <= r.x <= 1.0
    ensures 0.0 <= pt.y <= height <==> -1.0 <= r.y <= 1.0
    ensures pt == Point2(width / 2.0, height / 2.0) ==> r == Point2(0.0, 0.0)
  {
    UnitRatio(pt.x, width);
    UnitRatio(pt.y, height);
    Point2((pt.x / width) * 2.0 - 1.0, -(pt.y / height) * 2.0 + 1.0)
  }

  /** For a positive `w`, `a` lies in `[0, w]` exactly when `a / w` lies in `[0, 1]`. */
  lemma UnitRatio(a: real, w: real)
    requires w > 0.0
    ensures 0.0 <= a <= w <==> 0.0 <= a / w <= 1.0
  {
    var q := a / w;
    assert a == q * w;
    assert 0.0 <= q <= 1.0 ==> q * w <= 1.0 * w;
    assert q < 0.0 ==> q * w < 0.0;
    assert q > 1.0 ==> q * w > 1.0 * w;
  }

  /** Inverse of `PointerToNdc`. */
  function NdcToPointer(ndc: Point2, width: real, height: real): Point2 {
    Point2((ndc.x + 1.0) / 2.0 * width, (1.0 - ndc.y) / 2.0 * height)
  }

  /** A UV coordinate of a plane hit to a pixel of that plane's canvas (v axis flipped). */
  function UvToPixel(uv: Point2): (r: Point2)
    ensures PixelToUv(r) == uv
    ensures 0.0 <= uv.x <= 1.0 <==> 0.0 <= r.x <= PlaneWidth
    ensures 0.0 <= uv.y <= 1.0 <==> 0.0 <= r.y <= PlaneHeight
    ensures uv.y == 1.0 <==> r.y == 0.0
  {
    Point2(uv.x * PlaneWidth, (1.0 - uv.y) * PlaneHeight)
  }

  /** Inverse of `UvToPixel`. */
  function PixelToUv(p: Point2): Point2 {
    Point2(p.x / PlaneWidth, 1.0 - p.y / PlaneHeight)
  }

  /** Midpoint of two points: equally far from both along each axis. */
  function Midpoint(p: Point2, q: Point2): (r: Point2)
    ensures r.x - p.x == q.x - r.x && r.y - p.y == q.y - r.y
  {
    Point2((p.x + q.x) / 2.0, (p.y + q.y) / 2.0)
  }
}
