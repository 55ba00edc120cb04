/** Three-dimensional points and the numpy vector arithmetic used on them. */
module Vectors {

  /** A marker position or a difference of two, in millimetres. */
  datatype Vec3 = Vec3(x: real, y: real, z: real)

  const Origin: Vec3 := Vec3(0.0, 0.0, 0.0)

  /** `a - b` */
  function Sub(a: Vec3, b: Vec3): Vec3 {
    Vec3(a.x - b.x, a.y - b.y, a.z - b.z)
  }

  /** `t * v` */
  function Scale(t: real, v: Vec3): Vec3 {
    Vec3(t * v.x, t * v.y, t * v.z)
  }

  /** `np.dot(a, b)` */
  function Dot(a: Vec3, b: Vec3): real {
    a.x * b.x + a.y * b.y + a.z * b.z
  }

  /** The square of `np.linalg.norm(v)`. */
  function NormSq(v: Vec3): (r: real)
    ensures r >= 0.0
    ensures v == Origin ==> r == 0.0
  {
    assert v.x * v.x >= 0.0 && v.y * v.y >= 0.0 && v.z * v.z >= 0.0;
    Dot(v, v)
  }

  /** `np.array([v[0], v[1], 0])`, the projection onto the XY plane. */
  function ProjectXY(v: Vec3): Vec3 {
    Vec3(v.x, v.y, 0.0)
  }

  /** Coordinate `a` of `p`: `p[a]` for `a` in 0, 1, 2. */
  function Axis(p: Vec3, a: nat): real {
    if a == 0 then p.x else if a == 1 then p.y else p.z
  }

  /** Every frame of `t` holds `width` positions. */
  predicate Shaped(t: seq<seq<Vec3>>, width: nat) {
    forall f :: 0 <= f < |t| ==> |t[f]| == width
  }

  /** `frames_data[f]`: the positions of all markers in frame `f`. */
  function Frame(a: array3<real>, f: nat): (r: seq<Vec3>)
    reads a
    requires f < a.Length0 && a.Length2 == 3
    ensures |r| == a.Length1
  {
    seq(a.Length1, m reads a requires 0 <= m < a.Length1 => Vec3(a[f, m, 0], a[f, m, 1], a[f, m, 2]))
  }

  /** The contents of a (frames, markers, 3) array, frame by frame and marker by marker. */
  function Snapshot(a: array3<real>): (r: seq<seq<Vec3>>)
    reads a
    requires a.Length2 == 3
    ensures |r| == a.Length0 && Shaped(r, a.Length1)
  {
    seq(a.Length0, f reads a requires 0 <= f < a.Length0 => Frame(a, f))
  }
}
