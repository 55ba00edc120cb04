/**
 * `calculate_angles`: the three angles of each leg, frame by frame, from
 * the ankle (`a`), knee (`k`), hip (`h`) and shoulder (`s`) markers of that
 * side. The square root inside `np.linalg.norm` and `np.degrees(np.arccos(c))`
 * are the parameters `ops.sqrt` and `ops.arccosDeg`; `Valid` states what the
 * angles need of them.
 */
module JointAngles {
  import opened Wrappers
  import opened Vectors
  import opened Text
  import MarkerReader

  datatype FloatOps = FloatOps(sqrt: real -> real, arccosDeg: real -> real) {
    /** `sqrt` is the non-negative square root; `arccosDeg` maps [-1, 1]
        into [0, 180] and [0, 1] into [0, 90], with 1 at 0 degrees and -1 at 180. */
    ghost predicate Valid() {
      && (forall x: real :: x >= 0.0 ==> sqrt(x) >= 0.0 && sqrt(x) * sqrt(x) == x)
      && (forall c: real :: -1.0 <= c <= 1.0 ==> 0.0 <= arccosDeg(c) <= 180.0)
      && (forall c: real :: 0.0 <= c <= 1.0 ==> arccosDeg(c) <= 90.0)
      && arccosDeg(1.0) == 0.0
      && arccosDeg(-1.0) == 180.0
    }
  }

  /** `np.linalg.norm(v)` */
  function Norm(ops: FloatOps, v: Vec3): real {
    ops.sqrt(NormSq(v))
  }

  /** `np.clip(c, lo, hi)` */
  function Clip(c: real, lo: real, hi: real): (r: real)
    requires lo <= hi
    ensures lo <= r <= hi
    ensures lo <= c <= hi ==> r == c
    ensures c < lo ==> r == lo
    ensures c > hi ==> r == hi
  {
    if c < lo then lo else if c > hi then hi else c
  }

  /** `cos_angle` before clipping, from the dot product and the two norms. */
  function Cosine(dot: real, norm1: real, norm2: real): real
    requires norm1 != 0.0 && norm2 != 0.0
  {
    dot / (norm1 * norm2)
  }

  /** `angle_with_xy_plane(v)`: the angle between `v` and its projection on
      the XY plane, or 0 when either has norm zero. */
  function AngleWithXYPlane(ops: FloatOps, v: Vec3): (r: real)
    ensures ops.Valid() ==> 0.0 <= r <= 180.0
  {
    var p := ProjectXY(v);
    if Norm(ops, v) == 0.0 || Norm(ops, p) == 0.0 then 0.0
    else ops.arccosDeg(Clip(Cosine(Dot(v, p), Norm(ops, v), Norm(ops, p)), -1.0, 1.0))
  }

  /** `angle_between_vectors(v1, v2)`: the angle between the two, or 0 when
      either has norm zero. */
  function AngleBetween(ops: FloatOps, v1: Vec3, v2: Vec3): (r: real)
    ensures ops.Valid() ==> 0.0 <= r <= 180.0
  {
    if Norm(ops, v1) == 0.0 || Norm(ops, v2) == 0.0 then 0.0
    else ops.arccosDeg(Clip(Cosine(Dot(v1, v2), Norm(ops, v1), Norm(ops, v2)), -1.0, 1.0))
  }

  // ---------------------------------------------------------------- real arithmetic

  lemma ProductZero(a: real, b: real)
    requires a * b == 0.0
    ensures a == 0.0 || b == 0.0
  {
    if a != 0.0 {
      assert b == (a * b) / a;
    }
  }

  lemma SquareZero(x: real)
    requires x * x == 0.0
    ensures x == 0.0
  {
    ProductZero(x, x);
  }

  /** A non-negative root of `q` is zero exactly when `q` is. */
  lemma RootZero(s: real, q: real)
    requires s >= 0.0 && s * s == q
    ensures s == 0.0 <==> q == 0.0
  {
    if q == 0.0 {
      SquareZero(s);
    }
  }

  /** Two non-negative reals with the same square are equal. */
  lemma SameSquare(q: real, y: real)
    requires q >= 0.0 && y >= 0.0 && q * q == y * y
    ensures q == y
  {
    assert (q - y) * (q + y) == q * q - y * y;
    ProductZero(q - y, q + y);
  }

  lemma SumOfSquaresZero(x: real, y: real, z: real)
    requires x * x + y * y + z * z == 0.0
    ensures x == 0.0 && y == 0.0 && z == 0.0
  {
    assert x * x >= 0.0 && y * y >= 0.0 && z * z >= 0.0;
    SquareZero(x);
    SquareZero(y);
    SquareZero(z);
  }

  /** The cosine is the sign of `t` when `d = t q` and `n m = |t| q` with `q > 0`. */
  lemma SignRatio(t: real, q: real, n: real, m: real, d: real)
    requires q > 0.0 && n != 0.0 && m != 0.0 && t != 0.0
    requires d == t * q && n * m == (if t >= 0.0 then t else -t) * q
    ensures Cosine(d, n, m) == if t > 0.0 then 1.0 else -1.0
  {
    if t > 0.0 {
      DivSelf(d, n * m);
    } else {
      assert -d == (-t) * q;
      DivSelf(-d, n * m);
      NegDiv(d, n * m);
    }
  }

  lemma NegDiv(a: real, b: real)
    requires b != 0.0
    ensures a / b == -((-a) / b)
  {
  }

  /** `n (a n) = a q` when `n * n = q` */
  lemma ScaledSquare(a: real, n: real, q: real)
    requires n * n == q
    ensures n * (a * n) == a * q
  {
  }

  lemma DivSelf(a: real, b: real)
    requires b != 0.0 && a == b
    ensures a / b == 1.0
  {
  }

  lemma MulNonNeg(a: real, b: real)
    requires a >= 0.0 && b >= 0.0
    ensures a * b >= 0.0
  {
  }

  lemma MulPos(a: real, b: real)
    requires a > 0.0 && b > 0.0
    ensures a * b > 0.0
  {
  }

  lemma SquareOfProduct(a: real, b: real)
    ensures (a * b) * (a * b) == (a * a) * (b * b)
  {
  }

  // ---------------------------------------------------------------- norms

  /** Only the origin has squared norm zero. */
  lemma NormSqZero(v: Vec3)
    ensures NormSq(v) == 0.0 <==> v == Origin
  {
    if NormSq(v) == 0.0 {
      SumOfSquaresZero(v.x, v.y, v.z);
    }
  }

  /** `ops.sqrt` on a non-negative number. */
  lemma SqrtOf(ops: FloatOps, x: real)
    requires ops.Valid() && x >= 0.0
    ensures ops.sqrt(x) >= 0.0 && ops.sqrt(x) * ops.sqrt(x) == x
  {
  }

  /** The norm is the non-negative root of the squared norm, and the
      zero-norm test of the code holds exactly for the origin. */
  lemma NormZero(ops: FloatOps, v: Vec3)
    requires ops.Valid()
    ensures Norm(ops, v) >= 0.0
    ensures Norm(ops, v) * Norm(ops, v) == NormSq(v)
    ensures Norm(ops, v) == 0.0 <==> v == Origin
  {
    var q := NormSq(v);
    SqrtOf(ops, q);
    RootZero(ops.sqrt(q), q);
    NormSqZero(v);
  }

  /** `sqrt(t^2 q) = |t| sqrt(q)` */
  lemma RootScale(ops: FloatOps, t: real, q: real)
    requires ops.Valid() && q >= 0.0
    ensures ops.sqrt((t * t) * q) == (if t >= 0.0 then t else -t) * ops.sqrt(q)
  {
    var at := if t >= 0.0 then t else -t;
    var s := ops.sqrt(q);
    var x := (t * t) * q;
    assert at * at == t * t;
    MulNonNeg(at * at, q);
    SqrtOf(ops, q);
    SqrtOf(ops, x);
    MulNonNeg(at, s);
    SquareOfProduct(at, s);
    SameSquare(ops.sqrt(x), at * s);
  }

  lemma NormSqScale(t: real, v: Vec3)
    ensures NormSq(Scale(t, v)) == (t * t) * NormSq(v)
  {
  }

  lemma DotScale(t: real, v: Vec3)
    ensures Dot(v, Scale(t, v)) == t * NormSq(v)
  {
  }

  /** `|t v| = |t| |v|` */
  lemma NormScale(ops: FloatOps, t: real, v: Vec3)
    requires ops.Valid()
    ensures Norm(ops, Scale(t, v)) == (if t >= 0.0 then t else -t) * Norm(ops, v)
  {
    NormSqScale(t, v);
    RootScale(ops, t, NormSq(v));
  }

  /** A non-zero vector has positive norm and positive squared norm. */
  lemma NormPositive(ops: FloatOps, v: Vec3)
    requires ops.Valid() && v != Origin
    ensures Norm(ops, v) > 0.0 && NormSq(v) > 0.0
  {
    NormZero(ops, v);
    NormSqZero(v);
  }

  // ---------------------------------------------------------------- angle_with_xy_plane

  /** A vector whose XY projection is zero, the origin and every vertical
      vector such as (0, 0, 1) among them, gives 0, not 90. */
  lemma XYPlaneDegenerate(ops: FloatOps, v: Vec3)
    requires ops.Valid() && v.x == 0.0 && v.y == 0.0
    ensures AngleWithXYPlane(ops, v) == 0.0
  {
    NormZero(ops, ProjectXY(v));
  }

  /** The origin gives 0. */
  lemma XYPlaneOrigin(ops: FloatOps)
    requires ops.Valid()
    ensures AngleWithXYPlane(ops, Origin) == 0.0
  {
    XYPlaneDegenerate(ops, Origin);
  }

  /** The angle with the XY plane is at most 90: the projection never points away from the vector. */
  lemma XYPlaneAtMostRight(ops: FloatOps, v: Vec3)
    requires ops.Valid()
    ensures 0.0 <= AngleWithXYPlane(ops, v) <= 90.0
  {
    var p := ProjectXY(v);
    NormZero(ops, v);
    NormZero(ops, p);
    var nv, np := Norm(ops, v), Norm(ops, p);
    if nv != 0.0 && np != 0.0 {
      MulPos(nv, np);
      var d := Dot(v, p);
      assert d == NormSq(p);
      CosineNonNeg(d, nv, np);
    }
  }

  lemma CosineNonNeg(d: real, n1: real, n2: real)
    requires d >= 0.0 && n1 > 0.0 && n2 > 0.0
    ensures Cosine(d, n1, n2) >= 0.0
  {
    MulPos(n1, n2);
  }

  /** A non-zero vector in the XY plane makes angle 0 with it. */
  lemma XYPlaneInPlane(ops: FloatOps, v: Vec3)
    requires ops.Valid() && v.z == 0.0 && v != Origin
    ensures AngleWithXYPlane(ops, v) == 0.0
  {
    assert ProjectXY(v) == v;
    NormZero(ops, v);
    NormPositive(ops, v);
    DivSelf(Dot(v, v), Norm(ops, v) * Norm(ops, v));
    assert Cosine(Dot(v, v), Norm(ops, v), Norm(ops, v)) == 1.0;
  }

  /** Mirroring a vector in the XY plane does not change its angle with it. */
  lemma XYPlaneMirror(ops: FloatOps, v: Vec3)
    ensures AngleWithXYPlane(ops, Vec3(v.x, v.y, -v.z)) == AngleWithXYPlane(ops, v)
  {
    var w := Vec3(v.x, v.y, -v.z);
    assert ProjectXY(w) == ProjectXY(v);
    assert NormSq(w) == NormSq(v) by {
      assert (-v.z) * (-v.z) == v.z * v.z;
    }
    assert Dot(w, ProjectXY(w)) == Dot(v, ProjectXY(v));
  }

  // ---------------------------------------------------------------- angle_between_vectors

  /** A zero vector on either side gives 0. */
  lemma BetweenDegenerate(ops: FloatOps, v1: Vec3, v2: Vec3)
    requires ops.Valid() && (v1 == Origin || v2 == Origin)
    ensures AngleBetween(ops, v1, v2) == 0.0
  {
    NormZero(ops, v1);
    NormZero(ops, v2);
  }

  /** A vector and a positive multiple of it make angle 0, a negative
      multiple angle 180: `angle_between_vectors(v, v) == 0` and
      `angle_between_vectors(v, -v) == 180` among them. */
  lemma BetweenParallel(ops: FloatOps, v: Vec3, t: real)
    requires ops.Valid() && v != Origin && t != 0.0
    ensures AngleBetween(ops, v, Scale(t, v)) == if t > 0.0 then 0.0 else 180.0
  {
    CosineParallel(ops, v, t);
  }

  /** The cosine of a vector with a multiple of itself is the sign of the factor. */
  lemma CosineParallel(ops: FloatOps, v: Vec3, t: real)
    requires ops.Valid() && v != Origin && t != 0.0
    ensures Norm(ops, v) != 0.0 && Norm(ops, Scale(t, v)) != 0.0
    ensures Cosine(Dot(v, Scale(t, v)), Norm(ops, v), Norm(ops, Scale(t, v))) == if t > 0.0 then 1.0 else -1.0
  {
    ParallelFacts(ops, v, t);
    SignRatio(t, NormSq(v), Norm(ops, v), Norm(ops, Scale(t, v)), Dot(v, Scale(t, v)));
  }

  /** The norms and the dot product of a vector and a multiple of it. */
  lemma ParallelFacts(ops: FloatOps, v: Vec3, t: real)
    requires ops.Valid() && v != Origin && t != 0.0
    ensures NormSq(v) > 0.0 && Norm(ops, v) > 0.0 && Norm(ops, v) * Norm(ops, v) == NormSq(v)
    ensures Norm(ops, Scale(t, v)) == (if t >= 0.0 then t else -t) * Norm(ops, v)
    ensures Norm(ops, Scale(t, v)) != 0.0
    ensures Dot(v, Scale(t, v)) == t * NormSq(v)
    ensures Norm(ops, v) * Norm(ops, Scale(t, v)) == (if t >= 0.0 then t else -t) * NormSq(v)
  {
    NormZero(ops, v);
    NormPositive(ops, v);
    NormScale(ops, t, v);
    MulPos(if t >= 0.0 then t else -t, Norm(ops, v));
    DotScale(t, v);
    ScaledSquare(if t >= 0.0 then t else -t, Norm(ops, v), NormSq(v));
  }

  // ---------------------------------------------------------------- one leg

  /** The three angles of one leg in one frame. */
  datatype LegAngles = LegAngles(q1: real, q2: real, q3: real)

  const NoAngles: LegAngles := LegAngles(0.0, 0.0, 0.0)

  /** `q1` is the angle of the shank `a - k` with the XY plane, `q2` the
      supplement of the angle at the knee, `q3` that of the angle at the hip. */
  function Leg(ops: FloatOps, a: Vec3, k: Vec3, h: Vec3, s: Vec3): (r: LegAngles)
    ensures ops.Valid() ==> 0.0 <= r.q1 <= 180.0 && 0.0 <= r.q2 <= 180.0 && 0.0 <= r.q3 <= 180.0
  {
    LegAngles(
      AngleWithXYPlane(ops, Sub(a, k)),
      180.0 - AngleBetween(ops, Sub(k, a), Sub(k, h)),
      180.0 - AngleBetween(ops, Sub(h, k), Sub(h, s)))
  }

  /** Ankle on the knee: `q1` is 0 and `q2` is 180. */
  lemma AnkleOnKnee(ops: FloatOps, a: Vec3, h: Vec3, s: Vec3)
    requires ops.Valid()
    ensures Leg(ops, a, a, h, s).q1 == 0.0 && Leg(ops, a, a, h, s).q2 == 180.0
  {
    assert Sub(a, a) == Origin;
    XYPlaneOrigin(ops);
    BetweenDegenerate(ops, Origin, Sub(a, h));
  }

  /** Knee on the hip: `q2` and `q3` are 180. */
  lemma KneeOnHip(ops: FloatOps, a: Vec3, k: Vec3, s: Vec3)
    requires ops.Valid()
    ensures Leg(ops, a, k, k, s).q2 == 180.0 && Leg(ops, a, k, k, s).q3 == 180.0
  {
    assert Sub(k, k) == Origin;
    BetweenDegenerate(ops, Sub(k, a), Origin);
    BetweenDegenerate(ops, Origin, Sub(k, s));
  }

  /** Shoulder on the hip: `q3` is 180. */
  lemma ShoulderOnHip(ops: FloatOps, a: Vec3, k: Vec3, h: Vec3)
    requires ops.Valid()
    ensures Leg(ops, a, k, h, h).q3 == 180.0
  {
    assert Sub(h, h) == Origin;
    BetweenDegenerate(ops, Sub(h, k), Origin);
  }

  /** Hip on the ankle, the knee elsewhere: `q2` is 180. */
  lemma HipOnAnkle(ops: FloatOps, a: Vec3, k: Vec3, s: Vec3)
    requires ops.Valid() && a != k
    ensures Leg(ops, a, k, a, s).q2 == 180.0
  {
    var u := Sub(k, a);
    assert u != Origin by {
      assert a == Sub(k, u);
    }
    assert Scale(1.0, u) == u;
    BetweenParallel(ops, u, 1.0);
  }

  /** Shoulder on the knee, the hip elsewhere: `q3` is 180. */
  lemma ShoulderOnKnee(ops: FloatOps, a: Vec3, k: Vec3, h: Vec3)
    requires ops.Valid() && h != k
    ensures Leg(ops, a, k, h, k).q3 == 180.0
  {
    var u := Sub(h, k);
    assert u != Origin by {
      assert h == Vec3(k.x + u.x, k.y + u.y, k.z + u.z);
    }
    assert Scale(1.0, u) == u;
    BetweenParallel(ops, u, 1.0);
  }

  /** A straight leg, the knee strictly between ankle and hip on one line,
      gives `q2 = 0`. */
  lemma StraightLeg(ops: FloatOps, a: Vec3, k: Vec3, s: Vec3, t: real)
    requires ops.Valid() && a != k && t > 0.0
    ensures Leg(ops, a, k, Sub(k, Scale(t, Sub(a, k))), s).q2 == 0.0
  {
    var u := Sub(k, a);
    var h := Sub(k, Scale(t, Sub(a, k)));
    assert Sub(k, h) == Scale(-t, u);
    assert u != Origin by {
      assert a == Sub(k, u);
    }
    BetweenParallel(ops, u, -t);
  }

  /** A shank pointing straight down, as when standing, gives `q1 = 0`. */
  lemma VerticalShank(ops: FloatOps, k: Vec3, d: real, h: Vec3, s: Vec3)
    requires ops.Valid()
    ensures Leg(ops, Sub(k, Vec3(0.0, 0.0, d)), k, h, s).q1 == 0.0
  {
    XYPlaneDegenerate(ops, Sub(Sub(k, Vec3(0.0, 0.0, d)), k));
  }

  // ---------------------------------------------------------------- marker roles

  /** `marker_indices`: each name to its position, the last one when a name repeats. */
  function MarkerIndices(names: seq<string>): (r: map<string, nat>)
    ensures forall x :: x in r <==> x in names
    ensures forall x :: x in r ==> r[x] < |names| && names[r[x]] == x
    ensures forall x :: x in r ==> forall j :: r[x] < j < |names| ==> names[j] != x
  {
    if names == [] then map[]
    else
      var init := names[..|names| - 1];
      var last := names[|names| - 1];
      assert names == init + [last];
      MarkerIndices(init)[last := |names| - 1]
  }

  const RightRoles: seq<string> := ["ra", "rk", "rh", "rs"]
  const LeftRoles: seq<string> := ["la", "lk", "lh", "ls"]

  /** `has_right` / `has_left`: every role of the side has a marker. */
  predicate HasRoles(indices: map<string, nat>, roles: seq<string>) {
    forall k :: 0 <= k < |roles| ==> roles[k] in indices
  }

  /** The angles of one side in one frame: those of its four markers, or
      zero when the side lacks one of them. */
  function SideAngles(ops: FloatOps, frame: seq<Vec3>, indices: map<string, nat>, roles: seq<string>): (r: LegAngles)
    requires |roles| == 4
    requires forall x :: x in indices ==> indices[x] < |frame|
  {
    if HasRoles(indices, roles) then
      Leg(ops, frame[indices[roles[0]]], frame[indices[roles[1]]], frame[indices[roles[2]]], frame[indices[roles[3]]])
    else NoAngles
  }

  /** Each angle of a side lies in its range; a side that lacks a marker is zero. */
  lemma SideAnglesRange(ops: FloatOps, frame: seq<Vec3>, indices: map<string, nat>, roles: seq<string>)
    requires ops.Valid() && |roles| == 4
    requires forall x :: x in indices ==> indices[x] < |frame|
    ensures var r := SideAngles(ops, frame, indices, roles);
      0.0 <= r.q1 <= 90.0 && 0.0 <= r.q2 <= 180.0 && 0.0 <= r.q3 <= 180.0
    ensures !HasRoles(indices, roles) ==> SideAngles(ops, frame, indices, roles) == NoAngles
  {
    if HasRoles(indices, roles) {
      XYPlaneAtMostRight(ops, Sub(frame[indices[roles[0]]], frame[indices[roles[1]]]));
    }
  }

  /** A side's angles in a frame depend on that frame's positions of the
      side's four markers and on nothing else. */
  lemma SideAnglesLocal(ops: FloatOps, f1: seq<Vec3>, f2: seq<Vec3>, indices: map<string, nat>, roles: seq<string>)
    requires |roles| == 4
    requires forall x :: x in indices ==> indices[x] < |f1| && indices[x] < |f2|
    requires forall k :: 0 <= k < 4 && roles[k] in indices ==> f1[indices[roles[k]]] == f2[indices[roles[k]]]
    ensures SideAngles(ops, f1, indices, roles) == SideAngles(ops, f2, indices, roles)
  {
    if HasRoles(indices, roles) {
      assert roles[0] in indices && roles[1] in indices && roles[2] in indices && roles[3] in indices;
    }
  }

  /** The names `MarkerDataReader` ends with, `"1"`, ..., `"n"`, contain no
      role, so neither side is present and every angle stays zero. */
  lemma SimpleNamesHaveNoRoles(n: nat)
    ensures !HasRoles(MarkerIndices(MarkerReader.SimpleNames(n)), RightRoles)
    ensures !HasRoles(MarkerIndices(MarkerReader.SimpleNames(n)), LeftRoles)
  {
    var names := MarkerReader.SimpleNames(n);
    MarkerReader.SimpleNamesNumberPositions(n);
    assert !AllDigits("ra") by { assert !IsDigit("ra"[0]); }
    assert !AllDigits("la") by { assert !IsDigit("la"[0]); }
    assert RightRoles[0] !in names;
    assert LeftRoles[0] !in names;
  }

  // ---------------------------------------------------------------- calculate_angles

  /** The angles of one side in each of `frames`, in order. */
  function SideSeries(ops: FloatOps, frames: seq<seq<Vec3>>, indices: map<string, nat>, roles: seq<string>): (r: seq<LegAngles>)
    requires |roles| == 4
    requires forall f :: 0 <= f < |frames| ==> forall x :: x in indices ==> indices[x] < |frames[f]|
    ensures |r| == |frames|
  {
    if frames == [] then []
    else SideSeries(ops, frames[..|frames| - 1], indices, roles) + [SideAngles(ops, frames[|frames| - 1], indices, roles)]
  }

  /** Frame `i` of a side's series holds the side's angles in frame `i`. */
  lemma {:induction false} SideSeriesAt(ops: FloatOps, frames: seq<seq<Vec3>>, indices: map<string, nat>, roles: seq<string>, i: nat)
    requires |roles| == 4
    requires forall f :: 0 <= f < |frames| ==> forall x :: x in indices ==> indices[x] < |frames[f]|
    requires i < |frames|
    ensures SideSeries(ops, frames, indices, roles)[i] == SideAngles(ops, frames[i], indices, roles)
  {
    if i < |frames| - 1 {
      SideSeriesAt(ops, frames[..|frames| - 1], indices, roles, i);
    }
  }

  /** Every frame of a side's series lies in the ranges of `SideAnglesRange`. */
  lemma {:induction false} SideSeriesRange(ops: FloatOps, frames: seq<seq<Vec3>>, indices: map<string, nat>, roles: seq<string>)
    requires ops.Valid() && |roles| == 4
    requires forall f :: 0 <= f < |frames| ==> forall x :: x in indices ==> indices[x] < |frames[f]|
    ensures forall i :: 0 <= i < |frames| ==>
      var r := SideSeries(ops, frames, indices, roles)[i];
      0.0 <= r.q1 <= 90.0 && 0.0 <= r.q2 <= 180.0 && 0.0 <= r.q3 <= 180.0
  {
    if frames != [] {
      SideSeriesRange(ops, frames[..|frames| - 1], indices, roles);
      SideAnglesRange(ops, frames[|frames| - 1], indices, roles);
    }
  }

  /** A side without all its markers is zero in every frame. */
  lemma {:induction false} SideSeriesAbsent(ops: FloatOps, frames: seq<seq<Vec3>>, indices: map<string, nat>, roles: seq<string>)
    requires |roles| == 4 && !HasRoles(indices, roles)
    requires forall f :: 0 <= f < |frames| ==> forall x :: x in indices ==> indices[x] < |frames[f]|
    ensures SideSeries(ops, frames, indices, roles) == seq(|frames|, _ => NoAngles)
  {
    if frames != [] {
      SideSeriesAbsent(ops, frames[..|frames| - 1], indices, roles);
      NoSide(ops, frames[|frames| - 1], indices, roles);
    }
  }

  /** With the names `MarkerDataReader` leaves behind (`"1"`, ..., `"n"`),
      `calculate_angles` gives zero for every angle of every frame. */
  lemma SimpleNamesGiveZeros(ops: FloatOps, frames: seq<seq<Vec3>>, n: nat)
    requires Shaped(frames, n)
    ensures SideSeries(ops, frames, MarkerIndices(MarkerReader.SimpleNames(n)), RightRoles) == seq(|frames|, _ => NoAngles)
    ensures SideSeries(ops, frames, MarkerIndices(MarkerReader.SimpleNames(n)), LeftRoles) == seq(|frames|, _ => NoAngles)
  {
    var indices := MarkerIndices(MarkerReader.SimpleNames(n));
    SimpleNamesHaveNoRoles(n);
    SideSeriesAbsent(ops, frames, indices, RightRoles);
    SideSeriesAbsent(ops, frames, indices, LeftRoles);
  }

  /** The dictionary `calculate_angles` returns, from the angles of each
      side frame by frame: the six keys `qr1`, `qr2`, `qr3`, `ql1`, `ql2`, `ql3`. */
  function AngleSeries(right: seq<LegAngles>, left: seq<LegAngles>): (r: map<string, seq<real>>)
    requires |right| == |left|
    ensures r.Keys == {"qr1", "qr2", "qr3", "ql1", "ql2", "ql3"}
    ensures forall key :: key in r ==> |r[key]| == |right|
    ensures forall i :: 0 <= i < |right| ==>
      && r["qr1"][i] == right[i].q1 && r["qr2"][i] == right[i].q2 && r["qr3"][i] == right[i].q3
      && r["ql1"][i] == left[i].q1 && r["ql2"][i] == left[i].q2 && r["ql3"][i] == left[i].q3
  {
    map[
      "qr1" := seq(|right|, i requires 0 <= i < |right| => right[i].q1),
      "qr2" := seq(|right|, i requires 0 <= i < |right| => right[i].q2),
      "qr3" := seq(|right|, i requires 0 <= i < |right| => right[i].q3),
      "ql1" := seq(|left|, i requires 0 <= i < |left| => left[i].q1),
      "ql2" := seq(|left|, i requires 0 <= i < |left| => left[i].q2),
      "ql3" := seq(|left|, i requires 0 <= i < |left| => left[i].q3)]
  }

  /** `calculate_angles(frames_data, marker_names)`: the angles of both
      sides, one value per frame, from the positions of the markers named
      `ra`, `rk`, `rh`, `rs` (right) and `la`, `lk`, `lh`, `ls` (left). The
      three series of a side are held as one array of triples, so
      `right[i].q1` is `qr1[i]`; `AngleSeries` gives back the six keyed series. */
  method CalculateAngles(ops: FloatOps, framesData: array3<real>, markerNames: seq<string>)
    returns (right: array<LegAngles>, left: array<LegAngles>)
    requires framesData.Length2 == 3 && |markerNames| <= framesData.Length1
    ensures fresh(right) && fresh(left)
    ensures right[..] == SideSeries(ops, Snapshot(framesData), MarkerIndices(markerNames), RightRoles)
    ensures left[..] == SideSeries(ops, Snapshot(framesData), MarkerIndices(markerNames), LeftRoles)
  {
    var numFrames := framesData.Length0;
    var markerIndices := MarkerIndices(markerNames);
    var frames := Snapshot(framesData);
    right := new LegAngles[numFrames]((_) => NoAngles);
    left := new LegAngles[numFrames]((_) => NoAngles);
    var hasRight := HasRoles(markerIndices, RightRoles);
    var hasLeft := HasRoles(markerIndices, LeftRoles);
    for frameIdx := 0 to numFrames
      invariant right[..frameIdx] == SideSeries(ops, frames[..frameIdx], markerIndices, RightRoles)
      invariant left[..frameIdx] == SideSeries(ops, frames[..frameIdx], markerIndices, LeftRoles)
      invariant forall i :: frameIdx <= i < numFrames ==> right[i] == NoAngles && left[i] == NoAngles
    {
      StoreSide(ops, frames, frameIdx, markerIndices, RightRoles, hasRight, right);
      StoreSide(ops, frames, frameIdx, markerIndices, LeftRoles, hasLeft, left);
    }
    assert frames[..numFrames] == frames;
    assert right[..] == right[..numFrames];
    assert left[..] == left[..numFrames];
  }

  /** One side's part of the frame loop body: a side that has all its
      markers stores its angles for frame `f`, and one that lacks a marker
      leaves its zeros there. */
  method StoreSide(ops: FloatOps, frames: seq<seq<Vec3>>, f: nat, markerIndices: map<string, nat>,
                   roles: seq<string>, present: bool, series: array<LegAngles>)
    modifies series
    requires |roles| == 4 && present == HasRoles(markerIndices, roles)
    requires forall g :: 0 <= g < |frames| ==> forall x :: x in markerIndices ==> markerIndices[x] < |frames[g]|
    requires f < |frames| == series.Length
    requires series[..f] == SideSeries(ops, frames[..f], markerIndices, roles)
    requires forall i :: f <= i < series.Length ==> series[i] == NoAngles
    ensures series[..f + 1] == SideSeries(ops, frames[..f + 1], markerIndices, roles)
    ensures forall i :: f < i < series.Length ==> series[i] == NoAngles
  {
    var frame := frames[f];
    if present {
      series[f] := SideStep(ops, frame, markerIndices, roles);
    } else {
      NoSide(ops, frame, markerIndices, roles);
    }
    assert frames[..f + 1][..f] == frames[..f];
    assert series[..f + 1] == series[..f] + [series[f]];
  }

  /** A side without all its markers keeps its zeros. */
  lemma NoSide(ops: FloatOps, frame: seq<Vec3>, indices: map<string, nat>, roles: seq<string>)
    requires |roles| == 4 && !HasRoles(indices, roles)
    requires forall x :: x in indices ==> indices[x] < |frame|
    ensures SideAngles(ops, frame, indices, roles) == NoAngles
  {
  }

  /** The body of the frame loop for a side that has all its markers: the
      angles the loop body computes from the side's four positions in
      `frame`. */
  method SideStep(ops: FloatOps, frame: seq<Vec3>, markerIndices: map<string, nat>, roles: seq<string>)
    returns (r: LegAngles)
    requires |roles| == 4 && HasRoles(markerIndices, roles)
    requires forall x :: x in markerIndices ==> markerIndices[x] < |frame|
    ensures r == SideAngles(ops, frame, markerIndices, roles)
  {
    assert roles[0] in markerIndices && roles[1] in markerIndices;
    assert roles[2] in markerIndices && roles[3] in markerIndices;
    r := Leg(ops, frame[markerIndices[roles[0]]], frame[markerIndices[roles[1]]],
      frame[markerIndices[roles[2]]], frame[markerIndices[roles[3]]]);
  }
}
