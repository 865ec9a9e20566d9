/** The part of the Unity engine that the gate network calls into: vectors, the
    random source and the trigonometric and quaternion routines. The routines are
    opaque to the model; an `Engine` value supplies them and `Lawful` states the
    only facts about them that the model relies on. */
module UnityEngine {

  /** Vector3, with reals for the float components. */
  datatype Vec3 = Vec3(x: real, y: real, z: real)

  /** Vector3.zero */
  const Zero: Vec3 := Vec3(0.0, 0.0, 0.0)
  /** Vector3.one */
  const One: Vec3 := Vec3(1.0, 1.0, 1.0)

  /** Mathf.PI, the float nearest to pi. */
  const Pi: real := 3.14159274

  function Sub(a: Vec3, b: Vec3): Vec3 {
    Vec3(a.x - b.x, a.y - b.y, a.z - b.z)
  }

  function Scale(v: Vec3, k: real): Vec3 {
    Vec3(v.x * k, v.y * k, v.z * k)
  }

  function SqrMagnitude(v: Vec3): real {
    v.x * v.x + v.y * v.y + v.z * v.z
  }

  /** The engine routines the core calls, all opaque. Angles are in degrees: each
      routine stands for the engine call composed with Mathf.Deg2Rad or
      Mathf.Rad2Deg as the source writes it. */
  datatype Engine = Engine(
    sqrt: real -> real,               // Mathf.Sqrt
    ln: real -> real,                 // Mathf.Log
    pow: (real, real) -> real,        // Mathf.Pow
    sinDeg: real -> real,             // Mathf.Sin(a * Mathf.Deg2Rad)
    cosDeg: real -> real,             // Mathf.Cos(a * Mathf.Deg2Rad)
    tanDeg: real -> real,             // Mathf.Tan(a * Mathf.Deg2Rad)
    atan2Deg: (real, real) -> real,   // Mathf.Atan2(y, x) * Mathf.Rad2Deg
    elevationDeg: Vec3 -> real,       // Mathf.Asin(v.y / v.magnitude) * Mathf.Rad2Deg
    eulerFromUp: Vec3 -> Vec3,        // Quaternion.FromToRotation(Vector3.up, v).eulerAngles
    rotateUp: Vec3 -> Vec3,           // Quaternion.Euler(e) * Vector3.up
    rotateAboutUp: (real, Vec3) -> Vec3 // Quaternion.AngleAxis(a, Vector3.up) * v
  )

  /** The documented ranges of the engine routines, and nothing more. */
  ghost predicate Lawful(e: Engine) {
    && (forall t :: 0.0 <= t ==> 0.0 <= e.sqrt(t))
    && (forall t :: 0.0 < t < 1.0 ==> e.ln(t) < 0.0)
    && (forall y, x :: -180.0 <= e.atan2Deg(y, x) <= 180.0)
    && (forall v :: v != Zero ==> -90.0 <= e.elevationDeg(v) <= 90.0)
  }

  /** Vector3.magnitude */
  function Magnitude(e: Engine, v: Vec3): real {
    e.sqrt(SqrMagnitude(v))
  }

  /** Vector3.Distance */
  function Distance(e: Engine, a: Vec3, b: Vec3): real {
    Magnitude(e, Sub(a, b))
  }

  /** A lawful engine never reports a negative length. */
  lemma MagnitudeNonNegative(e: Engine, v: Vec3)
    requires Lawful(e)
    ensures 0.0 <= Magnitude(e, v)
  {
    assert 0.0 <= v.x * v.x && 0.0 <= v.y * v.y && 0.0 <= v.z * v.z;
  }

  /** One value of Random.value, which lies in [0, 1]. */
  type Uniform = u: real | 0.0 <= u <= 1.0

  /** What a consumer of the random source yields: a value and the draws left
      over, or nothing when the supplied draws ran out first. */
  datatype Draw<T> = Drawn(value: T, rest: seq<Uniform>) | Exhausted

  /** Scaling by a fraction in [0, 1] stays between 0 and the scaled value. */
  lemma ScaleUnit(u: real, m: real)
    requires 0.0 <= u <= 1.0 && 0.0 <= m
    ensures 0.0 <= u * m <= m
  {
    assert m - u * m == (1.0 - u) * m;
  }

  /** Random.Range(lo, hi) on integers, from one uniform draw: an index in
      [lo, hi), obtained by scaling the draw and capping the draw 1.0. */
  function RandomRange(u: Uniform, lo: int, hi: int): (k: int)
    requires lo < hi
    ensures lo <= k < hi
  {
    var n := hi - lo;
    var f := (u * n as real).Floor;
    ScaleUnit(u, n as real);
    lo + (if f < n then f else n - 1)
  }
}
