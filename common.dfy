/** Small values shared by every module of the viewer model: an optional
    value (JavaScript's `null`/`undefined`, Python's `None`), 3-vectors,
    an element-wise map over sequences, and JavaScript's `%` on numbers. */
module Common {

  datatype Option<+T> = None | Some(value: T) {
    function GetOr(default: T): T {
      if Some? then value else default
    }
  }

  /** A point or direction in scene space (Three.js `Vector3`). */
  datatype Vec3 = Vec3(x: real, y: real, z: real)

  const Origin: Vec3 := Vec3(0.0, 0.0, 0.0)

  function Plus(a: Vec3, b: Vec3): Vec3 {
    Vec3(a.x + b.x, a.y + b.y, a.z + b.z)
  }

  function Minus(a: Vec3, b: Vec3): Vec3 {
    Vec3(a.x - b.x, a.y - b.y, a.z - b.z)
  }

  function Times(a: Vec3, k: real): Vec3 {
    Vec3(a.x * k, a.y * k, a.z * k)
  }

  function NormSq(a: Vec3): real {
    a.x * a.x + a.y * a.y + a.z * a.z
  }

  /** Three.js `normalize()`: `a` divided by its length `len`, or by 1 when
      the length is zero (so the zero vector stays zero). The length is
      given, because there is no square root here. */
  function Normalized(a: Vec3, len: real): Vec3 {
    Times(a, 1.0 / (if len == 0.0 then 1.0 else len))
  }

  function Max(a: real, b: real): real {
    if a >= b then a else b
  }

  function Min(a: real, b: real): real {
    if a <= b then a else b
  }

  /** `f` applied to every element, order and length kept (a `forEach`
      that rewrites each element, or a `map`). */
  function MapSeq<A, B>(f: A -> B, s: seq<A>): (r: seq<B>)
    ensures |r| == |s|
    ensures forall i :: 0 <= i < |s| ==> r[i] == f(s[i])
  {
    seq(|s|, i requires 0 <= i < |s| => f(s[i]))
  }

  /** A product with a positive factor is positive only if the other factor is. */
  lemma PositiveFactor(d: real, y: real)
    requires d > 0.0 && d * y > 0.0
    ensures y > 0.0
  {
  }

  /** Integer part of `r`, rounded toward zero. */
  function Trunc(r: real): int {
    if r >= 0.0 then r.Floor else -((-r).Floor)
  }

  /** JavaScript's `x % d` on numbers: the remainder of a division whose
      quotient is truncated toward zero, so it takes the sign of `x`. */
  function JsRem(x: real, d: real): real
    requires d != 0.0
  {
    x - d * Trunc(x / d) as real
  }

  /** For a non-negative dividend and a positive divisor, JavaScript's `%`
      is the floored remainder and lies in [0, d). */
  lemma JsRemRange(x: real, d: real)
    requires x >= 0.0 && d > 0.0
    ensures JsRem(x, d) == x - d * (x / d).Floor as real
    ensures 0.0 <= JsRem(x, d)
    ensures JsRem(x, d) < d
  {
    var q := (x / d).Floor;
    var f := x / d - q as real;
    assert 0.0 <= f < 1.0;
    var p := d * f;
    assert 0.0 <= p < d by { assert d * (1.0 - f) > 0.0; }
    var m := d * q as real;
    var dx := d * (x / d);
    assert p == dx - m;
    assert dx == x;
    assert JsRem(x, d) == x - m;
  }
}
