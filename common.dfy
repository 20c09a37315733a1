/** Value types shared by the asset pipeline, the asteroid field and the camera.
    Coordinates are mathematical reals; the numerics the program takes from glm
    and libm that this model does not interpret are gathered in `Numerics`. */
module Common {

  /** The single-precision value of acos(-1.0f), which the program uses as pi. */
  const Pi: real := 3.1415927410125732421875
  const Pi90: real := Pi / 2.0
  const Pi180: real := Pi
  const Pi360: real := Pi * 2.0

  newtype byte = x: int | 0 <= x < 256

  datatype Option<T> = None | Some(value: T)

  datatype Vec2 = Vec2(x: real, y: real)
  datatype Vec3 = Vec3(x: real, y: real, z: real)
  datatype Vec4 = Vec4(x: real, y: real, z: real, w: real)

  const Zero3: Vec3 := Vec3(0.0, 0.0, 0.0)

  function Add(a: Vec3, b: Vec3): Vec3 { Vec3(a.x + b.x, a.y + b.y, a.z + b.z) }
  function Sub(a: Vec3, b: Vec3): Vec3 { Vec3(a.x - b.x, a.y - b.y, a.z - b.z) }
  function Times(a: Vec3, k: real): Vec3 { Vec3(a.x * k, a.y * k, a.z * k) }
  function Neg(a: Vec3): Vec3 { Vec3(-a.x, -a.y, -a.z) }
  function Cross(a: Vec3, b: Vec3): Vec3
  {
    Vec3(a.y * b.z - a.z * b.y, a.z * b.x - a.x * b.z, a.x * b.y - a.y * b.x)
  }

  /** A 4x4 affine matrix as glm builds it, kept as the term of the builder
      calls that produced it: translate, scale and rotate are not evaluated. */
  datatype Transform =
    | Identity
    | Translate(base: Transform, offset: Vec3)
    | Scale(base: Transform, factors: Vec3)
    | Rotate(base: Transform, angle: real, axis: Vec3)

  /** Floating-point functions the model leaves uninterpreted: glm::distance,
      glm::normalize and the libm trigonometry. */
  datatype Numerics = Numerics(
    distance: (Vec3, Vec3) -> real,
    normalize: Vec3 -> Vec3,
    sin: real -> real,
    cos: real -> real,
    asin: real -> real)

  /** The operand of a vertex, position, normal and texture coordinates
      (struct Vertex of the library header). */
  datatype Vertex = Vertex(position: Vec3, normal: Vec3, texCoords: Vec2)

  /** An untextured vertex: position and normal only. */
  datatype Vertex1 = Vertex1(position: Vec3, normal: Vec3)

  /** A loaded texture: the GL handle, its semantic type name and its file path. */
  datatype Texture = Texture(id: nat, kind: string, path: string)

  function Abs(r: real): real { if r < 0.0 then -r else r }

  /** Conversion of a float to an int, truncating toward zero as C++ does. */
  function Trunc(r: real): (n: int)
    ensures r >= 0.0 ==> 0.0 <= n as real <= r < n as real + 1.0
    ensures r < 0.0 ==> n as real - 1.0 < r <= n as real <= 0.0
  {
    if r >= 0.0 then r.Floor else -((-r).Floor)
  }

  /** C's fmod: the remainder of x / y with the quotient truncated toward zero. */
  function FMod(x: real, y: real): (r: real)
    requires y > 0.0
    ensures x >= 0.0 ==> 0.0 <= r < y
    ensures 0.0 <= x < y ==> r == x
  {
    var q := x / y;
    var n := Trunc(q);
    QuotientBounds(x, y, q);
    RemainderBounds(x, y, q, n as real);
    x - (n as real) * y
  }

  /** Multiplying by a non-negative factor keeps the order of naturals. */
  lemma {:induction false} MulMono(a: nat, b: nat, q: int)
    requires a <= b && q >= 0
    ensures a * q <= b * q
    decreases b - a
  {
    if a < b {
      MulMono(a, b - 1, q);
      assert (b - 1) * q + q == b * q;
    }
  }

  /** One more row of q. */
  lemma MulStep(y: nat, q: int)
    ensures (y + 1) * q == y * q + q
  {
  }

  /** Concatenation regroups freely. */
  lemma AppendAssoc<T>(a: seq<T>, b: seq<T>, c: seq<T>)
    ensures (a + b) + c == a + (b + c)
  {
  }

  /** The head and tail of a concatenation with a non-empty front. */
  lemma AppendTail<T>(a: seq<T>, b: seq<T>)
    requires |a| > 0
    ensures (a + b)[0] == a[0] && (a + b)[1..] == a[1..] + b
  {
  }

  /** Inserting x at position j adds one x to the elements. */
  lemma InsertedElements<T>(ys: seq<T>, x: T, j: nat)
    requires j <= |ys|
    ensures multiset(ys[..j] + [x] + ys[j..]) == multiset(ys) + multiset{x}
  {
    assert ys[..j] + ys[j..] == ys;
  }

  lemma QuotientBounds(x: real, y: real, q: real)
    requires y > 0.0 && q == x / y
    ensures q * y == x
    ensures x >= 0.0 ==> q >= 0.0
    ensures 0.0 <= x < y ==> q < 1.0
  {
    if 0.0 <= x < y && q >= 1.0 {
      ScaleMono(1.0, q, y);
    }
  }

  /** Multiplying by a positive real keeps the order. */
  lemma ScaleMono(a: real, b: real, y: real)
    requires a <= b && y > 0.0
    ensures a * y <= b * y
  {
    assert b * y - a * y == (b - a) * y;
  }

  /** With q * y == x and f the integral part of a non-negative q, the
      remainder x - f * y lies in [0, y). */
  lemma RemainderBounds(x: real, y: real, q: real, f: real)
    requires y > 0.0 && q * y == x
    ensures 0.0 <= f <= q < f + 1.0 ==> 0.0 <= x - f * y < y
  {
    if 0.0 <= f <= q < f + 1.0 {
      var a := q - f;
      assert x - f * y == a * y;
      FractionScaled(a, y);
    }
  }

  lemma FractionScaled(a: real, y: real)
    requires 0.0 <= a < 1.0 && y > 0.0
    ensures 0.0 <= a * y < y
  {
    ScaleMono(0.0, a, y);
    assert y - a * y == (1.0 - a) * y;
    ScaleMonoStrict(0.0, 1.0 - a, y);
  }

  lemma ScaleMonoStrict(a: real, b: real, y: real)
    requires a < b && y > 0.0
    ensures a * y < b * y
  {
    assert b * y - a * y == (b - a) * y;
  }

  /** glm::clamp on one value. */
  function Clamp(v: real, lo: real, hi: real): (r: real)
    requires lo <= hi
    ensures lo <= r <= hi
    ensures lo <= v <= hi ==> r == v
  {
    if v < lo then lo else if v > hi then hi else v
  }
}
