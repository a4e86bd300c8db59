/**
 * Value types of the engine: two-component vectors, RGBA colours and the
 * 4x4 transform handed to the shaders.  Floating-point numbers are modelled
 * as `real`.
 */
module Types {

  /** An optional value (Rust's `Option`). */
  datatype Option<T> = None | Some(value: T)

  newtype u8 = x: int | 0 <= x < 0x100
  newtype u16 = x: int | 0 <= x < 0x1_0000
  newtype u32 = x: int | 0 <= x < 0x1_0000_0000

  /** A generic pair; `Vector2f` is the engine's standard (f64) vector. */
  datatype Vector2<T> = Vector2(x: T, y: T)

  type Vector2f = Vector2<real>
  type Vector2i = Vector2<int>
  type Vector2u = Vector2<nat>

  /** `Vector::at`: component 0 is x, component 1 is y; any other index is fatal. */
  function At<T>(v: Vector2<T>, index: nat): (r: T)
    requires index < 2
    ensures index == 0 ==> r == v.x
    ensures index == 1 ==> r == v.y
  {
    if index == 0 then v.x else v.y
  }

  /** `+`: each component of the sum is the sum of the components. */
  function Add(a: Vector2f, b: Vector2f): (r: Vector2f)
    ensures forall i :: 0 <= i < 2 ==> At(r, i) == At(a, i) + At(b, i)
  {
    Vector2(a.x + b.x, a.y + b.y)
  }

  /** `-`: each component of the difference is the difference of the components. */
  function Sub(a: Vector2f, b: Vector2f): (r: Vector2f)
    ensures forall i :: 0 <= i < 2 ==> At(r, i) == At(a, i) - At(b, i)
  {
    Vector2(a.x - b.x, a.y - b.y)
  }

  /** `*`: component-wise product. */
  function Mul(a: Vector2f, b: Vector2f): (r: Vector2f)
    ensures forall i :: 0 <= i < 2 ==> At(r, i) == At(a, i) * At(b, i)
  {
    Vector2(a.x * b.x, a.y * b.y)
  }

  /** `/`: component-wise quotient; a zero divisor (infinity or NaN in f64) is excluded. */
  function Div(a: Vector2f, b: Vector2f): (r: Vector2f)
    requires b.x != 0.0 && b.y != 0.0
    ensures forall i :: 0 <= i < 2 ==> At(r, i) == At(a, i) / At(b, i)
  {
    Vector2(a.x / b.x, a.y / b.y)
  }

  function Zero(): (r: Vector2f)
    ensures forall i :: 0 <= i < 2 ==> At(r, i) == 0.0
  {
    Vector2(0.0, 0.0)
  }

  function ZeroI(): (r: Vector2i)
    ensures forall i :: 0 <= i < 2 ==> At(r, i) == 0
  {
    Vector2(0, 0)
  }

  function ZeroU(): (r: Vector2u)
    ensures forall i :: 0 <= i < 2 ==> At(r, i) == 0
  {
    Vector2(0, 0)
  }

  /** Subtraction undoes addition and division undoes multiplication. */
  lemma ArithmeticInverses(a: Vector2f, b: Vector2f)
    ensures Sub(Add(a, b), b) == a
    ensures Add(a, Zero()) == a
    ensures b.x != 0.0 && b.y != 0.0 ==> Div(Mul(a, b), b) == a
  {
    if b.x != 0.0 && b.y != 0.0 {
      var m := Mul(a, b);
      var d := Div(m, b);
      assert m.x / b.x == a.x && m.y / b.y == a.y;
      assert d.x == a.x && d.y == a.y;
    }
  }

  /** An RGBA colour with f32 channels. */
  datatype Color = Color(r: real, g: real, b: real, a: real)

  /** `Color::new` takes its channels in the order red, blue, green, alpha. */
  function NewColor(r: real, b: real, g: real, a: real): (c: Color)
    ensures c.r == r && c.b == b && c.g == g && c.a == a
  {
    Color(r, g, b, a)
  }

  /*
   * The colour presets, each stated by the four floats the shader receives
   * for it.  `green()` and `blue()` store their channels in `g` and `b` like
   * the others, so `to_raw_color` hands green as [0, 0, 1, 1] and blue as
   * [0, 1, 0, 1].
   */

  function Black(): (c: Color)
    ensures ToRawColor(c) == [0.0, 0.0, 0.0, 1.0]
  {
    Color(0.0, 0.0, 0.0, 1.0)
  }

  function White(): (c: Color)
    ensures ToRawColor(c) == [1.0, 1.0, 1.0, 1.0]
  {
    Color(1.0, 1.0, 1.0, 1.0)
  }

  function Red(): (c: Color)
    ensures ToRawColor(c) == [1.0, 0.0, 0.0, 1.0]
  {
    Color(1.0, 0.0, 0.0, 1.0)
  }

  function Green(): (c: Color)
    ensures ToRawColor(c) == [0.0, 0.0, 1.0, 1.0]
  {
    Color(0.0, 1.0, 0.0, 1.0)
  }

  function Blue(): (c: Color)
    ensures ToRawColor(c) == [0.0, 1.0, 0.0, 1.0]
  {
    Color(0.0, 0.0, 1.0, 1.0)
  }

  function ZeroColor(): (c: Color)
    ensures ToRawColor(c) == [0.0, 0.0, 0.0, 0.0]
  {
    Color(0.0, 0.0, 0.0, 0.0)
  }

  /** The inverse of a colour: each of r, g, b reflected about 1, fully opaque. */
  function Invert(c: Color): (r: Color)
    ensures r.r + c.r == 1.0 && r.g + c.g == 1.0 && r.b + c.b == 1.0
    ensures r.a == 1.0
  {
    Color(1.0 - c.r, 1.0 - c.g, 1.0 - c.b, 1.0)
  }

  /** Inverting twice restores the colour channels, and makes any colour opaque. */
  lemma InvertInvolution(c: Color)
    ensures Invert(Invert(c)) == Color(c.r, c.g, c.b, 1.0)
    ensures c.a == 1.0 ==> Invert(Invert(c)) == c
  {
  }

  /** The four floats handed to the GPU for a colour. */
  type RawColor = s: seq<real> | |s| == 4 witness [0.0, 0.0, 0.0, 0.0]

  /** `to_raw_color` emits the channels in the order red, blue, green, alpha. */
  function ToRawColor(c: Color): (raw: RawColor)
    ensures raw[0] == c.r && raw[1] == c.b && raw[2] == c.g && raw[3] == c.a
  {
    [c.r, c.b, c.g, c.a]
  }

  /** The argument order of `Color::new` matches the order of `to_raw_color`. */
  lemma NewColorRawRoundTrip(x: real, y: real, z: real, w: real)
    ensures ToRawColor(NewColor(x, y, z, w)) == [x, y, z, w]
  {
  }

  /** A column (or any four-component vector) of a cgmath matrix. */
  datatype Vector4 = Vector4(x: real, y: real, z: real, w: real)

  /** A column-major 4x4 matrix: `x`, `y`, `z`, `w` are its four columns. */
  datatype Matrix4 = Matrix4(x: Vector4, y: Vector4, z: Vector4, w: Vector4)

  /** Component `i` of a four-component vector. */
  function Component(v: Vector4, i: nat): real
    requires i < 4
  {
    if i == 0 then v.x else if i == 1 then v.y else if i == 2 then v.z else v.w
  }

  /** Column `j` of a matrix. */
  function Column(m: Matrix4, j: nat): Vector4
    requires j < 4
  {
    if j == 0 then m.x else if j == 1 then m.y else if j == 2 then m.z else m.w
  }

  function IdentityMatrix(): (m: Matrix4)
    ensures forall i, j :: 0 <= i < 4 && 0 <= j < 4 ==>
      Component(Column(m, j), i) == if i == j then 1.0 else 0.0
  {
    Matrix4(Vector4(1.0, 0.0, 0.0, 0.0), Vector4(0.0, 1.0, 0.0, 0.0),
            Vector4(0.0, 0.0, 1.0, 0.0), Vector4(0.0, 0.0, 0.0, 1.0))
  }

  type Row4 = s: seq<real> | |s| == 4 witness [0.0, 0.0, 0.0, 0.0]
  const ZeroRow: Row4 := [0.0, 0.0, 0.0, 0.0]
  type Grid4 = s: seq<Row4> | |s| == 4 witness [ZeroRow, ZeroRow, ZeroRow, ZeroRow]

  /** The row-major `[[f32; 4]; 4]` handed to the shaders. */
  datatype Transform = Transform(data: Grid4)

  function Identity(): (t: Transform)
    ensures forall i, j :: 0 <= i < 4 && 0 <= j < 4 ==>
      t.data[i][j] == if i == j then 1.0 else 0.0
  {
    Transform([[1.0, 0.0, 0.0, 0.0],
               [0.0, 1.0, 0.0, 0.0],
               [0.0, 0.0, 1.0, 0.0],
               [0.0, 0.0, 0.0, 1.0]])
  }

  /** Row i of the transform gathers component i of each column: a transpose. */
  function FromMatrix(m: Matrix4): (t: Transform)
    ensures forall i, j :: 0 <= i < 4 && 0 <= j < 4 ==>
      t.data[i][j] == Component(Column(m, j), i)
  {
    Transform([[m.x.x, m.y.x, m.z.x, m.w.x],
               [m.x.y, m.y.y, m.z.y, m.w.y],
               [m.x.z, m.y.z, m.z.z, m.w.z],
               [m.x.w, m.y.w, m.z.w, m.w.w]])
  }

  /** Two transforms agree when every cell does. */
  lemma TransformExt(s: Transform, t: Transform)
    requires forall i, j :: 0 <= i < 4 && 0 <= j < 4 ==> s.data[i][j] == t.data[i][j]
    ensures s == t
  {
    forall i | 0 <= i < 4 ensures s.data[i] == t.data[i] {
      assert forall j :: 0 <= j < 4 ==> s.data[i][j] == t.data[i][j];
    }
  }

  /** Converting the identity matrix gives the identity transform. */
  lemma FromIdentityMatrix()
    ensures FromMatrix(IdentityMatrix()) == Identity()
  {
    TransformExt(FromMatrix(IdentityMatrix()), Identity());
  }
}
