/** Value types shared by the style model: optional values, fixed-width
    integers with C#'s unchecked semantics, IEEE-754 floats by their bit
    pattern, and the small records (colour, size, edges, gradients) that
    style properties hold. */
module Primitives {

  datatype Option<+T> = None | Some(value: T)

  datatype Result<+T, +E> = Ok(value: T) | Err(error: E)

  /** C# `int`. */
  type int32 = x: int | -0x8000_0000 <= x < 0x8000_0000

  /** C# `uint`. */
  type uint32 = x: int | 0 <= x < 0x1_0000_0000

  /** C# `float`, represented by its 32-bit IEEE-754 pattern. Style code only
      copies and compares floats byte for byte, so the bit pattern is all
      that matters: -0.0 and 0.0 differ, a NaN equals only its own bits. */
  type Float32 = bv32

  const FloatZero: Float32 := 0x0000_0000
  const FloatOne: Float32 := 0x3F80_0000
  /** The single-precision value nearest 1.2 (1.2f). */
  const FloatOnePointTwo: Float32 := 0x3F99_999A

  /** `System.Numerics.Vector2`. */
  datatype Vector2 = Vector2(x: Float32, y: Float32)

  const Vector2Zero: Vector2 := Vector2(FloatZero, FloatZero)

  /** A colour, identified by the 32-bit value `ToUInt` returns. */
  datatype Color = Color(bits: uint32) {
    function ToUInt(): uint32 { bits }
  }

  /** `color?.ToUInt()`. */
  function ToUIntOrNull(c: Option<Color>): (r: Option<uint32>)
    ensures r.None? <==> c.None?
    ensures c.Some? ==> r.value == c.value.bits
  {
    match c
    case None => None
    case Some(col) => Some(col.ToUInt())
  }

  datatype Size = Size(width: int32, height: int32)

  /** `new Size()`. */
  const EmptySize: Size := Size(0, 0)

  /** Four-sided integer offsets (padding, margin, border width, ...). */
  datatype EdgeSize = EdgeSize(top: int32, right: int32, bottom: int32, left: int32)

  /** `new EdgeSize()`. */
  const NoEdges: EdgeSize := EdgeSize(0, 0, 0, 0)

  /** Per-side border colours; each side may be absent. */
  datatype BorderColor = BorderColor(top: Option<Color>, right: Option<Color>, bottom: Option<Color>, left: Option<Color>)

  /** `Anchor.AnchorPoint`: the nine placements plus `NoPoint`, the member
      whose underlying value is zero (`AnchorPoint.None`). */
  datatype AnchorPoint =
    | NoPoint
    | TopLeft | TopCenter | TopRight
    | MiddleLeft | MiddleCenter | MiddleRight
    | BottomLeft | BottomCenter | BottomRight

  /** `Flow`; `Horizontal` is the member with underlying value zero. */
  datatype Flow = Horizontal | Vertical

  /** One flag of the `RoundedCorners` flags enumeration. */
  datatype Corner = TopLeft | TopRight | BottomRight | BottomLeft

  /** A `RoundedCorners` value: the set of flags it has. */
  type RoundedCorners = set<Corner>

  /** `RoundedCorners.All`. */
  const AllCorners: RoundedCorners := {Corner.TopLeft, Corner.TopRight, Corner.BottomRight, Corner.BottomLeft}

  /** `GradientType`. A C# enum may hold any integer, so values outside the
      three named members are kept as `Undefined(code)`. */
  datatype GradientType = Horizontal | Vertical | Radial | Undefined(code: int32)

  /** `GradientColor`: two optional end colours, an inset in pixels and a
      type. `isEmpty` is the value of its `IsEmpty` property, taken as given. */
  datatype GradientColor = GradientColor(
    color1: Option<Color>,
    color2: Option<Color>,
    inset: int32,
    kind: GradientType,
    isEmpty: bool)

  const Int32Modulus: int := 0x1_0000_0000

  /** Reduces an integer into the `int32` range the way two's-complement
      arithmetic does. */
  function Wrap32(x: int): (r: int32)
    ensures (x - r) % Int32Modulus == 0
    ensures -0x8000_0000 <= x < 0x8000_0000 ==> r == x
  {
    (x + 0x8000_0000) % Int32Modulus - 0x8000_0000
  }

  /** C# `a - b` on `int` in an unchecked context. */
  function Sub32(a: int32, b: int32): (r: int32)
    ensures (a - b - r) % Int32Modulus == 0
    ensures -0x8000_0000 <= a - b < 0x8000_0000 ==> r == a - b
  {
    Wrap32(a - b)
  }

  /** C# `a / 2` on `int`: the quotient is truncated toward zero. */
  function HalfTowardZero(a: int32): (r: int32)
    ensures a >= 0 ==> 0 <= a - 2 * r <= 1
    ensures a < 0 ==> -1 <= a - 2 * r <= 0
  {
    var n: int := a;
    if n >= 0 then n / 2 else -((-n) / 2)
  }
}
