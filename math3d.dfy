/**
 * The small vector and matrix value types the loader fills in: Vector2F,
 * Vector3F, ColorF and Matrix4x4F. Components are modelled as reals; the
 * component of index k of a vector is its k-th slot (X, Y, Z / R, G, B, A).
 */
module Math3D {
  type Vector2 = s: seq<real> | |s| == 2 witness [0.0, 0.0]
  type Vector3 = s: seq<real> | |s| == 3 witness [0.0, 0.0, 0.0]
  type Color = s: seq<real> | |s| == 4 witness [0.0, 0.0, 0.0, 0.0]

  predicate Is4x4(t: seq<seq<real>>) {
    |t| == 4 && |t[0]| == 4 && |t[1]| == 4 && |t[2]| == 4 && |t[3]| == 4
  }

  /** A 4x4 table indexed [row][column]. */
  type Matrix4x4 = t: seq<seq<real>> | Is4x4(t)
    witness [[1.0, 0.0, 0.0, 0.0], [0.0, 1.0, 0.0, 0.0], [0.0, 0.0, 1.0, 0.0], [0.0, 0.0, 0.0, 1.0]]

  const ZERO2: Vector2 := [0.0, 0.0]
  const ZERO3: Vector3 := [0.0, 0.0, 0.0]
  const ZERO_COLOR: Color := [0.0, 0.0, 0.0, 0.0]
  const WHITE: Color := [1.0, 1.0, 1.0, 1.0]
  const IDENTITY: Matrix4x4 :=
    [[1.0, 0.0, 0.0, 0.0], [0.0, 1.0, 0.0, 0.0], [0.0, 0.0, 1.0, 0.0], [0.0, 0.0, 0.0, 1.0]]

  /** Writes one cell of the table. */
  function SetCell(m: Matrix4x4, y: nat, x: nat, v: real): (r: Matrix4x4)
    requires y < 4 && x < 4
    ensures r[y][x] == v
    ensures forall i, k | 0 <= i < 4 && 0 <= k < 4 && (i != y || k != x) :: r[i][k] == m[i][k]
  {
    m[y := m[y][x := v]]
  }

  const SIZE_T_RANGE: int := 0x1_0000_0000_0000_0000

  /** An int stored into a size_t: reduced modulo 2^64. */
  function IntToSizeT(i: int): (r: nat)
    ensures r < SIZE_T_RANGE
    ensures 0 <= i < SIZE_T_RANGE ==> r == i
  {
    i % SIZE_T_RANGE
  }

  /** The C++ float-to-integer conversion: drops the fraction, rounding toward zero. */
  function Truncate(f: real): (r: int)
    ensures f >= 0.0 ==> r as real <= f < r as real + 1.0
    ensures f < 0.0 ==> r as real - 1.0 < f <= r as real
  {
    if f >= 0.0 then f.Floor else -((-f).Floor)
  }

  /** A float stored into a size_t: truncated, then reduced modulo 2^64 (the C++ conversion is undefined outside [0, 2^64)). */
  function FloatToSizeT(f: real): (r: nat)
    ensures r < SIZE_T_RANGE
    ensures 0.0 <= f < SIZE_T_RANGE as real ==> r == f.Floor
  {
    IntToSizeT(Truncate(f))
  }

  /** A product of naturals is a natural; stated once so that index expressions built from products type-check cheaply. */
  lemma MulNonNegative(a: nat, b: nat)
    ensures a * b >= 0
  {
  }
}
