/**
 * Sample values as they travel from the Arduino IoT Cloud series API to
 * SiteWise. Floating-point numbers are opaque payloads (their bit patterns);
 * nothing here computes with them.
 */
module Samples {

  /** Go's int32 and int64 (Go's `int` is 64 bits wide on the Lambda targets). */
  type Int32 = i: int | -0x8000_0000 <= i < 0x8000_0000
  type Int64 = i: int | -0x8000_0000_0000_0000 <= i < 0x8000_0000_0000_0000

  /** A float64 value: either its own bit pattern or a widened float32. */
  datatype Double = Float64(bits: bv64) | WidenedFloat32(bits32: bv32)

  const DoubleOne: Double := Float64(0x3FF0_0000_0000_0000)
  const DoubleZero: Double := Float64(0)

  /** The dynamic (`any`) values a sampled series or a data point can carry. */
  datatype Sample =
    | StringSample(s: string)
    | BoolSample(b: bool)
    | IntSample(i: Int64)
    | Int32Sample(i32: Int32)
    | Int64Sample(i64: Int64)
    | Float32Sample(f32: bv32)
    | Float64Sample(f64: bv64)
    /** A `map[string]any`, held as its JSON encoding (json.Marshal is not modelled). */
    | MapSample(json: string)
    /** Any other dynamic type, held as its `%v` rendering. */
    | OtherSample(printed: string)

  /** Go's int32(v) conversion: two's-complement truncation to 32 bits. */
  function ToInt32(v: Int64): (r: Int32)
    ensures -0x8000_0000 <= v < 0x8000_0000 ==> r == v
    ensures (r - v) % 0x1_0000_0000 == 0
  {
    var m := v % 0x1_0000_0000;
    if m < 0x8000_0000 then m else m - 0x1_0000_0000
  }
}
