/** Go's fixed-width integer types and the optional value used for Go's
    `nil`-able results, shared by every other module. */
module GoBase {

  const MaxUint64: int := 0xFFFF_FFFF_FFFF_FFFF

  /** Go `uint64`. */
  type uint64 = x: int | 0 <= x <= MaxUint64

  /** Go `int64`. Go's `int` is modelled by the same type, its size on 64-bit
      platforms; the source does not fix the platform. */
  type int64 = x: int | -0x8000_0000_0000_0000 <= x < 0x8000_0000_0000_0000

  datatype Option<+T> = None | Some(value: T)
}
