/** Fixed-width integers and the optional value used throughout the model. */
module Types {

  newtype uint32 = x: int | 0 <= x < 0x1_0000_0000
  newtype uint64 = x: int | 0 <= x < 0x1_0000_0000_0000_0000
  newtype int64 = x: int | -0x8000_0000_0000_0000 <= x < 0x8000_0000_0000_0000

  /** The model of `base::Optional<T>` / `std::optional<T>`. */
  datatype Option<+T> = None | Some(value: T)

  function Min(a: int64, b: int64): (m: int64)
    ensures m <= a && m <= b
    ensures m == a || m == b
  {
    if a <= b then a else b
  }
}
