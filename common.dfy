/** Value types shared by the firmware and the server models. */
module Common {

  /** One octet, as Rust's `u8` and Go's `byte`. */
  newtype byte = x: int | 0 <= x < 256

  datatype Option<T> = None | Some(value: T)
}
