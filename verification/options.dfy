/** Rust's `Option`, used for the registry's lookups, a device's `loading` slot and the error slot. */
module Options {
  datatype Option<+T> = None | Some(value: T)
}
