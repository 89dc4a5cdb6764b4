/** The `Option` type the kernel uses for lookups that may miss and
    allocations that may fail. */
module Wrappers {

  datatype Option<+T> = None | Some(value: T)
}
