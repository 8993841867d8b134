/** Types that both halves of the project use. */
module Basics {

  type byte = x: nat | x < 256
  type bytes = seq<byte>

  // A socket address.
  type Addr = nat

  datatype Option<+T> = None | Some(value: T)
}
