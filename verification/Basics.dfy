/** What several modules share: an optional value and the widths of the source's integers. */
module Basics {
  datatype Option<T> = None | Some(value: T)

  const TWO_32 := 0x1_0000_0000
  const TWO_64 := 0x1_0000_0000_0000_0000

  type u32 = x: nat | x < TWO_32
  type u64 = x: nat | x < TWO_64
}
