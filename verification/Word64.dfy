/** The width of `size_t` and of the other 64-bit unsigned numbers of the program. */
module Word64 {
  const U64: nat := 0x1_0000_0000_0000_0000
}
