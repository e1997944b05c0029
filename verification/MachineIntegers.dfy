/** The fixed-width integers of stored counters and identifiers. */
module MachineIntegers {
  const U64_MAX: nat := 0xFFFF_FFFF_FFFF_FFFF

  type U64 = n: nat | n <= U64_MAX
}
