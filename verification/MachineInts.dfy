/** What the parts of the firmware share: its integer widths, and the test of its clock. */
module MachineInts {
  /** 2^32 and 2^31. */
  const WRAP: int := 0x1_0000_0000
  const HALF: int := 0x8000_0000

  type Uint32 = n: int | 0 <= n < WRAP
  type Int64 = n: int | -0x8000_0000_0000_0000 <= n < 0x8000_0000_0000_0000

  /** 2024-01-01: before it the clock has not been set. */
  const CLOCK_SANE := 1704067200
}
