/** Machine integers of the Go program and the two small result types every module shares. */
module Machine {
  /** Number of values of a Go `uint64`. */
  const MOD: int := 0x1_0000_0000_0000_0000

  /** Block numbers stay below 2^63: `big.NewInt(int64(number))` has no meaning above it. */
  const HEIGHT_LIMIT: int := 0x8000_0000_0000_0000

  type U64 = x: int | 0 <= x < MOD
  type U32 = x: int | 0 <= x < 0x1_0000_0000
  type Height = x: int | 0 <= x < HEIGHT_LIMIT

  /** `a + b`, `a * b` on `uint64`: they wrap. */
  function AddU64(a: U64, b: U64): U64 { (a + b) % MOD }

  function MulU64(a: U64, b: U64): U64 { (a * b) % MOD }

  datatype Option<+T> = None | Some(value: T)

  /** The remote call a failed lookup stopped at. */
  datatype Fault = HeadCall | BlockCall | ConsumerIdCall | FpKeysCall | BtcCall | PowerCall | VotesCall | NilBlock

  /** A Go `(value, error)` pair. */
  datatype Outcome<+T> = Ok(value: T) | Err(fault: Fault)
}
