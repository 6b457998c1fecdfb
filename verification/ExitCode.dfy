/** The packing of an exit code into the reactor's signed 64-bit cell (`src/reactor.rs`). Integers are
    two's complement: bit 0 of a value, also of a negative one, is its remainder by 2, a signed right
    shift rounds down, and casts and left shifts keep the low bits. */
module ExitCode {
  import opened Wrappers

  type I32 = n: int | -0x8000_0000 <= n < 0x8000_0000
  type I64 = n: int | -0x8000_0000_0000_0000 <= n < 0x8000_0000_0000_0000

  function Wrap32(n: int): I32 {
    (n + 0x8000_0000) % 0x1_0000_0000 - 0x8000_0000
  }

  function Wrap64(n: int): I64 {
    (n + 0x8000_0000_0000_0000) % 0x1_0000_0000_0000_0000 - 0x8000_0000_0000_0000
  }

  /** `value << EXIT_CODE_SHIFT`, a shift by one bit. */
  function ShiftLeft(value: I64): I64 {
    Wrap64(value * 2)
  }

  /** `value >> EXIT_CODE_SHIFT`; the quotient by 2 rounds down. */
  function ShiftRight(value: I64): I64 {
    value / 2
  }

  /** `value & NEEDS_EXIT != 0`. */
  predicate NeedsExit(value: I64) {
    value % 2 == 1
  }

  /** `NEEDS_EXIT | value`. */
  function SetNeedsExit(value: I64): I64 {
    if NeedsExit(value) then value else value + 1
  }

  /** What `request_exit` stores. */
  function Pack(code: I32): I64 {
    SetNeedsExit(ShiftLeft(code))
  }

  /** What `exit_requested` reads. */
  function Unpack(value: I64): Option<I32> {
    if NeedsExit(value) then Some(Wrap32(ShiftRight(value))) else None
  }

  /** Every code, negative ones included, comes back, and the shift out of the 64 bits loses nothing. */
  lemma RoundTrip(code: I32)
    ensures Unpack(Pack(code)) == Some(code)
    ensures ShiftRight(Pack(code)) == code
  {
    assert ShiftLeft(code) == 2 * code;
  }
}
