/** Machine-level vocabulary shared by the Rust functions modelled here:
    fixed-width integer types as subset types of `int`, and the outcome of
    running a function that may panic. */
module Machine {

  type u8 = x: int | 0 <= x < 0x100
  type u32 = x: int | 0 <= x < 0x1_0000_0000
  type i32 = x: int | -0x8000_0000 <= x < 0x8000_0000
  /** `usize` on a 64-bit target. */
  type usize = x: int | 0 <= x < 0x1_0000_0000_0000_0000
  /** `std::num::NonZeroU32`: a `u32` that is never zero. */
  type NonZeroU32 = x: u32 | x != 0 witness 1

  const U32_MAX: u32 := 0xFFFF_FFFF

  /** Why a Rust function stopped with a panic. */
  datatype Panic =
    | Explicit(message: string)          // `panic!("...")`
    | AssertionFailed(condition: string) // `assert!(cond)` with `cond` false
    | AddOverflow                        // "attempt to add with overflow"
    | IndexOutOfBounds(len: nat, index: nat)

  /** The result of running a Rust function: it returns a value, or it panics. */
  datatype Outcome<T> = Returns(value: T) | Panics(reason: Panic)

  /** `std::option::Option`. */
  datatype Option<T> = None | Some(value: T)
}
