/**
 * Types shared by every part of the runtime model: the render decision a
 * component returns, the frame rectangle, fixed-width integers, the explicit
 * type tags that stand in for `TypeId`, and the outcome of an operation that
 * may abort with a panic.
 */
module Component {

  /** Rust's `u8`. */
  type u8 = x: int | 0 <= x < 0x100

  /** Rust's `u64`. */
  type u64 = x: int | 0 <= x < 0x1_0000_0000_0000_0000

  /** The largest `usize` on a 64-bit target. */
  const USIZE_MAX: int := 0xFFFF_FFFF_FFFF_FFFF

  /** Rust's `usize` on a 64-bit target. */
  type usize = x: int | 0 <= x <= USIZE_MAX

  datatype Option<+T> = None | Some(value: T)

  /** Whether a component asks to be drawn again after a lifecycle call. */
  datatype ShouldRender = Yes | No

  datatype Position = Position(x: nat, y: nat)

  datatype Size = Size(width: nat, height: nat)

  /** The layout rectangle a component is given by the reconciler. */
  datatype Rect = Rect(origin: Position, size: Size)

  /**
   * An explicit stand-in for a concrete Rust type's `TypeId`: two tags are
   * the same type exactly when their fully qualified type paths agree.
   */
  datatype TypeTag = TypeTag(path: string)

  /**
   * The explicit key a caller may attach to a component definition to tell
   * apart siblings of the same type (`layout::ComponentKey`).
   */
  type ComponentKey = u64

  /**
   * The result of an operation that either completes with a value or aborts
   * the thread through `expect`, carrying the panic message.
   */
  datatype Outcome<+T> = Done(value: T) | Panic(message: string)
}
