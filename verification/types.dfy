/** The value types shared by the event loop and the renderer: `List`, `Device` and `Error`. */
module Types {
  import opened Options

  /** A Bluetooth device address: six bytes, kept here as one 48-bit number. */
  newtype Address = x: int | 0 <= x < 0x1_0000_0000_0000

  /** Rust's `usize` on a 64-bit target. */
  const USIZE_MODULUS: int := 0x1_0000_0000_0000_0000
  newtype Usize = x: int | 0 <= x < USIZE_MODULUS

  /** `usize::wrapping_add`: the sum, or the sum minus 2^64 when it does not fit. */
  function WrappingAdd(a: Usize, b: Usize): (r: Usize)
    ensures r as int == (a as int + b as int) % USIZE_MODULUS
    ensures a as int + b as int < USIZE_MODULUS ==> r as int == a as int + b as int
  {
    if a as int + b as int < USIZE_MODULUS then a + b else (a as int + b as int - USIZE_MODULUS) as Usize
  }

  /** Which of the two device lists is meant; `Unpaired` is the default. */
  datatype List = Unpaired | Paired

  /** The `Display` text of a list, used as its table's title. */
  function ListName(list: List): string {
    match list
    case Unpaired => "Unpaired"
    case Paired => "Paired"
  }

  /**
    A discovered device. `loading` is `Some(frame counter)` while a pair or connect attempt that the
    user started on it is outstanding, and `None` otherwise.
  */
  datatype Device = Device(alias: string, connected: bool, loading: Option<Usize>)

  /** A user-visible failure: what went wrong and what the program was doing at the time. */
  datatype Error = Error(message: string, process: string)
}
