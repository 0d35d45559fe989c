/** The exceptions the emulator core raises: the two of its own exceptions
    module and Python's built-in `TypeError`. */
module Exceptions {

  /** Message the bus attaches to the `TypeError` it raises on a bad datum. */
  const Uint8Required: string := "uint8 must be passed to the bus"

  datatype Error =
    | AddressOutOfBoundsError(address: int)   // write outside the 64 KiB space
    | TypeError(message: string)              // write of a datum that is not a uint8
    | NoBusConnectedError                     // bus access through a CPU with no bus
}
