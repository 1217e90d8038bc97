/** Types shared by the pixel codec, the board view and the UART buffers. */
module Common {

  /** One byte of shared board memory (std::byte / char in the C++ library). */
  type Byte = bv8

  /** A value that may be absent (std::optional in the C++ library). */
  datatype Option<T> = None | Some(value: T)
}
