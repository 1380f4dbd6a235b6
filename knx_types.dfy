/** Small value types shared by the frame codec and the connection engine. */
module KnxTypes {

  /** One octet on the wire, as read by Buffer.readUInt8 and written by Buffer.writeUInt8. */
  type byte = x: int | 0 <= x < 256

  /** A JavaScript value that may be null (an unset channel id, an unset timer handle, ...). */
  datatype Option<+T> = None | Some(value: T)

  /** The value a parser returns, or the error it throws. */
  datatype Result<+T, +E> = Success(value: T) | Failure(error: E)
}
