/** Shared building blocks: the machine integer widths the Rust source uses,
    an Option type, and the error/result shape of `anyhow::Result`. */
module Common {

  /** Rust `u16` (the proxy API port, HTTP status codes). */
  newtype u16 = x: int | 0 <= x < 0x1_0000

  /** Rust `u32` (the TTL of a DNS record). */
  newtype u32 = x: int | 0 <= x < 0x1_0000_0000

  datatype Option<+T> = None | Some(value: T) {
    /** `Option::unwrap_or` */
    function UnwrapOr(default: T): T {
      match this
      case Some(v) => v
      case None => default
    }
  }

  /** Why fetching the proxy's router table failed: the transport failed, the
      response had a non-success status, or its body was not a JSON array of
      objects. */
  datatype Error =
    | Network(reason: string)
    | BadStatus(code: u16)
    | MalformedBody(reason: string)

  /** `anyhow::Result<T>` */
  datatype Result<+T> = Ok(value: T) | Err(error: Error)
}
