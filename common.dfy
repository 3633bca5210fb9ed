/// Small building blocks shared by every module of the model.
module Common {
  /// Rust's `Option<T>`.
  datatype Option<T> = None | Some(value: T)
  {
    /// `Option::unwrap_or`.
    function UnwrapOr(default: T): T
    {
      match this
      case Some(v) => v
      case None => default
    }
  }

  /// An octet, as held in a `Vec<u8>` or `[u8; N]`.
  newtype byte = x: int | 0 <= x < 256
}
