/** The shapes in which the backend's Python code hands back results. */
module Wrappers {

  datatype Option<+T> = None | Some(value: T)

  /** What a Python call does: it returns a value, or it raises an exception whose `str(e)` is kept. */
  datatype Outcome<+T> = Returns(value: T) | Raises(message: string)

  /** The `(value, None)` / `(None, message)` pairs that the media and YouTube helpers return. */
  datatype Result<+T> = Ok(value: T) | Err(message: string)
}
