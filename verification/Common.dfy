/** Values shared by every module: optional values stand for the source's nil
    pointers, results for its (value, error) pairs. */
module Common {

  datatype Option<+T> = None | Some(value: T)

  datatype Result<+T, +E> = Ok(value: T) | Err(error: E)

  /** What one upstream client gives back: nothing is wired, the call failed, or a reading. */
  datatype Reading<+T> = NotWired | Failed(error: string) | Read(value: T)
}
