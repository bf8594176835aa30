/** Failure-carrying datatypes shared by every stage of the pipeline.

  - Option<T>: a value that may be absent (Python's `Optional[...]` / `None`).
  - Result<T>: what an external call or a schema validation hands back,
    either a value or a failure with a human-readable message (the text of
    the exception the Python code would catch).
 */
module Results {

  datatype Option<+T> = None | Some(value: T)

  datatype Result<+T> = Ok(value: T) | Fail(message: string)
}
