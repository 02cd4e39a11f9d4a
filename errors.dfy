/** Error values of the farm and the small wrappers that carry them. */
module Errors {

  datatype Option<+T> = None | Some(value: T)

  datatype Result<+T> = Ok(value: T) | Err(error: Error)

  /** The package's sentinel errors, an error produced outside the package
      (the operating system, a caller-supplied handler), and an error wrapped
      with the name of the thing it concerns (errors.Wrap). Stack wrapping
      (errors.WithStack) leaves the cause unchanged and is not represented. */
  datatype Error =
    | TargetExist             // ErrTargetExist
    | FileDirectoryConflict   // ErrFileDirectoryConflict
    | FileConflict            // ErrFileConflict
    | Os(message: string)
    | Tagged(context: string, cause: Error)
}
