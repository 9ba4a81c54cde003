/** The envelope types shared by the data layer: a nullable value and the
    two-variant `Result` every data-source query returns instead of throwing. */
module Results {

  /** Kotlin's nullable `T?`: `None` stands for `null`. */
  datatype Option<+T> = None | Some(value: T)

  /** `Result.Success(data)` or `Result.Error(message)`. */
  datatype Result<+T> = Success(data: T) | Error(message: string)
}
