/** The app's `Result` sealed class (domain/model/Result.kt is not part of this model;
    its three variants are those matched in every view model) and an `Option`
    standing in for Kotlin's nullable types. */
module Results {

  /** `T?`: absent (`null`) or present. */
  datatype Option<+T> = None | Some(value: T)

  /** What every repository operation and use case returns. */
  datatype Result<+T> =
    | Success(data: T)
    | Error(message: string)
    | Loading

  /** Kotlin's `Unit`, the payload of a successful delete. */
  datatype Unit = Unit
}
