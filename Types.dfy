/** Small value types shared by every part of the model. */
module Types {

  /** java.util.Optional. */
  datatype Option<+T> = None | Some(value: T)

  /**
   * The outcome of calling code that may throw (a user transform, a
   * configuration supplier): either the value it returned, or an exception.
   */
  datatype Attempt<+T> = Done(value: T) | Threw

  /** A recomputed value paired with an explicit changed/unchanged signal. */
  datatype TransformationResult<+T> = TransformationResult(value: T, changed: bool)

  /** The value part of a possibly-throwing TransformationResult (`getValue()`). */
  function ValueOf<T>(r: Attempt<TransformationResult<T>>): (v: Attempt<T>)
    ensures v.Threw? <==> r.Threw?
    ensures v.Done? ==> v.value == r.value.value
  {
    match r
    case Done(t) => Done(t.value)
    case Threw => Threw
  }
}
