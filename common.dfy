/** Small datatypes shared by every module of the globe model. */
module Common {

  /** An optional value; failure-compatible so that `:-` can be used with it. */
  datatype Option<+T> = None | Some(value: T) {
    predicate IsFailure() { None? }

    function PropagateFailure<U>(): Option<U>
      requires None?
    {
      None
    }

    function Extract(): T
      requires Some?
    {
      value
    }
  }

  /** The outcome of an operation that Python would end with an exception. */
  datatype Result<+T, +E> = Success(value: T) | Failure(error: E) {
    predicate IsFailure() { Failure? }

    function PropagateFailure<U>(): Result<U, E>
      requires Failure?
    {
      Failure(error)
    }

    function Extract(): T
      requires Success?
    {
      value
    }
  }

  /** One pixel or texel: red, green and blue channel values. */
  datatype RGB = RGB(r: int, g: int, b: int) {
    function Plus(other: RGB): RGB {
      RGB(r + other.r, g + other.g, b + other.b)
    }
  }

  const Black := RGB(0, 0, 0)
}
