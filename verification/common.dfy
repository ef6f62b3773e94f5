/** Value types shared by the backend handlers and the client model. */
module Common {

  /** `undefined`/`null` versus a present value. */
  datatype Option<+T> = None | Some(value: T) {
    function GetOr(default: T): T {
      match this
      case Some(v) => v
      case None => default
    }
  }

  /** A document's ObjectId, as a number. */
  type UserId = nat

  /** A value, or the reason there is none. */
  datatype Result<+T, +E> = Success(value: T) | Failure(error: E)

  /** What the media host reports for one uploaded file: its secure URL, or an error. */
  datatype UploadResult = Uploaded(secureUrl: string) | UploadFailed

  /** The HTTP outcome a handler picks: a status with a success body, or a status with the
      `{ success: false, message }` envelope. */
  datatype Response<+T> = Respond(status: int, body: T) | Reject(status: int, message: string)

  /** JavaScript truthiness of an optional string: `undefined` and `""` are falsy. */
  predicate Truthy(s: Option<string>) {
    s.Some? && s.value != ""
  }

  /** `a` is `b` with some entries left out, the rest kept in order. */
  predicate IsSubsequence<T(==)>(a: seq<T>, b: seq<T>)
    decreases |b|
  {
    a == [] || (b != [] && ((a[0] == b[0] && IsSubsequence(a[1..], b[1..])) || IsSubsequence(a, b[1..])))
  }
}
