/**
  The two-variant outcome that every schema check returns instead of throwing
  (src/data/result.ts). `ok(v)` and `err(e)` are the constructors `Ok` and `Err`;
  the record of closures they build becomes the member predicates and functions.
 */
module ResultType {

  /** A JavaScript `Error`. A `ColumnWritingError` also carries a field -> message map. */
  datatype Error =
    | Error(message: string)
    | ColumnWritingError(message: string, fields: map<string, string>)

  datatype Result<T> = Ok(value: T) | Err(error: Error) {

    predicate IsOk() { Ok? }

    predicate IsErr() { Err? }

    /** `unwrap()` where it returns; `CallUnwrap` below models the throwing case. */
    function Unwrap(): T
      requires Ok?
    {
      value
    }

    /** `unwrapErr()` where it returns; `CallUnwrapErr` below models the throwing case. */
    function UnwrapErr(): Error
      requires Err?
    {
      error
    }
  }

  /** How a call completes: it returns a value or it throws an `Error`. */
  datatype Completion<T> = Returned(returned: T) | Threw(thrown: Error)

  /** Calling `unwrap()` on either variant: an `Err` throws its own error. */
  function CallUnwrap<T>(r: Result<T>): Completion<T> {
    match r
    case Ok(v) => Returned(v)
    case Err(e) => Threw(e)
  }

  /**
    Calling `unwrapErr()` on either variant: an `Ok` throws an error whose message
    embeds the value, rendered by `show` (JavaScript's template-literal conversion).
   */
  function CallUnwrapErr<T>(r: Result<T>, show: T -> string): Completion<Error> {
    match r
    case Ok(v) => Threw(Error("unwrapErr called on Ok value: " + show(v)))
    case Err(e) => Returned(e)
  }

  /** `ok(v)`: is Ok, is not Err, unwraps to `v`, and `unwrapErr` throws mentioning `v`. */
  lemma OkLaws<T>(v: T, show: T -> string)
    ensures Ok(v).IsOk() && !Ok(v).IsErr()
    ensures CallUnwrap(Ok(v)) == Returned(v)
    ensures CallUnwrapErr(Ok(v), show) == Threw(Error("unwrapErr called on Ok value: " + show(v)))
  {
  }

  /** `err(e)`: is Err, is not Ok, `unwrapErr` returns `e`, and `unwrap` throws `e` itself. */
  lemma ErrLaws<T>(e: Error, show: T -> string)
    ensures Result<T>.Err(e).IsErr() && !Result<T>.Err(e).IsOk()
    ensures CallUnwrapErr(Result<T>.Err(e), show) == Returned(e)
    ensures CallUnwrap(Result<T>.Err(e)) == Threw(e)
  {
  }

  /** `isOk` and `isErr` are exact negations of each other. */
  lemma IsOkIsErrExclusive<T>(r: Result<T>)
    ensures r.IsOk() <==> !r.IsErr()
  {
  }

  /** Unwrapping loses nothing: the outcome of `unwrap()` rebuilds the result it was called on. */
  lemma UnwrapRecoversResult<T>(r: Result<T>)
    ensures r == match CallUnwrap(r)
                 case Returned(v) => Ok(v)
                 case Threw(e) => Err(e)
  {
  }
}
