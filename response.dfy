/**
 * The JSON envelope every endpoint of the backend answers with
 * (internal/model/response.go): `{code, msg, data}`.
 */
module Response {
  import opened Wrappers

  /** ResultEnum: the two business codes. */
  const CodeSuccess: int := 200
  const CodeError: int := 500

  /** `Result`; a nil `Data` is `None`, anything else is `Some`. */
  datatype Result<T> = Result(code: int, msg: string, data: Option<T>)

  /** A result reports success exactly when its code is `CodeSuccess`. */
  predicate IsSuccess<T>(r: Result<T>)
  {
    r.code == CodeSuccess
  }

  /** `Success(data)`: a success envelope that carries `d` and the fixed message. */
  function Success<T>(d: T): (r: Result<T>)
    ensures IsSuccess(r)
    ensures r.msg == "success" && r.data == Some(d)
  {
    Result(CodeSuccess, "success", Some(d))
  }

  /** `Fail(msg)`: a failure envelope carrying the message and no data. */
  function Fail<T>(m: string): (r: Result<T>)
    ensures !IsSuccess(r) && r.code == CodeError
    ensures r.msg == m && r.data == None
  {
    Result(CodeError, m, None)
  }

  /** The two codes differ, so `Code` alone tells a success from a failure. */
  lemma SuccessFailDistinct<T>(d: T, m: string)
    ensures CodeSuccess != CodeError
    ensures Success(d).code != Fail<T>(m).code
    ensures Success(d) != Fail<T>(m)
  {
  }

  /** Each constructor depends only on its argument and loses none of it. */
  lemma ConstructorsInjective<T>(d1: T, d2: T, m1: string, m2: string)
    ensures Success(d1) == Success(d2) <==> d1 == d2
    ensures Fail<T>(m1) == Fail<T>(m2) <==> m1 == m2
  {
  }
}
