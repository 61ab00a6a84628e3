/** What a server handler answers: its payload, or the error `createError` raises. */
module Http {
  datatype Response<+T> = Ok(value: T) | ServerError(statusCode: int, statusMessage: string)

  /** `createError({statusCode: 500, statusMessage: prefix + error.message})`. */
  function InternalError<T>(prefix: string, message: string): (r: Response<T>)
    ensures r.ServerError? && r.statusCode == 500
    ensures |r.statusMessage| == |prefix| + |message|
    ensures r.statusMessage[..|prefix|] == prefix && r.statusMessage[|prefix|..] == message
  {
    ServerError(500, prefix + message)
  }
}
